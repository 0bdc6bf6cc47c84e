/**
 * The browser-side storage client: record builders, the `updatedAt`
 * stamping done on save, and the calls into the record store.
 *
 * Fresh ids and clock readings are parameters: each `new Date()` the source
 * evaluates is a separate argument, so two readings are never taken to be equal.
 * The HTTP hop is a direct call of the matching store handler, with the
 * query-string `id` passed through unchanged.
 */
module StorageClient {
  import opened Wrappers
  import opened Types
  import opened Records
  import opened ServerStore

  /** What a single-record getter resolves to. */
  datatype Lookup<T> =
    | Found(item: T)
    /** the route answered `null`, which `?? undefined` turns into `undefined` */
    | NotFound
    /** an empty id sends `?id=`, which the route answers with the whole collection */
    | WholeCollection(items: seq<T>)

  /** The getter's view of a collection: what `getX(id)` resolves to. */
  function LookupIn<T>(s: seq<T>, key: T -> string, id: string): (r: Lookup<T>)
    ensures id == "" <==> r.WholeCollection?
    ensures r.Found? ==> key(r.item) == id && r.item in s
    ensures r.NotFound? <==> id != "" && forall j :: 0 <= j < |s| ==> key(s[j]) != id
  {
    if id == "" then WholeCollection(s)
    else match Find(s, key, id)
      case Some(x) => Found(x)
      case None => NotFound
  }

  /** After a record is upserted, looking up its (non-empty) id yields exactly that record. */
  lemma LookupAfterUpsert<T>(s: seq<T>, key: T -> string, x: T)
    requires key(x) != ""
    ensures LookupIn(Upsert(s, key, x), key, key(x)) == Found(x)
  {
  }

  /** After a delete by a non-empty id, looking that id up finds nothing. */
  lemma LookupAfterRemove<T>(s: seq<T>, key: T -> string, id: string)
    requires id != ""
    ensures LookupIn(RemoveKey(s, key, id), key, id) == NotFound
  {
  }

  /** `{...project, updatedAt: now}`. */
  function StampProject(p: Project, now: string): (r: Project)
    ensures r.updatedAt == now && r.(updatedAt := p.updatedAt) == p
  {
    p.(updatedAt := now)
  }

  function StampDraft(d: Draft, now: string): (r: Draft)
    ensures r.updatedAt == now && r.(updatedAt := d.updatedAt) == d
  {
    d.(updatedAt := now)
  }

  function StampIdea(i: Idea, now: string): (r: Idea)
    ensures r.updatedAt == now && r.(updatedAt := i.updatedAt) == i
  {
    i.(updatedAt := now)
  }

  function StampProduction(p: Production, now: string): (r: Production)
    ensures r.updatedAt == now && r.(updatedAt := p.updatedAt) == p
  {
    p.(updatedAt := now)
  }

  /** Only the last stamp counts: saving twice stores what one save with the later clock stores. */
  lemma StampTwice(p: Project, d: Draft, i: Idea, q: Production, a: string, b: string)
    ensures StampProject(StampProject(p, a), b) == StampProject(p, b)
    ensures StampDraft(StampDraft(d, a), b) == StampDraft(d, b)
    ensures StampIdea(StampIdea(i, a), b) == StampIdea(i, b)
    ensures StampProduction(StampProduction(q, a), b) == StampProduction(q, b)
  {
  }

  /** The record `createProject` builds: no generated documents yet. */
  function NewProject(wizardData: WizardData, id: string, createdAt: string, updatedAt: string): (r: Project)
    ensures r.id == id && r.wizardData == wizardData
    ensures r.generatedPRD.None? && r.generatedTDD.None?
  {
    Project(id, createdAt, updatedAt, wizardData, None, None)
  }

  /** The record `createDraft` builds: the default answers at step 0. */
  function NewDraft(id: string, createdAt: string, updatedAt: string): (r: Draft)
    ensures r.id == id && r.wizardData == DefaultWizardData && r.currentStep == 0
  {
    Draft(id, createdAt, updatedAt, DefaultWizardData, 0)
  }

  /** The record `createIdea` builds: title and content verbatim. */
  function NewIdea(title: string, content: string, id: string, createdAt: string, updatedAt: string): (r: Idea)
    ensures r.id == id && r.title == title && r.content == content
  {
    Idea(id, title, content, createdAt, updatedAt)
  }

  /** The record `createTechTemplate` builds: name, description and tech verbatim. */
  function NewTechTemplate(name: string, description: string, tech: ProjectTech, id: string, createdAt: string): (r: TechTemplate)
    ensures r.id == id && r.name == name && r.description == description && r.tech == tech
  {
    TechTemplate(id, name, description, tech, createdAt)
  }

  /** A production without its id and timestamps: the argument of `createProduction`. */
  datatype ProductionInput = ProductionInput(
    name: string, url: Option<string>, platform: string, status: string,
    version: Option<string>, releaseDate: Option<string>, description: Option<string>,
    notes: string, screenshotUrls: Option<seq<string>>)

  /** `{...data, id, createdAt, updatedAt}`. */
  function NewProduction(data: ProductionInput, id: string, createdAt: string, updatedAt: string): (r: Production)
    ensures r.id == id && r.createdAt == createdAt && r.updatedAt == updatedAt
    ensures WithoutIdentity(r) == data
  {
    Production(id, data.name, data.url, data.platform, data.status, data.version,
               data.releaseDate, data.description, data.notes, data.screenshotUrls,
               createdAt, updatedAt)
  }

  /** The supplied part of a production: everything except id and timestamps. */
  function WithoutIdentity(p: Production): ProductionInput {
    ProductionInput(p.name, p.url, p.platform, p.status, p.version, p.releaseDate,
                    p.description, p.notes, p.screenshotUrls)
  }

  /** A production is its supplied part plus its identity: building from the parts gives it back. */
  lemma ProductionRoundTrip(p: Production)
    ensures NewProduction(WithoutIdentity(p), p.id, p.createdAt, p.updatedAt) == p
  {
  }

  method GetProjects(store: DataStore) returns (r: seq<Project>)
    ensures r == store.projects
  {
    var reply := store.GetProjects(None);
    r := reply.items;
  }

  method GetProject(store: DataStore, id: string) returns (r: Lookup<Project>)
    ensures r == LookupIn(store.projects, ProjectKey, id)
  {
    var reply := store.GetProjects(Some(id));
    r := match reply
      case Record(Some(x)) => Found(x)
      case Record(None) => NotFound
      case Collection(all) => WholeCollection(all);
  }

  /** `saveProject`: the store receives the project with only `updatedAt` replaced by `now`. */
  method SaveProject(store: DataStore, p: Project, now: string)
    modifies store
    ensures store.projects == Upsert(old(store.projects), ProjectKey, StampProject(p, now))
    ensures store.drafts == old(store.drafts) && store.ideas == old(store.ideas)
    ensures store.templates == old(store.templates) && store.productions == old(store.productions)
  {
    var _ := store.PostProject(StampProject(p, now));
  }

  /**
   * `createProject`: builds the record, saves it (stamped with the save's own
   * clock reading) and returns the unstamped record.
   */
  method CreateProject(store: DataStore, wizardData: WizardData, id: string,
                       createdAt: string, updatedAt: string, saveTime: string) returns (p: Project)
    modifies store
    ensures p == NewProject(wizardData, id, createdAt, updatedAt)
    ensures store.projects == Upsert(old(store.projects), ProjectKey, StampProject(p, saveTime))
    ensures store.drafts == old(store.drafts) && store.ideas == old(store.ideas)
    ensures store.templates == old(store.templates) && store.productions == old(store.productions)
  {
    p := NewProject(wizardData, id, createdAt, updatedAt);
    SaveProject(store, p, saveTime);
  }

  method DeleteProject(store: DataStore, id: string)
    modifies store
    ensures id == "" ==> store.projects == old(store.projects)
    ensures id != "" ==> store.projects == RemoveKey(old(store.projects), ProjectKey, id)
    ensures store.drafts == old(store.drafts) && store.ideas == old(store.ideas)
    ensures store.templates == old(store.templates) && store.productions == old(store.productions)
  {
    var _ := store.DeleteProject(Some(id));
  }

  method GetDrafts(store: DataStore) returns (r: seq<Draft>)
    ensures r == store.drafts
  {
    var reply := store.GetDrafts(None);
    r := reply.items;
  }

  method GetDraft(store: DataStore, id: string) returns (r: Lookup<Draft>)
    ensures r == LookupIn(store.drafts, DraftKey, id)
  {
    var reply := store.GetDrafts(Some(id));
    r := match reply
      case Record(Some(x)) => Found(x)
      case Record(None) => NotFound
      case Collection(all) => WholeCollection(all);
  }

  method SaveDraft(store: DataStore, d: Draft, now: string)
    modifies store
    ensures store.drafts == Upsert(old(store.drafts), DraftKey, StampDraft(d, now))
    ensures store.projects == old(store.projects) && store.ideas == old(store.ideas)
    ensures store.templates == old(store.templates) && store.productions == old(store.productions)
  {
    var _ := store.PostDraft(StampDraft(d, now));
  }

  method CreateDraft(store: DataStore, id: string, createdAt: string, updatedAt: string, saveTime: string)
    returns (d: Draft)
    modifies store
    ensures d == NewDraft(id, createdAt, updatedAt)
    ensures store.drafts == Upsert(old(store.drafts), DraftKey, StampDraft(d, saveTime))
    ensures store.projects == old(store.projects) && store.ideas == old(store.ideas)
    ensures store.templates == old(store.templates) && store.productions == old(store.productions)
  {
    d := NewDraft(id, createdAt, updatedAt);
    SaveDraft(store, d, saveTime);
  }

  method DeleteDraft(store: DataStore, id: string)
    modifies store
    ensures id == "" ==> store.drafts == old(store.drafts)
    ensures id != "" ==> store.drafts == RemoveKey(old(store.drafts), DraftKey, id)
    ensures store.projects == old(store.projects) && store.ideas == old(store.ideas)
    ensures store.templates == old(store.templates) && store.productions == old(store.productions)
  {
    var _ := store.DeleteDraft(Some(id));
  }

  method GetIdeas(store: DataStore) returns (r: seq<Idea>)
    ensures r == store.ideas
  {
    var reply := store.GetIdeas(None);
    r := reply.items;
  }

  method GetIdea(store: DataStore, id: string) returns (r: Lookup<Idea>)
    ensures r == LookupIn(store.ideas, IdeaKey, id)
  {
    var reply := store.GetIdeas(Some(id));
    r := match reply
      case Record(Some(x)) => Found(x)
      case Record(None) => NotFound
      case Collection(all) => WholeCollection(all);
  }

  method SaveIdea(store: DataStore, i: Idea, now: string)
    modifies store
    ensures store.ideas == Upsert(old(store.ideas), IdeaKey, StampIdea(i, now))
    ensures store.projects == old(store.projects) && store.drafts == old(store.drafts)
    ensures store.templates == old(store.templates) && store.productions == old(store.productions)
  {
    var _ := store.PostIdeas(OneIdea(StampIdea(i, now)));
  }

  method CreateIdea(store: DataStore, title: string, content: string, id: string,
                    createdAt: string, updatedAt: string, saveTime: string) returns (i: Idea)
    modifies store
    ensures i == NewIdea(title, content, id, createdAt, updatedAt)
    ensures store.ideas == Upsert(old(store.ideas), IdeaKey, StampIdea(i, saveTime))
    ensures store.projects == old(store.projects) && store.drafts == old(store.drafts)
    ensures store.templates == old(store.templates) && store.productions == old(store.productions)
  {
    i := NewIdea(title, content, id, createdAt, updatedAt);
    SaveIdea(store, i, saveTime);
  }

  method DeleteIdea(store: DataStore, id: string)
    modifies store
    ensures id == "" ==> store.ideas == old(store.ideas)
    ensures id != "" ==> store.ideas == RemoveKey(old(store.ideas), IdeaKey, id)
    ensures store.projects == old(store.projects) && store.drafts == old(store.drafts)
    ensures store.templates == old(store.templates) && store.productions == old(store.productions)
  {
    var _ := store.DeleteIdea(Some(id));
  }

  /** `saveIdeas`: the whole list is sent as is, with no timestamps, and replaces the collection. */
  method SaveIdeas(store: DataStore, all: seq<Idea>)
    modifies store
    ensures store.ideas == all
    ensures store.projects == old(store.projects) && store.drafts == old(store.drafts)
    ensures store.templates == old(store.templates) && store.productions == old(store.productions)
  {
    var _ := store.PostIdeas(BulkIdeas(all));
  }

  method GetTechTemplates(store: DataStore) returns (r: seq<TechTemplate>)
    ensures r == store.templates
  {
    var reply := store.GetTemplates(None);
    r := reply.items;
  }

  /** `saveTechTemplate`: the template is sent as is; templates carry no `updatedAt`. */
  method SaveTechTemplate(store: DataStore, t: TechTemplate)
    modifies store
    ensures store.templates == Upsert(old(store.templates), TemplateKey, t)
    ensures store.projects == old(store.projects) && store.drafts == old(store.drafts)
    ensures store.ideas == old(store.ideas) && store.productions == old(store.productions)
  {
    var _ := store.PostTemplate(t);
  }

  method CreateTechTemplate(store: DataStore, name: string, description: string, tech: ProjectTech,
                            id: string, createdAt: string) returns (t: TechTemplate)
    modifies store
    ensures t == NewTechTemplate(name, description, tech, id, createdAt)
    ensures store.templates == Upsert(old(store.templates), TemplateKey, t)
    ensures store.projects == old(store.projects) && store.drafts == old(store.drafts)
    ensures store.ideas == old(store.ideas) && store.productions == old(store.productions)
  {
    t := NewTechTemplate(name, description, tech, id, createdAt);
    SaveTechTemplate(store, t);
  }

  method DeleteTechTemplate(store: DataStore, id: string)
    modifies store
    ensures id == "" ==> store.templates == old(store.templates)
    ensures id != "" ==> store.templates == RemoveKey(old(store.templates), TemplateKey, id)
    ensures store.projects == old(store.projects) && store.drafts == old(store.drafts)
    ensures store.ideas == old(store.ideas) && store.productions == old(store.productions)
  {
    var _ := store.DeleteTemplate(Some(id));
  }

  method GetProductions(store: DataStore) returns (r: seq<Production>)
    ensures r == store.productions
  {
    var reply := store.GetProductions(None);
    r := reply.items;
  }

  method GetProduction(store: DataStore, id: string) returns (r: Lookup<Production>)
    ensures r == LookupIn(store.productions, ProductionKey, id)
  {
    var reply := store.GetProductions(Some(id));
    r := match reply
      case Record(Some(x)) => Found(x)
      case Record(None) => NotFound
      case Collection(all) => WholeCollection(all);
  }

  method SaveProduction(store: DataStore, p: Production, now: string)
    modifies store
    ensures store.productions == Upsert(old(store.productions), ProductionKey, StampProduction(p, now))
    ensures store.projects == old(store.projects) && store.drafts == old(store.drafts)
    ensures store.ideas == old(store.ideas) && store.templates == old(store.templates)
  {
    var _ := store.PostProduction(StampProduction(p, now));
  }

  method CreateProduction(store: DataStore, data: ProductionInput, id: string,
                          createdAt: string, updatedAt: string, saveTime: string) returns (p: Production)
    modifies store
    ensures p == NewProduction(data, id, createdAt, updatedAt)
    ensures store.productions == Upsert(old(store.productions), ProductionKey, StampProduction(p, saveTime))
    ensures store.projects == old(store.projects) && store.drafts == old(store.drafts)
    ensures store.ideas == old(store.ideas) && store.templates == old(store.templates)
  {
    p := NewProduction(data, id, createdAt, updatedAt);
    SaveProduction(store, p, saveTime);
  }

  method DeleteProduction(store: DataStore, id: string)
    modifies store
    ensures id == "" ==> store.productions == old(store.productions)
    ensures id != "" ==> store.productions == RemoveKey(old(store.productions), ProductionKey, id)
    ensures store.projects == old(store.projects) && store.drafts == old(store.drafts)
    ensures store.ideas == old(store.ideas) && store.templates == old(store.templates)
  {
    var _ := store.DeleteProduction(Some(id));
  }
}
