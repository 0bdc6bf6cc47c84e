/**
 * The record store behind the HTTP API: five ordered collections (projects,
 * drafts, ideas, tech templates, productions), and the GET, POST and DELETE
 * handlers that read, upsert and remove records of one collection while
 * writing the other four back unchanged.
 *
 * Reading and writing the JSON file around each handler is not modelled:
 * the store is the in-memory value the handler reads and writes back.
 */
module ServerStore {
  import opened Wrappers
  import opened Types
  import opened Records

  function ProjectKey(p: Project): string { p.id }
  function DraftKey(d: Draft): string { d.id }
  function IdeaKey(i: Idea): string { i.id }
  function TemplateKey(t: TechTemplate): string { t.id }
  function ProductionKey(p: Production): string { p.id }

  /** The `id` query parameter is usable when present and non-empty (`if (id)`). */
  predicate HasId(id: Option<string>) {
    id.Some? && id.value != ""
  }

  /** A GET reply: the record found under the id (`null` when none), or the whole collection. */
  datatype GetReply<T> = Record(item: Option<T>) | Collection(items: seq<T>)

  /** A DELETE reply: `{ok: true}`, or the 400 `{error: "id required"}`. */
  datatype DeleteReply = DeleteOk | DeleteRejected(status: int, error: string)

  const IdRequired: DeleteReply := DeleteRejected(400, "id required")

  /** A POST body for ideas: a whole array (bulk save) or a single idea. */
  datatype IdeasBody = BulkIdeas(all: seq<Idea>) | OneIdea(idea: Idea)

  class DataStore {
    var projects: seq<Project>
    var drafts: seq<Draft>
    var ideas: seq<Idea>
    var templates: seq<TechTemplate>
    var productions: seq<Production>

    /** The store a missing data file starts from: five empty collections. */
    constructor ()
      ensures projects == [] && drafts == [] && ideas == [] && templates == [] && productions == []
    {
      projects := [];
      drafts := [];
      ideas := [];
      templates := [];
      productions := [];
    }

    /** `GET`: the first project with the given id (or none), or the whole collection when no id is given. */
    method GetProjects(id: Option<string>) returns (r: GetReply<Project>)
      ensures HasId(id) ==> r == Record(Find(projects, ProjectKey, id.value))
      ensures !HasId(id) ==> r == Collection(projects)
    {
      if HasId(id) {
        r := Record(Find(projects, ProjectKey, id.value));
      } else {
        r := Collection(projects);
      }
    }

    /** `POST`: replace the first project with the body's id in place, or append the body; echo it. */
    method PostProject(body: Project) returns (echo: Project)
      modifies this
      ensures echo == body
      ensures projects == Upsert(old(projects), ProjectKey, body)
      ensures drafts == old(drafts) && ideas == old(ideas) && templates == old(templates) && productions == old(productions)
    {
      var idx := FirstIndex(projects, ProjectKey, body.id);
      if idx >= 0 {
        projects := projects[idx := body];
      } else {
        projects := projects + [body];
      }
      echo := body;
    }

    /** `DELETE`: without an id, 400 and no change; otherwise every project with that id is filtered out. */
    method DeleteProject(id: Option<string>) returns (r: DeleteReply)
      modifies this
      ensures !HasId(id) ==> r == IdRequired && projects == old(projects)
      ensures HasId(id) ==> r == DeleteOk && projects == RemoveKey(old(projects), ProjectKey, id.value)
      ensures drafts == old(drafts) && ideas == old(ideas) && templates == old(templates) && productions == old(productions)
    {
      if !HasId(id) {
        return IdRequired;
      }
      projects := RemoveKey(projects, ProjectKey, id.value);
      r := DeleteOk;
    }

    /** `GET`: the first draft with the given id (or none), or the whole collection when no id is given. */
    method GetDrafts(id: Option<string>) returns (r: GetReply<Draft>)
      ensures HasId(id) ==> r == Record(Find(drafts, DraftKey, id.value))
      ensures !HasId(id) ==> r == Collection(drafts)
    {
      if HasId(id) {
        r := Record(Find(drafts, DraftKey, id.value));
      } else {
        r := Collection(drafts);
      }
    }

    /** `POST`: replace the first draft with the body's id in place, or append the body; echo it. */
    method PostDraft(body: Draft) returns (echo: Draft)
      modifies this
      ensures echo == body
      ensures drafts == Upsert(old(drafts), DraftKey, body)
      ensures projects == old(projects) && ideas == old(ideas) && templates == old(templates) && productions == old(productions)
    {
      var idx := FirstIndex(drafts, DraftKey, body.id);
      if idx >= 0 {
        drafts := drafts[idx := body];
      } else {
        drafts := drafts + [body];
      }
      echo := body;
    }

    /** `DELETE`: without an id, 400 and no change; otherwise every draft with that id is filtered out. */
    method DeleteDraft(id: Option<string>) returns (r: DeleteReply)
      modifies this
      ensures !HasId(id) ==> r == IdRequired && drafts == old(drafts)
      ensures HasId(id) ==> r == DeleteOk && drafts == RemoveKey(old(drafts), DraftKey, id.value)
      ensures projects == old(projects) && ideas == old(ideas) && templates == old(templates) && productions == old(productions)
    {
      if !HasId(id) {
        return IdRequired;
      }
      drafts := RemoveKey(drafts, DraftKey, id.value);
      r := DeleteOk;
    }

    /** `GET`: the first idea with the given id (or none), or the whole collection when no id is given. */
    method GetIdeas(id: Option<string>) returns (r: GetReply<Idea>)
      ensures HasId(id) ==> r == Record(Find(ideas, IdeaKey, id.value))
      ensures !HasId(id) ==> r == Collection(ideas)
    {
      if HasId(id) {
        r := Record(Find(ideas, IdeaKey, id.value));
      } else {
        r := Collection(ideas);
      }
    }

    /**
     * `POST /api/ideas`: an array body replaces the whole collection; a single
     * idea is upserted. The body is echoed back.
     */
    method PostIdeas(body: IdeasBody) returns (echo: IdeasBody)
      modifies this
      ensures echo == body
      ensures body.BulkIdeas? ==> ideas == body.all
      ensures body.OneIdea? ==> ideas == Upsert(old(ideas), IdeaKey, body.idea)
      ensures projects == old(projects) && drafts == old(drafts) && templates == old(templates) && productions == old(productions)
    {
      match body {
        case BulkIdeas(all) =>
          ideas := all;
        case OneIdea(x) =>
          var idx := FirstIndex(ideas, IdeaKey, x.id);
          if idx >= 0 {
            ideas := ideas[idx := x];
          } else {
            ideas := ideas + [x];
          }
      }
      echo := body;
    }

    /** `DELETE`: without an id, 400 and no change; otherwise every idea with that id is filtered out. */
    method DeleteIdea(id: Option<string>) returns (r: DeleteReply)
      modifies this
      ensures !HasId(id) ==> r == IdRequired && ideas == old(ideas)
      ensures HasId(id) ==> r == DeleteOk && ideas == RemoveKey(old(ideas), IdeaKey, id.value)
      ensures projects == old(projects) && drafts == old(drafts) && templates == old(templates) && productions == old(productions)
    {
      if !HasId(id) {
        return IdRequired;
      }
      ideas := RemoveKey(ideas, IdeaKey, id.value);
      r := DeleteOk;
    }

    /** `GET`: the first template with the given id (or none), or the whole collection when no id is given. */
    method GetTemplates(id: Option<string>) returns (r: GetReply<TechTemplate>)
      ensures HasId(id) ==> r == Record(Find(templates, TemplateKey, id.value))
      ensures !HasId(id) ==> r == Collection(templates)
    {
      if HasId(id) {
        r := Record(Find(templates, TemplateKey, id.value));
      } else {
        r := Collection(templates);
      }
    }

    /** `POST`: replace the first template with the body's id in place, or append the body; echo it. */
    method PostTemplate(body: TechTemplate) returns (echo: TechTemplate)
      modifies this
      ensures echo == body
      ensures templates == Upsert(old(templates), TemplateKey, body)
      ensures projects == old(projects) && drafts == old(drafts) && ideas == old(ideas) && productions == old(productions)
    {
      var idx := FirstIndex(templates, TemplateKey, body.id);
      if idx >= 0 {
        templates := templates[idx := body];
      } else {
        templates := templates + [body];
      }
      echo := body;
    }

    /** `DELETE`: without an id, 400 and no change; otherwise every template with that id is filtered out. */
    method DeleteTemplate(id: Option<string>) returns (r: DeleteReply)
      modifies this
      ensures !HasId(id) ==> r == IdRequired && templates == old(templates)
      ensures HasId(id) ==> r == DeleteOk && templates == RemoveKey(old(templates), TemplateKey, id.value)
      ensures projects == old(projects) && drafts == old(drafts) && ideas == old(ideas) && productions == old(productions)
    {
      if !HasId(id) {
        return IdRequired;
      }
      templates := RemoveKey(templates, TemplateKey, id.value);
      r := DeleteOk;
    }

    /** `GET`: the first production with the given id (or none), or the whole collection when no id is given. */
    method GetProductions(id: Option<string>) returns (r: GetReply<Production>)
      ensures HasId(id) ==> r == Record(Find(productions, ProductionKey, id.value))
      ensures !HasId(id) ==> r == Collection(productions)
    {
      if HasId(id) {
        r := Record(Find(productions, ProductionKey, id.value));
      } else {
        r := Collection(productions);
      }
    }

    /** `POST`: replace the first production with the body's id in place, or append the body; echo it. */
    method PostProduction(body: Production) returns (echo: Production)
      modifies this
      ensures echo == body
      ensures productions == Upsert(old(productions), ProductionKey, body)
      ensures projects == old(projects) && drafts == old(drafts) && ideas == old(ideas) && templates == old(templates)
    {
      var idx := FirstIndex(productions, ProductionKey, body.id);
      if idx >= 0 {
        productions := productions[idx := body];
      } else {
        productions := productions + [body];
      }
      echo := body;
    }

    /** `DELETE`: without an id, 400 and no change; otherwise every production with that id is filtered out. */
    method DeleteProduction(id: Option<string>) returns (r: DeleteReply)
      modifies this
      ensures !HasId(id) ==> r == IdRequired && productions == old(productions)
      ensures HasId(id) ==> r == DeleteOk && productions == RemoveKey(old(productions), ProductionKey, id.value)
      ensures projects == old(projects) && drafts == old(drafts) && ideas == old(ideas) && templates == old(templates)
    {
      if !HasId(id) {
        return IdRequired;
      }
      productions := RemoveKey(productions, ProductionKey, id.value);
      r := DeleteOk;
    }
  }
}
