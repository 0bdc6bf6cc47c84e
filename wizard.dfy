/**
 * The wizard container: the current step (0..4), the answers being edited,
 * the generating flag and the error banner, the navigation between steps,
 * and the generate handler that requests each selected document in turn,
 * stops at the first failure, and otherwise stores the documents on the
 * project, saves it and navigates to it.
 *
 * The generate handler is modelled with every storage call awaited. The
 * generation endpoint is a parameter: `server(k)` is how the k-th request of
 * this run ends (for the endpoint of this system, a reply that is
 * `GenerateRoute.Post`'s). A reply counts as ok exactly when it carries
 * content; a request can also end in a thrown error (the fetch itself
 * rejecting, or a reply body that is not JSON).
 */
module Wizard {
  import opened Wrappers
  import opened Text
  import opened Types
  import opened Records
  import opened Prompts
  import opened GenerateRoute
  import opened ServerStore
  import opened StorageClient

  /** The number of the last step, Review. */
  const LastStep: int := 4

  const FailedToCreate: string := "Failed to create project"
  const SomethingWentWrong: string := "Something went wrong"

  /** The body the wizard posts for one document. */
  function RequestFor(data: WizardData, d: DocType): GenerateRequest {
    GenerateRequest(data, DocTypeName(d))
  }

  /**
   * How one request ends: the endpoint's decoded reply, or an error thrown
   * by `fetch` or `res.json()` with its message.
   */
  datatype FetchResult = Received(response: GenerateResponse) | Rejected(message: string)

  /** The request delivered a document: an ok reply with its content. */
  predicate Delivered(reply: FetchResult) {
    reply.Received? && reply.response.Content?
  }

  /**
   * The banner text a failed request leads to: the reply's error or
   * "Generation failed" for a reply that is not ok, the thrown message or
   * "Something went wrong" for a thrown error.
   */
  function AbortMessage(reply: FetchResult): (r: string)
    requires !Delivered(reply)
    ensures r != ""
    ensures reply.Received? && reply.response.error != "" ==> r == reply.response.error
    ensures reply.Received? && reply.response.error == "" ==> r == GenerationFailed
    ensures reply.Rejected? && reply.message != "" ==> r == reply.message
    ensures reply.Rejected? && reply.message == "" ==> r == SomethingWentWrong
  {
    match reply
    case Received(res) => OrElse(res.error, GenerationFailed)
    case Rejected(m) => OrElse(m, SomethingWentWrong)
  }

  /** The endpoint's reply to the k-th request of a run. */
  function ResponseAt(data: WizardData, docs: seq<DocType>, server: nat -> (GenerateRequest -> FetchResult), k: nat): FetchResult
    requires k < |docs|
  {
    server(k)(RequestFor(data, docs[k]))
  }

  /** The project after one document arrived. */
  function WithDocument(p: Project, d: DocType, content: string): Project {
    match d
    case Prd => p.(generatedPRD := Some(content))
    case Tdd => p.(generatedTDD := Some(content))
  }

  /** How a generate run ends: with the project holding the new documents, or with an error message. */
  datatype GenerateOutcome = Generated(project: Project) | Aborted(message: string)

  /**
   * The requests from the k-th on: each successful reply stores its
   * document; the first failed request ends the run with its abort message.
   */
  function RunRequests(data: WizardData, docs: seq<DocType>, server: nat -> (GenerateRequest -> FetchResult),
                       k: nat, p: Project): (r: GenerateOutcome)
    requires k <= |docs|
    ensures r.Aborted? ==> r.message != ""
    decreases |docs| - k
  {
    if k == |docs| then Generated(p)
    else
      var reply := ResponseAt(data, docs, server, k);
      if Delivered(reply) then RunRequests(data, docs, server, k + 1, WithDocument(p, docs[k], reply.response.content))
      else Aborted(AbortMessage(reply))
  }

  /** A run succeeds exactly when every reply from the k-th on carries content. */
  lemma {:induction false} RunSucceedsIff(data: WizardData, docs: seq<DocType>,
                                          server: nat -> (GenerateRequest -> FetchResult), k: nat, p: Project)
    requires k <= |docs|
    ensures RunRequests(data, docs, server, k, p).Generated?
        <==> forall j :: k <= j < |docs| ==> Delivered(ResponseAt(data, docs, server, j))
    decreases |docs| - k
  {
    if k < |docs| && Delivered(ResponseAt(data, docs, server, k)) {
      RunSucceedsIff(data, docs, server, k + 1, WithDocument(p, docs[k], ResponseAt(data, docs, server, k).response.content));
    }
  }

  /** A run stops at the first failed request and reports its abort message. */
  lemma {:induction false} RunStopsAtFirstFailure(data: WizardData, docs: seq<DocType>,
                                                  server: nat -> (GenerateRequest -> FetchResult),
                                                  k: nat, p: Project, f: nat)
    requires k <= f < |docs| && !Delivered(ResponseAt(data, docs, server, f))
    requires forall j :: k <= j < f ==> Delivered(ResponseAt(data, docs, server, j))
    ensures RunRequests(data, docs, server, k, p) == Aborted(AbortMessage(ResponseAt(data, docs, server, f)))
    decreases f - k
  {
    if k < f {
      RunStopsAtFirstFailure(data, docs, server, k + 1,
                             WithDocument(p, docs[k], ResponseAt(data, docs, server, k).response.content), f);
    }
  }

  /** The document of kind d a project holds. */
  function StoredDocument(p: Project, d: DocType): Option<string> {
    match d
    case Prd => p.generatedPRD
    case Tdd => p.generatedTDD
  }

  /**
   * A successful run sets the PRD exactly when a PRD was requested and the
   * TDD exactly when a TDD was requested; nothing else about the project
   * changes.
   */
  lemma {:induction false} RunSetsRequestedDocuments(data: WizardData, docs: seq<DocType>,
                                                     server: nat -> (GenerateRequest -> FetchResult),
                                                     k: nat, p: Project)
    requires k <= |docs| && RunRequests(data, docs, server, k, p).Generated?
    ensures var q := RunRequests(data, docs, server, k, p).project;
      q.(generatedPRD := p.generatedPRD, generatedTDD := p.generatedTDD) == p
      && (Prd in docs[k..] ==> q.generatedPRD.Some?) && (Prd !in docs[k..] ==> q.generatedPRD == p.generatedPRD)
      && (Tdd in docs[k..] ==> q.generatedTDD.Some?) && (Tdd !in docs[k..] ==> q.generatedTDD == p.generatedTDD)
    decreases |docs| - k
  {
    if k < |docs| {
      var c := ResponseAt(data, docs, server, k).response.content;
      var p' := WithDocument(p, docs[k], c);
      RunSetsRequestedDocuments(data, docs, server, k + 1, p');
      assert docs[k..] == [docs[k]] + docs[k + 1..];
    }
  }

  /**
   * A successful run delivered the j-th reply, and when no later request
   * asks for the same kind, that reply's content is the stored document.
   */
  lemma {:induction false} RunStoresLastReply(data: WizardData, docs: seq<DocType>,
                                              server: nat -> (GenerateRequest -> FetchResult),
                                              k: nat, p: Project, j: nat)
    requires k <= j < |docs| && docs[j] !in docs[j + 1..]
    requires RunRequests(data, docs, server, k, p).Generated?
    ensures Delivered(ResponseAt(data, docs, server, j))
    ensures StoredDocument(RunRequests(data, docs, server, k, p).project, docs[j])
         == Some(ResponseAt(data, docs, server, j).response.content)
    decreases |docs| - k
  {
    var c := ResponseAt(data, docs, server, k).response.content;
    var p' := WithDocument(p, docs[k], c);
    assert RunRequests(data, docs, server, k, p) == RunRequests(data, docs, server, k + 1, p');
    if k < j {
      RunStoresLastReply(data, docs, server, k + 1, p', j);
    } else {
      RunSetsRequestedDocuments(data, docs, server, k + 1, p');
      assert StoredDocument(p', docs[k]) == Some(c);
    }
  }

  /**
   * For a wizard opened without a project id, a successful run's project has
   * a PRD exactly when one was requested and a TDD exactly when one was.
   */
  lemma NewProjectGetsExactlyRequested(data: WizardData, docs: seq<DocType>,
                                       server: nat -> (GenerateRequest -> FetchResult),
                                       projects: seq<Project>, newId: string, createdAt: string, updatedAt: string)
    requires GenerateRun(None, data, docs, server, projects, newId, createdAt, updatedAt).Generated?
    ensures var q := GenerateRun(None, data, docs, server, projects, newId, createdAt, updatedAt).project;
      q.id == newId && q.wizardData == data
      && (q.generatedPRD.Some? <==> Prd in docs) && (q.generatedTDD.Some? <==> Tdd in docs)
  {
    var p := NewProject(data, newId, createdAt, updatedAt);
    RunSetsRequestedDocuments(data, docs, server, 0, p);
    assert docs[0..] == docs;
  }

  /**
   * The request loop of the generate handler: one request per selected
   * document, in the order given, storing each document on the project and
   * stopping at the first failed reply.
   */
  method SendRequests(data: WizardData, docs: seq<DocType>, server: nat -> (GenerateRequest -> FetchResult),
                      p: Project) returns (r: GenerateOutcome)
    ensures r == RunRequests(data, docs, server, 0, p)
  {
    var project := p;
    var i := 0;
    while i < |docs|
      invariant 0 <= i <= |docs|
      invariant RunRequests(data, docs, server, i, project) == RunRequests(data, docs, server, 0, p)
    {
      var res := server(i)(RequestFor(data, docs[i]));
      if !Delivered(res) {
        return Aborted(AbortMessage(res));
      }
      project := WithDocument(project, docs[i], res.response.content);
      i := i + 1;
    }
    return Generated(project);
  }

  /** The project a run starts from: the stored one being edited, or a freshly built one. */
  function StartingProject(projectId: Option<string>, data: WizardData, projects: seq<Project>,
                           newId: string, createdAt: string, updatedAt: string): Option<Project>
  {
    if HasId(projectId) then
      match LookupIn(projects, ProjectKey, projectId.value)
      case Found(p) => Some(p)
      case _ => None
    else Some(NewProject(data, newId, createdAt, updatedAt))
  }

  /** The outcome of a whole generate run. */
  function GenerateRun(projectId: Option<string>, data: WizardData, docs: seq<DocType>,
                       server: nat -> (GenerateRequest -> FetchResult), projects: seq<Project>,
                       newId: string, createdAt: string, updatedAt: string): (r: GenerateOutcome)
    ensures r.Aborted? ==> r.message != ""
  {
    match StartingProject(projectId, data, projects, newId, createdAt, updatedAt)
    case Some(p) => RunRequests(data, docs, server, 0, p)
    case None => Aborted(FailedToCreate)
  }

  /** The projects collection once the run has its starting project: a new one is saved before any request. */
  function ProjectsAfterStart(projectId: Option<string>, data: WizardData, projects: seq<Project>,
                              newId: string, createdAt: string, updatedAt: string, createSaveTime: string): seq<Project>
  {
    if HasId(projectId) then projects
    else Upsert(projects, ProjectKey, StampProject(NewProject(data, newId, createdAt, updatedAt), createSaveTime))
  }

  /** "/project/" followed by the id. */
  function ProjectPath(id: string): string {
    "/project/" + id
  }

  class WizardContainer {
    /** The id of the project being edited, if the page was opened for one. */
    var projectId: Option<string>
    var step: int
    var data: WizardData
    var isGenerating: bool
    var error: string
    /** The last route the wizard navigated to. */
    var navigatedTo: Option<string>

    predicate Valid()
      reads this
    {
      0 <= step <= LastStep
    }

    /** A fresh wizard: step 0, the default answers, nothing generating, no error. */
    constructor (projectId: Option<string>)
      ensures Valid()
      ensures this.projectId == projectId && step == 0 && data == DefaultWizardData
      ensures !isGenerating && error == "" && navigatedTo == None
    {
      this.projectId := projectId;
      step := 0;
      data := DefaultWizardData;
      isGenerating := false;
      error := "";
      navigatedTo := None;
    }

    /** Back: shown while step < 4 and disabled at step 0. */
    method Back()
      requires Valid() && 0 < step < LastStep
      modifies this
      ensures Valid() && step == old(step) - 1
      ensures data == old(data) && error == old(error) && isGenerating == old(isGenerating)
      ensures projectId == old(projectId) && navigatedTo == old(navigatedTo)
    {
      step := step - 1;
    }

    /** Next: shown while step < 4. */
    method Next()
      requires Valid() && step < LastStep
      modifies this
      ensures Valid() && step == old(step) + 1
      ensures data == old(data) && error == old(error) && isGenerating == old(isGenerating)
      ensures projectId == old(projectId) && navigatedTo == old(navigatedTo)
    {
      step := step + 1;
    }

    /** The step indicator's buttons and Review's Edit links jump straight to a step. */
    method GoTo(i: int)
      requires Valid() && 0 <= i <= LastStep
      modifies this
      ensures Valid() && step == i
      ensures data == old(data) && error == old(error) && isGenerating == old(isGenerating)
      ensures projectId == old(projectId) && navigatedTo == old(navigatedTo)
    {
      step := i;
    }

    /** The Basics step reports a new basics record; the other three parts stay. */
    method SetBasics(basics: ProjectBasics)
      modifies this
      ensures data == old(data).(basics := basics)
      ensures step == old(step) && error == old(error) && isGenerating == old(isGenerating)
      ensures projectId == old(projectId) && navigatedTo == old(navigatedTo)
    {
      data := data.(basics := basics);
    }

    method SetFeatures(features: ProjectFeatures)
      modifies this
      ensures data == old(data).(features := features)
      ensures step == old(step) && error == old(error) && isGenerating == old(isGenerating)
      ensures projectId == old(projectId) && navigatedTo == old(navigatedTo)
    {
      data := data.(features := features);
    }

    method SetTech(tech: ProjectTech)
      modifies this
      ensures data == old(data).(tech := tech)
      ensures step == old(step) && error == old(error) && isGenerating == old(isGenerating)
      ensures projectId == old(projectId) && navigatedTo == old(navigatedTo)
    {
      data := data.(tech := tech);
    }

    method SetDesign(design: ProjectDesign)
      modifies this
      ensures data == old(data).(design := design)
      ensures step == old(step) && error == old(error) && isGenerating == old(isGenerating)
      ensures projectId == old(projectId) && navigatedTo == old(navigatedTo)
    {
      data := data.(design := design);
    }

    /** On opening for a project id, its stored answers replace the defaults when the project exists. */
    method LoadProject(store: DataStore)
      modifies this
      ensures HasId(projectId) && LookupIn(store.projects, ProjectKey, projectId.value).Found?
        ==> data == LookupIn(store.projects, ProjectKey, projectId.value).item.wizardData
      ensures !(HasId(projectId) && LookupIn(store.projects, ProjectKey, projectId.value).Found?)
        ==> data == old(data)
      ensures step == old(step) && error == old(error) && isGenerating == old(isGenerating)
      ensures projectId == old(projectId) && navigatedTo == old(navigatedTo)
    {
      if HasId(projectId) {
        var found := GetProject(store, projectId.value);
        if found.Found? {
          data := found.item.wizardData;
        }
      }
    }

    /**
     * Generate the selected documents, one request each in the order given.
     * On success the project gets the documents and the current answers, is
     * saved and opened; on the first failure the error is shown and nothing
     * more is saved. Either way the generating flag ends cleared.
     */
    method HandleGenerate(docs: seq<DocType>, store: DataStore, server: nat -> (GenerateRequest -> FetchResult),
                          newId: string, createdAt: string, updatedAt: string,
                          createSaveTime: string, saveTime: string)
      modifies this, store
      ensures var outcome := GenerateRun(old(projectId), old(data), docs, server, old(store.projects),
                                         newId, createdAt, updatedAt);
        var started := ProjectsAfterStart(old(projectId), old(data), old(store.projects),
                                          newId, createdAt, updatedAt, createSaveTime);
        (outcome.Generated? ==>
           store.projects == Upsert(started, ProjectKey, StampProject(outcome.project.(wizardData := old(data)), saveTime))
           && error == "" && navigatedTo == Some(ProjectPath(outcome.project.id)))
        && (outcome.Aborted? ==>
           store.projects == started && error == outcome.message && navigatedTo == old(navigatedTo))
      ensures !isGenerating
      ensures step == old(step) && data == old(data) && projectId == old(projectId)
      ensures store.drafts == old(store.drafts) && store.ideas == old(store.ideas)
      ensures store.templates == old(store.templates) && store.productions == old(store.productions)
    {
      isGenerating := true;
      error := "";
      var project: Project;
      if HasId(projectId) {
        var found := GetProject(store, projectId.value);
        if !found.Found? {
          error := OrElse(FailedToCreate, SomethingWentWrong);
          isGenerating := false;
          return;
        }
        project := found.item;
      } else {
        project := CreateProject(store, data, newId, createdAt, updatedAt, createSaveTime);
      }
      var outcome := SendRequests(data, docs, server, project);
      match outcome {
        case Aborted(m) =>
          error := OrElse(m, SomethingWentWrong);
        case Generated(q) =>
          var saved := q.(wizardData := data);
          SaveProject(store, saved, saveTime);
          navigatedTo := Some(ProjectPath(saved.id));
      }
      isGenerating := false;
    }
  }
}
