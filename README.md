# App Planner core, modelled in Dafny

App Planner is a project-planning wizard. A user answers four groups of
questions about a software project: basics, features, tech stack and design.
The answers are rendered into a Markdown context block. That block is sent to
a language model, once per requested document, to produce a Product
Requirements Document (PRD) and a Technical Design Document (TDD).

Around the wizard sit plain keyed collections: projects, drafts, ideas, tech
templates and productions. These live in a five-collection server store and
are reached through a thin client storage layer.

This project models that core:

- the server store and its route handlers (`ServerStore.DataStore`, over the
  generic keyed-sequence operations in `Records`);
- the client storage layer: record builders, `updatedAt` stamping and the
  null-to-undefined lookup (`StorageClient`);
- the prompt assembler (`Prompts`) and the generate endpoint's prompt selection
  and outcome classification (`GenerateRoute`);
- the wizard container: steps, per-step sub-record replacement and the
  sequential generate loop (`Wizard.WizardContainer`);
- the features, tech and review steps (`StepFeatures`, `StepTech`,
  `StepReview`);
- the productions page (`Productions`);
- the unsaved-changes guard: the context cells, the sidebar's navigation guard
  and the warning dialog (`Unsaved`, `Sidebar`, `UnsavedWarning`).

The modules follow the layering of the original. The bottom layer holds the
shared helpers: `Wrappers`, `Seqs` for JavaScript's `filter`/`map`, and `Text`
for `join`, `split`, `trim`, `includes` and `startsWith`. Above them come
`Types`, then `Records`, `ServerStore` and `StorageClient`, then the page and
step modules.

Where the source updates state in place, the model is a class whose methods
say what the new state is. This covers the route handlers, React state cells
and the context. Where it builds new values by spread, `filter` or `map`, the
model is a function with a named result.

Ids, clock readings and the language-model provider are parameters. The
provider for the n-th generate request is `server(n)`.

## Model

| member | source | states |
|---|---|---|
| Types.ParseDocType | lib/types.ts:4 | a string names a document type exactly when it is "prd" or "tdd" |
| Types.ParsePriority | lib/types.ts:2 | a string names a priority exactly when it is "must-have" or "nice-to-have" |
| Types.NamesRoundTrip | lib/types.ts:1-4 | parsing a document-type or priority name gives back that value, and only its own name parses to it |
| Types.WithField | lib/types.ts:39-51 | replacing one of the eleven tech lists sets that list and leaves the other ten as they were |
| Types.TechExtensional | lib/types.ts:39-51 | two tech records with the same eleven lists are equal |
| Types.DefaultTechIsEmpty | lib/types.ts:131-143 | the default tech record holds eleven distinct fields, all empty |
| Types.DefaultBasicsAndDesign | lib/types.ts:118-150 | default basics are blank strings with app type "web"; default features are three empty lists; default design is "minimal" with blank text fields |
| Prompts.FormatTechField | lib/prompts.ts:5-9 | the sentinel anywhere gives "Let AI decide the most suitable option"; otherwise an empty list gives "Not specified" and a non-empty one the values joined by ", " in order |
| Prompts.FeaturesPartition | lib/prompts.ts:12-13 | the must-have and nice-to-have lists together hold every feature exactly once (counts and multisets add up) |
| Prompts.BulletListCases | lib/prompts.ts:25-34 | a list of non-empty lines renders as "- None specified" when empty, otherwise as the lines joined |
| Prompts.FeatureSections | lib/prompts.ts:12-28 | the Must-Have and Nice-to-Have sections list exactly their priority's features in input order, or "- None specified" when there are none |
| Prompts.PersonaSection | lib/prompts.ts:31 | the personas section reads "- None specified" exactly when the list is empty |
| Prompts.FlowSection | lib/prompts.ts:34 | the user-flows section reads "- None specified" exactly when the list is empty |
| Prompts.ContextShape | lib/prompts.ts:15-53 | trimming the template touches only its two ends: the context is every section verbatim, then the reference-apps value with trailing whitespace removed |
| Prompts.ContextIgnoresLanguage | lib/prompts.ts:36-46 | changing the `language` list never changes the context |
| Prompts.DesignFallbacks | lib/prompts.ts:48-51 | the rendered context contains the UI style line; an empty responsive or accessibility answer appears there as "Not specified", any other answer verbatim |
| Prompts.ReferenceAppsEndContext | lib/prompts.ts:52-53 | the context ends with the reference-apps line: "- **Reference Apps**: Not specified" for an empty answer, otherwise the answer with its trailing whitespace trimmed |
| Prompts.FormatWizardContext | lib/prompts.ts:11-54 | the context has no whitespace at either end (the template's `.trim()`) |
| Prompts.ContextTemplate | lib/prompts.ts:15-53 | the template literal opens and closes with a newline, which the trim then removes |
| Prompts.TechSection | lib/prompts.ts:36-46 | the technical section ends with the Authentication Method line, its value rendered by FormatTechField |
| Prompts.BulletList | lib/prompts.ts:25-34 | never empty; an empty list gives "- None specified"; a non-empty first line opens the rendering |
| Prompts.GetPRDPrompt | lib/prompts.ts:56-82 | the system text is the fixed PRD instruction text; the user text is the PRD request line followed by the whole context |
| Prompts.GetTDDPrompt | lib/prompts.ts:84-114 | the system text is the fixed TDD instruction text; the user text is the TDD request line followed by the whole context |
| Prompts.ProjectInformationStart | lib/prompts.ts:17-23 | the project section starts with '#', so trimming never cuts into it |
| Prompts.DesignHeadEnd | lib/prompts.ts:48-52 | the design section up to the reference-apps value ends with ':' |
| Prompts.ContextHeadEnds | lib/prompts.ts:15-52 | the context head starts with '#' and ends with ':' |
| Prompts.PromptDependsOnlyOnContext | lib/prompts.ts:56-114 | the system texts are constant, and two answer-sets give the same PRD (or TDD) prompt exactly when their contexts are equal |
| Prompts.PrdPromptIsNotTddPrompt | lib/prompts.ts:56-114 | no PRD prompt equals any TDD prompt |
| GenerateRoute.SelectPromptIff | app/api/generate/route.ts:15 | "prd" selects the PRD prompt and every other docType the TDD prompt |
| GenerateRoute.SelectPrompt | app/api/generate/route.ts:15 | the PRD instructions are sent exactly for docType "prd" and the TDD instructions for any other; either way the user text ends with the request's context |
| GenerateRoute.ErrorMessage | app/api/generate/route.ts:31 | the error message is the thrown message when it is non-empty, otherwise "Generation failed"; it is never empty |
| GenerateRoute.ErrorStatus | app/api/generate/route.ts:32 | the status is 401 exactly when the message contains "API key" or "auth", otherwise 500 |
| GenerateRoute.Classify | app/api/generate/route.ts:24-34 | the reply is content exactly when the provider replied with non-empty text; an empty or absent reply is 500 "No content generated"; a thrown error gives a non-empty error with 401 or 500 |
| GenerateRoute.Post | app/api/generate/route.ts:8-35 | the request succeeds exactly when the provider's answer to the selected prompt is non-empty text |
| GenerateRoute.PostUsesOneCall | app/api/generate/route.ts:17-22 | the response depends only on the provider's single answer to the selected prompt (no retry, no second call) |
| GenerateRoute.MissingMessageIs500 | app/api/generate/route.ts:31-33 | a throw with no message reports 500 "Generation failed" |
| GenerateRoute.AuthMessagesAre401 | app/api/generate/route.ts:32 | any message containing "auth" or "API key" is reported verbatim with 401 |
| GenerateRoute.OtherMessagesAre500 | app/api/generate/route.ts:31-33 | any other non-empty message is reported verbatim with 500 |
| Records.FirstIndex | app/api/projects/route.ts:17 | the index of the first record with the id, or -1 exactly when no record has it |
| Records.Find | app/api/projects/route.ts:8-9 | the record found is the one at the first index holding the id (so it carries the id and is in the list); nothing is found exactly when no record has the id |
| Records.Upsert | app/api/projects/route.ts:17-22 | an existing id replaces the first match in place (length and other positions unchanged); a new id is appended; afterwards finding the id gives the record |
| Records.RemoveKey | app/api/projects/route.ts:31 | no kept record has the id, every kept record came from the input, every record with another id is kept, and a list without the id is returned unchanged |
| Records.RemoveKeyPreservesOrder | app/api/projects/route.ts:31 | two records with other ids keep their relative order after the delete |
| Records.RemoveKeyAppend | app/api/projects/route.ts:31 | the delete works record by record, so the order of the rest is kept |
| Records.RemoveKeyIdempotent | app/api/projects/route.ts:31 | deleting the same id twice equals deleting it once |
| Records.FindAfterRemove | app/api/projects/route.ts:4-34 | after a delete the id is not found |
| Records.UpsertIdempotent | app/api/projects/route.ts:17-22 | upserting the same record twice equals upserting it once |
| Records.RemoveAfterInsert | app/api/projects/route.ts:17-31 | deleting a freshly appended id restores the list |
| Records.UpdateWhere | app/productions/page.tsx:52 | same length, and each record with the id is mapped while all others are kept |
| Records.UpdateAbsent | app/productions/page.tsx:52 | mapping an absent id changes nothing |
| ServerStore.DataStore.constructor | lib/server-storage.ts:14-20 | the store starts with five empty collections |
| ServerStore.DataStore.GetProjects | app/api/projects/route.ts:4-12 | with a non-empty id, the first project with it or null; without one, the whole collection |
| ServerStore.DataStore.PostProject | app/api/projects/route.ts:14-25 | projects become the upsert of the body, which is echoed; the other four collections are unchanged |
| ServerStore.DataStore.DeleteProject | app/api/projects/route.ts:27-34 | without an id: 400 "id required" and nothing changes; with one: every project with it is filtered out; other collections are unchanged |
| ServerStore.DataStore.GetDrafts | app/api/drafts/route.ts:4-12 | with a non-empty id, the first draft with it or null; without one, the whole collection |
| ServerStore.DataStore.PostDraft | app/api/drafts/route.ts:14-25 | drafts become the upsert of the body, which is echoed; the other collections are unchanged |
| ServerStore.DataStore.DeleteDraft | app/api/drafts/route.ts:27-34 | 400 without an id and nothing changes; otherwise the id is filtered out of drafts alone |
| ServerStore.DataStore.GetIdeas | app/api/ideas/route.ts:4-12 | with a non-empty id, the first idea with it or null; without one, the whole collection |
| ServerStore.DataStore.PostIdeas | app/api/ideas/route.ts:14-31 | an array body replaces the ideas collection exactly; a single idea is upserted; the body is echoed; the other collections are unchanged |
| ServerStore.DataStore.DeleteIdea | app/api/ideas/route.ts:33-40 | 400 without an id and nothing changes; otherwise the id is filtered out of ideas alone |
| ServerStore.DataStore.GetTemplates | app/api/templates/route.ts:4-12 | with a non-empty id, the first template with it or null; without one, the whole collection |
| ServerStore.DataStore.PostTemplate | app/api/templates/route.ts:14-25 | templates become the upsert of the body, which is echoed; the other collections are unchanged |
| ServerStore.DataStore.DeleteTemplate | app/api/templates/route.ts:27-34 | 400 without an id and nothing changes; otherwise the id is filtered out of templates alone |
| ServerStore.DataStore.GetProductions | app/api/projects/route.ts:4-12 | the productions route, given the shape of the other collections: the first record with the id, or the whole list |
| ServerStore.DataStore.PostProduction | app/api/projects/route.ts:14-25 | productions become the upsert of the body, which is echoed; the other collections are unchanged |
| ServerStore.DataStore.DeleteProduction | app/api/projects/route.ts:27-34 | 400 without an id and nothing changes; otherwise the id is filtered out of productions alone |
| StorageClient.LookupIn | lib/storage.ts:20-24 | an empty id reaches the route without an id and gets the whole collection; a found record has the id and is stored; a null reply (undefined) comes exactly when no record has the id |
| StorageClient.LookupAfterUpsert | lib/storage.ts:20-32 | after a save the record is found by its id |
| StorageClient.LookupAfterRemove | lib/storage.ts:20-47 | after a delete the id is not found |
| StorageClient.StampProject | lib/storage.ts:30 | the sent project differs from the argument only in `updatedAt`, which is the save time |
| StorageClient.StampDraft | lib/storage.ts:66 | the sent draft differs from the argument only in `updatedAt` |
| StorageClient.StampIdea | lib/storage.ts:103 | the sent idea differs from the argument only in `updatedAt` |
| StorageClient.StampProduction | lib/storage.ts:183 | the sent production differs from the argument only in `updatedAt` |
| StorageClient.StampTwice | lib/storage.ts:26-32 | stamping twice equals stamping once with the later time |
| StorageClient.NewProject | lib/storage.ts:34-40 | the new project has the given id and wizard data and no PRD or TDD |
| StorageClient.NewDraft | lib/storage.ts:70-77 | the new draft has the given id, the default wizard data and step 0 |
| StorageClient.NewIdea | lib/storage.ts:107-114 | title and content are copied verbatim |
| StorageClient.NewTechTemplate | lib/storage.ts:146-157 | name, description and tech are copied verbatim |
| StorageClient.NewProduction | lib/storage.ts:187-193 | every supplied field is kept; id, createdAt and updatedAt are the fresh ones |
| StorageClient.ProductionRoundTrip | lib/storage.ts:187-193 | a production is rebuilt exactly from its fields and its identity |
| StorageClient.GetProjects | lib/storage.ts:15-18 | returns the stored projects |
| StorageClient.GetProject | lib/storage.ts:20-24 | returns the route's lookup for the id |
| StorageClient.SaveProject | lib/storage.ts:26-32 | the stamped project is upserted into projects; nothing else changes |
| StorageClient.CreateProject | lib/storage.ts:34-43 | builds the project, saves it stamped, and returns it unstamped |
| StorageClient.DeleteProject | lib/storage.ts:45-47 | an empty id changes nothing; any other id is filtered out of projects |
| StorageClient.GetDrafts | lib/storage.ts:51-54 | returns the stored drafts |
| StorageClient.GetDraft | lib/storage.ts:56-60 | returns the route's lookup for the id |
| StorageClient.SaveDraft | lib/storage.ts:62-68 | the stamped draft is upserted into drafts; nothing else changes |
| StorageClient.CreateDraft | lib/storage.ts:70-80 | builds the default draft, saves it stamped, and returns it |
| StorageClient.DeleteDraft | lib/storage.ts:82-84 | an empty id changes nothing; any other id is filtered out of drafts |
| StorageClient.GetIdeas | lib/storage.ts:88-91 | returns the stored ideas |
| StorageClient.GetIdea | lib/storage.ts:93-97 | returns the route's lookup for the id |
| StorageClient.SaveIdea | lib/storage.ts:99-105 | the stamped idea is upserted into ideas; nothing else changes |
| StorageClient.CreateIdea | lib/storage.ts:107-117 | builds the idea, saves it stamped, and returns it |
| StorageClient.DeleteIdea | lib/storage.ts:119-121 | an empty id changes nothing; any other id is filtered out of ideas |
| StorageClient.SaveIdeas | lib/storage.ts:123-129 | the ideas collection becomes exactly the given list, with no stamping |
| StorageClient.GetTechTemplates | lib/storage.ts:133-136 | returns the stored templates |
| StorageClient.SaveTechTemplate | lib/storage.ts:138-144 | the template is upserted unchanged, with no stamping |
| StorageClient.CreateTechTemplate | lib/storage.ts:146-160 | builds the template and saves it unchanged |
| StorageClient.DeleteTechTemplate | lib/storage.ts:162-164 | an empty id changes nothing; any other id is filtered out of templates |
| StorageClient.GetProductions | lib/storage.ts:168-171 | returns the stored productions |
| StorageClient.GetProduction | lib/storage.ts:173-177 | returns the route's lookup for the id |
| StorageClient.SaveProduction | lib/storage.ts:179-185 | the stamped production is upserted into productions; nothing else changes |
| StorageClient.CreateProduction | lib/storage.ts:187-196 | builds the production, saves it stamped, and returns it |
| StorageClient.DeleteProduction | lib/storage.ts:198-200 | an empty id changes nothing; any other id is filtered out of productions |
| Wizard.RunRequests | components/wizard/WizardContainer.tsx:43-64 | the request loop; an aborted run always carries a non-empty message |
| Wizard.AbortMessage | components/wizard/WizardContainer.tsx:50-64 | a reply that is not ok reports its error, or "Generation failed" when it has none; a thrown error reports its message, or "Something went wrong" when it has none; never empty |
| Wizard.RunSucceedsIff | components/wizard/WizardContainer.tsx:43-53 | a run succeeds exactly when every request returns an ok reply with content |
| Wizard.RunStopsAtFirstFailure | components/wizard/WizardContainer.tsx:43-64 | the run aborts at the first failed request with its abort message |
| Wizard.RunSetsRequestedDocuments | components/wizard/WizardContainer.tsx:56-57 | a successful run sets the PRD when one was requested and the TDD when one was, leaves an unrequested one as it was, and changes nothing else |
| Wizard.RunStoresLastReply | components/wizard/WizardContainer.tsx:43-58 | in a successful run every reply was delivered, and the stored PRD (or TDD) is the `content` of the reply to the last request for that kind |
| Wizard.NewProjectGetsExactlyRequested | components/wizard/WizardContainer.tsx:40-58 | for a new project, a successful run gives a project with the new id and current data that has a PRD exactly when requested and a TDD exactly when requested |
| Wizard.GenerateRun | components/wizard/WizardContainer.tsx:40-58 | a missing stored project aborts with "Failed to create project"; every abort has a non-empty message |
| Wizard.SendRequests | components/wizard/WizardContainer.tsx:43-58 | the loop sends one request per selected document in order, stores each document and stops at the first failure, with exactly the outcome the run specification gives |
| Wizard.WizardContainer.constructor | components/wizard/WizardContainer.tsx:21-26 | starts at step 0 with the default answers, not generating, with no error |
| Wizard.WizardContainer.Back | components/wizard/WizardContainer.tsx:106-109 | step decreases by one, only from a step between 1 and 3, so it stays within 0..4; nothing else changes |
| Wizard.WizardContainer.Next | components/wizard/WizardContainer.tsx:106-113 | step increases by one, only below step 4; nothing else changes |
| Wizard.WizardContainer.GoTo | components/wizard/WizardContainer.tsx:79-82 | the indicator (and Review's Edit links) jump to any step in 0..4; nothing else changes |
| Wizard.WizardContainer.SetBasics | components/wizard/WizardContainer.tsx:99 | replaces only the basics sub-record |
| Wizard.WizardContainer.SetFeatures | components/wizard/WizardContainer.tsx:100 | replaces only the features sub-record |
| Wizard.WizardContainer.SetTech | components/wizard/WizardContainer.tsx:101 | replaces only the tech sub-record |
| Wizard.WizardContainer.SetDesign | components/wizard/WizardContainer.tsx:102 | replaces only the design sub-record |
| Wizard.WizardContainer.LoadProject | components/wizard/WizardContainer.tsx:28-33 | with an id of a stored project, the answers become that project's; otherwise they are unchanged |
| Wizard.WizardContainer.HandleGenerate | components/wizard/WizardContainer.tsx:35-68 | on success the project gets the documents and current answers, is saved and opened; on the first failed request (a reply that is not ok, or a thrown error) only the record created at the start is stored, its abort message is shown and there is no navigation; the generating flag always ends cleared |
| StepFeatures.ApplyFeatureEdit | components/wizard/StepFeatures.tsx:26-31 | changes only the named field and keeps the id |
| StepFeatures.ApplyPersonaEdit | components/wizard/StepFeatures.tsx:44-49 | changes only the named field and keeps the id |
| StepFeatures.ApplyFlowEdit | components/wizard/StepFeatures.tsx:62-67 | changes only the named field and keeps the id |
| StepFeatures.AddFeature | components/wizard/StepFeatures.tsx:19-24 | appends one blank must-have feature with the new id; the old features are a prefix; the other lists are unchanged |
| StepFeatures.UpdateFeature | components/wizard/StepFeatures.tsx:26-31 | same length and order; features with the id get the edit and all others are unchanged; the other lists are unchanged |
| StepFeatures.RemoveFeature | components/wizard/StepFeatures.tsx:33-35 | no feature with the id remains and every other feature is kept; without the id nothing changes; the other lists are unchanged |
| StepFeatures.AddPersona | components/wizard/StepFeatures.tsx:37-42 | appends one blank persona; the other lists are unchanged |
| StepFeatures.UpdatePersona | components/wizard/StepFeatures.tsx:44-49 | only personas with the id get the edit; the other lists are unchanged |
| StepFeatures.RemovePersona | components/wizard/StepFeatures.tsx:51-53 | no persona with the id remains and every other persona is kept; without the id nothing changes; the other lists are unchanged |
| StepFeatures.AddFlow | components/wizard/StepFeatures.tsx:55-60 | appends one blank flow; the other lists are unchanged |
| StepFeatures.UpdateFlow | components/wizard/StepFeatures.tsx:62-67 | only flows with the id get the edit; the other lists are unchanged |
| StepFeatures.RemoveFlow | components/wizard/StepFeatures.tsx:69-71 | no flow with the id remains and every other flow is kept; without the id nothing changes; the other lists are unchanged |
| StepFeatures.RemoveFeatureKeepsOrder | components/wizard/StepFeatures.tsx:33-35 | the features that stay keep their relative order |
| StepFeatures.RemovePersonaKeepsOrder | components/wizard/StepFeatures.tsx:51-53 | the personas that stay keep their relative order |
| StepFeatures.RemoveFlowKeepsOrder | components/wizard/StepFeatures.tsx:69-71 | the flows that stay keep their relative order |
| StepFeatures.RemoveUndoesAdd | components/wizard/StepFeatures.tsx:19-71 | removing a freshly added item (fresh id) restores all three lists |
| StepFeatures.UpdateKeepsIds | components/wizard/StepFeatures.tsx:26-31 | an update never changes any item's id |
| StepFeatures.UpdatePriorityKeepsCount | components/wizard/StepFeatures.tsx:26-31 | a priority edit keeps the number of features and gives every feature with the id the new priority |
| StepTech.KnownOnly | components/wizard/StepTech.tsx:210 | keeps exactly the selected values that are options; it is the `filter` itself, so order and repeats follow Seqs.FilterPreservesOrder and Seqs.FilterCount |
| StepTech.CustomValues | components/wizard/StepTech.tsx:181-183 | exactly the selected values that are neither options nor the sentinel; as a `filter` it keeps their order and repeats |
| StepTech.KnownAndCustomPartition | components/wizard/StepTech.tsx:181-220 | without the sentinel, the known and custom values together are the selection (counts and multisets) |
| StepTech.ToggleAiDecide | components/wizard/StepTech.tsx:188-196 | the sentinel state flips, leaving [] or ["__ai_decide__"] |
| StepTech.Toggle | components/wizard/StepTech.tsx:198-205 | a no-op under the sentinel; otherwise the option's membership flips, every other value's is kept, an absent option is appended at the end and a present one is removed by Without |
| StepTech.Without | components/wizard/StepTech.tsx:202 | removes every copy of the option and keeps every other value; a selection without the option is returned unchanged; as a `filter` it keeps order and repeats |
| StepTech.CloseOther | components/wizard/StepTech.tsx:207-212 | a no-op under the sentinel; otherwise the selection becomes KnownOnly of it: exactly the selected options, in order |
| StepTech.CleanCustoms | components/wizard/StepTech.tsx:221-224 | every custom entry is non-empty, trimmed and comma-free |
| StepTech.OtherChange | components/wizard/StepTech.tsx:218-226 | the known selections come first, in their order, followed by the cleaned custom entries; so a value ends up selected exactly when it is a selected option or a typed entry, and no sentinel comes in when none is typed |
| StepTech.DisplayValues | components/wizard/StepTech.tsx:228-230 | the `displayValues` expression: "AI will decide" under the sentinel; "None selected" for an empty selection; never empty |
| StepTech.ConfirmedItems | components/wizard/StepTech.tsx:233-235 | ["AI will decide"] under the sentinel, otherwise the selection; never the raw sentinel |
| StepTech.ClicksKeepSentinelExclusive | components/wizard/StepTech.tsx:188-216 | the sentinel click, an option click and closing "Other" all keep the sentinel alone when present |
| StepTech.TypingKeepsSentinelOut | components/wizard/StepTech.tsx:218-226 | typed custom text without the sentinel never makes a sentinel selection with other values |
| StepTech.ToggleTwice | components/wizard/StepTech.tsx:198-205 | clicking an unselected option twice restores the selection |
| StepTech.ToggleAiDecideTwice | components/wizard/StepTech.tsx:188-196 | two sentinel clicks leave ["__ai_decide__"] if it was on, otherwise [] |
| StepTech.DisplayMatchesPrompt | components/wizard/StepTech.tsx:228-230 | the `displayValues` expression equals the line the prompt writes for the same list (non-empty list, first value non-empty) |
| StepTech.BadgesMatchPrompt | components/wizard/StepTech.tsx:232-247 | the badges a confirmed group renders, joined by ", ", are the prompt's line for the same list; the group shows no badges ("None selected") exactly when nothing is selected, and then the prompt says "Not specified" |
| StepTech.CleanCustomsOfJoin | components/wizard/StepTech.tsx:221-224 | joining clean entries with ", " and cleaning the text gives them back |
| StepTech.PrefilledOtherRoundTrip | components/wizard/StepTech.tsx:184-226 | typing back the prefilled "Other" text selects the known values followed by the same custom values |
| StepTech.CheckboxGroup.constructor | components/wizard/StepTech.tsx:184-186 | "Other" is open exactly when there are custom values, its text is them joined by ", ", and the group is unconfirmed |
| StepTech.CheckboxGroup.AiDecideClick | components/wizard/StepTech.tsx:188-196 | the selection toggles the sentinel; turning it on closes and clears "Other" |
| StepTech.CheckboxGroup.OptionClick | components/wizard/StepTech.tsx:198-205 | the selection becomes the toggle of the option; the other cells are unchanged |
| StepTech.CheckboxGroup.OtherClick | components/wizard/StepTech.tsx:207-216 | does nothing under the sentinel; closing keeps only known values and clears the text; opening changes nothing else |
| StepTech.CheckboxGroup.OtherTextChange | components/wizard/StepTech.tsx:218-226 | the text is stored and the selection is known values followed by the cleaned custom entries |
| StepTech.CheckboxGroup.Confirm | components/wizard/StepTech.tsx:303 | marks the group confirmed; nothing else changes |
| StepTech.CheckboxGroup.Edit | components/wizard/StepTech.tsx:240 | unconfirms the group; nothing else changes |
| StepTech.TechStep.constructor | components/wizard/StepTech.tsx:427-436 | loads the stored templates, with both panels closed and the save form blank |
| StepTech.TechStep.SetField | components/wizard/StepTech.tsx:537-613 | one field's onChange replaces only that tech list |
| StepTech.TechStep.ApplyTemplate | components/wizard/StepTech.tsx:448-451 | the whole tech record is replaced and the template list is closed |
| StepTech.TechStep.HandleSaveTemplate | components/wizard/StepTech.tsx:453-460 | a name that trims to empty does nothing; otherwise a template with the trimmed name and description and the current tech is stored, the list is reloaded and the form is cleared and closed |
| StepReview.DisplayTech | components/wizard/StepReview.tsx:7-11 | "AI will decide" whenever the sentinel is present; otherwise "—" for an empty list and the values joined by ", " for a non-empty one |
| StepReview.SummaryMatchesGroup | components/wizard/StepReview.tsx:7-11 | the review summary equals the group's `displayValues` text on non-empty lists whose first value is non-empty, and its badges joined by ", " on non-empty lists without the sentinel; on empty lists it says "—" where the group says "None selected" |
| StepReview.SummaryMatchesPrompt | components/wizard/StepReview.tsx:7-11 | without the sentinel, a non-empty list reads the same in the review and in the prompt |
| StepReview.NamesOrDash | components/wizard/StepReview.tsx:59-60 | "—" for no names, otherwise the names joined by ", " |
| StepReview.ReviewSplitsByPriority | components/wizard/StepReview.tsx:30-31 | a feature is listed as must-have exactly when its priority is must-have, and likewise for nice-to-have; the two lists partition the features |
| StepReview.NoFeaturesReadAsDash | components/wizard/StepReview.tsx:59-60 | with no features, both lines read "—" |
| StepReview.EditStep | components/wizard/StepReview.tsx:41-91 | each section's Edit link goes to a step in 0..3 |
| StepReview.EditStepsDistinct | components/wizard/StepReview.tsx:41-91 | different sections link to different steps |
| StepReview.EditLinksCoverSteps | components/wizard/StepReview.tsx:41-91 | every step 0..3 has an Edit link |
| StepReview.RemoveDoc | components/wizard/StepReview.tsx:26 | removes the document type and keeps the others; no duplicates are introduced; an absent type changes nothing |
| StepReview.ToggleDoc | components/wizard/StepReview.tsx:24-28 | the type's membership flips and the other's is kept: an unselected type is appended at the end, a selected one is removed by RemoveDoc; the selection stays duplicate-free |
| StepReview.ToggleDocTwice | components/wizard/StepReview.tsx:24-28 | toggling an unselected type twice restores the selection |
| StepReview.SelectionAtMostTwo | components/wizard/StepReview.tsx:22-28 | a duplicate-free selection has at most two entries |
| StepReview.ReselectMovesToEnd | components/wizard/StepReview.tsx:26 | deselecting and reselecting "prd" from the initial selection gives ["tdd", "prd"] |
| StepReview.GenerateLabel | components/wizard/StepReview.tsx:124 | "Generating..." while generating; otherwise "Generate ", then digits that read back as the count, then " Documents", or " Document" when the count is 1 |
| StepReview.DefaultLabel | components/wizard/StepReview.tsx:124 | the initial label reads "Generate 2 Documents" |
| StepReview.ReviewState.constructor | components/wizard/StepReview.tsx:22 | the initial selection is ["prd", "tdd"] |
| StepReview.ReviewState.ClickDoc | components/wizard/StepReview.tsx:24-28 | the selection becomes its toggle and stays duplicate-free |
| StepReview.ReviewState.ClickGenerate | components/wizard/StepReview.tsx:118-121 | fires exactly when the selection is non-empty and nothing is generating, passing the selection (one or two distinct types) |
| Productions.OrDefault | app/productions/page.tsx:224-229 | a non-empty value is kept and an empty or absent one becomes the default |
| Productions.OrMissing | app/productions/page.tsx:223-228 | an empty or absent value becomes undefined, and anything else is kept |
| Productions.CreateInput | app/productions/page.tsx:219-231 | nothing is created exactly when the name trims to empty; otherwise the name is trimmed, platform defaults to "Web", status to "live", notes to "", empty optional text becomes undefined and screenshots are kept |
| Productions.CreateNormalises | app/productions/page.tsx:221-231 | a created input is already normalised |
| Productions.CreateOfNormalised | app/productions/page.tsx:221-231 | a normalised input put back in the form is created unchanged |
| Productions.CreateIdempotent | app/productions/page.tsx:221-231 | normalising twice equals normalising once |
| Productions.BlankFormDefaults | app/productions/page.tsx:211-232 | the blank form creates nothing and carries platform "Web", status "live" and empty notes |
| Productions.AddScreenshot | app/productions/page.tsx:172-185 | a URL that trims to empty changes nothing; otherwise the trimmed URL is appended and nothing else changes |
| Productions.DropIndex | app/productions/page.tsx:195 | a valid index shortens the list by one; an invalid one changes nothing |
| Productions.DropIndexIsSlice | app/productions/page.tsx:195 | removing index i keeps exactly the items before and after it, in order |
| Productions.RemoveScreenshot | app/productions/page.tsx:195 | only the screenshot list changes, losing one entry for a valid index |
| Productions.RemoveUndoesAdd | app/productions/page.tsx:172-195 | removing the screenshot just added restores the form |
| Productions.MergeEdit | app/productions/page.tsx:52 | only the card with the matching id is replaced; length and the others are unchanged |
| Productions.MergeEditFinds | app/productions/page.tsx:52 | after the edit, finding the id gives the edited record |
| Productions.ProductionsPage.constructor | app/productions/page.tsx:209-217 | the list is loaded from the store, the form is blank and closed, and nothing is being edited or deleted |
| Productions.ProductionsPage.HandleCreate | app/productions/page.tsx:219-236 | nothing happens when the name trims to empty; otherwise the normalised production is stored, the form is reset and closed, and the list is reloaded |
| Productions.ProductionsPage.EditNew | app/productions/page.tsx:280 | stores the form value only |
| Productions.ProductionsPage.EditCard | app/productions/page.tsx:52 | merges the edit into the matching card only |
| Productions.ProductionsPage.HandleDelete | app/productions/page.tsx:238-240 | records the id awaiting confirmation only |
| Productions.ProductionsPage.ConfirmDelete | app/productions/page.tsx:242-248 | without a pending id, nothing happens; otherwise the production is deleted, the list is reloaded and the pending id cleared |
| Productions.ProductionsPage.CancelDelete | app/productions/page.tsx:315 | clears the pending id only |
| Productions.ProductionsPage.HandleUpdate | app/productions/page.tsx:250-255 | the stamped production is saved, editing closes, and the list is reloaded |
| Productions.ProductionsPage.HandleCancelEdit | app/productions/page.tsx:257-260 | editing closes and the list is reloaded from the store |
| Unsaved.UnsavedContext.State | lib/unsaved-context.tsx:5-10 | the guard value is the two cells |
| Unsaved.UnsavedContext.constructor | lib/unsaved-context.tsx:12-21 | with or without a provider, isDirty starts false and pendingHref null |
| Unsaved.UnsavedContext.SetDirty | lib/unsaved-context.tsx:14-20 | inside a provider, sets isDirty only; outside one, a no-op |
| Unsaved.UnsavedContext.SetPendingHref | lib/unsaved-context.tsx:16-21 | inside a provider, sets pendingHref only; outside one, a no-op |
| Unsaved.DefaultContextIsInert | lib/unsaved-context.tsx:12-17 | outside a provider, calling both setters leaves the initial guard |
| Sidebar.Click | components/Sidebar.tsx:21-26 | a click while dirty is prevented and records the target; a clean click navigates and changes nothing; isDirty never changes |
| Sidebar.AtMostOneActive | components/Sidebar.tsx:9-35 | no pathname makes two nav items active |
| Sidebar.ActiveExamples | components/Sidebar.tsx:35 | "/" activates no nav item, and any path under an item's href activates it |
| Sidebar.HandleClick | components/Sidebar.tsx:21-26 | navigates exactly when clean; the context takes the guarded state |
| Sidebar.HandleLogoClick | components/Sidebar.tsx:31 | the logo guards navigation to "/" the same way |
| UnsavedWarning.Leave | components/UnsavedWarning.tsx:13-18 | when shown, both cells reset and the held target is navigated to; when hidden, nothing happens |
| UnsavedWarning.Stay | components/UnsavedWarning.tsx:20-22 | when shown, only the pending target clears; when hidden, nothing happens |
| UnsavedWarning.BackdropIsStay | components/UnsavedWarning.tsx:26-33 | the backdrop click is the Stay button |
| UnsavedWarning.LeaveFollowsHeldClick | components/UnsavedWarning.tsx:13-18 | a click held while dirty, then Leave, navigates to the clicked href and clears the guard |
| UnsavedWarning.StayKeepsGuarding | components/UnsavedWarning.tsx:20-22 | after Stay the page is still dirty, so the next click is held again |
| UnsavedWarning.LeaveUnguards | components/UnsavedWarning.tsx:13-18 | after Leave, the next click navigates |
| UnsavedWarning.HandleLeave | components/UnsavedWarning.tsx:13-18 | returns the held target and resets the context |
| UnsavedWarning.HandleStay | components/UnsavedWarning.tsx:20-22 | clears the pending target and keeps isDirty |
| Text.Trim | lib/prompts.ts:53 | the result has no leading or trailing whitespace |
| Text.TrimIsSlice | lib/prompts.ts:53 | trimming cuts only whitespace from the two ends |
| Text.JoinSplit | components/wizard/StepTech.tsx:221-222 | splitting on a character and joining with it gives the text back |
| Text.Join | lib/prompts.ts:8 | joining nothing gives ""; a non-empty join starts with the first part and ends with the last |
| Text.Split | components/wizard/StepTech.tsx:221-222 | at least one piece, and no piece contains the separator (Text.JoinSplit: joining them back gives the text) |
| Text.OrElse | lib/prompts.ts:49-52 | the empty string falls back to the default; any other string is kept |
| Text.NatToString | components/wizard/StepReview.tsx:124 | one or more decimal digits, with a leading zero only for zero |
| Text.NatToStringValue | components/wizard/StepReview.tsx:124 | the digits read back as the number |
| Text.Contains | app/api/generate/route.ts:32 | `includes` on strings: the text starts with the searched string, or its tail contains it |
| Text.ContainsIffOccurs | app/api/generate/route.ts:32 | the text contains a string exactly when the string occurs at some index of it |
| Text.StartsWith | components/Sidebar.tsx:35 | `startsWith`: the text begins with the prefix |
| Seqs.Filter | lib/prompts.ts:12-13 | the kept elements are exactly those of the input that pass the test |
| Seqs.FilterCount | lib/prompts.ts:12-13 | a value that passes keeps all its occurrences; one that fails keeps none |
| Seqs.FilterPreservesOrder | lib/prompts.ts:12-13 | two kept elements stay in their relative order |
| Seqs.Map | lib/prompts.ts:25 | one result per element, each the function of that element |
| ServerStore.HasId | app/api/projects/route.ts:7 | `if (id)`: an id query parameter counts only when present and non-empty |

## Left out

- The JSON file layer of lib/server-storage.ts (reading, writing, existence checks) is left out. So is its fallback to the empty store when the file is unreadable. The store is an in-memory object that starts empty.
- The language-model call in app/api/generate/route.ts is an input. It is the `provider` function in `GenerateRoute.Post`, and `server(n)` for the wizard's n-th request.
- `fetch`, `uuidv4()` and `new Date()` in lib/storage.ts are parameters. Ids and timestamps are passed in, and each HTTP hop is a direct call into the store. `createdAt` and `updatedAt` are separate parameters, because they come from two clock readings.
- Promise semantics are not modelled. The source calls some async storage functions without awaiting them (WizardContainer.tsx:30 and 40, StepTech.tsx:435 and 455). The model follows the awaited intent over a plain project record.
- Wizard.WizardContainer.HandleGenerate: the model does not show the `isGenerating` flag as true while requests are in flight. It only records that the flag ends false.
- Wizard.WizardContainer.HandleGenerate: a wizard opened without a project id saves the new record before the loop (createProject). A failed run therefore leaves that bare record stored. The model keeps this; it does not claim that nothing is saved.
- Prompts.TechSection: the contract states only the last of the ten field lines; the nine before it are fixed by the definition alone.
- The generation order follows the selection's order (StepReview.ReselectMovesToEnd), as the code does. A fixed PRD-first order is not imposed.
- The draft edit page (app/drafts/[id]/page.tsx) is not modelled. It marks the session dirty on every edit (:32), restores the draft's `currentStep` into its wizard (:50), and deletes the draft after a successful generation (:91) before clearing dirty (:92). `WizardContainer` does none of this, and `setDirty` is an external input here.
- The productions route (`/api/productions`, called from lib/storage.ts:168-200) is not modelled on its own. `ServerStore.DataStore` assumes it has the shape of the other four routes.
- Ids are not URL-encoded in the client's query strings. The model passes an id to the route as written.
- A request body that is not valid JSON is left out. So is a generate route body whose docType is not a string.
- The productions create input is typed. The page's `Partial<Production>` is a record of optional fields (`FormValue`).
- StepTech.TypingKeepsSentinelOut: the sentinel can be typed into "Other". The lemma requires that the cleaned text does not contain it.
- StepTech.CheckboxGroup: the group's `selected` is the list the parent passes back through `onChange`. The parent round trip is folded into the method.
- StepTech.TechStep: the toggles that open and close the template list and the save form (StepTech.tsx:470, 478, 532) are left out. So is typing into the save form (523, 528). These are plain single-cell setters.
- The dropdown outside-click listener (StepTech.tsx:438-446) is left out.
- `displayValues` (components/wizard/StepTech.tsx:228-230) is computed but never rendered; a confirmed group shows the badges of `items` instead. `StepTech.DisplayValues` models the expression, and `StepTech.BadgesMatchPrompt` states what is rendered.
- Productions.ProductionsPage: opening and closing the new-production form (page.tsx:269, 276, 290) is left out. So is opening a card's editor (page.tsx:77). These are plain single-cell setters.
- UnsavedWarning.HandleLeave and UnsavedWarning.HandleStay require the dialog to be shown. The component renders nothing, and so offers neither handler, when no target is pending.
- Router navigation is recorded only as the target href (`navigatedTo`, the returned target, the `navigates` flag).
- Toasts, JSX layout, option-label constants, styling and the view-only pages and cards are left out.
- StepBasics and StepDesign are covered by the sub-record replacement in `Wizard.WizardContainer`.
