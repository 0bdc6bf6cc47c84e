/**
 * The Features step: add, update-by-id and remove-by-id on the three lists
 * of a features record (features, personas, user flows). Each handler
 * builds a new record in which only its own list differs.
 */
module StepFeatures {
  import opened Types
  import opened Records

  function FeatureKey(f: Feature): string { f.id }
  function PersonaKey(p: UserPersona): string { p.id }
  function FlowKey(f: UserFlow): string { f.id }

  /** The feature fields the form edits: the name and description inputs and the priority select. */
  datatype FeatureEdit = FeatureName(name: string) | FeatureDescription(description: string) | FeaturePriority(priority: Priority)

  datatype PersonaEdit = PersonaName(name: string) | PersonaDescription(description: string)

  datatype FlowEdit = FlowTitle(title: string) | FlowSteps(steps: string)

  /** `{...f, [field]: value}` for a feature. */
  function ApplyFeatureEdit(f: Feature, e: FeatureEdit): (r: Feature)
    ensures r.id == f.id
    ensures e.FeatureName? ==> r == f.(name := e.name)
    ensures e.FeatureDescription? ==> r == f.(description := e.description)
    ensures e.FeaturePriority? ==> r == f.(priority := e.priority)
  {
    match e
    case FeatureName(v) => f.(name := v)
    case FeatureDescription(v) => f.(description := v)
    case FeaturePriority(p) => f.(priority := p)
  }

  function ApplyPersonaEdit(p: UserPersona, e: PersonaEdit): (r: UserPersona)
    ensures r.id == p.id
    ensures e.PersonaName? ==> r == p.(name := e.name)
    ensures e.PersonaDescription? ==> r == p.(description := e.description)
  {
    match e
    case PersonaName(v) => p.(name := v)
    case PersonaDescription(v) => p.(description := v)
  }

  function ApplyFlowEdit(f: UserFlow, e: FlowEdit): (r: UserFlow)
    ensures r.id == f.id
    ensures e.FlowTitle? ==> r == f.(title := e.title)
    ensures e.FlowSteps? ==> r == f.(steps := e.steps)
  {
    match e
    case FlowTitle(v) => f.(title := v)
    case FlowSteps(v) => f.(steps := v)
  }

  /** `addFeature`: one blank must-have feature appended under a fresh id. */
  function AddFeature(d: ProjectFeatures, id: string): (r: ProjectFeatures)
    ensures r.personas == d.personas && r.userFlows == d.userFlows
    ensures |r.features| == |d.features| + 1 && r.features[..|d.features|] == d.features
    ensures r.features[|d.features|] == Feature(id, "", "", MustHave)
  {
    d.(features := d.features + [Feature(id, "", "", MustHave)])
  }

  /** `updateFeature`: the edit applies to every feature with that id; positions and the other lists stay. */
  function UpdateFeature(d: ProjectFeatures, id: string, e: FeatureEdit): (r: ProjectFeatures)
    ensures r.personas == d.personas && r.userFlows == d.userFlows
    ensures |r.features| == |d.features|
    ensures forall j :: 0 <= j < |d.features| ==>
      r.features[j] == if d.features[j].id == id then ApplyFeatureEdit(d.features[j], e) else d.features[j]
  {
    d.(features := UpdateWhere(d.features, FeatureKey, id, f => ApplyFeatureEdit(f, e)))
  }

  /** `removeFeature`: every feature with that id is dropped; the rest keep their order. */
  function RemoveFeature(d: ProjectFeatures, id: string): (r: ProjectFeatures)
    ensures r.personas == d.personas && r.userFlows == d.userFlows
    ensures forall j :: 0 <= j < |r.features| ==> r.features[j].id != id
    ensures (forall j :: 0 <= j < |d.features| ==> d.features[j].id != id) ==> r == d
    ensures forall j :: 0 <= j < |d.features| && d.features[j].id != id ==> d.features[j] in r.features
  {
    d.(features := RemoveKey(d.features, FeatureKey, id))
  }

  function AddPersona(d: ProjectFeatures, id: string): (r: ProjectFeatures)
    ensures r.features == d.features && r.userFlows == d.userFlows
    ensures |r.personas| == |d.personas| + 1 && r.personas[..|d.personas|] == d.personas
    ensures r.personas[|d.personas|] == UserPersona(id, "", "")
  {
    d.(personas := d.personas + [UserPersona(id, "", "")])
  }

  function UpdatePersona(d: ProjectFeatures, id: string, e: PersonaEdit): (r: ProjectFeatures)
    ensures r.features == d.features && r.userFlows == d.userFlows
    ensures |r.personas| == |d.personas|
    ensures forall j :: 0 <= j < |d.personas| ==>
      r.personas[j] == if d.personas[j].id == id then ApplyPersonaEdit(d.personas[j], e) else d.personas[j]
  {
    d.(personas := UpdateWhere(d.personas, PersonaKey, id, p => ApplyPersonaEdit(p, e)))
  }

  function RemovePersona(d: ProjectFeatures, id: string): (r: ProjectFeatures)
    ensures r.features == d.features && r.userFlows == d.userFlows
    ensures forall j :: 0 <= j < |r.personas| ==> r.personas[j].id != id
    ensures (forall j :: 0 <= j < |d.personas| ==> d.personas[j].id != id) ==> r == d
    ensures forall j :: 0 <= j < |d.personas| && d.personas[j].id != id ==> d.personas[j] in r.personas
  {
    d.(personas := RemoveKey(d.personas, PersonaKey, id))
  }

  function AddFlow(d: ProjectFeatures, id: string): (r: ProjectFeatures)
    ensures r.features == d.features && r.personas == d.personas
    ensures |r.userFlows| == |d.userFlows| + 1 && r.userFlows[..|d.userFlows|] == d.userFlows
    ensures r.userFlows[|d.userFlows|] == UserFlow(id, "", "")
  {
    d.(userFlows := d.userFlows + [UserFlow(id, "", "")])
  }

  function UpdateFlow(d: ProjectFeatures, id: string, e: FlowEdit): (r: ProjectFeatures)
    ensures r.features == d.features && r.personas == d.personas
    ensures |r.userFlows| == |d.userFlows|
    ensures forall j :: 0 <= j < |d.userFlows| ==>
      r.userFlows[j] == if d.userFlows[j].id == id then ApplyFlowEdit(d.userFlows[j], e) else d.userFlows[j]
  {
    d.(userFlows := UpdateWhere(d.userFlows, FlowKey, id, f => ApplyFlowEdit(f, e)))
  }

  function RemoveFlow(d: ProjectFeatures, id: string): (r: ProjectFeatures)
    ensures r.features == d.features && r.personas == d.personas
    ensures forall j :: 0 <= j < |r.userFlows| ==> r.userFlows[j].id != id
    ensures (forall j :: 0 <= j < |d.userFlows| ==> d.userFlows[j].id != id) ==> r == d
    ensures forall j :: 0 <= j < |d.userFlows| && d.userFlows[j].id != id ==> d.userFlows[j] in r.userFlows
  {
    d.(userFlows := RemoveKey(d.userFlows, FlowKey, id))
  }

  /** Adding an item under a fresh id and removing that id restores the record, for each of the three lists. */
  lemma RemoveUndoesAdd(d: ProjectFeatures, id: string)
    requires forall j :: 0 <= j < |d.features| ==> d.features[j].id != id
    requires forall j :: 0 <= j < |d.personas| ==> d.personas[j].id != id
    requires forall j :: 0 <= j < |d.userFlows| ==> d.userFlows[j].id != id
    ensures RemoveFeature(AddFeature(d, id), id) == d
    ensures RemovePersona(AddPersona(d, id), id) == d
    ensures RemoveFlow(AddFlow(d, id), id) == d
  {
    RemoveKeyAppend(d.features, [Feature(id, "", "", MustHave)], FeatureKey, id);
    RemoveKeyAppend(d.personas, [UserPersona(id, "", "")], PersonaKey, id);
    RemoveKeyAppend(d.userFlows, [UserFlow(id, "", "")], FlowKey, id);
  }

  /** Features without the removed id keep their relative order. */
  lemma RemoveFeatureKeepsOrder(d: ProjectFeatures, id: string, i: nat, j: nat)
    requires i < j < |d.features| && d.features[i].id != id && d.features[j].id != id
    ensures exists a, b ::
              0 <= a < b < |RemoveFeature(d, id).features| && RemoveFeature(d, id).features[a] == d.features[i] && RemoveFeature(d, id).features[b] == d.features[j]
  {
    assert RemoveFeature(d, id).features == RemoveKey(d.features, FeatureKey, id);
    RemoveKeyPreservesOrder(d.features, FeatureKey, id, i, j);
  }

  lemma RemovePersonaKeepsOrder(d: ProjectFeatures, id: string, i: nat, j: nat)
    requires i < j < |d.personas| && d.personas[i].id != id && d.personas[j].id != id
    ensures exists a, b ::
              0 <= a < b < |RemovePersona(d, id).personas| && RemovePersona(d, id).personas[a] == d.personas[i] && RemovePersona(d, id).personas[b] == d.personas[j]
  {
    assert RemovePersona(d, id).personas == RemoveKey(d.personas, PersonaKey, id);
    RemoveKeyPreservesOrder(d.personas, PersonaKey, id, i, j);
  }

  lemma RemoveFlowKeepsOrder(d: ProjectFeatures, id: string, i: nat, j: nat)
    requires i < j < |d.userFlows| && d.userFlows[i].id != id && d.userFlows[j].id != id
    ensures exists a, b ::
              0 <= a < b < |RemoveFlow(d, id).userFlows| && RemoveFlow(d, id).userFlows[a] == d.userFlows[i] && RemoveFlow(d, id).userFlows[b] == d.userFlows[j]
  {
    assert RemoveFlow(d, id).userFlows == RemoveKey(d.userFlows, FlowKey, id);
    RemoveKeyPreservesOrder(d.userFlows, FlowKey, id, i, j);
  }

  /** Edits never change an item's id, so the ids of a list survive any update. */
  lemma UpdateKeepsIds(d: ProjectFeatures, id: string, e: FeatureEdit, j: int)
    requires 0 <= j < |d.features|
    ensures UpdateFeature(d, id, e).features[j].id == d.features[j].id
  {
  }

  /**
   * Setting a feature's priority keeps the number of features and gives
   * every feature with that id the new priority, the field that decides
   * which of the two priority lists renders it.
   */
  lemma UpdatePriorityKeepsCount(d: ProjectFeatures, id: string, p: Priority)
    ensures |UpdateFeature(d, id, FeaturePriority(p)).features| == |d.features|
    ensures forall j :: 0 <= j < |d.features| && d.features[j].id == id ==>
      UpdateFeature(d, id, FeaturePriority(p)).features[j].priority == p
  {
  }
}
