/**
 * The productions page: a form over a partial production record, the
 * normalisation that turns the form into a new production, the screenshot
 * list edits inside the form, the merge of an edit into the list by id, and
 * the page's own state (the list, the new-production form, the record being
 * edited and the record waiting for delete confirmation).
 */
module Productions {
  import opened Wrappers
  import opened Text
  import opened Types
  import opened Records
  import opened ServerStore
  import opened StorageClient

  const DefaultPlatform: string := "Web"
  const DefaultStatus: string := "live"

  /** The form's value: any field may be missing. */
  datatype FormValue = FormValue(
    name: Option<string>, url: Option<string>, platform: Option<string>, status: Option<string>,
    version: Option<string>, releaseDate: Option<string>, description: Option<string>,
    notes: Option<string>, screenshotUrls: Option<seq<string>>)

  /** The new-production form when it is first shown and after every create. */
  const BlankForm: FormValue :=
    FormValue(None, None, Some(DefaultPlatform), Some(DefaultStatus), None, None, None, Some(""), None)

  /** `x || d` on an optional string: missing and empty both fall back. */
  function OrDefault(x: Option<string>, d: string): (r: string)
    ensures x.Some? && x.value != "" ==> r == x.value
    ensures x.None? || x.value == "" ==> r == d
  {
    OrElse(x.GetOr(""), d)
  }

  /** `x || undefined`: an empty string is dropped. */
  function OrMissing(x: Option<string>): (r: Option<string>)
    ensures r.Some? ==> r.value != "" && x == r
    ensures r.None? <==> x.None? || x.value == ""
  {
    if x.Some? && x.value != "" then x else None
  }

  /**
   * The record `handleCreate` hands to the store, or nothing when the name
   * trims to empty.
   */
  function CreateInput(v: FormValue): (r: Option<ProductionInput>)
    ensures r.None? <==> Trim(OrDefault(v.name, "")) == ""
    ensures r.Some? ==> r.value.name == Trim(v.name.value) && r.value.name != ""
    ensures r.Some? ==> r.value.platform == OrDefault(v.platform, DefaultPlatform)
    ensures r.Some? ==> r.value.status == OrDefault(v.status, DefaultStatus)
    ensures r.Some? ==> r.value.notes == OrDefault(v.notes, "")
    ensures r.Some? ==> r.value.url == OrMissing(v.url) && r.value.version == OrMissing(v.version)
    ensures r.Some? ==> r.value.releaseDate == OrMissing(v.releaseDate)
    ensures r.Some? ==> r.value.description == OrMissing(v.description)
    ensures r.Some? ==> r.value.screenshotUrls == v.screenshotUrls
  {
    var name := Trim(OrDefault(v.name, ""));
    if name == "" then None
    else
      Some(ProductionInput(name, OrMissing(v.url), OrDefault(v.platform, DefaultPlatform),
                           OrDefault(v.status, DefaultStatus), OrMissing(v.version),
                           OrMissing(v.releaseDate), OrMissing(v.description),
                           OrDefault(v.notes, ""), v.screenshotUrls))
  }

  /** A normalised record: a trimmed non-empty name, a platform and a status, no empty optional field. */
  predicate Normalised(i: ProductionInput) {
    i.name != "" && Trimmed(i.name) && i.platform != "" && i.status != ""
    && (i.url.Some? ==> i.url.value != "") && (i.version.Some? ==> i.version.value != "")
    && (i.releaseDate.Some? ==> i.releaseDate.value != "")
    && (i.description.Some? ==> i.description.value != "")
  }

  /** The form showing a record. */
  function FormOf(i: ProductionInput): FormValue {
    FormValue(Some(i.name), i.url, Some(i.platform), Some(i.status), i.version, i.releaseDate,
              i.description, Some(i.notes), i.screenshotUrls)
  }

  /** Every record `handleCreate` stores is normalised. */
  lemma CreateNormalises(v: FormValue)
    requires CreateInput(v).Some?
    ensures Normalised(CreateInput(v).value)
  {
  }

  /** Normalising a normalised record shown in the form gives the same record back. */
  lemma CreateOfNormalised(i: ProductionInput)
    requires Normalised(i)
    ensures CreateInput(FormOf(i)) == Some(i)
  {
    var f := FormOf(i);
    assert OrDefault(f.name, "") == i.name;
    TrimOfTrimmed(i.name);
    var r := CreateInput(f);
    assert r.Some? && r.value.name == i.name;
    assert r.value.platform == i.platform && r.value.status == i.status && r.value.notes == i.notes;
    assert r.value.url == i.url && r.value.version == i.version;
    assert r.value.releaseDate == i.releaseDate && r.value.description == i.description;
  }

  /** Normalisation is idempotent. */
  lemma CreateIdempotent(v: FormValue)
    requires CreateInput(v).Some?
    ensures CreateInput(FormOf(CreateInput(v).value)) == CreateInput(v)
  {
    CreateNormalises(v);
    CreateOfNormalised(CreateInput(v).value);
  }

  /** The blank form is not submittable, and its defaults are what a create would fill in anyway. */
  lemma BlankFormDefaults()
    ensures CreateInput(BlankForm).None?
    ensures OrDefault(BlankForm.platform, DefaultPlatform) == DefaultPlatform
    ensures OrDefault(BlankForm.status, DefaultStatus) == DefaultStatus
    ensures OrDefault(BlankForm.notes, "") == ""
  {
    assert Trim("") == "";
  }

  /** Adding a screenshot: the trimmed URL is appended when it is not blank; otherwise nothing changes. */
  function AddScreenshot(v: FormValue, input: string): (r: FormValue)
    ensures Trim(input) == "" ==> r == v
    ensures Trim(input) != "" ==>
      r == v.(screenshotUrls := Some(v.screenshotUrls.GetOr([]) + [Trim(input)]))
  {
    var url := Trim(input);
    if url == "" then v
    else v.(screenshotUrls := Some(v.screenshotUrls.GetOr([]) + [url]))
  }

  /** `urls.filter((_, j) => j !== i)`. */
  function DropIndex(urls: seq<string>, i: int): (r: seq<string>)
    ensures 0 <= i < |urls| ==> |r| == |urls| - 1
    ensures !(0 <= i < |urls|) ==> r == urls
    decreases |urls|
  {
    if |urls| == 0 then []
    else (if i == 0 then [] else [urls[0]]) + DropIndex(urls[1..], i - 1)
  }

  /** Removing screenshot `i` deletes exactly that position and keeps the others in order. */
  lemma {:induction false} DropIndexIsSlice(urls: seq<string>, i: int)
    requires 0 <= i < |urls|
    ensures DropIndex(urls, i) == urls[..i] + urls[i + 1..]
    decreases |urls|
  {
    if i == 0 {
      assert DropIndex(urls[1..], -1) == urls[1..];
    } else {
      DropIndexIsSlice(urls[1..], i - 1);
      assert urls[..i] == [urls[0]] + urls[1..][..i - 1];
      assert urls[i + 1..] == urls[1..][i..];
    }
  }

  /** Clicking screenshot badge `i`. */
  function RemoveScreenshot(v: FormValue, i: int): (r: FormValue)
    requires v.screenshotUrls.Some?
    ensures r.screenshotUrls.Some? && r == v.(screenshotUrls := r.screenshotUrls)
    ensures 0 <= i < |v.screenshotUrls.value| ==>
      |r.screenshotUrls.value| == |v.screenshotUrls.value| - 1
  {
    v.(screenshotUrls := Some(DropIndex(v.screenshotUrls.value, i)))
  }

  /** Removing the screenshot just added restores the list. */
  lemma RemoveUndoesAdd(v: FormValue, input: string)
    requires v.screenshotUrls.Some? && Trim(input) != ""
    ensures RemoveScreenshot(AddScreenshot(v, input), |v.screenshotUrls.value|) == v
  {
    var urls := v.screenshotUrls.value;
    var t := Trim(input);
    var added := urls + [t];
    var w := AddScreenshot(v, input);
    assert w == v.(screenshotUrls := Some(added));
    DropIndexIsSlice(added, |urls|);
    assert added[..|urls|] == urls;
    assert added[|urls| + 1..] == [];
    assert DropIndex(added, |urls|) == urls;
  }

  /** An edit in a card: the record with the card's id becomes the edited value; the others stay. */
  function MergeEdit(ps: seq<Production>, id: string, updated: Production): (r: seq<Production>)
    ensures |r| == |ps|
    ensures forall j :: 0 <= j < |ps| ==> r[j] == if ps[j].id == id then updated else ps[j]
  {
    UpdateWhere(ps, ProductionKey, id, _ => updated)
  }

  /** After an edit that keeps the id, looking the id up finds the edited value, if the id was there. */
  lemma MergeEditFinds(ps: seq<Production>, updated: Production)
    requires FirstIndex(ps, ProductionKey, updated.id) >= 0
    ensures Find(MergeEdit(ps, updated.id, updated), ProductionKey, updated.id) == Some(updated)
  {
    var r := MergeEdit(ps, updated.id, updated);
    var k := FirstIndex(r, ProductionKey, updated.id);
    assert r[FirstIndex(ps, ProductionKey, updated.id)].id == updated.id;
    assert r[k] == updated;
  }

  /** The productions page. */
  class ProductionsPage {
    var productions: seq<Production>
    var showNew: bool
    var newData: FormValue
    var editingId: Option<string>
    var deleteId: Option<string>

    /** Mounting the page loads the list. */
    constructor (store: DataStore)
      ensures productions == store.productions
      ensures !showNew && newData == BlankForm && editingId == None && deleteId == None
    {
      var loaded := GetProductions(store);
      productions := loaded;
      showNew := false;
      newData := BlankForm;
      editingId := None;
      deleteId := None;
    }

    /** Submitting the new-production form. */
    method HandleCreate(store: DataStore, id: string, createdAt: string, updatedAt: string, saveTime: string)
      modifies this, store
      ensures CreateInput(old(newData)).None? ==> unchanged(this) && unchanged(store)
      ensures CreateInput(old(newData)).Some? ==>
        store.productions == Upsert(old(store.productions), ProductionKey,
          StampProduction(NewProduction(CreateInput(old(newData)).value, id, createdAt, updatedAt), saveTime))
      ensures CreateInput(old(newData)).Some? ==> productions == store.productions && newData == BlankForm && !showNew
      ensures editingId == old(editingId) && deleteId == old(deleteId)
      ensures store.projects == old(store.projects) && store.drafts == old(store.drafts)
      ensures store.ideas == old(store.ideas) && store.templates == old(store.templates)
    {
      var input := CreateInput(newData);
      if input.None? {
        return;
      }
      var data := input.value;
      var _ := CreateProduction(store, data, id, createdAt, updatedAt, saveTime);
      newData := BlankForm;
      showNew := false;
      productions := GetProductions(store);
    }

    /** The form of the new production reports a change. */
    method EditNew(v: FormValue)
      modifies this
      ensures newData == v
      ensures productions == old(productions) && showNew == old(showNew)
      ensures editingId == old(editingId) && deleteId == old(deleteId)
    {
      newData := v;
    }

    /** The form inside the card of record `id` reports a change. */
    method EditCard(id: string, updated: Production)
      modifies this
      ensures productions == MergeEdit(old(productions), id, updated)
      ensures showNew == old(showNew) && newData == old(newData)
      ensures editingId == old(editingId) && deleteId == old(deleteId)
    {
      productions := MergeEdit(productions, id, updated);
    }

    /** The trash button asks for confirmation first. */
    method HandleDelete(id: string)
      modifies this
      ensures deleteId == Some(id)
      ensures productions == old(productions) && showNew == old(showNew)
      ensures newData == old(newData) && editingId == old(editingId)
    {
      deleteId := Some(id);
    }

    /** Confirming deletes the pending record; with nothing pending nothing happens. */
    method ConfirmDelete(store: DataStore)
      modifies this, store
      ensures !HasId(old(deleteId)) ==> unchanged(this) && unchanged(store)
      ensures HasId(old(deleteId)) ==>
        store.productions == RemoveKey(old(store.productions), ProductionKey, old(deleteId).value)
        && productions == store.productions && deleteId == None
        && showNew == old(showNew) && newData == old(newData) && editingId == old(editingId)
      ensures store.projects == old(store.projects) && store.drafts == old(store.drafts)
      ensures store.ideas == old(store.ideas) && store.templates == old(store.templates)
    {
      if !HasId(deleteId) {
        return;
      }
      DeleteProduction(store, deleteId.value);
      productions := GetProductions(store);
      deleteId := None;
    }

    /** The confirmation dialog's Cancel. */
    method CancelDelete()
      modifies this
      ensures deleteId == None
      ensures productions == old(productions) && showNew == old(showNew)
      ensures newData == old(newData) && editingId == old(editingId)
    {
      deleteId := None;
    }

    /** Saving an edited record stamps and stores it, leaves edit mode and reloads the list. */
    method HandleUpdate(store: DataStore, production: Production, now: string)
      modifies this, store
      ensures store.productions == Upsert(old(store.productions), ProductionKey, StampProduction(production, now))
      ensures productions == store.productions && editingId == None
      ensures showNew == old(showNew) && newData == old(newData) && deleteId == old(deleteId)
      ensures store.projects == old(store.projects) && store.drafts == old(store.drafts)
      ensures store.ideas == old(store.ideas) && store.templates == old(store.templates)
    {
      SaveProduction(store, production, now);
      editingId := None;
      productions := GetProductions(store);
    }

    /** Cancelling an edit throws away the unsaved changes by reloading the list. */
    method HandleCancelEdit(store: DataStore)
      modifies this
      ensures editingId == None && productions == store.productions
      ensures showNew == old(showNew) && newData == old(newData) && deleteId == old(deleteId)
    {
      editingId := None;
      productions := GetProductions(store);
    }
  }
}
