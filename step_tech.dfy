/**
 * The technical-preferences step of the wizard. Each of the eleven tech
 * lists is edited through a checkbox group: a "Let AI decide" box that
 * stands for the sentinel value, one box per known option, and an "Other"
 * box that opens a comma-separated text field for custom values. The step
 * also applies a built-in or saved template to the whole tech record and
 * saves the current record as a named template.
 */
module StepTech {
  import opened Seqs
  import opened Text
  import opened Types
  import opened Prompts
  import opened Records
  import opened ServerStore
  import opened StorageClient

  const AiWillDecide: string := "AI will decide"
  const NoneSelected: string := "None selected"

  /** The AI box is ticked when the sentinel is among the selected values. */
  predicate IsAiDecide(selected: seq<string>) {
    AiDecide in selected
  }

  /** The filter predicate `s => options.includes(s)`. */
  function InOptions(options: seq<string>): string -> bool {
    v => v in options
  }

  /** The filter predicate `s => !options.includes(s) && s !== AI_DECIDE`. */
  function IsCustom(options: seq<string>): string -> bool {
    v => v !in options && v != AiDecide
  }

  /** The filter predicate `s => s !== option`. */
  function Differs(option: string): string -> bool {
    v => v != option
  }

  /**
   * The selected values that are among the group's known options. As a
   * filter it keeps their order and their number of occurrences
   * (Seqs.FilterPreservesOrder, Seqs.FilterCount).
   */
  function KnownOnly(selected: seq<string>, options: seq<string>): (r: seq<string>)
    ensures |r| <= |selected|
    ensures forall i :: 0 <= i < |r| ==> r[i] in options && r[i] in selected
    ensures forall i :: 0 <= i < |selected| && selected[i] in options ==> selected[i] in r
  {
    Filter(selected, InOptions(options))
  }

  /** The custom values: selected, neither a known option nor the sentinel, in their order. */
  function CustomValues(selected: seq<string>, options: seq<string>): (r: seq<string>)
    ensures |r| <= |selected|
    ensures forall i :: 0 <= i < |r| ==> r[i] !in options && r[i] != AiDecide && r[i] in selected
    ensures forall i :: 0 <= i < |selected| && selected[i] !in options && selected[i] != AiDecide ==>
      selected[i] in r
  {
    Filter(selected, IsCustom(options))
  }

  /** Without the sentinel, every selected value is either known or custom, and none is both. */
  lemma KnownAndCustomPartition(selected: seq<string>, options: seq<string>)
    requires !IsAiDecide(selected)
    ensures |KnownOnly(selected, options)| + |CustomValues(selected, options)| == |selected|
    ensures multiset(KnownOnly(selected, options)) + multiset(CustomValues(selected, options)) == multiset(selected)
  {
    FilterSplit(selected, InOptions(options), IsCustom(options));
  }

  /** Every occurrence of `option` removed, everything else kept in order. */
  function Without(selected: seq<string>, option: string): (r: seq<string>)
    ensures option !in r
    ensures forall i :: 0 <= i < |r| ==> r[i] in selected
    ensures forall i :: 0 <= i < |selected| && selected[i] != option ==> selected[i] in r
    ensures option !in selected ==> r == selected
  {
    var r := Filter(selected, Differs(option));
    assert option !in selected ==> r == selected by {
      if option !in selected {
        FilterKeepsAll(selected, Differs(option));
      }
    }
    r
  }

  /** Clicking the AI box: it clears the list when ticked, and otherwise makes the sentinel the only value. */
  function ToggleAiDecide(selected: seq<string>): (r: seq<string>)
    ensures IsAiDecide(r) <==> !IsAiDecide(selected)
    ensures |r| <= 1
  {
    if IsAiDecide(selected) then [] else [AiDecide]
  }

  /** Clicking a known option's box: nothing under AI; otherwise remove it when present and append it when absent. */
  function Toggle(selected: seq<string>, option: string): (r: seq<string>)
    ensures IsAiDecide(selected) ==> r == selected
    ensures !IsAiDecide(selected) ==> (option in r <==> option !in selected)
    ensures !IsAiDecide(selected) ==> forall v :: v != option ==> (v in r <==> v in selected)
    ensures !IsAiDecide(selected) && option !in selected ==> r == selected + [option]
    ensures !IsAiDecide(selected) && option in selected ==> r == Without(selected, option)
  {
    if IsAiDecide(selected) then selected
    else if option in selected then Without(selected, option)
    else selected + [option]
  }

  /** Unticking "Other": only the known options stay selected. */
  function CloseOther(selected: seq<string>, options: seq<string>): (r: seq<string>)
    ensures IsAiDecide(selected) ==> r == selected
    ensures !IsAiDecide(selected) ==> forall v :: v in r <==> v in selected && v in options
    ensures !IsAiDecide(selected) ==> r == KnownOnly(selected, options)
  {
    if IsAiDecide(selected) then selected else KnownOnly(selected, options)
  }

  predicate NonEmpty(s: string) {
    s != ""
  }

  /** The custom values typed into the "Other" field: split on commas, trimmed, blanks dropped. */
  function CleanCustoms(value: string): (r: seq<string>)
    ensures forall i :: 0 <= i < |r| ==> r[i] != "" && Trimmed(r[i]) && ',' !in r[i]
  {
    var pieces := Split(value, ',');
    var trimmed := Map(pieces, Trim);
    assert forall i :: 0 <= i < |trimmed| ==> ',' !in trimmed[i] by {
      forall i | 0 <= i < |trimmed|
        ensures ',' !in trimmed[i]
      {
        TrimKeepsAbsent(pieces[i], ',');
      }
    }
    Filter(trimmed, NonEmpty)
  }

  /** A character absent from a string is absent from its trim. */
  lemma TrimKeepsAbsent(s: string, c: char)
    requires c !in s
    ensures c !in Trim(s)
  {
    TrimIsSlice(s);
    var a, b :| 0 <= a <= b <= |s| && Trim(s) == s[a..b];
    assert forall i :: 0 <= i < b - a ==> s[a..b][i] == s[a + i];
  }

  /** Typing into "Other": the known selections followed by the typed custom values. */
  function OtherChange(selected: seq<string>, options: seq<string>, value: string): (r: seq<string>)
    ensures forall v :: v in r <==> (v in selected && v in options) || v in CleanCustoms(value)
    ensures !IsAiDecide(CleanCustoms(value)) && AiDecide !in options ==> !IsAiDecide(r)
    ensures |r| == |KnownOnly(selected, options)| + |CleanCustoms(value)|
    ensures r[..|KnownOnly(selected, options)|] == KnownOnly(selected, options)
    ensures r[|KnownOnly(selected, options)|..] == CleanCustoms(value)
  {
    var known := KnownOnly(selected, options);
    var customs := CleanCustoms(value);
    assert forall v :: v in known <==> v in selected && v in options by {
      forall v | v in selected && v in options
        ensures v in known
      {
        var i :| 0 <= i < |selected| && selected[i] == v;
      }
    }
    known + customs
  }

  /**
   * The `displayValues` text of a group. The component computes it but
   * renders the badges of `ConfirmedItems` instead.
   */
  function DisplayValues(selected: seq<string>): (r: string)
    ensures r != ""
    ensures IsAiDecide(selected) ==> r == AiWillDecide
    ensures !IsAiDecide(selected) && |selected| == 0 ==> r == NoneSelected
  {
    if IsAiDecide(selected) then AiWillDecide
    else OrElse(Join(Filter(selected, NotSentinel), ", "), NoneSelected)
  }

  /** The badges of a confirmed group. */
  function ConfirmedItems(selected: seq<string>): (r: seq<string>)
    ensures AiDecide !in r
    ensures IsAiDecide(selected) ==> r == [AiWillDecide]
    ensures !IsAiDecide(selected) ==> r == selected
  {
    if IsAiDecide(selected) then [AiWillDecide]
    else
      var items := Filter(selected, NotSentinel);
      assert items == selected by { FilterKeepsAll(selected, NotSentinel); }
      items
  }

  /** The sentinel is never selected together with another value. */
  predicate SentinelExclusive(selected: seq<string>) {
    IsAiDecide(selected) ==> selected == [AiDecide]
  }

  /** Every click handler keeps the sentinel exclusive. */
  lemma ClicksKeepSentinelExclusive(selected: seq<string>, options: seq<string>, option: string)
    requires SentinelExclusive(selected)
    requires option != AiDecide && AiDecide !in options
    ensures SentinelExclusive(ToggleAiDecide(selected))
    ensures SentinelExclusive(Toggle(selected, option))
    ensures SentinelExclusive(CloseOther(selected, options))
  {
  }

  /** Typing keeps the sentinel out unless the typed text itself names it. */
  lemma TypingKeepsSentinelOut(selected: seq<string>, options: seq<string>, value: string)
    requires AiDecide !in options && AiDecide !in CleanCustoms(value)
    ensures SentinelExclusive(OtherChange(selected, options, value))
  {
  }

  /** Clicking an option twice restores the selection it was absent from. */
  lemma ToggleTwice(selected: seq<string>, option: string)
    requires !IsAiDecide(selected) && option != AiDecide && option !in selected
    ensures Toggle(Toggle(selected, option), option) == selected
  {
    var once := selected + [option];
    assert !IsAiDecide(once);
    WithoutAppended(selected, option);
  }

  lemma WithoutAppended(s: seq<string>, option: string)
    requires option !in s
    ensures Without(s + [option], option) == s
  {
    FilterAppend(s, [option], Differs(option));
    FilterKeepsAll(s, Differs(option));
    assert Filter([option], Differs(option)) == [] by {
      assert [option][1..] == [];
    }
  }

  /** Clicking the AI box twice leaves exactly the sentinel, or nothing. */
  lemma ToggleAiDecideTwice(selected: seq<string>)
    ensures ToggleAiDecide(ToggleAiDecide(selected)) == (if IsAiDecide(selected) then [AiDecide] else [])
  {
  }

  /**
   * The `displayValues` text agrees with the line the prompt writes for the
   * same list: the AI sentinel on both sides, the comma-joined values
   * otherwise.
   */
  lemma DisplayMatchesPrompt(selected: seq<string>)
    requires IsAiDecide(selected) || (|selected| > 0 && selected[0] != "")
    ensures IsAiDecide(selected) ==> DisplayValues(selected) == AiWillDecide && FormatTechField(selected) == LetAiDecide
    ensures !IsAiDecide(selected) ==> DisplayValues(selected) == FormatTechField(selected)
  {
    if !IsAiDecide(selected) {
      FilterKeepsAll(selected, NotSentinel);
      JoinEnds(selected, ", ");
    }
  }

  /**
   * The badges a confirmed group renders are, read with ", " between them,
   * the line the prompt writes for the same list; a group with no badges
   * (it shows "None selected") is one the prompt calls "Not specified".
   */
  lemma BadgesMatchPrompt(selected: seq<string>)
    ensures IsAiDecide(selected) ==> ConfirmedItems(selected) == [AiWillDecide] && FormatTechField(selected) == LetAiDecide
    ensures !IsAiDecide(selected) && |selected| > 0 ==> Join(ConfirmedItems(selected), ", ") == FormatTechField(selected)
    ensures |ConfirmedItems(selected)| == 0 <==> !IsAiDecide(selected) && |selected| == 0
    ensures |ConfirmedItems(selected)| == 0 ==> FormatTechField(selected) == NotSpecified
  {
  }

  /** Custom values written with ", " between them read back as the same values. */
  lemma {:induction false} CleanCustomsOfJoin(parts: seq<string>)
    requires forall i :: 0 <= i < |parts| ==> parts[i] != "" && Trimmed(parts[i]) && ',' !in parts[i]
    ensures CleanCustoms(Join(parts, ", ")) == parts
    decreases |parts|
  {
    if |parts| == 0 {
      CleanCustomsOfEmpty();
    } else if |parts| == 1 {
      CleanCustomsOfOne(parts[0]);
    } else {
      CleanCustomsOfJoin(parts[1..]);
      var x := Join(parts[1..], ", ");
      JoinCommaSpace(parts);
      CleanCustomsStep(parts[0], x);
    }
  }

  lemma JoinCommaSpace(parts: seq<string>)
    requires |parts| > 1
    ensures Join(parts, ", ") == parts[0] + [','] + ([' '] + Join(parts[1..], ", "))
  {
    var x := Join(parts[1..], ", ");
    assert Join(parts, ", ") == parts[0] + ", " + x;
    assert ", " == [','] + [' '];
  }

  lemma CleanCustomsOfEmpty()
    ensures CleanCustoms("") == []
  {
    assert Split("", ',') == [""];
    assert Map([""], Trim) == [Trim("")];
    assert Trim("") == "";
  }

  lemma CleanCustomsOfOne(p: string)
    requires p != "" && Trimmed(p) && ',' !in p
    ensures CleanCustoms(p) == [p]
  {
    SplitNoSep(p, ',');
    TrimOfTrimmed(p);
    assert Map([p], Trim) == [p];
  }

  /** One leading value, then a comma and a space, then the rest. */
  lemma CleanCustomsStep(p: string, x: string)
    requires p != "" && Trimmed(p) && ',' !in p
    ensures CleanCustoms(p + [','] + ([' '] + x)) == [p] + CleanCustoms(x)
  {
    SplitAtSep(p, [' '] + x, ',');
    SplitLeading(' ', x, ',');
    var sx := Split(x, ',');
    var sy := Split([' '] + x, ',');
    assert Map(sy, Trim) == Map(sx, Trim) by {
      TrimLeadingWhitespace(' ', sx[0]);
    }
    MapAppend([p], sy, Trim);
    TrimOfTrimmed(p);
    assert Map([p], Trim) == [p];
    FilterAppend([p], Map(sx, Trim), NonEmpty);
  }

  /**
   * A group opened on a selection pre-fills "Other" with its custom values;
   * typing that text back selects the known values followed by the same custom values.
   */
  lemma PrefilledOtherRoundTrip(selected: seq<string>, options: seq<string>)
    requires forall v :: v in selected && v !in options && v != AiDecide ==> v != "" && Trimmed(v) && ',' !in v
    ensures OtherChange(selected, options, Join(CustomValues(selected, options), ", "))
      == KnownOnly(selected, options) + CustomValues(selected, options)
  {
    CleanCustomsOfJoin(CustomValues(selected, options));
  }

  /** One checkbox group, bound to one tech list. */
  class CheckboxGroup {
    const options: seq<string>
    var selected: seq<string>
    var showOther: bool
    var otherText: string
    var confirmed: bool

    /** Opening a group: "Other" is open and pre-filled exactly when there are custom values. */
    constructor (options: seq<string>, selected: seq<string>)
      ensures this.options == options && this.selected == selected
      ensures showOther <==> |CustomValues(selected, options)| > 0
      ensures otherText == Join(CustomValues(selected, options), ", ")
      ensures !confirmed
    {
      this.options := options;
      this.selected := selected;
      var customs := CustomValues(selected, options);
      showOther := |customs| > 0;
      otherText := Join(customs, ", ");
      confirmed := false;
    }

    method AiDecideClick()
      modifies this
      ensures selected == ToggleAiDecide(old(selected))
      ensures IsAiDecide(old(selected)) ==> showOther == old(showOther) && otherText == old(otherText)
      ensures !IsAiDecide(old(selected)) ==> !showOther && otherText == ""
      ensures confirmed == old(confirmed)
    {
      if IsAiDecide(selected) {
        selected := [];
      } else {
        selected := [AiDecide];
        showOther := false;
        otherText := "";
      }
    }

    method OptionClick(option: string)
      modifies this
      ensures selected == Toggle(old(selected), option)
      ensures showOther == old(showOther) && otherText == old(otherText) && confirmed == old(confirmed)
    {
      selected := Toggle(selected, option);
    }

    method OtherClick()
      modifies this
      ensures IsAiDecide(old(selected)) ==> unchanged(this)
      ensures !IsAiDecide(old(selected)) && old(showOther) ==>
        selected == CloseOther(old(selected), options) && otherText == "" && !showOther
      ensures !IsAiDecide(old(selected)) && !old(showOther) ==>
        showOther && selected == old(selected) && otherText == old(otherText)
      ensures confirmed == old(confirmed)
    {
      if IsAiDecide(selected) {
        return;
      }
      if showOther {
        selected := KnownOnly(selected, options);
        otherText := "";
        showOther := false;
      } else {
        showOther := true;
      }
    }

    method OtherTextChange(value: string)
      modifies this
      ensures otherText == value
      ensures selected == OtherChange(old(selected), options, value)
      ensures showOther == old(showOther) && confirmed == old(confirmed)
    {
      otherText := value;
      selected := OtherChange(selected, options, value);
    }

    method Confirm()
      modifies this
      ensures confirmed
      ensures selected == old(selected) && showOther == old(showOther) && otherText == old(otherText)
    {
      confirmed := true;
    }

    method Edit()
      modifies this
      ensures !confirmed
      ensures selected == old(selected) && showOther == old(showOther) && otherText == old(otherText)
    {
      confirmed := false;
    }
  }

  /** The step's own state besides the tech record it edits. */
  class TechStep {
    var data: ProjectTech
    var showTemplates: bool
    var showSave: bool
    var saveName: string
    var saveDesc: string
    var userTemplates: seq<TechTemplate>

    /** Mounting the step loads the saved templates. */
    constructor (data: ProjectTech, store: DataStore)
      ensures this.data == data && userTemplates == store.templates
      ensures !showTemplates && !showSave && saveName == "" && saveDesc == ""
    {
      var loaded := GetTechTemplates(store);
      this.data := data;
      showTemplates := false;
      showSave := false;
      saveName := "";
      saveDesc := "";
      userTemplates := loaded;
    }

    /** A group's change replaces that one list and no other. */
    method SetField(f: TechField, v: seq<string>)
      modifies this
      ensures data == WithField(old(data), f, v)
      ensures FieldOf(data, f) == v && forall g :: g != f ==> FieldOf(data, g) == FieldOf(old(data), g)
      ensures showTemplates == old(showTemplates) && showSave == old(showSave)
      ensures saveName == old(saveName) && saveDesc == old(saveDesc) && userTemplates == old(userTemplates)
    {
      data := WithField(data, f, v);
    }

    /** Applying a template replaces the whole record and closes the template list. */
    method ApplyTemplate(tech: ProjectTech)
      modifies this
      ensures data == tech && !showTemplates
      ensures showSave == old(showSave) && saveName == old(saveName) && saveDesc == old(saveDesc)
      ensures userTemplates == old(userTemplates)
    {
      data := tech;
      showTemplates := false;
    }

    /**
     * Saving the current record as a template: nothing happens for a blank
     * name; otherwise the trimmed name and description are stored, the list
     * is reloaded and the form is cleared and closed.
     */
    method HandleSaveTemplate(store: DataStore, id: string, createdAt: string)
      modifies this, store
      ensures Trim(old(saveName)) == "" ==> unchanged(this) && unchanged(store)
      ensures Trim(old(saveName)) != "" ==>
        var t := NewTechTemplate(Trim(old(saveName)), Trim(old(saveDesc)), old(data), id, createdAt);
        store.templates == Upsert(old(store.templates), TemplateKey, t)
        && userTemplates == store.templates
        && saveName == "" && saveDesc == "" && !showSave
        && data == old(data) && showTemplates == old(showTemplates)
      ensures store.projects == old(store.projects) && store.drafts == old(store.drafts)
      ensures store.ideas == old(store.ideas) && store.productions == old(store.productions)
    {
      var name := Trim(saveName);
      if name == "" {
        return;
      }
      var _ := CreateTechTemplate(store, name, Trim(saveDesc), data, id, createdAt);
      userTemplates := GetTechTemplates(store);
      saveName := "";
      saveDesc := "";
      showSave := false;
    }
  }
}
