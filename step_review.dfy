/**
 * The review step: a read-only summary of the four answer groups with an
 * Edit link back to each step, the PRD/TDD selector and the generate button.
 */
module StepReview {
  import opened Seqs
  import opened Text
  import opened Types
  import opened Prompts
  import opened Wizard
  import StepTech

  const Dash: string := "—"
  const Generating: string := "Generating..."

  /** How one tech list reads in the summary. */
  function DisplayTech(values: seq<string>): (r: string)
    ensures AiDecide in values ==> r == StepTech.AiWillDecide
    ensures AiDecide !in values && |values| == 0 ==> r == Dash
    ensures AiDecide !in values && |values| > 0 ==> r == Join(values, ", ")
  {
    if AiDecide in values then StepTech.AiWillDecide
    else
      var clean := Filter(values, NotSentinel);
      assert clean == values by { FilterKeepsAll(values, NotSentinel); }
      if |clean| > 0 then Join(clean, ", ") else Dash
  }

  /**
   * The summary equals the tech step's `displayValues` text for every list
   * that is not empty, and the confirmed group's badges read with ", "
   * between them; the two differ only in the word for an empty list.
   */
  lemma SummaryMatchesGroup(values: seq<string>)
    ensures |values| > 0 ==> DisplayTech(values) == StepTech.DisplayValues(values) || Join(values, ", ") == ""
    ensures |values| > 0 && AiDecide !in values ==> DisplayTech(values) == Join(StepTech.ConfirmedItems(values), ", ")
    ensures |values| > 0 && values[0] != "" ==> DisplayTech(values) == StepTech.DisplayValues(values)
    ensures |values| == 0 ==> DisplayTech(values) == Dash && StepTech.DisplayValues(values) == StepTech.NoneSelected
  {
    if |values| > 0 && AiDecide !in values {
      FilterKeepsAll(values, NotSentinel);
      JoinEnds(values, ", ");
    }
  }

  /** The summary says the same as the line in the prompt, word for word, for a non-empty list without the sentinel. */
  lemma SummaryMatchesPrompt(values: seq<string>)
    requires AiDecide !in values && |values| > 0
    ensures DisplayTech(values) == FormatTechField(values)
  {
  }

  /** A list of names, or a dash when there is none. */
  function NamesOrDash(names: seq<string>): (r: string)
    ensures |names| == 0 ==> r == Dash
    ensures |names| > 0 ==> r == Join(names, ", ")
  {
    if |names| > 0 then Join(names, ", ") else Dash
  }

  function FeatureName(f: Feature): string {
    f.name
  }

  /** The "Must-Have" and "Nice-to-Have" lines of the summary. */
  function MustHaveLine(fs: seq<Feature>): string {
    NamesOrDash(Map(MustHaveFeatures(fs), FeatureName))
  }

  function NiceToHaveLine(fs: seq<Feature>): string {
    NamesOrDash(Map(NiceToHaveFeatures(fs), FeatureName))
  }

  /**
   * The summary splits the features by priority: every feature is in the
   * list of its own priority and not in the other, and together the lists
   * hold each feature exactly as often as the input does.
   */
  lemma ReviewSplitsByPriority(fs: seq<Feature>)
    ensures forall i :: 0 <= i < |fs| ==> (fs[i] in MustHaveFeatures(fs) <==> fs[i].priority == MustHave)
    ensures forall i :: 0 <= i < |fs| ==> (fs[i] in NiceToHaveFeatures(fs) <==> fs[i].priority == NiceToHave)
    ensures |MustHaveFeatures(fs)| + |NiceToHaveFeatures(fs)| == |fs|
    ensures multiset(MustHaveFeatures(fs)) + multiset(NiceToHaveFeatures(fs)) == multiset(fs)
  {
    FeaturesPartition(fs);
    forall i | 0 <= i < |fs|
      ensures fs[i] in MustHaveFeatures(fs) <==> fs[i].priority == MustHave
      ensures fs[i] in NiceToHaveFeatures(fs) <==> fs[i].priority == NiceToHave
    {
      var m := MustHaveFeatures(fs);
      var n := NiceToHaveFeatures(fs);
      if fs[i] in m {
        var k :| 0 <= k < |m| && m[k] == fs[i];
        assert IsMustHave(m[k]);
      }
      if fs[i] in n {
        var k :| 0 <= k < |n| && n[k] == fs[i];
        assert IsNiceToHave(n[k]);
      }
    }
  }

  /** An empty feature list reads as a dash on both lines. */
  lemma NoFeaturesReadAsDash()
    ensures MustHaveLine([]) == Dash && NiceToHaveLine([]) == Dash
  {
  }

  /** The four answer groups, in the order of the wizard's steps. */
  datatype Section = Basics | Features | Tech | Design

  /** The step each Edit link jumps to. */
  function EditStep(s: Section): (r: int)
    ensures 0 <= r < LastStep
  {
    match s
    case Basics => 0
    case Features => 1
    case Tech => 2
    case Design => 3
  }

  /** Different links lead to different steps. */
  lemma EditStepsDistinct(s: Section, t: Section)
    requires s != t
    ensures EditStep(s) != EditStep(t)
  {
  }

  /** Every step before Review has an Edit link that leads to it. */
  lemma EditLinksCoverSteps(i: int)
    requires 0 <= i < LastStep
    ensures exists s :: EditStep(s) == i
  {
    var s := if i == 0 then Basics else if i == 1 then Features else if i == 2 then Tech else Design;
    assert EditStep(s) == i;
  }

  /** Every occurrence of `d` removed. */
  function RemoveDoc(s: seq<DocType>, d: DocType): (r: seq<DocType>)
    ensures d !in r
    ensures forall e :: e != d ==> (e in r <==> e in s)
    ensures NoDuplicates(s) ==> NoDuplicates(r)
    ensures NoDuplicates(s) && d in s ==> |r| == |s| - 1
    ensures |r| >= |s| - (if d in s && NoDuplicates(s) then 1 else if d in s then |s| else 0)
    ensures d !in s ==> r == s
    decreases |s|
  {
    if |s| == 0 then []
    else
      var rest := RemoveDoc(s[1..], d);
      if s[0] == d then rest else [s[0]] + rest
  }

  /** Clicking a document button: drop it when selected, append it when not. */
  function ToggleDoc(s: seq<DocType>, d: DocType): (r: seq<DocType>)
    ensures d in r <==> d !in s
    ensures forall e :: e != d ==> (e in r <==> e in s)
    ensures NoDuplicates(s) ==> NoDuplicates(r)
    ensures d !in s ==> r == s + [d]
    ensures d in s ==> r == RemoveDoc(s, d)
  {
    if d in s then RemoveDoc(s, d) else s + [d]
  }

  /** A selection without repeats holds at most the two document types. */
  lemma SelectionAtMostTwo(s: seq<DocType>)
    requires NoDuplicates(s)
    ensures |s| <= 2
  {
    var r := RemoveDoc(RemoveDoc(s, Prd), Tdd);
    OnlyTwoDocTypes(r);
  }

  /** Dropping and re-adding a document moves it to the end, so the order of generation follows the clicks. */
  lemma ReselectMovesToEnd()
    ensures ToggleDoc(ToggleDoc([Prd, Tdd], Prd), Prd) == [Tdd, Prd]
  {
    assert RemoveDoc([Prd, Tdd], Prd) == [Tdd] by {
      assert [Prd, Tdd][1..] == [Tdd];
      assert [Tdd][1..] == [];
    }
  }

  lemma OnlyTwoDocTypes(r: seq<DocType>)
    ensures Prd !in r && Tdd !in r ==> r == []
  {
    if |r| > 0 {
      assert r[0] == Prd || r[0] == Tdd;
    }
  }

  /** Adding a document that was not selected and dropping it again restores the selection. */
  lemma {:induction false} ToggleDocTwice(s: seq<DocType>, d: DocType)
    requires d !in s
    ensures ToggleDoc(ToggleDoc(s, d), d) == s
    decreases |s|
  {
    if |s| == 0 {
      assert [d][1..] == [];
    } else {
      assert (s + [d])[1..] == s[1..] + [d];
      ToggleDocTwice(s[1..], d);
      assert s == [s[0]] + s[1..];
    }
  }

  /** The generate button is enabled exactly when some document is selected and no run is in progress. */
  predicate GenerateEnabled(selected: seq<DocType>, isGenerating: bool) {
    |selected| > 0 && !isGenerating
  }

  const GeneratePrefix: string := "Generate "

  /**
   * The generate button's label: while idle, the count written in decimal
   * right after "Generate ", then "Document", plural unless the count is one.
   */
  function GenerateLabel(n: nat, isGenerating: bool): (r: string)
    ensures isGenerating ==> r == Generating
    ensures !isGenerating ==> StartsWith(r, GeneratePrefix) && |r| > |GeneratePrefix| + |NatToString(n)|
    ensures !isGenerating ==> DigitsValue(r[|GeneratePrefix|..|GeneratePrefix| + |NatToString(n)|]) == n
    ensures !isGenerating ==> r[|GeneratePrefix| + |NatToString(n)|..] == if n != 1 then " Documents" else " Document"
    ensures !isGenerating ==> (r[|r| - 1] == 's' <==> n != 1)
  {
    if isGenerating then Generating
    else
      var digits := NatToString(n);
      var tail := " Document" + (if n != 1 then "s" else "");
      NatToStringValue(n);
      PluralTail(n);
      ThreeParts(GeneratePrefix, digits, tail);
      GeneratePrefix + digits + tail
  }

  lemma PluralTail(n: nat)
    ensures " Document" + (if n != 1 then "s" else "") == if n != 1 then " Documents" else " Document"
  {
  }

  /** The three pieces of a concatenation can be read back by position. */
  lemma ThreeParts(p: string, d: string, t: string)
    ensures |p + d + t| == |p| + |d| + |t|
    ensures (p + d + t)[..|p|] == p
    ensures (p + d + t)[|p|..|p| + |d|] == d
    ensures (p + d + t)[|p| + |d|..] == t
  {
  }

  /** The label for the default selection of both documents. */
  lemma DefaultLabel()
    ensures GenerateLabel(2, false) == "Generate 2 Documents"
  {
    assert NatToString(2) == "2";
  }

  /** The review step's own state. */
  class ReviewState {
    var selectedDocs: seq<DocType>

    predicate Valid()
      reads this
    {
      NoDuplicates(selectedDocs)
    }

    /** Both documents start selected, the PRD first. */
    constructor ()
      ensures Valid() && selectedDocs == [Prd, Tdd]
    {
      selectedDocs := [Prd, Tdd];
    }

    method ClickDoc(d: DocType)
      requires Valid()
      modifies this
      ensures Valid() && selectedDocs == ToggleDoc(old(selectedDocs), d)
    {
      selectedDocs := ToggleDoc(selectedDocs, d);
    }

    /** The selection the generate button hands to the wizard, or nothing while disabled. */
    method ClickGenerate(isGenerating: bool) returns (docs: seq<DocType>, fired: bool)
      requires Valid()
      ensures fired <==> GenerateEnabled(selectedDocs, isGenerating)
      ensures fired ==> docs == selectedDocs && 0 < |docs| <= 2 && NoDuplicates(docs)
      ensures !fired ==> docs == []
    {
      SelectionAtMostTwo(selectedDocs);
      fired := GenerateEnabled(selectedDocs, isGenerating);
      docs := if fired then selectedDocs else [];
    }
  }
}
