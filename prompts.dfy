/**
 * The prompt assembler: renders a wizard answer-set as a fixed Markdown
 * context block and wraps it into the PRD and TDD prompts sent to the
 * text-generation service.
 */
module Prompts {
  import opened Seqs
  import opened Text
  import opened Types

  /** The value a tech list holds when the user leaves the choice to the generator. */
  const AiDecide: string := "__ai_decide__"
  const LetAiDecide: string := "Let AI decide the most suitable option"
  const NotSpecified: string := "Not specified"
  const NoneSpecified: string := "- None specified"

  predicate NotSentinel(v: string) {
    v != AiDecide
  }

  /** How one tech list reads in the context block. */
  function FormatTechField(values: seq<string>): (r: string)
    ensures AiDecide in values ==> r == LetAiDecide
    ensures AiDecide !in values && |values| == 0 ==> r == NotSpecified
    ensures AiDecide !in values && |values| > 0 ==> r == Join(values, ", ")
  {
    if AiDecide in values then LetAiDecide
    else
      var clean := Filter(values, NotSentinel);
      assert clean == values by { FilterKeepsAll(values, NotSentinel); }
      if |clean| > 0 then Join(clean, ", ") else NotSpecified
  }

  predicate IsMustHave(f: Feature) {
    f.priority == MustHave
  }

  predicate IsNiceToHave(f: Feature) {
    f.priority == NiceToHave
  }

  function MustHaveFeatures(fs: seq<Feature>): seq<Feature> {
    Filter(fs, IsMustHave)
  }

  function NiceToHaveFeatures(fs: seq<Feature>): seq<Feature> {
    Filter(fs, IsNiceToHave)
  }

  /**
   * The two priority lists split the features between them: every feature
   * lands in exactly one of them and the counts add up. (That each list holds
   * only its own priority, in input order, is what Filter promises.)
   */
  lemma FeaturesPartition(fs: seq<Feature>)
    ensures |MustHaveFeatures(fs)| + |NiceToHaveFeatures(fs)| == |fs|
    ensures multiset(MustHaveFeatures(fs)) + multiset(NiceToHaveFeatures(fs)) == multiset(fs)
  {
    FilterSplit(fs, IsMustHave, IsNiceToHave);
  }

  function FeatureLine(f: Feature): string {
    "- **" + f.name + "**: " + f.description
  }

  function PersonaLine(p: UserPersona): string {
    "- **" + p.name + "**: " + p.description
  }

  function FlowBlock(f: UserFlow): string {
    "### " + f.title + "\n" + f.steps
  }

  /** `lines.join(sep) || "- None specified"`. */
  function BulletList(lines: seq<string>, sep: string): (r: string)
    ensures r != ""
    ensures |lines| == 0 ==> r == NoneSpecified
    ensures |lines| > 0 && lines[0] != "" ==> StartsWith(r, lines[0])
  {
    if |lines| > 0 then JoinEnds(lines, sep); OrElse(Join(lines, sep), NoneSpecified)
    else OrElse(Join(lines, sep), NoneSpecified)
  }

  /** With non-empty lines, the fallback appears exactly when there is nothing to list. */
  lemma BulletListCases(lines: seq<string>, sep: string)
    requires forall i :: 0 <= i < |lines| ==> lines[i] != ""
    ensures |lines| == 0 ==> BulletList(lines, sep) == NoneSpecified
    ensures |lines| > 0 ==> BulletList(lines, sep) == Join(lines, sep)
  {
    if |lines| > 0 {
      assert |Join(lines, sep)| >= |lines[0]| > 0;
    }
  }

  function MustHaveList(fs: seq<Feature>): string {
    BulletList(Map(MustHaveFeatures(fs), FeatureLine), "\n")
  }

  function NiceToHaveList(fs: seq<Feature>): string {
    BulletList(Map(NiceToHaveFeatures(fs), FeatureLine), "\n")
  }

  function PersonaList(ps: seq<UserPersona>): string {
    BulletList(Map(ps, PersonaLine), "\n")
  }

  function FlowList(fs: seq<UserFlow>): string {
    BulletList(Map(fs, FlowBlock), "\n\n")
  }

  /**
   * The Must-Have section lists exactly the must-have features, in input
   * order, one line each; with none it reads "- None specified". The same
   * holds for Nice-to-Have.
   */
  lemma FeatureSections(fs: seq<Feature>)
    ensures |MustHaveFeatures(fs)| == 0 ==> MustHaveList(fs) == NoneSpecified
    ensures |MustHaveFeatures(fs)| > 0 ==> MustHaveList(fs) == Join(Map(MustHaveFeatures(fs), FeatureLine), "\n")
    ensures |NiceToHaveFeatures(fs)| == 0 ==> NiceToHaveList(fs) == NoneSpecified
    ensures |NiceToHaveFeatures(fs)| > 0 ==> NiceToHaveList(fs) == Join(Map(NiceToHaveFeatures(fs), FeatureLine), "\n")
  {
    BulletListCases(Map(MustHaveFeatures(fs), FeatureLine), "\n");
    BulletListCases(Map(NiceToHaveFeatures(fs), FeatureLine), "\n");
  }

  /** The personas section reads "- None specified" exactly when there are no personas. */
  lemma PersonaSection(ps: seq<UserPersona>)
    ensures |ps| == 0 <==> PersonaList(ps) == NoneSpecified
  {
    BulletListCases(Map(ps, PersonaLine), "\n");
    if |ps| > 0 {
      assert PersonaList(ps)[2] == '*' != NoneSpecified[2];
    }
  }

  lemma FlowBlockStart(f: UserFlow)
    ensures |FlowBlock(f)| > 2 && FlowBlock(f)[2] == '#'
  {
  }

  /** The user-flows section reads "- None specified" exactly when there are no flows. */
  lemma FlowSection(us: seq<UserFlow>)
    ensures |us| == 0 <==> FlowList(us) == NoneSpecified
  {
    var lines := Map(us, FlowBlock);
    BulletListCases(lines, "\n\n");
    if |us| > 0 {
      FlowBlockStart(us[0]);
      JoinedCharOfFirst(lines, "\n\n", 2);
      assert NoneSpecified[2] == 'N';
    }
  }

  /** The technical section: ten fields, Framework through Authentication Method; `language` is not rendered. */
  function TechSection(t: ProjectTech): (r: string)
    ensures EndsWith(r, "- **Authentication Method**: " + FormatTechField(t.authMethod))
  {
    var head := "- **Framework**: " + FormatTechField(t.framework) + "\n"
      + "- **UI/UX**: " + FormatTechField(t.uiux) + "\n"
      + "- **Database**: " + FormatTechField(t.database) + "\n"
      + "- **Storage**: " + FormatTechField(t.storage) + "\n"
      + "- **CI/CD**: " + FormatTechField(t.cicd) + "\n"
      + "- **Payment**: " + FormatTechField(t.payment) + "\n"
      + "- **Integrations**: " + FormatTechField(t.integrations) + "\n"
      + "- **Performance Requirements**: " + FormatTechField(t.performanceRequirements) + "\n"
      + "- **Authentication Needs**: " + FormatTechField(t.authNeeds) + "\n";
    var last := "- **Authentication Method**: " + FormatTechField(t.authMethod);
    EndsWithSuffix(head, last);
    head + last
  }

  function StyleLine(g: ProjectDesign): string {
    "- **UI Style**: " + UIStyleName(g.uiStyle) + "\n"
  }

  function ResponsiveLine(g: ProjectDesign): string {
    "- **Responsive Requirements**: " + OrElse(g.responsiveRequirements, NotSpecified) + "\n"
  }

  function AccessibilityLine(g: ProjectDesign): string {
    "- **Accessibility**: " + OrElse(g.accessibilityNeeds, NotSpecified) + "\n"
  }

  /** The design section up to the label of its last line. */
  function DesignHead(g: ProjectDesign): string {
    StyleLine(g) + ResponsiveLine(g) + AccessibilityLine(g) + "- **Reference Apps**:"
  }

  function DesignSection(g: ProjectDesign): string {
    DesignHead(g) + " " + OrElse(g.referenceApps, NotSpecified)
  }

  function ProjectInformation(b: ProjectBasics): string {
    "## Project Information\n"
    + "- **Name**: " + b.name + "\n"
    + "- **Type**: " + AppTypeName(b.appType) + "\n"
    + "- **Description**: " + b.description + "\n"
    + "- **Target Audience**: " + b.targetAudience + "\n"
    + "- **Core Problem**: " + b.coreProblem + "\n"
    + "\n"
  }

  function FeaturesBlock(f: ProjectFeatures): string {
    "## Features\n"
    + "### Must-Have\n"
    + MustHaveList(f.features) + "\n"
    + "\n"
    + "### Nice-to-Have\n"
    + NiceToHaveList(f.features) + "\n"
    + "\n"
    + "## User Personas\n"
    + PersonaList(f.personas) + "\n"
    + "\n"
    + "## User Flows\n"
    + FlowList(f.userFlows) + "\n"
    + "\n"
  }

  function TechBlock(t: ProjectTech): string {
    "## Technical Preferences\n" + TechSection(t) + "\n" + "\n"
  }

  /** Everything the template renders before the reference-apps value. */
  function ContextHead(d: WizardData): string {
    Concat([ProjectInformation(d.basics), FeaturesBlock(d.features), TechBlock(d.tech),
            "## Design & UX\n", DesignHead(d.design)])
  }

  /** The template literal before `.trim()`: a newline, the sections, a newline. */
  function ContextTemplate(d: WizardData): (r: string)
    ensures |r| >= 2 && r[0] == '\n' && r[|r| - 1] == '\n'
  {
    "\n" + ContextHead(d) + " " + OrElse(d.design.referenceApps, NotSpecified) + "\n"
  }

  function FormatWizardContext(d: WizardData): (r: string)
    ensures Trimmed(r)
  {
    Trim(ContextTemplate(d))
  }

  lemma ProjectInformationStart(b: ProjectBasics)
    ensures |ProjectInformation(b)| > 0 && ProjectInformation(b)[0] == '#'
  {
  }

  lemma DesignHeadEnd(g: ProjectDesign)
    ensures |DesignHead(g)| > 0 && DesignHead(g)[|DesignHead(g)| - 1] == ':'
  {
  }

  /** The sections start with a heading and stop at a label's colon. */
  lemma ContextHeadEnds(d: WizardData)
    ensures |ContextHead(d)| > 0 && ContextHead(d)[0] == '#'
    ensures ContextHead(d)[|ContextHead(d)| - 1] == ':'
  {
    var ps := [ProjectInformation(d.basics), FeaturesBlock(d.features), TechBlock(d.tech),
               "## Design & UX\n", DesignHead(d.design)];
    ProjectInformationStart(d.basics);
    DesignHeadEnd(d.design);
    ConcatEnd(ps);
  }

  /**
   * Trimming the template only ever touches its two ends: the context is
   * every section verbatim up to the "Reference Apps" label, followed by the
   * reference-apps value with its trailing whitespace removed.
   */
  lemma ContextShape(d: WizardData)
    ensures FormatWizardContext(d)
         == ContextHead(d) + TrimEnd(" " + OrElse(d.design.referenceApps, NotSpecified))
  {
    ContextHeadEnds(d);
    TrimFramed(ContextHead(d), OrElse(d.design.referenceApps, NotSpecified));
  }

  /** The `language` list never reaches the context block. */
  lemma ContextIgnoresLanguage(d: WizardData, language: seq<string>)
    ensures FormatWizardContext(d.(tech := WithField(d.tech, Language, language))) == FormatWizardContext(d)
  {
    var t := WithField(d.tech, Language, language);
    assert t == d.tech.(language := language);
  }

  /** The context up to the design lines, then the design head, then the trimmed reference-apps value. */
  lemma ContextAroundDesign(d: WizardData)
    ensures FormatWizardContext(d)
         == (ProjectInformation(d.basics) + FeaturesBlock(d.features) + TechBlock(d.tech) + "## Design & UX\n")
            + DesignHead(d.design) + TrimEnd(" " + OrElse(d.design.referenceApps, NotSpecified))
  {
    ContextShape(d);
    ConcatFive(ProjectInformation(d.basics), FeaturesBlock(d.features), TechBlock(d.tech),
               "## Design & UX\n", DesignHead(d.design));
  }

  /**
   * The style line is in the context; an empty responsive or accessibility
   * answer reads "Not specified" there, and any other answer appears verbatim.
   */
  lemma DesignFallbacks(d: WizardData)
    ensures Contains(FormatWizardContext(d), "- **UI Style**: " + UIStyleName(d.design.uiStyle) + "\n")
    ensures d.design.responsiveRequirements == "" ==>
      Contains(FormatWizardContext(d), "- **Responsive Requirements**: Not specified\n")
    ensures d.design.responsiveRequirements != "" ==>
      Contains(FormatWizardContext(d), "- **Responsive Requirements**: " + d.design.responsiveRequirements + "\n")
    ensures d.design.accessibilityNeeds == "" ==>
      Contains(FormatWizardContext(d), "- **Accessibility**: Not specified\n")
    ensures d.design.accessibilityNeeds != "" ==>
      Contains(FormatWizardContext(d), "- **Accessibility**: " + d.design.accessibilityNeeds + "\n")
  {
    var g := d.design;
    ContextAroundDesign(d);
    ContainsEachOfThree(ProjectInformation(d.basics) + FeaturesBlock(d.features) + TechBlock(d.tech) + "## Design & UX\n",
                        StyleLine(g), ResponsiveLine(g), AccessibilityLine(g), "- **Reference Apps**:",
                        TrimEnd(" " + OrElse(g.referenceApps, NotSpecified)));
    DesignLineCases(g);
  }

  lemma DesignLineCases(g: ProjectDesign)
    ensures g.responsiveRequirements == "" ==> ResponsiveLine(g) == "- **Responsive Requirements**: Not specified\n"
    ensures g.responsiveRequirements != "" ==> ResponsiveLine(g) == "- **Responsive Requirements**: " + g.responsiveRequirements + "\n"
    ensures g.accessibilityNeeds == "" ==> AccessibilityLine(g) == "- **Accessibility**: Not specified\n"
    ensures g.accessibilityNeeds != "" ==> AccessibilityLine(g) == "- **Accessibility**: " + g.accessibilityNeeds + "\n"
  {
  }

  lemma ContextEndsWithReferenceLine(d: WizardData)
    ensures EndsWith(FormatWizardContext(d), "- **Reference Apps**:" + TrimEnd(" " + OrElse(d.design.referenceApps, NotSpecified)))
  {
    var g := d.design;
    ContextAroundDesign(d);
    EndsWithLast(ProjectInformation(d.basics) + FeaturesBlock(d.features) + TechBlock(d.tech) + "## Design & UX\n",
                 StyleLine(g) + ResponsiveLine(g) + AccessibilityLine(g), "- **Reference Apps**:",
                 TrimEnd(" " + OrElse(g.referenceApps, NotSpecified)));
  }

  /** The context ends with the reference-apps line: "Not specified" when empty, else the answer without trailing whitespace. */
  lemma ReferenceAppsEndContext(d: WizardData)
    ensures d.design.referenceApps == "" ==>
      EndsWith(FormatWizardContext(d), "- **Reference Apps**: Not specified")
    ensures d.design.referenceApps != "" ==>
      EndsWith(FormatWizardContext(d), "- **Reference Apps**:" + TrimEnd(" " + d.design.referenceApps))
  {
    ContextEndsWithReferenceLine(d);
    ReferenceLineCase(d.design);
  }

  lemma ReferenceLineCase(g: ProjectDesign)
    ensures g.referenceApps == "" ==>
      "- **Reference Apps**:" + TrimEnd(" " + OrElse(g.referenceApps, NotSpecified)) == "- **Reference Apps**: Not specified"
    ensures g.referenceApps != "" ==>
      "- **Reference Apps**:" + TrimEnd(" " + OrElse(g.referenceApps, NotSpecified)) == "- **Reference Apps**:" + TrimEnd(" " + g.referenceApps)
  {
    if g.referenceApps == "" {
      assert TrimEnd(" " + NotSpecified) == " Not specified";
    }
  }

  datatype Prompt = Prompt(system: string, user: string)

  /** Instructions sent with every PRD request: role, format and section outline. */
  const PrdSystem: string :=
    "You are a senior product manager. Generate a comprehensive Product Requirements Document (PRD) in Markdown format. The document must be well-structured, detailed, and optimized for consumption by LLMs and developers.\n"
    + "\n"
    + "Output the PRD using this exact structure:\n"
    + "\n"
    + "# PRD: {App Name}\n"
    + "## Meta\n"
    + "- Type: {app type}\n"
    + "- Target Platform: {platforms}\n"
    + "- Generated: {current date}\n"
    + "\n"
    + "## Problem Statement\n"
    + "## Target Users\n"
    + "## User Personas\n"
    + "## Feature Requirements\n"
    + "### Must Have\n"
    + "### Nice to Have\n"
    + "## User Flows\n"
    + "## Non-Functional Requirements\n"
    + "## Success Metrics\n"
    + "## Constraints & Assumptions\n"
    + "\n"
    + "Be thorough, specific, and actionable. Fill in every section with meaningful content based on the provided project information. If information is missing, make reasonable assumptions and note them."

  /** Instructions sent with every TDD request: role, format and section outline. */
  const TddSystem: string :=
    "You are a senior software architect. Generate a comprehensive Technical Design Document (TDD) in Markdown format. The document must be well-structured, detailed, and optimized for consumption by LLMs and developers.\n"
    + "\n"
    + "Output the TDD using this exact structure:\n"
    + "\n"
    + "# TDD: {App Name}\n"
    + "## Meta\n"
    + "- Type: {app type}\n"
    + "- Generated: {current date}\n"
    + "\n"
    + "## System Architecture\n"
    + "## Tech Stack\n"
    + "### Frontend\n"
    + "### Backend\n"
    + "### Database\n"
    + "### Infrastructure\n"
    + "## Component Breakdown\n"
    + "## API Design\n"
    + "## Data Models\n"
    + "## Authentication & Authorization\n"
    + "## Third-Party Integrations\n"
    + "## Testing Strategy\n"
    + "## Deployment Plan\n"
    + "## File/Folder Structure\n"
    + "## Development Phases\n"
    + "\n"
    + "Be thorough, specific, and actionable. Provide concrete technical decisions, code structure recommendations, and implementation details. If information is missing, make reasonable technical choices and explain the rationale."

  const PrdUserPrefix: string := "Generate a PRD for the following project:\n\n"
  const TddUserPrefix: string := "Generate a TDD for the following project:\n\n"

  function GetPRDPrompt(d: WizardData): (r: Prompt)
    ensures r.system == PrdSystem
    ensures StartsWith(r.user, PrdUserPrefix) && r.user[|PrdUserPrefix|..] == FormatWizardContext(d)
  {
    Prompt(PrdSystem, PrdUserPrefix + FormatWizardContext(d))
  }

  function GetTDDPrompt(d: WizardData): (r: Prompt)
    ensures r.system == TddSystem
    ensures StartsWith(r.user, TddUserPrefix) && r.user[|TddUserPrefix|..] == FormatWizardContext(d)
  {
    Prompt(TddSystem, TddUserPrefix + FormatWizardContext(d))
  }

  /**
   * The instructions do not depend on the answers, and a prompt changes
   * exactly when the context does.
   */
  lemma PromptDependsOnlyOnContext(d: WizardData, e: WizardData)
    ensures GetPRDPrompt(d).system == GetPRDPrompt(e).system && GetTDDPrompt(d).system == GetTDDPrompt(e).system
    ensures GetPRDPrompt(d) == GetPRDPrompt(e) <==> FormatWizardContext(d) == FormatWizardContext(e)
    ensures GetTDDPrompt(d) == GetTDDPrompt(e) <==> FormatWizardContext(d) == FormatWizardContext(e)
  {
  }

  /** A PRD prompt is never a TDD prompt: the user messages differ in the document name. */
  lemma PrdPromptIsNotTddPrompt(d: WizardData, e: WizardData)
    ensures GetPRDPrompt(d) != GetTDDPrompt(e)
  {
    PrefixesDiffer(FormatWizardContext(d), FormatWizardContext(e));
  }

  lemma PrefixesDiffer(c: string, c': string)
    ensures PrdUserPrefix + c != TddUserPrefix + c'
  {
    assert (PrdUserPrefix + c)[11] == 'P';
    assert (TddUserPrefix + c')[11] == 'T';
  }
}
