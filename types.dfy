/**
 * The records of the planning wizard: the answer-set a user builds step by
 * step (WizardData and its four parts) and the five persisted entities
 * (Project, Draft, Idea, TechTemplate, Production), with the enumerations
 * they use and the all-blank answer-set a new wizard starts from.
 */
module Types {
  import opened Wrappers
  import opened Seqs

  datatype AppType = Web | Desktop | Mobile | Cli | Api | BrowserExtension
  datatype Priority = MustHave | NiceToHave
  datatype UIStyle = Minimal | Rich | Dashboard
  datatype DocType = Prd | Tdd

  /** The string each AppType value is written as. */
  function AppTypeName(a: AppType): string {
    match a
    case Web => "web"
    case Desktop => "desktop"
    case Mobile => "mobile"
    case Cli => "cli"
    case Api => "api"
    case BrowserExtension => "browser-extension"
  }

  function PriorityName(p: Priority): string {
    match p
    case MustHave => "must-have"
    case NiceToHave => "nice-to-have"
  }

  function UIStyleName(u: UIStyle): string {
    match u
    case Minimal => "minimal"
    case Rich => "rich"
    case Dashboard => "dashboard"
  }

  function DocTypeName(d: DocType): string {
    match d
    case Prd => "prd"
    case Tdd => "tdd"
  }

  /** Reads a wire string back as a DocType; only the two names are accepted. */
  function ParseDocType(s: string): (r: Option<DocType>)
    ensures r.Some? <==> s == "prd" || s == "tdd"
  {
    if s == "prd" then Some(Prd) else if s == "tdd" then Some(Tdd) else None
  }

  /** Reads a wire string back as a Priority; only the two names are accepted. */
  function ParsePriority(s: string): (r: Option<Priority>)
    ensures r.Some? <==> s == "must-have" || s == "nice-to-have"
  {
    if s == "must-have" then Some(MustHave) else if s == "nice-to-have" then Some(NiceToHave) else None
  }

  datatype Feature = Feature(id: string, name: string, description: string, priority: Priority)
  datatype UserPersona = UserPersona(id: string, name: string, description: string)
  datatype UserFlow = UserFlow(id: string, title: string, steps: string)

  datatype ProjectBasics = ProjectBasics(
    name: string, description: string, appType: AppType, targetAudience: string, coreProblem: string)

  datatype ProjectFeatures = ProjectFeatures(
    features: seq<Feature>, personas: seq<UserPersona>, userFlows: seq<UserFlow>)

  /** Eleven independent multi-select lists; a list may hold the "let AI decide" sentinel. */
  datatype ProjectTech = ProjectTech(
    language: seq<string>, framework: seq<string>, uiux: seq<string>, database: seq<string>,
    storage: seq<string>, cicd: seq<string>, payment: seq<string>, integrations: seq<string>,
    performanceRequirements: seq<string>, authNeeds: seq<string>, authMethod: seq<string>)

  datatype ProjectDesign = ProjectDesign(
    uiStyle: UIStyle, responsiveRequirements: string, accessibilityNeeds: string, referenceApps: string)

  datatype WizardData = WizardData(
    basics: ProjectBasics, features: ProjectFeatures, tech: ProjectTech, design: ProjectDesign)

  /** The two generated documents are the only optional fields. */
  datatype Project = Project(
    id: string, createdAt: string, updatedAt: string, wizardData: WizardData,
    generatedPRD: Option<string>, generatedTDD: Option<string>)

  datatype Draft = Draft(
    id: string, createdAt: string, updatedAt: string, wizardData: WizardData, currentStep: int)

  datatype Idea = Idea(id: string, title: string, content: string, createdAt: string, updatedAt: string)

  datatype TechTemplate = TechTemplate(
    id: string, name: string, description: string, tech: ProjectTech, createdAt: string)

  datatype Production = Production(
    id: string, name: string, url: Option<string>, platform: string, status: string,
    version: Option<string>, releaseDate: Option<string>, description: Option<string>,
    notes: string, screenshotUrls: Option<seq<string>>, createdAt: string, updatedAt: string)

  /** The keys of ProjectTech, in declaration order. */
  datatype TechField =
    | Language | Framework | Uiux | Database | StorageField | Cicd | Payment
    | Integrations | PerformanceRequirements | AuthNeeds | AuthMethod

  const TechFields: seq<TechField> :=
    [Language, Framework, Uiux, Database, StorageField, Cicd, Payment,
     Integrations, PerformanceRequirements, AuthNeeds, AuthMethod]

  /** `tech[field]`. */
  function FieldOf(t: ProjectTech, f: TechField): seq<string> {
    match f
    case Language => t.language
    case Framework => t.framework
    case Uiux => t.uiux
    case Database => t.database
    case StorageField => t.storage
    case Cicd => t.cicd
    case Payment => t.payment
    case Integrations => t.integrations
    case PerformanceRequirements => t.performanceRequirements
    case AuthNeeds => t.authNeeds
    case AuthMethod => t.authMethod
  }

  /** `{ ...tech, [field]: v }`: the named list is replaced and the other ten are kept. */
  function WithField(t: ProjectTech, f: TechField, v: seq<string>): (r: ProjectTech)
    ensures FieldOf(r, f) == v
    ensures forall g :: g != f ==> FieldOf(r, g) == FieldOf(t, g)
  {
    match f
    case Language => t.(language := v)
    case Framework => t.(framework := v)
    case Uiux => t.(uiux := v)
    case Database => t.(database := v)
    case StorageField => t.(storage := v)
    case Cicd => t.(cicd := v)
    case Payment => t.(payment := v)
    case Integrations => t.(integrations := v)
    case PerformanceRequirements => t.(performanceRequirements := v)
    case AuthNeeds => t.(authNeeds := v)
    case AuthMethod => t.(authMethod := v)
  }

  /** A tech record is determined by its eleven lists. */
  lemma TechExtensional(s: ProjectTech, t: ProjectTech)
    requires forall f :: FieldOf(s, f) == FieldOf(t, f)
    ensures s == t
  {
    assert FieldOf(s, Language) == FieldOf(t, Language);
    assert FieldOf(s, Framework) == FieldOf(t, Framework);
    assert FieldOf(s, Uiux) == FieldOf(t, Uiux);
    assert FieldOf(s, Database) == FieldOf(t, Database);
    assert FieldOf(s, StorageField) == FieldOf(t, StorageField);
    assert FieldOf(s, Cicd) == FieldOf(t, Cicd);
    assert FieldOf(s, Payment) == FieldOf(t, Payment);
    assert FieldOf(s, Integrations) == FieldOf(t, Integrations);
    assert FieldOf(s, PerformanceRequirements) == FieldOf(t, PerformanceRequirements);
    assert FieldOf(s, AuthNeeds) == FieldOf(t, AuthNeeds);
    assert FieldOf(s, AuthMethod) == FieldOf(t, AuthMethod);
  }

  const EmptyTech: ProjectTech := ProjectTech([], [], [], [], [], [], [], [], [], [], [])

  /** The answer-set a new wizard or a new draft starts from. */
  const DefaultWizardData: WizardData := WizardData(
    ProjectBasics("", "", Web, "", ""),
    ProjectFeatures([], [], []),
    EmptyTech,
    ProjectDesign(Minimal, "", "", ""))

  /** The default tech record has all eleven lists empty, and TechFields names each key once. */
  lemma DefaultTechIsEmpty()
    ensures |TechFields| == 11 && NoDuplicates(TechFields)
    ensures forall f :: f in TechFields
    ensures forall f :: FieldOf(DefaultWizardData.tech, f) == []
  {
    forall f ensures f in TechFields {
      var i := match f
        case Language => 0 case Framework => 1 case Uiux => 2 case Database => 3
        case StorageField => 4 case Cicd => 5 case Payment => 6 case Integrations => 7
        case PerformanceRequirements => 8 case AuthNeeds => 9 case AuthMethod => 10;
      assert TechFields[i] == f;
    }
  }

  /** The default basics are blank with app type "web"; the default design is "minimal" with blank text. */
  lemma DefaultBasicsAndDesign()
    ensures var b := DefaultWizardData.basics;
      b.name == b.description == b.targetAudience == b.coreProblem == "" && AppTypeName(b.appType) == "web"
    ensures var d := DefaultWizardData.design;
      UIStyleName(d.uiStyle) == "minimal" && d.responsiveRequirements == d.accessibilityNeeds == d.referenceApps == ""
    ensures DefaultWizardData.features == ProjectFeatures([], [], [])
  {
  }

  /** Each enumeration's names are distinct, and parsing a name gives back its value. */
  lemma NamesRoundTrip(d: DocType, p: Priority)
    ensures ParseDocType(DocTypeName(d)) == Some(d)
    ensures ParsePriority(PriorityName(p)) == Some(p)
    ensures forall s :: ParseDocType(s) == Some(d) ==> s == DocTypeName(d)
    ensures forall s :: ParsePriority(s) == Some(p) ==> s == PriorityName(p)
  {
  }
}
