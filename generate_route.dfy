/**
 * The document-generation endpoint: it picks the PRD or TDD prompt from the
 * requested document type, hands it to the text-generation provider once,
 * and maps the provider's outcome to a `{content}` reply or to an error
 * reply whose status is decided by a substring test on the error message.
 *
 * The provider is an input: a function from the prompt it is given to the
 * outcome it produces.
 */
module GenerateRoute {
  import opened Wrappers
  import opened Text
  import opened Types
  import opened Prompts

  /** The JSON body of a generation request; `docType` is whatever string the client sent. */
  datatype GenerateRequest = GenerateRequest(wizardData: WizardData, docType: string)

  /**
   * What the provider call produced: a reply whose `output_text` may be
   * missing or empty, or a thrown error whose `message` may be missing.
   */
  datatype ProviderOutcome =
    | Replied(outputText: Option<string>)
    | Threw(message: Option<string>)

  /** The endpoint's reply: `{content}` with status 200, or `{error}` with a status. */
  datatype GenerateResponse =
    | Content(content: string)
    | Failure(status: int, error: string)

  const NoContentGenerated: string := "No content generated"
  const GenerationFailed: string := "Generation failed"

  /** The PRD prompt for exactly the string "prd"; the TDD prompt for anything else. */
  function SelectPrompt(req: GenerateRequest): (r: Prompt)
    ensures r.system == PrdSystem <==> req.docType == "prd"
    ensures r.system == TddSystem <==> req.docType != "prd"
    ensures EndsWith(r.user, FormatWizardContext(req.wizardData))
  {
    SystemsDiffer();
    var ctx := FormatWizardContext(req.wizardData);
    if req.docType == "prd" then
      var r := GetPRDPrompt(req.wizardData);
      TailEndsWith(r.user, |PrdUserPrefix|, ctx);
      r
    else
      var r := GetTDDPrompt(req.wizardData);
      TailEndsWith(r.user, |TddUserPrefix|, ctx);
      r
  }

  lemma SystemsDiffer()
    ensures PrdSystem != TddSystem
  {
    assert |PrdSystem| != |TddSystem|;
  }

  /** `e?.message || "Generation failed"`. */
  function ErrorMessage(message: Option<string>): (r: string)
    ensures r != ""
    ensures message.Some? && message.value != "" ==> r == message.value
    ensures message.None? || message.value == "" ==> r == GenerationFailed
  {
    OrElse(message.GetOr(""), GenerationFailed)
  }

  /** 401 when the message mentions "API key" or "auth", 500 otherwise. */
  function ErrorStatus(message: string): (r: int)
    ensures r == 401 || r == 500
    ensures r == 401 <==> Contains(message, "API key") || Contains(message, "auth")
  {
    if Contains(message, "API key") || Contains(message, "auth") then 401 else 500
  }

  /** The reply for one provider outcome. */
  function Classify(outcome: ProviderOutcome): (r: GenerateResponse)
    ensures r.Content? <==> outcome.Replied? && outcome.outputText.Some? && outcome.outputText.value != ""
    ensures r.Content? ==> r.content == outcome.outputText.value && r.content != ""
    ensures r.Failure? ==> r.error != "" && (r.status == 401 || r.status == 500)
    ensures outcome.Replied? && r.Failure? ==> r == Failure(500, NoContentGenerated)
  {
    match outcome
    case Replied(text) =>
      if text.Some? && text.value != "" then Content(text.value)
      else Failure(500, NoContentGenerated)
    case Threw(message) =>
      var m := ErrorMessage(message);
      Failure(ErrorStatus(m), m)
  }

  /** `POST /api/generate`: one provider call on the selected prompt, then classification. */
  function Post(req: GenerateRequest, provider: Prompt -> ProviderOutcome): (r: GenerateResponse)
    ensures var o := provider(SelectPrompt(req));
      r.Content? <==> (o.Replied? && o.outputText.Some? && o.outputText.value != "")
  {
    Classify(provider(SelectPrompt(req)))
  }

  /** The PRD prompt is chosen exactly when the document type is "prd"; every other string gets the TDD prompt. */
  lemma SelectPromptIff(req: GenerateRequest)
    ensures SelectPrompt(req) == GetPRDPrompt(req.wizardData) <==> req.docType == "prd"
    ensures SelectPrompt(req) == GetTDDPrompt(req.wizardData) <==> req.docType != "prd"
  {
    PrdPromptIsNotTddPrompt(req.wizardData, req.wizardData);
  }

  /** The reply depends on the provider only through its answer to the one selected prompt. */
  lemma PostUsesOneCall(req: GenerateRequest, p: Prompt -> ProviderOutcome, q: Prompt -> ProviderOutcome)
    requires p(SelectPrompt(req)) == q(SelectPrompt(req))
    ensures Post(req, p) == Post(req, q)
  {
  }

  /** A thrown error with no usable message reports "Generation failed" with status 500. */
  lemma MissingMessageIs500(message: Option<string>)
    requires message.None? || message.value == ""
    ensures Classify(Threw(message)) == Failure(500, GenerationFailed)
  {
    FallbackLetters();
    NoTriggerLetters(GenerationFailed);
  }

  /** The fallback message has no 'A' (which "API key" starts with) and no 'u' (the second letter of "auth"). */
  lemma FallbackLetters()
    ensures forall i :: 0 <= i < |GenerationFailed| ==> GenerationFailed[i] != 'A' && GenerationFailed[i] != 'u'
  {
  }

  /** A message with no 'A' and no 'u' contains neither trigger word. */
  lemma NoTriggerLetters(m: string)
    requires forall i :: 0 <= i < |m| ==> m[i] != 'A' && m[i] != 'u'
    ensures !Contains(m, "API key") && !Contains(m, "auth")
  {
    ContainsNeedsFirstChar(m, "API key");
    ContainsAfterFirstChar(m, "auth");
  }

  /** Any message mentioning "auth" or "API key" anywhere, verbatim, is reported with status 401. */
  lemma AuthMessagesAre401(p: string, q: string)
    ensures Classify(Threw(Some(p + "auth" + q))) == Failure(401, p + "auth" + q)
    ensures Classify(Threw(Some(p + "API key" + q))) == Failure(401, p + "API key" + q)
  {
    ContainsInfix(p, "auth", q);
    ContainsInfix(p, "API key", q);
  }

  /** A message that mentions neither is reported verbatim with status 500. */
  lemma OtherMessagesAre500(m: string)
    requires m != "" && !Contains(m, "API key") && !Contains(m, "auth")
    ensures Classify(Threw(Some(m))) == Failure(500, m)
  {
  }
}
