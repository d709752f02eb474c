/**
 The colour-suggestion panel (components/AIFeatures.tsx) and the service call it
 awaits (services/geminiService.ts). The panel holds the prompt and an `AIState`;
 `handleThemeGen` is split at its `await` into a submission and a settlement
 event, and the success timer's expiry is an event of its own. The remote
 service is an oracle from prompt to reply.
 */
module AIFeatures {
  import opened Types
  import JsString

  const LoadingMessage := "AI đang phân tích..."
  const SuccessMessage := "Đã áp dụng màu mới!"
  const ErrorMessage := "Lỗi kết nối. Thử lại sau."

  /** Local state of the panel. */
  datatype Panel = Panel(prompt: string, ai: AIState)

  const InitialPanel := Panel("", AIState(IDLE, ""))

  // ---------------------------------------------------------------------------
  // The service
  // ---------------------------------------------------------------------------

  /**
   What the remote call produced: a parsed reply, or any failure (network error,
   empty body, unparsable JSON) — the service wrapper cannot tell them apart.
   */
  datatype ServiceReply = Parsed(theme: ThemeResponse) | Failed

  /** The wrapper's fallback theme: black on white. */
  const FallbackTheme := ThemeResponse("#000000", "#ffffff", Some("Lỗi kết nối, dùng màu mặc định"))

  /**
   `generateTheme`: a parsed reply is returned as it is (no colour validation),
   every failure becomes the fallback theme. It never throws.
   */
  function GenerateTheme(service: string -> ServiceReply, prompt: string): (r: ThemeResponse)
    ensures service(prompt).Parsed? ==> r == service(prompt).theme
    ensures service(prompt).Failed? ==> r == FallbackTheme
  {
    match service(prompt)
    case Parsed(t) => t
    case Failed => FallbackTheme
  }

  // ---------------------------------------------------------------------------
  // handleThemeGen
  // ---------------------------------------------------------------------------

  predicate Blank(prompt: string) {
    JsString.Trim(prompt) == ""
  }

  /** Result of the synchronous part of `handleThemeGen`: the panel, and the prompt sent, if any. */
  datatype Submission = Submission(panel: Panel, request: Option<string>)

  /**
   The part of `handleThemeGen` before the `await`: a blank prompt does nothing
   and sends nothing; any other prompt shows LOADING and is sent as typed.
   */
  function HandleThemeGen(p: Panel): (r: Submission)
    ensures Blank(p.prompt) ==> r.panel == p && r.request.None?
    ensures !Blank(p.prompt) ==> r.panel.ai.status == LOADING && r.request == Some(p.prompt)
    ensures r.panel.prompt == p.prompt
  {
    if Blank(p.prompt) then Submission(p, None)
    else Submission(p.(ai := AIState(LOADING, LoadingMessage)), Some(p.prompt))
  }

  /** How the awaited call ended: with a theme, or by throwing. */
  datatype CallOutcome = Returned(theme: ThemeResponse) | Threw

  /** The state after the awaited call, for the panel and the shared configuration. */
  datatype Settled = Settled(panel: Panel, config: QRConfig)

  /**
   The part of `handleThemeGen` after the `await`. A theme overwrites the two
   colours only (its reasoning is dropped) and shows SUCCESS; a throw shows ERROR
   and leaves the configuration alone.
   */
  function HandleSettled(p: Panel, c: QRConfig, outcome: CallOutcome): (r: Settled)
    ensures outcome.Returned? ==>
              && r.config == c.(fgColor := outcome.theme.fgColor, bgColor := outcome.theme.bgColor)
              && r.panel.ai.status == SUCCESS
    ensures outcome.Threw? ==> r.config == c && r.panel.ai.status == ERROR
    ensures r.panel.prompt == p.prompt
  {
    match outcome
    case Returned(t) => Settled(p.(ai := AIState(SUCCESS, SuccessMessage)), c.(fgColor := t.fgColor, bgColor := t.bgColor))
    case Threw => Settled(p.(ai := AIState(ERROR, ErrorMessage)), c)
  }

  /** The success timer: back to IDLE with no message, whatever the status is by then. */
  function HandleTimer(p: Panel): (r: Panel)
    ensures r.ai.status == IDLE && r.ai.message == "" && r.prompt == p.prompt
  {
    p.(ai := AIState(IDLE, ""))
  }

  /** The submit button is enabled when the untrimmed prompt is non-empty and no request is loading. */
  predicate ButtonEnabled(p: Panel) {
    p.prompt != "" && p.ai.status != LOADING
  }

  // ---------------------------------------------------------------------------
  // Events
  // ---------------------------------------------------------------------------

  datatype Event =
    | EditPrompt(text: string)
    | KeyDown(key: string)           // a key pressed in the prompt box
    | ClickSubmit                    // a click on the submit button
    | CallSettled(outcome: CallOutcome)
    | TimerFired

  datatype Outcome = Outcome(panel: Panel, config: QRConfig, request: Option<string>)

  function Step(p: Panel, c: QRConfig, e: Event): Outcome {
    match e
    case EditPrompt(t) => Outcome(p.(prompt := t), c, None)
    case KeyDown(k) =>
      if k == "Enter" then
        var sub := HandleThemeGen(p);
        Outcome(sub.panel, c, sub.request)
      else Outcome(p, c, None)
    case ClickSubmit =>
      if ButtonEnabled(p) then
        var sub := HandleThemeGen(p);
        Outcome(sub.panel, c, sub.request)
      else Outcome(p, c, None)
    case CallSettled(o) =>
      var s := HandleSettled(p, c, o);
      Outcome(s.panel, s.config, None)
    case TimerFired => Outcome(HandleTimer(p), c, None)
  }

  // ---------------------------------------------------------------------------
  // Properties
  // ---------------------------------------------------------------------------

  /** The ways in to `handleThemeGen` never send a blank prompt. */
  lemma NoBlankRequest(p: Panel, c: QRConfig, e: Event)
    requires Step(p, c, e).request.Some?
    ensures !Blank(Step(p, c, e).request.value)
    ensures !JsString.AllWhiteSpace(Step(p, c, e).request.value)
  {
    assert Step(p, c, e).request == Some(p.prompt) && !Blank(p.prompt);
    JsString.BlankIffAllWhiteSpace(p.prompt);
  }

  /** A click sends a request exactly when the button is enabled and the prompt is not blank. */
  lemma ClickSendsIff(p: Panel, c: QRConfig)
    ensures Step(p, c, ClickSubmit).request.Some? <==> p.prompt != "" && p.ai.status != LOADING && !Blank(p.prompt)
  {
  }

  /** The Enter key skips the LOADING guard: it sends whenever the prompt is not blank. */
  lemma EnterSendsIff(p: Panel, c: QRConfig)
    ensures Step(p, c, KeyDown("Enter")).request.Some? <==> !Blank(p.prompt)
  {
  }

  /** While a request is loading, a click cannot start another one but Enter can. */
  lemma EnterBypassesLoading(p: Panel, c: QRConfig)
    requires p.ai.status == LOADING && !Blank(p.prompt)
    ensures Step(p, c, ClickSubmit).request.None?
    ensures Step(p, c, KeyDown("Enter")).request == Some(p.prompt)
  {
  }

  /** An enabled button can still send nothing: a prompt of spaces passes the button but not the trim. */
  lemma WhiteSpacePromptEnablesButtonButSendsNothing(c: QRConfig)
    ensures ButtonEnabled(Panel(" ", AIState(IDLE, "")))
    ensures Step(Panel(" ", AIState(IDLE, "")), c, ClickSubmit).request.None?
  {
    assert JsString.IsWhiteSpace(" "[0]);
    JsString.BlankIffAllWhiteSpace(" ");
  }

  /**
   With the real wrapper the awaited call always returns, so the ERROR branch is
   unreachable through the service, and a failed request ends in SUCCESS with
   black on white applied.
   */
  lemma FailedRequestEndsInSuccess(service: string -> ServiceReply, p: Panel, c: QRConfig, prompt: string)
    requires service(prompt).Failed?
    ensures var s := Step(p, c, CallSettled(Returned(GenerateTheme(service, prompt))));
            s.panel.ai.status == SUCCESS && s.config.fgColor == "#000000" && s.config.bgColor == "#ffffff"
  {
  }

  /** Only the prompt box changes the prompt. */
  lemma PromptFrame(p: Panel, c: QRConfig, e: Event)
    requires !e.EditPrompt?
    ensures Step(p, c, e).panel.prompt == p.prompt
  {
  }

  /** A settled theme changes the two colours and nothing else of the configuration. */
  lemma SettledChangesOnlyColours(p: Panel, c: QRConfig, e: Event)
    ensures var r := Step(p, c, e).config;
            r.value == c.value && r.size == c.size && r.level == c.level && r.includeLogo == c.includeLogo
            && r.logoUrl == c.logoUrl && r.logoSize == c.logoSize
    ensures !e.CallSettled? || e.outcome.Threw? ==> Step(p, c, e).config == c
  {
  }
}
