/**
 The application root (App.tsx): the initial configuration, the default logo
 reference handed to the controls panel, and the whole session — the shared
 configuration plus the local state of the two panels — driven by a sequence of
 UI events. Reachability facts about the running application live here.
 */
module App {
  import opened Types
  import Controls
  import AIFeatures
  import QRCodeCanvas

  /** The bundled organisation logo, passed to the controls panel as its default logo. */
  const DefaultLogoUrl := "https://inkythuatso.com/uploads/thumbnails/800/2021/12/logo-mat-tran-to-quoc-viet-nam-inkythuatso-01-08-10-02-25.jpg"

  /** The configuration the application starts from. */
  const InitialConfig := QRConfig("Nội dung hoặc link", "#1d1b1b", "#FFFFFF", 320, H, false, None, 70)

  /** The initial configuration lies inside every bound the widgets keep and satisfies `LogoReady`. */
  lemma InitialConfigFacts()
    ensures InitialConfig.value != "" && InitialConfig.level == H
    ensures !InitialConfig.includeLogo && InitialConfig.logoUrl == None && LogoReady(InitialConfig)
    ensures Controls.SizeSliderAdmits(InitialConfig.size)
    ensures Controls.LogoSliderAdmits(InitialConfig.size, InitialConfig.logoSize)
    ensures DefaultLogoUrl != ""
  {
  }

  // ---------------------------------------------------------------------------
  // The session
  // ---------------------------------------------------------------------------

  datatype Session = Session(controls: Controls.ControlsState, ai: AIFeatures.Panel) {
    function Config(): QRConfig {
      controls.config
    }
  }

  const Initial := Session(Controls.Mount(InitialConfig), AIFeatures.InitialPanel)

  /**
   A UI event. The download button carries what the browser supplies: whether
   the preview container and its canvas exist, and the canvas encoder's result
   (`None` when it throws).
   */
  datatype Event =
    | OnControls(ce: Controls.Event)
    | OnAI(ae: AIFeatures.Event)
    | PressDownload(hasContainer: bool, hasCanvas: bool, encoded: Option<string>)

  /**
   One event: controls events go to the controls reducer, AI events to the AI
   panel (both share the configuration), and the download button to the preview.
   */
  function Step(s: Session, e: Event): Session {
    match e
    case OnControls(ce) => Session(Controls.Step(s.controls, ce, DefaultLogoUrl), s.ai)
    case OnAI(ae) =>
      var o := AIFeatures.Step(s.ai, s.Config(), ae);
      Session(s.controls.(config := o.config), o.panel)
    case PressDownload(_, _, _) => s
  }

  /** What an event does outside the session: the download button's outcome, if it was pressed. */
  function Effect(s: Session, e: Event): Option<QRCodeCanvas.DownloadOutcome> {
    match e
    case PressDownload(a, b, enc) => Some(QRCodeCanvas.HandleDownload(a, b, enc))
    case _ => None
  }

  function Run(s: Session, evs: seq<Event>): Session
    decreases |evs|
  {
    if evs == [] then s else Run(Step(s, evs[0]), evs[1..])
  }

  /**
   An event the rendered application can raise in `s`, with the file reads
   succeeding. Every AI panel event and the download button are possible at any time.
   */
  predicate Admissible(s: Session, e: Event) {
    match e
    case OnControls(ce) => Controls.Available(s.controls, ce) && Controls.ReadSucceeded(ce)
    case OnAI(_) => true
    case PressDownload(_, _, _) => true
  }

  /** Every event of `evs` is admissible in the state it is raised in. */
  predicate UiRun(s: Session, evs: seq<Event>)
    decreases |evs|
  {
    evs == [] || (Admissible(s, evs[0]) && UiRun(Step(s, evs[0]), evs[1..]))
  }

  // ---------------------------------------------------------------------------
  // Properties
  // ---------------------------------------------------------------------------

  /** One admissible event keeps `LogoReady`. */
  lemma {:induction false} StepKeepsLogoReady(s: Session, e: Event)
    requires LogoReady(s.Config()) && Admissible(s, e)
    ensures LogoReady(Step(s, e).Config())
  {
    match e
    case OnControls(ce) =>
      Controls.StepKeepsLogoReady(s.controls, ce, DefaultLogoUrl);
    case OnAI(ae) =>
      AIFeatures.SettledChangesOnlyColours(s.ai, s.Config(), ae);
    case PressDownload(_, _, _) =>
  }

  /** Every admissible run keeps `LogoReady`. */
  lemma {:induction false} RunKeepsLogoReady(s: Session, evs: seq<Event>)
    requires LogoReady(s.Config()) && UiRun(s, evs)
    ensures LogoReady(Run(s, evs).Config())
    decreases |evs|
  {
    if evs != [] {
      StepKeepsLogoReady(s, evs[0]);
      RunKeepsLogoReady(Step(s, evs[0]), evs[1..]);
    }
  }

  /** In every state the application reaches, the overlay is drawn exactly when the logo switch is on. */
  lemma ReachableOverlayIffSwitchOn(evs: seq<Event>)
    requires UiRun(Initial, evs)
    ensures var c := Run(Initial, evs).Config();
            QRCodeCanvas.RenderArgsOf(c).imageSettings.Some? <==> c.includeLogo
  {
    InitialConfigFacts();
    RunKeepsLogoReady(Initial, evs);
    QRCodeCanvas.OverlayIffSwitchOn(Run(Initial, evs).Config());
  }

  /** The UI run that switches the logo on, sets logo size 100 at size 320, then shrinks the size to 128. */
  const ShrinkAfterLogo: seq<Event> := [
    OnControls(Controls.ToggleLogo(true)),
    OnControls(Controls.Change(Controls.SetLogoSize(100))),
    OnControls(Controls.Change(Controls.SetSize(128)))]

  /**
   Shrinking the size does not clamp the logo size: the run above is admissible
   and ends with a 100-pixel overlay on a 128-pixel symbol, above the slider's
   own bound of 128 / 3.
   */
  lemma ReachableOversizedLogo()
    ensures UiRun(Initial, ShrinkAfterLogo)
    ensures var c := Run(Initial, ShrinkAfterLogo).Config();
            c.size == 128 && c.logoSize == 100 && !Controls.LogoSliderAdmits(c.size, c.logoSize)
    ensures var r := QRCodeCanvas.RenderArgsOf(Run(Initial, ShrinkAfterLogo).Config());
            r.imageSettings.Some? && 3 * r.imageSettings.value.width > r.size
  {
    var s1 := Step(Initial, ShrinkAfterLogo[0]);
    var s2 := Step(s1, ShrinkAfterLogo[1]);
    var s3 := Step(s2, ShrinkAfterLogo[2]);
    assert Run(s3, []) == s3;
    assert Run(s2, ShrinkAfterLogo[2..]) == s3;
    assert Run(s1, ShrinkAfterLogo[1..]) == s3;
    assert UiRun(s3, []);
    assert UiRun(s2, ShrinkAfterLogo[2..]);
    assert UiRun(s1, ShrinkAfterLogo[1..]);
  }

  /** An applied theme recolours the rendered symbol and changes nothing else passed to the renderer. */
  lemma ThemeOnlyRecolours(s: Session, t: ThemeResponse)
    ensures var before := QRCodeCanvas.RenderArgsOf(s.Config());
            var after := QRCodeCanvas.RenderArgsOf(Step(s, OnAI(AIFeatures.CallSettled(AIFeatures.Returned(t)))).Config());
            after == before.(fgColor := t.fgColor, bgColor := t.bgColor)
  {
  }

  /** Switching the logo off removes the overlay, and the discarded source is not shown again by switching it back on. */
  lemma ToggleOffHidesLogo(s: Session)
    ensures QRCodeCanvas.RenderArgsOf(Step(s, OnControls(Controls.ToggleLogo(false))).Config()).imageSettings.None?
    ensures var again := Step(Step(s, OnControls(Controls.ToggleLogo(false))), OnControls(Controls.ToggleLogo(true)));
            QRCodeCanvas.RenderArgsOf(again.Config()).imageSettings == Some(QRCodeCanvas.ImageSettings(
              DefaultLogoUrl, s.Config().logoSize, s.Config().logoSize, true, "anonymous"))
  {
  }

  /**
   The download button leaves the whole session unchanged, whichever of its three
   outcomes occurs: no effect without a container or canvas, a download of the
   encoded image, or the security alert when encoding throws.
   */
  lemma DownloadLeavesSession(s: Session, hasContainer: bool, hasCanvas: bool, encoded: Option<string>)
    ensures Step(s, PressDownload(hasContainer, hasCanvas, encoded)) == s
    ensures var out := Effect(s, PressDownload(hasContainer, hasCanvas, encoded));
            && out.Some?
            && (out.value.NoEffect? <==> !hasContainer || !hasCanvas)
            && (out.value.Downloaded? <==> hasContainer && hasCanvas && encoded.Some?)
            && (out.value.SecurityAlert? <==> hasContainer && hasCanvas && encoded.None?)
  {
  }
}
