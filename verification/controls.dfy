/**
 The controls panel (components/Controls.tsx) as a reducer. Every React
 `setConfig(prev => ...)` updater, together with the panel's own `activeTab` and
 `customUrl` state, becomes a pure function from the panel state and one event
 to the next panel state. The default logo reference is a property of the
 component, so it is a parameter of the handlers that use it.
 */
module Controls {
  import opened Types

  /** Which logo acquisition tab is highlighted. */
  datatype Tab = UploadTab | UrlTab | DefaultTab

  /**
   The shared configuration plus the panel-local state (components/Controls.tsx:13-14)
   and the number of file reads started by the file input and not yet finished.
   */
  datatype ControlsState = ControlsState(config: QRConfig, activeTab: Tab, customUrl: string, pendingReads: nat)

  /** The panel-local state on mount: the upload tab, an empty URL box, no read in flight. */
  function Mount(c: QRConfig): ControlsState {
    ControlsState(c, UploadTab, "", 0)
  }

  // ---------------------------------------------------------------------------
  // Generic field change: `handleChange(key, value)`
  // ---------------------------------------------------------------------------

  /** The keys of `QRConfig`. */
  datatype FieldKey = ValueKey | FgColorKey | BgColorKey | SizeKey | LevelKey
                    | IncludeLogoKey | LogoUrlKey | LogoSizeKey

  /** The value stored under a key, tagged with its type. */
  datatype FieldValue = Text(s: string) | Number(n: int) | Tier(l: Level)
                      | Flag(b: bool) | Nullable(o: Option<string>)

  /** Reads one field of a configuration by key. */
  function Get(c: QRConfig, k: FieldKey): FieldValue {
    match k
    case ValueKey => Text(c.value)
    case FgColorKey => Text(c.fgColor)
    case BgColorKey => Text(c.bgColor)
    case SizeKey => Number(c.size)
    case LevelKey => Tier(c.level)
    case IncludeLogoKey => Flag(c.includeLogo)
    case LogoUrlKey => Nullable(c.logoUrl)
    case LogoSizeKey => Number(c.logoSize)
  }

  /** A `handleChange` call: one key with a value of that key's type. */
  datatype FieldUpdate =
    | SetValue(value: string)
    | SetFgColor(fgColor: string)
    | SetBgColor(bgColor: string)
    | SetSize(size: int)
    | SetLevel(level: Level)
    | SetIncludeLogo(includeLogo: bool)
    | SetLogoUrl(logoUrl: Option<string>)
    | SetLogoSize(logoSize: int)
  {
    function Key(): FieldKey {
      match this
      case SetValue(_) => ValueKey
      case SetFgColor(_) => FgColorKey
      case SetBgColor(_) => BgColorKey
      case SetSize(_) => SizeKey
      case SetLevel(_) => LevelKey
      case SetIncludeLogo(_) => IncludeLogoKey
      case SetLogoUrl(_) => LogoUrlKey
      case SetLogoSize(_) => LogoSizeKey
    }

    function Payload(): FieldValue {
      match this
      case SetValue(v) => Text(v)
      case SetFgColor(v) => Text(v)
      case SetBgColor(v) => Text(v)
      case SetSize(v) => Number(v)
      case SetLevel(v) => Tier(v)
      case SetIncludeLogo(v) => Flag(v)
      case SetLogoUrl(v) => Nullable(v)
      case SetLogoSize(v) => Number(v)
    }
  }

  /** Two configurations that agree on every key are the same configuration. */
  lemma {:induction false} Extensional(a: QRConfig, b: QRConfig)
    requires forall k :: Get(a, k) == Get(b, k)
    ensures a == b
  {
    assert Get(a, ValueKey) == Get(b, ValueKey);
    assert Get(a, FgColorKey) == Get(b, FgColorKey);
    assert Get(a, BgColorKey) == Get(b, BgColorKey);
    assert Get(a, SizeKey) == Get(b, SizeKey);
    assert Get(a, LevelKey) == Get(b, LevelKey);
    assert Get(a, IncludeLogoKey) == Get(b, IncludeLogoKey);
    assert Get(a, LogoUrlKey) == Get(b, LogoUrlKey);
    assert Get(a, LogoSizeKey) == Get(b, LogoSizeKey);
  }

  /** `{ ...prev, [key]: value }`: exactly the named field takes the new value. */
  function ApplyChange(c: QRConfig, u: FieldUpdate): (r: QRConfig)
    ensures Get(r, u.Key()) == u.Payload()
    ensures forall k :: k != u.Key() ==> Get(r, k) == Get(c, k)
  {
    match u
    case SetValue(v) => c.(value := v)
    case SetFgColor(v) => c.(fgColor := v)
    case SetBgColor(v) => c.(bgColor := v)
    case SetSize(v) => c.(size := v)
    case SetLevel(v) => c.(level := v)
    case SetIncludeLogo(v) => c.(includeLogo := v)
    case SetLogoUrl(v) => c.(logoUrl := v)
    case SetLogoSize(v) => c.(logoSize := v)
  }

  /** The frame of `ApplyChange` determines its result: no other merge satisfies it. */
  lemma ChangeIsTheUniqueMerge(c: QRConfig, u: FieldUpdate, r: QRConfig)
    requires Get(r, u.Key()) == u.Payload()
    requires forall k :: k != u.Key() ==> Get(r, k) == Get(c, k)
    ensures r == ApplyChange(c, u)
  {
    var a := ApplyChange(c, u);
    forall k ensures Get(r, k) == Get(a, k) {
      if k != u.Key() {
        assert Get(r, k) == Get(c, k) == Get(a, k);
      }
    }
    Extensional(r, a);
  }

  function HandleChange(s: ControlsState, u: FieldUpdate): (r: ControlsState)
    ensures Get(r.config, u.Key()) == u.Payload()
    ensures forall k :: k != u.Key() ==> Get(r.config, k) == Get(s.config, k)
    ensures r.activeTab == s.activeTab && r.customUrl == s.customUrl && r.pendingReads == s.pendingReads
  {
    s.(config := ApplyChange(s.config, u))
  }

  // ---------------------------------------------------------------------------
  // Logo handlers
  // ---------------------------------------------------------------------------

  /** Only the two logo-source fields may differ between `a` and `b`. */
  predicate SameExceptLogo(a: QRConfig, b: QRConfig) {
    forall k :: k != IncludeLogoKey && k != LogoUrlKey ==> Get(a, k) == Get(b, k)
  }

  /**
   The logo switch. Switching on keeps a truthy source and otherwise installs the
   default (an empty string counts as no source); switching off discards the
   source. The tab moves to the default tab exactly when switching on without a
   usable source.
   */
  function HandleLogoToggle(s: ControlsState, checked: bool, defaultLogoUrl: string): (r: ControlsState)
    ensures r.config.includeLogo == checked
    ensures !checked ==> r.config.logoUrl == None
    ensures checked && Truthy(s.config.logoUrl) ==> r.config.logoUrl == s.config.logoUrl
    ensures checked && !Truthy(s.config.logoUrl) ==> r.config.logoUrl == Some(defaultLogoUrl)
    ensures SameExceptLogo(s.config, r.config)
    ensures r.activeTab == DefaultTab || r.activeTab == s.activeTab
    ensures r.activeTab != s.activeTab ==> checked && !Truthy(s.config.logoUrl)
    ensures checked && !Truthy(s.config.logoUrl) ==> r.activeTab == DefaultTab
    ensures r.customUrl == s.customUrl && r.pendingReads == s.pendingReads
  {
    var c := s.config.(includeLogo := checked,
                       logoUrl := if checked then Some(OrElse(s.config.logoUrl, defaultLogoUrl)) else None);
    var tab := if checked && !Truthy(s.config.logoUrl) then DefaultTab else s.activeTab;
    s.(config := c, activeTab := tab)
  }

  /** A file chosen in the file input; its contents are outside the model. */
  datatype LocalFile = LocalFile(name: string)

  /**
   A file-input change starts a read of the first selected file, if any. No
   selection changes nothing; a selection only puts one more read in flight —
   the configuration, tab and URL box wait for the read to end.
   */
  function HandleFileUpload(s: ControlsState, files: seq<LocalFile>): (r: (ControlsState, Option<LocalFile>))
    ensures files == [] ==> r == (s, None)
    ensures files != [] ==> r.1 == Some(files[0]) && r.0.pendingReads == s.pendingReads + 1
    ensures r.0.config == s.config && r.0.activeTab == s.activeTab && r.0.customUrl == s.customUrl
  {
    if files != [] then (s.(pendingReads := s.pendingReads + 1), Some(files[0])) else (s, None)
  }

  /**
   The reader's `onloadend`. It also fires when the read fails, and then the
   result is null: the switch goes on with no source. The finished read leaves
   the set of reads in flight.
   */
  function HandleUploadFinished(s: ControlsState, result: Option<string>): (r: ControlsState)
    ensures r.config.includeLogo && r.config.logoUrl == result
    ensures SameExceptLogo(s.config, r.config)
    ensures r.activeTab == UploadTab && r.customUrl == s.customUrl
    ensures s.pendingReads > 0 ==> r.pendingReads + 1 == s.pendingReads
  {
    ControlsState(s.config.(logoUrl := result, includeLogo := true), UploadTab, s.customUrl,
                  if s.pendingReads > 0 then s.pendingReads - 1 else 0)
  }

  /** Submitting the URL box: an empty box changes nothing, otherwise its text becomes the source. */
  function HandleUrlSubmit(s: ControlsState): (r: ControlsState)
    ensures s.customUrl == "" ==> r == s
    ensures s.customUrl != "" ==> r.config.includeLogo && r.config.logoUrl == Some(s.customUrl) && r.activeTab == UrlTab
    ensures SameExceptLogo(s.config, r.config) && r.customUrl == s.customUrl && r.pendingReads == s.pendingReads
  {
    if s.customUrl != "" then
      s.(config := s.config.(logoUrl := Some(s.customUrl), includeLogo := true), activeTab := UrlTab)
    else
      s
  }

  /** The default-logo tab: installs the default source whatever was there before. */
  function HandleDefaultLogo(s: ControlsState, defaultLogoUrl: string): (r: ControlsState)
    ensures r.config.includeLogo && r.config.logoUrl == Some(defaultLogoUrl)
    ensures SameExceptLogo(s.config, r.config)
    ensures r.activeTab == DefaultTab && r.customUrl == s.customUrl && r.pendingReads == s.pendingReads
  {
    s.(config := s.config.(logoUrl := Some(defaultLogoUrl), includeLogo := true), activeTab := DefaultTab)
  }

  // ---------------------------------------------------------------------------
  // Events
  // ---------------------------------------------------------------------------

  datatype Event =
    | Change(update: FieldUpdate)         // any `handleChange` call
    | ToggleLogo(checked: bool)           // the logo checkbox
    | PickDefault                         // the default-logo tab button
    | ClickUploadTab                      // opens the file picker and selects the upload tab
    | ClickUrlTab                         // selects the URL tab
    | EditCustomUrl(text: string)         // typing in the URL box
    | SubmitUrl                           // the confirm button beside the URL box
    | SelectFiles(files: seq<LocalFile>)  // the file input's change
    | UploadFinished(result: Option<string>)  // the file reader's completion

  function Step(s: ControlsState, e: Event, defaultLogoUrl: string): ControlsState {
    match e
    case Change(u) => HandleChange(s, u)
    case ToggleLogo(b) => HandleLogoToggle(s, b, defaultLogoUrl)
    case PickDefault => HandleDefaultLogo(s, defaultLogoUrl)
    case ClickUploadTab => s.(activeTab := UploadTab)
    case ClickUrlTab => s.(activeTab := UrlTab)
    case EditCustomUrl(t) => s.(customUrl := t)
    case SubmitUrl => HandleUrlSubmit(s)
    case SelectFiles(fs) => HandleFileUpload(s, fs).0
    case UploadFinished(res) => HandleUploadFinished(s, res)
  }

  // ---------------------------------------------------------------------------
  // Slider bounds
  // ---------------------------------------------------------------------------

  const SizeMin := 128
  const SizeMax := 512
  const SizeStep := 32
  const LogoSizeMin := 20

  /** Values the size slider can produce: 128..512 in steps of 32 (components/Controls.tsx:125-131). */
  predicate SizeSliderAdmits(v: int) {
    SizeMin <= v <= SizeMax && (v - SizeMin) % SizeStep == 0
  }

  /**
   Values the logo-size slider can produce: integers from 20 up to the unfloored
   bound `size / 3` (components/Controls.tsx:266-271), i.e. `3 * v <= size`.
   */
  predicate LogoSliderAdmits(size: int, v: int) {
    LogoSizeMin <= v && 3 * v <= size
  }

  /** Comparing with the unfloored `size / 3` is the same as comparing with its floor. */
  lemma LogoSliderBound(size: int, v: int)
    requires size >= 0
    ensures LogoSliderAdmits(size, v) <==> LogoSizeMin <= v <= size / 3
  {
  }

  /**
   The `handleChange` calls a widget makes: the text box, colour pickers and level
   buttons take any value, the two sliders only their admitted values (the
   logo-size slider exists only while the logo is on), and no widget changes
   `includeLogo` or `logoUrl` this way.
   */
  predicate WidgetChange(s: ControlsState, u: FieldUpdate) {
    match u
    case SetValue(_) => true
    case SetFgColor(_) => true
    case SetBgColor(_) => true
    case SetLevel(_) => true
    case SetSize(v) => SizeSliderAdmits(v)
    case SetLogoSize(v) => s.config.includeLogo && LogoSliderAdmits(s.config.size, v)
    case SetIncludeLogo(_) => false
    case SetLogoUrl(_) => false
  }

  /**
   The events the rendered panel can raise in state `s`. The tab buttons, the
   hidden file input and the logo-size slider exist only while the logo is on;
   the URL box only while the URL tab is also selected; the checkbox reports the
   negation of its current state. A read completion needs a read in flight.
   */
  predicate Available(s: ControlsState, e: Event) {
    match e
    case Change(u) => WidgetChange(s, u)
    case ToggleLogo(b) => b == !s.config.includeLogo
    case PickDefault => s.config.includeLogo
    case ClickUploadTab => s.config.includeLogo
    case ClickUrlTab => s.config.includeLogo
    case EditCustomUrl(_) => s.config.includeLogo && s.activeTab == UrlTab
    case SubmitUrl => s.config.includeLogo && s.activeTab == UrlTab
    case SelectFiles(_) => s.config.includeLogo
    case UploadFinished(_) => s.pendingReads > 0
  }

  /** A read completion that delivered a (non-empty) data URL. */
  predicate ReadSucceeded(e: Event) {
    e.UploadFinished? ==> Truthy(e.result)
  }

  // ---------------------------------------------------------------------------
  // Properties
  // ---------------------------------------------------------------------------

  /**
   Every panel event available in the UI keeps `LogoReady`, provided the default
   source is non-empty and the reads succeed.
   */
  lemma StepKeepsLogoReady(s: ControlsState, e: Event, defaultLogoUrl: string)
    requires LogoReady(s.config) && defaultLogoUrl != ""
    requires Available(s, e) && ReadSucceeded(e)
    ensures LogoReady(Step(s, e, defaultLogoUrl).config)
  {
  }

  /**
   A failed read switches the logo on with no source: after a file is selected,
   the failed completion is available and breaks `LogoReady`, so the invariant
   needs the successful-read premise.
   */
  lemma FailedReadBreaksLogoReady(s: ControlsState, f: LocalFile, defaultLogoUrl: string)
    requires s.config.includeLogo
    ensures var picked := Step(s, SelectFiles([f]), defaultLogoUrl);
            && Available(s, SelectFiles([f]))
            && Available(picked, UploadFinished(None))
            && !LogoReady(Step(picked, UploadFinished(None), defaultLogoUrl).config)
  {
  }

  /**
   Choosing no file changes nothing. Choosing files and then completing the read
   of the first with data `d` switches the logo on with `d` as its source and
   selects the upload tab; every other field, the URL box and the reads in flight
   are as before.
   */
  lemma SelectThenReadInstallsUpload(s: ControlsState, files: seq<LocalFile>, d: string, defaultLogoUrl: string)
    ensures Step(s, SelectFiles([]), defaultLogoUrl) == s
    ensures files != [] ==>
              var r := Step(Step(s, SelectFiles(files), defaultLogoUrl), UploadFinished(Some(d)), defaultLogoUrl);
              && r.config == s.config.(includeLogo := true, logoUrl := Some(d))
              && r.activeTab == UploadTab && r.customUrl == s.customUrl && r.pendingReads == s.pendingReads
  {
  }

  /** Switching the logo off and on again never restores the discarded source. */
  lemma ToggleOffThenOnInstallsDefault(s: ControlsState, defaultLogoUrl: string)
    ensures HandleLogoToggle(HandleLogoToggle(s, false, defaultLogoUrl), true, defaultLogoUrl).config.logoUrl
         == Some(defaultLogoUrl)
  {
  }

  /**
   The checkbox alternates: off, on, off is an available sequence from any state
   with the logo on. The middle state shows the default source, and the last one
   has the logo off with a null source and every other field as at the start.
   */
  lemma ToggleOffOnOff(s: ControlsState, defaultLogoUrl: string)
    requires s.config.includeLogo
    ensures var s1 := Step(s, ToggleLogo(false), defaultLogoUrl);
            var s2 := Step(s1, ToggleLogo(true), defaultLogoUrl);
            var s3 := Step(s2, ToggleLogo(false), defaultLogoUrl);
            && Available(s, ToggleLogo(false)) && Available(s1, ToggleLogo(true)) && Available(s2, ToggleLogo(false))
            && s2.config.logoUrl == Some(defaultLogoUrl)
            && !s3.config.includeLogo && s3.config.logoUrl == None
            && s3.config == s1.config && SameExceptLogo(s.config, s3.config)
  {
  }

  /** The three ways of choosing a logo that take effect in state `s`. */
  predicate Acquires(s: ControlsState, e: Event) {
    e.PickDefault? || e.UploadFinished? || (e.SubmitUrl? && s.customUrl != "")
  }

  /**
   Acquisitions overwrite each other: after two of them the source, the switch and
   the tab are those the second one alone would have produced.
   */
  lemma LastAcquisitionWins(s: ControlsState, a: Event, b: Event, defaultLogoUrl: string)
    requires Acquires(s, a) && Acquires(s, b)
    ensures var both := Step(Step(s, a, defaultLogoUrl), b, defaultLogoUrl);
            var second := Step(s, b, defaultLogoUrl);
            both.config.logoUrl == second.config.logoUrl && both.config.includeLogo
            && both.activeTab == second.activeTab
  {
  }

  /** The upload and URL tab buttons only select their tab, and typing in the URL box only changes its text. */
  lemma TabAndUrlBoxFrame(s: ControlsState, text: string, defaultLogoUrl: string)
    ensures var r := Step(s, ClickUploadTab, defaultLogoUrl);
            r.config == s.config && r.customUrl == s.customUrl && r.activeTab == UploadTab
    ensures var r := Step(s, ClickUrlTab, defaultLogoUrl);
            r.config == s.config && r.customUrl == s.customUrl && r.activeTab == UrlTab
    ensures var r := Step(s, EditCustomUrl(text), defaultLogoUrl);
            r.config == s.config && r.customUrl == text && r.activeTab == s.activeTab
  {
  }

  /** Changing the size never touches the logo size, whatever the new size. */
  lemma SizeChangeKeepsLogoSize(s: ControlsState, size: int)
    ensures HandleChange(s, SetSize(size)).config.logoSize == s.config.logoSize
  {
    assert LogoSizeKey != SetSize(size).Key();
  }
}
