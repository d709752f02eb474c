# QR code maker — configuration state model

A Dafny model of the state logic of a browser QR-code generator. A single
configuration record (`QRConfig`: content, two colours, symbol size,
error-correction level, logo switch, nullable logo source, logo size) is
changed by the event handlers of a controls panel and of an AI colour-suggestion
panel. A preview component turns it into the arguments of a QR rendering
library. Every React `setConfig(prev => …)` updater is a pure function here.
Each panel's local state is part of the modelled state: the active logo tab and
the URL box of the controls panel, and the prompt and request status of the AI
panel. A whole session starts from the application's initial configuration and
is driven by a sequence of UI events.

Modules:

- `Types` (`types.dfy`): `QRConfig`, `Level` (exactly L, M, Q, H), `ThemeResponse` (two required colours, optional reasoning), `AIStatus` (four states), `AIState` (status plus message). It also defines JavaScript truthiness of a nullable string and the invariant `LogoReady` (logo on ⇒ truthy source).
- `JsString` (`js_string.dfy`): ECMAScript `String.prototype.trim`.
- `Controls` (`controls.dfy`): the generic field change, the logo switch, file upload and its completion, URL submit, default-logo pick, tab clicks, and the slider bounds. `Available` says which events the rendered panel can raise.
- `QRCodeCanvas` (`qr_canvas.dfy`): the rendering-library arguments and the download button's guards.
- `AIFeatures` (`ai_features.dfy`): the service wrapper `generateTheme` and the IDLE/LOADING/SUCCESS/ERROR machine of `handleThemeGen`. The handler is split at its `await`, and the success timer is an event of its own.
- `App` (`app.dfy`): the initial configuration, the default logo URL, the session, runs of events, and facts about reachable states.

The model follows the code in three places where one might expect otherwise:

- Switching the logo off sets `logoUrl` to null. The previous source is discarded, so switching it back on installs the default logo.
- Changing `size` never clamps `logoSize`. The only bounds are slider attributes, so an overlay wider than a third of the symbol is reachable (`App.ReachableOversizedLogo`).
- The Enter key calls the handler with no LOADING check. Only the button has that check.

The toggle handler decides the tab switch from the configuration of the last
render, and decides the new source from the updater's `prev`. Handlers apply in
sequence here, so the two are the same value.

## Model

| member | source | states |
|---|---|---|
| Types.OrElse | components/Controls.tsx:25 | the JavaScript "or" of `prev.logoUrl` and the default: a truthy source is kept, a null or empty one gives the default |
| Controls.ApplyChange | components/Controls.tsx:16-18 | the field named by the key takes the new value and every other field keeps its value |
| Controls.ChangeIsTheUniqueMerge | components/Controls.tsx:17 | any configuration meeting that frame condition is the spread-merge result, so the frame fully specifies `handleChange` |
| Controls.HandleChange | components/Controls.tsx:16-18 | a field change touches only that field of the configuration and leaves the active tab and URL box alone |
| Controls.HandleLogoToggle | components/Controls.tsx:20-32 | switch on: keep a truthy source, else install the default (empty string falls back too). Switch off: source becomes null. Only the logo fields change. The tab moves to default exactly when switching on without a truthy source |
| Controls.HandleFileUpload | components/Controls.tsx:34-47 | no selected file changes nothing; otherwise a read of the first file is started, and the configuration, tab and URL box wait for it to finish |
| Controls.SelectThenReadInstallsUpload | components/Controls.tsx:34-47 | an empty selection is a no-op; a selection followed by a read of data `d` turns the logo on with source `d` and the upload tab, every other field unchanged |
| Controls.HandleUploadFinished | components/Controls.tsx:38-45 | read completion switches the logo on with the read result as source (null for a failed read) and selects the upload tab; nothing else changes |
| Controls.HandleUrlSubmit | components/Controls.tsx:50-59 | an empty URL box changes nothing; otherwise its text becomes the source, the logo goes on, the URL tab is selected |
| Controls.HandleDefaultLogo | components/Controls.tsx:61-68 | the default source replaces whatever was set, the logo goes on, the default tab is selected |
| Controls.TabAndUrlBoxFrame | components/Controls.tsx:194-224 | the upload and URL tab buttons change only the selected tab; typing in the URL box changes only its text, never the configuration |
| Controls.LogoSliderBound | components/Controls.tsx:266-271 | a logo size admitted under the unfloored bound `size / 3` is exactly one in `[20, floor(size / 3)]` |
| Controls.StepKeepsLogoReady | components/Controls.tsx:20-68 | with a non-empty default and successful reads, every event the panel can raise keeps "logo on ⇒ truthy source" |
| Controls.FailedReadBreaksLogoReady | components/Controls.tsx:38-43 | after a file is selected, a failed read (null result) is available and switches the logo on without a source, so the invariant needs successful reads |
| Controls.ToggleOffThenOnInstallsDefault | components/Controls.tsx:25 | off then on yields the default source, whatever source was set before |
| Controls.ToggleOffOnOff | components/Controls.tsx:20-32 | from a state with the logo on, the checkbox sequence off, on, off is available; the middle state shows the default source and the last has the logo off, a null source, and all other fields as at the start |
| Controls.LastAcquisitionWins | components/Controls.tsx:38-68 | after two effective acquisitions (default, upload, URL) the source and tab are those of the second alone, and the logo is on |
| Controls.SizeChangeKeepsLogoSize | components/Controls.tsx:125-131 | changing the size never changes the logo size |
| QRCodeCanvas.RenderArgsOf | components/QRCodeCanvas.tsx:49-66 | rendered content is never empty (empty content becomes the fallback URL). Size, colours and level pass through. The overlay exists iff the logo is on and its source truthy; it is then a `logoSize` square with excavation |
| QRCodeCanvas.OverlayIffSwitchOn | components/QRCodeCanvas.tsx:55-65 | under the logo invariant the overlay is drawn exactly when the switch is on |
| QRCodeCanvas.OverlayNotClampedBySize | components/QRCodeCanvas.tsx:57-61 | the overlay width is `logoSize` unclamped, so it exceeds a third of the symbol whenever `logoSize` does |
| QRCodeCanvas.HandleDownload | components/QRCodeCanvas.tsx:13-29 | no container or no canvas: no effect. Otherwise the encoded image downloads as `mttq-qrcode.png`, or an alert shows when encoding throws; the configuration is not touched |
| AIFeatures.GenerateTheme | services/geminiService.ts:13-43 | a parsed reply is returned unvalidated; every failure yields the whole fixed fallback (black on white with its reasoning text); the wrapper never throws |
| AIFeatures.HandleThemeGen | components/AIFeatures.tsx:15-17 | a blank prompt (after trim) changes nothing and sends nothing; otherwise status becomes LOADING and the untrimmed prompt is sent |
| AIFeatures.HandleSettled | components/AIFeatures.tsx:19-30 | a returned theme overwrites exactly the two colours (reasoning ignored) and gives SUCCESS; a throw gives ERROR with the configuration unchanged |
| AIFeatures.HandleTimer | components/AIFeatures.tsx:27 | the timer returns the status to IDLE with an empty message from whatever status holds then |
| AIFeatures.NoBlankRequest | components/AIFeatures.tsx:16 | no event ever sends a prompt made only of white space |
| AIFeatures.ClickSendsIff | components/AIFeatures.tsx:67-69 | a click sends iff the untrimmed prompt is non-empty, nothing is loading, and the prompt is not blank |
| AIFeatures.EnterSendsIff | components/AIFeatures.tsx:64 | Enter sends iff the prompt is not blank, whatever the status |
| AIFeatures.EnterBypassesLoading | components/AIFeatures.tsx:64-69 | while LOADING, a click sends nothing but Enter sends a second request |
| AIFeatures.WhiteSpacePromptEnablesButtonButSendsNothing | components/AIFeatures.tsx:69 | the button checks the untrimmed prompt: a prompt of one space enables it, yet the trim guard sends nothing |
| AIFeatures.FailedRequestEndsInSuccess | services/geminiService.ts:39-43 | through the real wrapper a failed request settles as SUCCESS with black on white applied |
| AIFeatures.PromptFrame | components/AIFeatures.tsx:62 | only the prompt box changes the prompt |
| AIFeatures.SettledChangesOnlyColours | components/AIFeatures.tsx:21-25 | no AI event changes any field but the two colours, and events other than a returned theme leave the configuration unchanged |
| JsString.TrimStart | components/AIFeatures.tsx:16 | the result is a suffix of the input that is empty or starts with a non-space, and every dropped character is white space |
| JsString.TrimEnd | components/AIFeatures.tsx:16 | the result is a prefix of the input that is empty or ends with a non-space, and every dropped character is white space |
| JsString.TrimIsSlice | components/AIFeatures.tsx:16 | the trimmed prompt is a contiguous slice of the prompt |
| JsString.TrimEndsAreNotWhiteSpace | components/AIFeatures.tsx:16 | a non-empty trimmed prompt neither starts nor ends with white space |
| JsString.BlankIffAllWhiteSpace | components/AIFeatures.tsx:16 | a prompt trims to empty exactly when all its characters are white space |
| App.InitialConfigFacts | App.tsx:10-21 | the initial configuration has non-empty content and level H. The logo is off with a null source, so the invariant holds. Size 320 is on the 128..512 step-32 grid, logo size 70 is within `[20, 320/3]`, and the default logo URL is non-empty |
| App.StepKeepsLogoReady | App.tsx:94-97 | any admissible controls or AI event keeps the logo invariant across the whole session |
| App.RunKeepsLogoReady | components/Controls.tsx:20-68 | every admissible event sequence (file reads succeeding) keeps the logo invariant |
| App.ReachableOverlayIffSwitchOn | components/QRCodeCanvas.tsx:55-65 | in every state reachable from the initial one with successful file reads, the overlay is drawn exactly when the logo switch is on |
| App.ReachableOversizedLogo | components/Controls.tsx:266-271 | this run is admissible: switch on, logo size 100 at size 320, then size 128. It ends with a 100-pixel overlay on a 128-pixel symbol, outside the slider's bound |
| App.ThemeOnlyRecolours | components/AIFeatures.tsx:21-25 | an applied theme changes the renderer's arguments only in the two colours |
| App.ToggleOffHidesLogo | components/Controls.tsx:25 | switching off removes the overlay; switching back on shows the default logo, not the discarded one |
| App.DownloadLeavesSession | components/QRCodeCanvas.tsx:13-29 | pressing download leaves the whole session unchanged for all three outcomes: no effect without container or canvas, a download, or the alert when encoding throws |

## Left out

- Layout, styling, icons, the header image's error fallback, the character counter: presentation only.
- QR symbol encoding (ISO/IEC 18004): done entirely by the rendering library. The model stops at the arguments passed to it.
- The remote colour service: its request text, transport and JSON parsing become the oracle `service: string -> ServiceReply`. A reply missing a colour field (JSON cast without checking) is not modelled; the theme's colours are always strings.
- FileReader asynchrony, the 3-second timer, canvas encoding, the anchor click and `alert`: browser I/O. Read completion and timer expiry are discrete events. The encoder's outcome is a parameter of `HandleDownload`. Reads in flight are counted, so a read completion needs a prior file selection. AI events may arrive in any order: timers are not tracked, so a stale timer may reset a LOADING state, as in the browser; and settlements are not tied to a sent request, so a settlement can arrive with no request in flight.
- Opening the file picker from the upload tab: browser I/O. The click only selects the tab here.
- Colour validity and contrast: the code checks neither, so neither is modelled.
- JavaScript numbers: `size` and `logoSize` are integers. The sliders only produce integers, and nothing does arithmetic on them besides the slider bound.
- `handleChange` takes an untyped value. The model takes a value of the key's own type, which is what every call site passes.
- An empty `files` list stands for both a null list and an empty one. A file is only a name; its contents arrive as the read result.
- Controls.StepKeepsLogoReady: assumes successful, non-empty file reads and a non-empty default logo. `Controls.FailedReadBreaksLogoReady` shows the failed-read case.
- App.RunKeepsLogoReady: only covers runs whose file reads succeed (`App.Admissible` requires `Controls.ReadSucceeded`). A failed read switches the logo on with a null source.
- App.ReachableOverlayIffSwitchOn: only covers states reached with successful file reads. After a failed read the switch is on and no overlay is drawn (`Controls.FailedReadBreaksLogoReady`).
