/**
 The preview component (components/QRCodeCanvas.tsx): the arguments it hands to
 the QR rendering library for a configuration, and the guards of its download
 button. The rendering library and the canvas encoder are outside the model;
 the encoder's outcome is a parameter.
 */
module QRCodeCanvas {
  import opened Types

  /** Content rendered when the configured content is empty. */
  const FallbackValue := "https://google.com"

  /** Name of the downloaded file. */
  const DownloadName := "mttq-qrcode.png"

  /** The logo overlay parameters of the rendering library. */
  datatype ImageSettings = ImageSettings(src: string, height: int, width: int, excavate: bool, crossOrigin: string)

  /** Everything passed to the rendering library. */
  datatype RenderArgs = RenderArgs(
    value: string,
    size: int,
    bgColor: string,
    fgColor: string,
    level: Level,
    imageSettings: Option<ImageSettings>)

  /**
   The library arguments for a configuration: the content falls back when empty,
   the geometry and colours pass through, and the overlay is present exactly when
   the logo is on and its source is truthy, as a square of side `logoSize` with
   the modules beneath it cleared.
   */
  function RenderArgsOf(c: QRConfig): (r: RenderArgs)
    ensures r.value != ""
    ensures c.value != "" ==> r.value == c.value
    ensures c.value == "" ==> r.value == FallbackValue
    ensures r.size == c.size && r.bgColor == c.bgColor && r.fgColor == c.fgColor && r.level == c.level
    ensures r.imageSettings.Some? <==> c.includeLogo && Truthy(c.logoUrl)
    ensures r.imageSettings.Some? ==>
              && Some(r.imageSettings.value.src) == c.logoUrl
              && r.imageSettings.value.width == c.logoSize
              && r.imageSettings.value.height == c.logoSize
              && r.imageSettings.value.excavate
  {
    RenderArgs(
      if c.value != "" then c.value else FallbackValue,
      c.size, c.bgColor, c.fgColor, c.level,
      if c.includeLogo && Truthy(c.logoUrl)
      then Some(ImageSettings(c.logoUrl.value, c.logoSize, c.logoSize, true, "anonymous"))
      else None)
  }

  /** Under `LogoReady` the overlay is drawn exactly when the logo switch is on. */
  lemma OverlayIffSwitchOn(c: QRConfig)
    requires LogoReady(c)
    ensures RenderArgsOf(c).imageSettings.Some? <==> c.includeLogo
  {
  }

  /**
   The overlay is as wide as `logoSize` whatever the symbol size, so it covers
   more than a third of the symbol whenever `logoSize` does.
   */
  lemma OverlayNotClampedBySize(c: QRConfig)
    requires c.includeLogo && Truthy(c.logoUrl)
    requires 3 * c.logoSize > c.size
    ensures RenderArgsOf(c).imageSettings.Some?
    ensures 3 * RenderArgsOf(c).imageSettings.value.width > RenderArgsOf(c).size
  {
  }

  /** What pressing the download button does. */
  datatype DownloadOutcome =
    | NoEffect                                  // no container or no canvas: silently nothing
    | Downloaded(href: string, fileName: string) // an anchor to the encoded image is clicked
    | SecurityAlert                              // the encoder refused (tainted canvas): an alert is shown

  /**
   `handleDownload`. The configuration is not an input: the button never changes
   it. `encoded` is the canvas encoder's result, `None` when it throws.
   */
  function HandleDownload(hasContainer: bool, hasCanvas: bool, encoded: Option<string>): (r: DownloadOutcome)
    ensures r.NoEffect? <==> !hasContainer || !hasCanvas
    ensures r.Downloaded? <==> hasContainer && hasCanvas && encoded.Some?
    ensures r.Downloaded? ==> Some(r.href) == encoded && r.fileName == DownloadName
  {
    if !hasContainer then NoEffect
    else if !hasCanvas then NoEffect
    else match encoded
      case Some(url) => Downloaded(url, DownloadName)
      case None => SecurityAlert
  }
}
