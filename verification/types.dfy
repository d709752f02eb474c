/**
 The records shared by every component of the QR maker (types.ts): the QR
 configuration, the colour theme an AI request returns, and the status of that
 request. JavaScript `null`/`undefined` become `Option`, and the `number` fields
 become mathematical integers.
 */
module Types {

  datatype Option<+T> = None | Some(value: T)

  /** Error-correction level of the QR symbol; exactly the four tiers L < M < Q < H. */
  datatype Level = L | M | Q | H

  /**
   The configuration record everything renders from. `logoUrl` is nullable and
   is not tied to `includeLogo` by the type: only the event handlers relate them.
   */
  datatype QRConfig = QRConfig(
    value: string,
    fgColor: string,
    bgColor: string,
    size: int,
    level: Level,
    includeLogo: bool,
    logoUrl: Option<string>,
    logoSize: int)

  /** Reply of the colour-suggestion service: two required colours, optional reasoning. */
  datatype ThemeResponse = ThemeResponse(fgColor: string, bgColor: string, reasoning: Option<string>)

  datatype AIStatus = IDLE | LOADING | SUCCESS | ERROR

  /** A status paired with the message shown beside it. */
  datatype AIState = AIState(status: AIStatus, message: string)

  /** JavaScript truthiness of a `string | null`: neither null nor the empty string. */
  predicate Truthy(s: Option<string>) {
    s.Some? && s.value != ""
  }

  /** JavaScript `a || b` for a nullable string `a` and a string `b`. */
  function OrElse(a: Option<string>, b: string): (r: string)
    ensures Truthy(a) ==> Some(r) == a
    ensures !Truthy(a) ==> r == b
  {
    if a.Some? && a.value != "" then a.value else b
  }

  /**
   The logo invariant the handlers aim for: whenever the overlay is switched on,
   a usable (truthy) logo source is set.
   */
  predicate LogoReady(c: QRConfig) {
    c.includeLogo ==> Truthy(c.logoUrl)
  }
}
