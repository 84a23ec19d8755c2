/**
 * The animation payload produced by the generation service, as the message
 * card and the page receive it.
 *
 * Conventions used throughout the model:
 * - a string field that JavaScript would read as falsy (absent or empty) is "";
 * - a duration is an integer number of milliseconds, 0 meaning absent;
 * - a top-level payload field that may be missing from the JSON is an Option.
 */
module Payload {

  datatype Option<+T> = None | Some(value: T)

  /** One step of the cycling emoji/text sequence. */
  datatype Frame = Frame(emoji: string, text: string, motion: string, durationMs: int)

  /** One decorative glyph of an overlay layer; x and y are fractions of the card. */
  datatype OverlayItem = OverlayItem(x: real, y: real, size: real, delayMs: int, durationMs: int, emoji: string)

  /** A decorative layer ("confetti", "petals", "characters", ...) and its items. */
  datatype OverlayLayer = OverlayLayer(kind: string, items: seq<OverlayItem>)

  /** The parsed JSON body: every field may be missing. */
  datatype AnimationData = AnimationData(
    frames: Option<seq<Frame>>,
    theme: Option<string>,
    caption: Option<string>,
    tags: Option<seq<string>>,
    overlays: Option<seq<OverlayLayer>>)

  /** The properties of the message card after its parameter defaults are applied. */
  datatype MessageProps = MessageProps(frames: seq<Frame>, theme: string, caption: string, overlays: seq<OverlayLayer>)

  const DefaultTheme: string := "default"

  /** The empty frame record `{}` that stands in for a missing frame. */
  const EmptyFrame: Frame := Frame("", "", "", 0)

  function GetOr<T>(o: Option<T>, default: T): (r: T)
    ensures o.Some? ==> r == o.value
    ensures o.None? ==> r == default
  {
    match o
    case Some(v) => v
    case None => default
  }

  /**
   * The page hands the card `data.frames`, `data.theme`, `data.caption` and
   * `data.overlays`; the card's destructuring defaults fill in whatever is missing.
   */
  function PropsOf(d: AnimationData): (p: MessageProps)
    ensures d.frames.None? ==> p.frames == []
    ensures d.theme.None? ==> p.theme == DefaultTheme
    ensures d.caption.None? ==> p.caption == ""
    ensures d.overlays.None? ==> p.overlays == []
    ensures d.frames.Some? ==> p.frames == d.frames.value
    ensures d.theme.Some? ==> p.theme == d.theme.value
    ensures d.caption.Some? ==> p.caption == d.caption.value
    ensures d.overlays.Some? ==> p.overlays == d.overlays.value
  {
    MessageProps(GetOr(d.frames, []), GetOr(d.theme, DefaultTheme), GetOr(d.caption, ""), GetOr(d.overlays, []))
  }
}
