/**
 * What the message card shows for given properties and frame index: the
 * accent gradient, the overlay glyphs, the shown frame's emoji, motion and
 * text (with their fallbacks for missing fields), and the optional caption.
 */
module MessageCard {
  import opened Payload
  import FrameSequencer
  import MotionVariants
  import ThemeResolver
  import OverlayCompositor

  /** The sparkles emoji, U+2728, shown when a frame has no emoji. */
  const FallbackEmoji: string := "\U{2728}"
  const FallbackText: string := "..."
  /** The key of the text element when the frame has no text. */
  const EmptyTextKey: string := "empty"

  /** The card's visible content. `caption` is None when no caption block is rendered. */
  datatype Card = Card(
    accent: string,
    spans: seq<OverlayCompositor.Span>,
    emoji: string,
    motion: Option<MotionVariants.Variant>,
    text: string,
    textKey: string,
    caption: Option<string>)

  function EmojiOf(f: Frame): (e: string)
    ensures e != ""
    ensures f.emoji != "" ==> e == f.emoji
    ensures f.emoji == "" ==> e == FallbackEmoji
  {
    if f.emoji != "" then f.emoji else FallbackEmoji
  }

  function TextOf(f: Frame): (t: string)
    ensures t != ""
    ensures f.text != "" ==> t == f.text
    ensures f.text == "" ==> t == FallbackText
  {
    if f.text != "" then f.text else FallbackText
  }

  function TextKeyOf(f: Frame): (k: string)
    ensures k != ""
    ensures f.text != "" ==> k == f.text
    ensures f.text == "" ==> k == EmptyTextKey
  {
    if f.text != "" then f.text else EmptyTextKey
  }

  /** The caption block is rendered exactly when the caption is non-empty. */
  function CaptionBlock(caption: string): (r: Option<string>)
    ensures r.Some? <==> caption != ""
    ensures r.Some? ==> r.value == caption
  {
    if caption != "" then Some(caption) else None
  }

  function Render(p: MessageProps, index: nat): (c: Card)
    ensures c.accent == ThemeResolver.AccentFor(p.theme)
    ensures c.spans == OverlayCompositor.OverlayOf(p)
    ensures c.emoji == EmojiOf(FrameSequencer.ShownFrame(p.frames, index))
    ensures c.motion == MotionVariants.VariantFor(FrameSequencer.ShownFrame(p.frames, index).motion)
    ensures c.text == TextOf(FrameSequencer.ShownFrame(p.frames, index))
    ensures c.textKey == TextKeyOf(FrameSequencer.ShownFrame(p.frames, index))
    ensures c.caption == CaptionBlock(p.caption)
  {
    var f := FrameSequencer.ShownFrame(p.frames, index);
    Card(ThemeResolver.AccentFor(p.theme), OverlayCompositor.OverlayOf(p),
         EmojiOf(f), MotionVariants.VariantFor(f.motion), TextOf(f), TextKeyOf(f), CaptionBlock(p.caption))
  }

  /** The placeholder frame: sparkles, "...", the float motion, and the "empty" text key. */
  predicate ShowsPlaceholder(c: Card) {
    c.emoji == FallbackEmoji && c.text == FallbackText && c.textKey == EmptyTextKey
    && c.motion == Some(MotionVariants.FloatVariant)
  }

  /** With no frames, or an index past the end, the card shows the placeholder frame. */
  lemma OutOfRangeShowsPlaceholder(p: MessageProps, index: nat)
    requires index >= |p.frames|
    ensures ShowsPlaceholder(Render(p, index))
  {
  }

  /** A frame whose fields are all set is shown as it is. */
  lemma InRangeShowsFrame(p: MessageProps, index: nat)
    requires index < |p.frames|
    requires p.frames[index].emoji != "" && p.frames[index].text != ""
    ensures Render(p, index).emoji == p.frames[index].emoji
    ensures Render(p, index).text == p.frames[index].text
    ensures Render(p, index).motion.Some? <==> p.frames[index].motion in {"", "float", "bounce", "pulse", "spin", "slide"}
  {
  }

  /**
   * A payload with every field missing renders the neutral card: the
   * placeholder frame, the default gradient, no glyphs and no caption.
   */
  lemma MissingFieldsRenderNeutralCard(index: nat)
    ensures var c := Render(PropsOf(AnimationData(None, None, None, None, None)), index);
      ShowsPlaceholder(c) && c.accent == ThemeResolver.DefaultAccent && c.spans == [] && c.caption == None
  {
  }

  // ---------------------------------------------------------------------------
  // The fallback emoji as it is written in the component's source.

  /**
   * The fallback literal in the component is three characters, U+00E2 U+0153
   * U+00A8: the UTF-8 encoding of U+2728 read back as Windows-1252.
   */
  const FallbackEmojiAsWritten: string := "\U{E2}\U{153}\U{A8}"

  function EmojiOfAsWritten(f: Frame): (e: string)
    ensures f.emoji != "" ==> e == f.emoji
    ensures f.emoji == "" ==> e == FallbackEmojiAsWritten
  {
    if f.emoji != "" then f.emoji else FallbackEmojiAsWritten
  }

  /** The UTF-8 encoding of a code point in the three-byte range. */
  function Utf8ThreeBytes(c: int): (bs: seq<int>)
    requires 0x800 <= c <= 0xFFFF
    ensures |bs| == 3
    ensures 0xE0 <= bs[0] < 0xF0 && 0x80 <= bs[1] < 0xC0 && 0x80 <= bs[2] < 0xC0
    ensures (bs[0] - 0xE0) * 4096 + (bs[1] - 0x80) * 64 + (bs[2] - 0x80) == c
  {
    [0xE0 + c / 4096, 0x80 + (c / 64) % 64, 0x80 + c % 64]
  }

  /** Windows-1252 decoding of one byte; the five unassigned bytes decode to None. */
  function Cp1252(b: int): (r: Option<char>)
    requires 0 <= b < 256
    ensures (b < 0x80 || 0xA0 <= b) ==> r == Some(b as char)
    ensures r.None? <==> b in {0x81, 0x8D, 0x8F, 0x90, 0x9D}
  {
    if b < 0x80 || 0xA0 <= b then Some(b as char)
    else if b in Cp1252High then Some(Cp1252High[b])
    else None
  }

  const Cp1252High: map<int, char> := map[
    0x80 := '\U{20AC}', 0x82 := '\U{201A}', 0x83 := '\U{0192}', 0x84 := '\U{201E}',
    0x85 := '\U{2026}', 0x86 := '\U{2020}', 0x87 := '\U{2021}', 0x88 := '\U{02C6}',
    0x89 := '\U{2030}', 0x8A := '\U{0160}', 0x8B := '\U{2039}', 0x8C := '\U{0152}',
    0x8E := '\U{017D}', 0x91 := '\U{2018}', 0x92 := '\U{2019}', 0x93 := '\U{201C}',
    0x94 := '\U{201D}', 0x95 := '\U{2022}', 0x96 := '\U{2013}', 0x97 := '\U{2014}',
    0x98 := '\U{02DC}', 0x99 := '\U{2122}', 0x9A := '\U{0161}', 0x9B := '\U{203A}',
    0x9C := '\U{0153}', 0x9E := '\U{017E}', 0x9F := '\U{0178}']

  /**
   * The placeholder emoji as written is not the sparkles emoji: it is what
   * U+2728 becomes when its UTF-8 bytes are decoded as Windows-1252, and it
   * shows as three characters instead of one glyph.
   */
  lemma FallbackEmojiMisencoded()
    ensures EmojiOfAsWritten(EmptyFrame) != EmojiOf(EmptyFrame)
    ensures |EmojiOfAsWritten(EmptyFrame)| == 3 && |EmojiOf(EmptyFrame)| == 1
    ensures var bs := Utf8ThreeBytes(FallbackEmoji[0] as int);
      bs == [0xE2, 0x9C, 0xA8]
      && Cp1252(bs[0]) == Some(FallbackEmojiAsWritten[0])
      && Cp1252(bs[1]) == Some(FallbackEmojiAsWritten[1])
      && Cp1252(bs[2]) == Some(FallbackEmojiAsWritten[2])
  {
  }
}
