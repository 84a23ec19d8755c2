/**
 * The table of looping motions an emoji can perform, and the lookup the
 * message card uses to pick one for the shown frame.
 */
module MotionVariants {
  import opened Payload

  /** The property a motion animates besides opacity. */
  datatype Channel = OffsetY | OffsetX | Scale | Rotate

  datatype Ease = EaseInOut | Linear

  /**
   * A motion variant: where the animated property starts, the keyframes it
   * then loops through, its opacity before and after entry, and how it repeats.
   */
  datatype Variant = Variant(
    channel: Channel,
    initial: real,
    keyframes: seq<real>,
    initialOpacity: int,
    animateOpacity: int,
    repeatForever: bool,
    periodMs: nat,
    ease: Ease)

  const FloatVariant: Variant := Variant(OffsetY, 10.0, [10.0, -6.0, 10.0], 0, 1, true, 3000, EaseInOut)
  const BounceVariant: Variant := Variant(OffsetY, -10.0, [0.0, -14.0, 0.0], 0, 1, true, 1400, EaseInOut)
  const PulseVariant: Variant := Variant(Scale, 0.9, [0.95, 1.05, 0.95], 0, 1, true, 2200, EaseInOut)
  const SpinVariant: Variant := Variant(Rotate, 0.0, [360.0], 0, 1, true, 6000, Linear)
  const SlideVariant: Variant := Variant(OffsetX, -10.0, [0.0, 6.0, 0.0], 0, 1, true, 2400, EaseInOut)

  const Table: map<string, Variant> := map[
    "float" := FloatVariant,
    "bounce" := BounceVariant,
    "pulse" := PulseVariant,
    "spin" := SpinVariant,
    "slide" := SlideVariant]

  const DefaultMotion: string := "float"

  /** A variant fades in from transparent and loops without end. */
  predicate FadesInAndLoops(v: Variant) {
    v.initialOpacity == 0 && v.animateOpacity == 1 && v.repeatForever
  }

  /**
   * The variant for a frame's motion name: an absent motion means "float";
   * a present name outside the table has no variant at all.
   */
  function VariantFor(motion: string): (r: Option<Variant>)
    ensures motion == "" ==> r == Some(FloatVariant)
    ensures motion == "float" ==> r == Some(FloatVariant)
    ensures motion == "bounce" ==> r == Some(BounceVariant)
    ensures motion == "pulse" ==> r == Some(PulseVariant)
    ensures motion == "spin" ==> r == Some(SpinVariant)
    ensures motion == "slide" ==> r == Some(SlideVariant)
    ensures r.Some? <==> motion in {"", "float", "bounce", "pulse", "spin", "slide"}
    ensures r.Some? ==> FadesInAndLoops(r.value)
  {
    var key := if motion == "" then DefaultMotion else motion;
    if key in Table then Some(Table[key]) else None
  }

  /** The five named motions are five different variants. */
  lemma VariantsDistinct(a: string, b: string)
    requires a in Table && b in Table && a != b
    ensures VariantFor(a) != VariantFor(b)
  {
  }
}
