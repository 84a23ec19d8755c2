/**
 * The decorative overlay of the message card: every item of every layer
 * becomes one absolutely positioned, endlessly looping glyph. Layers are
 * drawn in array order and, inside a layer, items in array order.
 */
module OverlayCompositor {
  import opened Payload

  /** The rotation channel of an item's loop: a swing for confetti, otherwise still. */
  datatype Rotation = Swing(angles: seq<int>) | Still(angle: int)

  /**
   * One rendered glyph. `layer` and `item` are the keys it is rendered under;
   * `leftPct` and `topPct` are its CSS offsets in percent, `fontSizePx` its
   * font size in pixels; delay and duration are its loop timing.
   */
  datatype Span = Span(
    layer: nat,
    item: nat,
    leftPct: real,
    topPct: real,
    fontSizePx: real,
    emoji: string,
    rotation: Rotation,
    delayMs: int,
    durationMs: int,
    repeatForever: bool)

  const ConfettiKind: string := "confetti"
  const ConfettiSwing: seq<int> := [0, 45, -45, 0]

  function RotationFor(kind: string): (r: Rotation)
    ensures r.Swing? <==> kind == ConfettiKind
    ensures r.Swing? ==> r.angles == [0, 45, -45, 0]
    ensures r.Still? ==> r.angle == 0
  {
    if kind == ConfettiKind then Swing(ConfettiSwing) else Still(0)
  }

  /** The glyph for item `j` of layer `l`, whose kind is `kind`. */
  function SpanOf(l: nat, j: nat, kind: string, it: OverlayItem): (s: Span)
    ensures s.layer == l && s.item == j
    ensures s.leftPct == it.x * 100.0 && s.topPct == it.y * 100.0 && s.fontSizePx == it.size
    ensures s.emoji == it.emoji
    ensures s.delayMs == it.delayMs && s.durationMs == it.durationMs
    ensures s.rotation == RotationFor(kind) && s.repeatForever
  {
    Span(l, j, it.x * 100.0, it.y * 100.0, it.size, it.emoji, RotationFor(kind), it.delayMs, it.durationMs, true)
  }

  /** The glyphs of layer number `l`, one per item, in item order. */
  function LayerSpans(l: nat, layer: OverlayLayer): (r: seq<Span>)
    ensures |r| == |layer.items|
    ensures forall j :: 0 <= j < |r| ==> r[j] == SpanOf(l, j, layer.kind, layer.items[j])
  {
    seq(|layer.items|, j requires 0 <= j < |layer.items| => SpanOf(l, j, layer.kind, layer.items[j]))
  }

  /** The number of items over all layers. */
  function TotalItems(overlays: seq<OverlayLayer>): nat
  {
    if overlays == [] then 0
    else TotalItems(overlays[..|overlays| - 1]) + |overlays[|overlays| - 1].items|
  }

  /** All glyphs of the overlay, layer after layer. */
  function Compose(overlays: seq<OverlayLayer>): (r: seq<Span>)
    ensures |r| == TotalItems(overlays)
    ensures forall k :: 0 <= k < |r| ==> r[k].layer < |overlays| && r[k].item < |overlays[r[k].layer].items|
  {
    if overlays == [] then []
    else
      var last := |overlays| - 1;
      Compose(overlays[..last]) + LayerSpans(last, overlays[last])
  }

  /** The overlay as the card renders it from its (defaulted) properties. */
  function OverlayOf(p: MessageProps): (r: seq<Span>)
    ensures r == Compose(p.overlays)
    ensures |r| == TotalItems(p.overlays)
  {
    Compose(p.overlays)
  }

  /** Layers before layer `l` contribute `TotalItems(overlays[..l])` glyphs. */
  lemma {:induction false} TotalItemsPrefix(overlays: seq<OverlayLayer>, l: nat)
    requires l < |overlays|
    ensures TotalItems(overlays[..l]) + |overlays[l].items| <= TotalItems(overlays)
    decreases |overlays|
  {
    var last := |overlays| - 1;
    if l < last {
      assert overlays[..last][..l] == overlays[..l];
      assert overlays[..last][l] == overlays[l];
      TotalItemsPrefix(overlays[..last], l);
    } else {
      assert overlays[..l] == overlays[..last];
    }
  }

  /**
   * Item `j` of layer `l` is drawn at position `TotalItems(overlays[..l]) + j`:
   * all glyphs of earlier layers come first, then this layer's in item order.
   */
  lemma {:induction false} SpanPosition(overlays: seq<OverlayLayer>, l: nat, j: nat)
    requires l < |overlays| && j < |overlays[l].items|
    ensures TotalItems(overlays[..l]) + j < |Compose(overlays)|
    ensures Compose(overlays)[TotalItems(overlays[..l]) + j] == SpanOf(l, j, overlays[l].kind, overlays[l].items[j])
    decreases |overlays|
  {
    TotalItemsPrefix(overlays, l);
    var last := |overlays| - 1;
    var front := overlays[..last];
    assert Compose(overlays) == Compose(front) + LayerSpans(last, overlays[last]);
    if l < last {
      assert front[..l] == overlays[..l];
      assert front[l] == overlays[l];
      SpanPosition(front, l, j);
    } else {
      assert overlays[..l] == front;
    }
  }

  /** The glyphs appear in layer order, and in item order within a layer. */
  lemma {:induction false} ComposeOrdered(overlays: seq<OverlayLayer>, a: nat, b: nat)
    requires a < b < |Compose(overlays)|
    ensures var r := Compose(overlays);
      r[a].layer < r[b].layer || (r[a].layer == r[b].layer && r[a].item < r[b].item)
    decreases |overlays|
  {
    var last := |overlays| - 1;
    var front := overlays[..last];
    var r := Compose(overlays);
    var head := Compose(front);
    assert r == head + LayerSpans(last, overlays[last]);
    if b < |head| {
      assert r[a] == head[a] && r[b] == head[b];
      ComposeOrdered(front, a, b);
    } else if a < |head| {
      assert r[a] == head[a];
      assert r[a].layer < |front|;
    } else {
      assert r[a].item == a - |head| && r[b].item == b - |head|;
    }
  }

  /** An overlay with no layers, the card's default, draws nothing. */
  lemma NoOverlaysNoSpans(p: MessageProps)
    requires p.overlays == []
    ensures OverlayOf(p) == []
  {
  }
}
