/**
 The alignment-carrying part of a layer: its own rectangle and its two
 alignment preferences, with the getters and setters every layer offers.
 Rendering is not modelled.
 */
module Layers {
  import opened Geometry
  import opened Alignment

  /** What a layer reports about itself; the fields are the getters. */
  datatype Layer = Layer(rect: Rect, alignment: LayerAlignment, verticalAlignment: LayerVerticalAlignment)

  /** Replaces the horizontal alignment and leaves everything else as it was. */
  function SetAlignment(l: Layer, a: LayerAlignment): (l': Layer)
    ensures l'.alignment == a
    ensures l'.rect == l.rect && l'.verticalAlignment == l.verticalAlignment
  {
    l.(alignment := a)
  }

  /** Replaces the vertical alignment and leaves everything else as it was. */
  function SetVerticalAlignment(l: Layer, v: LayerVerticalAlignment): (l': Layer)
    ensures l'.verticalAlignment == v
    ensures l'.rect == l.rect && l'.alignment == l.alignment
  {
    l.(verticalAlignment := v)
  }

  /**
   The two setters act on separate state: they commute, the later of two
   writes to the same preference wins, and writing back what was read is a no-op.
   */
  lemma SettersAreIndependent(l: Layer, a: LayerAlignment, a': LayerAlignment, v: LayerVerticalAlignment)
    ensures SetVerticalAlignment(SetAlignment(l, a), v) == SetAlignment(SetVerticalAlignment(l, v), a)
    ensures SetAlignment(SetAlignment(l, a), a') == SetAlignment(l, a')
    ensures SetAlignment(l, l.alignment) == l
    ensures SetVerticalAlignment(l, l.verticalAlignment) == l
  {
  }
}
