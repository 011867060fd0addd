/**
 The two alignment enumerations and the per-axis placement they select.
 Both enumerations are named integer types, as in Go, so a value outside the
 four declared constants is representable and falls back to the default.
 */
module Alignment {
  import opened Geometry
  import opened GoArith

  /** Horizontal alignment of a layer. */
  newtype LayerAlignment = int

  const AlignmentDefault: LayerAlignment := 0
  const AlignmentLeft: LayerAlignment := 1
  const AlignmentCenter: LayerAlignment := 2
  const AlignmentRight: LayerAlignment := 3

  /** Vertical alignment of a layer. */
  newtype LayerVerticalAlignment = int

  const VerticalAlignmentDefault: LayerVerticalAlignment := 0
  const VerticalAlignmentTop: LayerVerticalAlignment := 1
  const VerticalAlignmentMiddle: LayerVerticalAlignment := 2
  const VerticalAlignmentBottom: LayerVerticalAlignment := 3

  /**
   What one axis of the aligner does: keep the source's own coordinates,
   pin to 0, centre in the parent, or pin to the parent's far edge.
   */
  datatype Placement = Keep | Start | Centre | End

  /**
   The horizontal switch: Left, Center and Right select their placement;
   Default and every undeclared value keep the source's coordinates.
   */
  function HorizontalPlacement(a: LayerAlignment): (pl: Placement)
    ensures pl == Start <==> a == AlignmentLeft
    ensures pl == Centre <==> a == AlignmentCenter
    ensures pl == End <==> a == AlignmentRight
    ensures pl == Keep <==> a != AlignmentLeft && a != AlignmentCenter && a != AlignmentRight
  {
    if a == AlignmentLeft then Start
    else if a == AlignmentCenter then Centre
    else if a == AlignmentRight then End
    else Keep
  }

  /** The vertical switch, with Top, Middle and Bottom in the roles of Left, Center and Right. */
  function VerticalPlacement(v: LayerVerticalAlignment): (pl: Placement)
    ensures pl == Start <==> v == VerticalAlignmentTop
    ensures pl == Centre <==> v == VerticalAlignmentMiddle
    ensures pl == End <==> v == VerticalAlignmentBottom
    ensures pl == Keep <==> v != VerticalAlignmentTop && v != VerticalAlignmentMiddle && v != VerticalAlignmentBottom
  {
    if v == VerticalAlignmentTop then Start
    else if v == VerticalAlignmentMiddle then Centre
    else if v == VerticalAlignmentBottom then End
    else Keep
  }

  /**
   One axis of the aligner. `parentLength` is the parent's extent on this
   axis and `s` the source's interval. Positions other than Keep are
   measured from 0, not from the parent's minimum coordinate. The result is
   always the source interval moved, never resized; a centred interval
   leaves equal gaps on both sides, up to one unit that truncating division
   gives to the far side when the slack is positive and to the near side
   when it is negative.
   */
  function Place(parentLength: int, s: Span, pl: Placement): (r: Span)
    ensures r.Length() == s.Length()
    ensures pl == Keep ==> r == s
    ensures pl == Start ==> r.lo == 0
    ensures pl == End ==> r.hi == parentLength
    ensures pl == Centre && parentLength >= s.Length() ==>
              0 <= (parentLength - r.hi) - r.lo <= 1
    ensures pl == Centre && parentLength < s.Length() ==>
              -1 <= (parentLength - r.hi) - r.lo <= 0
  {
    var len := s.Length();
    match pl
    case Keep => s
    case Start => Span(0, len)
    case Centre =>
      var lo := GoDiv2(parentLength - len);
      Span(lo, lo + len)
    case End =>
      var lo := parentLength - len;
      Span(lo, lo + len)
  }

  /** The Centre postcondition of Place pins the interval down completely. */
  lemma CentreIsDetermined(parentLength: int, s: Span, r: Span)
    requires r.Length() == s.Length()
    requires parentLength >= s.Length() ==> 0 <= (parentLength - r.hi) - r.lo <= 1
    requires parentLength < s.Length() ==> -1 <= (parentLength - r.hi) - r.lo <= 0
    ensures r == Place(parentLength, s, Centre)
    ensures r.lo == GoDiv2(parentLength - s.Length())
  {
    GoDiv2Unique(parentLength - s.Length(), r.lo);
  }
}
