/**
 The rectangle aligner: where a child layer's rectangle lands in its
 parent's coordinate space, computed one axis at a time.
 */
module Aligner {
  import opened Geometry
  import opened GoArith
  import opened Alignment

  /**
   The destination rectangle of a source rectangle `s` placed in a parent
   rectangle `p` under a horizontal and a vertical alignment. Only the
   parent's width and height are used, never its position.
   */
  function CalcRect(p: Rect, s: Rect, a: LayerAlignment, v: LayerVerticalAlignment): (r: Rect)
    // Alignment moves the source, it never resizes it.
    ensures r.Width() == s.Width() && r.Height() == s.Height()
    // Horizontal axis.
    ensures HorizontalPlacement(a) == Keep ==> r.minX == s.minX && r.maxX == s.maxX
    ensures a == AlignmentLeft ==> r.minX == 0 && r.maxX == s.Width()
    ensures a == AlignmentCenter ==>
              r.minX == GoDiv2(p.Width() - s.Width()) && r.maxX == r.minX + s.Width()
    ensures a == AlignmentRight ==> r.minX == p.Width() - s.Width() && r.maxX == p.Width()
    // Vertical axis.
    ensures VerticalPlacement(v) == Keep ==> r.minY == s.minY && r.maxY == s.maxY
    ensures v == VerticalAlignmentTop ==> r.minY == 0 && r.maxY == s.Height()
    ensures v == VerticalAlignmentMiddle ==>
              r.minY == GoDiv2(p.Height() - s.Height()) && r.maxY == r.minY + s.Height()
    ensures v == VerticalAlignmentBottom ==> r.minY == p.Height() - s.Height() && r.maxY == p.Height()
  {
    var x := Place(p.Width(), s.XSpan(), HorizontalPlacement(a));
    var y := Place(p.Height(), s.YSpan(), VerticalPlacement(v));
    FromSpans(x, y)
  }

  /** A rectangle that is `s` moved by some offset. */
  ghost predicate IsTranslateOf(r: Rect, s: Rect) {
    exists dx, dy :: r == s.Translate(dx, dy)
  }

  /** Every alignment result is the source rectangle moved by some offset. */
  lemma AlignmentTranslates(p: Rect, s: Rect, a: LayerAlignment, v: LayerVerticalAlignment)
    ensures IsTranslateOf(CalcRect(p, s, a, v), s)
  {
    var r := CalcRect(p, s, a, v);
    assert r == s.Translate(r.minX - s.minX, r.minY - s.minY);
  }

  /** With both alignments at Default the source comes back unchanged, whatever the parent. */
  lemma DefaultKeepsSource(p: Rect, s: Rect)
    ensures CalcRect(p, s, AlignmentDefault, VerticalAlignmentDefault) == s
  {
  }

  /** An alignment value outside the declared constants acts exactly as Default on its axis. */
  lemma UndeclaredActsAsDefault(p: Rect, s: Rect, a: LayerAlignment, v: LayerVerticalAlignment)
    ensures a !in {AlignmentDefault, AlignmentLeft, AlignmentCenter, AlignmentRight} ==>
              CalcRect(p, s, a, v) == CalcRect(p, s, AlignmentDefault, v)
    ensures v !in {VerticalAlignmentDefault, VerticalAlignmentTop, VerticalAlignmentMiddle, VerticalAlignmentBottom} ==>
              CalcRect(p, s, a, v) == CalcRect(p, s, a, VerticalAlignmentDefault)
  {
  }

  /**
   The horizontal result depends only on the horizontal alignment, the
   parent's width and the source's horizontal extent; the vertical result
   only on their vertical counterparts.
   */
  lemma AxesAreIndependent(p: Rect, s: Rect, a: LayerAlignment, v: LayerVerticalAlignment,
                           p': Rect, s': Rect, a': LayerAlignment, v': LayerVerticalAlignment)
    ensures a == a' && p.Width() == p'.Width() && s.XSpan() == s'.XSpan() ==>
              CalcRect(p, s, a, v).XSpan() == CalcRect(p', s', a', v').XSpan()
    ensures v == v' && p.Height() == p'.Height() && s.YSpan() == s'.YSpan() ==>
              CalcRect(p, s, a, v).YSpan() == CalcRect(p', s', a', v').YSpan()
  {
  }

  /** Aligning both axes at once equals aligning horizontally, then vertically. */
  lemma AxesCompose(p: Rect, s: Rect, a: LayerAlignment, v: LayerVerticalAlignment)
    ensures CalcRect(p, CalcRect(p, s, a, VerticalAlignmentDefault), AlignmentDefault, v)
            == CalcRect(p, s, a, v)
    ensures CalcRect(p, CalcRect(p, s, AlignmentDefault, v), a, VerticalAlignmentDefault)
            == CalcRect(p, s, a, v)
  {
  }

  /** Aligning an already aligned rectangle again in the same parent changes nothing. */
  lemma AlignmentIsIdempotent(p: Rect, s: Rect, a: LayerAlignment, v: LayerVerticalAlignment)
    ensures CalcRect(p, CalcRect(p, s, a, v), a, v) == CalcRect(p, s, a, v)
  {
  }

  /** Moving the parent does not move the result: only its size matters. */
  lemma ParentPositionIsIgnored(p: Rect, s: Rect, a: LayerAlignment, v: LayerVerticalAlignment, dx: int, dy: int)
    ensures CalcRect(p.Translate(dx, dy), s, a, v) == CalcRect(p, s, a, v)
  {
  }

  /**
   Moving the source moves the result only on an axis whose alignment keeps
   the source's own coordinates; the other placements ignore where the source was.
   */
  lemma SourcePositionOnlyMattersForDefault(p: Rect, s: Rect, a: LayerAlignment, v: LayerVerticalAlignment, dx: int, dy: int)
    ensures var r := CalcRect(p, s, a, v);
            var r' := CalcRect(p, s.Translate(dx, dy), a, v);
            && (HorizontalPlacement(a) == Keep ==> r'.minX == r.minX + dx)
            && (HorizontalPlacement(a) != Keep ==> r'.minX == r.minX)
            && (VerticalPlacement(v) == Keep ==> r'.minY == r.minY + dy)
            && (VerticalPlacement(v) != Keep ==> r'.minY == r.minY)
  {
  }

  /**
   A source no wider (taller) than its parent, aligned Left/Center/Right
   (Top/Middle/Bottom), lies within [0, parent width] ([0, parent height]),
   and the centred position lies between the two pinned ones.
   */
  lemma FitsInsideParent(p: Rect, s: Rect, a: LayerAlignment, v: LayerVerticalAlignment)
    ensures a in {AlignmentLeft, AlignmentCenter, AlignmentRight} && 0 <= s.Width() <= p.Width() ==>
              0 <= CalcRect(p, s, a, v).minX && CalcRect(p, s, a, v).maxX <= p.Width()
    ensures v in {VerticalAlignmentTop, VerticalAlignmentMiddle, VerticalAlignmentBottom} && 0 <= s.Height() <= p.Height() ==>
              0 <= CalcRect(p, s, a, v).minY && CalcRect(p, s, a, v).maxY <= p.Height()
    ensures 0 <= s.Width() <= p.Width() ==>
              CalcRect(p, s, AlignmentLeft, v).minX <= CalcRect(p, s, AlignmentCenter, v).minX <= CalcRect(p, s, AlignmentRight, v).minX
    ensures 0 <= s.Height() <= p.Height() ==>
              CalcRect(p, s, a, VerticalAlignmentTop).minY <= CalcRect(p, s, a, VerticalAlignmentMiddle).minY <= CalcRect(p, s, a, VerticalAlignmentBottom).minY
  {
  }

  /** Reflects a rectangle horizontally inside [0, width]: each gap to an edge becomes the gap to the opposite edge. */
  function MirrorX(width: int, r: Rect): (m: Rect)
    ensures m.Width() == r.Width() && m.YSpan() == r.YSpan()
    ensures m.minX == width - r.maxX && width - m.maxX == r.minX
  {
    Rect(width - r.maxX, r.minY, width - r.minX, r.maxY)
  }

  /** Reflects a rectangle vertically inside [0, height]: each gap to an edge becomes the gap to the opposite edge. */
  function MirrorY(height: int, r: Rect): (m: Rect)
    ensures m.Height() == r.Height() && m.XSpan() == r.XSpan()
    ensures m.minY == height - r.maxY && height - m.maxY == r.minY
  {
    Rect(r.minX, height - r.maxY, r.maxX, height - r.minY)
  }

  /**
   Right is Left seen in a mirror, and Bottom is Top; Center is its own
   mirror image exactly when the slack is even.
   */
  lemma PinnedAlignmentsAreMirrors(p: Rect, s: Rect, a: LayerAlignment, v: LayerVerticalAlignment)
    ensures MirrorX(p.Width(), CalcRect(p, s, AlignmentLeft, v)) == CalcRect(p, s, AlignmentRight, v)
    ensures MirrorY(p.Height(), CalcRect(p, s, a, VerticalAlignmentTop)) == CalcRect(p, s, a, VerticalAlignmentBottom)
    ensures (p.Width() - s.Width()) % 2 == 0 <==>
              MirrorX(p.Width(), CalcRect(p, s, AlignmentCenter, v)) == CalcRect(p, s, AlignmentCenter, v)
    ensures (p.Height() - s.Height()) % 2 == 0 <==>
              MirrorY(p.Height(), CalcRect(p, s, a, VerticalAlignmentMiddle)) == CalcRect(p, s, a, VerticalAlignmentMiddle)
  {
  }

  /** A 30x10 source pinned to the far corner of a 100x50 parent ends at (100, 50). */
  lemma ExampleRightBottom(p: Rect, s: Rect)
    requires p.Width() == 100 && p.Height() == 50 && s.Width() == 30 && s.Height() == 10
    ensures CalcRect(p, s, AlignmentRight, VerticalAlignmentBottom) == Rect(70, 40, 100, 50)
  {
  }

  /** Odd slack under Center: 91 spare columns leave 45 before and 46 after. */
  lemma ExampleCenterOddSlack(p: Rect, s: Rect, v: LayerVerticalAlignment)
    requires p.Width() == 101 && s.Width() == 10
    ensures CalcRect(p, s, AlignmentCenter, v).minX == 45
    ensures CalcRect(p, s, AlignmentCenter, v).maxX == 55
  {
  }

  /** A 50x50 child centred in a 200x200 parent occupies (75,75)-(125,125). */
  lemma ExampleCentredChild(p: Rect, s: Rect)
    requires p.Width() == 200 && p.Height() == 200 && s.Width() == 50 && s.Height() == 50
    ensures CalcRect(p, s, AlignmentCenter, VerticalAlignmentMiddle) == Rect(75, 75, 125, 125)
  {
  }

  /**
   A source one unit larger than its parent, centred: the slack is -1 and Go's
   truncating division gives 0, where Euclidean division would give -1.
   */
  lemma ExampleCenterNegativeSlack(p: Rect, s: Rect)
    requires p.Width() == 10 && p.Height() == 10 && s.Width() == 11 && s.Height() == 11
    ensures CalcRect(p, s, AlignmentCenter, VerticalAlignmentMiddle) == Rect(0, 0, 11, 11)
  {
  }
}
