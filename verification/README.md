# image4go layer alignment, in Dafny

A model of the layer-alignment core of image4go, a small Go package that
composes rectangular image layers. Each layer carries a horizontal alignment
(`LayerAlignment`: Default, Left, Center, Right) and a vertical alignment
(`LayerVerticalAlignment`: Default, Top, Middle, Bottom). The aligner
`calcRect` takes a parent rectangle, a source rectangle and the two
alignments. It returns where the source lands in the parent's coordinate
space, one axis at a time:

- Default, and any value outside the four declared constants, keeps the source's own coordinates.
- Left/Top pins the rectangle to 0.
- Center/Middle puts it at `(parent − source) / 2`, where `/` is Go's division, which truncates toward zero.
- Right/Bottom puts it at `parent − source`.

Modules:

- `Geometry` (geometry.dfy): `Point`, `Size` and their constructors, and `Rect` in min/max form. `Rect` is the package's use of Go's `image.Rectangle`. `Span` is the extent on one axis.
- `GoArith` (go_arith.dfy): `GoDiv2`, Go's truncating `a / 2`. Dafny's own `/` is Euclidean, and the two differ when the slack is negative and odd. That happens when the source is larger than the parent.
- `Alignment` (alignment.dfy): the two enumerations as integer newtypes, so the fallback `default:` branch is reachable. Also the per-axis `Placement` each switch selects, and `Place`, the branch bodies shared by both axes.
- `Aligner` (aligner.dfy): `CalcRect` and the lemmas about it.
- `Layers` (layer.dfy): the alignment getters and setters of a layer, as a stored value.

Positions under Left/Center/Right (Top/Middle/Bottom) are measured from 0, not from the parent's minimum corner. Only the parent's width and height are read. This is what the code does (`ParentPositionIsIgnored`).

## Model

| member | source | states |
|---|---|---|
| Geometry.NewPoint | layer.go:51-53 | the point built holds exactly the given x and y |
| Geometry.NewSize | layer.go:60-62 | the size built holds exactly the given width and height |
| Geometry.ConstructorsAreBijective | layer.go:46-62 | every Point and Size is built by exactly one constructor call: rebuilding from the fields gives the same value, and equal values come from equal arguments |
| GoArith.GoDiv2 | layer.go:84-85 | halving rounds toward zero: the remainder has the dividend's sign and is 0 or ±1 |
| GoArith.GoDiv2Unique | layer.go:84-85 | the remainder-sign characterisation determines the quotient, so it fully describes Go's halving |
| GoArith.GoDiv2Negate | layer.go:106-107 | truncating halving is odd: halving −a gives minus the half of a |
| GoArith.GoDiv2VersusEuclidean | layer.go:84-85 | Go's quotient equals Dafny's Euclidean one for non-negative or even dividends, and is one larger for negative odd ones |
| GoArith.GoDiv2MinusOne | layer.go:84-85 | −1 halves to 0 in Go but to −1 under Euclidean division |
| GoArith.GoDiv2Bounds | layer.go:84-85 | a non-negative slack splits into a near part between 0 and the slack and a far part at most one larger |
| Alignment.HorizontalPlacement | layer.go:76-93 | Left, Center and Right select pin-start, centre and pin-end, each if and only if given; Default and every undeclared value keep the source's coordinates |
| Alignment.VerticalPlacement | layer.go:98-115 | Top, Middle and Bottom select pin-start, centre and pin-end, each if and only if given; Default and every undeclared value keep the source's coordinates |
| Alignment.Place | layer.go:73-93 | one axis keeps the source's length. Keep returns the source unchanged, Start begins at 0, End ends at the parent's length. Centre leaves gaps that differ by at most one, and the extra unit goes to the side truncation dictates |
| Alignment.CentreIsDetermined | layer.go:83-86 | the balanced-gap description of Centre has exactly one solution, the one `Place` computes, whose start is the truncated half of the slack |
| Aligner.CalcRect | layer.go:72-117 | width and height are preserved. Per axis, Default/undeclared copies the source's min and max, Left/Top gives [0, source size], Center/Middle starts at the truncated half of the slack, and Right/Bottom ends at the parent's size |
| Aligner.AlignmentTranslates | layer.go:72-116 | every result is the source rectangle moved by some offset, never resized |
| Aligner.DefaultKeepsSource | layer.go:76-101 | Default on both axes returns the source rectangle exactly, for any parent |
| Aligner.UndeclaredActsAsDefault | layer.go:90-114 | an alignment outside the four constants gives the same rectangle as Default on that axis |
| Aligner.AxesAreIndependent | layer.go:72-116 | the X extent of the result depends only on the horizontal alignment, the parent's width and the source's X extent. The Y extent depends only on their vertical counterparts |
| Aligner.AxesCompose | layer.go:72-116 | aligning both axes at once equals aligning one axis, keeping the other, then aligning the other, in either order |
| Aligner.AlignmentIsIdempotent | layer.go:72-116 | aligning an aligned rectangle again in the same parent gives it back unchanged |
| Aligner.ParentPositionIsIgnored | layer.go:73-96 | moving the parent rectangle does not change the result |
| Aligner.SourcePositionOnlyMattersForDefault | layer.go:76-115 | moving the source moves the result on an axis exactly when that axis keeps the source's coordinates |
| Aligner.FitsInsideParent | layer.go:80-111 | if the source is no larger than the parent, Left/Center/Right (Top/Middle/Bottom) keep it within [0, parent size]. The centred start lies between the Left and Right starts |
| Aligner.PinnedAlignmentsAreMirrors | layer.go:80-111 | Right is Left reflected in the parent's width, and Bottom is Top reflected in its height. Center (Middle) is its own reflection if and only if the slack is even |
| Aligner.ExampleRightBottom | layer.go:87-111 | a 30x10 source in a 100x50 parent aligned Right/Bottom lands at (70,40)-(100,50) |
| Aligner.ExampleCenterOddSlack | layer.go:83-86 | width 10 centred in width 101 lands at x 45..55 |
| Aligner.ExampleCentredChild | layer.go:83-108 | a 50x50 source centred both ways in a 200x200 parent lands at (75,75)-(125,125) |
| Aligner.ExampleCenterNegativeSlack | layer.go:83-108 | an 11x11 source centred in a 10x10 parent lands at (0,0)-(11,11), because Go halves −1 to 0 |
| Layers.SetAlignment | layer.go:37-39 | after the setter the getter returns the new horizontal alignment, and the rectangle and vertical alignment are unchanged |
| Layers.SetVerticalAlignment | layer.go:41-43 | after the setter the getter returns the new vertical alignment, and the rectangle and horizontal alignment are unchanged |
| Layers.SettersAreIndependent | layer.go:37-43 | the two setters commute, a second write to the same preference overrides the first, and writing back the current value changes nothing |

## Left out

- `WriteToPNG` and `WriteToJPEG` (layer.go:119-147): they create a file and hand the rendered image to the external PNG and JPEG encoders. This is pure I/O with no logic of its own.
- `isNil` (layer.go:64-70): a reflection workaround for Go's typed-nil interface values. It has no counterpart in Dafny.
- `Render` of the `Layer` interface (layer.go:33): the pixel production happens in concrete layer types that are not part of this model. `Layers.Layer` keeps only the rectangle and the two alignment preferences that `Rect`, `Alignment` and `VerticalAlignment` return.
- Go's fixed-width `int`: coordinates are unbounded `int`, so the model does not wrap around where `p − s` or `min + size` would overflow 64 bits. Images of that size do not occur.
