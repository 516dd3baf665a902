/**
 * KeyboardViewShadowView.addChildAt: every child of the keyboard view's
 * shadow node is sized to the window for the current orientation and
 * justified to the end of its main axis.
 */
module ShadowViews {
  import opened Options
  import opened Rects

  /** The Yoga justification values this node uses. */
  datatype Justify = FlexStart | FlexEnd

  /** A child shadow node: its tag and the style values set on it. */
  datatype ShadowNode = ShadowNode(tag: int, styleWidth: Option<int>, styleHeight: Option<int>, justify: Option<Justify>)

  /** The width and height chosen for a child. */
  datatype ChildSize = ChildSize(width: int, height: int)

  /** Portrait means strictly taller than wide; a square screen counts as landscape. */
  predicate IsPortrait(size: Point)
  {
    size.x < size.y
  }

  /**
   * The size choice from getSize (size) and getCurrentSizeRange (min, max):
   * in portrait the smaller width and the larger height, in landscape the
   * larger width and the smaller height.
   */
  function ChooseChildSize(size: Point, min: Point, max: Point): (r: ChildSize)
    ensures IsPortrait(size) ==> r == ChildSize(min.x, max.y)
    ensures !IsPortrait(size) ==> r == ChildSize(max.x, min.y)
  {
    if size.x < size.y then ChildSize(min.x, max.y) else ChildSize(max.x, min.y)
  }

  /** With an ordered size range, a portrait child is never wider and never shorter than a landscape one. */
  lemma {:induction false} PortraitIsNarrowerAndTaller(portrait: Point, landscape: Point, min: Point, max: Point)
    requires IsPortrait(portrait) && !IsPortrait(landscape)
    requires min.x <= max.x && min.y <= max.y
    ensures ChooseChildSize(portrait, min, max).width <= ChooseChildSize(landscape, min, max).width
    ensures ChooseChildSize(portrait, min, max).height >= ChooseChildSize(landscape, min, max).height
  {
  }

  /** A square screen is sized as landscape. */
  lemma SquareIsLandscape(side: int, min: Point, max: Point)
    ensures ChooseChildSize(Point(side, side), min, max) == ChildSize(max.x, min.y)
  {
  }

  /** The child after the three setters. */
  function Styled(child: ShadowNode, size: Point, min: Point, max: Point): (r: ShadowNode)
    ensures r.tag == child.tag
    ensures r.styleWidth == Some(ChooseChildSize(size, min, max).width)
    ensures r.styleHeight == Some(ChooseChildSize(size, min, max).height)
    ensures r.justify == Some(FlexEnd)
  {
    var c := ChooseChildSize(size, min, max);
    child.(styleWidth := Some(c.width), styleHeight := Some(c.height), justify := Some(FlexEnd))
  }

  /** addChildAt(child, i): the child is inserted at i and styled; the other children are untouched. */
  function AddChildAt(children: seq<ShadowNode>, child: ShadowNode, i: int, size: Point, min: Point, max: Point)
    : (r: seq<ShadowNode>)
    requires 0 <= i <= |children|
    ensures |r| == |children| + 1
    ensures r[i] == Styled(child, size, min, max)
    ensures r[..i] == children[..i] && r[i + 1..] == children[i..]
  {
    children[..i] + [Styled(child, size, min, max)] + children[i..]
  }
}
