/** Placement geometry of a context popup: where the popup's top-left corner goes
    for each of the twelve placements around its context (anchor) element, and how far
    it is nudged so that its arrow stays clear of the popup's rounded corners.

    Every DOM read of getPopupPosition (bounding rectangles, the computed border radius)
    is an input here; every coordinate is an exact `real`. */
module PopupPosition {

  datatype Option<T> = None | Some(value: T)

  /** The twelve `PopupPlacement` strings, "left-top" … "below-right": the side of the
      context the popup sits on, then how it is aligned along that side. */
  datatype Placement =
    | LeftTop | LeftCenter | LeftBottom
    | RightTop | RightCenter | RightBottom
    | AboveLeft | AboveCenter | AboveRight
    | BelowLeft | BelowCenter | BelowRight

  datatype Side = LeftSide | RightSide | AboveSide | BelowSide

  /** Alignment along the side: Start is top (left/right sides) or left (above/below),
      End is bottom or right. */
  datatype Align = Start | Center | End

  function SideOf(p: Placement): Side
  {
    match p
    case LeftTop | LeftCenter | LeftBottom => LeftSide
    case RightTop | RightCenter | RightBottom => RightSide
    case AboveLeft | AboveCenter | AboveRight => AboveSide
    case BelowLeft | BelowCenter | BelowRight => BelowSide
  }

  function AlignOf(p: Placement): Align
  {
    match p
    case LeftTop | RightTop | AboveLeft | BelowLeft => Start
    case LeftCenter | RightCenter | AboveCenter | BelowCenter => Center
    case LeftBottom | RightBottom | AboveRight | BelowRight => End
  }

  predicate IsHorizontalSide(s: Side) { s == LeftSide || s == RightSide }

  /** A `DOMRect` as `getBoundingClientRect` reports it. */
  datatype Rect = Rect(left: real, top: real, right: real, bottom: real, width: real, height: real)

  /** The relation every rectangle the browser measures satisfies. */
  predicate WellFormed(r: Rect)
  {
    r.right == r.left + r.width && r.bottom == r.top + r.height
  }

  datatype Size = Size(width: real, height: real)

  /** What `parseInt` makes of the popup's computed `border-radius` (an empty value reads
      as "0"): a whole number of pixels, or NaN when the text does not start with a number. */
  datatype BorderRadius = Px(px: int) | NaN

  /** The arrow element, when the popup has one: its measured size and the popup's radius. */
  datatype Arrow = Arrow(size: Size, radius: BorderRadius)

  /** Distances of the arrow from the popup's left, right, top and bottom edges. */
  datatype ArrowPos = ArrowPos(left: real, right: real, top: real, bottom: real)

  /** The nudge applied to the start/end alignments, and the arrow positions; the arrow
      positions stay unassigned (None) when there is no arrow. */
  datatype Nudge = Nudge(offsetX: real, offsetY: real, arrowPos: Option<ArrowPos>)

  datatype Point = Point(x: real, y: real)

  function Abs(x: real): (r: real)
    ensures r >= 0.0 && (r == x || r == -x)
  {
    if x < 0.0 then -x else x
  }

  /** Half of the horizontal room the context leaves beside a centred arrow: the gap
      on each side of an arrow centred on the context. */
  function WidthDelta(context: Rect, arrow: Arrow): (d: real)
    ensures d + arrow.size.width + d == context.width
  {
    (context.width - arrow.size.width) / 2.0
  }

  /** The gap above and below an arrow centred on the context. */
  function HeightDelta(context: Rect, arrow: Arrow): (d: real)
    ensures d + arrow.size.height + d == context.height
  {
    (context.height - arrow.size.height) / 2.0
  }

  /** `widthDelta < radius` as JavaScript evaluates it: false when the radius is NaN. */
  predicate LessThanRadius(delta: real, radius: BorderRadius)
  {
    radius.Px? && delta < radius.px as real
  }

  /** The offsets and arrow positions of getPopupPosition. With an arrow, an arrow that
      would sit closer than the radius to an edge is moved out to the radius, and the
      popup is pushed by exactly the amount the arrow moved; the arrow then lies at the
      larger of the natural gap and the radius. Without an arrow nothing is nudged. */
  function ComputeNudge(context: Rect, arrow: Option<Arrow>): (n: Nudge)
    ensures arrow.None? ==> n.offsetX == 0.0 && n.offsetY == 0.0 && n.arrowPos.None?
    ensures arrow.Some? ==> n.arrowPos.Some?
    ensures arrow.Some? ==>
      var a, w, h := n.arrowPos.value, WidthDelta(context, arrow.value), HeightDelta(context, arrow.value);
      a.left == a.right && a.top == a.bottom
      && n.offsetX == a.left - w && n.offsetY == a.top - h
      && a.left >= w && a.top >= h
    ensures arrow.Some? && arrow.value.radius.Px? ==>
      var a, r := n.arrowPos.value, arrow.value.radius.px as real;
      a.left >= r && a.top >= r
      && (a.left == r || a.left == WidthDelta(context, arrow.value))
      && (a.top == r || a.top == HeightDelta(context, arrow.value))
    ensures arrow.Some? && arrow.value.radius.NaN? ==> n.offsetX == 0.0 && n.offsetY == 0.0
  {
    match arrow
    case None => Nudge(0.0, 0.0, None)
    case Some(a) =>
      var w, h := WidthDelta(context, a), HeightDelta(context, a);
      var (offsetX, posH) := if LessThanRadius(w, a.radius) then (a.radius.px as real - w, a.radius.px as real) else (0.0, w);
      var (offsetY, posV) := if LessThanRadius(h, a.radius) then (a.radius.px as real - h, a.radius.px as real) else (0.0, h);
      Nudge(offsetX, offsetY, Some(ArrowPos(posH, posH, posV, posV)))
  }

  /** The ten candidate coordinates of getPopupPosition, one per side and one per alignment. */
  datatype Candidates = Candidates(
    xOfLeftSide: real, xOfRightSide: real,
    yOfAlignTop: real, yOfVerticalAlignCenter: real, yOfAlignBottom: real,
    yOfAboveSide: real, yOfBelowSide: real,
    xOfAlignLeft: real, xOfHorizontalAlignCenter: real, xOfAlignRight: real)

  /** The candidates put the popup's edges against the context's edges: the side
      coordinates make the popup touch the context, the start and end alignments line up
      the near or far edges moved out by the nudge, and the centre alignments line up
      the centres (up to the `Math.abs` of the context's half size). */
  function ComputeCandidates(context: Rect, popup: Size, n: Nudge): (k: Candidates)
    ensures k.xOfLeftSide + popup.width == context.left && k.xOfRightSide == context.right
    ensures k.yOfAboveSide + popup.height == context.top && k.yOfBelowSide == context.bottom
    ensures k.yOfAlignTop + n.offsetY == context.top
    ensures k.yOfAlignBottom + popup.height == context.bottom + n.offsetY
    ensures k.xOfAlignLeft + n.offsetX == context.left
    ensures k.xOfAlignRight + popup.width == context.right + n.offsetX
    ensures k.yOfVerticalAlignCenter + popup.height / 2.0 == context.top + Abs(context.height / 2.0)
    ensures k.xOfHorizontalAlignCenter + popup.width / 2.0 == context.left + Abs(context.width / 2.0)
  {
    Candidates(
      context.left - popup.width, context.right,
      context.top - n.offsetY,
      context.top + Abs(context.height / 2.0) - popup.height / 2.0,
      context.bottom - popup.height + n.offsetY,
      context.top - popup.height, context.bottom,
      context.left - n.offsetX,
      context.left + Abs(context.width / 2.0) - popup.width / 2.0,
      context.right - popup.width + n.offsetX)
  }

  /** The `posEntries` list, in the source's order: twelve entries, each placement the key
      of exactly one of them (the one at its `Slot`), each entry pairing the coordinate of
      its placement's side with the coordinate of its alignment. */
  function PosEntries(k: Candidates): (r: seq<(Placement, Point)>)
    ensures |r| == 12
    ensures forall p :: r[Slot(p)].0 == p
    ensures forall i :: 0 <= i < |r| ==> Slot(r[i].0) == i
    ensures forall i :: 0 <= i < |r| ==> r[i].1 == Point(XFor(k, r[i].0), YFor(k, r[i].0))
  {
    [ (LeftTop, Point(k.xOfLeftSide, k.yOfAlignTop)),
      (LeftCenter, Point(k.xOfLeftSide, k.yOfVerticalAlignCenter)),
      (LeftBottom, Point(k.xOfLeftSide, k.yOfAlignBottom)),
      (RightTop, Point(k.xOfRightSide, k.yOfAlignTop)),
      (RightCenter, Point(k.xOfRightSide, k.yOfVerticalAlignCenter)),
      (RightBottom, Point(k.xOfRightSide, k.yOfAlignBottom)),
      (AboveLeft, Point(k.xOfAlignLeft, k.yOfAboveSide)),
      (AboveCenter, Point(k.xOfHorizontalAlignCenter, k.yOfAboveSide)),
      (AboveRight, Point(k.xOfAlignRight, k.yOfAboveSide)),
      (BelowLeft, Point(k.xOfAlignLeft, k.yOfBelowSide)),
      (BelowCenter, Point(k.xOfHorizontalAlignCenter, k.yOfBelowSide)),
      (BelowRight, Point(k.xOfAlignRight, k.yOfBelowSide)) ]
  }

  /** `new Map(entries).get(key)`: a later entry with the same key overwrites an earlier
      one, and a missing key gives undefined (None). */
  function MapGet(entries: seq<(Placement, Point)>, key: Placement): (r: Option<Point>)
    ensures r.None? <==> forall i :: 0 <= i < |entries| ==> entries[i].0 != key
    ensures r.Some? ==> exists i :: 0 <= i < |entries| && entries[i] == (key, r.value)
                                    && forall j :: i < j < |entries| ==> entries[j].0 != key
  {
    LastWithKey(entries, key, |entries|)
  }

  /** The value of the last of the first `n` entries whose key is `key`. */
  function LastWithKey(entries: seq<(Placement, Point)>, key: Placement, n: nat): (r: Option<Point>)
    requires n <= |entries|
    ensures r.None? <==> forall i :: 0 <= i < n ==> entries[i].0 != key
    ensures r.Some? ==> exists i :: 0 <= i < n && entries[i] == (key, r.value)
                                    && forall j :: i < j < n ==> entries[j].0 != key
  {
    if n == 0 then None
    else if entries[n - 1].0 == key then Some(entries[n - 1].1)
    else LastWithKey(entries, key, n - 1)
  }

  /** The position of each placement's entry in `posEntries`. */
  function Slot(p: Placement): (i: nat)
    ensures i < 12
  {
    match p
    case LeftTop => 0      case LeftCenter => 1   case LeftBottom => 2
    case RightTop => 3     case RightCenter => 4  case RightBottom => 5
    case AboveLeft => 6    case AboveCenter => 7  case AboveRight => 8
    case BelowLeft => 9    case BelowCenter => 10 case BelowRight => 11
  }

  /** Reference definition of the lookup: the x coordinate comes from the side for the
      left/right sides and from the alignment for above/below, and the y the other way round. */
  function XFor(k: Candidates, p: Placement): real
  {
    if SideOf(p) == LeftSide then k.xOfLeftSide
    else if SideOf(p) == RightSide then k.xOfRightSide
    else if AlignOf(p) == Start then k.xOfAlignLeft
    else if AlignOf(p) == Center then k.xOfHorizontalAlignCenter
    else k.xOfAlignRight
  }

  function YFor(k: Candidates, p: Placement): real
  {
    if SideOf(p) == AboveSide then k.yOfAboveSide
    else if SideOf(p) == BelowSide then k.yOfBelowSide
    else if AlignOf(p) == Start then k.yOfAlignTop
    else if AlignOf(p) == Center then k.yOfVerticalAlignCenter
    else k.yOfAlignBottom
  }

  /** Looking a placement up in `posEntries` always succeeds and pairs the coordinate of the
      placement's side with the coordinate of its alignment. */
  lemma LookupPairsSideWithAlign(k: Candidates, p: Placement)
    ensures MapGet(PosEntries(k), p) == Some(Point(XFor(k, p), YFor(k, p)))
  {
    var entries := PosEntries(k);
    assert entries[Slot(p)].0 == p;
    var r := MapGet(entries, p);
    var i :| 0 <= i < |entries| && entries[i] == (p, r.value);
    assert i == Slot(p);
  }

  /** getPopupPosition: the top-left corner for the requested placement (undefined, None,
      if the placement had no entry). */
  function GetPopupPosition(context: Rect, popup: Size, arrow: Option<Arrow>, placement: Placement): (r: Option<Point>)
    ensures r.Some?
  {
    var k := ComputeCandidates(context, popup, ComputeNudge(context, arrow));
    LookupPairsSideWithAlign(k, placement);
    MapGet(PosEntries(k), placement)
  }

  /** The popup touches the context along the requested side. */
  lemma SideEdges(context: Rect, popup: Size, arrow: Option<Arrow>, p: Placement)
    ensures var pt := GetPopupPosition(context, popup, arrow, p).value;
      (SideOf(p) == LeftSide ==> pt.x + popup.width == context.left)
      && (SideOf(p) == RightSide ==> pt.x == context.right)
      && (SideOf(p) == AboveSide ==> pt.y + popup.height == context.top)
      && (SideOf(p) == BelowSide ==> pt.y == context.bottom)
  {
    LookupPairsSideWithAlign(ComputeCandidates(context, popup, ComputeNudge(context, arrow)), p);
  }

  /** Start and end alignment line the popup's near or far edge up with the context's,
      moved outwards by the nudge. */
  lemma AlignEdges(context: Rect, popup: Size, arrow: Option<Arrow>, p: Placement)
    ensures var pt, n := GetPopupPosition(context, popup, arrow, p).value, ComputeNudge(context, arrow);
      (IsHorizontalSide(SideOf(p)) && AlignOf(p) == Start ==> pt.y == context.top - n.offsetY)
      && (IsHorizontalSide(SideOf(p)) && AlignOf(p) == End ==> pt.y + popup.height == context.bottom + n.offsetY)
      && (!IsHorizontalSide(SideOf(p)) && AlignOf(p) == Start ==> pt.x == context.left - n.offsetX)
      && (!IsHorizontalSide(SideOf(p)) && AlignOf(p) == End ==> pt.x + popup.width == context.right + n.offsetX)
  {
    LookupPairsSideWithAlign(ComputeCandidates(context, popup, ComputeNudge(context, arrow)), p);
  }

  /** Centre alignment puts the popup's centre on the context's centre (for a measured
      rectangle, whose size is never negative, the `Math.abs` changes nothing). */
  lemma CenterAlignment(context: Rect, popup: Size, arrow: Option<Arrow>, p: Placement)
    requires WellFormed(context) && context.width >= 0.0 && context.height >= 0.0
    requires AlignOf(p) == Center
    ensures var pt := GetPopupPosition(context, popup, arrow, p).value;
      (IsHorizontalSide(SideOf(p)) ==> pt.y + popup.height / 2.0 == (context.top + context.bottom) / 2.0)
      && (!IsHorizontalSide(SideOf(p)) ==> pt.x + popup.width / 2.0 == (context.left + context.right) / 2.0)
  {
    LookupPairsSideWithAlign(ComputeCandidates(context, popup, ComputeNudge(context, arrow)), p);
  }

  /** The point of the nudge: with start or end alignment, an arrow drawn at its computed
      distance from the popup's aligned edge lands exactly where an arrow centred on the
      context would be, whether or not the popup was nudged. */
  lemma ArrowStaysCentredOnContext(context: Rect, popup: Size, arrow: Arrow, p: Placement)
    requires AlignOf(p) != Center
    ensures var pt, a := GetPopupPosition(context, popup, Some(arrow), p).value, ComputeNudge(context, Some(arrow)).arrowPos.value;
      (IsHorizontalSide(SideOf(p)) && AlignOf(p) == Start ==>
         pt.y + a.top == context.top + HeightDelta(context, arrow))
      && (IsHorizontalSide(SideOf(p)) && AlignOf(p) == End ==>
         pt.y + popup.height - a.bottom == context.bottom - HeightDelta(context, arrow))
      && (!IsHorizontalSide(SideOf(p)) && AlignOf(p) == Start ==>
         pt.x + a.left == context.left + WidthDelta(context, arrow))
      && (!IsHorizontalSide(SideOf(p)) && AlignOf(p) == End ==>
         pt.x + popup.width - a.right == context.right - WidthDelta(context, arrow))
  {
    AlignEdges(context, popup, Some(arrow), p);
  }

  /** A worked case: a 100 by 40 context at (100, 50) and a 60 by 30 popup with an arrow
      as large as the context and a zero radius, so nothing is nudged. */
  lemma PlacementExample(context: Rect, popup: Size, arrow: Option<Arrow>)
    requires context.left == 100.0 && context.top == 50.0 && context.right == 200.0 && context.bottom == 90.0
    requires context.width == 100.0 && context.height == 40.0
    requires popup.width == 60.0 && popup.height == 30.0
    requires arrow.Some? && arrow.value.size.width == 100.0 && arrow.value.size.height == 40.0
    requires arrow.value.radius.Px? && arrow.value.radius.px == 0
    ensures GetPopupPosition(context, popup, arrow, LeftTop) == Some(Point(40.0, 50.0))
  {
    assert ComputeNudge(context, arrow).offsetY == 0.0;
    SideEdges(context, popup, arrow, LeftTop);
    AlignEdges(context, popup, arrow, LeftTop);
  }

  /** The same context and popup centred above and below: the popup's left edge is at
      100 + 50 - 30 = 120, whatever the arrow. */
  lemma CenteredPlacementExample(context: Rect, popup: Size, arrow: Option<Arrow>)
    requires context.left == 100.0 && context.top == 50.0 && context.right == 200.0 && context.bottom == 90.0
    requires context.width == 100.0 && context.height == 40.0
    requires popup.width == 60.0 && popup.height == 30.0
    ensures GetPopupPosition(context, popup, arrow, AboveCenter) == Some(Point(120.0, 20.0))
    ensures GetPopupPosition(context, popup, arrow, BelowCenter) == Some(Point(120.0, 90.0))
  {
    var k := ComputeCandidates(context, popup, ComputeNudge(context, arrow));
    assert k.xOfHorizontalAlignCenter == 120.0;
    LookupPairsSideWithAlign(k, AboveCenter);
    LookupPairsSideWithAlign(k, BelowCenter);
  }

  /** A worked case of the nudge with a 5px radius and a 100px wide context: an 80px arrow
      leaves a 10px gap and is not nudged; a 95px arrow leaves 2.5px, so the arrow moves
      out to 5px and the popup by 2.5px. */
  lemma NudgeExample()
    ensures var context := Rect(100.0, 50.0, 200.0, 90.0, 100.0, 40.0);
      ComputeNudge(context, Some(Arrow(Size(80.0, 40.0), Px(5)))).offsetX == 0.0
      && ComputeNudge(context, Some(Arrow(Size(80.0, 40.0), Px(5)))).arrowPos.value.left == 10.0
      && ComputeNudge(context, Some(Arrow(Size(95.0, 40.0), Px(5)))).offsetX == 2.5
      && ComputeNudge(context, Some(Arrow(Size(95.0, 40.0), Px(5)))).arrowPos.value.left == 5.0
  {
  }
}
