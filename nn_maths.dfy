/** Distances and displacement vectors between located things, and the gap between two rectangles. */
module NnMaths {
  import opened Numerics

  /** `dist(x2, x1, y2, y1)`: the length of the vector from `(x1, y1)` to `(x2, y2)`. */
  function Dist(m: Maths, x2: real, x1: real, y2: real, y1: real): real
  {
    Length(m, x2 - x1, y2 - y1)
  }

  /** `xy_dist(x2, x1, y2, y1)`: the displacement `[x2 - x1, y2 - y1]`. */
  function XyDist(x2: real, x1: real, y2: real, y1: real): (d: seq<real>)
    ensures |d| == 2
  {
    [x2 - x1, y2 - y1]
  }

  /** `dist_to_item(org, food)`: the distance between the locations of two things. */
  function DistToItem(m: Maths, org: Point, food: Point): real
  {
    Dist(m, food.x, org.x, food.y, org.y)
  }

  /** `dist_between(first, second)`: the displacement from `second` to `first`. */
  function DistBetween(first: Point, second: Point): (d: seq<real>)
    ensures |d| == 2
  {
    XyDist(first.x, second.x, first.y, second.y)
  }

  /** `xy_dist_to_item(org1, org2)`: the displacement from `org1` to `org2`. */
  function XyDistToItem(org1: Point, org2: Point): (d: seq<real>)
    ensures |d| == 2
  {
    XyDist(org2.x, org1.x, org2.y, org1.y)
  }

  /** The displacement from `from` to `to`, written out componentwise. */
  lemma XyDistIsDisplacement(x2: real, x1: real, y2: real, y1: real)
    ensures XyDist(x2, x1, y2, y1)[0] + x1 == x2
    ensures XyDist(x2, x1, y2, y1)[1] + y1 == y2
  {
  }

  /** Swapping the two things negates `dist_between`; `xy_dist_to_item` is `dist_between` with its arguments swapped. */
  lemma DisplacementAntisymmetric(a: Point, b: Point)
    ensures DistBetween(a, b)[0] == -DistBetween(b, a)[0]
    ensures DistBetween(a, b)[1] == -DistBetween(b, a)[1]
    ensures XyDistToItem(a, b) == DistBetween(b, a)
  {
  }

  /** `dist_to_item` is symmetric, never negative, and zero for coinciding locations. */
  lemma DistToItemProperties(m: Maths, a: Point, b: Point)
    ensures DistToItem(m, a, b) == DistToItem(m, b, a)
    ensures DistToItem(m, a, b) >= 0.0
    ensures a == b ==> DistToItem(m, a, b) == 0.0
  {
    LengthLaws(m, b.x - a.x, b.y - a.y);
    assert -(b.x - a.x) == a.x - b.x && -(b.y - a.y) == a.y - b.y;
    LengthLaws(m, 0.0, 0.0);
  }

  // ---------------------------------------------------------------------------
  // rect_distance

  /** A pygame rectangle, by its top-left and bottom-right corners. */
  datatype Rect = Rect(topleft: Point, bottomright: Point)
  {
    predicate WellFormed() {
      topleft.x <= bottomright.x && topleft.y <= bottomright.y
    }
  }

  /** `rect2` lies entirely to the left of `rect1`. */
  predicate LeftOf(r1: Rect, r2: Rect) { r2.bottomright.x < r1.topleft.x }
  /** `rect2` lies entirely to the right of `rect1`. */
  predicate RightOf(r1: Rect, r2: Rect) { r1.bottomright.x < r2.topleft.x }
  /** `rect2` lies entirely above `rect1`. */
  predicate Above(r1: Rect, r2: Rect) { r2.bottomright.y < r1.topleft.y }
  /** `rect2` lies entirely below `rect1`. */
  predicate Below(r1: Rect, r2: Rect) { r1.bottomright.y < r2.topleft.y }

  /**
   * `rect_distance(rect1, rect2)`: the gap between two rectangles, 0 when
   * they touch or overlap; `math.hypot` of the corner gaps when they are apart
   * diagonally.
   */
  function RectDistance(m: Maths, rect1: Rect, rect2: Rect): real
  {
    var x1, y1 := rect1.topleft.x, rect1.topleft.y;
    var x1b, y1b := rect1.bottomright.x, rect1.bottomright.y;
    var x2, y2 := rect2.topleft.x, rect2.topleft.y;
    var x2b, y2b := rect2.bottomright.x, rect2.bottomright.y;
    var left, right := LeftOf(rect1, rect2), RightOf(rect1, rect2);
    var top, bottom := Above(rect1, rect2), Below(rect1, rect2);
    if bottom && left then Length(m, x2b - x1, y2 - y1b)
    else if left && top then Length(m, x2b - x1, y2b - y1)
    else if top && right then Length(m, x2 - x1b, y2b - y1)
    else if right && bottom then Length(m, x2 - x1b, y2 - y1b)
    else if left then x1 - x2b
    else if right then x2 - x1b
    else if top then y1 - y2b
    else if bottom then y2 - y1b
    else 0.0
  }

  /** Whichever branch applies, the gap is positive when the rectangles are apart. */
  lemma RectDistanceSign(m: Maths, rect1: Rect, rect2: Rect)
    ensures RectDistance(m, rect1, rect2) >= 0.0
    ensures RectDistance(m, rect1, rect2) == 0.0 <==>
      !LeftOf(rect1, rect2) && !RightOf(rect1, rect2) && !Above(rect1, rect2) && !Below(rect1, rect2)
  {
    var x1, y1 := rect1.topleft.x, rect1.topleft.y;
    var x1b, y1b := rect1.bottomright.x, rect1.bottomright.y;
    var x2, y2 := rect2.topleft.x, rect2.topleft.y;
    var x2b, y2b := rect2.bottomright.x, rect2.bottomright.y;
    var left, right := LeftOf(rect1, rect2), RightOf(rect1, rect2);
    var top, bottom := Above(rect1, rect2), Below(rect1, rect2);
    if bottom && left {
      LengthLaws(m, x2b - x1, y2 - y1b);
    } else if left && top {
      LengthLaws(m, x2b - x1, y2b - y1);
    } else if top && right {
      LengthLaws(m, x2 - x1b, y2b - y1);
    } else if right && bottom {
      LengthLaws(m, x2 - x1b, y2 - y1b);
    }
  }

  /** In a well-formed pair no rectangle is both left and right, nor both above and below, of the other. */
  lemma RectSidesExclusive(rect1: Rect, rect2: Rect)
    requires rect1.WellFormed() && rect2.WellFormed()
    ensures !(LeftOf(rect1, rect2) && RightOf(rect1, rect2))
    ensures !(Above(rect1, rect2) && Below(rect1, rect2))
  {
  }

  /** When the second rectangle is separated on one side only, the gap is the plain difference of edges. */
  lemma RectDistanceOneSide(m: Maths, rect1: Rect, rect2: Rect)
    requires rect1.WellFormed() && rect2.WellFormed()
    ensures LeftOf(rect1, rect2) && !Above(rect1, rect2) && !Below(rect1, rect2) ==>
      RectDistance(m, rect1, rect2) == rect1.topleft.x - rect2.bottomright.x
    ensures RightOf(rect1, rect2) && !Above(rect1, rect2) && !Below(rect1, rect2) ==>
      RectDistance(m, rect1, rect2) == rect2.topleft.x - rect1.bottomright.x
    ensures Above(rect1, rect2) && !LeftOf(rect1, rect2) && !RightOf(rect1, rect2) ==>
      RectDistance(m, rect1, rect2) == rect1.topleft.y - rect2.bottomright.y
    ensures Below(rect1, rect2) && !LeftOf(rect1, rect2) && !RightOf(rect1, rect2) ==>
      RectDistance(m, rect1, rect2) == rect2.topleft.y - rect1.bottomright.y
  {
    RectSidesExclusive(rect1, rect2);
  }
}
