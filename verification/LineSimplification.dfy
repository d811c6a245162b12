/** The Ramer-Douglas-Peucker simplification of a polygon, over exact numbers. Distances are
    compared without roots: a point is farther than epsilon from a line of positive length when
    the square of its cross product exceeds the product of the squares. */
module LineSimplification {
  import opened RealProducts

  datatype Point = Point(x: real, y: real)

  function Abs(a: real): real {
    if a < 0.0 then -a else a
  }

  // The cross product of a span with the vector to a point: the distance of the point from the
  // line through the span, times the length of the span.
  function Cross(p1: Point, p2: Point, p: Point): real {
    (p2.y - p1.y) * (p.x - p1.x) - (p2.x - p1.x) * (p.y - p1.y)
  }

  function Square(a: real): real {
    Times(a, a)
  }

  function LengthSquared(p1: Point, p2: Point): real {
    Square(p2.x - p1.x) + Square(p2.y - p1.y)
  }

  // Whether a point is farther than epsilon from the line. For a span of no length the quotient
  // of the program is not a number, which compares as false.
  predicate Beyond(p1: Point, p2: Point, p: Point, epsilon: real) {
    && LengthSquared(p1, p2) > 0.0
    && (epsilon < 0.0 || Cross(p1, p2, p) * Cross(p1, p2, p) > epsilon * epsilon * LengthSquared(p1, p2))
  }

  /* The recursive algorithm */

  // The farthest point beyond epsilon among those strictly between i1 and i, the first of them
  // if there are several, and 0 if there is none.
  function Farthest(polygon: seq<Point>, epsilon: real, i1: nat, i2: nat, i: nat): (r: nat)
    requires i1 < i <= i2 < |polygon|
    ensures r < i
  {
    if i == i1 + 1 then 0
    else
      var k, j := Farthest(polygon, epsilon, i1, i2, i - 1), i - 1;
      var p1, p2 := polygon[i1], polygon[i2];
      if (if k == 0 then Beyond(p1, p2, polygon[j], epsilon)
                           else Abs(Cross(p1, p2, polygon[j])) > Abs(Cross(p1, p2, polygon[k])))
      then j
      else k
  }

  // What a search up to i has found.
  ghost predicate Found(polygon: seq<Point>, epsilon: real, i1: nat, i2: nat, i: nat, k: nat)
    requires i1 < i <= i2 < |polygon|
  {
    var p1, p2 := polygon[i1], polygon[i2];
    if k == 0 then NoneBeyond(polygon, epsilon, i1, i2, i)
    else i1 < k < i && Beyond(p1, p2, polygon[k], epsilon) && NoneFarther(polygon, i1, i2, i, k)
  }

  ghost predicate NoneBeyond(polygon: seq<Point>, epsilon: real, i1: nat, i2: nat, i: nat)
    requires i1 < i <= i2 < |polygon|
  {
    forall j | i1 < j < i :: !Beyond(polygon[i1], polygon[i2], polygon[j], epsilon)
  }

  ghost predicate NoneFarther(polygon: seq<Point>, i1: nat, i2: nat, i: nat, k: nat)
    requires i1 < i <= i2 < |polygon| && k < |polygon|
  {
    forall j | i1 < j < i ::
      && Abs(Cross(polygon[i1], polygon[i2], polygon[j])) <= Abs(Cross(polygon[i1], polygon[i2], polygon[k]))
      && (j < k ==> Abs(Cross(polygon[i1], polygon[i2], polygon[j])) < Abs(Cross(polygon[i1], polygon[i2], polygon[k])))
  }

  lemma {:induction false} FarthestFinds(polygon: seq<Point>, epsilon: real, i1: nat, i2: nat, i: nat)
    requires i1 < i <= i2 < |polygon|
    ensures Found(polygon, epsilon, i1, i2, i, Farthest(polygon, epsilon, i1, i2, i))
  {
    hide Cross, Beyond, Abs;
    if i > i1 + 1 {
      FarthestFinds(polygon, epsilon, i1, i2, i - 1);
      var k, j := Farthest(polygon, epsilon, i1, i2, i - 1), i - 1;
      if k != 0 {
        FartherIsBeyond(polygon[i1], polygon[i2], polygon[k], polygon[j], epsilon);
      } else if Beyond(polygon[i1], polygon[i2], polygon[j], epsilon) {
        forall q | i1 < q < j
          ensures Abs(Cross(polygon[i1], polygon[i2], polygon[q])) < Abs(Cross(polygon[i1], polygon[i2], polygon[j]))
        {
          BeyondIsFarther(polygon[i1], polygon[i2], polygon[j], polygon[q], epsilon);
        }
      }
    }
  }

  lemma SquaresGrow(u: real, v: real)
    requires 0.0 <= u < v
    ensures v * v > u * u
  {
    ProductIsPositive(v - u, v + u);
    assert (v - u) * (v + u) == v * v - u * u;
  }

  lemma SquareOfAbs(a: real)
    ensures Abs(a) >= 0.0 && Abs(a) * Abs(a) == a * a
  {
  }

  lemma AbsoluteSquaresGrow(a: real, b: real)
    requires Abs(b) > Abs(a)
    ensures b * b > a * a
  {
    hide Abs;
    SquareOfAbs(a);
    SquareOfAbs(b);
    SquaresGrow(Abs(a), Abs(b));
  }

  // A point farther than one beyond epsilon is beyond epsilon.
  lemma FartherIsBeyond(p1: Point, p2: Point, p: Point, q: Point, epsilon: real)
    requires Beyond(p1, p2, p, epsilon)
    ensures Abs(Cross(p1, p2, q)) > Abs(Cross(p1, p2, p)) ==> Beyond(p1, p2, q, epsilon)
  {
    hide Cross, LengthSquared, Abs;
    if Abs(Cross(p1, p2, q)) > Abs(Cross(p1, p2, p)) {
      AbsoluteSquaresGrow(Cross(p1, p2, p), Cross(p1, p2, q));
    }
  }

  // A point beyond epsilon is farther than one that is not.
  lemma BeyondIsFarther(p1: Point, p2: Point, p: Point, q: Point, epsilon: real)
    requires Beyond(p1, p2, p, epsilon) && !Beyond(p1, p2, q, epsilon)
    ensures Abs(Cross(p1, p2, q)) < Abs(Cross(p1, p2, p))
  {
    hide Cross, LengthSquared, Abs;
    SquareOfAbs(Cross(p1, p2, p));
    SquareOfAbs(Cross(p1, p2, q));
    if Abs(Cross(p1, p2, q)) > Abs(Cross(p1, p2, p)) {
      AbsoluteSquaresGrow(Cross(p1, p2, p), Cross(p1, p2, q));
    }
  }

  // The points that the recursion keeps strictly between i1 and i2.
  function Keep(polygon: seq<Point>, epsilon: real, i1: nat, i2: nat): set<nat>
    requires i1 < i2 < |polygon|
    decreases i2 - i1
  {
    var k := Farthest(polygon, epsilon, i1, i2, i2);
    FarthestFinds(polygon, epsilon, i1, i2, i2);
    if k == 0 then {} else {k} + Keep(polygon, epsilon, i1, k) + Keep(polygon, epsilon, k, i2)
  }

  // All points kept, the ends included.
  function Kept(polygon: seq<Point>, epsilon: real): set<nat>
    requires |polygon| >= 2
  {
    {0, |polygon| - 1} + Keep(polygon, epsilon, 0, |polygon| - 1)
  }

  // The points of a polygon that are marked, in order.
  function Selected(polygon: seq<Point>, marks: seq<bool>): seq<Point>
    requires |polygon| == |marks|
  {
    if polygon == [] then []
    else
      var n := |polygon| - 1;
      Selected(polygon[..n], marks[..n]) + (if marks[n] then [polygon[n]] else [])
  }

  function Marks(n: nat, kept: set<nat>): (r: seq<bool>)
    ensures |r| == n
  {
    seq(n, i => i in kept)
  }

  // The simplified polygon. Fewer than three points are left alone.
  function Simplified(polygon: seq<Point>, epsilon: real): seq<Point> {
    if |polygon| < 3 then polygon else Selected(polygon, Marks(|polygon|, Kept(polygon, epsilon)))
  }

  /* The stack machine */

  datatype Span = Span(index1: nat, index2: nat)

  ghost predicate Spans(polygon: seq<Point>, stack: seq<Span>) {
    forall s <- stack :: s.index1 < s.index2 < |polygon|
  }

  // What the spans on the stack will still add.
  ghost function Pending(polygon: seq<Point>, epsilon: real, stack: seq<Span>): set<nat>
    requires Spans(polygon, stack)
  {
    if stack == [] then {}
    else
      var s := stack[|stack| - 1];
      Pending(polygon, epsilon, stack[..|stack| - 1]) + Keep(polygon, epsilon, s.index1, s.index2)
  }

  // An upper bound on the number of spans still to be looked at.
  ghost function Work(stack: seq<Span>): nat
    requires forall s <- stack :: s.index1 < s.index2
  {
    if stack == [] then 0
    else
      var s := stack[|stack| - 1];
      Work(stack[..|stack| - 1]) + 2 * (s.index2 - s.index1) - 1
  }

  ghost function Marked(marks: seq<bool>): set<nat> {
    set i: nat | i < |marks| && marks[i]
  }

  class RDP {
    // Kept between calls only to reuse their memory: the stack is empty then.
    var stack: seq<Span>
    var marks: seq<bool>

    ghost predicate Valid()
      reads this
    {
      stack == []
    }

    constructor ()
      ensures Valid()
    {
      stack, marks := [], [];
    }

    // The point within a span at the largest distance beyond epsilon, if any.
    method Search(polygon: array<Point>, epsilon: real, index1: nat, index2: nat) returns (index: nat)
      requires index1 < index2 < polygon.Length
      ensures index == Farthest(polygon[..], epsilon, index1, index2, index2)
    {
      hide Cross, Beyond, Abs;
      var p1, p2 := polygon[index1], polygon[index2];
      var limit := 0.0;
      index := 0;
      var i := index1 + 1;
      while i < index2
        invariant index1 < i <= index2
        invariant index == Farthest(polygon[..], epsilon, index1, index2, i)
        invariant index < polygon.Length && (index != 0 ==> limit == Abs(Cross(p1, p2, polygon[index])))
      {
        var cross := Abs(Cross(p1, p2, polygon[i]));
        if (if index == 0 then Beyond(p1, p2, polygon[i], epsilon) else cross > limit) {
          limit, index := cross, i;
        }
        i := i + 1;
      }
    }

    // Runs the stack machine until it empties.
    method MarkKept(polygon: array<Point>, epsilon: real)
      requires Valid() && polygon.Length >= 3
      modifies this
      ensures Valid() && marks == Marks(polygon.Length, Kept(polygon[..], epsilon))
    {
      hide Keep, Farthest;
      ghost var points := polygon[..];
      var last := polygon.Length - 1;
      marks := seq(polygon.Length, i => i == 0 || i == last);
      stack := [Span(0, last)];
      assert stack[..0] == [];
      while stack != []
        invariant |marks| == polygon.Length && Spans(points, stack)
        invariant Marked(marks) + Pending(points, epsilon, stack) == Kept(points, epsilon)
        decreases Work(stack)
      {
        var span := stack[|stack| - 1];
        stack := stack[..|stack| - 1];
        ghost var rest := stack;
        var index := Search(polygon, epsilon, span.index1, span.index2);
        KeepUnfolds(points, epsilon, span.index1, span.index2);
        if index != 0 {
          ghost var before := marks;
          marks := marks[index := true];
          assert Marked(marks) == Marked(before) + {index};
          stack := stack + [Span(span.index1, index)] + [Span(index, span.index2)];
          PushTwo(points, epsilon, rest, Span(span.index1, index), Span(index, span.index2));
        }
      }
      forall i | 0 <= i < polygon.Length
        ensures marks[i] == (i in Kept(points, epsilon))
      {
        assert marks[i] <==> i in Marked(marks);
      }
    }

    // Moves the marked points to the front, in order.
    method Compact(polygon: array<Point>) returns (first: nat)
      requires |marks| == polygon.Length
      modifies polygon
      ensures first <= polygon.Length
      ensures polygon[..first] == Selected(old(polygon[..]), marks)
      ensures polygon[first..] == old(polygon[first..])
    {
      ghost var points := polygon[..];
      first := 0;
      for i := 0 to polygon.Length
        invariant first <= i
        invariant polygon[..first] == Selected(points[..i], marks[..i])
        invariant forall k | first <= k < polygon.Length :: polygon[k] == points[k]
      {
        assert points[..i + 1][..i] == points[..i] && marks[..i + 1][..i] == marks[..i];
        if marks[i] {
          polygon[first] := polygon[i];
          first := first + 1;
        }
      }
      assert points[..polygon.Length] == points && marks[..polygon.Length] == marks;
    }

    // Simplifies the polygon in place and returns the number of points kept; as many points as
    // were dropped remain behind them.
    method Simplify(polygon: array<Point>, epsilon: real) returns (first: nat)
      requires Valid()
      modifies this, polygon
      ensures Valid() && first <= polygon.Length
      ensures polygon[..first] == Simplified(old(polygon[..]), epsilon)
      ensures polygon[first..] == old(polygon[first..])
    {
      hide Kept, Marks, Selected;
      if polygon.Length < 3 {
        assert polygon[..polygon.Length] == polygon[..];
        return polygon.Length;
      }
      MarkKept(polygon, epsilon);
      first := Compact(polygon);
    }
  }

  lemma KeepUnfolds(polygon: seq<Point>, epsilon: real, i1: nat, i2: nat)
    requires i1 < i2 < |polygon|
    ensures var k := Farthest(polygon, epsilon, i1, i2, i2);
            if k == 0 then Keep(polygon, epsilon, i1, i2) == {}
            else
              && i1 < k < i2
              && Keep(polygon, epsilon, i1, i2) == {k} + Keep(polygon, epsilon, i1, k) + Keep(polygon, epsilon, k, i2)
  {
    FarthestFinds(polygon, epsilon, i1, i2, i2);
  }

  lemma PushTwo(polygon: seq<Point>, epsilon: real, stack: seq<Span>, a: Span, b: Span)
    requires Spans(polygon, stack) && Spans(polygon, [a, b])
    ensures Spans(polygon, stack + [a] + [b])
    ensures Pending(polygon, epsilon, stack + [a] + [b])
            == Pending(polygon, epsilon, stack) + Keep(polygon, epsilon, a.index1, a.index2)
               + Keep(polygon, epsilon, b.index1, b.index2)
    ensures Work(stack + [a] + [b]) == Work(stack) + 2 * (a.index2 - a.index1) + 2 * (b.index2 - b.index1) - 2
  {
    hide Keep;
    assert a in [a, b] && b in [a, b];
    assert (stack + [a] + [b])[..|stack| + 1] == stack + [a];
    assert (stack + [a])[..|stack|] == stack;
  }

  // What is pending does not depend on the order of the stack.
  lemma {:induction false} OrderDoesNotMatter(polygon: seq<Point>, epsilon: real, stack: seq<Span>, k: nat)
    requires Spans(polygon, stack)
    ensures k in Pending(polygon, epsilon, stack)
            <==> exists s <- stack :: s.index1 < s.index2 < |polygon| && k in Keep(polygon, epsilon, s.index1, s.index2)
  {
    hide Keep;
    if stack != [] {
      var n := |stack| - 1;
      OrderDoesNotMatter(polygon, epsilon, stack[..n], k);
      assert stack == stack[..n] + [stack[n]];
    }
  }

  /* What is selected */

  // The places of the marks, in order.
  function Places(marks: seq<bool>): seq<nat> {
    if marks == [] then []
    else
      var n := |marks| - 1;
      Places(marks[..n]) + if marks[n] then [n] else []
  }

  lemma {:induction false} PlacesAre(marks: seq<bool>)
    ensures forall k: nat :: k in Places(marks) <==> k < |marks| && marks[k]
    ensures forall i, j | 0 <= i < j < |Places(marks)| :: Places(marks)[i] < Places(marks)[j]
  {
    if marks != [] {
      var n := |marks| - 1;
      PlacesAre(marks[..n]);
      forall i | 0 <= i < |Places(marks[..n])|
        ensures Places(marks[..n])[i] < n
      {
        assert Places(marks[..n])[i] in Places(marks[..n]);
      }
    }
  }

  lemma {:induction false} SelectedIs(polygon: seq<Point>, marks: seq<bool>)
    requires |polygon| == |marks|
    ensures |Selected(polygon, marks)| == |Places(marks)|
    ensures forall i | 0 <= i < |Places(marks)| ::
              Places(marks)[i] < |polygon| && Selected(polygon, marks)[i] == polygon[Places(marks)[i]]
  {
    if polygon != [] {
      SelectedIs(polygon[..|polygon| - 1], marks[..|marks| - 1]);
    }
  }

  // The simplified polygon consists of the points kept, in their order. A polygon of two points is kept as it is.
  lemma SimplifiedIs(polygon: seq<Point>, epsilon: real) returns (places: seq<nat>)
    requires |polygon| >= 2
    ensures forall k :: k in places <==> k in Kept(polygon, epsilon)
    ensures forall i, j | 0 <= i < j < |places| :: places[i] < places[j]
    ensures |Simplified(polygon, epsilon)| == |places|
    ensures forall i | 0 <= i < |places| ::
              places[i] < |polygon| && Simplified(polygon, epsilon)[i] == polygon[places[i]]
  {
    hide Keep, Selected, Places;
    var n := |polygon|;
    var marks := Marks(n, Kept(polygon, epsilon));
    places := Places(marks);
    PlacesAre(marks);
    SelectedIs(polygon, marks);
    KeepIsInside(polygon, epsilon, 0, n - 1);
    if n == 2 {
      AllSelected(polygon, marks);
    }
  }

  lemma {:induction false} AllSelected(polygon: seq<Point>, marks: seq<bool>)
    requires |polygon| == |marks| && forall i | 0 <= i < |marks| :: marks[i]
    ensures Selected(polygon, marks) == polygon
  {
    if polygon != [] {
      AllSelected(polygon[..|polygon| - 1], marks[..|marks| - 1]);
    }
  }

  /* Distances */

  function DistanceSquared(p: Point, q: Point): real {
    Square(p.x - q.x) + Square(p.y - q.y)
  }

  // The points of the line through two points.
  function OnLine(p1: Point, p2: Point, t: real): Point {
    Point(p1.x + t * (p2.x - p1.x), p1.y + t * (p2.y - p1.y))
  }

  // How far along the line the foot of the perpendicular from a point is, times the square of the length.
  function Foot(p1: Point, p2: Point, p: Point): real {
    (p.x - p1.x) * (p2.x - p1.x) + (p.y - p1.y) * (p2.y - p1.y)
  }

  lemma Lagrange(dx: real, dy: real, vx: real, vy: real, t: real)
    ensures Times(Square(dx) + Square(dy), Square(vx - t * dx) + Square(vy - t * dy))
            == Square(dy * vx - dx * vy) + Square(vx * dx + vy * dy - Times(t, Square(dx) + Square(dy)))
  {
  }

  // The cross product is the distance from the line, times the length.
  lemma CrossIsDistance(p1: Point, p2: Point, p: Point, t: real)
    ensures Times(LengthSquared(p1, p2), DistanceSquared(p, OnLine(p1, p2, t)))
            == Square(Cross(p1, p2, p)) + Square(Foot(p1, p2, p) - Times(t, LengthSquared(p1, p2)))
  {
    hide Square, Times;
    var dx, dy, vx, vy := p2.x - p1.x, p2.y - p1.y, p.x - p1.x, p.y - p1.y;
    Lagrange(dx, dy, vx, vy, t);
    var q := OnLine(p1, p2, t);
    assert p.x - q.x == vx - t * dx && p.y - q.y == vy - t * dy;
    assert DistanceSquared(p, q) == Square(vx - t * dx) + Square(vy - t * dy);
    assert Cross(p1, p2, p) == dy * vx - dx * vy;
    assert Foot(p1, p2, p) == vx * dx + vy * dy;
    assert LengthSquared(p1, p2) == Square(dx) + Square(dy);
  }

  // A point is beyond epsilon exactly if it is farther than that from every point of the line.
  lemma BeyondIs(p1: Point, p2: Point, p: Point, epsilon: real)
    ensures Beyond(p1, p2, p, epsilon)
            <==> && LengthSquared(p1, p2) > 0.0
                 && (epsilon < 0.0 || forall t: real :: DistanceSquared(p, OnLine(p1, p2, t)) > Square(epsilon))
  {
    hide Square, Cross, LengthSquared, DistanceSquared, OnLine, Foot, Times;
    var l, c := LengthSquared(p1, p2), Cross(p1, p2, p);
    if l > 0.0 && epsilon >= 0.0 {
      BeyondIsSquared(p1, p2, p, epsilon);
      forall t: real
        ensures Times(l, DistanceSquared(p, OnLine(p1, p2, t))) >= Square(c)
      {
        CrossIsDistance(p1, p2, p, t);
        SquareAtLeastZero(Foot(p1, p2, p) - Times(t, l));
      }
      var t0 := Foot(p1, p2, p) / l;
      CrossIsDistance(p1, p2, p, t0);
      NothingSquared(Foot(p1, p2, p), l);
      if Beyond(p1, p2, p, epsilon) {
        forall t: real
          ensures DistanceSquared(p, OnLine(p1, p2, t)) > Square(epsilon)
        {
          LessFactor(l, Square(epsilon), DistanceSquared(p, OnLine(p1, p2, t)));
        }
      } else {
        MoreFactor(l, Square(epsilon), DistanceSquared(p, OnLine(p1, p2, t0)));
      }
    }
  }

  lemma BeyondIsSquared(p1: Point, p2: Point, p: Point, epsilon: real)
    requires LengthSquared(p1, p2) > 0.0 && epsilon >= 0.0
    ensures Beyond(p1, p2, p, epsilon) <==> Square(Cross(p1, p2, p)) > Times(LengthSquared(p1, p2), Square(epsilon))
  {
    hide Cross, LengthSquared;
  }

  lemma NothingSquared(a: real, l: real)
    requires l > 0.0
    ensures Square(a - Times(a / l, l)) == 0.0
  {
    assert a / l * l == a;
  }

  lemma LessFactor(l: real, e: real, d: real)
    requires l > 0.0 && Times(l, d) > Times(l, e)
    ensures d > e
  {
    if d <= e {
      ProductAtLeastZero(l, e - d);
    }
  }

  lemma MoreFactor(l: real, e: real, d: real)
    requires l > 0.0 && Times(l, d) <= Times(l, e)
    ensures d <= e
  {
    if d > e {
      ProductIsPositive(l, d - e);
    }
  }

  /* The geometry of the result */

  // A kept point on each side of a dropped one, with no kept point between.
  ghost predicate Neighbors(kept: set<nat>, a: nat, d: nat, b: nat) {
    a < d < b && a in kept && b in kept && forall k | a < k < b :: k !in kept
  }

  lemma {:induction false} KeepIsInside(polygon: seq<Point>, epsilon: real, i1: nat, i2: nat)
    requires i1 < i2 < |polygon|
    ensures forall k <- Keep(polygon, epsilon, i1, i2) :: i1 < k < i2
    decreases i2 - i1
  {
    hide Farthest;
    KeepUnfolds(polygon, epsilon, i1, i2);
    var k := Farthest(polygon, epsilon, i1, i2, i2);
    if k != 0 {
      KeepIsInside(polygon, epsilon, i1, k);
      KeepIsInside(polygon, epsilon, k, i2);
    }
  }

  // Inside a span, a dropped point is not beyond epsilon from the line through its neighbors.
  lemma {:induction false} DroppedInSpan(polygon: seq<Point>, epsilon: real, i1: nat, i2: nat, d: nat)
    returns (a: nat, b: nat)
    requires i1 < d < i2 < |polygon| && d !in Keep(polygon, epsilon, i1, i2)
    ensures b < |polygon| && Neighbors({i1, i2} + Keep(polygon, epsilon, i1, i2), a, d, b)
    ensures i1 <= a && b <= i2
    ensures !Beyond(polygon[a], polygon[b], polygon[d], epsilon)
    decreases i2 - i1
  {
    hide Farthest, Beyond, Keep;
    KeepUnfolds(polygon, epsilon, i1, i2);
    FarthestFinds(polygon, epsilon, i1, i2, i2);
    var k := Farthest(polygon, epsilon, i1, i2, i2);
    if k == 0 {
      a, b := i1, i2;
    } else {
      KeepIsInside(polygon, epsilon, i1, k);
      KeepIsInside(polygon, epsilon, k, i2);
      if d < k {
        a, b := DroppedInSpan(polygon, epsilon, i1, k, d);
      } else {
        a, b := DroppedInSpan(polygon, epsilon, k, i2, d);
      }
    }
  }

  // The ends are kept, and every dropped point has kept neighbors from whose line it is not
  // beyond epsilon.
  lemma DroppedIsClose(polygon: seq<Point>, epsilon: real, d: nat) returns (a: nat, b: nat)
    requires 2 <= |polygon| && d < |polygon| && d !in Kept(polygon, epsilon)
    ensures b < |polygon| && Neighbors(Kept(polygon, epsilon), a, d, b)
    ensures !Beyond(polygon[a], polygon[b], polygon[d], epsilon)
  {
    hide Beyond, Keep;
    a, b := DroppedInSpan(polygon, epsilon, 0, |polygon| - 1, d);
  }

  ghost predicate Increasing(polygon: seq<Point>) {
    forall i, j | 0 <= i < j < |polygon| :: polygon[i].x < polygon[j].x
  }

  ghost predicate IsLength(length: real, p1: Point, p2: Point) {
    length > 0.0 && length * length == LengthSquared(p1, p2)
  }

  // With abscissas that increase, every span has a length, and the distance of a dropped point
  // from the line through its kept neighbors is at most epsilon.
  lemma DistanceAtMostEpsilon(polygon: seq<Point>, epsilon: real, d: nat) returns (a: nat, b: nat)
    requires 2 <= |polygon| && d < |polygon| && d !in Kept(polygon, epsilon)
    requires Increasing(polygon) && epsilon >= 0.0
    ensures b < |polygon| && Neighbors(Kept(polygon, epsilon), a, d, b)
    ensures LengthSquared(polygon[a], polygon[b]) > 0.0
    ensures forall length: real | IsLength(length, polygon[a], polygon[b]) ::
              Abs(Cross(polygon[a], polygon[b], polygon[d])) / length <= epsilon
  {
    hide Kept;
    a, b := DroppedIsClose(polygon, epsilon, d);
    var p1, p2, p := polygon[a], polygon[b], polygon[d];
    PositiveLength(p1, p2);
    forall length: real | IsLength(length, p1, p2)
      ensures Abs(Cross(p1, p2, p)) / length <= epsilon
    {
      RootOfBound(Abs(Cross(p1, p2, p)), length, epsilon);
    }
  }

  lemma SquareIsPositive(a: real)
    requires a > 0.0
    ensures Square(a) > 0.0
  {
    hide Times;
    TimesIsPositive(a, a);
  }

  lemma SquareAtLeastZero(a: real)
    ensures Square(a) >= 0.0
  {
    hide Times;
    if a > 0.0 {
      TimesIsPositive(a, a);
    } else {
      TimesOfNegatives(a, a);
    }
  }

  lemma PositiveLength(p1: Point, p2: Point)
    requires p1.x < p2.x
    ensures LengthSquared(p1, p2) > 0.0
  {
    hide Square;
    SquareIsPositive(p2.x - p1.x);
    SquareAtLeastZero(p2.y - p1.y);
  }

  lemma RootOfBound(cross: real, length: real, epsilon: real)
    requires cross >= 0.0 && length > 0.0 && epsilon >= 0.0
    requires cross * cross <= epsilon * epsilon * (length * length)
    ensures cross / length <= epsilon
  {
    var bound := epsilon * length;
    assert bound * bound == epsilon * epsilon * (length * length);
    if cross > bound {
      ProductAtLeastZero(epsilon, length);
      SquaresGrow(bound, cross);
    }
    QuotientAtMost(cross, length, epsilon);
  }

  lemma QuotientAtMost(cross: real, length: real, epsilon: real)
    requires length > 0.0 && cross <= epsilon * length
    ensures cross / length <= epsilon
  {
    var quotient := cross / length;
    assert quotient * length == cross;
    if quotient > epsilon {
      ProductIsPositive(quotient - epsilon, length);
    }
  }

  // Nothing is kept without need: an inner point that is kept was beyond epsilon from the line
  // through two kept points on its two sides.
  lemma {:induction false} KeptIsFar(polygon: seq<Point>, epsilon: real, i1: nat, i2: nat, k: nat)
    returns (a: nat, b: nat)
    requires i1 < i2 < |polygon| && k in Keep(polygon, epsilon, i1, i2)
    ensures i1 <= a < k < b <= i2
    ensures {a, b} <= {i1, i2} + Keep(polygon, epsilon, i1, i2)
    ensures Beyond(polygon[a], polygon[b], polygon[k], epsilon)
    decreases i2 - i1
  {
    hide Farthest, Beyond, Keep;
    KeepUnfolds(polygon, epsilon, i1, i2);
    FarthestFinds(polygon, epsilon, i1, i2, i2);
    var split := Farthest(polygon, epsilon, i1, i2, i2);
    if k == split {
      a, b := i1, i2;
    } else if k in Keep(polygon, epsilon, i1, split) {
      a, b := KeptIsFar(polygon, epsilon, i1, split, k);
    } else {
      a, b := KeptIsFar(polygon, epsilon, split, i2, k);
    }
  }

  // The simplified polygon starts and ends where the polygon does.
  lemma {:induction false} SelectedContains(polygon: seq<Point>, marks: seq<bool>, d: nat)
    requires |polygon| == |marks| && d < |polygon| && marks[d]
    ensures polygon[d] in Selected(polygon, marks)
    ensures d == 0 ==> Selected(polygon, marks)[0] == polygon[0]
    ensures d == |polygon| - 1 ==> Selected(polygon, marks)[|Selected(polygon, marks)| - 1] == polygon[d]
  {
    var n := |polygon| - 1;
    if d < n {
      SelectedContains(polygon[..n], marks[..n], d);
    }
  }

  lemma EndsAreKept(polygon: seq<Point>, epsilon: real)
    requires polygon != []
    ensures var r := Simplified(polygon, epsilon);
            r != [] && r[0] == polygon[0] && r[|r| - 1] == polygon[|polygon| - 1]
  {
    if |polygon| >= 3 {
      hide Selected;
      var marks := Marks(|polygon|, Kept(polygon, epsilon));
      SelectedContains(polygon, marks, 0);
      SelectedContains(polygon, marks, |polygon| - 1);
    }
  }
}
