/**
 * Grid utilities: Chebyshev and Manhattan distance over points whose z is
 * optional, the `generate2DArray`/`generate3DArray` comprehensions, and the
 * order in which `traverse2DArray`/`traverse3DArray` hand elements to their
 * callback. The callback is side-effecting in the source, so a traversal is
 * modelled by the log of the calls it makes.
 */
module MapUtils {
  import opened Common

  /** `{ x, y, z? }`: z is absent for chunk positions. */
  datatype Point = Point(x: int, y: int, z: Option<int>)

  /** The z term of both distances: counted only when both points have a z. */
  function ZGap(p: Point, q: Point): nat
  {
    if p.z.Some? && q.z.Some? then Abs(p.z.value - q.z.value) else 0
  }

  /** `chebyshevDistance`: the largest per-axis gap. */
  function ChebyshevDistance(p: Point, q: Point): (d: nat)
    ensures d >= Abs(p.x - q.x) && d >= Abs(p.y - q.y) && d >= ZGap(p, q)
    ensures d == Abs(p.x - q.x) || d == Abs(p.y - q.y) || d == ZGap(p, q)
  {
    Max(Max(Abs(p.x - q.x), Abs(p.y - q.y)), ZGap(p, q))
  }

  /** `manhattanDistance`: the sum of the per-axis gaps. */
  function ManhattanDistance(p: Point, q: Point): (d: nat)
    ensures ChebyshevDistance(p, q) <= d <= 3 * ChebyshevDistance(p, q)
    ensures p.z.None? || q.z.None? ==> d <= 2 * ChebyshevDistance(p, q)
  {
    Abs(p.x - q.x) + Abs(p.y - q.y) + ZGap(p, q)
  }

  /** Both distances are symmetric, and zero between a point and itself. */
  lemma DistancesSymmetric(p: Point, q: Point)
    ensures ChebyshevDistance(p, q) == ChebyshevDistance(q, p)
    ensures ManhattanDistance(p, q) == ManhattanDistance(q, p)
    ensures ChebyshevDistance(p, p) == 0 && ManhattanDistance(p, p) == 0
  {
  }

  /** A distance is zero exactly when x and y agree and z agrees or is missing on one side. */
  lemma DistanceZeroIff(p: Point, q: Point)
    ensures ChebyshevDistance(p, q) == 0 <==> p.x == q.x && p.y == q.y && (p.z.None? || q.z.None? || p.z == q.z)
    ensures ManhattanDistance(p, q) == 0 <==> ChebyshevDistance(p, q) == 0
  {
  }

  /** `Array.from({ length: n })` has length 0 for a negative `n`. */
  function Length(n: int): nat
  {
    if n < 0 then 0 else n
  }

  /** `generate2DArray`: `size.x` rows of `size.y` elements, element `[x][y]` is `f(x, y)`. */
  function Generate2D<T>(sizeX: int, sizeY: int, f: (int, int) -> T): (a: seq<seq<T>>)
    ensures |a| == Length(sizeX)
    ensures forall x :: 0 <= x < |a| ==> |a[x]| == Length(sizeY)
    ensures forall x, y :: 0 <= x < |a| && 0 <= y < |a[x]| ==> a[x][y] == f(x, y)
  {
    seq(Length(sizeX), x => seq(Length(sizeY), y => f(x, y)))
  }

  /** `generate3DArray`: shape `size.x × size.y × size.z`, element `[x][y][z]` is `f(x, y, z)`. */
  function Generate3D<T>(sizeX: int, sizeY: int, sizeZ: int, f: (int, int, int) -> T): (a: seq<seq<seq<T>>>)
    ensures |a| == Length(sizeX)
    ensures forall x :: 0 <= x < |a| ==> |a[x]| == Length(sizeY)
    ensures forall x, y :: 0 <= x < |a| && 0 <= y < |a[x]| ==> |a[x][y]| == Length(sizeZ)
    ensures forall x, y, z :: 0 <= x < |a| && 0 <= y < |a[x]| && 0 <= z < |a[x][y]| ==> a[x][y][z] == f(x, y, z)
  {
    seq(Length(sizeX), x => seq(Length(sizeY), y => seq(Length(sizeZ), z => f(x, y, z))))
  }

  /** One callback call of `traverse2DArray`: the element and its `{ x, y }`. */
  datatype Visit2<T> = Visit2(element: T, x: int, y: int)

  /** One callback call of `traverse3DArray`: the element and its `{ x, y, z }`. */
  datatype Visit3<T> = Visit3(element: T, x: int, y: int, z: int)

  /** The calls made for one x-layer of a 2D array. */
  function Row<T>(layer: seq<T>, x: int): (r: seq<Visit2<T>>)
    ensures |r| == |layer|
  {
    seq(|layer|, y requires 0 <= y < |layer| => Visit2(layer[y], x, y))
  }

  /** The calls `traverse2DArray` makes, in order: x outer, y inner. */
  function Visits2D<T>(arr: seq<seq<T>>): seq<Visit2<T>>
  {
    if arr == [] then [] else Visits2D(arr[..|arr| - 1]) + Row(arr[|arr| - 1], |arr| - 1)
  }

  /** The 2D calls of one x-layer of a 3D array, tagged with that x. */
  function Lift<T>(vs: seq<Visit2<T>>, x: int): (r: seq<Visit3<T>>)
    ensures |r| == |vs|
  {
    seq(|vs|, i requires 0 <= i < |vs| => Visit3(vs[i].element, x, vs[i].x, vs[i].y))
  }

  /** The calls `traverse3DArray` makes, in order: x outermost, then y, then z. */
  function Visits3D<T>(arr: seq<seq<seq<T>>>): seq<Visit3<T>>
  {
    if arr == [] then [] else Visits3D(arr[..|arr| - 1]) + Lift(Visits2D(arr[|arr| - 1]), |arr| - 1)
  }

  /** Index pair order: x first, then y. */
  predicate Before2(a: (int, int), b: (int, int))
  {
    a.0 < b.0 || (a.0 == b.0 && a.1 < b.1)
  }

  /** Index triple order: x first, then y, then z. */
  predicate Before3(a: (int, int, int), b: (int, int, int))
  {
    a.0 < b.0 || (a.0 == b.0 && Before2((a.1, a.2), (b.1, b.2)))
  }

  /**
   * Every call of `traverse2DArray` names an element of the array at its own
   * index, and the index pairs strictly increase with x outer and y inner, so
   * no element is visited twice.
   */
  lemma {:induction false} Visits2DInOrder<T>(arr: seq<seq<T>>)
    ensures forall k :: 0 <= k < |Visits2D(arr)| ==>
      var v := Visits2D(arr)[k];
      0 <= v.x < |arr| && 0 <= v.y < |arr[v.x]| && v.element == arr[v.x][v.y]
    ensures forall k, l :: 0 <= k < l < |Visits2D(arr)| ==>
      Before2((Visits2D(arr)[k].x, Visits2D(arr)[k].y), (Visits2D(arr)[l].x, Visits2D(arr)[l].y))
  {
    if arr != [] {
      var n := |arr| - 1;
      Visits2DInOrder(arr[..n]);
      var prefix := Visits2D(arr[..n]);
      assert Visits2D(arr) == prefix + Row(arr[n], n);
      forall k | 0 <= k < |prefix|
        ensures prefix[k].x < n
      {
      }
    }
  }

  /** Every element of the array is visited by `traverse2DArray`. */
  lemma {:induction false} Visits2DComplete<T>(arr: seq<seq<T>>, x: int, y: int)
    requires 0 <= x < |arr| && 0 <= y < |arr[x]|
    ensures Visit2(arr[x][y], x, y) in Visits2D(arr)
  {
    var n := |arr| - 1;
    if x < n {
      Visits2DComplete(arr[..n], x, y);
    } else {
      assert Row(arr[n], n)[y] == Visit2(arr[x][y], x, y);
    }
  }

  /** `traverse3DArray` visits elements at their own index, strictly in (x, y, z) order. */
  lemma {:induction false} Visits3DInOrder<T>(arr: seq<seq<seq<T>>>)
    ensures forall k :: 0 <= k < |Visits3D(arr)| ==>
      var v := Visits3D(arr)[k];
      0 <= v.x < |arr| && 0 <= v.y < |arr[v.x]| && 0 <= v.z < |arr[v.x][v.y]| && v.element == arr[v.x][v.y][v.z]
    ensures forall k, l :: 0 <= k < l < |Visits3D(arr)| ==>
      Before3((Visits3D(arr)[k].x, Visits3D(arr)[k].y, Visits3D(arr)[k].z),
              (Visits3D(arr)[l].x, Visits3D(arr)[l].y, Visits3D(arr)[l].z))
  {
    if arr != [] {
      var n := |arr| - 1;
      Visits3DInOrder(arr[..n]);
      Visits2DInOrder(arr[n]);
      var prefix := Visits3D(arr[..n]);
      var last := Lift(Visits2D(arr[n]), n);
      assert Visits3D(arr) == prefix + last;
      forall k | 0 <= k < |prefix|
        ensures prefix[k].x < n
      {
      }
    }
  }

  /** Every element of the array is visited by `traverse3DArray`. */
  lemma {:induction false} Visits3DComplete<T>(arr: seq<seq<seq<T>>>, x: int, y: int, z: int)
    requires 0 <= x < |arr| && 0 <= y < |arr[x]| && 0 <= z < |arr[x][y]|
    ensures Visit3(arr[x][y][z], x, y, z) in Visits3D(arr)
  {
    var n := |arr| - 1;
    if x < n {
      Visits3DComplete(arr[..n], x, y, z);
    } else {
      Visits2DComplete(arr[n], y, z);
      var vs := Visits2D(arr[n]);
      var k :| 0 <= k < |vs| && vs[k] == Visit2(arr[x][y][z], y, z);
      assert Lift(vs, n)[k] == Visit3(arr[x][y][z], x, y, z);
    }
  }

  /** Tagging a sequence of calls that ends in `v` ends in `v` tagged. */
  lemma LiftSnoc<T>(vs: seq<Visit2<T>>, v: Visit2<T>, x: int)
    ensures Lift(vs + [v], x) == Lift(vs, x) + [Visit3(v.element, x, v.x, v.y)]
  {
    assert Lift(vs + [v], x)[..|vs|] == Lift(vs, x);
  }

  /** `traverse2DArray`: call the callback on every element, x outer and y inner. */
  method Traverse2D<T>(arr: seq<seq<T>>) returns (calls: seq<Visit2<T>>)
    ensures calls == Visits2D(arr)
  {
    calls := [];
    var x := 0;
    while x < |arr|
      invariant 0 <= x <= |arr|
      invariant calls == Visits2D(arr[..x])
    {
      var y := 0;
      while y < |arr[x]|
        invariant 0 <= y <= |arr[x]|
        invariant calls == Visits2D(arr[..x]) + Row(arr[x], x)[..y]
      {
        calls := calls + [Visit2(arr[x][y], x, y)];
        y := y + 1;
      }
      assert arr[..x + 1][..x] == arr[..x];
      x := x + 1;
    }
    assert arr[..|arr|] == arr;
  }

  /** `traverse3DArray`: call the callback on every element, x outermost, then y, then z. */
  method Traverse3D<T>(arr: seq<seq<seq<T>>>) returns (calls: seq<Visit3<T>>)
    ensures calls == Visits3D(arr)
  {
    calls := [];
    var x := 0;
    while x < |arr|
      invariant 0 <= x <= |arr|
      invariant calls == Visits3D(arr[..x])
    {
      var layer := arr[x];
      var y := 0;
      while y < |layer|
        invariant 0 <= y <= |layer|
        invariant calls == Visits3D(arr[..x]) + Lift(Visits2D(layer[..y]), x)
      {
        var z := 0;
        while z < |layer[y]|
          invariant 0 <= z <= |layer[y]|
          invariant calls == Visits3D(arr[..x]) + Lift(Visits2D(layer[..y]) + Row(layer[y], y)[..z], x)
        {
          ghost var done := Visits2D(layer[..y]) + Row(layer[y], y)[..z];
          assert Visits2D(layer[..y]) + Row(layer[y], y)[..z + 1] == done + [Visit2(layer[y][z], y, z)];
          LiftSnoc(done, Visit2(layer[y][z], y, z), x);
          calls := calls + [Visit3(layer[y][z], x, y, z)];
          z := z + 1;
        }
        assert layer[..y + 1][..y] == layer[..y];
        assert Row(layer[y], y)[..|layer[y]|] == Row(layer[y], y);
        y := y + 1;
      }
      assert layer[..|layer|] == layer;
      assert arr[..x + 1][..x] == arr[..x];
      x := x + 1;
    }
    assert arr[..|arr|] == arr;
  }
}
