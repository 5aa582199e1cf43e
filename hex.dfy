/**
 * Hex geometry of js/gen.js: axial coordinates, the cube distance and the
 * spiral layout that gives every region of a planet its coordinate.
 */
module Hex {
  import opened Rng

  /** Axial hex coordinate; the implicit third cube coordinate is s = -q - r. */
  datatype Coord = Coord(q: int, r: int) {
    function S(): int { -q - r }

    function Plus(o: Coord): Coord { Coord(q + o.q, r + o.r) }
  }

  const Origin := Coord(0, 0)

  /** The six step directions, in the order the spiral walks them. */
  const Dirs: seq<Coord> := [Coord(1, 0), Coord(1, -1), Coord(0, -1), Coord(-1, 0), Coord(-1, 1), Coord(0, 1)]

  function Abs(x: int): nat { if x < 0 then -x else x }

  /** hexDistance: half the sum of the three absolute cube differences; the sum is always even. */
  function Distance(a: Coord, b: Coord): (d: nat)
    ensures 2 * d == Abs(a.q - b.q) + Abs(a.r - b.r) + Abs(a.S() - b.S())
  {
    (Abs(a.q - b.q) + Abs(a.r - b.r) + Abs(a.S() - b.S())) / 2
  }

  /** Independent reference definition: the largest of the three absolute cube differences. */
  function MaxAbsDiff(a: Coord, b: Coord): nat
  {
    Max(Max(Abs(a.q - b.q), Abs(a.r - b.r)), Abs(a.S() - b.S()))
  }

  lemma DistanceIsMaxAbsDiff(a: Coord, b: Coord)
    ensures Distance(a, b) == MaxAbsDiff(a, b)
  {
  }

  lemma DistanceSymmetric(a: Coord, b: Coord)
    ensures Distance(a, b) == Distance(b, a)
  {
  }

  lemma DistanceToSelf(a: Coord)
    ensures Distance(a, a) == 0
  {
  }

  /** The coordinates at distance 1 are exactly the six unit offsets. */
  lemma NeighboursAreUnitOffsets(a: Coord, b: Coord)
    ensures Distance(a, b) == 1 <==> Coord(b.q - a.q, b.r - a.r) in Dirs
  {
  }

  /** First step of side `d` of a ring of radius k, counted from the ring's start (d * k). */
  function SideBase(k: nat, d: int): (j: nat)
    requires 0 <= d <= 6
    ensures j <= 6 * k
  {
    if d == 0 then 0
    else if d == 1 then k
    else if d == 2 then 2 * k
    else if d == 3 then 3 * k
    else if d == 4 then 4 * k
    else if d == 5 then 5 * k
    else 6 * k
  }

  /**
   * Where the walk around ring k stands after j steps: it starts at (-k, k)
   * and takes k steps in each of the six directions in turn, so that after
   * 6k steps it is back at the start.
   */
  function RingPoint(k: int, j: int): Coord
    requires 0 <= k && 0 <= j <= 6 * k
  {
    if j < k then Coord(-k + j, k)
    else if j < 2 * k then Coord(j - k, 2 * k - j)
    else if j < 3 * k then Coord(k, 2 * k - j)
    else if j < 4 * k then Coord(4 * k - j, -k)
    else if j < 5 * k then Coord(4 * k - j, j - 5 * k)
    else Coord(-k, j - 5 * k)
  }

  /** One step along side d moves the walk by Dirs[d]. */
  lemma RingStep(k: nat, d: int, i: int, j: int)
    requires 0 <= d < 6 && 0 <= i < k && j == SideBase(k, d) + i
    ensures RingPoint(k, j + 1) == RingPoint(k, j).Plus(Dirs[d])
  {
  }

  /** The 6k coordinates of ring k, in walking order. */
  function Ring(k: nat): (s: seq<Coord>)
    ensures |s| == 6 * k
    ensures forall j :: 0 <= j < 6 * k ==> s[j] == RingPoint(k, j)
  {
    seq(6 * k, j requires 0 <= j < 6 * k => RingPoint(k, j))
  }

  /** The origin followed by rings 1 .. n. */
  function Rings(n: nat): (s: seq<Coord>)
    ensures |s| >= 6 * n + 1
    ensures s[0] == Origin
  {
    if n == 0 then [Origin] else Rings(n - 1) + Ring(n)
  }

  /** makeHexSpiral(count): the first max(count, 1) coordinates of the endless spiral. */
  function Spiral(count: int): (s: seq<Coord>)
    ensures |s| == Max(count, 1)
    ensures s[0] == Origin
  {
    Rings(Max(count, 0))[..Max(count, 1)]
  }

  method MakeHexSpiral(count: int) returns (out: seq<Coord>)
    ensures out == Spiral(count)
  {
    out := [Origin];
    if count == 1 {
      return;
    }
    var radius := 1;
    while |out| < count
      invariant radius >= 1
      invariant 1 <= |out| <= |Rings(radius - 1)|
      invariant out == Rings(radius - 1)[..|out|]
      invariant |out| < count ==> out == Rings(radius - 1)
      invariant |out| <= Max(count, 1)
      decreases count - |out|
    {
      out := WalkRing(radius, out, count);
      radius := radius + 1;
    }
    RingsPrefixOfSpiral(radius - 1, count);
  }

  /** One turn of makeHexSpiral's outer loop: walk ring `radius` side by side until `count` coordinates are out. */
  method WalkRing(radius: nat, start: seq<Coord>, count: int) returns (out: seq<Coord>)
    requires radius >= 1 && start == Rings(radius - 1) && |start| < count
    ensures |start| < |out| <= |Rings(radius)| && |out| <= count
    ensures out == Rings(radius)[..|out|]
    ensures |out| < count ==> out == Rings(radius)
  {
    out := start;
    var at := Coord(-(radius as int), radius);
    ghost var j := 0;
    assert Walked(radius, 0) == Rings(radius - 1);
    var d := 0;
    while d < 6 && |out| < count
      invariant 0 <= d <= 6
      invariant 0 <= j <= SideBase(radius, d)
      invariant |out| < count ==> j == SideBase(radius, d)
      invariant d > 0 ==> j > 0
      invariant at == RingPoint(radius, j)
      invariant out == Walked(radius, j)
      invariant |out| <= count
    {
      out, at, j := WalkSide(radius, d, out, at, j, count);
      d := d + 1;
    }
    RingClosed(radius, j);
  }

  /** The inner loop of makeHexSpiral: up to `radius` steps in direction d, each emitting the coordinate it leaves. */
  method WalkSide(radius: nat, d: int, start: seq<Coord>, from: Coord, ghost j0: int, count: int)
    returns (out: seq<Coord>, at: Coord, ghost j: int)
    requires radius >= 1 && 0 <= d < 6 && j0 == SideBase(radius, d)
    requires from == RingPoint(radius, j0) && start == Walked(radius, j0) && |start| < count
    ensures j0 < j <= SideBase(radius, d + 1)
    ensures |out| < count ==> j == SideBase(radius, d + 1)
    ensures at == RingPoint(radius, j) && out == Walked(radius, j) && |out| <= count
  {
    out, at, j := start, from, j0;
    var i := 0;
    while i < radius && |out| < count
      invariant 0 <= i <= radius
      invariant j == SideBase(radius, d) + i
      invariant at == RingPoint(radius, j)
      invariant out == Walked(radius, j)
      invariant |out| <= count
    {
      RingStep(radius, d, i, j);
      RingGrows(radius, j);
      out := out + [at];
      at := at.Plus(Dirs[d]);
      j := j + 1;
      i := i + 1;
    }
  }

  /** The spiral up to ring k - 1, followed by the first j steps of ring k. */
  function Walked(k: nat, j: int): (s: seq<Coord>)
    requires 1 <= k && 0 <= j <= 6 * k
    ensures |s| == |Rings(k - 1)| + j
  {
    Rings(k - 1) + Ring(k)[..j]
  }

  lemma RingGrows(k: nat, j: int)
    requires 1 <= k && 0 <= j < 6 * k
    ensures Walked(k, j + 1) == Walked(k, j) + [RingPoint(k, j)]
  {
    assert Ring(k)[..j + 1] == Ring(k)[..j] + [RingPoint(k, j)];
  }

  /** After walking j steps of ring k the output is the prefix of Rings(k) of that length. */
  lemma RingClosed(k: nat, j: int)
    requires 1 <= k && 0 <= j <= 6 * k
    ensures Walked(k, j) == Rings(k)[..|Rings(k - 1)| + j]
    ensures j == 6 * k ==> Walked(k, j) == Rings(k)
  {
    assert Rings(k) == Rings(k - 1) + Ring(k);
    assert Ring(k)[..6 * k] == Ring(k);
  }

  /** Rings(a) is a prefix of Rings(b) for a <= b. */
  lemma {:induction false} RingsPrefix(a: nat, b: nat)
    requires a <= b
    ensures |Rings(a)| <= |Rings(b)|
    ensures Rings(a) == Rings(b)[..|Rings(a)|]
    decreases b
  {
    if a < b {
      RingsPrefix(a, b - 1);
      assert Rings(b) == Rings(b - 1) + Ring(b);
    }
  }

  /** Any prefix of any Rings(n) long enough is the spiral of that length. */
  lemma RingsPrefixOfSpiral(n: nat, count: int)
    requires Max(count, 1) <= |Rings(n)|
    ensures Rings(n)[..Max(count, 1)] == Spiral(count)
  {
    var m := Max(count, 0);
    if n <= m {
      RingsPrefix(n, m);
    } else {
      RingsPrefix(m, n);
    }
  }

  lemma RingPointDistance(k: int, j: int)
    requires 0 <= k && 0 <= j <= 6 * k
    ensures Distance(Origin, RingPoint(k, j)) == k
  {
  }

  /** The walk around one ring never visits a coordinate twice. */
  lemma RingPointInjective(k: int, i: int, j: int)
    requires 0 <= k && 0 <= i < 6 * k && 0 <= j < 6 * k
    requires RingPoint(k, i) == RingPoint(k, j)
    ensures i == j
  {
  }

  /** Rings(0) holds the origin alone. */
  lemma RingsZero()
    ensures Rings(0) == [Origin]
  {
    assert Rings(0) == [Origin];
  }

  lemma RingsAt(n: nat, j: int, m: int)
    requires 1 <= n && 0 <= j < |Rings(n)| && m == j - |Rings(n - 1)|
    ensures m < 6 * n
    ensures m < 0 ==> Rings(n)[j] == Rings(n - 1)[j]
    ensures 0 <= m ==> Rings(n)[j] == RingPoint(n, m)
  {
    assert Rings(n) == Rings(n - 1) + Ring(n);
  }

  /** Coordinate j of Rings(n) lies within distance n, at exactly n when it belongs to ring n. */
  lemma {:induction false} RingsDistance(n: nat, j: int)
    requires 0 <= j < |Rings(n)|
    ensures Distance(Origin, Rings(n)[j]) <= n
    ensures 1 <= n && |Rings(n - 1)| <= j ==> Distance(Origin, Rings(n)[j]) == n
  {
    if n >= 1 {
      var m := j - |Rings(n - 1)|;
      RingsAt(n, j, m);
      if m < 0 {
        RingsDistance(n - 1, j);
      } else {
        RingPointDistance(n, m);
      }
    } else {
      RingsZero();
      assert Rings(n)[j] == Origin;
      DistanceToSelf(Origin);
    }
  }

  /** Along Rings(n) the distance from the origin never decreases. */
  lemma {:induction false} RingsOrdered(n: nat, i: int, j: int)
    requires 0 <= i <= j < |Rings(n)|
    ensures Distance(Origin, Rings(n)[i]) <= Distance(Origin, Rings(n)[j])
  {
    if n == 0 {
      RingsZero();
      assert i == j;
    } else if j < |Rings(n - 1)| {
      RingsAt(n, i, i - |Rings(n - 1)|);
      RingsAt(n, j, j - |Rings(n - 1)|);
      RingsOrdered(n - 1, i, j);
    } else {
      OuterRingFarthest(n, i, j);
    }
  }

  /** A coordinate of the outermost ring of Rings(n) lies at least as far out as any coordinate of Rings(n). */
  lemma OuterRingFarthest(n: nat, i: int, j: int)
    requires 1 <= n && 0 <= i < |Rings(n)| && |Rings(n - 1)| <= j < |Rings(n)|
    ensures Distance(Origin, Rings(n)[i]) <= Distance(Origin, Rings(n)[j])
  {
    RingsDistance(n, i);
    RingsDistance(n, j);
  }

  /** No coordinate occurs twice in Rings(n). */
  lemma {:induction false} RingsDistinct(n: nat, i: int, j: int)
    requires 0 <= i < j < |Rings(n)|
    ensures Rings(n)[i] != Rings(n)[j]
  {
    if n >= 1 {
      var pre := |Rings(n - 1)|;
      RingsAt(n, i, i - pre);
      RingsAt(n, j, j - pre);
      if j < pre {
        RingsDistinct(n - 1, i, j);
      } else if i < pre {
        RingsDistance(n - 1, i);
        RingsDistance(n, j);
      } else if Rings(n)[i] == Rings(n)[j] {
        RingPointInjective(n, i - pre, j - pre);
      }
    } else {
      RingsZero();
    }
  }

  /** makeHexSpiral(m) is a prefix of makeHexSpiral(n) for m <= n: region ids stay stable. */
  lemma SpiralPrefix(m: int, n: int)
    requires m <= n
    ensures Spiral(m) == Spiral(n)[..Max(m, 1)]
  {
    RingsPrefix(Max(m, 0), Max(n, 0));
  }

  /** Spiral index j inside the block of ring k lies at distance k from the origin. */
  lemma SpiralLayer(count: int, k: nat, j: int)
    requires 1 <= k && |Rings(k - 1)| <= j < |Rings(k)| && j < |Spiral(count)|
    ensures Distance(Origin, Spiral(count)[j]) == k
  {
    var m := Max(count, 0);
    assert k <= m;
    RingsPrefix(k, m);
    assert Spiral(count)[j] == Rings(k)[j];
    RingsDistance(k, j);
  }

  /** Coordinate i of a spiral is coordinate i of the rings it is cut from. */
  lemma SpiralAt(count: int, i: int)
    requires 0 <= i < |Spiral(count)|
    ensures i < |Rings(Max(count, 0))|
    ensures Spiral(count)[i] == Rings(Max(count, 0))[i]
  {
  }

  /** No coordinate repeats in a spiral: every region gets its own hex. */
  lemma SpiralDistinct(count: int)
    ensures forall i, j :: 0 <= i < j < |Spiral(count)| ==> Spiral(count)[i] != Spiral(count)[j]
  {
    forall i, j | 0 <= i < j < |Spiral(count)|
      ensures Spiral(count)[i] != Spiral(count)[j]
    {
      SpiralAt(count, i);
      SpiralAt(count, j);
      RingsDistinct(Max(count, 0), i, j);
    }
  }

  /** Along a spiral the distance from the origin never decreases. */
  lemma SpiralOrdered(count: int)
    ensures forall i, j :: 0 <= i <= j < |Spiral(count)| ==>
              Distance(Origin, Spiral(count)[i]) <= Distance(Origin, Spiral(count)[j])
  {
    forall i, j | 0 <= i <= j < |Spiral(count)|
      ensures Distance(Origin, Spiral(count)[i]) <= Distance(Origin, Spiral(count)[j])
    {
      SpiralAt(count, i);
      SpiralAt(count, j);
      RingsOrdered(Max(count, 0), i, j);
    }
  }
}
