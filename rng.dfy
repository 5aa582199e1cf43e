/**
 * The game's seeded random source, seen from the outside.
 *
 * The generator itself (a 32-bit hash of a composite key string feeding a
 * mulberry32 stream) is not part of this model.  What the game relies on is
 * only that a stream yields draws in [0, 1) and that the same key always
 * yields the same stream.  A stream is therefore an explicit sequence of
 * draws; a value computed from a stream is returned together with the draws
 * that are left, and a stream that runs out yields `None`.
 */
module Rng {

  /** One draw of the generator: a real number in [0, 1). */
  type Unit = x: real | 0.0 <= x < 1.0

  datatype Option<+T> = None | Some(value: T) {
    predicate IsFailure() { None? }

    function PropagateFailure<U>(): Option<U>
      requires None?
    {
      None
    }

    function Extract(): T
      requires Some?
    {
      value
    }
  }

  /** A value drawn from a stream, and the part of the stream not consumed. */
  datatype Drawn<+T> = Drawn(value: T, rest: seq<Unit>)

  function Min(a: int, b: int): int { if a <= b then a else b }

  function Max(a: int, b: int): int { if a <= b then b else a }

  /** `rng()`: the next draw. */
  function Next(s: seq<Unit>): (r: Option<Drawn<Unit>>)
    ensures r.Some? <==> |s| > 0
    ensures r.Some? ==> [r.value.value] + r.value.rest == s
  {
    if |s| == 0 then None else Some(Drawn(s[0], s[1..]))
  }

  lemma ScaleBelow(u: Unit, n: int)
    requires n >= 1
    ensures 0.0 <= u * n as real < n as real
  {
    assert (1.0 - u) * n as real > 0.0;
  }

  /** `intInRange(rng, lo, hi)`: floor(u * (hi - lo + 1)) + lo, inclusive bounds. */
  function IntInRange(u: Unit, lo: int, hi: int): (x: int)
    requires lo <= hi
    ensures lo <= x <= hi
  {
    ScaleBelow(u, hi - lo + 1);
    (u * (hi - lo + 1) as real).Floor + lo
  }

  /** The index `pick` chooses in a list of `n` elements: floor(u * n). */
  function PickIndex(u: Unit, n: int): (k: nat)
    requires n >= 1
    ensures k < n
  {
    ScaleBelow(u, n);
    (u * n as real).Floor
  }

  /** Draws one integer in [lo, hi]. */
  function DrawInt(s: seq<Unit>, lo: int, hi: int): (r: Option<Drawn<int>>)
    requires lo <= hi
    ensures r.Some? <==> |s| > 0
    ensures r.Some? ==> lo <= r.value.value <= hi && r.value.rest == s[1..]
  {
    var u :- Next(s);
    Some(Drawn(IntInRange(u.value, lo, hi), u.rest))
  }

  /** `pick(rng, xs)`: one element of a non-empty list. */
  function DrawPick<T>(s: seq<Unit>, xs: seq<T>): (r: Option<Drawn<T>>)
    requires |xs| > 0
    ensures r.Some? <==> |s| > 0
    ensures r.Some? ==> r.value.value in xs && r.value.rest == s[1..]
  {
    var u :- Next(s);
    Some(Drawn(xs[PickIndex(u.value, |xs|)], u.rest))
  }

  /** A stream that supplies a computation supplies it with anything appended. */
  lemma NextExtends(s: seq<Unit>, t: seq<Unit>)
    requires |s| > 0
    ensures Next(s + t) == Some(Drawn(s[0], s[1..] + t))
  {
    assert (s + t)[1..] == s[1..] + t;
  }
}
