/** The custom filter operators in their plain-Python mode. */
module Operators {
  import opened Results

  /** `do_nothing`: returns `None` whatever it is given. */
  function DoNothing<T>(args: seq<T>): (r: Option<()>)
    ensures r.None?
  {
    None
  }

  /** `return_value`: the identity. */
  function ReturnValue<T>(value: T): (r: T)
    ensures r == value
  {
    value
  }

  /** `between`: inclusive range test against a two-element bound sequence;
      any other number of bounds gives `False`. */
  function Between(a: int, b: seq<int>): (r: bool)
    ensures |b| != 2 ==> !r
    ensures |b| == 2 ==> (r <==> b[0] <= a && a <= b[1])
  {
    if |b| != 2 then false else b[0] <= a <= b[1]
  }

  /** `contains`: membership in the sequence. */
  function Contains<T(==)>(a: T, b: seq<T>): (r: bool)
    ensures r <==> exists i :: 0 <= i < |b| && b[i] == a
  {
    a in b
  }

  /** Both end points of a range are inside it. */
  lemma BetweenIsInclusive(lo: int, hi: int)
    requires lo <= hi
    ensures Between(lo, [lo, hi]) && Between(hi, [lo, hi])
    ensures !Between(lo - 1, [lo, hi]) && !Between(hi + 1, [lo, hi])
  {
  }

  /** An empty range (`lo > hi`) holds nothing. */
  lemma BetweenEmptyRange(a: int, lo: int, hi: int)
    requires lo > hi
    ensures !Between(a, [lo, hi])
  {
  }

  /** The integers from `lo` to `hi` inclusive, in increasing order; empty when `lo > hi`. */
  function Range(lo: int, hi: int): (r: seq<int>)
    ensures |r| == if lo <= hi then hi - lo + 1 else 0
    ensures forall i :: 0 <= i < |r| ==> r[i] == lo + i
  {
    seq(if lo <= hi then hi - lo + 1 else 0, i => lo + i)
  }

  /** `between` with bounds `[lo, hi]` is `contains` on every integer of the range. */
  lemma BetweenIsContainsOnRange(a: int, lo: int, hi: int)
    ensures Between(a, [lo, hi]) <==> Contains(a, Range(lo, hi))
  {
    var r := Range(lo, hi);
    if Between(a, [lo, hi]) {
      assert r[a - lo] == a;
    }
  }
}
