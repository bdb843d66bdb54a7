/** Sequence helpers shared by the keyboard builders and the name lookups. */
module Lists {
  import opened Wrappers

  /** The concatenation of all rows, in order. */
  function Flatten<T>(rows: seq<seq<T>>): seq<T>
  {
    if rows == [] then [] else Flatten(rows[..|rows| - 1]) + rows[|rows| - 1]
  }

  /** Rows of two items each, except a final one-item row when `n` is odd. */
  ghost predicate PairedRows<T>(rows: seq<seq<T>>, n: nat)
  {
    && |rows| == (n + 1) / 2
    && forall k :: 0 <= k < |rows| ==> |rows[k]| == (if k == |rows| - 1 && n % 2 == 1 then 1 else 2)
  }

  /**
   * The keyboard loop: walk the items two at a time, emitting a pair per
   * step, and finish with a single-item row when one item is left over.
   */
  method PairUp<T>(items: seq<T>) returns (rows: seq<seq<T>>)
    ensures Flatten(rows) == items
    ensures PairedRows(rows, |items|)
  {
    rows := [];
    var i := 0;
    while i < |items| - 1
      invariant 0 <= i <= |items|
      invariant i % 2 == 0
      invariant |rows| == i / 2
      invariant forall k :: 0 <= k < |rows| ==> |rows[k]| == 2
      invariant Flatten(rows) == items[..i]
    {
      assert (rows + [[items[i], items[i + 1]]])[..|rows|] == rows;
      assert items[..i + 2] == items[..i] + [items[i], items[i + 1]];
      rows := rows + [[items[i], items[i + 1]]];
      i := i + 2;
    }
    if |items| - i == 1 {
      assert (rows + [[items[i]]])[..|rows|] == rows;
      assert items[..i + 1] == items[..i] + [items[i]];
      rows := rows + [[items[i]]];
    } else {
      assert i == |items|;
    }
    assert items[..|items|] == items;
  }

  /** Python's `list(map(f, s))`: `f` applied to every element, in order. */
  function Map<T, U>(s: seq<T>, f: T -> U): (r: seq<U>)
    ensures |r| == |s| && forall k :: 0 <= k < |s| ==> r[k] == f(s[k])
  {
    seq(|s|, k requires 0 <= k < |s| => f(s[k]))
  }

  /** The index of the first element satisfying `p`, if any. */
  function FirstIndex<T>(s: seq<T>, p: T -> bool): (r: Option<nat>)
    ensures r.Some? ==> r.value < |s| && p(s[r.value]) && forall j :: 0 <= j < r.value ==> !p(s[j])
    ensures r.None? ==> forall j :: 0 <= j < |s| ==> !p(s[j])
  {
    if s == [] then None
    else if p(s[0]) then Some(0)
    else match FirstIndex(s[1..], p)
      case None => None
      case Some(k) => Some(k + 1)
  }

  /** The first element satisfying `p` (Python's `next(filter(p, s), None)`). */
  function FirstWhere<T>(s: seq<T>, p: T -> bool): (r: Option<T>)
    ensures r.None? <==> forall j :: 0 <= j < |s| ==> !p(s[j])
    ensures r.Some? ==> FirstIndex(s, p).Some? && r.value == s[FirstIndex(s, p).value]
  {
    match FirstIndex(s, p)
    case None => None
    case Some(k) => Some(s[k])
  }
}
