/**
 * Stable filtering of sequences, the shape of `Array.prototype.filter`, and
 * duplicate-freedom with the count of distinct values it implies.
 */
module Sequences {

  ghost predicate StrictlyIncreasing(idx: seq<nat>)
  {
    forall j, k :: 0 <= j < k < |idx| ==> idx[j] < idx[k]
  }

  /**
   * The indices `i` with `keep[i]`, in increasing order: the reference
   * description of what a stable filter keeps.
   */
  function Positions(keep: seq<bool>): (idx: seq<nat>)
    ensures StrictlyIncreasing(idx)
    ensures forall k :: 0 <= k < |idx| ==> idx[k] < |keep| && keep[idx[k]]
    ensures forall i :: 0 <= i < |keep| && keep[i] ==> i in idx
    decreases |keep|
  {
    if |keep| == 0 then []
    else
      var n := |keep| - 1;
      Positions(keep[..n]) + (if keep[n] then [n] else [])
  }

  /** The elements of `s` at the indices `idx`, in the order of `idx`. */
  function Select<T>(s: seq<T>, idx: seq<nat>): seq<T>
    requires forall k :: 0 <= k < |idx| ==> idx[k] < |s|
  {
    seq(|idx|, k requires 0 <= k < |idx| => s[idx[k]])
  }

  /** Keeps `s[i]` exactly when `keep[i]`, preserving order. */
  function Filter<T>(s: seq<T>, keep: seq<bool>): seq<T>
    requires |s| == |keep|
    decreases |s|
  {
    if |s| == 0 then []
    else
      var n := |s| - 1;
      Filter(s[..n], keep[..n]) + (if keep[n] then [s[n]] else [])
  }

  /** The filter keeps exactly the elements at `Positions(keep)`, in order. */
  lemma {:induction false} FilterIsSelect<T>(s: seq<T>, keep: seq<bool>)
    requires |s| == |keep|
    ensures Filter(s, keep) == Select(s, Positions(keep))
    decreases |s|
  {
    if |s| > 0 {
      var n := |s| - 1;
      FilterIsSelect(s[..n], keep[..n]);
      var p := Positions(keep[..n]);
      assert Positions(keep) == p + (if keep[n] then [n] else []);
      SelectSnoc(s, p, keep[n]);
    }
  }

  /** Selecting from positions below the last one, then possibly the last one, extends the selection from the prefix. */
  lemma SelectSnoc<T>(s: seq<T>, p: seq<nat>, b: bool)
    requires |s| > 0 && forall k :: 0 <= k < |p| ==> p[k] < |s| - 1
    ensures Select(s, p + (if b then [|s| - 1] else []))
            == Select(s[..|s| - 1], p) + (if b then [s[|s| - 1]] else [])
  {
  }

  /** There are never more kept indices than flags. */
  lemma {:induction false} PositionsLength(keep: seq<bool>)
    ensures |Positions(keep)| <= |keep|
    decreases |keep|
  {
    if |keep| > 0 {
      PositionsLength(keep[..|keep| - 1]);
    }
  }

  /** Every element a stable filter keeps comes from its input, and every kept input element is there. */
  lemma FilterMembers<T>(s: seq<T>, keep: seq<bool>)
    requires |s| == |keep|
    ensures forall x :: x in Filter(s, keep) ==> exists i :: 0 <= i < |s| && keep[i] && s[i] == x
    ensures forall i :: 0 <= i < |s| && keep[i] ==> s[i] in Filter(s, keep)
    ensures |Filter(s, keep)| <= |s|
  {
    FilterIsSelect(s, keep);
    var idx := Positions(keep);
    var r := Filter(s, keep);
    forall x | x in r
      ensures exists i :: 0 <= i < |s| && keep[i] && s[i] == x
    {
      var k :| 0 <= k < |r| && r[k] == x;
      assert s[idx[k]] == x;
    }
    forall i | 0 <= i < |s| && keep[i]
      ensures s[i] in r
    {
      var k :| 0 <= k < |idx| && idx[k] == i;
      assert r[k] == s[i];
    }
    PositionsLength(keep);
  }

  /** A stable filter over three elements, spelled out. */
  lemma FilterThree<T>(x0: T, x1: T, x2: T, b0: bool, b1: bool, b2: bool)
    ensures Filter([x0, x1, x2], [b0, b1, b2])
            == (if b0 then [x0] else []) + (if b1 then [x1] else []) + (if b2 then [x2] else [])
  {
    var s, k := [x0, x1, x2], [b0, b1, b2];
    assert s[..2] == [x0, x1] && k[..2] == [b0, b1];
    assert [x0, x1][..1] == [x0] && [b0, b1][..1] == [b0];
    assert [x0][..0] == [] && [b0][..0] == [];
    assert Filter([x0], [b0]) == (if b0 then [x0] else []);
    assert Filter([x0, x1], [b0, b1]) == (if b0 then [x0] else []) + (if b1 then [x1] else []);
  }

  /** No value occurs twice in `xs`. */
  ghost predicate NoDuplicates<T>(xs: seq<T>)
  {
    forall i, j :: 0 <= i < j < |xs| ==> xs[i] != xs[j]
  }

  /** The values `xs` holds. */
  function ElementsOf<T>(xs: seq<T>): set<T>
  {
    set i | 0 <= i < |xs| :: xs[i]
  }

  /** A sequence without duplicates has as many elements as distinct values. */
  lemma {:induction false} DistinctCount<T>(xs: seq<T>)
    requires NoDuplicates(xs)
    ensures |ElementsOf(xs)| == |xs|
    decreases |xs|
  {
    if |xs| > 0 {
      var n := |xs| - 1;
      DistinctCount(xs[..n]);
      assert ElementsOf(xs) == ElementsOf(xs[..n]) + {xs[n]};
      assert xs[n] !in ElementsOf(xs[..n]);
    }
  }
}
