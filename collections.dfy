/**
 * Sequence operations the dashboard leans on: JavaScript's `Array.prototype.filter`
 * and `Array.prototype.find`, and `Array.from(new Set(xs))` (distinct values in
 * order of first appearance, since a JavaScript `Set` iterates in insertion order).
 */
module Collections {

  datatype Option<+T> = None | Some(value: T)

  /** `sub` is an order-preserving subsequence of `s`: `sub` is `s` with some elements dropped. */
  predicate IsSubsequence<T(==)>(sub: seq<T>, s: seq<T>)
  {
    if sub == [] then true
    else if s == [] then false
    else (sub[0] == s[0] && IsSubsequence(sub[1..], s[1..])) || IsSubsequence(sub, s[1..])
  }

  /** `xs.filter(p)` */
  function Filter<T>(p: T -> bool, s: seq<T>): seq<T>
  {
    if s == [] then [] else (if p(s[0]) then [s[0]] else []) + Filter(p, s[1..])
  }

  /** An element is kept exactly when it occurs in the input and passes the predicate. */
  lemma {:induction false} FilterMembership<T>(p: T -> bool, s: seq<T>, x: T)
    ensures x in Filter(p, s) <==> x in s && p(x)
  {
    if s != [] {
      FilterMembership(p, s[1..], x);
      assert s == [s[0]] + s[1..];
    }
  }

  /** Every passing element is kept as many times as it occurs; every failing one is dropped. */
  lemma {:induction false} FilterCounts<T>(p: T -> bool, s: seq<T>, x: T)
    ensures multiset(Filter(p, s))[x] == if p(x) then multiset(s)[x] else 0
  {
    if s != [] {
      FilterCounts(p, s[1..], x);
      assert s == [s[0]] + s[1..];
    }
  }

  /**
   * The filter's whole contract: what it keeps, what it drops, that it keeps
   * every copy of a passing element, and that it keeps the order.
   */
  lemma FilterSpec<T>(p: T -> bool, s: seq<T>)
    ensures forall x :: x in Filter(p, s) ==> x in s && p(x)
    ensures forall x :: x in s && p(x) ==> x in Filter(p, s)
    ensures forall x :: multiset(Filter(p, s))[x] == if p(x) then multiset(s)[x] else 0
    ensures IsSubsequence(Filter(p, s), s)
  {
    forall x ensures x in Filter(p, s) <==> x in s && p(x) {
      FilterMembership(p, s, x);
    }
    forall x ensures multiset(Filter(p, s))[x] == if p(x) then multiset(s)[x] else 0 {
      FilterCounts(p, s, x);
    }
    FilterIsSubsequence(p, s);
  }

  /** Everything the filter returns passes the predicate. */
  lemma {:induction false} FilterAllPass<T>(p: T -> bool, s: seq<T>)
    ensures forall k :: 0 <= k < |Filter(p, s)| ==> p(Filter(p, s)[k])
  {
    if s != [] {
      FilterAllPass(p, s[1..]);
    }
  }

  /** When every element passes, the filter returns its input unchanged. */
  lemma {:induction false} FilterKeepsAll<T>(p: T -> bool, s: seq<T>)
    requires forall k :: 0 <= k < |s| ==> p(s[k])
    ensures Filter(p, s) == s
  {
    if s != [] {
      FilterKeepsAll(p, s[1..]);
      assert s == [s[0]] + s[1..];
    }
  }

  /** The filter keeps its input's order: its result is a subsequence of the input. */
  lemma {:induction false} FilterIsSubsequence<T>(p: T -> bool, s: seq<T>)
    ensures IsSubsequence(Filter(p, s), s)
  {
    if s != [] {
      FilterIsSubsequence(p, s[1..]);
      if p(s[0]) {
        assert Filter(p, s) == [s[0]] + Filter(p, s[1..]);
      } else {
        var r := Filter(p, s[1..]);
        assert Filter(p, s) == r;
        if r != [] {
          assert IsSubsequence(r, s[1..]);
        }
      }
    }
  }

  /** Index of the first element of `s` that passes `p` (the search inside `xs.find(p)`). */
  function FindIndex<T>(p: T -> bool, s: seq<T>): (r: Option<nat>)
    ensures r.Some? ==> r.value < |s| && p(s[r.value])
    ensures r.Some? ==> forall k :: 0 <= k < r.value ==> !p(s[k])
    ensures r.None? <==> forall k :: 0 <= k < |s| ==> !p(s[k])
  {
    if s == [] then None
    else if p(s[0]) then Some(0)
    else match FindIndex(p, s[1..])
      case None => None
      case Some(i) => Some(i + 1)
  }

  /** `xs.find(p)`: the first element that passes `p`, or `undefined` (here `None`). */
  function Find<T>(p: T -> bool, s: seq<T>): (r: Option<T>)
    ensures r.Some? ==> r.value in s && p(r.value)
    ensures r.None? <==> forall x :: x in s ==> !p(x)
    ensures r.Some? ==> exists i :: 0 <= i < |s| && s[i] == r.value && forall k :: 0 <= k < i ==> !p(s[k])
  {
    match FindIndex(p, s)
    case None => None
    case Some(i) => Some(s[i])
  }

  /** No value occurs twice in `s`. */
  predicate NoDuplicates<T(==)>(s: seq<T>)
  {
    forall i, j :: 0 <= i < j < |s| ==> s[i] != s[j]
  }

  /** Position of the first occurrence of `x` in `s`. */
  function FirstIndexOf<T(==)>(s: seq<T>, x: T): (r: nat)
    requires x in s
    ensures r < |s| && s[r] == x && x !in s[..r]
  {
    if s[0] == x then 0 else FirstIndexOf(s[1..], x) + 1
  }

  /**
   * `Array.from(new Set(s))`: the values of `s`, each once, in order of first
   * appearance. Inserting into a `Set` scans `s` from the left and appends a value
   * only when it is not there yet; this function states the same scan from the right end.
   */
  function Distinct<T(==)>(s: seq<T>): seq<T>
  {
    if s == [] then []
    else
      var d := Distinct(s[..|s| - 1]);
      if s[|s| - 1] in d then d else d + [s[|s| - 1]]
  }

  /** `Distinct` lists each value of `s` exactly once and nothing else. */
  lemma {:induction false} DistinctContents<T>(s: seq<T>)
    ensures NoDuplicates(Distinct(s))
    ensures forall x :: x in Distinct(s) ==> x in s
    ensures forall x :: x in s ==> x in Distinct(s)
  {
    if s != [] {
      var init := s[..|s| - 1];
      DistinctContents(init);
      assert s == init + [s[|s| - 1]];
    }
  }

  /** `Distinct` lists values in the order in which they first appear in `s`. */
  lemma {:induction false} DistinctFirstSeenOrder<T>(s: seq<T>, i: nat, j: nat)
    requires i < j < |Distinct(s)|
    ensures Distinct(s)[i] in s && Distinct(s)[j] in s
    ensures FirstIndexOf(s, Distinct(s)[i]) < FirstIndexOf(s, Distinct(s)[j])
    decreases |s|, 1
  {
    assert s == s[..|s| - 1] + [s[|s| - 1]];
    DistinctFirstSeenOrderSnoc(s[..|s| - 1], s[|s| - 1], i, j);
  }

  lemma {:induction false} DistinctFirstSeenOrderSnoc<T>(init: seq<T>, last: T, i: nat, j: nat)
    requires i < j < |Distinct(init + [last])|
    ensures Distinct(init + [last])[i] in init + [last] && Distinct(init + [last])[j] in init + [last]
    ensures FirstIndexOf(init + [last], Distinct(init + [last])[i])
          < FirstIndexOf(init + [last], Distinct(init + [last])[j])
    decreases |init + [last]|, 0
  {
    var s := init + [last];
    assert s[..|s| - 1] == init;
    DistinctContents(s);
    DistinctContents(init);
    var d := Distinct(init);
    var a, b := Distinct(s)[i], Distinct(s)[j];
    if j < |d| {
      DistinctFirstSeenOrder(init, i, j);
      FirstIndexOfPrefix(init, last, a);
      FirstIndexOfPrefix(init, last, b);
    } else {
      // b is the new last element, seen for the first time at the end of s
      assert b == last && last !in d && last !in init;
      assert a == d[i] && d[i] in d;
      FirstIndexOfPrefix(init, last, a);
      FirstIndexOfLast(init, last);
    }
  }

  lemma {:induction false} FirstIndexOfPrefix<T>(init: seq<T>, last: T, x: T)
    requires x in init
    ensures x in init + [last] && FirstIndexOf(init + [last], x) == FirstIndexOf(init, x)
  {
    if init[0] != x {
      assert (init + [last])[1..] == init[1..] + [last];
      FirstIndexOfPrefix(init[1..], last, x);
    }
  }

  lemma {:induction false} FirstIndexOfLast<T>(init: seq<T>, last: T)
    requires last !in init
    ensures last in init + [last] && FirstIndexOf(init + [last], last) == |init|
  {
    if init != [] {
      assert (init + [last])[1..] == init[1..] + [last];
      FirstIndexOfLast(init[1..], last);
    }
  }
}
