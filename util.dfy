/** Small sequence helpers shared by every module: the Option type that stands
    for JavaScript's `undefined`/`null`, the first-match search behind
    `Array.prototype.find`, and the order-keeping `Array.prototype.filter`. */
module Util {

  datatype Option<+T> = None | Some(value: T) {
    function GetOr(default: T): T {
      match this
      case Some(v) => v
      case None => default
    }
  }

  /** Index of the first element satisfying `p`, as `find`/`findIndex` search. */
  function FindIndex<T>(s: seq<T>, p: T -> bool): (r: Option<nat>)
    ensures r.None? <==> forall k :: 0 <= k < |s| ==> !p(s[k])
    ensures r.Some? ==> r.value < |s| && p(s[r.value])
    ensures r.Some? ==> forall k :: 0 <= k < r.value ==> !p(s[k])
  {
    if s == [] then None
    else if p(s[0]) then Some(0)
    else match FindIndex(s[1..], p)
      case None => None
      case Some(i) => Some(i + 1)
  }

  /** Replacing an element by one that still satisfies `p`, or by one that
      does not while an earlier element does, leaves the first match where it
      was; updates that keep the key therefore always hit the same record. */
  lemma {:induction false} FindIndexAfterUpdate<T>(s: seq<T>, p: T -> bool, i: nat, x: T)
    requires i < |s|
    requires p(s[i]) == p(x)
    ensures FindIndex(s[i := x], p) == FindIndex(s, p)
  {
    var t := s[i := x];
    assert forall k :: 0 <= k < |s| ==> p(t[k]) == p(s[k]);
    match FindIndex(s, p)
    case None =>
    case Some(j) =>
      assert p(t[j]);
      assert forall k :: 0 <= k < j ==> !p(t[k]);
      match FindIndex(t, p)
      case None =>
      case Some(j') =>
        assert j' <= j;
        assert j <= j';
  }

  /** The elements of `s` that satisfy `keep`, in their original order. */
  function Filter<T(!new)>(s: seq<T>, keep: T -> bool): (r: seq<T>)
    ensures |r| <= |s|
    ensures forall x :: x in r <==> x in s && keep(x)
    ensures (forall k :: 0 <= k < |s| ==> keep(s[k])) ==> r == s
  {
    if s == [] then []
    else if keep(s[0]) then [s[0]] + Filter(s[1..], keep)
    else Filter(s[1..], keep)
  }

  /** Filtering a concatenation filters each part and keeps them in order:
      together with the single-element cases this says the filter is the
      original sequence with some elements dropped and none moved. */
  lemma {:induction false} FilterConcat<T(!new)>(a: seq<T>, b: seq<T>, keep: T -> bool)
    ensures Filter(a + b, keep) == Filter(a, keep) + Filter(b, keep)
  {
    if a == [] {
      assert a + b == b;
    } else {
      assert (a + b)[1..] == a[1..] + b;
      FilterConcat(a[1..], b, keep);
    }
  }

  /** `filter(...).length`. */
  function Count<T(!new)>(s: seq<T>, keep: T -> bool): (n: nat)
    ensures n <= |s|
  {
    |Filter(s, keep)|
  }

  /** The positions of `s` whose element passes `keep`. */
  ghost function Positions<T>(s: seq<T>, keep: T -> bool): set<int>
  {
    set k | 0 <= k < |s| && keep(s[k])
  }

  /** The positions of a non-empty list are those of all but its last
      element, plus the last position when its element passes. */
  lemma PositionsSnoc<T>(s: seq<T>, keep: T -> bool)
    requires s != []
    ensures Positions(s, keep) ==
            Positions(s[..|s| - 1], keep) + (if keep(s[|s| - 1]) then {|s| - 1} else {})
  {
    var init := s[..|s| - 1];
    assert forall k :: 0 <= k < |init| ==> s[k] == init[k];
  }

  /** The count is the number of positions whose element passes: a
      description that does not go through `Filter`. */
  lemma {:induction false} CountIsIndexSetSize<T(!new)>(s: seq<T>, keep: T -> bool)
    ensures Count(s, keep) == |Positions(s, keep)|
    decreases |s|
  {
    if s != [] {
      var init, x := s[..|s| - 1], s[|s| - 1];
      CountIsIndexSetSize(init, keep);
      assert s == init + [x];
      FilterConcat(init, [x], keep);
      PositionsSnoc(s, keep);
      assert |init| !in Positions(init, keep);
    }
  }

  /** Every element passes exactly when the count is the whole length. */
  lemma {:induction false} CountAll<T(!new)>(s: seq<T>, keep: T -> bool)
    ensures Count(s, keep) == |s| <==> forall k :: 0 <= k < |s| ==> keep(s[k])
  {
    if s != [] {
      CountAll(s[1..], keep);
      assert forall k :: 1 <= k < |s| ==> s[k] == s[1..][k - 1];
    }
  }

  /** Two conditions that never hold together select, between them, at most
      every element once. */
  lemma {:induction false} CountDisjoint<T(!new)>(s: seq<T>, p: T -> bool, q: T -> bool)
    requires forall x :: !(p(x) && q(x))
    ensures Count(s, p) + Count(s, q) <= |s|
  {
    if s != [] {
      CountDisjoint(s[1..], p, q);
    }
  }

  /** Replacing one element changes the count by what the old element
      contributed and what the new one does. */
  lemma {:induction false} CountUpdate<T(!new)>(s: seq<T>, i: nat, x: T, keep: T -> bool)
    requires i < |s|
    ensures Count(s[i := x], keep) ==
      Count(s, keep) - (if keep(s[i]) then 1 else 0) + (if keep(x) then 1 else 0)
    decreases |s|
  {
    var t := s[i := x];
    if i == 0 {
      assert t[1..] == s[1..];
    } else {
      assert t[1..] == s[1..][i - 1 := x];
      CountUpdate(s[1..], i - 1, x, keep);
    }
  }
}
