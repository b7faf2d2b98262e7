/** Counting over sequences and bounded key sets: the arithmetic behind the semaphore,
    wait-group and conservation ledgers of the concurrent protocols, and what rearranging a
    sequence does and does not change. */
module Counting {

  /** The total weight of a sequence, e.g. how many workers hold a semaphore slot. */
  ghost function Sum<T>(xs: seq<T>, weight: T -> nat): nat {
    if xs == [] then 0 else Sum(xs[..|xs| - 1], weight) + weight(xs[|xs| - 1])
  }

  lemma SumAppend<T>(xs: seq<T>, x: T, weight: T -> nat)
    ensures Sum(xs + [x], weight) == Sum(xs, weight) + weight(x)
  {
    assert (xs + [x])[..|xs|] == xs;
  }

  lemma {:induction false} SumUpdate<T>(xs: seq<T>, i: nat, x: T, weight: T -> nat)
    requires i < |xs|
    ensures Sum(xs[i := x], weight) + weight(xs[i]) == Sum(xs, weight) + weight(x)
  {
    var last := |xs| - 1;
    if i == last {
      assert xs[i := x][..last] == xs[..last];
    } else {
      SumUpdate(xs[..last], i, x, weight);
      assert xs[i := x][..last] == xs[..last][i := x];
    }
  }

  /** A positive total has a contributor. */
  lemma {:induction false} SumPositive<T>(xs: seq<T>, weight: T -> nat) returns (i: nat)
    requires Sum(xs, weight) > 0
    ensures i < |xs| && weight(xs[i]) > 0
  {
    var last := |xs| - 1;
    if weight(xs[last]) > 0 {
      i := last;
    } else {
      i := SumPositive(xs[..last], weight);
    }
  }

  /** Any single element contributes at most the total. */
  lemma {:induction false} SumAtLeast<T>(xs: seq<T>, i: nat, weight: T -> nat)
    requires i < |xs|
    ensures weight(xs[i]) <= Sum(xs, weight)
  {
    if i < |xs| - 1 {
      SumAtLeast(xs[..|xs| - 1], i, weight);
    }
  }

  lemma SumZero<T>(xs: seq<T>, weight: T -> nat)
    requires Sum(xs, weight) == 0
    ensures forall i :: 0 <= i < |xs| ==> weight(xs[i]) == 0
  {
    forall i | 0 <= i < |xs| ensures weight(xs[i]) == 0 {
      SumAtLeast(xs, i, weight);
    }
  }

  /** Pointwise comparison carries over to totals. */
  lemma {:induction false} SumOfNone<T>(xs: seq<T>, weight: T -> nat)
    requires forall i :: 0 <= i < |xs| ==> weight(xs[i]) == 0
    ensures Sum(xs, weight) == 0
  {
    if xs != [] {
      SumOfNone(xs[..|xs| - 1], weight);
    }
  }

  lemma {:induction false} SumOfAll<T>(xs: seq<T>, weight: T -> nat)
    requires forall i :: 0 <= i < |xs| ==> weight(xs[i]) == 1
    ensures Sum(xs, weight) == |xs|
  {
    if xs != [] {
      SumOfAll(xs[..|xs| - 1], weight);
    }
  }

  lemma {:induction false} SumMonotone<T>(xs: seq<T>, low: T -> nat, high: T -> nat)
    requires forall i :: 0 <= i < |xs| ==> low(xs[i]) <= high(xs[i])
    ensures Sum(xs, low) <= Sum(xs, high)
  {
    if xs != [] {
      SumMonotone(xs[..|xs| - 1], low, high);
    }
  }

  /** A set of numbers drawn from [lo, hi) has at most hi - lo members. */
  lemma {:induction false} IntervalCard(s: set<nat>, lo: nat, hi: nat)
    requires lo <= hi
    requires forall k :: k in s ==> lo <= k < hi
    ensures |s| <= hi - lo
    decreases hi - lo
  {
    if lo == hi {
      assert s == {};
    } else {
      var rest := s - {hi - 1};
      IntervalCard(rest, lo, hi - 1);
      assert |s| <= |rest| + 1 by {
        if hi - 1 in s {
          assert s == rest + {hi - 1};
        } else {
          assert s == rest;
        }
      }
    }
  }

  // -------------------------------------------------------------------------- bags

  /** The union of what each element contributes. */
  ghost function Bag<T, E>(xs: seq<T>, of: T -> multiset<E>): multiset<E> {
    if xs == [] then multiset{} else Bag(xs[..|xs| - 1], of) + of(xs[|xs| - 1])
  }

  lemma BagAppend<T, E>(xs: seq<T>, x: T, of: T -> multiset<E>)
    ensures Bag(xs + [x], of) == Bag(xs, of) + of(x)
  {
    assert (xs + [x])[..|xs|] == xs;
  }

  lemma {:induction false} BagUpdate<T, E>(xs: seq<T>, i: nat, x: T, of: T -> multiset<E>)
    requires i < |xs|
    ensures Bag(xs[i := x], of) + of(xs[i]) == Bag(xs, of) + of(x)
  {
    var m := |xs| - 1;
    if i == m {
      assert xs[i := x][..m] == xs[..m];
    } else {
      BagUpdate(xs[..m], i, x, of);
      assert xs[i := x][..m] == xs[..m][i := x];
      var front, front' := Bag(xs[..m], of), Bag(xs[i := x][..m], of);
      assert (front' + of(xs[m])) + of(xs[i]) == (front' + of(xs[i])) + of(xs[m]);
    }
  }

  lemma {:induction false} BagMember<T, E>(xs: seq<T>, i: nat, of: T -> multiset<E>)
    requires i < |xs|
    ensures of(xs[i]) <= Bag(xs, of)
  {
    if i < |xs| - 1 {
      BagMember(xs[..|xs| - 1], i, of);
    }
  }

  /** What is in the bag was contributed by some element. */
  lemma {:induction false} BagSource<T, E>(xs: seq<T>, of: T -> multiset<E>, e: E) returns (i: nat)
    requires e in Bag(xs, of)
    ensures i < |xs| && e in of(xs[i])
  {
    var m := |xs| - 1;
    if e in of(xs[m]) {
      i := m;
    } else {
      i := BagSource(xs[..m], of, e);
    }
  }

  // ------------------------------------------------------------- rearrangements

  ghost function MapSeq<X>(xs: seq<nat>, f: nat -> X): (r: seq<X>)
    ensures |r| == |xs|
  {
    if xs == [] then [] else MapSeq(xs[..|xs| - 1], f) + [f(xs[|xs| - 1])]
  }

  ghost function Upto(n: nat): (r: seq<nat>)
    ensures |r| == n && forall i :: 0 <= i < n ==> r[i] == i
  {
    seq(n, i => i)
  }

  lemma {:induction false} MapSeqConcat<X>(a: seq<nat>, b: seq<nat>, f: nat -> X)
    ensures MapSeq(a + b, f) == MapSeq(a, f) + MapSeq(b, f)
  {
    if b == [] {
      assert a + b == a;
    } else {
      var m := |b| - 1;
      assert (a + b)[..|a| + m] == a + b[..m];
      MapSeqConcat(a, b[..m], f);
    }
  }

  ghost predicate NoRepeats(xs: seq<nat>) {
    forall i, j :: 0 <= i < j < |xs| ==> xs[i] != xs[j]
  }

  lemma {:induction false} ElementCount(xs: seq<nat>, s: set<nat>)
    requires NoRepeats(xs) && s == set i | i in xs
    ensures |s| == |xs|
  {
    if xs != [] {
      var m := |xs| - 1;
      var rest := set i | i in xs[..m];
      assert s == rest + {xs[m]};
      ElementCount(xs[..m], rest);
    }
  }

  /** The positions that hold x. */
  ghost function Positions<T>(xs: seq<T>, x: T): set<int> {
    set i | 0 <= i < |xs| && xs[i] == x
  }

  /** How often x occurs is how many positions hold it. */
  lemma {:induction false} OccursAtPositions<T>(xs: seq<T>, x: T)
    ensures multiset(xs)[x] == |Positions(xs, x)|
  {
    if xs != [] {
      var m := |xs| - 1;
      OccursAtPositions(xs[..m], x);
      assert xs == xs[..m] + [xs[m]];
      assert Positions(xs, x) == Positions(xs[..m], x) + (if xs[m] == x then {m} else {});
    } else {
      assert |Positions(xs, x)| == 0;
    }
  }

  /** The numbers below n that are neither in xs nor in ys. */
  ghost function Others(xs: seq<nat>, ys: set<nat>, n: nat): set<nat> {
    set i: nat | 0 <= i < n && i !in xs && i !in ys
  }

  lemma MissingCount(xs: seq<nat>, ys: set<nat>, n: nat)
    requires NoRepeats(xs) && (forall x :: x in xs ==> x < n && x !in ys) && forall y :: y in ys ==> y < n
    ensures |xs| + |ys| + |Others(xs, ys, n)| == n
  {
    var held := set i | i in xs;
    ElementCount(xs, held);
    var all := set i | i in Upto(n);
    ElementCount(Upto(n), all);
    forall i: nat | i < n ensures i in all {
      assert Upto(n)[i] == i;
    }
    assert all == held + ys + Others(xs, ys, n);
  }

  /** Taking one element out of a sequence without repeats leaves one without it. */
  lemma RemoveAt(xs: seq<nat>, p: nat)
    requires p < |xs| && NoRepeats(xs)
    ensures NoRepeats(xs[..p] + xs[p + 1..])
    ensures forall x :: x in xs[..p] + xs[p + 1..] ==> x in xs && x != xs[p]
  {
    var rest := xs[..p] + xs[p + 1..];
    assert forall i :: 0 <= i < |rest| ==> rest[i] == xs[if i < p then i else i + 1];
  }

  lemma MapSplit<X>(l: seq<nat>, x: nat, r: seq<nat>, f: nat -> X)
    ensures MapSeq(l + ([x] + r), f) == MapSeq(l, f) + ([f(x)] + MapSeq(r, f))
  {
    MapSeqConcat(l, [x] + r, f);
    MapSeqConcat([x], r, f);
    assert [x][..0] == [];
    assert MapSeq([x], f) == [f(x)];
  }

  lemma MiddleToBack<X>(a: seq<X>, y: X, b: seq<X>)
    ensures multiset(a + ([y] + b)) == multiset(a + b) + multiset{y}
  {
  }

  lemma SplitAround(xs: seq<nat>, p: nat)
    requires p < |xs|
    ensures xs == xs[..p] + ([xs[p]] + xs[p + 1..])
  {
  }

  /** Mapping commutes with moving one element to the back. */
  lemma MapMoveToBack<X>(xs: seq<nat>, p: nat, f: nat -> X)
    requires p < |xs|
    ensures multiset(MapSeq(xs, f)) == multiset(MapSeq(xs[..p] + xs[p + 1..], f)) + multiset{f(xs[p])}
  {
    var l, r := xs[..p], xs[p + 1..];
    SplitAround(xs, p);
    MapSplit(l, xs[p], r, f);
    MapSeqConcat(l, r, f);
    MiddleToBack(MapSeq(l, f), f(xs[p]), MapSeq(r, f));
  }

  lemma TopOccurs(xs: seq<nat>, top: nat)
    requires NoRepeats(xs) && |xs| == top + 1 && forall i :: i in xs ==> i <= top
    ensures top in xs
  {
    if top !in xs {
      var all := set i | i in xs;
      ElementCount(xs, all);
      IntervalCard(all, 0, top);
      assert false;
    }
  }

  lemma MapUptoStep<X>(n: nat, f: nat -> X)
    ensures multiset(MapSeq(Upto(n + 1), f)) == multiset(MapSeq(Upto(n), f)) + multiset{f(n)}
  {
    assert Upto(n + 1)[..n] == Upto(n);
    assert MapSeq(Upto(n + 1), f) == MapSeq(Upto(n), f) + [f(n)];
  }

  /** n distinct numbers below n are a rearrangement of 0..n-1, so mapping them
      gives the same multiset as mapping 0..n-1. */
  lemma {:induction false} Rearranged<X>(xs: seq<nat>, n: nat, f: nat -> X)
    requires NoRepeats(xs) && |xs| == n && forall i :: i in xs ==> i < n
    ensures multiset(MapSeq(xs, f)) == multiset(MapSeq(Upto(n), f))
  {
    if n > 0 {
      var top: nat := n - 1;
      TopOccurs(xs, top);
      var p :| 0 <= p < n && xs[p] == top;
      RemoveAt(xs, p);
      MapMoveToBack(xs, p, f);
      var rest := xs[..p] + xs[p + 1..];
      forall x | x in rest ensures x < top {
        assert x in xs && x != top;
      }
      Rearranged(rest, top, f);
      MapUptoStep(top, f);
    }
  }

  lemma {:induction false} IdentityMap(xs: seq<nat>)
    ensures MapSeq(xs, (i: nat) => i) == xs
  {
    if xs != [] {
      IdentityMap(xs[..|xs| - 1]);
    }
  }
}
