/** Errors do not end a pull stream. */
module StreamErrors {
  // Every combinator distributes over a cut of its source at any point, items, errors and
  // EOFs alike, and carries over the cut only what the items before it made of its state.

  import opened Options
  import opened StreamSpec
  import opened StreamLaws

  lemma Uncons<T>(a: seq<Resp<T>>, b: seq<Resp<T>>)
    ensures a != [] ==> (a + b)[0] == a[0] && (a + b)[1..] == a[1..] + b
    ensures a == [] ==> a + b == b
  {
  }

  lemma ValuesUncons<T>(a: seq<Resp<T>>)
    ensures a == [] ==> ItemValues(a) == []
    ensures a != [] && a[0].Item? ==> ItemValues(a) == [a[0].v] + ItemValues(a[1..])
    ensures a != [] && a[0].Item? ==> ItemValues(a)[0] == a[0].v && ItemValues(a)[1..] == ItemValues(a[1..])
    ensures a != [] && !a[0].Item? ==> ItemValues(a) == ItemValues(a[1..])
  {
  }

  function Remaining(n: nat, m: nat): nat {
    if m <= n then n - m else 0
  }

  /** Filter keeps nothing but its predicate, and passes errors. */
  lemma {:induction false} FilterGoesOn<T>(a: seq<Resp<T>>, b: seq<Resp<T>>, p: T -> bool)
    ensures FilterR(a + b, p) == FilterR(a, p) + FilterR(b, p)
    ensures a != [] && !a[0].Item? ==> FilterR(a, p) == [a[0]] + FilterR(a[1..], p)
  {
    Uncons(a, b);
    if a != [] {
      FilterGoesOn(a[1..], b, p);
    }
  }

  /** Take counts the items it has given, not the errors; with none left to give it is done. */
  lemma {:induction false} TakeGoesOn<T>(a: seq<Resp<T>>, b: seq<Resp<T>>, n: nat)
    ensures TakeR(a + b, n) == TakeR(a, n) + TakeR(b, Remaining(n, |ItemValues(a)|))
    ensures a != [] && !a[0].Item? && n > 0 ==> TakeR(a, n) == [a[0]] + TakeR(a[1..], n)
    ensures TakeR(a, 0) == []
  {
    Uncons(a, b);
    if a != [] && n > 0 {
      TakeGoesOn(a[1..], b, if a[0].Item? then n - 1 else n);
    }
  }

  /** Skip counts the items it has skipped, not the errors; with none left to skip it passes
      everything. */
  lemma {:induction false} SkipGoesOn<T>(a: seq<Resp<T>>, b: seq<Resp<T>>, n: nat)
    ensures SkipR(a + b, n) == SkipR(a, n) + SkipR(b, Remaining(n, |ItemValues(a)|))
    ensures a != [] && !a[0].Item? ==> SkipR(a, n) == [a[0]] + SkipR(a[1..], n)
    ensures SkipR(a, 0) == a
  {
    Uncons(a, b);
    if a != [] {
      SkipGoesOn(a[1..], b, if a[0].Item? then Remaining(n, 1) else n);
    }
  }

  predicate AllAccepted<T>(a: seq<Resp<T>>, p: T -> bool) {
    forall i :: 0 <= i < |a| && a[i].Item? ==> p(a[i].v)
  }

  lemma AcceptedUncons<T>(a: seq<Resp<T>>, p: T -> bool)
    ensures a == [] ==> AllAccepted(a, p)
    ensures a != [] ==> (AllAccepted(a, p) <==> (a[0].Item? ==> p(a[0].v)) && AllAccepted(a[1..], p))
  {
    assert forall i :: 1 <= i < |a| ==> a[i] == a[1..][i - 1];
  }

  /** DropWhile stops dropping at the first item that fails its predicate, and at no error. */
  lemma {:induction false} DropWhileGoesOn<T>(a: seq<Resp<T>>, b: seq<Resp<T>>, p: T -> bool, dropping: bool)
    ensures DropWhileR(a + b, p, dropping) == DropWhileR(a, p, dropping) + DropWhileR(b, p, dropping && AllAccepted(a, p))
    ensures a != [] && !a[0].Item? ==> DropWhileR(a, p, dropping) == [a[0]] + DropWhileR(a[1..], p, dropping)
    ensures DropWhileR(a, p, false) == a
  {
    Uncons(a, b);
    AcceptedUncons(a, p);
    if a != [] {
      DropWhileGoesOn(a[1..], b, p, dropping && (a[0].Item? ==> p(a[0].v)));
    }
  }

  /** Scan keeps its accumulator over an error. */
  lemma {:induction false} ScanGoesOn<T>(a: seq<Resp<T>>, b: seq<Resp<T>>, acc: T, f: (T, T) -> T)
    ensures ScanR(a + b, acc, f) == ScanR(a, acc, f) + ScanR(b, Fold(ItemValues(a), acc, f), f)
    ensures a != [] && !a[0].Item? ==> ScanR(a, acc, f) == [a[0]] + ScanR(a[1..], acc, f)
  {
    Uncons(a, b);
    ValuesUncons(a);
    if a != [] {
      ScanGoesOn(a[1..], b, if a[0].Item? then f(acc, a[0].v) else acc, f);
    }
  }

  lemma SeenUncons<T>(a: seq<Resp<T>>, seen: set<T>)
    ensures a == [] ==> seen + (set x | x in ItemValues(a)) == seen
    ensures a != [] ==>
      seen + (set x | x in ItemValues(a)) ==
        (if a[0].Item? then seen + {a[0].v} else seen) + set x | x in ItemValues(a[1..])
  {
    ValuesUncons(a);
  }

  /** Distinct remembers over an error what it has seen. */
  lemma {:induction false} DistinctGoesOn<T>(a: seq<Resp<T>>, b: seq<Resp<T>>, seen: set<T>)
    ensures DistinctR(a + b, seen) == DistinctR(a, seen) + DistinctR(b, seen + set x | x in ItemValues(a))
    ensures a != [] && !a[0].Item? ==> DistinctR(a, seen) == [a[0]] + DistinctR(a[1..], seen)
  {
    Uncons(a, b);
    SeenUncons(a, seen);
    if a != [] {
      var seen' := if a[0].Item? then seen + {a[0].v} else seen;
      DistinctGoesOn(a[1..], b, seen');
      assert a[0].Item? && a[0].v in seen ==> seen' == seen;
    }
  }

  /** FlatMap is through with a sub-stream at its first EOF, whatever would come behind it,
      but stays in one that fails; an error of its source costs no sub-stream. */
  lemma {:induction false} FlatGoesOn<T>(a: seq<Resp<T>>, b: seq<Resp<T>>, sub: T -> Option<seq<Resp<T>>>,
                                         cur: Option<seq<Resp<T>>>)
    ensures FlatR(a + b, sub, cur) == FlatR(a, sub, cur) + FlatR(b, sub, None)
    ensures cur.None? && a != [] ==>
      FlatR(a, sub, cur) == if a[0].Item? then FlatR(a[1..], sub, sub(a[0].v)) else [a[0]] + FlatR(a[1..], sub, None)
    ensures cur.Some? ==>
      FlatR(a, sub, cur) ==
        if Head(cur.value).Eof? then FlatR(a, sub, None)
        else [cur.value[0]] + FlatR(a, sub, Some(cur.value[1..]))
    decreases |a|, if cur.Some? then 1 + |cur.value| else 0
  {
    Uncons(a, b);
    match cur
    case Some(c) =>
      if Head(c).Eof? {
        FlatGoesOn(a, b, sub, None);
      } else {
        FlatGoesOn(a, b, sub, Some(c[1..]));
      }
    case None =>
      if a != [] {
        FlatGoesOn(a[1..], b, sub, if a[0].Item? then sub(a[0].v) else None);
      }
  }

  /** The second stream after m reads. */
  function Past<T>(b: seq<Resp<T>>, m: nat): seq<Resp<T>> {
    if m <= |b| then b[m..] else []
  }

  lemma ZipUncons<T>(a: seq<Resp<T>>, b: seq<Resp<T>>, pair: (T, T) -> T)
    ensures a == [] ==> ZipR(a, b, pair) == []
    ensures a != [] && !a[0].Item? ==> ZipR(a, b, pair) == [a[0]] + ZipR(a[1..], b, pair)
    ensures a != [] && a[0].Item? ==>
      ZipR(a, b, pair) ==
        [if Head(b).Item? then Item(pair(a[0].v, Head(b).v)) else Head(b)] + ZipR(a[1..], Past(b, 1), pair)
  {
    assert Tail(b) == Past(b, 1);
  }

  /** What is left of the second stream once the first has been read. */
  function LeftOfSecond<T>(a: seq<Resp<T>>, b: seq<Resp<T>>): seq<Resp<T>>
    decreases |a|
  {
    if a == [] then b else LeftOfSecond(a[1..], if a[0].Item? then Tail(b) else b)
  }

  lemma {:induction false} OneReadForEachItem<T>(a: seq<Resp<T>>, b: seq<Resp<T>>)
    ensures LeftOfSecond(a, b) == Past(b, |ItemValues(a)|)
    decreases |a|
  {
    ValuesUncons(a);
    if a != [] {
      OneReadForEachItem(a[1..], if a[0].Item? then Tail(b) else b);
    }
  }

  lemma {:induction false} ZipOfConcat<T>(a: seq<Resp<T>>, a': seq<Resp<T>>, b: seq<Resp<T>>, pair: (T, T) -> T)
    ensures ZipR(a + a', b, pair) == ZipR(a, b, pair) + ZipR(a', LeftOfSecond(a, b), pair)
    decreases |a|
  {
    Uncons(a, a');
    if a != [] {
      ZipOfConcat(a[1..], a', if a[0].Item? then Tail(b) else b, pair);
    }
  }

  /** Zip reads its second stream once for every item of the first and for nothing else: an
      error of the first costs nothing of the second, one of the second costs that item. */
  lemma ZipGoesOn<T>(a: seq<Resp<T>>, a': seq<Resp<T>>, b: seq<Resp<T>>, pair: (T, T) -> T)
    ensures ZipR(a + a', b, pair) == ZipR(a, b, pair) + ZipR(a', Past(b, |ItemValues(a)|), pair)
    ensures a != [] && !a[0].Item? ==> ZipR(a, b, pair) == [a[0]] + ZipR(a[1..], b, pair)
    ensures a != [] && a[0].Item? && !Head(b).Item? ==> ZipR(a, b, pair) == [Head(b)] + ZipR(a[1..], Past(b, 1), pair)
  {
    ZipOfConcat(a, a', b, pair);
    OneReadForEachItem(a, b);
    ZipUncons(a, b, pair);
  }
}
