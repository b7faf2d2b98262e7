/** The laws of the combinators. */
module StreamLaws {
  // Chains mean compositions of plain list functions; which combinators keep an end of
  // stream final; what Batch makes of its source.

  import opened Options
  import opened StreamSpec

  // ------------------------------------------------- each combinator means a list function

  lemma {:induction false} FilterMeans<T>(rs: seq<Resp<T>>, p: T -> bool)
    ensures Cut(FilterR(rs, p)) == Outcome(Filter(Cut(rs).items, p), Cut(rs).end)
  {
    if Head(rs).Item? {
      FilterMeans(rs[1..], p);
      assert Cut(rs).items == [rs[0].v] + Cut(rs[1..]).items;
    }
  }

  lemma {:induction false} TakeMeans<T>(rs: seq<Resp<T>>, n: nat)
    ensures Cut(TakeR(rs, n)) ==
      if n <= |Cut(rs).items| then Outcome(Cut(rs).items[..n], Eof) else Cut(rs)
  {
    if Head(rs).Item? && n > 0 {
      TakeMeans(rs[1..], n - 1);
      assert Cut(rs).items == [rs[0].v] + Cut(rs[1..]).items;
    }
  }

  lemma {:induction false} SkipMeans<T>(rs: seq<Resp<T>>, n: nat)
    ensures Cut(SkipR(rs, n)) ==
      Outcome(if n <= |Cut(rs).items| then Cut(rs).items[n..] else [], Cut(rs).end)
  {
    if Head(rs).Item? && n > 0 {
      SkipMeans(rs[1..], n - 1);
      assert Cut(rs).items == [rs[0].v] + Cut(rs[1..]).items;
    }
  }

  lemma {:induction false} MapMeans<T>(rs: seq<Resp<T>>, f: T -> Resp<T>)
    ensures Cut(MapR(rs, f)) == MapUntil(Cut(rs).items, f, Cut(rs).end)
  {
    if Head(rs).Item? {
      MapMeans(rs[1..], f);
      assert Cut(rs).items[1..] == Cut(rs[1..]).items;
    }
  }

  lemma {:induction false} TakeWhileMeans<T>(rs: seq<Resp<T>>, p: T -> bool)
    ensures var k := PrefixWhile(Cut(rs).items, p);
      Cut(TakeWhileR(rs, p)) ==
        Outcome(Cut(rs).items[..k], if k < |Cut(rs).items| then Eof else Cut(rs).end)
  {
    if Head(rs).Item? {
      TakeWhileMeans(rs[1..], p);
      assert Cut(rs).items[1..] == Cut(rs[1..]).items;
      if p(rs[0].v) {
        var k := PrefixWhile(Cut(rs[1..]).items, p);
        assert Cut(rs).items[..k + 1] == [rs[0].v] + Cut(rs[1..]).items[..k];
      }
    }
  }

  lemma {:induction false} DropWhileMeans<T>(rs: seq<Resp<T>>, p: T -> bool, dropping: bool)
    ensures var k := if dropping then PrefixWhile(Cut(rs).items, p) else 0;
      Cut(DropWhileR(rs, p, dropping)) == Outcome(Cut(rs).items[k..], Cut(rs).end)
  {
    if Head(rs).Item? {
      var more := dropping && p(rs[0].v);
      DropWhileMeans(rs[1..], p, more);
      assert Cut(rs).items[1..] == Cut(rs[1..]).items;
      if more {
        var k := PrefixWhile(Cut(rs[1..]).items, p);
        assert Cut(rs).items[k + 1..] == Cut(rs[1..]).items[k..];
      }
    }
  }

  lemma {:induction false} ScanMeans<T>(rs: seq<Resp<T>>, acc: T, f: (T, T) -> T)
    ensures Cut(ScanR(rs, acc, f)) == Outcome(Scanl(Cut(rs).items, acc, f), Cut(rs).end)
  {
    if Head(rs).Item? {
      ScanMeans(rs[1..], f(acc, rs[0].v), f);
      assert Cut(rs).items[1..] == Cut(rs[1..]).items;
    }
  }

  lemma {:induction false} DistinctMeans<T>(rs: seq<Resp<T>>, seen: set<T>)
    ensures Cut(DistinctR(rs, seen)) == Outcome(Dedupe(Cut(rs).items, seen), Cut(rs).end)
  {
    if Head(rs).Item? {
      DistinctMeans(rs[1..], if rs[0].v in seen then seen else seen + {rs[0].v});
      assert Cut(rs).items[1..] == Cut(rs[1..]).items;
    }
  }

  /** What the current sub-stream contributes before the source is consulted again. */
  lemma {:induction false} FlatCurrentMeans<T>(rs: seq<Resp<T>>, sub: T -> Option<seq<Resp<T>>>, c: seq<Resp<T>>)
    ensures Cut(FlatR(rs, sub, Some(c))) ==
      if Cut(c).end.Eof?
      then Outcome(Cut(c).items + Cut(FlatR(rs, sub, None)).items, Cut(FlatR(rs, sub, None)).end)
      else Cut(c)
    decreases |c|
  {
    if Head(c).Item? {
      FlatCurrentMeans(rs, sub, c[1..]);
      var out := FlatR(rs, sub, Some(c));
      assert out == [c[0]] + FlatR(rs, sub, Some(c[1..]));
      assert out[1..] == FlatR(rs, sub, Some(c[1..]));
      if Cut(c).end.Eof? {
        assert Cut(c).items + Cut(FlatR(rs, sub, None)).items
            == [c[0].v] + (Cut(c[1..]).items + Cut(FlatR(rs, sub, None)).items);
      }
    } else if Head(c).Fail? {
      assert FlatR(rs, sub, Some(c))[0] == c[0];
    }
  }

  lemma {:induction false} FlatMeans<T>(rs: seq<Resp<T>>, sub: T -> Option<seq<Resp<T>>>)
    ensures Cut(FlatR(rs, sub, None)) == FlatUntil(Cut(rs).items, sub, Cut(rs).end)
    decreases |rs|
  {
    if Head(rs).Item? {
      FlatMeans(rs[1..], sub);
      assert Cut(rs).items[1..] == Cut(rs[1..]).items;
      if sub(rs[0].v).Some? {
        FlatCurrentMeans(rs[1..], sub, sub(rs[0].v).value);
      }
    }
  }

  lemma {:induction false} ZipMeans<T>(a: seq<Resp<T>>, b: seq<Resp<T>>, pair: (T, T) -> T)
    ensures Cut(ZipR(a, b, pair)) ==
      Outcome(ZipWith(Cut(a).items, Cut(b).items, pair),
              if |Cut(a).items| <= |Cut(b).items| then Cut(a).end else Cut(b).end)
    decreases |a|
  {
    if Head(a).Item? && Head(b).Item? {
      ZipMeans(a[1..], b[1..], pair);
      assert Cut(a).items[1..] == Cut(a[1..]).items;
      assert Cut(b).items[1..] == Cut(b[1..]).items;
    }
  }

  // --------------------------------------------------------------------- whole chains

  datatype Stage<!T> =
    | Filtering(p: T -> bool)
    | Taking(n: nat)
    | Skipping(n: nat)
    | Mapping(f: T -> Resp<T>)
    | TakingWhile(p: T -> bool)
    | DroppingWhile(p: T -> bool)
    | Scanning(init: T, g: (T, T) -> T)
    | Deduping
    | FlatMapping(sub: T -> Option<seq<Resp<T>>>)
    | ZippingWith(other: seq<Resp<T>>, pair: (T, T) -> T)

  /** The response stream a stage builds over its source. */
  function Stream<T(==)>(st: Stage<T>, rs: seq<Resp<T>>): seq<Resp<T>> {
    match st
    case Filtering(p) => FilterR(rs, p)
    case Taking(n) => TakeR(rs, n)
    case Skipping(n) => SkipR(rs, n)
    case Mapping(f) => MapR(rs, f)
    case TakingWhile(p) => TakeWhileR(rs, p)
    case DroppingWhile(p) => DropWhileR(rs, p, true)
    case Scanning(init, g) => ScanR(rs, init, g)
    case Deduping => DistinctR(rs, {})
    case FlatMapping(sub) => FlatR(rs, sub, None)
    case ZippingWith(other, pair) => ZipR(rs, other, pair)
  }

  /** The plain list function of a stage, with the way its input list ended. */
  function ListOf<T(==)>(st: Stage<T>, o: Outcome<T>): Outcome<T> {
    var xs := o.items;
    match st
    case Filtering(p) => Outcome(Filter(xs, p), o.end)
    case Taking(n) => if n <= |xs| then Outcome(xs[..n], Eof) else o
    case Skipping(n) => Outcome(if n <= |xs| then xs[n..] else [], o.end)
    case Mapping(f) => MapUntil(xs, f, o.end)
    case TakingWhile(p) =>
      var k := PrefixWhile(xs, p);
      Outcome(xs[..k], if k < |xs| then Eof else o.end)
    case DroppingWhile(p) => Outcome(xs[PrefixWhile(xs, p)..], o.end)
    case Scanning(init, g) => Outcome(Scanl(xs, init, g), o.end)
    case Deduping => Outcome(Dedupe(xs, {}), o.end)
    case FlatMapping(sub) => FlatUntil(xs, sub, o.end)
    case ZippingWith(other, pair) =>
      Outcome(ZipWith(xs, Cut(other).items, pair),
              if |xs| <= |Cut(other).items| then o.end else Cut(other).end)
  }

  /** The stages that only let items through or hold them back. */
  lemma SelectionMeans<T>(st: Stage<T>, rs: seq<Resp<T>>)
    requires st.Filtering? || st.Taking? || st.Skipping? || st.TakingWhile? || st.DroppingWhile?
    ensures Cut(Stream(st, rs)) == ListOf(st, Cut(rs))
  {
    match st
    case Filtering(p) => FilterMeans(rs, p);
    case Taking(n) => TakeMeans(rs, n);
    case Skipping(n) => SkipMeans(rs, n);
    case TakingWhile(p) => TakeWhileMeans(rs, p);
    case DroppingWhile(p) => DropWhileMeans(rs, p, true);
  }

  lemma StageMeans<T>(st: Stage<T>, rs: seq<Resp<T>>)
    ensures Cut(Stream(st, rs)) == ListOf(st, Cut(rs))
  {
    match st
    case Mapping(f) => MapMeans(rs, f);
    case Scanning(init, g) => ScanMeans(rs, init, g);
    case Deduping => DistinctMeans(rs, {});
    case FlatMapping(sub) => FlatMeans(rs, sub);
    case ZippingWith(other, pair) => ZipMeans(rs, other, pair);
    case _ => SelectionMeans(st, rs);
  }

  function Chain<T(==)>(stages: seq<Stage<T>>, rs: seq<Resp<T>>): seq<Resp<T>> {
    if stages == [] then rs else Chain(stages[1..], Stream(stages[0], rs))
  }

  function ListChain<T(==)>(stages: seq<Stage<T>>, o: Outcome<T>): Outcome<T> {
    if stages == [] then o else ListChain(stages[1..], ListOf(stages[0], o))
  }

  /** Any chain of combinators, collected, is the composition of the list functions:
      the same items before the first error, and the same error. */
  lemma {:induction false} ChainMeans<T>(stages: seq<Stage<T>>, rs: seq<Resp<T>>)
    ensures Cut(Chain(stages, rs)) == ListChain(stages, Cut(rs))
    decreases |stages|
  {
    if stages != [] {
      StageMeans(stages[0], rs);
      ChainMeans(stages[1..], Stream(stages[0], rs));
    }
  }

  /** The last running value of Scan is what Reduce computes. */
  lemma ScanEndsInReduce<T>(rs: seq<Resp<T>>, init: T, f: (T, T) -> T)
    requires Cut(rs).items != []
    ensures var ys := Cut(ScanR(rs, init, f)).items;
      ys != [] && ys[|ys| - 1] == Fold(Cut(rs).items, init, f)
  {
    ScanMeans(rs, init, f);
    var xs := Cut(rs).items;
    assert xs[..|xs|] == xs;
  }

  // -------------------------------------------------------------------- final EOF

  /** Once EOF, always EOF. */
  ghost predicate Absorbing<T>(rs: seq<Resp<T>>) {
    forall i, j :: 0 <= i < j < |rs| && rs[i].Eof? ==> rs[j].Eof?
  }

  ghost predicate Ended<T>(rs: seq<Resp<T>>) {
    forall i :: 0 <= i < |rs| ==> rs[i].Eof?
  }

  lemma AbsorbingTail<T>(rs: seq<Resp<T>>)
    requires Absorbing(rs) && rs != []
    ensures Absorbing(rs[1..]) && (rs[0].Eof? ==> Ended(rs[1..]))
  {
  }

  lemma AbsorbingCons<T>(r: Resp<T>, rs: seq<Resp<T>>)
    requires Absorbing(rs) && (r.Eof? ==> Ended(rs))
    ensures Absorbing([r] + rs)
  {
  }

  lemma {:induction false} FilterAbsorbs<T>(rs: seq<Resp<T>>, p: T -> bool)
    requires Absorbing(rs)
    ensures Absorbing(FilterR(rs, p)) && (Ended(rs) ==> Ended(FilterR(rs, p)))
  {
    if rs != [] {
      AbsorbingTail(rs);
      FilterAbsorbs(rs[1..], p);
      AbsorbingCons(rs[0], FilterR(rs[1..], p));
    }
  }

  lemma {:induction false} TakeAbsorbs<T>(rs: seq<Resp<T>>, n: nat)
    requires Absorbing(rs)
    ensures Absorbing(TakeR(rs, n)) && (Ended(rs) ==> Ended(TakeR(rs, n)))
  {
    if n != 0 && rs != [] {
      var m := if rs[0].Item? then n - 1 else n;
      AbsorbingTail(rs);
      TakeAbsorbs(rs[1..], m);
      AbsorbingCons(rs[0], TakeR(rs[1..], m));
    }
  }

  lemma {:induction false} SkipAbsorbs<T>(rs: seq<Resp<T>>, n: nat)
    requires Absorbing(rs)
    ensures Absorbing(SkipR(rs, n)) && (Ended(rs) ==> Ended(SkipR(rs, n)))
  {
    if n != 0 && rs != [] {
      AbsorbingTail(rs);
      SkipAbsorbs(rs[1..], if rs[0].Item? then n - 1 else n);
      if !rs[0].Item? {
        AbsorbingCons(rs[0], SkipR(rs[1..], n));
      }
    }
  }

  lemma {:induction false} DropWhileAbsorbs<T>(rs: seq<Resp<T>>, p: T -> bool, dropping: bool)
    requires Absorbing(rs)
    ensures Absorbing(DropWhileR(rs, p, dropping)) && (Ended(rs) ==> Ended(DropWhileR(rs, p, dropping)))
  {
    if rs != [] {
      AbsorbingTail(rs);
      if rs[0].Item? && dropping && p(rs[0].v) {
        DropWhileAbsorbs(rs[1..], p, true);
      } else {
        var d := dropping && !rs[0].Item?;
        DropWhileAbsorbs(rs[1..], p, d);
        AbsorbingCons(rs[0], DropWhileR(rs[1..], p, d));
      }
    }
  }

  lemma {:induction false} ScanAbsorbs<T>(rs: seq<Resp<T>>, acc: T, f: (T, T) -> T)
    requires Absorbing(rs)
    ensures Absorbing(ScanR(rs, acc, f)) && (Ended(rs) ==> Ended(ScanR(rs, acc, f)))
  {
    if rs != [] {
      var acc' := if rs[0].Item? then f(acc, rs[0].v) else acc;
      AbsorbingTail(rs);
      ScanAbsorbs(rs[1..], acc', f);
      AbsorbingCons(if rs[0].Item? then Item(acc') else rs[0], ScanR(rs[1..], acc', f));
    }
  }

  lemma {:induction false} DistinctAbsorbs<T>(rs: seq<Resp<T>>, seen: set<T>)
    requires Absorbing(rs)
    ensures Absorbing(DistinctR(rs, seen)) && (Ended(rs) ==> Ended(DistinctR(rs, seen)))
  {
    if rs != [] {
      AbsorbingTail(rs);
      if rs[0].Item? && rs[0].v in seen {
        DistinctAbsorbs(rs[1..], seen);
      } else {
        var seen' := if rs[0].Item? then seen + {rs[0].v} else seen;
        DistinctAbsorbs(rs[1..], seen');
        AbsorbingCons(rs[0], DistinctR(rs[1..], seen'));
      }
    }
  }

  /** FlatMap swallows the EOFs of its sub-streams, whatever comes after them. */
  lemma {:induction false} FlatAbsorbs<T>(rs: seq<Resp<T>>, sub: T -> Option<seq<Resp<T>>>, cur: Option<seq<Resp<T>>>)
    requires Absorbing(rs)
    ensures Absorbing(FlatR(rs, sub, cur))
    ensures Ended(rs) && cur.None? ==> Ended(FlatR(rs, sub, cur))
    decreases |rs|, if cur.Some? then 1 + |cur.value| else 0
  {
    match cur
    case Some(c) =>
      if Head(c).Eof? {
        FlatAbsorbs(rs, sub, None);
      } else {
        FlatAbsorbs(rs, sub, Some(c[1..]));
        AbsorbingCons(c[0], FlatR(rs, sub, Some(c[1..])));
      }
    case None =>
      if rs != [] {
        AbsorbingTail(rs);
        if rs[0].Item? {
          FlatAbsorbs(rs[1..], sub, sub(rs[0].v));
        } else {
          FlatAbsorbs(rs[1..], sub, None);
          AbsorbingCons(rs[0], FlatR(rs[1..], sub, None));
        }
      }
  }

  /** Map answers response by response: an item with what the mapper makes of it, anything
      else as it is, before and after errors alike. */
  lemma {:induction false} MapAt<A, B>(rs: seq<Resp<A>>, f: A -> Resp<B>)
    ensures |MapR(rs, f)| == |rs|
    ensures forall i :: 0 <= i < |rs| ==>
      match rs[i]
      case Item(v) => MapR(rs, f)[i] == f(v)
      case Eof => MapR(rs, f)[i] == Eof
      case Fail(e) => MapR(rs, f)[i] == Fail(e)
  {
    if rs != [] {
      MapAt(rs[1..], f);
    }
  }

  /** The mapper turns this item into an end of stream. */
  ghost predicate EndedByMapper<A, B>(r: Resp<A>, f: A -> Resp<B>) {
    r.Item? && f(r.v).Eof?
  }

  /** Map keeps EOF final exactly when nothing but EOF follows an item its mapper answered
      with io.EOF; in particular when the mapper never does that. */
  lemma MapAbsorbsIff<A, B>(rs: seq<Resp<A>>, f: A -> Resp<B>)
    requires Absorbing(rs)
    ensures Absorbing(MapR(rs, f)) <==>
      forall i, j :: 0 <= i < j < |rs| && EndedByMapper(rs[i], f) ==> rs[j].Eof? || EndedByMapper(rs[j], f)
  {
    MapAt(rs, f);
    var out := MapR(rs, f);
    if Absorbing(out) {
      forall i, j | 0 <= i < j < |rs| && EndedByMapper(rs[i], f)
        ensures rs[j].Eof? || EndedByMapper(rs[j], f)
      {
        assert out[i].Eof? && out[j].Eof?;
      }
    }
    if forall i, j :: 0 <= i < j < |rs| && EndedByMapper(rs[i], f) ==> rs[j].Eof? || EndedByMapper(rs[j], f) {
      forall i, j | 0 <= i < j < |out| && out[i].Eof? ensures out[j].Eof? {
        assert rs[i].Eof? || EndedByMapper(rs[i], f);
      }
    }
  }

  /** A concrete stream on which Map resumes after its EOF: the mapper ends it itself. */
  lemma MapResumes()
    ensures var rs := [Item(1), Item(2)];
      var out := MapR(rs, (x: int) => if x == 1 then Eof else Item(x));
      Absorbing(rs) && out == [Eof, Item(2)] && !Absorbing(out)
  {
    var rs := [Item(1), Item(2)];
    var out := MapR(rs, (x: int) => if x == 1 then Eof else Item(x));
    MapAt(rs, (x: int) => if x == 1 then Eof else Item(x));
    assert out[0].Eof? && out[1] == Item(2);
  }

  ghost predicate Rejected<T>(r: Resp<T>, p: T -> bool) {
    r.Item? && !p(r.v)
  }

  /** TakeWhile answers a rejected item with EOF and everything else as it is. */
  lemma {:induction false} TakeWhileAt<T>(rs: seq<Resp<T>>, p: T -> bool)
    ensures |TakeWhileR(rs, p)| == |rs|
    ensures forall i :: 0 <= i < |rs| ==>
      TakeWhileR(rs, p)[i] == if Rejected(rs[i], p) then Eof else rs[i]
  {
    if rs != [] {
      TakeWhileAt(rs[1..], p);
    }
  }

  /** TakeWhile keeps EOF final exactly when only EOFs and further rejected items follow
      a rejected one. */
  lemma TakeWhileAbsorbsIff<T>(rs: seq<Resp<T>>, p: T -> bool)
    requires Absorbing(rs)
    ensures Absorbing(TakeWhileR(rs, p)) <==>
      forall i, j :: 0 <= i < j < |rs| && Rejected(rs[i], p) ==> rs[j].Eof? || Rejected(rs[j], p)
  {
    TakeWhileAt(rs, p);
    var out := TakeWhileR(rs, p);
    if Absorbing(out) {
      forall i, j | 0 <= i < j < |rs| && Rejected(rs[i], p) ensures rs[j].Eof? || Rejected(rs[j], p) {
        assert out[i].Eof? && out[j].Eof?;
      }
    }
    if forall i, j :: 0 <= i < j < |rs| && Rejected(rs[i], p) ==> rs[j].Eof? || Rejected(rs[j], p) {
      forall i, j | 0 <= i < j < |out| && out[i].Eof? ensures out[j].Eof? {
        assert rs[i].Eof? || Rejected(rs[i], p);
      }
    }
  }

  /** A concrete stream on which TakeWhile resumes after its EOF. */
  lemma TakeWhileResumes()
    ensures var rs := [Item(1), Item(5), Item(2)];
      var out := TakeWhileR(rs, (x: int) => x < 3);
      Absorbing(rs) && out == [Item(1), Eof, Item(2)] && !Absorbing(out)
  {
    var rs := [Item(1), Item(5), Item(2)];
    var out := TakeWhileR(rs, (x: int) => x < 3);
    TakeWhileAt(rs, (x: int) => x < 3);
    assert out[0] == Item(1) && out[1].Eof? && out[2] == Item(2);
  }

  ghost predicate HasFail<T>(rs: seq<Resp<T>>) {
    exists i :: 0 <= i < |rs| && rs[i].Fail?
  }

  lemma FailAtTail<T>(rs: seq<Resp<T>>)
    requires rs != [] && !rs[0].Fail?
    ensures HasFail(rs) <==> HasFail(rs[1..])
  {
    if HasFail(rs) {
      var i :| 0 <= i < |rs| && rs[i].Fail?;
      assert rs[1..][i - 1].Fail?;
    }
    if HasFail(rs[1..]) {
      var i :| 0 <= i < |rs[1..]| && rs[1..][i].Fail?;
      assert rs[i + 1].Fail?;
    }
  }

  /** After its second stream has ended, Zip is over exactly if its first cannot fail any more. */
  lemma {:induction false} ZipAfterB<T>(a: seq<Resp<T>>, b: seq<Resp<T>>, pair: (T, T) -> T)
    requires Ended(b)
    ensures Ended(ZipR(a, b, pair)) <==> !HasFail(a)
    decreases |a|
  {
    if a != [] {
      var out := ZipR(a, b, pair);
      if a[0].Fail? {
        assert out[0].Fail?;
      } else {
        FailAtTail(a);
        assert Head(b).Eof?;
        assert Ended(Tail(b));
        var rest := if a[0].Item? then Tail(b) else b;
        ZipAfterB(a[1..], rest, pair);
        assert out == [Eof] + ZipR(a[1..], rest, pair);
        assert Ended(out) ==> Ended(out[1..]);
        assert out[1..] == ZipR(a[1..], rest, pair);
      }
    }
  }

  lemma {:induction false} ZipAfterA<T>(a: seq<Resp<T>>, b: seq<Resp<T>>, pair: (T, T) -> T)
    requires Ended(a)
    ensures Ended(ZipR(a, b, pair))
    decreases |a|
  {
    if a != [] {
      ZipAfterA(a[1..], b, pair);
    }
  }

  /** What is left of the first stream when the second first answers EOF to an item of it. */
  ghost function LeftWhenBEnds<T>(a: seq<Resp<T>>, b: seq<Resp<T>>): seq<Resp<T>>
    decreases |a|
  {
    if a == [] then []
    else if !a[0].Item? then LeftWhenBEnds(a[1..], b)
    else if Head(b).Eof? then a[1..]
    else LeftWhenBEnds(a[1..], Tail(b))
  }

  lemma ConsAbsorbsIff<T>(r: Resp<T>, rs: seq<Resp<T>>)
    ensures Absorbing([r] + rs) <==> Absorbing(rs) && (r.Eof? ==> Ended(rs))
  {
    var out := [r] + rs;
    assert out[1..] == rs;
    if Absorbing(out) {
      AbsorbingTail(out);
    }
  }

  lemma EndedAbsorbs<T>(rs: seq<Resp<T>>)
    ensures Ended(rs) ==> Absorbing(rs)
  {
  }

  lemma {:induction false} EndedHasNoFail<T>(a: seq<Resp<T>>, b: seq<Resp<T>>)
    requires Ended(a)
    ensures !HasFail(LeftWhenBEnds(a, b))
    decreases |a|
  {
    if a != [] {
      EndedHasNoFail(a[1..], b);
    }
  }

  /** Zip keeps EOF final exactly when the first stream does not fail after the second
      has ended under it: stopping the first stream does not silence it. */
  lemma {:induction false} ZipAbsorbsIff<T>(a: seq<Resp<T>>, b: seq<Resp<T>>, pair: (T, T) -> T)
    requires Absorbing(a) && Absorbing(b)
    ensures Absorbing(ZipR(a, b, pair)) <==> !HasFail(LeftWhenBEnds(a, b))
    decreases |a|
  {
    if a != [] {
      AbsorbingTail(a);
      var out := ZipR(a, b, pair);
      if b != [] {
        AbsorbingTail(b);
      }
      var rest := if a[0].Item? then Tail(b) else b;
      var tail := ZipR(a[1..], rest, pair);
      assert out[1..] == tail;
      if a[0].Item? && Head(b).Eof? {
        ZipAfterB(a[1..], rest, pair);
        ConsAbsorbsIff(Eof, tail);
        EndedAbsorbs(tail);
      } else if a[0].Eof? {
        ZipAfterA(a[1..], b, pair);
        EndedHasNoFail(a[1..], b);
        ConsAbsorbsIff(Eof, tail);
        EndedAbsorbs(tail);
      } else {
        ZipAbsorbsIff(a[1..], rest, pair);
        ConsAbsorbsIff(out[0], tail);
      }
    }
  }

  /** Two concrete streams on which Zip reports an error after its EOF: the second is empty,
      and the first fails on its second Next. */
  lemma ZipResumes()
    ensures var a: seq<Resp<int>> := [Item(1), Fail(9)];
      var out := ZipR(a, [], (x: int, y: int) => x);
      Absorbing(a) && out == [Eof, Fail(9)] && !Absorbing(out)
  {
    var a: seq<Resp<int>> := [Item(1), Fail(9)];
    var f := (x: int, y: int) => x;
    assert a[1..] == [Fail(9)] && a[1..][1..] == [];
    assert ZipR(a[1..], [], f) == [Fail(9)] + ZipR([], [], f);
    var out := ZipR(a, [], f);
    assert out == [Eof] + ZipR(a[1..], [], f);
    assert out[0].Eof? && out[1] == Fail(9);
  }

  // --------------------------------------------------------------------------- Batch

  /** One Batch.Next: the batch, how it ended (None is a nil error), and what is left. */
  datatype BatchResp<+T> = BatchResp(batch: seq<T>, err: Option<Resp<T>>, rest: seq<Resp<T>>)

  function BatchNext<T>(rs: seq<Resp<T>>, n: nat, batch: seq<T>): (b: BatchResp<T>)
    ensures |b.rest| <= |rs|
    ensures n > 0 && rs != [] ==> |b.rest| < |rs|
    ensures b.err.Some? ==> !b.err.value.Item?
    decreases n
  {
    if n == 0 then BatchResp(batch, None, rs)
    else match Head(rs)
      case Item(v) => BatchNext(rs[1..], n - 1, batch + [v])
      case Eof => BatchResp(batch, if batch != [] then None else Some(Eof), Tail(rs))
      case Fail(e) => BatchResp(batch, Some(Fail(e)), rs[1..])
  }

  /** One turn of Batch's loop. */
  lemma BatchNextStep<T>(rs: seq<Resp<T>>, n: nat, batch: seq<T>)
    ensures n == 0 ==> BatchNext(rs, n, batch) == BatchResp(batch, None, rs)
    ensures n > 0 && Head(rs).Item? ==> BatchNext(rs, n, batch) == BatchNext(rs[1..], n - 1, batch + [rs[0].v])
  {
  }

  lemma {:induction false} FullBatchNext<T>(rs: seq<Resp<T>>, n: nat, batch: seq<T>)
    requires n <= |Cut(rs).items|
    ensures BatchNext(rs, n, batch) == BatchResp(batch + Cut(rs).items[..n], None, rs[n..])
    decreases n
  {
    BatchNextStep(rs, n, batch);
    if n == 0 {
      assert batch + Cut(rs).items[..n] == batch && rs[n..] == rs;
    } else {
      var xs := Cut(rs[1..]).items;
      FullBatchNext(rs[1..], n - 1, batch + [rs[0].v]);
      assert batch + Cut(rs).items[..n] == (batch + [rs[0].v]) + xs[..n - 1];
      assert rs[n..] == rs[1..][n - 1..];
    }
  }

  lemma {:induction false} ShortBatchNext<T>(rs: seq<Resp<T>>, n: nat, batch: seq<T>)
    requires |Cut(rs).items| < n
    ensures var o, b := Cut(rs), BatchNext(rs, n, batch);
      && b.batch == batch + o.items
      && b.err == (if o.end.Eof? && batch + o.items != [] then None else Some(o.end))
      && b.rest == if |o.items| < |rs| then rs[|o.items| + 1..] else []
    decreases n
  {
    if Head(rs).Item? {
      var xs := Cut(rs[1..]).items;
      BatchNextStep(rs, n, batch);
      ShortBatchNext(rs[1..], n - 1, batch + [rs[0].v]);
      assert batch + Cut(rs).items == (batch + [rs[0].v]) + xs;
      if |xs| < |rs[1..]| {
        assert rs[|xs| + 2..] == rs[1..][|xs| + 1..];
      }
    } else {
      assert batch + [] == batch;
    }
  }

  /** What one Batch.Next hands out, case by case: n items and no error as soon as there are
      n; before that the items up to the first error together with that error; and at EOF
      the items that were left, as a success unless there were none. */
  lemma BatchNextMeans<T>(rs: seq<Resp<T>>, n: nat)
    ensures var o, b := Cut(rs), BatchNext(rs, n, []);
      && (|o.items| >= n ==> b.batch == o.items[..n] && b.err.None? && b.rest == rs[n..])
      && (|o.items| < n && o.end.Fail? ==> b.batch == o.items && b.err == Some(o.end))
      && (|o.items| < n && o.end.Eof? ==>
            b.batch == o.items && b.err == if b.batch == [] then Some(Eof) else None)
      && (|o.items| < n ==> b.rest == if |o.items| < |rs| then rs[|o.items| + 1..] else [])
  {
    if n <= |Cut(rs).items| {
      FullBatchNext(rs, n, []);
      assert [] + Cut(rs).items[..n] == Cut(rs).items[..n];
    } else {
      ShortBatchNext(rs, n, []);
      assert [] + Cut(rs).items == Cut(rs).items;
    }
  }

  function ItemValues<T>(rs: seq<Resp<T>>): seq<T> {
    if rs == [] then [] else (if rs[0].Item? then [rs[0].v] else []) + ItemValues(rs[1..])
  }

  function Failures<T>(rs: seq<Resp<T>>): seq<nat> {
    if rs == [] then [] else (if rs[0].Fail? then [rs[0].e] else []) + Failures(rs[1..])
  }

  /** Everything Batch hands out over the whole source, read on past its errors. */
  function AllBatches<T>(rs: seq<Resp<T>>, n: nat): seq<BatchResp<T>>
    requires n > 0
    decreases |rs|
  {
    if rs == [] then []
    else
      var b := BatchNext(rs, n, []);
      [b] + AllBatches(b.rest, n)
  }

  function BatchItems<T>(bs: seq<BatchResp<T>>): seq<T> {
    if bs == [] then [] else bs[0].batch + BatchItems(bs[1..])
  }

  function BatchFailures<T>(bs: seq<BatchResp<T>>): seq<nat> {
    if bs == [] then []
    else (if bs[0].err.Some? && bs[0].err.value.Fail? then [bs[0].err.value.e] else []) + BatchFailures(bs[1..])
  }

  lemma ValuesStep<T>(rs: seq<Resp<T>>)
    ensures ItemValues(rs) == (if Head(rs).Item? then [Head(rs).v] else []) + ItemValues(Tail(rs))
    ensures Failures(rs) == (if Head(rs).Fail? then [Head(rs).e] else []) + Failures(Tail(rs))
  {
  }

  lemma {:induction false} BatchNextKeepsItems<T>(rs: seq<Resp<T>>, n: nat, batch: seq<T>)
    ensures var b := BatchNext(rs, n, batch); batch + ItemValues(rs) == b.batch + ItemValues(b.rest)
    decreases n
  {
    BatchNextStep(rs, n, batch);
    ValuesStep(rs);
    if n > 0 {
      if Head(rs).Item? {
        BatchNextKeepsItems(rs[1..], n - 1, batch + [rs[0].v]);
        assert batch + ([rs[0].v] + ItemValues(rs[1..])) == (batch + [rs[0].v]) + ItemValues(rs[1..]);
      } else {
        assert [] + ItemValues(Tail(rs)) == ItemValues(Tail(rs));
      }
    }
  }

  lemma {:induction false} BatchNextKeepsFailures<T>(rs: seq<Resp<T>>, n: nat, batch: seq<T>)
    ensures var b := BatchNext(rs, n, batch);
      Failures(rs) == (if b.err.Some? && b.err.value.Fail? then [b.err.value.e] else []) + Failures(b.rest)
    decreases n
  {
    BatchNextStep(rs, n, batch);
    ValuesStep(rs);
    if n > 0 && Head(rs).Item? {
      BatchNextKeepsFailures(rs[1..], n - 1, batch + [rs[0].v]);
      assert [] + Failures(rs[1..]) == Failures(rs[1..]);
    } else if n == 0 {
      assert [] + Failures(rs) == Failures(rs);
    }
  }

  /** Batch loses nothing to an error: over the whole source, errors and all, every item is in
      exactly one batch, in order, and every error is handed out, in order. */
  lemma {:induction false} BatchConserves<T>(rs: seq<Resp<T>>, n: nat)
    requires n > 0
    ensures BatchItems(AllBatches(rs, n)) == ItemValues(rs)
    ensures BatchFailures(AllBatches(rs, n)) == Failures(rs)
    decreases |rs|
  {
    if rs != [] {
      var b := BatchNext(rs, n, []);
      BatchNextKeepsItems(rs, n, []);
      BatchNextKeepsFailures(rs, n, []);
      BatchConserves(b.rest, n);
      assert AllBatches(rs, n)[1..] == AllBatches(b.rest, n);
      assert [] + ItemValues(rs) == ItemValues(rs);
    }
  }

  /** The response stream of Batch; a batch handed out beside an error is left aside. */
  function BatchR<T>(rs: seq<Resp<T>>, n: nat): seq<Resp<seq<T>>>
    requires n > 0
    decreases |rs|
  {
    if rs == [] then []
    else
      var b := BatchNext(rs, n, []);
      var r := match b.err
        case None => Item(b.batch)
        case Some(Fail(e)) => Fail(e)
        case Some(_) => Eof;
      [r] + BatchR(b.rest, n)
  }

  lemma {:induction false} BatchNextAbsorbs<T>(rs: seq<Resp<T>>, n: nat, batch: seq<T>)
    requires Absorbing(rs)
    ensures var b := BatchNext(rs, n, batch);
      && Absorbing(b.rest)
      && (b.err == Some(Eof) ==> Ended(b.rest))
      && (Ended(rs) ==> Ended(b.rest) && (n > 0 && batch == [] ==> b.err == Some(Eof)))
    decreases n
  {
    if n > 0 && rs != [] {
      AbsorbingTail(rs);
      if rs[0].Item? {
        BatchNextAbsorbs(rs[1..], n - 1, batch + [rs[0].v]);
      }
    }
  }

  /** Batch keeps EOF final: the Next after a short last batch finds the end again. */
  lemma {:induction false} BatchAbsorbs<T>(rs: seq<Resp<T>>, n: nat)
    requires n > 0 && Absorbing(rs)
    ensures Absorbing(BatchR(rs, n)) && (Ended(rs) ==> Ended(BatchR(rs, n)))
    decreases |rs|
  {
    if rs != [] {
      var b := BatchNext(rs, n, []);
      BatchNextAbsorbs(rs, n, []);
      BatchAbsorbs(b.rest, n);
      AbsorbingCons(BatchR(rs, n)[0], BatchR(b.rest, n));
    }
  }

  function Items<T>(xs: seq<T>): (rs: seq<Resp<T>>)
    ensures |rs| == |xs| && forall i :: 0 <= i < |xs| ==> rs[i] == Item(xs[i])
  {
    seq(|xs|, i requires 0 <= i < |xs| => Item(xs[i]))
  }

  /** The batches Batch hands out up to its EOF. */
  function Batches<T>(rs: seq<Resp<T>>, n: nat): seq<seq<T>>
    requires n > 0
    decreases |rs|
  {
    var b := BatchNext(rs, n, []);
    if b.err.Some? || rs == [] then [] else [b.batch] + Batches(b.rest, n)
  }

  function Concat<T>(xss: seq<seq<T>>): seq<T> {
    if xss == [] then [] else xss[0] + Concat(xss[1..])
  }

  lemma {:induction false} BatchNextItems<T>(xs: seq<T>, n: nat, batch: seq<T>)
    ensures n <= |xs| ==> BatchNext(Items(xs), n, batch) == BatchResp(batch + xs[..n], None, Items(xs[n..]))
    ensures n > |xs| ==>
      BatchNext(Items(xs), n, batch) ==
        BatchResp(batch + xs, if batch + xs != [] then None else Some(Eof), [])
    decreases n
  {
    if n > 0 && xs != [] {
      assert Items(xs)[1..] == Items(xs[1..]);
      BatchNextItems(xs[1..], n - 1, batch + [xs[0]]);
      assert (batch + [xs[0]]) + xs[1..] == batch + xs;
      if n <= |xs| {
        assert (batch + [xs[0]]) + xs[1..][..n - 1] == batch + xs[..n];
        assert xs[1..][n - 1..] == xs[n..];
      }
    } else if n == 0 {
      assert batch + xs[..0] == batch && xs[0..] == xs;
    } else {
      assert batch + xs == batch;
    }
  }

  /** bs cuts xs into batches of n, the last one possibly shorter but not empty. */
  ghost predicate Batched<T>(bs: seq<seq<T>>, xs: seq<T>, n: nat) {
    && Concat(bs) == xs
    && (forall i :: 0 <= i < |bs| - 1 ==> |bs[i]| == n)
    && (bs != [] ==> 1 <= |bs[|bs| - 1]| <= n)
  }

  lemma BatchedCons<T>(b: seq<T>, bs: seq<seq<T>>, xs: seq<T>, n: nat)
    requires Batched(bs, xs, n) && 1 <= |b| <= n && (|b| == n || bs == [])
    ensures Batched([b] + bs, b + xs, n)
  {
    var all := [b] + bs;
    assert all[1..] == bs;
    forall i | 0 <= i < |all| - 1 ensures |all[i]| == n {
      if i > 0 {
        assert all[i] == bs[i - 1];
      }
    }
  }

  lemma BatchesUnfold<T>(rs: seq<Resp<T>>, n: nat)
    requires n > 0 && rs != []
    ensures var b := BatchNext(rs, n, []);
      b.err.None? ==> Batches(rs, n) == [b.batch] + Batches(b.rest, n)
  {
  }

  lemma FullBatch<T>(xs: seq<T>, n: nat)
    requires 0 < n <= |xs|
    ensures Batches(Items(xs), n) == [xs[..n]] + Batches(Items(xs[n..]), n)
  {
    BatchNextItems(xs, n, []);
    BatchesUnfold(Items(xs), n);
    assert [] + xs[..n] == xs[..n];
  }

  lemma LastBatch<T>(xs: seq<T>, n: nat)
    requires 0 < |xs| < n
    ensures Batches(Items(xs), n) == [xs]
  {
    BatchNextItems(xs, n, []);
    BatchesUnfold(Items(xs), n);
    assert [] + xs == xs;
    assert Batches<T>([], n) == [];
  }

  /** The batching law: the batches of an error-free source concatenate to it, every one
      has length n except the last, and the last has between 1 and n items. */
  lemma {:induction false} BatchingLaw<T>(xs: seq<T>, n: nat)
    requires n > 0
    ensures Batched(Batches(Items(xs), n), xs, n)
    decreases |xs|
  {
    if xs != [] {
      if n <= |xs| {
        FullBatch(xs, n);
        BatchingLaw(xs[n..], n);
        BatchedCons(xs[..n], Batches(Items(xs[n..]), n), xs[n..], n);
        assert xs[..n] + xs[n..] == xs;
      } else {
        LastBatch(xs, n);
        BatchedCons(xs, [], [], n);
        assert [xs] + [] == [xs] && xs + [] == xs;
      }
    }
  }
}
