/** What a pull stream means. */
module StreamSpec {
  // A stream is the list of responses its Next calls will give, followed by EOF for ever; a
  // combinator is a function on such lists.

  import opened Options

  /** One response of Next: an item, io.EOF, or another error. */
  datatype Resp<+T> = Item(v: T) | Eof | Fail(e: nat)

  function Head<T>(rs: seq<Resp<T>>): Resp<T> {
    if rs == [] then Eof else rs[0]
  }

  function Tail<T>(rs: seq<Resp<T>>): seq<Resp<T>> {
    if rs == [] then [] else rs[1..]
  }

  // ---------------------------------------------- combinators as response transformers

  function FilterR<T>(rs: seq<Resp<T>>, p: T -> bool): seq<Resp<T>> {
    if rs == [] then []
    else if rs[0].Item? && !p(rs[0].v) then FilterR(rs[1..], p)
    else [rs[0]] + FilterR(rs[1..], p)
  }

  function TakeR<T>(rs: seq<Resp<T>>, n: nat): seq<Resp<T>> {
    if n == 0 || rs == [] then []
    else [rs[0]] + TakeR(rs[1..], if rs[0].Item? then n - 1 else n)
  }

  function SkipR<T>(rs: seq<Resp<T>>, n: nat): seq<Resp<T>> {
    if n == 0 || rs == [] then rs
    else if rs[0].Item? then SkipR(rs[1..], n - 1)
    else [rs[0]] + SkipR(rs[1..], n)
  }

  function MapOne<A, B>(r: Resp<A>, f: A -> Resp<B>): Resp<B> {
    match r
    case Item(v) => f(v)
    case Eof => Eof
    case Fail(e) => Fail(e)
  }

  /** The mapper may itself answer with an error, or even with io.EOF. */
  function MapR<A, B>(rs: seq<Resp<A>>, f: A -> Resp<B>): seq<Resp<B>> {
    if rs == [] then [] else [MapOne(rs[0], f)] + MapR(rs[1..], f)
  }

  /** TakeWhile answers a rejected item with EOF, but does not latch it. */
  function TakeWhileR<T>(rs: seq<Resp<T>>, p: T -> bool): seq<Resp<T>> {
    if rs == [] then []
    else [if rs[0].Item? && !p(rs[0].v) then Eof else rs[0]] + TakeWhileR(rs[1..], p)
  }

  function DropWhileR<T>(rs: seq<Resp<T>>, p: T -> bool, dropping: bool): seq<Resp<T>> {
    if rs == [] then []
    else if rs[0].Item? && dropping && p(rs[0].v) then DropWhileR(rs[1..], p, true)
    else [rs[0]] + DropWhileR(rs[1..], p, dropping && !rs[0].Item?)
  }

  function ScanR<T>(rs: seq<Resp<T>>, acc: T, f: (T, T) -> T): seq<Resp<T>> {
    if rs == [] then []
    else if rs[0].Item? then
      var acc' := f(acc, rs[0].v);
      [Item(acc')] + ScanR(rs[1..], acc', f)
    else [rs[0]] + ScanR(rs[1..], acc, f)
  }

  function DistinctR<T(==)>(rs: seq<Resp<T>>, seen: set<T>): seq<Resp<T>> {
    if rs == [] then []
    else if rs[0].Item? && rs[0].v in seen then DistinctR(rs[1..], seen)
    else [rs[0]] + DistinctR(rs[1..], if rs[0].Item? then seen + {rs[0].v} else seen)
  }

  /** `cur` is the sub-stream being read; a nil sub-stream is skipped. A sub-stream is
      dropped at its first EOF. */
  function FlatR<T>(rs: seq<Resp<T>>, sub: T -> Option<seq<Resp<T>>>, cur: Option<seq<Resp<T>>>): seq<Resp<T>>
    decreases |rs|, if cur.Some? then 1 + |cur.value| else 0
  {
    match cur
    case Some(c) =>
      if Head(c).Eof? then FlatR(rs, sub, None)
      else [c[0]] + FlatR(rs, sub, Some(c[1..]))
    case None =>
      if rs == [] then []
      else if rs[0].Item? then FlatR(rs[1..], sub, sub(rs[0].v))
      else [rs[0]] + FlatR(rs[1..], sub, None)
  }

  /** Zip reads a first, then b; an error from b costs a's item. */
  function ZipR<T>(a: seq<Resp<T>>, b: seq<Resp<T>>, pair: (T, T) -> T): seq<Resp<T>>
    decreases |a|
  {
    if a == [] then []
    else if !a[0].Item? then [a[0]] + ZipR(a[1..], b, pair)
    else if Head(b).Item? then [Item(pair(a[0].v, Head(b).v))] + ZipR(a[1..], Tail(b), pair)
    else [Head(b)] + ZipR(a[1..], Tail(b), pair)
  }

  /** One Next of a zipped stream, read by read. */
  lemma ZipStep<T>(a: seq<Resp<T>>, b: seq<Resp<T>>, pair: (T, T) -> T)
    ensures var out := ZipR(a, b, pair);
      if !Head(a).Item? then Head(out) == Head(a) && Tail(out) == ZipR(Tail(a), b, pair)
      else
        && Tail(out) == ZipR(Tail(a), Tail(b), pair)
        && Head(out) == if Head(b).Item? then Item(pair(Head(a).v, Head(b).v)) else Head(b)
  {
  }

  /** One turn of FlatMap's loop. */
  lemma FlatStep<T>(rs: seq<Resp<T>>, sub: T -> Option<seq<Resp<T>>>, cur: Option<seq<Resp<T>>>)
    ensures var out := FlatR(rs, sub, cur);
      match cur
      case Some(c) =>
        if Head(c).Eof? then out == FlatR(rs, sub, None)
        else Head(out) == Head(c) && Tail(out) == FlatR(rs, sub, Some(Tail(c)))
      case None =>
        if Head(rs).Item? then out == FlatR(Tail(rs), sub, sub(Head(rs).v))
        else Head(out) == Head(rs) && Tail(out) == FlatR(Tail(rs), sub, None)
  {
  }

  // ------------------------------------------------------------------------- terminals

  /** The items before the first EOF or error, and that EOF or error. */
  datatype Outcome<+T> = Outcome(items: seq<T>, end: Resp<T>)

  function Cut<T>(rs: seq<Resp<T>>): (o: Outcome<T>)
    ensures !o.end.Item?
    ensures |o.items| <= |rs|
  {
    if Head(rs).Item? then
      var o := Cut(rs[1..]);
      Outcome([rs[0].v] + o.items, o.end)
    else Outcome([], Head(rs))
  }

  function Fold<T>(xs: seq<T>, acc: T, f: (T, T) -> T): T {
    if xs == [] then acc else Fold(xs[1..], f(acc, xs[0]), f)
  }

  /** An item more at the end is folded in last. */
  lemma {:induction false} FoldAppend<T>(xs: seq<T>, x: T, acc: T, f: (T, T) -> T)
    ensures Fold([], acc, f) == acc
    ensures Fold(xs + [x], acc, f) == f(Fold(xs, acc, f), x)
  {
    if xs == [] {
      assert [x][1..] == [];
    } else {
      FoldAppend(xs[1..], x, f(acc, xs[0]), f);
      assert (xs + [x])[1..] == xs[1..] + [x];
    }
  }

  // ------------------------------------------------------------------ plain list functions

  function Filter<T>(xs: seq<T>, p: T -> bool): seq<T> {
    if xs == [] then []
    else (if p(xs[0]) then [xs[0]] else []) + Filter(xs[1..], p)
  }

  /** An item more at the end: it is kept if p holds of it, and changes nothing before it. */
  lemma {:induction false} FilterAppend<T>(xs: seq<T>, x: T, p: T -> bool)
    ensures Filter(xs + [x], p) == if p(x) then Filter(xs, p) + [x] else Filter(xs, p)
  {
    if xs != [] {
      FilterAppend(xs[1..], x, p);
      assert (xs + [x])[1..] == xs[1..] + [x];
    }
  }

  /** The length of the longest prefix on which p holds. */
  function PrefixWhile<T>(xs: seq<T>, p: T -> bool): (k: nat)
    ensures k <= |xs|
    ensures forall i :: 0 <= i < k ==> p(xs[i])
    ensures k < |xs| ==> !p(xs[k])
  {
    if xs == [] || !p(xs[0]) then 0 else 1 + PrefixWhile(xs[1..], p)
  }

  function Scanl<T>(xs: seq<T>, acc: T, f: (T, T) -> T): (ys: seq<T>)
    ensures |ys| == |xs|
    ensures forall i :: 0 <= i < |xs| ==> ys[i] == Fold(xs[..i + 1], acc, f)
  {
    if xs == [] then []
    else
      var acc' := f(acc, xs[0]);
      var ys := Scanl(xs[1..], acc', f);
      assert forall i :: 0 <= i < |xs| ==> xs[..i + 1][0] == xs[0] && xs[..i + 1][1..] == xs[1..][..i];
      [acc'] + ys
  }

  /** First occurrences only, ignoring what was seen before. */
  function Dedupe<T(==)>(xs: seq<T>, seen: set<T>): seq<T> {
    if xs == [] then []
    else if xs[0] in seen then Dedupe(xs[1..], seen)
    else [xs[0]] + Dedupe(xs[1..], seen + {xs[0]})
  }

  /** An item more at the end: it is kept if it is new, and changes nothing before it. */
  lemma {:induction false} DedupeAppend<T>(xs: seq<T>, x: T, seen: set<T>)
    ensures Dedupe(xs + [x], seen) == if x in seen || x in xs then Dedupe(xs, seen) else Dedupe(xs, seen) + [x]
  {
    if xs != [] {
      var seen' := if xs[0] in seen then seen else seen + {xs[0]};
      DedupeAppend(xs[1..], x, seen');
      assert (xs + [x])[1..] == xs[1..] + [x];
      assert x in xs <==> x == xs[0] || x in xs[1..];
    }
  }

  function ZipWith<T>(xs: seq<T>, ys: seq<T>, pair: (T, T) -> T): (zs: seq<T>)
    ensures |zs| == if |xs| <= |ys| then |xs| else |ys|
    ensures forall i :: 0 <= i < |zs| ==> zs[i] == pair(xs[i], ys[i])
  {
    if xs == [] || ys == [] then [] else [pair(xs[0], ys[0])] + ZipWith(xs[1..], ys[1..], pair)
  }

  /** Map over a list until the mapper refuses an item. */
  function MapUntil<T>(xs: seq<T>, f: T -> Resp<T>, end: Resp<T>): (o: Outcome<T>)
    ensures |o.items| <= |xs|
    ensures forall i :: 0 <= i < |o.items| ==> f(xs[i]) == Item(o.items[i])
    ensures |o.items| < |xs| ==> o.end == f(xs[|o.items|]) && !o.end.Item?
    ensures |o.items| == |xs| ==> o.end == end
  {
    if xs == [] then Outcome([], end)
    else match f(xs[0])
      case Item(w) => var o := MapUntil(xs[1..], f, end); Outcome([w] + o.items, o.end)
      case Eof => Outcome([], Eof)
      case Fail(e) => Outcome([], Fail(e))
  }

  /** Concatenate sub-lists until one of them fails. */
  function FlatUntil<T>(xs: seq<T>, sub: T -> Option<seq<Resp<T>>>, end: Resp<T>): Outcome<T> {
    if xs == [] then Outcome([], end)
    else match sub(xs[0])
      case None => FlatUntil(xs[1..], sub, end)
      case Some(c) =>
        var o := Cut(c);
        if o.end.Eof? then
          var rest := FlatUntil(xs[1..], sub, end);
          Outcome(o.items + rest.items, rest.end)
        else o
  }

  /** One list after another, the second only if the first ends at EOF. */
  function Then<T>(first: Outcome<T>, second: Outcome<T>): Outcome<T> {
    if first.end.Eof? then Outcome(first.items + second.items, second.end) else first
  }

  lemma ThenAssociates<T>(a: Outcome<T>, b: Outcome<T>, c: Outcome<T>)
    ensures Then(Then(a, b), c) == Then(a, Then(b, c))
  {
    assert (a.items + b.items) + c.items == a.items + (b.items + c.items);
  }

  /** The list an item's sub-stream stands for; a nil one is empty. */
  function Part<T>(sub: Option<seq<Resp<T>>>): Outcome<T> {
    match sub
    case None => Outcome([], Eof)
    case Some(c) => Cut(c)
  }

  lemma FlatUntilUncons<T>(xs: seq<T>, sub: T -> Option<seq<Resp<T>>>, end: Resp<T>)
    ensures FlatUntil(xs, sub, end) ==
      if xs == [] then Outcome([], end) else Then(Part(sub(xs[0])), FlatUntil(xs[1..], sub, end))
  {
    if xs != [] && sub(xs[0]).None? {
      var rest := FlatUntil(xs[1..], sub, end);
      assert [] + rest.items == rest.items;
    }
  }

  /** An item more at the end, when no sub-list before it failed: its sub-list is appended, and
      its failure, if it has one, takes the place of the end. After a failure it changes nothing. */
  lemma {:induction false} FlatUntilAppend<T>(xs: seq<T>, x: T, sub: T -> Option<seq<Resp<T>>>, end: Resp<T>)
    ensures FlatUntil(xs + [x], sub, end) == Then(FlatUntil(xs, sub, Eof), Then(Part(sub(x)), Outcome([], end)))
  {
    FlatUntilUncons(xs, sub, Eof);
    FlatUntilUncons(xs + [x], sub, end);
    var last := Then(Part(sub(x)), Outcome([], end));
    if xs == [] {
      assert (xs + [x])[1..] == [];
      FlatUntilUncons([], sub, end);
      assert [] + last.items == last.items;
    } else {
      FlatUntilAppend(xs[1..], x, sub, end);
      assert (xs + [x])[1..] == xs[1..] + [x];
      ThenAssociates(Part(sub(xs[0])), FlatUntil(xs[1..], sub, Eof), last);
    }
  }
}
