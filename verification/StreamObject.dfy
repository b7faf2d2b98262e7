/** The Stream struct, node by node: a pull stream whose closure state (idx, skipped, dropping,
    seen, acc, current) is updated in place. Every node is its response list: one call of Next
    takes the head off it. */
module StreamObject {
  import opened Options
  import opened StreamSpec
  import opened StreamLaws

  /** What a stream's next closure does with its upstream. */
  datatype Op<!T> =
    | Source
    | FilterOp(p: T -> bool)
    | TakeOp(n: nat)
    | SkipOp(n: nat)
    | MapOp(f: T -> Resp<T>)
    | TakeWhileOp(p: T -> bool)
    | DropWhileOp(p: T -> bool)
    | ScanOp(g: (T, T) -> T)
    | DistinctOp
    | FlatMapOp(sub: T -> Option<seq<Resp<T>>>)
    | ZipOp(pair: (T, T) -> T)

  /** One response moves the head of the cut over to what has been collected. */
  lemma CutStep<T>(rs: seq<Resp<T>>, items: seq<T>)
    ensures Head(rs).Item? ==>
      && items + Cut(rs).items == (items + [rs[0].v]) + Cut(Tail(rs)).items
      && Cut(rs).end == Cut(Tail(rs)).end
    ensures !Head(rs).Item? ==> Cut(rs) == Outcome([], Head(rs))
  {
  }

  class PullStream<T(==)> {
    const op: Op<T>
    const up: PullStream?<T>           // the source stream; Zip's first
    var other: PullStream?<T>          // FlatMap's current sub-stream; Zip's second

    // the variables the closure captures
    var data: seq<Resp<T>>         // a source's remaining responses
    var idx: nat                   // Take's count of items, Skip's count of skipped
    var dropping: bool
    var acc: Option<T>
    var seen: set<T>

    // Next's bookkeeping
    var itemsRead: nat
    var errCount: nat
    var errs: seq<nat>
    var stopped: bool              // stopOnce has run

    ghost var late: bool           // FlatMap's sub-stream was opened after the stop, and is not stopped
    ghost var script: seq<Resp<T>> // the responses to come, before EOF for ever
    ghost var Repr: set<object>
    ghost const height: nat
    ghost const upRead: nat        // how many items the source had given when this node was built

    /** The upstream nodes are below this one and share nothing. */
    ghost predicate Shape()
      reads this, Repr
    {
      && this in Repr
      && (up != null ==> up in Repr && up.Repr <= Repr && this !in up.Repr && up.height < height)
      && (other != null ==> other in Repr && other.Repr <= Repr && this !in other.Repr && other.height < height)
      && (up != null && other != null ==> up.Repr !! other.Repr)
      && (op.Source? <==> up == null)
      && (op.ZipOp? ==> other != null)
      && (other != null ==> op.ZipOp? || op.FlatMapOp?)
      && (op.FlatMapOp? ==> height > 1)
      && (stopped && up != null ==> up.stopped)
      && (stopped && op.ZipOp? ==> other.stopped)
      && (late ==> stopped)
      && (stopped && op.FlatMapOp? && other != null ==> (other.stopped <==> !late))
      && (op.ScanOp? ==> acc.Some?)
    }

    /** The response list this node stands for, given those of its upstream nodes. */
    ghost function Meaning(): seq<Resp<T>>
      requires op.Source? <==> up == null
      requires op.ZipOp? ==> other != null
      requires op.ScanOp? ==> acc.Some?
      reads this, up, other
    {
      match op
      case Source => data
      case FilterOp(p) => FilterR(up.script, p)
      case TakeOp(n) => TakeR(up.script, if idx <= n then n - idx else 0)
      case SkipOp(n) => SkipR(up.script, if idx <= n then n - idx else 0)
      case MapOp(f) => MapR(up.script, f)
      case TakeWhileOp(p) => TakeWhileR(up.script, p)
      case DropWhileOp(p) => DropWhileR(up.script, p, dropping)
      case ScanOp(g) => ScanR(up.script, acc.value, g)
      case DistinctOp => DistinctR(up.script, seen)
      case FlatMapOp(sub) => FlatR(up.script, sub, if other == null then None else Some(other.script))
      case ZipOp(pair) => ZipR(up.script, other.script, pair)
    }

    ghost predicate Valid()
      reads this, Repr
      ensures Valid() ==> this in Repr
      decreases height
    {
      && Shape()
      && (up != null ==> up.Valid())
      && (other != null ==> other.Valid())
      && script == Meaning()
      && (op.TakeOp? ==> idx <= op.n && up.itemsRead == upRead + idx)
    }

    // -------------------------------------------------------------------- construction

    /** A leaf over a fixed list of responses: FromSlice, Empty, or any scripted source. */
    constructor FromScript(responses: seq<Resp<T>>)
      ensures Valid() && fresh(Repr) && script == responses && op.Source? && height == 0
      ensures itemsRead == 0 && errs == [] && !stopped && other == null
    {
      op, up, other, data := Source, null, null, responses;
      idx, dropping, acc, seen := 0, true, None, {};
      itemsRead, errCount, errs, stopped, late := 0, 0, [], false, false;
      script, Repr, height, upRead := responses, {this}, 0, 0;
    }

    /** A one-input combinator over `src`, which the new stream takes over. */
    constructor Over(op: Op<T>, src: PullStream<T>, init: Option<T>)
      requires src.Valid() && !op.Source? && !op.ZipOp? && (op.ScanOp? ==> init.Some?)
      ensures Valid() && fresh(Repr - src.Repr) && this.op == op && up == src
      ensures itemsRead == 0 && errs == [] && !stopped && upRead == src.itemsRead && other == null
      ensures script == match op
        case FilterOp(p) => FilterR(src.script, p)
        case TakeOp(n) => TakeR(src.script, n)
        case SkipOp(n) => SkipR(src.script, n)
        case MapOp(f) => MapR(src.script, f)
        case TakeWhileOp(p) => TakeWhileR(src.script, p)
        case DropWhileOp(p) => DropWhileR(src.script, p, true)
        case ScanOp(g) => ScanR(src.script, init.value, g)
        case DistinctOp => DistinctR(src.script, {})
        case FlatMapOp(sub) => FlatR(src.script, sub, None)
    {
      this.op, up, other, data := op, src, null, [];
      idx, dropping, acc, seen := 0, true, init, {};
      itemsRead, errCount, errs, stopped, late := 0, 0, [], false, false;
      Repr, height, upRead := {this} + src.Repr, src.height + 2, src.itemsRead;
      new;
      script := Meaning();
    }

    constructor Zip(a: PullStream<T>, b: PullStream<T>, pair: (T, T) -> T)
      requires a.Valid() && b.Valid() && a.Repr !! b.Repr
      ensures Valid() && fresh(Repr - a.Repr - b.Repr) && op == ZipOp(pair)
      ensures itemsRead == 0 && errs == [] && !stopped
      ensures script == ZipR(a.script, b.script, pair)
    {
      op, up, other, data := ZipOp(pair), a, b, [];
      idx, dropping, acc, seen := 0, true, None, {};
      itemsRead, errCount, errs, stopped, late := 0, 0, [], false, false;
      Repr, height, upRead := {this} + a.Repr + b.Repr, a.height + b.height + 1, 0;
      new;
      script := Meaning();
    }

    // ---------------------------------------------------------------------------- Next

    method PullSource() returns (r: Resp<T>)
      requires Valid() && op.Source?
      modifies this`data, this`script
      ensures Valid() && Repr == old(Repr)
      ensures r == Head(old(script)) && script == Tail(old(script))
    {
      if data == [] {
        r := Eof;
      } else {
        r := data[0];
        data := data[1..];
      }
      script := data;
    }

    /** Everything this stream reads from has been stopped: its source streams, theirs, and
        so on down, with the sub-streams that FlatMaps are in the middle of. */
    ghost predicate AllStopped()
      requires Valid()
      reads this, Repr
      decreases height
    {
      && stopped
      && (up != null ==> up.AllStopped())
      && (other != null ==> other.AllStopped())
    }

    /** No FlatMap of the chain is in the middle of a sub-stream it opened after its stop. */
    ghost predicate NoLateSub()
      requires Valid()
      reads this, Repr
      decreases height
    {
      && !(op.FlatMapOp? && other != null && late)
      && (up != null ==> up.NoLateSub())
      && (other != null ==> other.NoLateSub())
    }

    /** Stopping a stream reaches all of its chain, exactly up to such sub-streams. */
    lemma StopReachesAll()
      requires Valid() && stopped
      ensures AllStopped() <==> NoLateSub()
      decreases height
    {
      if up != null {
        up.StopReachesAll();
      }
      if other != null && other.stopped {
        other.StopReachesAll();
      }
    }

    /** The upstream nodes are well-formed; only this node's own script may be out of date. */
    ghost predicate Ready()
      reads this, Repr
      ensures Ready() ==> this in Repr
    {
      Shape() && (up != null ==> up.Valid()) && (other != null ==> other.Valid())
    }

    /** s.Next on the source stream. */
    method ReadUp() returns (r: Resp<T>)
      requires Ready() && up != null
      modifies this`Repr, up.Repr
      ensures Ready() && fresh(Repr - old(Repr)) && old(Repr) <= Repr
      ensures r == Head(old(up.script)) && up.script == Tail(old(up.script))
      ensures up.itemsRead == old(up.itemsRead) + (if r.Item? then 1 else 0)
      ensures up.stopped == old(up.stopped)
      ensures other != null ==> other.script == old(other.script) && other.stopped == old(other.stopped)
      decreases height, 0
    {
      ghost var o := other;
      r := up.Next();
      assert o != null ==> o.Valid();
      Repr := Repr + up.Repr;
    }

    /** stopNow on the source stream, or on Zip's first. */
    method StopUp()
      requires Ready() && up != null
      modifies up.Repr
      ensures Ready() && up.stopped && up.NoLateSub() == old(up.NoLateSub())
      ensures up.script == old(up.script) && up.itemsRead == old(up.itemsRead)
      ensures other != null ==> other.script == old(other.script)
      ensures Meaning() == old(Meaning())
      decreases height, 0, 0
    {
      ghost var o := other;
      up.StopNow();
      assert o != null ==> o.Valid();
    }

    /** stopNow on FlatMap's current sub-stream, or on Zip's second. */
    method StopOther()
      requires Ready() && up != null && other != null
      modifies other.Repr, this`late
      ensures Ready() && other == old(other) && other.stopped && other.NoLateSub() == old(other.NoLateSub())
      ensures other.script == old(other.script)
      ensures up.script == old(up.script) && up.itemsRead == old(up.itemsRead)
      ensures up.NoLateSub() == old(up.NoLateSub())
      decreases height, 0, 0
    {
      other.StopNow();
      late := false;
      assert up.Valid();
    }

    /** stopOnce is done: the streams this one reads from have been stopped. */
    method MarkStopped()
      requires Valid() && !stopped
      requires (up != null ==> up.stopped) && (other != null ==> other.stopped)
      modifies this`stopped
      ensures Valid() && stopped
      ensures NoLateSub() == old(NoLateSub())
    {
      stopped := true;
      assert up != null ==> up.Valid() && up.NoLateSub() == old(up.NoLateSub());
      assert other != null ==> other.Valid() && other.NoLateSub() == old(other.NoLateSub());
    }

    /** stopNow: the first call stops the streams this one reads from; nothing that Next will
        answer changes. It reaches everything unless a FlatMap of the chain was read on after
        an earlier stop. */
    method StopNow()
      requires Valid()
      modifies this`stopped, this`late, Repr - {this}
      ensures Valid() && stopped
      ensures NoLateSub() == old(NoLateSub())
      ensures AllStopped() <==> old(NoLateSub())
      decreases height, 1
    {
      if !stopped {
        if other != null {
          StopOther();
        }
        assert script == Meaning();
        if up != null {
          StopUp();
        }
        assert script == Meaning();
        MarkStopped();
      }
      StopReachesAll();
    }

    /** Bring this node's script up to date with its upstream nodes. */
    ghost method Settle()
      requires Ready() && (op.TakeOp? ==> idx <= op.n && up.itemsRead == upRead + idx)
      modifies this`script
      ensures Valid() && script == old(Meaning())
    {
      script := Meaning();
    }

    method PullFilter() returns (r: Resp<T>)
      requires Valid() && op.FilterOp?
      modifies this`script, this`Repr, Repr - {this}
      ensures Valid() && fresh(Repr - old(Repr))
      ensures r == Head(old(script)) && script == Tail(old(script))
      decreases height, 1
    {
      while true
        invariant Ready() && fresh(Repr - old(Repr))
        invariant FilterR(up.script, op.p) == old(script)
        decreases |up.script|
      {
        r := ReadUp();
        if !r.Item? || op.p(r.v) {
          Settle();
          return;
        }
      }
    }

    /** Take reads at most n items from upstream in its whole life. */
    method PullTake() returns (r: Resp<T>)
      requires Valid() && op.TakeOp?
      modifies this`script, this`Repr, this`idx, Repr - {this}
      ensures Valid() && fresh(Repr - old(Repr))
      ensures up.itemsRead == upRead + idx && idx <= op.n
      ensures old(idx) >= op.n ==> r.Eof? && up.stopped
      ensures r == Head(old(script)) && script == Tail(old(script))
      decreases height, 1
    {
      if idx >= op.n {
        StopUp();
        r := Eof;
        Settle();
        return;
      }
      r := ReadUp();
      if r.Item? {
        idx := idx + 1;
      }
      Settle();
    }

    method PullSkip() returns (r: Resp<T>)
      requires Valid() && op.SkipOp?
      modifies this`script, this`Repr, this`idx, Repr - {this}
      ensures Valid() && fresh(Repr - old(Repr))
      ensures r == Head(old(script)) && script == Tail(old(script))
      decreases height, 1
    {
      while idx < op.n
        invariant Ready() && fresh(Repr - old(Repr))
        invariant SkipR(up.script, if idx <= op.n then op.n - idx else 0) == old(script)
        decreases op.n - idx
      {
        r := ReadUp();
        if !r.Item? {
          Settle();
          return;
        }
        idx := idx + 1;
      }
      r := ReadUp();
      Settle();
    }

    method PullMap() returns (r: Resp<T>)
      requires Valid() && op.MapOp?
      modifies this`script, this`Repr, Repr - {this}
      ensures Valid() && fresh(Repr - old(Repr))
      ensures r == Head(old(script)) && script == Tail(old(script))
      decreases height, 1
    {
      r := ReadUp();
      if r.Item? {
        r := op.f(r.v);
      }
      Settle();
    }

    method PullTakeWhile() returns (r: Resp<T>)
      requires Valid() && op.TakeWhileOp?
      modifies this`script, this`Repr, Repr - {this}
      ensures Valid() && fresh(Repr - old(Repr))
      ensures Head(old(up.script)).Item? && r.Eof? ==> up.stopped
      ensures r == Head(old(script)) && script == Tail(old(script))
      decreases height, 1
    {
      r := ReadUp();
      if r.Item? && !op.p(r.v) {
        StopUp();
        r := Eof;
      }
      Settle();
    }

    method PullDropWhile() returns (r: Resp<T>)
      requires Valid() && op.DropWhileOp?
      modifies this`script, this`Repr, this`dropping, Repr - {this}
      ensures Valid() && fresh(Repr - old(Repr))
      ensures r == Head(old(script)) && script == Tail(old(script))
      decreases height, 1
    {
      while true
        invariant Ready() && fresh(Repr - old(Repr))
        invariant DropWhileR(up.script, op.p, dropping) == old(script)
        decreases |up.script|
      {
        r := ReadUp();
        if !r.Item? {
          Settle();
          return;
        }
        if !(dropping && op.p(r.v)) {
          dropping := false;
          Settle();
          return;
        }
      }
    }

    method PullScan() returns (r: Resp<T>)
      requires Valid() && op.ScanOp?
      modifies this`script, this`Repr, this`acc, Repr - {this}
      ensures Valid() && fresh(Repr - old(Repr))
      ensures r == Head(old(script)) && script == Tail(old(script))
      decreases height, 1
    {
      r := ReadUp();
      if r.Item? {
        acc := Some(op.g(acc.value, r.v));
        r := Item(acc.value);
      }
      Settle();
    }

    method PullDistinct() returns (r: Resp<T>)
      requires Valid() && op.DistinctOp?
      modifies this`script, this`Repr, this`seen, Repr - {this}
      ensures Valid() && fresh(Repr - old(Repr))
      ensures r == Head(old(script)) && script == Tail(old(script))
      decreases height, 1
    {
      while true
        invariant Ready() && fresh(Repr - old(Repr))
        invariant DistinctR(up.script, seen) == old(script)
        decreases |up.script|
      {
        r := ReadUp();
        if !r.Item? {
          Settle();
          return;
        }
        if r.v !in seen {
          seen := seen + {r.v};
          Settle();
          return;
        }
      }
    }

    /** Next on the current sub-stream, or on Zip's second stream. */
    method ReadOther() returns (r: Resp<T>)
      requires Ready() && up != null && other != null
      modifies this`Repr, other.Repr
      ensures Ready() && fresh(Repr - old(Repr)) && old(Repr) <= Repr
      ensures other == old(other) && fresh(other.Repr - old(other.Repr))
      ensures r == Head(old(other.script)) && other.script == Tail(old(other.script))
      ensures up.script == old(up.script) && up.itemsRead == old(up.itemsRead) && up.stopped == old(up.stopped)
      ensures other.stopped == old(other.stopped)
      decreases height, 0, 0
    {
      ghost var o := other;
      r := other.Next();
      assert up.Valid();
      Repr := Repr + o.Repr;
    }

    /** Read the current sub-stream; at its EOF it is stopped and given up. */
    method ReadCurrent() returns (r: Resp<T>)
      requires Ready() && op.FlatMapOp? && other != null
      modifies this`Repr, this`other, this`late, other.Repr
      ensures Ready() && fresh(Repr - old(Repr)) && up.script == old(up.script)
      ensures r == Head(old(other.script)) && (!r.Eof? ==> late == old(late))
      ensures r.Eof? ==> old(other).stopped
      ensures if r.Eof? then other == null else other == old(other) && other.script == Tail(old(other.script))
      decreases height, 0, 1
    {
      r := ReadOther();
      if r.Eof? {
        StopOther();
        other := null;
      }
    }

    /** Create the sub-stream for an item; a nil one is skipped. */
    method OpenSub(v: T)
      requires Ready() && op.FlatMapOp? && other == null
      modifies this`other, this`Repr, this`late
      ensures Ready() && fresh(Repr - old(Repr)) && up.script == old(up.script)
      ensures other != null ==> fresh(other) && late == stopped
      ensures op.sub(v) == if other == null then None else Some(other.script)
    {
      var made := op.sub(v);
      if made.Some? {
        other := new PullStream<T>.FromScript(made.value);
        Repr, late := Repr + other.Repr, stopped;
      }
    }

    /** An item comes from a sub-stream; whether that one was opened after the stop is noted. */
    twostate predicate NotesLate(new r: Resp<T>)
      reads this
    {
      && (r.Item? ==> other != null)
      && (other != null ==> late == if other == old(other) then old(late) else stopped)
    }

    method PullFlatMap() returns (r: Resp<T>)
      requires Valid() && op.FlatMapOp?
      modifies this`script, this`Repr, this`other, this`late, Repr - {this}
      ensures Valid() && fresh(Repr - old(Repr)) && NotesLate(r)
      ensures r == Head(old(script)) && script == Tail(old(script))
      decreases height, 1
    {
      while true
        invariant Ready() && fresh(Repr - old(Repr))
        invariant FlatR(up.script, op.sub, if other == null then None else Some(other.script)) == old(script)
        invariant other != null ==> late == if other == old(other) then old(late) else stopped
        decreases |up.script|, if other != null then 1 + |other.script| else 0
      {
        FlatStep(up.script, op.sub, if other == null then None else Some(other.script));
        if other != null {
          r := ReadCurrent();
          if !r.Eof? {
            Settle();
            return;
          }
        } else {
          r := ReadUp();
          if !r.Item? {
            Settle();
            return;
          }
          OpenSub(r.v);
        }
      }
    }

    /** Zip has an item of its first stream: read the second; its error costs that item. */
    method PairUp(va: T) returns (r: Resp<T>)
      requires Ready() && op.ZipOp?
      modifies this`Repr, up.Repr, other.Repr
      ensures Ready() && fresh(Repr - old(Repr)) && other == old(other)
      ensures up.script == old(up.script) && other.script == Tail(old(other.script))
      ensures var rb := Head(old(other.script)); r == if rb.Item? then Item(op.pair(va, rb.v)) else rb
      ensures !r.Item? ==> up.stopped
      decreases height, 0, 1
    {
      r := ReadOther();
      if r.Item? {
        r := Item(op.pair(va, r.v));
      } else {
        StopUp();
      }
    }

    method PullZip() returns (r: Resp<T>)
      requires Valid() && op.ZipOp?
      modifies this`script, this`Repr, this`late, Repr - {this}
      ensures Valid() && fresh(Repr - old(Repr))
      ensures !Head(old(up.script)).Item? ==> other.stopped
      ensures Head(old(up.script)).Item? && !r.Item? ==> up.stopped
      ensures r == Head(old(script)) && script == Tail(old(script))
      decreases height, 1
    {
      ghost var u, o := up.script, other.script;
      ZipStep(u, o, op.pair);
      r := ReadUp();
      if !r.Item? {
        StopOther();
        assert Meaning() == ZipR(Tail(u), o, op.pair);
        Settle();
        return;
      }
      r := PairUp(r.v);
      assert Meaning() == ZipR(Tail(u), Tail(o), op.pair);
      Settle();
    }

    method Pull() returns (r: Resp<T>)
      requires Valid()
      modifies this`script, this`Repr, this`data, this`idx, this`dropping, this`acc, this`seen, this`other, this`late, Repr - {this}
      ensures Valid() && fresh(Repr - old(Repr)) && (op.FlatMapOp? ==> NotesLate(r))
      ensures r == Head(old(script)) && script == Tail(old(script))
      decreases height, 2
    {
      match op {
        case Source => r := PullSource();
        case FilterOp(_) => r := PullFilter();
        case TakeOp(_) => r := PullTake();
        case SkipOp(_) => r := PullSkip();
        case MapOp(_) => r := PullMap();
        case TakeWhileOp(_) => r := PullTakeWhile();
        case DropWhileOp(_) => r := PullDropWhile();
        case ScanOp(_) => r := PullScan();
        case DistinctOp => r := PullDistinct();
        case FlatMapOp(_) => r := PullFlatMap();
        case ZipOp(_) => r := PullZip();
      }
    }

    /** Count the item or record the error. */
    method Count(r: Resp<T>)
      requires Valid()
      modifies this`itemsRead, this`errCount, this`errs
      ensures Valid()
      ensures itemsRead == old(itemsRead) + (if r.Item? then 1 else 0)
      ensures errCount == old(errCount) + (if r.Fail? then 1 else 0)
      ensures errs == if r.Fail? then old(errs) + [r.e] else old(errs)
    {
      if r.Fail? {
        errCount, errs := errCount + 1, errs + [r.e];
      } else if r.Item? {
        itemsRead := itemsRead + 1;
      }
    }

    /** The public Next: run the closure, then count the item or record the error. */
    method Next() returns (r: Resp<T>)
      requires Valid()
      modifies Repr
      ensures Valid() && fresh(Repr - old(Repr)) && (op.FlatMapOp? ==> NotesLate(r))
      ensures r == Head(old(script)) && script == Tail(old(script))
      ensures itemsRead == old(itemsRead) + (if r.Item? then 1 else 0)
      ensures errCount == old(errCount) + (if r.Fail? then 1 else 0)
      ensures errs == if r.Fail? then old(errs) + [r.e] else old(errs)
      ensures stopped == old(stopped)
      decreases height, 3
    {
      r := Pull();
      Count(r);
    }

    // ----------------------------------------------------------------------- terminals

    /** ToSlice: the items before the first EOF or error. At EOF the returned error is what
        Next has recorded on this stream so far, otherwise it is the error met. */
    method ToSlice() returns (items: seq<T>, err: seq<nat>)
      requires Valid()
      modifies Repr
      ensures Valid() && fresh(Repr - old(Repr))
      ensures items == Cut(old(script)).items
      ensures err == if Cut(old(script)).end.Eof? then old(errs) else [Cut(old(script)).end.e]
      ensures stopped
    {
      items := [];
      while true
        invariant Valid() && fresh(Repr - old(Repr)) && errs == old(errs)
        invariant Cut(old(script)) == Outcome(items + Cut(script).items, Cut(script).end)
        decreases |script|
      {
        ghost var before := script;
        var r := Next();
        CutStep(before, items);
        match r {
          case Eof =>
            err := errs;
            StopNow();
            return;
          case Fail(e) =>
            err := [e];
            StopNow();
            return;
          case Item(v) =>
            items := items + [v];
        }
      }
    }

    /** Reduce: the fold of those items. */
    method Reduce(initial: T, fn: (T, T) -> T) returns (acc': T, err: seq<nat>)
      requires Valid()
      modifies Repr
      ensures Valid() && fresh(Repr - old(Repr))
      ensures acc' == Fold(Cut(old(script)).items, initial, fn)
      ensures err == if Cut(old(script)).end.Eof? then old(errs) else [Cut(old(script)).end.e]
      ensures stopped
    {
      acc' := initial;
      while true
        invariant Valid() && fresh(Repr - old(Repr)) && errs == old(errs)
        invariant Fold(Cut(old(script)).items, initial, fn) == Fold(Cut(script).items, acc', fn)
        invariant Cut(old(script)).end == Cut(script).end
        decreases |script|
      {
        ghost var before := script;
        var r := Next();
        match r {
          case Eof =>
            err := errs;
            StopNow();
            return;
          case Fail(e) =>
            err := [e];
            StopNow();
            return;
          case Item(v) =>
            assert Cut(before).items[1..] == Cut(script).items;
            acc' := fn(acc', v);
        }
      }
    }

    /** Batch's closure: up to n items; a partial batch at EOF is a success, beside an
        error it comes along with the error. */
    method NextBatch(n: nat) returns (batch: seq<T>, err: Option<Resp<T>>)
      requires Valid() && n > 0
      modifies Repr
      ensures Valid() && fresh(Repr - old(Repr))
      ensures BatchNext(old(script), n, []) == BatchResp(batch, err, script)
      ensures var o := Cut(old(script));
        && (|o.items| >= n ==> batch == o.items[..n] && err.None?)
        && (|o.items| < n && o.end.Fail? ==> batch == o.items && err == Some(o.end))
        && (|o.items| < n && o.end.Eof? ==>
              batch == o.items && err == if batch == [] then Some(Eof) else None)
    {
      BatchNextMeans(script, n);
      batch := [];
      var i := 0;
      while i < n
        invariant i <= n && Valid() && fresh(Repr - old(Repr))
        invariant BatchNext(old(script), n, []) == BatchNext(script, n - i, batch)
        invariant i == |batch|
      {
        var r := Next();
        match r {
          case Eof => return batch, if |batch| > 0 then None else Some(Eof);
          case Fail(e) => return batch, Some(Fail(e));
          case Item(v) => batch := batch + [v];
        }
        i := i + 1;
      }
      err := None;
    }
  }

  /** A stopped FlatMap that is read once more opens a sub-stream which nothing stops. */
  method LateSubStream() returns (s: PullStream<nat>, r: Resp<nat>)
    ensures s.Valid() && s.op.FlatMapOp? && s.stopped && r == Item(0)
    ensures s.other != null && !s.other.stopped && !s.AllStopped()
  {
    var src := new PullStream<nat>.FromScript([Item(0)]);
    s := new PullStream<nat>.Over(FlatMapOp((v: nat) => Some([Item(v), Item(v)])), src, None);
    s.StopNow();
    r := s.Next();
    s.StopReachesAll();
  }
}
