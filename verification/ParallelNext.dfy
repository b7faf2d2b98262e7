/** The consumer closure of ParallelMap: the reorder loop, run in place on its
    captured variables, takes exactly the machine's consumer steps. */
module ParallelNext {
  import opened Options
  import opened ParallelMap
  import opened ParallelMapInvariant
  import opened ParallelMapSafety

  /** What one select in the loop observes. */
  datatype Arrival<+B> = Result(r: IndexedResult<B>) | ChannelClosed | CtxDone

  ghost function EndEmbedded<B>(k: Consumer<B>, o: Outcome<B>): Consumer<B> {
    k.(last := Embedded(o), errs := k.errs + NotedTwice(o), phase := Idle)
  }

  /** How a call ends on the closed, drained channel: an embedded error wins over
      ErrStreamGap, and which one depends on map iteration order. */
  ghost predicate EndsAtClose<A, B>(c: Config<A, B>, k: Consumer<B>, k': Consumer<B>) {
    if !c.ordered || |k.pending| == 0 then k' == k.(last := Eof, phase := Idle)
    else if forall i :: i in k.pending ==> k.pending[i].res.Done?
    then k' == k.(last := Gap, errs := k.errs + [GapErr, GapErr], phase := Idle)
    else exists i :: i in k.pending && k.pending[i].res.Failed? && k' == EndEmbedded(k, k.pending[i].res)
  }

  /** One Next call from `k`, fed `arrivals`, consumes `used` of them and leaves `k'`.
      A call that runs out of arrivals is left waiting at its select. */
  ghost predicate Pulls<A, B>(c: Config<A, B>, k: Consumer<B>, arrivals: seq<Arrival<B>>,
    k': Consumer<B>, used: nat)
    decreases |arrivals|
  {
    if HeadReady(c, k) then used == 0 && k' == EmitHead(k)
    else if arrivals == [] then used == 0 && k' == k.(phase := AtSelect)
    else match arrivals[0]
      case Result(r) =>
        used >= 1
        && if c.ordered then Pulls(c, Accept(c, k, r), arrivals[1..], k', used - 1)
           else used == 1 && k' == Accept(c, k, r)
      case ChannelClosed => used == 1 && EndsAtClose(c, k, k')
      case CtxDone => used == 1 && k' == k.(last := CtxErr, errs := k.errs + [CallErr], phase := Idle)
  }

  // ------------------------------------------------------------ link to the machine

  /** What the loop would observe if nobody else moved. */
  ghost function Snapshot<A, B>(s: State<A, B>): (r: seq<Arrival<B>>) {
    seq(|s.queue|, j requires 0 <= j < |s.queue| => Result(s.queue[j]))
    + (if s.closed then [ChannelClosed] else [])
  }

  /** The end of a call on the closed channel is one of the machine's two closing steps. */
  lemma CloseIsAStep<A, B>(c: Config<A, B>, s: State<A, B>, k': Consumer<B>) returns (op: ConsumeOp)
    requires s.k.phase.AtSelect? && s.closed && s.queue == [] && !HeadReady(c, s.k)
    requires EndsAtClose(c, s.k, k')
    ensures ConsumeEnabled(c, s, op) && ConsumeStep(c, s, op).k == k'
  {
    if !c.ordered || |s.k.pending| == 0 || forall i :: i in s.k.pending ==> s.k.pending[i].res.Done? {
      op := ReceiveClosed;
    } else {
      var i :| i in s.k.pending && s.k.pending[i].res.Failed? && k' == EndEmbedded(s.k, s.k.pending[i].res);
      op := ReceiveClosedFailed(i);
    }
  }

  /** The state once the head of the queue has been received. */
  ghost function Received<A, B>(c: Config<A, B>, s: State<A, B>): (s': State<A, B>)
    requires s.queue != []
    ensures |s'.queue| < |s.queue|
  {
    s.(k := Accept(c, s.k, s.queue[0]), queue := s.queue[1..])
  }

  /** Receiving one result moves the snapshot on by one. */
  lemma SnapshotReceive<A, B>(c: Config<A, B>, s: State<A, B>, k': Consumer<B>, used: nat)
    requires s.k.phase.AtHead? && s.queue != [] && !HeadReady(c, s.k)
    requires Pulls(c, s.k, Snapshot(s), k', used)
    ensures used >= 1
    ensures if c.ordered then Pulls(c, Received(c, s).k, Snapshot(Received(c, s)), k', used - 1)
            else k' == Received(c, s).k
  {
    assert Snapshot(s)[0] == Result(s.queue[0]);
    assert Snapshot(s)[1..] == Snapshot(Received(c, s));
  }

  lemma LookPastIsAStep<A, B>(c: Config<A, B>, s: State<A, B>)
    requires Reachable(c, s) && !s.crashed && s.k.phase.AtHead? && !HeadReady(c, s.k)
    ensures ConsumeEnabled(c, s, LookPast)
    ensures ConsumeStep(c, s, LookPast) == s.(k := s.k.(phase := AtSelect))
    ensures Reachable(c, s.(k := s.k.(phase := AtSelect)))
  {
    ReachableStep(c, s, Consume(LookPast));
  }

  lemma ReceiveIsAStep<A, B>(c: Config<A, B>, s: State<A, B>, s1: State<A, B>)
    requires Reachable(c, s1) && !s.crashed && s.k.phase.AtHead? && s.queue != []
    requires s1 == s.(k := s.k.(phase := AtSelect))
    ensures ConsumeEnabled(c, s1, Receive)
    ensures ConsumeStep(c, s1, Receive) == Received(c, s)
    ensures Reachable(c, Received(c, s))
    ensures c.ordered ==> Received(c, s).k.phase.AtHead?
  {
    ReachableStep(c, s1, Consume(Receive));
  }

  /** The buffered head can be released at once: its token is there. */
  lemma EmitIsAStep<A, B>(c: Config<A, B>, s: State<A, B>)
    requires Reachable(c, s) && s.k.phase.AtHead? && HeadReady(c, s.k)
    ensures ConsumeEnabled(c, s, EmitPending)
    ensures ConsumeStep(c, s, EmitPending).k == EmitHead(s.k)
  {
    ReachableInv(c, s);
    Backpressure(c, s);
  }

  ghost predicate ConsumerOnly(run: seq<Action>) {
    forall j :: 0 <= j < |run| ==> run[j].Consume?
  }

  lemma Prepend<A, B>(c: Config<A, B>, s: State<A, B>, op: ConsumeOp, rest: seq<Action>) returns (run: seq<Action>)
    requires !s.crashed && ConsumeEnabled(c, s, op) && CanRun(c, ConsumeStep(c, s, op), rest)
    ensures CanRun(c, s, run) && After(c, s, run) == After(c, ConsumeStep(c, s, op), rest)
    ensures run == [Consume(op)] + rest && (ConsumerOnly(rest) ==> ConsumerOnly(run))
  {
    run := [Consume(op)] + rest;
    assert run[1..] == rest;
  }

  /** With nothing left to receive the call ends on the closed channel or waits. */
  lemma LastStep<A, B>(c: Config<A, B>, s: State<A, B>, s1: State<A, B>, k': Consumer<B>, used: nat)
    returns (run: seq<Action>)
    requires !s.crashed && s.queue == [] && !HeadReady(c, s.k) && s1 == s.(k := s.k.(phase := AtSelect))
    requires Pulls(c, s.k, Snapshot(s), k', used)
    ensures CanRun(c, s1, run) && After(c, s1, run).k == k' && ConsumerOnly(run)
  {
    if s.closed {
      assert Snapshot(s) == [ChannelClosed];
      var op := CloseIsAStep(c, s1, k');
      run := Prepend(c, s1, op, []);
    } else {
      assert Snapshot(s) == [];
      run := [];
    }
  }

  lemma ReceiveInCall<A, B>(c: Config<A, B>, s: State<A, B>)
    requires Reachable(c, s) && !s.crashed && s.k.phase.AtHead? && !HeadReady(c, s.k) && s.queue != []
    ensures Reachable(c, Received(c, s)) && !Received(c, s).crashed
    ensures c.ordered ==> Received(c, s).k.phase.AtHead?
  {
    LookPastIsAStep(c, s);
    ReceiveIsAStep(c, s, s.(k := s.k.(phase := AtSelect)));
  }

  /** The two steps that take in the head of the queue. */
  lemma TakeIn<A, B>(c: Config<A, B>, s: State<A, B>, rest: seq<Action>) returns (run: seq<Action>)
    requires Reachable(c, s) && !s.crashed && s.k.phase.AtHead? && !HeadReady(c, s.k) && s.queue != []
    requires CanRun(c, Received(c, s), rest)
    ensures CanRun(c, s, run) && After(c, s, run) == After(c, Received(c, s), rest)
    ensures ConsumerOnly(rest) ==> ConsumerOnly(run)
  {
    LookPastIsAStep(c, s);
    var s1 := s.(k := s.k.(phase := AtSelect));
    ReceiveIsAStep(c, s, s1);
    run := Prepend(c, s1, Receive, rest);
    run := Prepend(c, s, LookPast, run);
  }

  /** A call that finds the expected result buffered. */
  lemma HeadCall<A, B>(c: Config<A, B>, s: State<A, B>, k': Consumer<B>, used: nat) returns (run: seq<Action>)
    requires Reachable(c, s) && !s.crashed && s.k.phase.AtHead? && HeadReady(c, s.k)
    requires Pulls(c, s.k, Snapshot(s), k', used)
    ensures CanRun(c, s, run) && After(c, s, run).k == k' && ConsumerOnly(run)
  {
    EmitIsAStep(c, s);
    run := Prepend(c, s, EmitPending, []);
  }

  /** A call that finds nothing to receive. */
  lemma EmptyCall<A, B>(c: Config<A, B>, s: State<A, B>, k': Consumer<B>, used: nat) returns (run: seq<Action>)
    requires Reachable(c, s) && !s.crashed && s.k.phase.AtHead? && !HeadReady(c, s.k) && s.queue == []
    requires Pulls(c, s.k, Snapshot(s), k', used)
    ensures CanRun(c, s, run) && After(c, s, run).k == k' && ConsumerOnly(run)
  {
    LookPastIsAStep(c, s);
    run := LastStep(c, s, s.(k := s.k.(phase := AtSelect)), k', used);
    run := Prepend(c, s, LookPast, run);
  }

  /** If nobody else moves meanwhile, every completed or waiting Next call is a run of the
      machine's consumer. */
  lemma {:induction false} NextIsARun<A, B>(c: Config<A, B>, s: State<A, B>, k': Consumer<B>, used: nat)
    returns (run: seq<Action>)
    requires Reachable(c, s) && !s.crashed && s.k.phase.AtHead?
    requires Pulls(c, s.k, Snapshot(s), k', used)
    ensures CanRun(c, s, run) && After(c, s, run).k == k' && ConsumerOnly(run)
    decreases |s.queue|
  {
    if HeadReady(c, s.k) {
      run := HeadCall(c, s, k', used);
    } else if s.queue == [] {
      run := EmptyCall(c, s, k', used);
    } else {
      ReceiveInCall(c, s);
      SnapshotReceive(c, s, k', used);
      var rest := [];
      if c.ordered {
        rest := NextIsARun(c, Received(c, s), k', used - 1);
      }
      run := TakeIn(c, s, rest);
    }
  }

  // ------------------------------------------------------------------ interleaved calls

  /** What a select observes in this consumer step. */
  ghost function Seen<A, B>(s: State<A, B>, op: ConsumeOp): seq<Arrival<B>> {
    match op
    case Receive => if s.queue != [] then [Result(s.queue[0])] else []
    case ReceiveClosed => [ChannelClosed]
    case ReceiveClosedFailed(_) => [ChannelClosed]
    case SeeCtxDone => [CtxDone]
    case _ => []
  }

  /** What a select observes in this step, if it belongs to the consumer. */
  ghost function SeenBy<A, B>(s: State<A, B>, a: Action): seq<Arrival<B>> {
    match a
    case Consume(op) => Seen(s, op)
    case _ => []
  }

  /** What the selects of the call in progress observe along a run. */
  ghost function Observed<A, B>(c: Config<A, B>, s: State<A, B>, run: seq<Action>): seq<Arrival<B>>
    requires CanRun(c, s, run)
    decreases |run|
  {
    if run == [] then [] else SeenBy(s, run[0]) + Observed(c, Step(c, s, run[0]), run[1..])
  }

  /** The run starts no further call. */
  ghost predicate WithinCall(run: seq<Action>) {
    forall j :: 0 <= j < |run| ==> run[j] != Consume(CallNext)
  }

  /** Once the call has returned, the consumer rests for the remainder of the run. */
  lemma {:induction false} RestsWhenIdle<A, B>(c: Config<A, B>, s: State<A, B>, run: seq<Action>)
    requires CanRun(c, s, run) && WithinCall(run) && s.k.phase.Idle?
    ensures After(c, s, run).k == s.k && Observed(c, s, run) == []
    decreases |run|
  {
    if run != [] {
      assert !run[0].Consume?;
      OthersKeepConsumer(c, s, run[0]);
      assert WithinCall(run[1..]);
      RestsWhenIdle(c, Step(c, s, run[0]), run[1..]);
    }
  }

  /** Where in its loop a call stands makes no difference to how it goes on. */
  lemma PullsFromAnywhere<A, B>(c: Config<A, B>, k: Consumer<B>, phase: ConsumerPhase,
    arrivals: seq<Arrival<B>>, k': Consumer<B>, used: nat)
    ensures Pulls(c, k.(phase := phase), arrivals, k', used) <==> Pulls(c, k, arrivals, k', used)
  {
    if !HeadReady(c, k) && arrivals != [] && arrivals[0].Result? {
      assert Accept(c, k.(phase := phase), arrivals[0].r) == Accept(c, k, arrivals[0].r);
    }
  }

  /** A call that ends with this step has pulled what the step observed. */
  lemma EndingStep<A, B>(c: Config<A, B>, s: State<A, B>, op: ConsumeOp)
    requires Inv(c, s) && !s.k.phase.Idle? && ConsumeEnabled(c, s, op)
    requires ConsumeStep(c, s, op).k.phase.Idle?
    ensures Pulls(c, s.k, Seen(s, op), ConsumeStep(c, s, op).k, |Seen(s, op)|)
  {
    var k' := ConsumeStep(c, s, op).k;
    match op
    case EmitPending =>
    case Receive =>
    case ReceiveClosed => assert EndsAtClose(c, s.k, k');
    case ReceiveClosedFailed(i) => assert k' == EndEmbedded(s.k, s.k.pending[i].res);
    case SeeCtxDone =>
    case _ =>
  }

  /** A result that does not end the call goes into the reorder map. */
  lemma MidCallReceive<A, B>(c: Config<A, B>, s: State<A, B>, rest: seq<Arrival<B>>, k': Consumer<B>)
    requires c.ordered && s.queue != [] && !HeadReady(c, s.k)
    requires Pulls(c, Accept(c, s.k, s.queue[0]), rest, k', |rest|)
    ensures Pulls(c, s.k, [Result(s.queue[0])] + rest, k', |[Result(s.queue[0])] + rest|)
  {
    var seen := [Result(s.queue[0])] + rest;
    assert seen[1..] == rest && |seen| - 1 == |rest|;
  }

  /** A call waits at its select only when the expected result is not there. */
  lemma WaitsPastHead<A, B>(c: Config<A, B>, s: State<A, B>)
    requires Reachable(c, s) && s.k.phase.AtSelect?
    ensures !HeadReady(c, s.k)
  {
    ReachableInv(c, s);
  }

  lemma TurnOfCall<A, B>(c: Config<A, B>, s: State<A, B>, op: ConsumeOp, rest: seq<Arrival<B>>, k': Consumer<B>)
    requires Reachable(c, s) && !s.k.phase.Idle? && ConsumeEnabled(c, s, op)
    requires !ConsumeStep(c, s, op).k.phase.Idle? && Pulls(c, ConsumeStep(c, s, op).k, rest, k', |rest|)
    ensures var seen := Seen(s, op) + rest; Pulls(c, s.k, seen, k', |seen|)
  {
    if op.LookPast? {
      PullsFromAnywhere(c, s.k, AtSelect, rest, k', |rest|);
      assert [] + rest == rest;
    } else {
      WaitsPastHead(c, s);
      MidCallReceive(c, s, rest, k');
    }
  }

  /** One step inside a call, in front of what the rest of the call pulls. */
  lemma StepOfCall<A, B>(c: Config<A, B>, s: State<A, B>, a: Action, rest: seq<Arrival<B>>, k': Consumer<B>)
    requires Reachable(c, s) && !s.k.phase.Idle? && Enabled(c, s, a)
    requires if Step(c, s, a).k.phase.Idle? then rest == [] && k' == Step(c, s, a).k
             else Pulls(c, Step(c, s, a).k, rest, k', |rest|)
    ensures var seen := SeenBy(s, a) + rest; Pulls(c, s.k, seen, k', |seen|)
  {
    assert SeenBy(s, a) + [] == SeenBy(s, a) && [] + rest == rest;
    if !a.Consume? {
      OthersKeepConsumer(c, s, a);
    } else if Step(c, s, a).k.phase.Idle? {
      ReachableInv(c, s);
      EndingStep(c, s, a.c);
    } else {
      TurnOfCall(c, s, a.c, rest, k');
    }
  }

  /** Every call, however its steps are interleaved with those of workers, dispatcher, bridge
      and environment, pulls exactly what its selects observed: from a state inside a call, up
      to the end of the call or to a wait at its select. */
  lemma {:induction false} CallIsAPull<A, B>(c: Config<A, B>, s: State<A, B>, run: seq<Action>)
    requires Reachable(c, s) && !s.k.phase.Idle? && CanRun(c, s, run) && WithinCall(run)
    requires !After(c, s, run).k.phase.AtHead?
    ensures var seen := Observed(c, s, run); Pulls(c, s.k, seen, After(c, s, run).k, |seen|)
    decreases |run|
  {
    if run == [] {
      WaitsPastHead(c, s);
      assert s.k == s.k.(phase := AtSelect);
    } else {
      var s1 := Step(c, s, run[0]);
      assert WithinCall(run[1..]);
      ReachableStep(c, s, run[0]);
      if s1.k.phase.Idle? {
        RestsWhenIdle(c, s1, run[1..]);
      } else {
        CallIsAPull(c, s1, run[1..]);
      }
      StepOfCall(c, s, run[0], Observed(c, s1, run[1..]), After(c, s, run).k);
    }
  }

  // --------------------------------------------------------------------- the closure

  /** After `used` arrivals a call from `k0` stands at the loop head with `k`. */
  ghost predicate Continues<A, B(!new)>(c: Config<A, B>, k0: Consumer<B>, arrivals: seq<Arrival<B>>,
    k: Consumer<B>, used: nat)
    requires used <= |arrivals|
  {
    forall k', n: nat :: Pulls(c, k, arrivals[used..], k', n) ==> Pulls(c, k0, arrivals, k', used + n)
  }

  lemma ContinuesAfter<A, B(!new)>(c: Config<A, B>, k0: Consumer<B>, arrivals: seq<Arrival<B>>, k: Consumer<B>, used: nat)
    requires used < |arrivals| && c.ordered && !HeadReady(c, k) && arrivals[used].Result?
    requires Continues(c, k0, arrivals, k, used)
    ensures Continues(c, k0, arrivals, Accept(c, k, arrivals[used].r), used + 1)
  {
    var k1 := Accept(c, k, arrivals[used].r);
    assert arrivals[used..][1..] == arrivals[used + 1..];
    var rest := arrivals[used + 1..];
    forall k', n: nat | Pulls(c, k1, rest, k', n)
      ensures Pulls(c, k0, arrivals, k', used + 1 + n)
    {
      assert Pulls(c, k, arrivals[used..], k', n + 1);
      assert used + (n + 1) == used + 1 + n;
    }
  }

  /** The call ends, or is left waiting, without a look at what has arrived. */
  lemma EndsNow<A, B(!new)>(c: Config<A, B>, k0: Consumer<B>, arrivals: seq<Arrival<B>>, k: Consumer<B>, used: nat)
    requires used <= |arrivals| && Continues(c, k0, arrivals, k, used)
    ensures HeadReady(c, k) ==> Pulls(c, k0, arrivals, EmitHead(k), used)
    ensures !HeadReady(c, k) && used == |arrivals| ==> Pulls(c, k0, arrivals, k.(phase := AtSelect), used)
  {
    if HeadReady(c, k) {
      assert Pulls(c, k, arrivals[used..], EmitHead(k), 0);
    } else if used == |arrivals| {
      assert Pulls(c, k, arrivals[used..], k.(phase := AtSelect), 0);
    }
  }

  /** How a call can end with what its select observes. */
  ghost predicate EndsWith<A, B>(c: Config<A, B>, k: Consumer<B>, a: Arrival<B>, k': Consumer<B>) {
    match a
    case Result(r) => !c.ordered && k' == Accept(c, k, r)
    case ChannelClosed => EndsAtClose(c, k, k')
    case CtxDone => k' == k.(last := CtxErr, errs := k.errs + [CallErr], phase := Idle)
  }

  /** The call ends with what arrives next. */
  lemma EndsWithNext<A, B(!new)>(c: Config<A, B>, k0: Consumer<B>, arrivals: seq<Arrival<B>>, k: Consumer<B>, used: nat,
    k': Consumer<B>)
    requires used < |arrivals| && Continues(c, k0, arrivals, k, used) && !HeadReady(c, k)
    requires EndsWith(c, k, arrivals[used], k')
    ensures Pulls(c, k0, arrivals, k', used + 1)
  {
    assert Pulls(c, k, arrivals[used..], k', 1);
  }

  /** The variables makeParallelNext captures. */
  class Puller<A, B(!new)> {
    ghost const c: Config<A, B>
    const ordered: bool
    var nextIdx: nat
    var pending: map<nat, IndexedResult<B>>
    var errs: seq<StreamErr>       // what setError has recorded on the output stream
    ghost var emitted: seq<IndexedResult<B>>
    ghost var last: Return<B>

    ghost predicate Valid()
      reads this
    {
      && ordered == c.ordered
      && (forall i :: i in pending ==> pending[i].idx == i)
    }

    ghost function View(): Consumer<B>
      reads this
    {
      Consumer(AtHead, nextIdx, pending, last, emitted, errs)
    }

    constructor (ghost c: Config<A, B>, ordered: bool)
      requires ordered == c.ordered
      ensures Valid() && this.c == c
      ensures View() == Init(c).k.(phase := AtHead)
    {
      this.c := c;
      this.ordered := ordered;
      nextIdx, pending, errs := 0, map[], [];
      emitted, last := [], NoCall;
    }

    /** setError: io.EOF is not recorded. */
    method SetError(o: Outcome<B>)
      modifies this`errs
      ensures errs == old(errs) + Noted(o)
      ensures match o case Failed(Code(n)) => errs == old(errs) + [MapperErr(n)] case _ => errs == old(errs)
    {
      if o.Failed? && o.err.Code? {
        errs := errs + [MapperErr(o.err.n)];
      }
    }

    /** What Stream.Next records of the error a call returns; the closure has recorded it once
        already, unless it is that of the caller's context. */
    ghost function Again(ret: Return<B>): seq<StreamErr> {
      match ret
      case Emitted(o) => Noted(o)
      case Embedded(o) => Noted(o)
      case Gap => [GapErr]
      case CtxErr => [CallErr]
      case _ => []
    }

    /** What the closure itself records of it. */
    ghost function Own(ret: Return<B>): seq<StreamErr> {
      if ret.CtxErr? then [] else Again(ret)
    }

    /** How the call ends, seen from the closure: Stream.Next has yet to record its error. */
    ghost function Ending(ret: Return<B>): Consumer<B>
      reads this
    {
      View().(last := ret, phase := Idle, errs := errs + Again(ret))
    }

    /** The verdict on the closed channel: walk the reorder map for an embedded error. */
    method AtClose() returns (verdict: Return<B>)
      requires Valid() && !HeadReady(c, View())
      modifies this`errs
      ensures EndsAtClose(c, old(View()), Ending(verdict))
      ensures verdict.Eof? || verdict.Gap? || verdict.Embedded?
      // an error found behind the gap is recorded, and so is the gap itself
      ensures match verdict
        case Embedded(Failed(Code(n))) => errs == old(errs) + [MapperErr(n)]
        case Gap => errs == old(errs) + [GapErr]
        case _ => errs == old(errs)
    {
      if !ordered || |pending| == 0 {
        assert Ending(Eof) == View().(last := Eof, phase := Idle);
        return Eof;
      }
      var left := pending.Keys;
      while left != {}
        invariant left <= pending.Keys
        invariant forall i :: i in pending && i !in left ==> pending[i].res.Done?
        invariant errs == old(errs)
        decreases left
      {
        var i :| i in left;
        if pending[i].res.Failed? {
          SetError(pending[i].res);
          assert Ending(Embedded(pending[i].res)) == EndEmbedded(old(View()), pending[i].res);
          return Embedded(pending[i].res);
        }
        left := left - {i};
      }
      errs := errs + [GapErr];
      assert Ending(Gap) == old(View()).(last := Gap, errs := old(errs) + [GapErr, GapErr], phase := Idle);
      return Gap;
    }

    /** The expected result is buffered: take it out and hand it over. */
    method EmitExpected() returns (ret: Return<B>)
      requires Valid() && ordered && nextIdx in pending
      modifies this
      ensures Valid() && Ending(ret) == EmitHead(old(View()))
      ensures last == ret && ret.Emitted? && errs == old(errs) + Noted(ret.res)
      ensures nextIdx == old(nextIdx) + 1
      ensures emitted == old(emitted) + [IndexedResult(old(nextIdx), ret.res)]
    {
      var res := pending[nextIdx];
      pending := pending - {nextIdx};
      nextIdx := nextIdx + 1;
      emitted, last := emitted + [res], Emitted(res.res);
      SetError(res.res);
      ret := Emitted(res.res);
    }

    /** Unordered: a received result is handed over at once. */
    method HandOver(r: IndexedResult<B>) returns (ret: Return<B>)
      requires Valid() && !ordered
      modifies this`emitted, this`last, this`errs
      ensures Ending(ret) == Accept(c, old(View()), r)
      ensures last == ret && ret == Emitted(r.res) && errs == old(errs) + Noted(r.res)
    {
      emitted, last := emitted + [r], Emitted(r.res);
      SetError(r.res);
      ret := Emitted(r.res);
    }

    /** One select of the loop; None means that the result went into the reorder map. */
    method Observe(a: Arrival<B>) returns (ret: Option<Return<B>>)
      requires Valid() && !HeadReady(c, View())
      modifies this`pending, this`emitted, this`last, this`errs
      ensures Valid() && (ret.None? <==> ordered && a.Result?)
      ensures ret.None? ==> View() == Accept(c, old(View()), a.r)
      ensures ret.Some? ==> EndsWith(c, old(View()), a, Ending(ret.value))
      ensures ret.Some? ==> last == ret.value && errs == old(errs) + Own(last)
      ensures ordered ==> emitted == old(emitted) && (ret.Some? ==> !last.Emitted? && pending == old(pending))
    {
      match a {
        case CtxDone =>
          last := CtxErr;
          ret := Some(CtxErr);
        case ChannelClosed =>
          var verdict := AtClose();
          last := verdict;
          ret := Some(verdict);
        case Result(r) =>
          if ordered {
            pending := pending[r.idx := r];
            ret := None;
          } else {
            var v := HandOver(r);
            ret := Some(v);
          }
      }
    }

    /** One call of the closure. It returns None if the arrivals run out and the call is left
        waiting. */
    method Pull(arrivals: seq<Arrival<B>>) returns (ret: Option<Return<B>>, used: nat)
      requires Valid()
      modifies this
      ensures Valid() && used <= |arrivals|
      ensures Pulls(c, old(View()), arrivals, if ret.None? then View().(phase := AtSelect) else Ending(ret.value), used)
      ensures ret.None? ==> used == |arrivals| && last == old(last) && errs == old(errs)
      ensures ret.Some? ==> last == ret.value
      // the closure records a failure it hands out, and a gap, once
      ensures ret.Some? ==> match ret.value
        case Emitted(Failed(Code(n))) => errs == old(errs) + [MapperErr(n)]
        case Embedded(Failed(Code(n))) => errs == old(errs) + [MapperErr(n)]
        case Gap => errs == old(errs) + [GapErr]
        case _ => errs == old(errs)
      // in ordered mode only the expected index is ever handed out
      ensures ordered && ret.Some? && ret.value.Emitted? ==>
        nextIdx == old(nextIdx) + 1
        && emitted == old(emitted) + [IndexedResult(old(nextIdx), ret.value.res)]
      ensures ordered && !(ret.Some? && ret.value.Emitted?) ==>
        nextIdx == old(nextIdx) && emitted == old(emitted) && nextIdx !in pending
    {
      used := 0;
      while true
        invariant used <= |arrivals| && Valid()
        invariant emitted == old(emitted) && last == old(last) && nextIdx == old(nextIdx) && errs == old(errs)
        invariant Continues(c, old(View()), arrivals, View(), used)
        decreases |arrivals| - used
      {
        ghost var here := View();
        EndsNow(c, old(View()), arrivals, here, used);
        if ordered && nextIdx in pending {
          var r := EmitExpected();
          ret := Some(r);
          return;
        }
        if used == |arrivals| {
          ret := None;
          return;
        }
        ret := Observe(arrivals[used]);
        if ret.Some? {
          EndsWithNext(c, old(View()), arrivals, here, used, Ending(ret.value));
          used := used + 1;
          return;
        }
        ContinuesAfter(c, old(View()), arrivals, here, used);
        used := used + 1;
      }
    }

    /** One Next call on the stream: the closure's, whose error is then recorded again. */
    method Next(arrivals: seq<Arrival<B>>) returns (ret: Option<Return<B>>, used: nat)
      requires Valid()
      modifies this
      ensures Valid() && used <= |arrivals|
      ensures Pulls(c, old(View()), arrivals, View().(phase := if ret.None? then AtSelect else Idle), used)
      ensures ret.None? ==> used == |arrivals| && last == old(last) && errs == old(errs)
      ensures ret.Some? ==> last == ret.value
      // every failure handed out is recorded twice, the caller's context once, io.EOF never
      ensures ret.Some? ==> match ret.value
        case Emitted(Failed(Code(n))) => errs == old(errs) + [MapperErr(n), MapperErr(n)]
        case Embedded(Failed(Code(n))) => errs == old(errs) + [MapperErr(n), MapperErr(n)]
        case Gap => errs == old(errs) + [GapErr, GapErr]
        case CtxErr => errs == old(errs) + [CallErr]
        case _ => errs == old(errs)
      // in ordered mode only the expected index is ever handed out
      ensures ordered && ret.Some? && ret.value.Emitted? ==>
        nextIdx == old(nextIdx) + 1
        && emitted == old(emitted) + [IndexedResult(old(nextIdx), ret.value.res)]
      ensures ordered && !(ret.Some? && ret.value.Emitted?) ==>
        nextIdx == old(nextIdx) && emitted == old(emitted) && nextIdx !in pending
    {
      ret, used := Pull(arrivals);
      if ret.Some? {
        ghost var end := Ending(ret.value);
        match ret.value {
          case Emitted(o) => SetError(o);
          case Embedded(o) => SetError(o);
          case Gap => errs := errs + [GapErr];
          case CtxErr => errs := errs + [CallErr];
          case _ =>
        }
        assert View().(phase := Idle) == end;
      }
    }
  }
}
