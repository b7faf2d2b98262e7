/** What ParallelMap guarantees over every run. */
module ParallelMapSafety {
  // Order, completeness, the error record, backpressure, conservation, and freedom from
  // channel misuse.

  import opened Counting
  import opened ParallelMap
  import opened ParallelMapInvariant

  /** The results of the first n source items, in source order. */
  ghost function Results<A, B>(c: Config<A, B>, n: nat): (rs: seq<IndexedResult<B>>)
    requires n <= |c.src|
    ensures |rs| == n && forall i :: 0 <= i < n ==> rs[i] == IndexedResult(i, c.fn(c.src[i]))
  {
    seq(n, i requires 0 <= i < |c.src| => c.Result(i))
  }

  ghost predicate Reachable<A, B>(c: Config<A, B>, s: State<A, B>) {
    c.Valid() && exists run :: CanRun(c, Init(c), run) && After(c, Init(c), run) == s
  }

  lemma ReachableInv<A, B>(c: Config<A, B>, s: State<A, B>)
    requires Reachable(c, s)
    ensures Inv(c, s)
  {
    var run :| CanRun(c, Init(c), run) && After(c, Init(c), run) == s;
    InitInv(c);
    RunKeepsInv(c, Init(c), run);
  }

  lemma {:induction false} RunAppend<A, B>(c: Config<A, B>, s: State<A, B>, run: seq<Action>, a: Action)
    requires CanRun(c, s, run) && Enabled(c, After(c, s, run), a)
    ensures CanRun(c, s, run + [a])
    ensures After(c, s, run + [a]) == Step(c, After(c, s, run), a)
    decreases |run|
  {
    if run == [] {
      assert run + [a] == [a];
      assert [a][1..] == [];
    } else {
      RunAppend(c, Step(c, s, run[0]), run[1..], a);
      assert (run + [a])[1..] == run[1..] + [a];
    }
  }

  lemma ReachableStep<A, B>(c: Config<A, B>, s: State<A, B>, a: Action)
    requires Reachable(c, s) && Enabled(c, s, a)
    ensures Reachable(c, Step(c, s, a))
  {
    var run :| CanRun(c, Init(c), run) && After(c, Init(c), run) == s;
    RunAppend(c, Init(c), run, a);
  }

  // ------------------------------------------------------------- manners of running

  /** The call returned io.EOF to its caller: the stream's own, or a mapper's. */
  ghost predicate SeesEof<B>(r: Return<B>) {
    r.Eof? || ((r.Emitted? || r.Embedded?) && r.res == Failed(IoEof))
  }

  /** The call told its caller that the results channel has ended, in one of three ways. */
  ghost predicate Told<B>(r: Return<B>) { r.Eof? || r.Gap? || r.Embedded? }

  ghost predicate Producer(a: Action) { a.Dispatch? || a.Work? || a.Bridge? }

  /** A step of a producer, or of a consumer that keeps pulling until it is told the end. */
  ghost predicate Live<A, B>(s: State<A, B>, a: Action) {
    Producer(a) || (a.Consume? && !a.c.SeeCtxDone? && !(a.c.CallNext? && Told(s.k.last)))
  }

  /** How a schedule may behave: anyhow; with a consumer that never calls Next again after
      io.EOF; or live, in a world that cancels nothing, where other tasks of the scope only
      free the dispatcher's slot, or also take it. */
  datatype Manner = Anyhow | Polite | Uncancelled(slotKept: bool)

  ghost predicate Follows<A, B>(m: Manner, s: State<A, B>, a: Action) {
    match m
    case Anyhow => true
    case Polite => a == Consume(CallNext) ==> !SeesEof(s.k.last)
    case Uncancelled(kept) =>
      Live(s, a) || a == Environment(OfferSlot) || (!kept && a == Environment(TakeSlot))
  }

  ghost predicate InManner<A, B>(c: Config<A, B>, s: State<A, B>, run: seq<Action>, m: Manner)
    requires CanRun(c, s, run)
    decreases |run|
  {
    run == [] || (Follows(m, s, run[0]) && InManner(c, Step(c, s, run[0]), run[1..], m))
  }

  ghost predicate ReachableAs<A, B>(c: Config<A, B>, s: State<A, B>, m: Manner) {
    c.Valid() && exists run :: CanRun(c, Init(c), run) && After(c, Init(c), run) == s && InManner(c, Init(c), run, m)
  }

  lemma {:induction false} MannerAppend<A, B>(c: Config<A, B>, s: State<A, B>, run: seq<Action>, a: Action, m: Manner)
    requires CanRun(c, s, run) && Enabled(c, After(c, s, run), a)
    requires InManner(c, s, run, m) && Follows(m, After(c, s, run), a)
    ensures CanRun(c, s, run + [a]) && InManner(c, s, run + [a], m)
    decreases |run|
  {
    RunAppend(c, s, run, a);
    if run == [] {
      assert run + [a] == [a];
      assert [a][1..] == [];
    } else {
      MannerAppend(c, Step(c, s, run[0]), run[1..], a, m);
      assert (run + [a])[1..] == run[1..] + [a];
    }
  }

  /** One step more, in the same manner. */
  lemma Take<A, B>(c: Config<A, B>, s: State<A, B>, a: Action, m: Manner)
    requires ReachableAs(c, s, m) && Enabled(c, s, a) && Follows(m, s, a)
    ensures ReachableAs(c, Step(c, s, a), m)
  {
    var run :| CanRun(c, Init(c), run) && After(c, Init(c), run) == s && InManner(c, Init(c), run, m);
    RunAppend(c, Init(c), run, a);
    MannerAppend(c, Init(c), run, a, m);
  }

  lemma InitAs<A, B>(c: Config<A, B>, m: Manner)
    requires c.Valid()
    ensures ReachableAs(c, Init(c), m)
  {
    assert CanRun(c, Init(c), []) && After(c, Init(c), []) == Init(c) && InManner(c, Init(c), [], m);
  }

  lemma OthersKeepConsumer<A, B>(c: Config<A, B>, s: State<A, B>, a: Action)
    requires Enabled(c, s, a) && !a.Consume?
    ensures Step(c, s, a).k == s.k
  {
  }

  // ----------------------------------------------------------------- order safety

  /** In every reachable ordered state, cancelled or not, the results handed out by
      index are exactly those of items 0, 1, 2, ... each once. */
  lemma OrderedPrefix<A, B>(c: Config<A, B>, s: State<A, B>)
    requires Reachable(c, s) && c.ordered
    ensures |s.k.emitted| == s.k.nextIdx <= |c.src|
    ensures forall i :: 0 <= i < |s.k.emitted| ==> s.k.emitted[i] == IndexedResult(i, c.fn(c.src[i]))
    ensures s.k.emitted == Results(c, s.k.nextIdx)
  {
    ReachableInv(c, s);
    forall i | 0 <= i < |s.k.emitted| ensures i < |c.src| && s.k.emitted[i] == c.Result(i) {
      assert Genuine(c, s.p.ws, s.k.emitted[i]);
    }
  }

  /** The channel is closed and drained, and the next expected index never arrived. */
  ghost predicate Sealed<A, B>(c: Config<A, B>, s: State<A, B>) {
    s.closed && s.queue == [] && !HeadReady(c, s.k)
  }

  lemma SealedConsume<A, B>(c: Config<A, B>, s: State<A, B>, op: ConsumeOp)
    requires Sealed(c, s) && ConsumeEnabled(c, s, op)
    ensures var s' := ConsumeStep(c, s, op);
      && Sealed(c, s')
      && s'.k.emitted == s.k.emitted
      && (s'.k.last == s.k.last || !s'.k.last.Emitted?)
      && (s'.k.last.Embedded? ==> s'.k.last == s.k.last || s'.k.last.res.Failed?)
  {
  }

  lemma SealedStep<A, B>(c: Config<A, B>, s: State<A, B>, a: Action)
    requires Inv(c, s) && Sealed(c, s) && Enabled(c, s, a)
    ensures var s' := Step(c, s, a);
      && Sealed(c, s')
      && s'.k.emitted == s.k.emitted
      && (s'.k.last == s.k.last || !s'.k.last.Emitted?)
      && (s'.k.last.Embedded? ==> s'.k.last == s.k.last || s'.k.last.res.Failed?)
  {
    match a
    case Dispatch(d) => DispatchFrame(c, s, d);
    case Work(i, w) => WorkFrame(c, s, i, w);
    case Consume(op) => SealedConsume(c, s, op);
    case _ =>
  }

  /** Once sealed, no later Next ever returns a success, whatever the schedule. */
  lemma {:induction false} SealedForever<A, B>(c: Config<A, B>, s: State<A, B>, run: seq<Action>)
    requires Inv(c, s) && Sealed(c, s) && CanRun(c, s, run)
    ensures var s' := After(c, s, run);
      && Sealed(c, s')
      && s'.k.emitted == s.k.emitted
      && (s'.k.last == s.k.last || !s'.k.last.Emitted?)
      && (s'.k.last.Embedded? ==> s'.k.last == s.k.last || s'.k.last.res.Failed?)
    decreases |run|
  {
    if run != [] {
      StepKeepsInv(c, s, run[0]);
      SealedStep(c, s, run[0]);
      SealedForever(c, Step(c, s, run[0]), run[1..]);
    }
  }

  lemma NothingAfterTheHole<A, B>(c: Config<A, B>, s: State<A, B>, run: seq<Action>)
    requires Reachable(c, s) && Sealed(c, s) && CanRun(c, s, run)
    ensures After(c, s, run).k.emitted == s.k.emitted
    ensures After(c, s, run).k.last == s.k.last || !After(c, s, run).k.last.Emitted?
  {
    ReachableInv(c, s);
    SealedForever(c, s, run);
  }

  // ----------------------------------------------------------------- completeness

  /** A source that panics only before its first item leaves no worker behind. */
  lemma SoundIsIntact<A, B>(c: Config<A, B>, s: State<A, B>)
    requires Inv(c, s) && c.Sound()
    ensures Intact(s.d, |s.p.ws|) && !s.crashed
  {
  }

  /** Uncancelled, a drained channel leaves no hole: every index has been emitted. */
  lemma NoHole<A, B>(c: Config<A, B>, s: State<A, B>)
    requires Inv(c, s) && s.x.Quiet() && Sealed(c, s) && Intact(s.d, |s.p.ws|)
    ensures |s.k.pending| == 0 && |s.k.emitted| == |s.p.ws| == |c.src|
  {
    NoWorkersPastWait(c, s.d, s.p);
    if c.ordered {
      forall i | i in s.k.pending.Keys ensures s.k.nextIdx + 1 <= i < |s.p.ws| {
        assert Genuine(c, s.p.ws, s.k.pending[i]);
      }
      if s.k.nextIdx + 1 <= |s.p.ws| {
        IntervalCard(s.k.pending.Keys, s.k.nextIdx + 1, |s.p.ws|);
        assert false;
      }
    }
  }

  /** Uncancelled, the end of the results channel means to an ordered consumer that every
      item was delivered in source order; but for the callers' own contexts, the failures
      recorded are those of the items, twice each, and a source error was recorded iff the
      source failed. */
  lemma OrderedComplete<A, B>(c: Config<A, B>, s: State<A, B>)
    requires Reachable(c, s) && c.Sound() && c.ordered && s.x.Quiet() && s.k.last.Eof?
    ensures s.k.emitted == Results(c, |c.src|)
    ensures OwnErrs(s.k.errs) == NotedAll(Results(c, |c.src|))
    ensures s.d.srcErr == c.srcEnd.WithError?
  {
    ReachableInv(c, s);
    SoundIsIntact(c, s);
    NoHole(c, s);
    OrderedPrefix(c, s);
  }

  /** Uncancelled, no Next ever reports a gap. */
  lemma NeverGap<A, B>(c: Config<A, B>, s: State<A, B>)
    requires Reachable(c, s) && c.Sound() && s.x.Quiet()
    ensures !s.k.last.Gap? && !s.k.last.Embedded?
  {
    ReachableInv(c, s);
    SoundIsIntact(c, s);
    if s.k.last.Gap? || s.k.last.Embedded? {
      NoHole(c, s);
      assert false;
    }
  }

  /** The re-check of the reorder map after the channel closes never finds anything. */
  lemma DrainBranchIsDead<A, B>(c: Config<A, B>, s: State<A, B>)
    requires Reachable(c, s) && ConsumeEnabled(c, s, ReceiveClosed)
    ensures !HeadReady(c, s.k)
  {
    ReachableInv(c, s);
  }

  // ------------------------------------------------------------- what Err() reports

  /** What a call records on the stream by the way it ends. */
  ghost function Recorded<B>(r: Return<B>): seq<StreamErr> {
    match r
    case Emitted(o) => FailureTwice(o)
    case Embedded(o) => FailureTwice(o)
    case Gap => [GapErr, GapErr]
    case CtxErr => [CallErr]
    case _ => []
  }

  /** What one step records: nothing, unless a call ends with it. */
  ghost function Entry<B>(k: Consumer<B>, k': Consumer<B>): seq<StreamErr> {
    if k'.phase.Idle? && !k.phase.Idle? then Recorded(k'.last) else []
  }

  /** What the calls that end along a run record, in the order in which they end. */
  ghost function Log<A, B>(c: Config<A, B>, s: State<A, B>, run: seq<Action>): seq<StreamErr>
    requires CanRun(c, s, run)
    decreases |run|
  {
    if run == [] then [] else
      var s' := Step(c, s, run[0]);
      Entry(s.k, s'.k) + Log(c, s', run[1..])
  }

  lemma ConsumeRecords<A, B>(c: Config<A, B>, s: State<A, B>, op: ConsumeOp)
    requires ConsumeEnabled(c, s, op)
    ensures ConsumeStep(c, s, op).k.errs == s.k.errs + Entry(s.k, ConsumeStep(c, s, op).k)
  {
    match op
    case EmitPending => NotedIsFailure(s.k.pending[s.k.nextIdx].res);
    case Receive => NotedIsFailure(s.queue[0].res);
    case ReceiveClosedFailed(i) => NotedIsFailure(s.k.pending[i].res);
    case ReceiveClosed =>
      if HeadReady(c, s.k) {
        NotedIsFailure(s.k.pending[s.k.nextIdx].res);
      }
    case _ =>
  }

  lemma StepRecords<A, B>(c: Config<A, B>, s: State<A, B>, a: Action)
    requires Enabled(c, s, a)
    ensures Step(c, s, a).k.errs == s.k.errs + Entry(s.k, Step(c, s, a).k)
  {
    if a.Consume? {
      ConsumeRecords(c, s, a.c);
    } else {
      OthersKeepConsumer(c, s, a);
    }
  }

  lemma LogFromHere(errs: seq<StreamErr>, first: seq<StreamErr>, rest: seq<StreamErr>)
    ensures (errs + first) + rest == errs + (first + rest)
  {
  }

  /** In every run, cancelled or not, the consumer side of `Err()` is exactly the log of how
      the calls ended: each failure twice, a caller's own context once, io.EOF never. */
  lemma {:induction false} ErrIsTheLog<A, B>(c: Config<A, B>, s: State<A, B>, run: seq<Action>)
    requires CanRun(c, s, run)
    ensures After(c, s, run).k.errs == s.k.errs + Log(c, s, run)
    decreases |run|
  {
    if run != [] {
      var s' := Step(c, s, run[0]);
      StepRecords(c, s, run[0]);
      ErrIsTheLog(c, s', run[1..]);
      LogFromHere(s.k.errs, Entry(s.k, s'.k), Log(c, s', run[1..]));
    }
  }

  /** A stream that only its consumer stops records no cancellation: what it has recorded, if
      anything, is the source's own error after the last item, and its dispatcher task returns
      no error to the scope. */
  lemma StopIsSilent<A, B>(c: Config<A, B>, s: State<A, B>)
    requires Reachable(c, s) && !s.x.external && !s.x.scopeDone
    ensures !s.d.taskErr && (s.d.srcErr ==> c.srcEnd.WithError? && s.d.fetched == |c.src|)
  {
    ReachableInv(c, s);
  }

  /** The caller's context is never lost: a dispatcher that gives up before the last item,
      unless the stream was stopped or the scope cancelled, has recorded an error or hands one
      to the scope. */
  lemma CancellationIsReported<A, B>(c: Config<A, B>, s: State<A, B>)
    requires Reachable(c, s) && !s.x.stopped && !s.x.scopeDone
    requires (s.d.phase.Draining? || s.d.phase.PastWait()) && |s.p.ws| < |c.src|
    ensures s.x.external && (s.d.srcErr || s.d.taskErr)
  {
    ReachableInv(c, s);
  }

  // ----------------------------------------------------------------- backpressure

  /** Tokens held are slots acquired minus results emitted. Dispatched but
      undelivered items never exceed MaxPending, and a release never blocks. */
  lemma Backpressure<A, B>(c: Config<A, B>, s: State<A, B>)
    requires Reachable(c, s) && c.ordered
    ensures s.tokens + s.k.nextIdx == s.d.acquired
    ensures Sum(s.p.ws, Owes) + |s.queue| + |s.k.pending| <= s.tokens <= c.maxPending
    ensures HeadReady(c, s.k) ==> s.tokens > 0
  {
    ReachableInv(c, s);
    if HeadReady(c, s.k) {
      assert s.k.pending.Keys != {};
    }
  }

  /** At most MaxWorkers workers hold the worker semaphore, and the channel has room for one
      result of each beyond the caller's buffer: a worker can send exactly while there is room. */
  lemma WorkerBound<A, B>(c: Config<A, B>, s: State<A, B>)
    requires Reachable(c, s)
    ensures s.p.sem == Sum(s.p.ws, HoldsSem) <= c.maxWorkers
    ensures Sum(s.p.ws, Owes) <= s.p.sem
    ensures |s.queue| <= c.bufferSize + c.maxWorkers
    ensures forall i :: 0 <= i < |s.p.ws| && s.p.ws[i].phase.Sending? && !s.closed ==>
      (WorkEnabled(c, s, i, SendResult) <==> |s.queue| < c.bufferSize + c.maxWorkers)
  {
    ReachableInv(c, s);
    SumMonotone(s.p.ws, Owes, HoldsSem);
  }

  /** When the dispatcher is about to close the results channel, or its task has returned, the
      bridge goroutine has left, and so have all workers if the source is sound. */
  lemma NothingOutlives<A, B>(c: Config<A, B>, s: State<A, B>)
    requires Reachable(c, s) && (s.d.phase.Closing? || s.d.phase.Finished?)
    ensures s.x.bridge.Exited?
    ensures c.Sound() ==> forall i :: 0 <= i < |s.p.ws| ==> s.p.ws[i].phase.Gone?
  {
    ReachableInv(c, s);
    if c.Sound() {
      SoundIsIntact(c, s);
      NoWorkersPastWait(c, s.d, s.p);
    }
  }

  /** No worker ever meets an empty semaphore or a spent wait group, and the channel is
      closed only once. No worker meets a closed channel if the source is sound. */
  lemma NoMisuse<A, B>(c: Config<A, B>, s: State<A, B>, i: nat)
    requires Reachable(c, s)
    ensures s.d.phase.Closing? ==> !s.closed
    ensures s.d.phase.WantSem? ==> s.p.wg > 0
    ensures i < |s.p.ws| && !s.p.ws[i].phase.Gone? ==> s.p.wg > 0
    ensures i < |s.p.ws| && s.p.ws[i].phase.Releasing? ==> s.p.sem > 0
    ensures c.Sound() ==> !s.crashed && (i < |s.p.ws| && !s.p.ws[i].phase.Gone? ==> !s.closed)
  {
    ReachableInv(c, s);
    if i < |s.p.ws| && !s.p.ws[i].phase.Gone? {
      SumAtLeast(s.p.ws, i, HoldsWg);
      SumAtLeast(s.p.ws, i, HoldsSem);
    }
  }

  // ------------------------------------------------- unordered mode: conservation

  /** The indices results carry. */
  ghost function Indices<B>(rs: seq<IndexedResult<B>>): (xs: seq<nat>)
    ensures |xs| == |rs| && forall j :: 0 <= j < |rs| ==> xs[j] == rs[j].idx
  {
    seq(|rs|, j requires 0 <= j < |rs| => rs[j].idx)
  }

  /** The indices still inside a worker. */
  ghost function OwedIndices<A>(ws: seq<Worker<A>>): (xs: seq<nat>)
    ensures |xs| == Sum(ws, Owes)
  {
    if ws == [] then [] else
      var w := ws[|ws| - 1];
      OwedIndices(ws[..|ws| - 1]) + (if Owes(w) == 1 then [w.idx] else [])
  }

  lemma {:induction false} OwedIndicesMembers<A>(ws: seq<Worker<A>>)
    requires forall i :: 0 <= i < |ws| ==> ws[i].idx == i
    ensures NoRepeats(OwedIndices(ws))
    ensures forall i :: i in OwedIndices(ws) <==> 0 <= i < |ws| && Owes(ws[i]) == 1
  {
    if ws != [] {
      var m := |ws| - 1;
      OwedIndicesMembers(ws[..m]);
      var front := OwedIndices(ws[..m]);
      assert OwedIndices(ws) == front + (if Owes(ws[m]) == 1 then [ws[m].idx] else []);
      assert m !in front;
    }
  }

  /** The indices that have been handed out, are queued, or are still inside a worker. */
  ghost function InHand<A, B>(s: State<A, B>): seq<nat> {
    Indices(s.k.emitted + s.queue) + OwedIndices(s.p.ws)
  }

  /** What the consumer has, or will receive, carries different indices, none of them buffered. */
  lemma LineDistinct<A, B>(c: Config<A, B>, queue: seq<IndexedResult<B>>, k: Consumer<B>)
    requires OrderInv(c, queue, k)
    ensures Distinct(k.emitted + queue)
    ensures forall j :: 0 <= j < |k.emitted + queue| ==> (k.emitted + queue)[j].idx !in k.pending
  {
  }

  lemma InHandDistinct<A, B>(c: Config<A, B>, s: State<A, B>)
    requires Inv(c, s)
    ensures NoRepeats(InHand(s))
    ensures forall i :: i in InHand(s) ==> i < |s.p.ws| && i !in s.k.pending
  {
    OwedIndicesMembers(s.p.ws);
    var line := s.k.emitted + s.queue;
    LineDistinct(c, s.queue, s.k);
    assert forall j :: 0 <= j < |line| ==> Genuine(c, s.p.ws, line[j]);
    forall i | i in InHand(s) ensures i < |s.p.ws| && i !in s.k.pending {
      var j :| 0 <= j < |InHand(s)| && InHand(s)[j] == i;
      assert j < |line| ==> i == line[j].idx;
      assert j >= |line| ==> i in OwedIndices(s.p.ws);
      assert i in s.k.pending ==> Genuine(c, s.p.ws, s.k.pending[i]);
    }
  }

  /** The dispatched indices that are nowhere to be found. */
  ghost function Missing<A, B>(s: State<A, B>): set<nat> {
    Others(InHand(s), s.k.pending.Keys, |s.p.ws|)
  }

  /** In every reachable state, cancelled or not, panics included, a dispatched index is in one
      place at most: handed out, queued, inside a worker, or buffered. Exactly the dropped
      results are in none. */
  lemma Conservation<A, B>(c: Config<A, B>, s: State<A, B>)
    requires Reachable(c, s)
    ensures NoRepeats(InHand(s))
    ensures forall i :: i in InHand(s) ==> i < |s.p.ws| && i !in s.k.pending
    ensures forall i :: i in s.k.pending ==> i < |s.p.ws|
    ensures |Missing(s)| == s.lost
  {
    ReachableInv(c, s);
    InHandDistinct(c, s);
    forall i | i in s.k.pending ensures i < |s.p.ws| {
      assert Genuine(c, s.p.ws, s.k.pending[i]);
    }
    MissingCount(InHand(s), s.k.pending.Keys, |s.p.ws|);
  }

  /** Unordered and uncancelled, as long as no panic has left a worker behind: delivered,
      queued and in-worker indices are exactly the dispatched indices, each once. */
  lemma UnorderedConservation<A, B>(c: Config<A, B>, s: State<A, B>)
    requires Reachable(c, s) && !c.ordered && s.x.Quiet() && Intact(s.d, |s.p.ws|)
    ensures multiset(InHand(s)) == multiset(Upto(|s.p.ws|))
  {
    ReachableInv(c, s);
    InHandDistinct(c, s);
    Rearranged(InHand(s), |s.p.ws|, (i: nat) => i);
    IdentityMap(InHand(s));
    IdentityMap(Upto(|s.p.ws|));
  }

  /** What the consumer was handed, without the indices. */
  ghost function Outcomes<B>(rs: seq<IndexedResult<B>>): (os: seq<Outcome<B>>)
    ensures |os| == |rs| && forall j :: 0 <= j < |rs| ==> os[j] == rs[j].res
  {
    seq(|rs|, j requires 0 <= j < |rs| => rs[j].res)
  }

  /** The mapper applied to the first n items. */
  ghost function Mapped<A, B>(c: Config<A, B>, n: nat): (os: seq<Outcome<B>>)
    requires n <= |c.src|
    ensures |os| == n && forall i :: 0 <= i < n ==> os[i] == c.fn(c.src[i])
  {
    seq(n, i requires 0 <= i < |c.src| => c.fn(c.src[i]))
  }

  /** The outcome of the i-th item, for use as a function of the index alone. */
  ghost function OutcomeAt<A, B>(c: Config<A, B>): nat -> Outcome<B> {
    (i: nat) => if i < |c.src| then c.fn(c.src[i]) else Failed(IoEof)
  }

  lemma {:induction false} GenuineOutcomes<A, B>(c: Config<A, B>, ws: seq<Worker<A>>, rs: seq<IndexedResult<B>>)
    requires forall j :: 0 <= j < |rs| ==> Genuine(c, ws, rs[j])
    ensures MapSeq(Indices(rs), OutcomeAt(c)) == Outcomes(rs)
  {
    if rs != [] {
      var m := |rs| - 1;
      GenuineOutcomes(c, ws, rs[..m]);
      assert Indices(rs)[..m] == Indices(rs[..m]);
      assert Genuine(c, ws, rs[m]);
    }
  }

  lemma {:induction false} SourceOutcomes<A, B>(c: Config<A, B>, n: nat)
    requires n <= |c.src|
    ensures MapSeq(Upto(n), OutcomeAt(c)) == Mapped(c, n)
  {
    if n > 0 {
      SourceOutcomes(c, n - 1);
      assert Upto(n)[..n - 1] == Upto(n - 1);
    }
  }

  lemma AllOutcomes<A, B>(c: Config<A, B>, ws: seq<Worker<A>>, rs: seq<IndexedResult<B>>)
    requires |rs| == |c.src| && Distinct(rs) && forall j :: 0 <= j < |rs| ==> Genuine(c, ws, rs[j])
    ensures multiset(Outcomes(rs)) == multiset(Mapped(c, |c.src|))
  {
    var xs := Indices(rs);
    forall i | i in xs ensures i < |c.src| {
      var j :| 0 <= j < |xs| && xs[j] == i;
      assert Genuine(c, ws, rs[j]);
    }
    Rearranged(xs, |c.src|, OutcomeAt(c));
    GenuineOutcomes(c, ws, rs);
    SourceOutcomes(c, |c.src|);
  }

  /** The items whose mapper fails with error n. */
  ghost function FailingItems<A, B>(c: Config<A, B>, n: nat): set<int> {
    set i | 0 <= i < |c.src| && c.fn(c.src[i]) == Failed(Code(n))
  }

  lemma OneRecordCount<B>(errs: seq<StreamErr>, os: seq<Outcome<B>>, o: Outcome<B>, n: nat)
    ensures multiset(errs + FailureTwice(o))[MapperErr(n)]
         == multiset(errs)[MapperErr(n)] + (if o == Failed(Code(n)) then 2 else 0)
    ensures multiset(os + [o])[Failed(Code(n))]
         == multiset(os)[Failed(Code(n))] + (if o == Failed(Code(n)) then 1 else 0)
  {
  }

  lemma LastOutcome<B>(rs: seq<IndexedResult<B>>)
    requires rs != []
    ensures Outcomes(rs) == Outcomes(rs[..|rs| - 1]) + [rs[|rs| - 1].res]
  {
    var front := rs[..|rs| - 1];
    var os := Outcomes(front) + [rs[|rs| - 1].res];
    forall j | 0 <= j < |rs| ensures Outcomes(rs)[j] == os[j] {
      if j < |front| {
        assert os[j] == Outcomes(front)[j] == front[j].res;
      }
    }
  }

  lemma {:induction false} OnlyFailures<B>(rs: seq<IndexedResult<B>>)
    ensures forall e :: e in NotedAll(rs) ==> e.MapperErr?
  {
    if rs != [] {
      OnlyFailures(rs[..|rs| - 1]);
    }
  }

  lemma {:induction false} RecordCount<B>(rs: seq<IndexedResult<B>>, n: nat)
    ensures multiset(NotedAll(rs))[MapperErr(n)] == 2 * multiset(Outcomes(rs))[Failed(Code(n))]
  {
    if rs != [] {
      var front := rs[..|rs| - 1];
      RecordCount(front, n);
      LastOutcome(rs);
      OneRecordCount(NotedAll(front), Outcomes(front), rs[|rs| - 1].res, n);
    }
  }

  lemma MappedCount<A, B>(c: Config<A, B>, os: seq<Outcome<B>>, n: nat)
    requires multiset(os) == multiset(Mapped(c, |c.src|))
    ensures multiset(os)[Failed(Code(n))] == |FailingItems(c, n)|
  {
    OccursAtPositions(Mapped(c, |c.src|), Failed(Code(n)));
    assert Positions(Mapped(c, |c.src|), Failed(Code(n))) == FailingItems(c, n);
  }

  /** Unordered and uncancelled: at the end of the results channel the consumer has received
      the outcome of every source item, as a multiset. */
  lemma UnorderedComplete<A, B>(c: Config<A, B>, s: State<A, B>)
    requires Reachable(c, s) && c.Sound() && !c.ordered && s.x.Quiet() && s.k.last.Eof?
    ensures multiset(Outcomes(s.k.emitted)) == multiset(Mapped(c, |c.src|))
    ensures s.d.srcErr == c.srcEnd.WithError?
  {
    ReachableInv(c, s);
    SoundIsIntact(c, s);
    NoHole(c, s);
    assert s.k.emitted + s.queue == s.k.emitted;
    AllOutcomes(c, s.p.ws, s.k.emitted);
  }

  /** In either mode, uncancelled: at the end of the results channel an error is on the record
      exactly twice for each item whose mapper failed with it, and but for the callers' own
      contexts there is nothing else. */
  lemma RecordIsExact<A, B>(c: Config<A, B>, s: State<A, B>, n: nat)
    requires Reachable(c, s) && c.Sound() && s.x.Quiet() && s.k.last.Eof?
    ensures multiset(OwnErrs(s.k.errs))[MapperErr(n)] == 2 * |FailingItems(c, n)|
    ensures forall e :: e in OwnErrs(s.k.errs) ==> e.MapperErr?
  {
    ReachableInv(c, s);
    SoundIsIntact(c, s);
    NoHole(c, s);
    if c.ordered {
      OrderedComplete(c, s);
      assert Outcomes(s.k.emitted) == Mapped(c, |c.src|);
    } else {
      UnorderedComplete(c, s);
    }
    RecordCount(s.k.emitted, n);
    OnlyFailures(s.k.emitted);
    MappedCount(c, Outcomes(s.k.emitted), n);
  }
}
