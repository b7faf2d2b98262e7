/** When ParallelMap goes on, and how it ends. */
module ParallelMapProgress {
  // Every uncancelled schedule is finite and gets stuck only at its end, for want of a slot or
  // in a crash. After a cancellation the dispatcher, the workers and the bridge wind down
  // without any help from the consumer.

  import opened Counting
  import opened ParallelMap
  import opened ParallelMapInvariant
  import opened ParallelMapSafety

  // --------------------------------------------------------------------- measures

  ghost function WorkRank<A>(w: Worker<A>): nat {
    match w.phase
    case Running => 8
    case Sending => 7
    case Releasing => 2
    case Signalling => 1
    case Gone => 0
  }

  ghost function DispatchRank<A>(phase: DispatchPhase<A>): nat {
    match phase
    case NotStarted => 7
    case Skipped => 0
    case Fetching => 5
    case WantPending(_, _) => 16
    case WantWg(_, _) => 15
    case WantSem(_, _) => 14
    case Draining => 4
    case Cancelling => 3
    case AwaitingBridge => 2
    case Closing => 1
    case Finished => 0
  }

  ghost function BridgeRank(b: BridgePhase): nat {
    match b
    case Unborn => 3
    case Watching => 3
    case Propagating => 2
    case Exiting => 1
    case Exited => 0
  }

  /** Work left for the dispatcher, the workers and the bridge. */
  ghost function ProducerMeasure<A, B>(c: Config<A, B>, s: State<A, B>): nat
    requires s.d.fetched <= |c.src|
  {
    12 * (|c.src| - s.d.fetched) + DispatchRank(s.d.phase) + Sum(s.p.ws, WorkRank) + BridgeRank(s.x.bridge)
  }

  ghost function ConsumerMeasure<A, B>(s: State<A, B>): nat {
    4 * |s.queue| + 2 * |s.k.pending|
    + (match s.k.phase case Idle => 2 case AtHead => 1 case AtSelect => 0)
    + (if Told(s.k.last) then 0 else 3)
  }

  /** Once told the end, the consumer makes no further call. */
  ghost predicate Rests<B>(k: Consumer<B>) { Told(k.last) ==> k.phase.Idle? }

  /** A worker only moves on, and a send takes it far enough to pay for the queued result. */
  lemma WorkRankDrops<A, B>(c: Config<A, B>, s: State<A, B>, i: nat, op: WorkOp)
    requires WorkEnabled(c, s, i, op)
    ensures var s' := WorkStep(c, s, i, op);
      && |s.queue| <= |s'.queue| && i < |s'.p.ws| && s'.p.ws == s.p.ws[i := s'.p.ws[i]]
      && WorkRank(s'.p.ws[i]) + 1 + 4 * (|s'.queue| - |s.queue|) <= WorkRank(s.p.ws[i])
  {
  }

  lemma WorkDrops<A, B>(c: Config<A, B>, s: State<A, B>, i: nat, op: WorkOp)
    requires WorkEnabled(c, s, i, op)
    ensures var s' := WorkStep(c, s, i, op);
      && s'.d == s.d && s'.x == s.x && s'.k == s.k
      && Sum(s'.p.ws, WorkRank) + 1 + 4 * (|s'.queue| - |s.queue|) <= Sum(s.p.ws, WorkRank)
      && |s.queue| <= |s'.queue|
  {
    WorkFrame(c, s, i, op);
    WorkRankDrops(c, s, i, op);
    SumUpdate(s.p.ws, i, WorkStep(c, s, i, op).p.ws[i], WorkRank);
  }

  /** The dispatcher's own share of that work, with the bridge it starts. */
  ghost function DispatchMeasure<A, B>(c: Config<A, B>, d: Dispatcher<A>, bridge: BridgePhase): nat
    requires d.fetched <= |c.src|
  {
    12 * (|c.src| - d.fetched) + DispatchRank(d.phase) + BridgeRank(bridge)
  }

  lemma FetchDrops<A, B>(c: Config<A, B>, s: State<A, B>, op: DispatchOp)
    requires NumberingInv(c, s.d, s.p.ws) && DispatchEnabled(c, s, op) && s.d.phase.Fetching?
    ensures var s' := DispatchStep(c, s, op);
      && s'.d.fetched <= |c.src| && s'.x == s.x && !op.AcquireSem?
      && DispatchMeasure(c, s'.d, s.x.bridge) < DispatchMeasure(c, s.d, s.x.bridge)
  {
  }

  lemma LaunchDrops<A, B>(c: Config<A, B>, s: State<A, B>, op: DispatchOp)
    requires DispatchEnabled(c, s, op) && s.d.phase.Carrying()
    ensures var s' := DispatchStep(c, s, op);
      && s'.d.fetched == s.d.fetched && s'.x.bridge == s.x.bridge
      && DispatchRank(s'.d.phase) + (if op.AcquireSem? then 8 else 0) < DispatchRank(s.d.phase)
  {
  }

  lemma UnwindDrops<A, B>(c: Config<A, B>, s: State<A, B>, op: DispatchOp)
    requires DispatchEnabled(c, s, op) && !s.d.phase.Fetching? && !s.d.phase.Carrying()
    ensures var s' := DispatchStep(c, s, op);
      && s'.d.fetched == s.d.fetched && s'.x.bridge == (if op.Start? then Watching else s.x.bridge)
      && DispatchRank(s'.d.phase) < DispatchRank(s.d.phase) && !op.AcquireSem?
  {
    match op
    case Start =>
    case Skip =>
    case WaitWg =>
    case CancelRun =>
    case _ =>
  }

  lemma DispatchRankDrops<A, B>(c: Config<A, B>, s: State<A, B>, op: DispatchOp)
    requires NumberingInv(c, s.d, s.p.ws) && DispatchEnabled(c, s, op)
    requires s.x.bridge.Unborn? <==> s.d.phase.Unborn()
    ensures var s' := DispatchStep(c, s, op);
      && s'.d.fetched <= |c.src|
      && DispatchMeasure(c, s'.d, s'.x.bridge) + (if op.AcquireSem? then 8 else 0)
         < DispatchMeasure(c, s.d, s.x.bridge)
  {
    if s.d.phase.Fetching? {
      FetchDrops(c, s, op);
    } else if s.d.phase.Carrying() {
      LaunchDrops(c, s, op);
    } else {
      UnwindDrops(c, s, op);
    }
  }

  lemma DispatchDrops<A, B>(c: Config<A, B>, s: State<A, B>, op: DispatchOp)
    requires Inv(c, s) && DispatchEnabled(c, s, op)
    ensures var s' := DispatchStep(c, s, op);
      && s'.d.fetched <= |c.src|
      && s'.queue == s.queue && s'.k == s.k
      && ProducerMeasure(c, s') < ProducerMeasure(c, s)
  {
    DispatchRankDrops(c, s, op);
    DispatchFrame(c, s, op);
    if op.AcquireSem? {
      SumAppend(s.p.ws, Worker(s.d.phase.idx, s.d.phase.item, Running), WorkRank);
    }
  }

  lemma BridgeDrops<A, B>(c: Config<A, B>, s: State<A, B>, op: BridgeOp)
    requires s.d.fetched <= |c.src| && BridgeEnabled(s.x, op)
    ensures ProducerMeasure(c, s.(x := BridgeStep(s.x, op))) < ProducerMeasure(c, s)
  {
  }

  /** Every step of the dispatcher, a worker or the bridge uses up producer work,
      in every run, cancelled or not. */
  lemma ProducerDrops<A, B>(c: Config<A, B>, s: State<A, B>, a: Action)
    requires Inv(c, s) && Enabled(c, s, a) && Producer(a)
    ensures var s' := Step(c, s, a);
      && s'.d.fetched <= |c.src| && s'.k == s.k
      && ProducerMeasure(c, s') + 4 * |s'.queue| < ProducerMeasure(c, s) + 4 * |s.queue|
      && ProducerMeasure(c, s') < ProducerMeasure(c, s)
  {
    match a
    case Dispatch(d) => DispatchDrops(c, s, d);
    case Work(i, w) => WorkDrops(c, s, i, w);
    case Bridge(b) => BridgeDrops(c, s, b);
  }

  lemma EmitDrops<A, B>(c: Config<A, B>, s: State<A, B>)
    requires HeadReady(c, s.k) && s.tokens > 0 && s.k.phase.AtHead? && Rests(s.k)
    ensures var s' := s.(k := EmitHead(s.k), tokens := s.tokens - 1);
      ConsumerMeasure(s') < ConsumerMeasure(s) && Rests(s'.k)
  {
    assert s.k.pending.Keys == EmitHead(s.k).pending.Keys + {s.k.nextIdx};
  }

  lemma ReceiveDrops<A, B>(c: Config<A, B>, s: State<A, B>)
    requires s.queue != [] && s.k.phase.AtSelect? && Rests(s.k)
    ensures var s' := s.(k := Accept(c, s.k, s.queue[0]), queue := s.queue[1..]);
      ConsumerMeasure(s') < ConsumerMeasure(s) && Rests(s'.k)
  {
    var r := s.queue[0];
    if c.ordered {
      assert |s.k.pending[r.idx := r]| <= |s.k.pending| + 1 by {
        assert s.k.pending[r.idx := r].Keys == s.k.pending.Keys + {r.idx};
      }
    }
  }

  lemma ConsumeDrops<A, B>(c: Config<A, B>, s: State<A, B>, op: ConsumeOp)
    requires OrderInv(c, s.queue, s.k) && Rests(s.k) && ConsumeEnabled(c, s, op) && Live(s, Consume(op))
    ensures var s' := ConsumeStep(c, s, op);
      && ConsumerMeasure(s') < ConsumerMeasure(s)
      && s'.d == s.d && s'.p == s.p && s'.x == s.x && Rests(s'.k)
  {
    match op
    case EmitPending => EmitDrops(c, s);
    case Receive => ReceiveDrops(c, s);
    case _ =>
  }

  /** What is left to do for everybody. */
  ghost function WorkLeft<A, B>(c: Config<A, B>, s: State<A, B>): nat
    requires s.d.fetched <= |c.src|
  {
    ProducerMeasure(c, s) + ConsumerMeasure(s)
  }

  /** Every live step uses up work, whatever the source does. */
  lemma LiveStepDrops<A, B>(c: Config<A, B>, s: State<A, B>, a: Action)
    requires Inv(c, s) && Rests(s.k) && Enabled(c, s, a) && Live(s, a)
    ensures var s' := Step(c, s, a);
      s'.d.fetched <= |c.src| && WorkLeft(c, s') < WorkLeft(c, s) && Rests(s'.k)
  {
    if a.Consume? {
      ConsumeDrops(c, s, a.c);
    } else {
      ProducerDrops(c, s, a);
    }
  }

  /** Producers and consumer cancel nothing but runCtx, and leave the slot to the others. */
  lemma LiveFrame<A, B>(c: Config<A, B>, s: State<A, B>, a: Action)
    requires Enabled(c, s, a) && !a.Environment?
    ensures Step(c, s, a).x.Quiet() <==> s.x.Quiet()
    ensures Step(c, s, a).x.slot == s.x.slot
  {
    match a
    case Dispatch(d) => DispatchFrame(c, s, d);
    case Work(i, w) => WorkFrame(c, s, i, w);
    case _ =>
  }

  // --------------------------------------------------------------- no state is stuck

  /** A worker with a free slot in the channel, or a done context, can step. */
  lemma WorkerCanStep<A, B>(c: Config<A, B>, s: State<A, B>, i: nat) returns (a: Action)
    requires c.Valid() && Inv(c, s) && !s.crashed && i < |s.p.ws| && !s.p.ws[i].phase.Gone?
    requires |s.queue| < c.Capacity() || s.x.RunDone()
    ensures a.Work? && Enabled(c, s, a)
  {
    SumAtLeast(s.p.ws, i, HoldsSem);
    SumAtLeast(s.p.ws, i, HoldsWg);
    match s.p.ws[i].phase {
      case Running => a := Work(i, RunFn);
      case Sending => a := Work(i, if s.x.RunDone() then DropResult else SendResult);
      case Releasing => a := Work(i, ReleaseSem);
      case Signalling => a := Work(i, SignalWg);
    }
  }

  ghost predicate ProducersDone<A, B>(s: State<A, B>) {
    s.d.phase.Finished? || s.d.phase.Skipped?
  }

  lemma BridgeCanStep<A, B>(c: Config<A, B>, s: State<A, B>) returns (a: Action)
    requires Inv(c, s) && !s.crashed && !s.d.phase.Unborn() && !s.x.bridge.Exited?
    requires s.x.RunDone() || s.x.MapDone()
    ensures Producer(a) && Enabled(c, s, a)
  {
    match s.x.bridge {
      case Watching => a := Bridge(if s.x.RunDone() then SeeRunDone else SeeMapDone);
      case Propagating => a := Bridge(CancelRunCtx);
      case Exiting => a := Bridge(Exit);
    }
  }

  /** The dispatcher task waits for a slot of the scope's limit, and nothing but a slot or
      the end of the scope can move it. */
  ghost predicate WaitsForSlot<A, B>(s: State<A, B>) {
    s.d.phase.NotStarted? && !s.x.slot && !s.x.scopeDone
  }

  /** The dispatcher is never stuck outside its selects and wg.Wait. */
  lemma DispatcherCanStep<A, B>(c: Config<A, B>, s: State<A, B>) returns (a: Action)
    requires Inv(c, s) && !s.crashed && !ProducersDone(s) && !WaitsForSlot(s)
    requires !s.d.phase.WantPending? && !s.d.phase.WantSem? && !s.d.phase.Draining?
    ensures Producer(a) && Enabled(c, s, a)
  {
    match s.d.phase {
      case NotStarted => a := Dispatch(if s.x.slot then Start else Skip);
      case Fetching => a := Dispatch(if s.d.fetched < |c.src| then FetchItem else FetchEnd);
      case WantWg(_, _) => a := Dispatch(AddWg);
      case Cancelling => a := Dispatch(CancelRun);
      case AwaitingBridge =>
        if s.x.bridge.Exited? { a := Dispatch(AwaitBridge); } else { a := BridgeCanStep(c, s); }
      case Closing => a := Dispatch(CloseResults);
    }
  }

  /** A dispatcher whose context is done can give up wherever it waits: for the source, for a
      backpressure slot or for a worker slot. */
  lemma CanGiveUp<A, B>(c: Config<A, B>, s: State<A, B>) returns (op: DispatchOp)
    requires Reachable(c, s) && !s.crashed && (s.x.runCancelled || s.x.scopeDone)
    requires s.d.phase.Fetching? || s.d.phase.WantPending? || s.d.phase.WantSem?
    ensures Enabled(c, s, Dispatch(op)) && Step(c, s, Dispatch(op)).d.phase.Draining?
    ensures Step(c, s, Dispatch(op)).p.ws == s.p.ws && Step(c, s, Dispatch(op)).tokens == s.tokens
  {
    ReachableInv(c, s);
    op := if s.d.phase.Fetching? then FetchCancelled else if s.d.phase.WantPending? then AbortPending else AbortSem;
  }

  /** After any cancellation, until the dispatcher has finished or been skipped, some
      dispatcher, worker or bridge step is enabled, unless the dispatcher task still waits
      for a slot: shutting down never waits for the consumer. */
  lemma ShutdownProgress<A, B>(c: Config<A, B>, s: State<A, B>) returns (a: Action)
    requires Reachable(c, s) && !s.crashed && !s.x.Quiet() && !ProducersDone(s) && !WaitsForSlot(s)
    ensures Producer(a) && Enabled(c, s, a)
  {
    ReachableInv(c, s);
    if !s.d.phase.WantPending? && !s.d.phase.WantSem? && !s.d.phase.Draining? {
      a := DispatcherCanStep(c, s);
    } else if !s.x.RunDone() {
      a := BridgeCanStep(c, s);
    } else if s.d.phase.WantPending? {
      a := Dispatch(AbortPending);
    } else if s.d.phase.WantSem? {
      a := Dispatch(AbortSem);
    } else if s.p.wg == 0 {
      a := Dispatch(WaitWg);
    } else {
      var i := SumPositive(s.p.ws, HoldsWg);
      a := WorkerCanStep(c, s, i);
    }
  }

  /** That exception is exact: Stop and the caller's context do not reach a dispatcher task
      that waits for its slot. */
  lemma ShutdownIff<A, B>(c: Config<A, B>, s: State<A, B>)
    requires Reachable(c, s) && !s.crashed && !s.x.Quiet() && !ProducersDone(s)
    ensures (exists a :: Producer(a) && Enabled(c, s, a)) <==> !WaitsForSlot(s)
  {
    ReachableInv(c, s);
    if !WaitsForSlot(s) {
      var a := ShutdownProgress(c, s);
    }
  }

  lemma OthersLeaveProducers<A, B>(c: Config<A, B>, s: State<A, B>, a: Action)
    requires s.d.fetched <= |c.src| && Enabled(c, s, a) && !Producer(a)
    ensures var s' := Step(c, s, a);
      s'.d == s.d && s'.p == s.p && s'.x.bridge == s.x.bridge
  {
  }

  ghost function ProducerSteps(run: seq<Action>): nat {
    if run == [] then 0 else (if Producer(run[0]) then 1 else 0) + ProducerSteps(run[1..])
  }

  /** No run, however the consumer and the environment behave, contains more than
      this many dispatcher, worker and bridge steps. */
  lemma {:induction false} ProducerStepsBounded<A, B>(c: Config<A, B>, s: State<A, B>, run: seq<Action>)
    requires Inv(c, s) && CanRun(c, s, run)
    ensures ProducerSteps(run) <= ProducerMeasure(c, s)
    decreases |run|
  {
    if run != [] {
      StepKeepsInv(c, s, run[0]);
      ProducerStepsBounded(c, Step(c, s, run[0]), run[1..]);
      if Producer(run[0]) {
        ProducerDrops(c, s, run[0]);
      } else {
        OthersLeaveProducers(c, s, run[0]);
      }
    }
  }

  /** The dispatcher side of every run ends within 12 |src| + 10 steps. */
  lemma ShutdownTerminates<A, B>(c: Config<A, B>, run: seq<Action>)
    requires c.Valid() && CanRun(c, Init(c), run)
    ensures ProducerSteps(run) <= 12 * |c.src| + 10
  {
    InitInv(c);
    ProducerStepsBounded(c, Init(c), run);
  }

  /** Blocked on a full backpressure semaphore with nothing to receive, the
      missing index is still inside a worker. */
  lemma PendingHolder<A, B>(c: Config<A, B>, s: State<A, B>)
    requires c.Valid() && Inv(c, s) && c.ordered && s.lost == 0
    requires s.queue == [] && !HeadReady(c, s.k)
    requires s.k.nextIdx < |s.p.ws|
    ensures Sum(s.p.ws, Owes) > 0
  {
    forall i | i in s.k.pending.Keys ensures s.k.nextIdx + 1 <= i < |s.p.ws| {
      assert Genuine(c, s.p.ws, s.k.pending[i]);
    }
    IntervalCard(s.k.pending.Keys, s.k.nextIdx + 1, |s.p.ws|);
  }

  /** With an empty queue and no cancellation, a producer can always step until the dispatcher finishes. */
  lemma QuietProducerProgress<A, B>(c: Config<A, B>, s: State<A, B>) returns (a: Action)
    requires c.Valid() && Inv(c, s) && s.x.Quiet() && s.queue == [] && !HeadReady(c, s.k) && !s.closed
    requires !WaitsForSlot(s)
    ensures Producer(a) && Enabled(c, s, a)
  {
    if !s.d.phase.WantPending? && !s.d.phase.WantSem? && !s.d.phase.Draining? {
      a := DispatcherCanStep(c, s);
    } else if s.d.phase.WantPending? {
      if s.tokens < c.maxPending {
        a := Dispatch(AcquirePending);
      } else {
        PendingHolder(c, s);
        var i := SumPositive(s.p.ws, Owes);
        a := WorkerCanStep(c, s, i);
      }
    } else if s.d.phase.WantSem? {
      if s.p.sem < c.maxWorkers {
        a := Dispatch(AcquireSem);
      } else {
        var i := SumPositive(s.p.ws, HoldsSem);
        a := WorkerCanStep(c, s, i);
      }
    } else if s.p.wg == 0 {
      a := Dispatch(WaitWg);
    } else {
      var i := SumPositive(s.p.ws, HoldsWg);
      a := WorkerCanStep(c, s, i);
    }
  }

  /** Everything has wound down and the consumer has been told the end. */
  ghost predicate Terminal<A, B>(s: State<A, B>) {
    && s.d.phase.Finished? && s.x.bridge.Exited?
    && (forall i :: 0 <= i < |s.p.ws| ==> s.p.ws[i].phase.Gone?)
    && s.k.phase.Idle? && Told(s.k.last)
  }

  lemma EmitHasToken<A, B>(c: Config<A, B>, s: State<A, B>)
    requires Reachable(c, s)
    ensures HeadReady(c, s.k) ==> s.tokens > 0
  {
    if c.ordered {
      Backpressure(c, s);
    }
  }

  /** A consumer waits in Next for a dispatcher task that waits for a slot. */
  ghost predicate Starved<A, B>(s: State<A, B>) {
    WaitsForSlot(s) && s.k.phase.AtSelect?
  }

  /** A call that waits on the closed channel can end. */
  lemma CloseCanStep<A, B>(c: Config<A, B>, s: State<A, B>) returns (a: Action)
    requires OrderInv(c, s.queue, s.k) && !s.crashed && s.k.phase.AtSelect? && s.queue == [] && s.closed
    ensures Live(s, a) && Enabled(c, s, a)
  {
    if i :| c.ordered && i in s.k.pending && s.k.pending[i].res.Failed? {
      a := Consume(ReceiveClosedFailed(i));
    } else {
      a := Consume(ReceiveClosed);
    }
  }

  /** A consumer that has been told the end while somebody is left. */
  lemma StragglerCanStep<A, B>(c: Config<A, B>, s: State<A, B>) returns (a: Action)
    requires c.Valid() && Inv(c, s) && !s.crashed && !Terminal(s) && s.k.phase.Idle? && Told(s.k.last)
    ensures Live(s, a) && Enabled(c, s, a)
  {
    var i :| 0 <= i < |s.p.ws| && !s.p.ws[i].phase.Gone?;
    a := WorkerCanStep(c, s, i);
  }

  /** Deadlock freedom: an uncancelled reachable state that has neither crashed nor ended has
      a live step, for every source, MaxWorkers >= 1, MaxPending >= 1 and BufferSize >= 0,
      unless it is starved. */
  lemma Progress<A, B>(c: Config<A, B>, s: State<A, B>) returns (a: Action)
    requires Reachable(c, s) && s.x.Quiet() && !s.crashed && !Terminal(s) && !Starved(s)
    ensures Live(s, a) && Enabled(c, s, a)
  {
    ReachableInv(c, s);
    match s.k.phase {
      case Idle =>
        if Told(s.k.last) {
          a := StragglerCanStep(c, s);
        } else {
          a := Consume(CallNext);
        }
      case AtHead =>
        EmitHasToken(c, s);
        a := Consume(if HeadReady(c, s.k) then EmitPending else LookPast);
      case AtSelect =>
        if s.queue != [] {
          a := Consume(Receive);
        } else if s.closed {
          a := CloseCanStep(c, s);
        } else {
          a := QuietProducerProgress(c, s);
        }
    }
  }

  /** No live step is left. */
  ghost predicate Stuck<A, B>(c: Config<A, B>, s: State<A, B>) {
    forall a :: Live(s, a) ==> !Enabled(c, s, a)
  }

  lemma EndIsStuck<A, B>(c: Config<A, B>, s: State<A, B>)
    requires BridgeInv(s.d.phase, s.closed, s.x) && s.queue == []
    requires Terminal(s) || (Starved(s) && s.p.ws == []) || s.crashed
    ensures Stuck(c, s)
  {
  }

  /** Uncancelled, nothing can go on exactly when everything has ended, when the dispatcher
      starves, or when the process has crashed. */
  lemma StuckIff<A, B>(c: Config<A, B>, s: State<A, B>)
    requires Reachable(c, s) && s.x.Quiet()
    ensures Stuck(c, s) <==> Terminal(s) || Starved(s) || s.crashed
  {
    ReachableInv(c, s);
    if s.crashed {
    } else if Terminal(s) || Starved(s) {
      EndIsStuck(c, s);
    } else {
      var a := Progress(c, s);
    }
  }

  /** Neither a slot is offered nor the scope cancelled. */
  ghost predicate NoHelp(run: seq<Action>) {
    forall j :: 0 <= j < |run| ==> run[j] != Environment(OfferSlot) && run[j] != Environment(CancelScope)
  }

  /** Before the dispatcher starts there is nothing to receive and nothing to hand out. */
  ghost predicate NothingYet<A, B>(c: Config<A, B>, s: State<A, B>) {
    s.queue == [] && !s.closed && !HeadReady(c, s.k) && s.k.emitted == [] && s.p.ws == []
  }

  lemma UnstartedIsEmpty<A, B>(c: Config<A, B>, s: State<A, B>)
    requires Inv(c, s) && s.d.phase.NotStarted?
    ensures NothingYet(c, s)
  {
  }

  lemma NoSlotStep<A, B>(c: Config<A, B>, s: State<A, B>, a: Action)
    requires WaitsForSlot(s) && NothingYet(c, s) && Enabled(c, s, a)
    requires a != Environment(OfferSlot) && a != Environment(CancelScope)
    ensures var s' := Step(c, s, a); WaitsForSlot(s') && (s'.k.last == s.k.last || s'.k.last.CtxErr?)
  {
  }

  /** Without such help a dispatcher that waits for its slot waits for ever, whether the
      consumer stops the stream or the caller's context ends: nothing is ever sent or closed,
      and a Next can only be ended by its own context. */
  lemma {:induction false} NoSlotNoStart<A, B>(c: Config<A, B>, s: State<A, B>, run: seq<Action>)
    requires Inv(c, s) && WaitsForSlot(s) && CanRun(c, s, run) && NoHelp(run)
    ensures var s' := After(c, s, run);
      && WaitsForSlot(s') && !s'.closed && s'.queue == [] && s'.k.emitted == []
      && (s'.k.last == s.k.last || s'.k.last.CtxErr?)
    decreases |run|
  {
    UnstartedIsEmpty(c, s);
    if run != [] {
      assert NoHelp(run[1..]);
      NoSlotStep(c, s, run[0]);
      StepKeepsInv(c, s, run[0]);
      NoSlotNoStart(c, Step(c, s, run[0]), run[1..]);
    }
  }

  // ------------------------------------------------------------- runs to completion

  /** The steps of a run that are not the environment's. */
  ghost function LiveSteps(run: seq<Action>): nat {
    if run == [] then 0 else (if run[0].Environment? then 0 else 1) + LiveSteps(run[1..])
  }

  lemma UncancelledStep<A, B>(c: Config<A, B>, s: State<A, B>, a: Action, kept: bool)
    requires Inv(c, s) && s.x.Quiet() && Rests(s.k) && Enabled(c, s, a) && Follows(Uncancelled(kept), s, a)
    ensures var s' := Step(c, s, a);
      && s'.d.fetched <= |c.src|
      && WorkLeft(c, s') + (if a.Environment? then 0 else 1) <= WorkLeft(c, s)
      && s'.x.Quiet() && Rests(s'.k) && (kept && s.x.slot ==> s'.x.slot)
  {
    if !a.Environment? {
      LiveStepDrops(c, s, a);
      LiveFrame(c, s, a);
    }
  }

  lemma {:induction false} LiveStepsBounded<A, B>(c: Config<A, B>, s: State<A, B>, run: seq<Action>, kept: bool)
    requires Inv(c, s) && s.x.Quiet() && Rests(s.k) && CanRun(c, s, run) && InManner(c, s, run, Uncancelled(kept))
    ensures LiveSteps(run) <= WorkLeft(c, s)
    ensures After(c, s, run).x.Quiet() && (kept && s.x.slot ==> After(c, s, run).x.slot)
    decreases |run|
  {
    if run != [] {
      StepKeepsInv(c, s, run[0]);
      UncancelledStep(c, s, run[0], kept);
      LiveStepsBounded(c, Step(c, s, run[0]), run[1..], kept);
    }
  }

  /** At the end every item is accounted for: handed out, buffered behind a hole, or dropped. */
  lemma TerminalAccounts<A, B>(c: Config<A, B>, s: State<A, B>)
    requires Inv(c, s) && s.x.Quiet() && Terminal(s)
    ensures |s.k.emitted| + |s.k.pending| + s.lost == |c.src|
  {
    SumOfNone(s.p.ws, Owes);
  }

  /** ParallelMap without cancellation, for every source, panics included, and whatever the
      other tasks do with the dispatcher's slot: a schedule has at most 12 |src| + 15 steps of
      its own, and when it cannot go on everything has wound down, with every item accounted
      for, or the dispatcher starves, or the process has crashed. */
  lemma EveryScheduleEnds<A, B>(c: Config<A, B>, run: seq<Action>, kept: bool)
    requires c.Valid() && CanRun(c, Init(c), run) && InManner(c, Init(c), run, Uncancelled(kept))
    ensures LiveSteps(run) <= 12 * |c.src| + 15
    ensures var s := After(c, Init(c), run);
      && (Stuck(c, s) <==> Terminal(s) || Starved(s) || s.crashed)
      && (Terminal(s) ==> |s.k.emitted| + |s.k.pending| + s.lost == |c.src|)
      && (c.ordered ==> s.k.nextIdx <= |c.src| && s.k.emitted == Results(c, s.k.nextIdx))
      && (kept && c.slotFree ==> !Starved(s))
  {
    InitInv(c);
    LiveStepsBounded(c, Init(c), run, kept);
    var s := After(c, Init(c), run);
    assert Reachable(c, s);
    ReachableInv(c, s);
    StuckIff(c, s);
    if Terminal(s) {
      TerminalAccounts(c, s);
    }
    if c.ordered {
      OrderedPrefix(c, s);
    }
  }

  lemma NoCallErrEntry<A, B>(c: Config<A, B>, s: State<A, B>, op: ConsumeOp)
    requires ConsumeEnabled(c, s, op) && !op.SeeCtxDone?
    ensures CallErr !in Entry(s.k, ConsumeStep(c, s, op).k)
  {
    var k' := ConsumeStep(c, s, op).k;
    assert k'.phase.Idle? ==> !k'.last.CtxErr?;
  }

  lemma NoCallErrStep<A, B>(c: Config<A, B>, s: State<A, B>, a: Action, kept: bool)
    requires Enabled(c, s, a) && Follows(Uncancelled(kept), s, a) && CallErr !in s.k.errs
    ensures CallErr !in Step(c, s, a).k.errs
  {
    if a.Consume? {
      ConsumeRecords(c, s, a.c);
      NoCallErrEntry(c, s, a.c);
    } else {
      OthersKeepConsumer(c, s, a);
    }
  }

  lemma {:induction false} NoCallErr<A, B>(c: Config<A, B>, s: State<A, B>, run: seq<Action>, kept: bool)
    requires CanRun(c, s, run) && InManner(c, s, run, Uncancelled(kept)) && CallErr !in s.k.errs
    ensures CallErr !in After(c, s, run).k.errs
    decreases |run|
  {
    if run != [] {
      NoCallErrStep(c, s, run[0], kept);
      NoCallErr(c, Step(c, s, run[0]), run[1..], kept);
    }
  }

  lemma {:induction false} AllOwn(errs: seq<StreamErr>)
    requires CallErr !in errs
    ensures OwnErrs(errs) == errs
  {
    if errs != [] {
      AllOwn(errs[..|errs| - 1]);
    }
  }

  /** With a slot for the dispatcher and a sound source that is total correctness: every
      schedule ends, and one that cannot be extended has delivered every result, in source
      order if ordered, with an error on the record twice for each item that failed with it,
      nothing else there, and the source's own error recorded iff it ended with one. */
  lemma EveryScheduleDelivers<A, B>(c: Config<A, B>, run: seq<Action>)
    requires c.Valid() && c.Sound() && c.slotFree
    requires CanRun(c, Init(c), run) && InManner(c, Init(c), run, Uncancelled(true))
    ensures LiveSteps(run) <= 12 * |c.src| + 15
    ensures var s := After(c, Init(c), run);
      Stuck(c, s) ==>
        && Terminal(s) && s.k.last.Eof?
        && |s.k.emitted| == |c.src|
        && (forall n :: multiset(s.k.errs)[MapperErr(n)] == 2 * |FailingItems(c, n)|)
        && (forall e :: e in s.k.errs ==> e.MapperErr?)
        && (if c.ordered then s.k.emitted == Results(c, |c.src|)
            else multiset(Outcomes(s.k.emitted)) == multiset(Mapped(c, |c.src|)))
        && (s.d.srcErr <==> c.srcEnd.WithError?)
  {
    EveryScheduleEnds(c, run, true);
    NoCallErr(c, Init(c), run, true);
    InitInv(c);
    LiveStepsBounded(c, Init(c), run, true);
    var s := After(c, Init(c), run);
    assert Reachable(c, s);
    ReachableInv(c, s);
    SoundIsIntact(c, s);
    if Stuck(c, s) {
      NoHole(c, s);
      NeverGap(c, s);
      AllOwn(s.k.errs);
      forall n ensures multiset(s.k.errs)[MapperErr(n)] == 2 * |FailingItems(c, n)| {
        RecordIsExact(c, s, n);
      }
      RecordIsExact(c, s, 0);
      if c.ordered {
        OrderedComplete(c, s);
      } else {
        UnorderedComplete(c, s);
      }
    }
  }

  /** A first Next on a stream whose dispatcher task has no slot: two steps, then nothing. */
  lemma StarvedSchedule<A, B>(c: Config<A, B>) returns (run: seq<Action>)
    requires c.Valid() && !c.slotFree
    ensures CanRun(c, Init(c), run) && InManner(c, Init(c), run, Uncancelled(true))
    ensures var s := After(c, Init(c), run); Starved(s) && Stuck(c, s) && !Terminal(s) && !s.crashed
  {
    run := [Consume(CallNext), Consume(LookPast)];
    var s1 := Step(c, Init(c), run[0]);
    assert run[1..] == [run[1]] && run[1..][1..] == [];
    assert CanRun(c, s1, run[1..]) && InManner(c, s1, run[1..], Uncancelled(true));
    var s := After(c, Init(c), run);
    assert s == Step(c, s1, run[1]);
    assert Reachable(c, s);
    StuckIff(c, s);
  }

  /** The schedule winds down, or crashes, when it cannot go on. */
  ghost predicate WindsDown<A, B>(c: Config<A, B>, run: seq<Action>)
    requires CanRun(c, Init(c), run)
  {
    var s := After(c, Init(c), run);
    Stuck(c, s) ==> Terminal(s) || s.crashed
  }

  /** The slot is what it takes: with no slot free when the dispatcher task is spawned there
      is a schedule that ends before it begins. */
  lemma WindsDownIffSlotFree<A, B>(c: Config<A, B>)
    requires c.Valid()
    ensures (forall run :: CanRun(c, Init(c), run) && InManner(c, Init(c), run, Uncancelled(true)) ==> WindsDown(c, run))
            <==> c.slotFree
  {
    if c.slotFree {
      forall run | CanRun(c, Init(c), run) && InManner(c, Init(c), run, Uncancelled(true))
        ensures WindsDown(c, run)
      {
        EveryScheduleEnds(c, run, true);
      }
    } else {
      var run := StarvedSchedule(c);
      assert !WindsDown(c, run);
    }
  }

  // ---------------------------------------------------------- the skipped dispatcher

  lemma {:induction false} SkippedStays<A, B>(c: Config<A, B>, s: State<A, B>, run: seq<Action>)
    requires Inv(c, s) && s.d.phase.Skipped? && CanRun(c, s, run)
    ensures After(c, s, run).d.phase.Skipped?
    ensures Inv(c, After(c, s, run))
    decreases |run|
  {
    if run != [] {
      StepKeepsInv(c, s, run[0]);
      SkippedStays(c, Step(c, s, run[0]), run[1..]);
    }
  }

  /** A scope cancelled before the dispatcher task runs never closes the channel: from
      then on a Next can only be ended by its own context. */
  lemma SkippedNeverCloses<A, B>(c: Config<A, B>, s: State<A, B>, run: seq<Action>)
    requires Reachable(c, s) && s.d.phase.Skipped? && CanRun(c, s, run)
    ensures var s' := After(c, s, run);
      !s'.closed && s'.queue == [] && s'.k.emitted == [] && (s'.k.last.NoCall? || s'.k.last.CtxErr?)
  {
    ReachableInv(c, s);
    SkippedStays(c, s, run);
  }

  /** Such a state can be reached: the scope is cancelled while the dispatcher task waits. */
  lemma SkippedIsReachable<A, B>(c: Config<A, B>) returns (s: State<A, B>)
    requires c.Valid()
    ensures Reachable(c, s) && s.d.phase.Skipped?
  {
    s := Init(c);
    assert CanRun(c, Init(c), []) && After(c, Init(c), []) == s;
    ReachableStep(c, s, Environment(CancelScope));
    s := Step(c, s, Environment(CancelScope));
    ReachableStep(c, s, Dispatch(Skip));
    s := Step(c, s, Dispatch(Skip));
  }
}
