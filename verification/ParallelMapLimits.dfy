/** Where ParallelMap's promises end, exactly. */
module ParallelMapLimits {
  // A source that panics, a mapper that answers io.EOF, and the schedules that show it.

  import opened Counting
  import opened ParallelMap
  import opened ParallelMapInvariant
  import opened ParallelMapSafety
  import opened ParallelMapProgress
  import opened ParallelMapScenarios

  // ------------------------------------------------------------- a source that panics

  /** A worker that is left behind by a panic can send on the closed channel ... */
  lemma CrashRun<A, B>(c: Config<A, B>, m: Manner) returns (s: State<A, B>)
    requires c.Valid() && !c.Sound()
    requires m.Polite? ==> forall i :: 0 <= i < |c.src| - 2 ==> c.fn(c.src[i]) != Failed(IoEof)
    ensures ReachableAs(c, s, m) && s.x.Quiet() && s.crashed && !Terminal(s)
  {
    var n := |c.src| - 1;
    s := ClosedUnderWorker(c, m);
    Take(c, s, Work(n, RunFn), m);
    s := Step(c, s, Work(n, RunFn));
    Take(c, s, Work(n, SendOnClosed), m);
    s := Step(c, s, Work(n, SendOnClosed));
  }

  /** ... or see its context done and drop the result, after which the stream just ends. */
  lemma LossRun<A, B>(c: Config<A, B>, m: Manner) returns (s: State<A, B>)
    requires c.Valid() && !c.Sound()
    requires m.Polite? ==> forall i :: 0 <= i < |c.src| - 1 ==> c.fn(c.src[i]) != Failed(IoEof)
    ensures ReachableAs(c, s, m) && s.x.Quiet() && s.k.last.Eof? && |s.k.emitted| < |c.src|
  {
    var n := |c.src| - 1;
    s := ClosedUnderWorker(c, m);
    Drop(c, s, n, m);
    s := Dropped(s, n);
    Take(c, s, Consume(CallNext), m);
    s := Step(c, s, Consume(CallNext));
    Take(c, s, Consume(LookPast), m);
    s := Step(c, s, Consume(LookPast));
    Take(c, s, Consume(ReceiveClosed), m);
    s := Step(c, s, Consume(ReceiveClosed));
  }

  /** Some run sends on the closed results channel exactly when the source panics after it
      has yielded an item. */
  lemma CrashIff<A, B>(c: Config<A, B>)
    requires c.Valid()
    ensures (exists s :: Reachable(c, s) && s.crashed) <==> !c.Sound()
  {
    if c.Sound() {
      forall s | Reachable(c, s) ensures !s.crashed {
        ReachableInv(c, s);
        SoundIsIntact(c, s);
      }
    } else {
      var s := CrashRun(c, Anyhow);
    }
  }

  /** Uncancelled, the end of the results channel stands for all results exactly when the
      source does not panic after it has yielded an item. */
  lemma CompleteIff<A, B>(c: Config<A, B>)
    requires c.Valid()
    ensures (forall s :: Reachable(c, s) && s.x.Quiet() && s.k.last.Eof? ==> |s.k.emitted| == |c.src|)
            <==> c.Sound()
  {
    if c.Sound() {
      forall s | Reachable(c, s) && s.x.Quiet() && s.k.last.Eof? ensures |s.k.emitted| == |c.src| {
        ReachableInv(c, s);
        SoundIsIntact(c, s);
        NoHole(c, s);
      }
    } else {
      var s := LossRun(c, Anyhow);
    }
  }

  /** A mapper can still be running after the dispatcher task has returned exactly when the
      source panics after it has yielded an item. */
  lemma OutlivesIff<A, B>(c: Config<A, B>)
    requires c.Valid()
    ensures (exists s, i :: Reachable(c, s) && s.d.phase.Finished? && 0 <= i < |s.p.ws| && s.p.ws[i].phase.Running?)
            <==> !c.Sound()
  {
    if c.Sound() {
      forall s, i | Reachable(c, s) && s.d.phase.Finished? && 0 <= i < |s.p.ws| ensures !s.p.ws[i].phase.Running? {
        ReachableInv(c, s);
        SoundIsIntact(c, s);
        NoWorkersPastWait(c, s.d, s.p);
      }
    } else {
      var s := ClosedUnderWorker(c, Anyhow);
      assert Reachable(c, s) && s.p.ws[|c.src| - 1].phase.Running?;
    }
  }

  /** The schedule delivers every result when it cannot go on. */
  ghost predicate Delivers<A, B>(c: Config<A, B>, run: seq<Action>)
    requires CanRun(c, Init(c), run)
  {
    var s := After(c, Init(c), run);
    Stuck(c, s) ==> Terminal(s) && s.k.last.Eof? && |s.k.emitted| == |c.src|
  }

  /** Uncancelled schedules all deliver exactly when the dispatcher task finds a slot free and
      the source does not panic after it has yielded an item. */
  lemma DeliversIff<A, B>(c: Config<A, B>)
    requires c.Valid()
    ensures (forall run :: CanRun(c, Init(c), run) && InManner(c, Init(c), run, Uncancelled(true)) ==> Delivers(c, run))
            <==> c.slotFree && c.Sound()
  {
    if !c.slotFree {
      var run := StarvedSchedule(c);
      assert !Delivers(c, run);
    } else if !c.Sound() {
      var s := CrashRun(c, Uncancelled(true));
      var run :| CanRun(c, Init(c), run) && After(c, Init(c), run) == s && InManner(c, Init(c), run, Uncancelled(true));
      EveryScheduleEnds(c, run, true);
      assert !Delivers(c, run);
    } else {
      forall run | CanRun(c, Init(c), run) && InManner(c, Init(c), run, Uncancelled(true)) ensures Delivers(c, run) {
        EveryScheduleDelivers(c, run);
      }
    }
  }

  // --------------------------------------------------------------------- reported gaps

  /** How the closed channel is answered when only the result of the last item is buffered. */
  ghost function GapVerdict<A, B>(c: Config<A, B>): Return<B>
    requires c.src != []
  {
    var o := c.fn(c.src[|c.src| - 1]);
    if o.Failed? then Embedded(o) else Gap
  }

  lemma GapRun<A, B>(c: Config<A, B>) returns (s: State<A, B>)
    requires c.Valid() && c.ordered && c.srcEnd.InPanic?
    requires |c.src| >= 2 && c.maxWorkers >= 2 && c.maxPending >= 2
    ensures Reachable(c, s) && s.x.Quiet() && s.k.last == GapVerdict(c)
    ensures s.k.emitted == Results(c, |c.src| - 2)
  {
    var n := |c.src| - 2;
    s := BehindTheHole(c, n);
    var op := if c.fn(c.src[n + 1]).Failed? then ReceiveClosedFailed(n + 1) else ReceiveClosed;
    assert s.k.pending == map[n + 1 := c.Result(n + 1)];
    assert |s.k.pending| == 1;
    ReachableStep(c, s, Consume(op));
    s := Step(c, s, Consume(op));
  }

  /** The result of item i has not reached the consumer's side. */
  ghost predicate Absent<B>(i: nat, queue: seq<IndexedResult<B>>, k: Consumer<B>) {
    && (forall j :: 0 <= j < |queue| ==> queue[j].idx != i)
    && (forall j :: 0 <= j < |k.emitted| ==> k.emitted[j].idx != i)
    && i !in k.pending
  }

  /** Only the last worker can still hold the slot. */
  ghost predicate LastHolds<A>(ws: seq<Worker<A>>) {
    forall j :: 0 <= j < |ws| - 1 ==> HoldsSem(ws[j]) == 0
  }

  /** With a single worker slot, without a cancellation: at most one result is owed or lost,
      and if one is lost it is the last one's, to a panic. */
  ghost predicate LossInv<A, B>(d: Dispatcher<A>, ws: seq<Worker<A>>, queue: seq<IndexedResult<B>>,
    k: Consumer<B>, lost: nat)
  {
    && lost + Sum(ws, Owes) <= 1
    && (lost > 0 ==> d.panicked && ws != [] && Absent(|ws| - 1, queue, k))
  }

  ghost predicate SoloInv<A, B>(c: Config<A, B>, s: State<A, B>) {
    LastHolds(s.p.ws) && (s.x.Quiet() ==> LossInv(s.d, s.p.ws, s.queue, s.k, s.lost))
  }

  lemma SoloLaunch<A, B>(d: Dispatcher<A>, d': Dispatcher<A>, ws: seq<Worker<A>>, w: Worker<A>,
    queue: seq<IndexedResult<B>>, k: Consumer<B>, lost: nat, quiet: bool)
    requires Sum(ws, HoldsSem) == 0 && w.phase.Running? && !d.panicked
    requires quiet ==> LossInv(d, ws, queue, k, lost)
    ensures LastHolds(ws + [w]) && (quiet ==> LossInv(d', ws + [w], queue, k, lost))
  {
    SumZero(ws, HoldsSem);
    SumMonotone(ws, Owes, HoldsSem);
    SumAppend(ws, w, Owes);
  }

  lemma SoloDispatch<A, B>(c: Config<A, B>, s: State<A, B>, op: DispatchOp)
    requires CountersInv(c, s.d, s.p) && PanicInv(c, s.d, |s.p.ws|, s.crashed)
    requires c.maxWorkers == 1 && SoloInv(c, s) && DispatchEnabled(c, s, op)
    ensures SoloInv(c, DispatchStep(c, s, op))
  {
    DispatchFrame(c, s, op);
    if op.AcquireSem? {
      SoloLaunch(s.d, DispatchStep(c, s, op).d, s.p.ws, Worker(s.d.phase.idx, s.d.phase.item, Running),
                 s.queue, s.k, s.lost, s.x.Quiet());
    }
  }

  /** A worker moves on without sending or dropping. */
  lemma SoloMove<A, B>(d: Dispatcher<A>, ws: seq<Worker<A>>, i: nat, phase: WorkPhase,
    queue: seq<IndexedResult<B>>, k: Consumer<B>, lost: nat, quiet: bool)
    requires i < |ws| && LastHolds(ws) && (quiet ==> LossInv(d, ws, queue, k, lost))
    requires HoldsSem(ws[i].(phase := phase)) <= HoldsSem(ws[i]) && Owes(ws[i].(phase := phase)) == Owes(ws[i])
    ensures LastHolds(Advance(ws, i, phase))
    ensures quiet ==> LossInv(d, Advance(ws, i, phase), queue, k, lost)
  {
    SumUpdate(ws, i, ws[i].(phase := phase), Owes);
  }

  lemma SoloSend<A, B>(c: Config<A, B>, d: Dispatcher<A>, ws: seq<Worker<A>>, i: nat,
    queue: seq<IndexedResult<B>>, k: Consumer<B>, lost: nat, quiet: bool, r: IndexedResult<B>)
    requires i < |ws| && LastHolds(ws) && (quiet ==> LossInv(d, ws, queue, k, lost)) && ws[i].phase.Sending?
    ensures LastHolds(Advance(ws, i, Releasing))
    ensures quiet ==> LossInv(d, Advance(ws, i, Releasing), queue + [r], k, lost)
  {
    SumUpdate(ws, i, ws[i].(phase := Releasing), Owes);
    SumAtLeast(ws, i, Owes);
  }

  lemma SoloDrop<A, B>(c: Config<A, B>, d: Dispatcher<A>, ws: seq<Worker<A>>, i: nat,
    queue: seq<IndexedResult<B>>, k: Consumer<B>, lost: nat, quiet: bool)
    requires i < |ws| && LastHolds(ws) && (quiet ==> LossInv(d, ws, queue, k, lost) && d.panicked)
    requires ws[i].phase.Sending? && FlowInv(c, ws, queue, k, lost)
    ensures LastHolds(Advance(ws, i, Releasing))
    ensures quiet ==> LossInv(d, Advance(ws, i, Releasing), queue, k, lost + 1)
  {
    SumUpdate(ws, i, ws[i].(phase := Releasing), Owes);
    SumAtLeast(ws, i, Owes);
    assert i == |ws| - 1;
    assert Absent(i, queue, k);
  }

  lemma SoloWork<A, B>(c: Config<A, B>, s: State<A, B>, i: nat, op: WorkOp)
    requires CountersInv(c, s.d, s.p) && BridgeInv(s.d.phase, s.closed, s.x)
    requires FlowInv(c, s.p.ws, s.queue, s.k, s.lost)
    requires c.maxWorkers == 1 && SoloInv(c, s) && WorkEnabled(c, s, i, op)
    ensures SoloInv(c, WorkStep(c, s, i, op))
  {
    WorkKeepsCounters(c, s, i, op);
    var quiet := s.x.Quiet();
    match op
    case RunFn => SoloMove(s.d, s.p.ws, i, Sending, s.queue, s.k, s.lost, quiet);
    case SendResult =>
      SoloSend(c, s.d, s.p.ws, i, s.queue, s.k, s.lost, quiet, IndexedResult(s.p.ws[i].idx, c.fn(s.p.ws[i].item)));
    case SendOnClosed => SoloDrop(c, s.d, s.p.ws, i, s.queue, s.k, s.lost, quiet);
    case DropResult => SoloDrop(c, s.d, s.p.ws, i, s.queue, s.k, s.lost, quiet);
    case ReleaseSem => SoloMove(s.d, s.p.ws, i, Signalling, s.queue, s.k, s.lost, quiet);
    case SignalWg => SoloMove(s.d, s.p.ws, i, Gone, s.queue, s.k, s.lost, quiet);
  }

  /** The consumer only passes results on. */
  lemma SoloConsume<A, B>(c: Config<A, B>, s: State<A, B>, op: ConsumeOp)
    requires SoloInv(c, s) && ConsumeEnabled(c, s, op)
    requires forall i :: i in s.k.pending ==> s.k.pending[i].idx == i
    ensures SoloInv(c, ConsumeStep(c, s, op))
  {
    var s' := ConsumeStep(c, s, op);
    if s.p.ws != [] && Absent(|s.p.ws| - 1, s.queue, s.k) {
      assert Absent(|s.p.ws| - 1, s'.queue, s'.k);
    }
  }

  lemma SoloContexts<A, B>(c: Config<A, B>, s: State<A, B>, x: Contexts)
    requires SoloInv(c, s) && (x.Quiet() ==> s.x.Quiet())
    ensures SoloInv(c, s.(x := x))
  {
  }

  lemma SoloStep<A, B>(c: Config<A, B>, s: State<A, B>, a: Action)
    requires Inv(c, s) && c.maxWorkers == 1 && SoloInv(c, s) && Enabled(c, s, a)
    ensures SoloInv(c, Step(c, s, a))
  {
    match a
    case Dispatch(d) => SoloDispatch(c, s, d);
    case Work(i, w) => SoloWork(c, s, i, w);
    case Consume(o) => SoloConsume(c, s, o);
    case Bridge(b) => SoloContexts(c, s, BridgeStep(s.x, b));
    case Environment(e) => SoloContexts(c, s, EnvStep(s.x, e));
  }

  lemma {:induction false} SoloRun<A, B>(c: Config<A, B>, s: State<A, B>, run: seq<Action>)
    requires Inv(c, s) && c.maxWorkers == 1 && SoloInv(c, s) && CanRun(c, s, run)
    ensures SoloInv(c, After(c, s, run))
    decreases |run|
  {
    if run != [] {
      StepKeepsInv(c, s, run[0]);
      SoloStep(c, s, run[0]);
      SoloRun(c, Step(c, s, run[0]), run[1..]);
    }
  }

  /** If the only worker that can hold the slot owes nothing, none does. */
  lemma {:induction false} LastSentNoneOwed<A>(ws: seq<Worker<A>>)
    requires LastHolds(ws)
    requires ws != [] ==> Owes(ws[|ws| - 1]) == 0
    ensures Sum(ws, Owes) == 0
  {
    if ws != [] {
      LastSentNoneOwed(ws[..|ws| - 1]);
    }
  }

  /** One worker slot, no cancellation: the reorder map is empty at the end. */
  lemma SoloNoHole<A, B>(c: Config<A, B>, d: Dispatcher<A>, ws: seq<Worker<A>>, k: Consumer<B>, lost: nat)
    requires LastHolds(ws) && LossInv(d, ws, [], k, lost)
    requires FlowInv(c, ws, [], k, lost) && OrderInv(c, [], k) && c.ordered && !HeadReady(c, k)
    ensures |k.pending| == 0
  {
    var last := |ws| - 1;
    forall i | i in k.pending.Keys ensures k.nextIdx + 1 <= i <= last {
      assert Genuine(c, ws, k.pending[i]);
    }
    if |k.pending| > 0 {
      var i: nat :| i in k.pending.Keys;
      IntervalCard(k.pending.Keys, k.nextIdx + 1, last + 1);
      if last !in k.pending {
        IntervalCard(k.pending.Keys, k.nextIdx + 1, last);
      } else {
        LastSentNoneOwed(ws);
      }
    }
  }

  /** A buffered result behind the missing one: two items, and two slots taken. */
  lemma HoleTakesTwo<A, B>(c: Config<A, B>, s: State<A, B>)
    requires Inv(c, s) && c.ordered && Sealed(c, s) && |s.k.pending| > 0
    ensures |c.src| >= 2 && c.maxPending >= 2
  {
    var i: nat :| i in s.k.pending.Keys;
    assert Genuine(c, s.p.ws, s.k.pending[i]) && i >= s.k.nextIdx + 1;
  }

  lemma NoGapOtherwise<A, B>(c: Config<A, B>, s: State<A, B>)
    requires Reachable(c, s) && c.ordered && s.x.Quiet() && (s.k.last.Gap? || s.k.last.Embedded?)
    ensures c.srcEnd.InPanic? && |c.src| >= 2 && c.maxWorkers >= 2 && c.maxPending >= 2
  {
    ReachableInv(c, s);
    HoleTakesTwo(c, s);
    if c.Sound() {
      NeverGap(c, s);
    }
    if c.maxWorkers == 1 {
      var run :| CanRun(c, Init(c), run) && After(c, Init(c), run) == s;
      InitInv(c);
      SoloRun(c, Init(c), run);
      SoloNoHole(c, s.d, s.p.ws, s.k, s.lost);
    }
  }

  /** An uncancelled ordered stream can report a gap exactly when its source panics after at
      least two items and two results can be under way at once. */
  lemma GapIff<A, B>(c: Config<A, B>)
    requires c.Valid() && c.ordered
    ensures (exists s :: Reachable(c, s) && s.x.Quiet() && (s.k.last.Gap? || s.k.last.Embedded?))
        <==> c.srcEnd.InPanic? && |c.src| >= 2 && c.maxWorkers >= 2 && c.maxPending >= 2
  {
    if c.srcEnd.InPanic? && |c.src| >= 2 && c.maxWorkers >= 2 && c.maxPending >= 2 {
      var s := GapRun(c);
    } else {
      forall s | Reachable(c, s) && s.x.Quiet() ensures !s.k.last.Gap? && !s.k.last.Embedded? {
        if s.k.last.Gap? || s.k.last.Embedded? {
          NoGapOtherwise(c, s);
        }
      }
    }
  }

  // ------------------------------------------------------- a mapper that answers io.EOF

  /** The mapper never answers io.EOF. */
  ghost predicate NoEof<A, B>(c: Config<A, B>) {
    forall i :: 0 <= i < |c.src| ==> c.fn(c.src[i]) != Failed(IoEof)
  }

  /** The first item from i on that the mapper answers with io.EOF. */
  ghost function FirstEof<A, B>(c: Config<A, B>, i: nat): (e: nat)
    requires i <= |c.src|
    ensures i <= e <= |c.src|
    ensures forall j :: i <= j < e ==> c.fn(c.src[j]) != Failed(IoEof)
    ensures e < |c.src| ==> c.fn(c.src[e]) == Failed(IoEof)
    decreases |c.src| - i
  {
    if i == |c.src| || c.fn(c.src[i]) == Failed(IoEof) then i else FirstEof(c, i + 1)
  }

  /** A polite consumer has been handed io.EOF at most as its last result, and has not
      called again since. */
  ghost predicate PoliteInv<B>(k: Consumer<B>) {
    && (forall j :: 0 <= j < |k.emitted| - 1 ==> k.emitted[j].res != Failed(IoEof))
    && (k.emitted != [] && k.emitted[|k.emitted| - 1].res == Failed(IoEof) ==>
          k.last == Emitted(Failed(IoEof)) && k.phase.Idle?)
  }

  lemma PoliteConsume<A, B>(c: Config<A, B>, s: State<A, B>, op: ConsumeOp)
    requires PoliteInv(s.k) && ConsumeEnabled(c, s, op)
    requires op.CallNext? ==> !SeesEof(s.k.last)
    ensures PoliteInv(ConsumeStep(c, s, op).k)
  {
  }

  lemma {:induction false} PoliteRun<A, B>(c: Config<A, B>, s: State<A, B>, run: seq<Action>)
    requires PoliteInv(s.k) && CanRun(c, s, run) && InManner(c, s, run, Polite)
    ensures PoliteInv(After(c, s, run).k)
    decreases |run|
  {
    if run != [] {
      if run[0].Consume? {
        PoliteConsume(c, s, run[0].c);
      } else {
        OthersKeepConsumer(c, s, run[0]);
      }
      PoliteRun(c, Step(c, s, run[0]), run[1..]);
    }
  }

  lemma ReachablePolite<A, B>(c: Config<A, B>, s: State<A, B>)
    requires ReachableAs(c, s, Polite)
    ensures PoliteInv(s.k)
  {
    var run :| CanRun(c, Init(c), run) && After(c, Init(c), run) == s && InManner(c, Init(c), run, Polite);
    PoliteRun(c, Init(c), run);
  }

  /** An error found behind a hole is that of a buffered result. */
  ghost predicate EmbeddedInv<B>(k: Consumer<B>) {
    k.last.Embedded? ==> exists i :: i in k.pending && k.pending[i].res == k.last.res
  }

  lemma EmbeddedStep<A, B>(c: Config<A, B>, s: State<A, B>, a: Action)
    requires ReturnInv(c, s.closed, s.queue, s.k) && EmbeddedInv(s.k) && Enabled(c, s, a)
    ensures EmbeddedInv(Step(c, s, a).k)
  {
    if !a.Consume? {
      OthersKeepConsumer(c, s, a);
    }
  }

  lemma {:induction false} EmbeddedRun<A, B>(c: Config<A, B>, s: State<A, B>, run: seq<Action>)
    requires Inv(c, s) && EmbeddedInv(s.k) && CanRun(c, s, run)
    ensures EmbeddedInv(After(c, s, run).k)
    decreases |run|
  {
    if run != [] {
      EmbeddedStep(c, s, run[0]);
      StepKeepsInv(c, s, run[0]);
      EmbeddedRun(c, Step(c, s, run[0]), run[1..]);
    }
  }

  lemma ReachableEmbedded<A, B>(c: Config<A, B>, s: State<A, B>)
    requires Reachable(c, s)
    ensures EmbeddedInv(s.k)
  {
    var run :| CanRun(c, Init(c), run) && After(c, Init(c), run) == s;
    InitInv(c);
    EmbeddedRun(c, Init(c), run);
  }

  lemma BufferedIsReal<A, B>(c: Config<A, B>, s: State<A, B>) returns (i: nat)
    requires FlowInv(c, s.p.ws, s.queue, s.k, s.lost) && OrderInv(c, s.queue, s.k)
    requires EmbeddedInv(s.k) && s.k.last.Embedded? && !HeadReady(c, s.k)
    ensures c.ordered && s.k.nextIdx < i < |c.src| && s.k.last.res == c.fn(c.src[i])
  {
    i :| i in s.k.pending && s.k.pending[i].res == s.k.last.res;
    assert Genuine(c, s.p.ws, s.k.pending[i]);
  }

  /** In every reachable state such an error is some item's outcome, from behind the hole. */
  lemma EmbeddedIsReal<A, B>(c: Config<A, B>, s: State<A, B>) returns (i: nat)
    requires Reachable(c, s) && s.k.last.Embedded?
    ensures c.ordered && s.k.nextIdx < i < |c.src| && s.k.last.res == c.fn(c.src[i])
  {
    ReachableEmbedded(c, s);
    ReachableInv(c, s);
    i := BufferedIsReal(c, s);
  }

  /** A mapper that never answers io.EOF leaves the end of the results channel as the only
      io.EOF a caller sees, in cancelled and panicking runs too. */
  lemma OnlyTheEndIsEof<A, B>(c: Config<A, B>, s: State<A, B>)
    requires Reachable(c, s) && NoEof(c)
    ensures SeesEof(s.k.last) <==> s.k.last.Eof?
  {
    ReachableInv(c, s);
    if s.k.last.Emitted? {
      assert Genuine(c, s.p.ws, s.k.emitted[|s.k.emitted| - 1]);
    } else if s.k.last.Embedded? {
      var i := EmbeddedIsReal(c, s);
    }
  }

  /** A consumer that stops at its first io.EOF has then been handed the result of every
      item, none of them io.EOF. */
  ghost predicate DeliversToStopper<A(!new), B(!new)>(c: Config<A, B>) {
    forall s :: ReachableAs(c, s, Polite) && s.x.Quiet() && SeesEof(s.k.last) ==>
      |s.k.emitted| == |c.src| && forall j :: 0 <= j < |s.k.emitted| ==> s.k.emitted[j].res != Failed(IoEof)
  }

  lemma StopperHasAll<A, B>(c: Config<A, B>, s: State<A, B>)
    requires ReachableAs(c, s, Polite) && c.Sound() && NoEof(c) && s.x.Quiet() && SeesEof(s.k.last)
    ensures |s.k.emitted| == |c.src|
    ensures forall j :: 0 <= j < |s.k.emitted| ==> s.k.emitted[j].res != Failed(IoEof)
  {
    OnlyTheEndIsEof(c, s);
    ReachableInv(c, s);
    SoundIsIntact(c, s);
    NoHole(c, s);
    forall j | 0 <= j < |s.k.emitted| ensures s.k.emitted[j].res != Failed(IoEof) {
      assert Genuine(c, s.p.ws, s.k.emitted[j]);
    }
  }

  /** Uncancelled, in either mode, a consumer that stops at its first io.EOF has every result
      exactly when no item's outcome is io.EOF and the source does not panic after it has
      yielded an item. */
  lemma StopperIff<A(!new), B(!new)>(c: Config<A, B>)
    requires c.Valid()
    ensures DeliversToStopper(c) <==> NoEof(c) && c.Sound()
  {
    if !NoEof(c) {
      var e := FirstEof(c, 0);
      Settle(c, e + 1, Polite);
      var s := Settled(c, e + 1);
      assert s.k.emitted[e].res == Failed(IoEof) && s.x.Quiet() && SeesEof(s.k.last);
    } else if !c.Sound() {
      var s := LossRun(c, Polite);
    } else {
      forall s | ReachableAs(c, s, Polite) && s.x.Quiet() && SeesEof(s.k.last)
        ensures |s.k.emitted| == |c.src|
        ensures forall j :: 0 <= j < |s.k.emitted| ==> s.k.emitted[j].res != Failed(IoEof)
      {
        StopperHasAll(c, s);
      }
    }
  }

  /** The first io.EOF is where the handed-out results say it is. */
  lemma FirstEofAt<A, B>(c: Config<A, B>, n: nat)
    requires n <= |c.src| && forall j :: 0 <= j < n - 1 ==> Results(c, n)[j].res != Failed(IoEof)
    ensures if n > 0 && Results(c, n)[n - 1].res == Failed(IoEof) then FirstEof(c, 0) == n - 1
            else FirstEof(c, 0) >= n
  {
    var e := FirstEof(c, 0);
    assert e < n ==> Results(c, n)[e].res == Failed(IoEof);
    assert n > 0 && e > n - 1 ==> c.fn(c.src[n - 1]) != Failed(IoEof);
  }

  lemma LastIsEmitted<A, B>(c: Config<A, B>, s: State<A, B>)
    requires Reachable(c, s) && s.k.last.Emitted?
    ensures s.k.emitted != [] && s.k.emitted[|s.k.emitted| - 1].res == s.k.last.res
  {
    ReachableInv(c, s);
  }

  /** Where a consumer that stops at its first io.EOF should stop: right behind the first item
      whose outcome is io.EOF, or after the last item if there is none. */
  ghost function StopAt<A, B>(c: Config<A, B>): nat {
    var e := FirstEof(c, 0);
    if e < |c.src| then e + 1 else e
  }

  /** An ordered consumer that stops at its first io.EOF never gets further than that. It gets
      exactly there if the io.EOF is a mapper's, and in uncancelled runs if the source does not
      panic after it has yielded an item. */
  lemma OrderedStopper<A, B>(c: Config<A, B>, s: State<A, B>)
    requires ReachableAs(c, s, Polite) && c.ordered && SeesEof(s.k.last)
    ensures s.k.nextIdx <= StopAt(c) <= |c.src|
    ensures s.k.emitted == Results(c, s.k.nextIdx)
    ensures s.k.last.Emitted? || (s.x.Quiet() && c.Sound()) ==> s.k.nextIdx == StopAt(c)
  {
    ReachablePolite(c, s);
    OrderedPrefix(c, s);
    FirstEofAt(c, s.k.nextIdx);
    if s.k.last.Emitted? {
      LastIsEmitted(c, s);
    } else if s.x.Quiet() && c.Sound() {
      NeverGap(c, s);
      OrderedComplete(c, s);
    }
  }

  /** At a hole the caller can be told io.EOF exactly when a buffered result behind it
      carries one: the error scan does not tell io.EOF from other errors. */
  lemma HoleHiddenIff<A, B>(c: Config<A, B>, s: State<A, B>)
    requires Inv(c, s) && c.ordered && Sealed(c, s) && s.k.phase.AtSelect? && |s.k.pending| > 0
    ensures (exists op :: ConsumeEnabled(c, s, op) && SeesEof(ConsumeStep(c, s, op).k.last))
        <==> exists i :: i in s.k.pending && s.k.pending[i].res == Failed(IoEof)
  {
    if i :| i in s.k.pending && s.k.pending[i].res == Failed(IoEof) {
      assert ConsumeEnabled(c, s, ReceiveClosedFailed(i));
    }
  }

  /** An item behind a possible hole whose outcome is io.EOF. */
  ghost predicate HidesHole<A, B>(c: Config<A, B>, i: nat) {
    1 <= i < |c.src| < i + c.maxPending && c.fn(c.src[i]) == Failed(IoEof)
  }

  /** The stream loses the result of the item before it, and its caller is told io.EOF. */
  lemma HiddenHole<A, B>(c: Config<A, B>, i: nat) returns (s: State<A, B>)
    requires c.Valid() && c.ordered && c.srcEnd.InPanic? && c.maxWorkers >= 2 && HidesHole(c, i)
    ensures Reachable(c, s) && s.x.Quiet() && s.k.last == Embedded(Failed(IoEof))
    ensures s.k.emitted == Results(c, i - 1)
  {
    s := BehindTheHole(c, i - 1);
    ReachableStep(c, s, Consume(ReceiveClosedFailed(i)));
    s := Step(c, s, Consume(ReceiveClosedFailed(i)));
  }

  lemma HiddenOnlyThere<A, B>(c: Config<A, B>, s: State<A, B>) returns (i: nat)
    requires Reachable(c, s) && c.ordered && s.x.Quiet() && s.k.last == Embedded(Failed(IoEof))
    ensures c.srcEnd.InPanic? && c.maxWorkers >= 2 && HidesHole(c, i)
  {
    NoGapOtherwise(c, s);
    i := EmbeddedIsReal(c, s);
    ReachableInv(c, s);
    assert s.tokens + s.k.nextIdx == s.d.acquired >= |s.p.ws| == |c.src|;
  }

  /** A hole in an uncancelled ordered stream can be reported as io.EOF exactly when the source
      panics, two workers can run, and some item but the first, within the last MaxPending - 1,
      has the outcome io.EOF. */
  lemma HiddenHoleIff<A, B>(c: Config<A, B>)
    requires c.Valid() && c.ordered
    ensures (exists s :: Reachable(c, s) && s.x.Quiet() && s.k.last == Embedded(Failed(IoEof)))
        <==> c.srcEnd.InPanic? && c.maxWorkers >= 2 && exists i :: HidesHole(c, i)
  {
    if i :| c.srcEnd.InPanic? && c.maxWorkers >= 2 && HidesHole(c, i) {
      var s := HiddenHole(c, i);
    } else {
      forall s | Reachable(c, s) && s.x.Quiet() ensures s.k.last != Embedded(Failed(IoEof)) {
        if s.k.last == Embedded(Failed(IoEof)) {
          var i := HiddenOnlyThere(c, s);
        }
      }
    }
  }
}
