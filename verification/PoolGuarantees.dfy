/** What the worker pool promises. */
module PoolGuarantees {
  // Over every run: accepted tasks are neither lost nor run twice, in FIFO order, and Close
  // reports exactly the failures.

  import opened Counting
  import opened Pool
  import opened PoolInvariant

  ghost predicate Reachable(c: Config, s: State) {
    exists run :: CanRun(c, Init(c), run) && After(c, Init(c), run) == s
  }

  lemma ReachableInv(c: Config, s: State)
    requires Reachable(c, s)
    ensures Inv(c, s)
  {
    var run :| CanRun(c, Init(c), run) && After(c, Init(c), run) == s;
    InitInv(c);
    RunKeepsInv(c, Init(c), run);
  }

  lemma {:induction false} RunConcat(c: Config, s: State, run: seq<Action>, more: seq<Action>)
    requires CanRun(c, s, run) && CanRun(c, After(c, s, run), more)
    ensures CanRun(c, s, run + more)
    ensures After(c, s, run + more) == After(c, After(c, s, run), more)
    decreases |run|
  {
    if run == [] {
      assert run + more == more;
    } else {
      RunConcat(c, Step(c, s, run[0]), run[1..], more);
      assert (run + more)[1..] == run[1..] + more;
    }
  }

  lemma ReachableRun(c: Config, s: State, more: seq<Action>)
    requires Reachable(c, s) && CanRun(c, s, more)
    ensures Reachable(c, After(c, s, more))
  {
    var run :| CanRun(c, Init(c), run) && After(c, Init(c), run) == s;
    RunConcat(c, Init(c), run, more);
  }

  lemma ReachableStep(c: Config, s: State, a: Action)
    requires Reachable(c, s) && Enabled(c, s, a)
    ensures Reachable(c, Step(c, s, a))
  {
    assert [a][1..] == [];
    assert CanRun(c, Step(c, s, a), []) && After(c, s, [a]) == Step(c, s, a);
    ReachableRun(c, s, [a]);
  }

  // ------------------------------------------------------- what the others do meanwhile

  /** Some run leads from s to s'. */
  ghost predicate Leads(c: Config, s: State, s': State) {
    exists run :: CanRun(c, s, run) && After(c, s, run) == s'
  }

  lemma ReachableLed(c: Config, s: State, s': State)
    requires Reachable(c, s) && Leads(c, s, s')
    ensures Reachable(c, s')
  {
    var run :| CanRun(c, s, run) && After(c, s, run) == s';
    ReachableRun(c, s, run);
  }

  ghost predicate WithoutCall(run: seq<Action>, k: nat) {
    forall j :: 0 <= j < |run| ==> !(run[j].OfCall? && run[j].k == k)
  }

  ghost predicate WithoutCloser(run: seq<Action>, i: nat) {
    forall j :: 0 <= j < |run| ==> !(run[j].OfClose? && run[j].i == i)
  }

  ghost predicate WithoutWorker(run: seq<Action>, w: nat) {
    forall j :: 0 <= j < |run| ==> !(run[j].OfWorker? && run[j].w == w)
  }

  /** The others lead from s to s' while the goroutine of call k, or of closer i, or worker w,
      is between two steps. What it relies on is its own place in its code. */
  ghost predicate CallYields(c: Config, k: nat, s: State, s': State) {
    && k < |s.calls| && k < |s'.calls| && s'.calls[k] == s.calls[k]
    && exists run :: CanRun(c, s, run) && After(c, s, run) == s' && WithoutCall(run, k)
  }

  ghost predicate CloserYields(c: Config, i: nat, s: State, s': State) {
    && i < |s.closers| && i < |s'.closers| && s'.closers[i] == s.closers[i]
    && exists run :: CanRun(c, s, run) && After(c, s, run) == s' && WithoutCloser(run, i)
  }

  ghost predicate WorkerYields(c: Config, w: nat, s: State, s': State) {
    && w < |s.ws| && w < |s'.ws| && s'.ws[w] == s.ws[w]
    && exists run :: CanRun(c, s, run) && After(c, s, run) == s' && WithoutWorker(run, w)
  }

  // ----------------------------------------------------------------------- guarantees

  /** Submit returns nil (TrySubmit true) if and only if its task entered the queue. */
  lemma AcceptedIffQueued(c: Config, s: State, k: nat)
    requires Reachable(c, s) && k < |s.calls| && s.calls[k].phase.Returned?
    ensures s.calls[k].phase.v.Accepted? <==> k in s.h.accepted
  {
    ReachableInv(c, s);
  }

  /** A refusal says what is the case: the pool is closed, or Submit's context is done, or the
      call was a TrySubmit that would have had to wait. */
  lemma RefusalsHaveReasons(c: Config, s: State, k: nat)
    requires Reachable(c, s) && k < |s.calls| && s.calls[k].phase.Returned?
    ensures match s.calls[k].phase.v
      case Accepted => k in s.h.accepted
      case PoolClosed => s.closedFlag && k !in s.h.accepted
      case CtxErr => s.ctxDone && !s.calls[k].try && k !in s.h.accepted
      case QueueFull => s.calls[k].try && k !in s.h.accepted
  {
    ReachableInv(c, s);
  }

  /** At the step that refuses: the pool has been closed, the context is done, or the queue is
      full and the call will not wait. A call that finds the flag set is refused on the spot. */
  lemma RefusedWhen(c: Config, s: State, k: nat, op: CallOp)
    requires Reachable(c, s) && CallEnabled(c, s, k, op)
    ensures var call := CallStep(c, s, k, op).calls[k];
      && call.try == s.calls[k].try
      && (s.calls[k].phase.Checking? ==>
            call.phase == if s.closedFlag then Returned(PoolClosed) else Selecting)
      && (call.phase.Returned? ==>
            match call.phase.v
            case Accepted => k in s.h.accepted
            case PoolClosed => s.closedFlag
            case CtxErr => s.ctxDone && !call.try
            case QueueFull => |s.ch.queue| == c.queueSize && !s.ch.closed && call.try)
  {
    ReachableInv(c, s);
  }

  /** A TrySubmit never waits. A Submit at its select waits exactly while the pool is open, the
      context is not done, the queue is full, and no idle worker stands at an empty queue. */
  lemma WaitsIff(c: Config, s: State, k: nat)
    requires Reachable(c, s) && k < |s.calls| && s.calls[k].phase.Selecting?
    ensures (exists op :: CallEnabled(c, s, k, op)) <==>
      || s.calls[k].try || s.ctxDone || s.ch.closed || |s.ch.queue| < c.queueSize
      || (s.ch.queue == [] && exists w :: 0 <= w < |s.ws| && s.ws[w].Idle?)
  {
    ReachableInv(c, s);
    if s.ch.closed {
      assert CallEnabled(c, s, k, HitClosed);
    } else if |s.ch.queue| < c.queueSize {
      assert CallEnabled(c, s, k, Send);
    } else if s.calls[k].try {
      assert CallEnabled(c, s, k, FindFull);
    } else if s.ctxDone {
      assert CallEnabled(c, s, k, SeeCtx);
    } else if w :| s.ch.queue == [] && 0 <= w < |s.ws| && s.ws[w].Idle? {
      assert CallEnabled(c, s, k, Handoff(w));
    }
  }

  lemma {:induction false} SumBound(ws: seq<Worker>)
    ensures Sum(ws, Flying) <= |ws|
  {
    if ws != [] {
      SumBound(ws[..|ws| - 1]);
    }
  }

  /** Tasks leave the queue in the order they entered it, no task twice, with at most
      `workers` in flight and at most `queueSize` waiting. */
  lemma FifoAndBounds(c: Config, s: State)
    requires Reachable(c, s)
    ensures s.h.accepted == s.h.started + s.ch.queue && NoRepeats(s.h.accepted)
    ensures s.n.inFlight <= c.workers && |s.ch.queue| <= c.queueSize
  {
    ReachableInv(c, s);
    SumBound(s.ws);
  }

  lemma {:induction false} DistinctCount(xs: seq<nat>, k: nat)
    requires NoRepeats(xs)
    ensures multiset(xs)[k] == if k in xs then 1 else 0
  {
    if xs != [] {
      var m := |xs| - 1;
      DistinctCount(xs[..m], k);
      assert xs == xs[..m] + [xs[m]];
    }
  }

  /** At every moment each accepted task is in exactly one place: waiting in the queue,
      in one worker's hands, or finished. Nothing is lost and nothing runs twice. */
  lemma NothingLostOrDoubled(c: Config, s: State, k: nat)
    requires Reachable(c, s)
    ensures Occurs(s.ch.queue, k) + Sum(s.ws, Holds(k)) + Occurs(s.h.finished, k)
         == (if k in s.h.accepted then 1 else 0)
  {
    ReachableInv(c, s);
    DistinctCount(s.h.accepted, k);
    assert multiset(s.h.accepted)[k] == multiset(s.h.started)[k] + multiset(s.ch.queue)[k];
    assert Occurs(s.h.finished, k) + Sum(s.ws, Holds(k)) == Occurs(s.h.started, k);
  }

  lemma AllExited(c: Config, s: State)
    requires Inv(c, s) && s.wg == 0
    ensures forall w :: 0 <= w < |s.ws| ==> s.ws[w].Exited?
    ensures c.workers > 0 ==> s.ch.queue == []
  {
    SumZero(s.ws, HoldsWg);
    forall w | 0 <= w < |s.ws| ensures s.ws[w].Exited? {
      assert HoldsWg(s.ws[w]) == 0;
    }
    assert c.workers > 0 ==> s.ws[0].Exited?;
  }

  /** 1 if task k fails. */
  ghost function Failing(c: Config): nat -> nat {
    (k: nat) => if c.outcome(k).FailsWith? then 1 else 0
  }

  /** The failures of the tasks ks, in order. */
  ghost function FailuresOf(c: Config, ks: seq<nat>): seq<nat> {
    if ks == [] then [] else FailuresOf(c, ks[..|ks| - 1]) + ErrorOf(c, ks[|ks| - 1])
  }

  lemma {:induction false} FailureCounts(c: Config, ks: seq<nat>, e: nat)
    ensures multiset(FailuresOf(c, ks))[e] == Sum(ks, FailsWithError(c, e))
    ensures |FailuresOf(c, ks)| == Sum(ks, Failing(c))
  {
    if ks != [] {
      FailureCounts(c, ks[..|ks| - 1], e);
    }
  }

  /** With every error recorded, the counter is the number of failed tasks. */
  lemma ErroredCount(c: Config, s: State)
    requires CountersInv(s) && forall e :: Occurs(s.errs, e) == Sum(s.h.accepted, FailsWithError(c, e))
    ensures s.n.errored == Sum(s.h.accepted, Failing(c))
  {
    var failures := FailuresOf(c, s.h.accepted);
    forall e ensures multiset(s.errs)[e] == multiset(failures)[e] {
      FailureCounts(c, s.h.accepted, e);
    }
    assert multiset(s.errs) == multiset(failures);
    assert |multiset(s.errs)| == |multiset(failures)|;
    FailureCounts(c, s.h.accepted, 0);
  }

  /** When a Close returns, the pool is closed and its context done, every accepted task has
      run exactly once, each error is joined as often as accepted tasks fail with it, and the
      counters say how many tasks there were and how many failed. */
  lemma CloseIsComplete(c: Config, s: State, i: nat)
    requires Reachable(c, s) && c.workers > 0
    requires i < |s.closers| && s.closers[i].Done?
    ensures s.ch.queue == [] && s.n.inFlight == 0
    ensures multiset(s.h.finished) == multiset(s.h.accepted)
    ensures forall e :: Occurs(s.closers[i].errs, e) == Sum(s.h.accepted, FailsWithError(c, e))
    ensures s.n.completed == |s.h.accepted|
    ensures s.n.errored == Sum(s.h.accepted, Failing(c))
    ensures s.closedFlag && s.ch.closed && s.ctxDone
  {
    ReachableInv(c, s);
    AllExited(c, s);
    assert s.ws[0].Exited?;
    SumOfNone(s.ws, Flying);
    assert s.h.accepted == s.h.started;
    forall k ensures multiset(s.h.finished)[k] == multiset(s.h.accepted)[k] {
      SumOfNone(s.ws, Holds(k));
      assert Occurs(s.h.finished, k) + Sum(s.ws, Holds(k)) == Occurs(s.h.started, k);
    }
    forall e ensures Occurs(s.errs, e) == Sum(s.h.accepted, FailsWithError(c, e)) {
      SumOfNone(s.ws, Owes(c, e));
    }
    assert multiset(s.h.finished) == multiset(s.h.accepted);
    assert |multiset(s.h.finished)| == |multiset(s.h.accepted)|;
    ErroredCount(c, s);
  }

  /** Any two Close calls that have returned agree. */
  lemma ClosesAgree(c: Config, s: State, i: nat, j: nat)
    requires Reachable(c, s)
    requires i < |s.closers| && s.closers[i].Done? && j < |s.closers| && s.closers[j].Done?
    ensures s.closers[i] == s.closers[j]
  {
    ReachableInv(c, s);
  }

  /** With a Close returned and no Submit still in progress, submitted equals completed. */
  lemma QuiescentCounters(c: Config, s: State, i: nat)
    requires Reachable(c, s) && c.workers > 0
    requires i < |s.closers| && s.closers[i].Done?
    requires forall k :: 0 <= k < |s.calls| ==> s.calls[k].phase.Returned?
    ensures s.n.submitted == s.n.completed
  {
    ReachableInv(c, s);
    CloseIsComplete(c, s, i);
    SumOfNone(s.calls, InBump);
  }

  /** The counters at every moment: `submitted` trails the accepted tasks by the Submits that
      are between their send and their bump, `completed` counts the finished tasks, `errored`
      the recorded errors and `inFlight` the workers inside runTask. */
  lemma SubmittedTrails(c: Config, s: State)
    requires Reachable(c, s)
    ensures s.n.submitted + Sum(s.calls, InBump) == |s.h.accepted|
    ensures s.n.completed == |s.h.finished| && s.n.errored == |s.errs| && s.n.inFlight == Sum(s.ws, Flying)
  {
    ReachableInv(c, s);
  }

  /** The task channel is never closed twice. */
  lemma ClosedOnce(c: Config, s: State, i: nat)
    requires Reachable(c, s) && CloseEnabled(s, i, CloseChan)
    ensures !s.ch.closed
  {
    ReachableInv(c, s);
    SumAtLeast(s.closers, i, InCloseChan);
  }

  /** Once the channel is closed nothing is accepted any more. */
  lemma {:induction false} NothingAcceptedAfterClose(c: Config, s: State, run: seq<Action>)
    requires s.ch.closed && CanRun(c, s, run)
    ensures After(c, s, run).h.accepted == s.h.accepted && After(c, s, run).ch.closed
    decreases |run|
  {
    if run != [] {
      NothingAcceptedAfterClose(c, Step(c, s, run[0]), run[1..]);
    }
  }

  /** A worker that has not left holds the wait group, and one with a task is in flight. */
  lemma WorkerIsCounted(c: Config, s: State, w: nat)
    requires Reachable(c, s) && w < |s.ws|
    ensures !s.ws[w].Exited? ==> s.wg > 0
    ensures Flying(s.ws[w]) == 1 ==> s.n.inFlight > 0
  {
    ReachableInv(c, s);
    SumAtLeast(s.ws, w, HoldsWg);
    SumAtLeast(s.ws, w, Flying);
  }

  /** A task that has finished has done so once and is nowhere else; its error, if any, is kept
      or still owed by nobody but a worker. */
  lemma FinishedIsSettled(c: Config, s: State, k: nat)
    requires Reachable(c, s) && k in s.h.finished
    ensures Occurs(s.h.finished, k) == 1 && Occurs(s.ch.queue, k) == 0 && Sum(s.ws, Holds(k)) == 0
    ensures s.n.completed == |s.h.finished|
  {
    NothingLostOrDoubled(c, s, k);
    ReachableInv(c, s);
    assert Occurs(s.h.finished, k) > 0;
  }

  /** Errors are only appended. */
  lemma {:induction false} ErrorsGrow(c: Config, s: State, run: seq<Action>)
    requires CanRun(c, s, run)
    ensures s.errs <= After(c, s, run).errs
    decreases |run|
  {
    if run != [] {
      ErrorsGrow(c, Step(c, s, run[0]), run[1..]);
    }
  }

  lemma YieldKeepsErrors(c: Config, w: nat, s: State, s': State)
    requires WorkerYields(c, w, s, s')
    ensures s.errs <= s'.errs
  {
    var run :| CanRun(c, s, run) && After(c, s, run) == s' && WithoutWorker(run, w);
    ErrorsGrow(c, s, run);
  }

  // -------------------------------------------------------------------------- progress

  ghost function Rank(w: Worker): nat {
    match w
    case Exited => 0
    case Idle => 1
    case Counting(_) => 2
    case Recording(_) => 3
    case Running(_) => 4
    case Took(_) => 5
  }

  /** Once the channel is closed, workers can always step until all have left ... */
  lemma CloseProgress(c: Config, s: State) returns (w: nat, op: WorkOp)
    requires Reachable(c, s) && s.ch.closed && s.wg > 0
    ensures WorkEnabled(s, w, op)
  {
    ReachableInv(c, s);
    w := SumPositive(s.ws, HoldsWg);
    SumAtLeast(s.ws, w, Flying);
    op := match s.ws[w]
      case Idle => if s.ch.queue != [] then Receive else LeaveLoop
      case Took(_) => BeginRun
      case Running(_) => EndRun
      case Recording(_) => RecordErr
      case _ => CountDone;
  }

  /** ... and every one of their steps uses up work, so Close always returns. */
  lemma CloseTerminates(c: Config, s: State, w: nat, op: WorkOp)
    requires WorkEnabled(s, w, op)
    ensures var s' := WorkStep(c, s, w, op);
      Sum(s'.ws, Rank) + 5 * |s'.ch.queue| < Sum(s.ws, Rank) + 5 * |s.ch.queue|
  {
    SumUpdate(s.ws, w, WorkAfter(c, s, w, op), Rank);
  }

  ghost function WorkSteps(run: seq<Action>): nat {
    if run == [] then 0 else (if run[0].OfWorker? then 1 else 0) + WorkSteps(run[1..])
  }

  lemma OthersLeaveWork(c: Config, s: State, a: Action)
    requires s.ch.closed && Enabled(c, s, a) && !a.OfWorker?
    ensures Step(c, s, a).ws == s.ws && Step(c, s, a).ch == s.ch
  {
  }

  /** After the channel is closed no run has more worker steps than the tasks in hand and in
      the queue account for, whatever submitters and closers do. */
  lemma {:induction false} WorkStepsBounded(c: Config, s: State, run: seq<Action>)
    requires s.ch.closed && CanRun(c, s, run)
    ensures WorkSteps(run) <= Sum(s.ws, Rank) + 5 * |s.ch.queue|
    decreases |run|
  {
    if run != [] {
      WorkStepsBounded(c, Step(c, s, run[0]), run[1..]);
      if run[0].OfWorker? {
        CloseTerminates(c, s, run[0].w, run[0].o);
      } else {
        OthersLeaveWork(c, s, run[0]);
      }
    }
  }
}
