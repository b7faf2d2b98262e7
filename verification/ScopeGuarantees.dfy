/** What structured concurrency promises, over every run of a scope. */
module ScopeGuarantees {
  import opened Counting
  import opened Options
  import opened TaskErrors
  import opened Scope
  import opened ScopeInvariant

  ghost predicate Reachable(cfg: Config, s: State) {
    exists run :: CanRun(cfg, Init(), run) && After(cfg, Init(), run) == s
  }

  lemma ReachableInv(cfg: Config, s: State)
    requires Reachable(cfg, s)
    ensures Inv(cfg, s)
  {
    var run :| CanRun(cfg, Init(), run) && After(cfg, Init(), run) == s;
    InitInv(cfg);
    RunKeepsInv(cfg, Init(), run);
  }

  lemma {:induction false} RunConcat(cfg: Config, s: State, run: seq<Action>, more: seq<Action>)
    requires CanRun(cfg, s, run) && CanRun(cfg, After(cfg, s, run), more)
    ensures CanRun(cfg, s, run + more)
    ensures After(cfg, s, run + more) == After(cfg, After(cfg, s, run), more)
    decreases |run|
  {
    if run == [] {
      assert run + more == more;
    } else {
      RunConcat(cfg, Step(cfg, s, run[0]), run[1..], more);
      assert (run + more)[1..] == run[1..] + more;
    }
  }

  lemma ReachableRun(cfg: Config, s: State, more: seq<Action>)
    requires Reachable(cfg, s) && CanRun(cfg, s, more)
    ensures Reachable(cfg, After(cfg, s, more))
  {
    var run :| CanRun(cfg, Init(), run) && After(cfg, Init(), run) == s;
    RunConcat(cfg, Init(), run, more);
  }

  lemma ReachableStep(cfg: Config, s: State, a: Action)
    requires Reachable(cfg, s) && Enabled(cfg, s, a)
    ensures Reachable(cfg, Step(cfg, s, a))
  {
    assert [a][1..] == [];
    assert CanRun(cfg, Step(cfg, s, a), []) && After(cfg, s, [a]) == Step(cfg, s, a);
    ReachableRun(cfg, s, [a]);
  }

  /** Some run leads from s to s'. */
  ghost predicate Leads(cfg: Config, s: State, s': State) {
    exists run :: CanRun(cfg, s, run) && After(cfg, s, run) == s'
  }

  lemma ReachableLed(cfg: Config, s: State, s': State)
    requires Reachable(cfg, s) && Leads(cfg, s, s')
    ensures Reachable(cfg, s')
  {
    var run :| CanRun(cfg, s, run) && After(cfg, s, run) == s';
    ReachableRun(cfg, s, run);
  }

  ghost predicate WithoutFinalize(run: seq<Action>) {
    forall j :: 0 <= j < |run| ==> !run[j].Finalize?
  }

  ghost predicate WithoutTask(run: seq<Action>, i: nat) {
    forall j :: 0 <= j < |run| ==> !(run[j].OfTask? && run[j].i == i)
  }

  /** The others lead from s to s' while finalize, or task i, is between two steps. What it
      relies on is its own place in its code. */
  ghost predicate FinalYields(cfg: Config, s: State, s': State) {
    && s'.f == s.f
    && exists run :: CanRun(cfg, s, run) && After(cfg, s, run) == s' && WithoutFinalize(run)
  }

  ghost predicate TaskYields(cfg: Config, i: nat, s: State, s': State) {
    && i < |s.tasks| && i < |s'.tasks| && s'.tasks[i] == s.tasks[i]
    && exists run :: CanRun(cfg, s, run) && After(cfg, s, run) == s' && WithoutTask(run, i)
  }

  lemma TaskYieldLeads(cfg: Config, i: nat, s: State, s': State)
    requires TaskYields(cfg, i, s, s')
    ensures Leads(cfg, s, s')
  {
  }

  lemma FinalYieldLeads(cfg: Config, s: State, s': State)
    requires FinalYields(cfg, s, s')
    ensures Leads(cfg, s, s')
  {
  }

  // -------------------------------------------------------------- no task escapes

  /** Every open spawner is the not-yet-closed root, or belongs to a task that
      still holds its wait-group count. */
  lemma OpenSpawner(cfg: Config, s: State, sp: SpawnerRef)
    requires Reachable(cfg, s) && IsOpen(s, sp)
    ensures if sp.Root? then s.f.phase.Open?
            else HoldsWg(s.tasks[sp.task]) == 1 && s.g.wg > 0 && !s.f.phase.PastWait()
  {
    ReachableInv(cfg, s);
    OpenMeansBusy(cfg, s, sp);
  }

  /** The root accepts tasks exactly until finalize begins; the spawner of a nested task does
      exactly while its function runs or has just returned; a plain task never has one. */
  lemma OpenIff(cfg: Config, s: State)
    requires Reachable(cfg, s)
    ensures IsOpen(s, Root) <==> s.f.phase.Open?
    ensures forall i: nat :: IsOpen(s, ChildOf(i)) <==>
      i < |s.tasks| && s.tasks[i].nested && (s.tasks[i].phase.Running? || s.tasks[i].phase.AtChildClose?)
  {
    ReachableInv(cfg, s);
    forall i: nat | i < |s.tasks|
      ensures s.tasks[i].childOpen <==>
        s.tasks[i].nested && (s.tasks[i].phase.Running? || s.tasks[i].phase.AtChildClose?)
    {
      assert TaskInv(cfg, s.tasks[i]);
    }
  }

  // --------------------------------------------------------- what a cancellation stops

  /** The task's function has not begun, and is not running now. */
  ghost predicate Unstarted(t: Task) {
    t.result.NotRun? && !t.phase.Running? && !t.childOpen
  }

  /** The context stays cancelled, with the error of the first cancellation. */
  lemma {:induction false} CancelledForever(cfg: Config, s: State, run: seq<Action>)
    requires s.ctx.Some? && CanRun(cfg, s, run)
    ensures After(cfg, s, run).ctx == s.ctx
    decreases |run|
  {
    if run != [] {
      if run[0].OfTask? {
        TaskFrame(cfg, s, run[0].i, run[0].op);
      }
      CancelledForever(cfg, Step(cfg, s, run[0]), run[1..]);
    }
  }

  lemma UnstartedStep(cfg: Config, s: State, a: Action, i: nat)
    requires Inv(cfg, s) && s.ctx.Some? && Enabled(cfg, s, a) && (i < |s.tasks| ==> Unstarted(s.tasks[i]))
    ensures var s' := Step(cfg, s, a); s'.ctx.Some? && (i < |s'.tasks| ==> Unstarted(s'.tasks[i]))
  {
    if a.OfTask? {
      TaskFrame(cfg, s, a.i, a.op);
      if a.i == i {
        assert TaskInv(cfg, s.tasks[i]);
      }
    }
  }

  /** Once the scope is cancelled no function is started any more: a task that had not begun
      then, or is spawned later, is never run in any continuation, and when the wait group
      is down to zero it has been skipped. */
  lemma {:induction false} NoStartAfterCancel(cfg: Config, s: State, run: seq<Action>, i: nat)
    requires Inv(cfg, s) && s.ctx.Some? && CanRun(cfg, s, run) && (i < |s.tasks| ==> Unstarted(s.tasks[i]))
    ensures var s' := After(cfg, s, run);
      i < |s'.tasks| ==> Unstarted(s'.tasks[i]) && (s'.g.wg == 0 ==> s'.tasks[i].tally.Skipped?)
    decreases |run|
  {
    if run != [] {
      UnstartedStep(cfg, s, run[0], i);
      StepKeepsInv(cfg, s, run[0]);
      NoStartAfterCancel(cfg, Step(cfg, s, run[0]), run[1..], i);
    } else if i < |s.tasks| {
      assert TaskInv(cfg, s.tasks[i]);
      if s.g.wg == 0 {
        SumAtLeast(s.tasks, i, HoldsWg);
      }
    }
  }

  /** In particular a task that still waits, for a slot or at the check in front of its function,
      and every task spawned after the cancellation. */
  lemma CancelStopsStarts(cfg: Config, s: State, run: seq<Action>, i: nat)
    requires Reachable(cfg, s) && s.ctx.Some? && CanRun(cfg, s, run)
    requires i < |s.tasks| ==>
      s.tasks[i].phase.AtSem? || s.tasks[i].phase.AtRegister? || s.tasks[i].phase.AtCheck?
    ensures var s' := After(cfg, s, run);
      i < |s'.tasks| ==>
        && !s'.tasks[i].phase.Running? && s'.tasks[i].result.NotRun?
        && (s'.g.wg == 0 ==> s'.tasks[i].tally.Skipped?)
  {
    ReachableInv(cfg, s);
    if i < |s.tasks| {
      assert TaskInv(cfg, s.tasks[i]);
    }
    NoStartAfterCancel(cfg, s, run, i);
  }

  // ------------------------------------------------------------- who a task is

  /** Name and kind of each task. */
  ghost function Names(ts: seq<Task>): (ns: seq<(string, bool)>)
    ensures |ns| == |ts| && forall i :: 0 <= i < |ts| ==> ns[i] == (ts[i].name, ts[i].nested)
  {
    seq(|ts|, i requires 0 <= i < |ts| => (ts[i].name, ts[i].nested))
  }

  /** The names and kinds given along a run, in the order of the spawns. */
  ghost function Spawned(run: seq<Action>): seq<(string, bool)> {
    if run == [] then []
    else (if run[0].Begin? then [(run[0].name, run[0].nested)] else []) + Spawned(run[1..])
  }

  lemma NamesStep(cfg: Config, s: State, a: Action)
    requires Enabled(cfg, s, a)
    ensures Names(Step(cfg, s, a).tasks) == Names(s.tasks) + (if a.Begin? then [(a.name, a.nested)] else [])
  {
    if a.OfTask? {
      TaskFrame(cfg, s, a.i, a.op);
      assert Names(Step(cfg, s, a).tasks) == Names(s.tasks);
    }
  }

  /** A task keeps the name and the kind it was spawned with, in every run: task i is the i-th
      spawn. */
  lemma {:induction false} NamesKept(cfg: Config, s: State, run: seq<Action>)
    requires CanRun(cfg, s, run)
    ensures Names(After(cfg, s, run).tasks) == Names(s.tasks) + Spawned(run)
    decreases |run|
  {
    if run != [] {
      var s' := Step(cfg, s, run[0]);
      NamesStep(cfg, s, run[0]);
      NamesKept(cfg, s', run[1..]);
      var first := if run[0].Begin? then [(run[0].name, run[0].nested)] else [];
      assert (Names(s.tasks) + first) + Spawned(run[1..]) == Names(s.tasks) + (first + Spawned(run[1..]));
    }
  }

  /** Past finalize's wait no task function is running and every spawner refuses new tasks. */
  lemma NoneRunning(cfg: Config, s: State)
    requires Reachable(cfg, s) && s.f.phase.PastWait()
    ensures s.g.wg == 0
    ensures forall i :: 0 <= i < |s.tasks| ==> s.tasks[i].phase.AtActive? || s.tasks[i].phase.Gone?
    ensures forall sp :: !IsOpen(s, sp)
  {
    ReachableInv(cfg, s);
    SumZero(s.tasks, HoldsWg);
    forall i | 0 <= i < |s.tasks| ensures s.tasks[i].phase.AtActive? || s.tasks[i].phase.Gone? {
      assert HoldsWg(s.tasks[i]) == 0;
    }
    forall sp ensures !IsOpen(s, sp) {
      if IsOpen(s, sp) {
        OpenMeansBusy(cfg, s, sp);
        assert false;
      }
    }
  }

  /** ... and that never changes again: no task is added, none runs, the count stays zero. */
  lemma {:induction false} NoTaskEscapes(cfg: Config, s: State, run: seq<Action>)
    requires Reachable(cfg, s) && s.f.phase.PastWait() && CanRun(cfg, s, run)
    ensures var s' := After(cfg, s, run);
      s'.f.phase.PastWait() && s'.g.wg == 0 && |s'.tasks| == |s.tasks| && s'.e == s.e
    ensures forall j :: 0 <= j < |run| ==>
      !run[j].Begin? && (run[j].OfTask? ==> run[j].op.Deactivate?)
    decreases |run|
  {
    NoneRunning(cfg, s);
    if run != [] {
      ReachableStep(cfg, s, run[0]);
      NoTaskEscapes(cfg, Step(cfg, s, run[0]), run[1..]);
    }
  }

  lemma NextIdIsFree(cfg: Config, s: State)
    requires Reachable(cfg, s)
    ensures s.t.nextId !in s.t.running
  {
    ReachableInv(cfg, s);
  }

  /** Before finalization concludes it has no result, and a cancellation it saw is still there. */
  lemma EndedContext(cfg: Config, s: State)
    requires Reachable(cfg, s) && s.f.phase.CtxEnded?
    ensures s.f.err.Nil? && s.f.panicVal.None? && (s.f.wasCancelled ==> s.ctx.Some?)
  {
    ReachableInv(cfg, s);
  }

  /** The outcome of finalization is decided once. */
  lemma {:induction false} FinalizedOnce(cfg: Config, s: State, run: seq<Action>)
    requires s.f.phase.Finalized? && CanRun(cfg, s, run)
    ensures After(cfg, s, run).f == s.f
    decreases |run|
  {
    if run != [] {
      FinalizedOnce(cfg, Step(cfg, s, run[0]), run[1..]);
    }
  }

  // ------------------------------------------------------- a nil result is full success

  lemma NilMeansNoRecord(cfg: Config, e: Errors)
    requires PolicyInv(cfg, e)
    ensures PolicyError(cfg, e).Nil? <==> e.records == []
  {
    if e.records != [] {
      assert e.records[0].TaskError?;
      assert Kept(cfg, |e.records|) > 0;
    }
  }

  lemma NilHidesNothing(cfg: Config, s: State, i: nat)
    requires Inv(cfg, s) && s.f.phase.Finalized? && s.f.err.Nil? && s.f.panicVal.None?
    requires i < |s.tasks| && (s.tasks[i].phase.AtActive? || s.tasks[i].phase.Gone?)
    ensures s.tasks[i].result == Returned(Nil) && !s.f.wasCancelled
  {
    assert TaskInv(cfg, s.tasks[i]);
    NilMeansNoRecord(cfg, s.e);
    BagMember(s.tasks, i, Failure(cfg));
    assert |Failure(cfg)(s.tasks[i])| == 0;
    SumAtLeast(s.tasks, i, Raised(cfg));
  }

  lemma {:induction false} NothingRecorded(cfg: Config, ts: seq<Task>)
    requires forall i :: 0 <= i < |ts| ==> ts[i].result == Returned(Nil)
    ensures Bag(ts, Failure(cfg)) == multiset{} && Sum(ts, Raised(cfg)) == 0
  {
    if ts != [] {
      NothingRecorded(cfg, ts[..|ts| - 1]);
    }
  }

  /** Wait returns nil without re-panicking if and only if every task ever spawned,
      nested ones included, ran its function to a nil return and the context was not
      cancelled when finalization looked. */
  lemma NilIsFullSuccess(cfg: Config, s: State)
    requires Reachable(cfg, s) && s.f.phase.Finalized?
    ensures s.f.err.Nil? && s.f.panicVal.None? <==>
      !s.f.wasCancelled && forall i :: 0 <= i < |s.tasks| ==> s.tasks[i].result == Returned(Nil)
    ensures s.n.total == |s.tasks|
  {
    ReachableInv(cfg, s);
    NoneRunning(cfg, s);
    if s.f.err.Nil? && s.f.panicVal.None? {
      forall i | 0 <= i < |s.tasks| ensures s.tasks[i].result == Returned(Nil) {
        NilHidesNothing(cfg, s, i);
      }
    }
    if !s.f.wasCancelled && forall i :: 0 <= i < |s.tasks| ==> s.tasks[i].result == Returned(Nil) {
      NothingRecorded(cfg, s.tasks);
    }
  }

  // ---------------------------------------------------------------------- error policy

  /** FailFast keeps the first recorded error; Collect keeps the first MaxErrors of them
      in order and counts the rest; what is recorded is exactly the tasks' failures. */
  lemma ErrorPolicy(cfg: Config, s: State)
    requires Reachable(cfg, s)
    ensures multiset(s.e.records) == Bag(s.tasks, Failure(cfg))
    ensures cfg.policy.FailFast? ==>
      s.e.first == if s.e.records == [] then None else Some(s.e.records[0])
    ensures cfg.policy.Collect? && 0 < cfg.maxErrors < |s.e.records| ==>
      s.e.stored == s.e.records[..cfg.maxErrors] && s.e.dropped == |s.e.records| - cfg.maxErrors
    ensures cfg.policy.Collect? && (cfg.maxErrors == 0 || |s.e.records| <= cfg.maxErrors) ==>
      s.e.stored == s.e.records && s.e.dropped == 0
  {
    ReachableInv(cfg, s);
  }

  /** Records are only ever appended, so the first error is never replaced. */
  lemma {:induction false} RecordsGrow(cfg: Config, s: State, run: seq<Action>)
    requires CanRun(cfg, s, run)
    ensures s.e.records <= After(cfg, s, run).e.records
    decreases |run|
  {
    if run != [] {
      if run[0].OfTask? {
        TaskFrame(cfg, s, run[0].i, run[0].op);
      }
      RecordsGrow(cfg, Step(cfg, s, run[0]), run[1..]);
    }
  }

  lemma FirstErrorSticks(cfg: Config, s: State, run: seq<Action>)
    requires Reachable(cfg, s) && cfg.policy.FailFast? && s.e.records != [] && CanRun(cfg, s, run)
    ensures s.e.first == Some(s.e.records[0]) && After(cfg, s, run).e.first == s.e.first
  {
    ErrorPolicy(cfg, s);
    RecordsGrow(cfg, s, run);
    ReachableRun(cfg, s, run);
    ErrorPolicy(cfg, After(cfg, s, run));
  }

  lemma {:induction false} PanicsGrow(cfg: Config, s: State, run: seq<Action>)
    requires CanRun(cfg, s, run)
    ensures s.e.panics <= After(cfg, s, run).e.panics
    decreases |run|
  {
    if run != [] {
      if run[0].OfTask? {
        TaskFrame(cfg, s, run[0].i, run[0].op);
      }
      PanicsGrow(cfg, Step(cfg, s, run[0]), run[1..]);
    }
  }

  /** The panics kept for Wait are those of the tasks, none where panics are to be errors, and
      they are only appended: the first stays the first. */
  lemma PanicPolicy(cfg: Config, s: State, run: seq<Action>)
    requires Reachable(cfg, s) && CanRun(cfg, s, run)
    ensures multiset(s.e.panics) == Bag(s.tasks, Raise(cfg))
    ensures cfg.panicAsErr ==> s.e.panics == []
    ensures s.e.panics <= After(cfg, s, run).e.panics
  {
    ReachableInv(cfg, s);
    PanicsGrow(cfg, s, run);
    if cfg.panicAsErr {
      SumOfNone(s.tasks, Raised(cfg));
    }
  }

  /** What finalization makes of all this: the panic to raise again is the first one kept; the
      error is the first recorded one, or all kept ones joined in order, and without any the
      error of the context if finalization saw it cancelled. Either way the context has ended. */
  lemma FinalPolicy(cfg: Config, s: State)
    requires Reachable(cfg, s) && s.f.phase.Finalized?
    ensures s.f.panicVal == if s.e.panics == [] then None else Some(s.e.panics[0])
    ensures s.e.records != [] ==>
      s.f.err == match cfg.policy
        case FailFast => s.e.records[0]
        case Collect =>
          Joined(if 0 < cfg.maxErrors < |s.e.records| then s.e.records[..cfg.maxErrors] else s.e.records)
    ensures s.ctx.Some?
    ensures s.e.records == [] && s.f.wasCancelled ==> s.f.err == s.ctx.value
    ensures s.e.records == [] && !s.f.wasCancelled ==> s.f.err.Nil?
  {
    ReachableInv(cfg, s);
    PanicPolicy(cfg, s, []);
    if s.e.records != [] {
      assert s.e.records[0].TaskError?;
    }
  }

  lemma FailFastEndsContext(cfg: Config, s: State)
    requires Reachable(cfg, s) && s.e.first.Some?
    ensures s.ctx.Some?
  {
    ReachableInv(cfg, s);
  }

  /** What cancels the scope: a deadline or a cancellation from outside, a panic that will be
      raised again, the first failure under fail-fast, or finalization itself. The error is
      DeadlineExceeded exactly for the deadline. */
  lemma CancelCause(cfg: Config, s: State, a: Action)
    requires Enabled(cfg, s, a) && s.ctx.None? && Step(cfg, s, a).ctx.Some?
    ensures Step(cfg, s, a).ctx.value == if a == CancelOutside(true) then DeadlineExceeded else Canceled
    ensures match a
      case Begin(_, _, _) => false
      case OfTask(i, op) =>
        (op.Finish? && op.r.Panicked? && !cfg.panicAsErr) || (op.Record? && cfg.policy.FailFast? && s.e.first.None?)
      case Finalize(op) => op.EndCtx?
      case CancelOutside(_) => true
  {
    if a.OfTask? {
      TaskFrame(cfg, s, a.i, a.op);
    }
  }

  /** ... and each of those does cancel it. */
  lemma CancelEffect(cfg: Config, s: State, a: Action)
    requires Enabled(cfg, s, a)
    requires match a
      case Begin(_, _, _) => false
      case OfTask(i, op) =>
        (op.Finish? && op.r.Panicked? && !cfg.panicAsErr) || (op.Record? && cfg.policy.FailFast? && s.e.first.None?)
      case Finalize(op) => op.EndCtx?
      case CancelOutside(_) => true
    ensures Step(cfg, s, a).ctx.Some?
  {
  }

  lemma {:induction false} CtxErrorStaysPlain(cfg: Config, s: State, run: seq<Action>)
    requires CanRun(cfg, s, run)
    requires s.ctx.Some? ==> s.ctx.value == Canceled || s.ctx.value == DeadlineExceeded
    ensures var ctx := After(cfg, s, run).ctx;
      ctx.Some? ==> ctx.value == Canceled || ctx.value == DeadlineExceeded
    decreases |run|
  {
    if run != [] {
      if run[0].OfTask? {
        TaskFrame(cfg, s, run[0].i, run[0].op);
      }
      CtxErrorStaysPlain(cfg, Step(cfg, s, run[0]), run[1..]);
    }
  }

  lemma CtxErrorIsPlain(cfg: Config, s: State)
    requires Reachable(cfg, s) && s.ctx.Some?
    ensures s.ctx.value == Canceled || s.ctx.value == DeadlineExceeded
  {
    var run :| CanRun(cfg, Init(), run) && After(cfg, Init(), run) == s;
    CtxErrorStaysPlain(cfg, Init(), run);
  }

  /** AllTaskErrors of the value Wait returns gives back exactly the kept errors, and
      a cancellation error carries none. */
  lemma WaitErrorRoundTrip(cfg: Config, s: State)
    requires Reachable(cfg, s) && s.f.phase.Finalized?
    ensures cfg.policy.Collect? ==> Outermost(s.f.err) == s.e.stored
    ensures cfg.policy.FailFast? ==> Outermost(s.f.err) == if s.e.records == [] then [] else [s.e.records[0]]
  {
    ReachableInv(cfg, s);
    CtxErrorIsPlain(cfg, s);
    if cfg.policy.Collect? {
      JoinRoundTrip(s.e.stored);
    } else if s.e.records != [] {
      assert s.e.records[0].TaskError?;
    }
  }

  // ------------------------------------------------------- nil, in terms of the run

  /** Along the run someone cancels the scope from outside before finalization looks. */
  ghost predicate CancelledInTime(run: seq<Action>) {
    run != [] && run[0] != Finalize(SampleCtx) && (run[0].CancelOutside? || CancelledInTime(run[1..]))
  }

  /** A task has cancelled the scope: by a panic that will be raised again, or by the first
      failure under fail-fast. */
  ghost predicate CancelledByTask(cfg: Config, s: State) {
    s.e.panics != [] || (cfg.policy.FailFast? && s.e.records != [])
  }

  lemma ByTaskGrows(cfg: Config, s: State, run: seq<Action>)
    requires CanRun(cfg, s, run) && CancelledByTask(cfg, s)
    ensures CancelledByTask(cfg, After(cfg, s, run))
  {
    RecordsGrow(cfg, s, run);
    PanicsGrow(cfg, s, run);
  }

  lemma SeenTask(cfg: Config, s: State, i: nat, op: TaskOp)
    requires TaskEnabled(cfg, s, i, op)
    ensures var s' := TaskStep(cfg, s, i, op);
      && s'.f == s.f
      && (s'.ctx.Some? ==> s.ctx.Some? || CancelledByTask(cfg, s'))
      && (s.ctx.Some? ==> s'.ctx.Some?)
  {
    TaskFrame(cfg, s, i, op);
  }

  lemma SeenStep(cfg: Config, s: State, a: Action)
    requires Enabled(cfg, s, a) && !s.f.phase.PastSample()
    ensures var s' := Step(cfg, s, a);
      && (SeenCancelled(s'.ctx, s'.f) ==>
            SeenCancelled(s.ctx, s.f) || a.CancelOutside? || CancelledByTask(cfg, s'))
      && (SeenCancelled(s.ctx, s.f) || a.CancelOutside? ==> SeenCancelled(s'.ctx, s'.f))
      && (s'.f.phase.PastSample() <==> a == Finalize(SampleCtx))
  {
    if a.OfTask? {
      SeenTask(cfg, s, a.i, a.op);
    }
  }

  lemma {:induction false} SampledForGood(cfg: Config, s: State, run: seq<Action>)
    requires s.f.phase.PastSample() && CanRun(cfg, s, run)
    ensures After(cfg, s, run).f.phase.PastSample() && After(cfg, s, run).f.wasCancelled == s.f.wasCancelled
    decreases |run|
  {
    if run != [] {
      if run[0].OfTask? {
        TaskFrame(cfg, s, run[0].i, run[0].op);
      }
      SampledForGood(cfg, Step(cfg, s, run[0]), run[1..]);
    }
  }

  lemma {:induction false} SeenAlongRun(cfg: Config, s: State, run: seq<Action>)
    requires CanRun(cfg, s, run) && !s.f.phase.PastSample()
    ensures var s' := After(cfg, s, run);
      && (SeenCancelled(s'.ctx, s'.f) ==>
            SeenCancelled(s.ctx, s.f) || CancelledInTime(run) || CancelledByTask(cfg, s'))
      && (SeenCancelled(s.ctx, s.f) || CancelledInTime(run) ==> SeenCancelled(s'.ctx, s'.f))
    decreases |run|
  {
    if run != [] {
      var s1 := Step(cfg, s, run[0]);
      SeenStep(cfg, s, run[0]);
      if s1.f.phase.PastSample() {
        SampledForGood(cfg, s1, run[1..]);
      } else {
        SeenAlongRun(cfg, s1, run[1..]);
      }
      if CancelledByTask(cfg, s1) {
        ByTaskGrows(cfg, s1, run[1..]);
      }
    }
  }

  /** What finalization saw is what happened: a cancellation from outside before it looked, a
      panic that will be raised again, or a failure under fail-fast. */
  lemma SeenIff(cfg: Config, run: seq<Action>)
    requires CanRun(cfg, Init(), run)
    ensures var s := After(cfg, Init(), run);
      s.f.phase.Finalized? ==> (s.f.wasCancelled <==> CancelledInTime(run) || CancelledByTask(cfg, s))
  {
    InitInv(cfg);
    SeenAlongRun(cfg, Init(), run);
    RunKeepsInv(cfg, Init(), run);
  }

  /** Wait returns nil without re-panicking exactly when every task spawned along the run has
      returned nil and nobody has cancelled the scope from outside before finalization looked. */
  lemma NilIffQuietSuccess(cfg: Config, run: seq<Action>)
    requires CanRun(cfg, Init(), run) && After(cfg, Init(), run).f.phase.Finalized?
    ensures var s := After(cfg, Init(), run);
      s.f.err.Nil? && s.f.panicVal.None? <==>
        !CancelledInTime(run) && forall i :: 0 <= i < |s.tasks| ==> s.tasks[i].result == Returned(Nil)
  {
    var s := After(cfg, Init(), run);
    assert Reachable(cfg, s);
    NilIsFullSuccess(cfg, s);
    SeenIff(cfg, run);
    ReachableInv(cfg, s);
    if forall i :: 0 <= i < |s.tasks| ==> s.tasks[i].result == Returned(Nil) {
      NothingRecorded(cfg, s.tasks);
    }
  }

  // ------------------------------------------------------------------------ accounting

  lemma {:induction false} TalliesPartition(ts: seq<Task>)
    ensures |ts| == Sum(ts, Tallied(Completed)) + Sum(ts, Tallied(Errored)) + Sum(ts, Tallied(PanickedTally))
                    + Sum(ts, Tallied(Cancelled)) + Sum(ts, Tallied(Skipped)) + Sum(ts, Tallied(Undecided))
  {
    if ts != [] {
      TalliesPartition(ts[..|ts| - 1]);
    }
  }

  /** Every spawned task is completed, errored, panicked, cancelled, skipped or still
      without an outcome, each of the first four counted by its own counter; a re-raised panic
      counts as completed. */
  lemma TotalAccounting(cfg: Config, s: State)
    requires Reachable(cfg, s)
    ensures s.n.total == s.n.completed + s.n.errored + s.n.panicked + s.n.cancelled
                         + Sum(s.tasks, Tallied(Skipped)) + Sum(s.tasks, Tallied(Undecided))
    ensures s.n.completed == Sum(s.tasks, Tallied(Completed)) && s.n.errored == Sum(s.tasks, Tallied(Errored))
    ensures s.n.panicked == Sum(s.tasks, Tallied(PanickedTally)) && s.n.cancelled == Sum(s.tasks, Tallied(Cancelled))
    ensures forall i :: 0 <= i < |s.tasks| ==>
      Unhandled(cfg, s.tasks[i].result) && !s.tasks[i].tally.Undecided? ==> s.tasks[i].tally.Completed?
  {
    ReachableInv(cfg, s);
    TalliesPartition(s.tasks);
    forall i | 0 <= i < |s.tasks| && Unhandled(cfg, s.tasks[i].result) && !s.tasks[i].tally.Undecided?
      ensures s.tasks[i].tally.Completed?
    {
      assert TaskInv(cfg, s.tasks[i]);
    }
  }

  /** What each tally says about what the task's function did. */
  lemma TallyMeans(cfg: Config, s: State, i: nat)
    requires Reachable(cfg, s) && i < |s.tasks|
    ensures var r := s.tasks[i].result;
      match s.tasks[i].tally
      case Undecided => !s.tasks[i].phase.Gone? && !s.tasks[i].phase.AtActive?
      case Skipped => r.NotRun? && s.ctx.Some?
      case Completed => r == Returned(Nil) || (r.Panicked? && !cfg.panicAsErr)
      case PanickedTally => Failed(cfg, r) && (r.Panicked? || HasPanic(r.err))
      case Cancelled => r.Returned? && !r.err.Nil? && !HasPanic(r.err) && s.ctx.Some?
      case Errored => r.Returned? && !r.err.Nil? && !HasPanic(r.err)
  {
    ReachableInv(cfg, s);
    assert TaskInv(cfg, s.tasks[i]);
  }

  /** An error without a panic inside counts as cancelled if the context has ended when the task
      is counted, and as errored otherwise; that counter and no other goes up by one. */
  lemma ErroredOrCancelled(cfg: Config, s: State, i: nat)
    requires TaskEnabled(cfg, s, i, Event) && s.tasks[i].result.Returned?
    requires !s.tasks[i].result.err.Nil? && !HasPanic(s.tasks[i].result.err)
    ensures var s' := TaskStep(cfg, s, i, Event);
      if s.ctx.Some? then s'.tasks[i].tally.Cancelled? && s'.n == s.n.(cancelled := s.n.cancelled + 1)
      else s'.tasks[i].tally.Errored? && s'.n == s.n.(errored := s.n.errored + 1)
  {
  }

  ghost predicate NotFromOutside(run: seq<Action>) {
    forall j :: 0 <= j < |run| ==> !run[j].CancelOutside?
  }

  /** Until the first failure is recorded a scope that nobody else cancels is not cancelled, so
      that failure was not counted as a cancellation. */
  ghost predicate CauseInv(s: State) {
    && s.e.panics == []
    && (s.e.records == [] && !s.f.phase.CtxEnded? && !s.f.phase.Finalized? ==> s.ctx.None?)
    && (s.e.records != [] ==> s.n.errored + s.n.panicked > 0)
  }

  /** The task that records in a scope not yet cancelled counts as errored or panicked. */
  lemma CauseRecords(cfg: Config, s: State, i: nat)
    requires Inv(cfg, s) && s.ctx.None? && TaskEnabled(cfg, s, i, Record)
    ensures s.n.errored + s.n.panicked > 0
  {
    assert TaskInv(cfg, s.tasks[i]);
    SumAtLeast(s.tasks, i, Tallied(Errored));
    SumAtLeast(s.tasks, i, Tallied(PanickedTally));
  }

  /** A task's step other than a record keeps the failure counters from falling. */
  lemma FailureCountersGrow(cfg: Config, s: State, i: nat, op: TaskOp)
    requires TaskEnabled(cfg, s, i, op)
    ensures var s' := TaskStep(cfg, s, i, op); s'.n.errored + s'.n.panicked >= s.n.errored + s.n.panicked
    ensures op.Finish? && !Unhandled(cfg, op.r) ==> TaskStep(cfg, s, i, op).ctx == s.ctx
    ensures op.Finish? && Unhandled(cfg, op.r) ==> TaskStep(cfg, s, i, op).e.panics != []
    ensures op.Record? ==> TaskStep(cfg, s, i, op).e.records != []
    ensures !op.Record? ==> TaskStep(cfg, s, i, op).e.records == s.e.records
  {
  }

  lemma CauseTask(cfg: Config, s: State, i: nat, op: TaskOp)
    requires Inv(cfg, s) && CauseInv(s) && TaskEnabled(cfg, s, i, op) && TaskStep(cfg, s, i, op).e.panics == []
    ensures CauseInv(TaskStep(cfg, s, i, op))
  {
    TaskFrame(cfg, s, i, op);
    FailureCountersGrow(cfg, s, i, op);
    if op.Record? && s.e.records == [] {
      StepMeansWaiting(cfg, s, i, op);
      CauseRecords(cfg, s, i);
    }
  }

  lemma CauseOther(cfg: Config, s: State, a: Action)
    requires CauseInv(s) && Enabled(cfg, s, a) && !a.CancelOutside? && !a.OfTask?
    ensures CauseInv(Step(cfg, s, a))
  {
  }

  lemma CauseStep(cfg: Config, s: State, a: Action)
    requires Inv(cfg, s) && CauseInv(s) && Enabled(cfg, s, a) && !a.CancelOutside?
    requires Step(cfg, s, a).e.panics == []
    ensures Inv(cfg, Step(cfg, s, a)) && CauseInv(Step(cfg, s, a))
  {
    if a.OfTask? {
      CauseTask(cfg, s, a.i, a.op);
    } else {
      CauseOther(cfg, s, a);
    }
    StepKeepsInv(cfg, s, a);
  }

  lemma {:induction false} CauseAlongRun(cfg: Config, s: State, run: seq<Action>)
    requires Inv(cfg, s) && CauseInv(s) && CanRun(cfg, s, run) && NotFromOutside(run)
    requires After(cfg, s, run).e.panics == []
    ensures CauseInv(After(cfg, s, run))
    decreases |run|
  {
    if run != [] {
      var s' := Step(cfg, s, run[0]);
      assert s'.e.panics == [] by {
        PanicsGrow(cfg, s', run[1..]);
      }
      assert !run[0].CancelOutside? && NotFromOutside(run[1..]);
      CauseStep(cfg, s, run[0]);
      CauseAlongRun(cfg, s', run[1..]);
    }
  }

  /** The first failure is never counted as a cancellation, under fail-fast neither: in a run
      that nobody cancels from outside, and in which no panic is left to be re-raised, a scope
      with a failed task has one that counts as errored or panicked. */
  lemma FirstFailureCounts(cfg: Config, run: seq<Action>)
    requires CanRun(cfg, Init(), run) && NotFromOutside(run)
    ensures var s := After(cfg, Init(), run);
      s.e.panics == [] && s.e.records != [] ==> s.n.errored + s.n.panicked > 0
  {
    if After(cfg, Init(), run).e.panics == [] {
      InitInv(cfg);
      CauseAlongRun(cfg, Init(), run);
    }
  }

  /** The limit is never exceeded; the tracking table holds one id for each task between
      registration and unregistration, all different, with the task's name, and with a limit at
      most `limit`. */
  lemma LimitsHold(cfg: Config, s: State)
    requires Reachable(cfg, s)
    ensures cfg.limit > 0 ==> s.g.sem == Sum(s.tasks, HoldsSem) <= cfg.limit
    ensures cfg.track ==> |s.t.running| == Sum(s.tasks, Tracked)
    ensures forall i :: cfg.track && 0 <= i < |s.tasks| && Tracked(s.tasks[i]) == 1 ==>
      s.tasks[i].id in s.t.running && s.t.running[s.tasks[i].id] == s.tasks[i].name
    ensures forall i, j ::
      cfg.track && 0 <= i < j < |s.tasks| && Tracked(s.tasks[i]) == 1 && Tracked(s.tasks[j]) == 1 ==>
        s.tasks[i].id != s.tasks[j].id
    ensures cfg.limit > 0 ==> |s.t.running| <= cfg.limit
    ensures s.g.wg == 0 ==> s.g.sem == 0 && |s.t.running| == 0
  {
    ReachableInv(cfg, s);
    SumMonotone(s.tasks, Tracked, HoldsSem);
    SumMonotone(s.tasks, HoldsSem, HoldsWg);
  }

  ghost function Trailing(t: Task): nat {
    if t.phase.AtActive? then 1 else 0
  }

  lemma SumCongruent<T>(xs: seq<T>, a: T -> nat, b: T -> nat)
    requires forall i :: 0 <= i < |xs| ==> a(xs[i]) == b(xs[i])
    ensures Sum(xs, a) == Sum(xs, b)
  {
    SumMonotone(xs, a, b);
    SumMonotone(xs, b, a);
  }

  /** activeTasks trails the wait group: after Wait it still counts exactly the
      goroutines between wg.Done and their last deferred call. */
  lemma ActiveTrailsWait(cfg: Config, s: State)
    requires Reachable(cfg, s) && s.f.phase.PastWait()
    ensures s.n.active == Sum(s.tasks, Trailing)
  {
    ReachableInv(cfg, s);
    NoneRunning(cfg, s);
    SumCongruent(s.tasks, Alive, Trailing);
  }

  // -------------------------------------------------------------------------- progress

  ghost function Rank(t: Task): nat {
    match t.phase
    case AtSem => 11
    case AtRegister => 10
    case AtCheck => 9
    case Running => 8
    case AtChildClose => 7
    case AtEvent => 6
    case AtRecord => 5
    case AtUnregister => 4
    case AtRelease => 3
    case AtWgDone => 2
    case AtActive => 1
    case Gone => 0
  }

  /** Every step of a task uses up some of its finite life. */
  lemma TaskStepDrops(cfg: Config, s: State, i: nat, op: TaskOp)
    requires TaskEnabled(cfg, s, i, op)
    ensures Sum(TaskStep(cfg, s, i, op).tasks, Rank) < Sum(s.tasks, Rank)
  {
    TaskFrame(cfg, s, i, op);
    SumUpdate(s.tasks, i, TaskAfter(cfg, s, i, op), Rank);
    assert Rank(TaskAfter(cfg, s, i, op)) < Rank(s.tasks[i]);
  }

  ghost function TaskSteps(run: seq<Action>): nat {
    if run == [] then 0 else (if run[0].OfTask? then 1 else 0) + TaskSteps(run[1..])
  }

  ghost function Begins(run: seq<Action>): nat {
    if run == [] then 0 else (if run[0].Begin? then 1 else 0) + Begins(run[1..])
  }

  /** A task takes at most eleven steps in its life, in every run: what is left of the tasks
      bounds what is still to come. */
  lemma {:induction false} TaskStepsBounded(cfg: Config, s: State, run: seq<Action>)
    requires CanRun(cfg, s, run)
    ensures TaskSteps(run) + Sum(After(cfg, s, run).tasks, Rank) <= 11 * Begins(run) + Sum(s.tasks, Rank)
    decreases |run|
  {
    if run != [] {
      TaskStepsBounded(cfg, Step(cfg, s, run[0]), run[1..]);
      match run[0] {
        case OfTask(i, op) => TaskStepDrops(cfg, s, i, op);
        case Begin(_, nested, name) => SumAppend(s.tasks, Task(name, nested, AtSem, false, NotRun, Undecided, 0), Rank);
        case _ =>
      }
    }
  }

  /** Waiting never deadlocks: while the count is positive some task can step, for
      every limit and however the tasks are nested. */
  lemma WaitProgress(cfg: Config, s: State) returns (i: nat, op: TaskOp)
    requires Reachable(cfg, s) && s.g.wg > 0
    ensures TaskEnabled(cfg, s, i, op)
  {
    ReachableInv(cfg, s);
    i := SumPositive(s.tasks, HoldsWg);
    if s.tasks[i].phase.AtSem? && cfg.limit > 0 && s.g.sem >= cfg.limit {
      i := SumPositive(s.tasks, HoldsSem);
    }
    SumAtLeast(s.tasks, i, HoldsSem);
    SumAtLeast(s.tasks, i, Alive);
    op := match s.tasks[i].phase
      case AtSem => AcquireSem
      case AtRegister => Register
      case AtCheck => if s.ctx.Some? then SkipAtCheck else StartFn
      case Running => Finish(Returned(Nil))
      case AtChildClose => CloseChild
      case AtEvent => Event
      case AtRecord => Record
      case AtUnregister => Unregister
      case AtRelease => Release
      case AtWgDone => WgDone
      case _ => Deactivate;
  }

  /** A cancelled scope does not keep a task waiting for a slot of its limit: it can leave at
      once, skipped, with no slot taken, and give its wait-group count back. */
  lemma CancelledWaiterLeaves(cfg: Config, s: State, i: nat)
    requires Reachable(cfg, s) && cfg.limit > 0 && s.ctx.Some? && i < |s.tasks| && s.tasks[i].phase.AtSem?
    ensures TaskEnabled(cfg, s, i, SkipAtSem)
    ensures var s1 := TaskStep(cfg, s, i, SkipAtSem);
      && s1.tasks[i].tally.Skipped? && s1.g == s.g && TaskEnabled(cfg, s1, i, WgDone)
      && TaskStep(cfg, s1, i, WgDone).g == s.g.(wg := s.g.wg - 1)
  {
    ReachableInv(cfg, s);
    SumAtLeast(s.tasks, i, HoldsWg);
  }

  // ----------------------------------------------------------- tasks that wait for a slot

  /** A task waits for a slot of the limit, all slots are taken, and nothing is cancelled. */
  ghost predicate WaitsForSlot(cfg: Config, s: State, i: nat) {
    && cfg.limit > 0 && s.g.sem == cfg.limit && s.ctx.None?
    && i < |s.tasks| && s.tasks[i].phase.AtSem?
  }

  /** The tasks that hold a slot are exactly those in `held`. */
  ghost predicate HeldBy(s: State, held: set<nat>) {
    forall j: nat :: j < |s.tasks| ==> (j in held <==> HoldsSem(s.tasks[j]) == 1)
  }

  /** None of the tasks in `held` moves, and nobody cancels the scope from outside. */
  ghost predicate HoldersRest(held: set<nat>, run: seq<Action>) {
    forall j :: 0 <= j < |run| ==> !run[j].CancelOutside? && (run[j].OfTask? ==> run[j].i !in held)
  }

  /** A task that holds no slot can only be on its way out, or wait for one too. */
  lemma SlotlessStep(cfg: Config, s: State, j: nat, op: TaskOp)
    requires TaskEnabled(cfg, s, j, op) && HoldsSem(s.tasks[j]) == 0
    requires cfg.limit > 0 && s.g.sem == cfg.limit && s.ctx.None?
    ensures !s.tasks[j].phase.AtSem?
    ensures var s' := TaskStep(cfg, s, j, op);
      s'.g.sem == s.g.sem && s'.ctx == s.ctx && s'.tasks == s.tasks[j := s'.tasks[j]] && HoldsSem(s'.tasks[j]) == 0
  {
  }

  lemma WaitingStep(cfg: Config, s: State, i: nat, held: set<nat>, a: Action)
    requires Inv(cfg, s) && WaitsForSlot(cfg, s, i) && HeldBy(s, held) && (forall j :: j in held ==> j < |s.tasks|)
    requires Enabled(cfg, s, a) && HoldersRest(held, [a])
    ensures var s' := Step(cfg, s, a);
      && WaitsForSlot(cfg, s', i) && HeldBy(s', held) && (forall j :: j in held ==> j < |s'.tasks|)
      && s'.tasks[i] == s.tasks[i]
  {
    SumAtLeast(s.tasks, i, HoldsWg);
    assert [a][0] == a;
    if a.OfTask? {
      assert HoldsSem(s.tasks[a.i]) == 0;
      SlotlessStep(cfg, s, a.i, a.op);
    }
  }

  /** While the tasks that hold the slots do not move, waiting for something themselves, a task
      that waits for a slot stays where it is, whatever the others and new spawns do: this is
      how a ParallelMap dispatcher starves when the tasks that read its stream hold every slot. */
  lemma {:induction false} FullLimitStarves(cfg: Config, s: State, i: nat, held: set<nat>, run: seq<Action>)
    requires Inv(cfg, s) && WaitsForSlot(cfg, s, i) && HeldBy(s, held) && (forall j :: j in held ==> j < |s.tasks|)
    requires CanRun(cfg, s, run) && HoldersRest(held, run)
    ensures WaitsForSlot(cfg, After(cfg, s, run), i) && After(cfg, s, run).tasks[i] == s.tasks[i]
    decreases |run|
  {
    if run != [] {
      assert HoldersRest(held, [run[0]]) && HoldersRest(held, run[1..]);
      WaitingStep(cfg, s, i, held, run[0]);
      StepKeepsInv(cfg, s, run[0]);
      FullLimitStarves(cfg, Step(cfg, s, run[0]), i, held, run[1..]);
    }
  }

  /** n root tasks are running, each in a slot. */
  ghost predicate SlotsFilled(cfg: Config, s: State, n: nat) {
    && Reachable(cfg, s) && s.g.sem == n && s.g.rootOpen && s.ctx.None?
    && |s.tasks| == n && forall j :: 0 <= j < n ==> s.tasks[j].phase.Running?
  }

  lemma FillOne(cfg: Config, s: State, n: nat) returns (s': State)
    requires cfg.limit > n && SlotsFilled(cfg, s, n)
    ensures SlotsFilled(cfg, s', n + 1)
  {
    ReachableStep(cfg, s, Begin(Root, false, ""));
    s' := Step(cfg, s, Begin(Root, false, ""));
    ReachableStep(cfg, s', OfTask(n, AcquireSem));
    s' := Step(cfg, s', OfTask(n, AcquireSem));
    ReachableStep(cfg, s', OfTask(n, Register));
    s' := Step(cfg, s', OfTask(n, Register));
    ReachableStep(cfg, s', OfTask(n, StartFn));
    s' := Step(cfg, s', OfTask(n, StartFn));
  }

  lemma {:induction false} FillSlots(cfg: Config, n: nat) returns (s: State)
    requires n <= cfg.limit
    ensures SlotsFilled(cfg, s, n)
  {
    if n == 0 {
      s := Init();
      assert CanRun(cfg, Init(), []) && After(cfg, Init(), []) == s;
    } else {
      s := FillSlots(cfg, n - 1);
      s := FillOne(cfg, s, n - 1);
    }
  }

  /** Under every limit such a state can be reached: as many running tasks as there are slots,
      and one more task. */
  lemma FullLimitIsReachable(cfg: Config) returns (s: State)
    requires cfg.limit > 0
    ensures Reachable(cfg, s) && WaitsForSlot(cfg, s, cfg.limit)
    ensures forall j :: 0 <= j < cfg.limit ==> s.tasks[j].phase.Running?
  {
    s := FillSlots(cfg, cfg.limit);
    ReachableStep(cfg, s, Begin(Root, false, ""));
    s := Step(cfg, s, Begin(Root, false, ""));
  }
}
