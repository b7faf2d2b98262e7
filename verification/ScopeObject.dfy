/** The scope struct itself. Its critical sections update the fields in place, and a task's tail
    and Wait are put together from them. Between two of its operations a goroutine gives way to
    the others, which may take any steps. */
module ScopeObject {
  import opened Options
  import opened TaskErrors
  import opened Scope
  import opened ScopeInvariant
  import opened ScopeGuarantees

  // ------------------------------------------------ what the steps of a task's tail do

  /** The three steps before a task's error is recorded change nothing else of the task. */
  lemma AfterTailStep(cfg: Config, s: State, i: nat, op: TaskOp)
    requires TaskEnabled(cfg, s, i, op) && (op.Finish? || op.CloseChild? || op.Event?)
    ensures var t, s' := s.tasks[i], TaskStep(cfg, s, i, op);
      && |s'.tasks| == |s.tasks|
      && s'.tasks[i] == match op
           case Finish(r) => t.(phase := if t.nested then AtChildClose else AtEvent, result := r)
           case CloseChild => t.(phase := AtEvent, childOpen := false)
           case _ => var err := ExecErr(cfg, t.result);
             t.(phase := if err.Nil? then AtUnregister else AtRecord, tally := Classify(err, s.ctx))
  {
  }

  /** The end of a task function: its result, and a panic that is not to be an error. */
  lemma FinishIs(cfg: Config, s: State, i: nat, r: Result)
    requires TaskEnabled(cfg, s, i, Finish(r))
    ensures var s' := s.(tasks := s.tasks[i := TaskAfter(cfg, s, i, Finish(r))]);
      TaskStep(cfg, s, i, Finish(r)) ==
        if r.Panicked? && !cfg.panicAsErr
        then s'.(e := s.e.(panics := s.e.panics + [PanicError(r.p)]), ctx := CancelWith(s.ctx, Canceled))
        else s'
  {
  }

  lemma FailFastFirst(cfg: Config, s: State)
    requires Reachable(cfg, s)
    ensures s.e.first.Some? ==> s.ctx.Some?
  {
    if s.e.first.Some? {
      FailFastEndsContext(cfg, s);
    }
  }

  lemma AfterRecord(cfg: Config, s: State, i: nat)
    requires Reachable(cfg, s) && TaskEnabled(cfg, s, i, Record)
    ensures var s', te := TaskStep(cfg, s, i, Record), TaskError(s.tasks[i].name, ExecErr(cfg, s.tasks[i].result));
      && |s'.tasks| == |s.tasks| && s'.tasks[i] == s.tasks[i].(phase := AtUnregister)
      && s'.e.records == s.e.records + [te]
      && (cfg.policy.FailFast? ==> s'.e.first == Some(s'.e.records[0]) && s'.ctx.Some?)
  {
    ReachableStep(cfg, s, OfTask(i, Record));
    ErrorPolicy(cfg, TaskStep(cfg, s, i, Record));
    FailFastFirst(cfg, TaskStep(cfg, s, i, Record));
  }

  class ScopeCell {
    const cfg: Config

    // context, wait group, limit semaphore, root spawner
    var ctx: Option<Error>
    var wg: nat
    var sem: nat
    var rootOpen: bool

    // errors
    var firstErr: Option<Error>
    var errs: seq<Error>
    var droppedErrors: nat
    var panics: seq<Error>
    ghost var records: seq<Error>

    // counters
    var totalSpawned: nat
    var activeTasks: nat
    var completed: nat
    var errored: nat
    var panicked: nat
    var cancelled: nat

    // tracking
    var runningTasks: map<nat, string>
    var nextTaskID: nat

    // finalization
    var finErr: Error
    var finPanic: Option<Error>
    var done: bool               // finOnce has run
    ghost var wasCancelled: bool
    ghost var phase: FinalPhase

    // the task goroutines, which the object does not store
    ghost var tasks: seq<Task>

    ghost function View(): State
      reads this
    {
      State(Gate(wg, sem, rootOpen), tasks, ctx,
            Errors(firstErr, errs, droppedErrors, panics, records),
            Counters(totalSpawned, activeTasks, completed, errored, panicked, cancelled),
            Tracking(runningTasks, nextTaskID),
            Final(phase, wasCancelled, finErr, finPanic))
    }

    ghost function ErrorsView(): Errors
      reads this
    {
      Errors(firstErr, errs, droppedErrors, panics, records)
    }

    ghost function CountersView(): Counters
      reads this
    {
      Counters(totalSpawned, activeTasks, completed, errored, panicked, cancelled)
    }

    /** The object is in a state that some run of the scope leads to. */
    ghost predicate Valid()
      reads this
    {
      Reachable(cfg, View()) && (done <==> phase.Finalized?)
    }

    constructor (cfg: Config)
      ensures this.cfg == cfg && Valid() && View() == Init()
    {
      this.cfg := cfg;
      ctx, wg, sem, rootOpen := None, 0, 0, true;
      firstErr, errs, droppedErrors, panics, records := None, [], 0, [], [];
      totalSpawned, activeTasks, completed, errored, panicked, cancelled := 0, 0, 0, 0, 0, 0;
      runningTasks, nextTaskID := map[], 0;
      finErr, finPanic, done, wasCancelled, phase := Nil, None, false, false, Open;
      tasks := [];
      new;
      assert CanRun(cfg, Init(), []) && After(cfg, Init(), []) == Init();
    }

    method BecomeGate(g: Gate, ctx': Option<Error>, ts: seq<Task>)
      modifies this`wg, this`sem, this`rootOpen, this`ctx, this`tasks
      ensures Gate(wg, sem, rootOpen) == g && ctx == ctx' && tasks == ts
    {
      wg, sem, rootOpen, ctx, tasks := g.wg, g.sem, g.rootOpen, ctx', ts;
    }

    method BecomeErrors(e: Errors)
      modifies this`firstErr, this`errs, this`droppedErrors, this`panics, this`records
      ensures Errors(firstErr, errs, droppedErrors, panics, records) == e
    {
      firstErr, errs, droppedErrors, panics, records := e.first, e.stored, e.dropped, e.panics, e.records;
    }

    method BecomeCounters(n: Counters)
      modifies this`totalSpawned, this`activeTasks, this`completed, this`errored, this`panicked, this`cancelled
      ensures Counters(totalSpawned, activeTasks, completed, errored, panicked, cancelled) == n
    {
      totalSpawned, activeTasks, completed := n.total, n.active, n.completed;
      errored, panicked, cancelled := n.errored, n.panicked, n.cancelled;
    }

    method BecomeRest(t: Tracking, f: Final)
      modifies this`runningTasks, this`nextTaskID, this`finErr, this`finPanic, this`done, this`wasCancelled, this`phase
      ensures Tracking(runningTasks, nextTaskID) == t && Final(phase, wasCancelled, finErr, finPanic) == f
      ensures done <==> f.phase.Finalized?
    {
      runningTasks, nextTaskID := t.running, t.nextId;
      finErr, finPanic, done, wasCancelled, phase := f.err, f.panicVal, f.phase.Finalized?, f.wasCancelled, f.phase;
    }

    method Become(s: State)
      modifies this
      ensures View() == s && (done <==> s.f.phase.Finalized?)
    {
      BecomeGate(s.g, s.ctx, s.tasks);
      BecomeErrors(s.e);
      BecomeCounters(s.n);
      BecomeRest(s.t, s.f);
    }

    /** The other goroutines have led the scope to s. */
    method GiveWay(s: State)
      requires Valid() && Leads(cfg, View(), s)
      modifies this
      ensures Valid() && View() == s
    {
      ReachableLed(cfg, View(), s);
      Become(s);
    }

    /** Cancelling takes effect once. */
    method Cancel(err: Error)
      modifies this`ctx
      ensures ctx == CancelWith(old(ctx), err)
      ensures ctx == if old(ctx).Some? then old(ctx) else Some(err)
    {
      if ctx.None? {
        ctx := Some(err);
      }
    }

    /** Scope.Cancel. */
    method CancelScope()
      requires Valid()
      modifies this`ctx
      ensures Valid() && ctx == if old(ctx).Some? then old(ctx) else Some(Canceled)
    {
      ReachableStep(cfg, View(), CancelOutside(false));
      Cancel(Canceled);
    }

    method BeginTaskLocked(open: bool, ghost sp: SpawnerRef, nested: bool, name: string) returns (ok: bool)
      requires open == IsOpen(View(), sp)
      modifies this`wg, this`totalSpawned, this`activeTasks, this`tasks
      ensures ok == open
      ensures View() == if ok then BeginStep(old(View()), sp, nested, name) else old(View())
    {
      if !open {
        return false;
      }
      wg := wg + 1;
      totalSpawned := totalSpawned + 1;
      activeTasks := activeTasks + 1;
      tasks := tasks + [Task(name, nested, AtSem, false, NotRun, Undecided, 0)];
      ok := true;
    }

    /** beginTask: refused, with nothing changed, once the spawner is closed, and always once
        finalize is past its wait. */
    method BeginTask(open: bool, ghost sp: SpawnerRef, nested: bool, name: string) returns (ok: bool)
      requires Valid() && open == IsOpen(View(), sp)
      modifies this`wg, this`totalSpawned, this`activeTasks, this`tasks
      ensures Valid() && ok == open && (phase.PastWait() ==> !ok)
      ensures View() == if ok then BeginStep(old(View()), sp, nested, name) else old(View())
    {
      if open {
        OpenSpawner(cfg, View(), sp);
        ReachableStep(cfg, View(), Begin(sp, nested, name));
      }
      ok := BeginTaskLocked(open, sp, nested, name);
    }

    method RegisterTaskLocked(name: string, ghost i: nat) returns (id: nat)
      requires cfg.track && TaskEnabled(cfg, View(), i, Register) && tasks[i].name == name
      modifies this`runningTasks, this`nextTaskID, this`tasks
      ensures id == old(nextTaskID) && runningTasks == old(runningTasks)[id := name]
      ensures View() == TaskStep(cfg, old(View()), i, Register)
    {
      id := nextTaskID;
      nextTaskID := nextTaskID + 1;
      runningTasks := runningTasks[id := name];
      tasks := tasks[i := tasks[i].(phase := AtCheck, id := id)];
    }

    /** registerTask enters the task under an id that is not in use. */
    method RegisterTask(name: string, ghost i: nat) returns (id: nat)
      requires Valid() && cfg.track && TaskEnabled(cfg, View(), i, Register) && tasks[i].name == name
      modifies this`runningTasks, this`nextTaskID, this`tasks
      ensures Valid() && View() == TaskStep(cfg, old(View()), i, Register)
      ensures id !in old(runningTasks) && runningTasks == old(runningTasks)[id := name]
    {
      NextIdIsFree(cfg, View());
      ReachableStep(cfg, View(), OfTask(i, Register));
      id := RegisterTaskLocked(name, i);
    }

    /** unregisterTask forgets the id. */
    method UnregisterTask(id: nat, ghost i: nat)
      requires Valid() && cfg.track && TaskEnabled(cfg, View(), i, Unregister) && tasks[i].id == id
      modifies this`runningTasks, this`tasks
      ensures Valid() && View() == TaskStep(cfg, old(View()), i, Unregister)
    {
      ReachableStep(cfg, View(), OfTask(i, Unregister));
      runningTasks := runningTasks - {id};
      tasks := tasks[i := tasks[i].(phase := AtRelease)];
    }

    /** A panic that is not to be an error is kept for Wait and cancels the scope. */
    method KeepPanic(p: Error)
      modifies this`panics, this`ctx
      ensures View() == old(View()).(e := old(View()).e.(panics := old(panics) + [PanicError(p)]),
                                     ctx := CancelWith(old(ctx), Canceled))
    {
      panics := panics + [PanicError(p)];
      Cancel(Canceled);
    }

    method KeepResult(r: Result, ghost i: nat) returns (err: Error)
      requires TaskEnabled(cfg, View(), i, Finish(r))
      modifies this`panics, this`ctx, this`tasks
      ensures err == ExecErr(cfg, r)
      ensures View() == TaskStep(cfg, old(View()), i, Finish(r))
    {
      FinishIs(cfg, View(), i, r);
      err := Nil;
      match r {
        case Returned(e) => err := e;
        case Panicked(p) =>
          if cfg.panicAsErr {
            err := PanicError(p);
          } else {
            KeepPanic(p);
          }
        case NotRun =>
      }
      tasks := tasks[i := TaskAfter(cfg, old(View()), i, Finish(r))];
    }

    /** exec's recovery: a panic becomes an error, or is kept for Wait and cancels the scope. */
    method Recover(r: Result, ghost i: nat) returns (err: Error)
      requires Valid() && TaskEnabled(cfg, View(), i, Finish(r))
      modifies this`panics, this`ctx, this`tasks
      ensures err == ExecErr(cfg, r)
      ensures Valid() && View() == TaskStep(cfg, old(View()), i, Finish(r))
      ensures match r
        case Returned(e) => err == e && panics == old(panics) && ctx == old(ctx)
        case Panicked(p) =>
          if cfg.panicAsErr then err == PanicError(p) && panics == old(panics) && ctx == old(ctx)
          else err.Nil? && panics == old(panics) + [PanicError(p)] && ctx.Some?
        case NotRun => true
    {
      ReachableStep(cfg, View(), OfTask(i, Finish(r)));
      err := KeepResult(r, i);
    }

    /** Exactly one of the four outcome counters goes up. */
    method CountOutcome(err: Error)
      modifies this`completed, this`errored, this`panicked, this`cancelled
      ensures CountersView() == Count(old(CountersView()), Classify(err, ctx))
      ensures completed + errored + panicked + cancelled == old(completed + errored + panicked + cancelled) + 1
      ensures err.Nil? ==> completed == old(completed) + 1
      ensures HasPanic(err) ==> panicked == old(panicked) + 1
      ensures !err.Nil? && !HasPanic(err) && ctx.Some? ==> cancelled == old(cancelled) + 1
      ensures !err.Nil? && !HasPanic(err) && ctx.None? ==> errored == old(errored) + 1
    {
      if err.Nil? {
        completed := completed + 1;
      } else if HasPanic(err) {
        panicked := panicked + 1;
      } else if ctx.Some? {
        cancelled := cancelled + 1;
      } else {
        errored := errored + 1;
      }
    }

    /** The policy switch: fail fast cancels on its first error, collect stores up to the cap. */
    method StoreError(te: Error)
      modifies this`firstErr, this`errs, this`droppedErrors, this`records, this`ctx
      ensures ErrorsView() == RecordError(cfg, old(ErrorsView()), te)
      ensures ctx == if cfg.policy.FailFast? && old(firstErr).None? then CancelWith(old(ctx), Canceled) else old(ctx)
    {
      records := records + [te];
      match cfg.policy {
        case FailFast =>
          if firstErr.None? {
            firstErr := Some(te);
            Cancel(Canceled);
          }
        case Collect =>
          if cfg.maxErrors > 0 && |errs| >= cfg.maxErrors {
            droppedErrors := droppedErrors + 1;
          } else {
            errs := errs + [te];
          }
      }
    }

    method CountEvent(err: Error, ghost i: nat)
      requires TaskEnabled(cfg, View(), i, Event) && err == ExecErr(cfg, tasks[i].result)
      modifies this`completed, this`errored, this`panicked, this`cancelled, this`tasks
      ensures View() == TaskStep(cfg, old(View()), i, Event)
    {
      CountOutcome(err);
      tasks := tasks[i := TaskAfter(cfg, old(View()), i, Event)];
    }

    /** emitCompletionEvent. */
    method EmitCompletionEvent(err: Error, ghost i: nat)
      requires Valid() && TaskEnabled(cfg, View(), i, Event) && err == ExecErr(cfg, tasks[i].result)
      modifies this`completed, this`errored, this`panicked, this`cancelled, this`tasks
      ensures Valid() && View() == TaskStep(cfg, old(View()), i, Event)
    {
      ReachableStep(cfg, View(), OfTask(i, Event));
      CountEvent(err, i);
    }

    method RecordLocked(name: string, err: Error, ghost i: nat)
      requires TaskEnabled(cfg, View(), i, Record)
      requires tasks[i].name == name && err == ExecErr(cfg, tasks[i].result)
      modifies this`firstErr, this`errs, this`droppedErrors, this`records, this`ctx, this`tasks
      ensures View() == TaskStep(cfg, old(View()), i, Record)
    {
      StoreError(TaskError(name, err));
      tasks := tasks[i := TaskAfter(cfg, old(View()), i, Record)];
    }

    /** recordError under either policy. */
    method RecordTaskError(name: string, err: Error, ghost i: nat)
      requires Valid() && TaskEnabled(cfg, View(), i, Record)
      requires tasks[i].name == name && err == ExecErr(cfg, tasks[i].result)
      modifies this`firstErr, this`errs, this`droppedErrors, this`records, this`ctx, this`tasks
      ensures Valid() && View() == TaskStep(cfg, old(View()), i, Record)
    {
      ReachableStep(cfg, View(), OfTask(i, Record));
      RecordLocked(name, err, i);
    }

    /** The child spawner of a nested task is closed once its function has returned. */
    method CloseChildSpawner(ghost i: nat)
      requires Valid() && TaskEnabled(cfg, View(), i, CloseChild)
      modifies this`tasks
      ensures Valid() && View() == TaskStep(cfg, old(View()), i, CloseChild)
    {
      ReachableStep(cfg, View(), OfTask(i, CloseChild));
      tasks := tasks[i := TaskAfter(cfg, View(), i, CloseChild)];
    }

    /** The second half of a task's tail: the completion event, and the record of a failure. */
    method Report(name: string, ghost r: Result, err: Error, ghost i: nat, s3: State)
      requires Valid() && TaskEnabled(cfg, View(), i, Event)
      requires tasks[i].name == name && tasks[i].result == r && err == ExecErr(cfg, r)
      requires if err.Nil? then s3 == View() else TaskYields(cfg, i, TaskStep(cfg, View(), i, Event), s3)
      modifies this
      ensures Valid() && i < |tasks| && tasks[i].phase.AtUnregister? && tasks[i].result == r
      ensures tasks[i].tally == Classify(err, old(ctx))
      ensures !err.Nil? ==> records == s3.e.records + [TaskError(name, err)]
      ensures !err.Nil? && cfg.policy.FailFast? ==> firstErr == Some(records[0]) && ctx.Some?
    {
      AfterTailStep(cfg, View(), i, Event);
      EmitCompletionEvent(err, i);
      if !err.Nil? {
        TaskYieldLeads(cfg, i, View(), s3);
        GiveWay(s3);
        AfterRecord(cfg, View(), i);
        RecordTaskError(name, err, i);
      }
    }

    /** What a task goroutine does from the end of its function to its deferred calls. The
        others lead the scope to s1, s2 and s3 between its steps. Its failure, if any, is on
        record then, and counted by what it was. */
    method Complete(name: string, nested: bool, r: Result, ghost i: nat, s1: State, s2: State, s3: State)
      requires Valid() && TaskEnabled(cfg, View(), i, Finish(r))
      requires tasks[i].name == name && tasks[i].nested == nested
      requires TaskYields(cfg, i, TaskStep(cfg, View(), i, Finish(r)), s1)
      requires if nested then TaskYields(cfg, i, TaskStep(cfg, s1, i, CloseChild), s2) else s2 == s1
      requires if ExecErr(cfg, r).Nil? then s3 == s2 else TaskYields(cfg, i, TaskStep(cfg, s2, i, Event), s3)
      modifies this
      ensures Valid() && i < |tasks| && tasks[i].phase.AtUnregister? && tasks[i].result == r
      ensures tasks[i].tally == Classify(ExecErr(cfg, r), s2.ctx)
      ensures Failed(cfg, r) ==> records == s3.e.records + [TaskError(name, Cause(r))]
      ensures Failed(cfg, r) && cfg.policy.FailFast? ==> firstErr == Some(records[0]) && ctx.Some?
    {
      FailureIsExecErr(cfg, r);
      AfterTailStep(cfg, View(), i, Finish(r));
      var err := Recover(r, i);
      TaskYieldLeads(cfg, i, View(), s1);
      GiveWay(s1);
      if nested {
        AfterTailStep(cfg, View(), i, CloseChild);
        CloseChildSpawner(i);
        TaskYieldLeads(cfg, i, View(), s2);
        GiveWay(s2);
      }
      assert View() == s2 && s2.tasks[i].phase.AtEvent? && s2.tasks[i].result == r && s2.tasks[i].name == name;
      Report(name, r, err, i, s3);
    }

    // --------------------------------------------------------------------- finalization

    /** spawner.close on the root. */
    method CloseRootSpawner()
      requires Valid() && phase.Open?
      modifies this`rootOpen, this`phase
      ensures Valid() && View() == FinalStep(cfg, old(View()), CloseRoot)
    {
      ReachableStep(cfg, View(), Finalize(CloseRoot));
      rootOpen := false;
      phase := RootClosed;
    }

    /** wg.Wait. */
    method WaitForTasks()
      requires Valid() && phase.RootClosed? && wg == 0
      modifies this`phase
      ensures Valid() && View() == FinalStep(cfg, old(View()), WaitZero)
    {
      ReachableStep(cfg, View(), Finalize(WaitZero));
      phase := Waited;
    }

    /** finalize notes whether the context was cancelled before the scope ends it. */
    method SampleContext() returns (ctxWasCancelled: bool)
      requires Valid() && phase.Waited?
      modifies this`wasCancelled, this`phase
      ensures Valid() && View() == FinalStep(cfg, old(View()), SampleCtx) && ctxWasCancelled == wasCancelled
    {
      ReachableStep(cfg, View(), Finalize(SampleCtx));
      ctxWasCancelled := ctx.Some?;
      wasCancelled, phase := ctxWasCancelled, Sampled;
    }

    method EndContext()
      requires Valid() && phase.Sampled?
      modifies this`ctx, this`phase
      ensures Valid() && View() == FinalStep(cfg, old(View()), EndCtx)
    {
      ReachableStep(cfg, View(), Finalize(EndCtx));
      Cancel(Canceled);
      phase := CtxEnded;
    }

    method JoinErrors() returns (joined: Error)
      ensures joined == Joined(errs)
    {
      var copied: seq<Error> := [];
      for j := 0 to |errs|
        invariant copied == errs[..j]
      {
        copied := copied + [errs[j]];
      }
      joined := Joined(copied);
    }

    method PolicyErr() returns (err: Error)
      ensures err == PolicyError(cfg, ErrorsView())
    {
      err := Nil;
      match cfg.policy {
        case FailFast =>
          if firstErr.Some? {
            err := firstErr.value;
          }
        case Collect =>
          if |errs| > 0 {
            err := JoinErrors();
          }
      }
    }

    method AggregateResult(ctxWasCancelled: bool)
      requires phase.CtxEnded? && finErr.Nil? && finPanic.None? && ctxWasCancelled == wasCancelled
      requires ctxWasCancelled ==> ctx.Some?
      modifies this`finErr, this`finPanic, this`phase
      ensures View() == FinalStep(cfg, old(View()), FinalOp.Conclude)
    {
      if !cfg.panicAsErr && |panics| > 0 {
        finPanic := Some(panics[0]);
      }
      finErr := PolicyErr();
      if finErr.Nil? && ctxWasCancelled {
        finErr := ctx.value;
      }
      phase := Finalized;
    }

    /** The aggregation by policy, with the context error as a fallback. */
    method Conclude(ctxWasCancelled: bool)
      requires Valid() && phase.CtxEnded? && ctxWasCancelled == wasCancelled
      modifies this`finErr, this`finPanic, this`done, this`phase
      ensures Valid() && View() == FinalStep(cfg, old(View()), FinalOp.Conclude)
    {
      EndedContext(cfg, View());
      ReachableStep(cfg, View(), Finalize(FinalOp.Conclude));
      AggregateResult(ctxWasCancelled);
      done := true;
    }

    /** finalize up to the point where it has noted the state of the context. */
    method WaitAndSample(s1: State) returns (ctxWasCancelled: bool)
      requires Valid() && phase.Open?
      requires FinalYields(cfg, FinalStep(cfg, View(), CloseRoot), s1) && s1.g.wg == 0
      modifies this
      ensures Valid() && s1.f.phase.RootClosed? && s1.g.wg == 0 && ctxWasCancelled == wasCancelled
      ensures View() == FinalStep(cfg, FinalStep(cfg, s1, WaitZero), SampleCtx)
    {
      CloseRootSpawner();
      FinalYieldLeads(cfg, View(), s1);
      GiveWay(s1);
      WaitForTasks();
      ctxWasCancelled := SampleContext();
    }

    /** The rest of finalize. */
    method EndAndConclude(ctxWasCancelled: bool, s3: State)
      requires Valid() && phase.Sampled? && ctxWasCancelled == wasCancelled
      requires FinalYields(cfg, FinalStep(cfg, View(), EndCtx), s3)
      modifies this
      ensures Valid() && done
    {
      EndContext();
      FinalYieldLeads(cfg, View(), s3);
      GiveWay(s3);
      Conclude(ctxWasCancelled);
    }

    /** Wait, from the goroutine that gets to finalize; the others lead the scope to s1 until
        the last task is done, and to s2 and s3 around the end of the context. A Wait that
        finds the scope finalized, or blocks until it is, changes nothing and returns the same.
        A nil result without a panic is full success, and the returned error carries exactly
        the kept task errors. */
    method Wait(s1: State, s2: State, s3: State) returns (err: Error, panicVal: Option<Error>)
      requires Valid() && (!done ==> phase.Open?)
      requires !done ==>
        && FinalYields(cfg, FinalStep(cfg, View(), CloseRoot), s1) && s1.g.wg == 0
        && FinalYields(cfg, FinalStep(cfg, FinalStep(cfg, s1, WaitZero), SampleCtx), s2)
        && FinalYields(cfg, FinalStep(cfg, s2, EndCtx), s3)
      modifies this
      ensures Valid() && done && (err, panicVal) == (finErr, finPanic)
      ensures old(done) ==> View() == old(View()) && err == old(finErr) && panicVal == old(finPanic)
      ensures wg == 0 && !rootOpen
      ensures err.Nil? && panicVal.None? <==>
        !wasCancelled && forall i :: 0 <= i < |tasks| ==> tasks[i].result == Returned(Nil)
      ensures Outermost(err) == match cfg.policy
        case Collect => errs
        case FailFast => if records == [] then [] else [records[0]]
      // the first kept panic is raised again; a recorded failure goes before the context's error
      ensures panicVal == if panics == [] then None else Some(panics[0])
      ensures records != [] ==> err == if cfg.policy.FailFast? then records[0] else Joined(errs)
      ensures records == [] ==> if wasCancelled then ctx == Some(err) else err.Nil?
    {
      if !done {
        var ctxWasCancelled := WaitAndSample(s1);
        FinalYieldLeads(cfg, View(), s2);
        GiveWay(s2);
        EndAndConclude(ctxWasCancelled, s3);
      }
      err, panicVal := finErr, finPanic;
      NilIsFullSuccess(cfg, View());
      WaitErrorRoundTrip(cfg, View());
      FinalPolicy(cfg, View());
      ErrorPolicy(cfg, View());
      NoneRunning(cfg, View());
      assert !IsOpen(View(), Root);
    }
  }
}
