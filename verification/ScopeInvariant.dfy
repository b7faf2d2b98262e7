/** The inductive invariant of a scope: every step of every run keeps it. It has one component
    for each of tasks, the gate, counters, tracking, errors, the context and finalization;
    each is shown to survive the steps of tasks, spawners and the finalizer on its own. */
module ScopeInvariant {
  import opened Counting
  import opened Options
  import opened TaskErrors
  import opened Scope

  // ---------------------------------------------------------- what one task accounts for

  ghost function HoldsWg(t: Task): nat {
    if t.phase.AtActive? || t.phase.Gone? then 0 else 1
  }

  ghost function HoldsSem(t: Task): nat {
    match t.phase
    case AtSem => 0
    case AtWgDone => 0
    case AtActive => 0
    case Gone => 0
    case _ => 1
  }

  /** The task's id is in the tracking table. */
  ghost function Tracked(t: Task): nat {
    if t.phase.AtRegister? || t.phase.AtRelease? then 0 else HoldsSem(t)
  }

  ghost function Alive(t: Task): nat {
    if t.phase.Gone? then 0 else 1
  }

  ghost function Tallied(tally: Tally): Task -> nat {
    (t: Task) => if t.tally == tally then 1 else 0
  }

  /** What the task's function did counts as a failure: it returned an error, or panicked where
      panics are to be errors. */
  ghost predicate Failed(cfg: Config, r: Result) {
    match r
    case NotRun => false
    case Returned(err) => !err.Nil?
    case Panicked(_) => cfg.panicAsErr
  }

  /** The error that stands for it. */
  ghost function Cause(r: Result): Error {
    match r
    case NotRun => Nil
    case Returned(err) => err
    case Panicked(p) => PanicError(p)
  }

  lemma FailureIsExecErr(cfg: Config, r: Result)
    ensures Failed(cfg, r) <==> !ExecErr(cfg, r).Nil?
    ensures Failed(cfg, r) ==> ExecErr(cfg, r) == Cause(r)
  {
  }

  /** The task's recordError call is behind it. */
  ghost predicate Recorded(cfg: Config, t: Task) {
    && (t.phase.AtUnregister? || t.phase.AtRelease? || t.phase.AtWgDone? || t.phase.AtActive? || t.phase.Gone?)
    && Failed(cfg, t.result)
  }

  /** The TaskError a task has recorded, if any: it carries the task's name and its error. */
  ghost function Failure(cfg: Config): Task -> multiset<Error> {
    (t: Task) => if Recorded(cfg, t) then multiset{TaskError(t.name, Cause(t.result))} else multiset{}
  }

  /** The panic a task has left to be raised again, if any. */
  ghost function Raise(cfg: Config): Task -> multiset<Error> {
    (t: Task) => if t.result.Panicked? && !cfg.panicAsErr then multiset{PanicError(t.result.p)} else multiset{}
  }

  ghost function Raised(cfg: Config): Task -> nat {
    (t: Task) => if Unhandled(cfg, t.result) then 1 else 0
  }

  // ------------------------------------------------------------------------- invariants

  /** Phase, child spawner, result and tally of one task agree. */
  ghost predicate TaskInv(cfg: Config, t: Task) {
    && (t.childOpen <==> t.nested && (t.phase.Running? || t.phase.AtChildClose?))
    && (t.phase.AtChildClose? ==> t.nested)
    && (t.tally.Undecided? <==>
          t.phase.AtSem? || t.phase.AtRegister? || t.phase.AtCheck? || t.phase.Running?
          || t.phase.AtChildClose? || t.phase.AtEvent?)
    && (t.result.NotRun? <==>
          t.phase.AtSem? || t.phase.AtRegister? || t.phase.AtCheck? || t.phase.Running? || t.tally.Skipped?)
    && (t.tally.Completed? ==> ExecErr(cfg, t.result).Nil?)
    && (t.tally.Errored? || t.tally.PanickedTally? || t.tally.Cancelled? ==>
          !ExecErr(cfg, t.result).Nil? && (t.tally.PanickedTally? <==> HasPanic(ExecErr(cfg, t.result))))
    && (t.phase.AtRecord? ==> !ExecErr(cfg, t.result).Nil?)
  }

  ghost predicate TasksInv(cfg: Config, ts: seq<Task>) {
    forall i :: 0 <= i < |ts| ==> TaskInv(cfg, ts[i])
  }

  /** Wait group, semaphore and active-task counter count their holders. */
  ghost predicate GateInv(cfg: Config, g: Gate, ts: seq<Task>, f: FinalPhase) {
    && g.wg == Sum(ts, HoldsWg)
    && (if cfg.limit > 0 then g.sem == Sum(ts, HoldsSem) <= cfg.limit else g.sem == 0)
    && (g.rootOpen <==> f.Open?)
    && (f.PastWait() ==> g.wg == 0)
  }

  ghost predicate CountersInv(n: Counters, ts: seq<Task>) {
    && n.total == |ts|
    && n.active == Sum(ts, Alive)
    && n.completed == Sum(ts, Tallied(Completed))
    && n.errored == Sum(ts, Tallied(Errored))
    && n.panicked == Sum(ts, Tallied(PanickedTally))
    && n.cancelled == Sum(ts, Tallied(Cancelled))
  }

  /** Tracked ids are live, fresh and distinct. */
  ghost predicate TrackingInv(cfg: Config, t: Tracking, ts: seq<Task>) {
    if cfg.track then
      && |t.running| == Sum(ts, Tracked)
      && (forall k :: k in t.running ==> k < t.nextId)
      && (forall i :: 0 <= i < |ts| && Tracked(ts[i]) == 1 ==>
            ts[i].id in t.running && t.running[ts[i].id] == ts[i].name)
      && (forall i, j :: 0 <= i < j < |ts| && Tracked(ts[i]) == 1 && Tracked(ts[j]) == 1 ==> ts[i].id != ts[j].id)
    else t.running == map[]
  }

  /** How many of k recorded errors are kept. */
  ghost function Kept(cfg: Config, k: nat): nat {
    if cfg.maxErrors > 0 && cfg.maxErrors < k then cfg.maxErrors else k
  }

  /** What the policy keeps of the recorded errors. */
  ghost predicate PolicyInv(cfg: Config, e: Errors) {
    && (forall i :: 0 <= i < |e.records| ==> e.records[i].TaskError?)
    && match cfg.policy
       case FailFast =>
         e.stored == [] && e.dropped == 0
         && e.first == (if e.records == [] then None else Some(e.records[0]))
       case Collect =>
         e.first == None
         && e.stored == e.records[..Kept(cfg, |e.records|)]
         && |e.stored| + e.dropped == |e.records|
  }

  /** The records are the tasks' failures, and the policy keeps its share of them. */
  ghost predicate ErrorsInv(cfg: Config, e: Errors, ts: seq<Task>) {
    && multiset(e.records) == Bag(ts, Failure(cfg))
    && PolicyInv(cfg, e)
  }

  /** The kept panics are the tasks' own. */
  ghost predicate PanicsInv(cfg: Config, panics: seq<Error>, ts: seq<Task>) {
    && |panics| == Sum(ts, Raised(cfg))
    && multiset(panics) == Bag(ts, Raise(cfg))
  }

  /** The cancellation finalize saw, or will see. */
  ghost predicate SeenCancelled(ctx: Option<Error>, f: Final) {
    if f.phase.PastSample() then f.wasCancelled else ctx.Some?
  }

  /** Skips, re-raised panics and fail-fast failures all leave the context cancelled. */
  ghost predicate CtxInv(cfg: Config, ctx: Option<Error>, e: Errors, ts: seq<Task>, f: Final) {
    && (ctx.Some? ==> !ctx.value.Nil?)
    && (f.wasCancelled ==> ctx.Some?)
    && (f.phase.CtxEnded? || f.phase.Finalized? ==> ctx.Some?)
    && (forall i :: 0 <= i < |ts| && ts[i].tally.Skipped? ==> SeenCancelled(ctx, f))
    && (forall i :: 0 <= i < |ts| && ts[i].tally.Cancelled? ==> SeenCancelled(ctx, f))
    && (|e.panics| > 0 ==> SeenCancelled(ctx, f))
    && (e.first.Some? ==> SeenCancelled(ctx, f))
  }

  /** The result is empty until finalization has concluded, and the aggregate from then on. */
  ghost predicate FinalInv(cfg: Config, ctx: Option<Error>, e: Errors, f: Final) {
    (f.err, f.panicVal) == if f.phase.Finalized? then Aggregate(cfg, e, f.wasCancelled, ctx) else (Nil, None)
  }

  ghost predicate Inv(cfg: Config, s: State) {
    && TasksInv(cfg, s.tasks)
    && GateInv(cfg, s.g, s.tasks, s.f.phase)
    && CountersInv(s.n, s.tasks)
    && TrackingInv(cfg, s.t, s.tasks)
    && ErrorsInv(cfg, s.e, s.tasks)
    && PanicsInv(cfg, s.e.panics, s.tasks)
    && CtxInv(cfg, s.ctx, s.e, s.tasks, s.f)
    && FinalInv(cfg, s.ctx, s.e, s.f)
  }

  lemma NoTasksCounted(cfg: Config, f: FinalPhase)
    requires f.Open?
    ensures TasksInv(cfg, []) && GateInv(cfg, Gate(0, 0, true), [], f)
    ensures CountersInv(Counters(0, 0, 0, 0, 0, 0), []) && TrackingInv(cfg, Tracking(map[], 0), [])
  {
  }

  lemma NoTasksFailed(cfg: Config)
    ensures ErrorsInv(cfg, Errors(None, [], 0, [], []), []) && PanicsInv(cfg, [], [])
  {
  }

  lemma InitInv(cfg: Config)
    ensures Inv(cfg, Init())
  {
    NoTasksCounted(cfg, Open);
    NoTasksFailed(cfg);
  }

  // --------------------------------------------------------------------------- spawning

  /** An open spawner is the not-yet-closed root, or belongs to a task that still
      holds its wait-group count. */
  lemma OpenMeansBusy(cfg: Config, s: State, sp: SpawnerRef)
    requires Inv(cfg, s) && IsOpen(s, sp)
    ensures !s.f.phase.PastWait()
    ensures sp.Root? ==> s.f.phase.Open?
    ensures sp.ChildOf? ==> HoldsWg(s.tasks[sp.task]) == 1 && s.g.wg > 0
  {
    if sp.ChildOf? {
      assert TaskInv(cfg, s.tasks[sp.task]);
      SumAtLeast(s.tasks, sp.task, HoldsWg);
    }
  }

  lemma BeginKeepsCounts(cfg: Config, s: State, sp: SpawnerRef, nested: bool, name: string)
    requires Inv(cfg, s) && IsOpen(s, sp)
    ensures var s' := BeginStep(s, sp, nested, name);
      GateInv(cfg, s'.g, s'.tasks, s'.f.phase) && CountersInv(s'.n, s'.tasks)
  {
    OpenMeansBusy(cfg, s, sp);
    var t := Task(name, nested, AtSem, false, NotRun, Undecided, 0);
    SumAppend(s.tasks, t, HoldsWg);
    SumAppend(s.tasks, t, HoldsSem);
    SumAppend(s.tasks, t, Alive);
    SumAppend(s.tasks, t, Tallied(Completed));
    SumAppend(s.tasks, t, Tallied(Errored));
    SumAppend(s.tasks, t, Tallied(PanickedTally));
    SumAppend(s.tasks, t, Tallied(Cancelled));
  }

  lemma BeginKeepsErrors(cfg: Config, e: Errors, ts: seq<Task>, t: Task)
    requires ErrorsInv(cfg, e, ts) && t.phase.AtSem? && t.result.NotRun?
    ensures ErrorsInv(cfg, e, ts + [t])
  {
    BagAppend(ts, t, Failure(cfg));
    assert Bag(ts + [t], Failure(cfg)) == Bag(ts, Failure(cfg)) + multiset{};
  }

  lemma BeginKeepsPanics(cfg: Config, panics: seq<Error>, ts: seq<Task>, t: Task)
    requires PanicsInv(cfg, panics, ts) && t.result.NotRun?
    ensures PanicsInv(cfg, panics, ts + [t])
  {
    SumAppend(ts, t, Raised(cfg));
    BagAppend(ts, t, Raise(cfg));
    assert Bag(ts + [t], Raise(cfg)) == Bag(ts, Raise(cfg)) + multiset{};
  }

  lemma BeginKeepsTracking(cfg: Config, tr: Tracking, ts: seq<Task>, t: Task)
    requires TrackingInv(cfg, tr, ts) && t.phase.AtSem?
    ensures TrackingInv(cfg, tr, ts + [t])
  {
    SumAppend(ts, t, Tracked);
  }

  lemma BeginKeepsRest(cfg: Config, ctx: Option<Error>, e: Errors, ts: seq<Task>, f: Final, t: Task)
    requires TasksInv(cfg, ts) && CtxInv(cfg, ctx, e, ts, f) && TaskInv(cfg, t) && t.tally.Undecided?
    ensures TasksInv(cfg, ts + [t]) && CtxInv(cfg, ctx, e, ts + [t], f)
  {
  }

  lemma BeginKeepsInv(cfg: Config, s: State, sp: SpawnerRef, nested: bool, name: string)
    requires Inv(cfg, s) && IsOpen(s, sp)
    ensures Inv(cfg, BeginStep(s, sp, nested, name))
  {
    BeginKeepsCounts(cfg, s, sp, nested, name);
    var t := Task(name, nested, AtSem, false, NotRun, Undecided, 0);
    BeginKeepsErrors(cfg, s.e, s.tasks, t);
    BeginKeepsPanics(cfg, s.e.panics, s.tasks, t);
    BeginKeepsTracking(cfg, s.t, s.tasks, t);
    BeginKeepsRest(cfg, s.ctx, s.e, s.tasks, s.f, t);
  }

  // -------------------------------------------------------------------------- task steps

  lemma TaskFrame(cfg: Config, s: State, i: nat, op: TaskOp)
    requires TaskEnabled(cfg, s, i, op)
    ensures var s' := TaskStep(cfg, s, i, op);
      && s'.tasks == s.tasks[i := TaskAfter(cfg, s, i, op)] && s'.f == s.f
      && (s.ctx.Some? ==> s'.ctx == s.ctx) && (s'.ctx.Some? ==> s.ctx.Some? || s'.ctx.value.Canceled?)
      && (op.Finish? || op.Record? || s'.ctx == s.ctx)
      && s'.e == (if op.Record? then RecordError(cfg, s.e, TaskError(s.tasks[i].name, ExecErr(cfg, s.tasks[i].result)))
                  else if op.Finish? && Unhandled(cfg, op.r) then s.e.(panics := s.e.panics + [PanicError(op.r.p)])
                  else s.e)
      && (op.Register? || op.Unregister? || s'.t == s.t)
      && (!cfg.track ==> s'.t == s.t)
  {
  }

  lemma TaskKeepsTasks(cfg: Config, s: State, i: nat, op: TaskOp)
    requires TaskEnabled(cfg, s, i, op) && TaskInv(cfg, s.tasks[i])
    ensures TaskInv(cfg, TaskAfter(cfg, s, i, op))
  {
  }

  /** A running goroutine holds the wait group, so finalize has not passed its wait. */
  lemma StepMeansWaiting(cfg: Config, s: State, i: nat, op: TaskOp)
    requires GateInv(cfg, s.g, s.tasks, s.f.phase) && TaskEnabled(cfg, s, i, op) && !op.Deactivate?
    ensures !s.f.phase.PastWait()
  {
    SumAtLeast(s.tasks, i, HoldsWg);
  }

  /** The effect of a step on the gate, in terms of what its task holds. */
  lemma TaskGate(cfg: Config, s: State, i: nat, op: TaskOp)
    requires TaskEnabled(cfg, s, i, op) && (cfg.limit == 0 ==> s.g.sem == 0)
    ensures var s', t, t' := TaskStep(cfg, s, i, op), s.tasks[i], TaskAfter(cfg, s, i, op);
      && s'.g.rootOpen == s.g.rootOpen
      && s'.g.wg + HoldsWg(t) == s.g.wg + HoldsWg(t')
      && (if cfg.limit > 0 then s'.g.sem + HoldsSem(t) == s.g.sem + HoldsSem(t') && s'.g.sem <= s.g.sem + 1
          else s'.g.sem == 0)
      && (op.AcquireSem? && cfg.limit > 0 ==> s.g.sem < cfg.limit)
      && (!op.AcquireSem? ==> s'.g.sem <= s.g.sem)
  {
  }

  lemma TaskKeepsGate(cfg: Config, s: State, i: nat, op: TaskOp)
    requires GateInv(cfg, s.g, s.tasks, s.f.phase) && TaskEnabled(cfg, s, i, op)
    ensures var s' := TaskStep(cfg, s, i, op); GateInv(cfg, s'.g, s'.tasks, s'.f.phase)
  {
    TaskGate(cfg, s, i, op);
    TaskFrame(cfg, s, i, op);
    SumUpdate(s.tasks, i, TaskAfter(cfg, s, i, op), HoldsWg);
    SumUpdate(s.tasks, i, TaskAfter(cfg, s, i, op), HoldsSem);
    if !op.Deactivate? {
      StepMeansWaiting(cfg, s, i, op);
    }
  }

  lemma TaskKeepsCounters(cfg: Config, s: State, i: nat, op: TaskOp)
    requires CountersInv(s.n, s.tasks) && TaskEnabled(cfg, s, i, op) && TaskInv(cfg, s.tasks[i])
    ensures var s' := TaskStep(cfg, s, i, op); CountersInv(s'.n, s'.tasks)
  {
    var t' := TaskAfter(cfg, s, i, op);
    SumUpdate(s.tasks, i, t', Alive);
    SumUpdate(s.tasks, i, t', Tallied(Completed));
    SumUpdate(s.tasks, i, t', Tallied(Errored));
    SumUpdate(s.tasks, i, t', Tallied(PanickedTally));
    SumUpdate(s.tasks, i, t', Tallied(Cancelled));
  }

  lemma UnregisterKeepsTracking(cfg: Config, s: State, i: nat)
    requires cfg.track && TrackingInv(cfg, s.t, s.tasks) && TaskEnabled(cfg, s, i, Unregister)
    ensures TrackingInv(cfg, s.t.(running := s.t.running - {s.tasks[i].id}),
                        s.tasks[i := s.tasks[i].(phase := AtRelease)])
  {
    SumUpdate(s.tasks, i, s.tasks[i].(phase := AtRelease), Tracked);
    assert s.t.running.Keys == (s.t.running - {s.tasks[i].id}).Keys + {s.tasks[i].id};
  }

  lemma RegisterKeepsTracking(cfg: Config, s: State, i: nat)
    requires cfg.track && TrackingInv(cfg, s.t, s.tasks) && TaskEnabled(cfg, s, i, Register)
    ensures TrackingInv(cfg, Tracking(s.t.running[s.t.nextId := s.tasks[i].name], s.t.nextId + 1),
                        s.tasks[i := s.tasks[i].(phase := AtCheck, id := s.t.nextId)])
  {
    SumUpdate(s.tasks, i, s.tasks[i].(phase := AtCheck, id := s.t.nextId), Tracked);
    assert s.t.running[s.t.nextId := s.tasks[i].name].Keys == s.t.running.Keys + {s.t.nextId};
  }

  lemma OthersKeepTracking(cfg: Config, tr: Tracking, ts: seq<Task>, i: nat, t: Task)
    requires i < |ts| && TrackingInv(cfg, tr, ts) && Tracked(ts[i]) == Tracked(t)
    requires ts[i].id == t.id && ts[i].name == t.name
    ensures TrackingInv(cfg, tr, ts[i := t])
  {
    SumUpdate(ts, i, t, Tracked);
  }

  lemma TaskKeepsTracking(cfg: Config, s: State, i: nat, op: TaskOp)
    requires TrackingInv(cfg, s.t, s.tasks) && TaskEnabled(cfg, s, i, op)
    ensures var s' := TaskStep(cfg, s, i, op); TrackingInv(cfg, s'.t, s'.tasks)
  {
    TaskFrame(cfg, s, i, op);
    if cfg.track {
      match op
      case Unregister => UnregisterKeepsTracking(cfg, s, i);
      case Register => RegisterKeepsTracking(cfg, s, i);
      case _ => OthersKeepTracking(cfg, s.t, s.tasks, i, TaskAfter(cfg, s, i, op));
    }
  }

  lemma Cancel(a: multiset<Error>, b: multiset<Error>, c: multiset<Error>)
    requires a + c == b + c
    ensures a == b
  {
    forall x ensures a[x] == b[x] {
      assert (a + c)[x] == (b + c)[x];
    }
  }

  /** A step that does not record leaves the records as they were. */
  lemma QuietKeepsErrors(cfg: Config, e: Errors, ts: seq<Task>, i: nat, t: Task)
    requires i < |ts| && ErrorsInv(cfg, e, ts) && Failure(cfg)(ts[i]) == Failure(cfg)(t)
    ensures ErrorsInv(cfg, e, ts[i := t])
  {
    BagUpdate(ts, i, t, Failure(cfg));
    Cancel(Bag(ts[i := t], Failure(cfg)), Bag(ts, Failure(cfg)), Failure(cfg)(t));
  }

  /** A step without a panic leaves the panics as they were. */
  lemma QuietKeepsPanics(cfg: Config, panics: seq<Error>, ts: seq<Task>, i: nat, t: Task)
    requires i < |ts| && PanicsInv(cfg, panics, ts)
    requires Raised(cfg)(ts[i]) == Raised(cfg)(t) && Raise(cfg)(ts[i]) == Raise(cfg)(t)
    ensures PanicsInv(cfg, panics, ts[i := t])
  {
    SumUpdate(ts, i, t, Raised(cfg));
    BagUpdate(ts, i, t, Raise(cfg));
    Cancel(Bag(ts[i := t], Raise(cfg)), Bag(ts, Raise(cfg)), Raise(cfg)(t));
  }

  lemma OnePanicMore(bag: multiset<Error>, bag': multiset<Error>, panics: seq<Error>, pe: Error)
    requires multiset(panics) == bag && bag' + multiset{} == bag + multiset{pe}
    ensures multiset(panics + [pe]) == bag'
  {
    forall x ensures bag'[x] == multiset(panics + [pe])[x] {
      assert (bag' + multiset{})[x] == (bag + multiset{pe})[x];
    }
  }

  lemma PanicKeepsPanics(cfg: Config, panics: seq<Error>, ts: seq<Task>, i: nat, t: Task, pe: Error)
    requires i < |ts| && PanicsInv(cfg, panics, ts)
    requires Raised(cfg)(ts[i]) == 0 && Raised(cfg)(t) == 1
    requires Raise(cfg)(ts[i]) == multiset{} && Raise(cfg)(t) == multiset{pe}
    ensures PanicsInv(cfg, panics + [pe], ts[i := t])
  {
    SumUpdate(ts, i, t, Raised(cfg));
    BagUpdate(ts, i, t, Raise(cfg));
    OnePanicMore(Bag(ts, Raise(cfg)), Bag(ts[i := t], Raise(cfg)), panics, pe);
  }

  lemma RecordKeepsPolicy(cfg: Config, e: Errors, te: Error)
    requires PolicyInv(cfg, e) && te.TaskError?
    ensures PolicyInv(cfg, RecordError(cfg, e, te))
  {
    var e' := RecordError(cfg, e, te);
    assert e'.records == e.records + [te];
  }

  lemma RecordKeepsErrors(cfg: Config, e: Errors, ts: seq<Task>, i: nat, t: Task, te: Error)
    requires i < |ts| && ErrorsInv(cfg, e, ts) && te.TaskError?
    requires Failure(cfg)(ts[i]) == multiset{} && Failure(cfg)(t) == multiset{te}
    ensures ErrorsInv(cfg, RecordError(cfg, e, te), ts[i := t])
  {
    BagUpdate(ts, i, t, Failure(cfg));
    assert Bag(ts[i := t], Failure(cfg)) == Bag(ts, Failure(cfg)) + multiset{te};
    assert RecordError(cfg, e, te).records == e.records + [te];
    RecordKeepsPolicy(cfg, e, te);
  }

  /** Recording adds the task's failure. */
  lemma RecordContributes(cfg: Config, s: State, i: nat)
    requires TaskEnabled(cfg, s, i, Record) && TaskInv(cfg, s.tasks[i])
    ensures var t, t' := s.tasks[i], TaskAfter(cfg, s, i, Record);
      && Failure(cfg)(t) == multiset{}
      && Failure(cfg)(t') == multiset{TaskError(t.name, ExecErr(cfg, t.result))}
  {
    FailureIsExecErr(cfg, s.tasks[i].result);
    assert TaskAfter(cfg, s, i, Record) == s.tasks[i].(phase := AtUnregister);
  }

  /** No other step contributes to the records. */
  lemma OtherContributes(cfg: Config, s: State, i: nat, op: TaskOp)
    requires TaskEnabled(cfg, s, i, op) && TaskInv(cfg, s.tasks[i]) && !op.Record?
    ensures Failure(cfg)(TaskAfter(cfg, s, i, op)) == Failure(cfg)(s.tasks[i])
  {
    FailureIsExecErr(cfg, s.tasks[i].result);
    var t, t' := s.tasks[i], TaskAfter(cfg, s, i, op);
    assert t'.name == t.name && (op.Finish? || t'.result == t.result);
  }

  lemma TaskKeepsErrors(cfg: Config, s: State, i: nat, op: TaskOp)
    requires ErrorsInv(cfg, s.e, s.tasks) && TaskEnabled(cfg, s, i, op) && TaskInv(cfg, s.tasks[i])
    ensures var s' := TaskStep(cfg, s, i, op); ErrorsInv(cfg, s'.e, s'.tasks)
  {
    TaskFrame(cfg, s, i, op);
    var t, t' := s.tasks[i], TaskAfter(cfg, s, i, op);
    if op.Record? {
      RecordContributes(cfg, s, i);
      RecordKeepsErrors(cfg, s.e, s.tasks, i, t', TaskError(t.name, ExecErr(cfg, t.result)));
    } else {
      OtherContributes(cfg, s, i, op);
      QuietKeepsErrors(cfg, s.e, s.tasks, i, t');
    }
  }

  lemma TaskKeepsPanics(cfg: Config, s: State, i: nat, op: TaskOp)
    requires PanicsInv(cfg, s.e.panics, s.tasks) && TaskEnabled(cfg, s, i, op) && TaskInv(cfg, s.tasks[i])
    ensures var s' := TaskStep(cfg, s, i, op); PanicsInv(cfg, s'.e.panics, s'.tasks)
  {
    TaskFrame(cfg, s, i, op);
    var t, t' := s.tasks[i], TaskAfter(cfg, s, i, op);
    if op.Finish? && Unhandled(cfg, op.r) {
      PanicKeepsPanics(cfg, s.e.panics, s.tasks, i, t', PanicError(op.r.p));
    } else {
      assert op.Finish? || t'.result == t.result;
      assert op.Record? ==> RecordError(cfg, s.e, TaskError(t.name, ExecErr(cfg, t.result))).panics == s.e.panics;
      QuietKeepsPanics(cfg, s.e.panics, s.tasks, i, t');
    }
  }

  lemma TaskKeepsCtx(cfg: Config, s: State, i: nat, op: TaskOp)
    requires CtxInv(cfg, s.ctx, s.e, s.tasks, s.f) && ErrorsInv(cfg, s.e, s.tasks)
    requires GateInv(cfg, s.g, s.tasks, s.f.phase) && TaskEnabled(cfg, s, i, op)
    ensures var s' := TaskStep(cfg, s, i, op);
      && CtxInv(cfg, s'.ctx, s'.e, s'.tasks, s'.f)
      && (s.f.phase.Finalized? ==> s'.ctx == s.ctx && s'.e == s.e)
  {
    TaskFrame(cfg, s, i, op);
    if !op.Deactivate? {
      StepMeansWaiting(cfg, s, i, op);
    }
  }

  lemma TaskKeepsInv(cfg: Config, s: State, i: nat, op: TaskOp)
    requires Inv(cfg, s) && TaskEnabled(cfg, s, i, op)
    ensures Inv(cfg, TaskStep(cfg, s, i, op))
  {
    TaskFrame(cfg, s, i, op);
    assert TaskInv(cfg, s.tasks[i]);
    TaskKeepsTasks(cfg, s, i, op);
    TaskKeepsGate(cfg, s, i, op);
    TaskKeepsCounters(cfg, s, i, op);
    TaskKeepsTracking(cfg, s, i, op);
    TaskKeepsErrors(cfg, s, i, op);
    TaskKeepsPanics(cfg, s, i, op);
    TaskKeepsCtx(cfg, s, i, op);
  }

  // ------------------------------------------------------------------------ finalization

  lemma FinalFrame(cfg: Config, s: State, op: FinalOp)
    requires FinalEnabled(s, op)
    ensures var s' := FinalStep(cfg, s, op);
      s'.tasks == s.tasks && s'.n == s.n && s'.t == s.t && s'.e == s.e
  {
  }

  lemma FinalKeepsGate(cfg: Config, s: State, op: FinalOp)
    requires GateInv(cfg, s.g, s.tasks, s.f.phase) && FinalEnabled(s, op)
    ensures var s' := FinalStep(cfg, s, op); GateInv(cfg, s'.g, s'.tasks, s'.f.phase)
  {
  }

  lemma FinalKeepsCtx(cfg: Config, s: State, op: FinalOp)
    requires CtxInv(cfg, s.ctx, s.e, s.tasks, s.f) && FinalInv(cfg, s.ctx, s.e, s.f) && FinalEnabled(s, op)
    ensures var s' := FinalStep(cfg, s, op);
      CtxInv(cfg, s'.ctx, s'.e, s'.tasks, s'.f) && FinalInv(cfg, s'.ctx, s'.e, s'.f)
  {
  }

  lemma FinalKeepsInv(cfg: Config, s: State, op: FinalOp)
    requires Inv(cfg, s) && FinalEnabled(s, op)
    ensures Inv(cfg, FinalStep(cfg, s, op))
  {
    FinalFrame(cfg, s, op);
    FinalKeepsGate(cfg, s, op);
    FinalKeepsCtx(cfg, s, op);
  }

  lemma CancelKeepsInv(cfg: Config, s: State, err: Error)
    requires Inv(cfg, s) && !err.Nil?
    ensures Inv(cfg, s.(ctx := CancelWith(s.ctx, err)))
  {
  }

  lemma StepKeepsInv(cfg: Config, s: State, a: Action)
    requires Inv(cfg, s) && Enabled(cfg, s, a)
    ensures Inv(cfg, Step(cfg, s, a))
  {
    match a
    case Begin(sp, nested, name) => BeginKeepsInv(cfg, s, sp, nested, name);
    case OfTask(i, op) => TaskKeepsInv(cfg, s, i, op);
    case Finalize(op) => FinalKeepsInv(cfg, s, op);
    case CancelOutside(deadline) => CancelKeepsInv(cfg, s, if deadline then DeadlineExceeded else Canceled);
  }

  lemma {:induction false} RunKeepsInv(cfg: Config, s: State, run: seq<Action>)
    requires Inv(cfg, s) && CanRun(cfg, s, run)
    ensures Inv(cfg, After(cfg, s, run))
    decreases |run|
  {
    if run != [] {
      StepKeepsInv(cfg, s, run[0]);
      RunKeepsInv(cfg, Step(cfg, s, run[0]), run[1..]);
    }
  }
}
