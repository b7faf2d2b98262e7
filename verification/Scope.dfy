/** A scope as interleaved atomic steps. */
module Scope {
  // Its spawners and an unbounded tree of tasks. Each critical section of the code (a
  // mutex-protected block, an atomic counter, a semaphore or wait-group operation) is one step.

  import opened Options
  import opened TaskErrors

  datatype Policy = FailFast | Collect

  /** `limit == 0` means no concurrency limit, `maxErrors == 0` no cap on stored errors. */
  datatype Config = Config(policy: Policy, limit: nat, maxErrors: nat, panicAsErr: bool, track: bool)

  /** What a task function did: it has not run, returned an error or nil, or panicked. */
  datatype Result = NotRun | Returned(err: Error) | Panicked(p: Error)

  /** The completion event a task was counted under. */
  datatype Tally = Undecided | Completed | Errored | PanickedTally | Cancelled | Skipped

  /** A task goroutine, from the semaphore select to its last deferred call. */
  datatype TaskPhase =
    | AtSem | AtRegister | AtCheck
    | Running                       // the task function is executing
    | AtChildClose | AtEvent | AtRecord
    | AtUnregister | AtRelease | AtWgDone | AtActive
    | Gone

  datatype Task = Task(
    name: string, nested: bool, phase: TaskPhase, childOpen: bool,
    result: Result, tally: Tally, id: nat)

  datatype SpawnerRef = Root | ChildOf(task: nat)

  /** Wait group, limit semaphore and the root spawner's open flag. */
  datatype Gate = Gate(wg: nat, sem: nat, rootOpen: bool)

  /** Error state; `records` is history: every recorded TaskError in order. */
  datatype Errors = Errors(
    first: Option<Error>, stored: seq<Error>, dropped: nat, panics: seq<Error>, records: seq<Error>)

  datatype Counters = Counters(
    total: nat, active: nat, completed: nat, errored: nat, panicked: nat, cancelled: nat)

  datatype Tracking = Tracking(running: map<nat, string>, nextId: nat)

  datatype FinalPhase = Open | RootClosed | Waited | Sampled | CtxEnded | Finalized
  {
    predicate PastWait() { !Open? && !RootClosed? }
    predicate PastSample() { Sampled? || CtxEnded? || Finalized? }
  }

  /** One-time finalization and its outcome. */
  datatype Final = Final(phase: FinalPhase, wasCancelled: bool, err: Error, panicVal: Option<Error>)

  /** `ctx` is the scope context's Err(), set at most once. */
  datatype State = State(
    g: Gate, tasks: seq<Task>, ctx: Option<Error>, e: Errors, n: Counters, t: Tracking, f: Final)

  ghost function Init(): State {
    State(Gate(0, 0, true), [], None, Errors(None, [], 0, [], []), Counters(0, 0, 0, 0, 0, 0),
          Tracking(map[], 0), Final(Open, false, Nil, None))
  }

  // ------------------------------------------------------------- critical sections

  /** The first cancellation wins. */
  function CancelWith(ctx: Option<Error>, err: Error): Option<Error> {
    if ctx.Some? then ctx else Some(err)
  }

  /** What exec hands back: a panic is an error only with WithPanicAsError. */
  function ExecErr(cfg: Config, r: Result): Error {
    match r
    case NotRun => Nil
    case Returned(err) => err
    case Panicked(p) => if cfg.panicAsErr then PanicError(p) else Nil
  }

  /** exec recovered a panic that will be re-raised. */
  predicate Unhandled(cfg: Config, r: Result) {
    r.Panicked? && !cfg.panicAsErr
  }

  /** The counter a completed task is added to. */
  function Classify(err: Error, ctx: Option<Error>): Tally {
    if err.Nil? then Completed
    else if HasPanic(err) then PanickedTally
    else if ctx.Some? then Cancelled
    else Errored
  }

  function Count(n: Counters, t: Tally): Counters {
    match t
    case Completed => n.(completed := n.completed + 1)
    case Errored => n.(errored := n.errored + 1)
    case PanickedTally => n.(panicked := n.panicked + 1)
    case Cancelled => n.(cancelled := n.cancelled + 1)
    case _ => n
  }

  function RecordError(cfg: Config, e: Errors, te: Error): Errors {
    var e' := e.(records := e.records + [te]);
    match cfg.policy
    case FailFast => if e.first.Some? then e' else e'.(first := Some(te))
    case Collect =>
      if cfg.maxErrors > 0 && |e.stored| >= cfg.maxErrors then e'.(dropped := e.dropped + 1)
      else e'.(stored := e.stored + [te])
  }

  /** The error the policy reports. */
  function PolicyError(cfg: Config, e: Errors): Error {
    match cfg.policy
    case FailFast => if e.first.Some? then e.first.value else Nil
    case Collect => if |e.stored| > 0 then Joined(e.stored) else Nil
  }

  /** The tail of finalize: the error to return and the panic to re-raise. */
  function Aggregate(cfg: Config, e: Errors, wasCancelled: bool, ctx: Option<Error>): (Error, Option<Error>) {
    var panicVal := if !cfg.panicAsErr && |e.panics| > 0 then Some(e.panics[0]) else None;
    var policyErr := PolicyError(cfg, e);
    var err := if policyErr.Nil? && wasCancelled && ctx.Some? then ctx.value else policyErr;
    (err, panicVal)
  }

  // ------------------------------------------------------------------------ spawning

  predicate IsOpen(s: State, sp: SpawnerRef) {
    match sp
    case Root => s.g.rootOpen
    case ChildOf(i) => i < |s.tasks| && s.tasks[i].childOpen
  }

  /** beginTask under the spawner's mutex; the new goroutine starts at the semaphore. */
  ghost function BeginStep(s: State, sp: SpawnerRef, nested: bool, name: string): State
    requires IsOpen(s, sp)
  {
    s.(g := s.g.(wg := s.g.wg + 1),
       n := s.n.(total := s.n.total + 1, active := s.n.active + 1),
       tasks := s.tasks + [Task(name, nested, AtSem, false, NotRun, Undecided, 0)])
  }

  // ---------------------------------------------------------------------- task steps

  datatype TaskOp =
    | AcquireSem | SkipAtSem | Register | SkipAtCheck | StartFn
    | Finish(r: Result)           // the task function returned or panicked; exec recovered
    | CloseChild | Event | Record
    | Unregister | Release | WgDone | Deactivate

  ghost predicate TaskEnabled(cfg: Config, s: State, i: nat, op: TaskOp) {
    && i < |s.tasks|
    && var phase := s.tasks[i].phase;
       match op
       case AcquireSem => phase.AtSem? && (cfg.limit > 0 ==> s.g.sem < cfg.limit)
       case SkipAtSem => phase.AtSem? && cfg.limit > 0 && s.ctx.Some?
       case Register => phase.AtRegister?
       case SkipAtCheck => phase.AtCheck? && s.ctx.Some?
       case StartFn => phase.AtCheck? && s.ctx.None?
       case Finish(r) => phase.Running? && !r.NotRun?
       case CloseChild => phase.AtChildClose?
       case Event => phase.AtEvent?
       case Record => phase.AtRecord?
       case Unregister => phase.AtUnregister?
       case Release => phase.AtRelease? && (cfg.limit > 0 ==> s.g.sem > 0)
       case WgDone => phase.AtWgDone? && s.g.wg > 0
       case Deactivate => phase.AtActive? && s.n.active > 0
  }

  /** The effect of a step on the task's own goroutine. */
  ghost function TaskAfter(cfg: Config, s: State, i: nat, op: TaskOp): Task
    requires TaskEnabled(cfg, s, i, op)
  {
    var t := s.tasks[i];
    match op
    case AcquireSem => t.(phase := AtRegister)
    case SkipAtSem => t.(phase := AtWgDone, tally := Skipped)
    case Register => t.(phase := AtCheck, id := if cfg.track then s.t.nextId else t.id)
    case SkipAtCheck => t.(phase := AtUnregister, tally := Skipped)
    case StartFn => t.(phase := Running, childOpen := t.nested)
    case Finish(r) => t.(phase := if t.nested then AtChildClose else AtEvent, result := r)
    case CloseChild => t.(phase := AtEvent, childOpen := false)
    case Event =>
      var err := ExecErr(cfg, t.result);
      t.(phase := if err.Nil? then AtUnregister else AtRecord, tally := Classify(err, s.ctx))
    case Record => t.(phase := AtUnregister)
    case Unregister => t.(phase := AtRelease)
    case Release => t.(phase := AtWgDone)
    case WgDone => t.(phase := AtActive)
    case Deactivate => t.(phase := Gone)
  }

  /** The effect of a step on the shared scope. */
  ghost function TaskStep(cfg: Config, s: State, i: nat, op: TaskOp): State
    requires TaskEnabled(cfg, s, i, op)
  {
    var t := s.tasks[i];
    var s' := s.(tasks := s.tasks[i := TaskAfter(cfg, s, i, op)]);
    match op
    case AcquireSem => if cfg.limit > 0 then s'.(g := s.g.(sem := s.g.sem + 1)) else s'
    case Register =>
      if cfg.track then s'.(t := Tracking(s.t.running[s.t.nextId := t.name], s.t.nextId + 1)) else s'
    case Finish(r) =>
      if Unhandled(cfg, r)
      then s'.(e := s.e.(panics := s.e.panics + [PanicError(r.p)]), ctx := CancelWith(s.ctx, Canceled))
      else s'
    case Event => s'.(n := Count(s.n, Classify(ExecErr(cfg, t.result), s.ctx)))
    case Record =>
      s'.(e := RecordError(cfg, s.e, TaskError(t.name, ExecErr(cfg, t.result))),
          ctx := if cfg.policy.FailFast? && s.e.first.None? then CancelWith(s.ctx, Canceled) else s.ctx)
    case Unregister => if cfg.track then s'.(t := s.t.(running := s.t.running - {t.id})) else s'
    case Release => if cfg.limit > 0 then s'.(g := s.g.(sem := s.g.sem - 1)) else s'
    case WgDone => s'.(g := s.g.(wg := s.g.wg - 1))
    case Deactivate => s'.(n := s.n.(active := s.n.active - 1))
    case _ => s'
  }

  // -------------------------------------------------------------------- finalization

  datatype FinalOp = CloseRoot | WaitZero | SampleCtx | EndCtx | Conclude

  ghost predicate FinalEnabled(s: State, op: FinalOp) {
    match op
    case CloseRoot => s.f.phase.Open?
    case WaitZero => s.f.phase.RootClosed? && s.g.wg == 0
    case SampleCtx => s.f.phase.Waited?
    case EndCtx => s.f.phase.Sampled?
    case Conclude => s.f.phase.CtxEnded?
  }

  ghost function FinalStep(cfg: Config, s: State, op: FinalOp): State
    requires FinalEnabled(s, op)
  {
    match op
    case CloseRoot => s.(g := s.g.(rootOpen := false), f := s.f.(phase := RootClosed))
    case WaitZero => s.(f := s.f.(phase := Waited))
    case SampleCtx => s.(f := s.f.(phase := Sampled, wasCancelled := s.ctx.Some?))
    case EndCtx => s.(f := s.f.(phase := CtxEnded), ctx := CancelWith(s.ctx, Canceled))
    case Conclude =>
      var (err, panicVal) := Aggregate(cfg, s.e, s.f.wasCancelled, s.ctx);
      s.(f := s.f.(phase := Finalized, err := err, panicVal := panicVal))
  }

  // ----------------------------------------------------------------------------- runs

  datatype Action =
    | Begin(sp: SpawnerRef, nested: bool, name: string)
    | OfTask(i: nat, op: TaskOp)
    | Finalize(fop: FinalOp)
    | CancelOutside(deadline: bool)   // the parent context, or Scope.Cancel

  ghost predicate Enabled(cfg: Config, s: State, a: Action) {
    match a
    case Begin(sp, _, _) => IsOpen(s, sp)
    case OfTask(i, op) => TaskEnabled(cfg, s, i, op)
    case Finalize(op) => FinalEnabled(s, op)
    case CancelOutside(_) => true
  }

  ghost function Step(cfg: Config, s: State, a: Action): State
    requires Enabled(cfg, s, a)
  {
    match a
    case Begin(sp, nested, name) => BeginStep(s, sp, nested, name)
    case OfTask(i, op) => TaskStep(cfg, s, i, op)
    case Finalize(op) => FinalStep(cfg, s, op)
    case CancelOutside(deadline) =>
      s.(ctx := CancelWith(s.ctx, if deadline then DeadlineExceeded else Canceled))
  }

  ghost predicate CanRun(cfg: Config, s: State, run: seq<Action>)
    decreases |run|
  {
    run == [] || (Enabled(cfg, s, run[0]) && CanRun(cfg, Step(cfg, s, run[0]), run[1..]))
  }

  ghost function After(cfg: Config, s: State, run: seq<Action>): State
    requires CanRun(cfg, s, run)
    decreases |run|
  {
    if run == [] then s else After(cfg, Step(cfg, s, run[0]), run[1..])
  }
}
