/** The worker pool: submitters, a fixed set of workers and any number of Close
    calls racing over one task channel. */
module Pool {

  /** What a task does when it runs; a recovered panic is a failure. */
  datatype Outcome = Succeeds | FailsWith(err: nat)

  /** `outcome(k)` is what the k-th submitted function does. */
  datatype Config = Config(workers: nat, queueSize: nat, outcome: nat -> Outcome)

  datatype Verdict = Accepted | PoolClosed | CtxErr | QueueFull

  /** A Submit (or TrySubmit) call: closed check, select, counter bump, return. */
  datatype CallPhase = Checking | Selecting | Bumping | Returned(v: Verdict)

  datatype Call = Call(try: bool, phase: CallPhase)

  datatype Worker =
    | Idle
    | Took(k: nat)        // received from the channel, inFlight not yet bumped
    | Running(k: nat)
    | Recording(k: nat)   // the function failed
    | Counting(k: nat)    // in the deferred counter updates
    | Exited

  datatype CloserPhase = AtCas | AtCloseChan | AtWait | AtCancel | AtJoin | Done(errs: seq<nat>)

  datatype Channel = Channel(queue: seq<nat>, closed: bool)

  datatype Counters = Counters(submitted: nat, completed: nat, errored: nat, inFlight: nat)

  /** History: who entered the channel, who left it, who finished, each in order. */
  datatype History = History(accepted: seq<nat>, started: seq<nat>, finished: seq<nat>)

  datatype State = State(
    calls: seq<Call>, ws: seq<Worker>, closers: seq<CloserPhase>,
    ch: Channel, closedFlag: bool, ctxDone: bool, wg: nat,
    n: Counters, errs: seq<nat>, h: History)

  ghost function Init(c: Config): State {
    State([], seq(c.workers, i => Idle), [], Channel([], false), false, false, c.workers,
          Counters(0, 0, 0, 0), [], History([], [], []))
  }

  // -------------------------------------------------------------------- submitting

  datatype CallOp =
    | Check           // closed.Load()
    | Send            // into the buffer
    | Handoff(w: nat) // straight to a worker waiting on the empty channel
    | HitClosed       // the send panics and is recovered
    | SeeCtx          // Submit only
    | FindFull        // TrySubmit only
    | Bump            // submitted.Add(1)

  ghost predicate CallEnabled(c: Config, s: State, k: nat, op: CallOp) {
    && k < |s.calls|
    && var call := s.calls[k];
       match op
       case Check => call.phase.Checking?
       case Send => call.phase.Selecting? && !s.ch.closed && |s.ch.queue| < c.queueSize
       case Handoff(w) =>
         call.phase.Selecting? && !s.ch.closed && s.ch.queue == [] && w < |s.ws| && s.ws[w].Idle?
       case HitClosed => call.phase.Selecting? && s.ch.closed
       case SeeCtx => call.phase.Selecting? && !call.try && s.ctxDone
       case FindFull => call.phase.Selecting? && call.try && !s.ch.closed && |s.ch.queue| >= c.queueSize
       case Bump => call.phase.Bumping?
  }

  ghost function CallAfter(s: State, k: nat, op: CallOp): Call
    requires k < |s.calls|
  {
    var call := s.calls[k];
    match op
    case Check => call.(phase := if s.closedFlag then Returned(PoolClosed) else Selecting)
    case Send => call.(phase := Bumping)
    case Handoff(_) => call.(phase := Bumping)
    case HitClosed => call.(phase := Returned(PoolClosed))
    case SeeCtx => call.(phase := Returned(CtxErr))
    case FindFull => call.(phase := Returned(QueueFull))
    case Bump => call.(phase := Returned(Accepted))
  }

  ghost function CallStep(c: Config, s: State, k: nat, op: CallOp): State
    requires CallEnabled(c, s, k, op)
  {
    var s' := s.(calls := s.calls[k := CallAfter(s, k, op)]);
    match op
    case Send =>
      s'.(ch := s.ch.(queue := s.ch.queue + [k]), h := s.h.(accepted := s.h.accepted + [k]))
    case Handoff(w) =>
      s'.(ws := s.ws[w := Took(k)],
          h := s.h.(accepted := s.h.accepted + [k], started := s.h.started + [k]))
    case Bump => s'.(n := s.n.(submitted := s.n.submitted + 1))
    case _ => s'
  }

  // ----------------------------------------------------------------------- workers

  datatype WorkOp = Receive | LeaveLoop | BeginRun | EndRun | RecordErr | CountDone

  ghost predicate WorkEnabled(s: State, w: nat, op: WorkOp) {
    && w < |s.ws|
    && match op
       case Receive => s.ws[w].Idle? && s.ch.queue != []
       case LeaveLoop => s.ws[w].Idle? && s.ch.queue == [] && s.ch.closed && s.wg > 0
       case BeginRun => s.ws[w].Took?
       case EndRun => s.ws[w].Running?
       case RecordErr => s.ws[w].Recording?
       case CountDone => s.ws[w].Counting? && s.n.inFlight > 0
  }

  ghost function WorkAfter(c: Config, s: State, w: nat, op: WorkOp): Worker
    requires WorkEnabled(s, w, op)
  {
    match op
    case Receive => Took(s.ch.queue[0])
    case LeaveLoop => Exited
    case BeginRun => Running(s.ws[w].k)
    case EndRun => if c.outcome(s.ws[w].k).Succeeds? then Counting(s.ws[w].k) else Recording(s.ws[w].k)
    case RecordErr => Counting(s.ws[w].k)
    case CountDone => Idle
  }

  /** The error a task leaves behind, if any. */
  function ErrorOf(c: Config, k: nat): seq<nat> {
    match c.outcome(k)
    case Succeeds => []
    case FailsWith(e) => [e]
  }

  ghost function WorkStep(c: Config, s: State, w: nat, op: WorkOp): State
    requires WorkEnabled(s, w, op)
  {
    var s' := s.(ws := s.ws[w := WorkAfter(c, s, w, op)]);
    match op
    case Receive =>
      s'.(ch := s.ch.(queue := s.ch.queue[1..]), h := s.h.(started := s.h.started + [s.ch.queue[0]]))
    case LeaveLoop => s'.(wg := s.wg - 1)
    case BeginRun => s'.(n := s.n.(inFlight := s.n.inFlight + 1))
    case EndRun => s'
    case RecordErr =>
      s'.(n := s.n.(errored := s.n.errored + 1), errs := s.errs + ErrorOf(c, s.ws[w].k))
    case CountDone =>
      s'.(n := s.n.(inFlight := s.n.inFlight - 1, completed := s.n.completed + 1),
          h := s.h.(finished := s.h.finished + [s.ws[w].k]))
  }

  // ----------------------------------------------------------------------- closing

  datatype CloseOp = Cas | CloseChan | WaitWorkers | CancelPool | JoinErrs

  ghost predicate CloseEnabled(s: State, i: nat, op: CloseOp) {
    && i < |s.closers|
    && match op
       case Cas => s.closers[i].AtCas?
       case CloseChan => s.closers[i].AtCloseChan?
       case WaitWorkers => s.closers[i].AtWait? && s.wg == 0
       case CancelPool => s.closers[i].AtCancel?
       case JoinErrs => s.closers[i].AtJoin?
  }

  ghost function CloseStep(s: State, i: nat, op: CloseOp): State
    requires CloseEnabled(s, i, op)
  {
    match op
    case Cas =>
      s.(closedFlag := true, closers := s.closers[i := if s.closedFlag then AtWait else AtCloseChan])
    case CloseChan => s.(ch := s.ch.(closed := true), closers := s.closers[i := AtWait])
    case WaitWorkers => s.(closers := s.closers[i := AtCancel])
    case CancelPool => s.(ctxDone := true, closers := s.closers[i := AtJoin])
    case JoinErrs => s.(closers := s.closers[i := Done(s.errs)])
  }

  // -------------------------------------------------------------------------- runs

  datatype Action =
    | NewCall(try: bool)
    | OfCall(k: nat, c: CallOp)
    | OfWorker(w: nat, o: WorkOp)
    | NewClose
    | OfClose(i: nat, d: CloseOp)
    | CancelOutside

  ghost predicate Enabled(c: Config, s: State, a: Action) {
    match a
    case OfCall(k, op) => CallEnabled(c, s, k, op)
    case OfWorker(w, op) => WorkEnabled(s, w, op)
    case OfClose(i, op) => CloseEnabled(s, i, op)
    case _ => true
  }

  ghost function Step(c: Config, s: State, a: Action): State
    requires Enabled(c, s, a)
  {
    match a
    case NewCall(try) => s.(calls := s.calls + [Call(try, Checking)])
    case OfCall(k, op) => CallStep(c, s, k, op)
    case OfWorker(w, op) => WorkStep(c, s, w, op)
    case NewClose => s.(closers := s.closers + [AtCas])
    case OfClose(i, op) => CloseStep(s, i, op)
    case CancelOutside => s.(ctxDone := true)
  }

  ghost predicate CanRun(c: Config, s: State, run: seq<Action>)
    decreases |run|
  {
    run == [] || (Enabled(c, s, run[0]) && CanRun(c, Step(c, s, run[0]), run[1..]))
  }

  ghost function After(c: Config, s: State, run: seq<Action>): State
    requires CanRun(c, s, run)
    decreases |run|
  {
    if run == [] then s else After(c, Step(c, s, run[0]), run[1..])
  }
}
