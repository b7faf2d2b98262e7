/** ParallelMap as interleaved atomic steps. */
module ParallelMap {
  // One dispatcher, its workers, the cancellation bridge and a single consumer over two
  // semaphores, a results channel and a wait group. Goroutine-local work is folded into the
  // synchronising operation it leads up to. `select` is a choice between enabled steps; a
  // context is a flag that is only ever raised.

  /** An error value; io.EOF is told apart because callers take it for the end. */
  datatype Err = IoEof | Code(n: nat)

  /** What the mapper returned for one item; a recovered panic is a failure too. */
  datatype Outcome<+B> = Done(value: B) | Failed(err: Err)

  /** An error recorded on the output stream by the consumer side; `CallErr` is that of the
      context a caller passed to Next. */
  datatype StreamErr = MapperErr(n: nat) | GapErr | CallErr

  /** What setError keeps of an outcome: nothing for a success or io.EOF. */
  function Noted<B>(o: Outcome<B>): seq<StreamErr> {
    if o.Failed? && o.err.Code? then [MapperErr(o.err.n)] else []
  }

  /** A failure that is handed out is recorded by the closure and again by Stream.Next. */
  function NotedTwice<B>(o: Outcome<B>): seq<StreamErr> {
    Noted(o) + Noted(o)
  }

  /** How the source ends after its last item: io.EOF, another error, or a panic inside Next. */
  datatype SourceEnd = AtEof | WithError | InPanic

  datatype IndexedResult<+B> = IndexedResult(idx: nat, res: Outcome<B>)

  /** The caller's options after defaulting, the finite source and the mapper. `slotFree`
      says whether the scope has no limit, or a slot of it free, when the dispatcher task
      is spawned. */
  datatype Config<!A, B> = Config(
    src: seq<A>, srcEnd: SourceEnd, fn: A -> Outcome<B>,
    maxWorkers: nat, maxPending: nat, bufferSize: nat, ordered: bool, slotFree: bool)
  {
    ghost predicate Valid() {
      maxWorkers >= 1 && (ordered ==> maxPending >= 1)
    }

    /** The source does not panic once it has yielded an item. */
    ghost predicate Sound() {
      srcEnd.InPanic? ==> src == []
    }

    ghost function Capacity(): nat { bufferSize + maxWorkers }

    /** The result the i-th source item must produce. */
    ghost function Result(i: nat): IndexedResult<B>
      requires i < |src|
    {
      IndexedResult(i, fn(src[i]))
    }
  }

  /** The defaulting rules applied to the caller's options. */
  ghost function Configure<A, B>(src: seq<A>, srcEnd: SourceEnd, fn: A -> Outcome<B>,
    maxWorkers: int, maxPending: nat, bufferSize: nat, ordered: bool, slotFree: bool, numCPU: nat): (c: Config<A, B>)
    requires numCPU >= 1
    ensures c.Valid()
    ensures (c.src, c.srcEnd, c.fn, c.bufferSize, c.ordered, c.slotFree)
         == (src, srcEnd, fn, bufferSize, ordered, slotFree)
    ensures c.maxWorkers == if maxWorkers > 0 then maxWorkers else numCPU
    ensures c.maxPending == maxPending || (maxPending == 0 && c.maxPending == c.maxWorkers + c.maxWorkers)
    ensures c.maxPending == maxPending <==> maxPending > 0 || !ordered
  {
    var workers: nat := if maxWorkers <= 0 then numCPU else maxWorkers;
    Config(src, srcEnd, fn, workers,
           if ordered && maxPending == 0 then workers * 2 else maxPending, bufferSize, ordered, slotFree)
  }

  /** Where the dispatcher stands. The three `Want` phases carry the item in hand. */
  datatype DispatchPhase<+A> =
    | NotStarted                          // waiting for a slot of the scope's limit
    | Skipped                             // the scope was cancelled before the task ran
    | Fetching
    | WantPending(idx: nat, item: A)      // at the backpressure select
    | WantWg(idx: nat, item: A)           // about to call wg.Add(1)
    | WantSem(idx: nat, item: A)          // at the worker-semaphore select
    | Draining                            // in wg.Wait
    | Cancelling                          // deferred runCancel
    | AwaitingBridge                      // deferred <-done
    | Closing                             // deferred close(resCh)
    | Finished
  {
    predicate Carrying() { WantPending? || WantWg? || WantSem? }
    predicate Unborn() { NotStarted? || Skipped? }
    predicate PastWait() { Cancelling? || AwaitingBridge? || Closing? || Finished? }
  }

  /** A worker runs the mapper, offers the result, then unwinds. */
  datatype WorkPhase = Running | Sending | Releasing | Signalling | Gone

  datatype Worker<+A> = Worker(idx: nat, item: A, phase: WorkPhase)

  datatype BridgePhase = Unborn | Watching | Propagating | Exiting | Exited

  datatype ConsumerPhase = Idle | AtHead | AtSelect

  /** How the most recent completed `Next` call ended. */
  datatype Return<+B> =
    | NoCall
    | Emitted(res: Outcome<B>)
    | Eof
    | Embedded(res: Outcome<B>)   // an error found behind a gap
    | Gap                         // ErrStreamGap
    | CtxErr

  /** The dispatcher; `srcErr` says that it has recorded an error on the output stream, and
      `taskErr` that its task returns one to the scope. `acquired` is history: backpressure
      slots taken so far. `panicked` says that it is unwinding, or has unwound, from a panic of
      the source. */
  datatype Dispatcher<+A> = Dispatcher(
    phase: DispatchPhase<A>, fetched: nat, srcErr: bool, taskErr: bool, acquired: nat, panicked: bool)

  /** Workers with the worker semaphore and the wait group. */
  datatype Pool<+A> = Pool(ws: seq<Worker<A>>, sem: nat, wg: nat)

  /** The bridge and every context it connects; `slot` says whether the scope's limit has
      room for the dispatcher task. */
  datatype Contexts = Contexts(
    bridge: BridgePhase, runCancelled: bool, external: bool, stopped: bool, scopeDone: bool, slot: bool)
  {
    /** runCtx is done: cancelled by the bridge, by the deferred cancel, or with the scope. */
    predicate RunDone() { runCancelled || scopeDone }

    /** mapCtx is done: the caller's context, or the consumer called Stop. */
    predicate MapDone() { external || stopped }

    predicate Quiet() { !external && !stopped && !scopeDone }
  }

  /** The consumer's closure; `emitted` is history: results handed out by index. `errs` is
      what the closure and Stream.Next around it have recorded on the output stream. */
  datatype Consumer<B> = Consumer(
    phase: ConsumerPhase, nextIdx: nat, pending: map<nat, IndexedResult<B>>,
    last: Return<B>, emitted: seq<IndexedResult<B>>, errs: seq<StreamErr>)

  /** `tokens` is the occupancy of pendingSem; `lost` is history: results dropped on cancellation.
      `crashed` says that a worker has sent on the closed channel, which ends the process. */
  datatype State<A, B> = State(
    d: Dispatcher<A>, tokens: nat, p: Pool<A>,
    queue: seq<IndexedResult<B>>, closed: bool,
    x: Contexts, k: Consumer<B>, lost: nat, crashed: bool)

  ghost function Init<A, B>(c: Config<A, B>): State<A, B> {
    State(Dispatcher(NotStarted, 0, false, false, 0, false), 0, Pool([], 0, 0), [], false,
          Contexts(Unborn, false, false, false, false, c.slotFree),
          Consumer(Idle, 0, map[], NoCall, [], []), 0, false)
  }

  datatype DispatchOp =
    | Start | Skip
    | FetchItem | FetchEnd | FetchCancelled
    | AcquirePending | AbortPending
    | AddWg
    | AcquireSem | AbortSem
    | WaitWg | CancelRun | AwaitBridge | CloseResults

  datatype WorkOp = RunFn | SendResult | SendOnClosed | DropResult | ReleaseSem | SignalWg

  datatype BridgeOp = SeeMapDone | CancelRunCtx | SeeRunDone | Exit

  datatype ConsumeOp =
    | CallNext                    // a Next call begins
    | EmitPending                 // the expected index is buffered: emit it, release its slot
    | LookPast                    // it is not: go to the select
    | Receive
    | ReceiveClosed
    | ReceiveClosedFailed(i: nat) // behind a gap, the first failed entry the map iteration meets
    | SeeCtxDone

  /** Other tasks of the scope free or take the slot the dispatcher waits for. */
  datatype EnvOp = CancelExternal | StopStream | CancelScope | OfferSlot | TakeSlot

  datatype Action =
    | Dispatch(d: DispatchOp)
    | Work(i: nat, w: WorkOp)
    | Bridge(b: BridgeOp)
    | Consume(c: ConsumeOp)
    | Environment(e: EnvOp)

  // ---------------------------------------------------------------- dispatcher

  ghost predicate DispatchEnabled<A, B>(c: Config<A, B>, s: State<A, B>, op: DispatchOp) {
    match op
    case Start => s.d.phase.NotStarted? && s.x.slot
    case Skip => s.d.phase.NotStarted? && s.x.scopeDone
    case FetchItem => s.d.phase.Fetching? && s.d.fetched < |c.src|
    case FetchEnd => s.d.phase.Fetching? && s.d.fetched >= |c.src|
    case FetchCancelled => s.d.phase.Fetching? && s.x.RunDone()
    case AcquirePending => s.d.phase.WantPending? && s.tokens < c.maxPending
    case AbortPending => s.d.phase.WantPending? && s.x.RunDone()
    case AddWg => s.d.phase.WantWg?
    case AcquireSem => s.d.phase.WantSem? && s.p.sem < c.maxWorkers
    case AbortSem => s.d.phase.WantSem? && s.x.RunDone() && s.p.wg > 0
    case WaitWg => s.d.phase.Draining? && s.p.wg == 0
    case CancelRun => s.d.phase.Cancelling?
    case AwaitBridge => s.d.phase.AwaitingBridge? && s.x.bridge.Exited?
    case CloseResults => s.d.phase.Closing?
  }

  ghost function DispatchStep<A, B>(c: Config<A, B>, s: State<A, B>, op: DispatchOp): State<A, B>
    requires DispatchEnabled(c, s, op)
  {
    match op
    case Start => s.(d := s.d.(phase := Fetching), x := s.x.(bridge := Watching))
    case Skip => s.(d := s.d.(phase := Skipped))
    case FetchItem =>
      var idx := s.d.fetched;
      var next := if c.ordered then WantPending(idx, c.src[idx]) else WantWg(idx, c.src[idx]);
      s.(d := s.d.(fetched := idx + 1, phase := next))
    case FetchEnd =>
      // a panic runs the deferred calls only, so it skips wg.Wait
      if c.srcEnd.InPanic? then s.(d := s.d.(phase := Cancelling, panicked := true))
      else s.(d := s.d.(phase := Draining, srcErr := s.d.srcErr || c.srcEnd.WithError?))
    case FetchCancelled =>
      // only the consumer's own Stop suppresses the cancellation error
      var consumerStopped := s.x.MapDone() && !s.x.external;
      s.(d := s.d.(phase := Draining, srcErr := s.d.srcErr || !consumerStopped))
    case AcquirePending =>
      s.(tokens := s.tokens + 1,
         d := s.d.(acquired := s.d.acquired + 1, phase := WantWg(s.d.phase.idx, s.d.phase.item)))
    case AbortPending => s.(d := s.d.(phase := Draining, taskErr := s.x.external))
    case AddWg =>
      s.(p := s.p.(wg := s.p.wg + 1), d := s.d.(phase := WantSem(s.d.phase.idx, s.d.phase.item)))
    case AcquireSem =>
      var w := Worker(s.d.phase.idx, s.d.phase.item, Running);
      s.(p := s.p.(sem := s.p.sem + 1, ws := s.p.ws + [w]), d := s.d.(phase := Fetching))
    case AbortSem =>
      s.(p := s.p.(wg := s.p.wg - 1), d := s.d.(phase := Draining, taskErr := s.x.external))
    case WaitWg => s.(d := s.d.(phase := Cancelling))
    case CancelRun => s.(x := s.x.(runCancelled := true), d := s.d.(phase := AwaitingBridge))
    case AwaitBridge => s.(d := s.d.(phase := Closing))
    case CloseResults => s.(closed := true, d := s.d.(phase := Finished))
  }

  // ------------------------------------------------------------------- workers

  ghost predicate WorkEnabled<A, B>(c: Config<A, B>, s: State<A, B>, i: nat, op: WorkOp) {
    && i < |s.p.ws|
    && match op
       case RunFn => s.p.ws[i].phase.Running?
       case SendResult => s.p.ws[i].phase.Sending? && !s.closed && |s.queue| < c.Capacity()
       case SendOnClosed => s.p.ws[i].phase.Sending? && s.closed
       case DropResult => s.p.ws[i].phase.Sending? && s.x.RunDone()
       case ReleaseSem => s.p.ws[i].phase.Releasing? && s.p.sem > 0
       case SignalWg => s.p.ws[i].phase.Signalling? && s.p.wg > 0
  }

  ghost function Advance<A>(ws: seq<Worker<A>>, i: nat, phase: WorkPhase): seq<Worker<A>>
    requires i < |ws|
  {
    ws[i := ws[i].(phase := phase)]
  }

  ghost function WorkStep<A, B>(c: Config<A, B>, s: State<A, B>, i: nat, op: WorkOp): State<A, B>
    requires WorkEnabled(c, s, i, op)
  {
    match op
    case RunFn => s.(p := s.p.(ws := Advance(s.p.ws, i, Sending)))
    case SendResult =>
      var r := IndexedResult(s.p.ws[i].idx, c.fn(s.p.ws[i].item));
      s.(p := s.p.(ws := Advance(s.p.ws, i, Releasing)), queue := s.queue + [r])
    case SendOnClosed =>
      s.(p := s.p.(ws := Advance(s.p.ws, i, Releasing)), lost := s.lost + 1, crashed := true)
    case DropResult => s.(p := s.p.(ws := Advance(s.p.ws, i, Releasing)), lost := s.lost + 1)
    case ReleaseSem => s.(p := s.p.(ws := Advance(s.p.ws, i, Signalling), sem := s.p.sem - 1))
    case SignalWg => s.(p := s.p.(ws := Advance(s.p.ws, i, Gone), wg := s.p.wg - 1))
  }

  // -------------------------------------------------------------------- bridge

  ghost predicate BridgeEnabled(x: Contexts, op: BridgeOp) {
    match op
    case SeeMapDone => x.bridge.Watching? && x.MapDone()
    case CancelRunCtx => x.bridge.Propagating?
    case SeeRunDone => x.bridge.Watching? && x.RunDone()
    case Exit => x.bridge.Exiting?
  }

  ghost function BridgeStep(x: Contexts, op: BridgeOp): Contexts
    requires BridgeEnabled(x, op)
  {
    match op
    case SeeMapDone => x.(bridge := Propagating)
    case CancelRunCtx => x.(runCancelled := true, bridge := Exiting)
    case SeeRunDone => x.(bridge := Exiting)
    case Exit => x.(bridge := Exited)
  }

  // ------------------------------------------------------------------ consumer

  /** The result with the next expected index is buffered. */
  ghost predicate HeadReady<A, B>(c: Config<A, B>, k: Consumer<B>) {
    c.ordered && k.nextIdx in k.pending
  }

  ghost predicate ConsumeEnabled<A, B>(c: Config<A, B>, s: State<A, B>, op: ConsumeOp) {
    match op
    case CallNext => s.k.phase.Idle?
    case EmitPending => s.k.phase.AtHead? && HeadReady(c, s.k) && s.tokens > 0
    case LookPast => s.k.phase.AtHead? && !HeadReady(c, s.k)
    case Receive => s.k.phase.AtSelect? && s.queue != []
    case ReceiveClosed =>
      && s.k.phase.AtSelect? && s.queue == [] && s.closed
      && if HeadReady(c, s.k) then s.tokens > 0
         else c.ordered ==> forall i :: i in s.k.pending ==> s.k.pending[i].res.Done?
    case ReceiveClosedFailed(i) =>
      && s.k.phase.AtSelect? && s.queue == [] && s.closed
      && c.ordered && !HeadReady(c, s.k) && i in s.k.pending && s.k.pending[i].res.Failed?
    case SeeCtxDone => s.k.phase.AtSelect?
  }

  /** delete(pending, nextIdx); nextIdx++; record a failure; return the result. */
  ghost function EmitHead<B>(k: Consumer<B>): Consumer<B>
    requires k.nextIdx in k.pending
  {
    var r := k.pending[k.nextIdx];
    Consumer(Idle, k.nextIdx + 1, k.pending - {k.nextIdx}, Emitted(r.res), k.emitted + [r],
             k.errs + NotedTwice(r.res))
  }

  /** A received result is buffered by index in ordered mode and returned at once otherwise. */
  ghost function Accept<A, B>(c: Config<A, B>, k: Consumer<B>, r: IndexedResult<B>): Consumer<B> {
    if c.ordered then k.(pending := k.pending[r.idx := r], phase := AtHead)
    else k.(emitted := k.emitted + [r], last := Emitted(r.res), errs := k.errs + NotedTwice(r.res), phase := Idle)
  }

  ghost function ConsumeStep<A, B>(c: Config<A, B>, s: State<A, B>, op: ConsumeOp): State<A, B>
    requires ConsumeEnabled(c, s, op)
  {
    match op
    case CallNext => s.(k := s.k.(phase := AtHead))
    case EmitPending => s.(k := EmitHead(s.k), tokens := s.tokens - 1)
    case LookPast => s.(k := s.k.(phase := AtSelect))
    case Receive => s.(k := Accept(c, s.k, s.queue[0]), queue := s.queue[1..])
    case ReceiveClosed =>
      if HeadReady(c, s.k) then s.(k := EmitHead(s.k), tokens := s.tokens - 1)
      else if c.ordered && |s.k.pending| > 0 then s.(k := s.k.(last := Gap, errs := s.k.errs + [GapErr, GapErr], phase := Idle))
      else s.(k := s.k.(last := Eof, phase := Idle))
    case ReceiveClosedFailed(i) =>
      var o := s.k.pending[i].res;
      s.(k := s.k.(last := Embedded(o), errs := s.k.errs + NotedTwice(o), phase := Idle))
    case SeeCtxDone => s.(k := s.k.(last := CtxErr, errs := s.k.errs + [CallErr], phase := Idle))
  }

  // ------------------------------------------------------- environment and runs

  ghost function EnvStep(x: Contexts, op: EnvOp): Contexts {
    match op
    case CancelExternal => x.(external := true)
    case StopStream => x.(stopped := true)
    case CancelScope => x.(scopeDone := true)
    case OfferSlot => x.(slot := true)
    case TakeSlot => x.(slot := false)
  }

  ghost predicate Enabled<A, B>(c: Config<A, B>, s: State<A, B>, a: Action) {
    && !s.crashed
    && match a
       case Dispatch(d) => DispatchEnabled(c, s, d)
       case Work(i, w) => WorkEnabled(c, s, i, w)
       case Bridge(b) => BridgeEnabled(s.x, b)
       case Consume(o) => ConsumeEnabled(c, s, o)
       case Environment(_) => true
  }

  ghost function Step<A, B>(c: Config<A, B>, s: State<A, B>, a: Action): State<A, B>
    requires Enabled(c, s, a)
  {
    match a
    case Dispatch(d) => DispatchStep(c, s, d)
    case Work(i, w) => WorkStep(c, s, i, w)
    case Bridge(b) => s.(x := BridgeStep(s.x, b))
    case Consume(o) => ConsumeStep(c, s, o)
    case Environment(e) => s.(x := EnvStep(s.x, e))
  }

  /** The schedule `run` can be taken from `s`. */
  ghost predicate CanRun<A, B>(c: Config<A, B>, s: State<A, B>, run: seq<Action>)
    decreases |run|
  {
    run == [] || (Enabled(c, s, run[0]) && CanRun(c, Step(c, s, run[0]), run[1..]))
  }

  /** The state the schedule leads to. */
  ghost function After<A, B>(c: Config<A, B>, s: State<A, B>, run: seq<Action>): State<A, B>
    requires CanRun(c, s, run)
    decreases |run|
  {
    if run == [] then s else After(c, Step(c, s, run[0]), run[1..])
  }
}
