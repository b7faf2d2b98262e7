/** The inductive invariant of ParallelMap: every atomic step keeps it. It has one component
    for each of numbering, counters, panics, contexts, the backpressure ledger, conservation,
    order, quiet runs, verdicts and recorded errors; each is shown to survive the steps of each
    goroutine on its own. */
module ParallelMapInvariant {
  import opened Counting
  import opened ParallelMap

  ghost function HoldsSem<A>(w: Worker<A>): nat {
    if w.phase.Running? || w.phase.Sending? || w.phase.Releasing? then 1 else 0
  }

  ghost function HoldsWg<A>(w: Worker<A>): nat {
    if w.phase.Gone? then 0 else 1
  }

  /** The worker still owes its result to the channel. */
  ghost function Owes<A>(w: Worker<A>): nat {
    if w.phase.Running? || w.phase.Sending? then 1 else 0
  }

  ghost predicate Distinct<B>(rs: seq<IndexedResult<B>>) {
    forall i, j :: 0 <= i < j < |rs| ==> rs[i].idx != rs[j].idx
  }

  /** `r` is the true result of an item whose worker has already let go of it. */
  ghost predicate Genuine<A, B>(c: Config<A, B>, ws: seq<Worker<A>>, r: IndexedResult<B>) {
    r.idx < |ws| && r.idx < |c.src| && Owes(ws[r.idx]) == 0 && r == c.Result(r.idx)
  }

  /** Items are numbered in source order. */
  ghost predicate NumberingInv<A, B>(c: Config<A, B>, d: Dispatcher<A>, ws: seq<Worker<A>>) {
    && |ws| <= d.fetched <= |ws| + 1
    && d.fetched <= |c.src|
    && (forall i :: 0 <= i < |ws| ==> ws[i].idx == i && ws[i].item == c.src[i])
    && (d.phase.Unborn() ==> d.fetched == 0)
    && (d.phase.Fetching? ==> d.fetched == |ws|)
    && (d.phase.Carrying() ==> d.phase.idx == |ws| < d.fetched && d.phase.item == c.src[d.phase.idx])
  }

  /** The semaphore and the wait group count their holders. Only a panicking dispatcher
      gets past its wait while they do not. */
  ghost predicate CountersInv<A, B>(c: Config<A, B>, d: Dispatcher<A>, p: Pool<A>) {
    && p.sem == Sum(p.ws, HoldsSem) <= c.maxWorkers
    && p.wg == Sum(p.ws, HoldsWg) + (if d.phase.WantSem? then 1 else 0)
    && (d.phase.PastWait() && !d.panicked ==> p.wg == 0)
  }

  /** A panic comes from a panicking source, after its last item; a crash comes from a
      panic that left a worker behind. */
  ghost predicate PanicInv<A, B>(c: Config<A, B>, d: Dispatcher<A>, launched: nat, crashed: bool) {
    && (d.panicked ==> c.srcEnd.InPanic? && d.phase.PastWait() && d.fetched == |c.src| == launched)
    && (crashed ==> d.panicked && d.phase.Finished? && launched > 0)
  }

  /** No worker was left behind by a panic. */
  ghost predicate Intact<A>(d: Dispatcher<A>, launched: nat) {
    d.panicked ==> launched == 0
  }

  ghost predicate BridgeInv<A>(phase: DispatchPhase<A>, closed: bool, x: Contexts) {
    && (closed <==> phase.Finished?)
    && (x.bridge.Unborn? <==> phase.Unborn())
    && (phase.AwaitingBridge? || phase.Closing? || phase.Finished? ==> x.runCancelled)
    && (phase.Closing? || phase.Finished? ==> x.bridge.Exited?)
    && (x.bridge.Propagating? ==> x.MapDone())
    && (x.bridge.Exiting? || x.bridge.Exited? ==> x.RunDone())
    && (phase.Skipped? ==> x.scopeDone)
    && (phase.Unborn() ==> !x.runCancelled)
    && (x.Quiet() && x.runCancelled ==> phase.AwaitingBridge? || phase.Closing? || phase.Finished?)
  }

  /** Backpressure: tokens held are slots acquired minus results emitted. */
  ghost predicate LedgerInv<A, B>(c: Config<A, B>, d: Dispatcher<A>, launched: nat, tokens: nat, nextIdx: nat) {
    if c.ordered then
      && tokens + nextIdx == d.acquired
      && tokens <= c.maxPending
      && launched <= d.acquired <= launched + 1
      && (d.phase.Unborn() || d.phase.Fetching? || d.phase.WantPending? ==> d.acquired == launched)
      && (d.phase.WantWg? || d.phase.WantSem? ==> d.acquired == launched + 1)
    else
      tokens == 0 && nextIdx == 0 && !d.phase.WantPending?
  }

  /** Conservation: every launched item's result is owed, queued, buffered, emitted or dropped. */
  ghost predicate FlowInv<A, B>(c: Config<A, B>, ws: seq<Worker<A>>, queue: seq<IndexedResult<B>>,
    k: Consumer<B>, lost: nat)
  {
    && |k.emitted| + |k.pending| + |queue| + Sum(ws, Owes) + lost == |ws|
    && |queue| <= c.Capacity()
    && (forall j :: 0 <= j < |queue| ==> Genuine(c, ws, queue[j]))
    && (forall j :: 0 <= j < |k.emitted| ==> Genuine(c, ws, k.emitted[j]))
    && (forall i :: i in k.pending ==> Genuine(c, ws, k.pending[i]) && k.pending[i].idx == i)
  }

  /** Indices are unique, and in ordered mode leave in order. */
  ghost predicate OrderInv<A, B>(c: Config<A, B>, queue: seq<IndexedResult<B>>, k: Consumer<B>) {
    if c.ordered then
      && Distinct(queue)
      && k.nextIdx == |k.emitted|
      && (forall i :: 0 <= i < |k.emitted| ==> k.emitted[i].idx == i)
      && (forall i :: i in k.pending ==> k.nextIdx <= i)
      && (forall j :: 0 <= j < |queue| ==> k.nextIdx <= queue[j].idx && queue[j].idx !in k.pending)
      && (k.phase.AtSelect? ==> k.nextIdx !in k.pending)
    else
      k.pending == map[] && Distinct(k.emitted + queue)
  }

  /** While nothing is cancelled no result is dropped and the source is drained to its end. */
  ghost predicate QuietInv<A, B>(c: Config<A, B>, d: Dispatcher<A>, launched: nat, x: Contexts, lost: nat) {
    x.Quiet() ==>
      && (Intact(d, launched) ==> lost == 0)
      && (d.phase.Draining? || d.phase.PastWait() ==> launched == d.fetched == |c.src|)
      && (if d.phase.Draining? || (d.phase.PastWait() && !d.panicked)
          then !c.srcEnd.InPanic? && d.srcErr == c.srcEnd.WithError?
          else !d.srcErr)
  }

  /** A stream that only its consumer stops records nothing beyond the source's own error; a
      dispatcher that gives up because of the caller's context alone reports it. */
  ghost predicate ReportInv<A, B>(c: Config<A, B>, d: Dispatcher<A>, launched: nat, x: Contexts) {
    && (!x.external && !x.scopeDone ==>
          !d.taskErr && (d.srcErr ==> c.srcEnd.WithError? && d.fetched == |c.src|))
    && (!x.stopped && !x.scopeDone && (d.phase.Draining? || d.phase.PastWait()) && launched < |c.src| ==>
          d.srcErr || d.taskErr)
  }

  /** What was last emitted is last in the history; Eof, Gap and Embedded are only returned
      from the closed, drained channel. */
  ghost predicate ReturnInv<A, B>(c: Config<A, B>, closed: bool, queue: seq<IndexedResult<B>>, k: Consumer<B>) {
    && (k.last.Emitted? ==> k.emitted != [] && k.emitted[|k.emitted| - 1].res == k.last.res)
    && (k.last.Eof? || k.last.Gap? || k.last.Embedded? ==>
          && closed && queue == []
          && !HeadReady(c, k)
          && (k.last.Eof? <==> |k.pending| == 0))
  }

  /** What an outcome that has been handed out must have left on the record. */
  ghost function FailureTwice<B>(o: Outcome<B>): seq<StreamErr> {
    match o
    case Failed(Code(n)) => [MapperErr(n), MapperErr(n)]
    case _ => []
  }

  lemma NotedIsFailure<B>(o: Outcome<B>)
    ensures NotedTwice(o) == FailureTwice(o)
  {
  }

  /** What results that have been handed out must have left on the record. */
  ghost function NotedAll<B>(rs: seq<IndexedResult<B>>): seq<StreamErr> {
    if rs == [] then [] else NotedAll(rs[..|rs| - 1]) + FailureTwice(rs[|rs| - 1].res)
  }

  lemma NotedAppend<B>(rs: seq<IndexedResult<B>>, r: IndexedResult<B>)
    ensures NotedAll(rs + [r]) == NotedAll(rs) + NotedTwice(r.res)
  {
    NotedIsFailure(r.res);
    assert (rs + [r])[..|rs|] == rs;
  }

  /** A record without the errors of the callers' own contexts. */
  ghost function OwnErrs(errs: seq<StreamErr>): seq<StreamErr> {
    if errs == [] then []
    else OwnErrs(errs[..|errs| - 1]) + (if errs[|errs| - 1].CallErr? then [] else [errs[|errs| - 1]])
  }

  lemma OwnAppend(errs: seq<StreamErr>, e: StreamErr)
    ensures OwnErrs(errs + [e]) == OwnErrs(errs) + (if e.CallErr? then [] else [e])
  {
    assert (errs + [e])[..|errs|] == errs;
  }

  /** Recording the same error twice. */
  lemma OwnTwice(errs: seq<StreamErr>, e: StreamErr)
    requires !e.CallErr?
    ensures OwnErrs(errs + [e, e]) == OwnErrs(errs) + [e, e]
  {
    assert errs + [e, e] == (errs + [e]) + [e];
    OwnAppend(errs, e);
    OwnAppend(errs + [e], e);
  }

  lemma OwnNoted<B>(errs: seq<StreamErr>, o: Outcome<B>)
    ensures OwnErrs(errs + NotedTwice(o)) == OwnErrs(errs) + NotedTwice(o)
  {
    NotedIsFailure(o);
    if o.Failed? && o.err.Code? {
      OwnTwice(errs, MapperErr(o.err.n));
    } else {
      assert errs + [] == errs;
    }
  }

  /** But for the callers' contexts, the failures of the emitted results are recorded in order;
      anything more was recorded at a hole in a closed, drained channel. */
  ghost predicate ErrsInv<A, B>(c: Config<A, B>, closed: bool, queue: seq<IndexedResult<B>>, k: Consumer<B>) {
    OwnErrs(k.errs) != NotedAll(k.emitted) ==>
      NotedAll(k.emitted) <= OwnErrs(k.errs) && closed && queue == [] && !HeadReady(c, k) && |k.pending| > 0
  }

  ghost predicate Inv<A, B>(c: Config<A, B>, s: State<A, B>) {
    && NumberingInv(c, s.d, s.p.ws)
    && CountersInv(c, s.d, s.p)
    && PanicInv(c, s.d, |s.p.ws|, s.crashed)
    && BridgeInv(s.d.phase, s.closed, s.x)
    && LedgerInv(c, s.d, |s.p.ws|, s.tokens, s.k.nextIdx)
    && FlowInv(c, s.p.ws, s.queue, s.k, s.lost)
    && OrderInv(c, s.queue, s.k)
    && QuietInv(c, s.d, |s.p.ws|, s.x, s.lost)
    && ReportInv(c, s.d, |s.p.ws|, s.x)
    && ReturnInv(c, s.closed, s.queue, s.k)
    && ErrsInv(c, s.closed, s.queue, s.k)
  }

  lemma InitInv<A, B>(c: Config<A, B>)
    requires c.Valid()
    ensures Inv(c, Init(c))
  {
  }

  /** Once the dispatcher is past wg.Wait every worker is gone, unless a panic took it there
      with workers left behind. */
  lemma NoWorkersPastWait<A, B>(c: Config<A, B>, d: Dispatcher<A>, p: Pool<A>)
    requires CountersInv(c, d, p) && d.phase.PastWait() && Intact(d, |p.ws|)
    ensures forall i :: 0 <= i < |p.ws| ==> p.ws[i].phase.Gone?
    ensures Sum(p.ws, Owes) == 0
  {
    SumZero(p.ws, HoldsWg);
    forall i | 0 <= i < |p.ws| ensures p.ws[i].phase.Gone? {
      assert HoldsWg(p.ws[i]) == 0;
    }
    SumMonotone(p.ws, Owes, HoldsWg);
  }

  // -------------------------------------------------------------- the dispatcher

  lemma LaunchKeepsFlow<A, B>(c: Config<A, B>, ws: seq<Worker<A>>, w: Worker<A>,
    queue: seq<IndexedResult<B>>, k: Consumer<B>, lost: nat)
    requires FlowInv(c, ws, queue, k, lost) && w.phase.Running?
    ensures FlowInv(c, ws + [w], queue, k, lost)
  {
    SumAppend(ws, w, Owes);
  }

  lemma FetchKeepsNumbering<A, B>(c: Config<A, B>, s: State<A, B>, op: DispatchOp)
    requires NumberingInv(c, s.d, s.p.ws) && DispatchEnabled(c, s, op) && s.d.phase.Fetching?
    ensures NumberingInv(c, DispatchStep(c, s, op).d, DispatchStep(c, s, op).p.ws)
  {
  }

  lemma LaunchKeepsNumbering<A, B>(c: Config<A, B>, s: State<A, B>, op: DispatchOp)
    requires NumberingInv(c, s.d, s.p.ws) && DispatchEnabled(c, s, op) && s.d.phase.Carrying()
    ensures NumberingInv(c, DispatchStep(c, s, op).d, DispatchStep(c, s, op).p.ws)
  {
  }

  lemma DispatchKeepsNumbering<A, B>(c: Config<A, B>, s: State<A, B>, op: DispatchOp)
    requires NumberingInv(c, s.d, s.p.ws) && DispatchEnabled(c, s, op)
    ensures NumberingInv(c, DispatchStep(c, s, op).d, DispatchStep(c, s, op).p.ws)
  {
    if s.d.phase.Fetching? {
      FetchKeepsNumbering(c, s, op);
    } else if s.d.phase.Carrying() {
      LaunchKeepsNumbering(c, s, op);
    }
  }

  lemma LaunchKeepsCounters<A, B>(c: Config<A, B>, d: Dispatcher<A>, d': Dispatcher<A>, p: Pool<A>, w: Worker<A>)
    requires CountersInv(c, d, p) && d.phase.WantSem? && p.sem < c.maxWorkers
    requires d'.phase.Fetching? && w.phase.Running?
    ensures CountersInv(c, d', p.(sem := p.sem + 1, ws := p.ws + [w]))
  {
    SumAppend(p.ws, w, HoldsSem);
    SumAppend(p.ws, w, HoldsWg);
  }

  lemma CarryKeepsCounters<A, B>(c: Config<A, B>, s: State<A, B>, op: DispatchOp)
    requires CountersInv(c, s.d, s.p) && DispatchEnabled(c, s, op) && s.d.phase.Carrying() && !op.AcquireSem?
    ensures CountersInv(c, DispatchStep(c, s, op).d, DispatchStep(c, s, op).p)
  {
  }

  /** Neither fetching nor unwinding touches the counters. */
  lemma OthersKeepCounters<A, B>(c: Config<A, B>, s: State<A, B>, op: DispatchOp)
    requires DispatchEnabled(c, s, op) && !s.d.phase.Carrying()
    requires s.d.panicked ==> s.d.phase.PastWait()
    ensures var s' := DispatchStep(c, s, op);
      && s'.p == s.p && !s'.d.phase.WantSem?
      && (s'.d.phase.PastWait() && !s'.d.panicked ==> s.p.wg == 0 || (s.d.phase.PastWait() && !s.d.panicked))
  {
  }

  lemma DispatchKeepsCounters<A, B>(c: Config<A, B>, s: State<A, B>, op: DispatchOp)
    requires CountersInv(c, s.d, s.p) && DispatchEnabled(c, s, op)
    requires s.d.panicked ==> s.d.phase.PastWait()
    ensures CountersInv(c, DispatchStep(c, s, op).d, DispatchStep(c, s, op).p)
  {
    if op.AcquireSem? {
      LaunchKeepsCounters(c, s.d, DispatchStep(c, s, op).d, s.p, Worker(s.d.phase.idx, s.d.phase.item, Running));
    } else if s.d.phase.Carrying() {
      CarryKeepsCounters(c, s, op);
    } else {
      OthersKeepCounters(c, s, op);
    }
  }

  lemma DispatchKeepsPanic<A, B>(c: Config<A, B>, s: State<A, B>, op: DispatchOp)
    requires NumberingInv(c, s.d, s.p.ws) && DispatchEnabled(c, s, op)
    requires PanicInv(c, s.d, |s.p.ws|, s.crashed)
    ensures var s' := DispatchStep(c, s, op); PanicInv(c, s'.d, |s'.p.ws|, s'.crashed)
  {
  }

  /** Fetching and launching leave the contexts alone. */
  lemma WorkingKeepsBridge<A, B>(c: Config<A, B>, s: State<A, B>, op: DispatchOp)
    requires BridgeInv(s.d.phase, s.closed, s.x) && DispatchEnabled(c, s, op)
    requires s.d.phase.Fetching? || s.d.phase.Carrying()
    ensures var s' := DispatchStep(c, s, op); BridgeInv(s'.d.phase, s'.closed, s'.x)
  {
    var s' := DispatchStep(c, s, op);
    assert s'.x == s.x && s'.closed == s.closed;
    assert !s'.d.phase.Unborn() && !s'.d.phase.AwaitingBridge? && !s'.d.phase.Closing? && !s'.d.phase.Finished?;
  }

  lemma DispatchKeepsBridge<A, B>(c: Config<A, B>, s: State<A, B>, op: DispatchOp)
    requires BridgeInv(s.d.phase, s.closed, s.x) && DispatchEnabled(c, s, op)
    ensures var s' := DispatchStep(c, s, op); BridgeInv(s'.d.phase, s'.closed, s'.x)
  {
    if s.d.phase.Fetching? || s.d.phase.Carrying() {
      WorkingKeepsBridge(c, s, op);
    }
  }

  lemma FetchKeepsLedger<A, B>(c: Config<A, B>, s: State<A, B>, op: DispatchOp)
    requires DispatchEnabled(c, s, op) && s.d.phase.Fetching?
    requires LedgerInv(c, s.d, |s.p.ws|, s.tokens, s.k.nextIdx)
    ensures var s' := DispatchStep(c, s, op); LedgerInv(c, s'.d, |s'.p.ws|, s'.tokens, s'.k.nextIdx)
  {
  }

  lemma LaunchKeepsLedger<A, B>(c: Config<A, B>, s: State<A, B>, op: DispatchOp)
    requires DispatchEnabled(c, s, op) && s.d.phase.Carrying()
    requires LedgerInv(c, s.d, |s.p.ws|, s.tokens, s.k.nextIdx)
    ensures var s' := DispatchStep(c, s, op); LedgerInv(c, s'.d, |s'.p.ws|, s'.tokens, s'.k.nextIdx)
  {
  }

  lemma DispatchKeepsLedger<A, B>(c: Config<A, B>, s: State<A, B>, op: DispatchOp)
    requires DispatchEnabled(c, s, op)
    requires LedgerInv(c, s.d, |s.p.ws|, s.tokens, s.k.nextIdx)
    ensures var s' := DispatchStep(c, s, op); LedgerInv(c, s'.d, |s'.p.ws|, s'.tokens, s'.k.nextIdx)
  {
    if s.d.phase.Fetching? {
      FetchKeepsLedger(c, s, op);
    } else if s.d.phase.Carrying() {
      LaunchKeepsLedger(c, s, op);
    }
  }

  lemma DispatchKeepsQuiet<A, B>(c: Config<A, B>, s: State<A, B>, op: DispatchOp)
    requires NumberingInv(c, s.d, s.p.ws) && DispatchEnabled(c, s, op)
    requires BridgeInv(s.d.phase, s.closed, s.x) && PanicInv(c, s.d, |s.p.ws|, s.crashed)
    requires QuietInv(c, s.d, |s.p.ws|, s.x, s.lost)
    ensures var s' := DispatchStep(c, s, op); QuietInv(c, s'.d, |s'.p.ws|, s'.x, s'.lost)
  {
  }

  lemma FetchKeepsReport<A, B>(c: Config<A, B>, s: State<A, B>, op: DispatchOp)
    requires NumberingInv(c, s.d, s.p.ws) && DispatchEnabled(c, s, op) && s.d.phase.Fetching?
    requires BridgeInv(s.d.phase, s.closed, s.x) && ReportInv(c, s.d, |s.p.ws|, s.x)
    ensures var s' := DispatchStep(c, s, op); ReportInv(c, s'.d, |s'.p.ws|, s'.x)
  {
  }

  lemma LaunchKeepsReport<A, B>(c: Config<A, B>, s: State<A, B>, op: DispatchOp)
    requires NumberingInv(c, s.d, s.p.ws) && DispatchEnabled(c, s, op) && s.d.phase.Carrying()
    requires BridgeInv(s.d.phase, s.closed, s.x) && ReportInv(c, s.d, |s.p.ws|, s.x)
    ensures var s' := DispatchStep(c, s, op); ReportInv(c, s'.d, |s'.p.ws|, s'.x)
  {
  }

  lemma DispatchKeepsReport<A, B>(c: Config<A, B>, s: State<A, B>, op: DispatchOp)
    requires NumberingInv(c, s.d, s.p.ws) && DispatchEnabled(c, s, op)
    requires BridgeInv(s.d.phase, s.closed, s.x) && PanicInv(c, s.d, |s.p.ws|, s.crashed)
    requires ReportInv(c, s.d, |s.p.ws|, s.x)
    ensures var s' := DispatchStep(c, s, op); ReportInv(c, s'.d, |s'.p.ws|, s'.x)
  {
    if s.d.phase.Fetching? {
      FetchKeepsReport(c, s, op);
    } else if s.d.phase.Carrying() {
      LaunchKeepsReport(c, s, op);
    }
  }

  /** Only the launch touches the workers; the dispatcher never touches a result. */
  lemma DispatchFrame<A, B>(c: Config<A, B>, s: State<A, B>, op: DispatchOp)
    requires DispatchEnabled(c, s, op)
    ensures var s' := DispatchStep(c, s, op);
      && s'.queue == s.queue && s'.k == s.k && s'.lost == s.lost
      && (s.closed ==> s'.closed) && s'.crashed == s.crashed
      && (s'.x.Quiet() <==> s.x.Quiet()) && s'.x.slot == s.x.slot && (s.d.panicked ==> s'.d.panicked)
      && (!op.AcquireSem? ==> s'.p.ws == s.p.ws)
      && (op.AcquireSem? ==> s'.p.ws == s.p.ws + [Worker(s.d.phase.idx, s.d.phase.item, Running)])
  {
  }

  lemma DispatchKeepsInv<A, B>(c: Config<A, B>, s: State<A, B>, op: DispatchOp)
    requires Inv(c, s) && DispatchEnabled(c, s, op)
    ensures Inv(c, DispatchStep(c, s, op))
  {
    DispatchKeepsNumbering(c, s, op);
    DispatchKeepsCounters(c, s, op);
    DispatchKeepsPanic(c, s, op);
    DispatchKeepsBridge(c, s, op);
    DispatchKeepsLedger(c, s, op);
    DispatchKeepsQuiet(c, s, op);
    DispatchKeepsReport(c, s, op);
    DispatchFrame(c, s, op);
    if op.AcquireSem? {
      LaunchKeepsFlow(c, s.p.ws, Worker(s.d.phase.idx, s.d.phase.item, Running), s.queue, s.k, s.lost);
    }
  }

  // ----------------------------------------------------------------- the workers

  /** A step in which worker `i` neither sends nor drops a result. */
  lemma AdvanceKeepsFlow<A, B>(c: Config<A, B>, ws: seq<Worker<A>>, i: nat, phase: WorkPhase,
    queue: seq<IndexedResult<B>>, k: Consumer<B>, lost: nat)
    requires i < |ws| && FlowInv(c, ws, queue, k, lost)
    requires Owes(ws[i]) == Owes(ws[i].(phase := phase))
    ensures FlowInv(c, Advance(ws, i, phase), queue, k, lost)
  {
    SumUpdate(ws, i, ws[i].(phase := phase), Owes);
  }

  lemma DropKeepsFlow<A, B>(c: Config<A, B>, ws: seq<Worker<A>>, i: nat,
    queue: seq<IndexedResult<B>>, k: Consumer<B>, lost: nat)
    requires i < |ws| && FlowInv(c, ws, queue, k, lost) && ws[i].phase.Sending?
    ensures FlowInv(c, Advance(ws, i, Releasing), queue, k, lost + 1)
  {
    SumUpdate(ws, i, ws[i].(phase := Releasing), Owes);
  }

  lemma SendKeepsFlow<A, B>(c: Config<A, B>, ws: seq<Worker<A>>, i: nat,
    queue: seq<IndexedResult<B>>, k: Consumer<B>, lost: nat)
    requires i < |ws| && i < |c.src| && FlowInv(c, ws, queue, k, lost)
    requires ws[i].phase.Sending? && |queue| < c.Capacity()
    ensures FlowInv(c, Advance(ws, i, Releasing), queue + [c.Result(i)], k, lost)
  {
    SumUpdate(ws, i, ws[i].(phase := Releasing), Owes);
  }

  lemma SendKeepsOrder<A, B>(c: Config<A, B>, ws: seq<Worker<A>>, i: nat,
    queue: seq<IndexedResult<B>>, k: Consumer<B>, lost: nat)
    requires i < |ws| && i < |c.src| && FlowInv(c, ws, queue, k, lost) && OrderInv(c, queue, k)
    requires ws[i].phase.Sending?
    ensures OrderInv(c, queue + [c.Result(i)], k)
  {
    assert (k.emitted + queue) + [c.Result(i)] == k.emitted + (queue + [c.Result(i)]);
    assert i in k.pending ==> Genuine(c, ws, k.pending[i]);
    assert c.ordered && i < |k.emitted| ==> Genuine(c, ws, k.emitted[i]);
  }

  /** A worker that can step was not waited for only if a panic left it behind. */
  lemma WorkKeepsCounters<A, B>(c: Config<A, B>, s: State<A, B>, i: nat, op: WorkOp)
    requires CountersInv(c, s.d, s.p) && WorkEnabled(c, s, i, op)
    ensures CountersInv(c, s.d, WorkStep(c, s, i, op).p)
    ensures s.d.phase.PastWait() ==> s.d.panicked
  {
    var w := WorkStep(c, s, i, op).p.ws[i];
    SumUpdate(s.p.ws, i, w, HoldsSem);
    SumUpdate(s.p.ws, i, w, HoldsWg);
    SumAtLeast(s.p.ws, i, HoldsWg);
  }

  lemma WorkKeepsFlow<A, B>(c: Config<A, B>, s: State<A, B>, i: nat, op: WorkOp)
    requires NumberingInv(c, s.d, s.p.ws) && FlowInv(c, s.p.ws, s.queue, s.k, s.lost) && OrderInv(c, s.queue, s.k)
    requires WorkEnabled(c, s, i, op)
    ensures var s' := WorkStep(c, s, i, op);
      FlowInv(c, s'.p.ws, s'.queue, s'.k, s'.lost) && OrderInv(c, s'.queue, s'.k)
  {
    match op
    case RunFn => AdvanceKeepsFlow(c, s.p.ws, i, Sending, s.queue, s.k, s.lost);
    case SendResult =>
      SendKeepsFlow(c, s.p.ws, i, s.queue, s.k, s.lost);
      SendKeepsOrder(c, s.p.ws, i, s.queue, s.k, s.lost);
    case SendOnClosed => DropKeepsFlow(c, s.p.ws, i, s.queue, s.k, s.lost);
    case DropResult => DropKeepsFlow(c, s.p.ws, i, s.queue, s.k, s.lost);
    case ReleaseSem => AdvanceKeepsFlow(c, s.p.ws, i, Signalling, s.queue, s.k, s.lost);
    case SignalWg => AdvanceKeepsFlow(c, s.p.ws, i, Gone, s.queue, s.k, s.lost);
  }

  /** What a worker's step leaves alone. */
  lemma WorkFrame<A, B>(c: Config<A, B>, s: State<A, B>, i: nat, op: WorkOp)
    requires WorkEnabled(c, s, i, op)
    ensures var s' := WorkStep(c, s, i, op);
      && s'.d == s.d && s'.x == s.x && s'.k == s.k && s'.tokens == s.tokens && s'.closed == s.closed
      && |s'.p.ws| == |s.p.ws|
      && (forall j :: 0 <= j < |s.p.ws| ==> s'.p.ws[j].idx == s.p.ws[j].idx && s'.p.ws[j].item == s.p.ws[j].item)
      && (s.closed ==> s'.queue == s.queue)
      && (s'.lost != s.lost ==> s.closed || s.x.RunDone())
      && (s'.crashed ==> s.crashed || s.closed)
  {
  }

  lemma WorkKeepsInv<A, B>(c: Config<A, B>, s: State<A, B>, i: nat, op: WorkOp)
    requires Inv(c, s) && WorkEnabled(c, s, i, op)
    ensures Inv(c, WorkStep(c, s, i, op))
  {
    WorkKeepsCounters(c, s, i, op);
    WorkKeepsFlow(c, s, i, op);
    WorkFrame(c, s, i, op);
    assert s.closed <==> s.d.phase.Finished?;
  }

  // ---------------------------------------------------- the bridge and contexts

  lemma BridgeKeepsInv<A, B>(c: Config<A, B>, s: State<A, B>, op: BridgeOp)
    requires Inv(c, s) && BridgeEnabled(s.x, op)
    ensures Inv(c, s.(x := BridgeStep(s.x, op)))
  {
  }

  lemma EnvKeepsInv<A, B>(c: Config<A, B>, s: State<A, B>, op: EnvOp)
    requires Inv(c, s)
    ensures Inv(c, s.(x := EnvStep(s.x, op)))
  {
  }

  // ---------------------------------------------------------------- the consumer

  lemma EmitKeepsFlow<A, B>(c: Config<A, B>, ws: seq<Worker<A>>, queue: seq<IndexedResult<B>>,
    k: Consumer<B>, lost: nat)
    requires FlowInv(c, ws, queue, k, lost) && HeadReady(c, k)
    ensures FlowInv(c, ws, queue, EmitHead(k), lost)
  {
    assert k.pending.Keys == EmitHead(k).pending.Keys + {k.nextIdx};
  }

  lemma EmitKeepsOrder<A, B>(c: Config<A, B>, queue: seq<IndexedResult<B>>, k: Consumer<B>)
    requires OrderInv(c, queue, k) && HeadReady(c, k) && k.pending[k.nextIdx].idx == k.nextIdx
    ensures OrderInv(c, queue, EmitHead(k))
  {
    var k' := EmitHead(k);
    forall j | 0 <= j < |queue| ensures k'.nextIdx <= queue[j].idx && queue[j].idx !in k'.pending {
      assert k.nextIdx <= queue[j].idx && queue[j].idx !in k.pending;
    }
  }

  lemma ReceiveKeepsFlow<A, B>(c: Config<A, B>, ws: seq<Worker<A>>, queue: seq<IndexedResult<B>>,
    k: Consumer<B>, lost: nat)
    requires FlowInv(c, ws, queue, k, lost) && queue != []
    requires c.ordered ==> queue[0].idx !in k.pending
    ensures FlowInv(c, ws, queue[1..], Accept(c, k, queue[0]), lost)
  {
    var r := queue[0];
    assert Genuine(c, ws, r);
    if c.ordered {
      assert Accept(c, k, r).pending.Keys == k.pending.Keys + {r.idx};
    }
  }

  lemma ReceiveKeepsOrder<A, B>(c: Config<A, B>, queue: seq<IndexedResult<B>>, k: Consumer<B>)
    requires OrderInv(c, queue, k) && queue != []
    ensures OrderInv(c, queue[1..], Accept(c, k, queue[0]))
  {
    if !c.ordered {
      assert k.emitted + queue == (k.emitted + [queue[0]]) + queue[1..];
    }
  }

  lemma EmitKeepsInv<A, B>(c: Config<A, B>, s: State<A, B>)
    requires Inv(c, s) && HeadReady(c, s.k) && s.tokens > 0
    ensures Inv(c, s.(k := EmitHead(s.k), tokens := s.tokens - 1))
  {
    assert Genuine(c, s.p.ws, s.k.pending[s.k.nextIdx]);
    EmitKeepsFlow(c, s.p.ws, s.queue, s.k, s.lost);
    EmitKeepsOrder(c, s.queue, s.k);
    NotedAppend(s.k.emitted, s.k.pending[s.k.nextIdx]);
    OwnNoted(s.k.errs, s.k.pending[s.k.nextIdx].res);
  }

  lemma ReceiveKeepsVerdict<A, B>(c: Config<A, B>, closed: bool, queue: seq<IndexedResult<B>>, k: Consumer<B>)
    requires ReturnInv(c, closed, queue, k) && ErrsInv(c, closed, queue, k) && queue != []
    ensures ReturnInv(c, closed, queue[1..], Accept(c, k, queue[0]))
    ensures ErrsInv(c, closed, queue[1..], Accept(c, k, queue[0]))
  {
    NotedAppend(k.emitted, queue[0]);
    OwnNoted(k.errs, queue[0].res);
  }

  lemma ReceiveKeepsInv<A, B>(c: Config<A, B>, s: State<A, B>)
    requires Inv(c, s) && ConsumeEnabled(c, s, Receive)
    ensures Inv(c, ConsumeStep(c, s, Receive))
  {
    ReceiveKeepsFlow(c, s.p.ws, s.queue, s.k, s.lost);
    ReceiveKeepsOrder(c, s.queue, s.k);
    ReceiveKeepsVerdict(c, s.closed, s.queue, s.k);
  }

  /** The steps that neither take a result in nor hand one out. */
  ghost predicate Turns<A, B>(c: Config<A, B>, s: State<A, B>, op: ConsumeOp) {
    ConsumeEnabled(c, s, op) && !op.Receive? && !op.EmitPending? && !(op.ReceiveClosed? && HeadReady(c, s.k))
  }

  /** Only the phase, the verdict and the recorded errors change. */
  lemma TurnKeepsReturn<A, B>(c: Config<A, B>, s: State<A, B>, op: ConsumeOp)
    requires ReturnInv(c, s.closed, s.queue, s.k) && Turns(c, s, op) && (!c.ordered ==> s.k.pending == map[])
    ensures var s' := ConsumeStep(c, s, op);
      && s' == s.(k := s.k.(phase := s'.k.phase, last := s'.k.last, errs := s'.k.errs))
      && (s'.k.phase.AtSelect? ==> !HeadReady(c, s.k))
      && ReturnInv(c, s'.closed, s'.queue, s'.k)
  {
  }

  lemma TurnKeepsErrs<A, B>(c: Config<A, B>, s: State<A, B>, op: ConsumeOp)
    requires ErrsInv(c, s.closed, s.queue, s.k) && Turns(c, s, op)
    ensures var s' := ConsumeStep(c, s, op); ErrsInv(c, s'.closed, s'.queue, s'.k)
  {
    match op
    case ReceiveClosed => OwnTwice(s.k.errs, GapErr);
    case ReceiveClosedFailed(i) => OwnNoted(s.k.errs, s.k.pending[i].res);
    case SeeCtxDone => OwnAppend(s.k.errs, CallErr);
    case _ =>
  }

  lemma SameResults<A, B>(c: Config<A, B>, ws: seq<Worker<A>>, queue: seq<IndexedResult<B>>,
    k: Consumer<B>, k': Consumer<B>, lost: nat)
    requires FlowInv(c, ws, queue, k, lost) && OrderInv(c, queue, k)
    requires k' == k.(phase := k'.phase, last := k'.last, errs := k'.errs)
    requires k'.phase.AtSelect? ==> !HeadReady(c, k)
    ensures FlowInv(c, ws, queue, k', lost) && OrderInv(c, queue, k')
  {
  }

  lemma TurnKeepsInv<A, B>(c: Config<A, B>, s: State<A, B>, op: ConsumeOp)
    requires Inv(c, s) && Turns(c, s, op)
    ensures Inv(c, ConsumeStep(c, s, op))
  {
    TurnKeepsReturn(c, s, op);
    TurnKeepsErrs(c, s, op);
    SameResults(c, s.p.ws, s.queue, s.k, ConsumeStep(c, s, op).k, s.lost);
  }

  lemma ConsumeKeepsInv<A, B>(c: Config<A, B>, s: State<A, B>, op: ConsumeOp)
    requires Inv(c, s) && ConsumeEnabled(c, s, op)
    ensures Inv(c, ConsumeStep(c, s, op))
  {
    if op.Receive? {
      ReceiveKeepsInv(c, s);
    } else if op.EmitPending? || (op.ReceiveClosed? && HeadReady(c, s.k)) {
      EmitKeepsInv(c, s);
    } else {
      TurnKeepsInv(c, s, op);
    }
  }

  lemma StepKeepsInv<A, B>(c: Config<A, B>, s: State<A, B>, a: Action)
    requires Inv(c, s) && Enabled(c, s, a)
    ensures Inv(c, Step(c, s, a))
  {
    match a
    case Dispatch(d) => DispatchKeepsInv(c, s, d);
    case Work(i, w) => WorkKeepsInv(c, s, i, w);
    case Bridge(b) => BridgeKeepsInv(c, s, b);
    case Consume(o) => ConsumeKeepsInv(c, s, o);
    case Environment(e) => EnvKeepsInv(c, s, e);
  }

  lemma {:induction false} RunKeepsInv<A, B>(c: Config<A, B>, s: State<A, B>, run: seq<Action>)
    requires Inv(c, s) && CanRun(c, s, run)
    ensures Inv(c, After(c, s, run))
    decreases |run|
  {
    if run != [] {
      StepKeepsInv(c, s, run[0]);
      RunKeepsInv(c, Step(c, s, run[0]), run[1..]);
    }
  }
}
