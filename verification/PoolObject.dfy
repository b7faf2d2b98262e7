/** The Pool struct. Its atomic operations and critical sections update the fields in place, and
    Submit, TrySubmit, Close and a worker's turn are put together from them. Between two of its
    operations a goroutine gives way to the others, which may take any steps. */
module PoolObject {
  import opened Counting
  import opened Options
  import opened Pool
  import opened PoolInvariant
  import opened PoolGuarantees

  class PoolCell {
    ghost const c: Config
    const queueSize: nat

    var queue: seq<nat>          // the task channel
    var channelClosed: bool
    var closed: bool
    var ctxDone: bool
    var wg: nat

    var submitted: nat
    var completed: nat
    var errored: nat
    var inFlight: nat
    var errs: seq<nat>

    // goroutines and history, which the object does not store
    ghost var calls: seq<Call>
    ghost var ws: seq<Worker>
    ghost var closers: seq<CloserPhase>
    ghost var h: History

    ghost function View(): State
      reads this
    {
      State(calls, ws, closers, Channel(queue, channelClosed), closed, ctxDone, wg,
            Counters(submitted, completed, errored, inFlight), errs, h)
    }

    /** The object is in a state that some run of the pool leads to. */
    ghost predicate Valid()
      reads this
    {
      queueSize == c.queueSize && Reachable(c, View())
    }

    constructor (ghost c: Config, workers: nat, queueSize: nat)
      requires workers == c.workers && queueSize == c.queueSize
      ensures this.c == c && Valid() && View() == Init(c)
    {
      this.c := c;
      this.queueSize := queueSize;
      queue, channelClosed, closed, ctxDone, wg := [], false, false, false, workers;
      submitted, completed, errored, inFlight, errs := 0, 0, 0, 0, [];
      calls, ws, closers, h := [], seq(c.workers, i => Idle), [], History([], [], []);
      new;
      assert CanRun(c, Init(c), []) && After(c, Init(c), []) == Init(c);
    }

    method BecomeGates(s: State)
      modifies this`queue, this`channelClosed, this`closed, this`ctxDone, this`wg
      ensures Channel(queue, channelClosed) == s.ch && closed == s.closedFlag && ctxDone == s.ctxDone && wg == s.wg
    {
      queue, channelClosed, closed, ctxDone, wg := s.ch.queue, s.ch.closed, s.closedFlag, s.ctxDone, s.wg;
    }

    method BecomeCounters(s: State)
      modifies this`submitted, this`completed, this`errored, this`inFlight, this`errs
      ensures Counters(submitted, completed, errored, inFlight) == s.n && errs == s.errs
    {
      submitted, completed, errored, inFlight := s.n.submitted, s.n.completed, s.n.errored, s.n.inFlight;
      errs := s.errs;
    }

    /** The other goroutines have led the pool to s. */
    method GiveWay(s: State)
      requires Valid() && Leads(c, View(), s)
      modifies this
      ensures Valid() && View() == s
    {
      ReachableLed(c, View(), s);
      BecomeGates(s);
      BecomeCounters(s);
      calls, ws, closers, h := s.calls, s.ws, s.closers, s.h;
    }

    // -------------------------------------------------------------------- submitting

    /** The closed check that opens Submit and TrySubmit. */
    method CheckClosed(ghost k: nat) returns (refused: bool)
      requires Valid() && CallEnabled(c, View(), k, Check)
      modifies this`calls
      ensures Valid() && refused == closed && View() == CallStep(c, old(View()), k, Check)
    {
      ReachableStep(c, View(), OfCall(k, Check));
      refused := closed;
      calls := calls[k := CallAfter(View(), k, Check)];
    }

    /** The select of Submit and TrySubmit with the case it picks: a send into the buffer or
        to a worker that waits, a send that panics on the closed channel and is recovered, a
        done context, or TrySubmit's default. */
    method Select(k: nat, pick: CallOp) returns (v: Verdict)
      requires Valid() && CallEnabled(c, View(), k, pick) && !pick.Check? && !pick.Bump?
      modifies this`calls, this`queue, this`ws, this`h
      ensures Valid() && View() == CallStep(c, old(View()), k, pick)
      ensures v.Accepted? <==> pick.Send? || pick.Handoff?
      ensures calls[k].phase == if v.Accepted? then Bumping else Returned(v)
      // a send puts the task last in the queue, or into the hands of a waiting worker
      ensures pick.Send? ==> queue == old(queue) + [k] && ws == old(ws)
      ensures pick.Handoff? ==> queue == old(queue) && ws == old(ws)[pick.w := Took(k)]
      // each other case has its verdict and its reason, and leaves queue and workers alone
      ensures !v.Accepted? ==> queue == old(queue) && ws == old(ws) && h == old(h)
      ensures pick.HitClosed? ==> v.PoolClosed? && channelClosed
      ensures pick.SeeCtx? ==> v.CtxErr? && ctxDone && !calls[k].try
      ensures pick.FindFull? ==> v.QueueFull? && calls[k].try && |queue| >= queueSize
    {
      ReachableStep(c, View(), OfCall(k, pick));
      calls := calls[k := CallAfter(View(), k, pick)];
      v := Accepted;
      match pick {
        case Send =>
          queue := queue + [k];
          h := h.(accepted := h.accepted + [k]);
        case Handoff(w) =>
          ws := ws[w := Took(k)];
          h := h.(accepted := h.accepted + [k], started := h.started + [k]);
        case HitClosed => v := PoolClosed;
        case SeeCtx => v := CtxErr;
        case FindFull => v := QueueFull;
      }
    }

    method BumpSubmitted(ghost k: nat)
      requires Valid() && CallEnabled(c, View(), k, Bump)
      modifies this`calls, this`submitted
      ensures Valid() && View() == CallStep(c, old(View()), k, Bump)
    {
      ReachableStep(c, View(), OfCall(k, Bump));
      calls := calls[k := CallAfter(View(), k, Bump)];
      submitted := submitted + 1;
    }

    /** Submit, or TrySubmit if the call is one: the others lead the pool to `before` while the
        call is on its way to its select, which picks `pick`, and to `after` between the send
        and the counter. The call reports acceptance iff its task entered the queue, and then
        the task is in exactly one place. */
    method Submit(k: nat, before: State, pick: CallOp, after: State) returns (v: Verdict)
      requires Valid() && k < |calls| && calls[k].phase.Checking?
      requires !closed ==>
        && CallYields(c, k, CallStep(c, View(), k, Check), before)
        && CallEnabled(c, before, k, pick) && !pick.Check? && !pick.Bump?
        && (pick.Send? || pick.Handoff? ==> CallYields(c, k, CallStep(c, before, k, pick), after))
      modifies this
      ensures Valid() && k < |calls| && calls[k].phase == Returned(v)
      ensures v.Accepted? <==> k in h.accepted
      ensures Occurs(queue, k) + Sum(ws, Holds(k)) + Occurs(h.finished, k) == if v.Accepted? then 1 else 0
      ensures old(closed) ==> v.PoolClosed?
      ensures v.PoolClosed? ==> closed
      ensures v.CtxErr? ==> ctxDone && !calls[k].try
      ensures v.QueueFull? ==> calls[k].try
    {
      var refused := CheckClosed(k);
      if refused {
        v := PoolClosed;
      } else {
        GiveWay(before);
        v := Select(k, pick);
        if v.Accepted? {
          GiveWay(after);
          BumpSubmitted(k);
        }
      }
      AcceptedIffQueued(c, View(), k);
      RefusalsHaveReasons(c, View(), k);
      NothingLostOrDoubled(c, View(), k);
    }

    // ----------------------------------------------------------------------- working

    /** One turn of the worker's range loop: take the next task, or leave. */
    method Next(ghost w: nat) returns (more: bool, k: nat)
      requires Valid() && w < |ws| && ws[w].Idle?
      requires queue != [] || channelClosed
      modifies this`queue, this`ws, this`wg, this`h
      ensures more == (old(queue) != []) && (more ==> k == old(queue)[0])
      ensures WorkEnabled(old(View()), w, if more then Receive else LeaveLoop)
      ensures Valid() && View() == WorkStep(c, old(View()), w, if more then Receive else LeaveLoop)
    {
      WorkerIsCounted(c, View(), w);
      ReachableStep(c, View(), OfWorker(w, if queue != [] then Receive else LeaveLoop));
      if queue != [] {
        more, k := true, queue[0];
        queue := queue[1..];
        h := h.(started := h.started + [k]);
        ws := ws[w := Took(k)];
      } else {
        more, k := false, 0;
        wg := wg - 1;
        ws := ws[w := Exited];
      }
    }

    method EnterRun(ghost w: nat)
      requires Valid() && WorkEnabled(View(), w, BeginRun)
      modifies this`inFlight, this`ws
      ensures Valid() && View() == WorkStep(c, old(View()), w, BeginRun)
    {
      ReachableStep(c, View(), OfWorker(w, BeginRun));
      inFlight := inFlight + 1;
      ws := ws[w := Running(ws[w].k)];
    }

    /** The function returns, with an error if it fails or panics. */
    method RunFunction(outcome: Outcome, ghost w: nat) returns (err: Option<nat>)
      requires Valid() && WorkEnabled(View(), w, EndRun) && outcome == c.outcome(ws[w].k)
      modifies this`ws
      ensures Valid() && View() == WorkStep(c, old(View()), w, EndRun)
      ensures err == if outcome.Succeeds? then None else Some(outcome.err)
    {
      ReachableStep(c, View(), OfWorker(w, EndRun));
      ws := ws[w := WorkAfter(c, View(), w, EndRun)];
      err := if outcome.Succeeds? then None else Some(outcome.err);
    }

    /** A failed or panicking task: counted, and its error kept for Close. */
    method RecordFailure(err: nat, ghost w: nat)
      requires Valid() && WorkEnabled(View(), w, RecordErr) && c.outcome(ws[w].k) == FailsWith(err)
      modifies this`errored, this`errs, this`ws
      ensures Valid() && View() == WorkStep(c, old(View()), w, RecordErr) && errs == old(errs) + [err]
    {
      ReachableStep(c, View(), OfWorker(w, RecordErr));
      errored := errored + 1;
      errs := errs + [err];
      ws := ws[w := Counting(ws[w].k)];
    }

    /** The deferred counter updates. */
    method LeaveRun(ghost w: nat)
      requires Valid() && w < |ws| && ws[w].Counting?
      modifies this`inFlight, this`completed, this`ws, this`h
      ensures WorkEnabled(old(View()), w, CountDone)
      ensures Valid() && View() == WorkStep(c, old(View()), w, CountDone)
    {
      WorkerIsCounted(c, View(), w);
      ReachableStep(c, View(), OfWorker(w, CountDone));
      inFlight := inFlight - 1;
      completed := completed + 1;
      h := h.(finished := h.finished + [ws[w].k]);
      ws := ws[w := Idle];
    }

    /** runTask: the others lead the pool to s2, s3 and s4 between its steps. The task has then
        finished once and is nowhere else, and an error of it is kept. */
    method RunTask(ghost k: nat, outcome: Outcome, ghost w: nat, s2: State, s3: State, s4: State)
      requires Valid() && w < |ws| && ws[w] == Took(k) && outcome == c.outcome(k)
      requires WorkerYields(c, w, WorkStep(c, View(), w, BeginRun), s2)
      requires WorkerYields(c, w, WorkStep(c, s2, w, EndRun), s3)
      requires if outcome.Succeeds? then s4 == s3 else WorkerYields(c, w, WorkStep(c, s3, w, RecordErr), s4)
      modifies this
      ensures Valid() && k in h.finished
      ensures outcome.FailsWith? ==> outcome.err in errs
    {
      EnterRun(w);
      GiveWay(s2);
      var err := RunFunction(outcome, w);
      GiveWay(s3);
      if err.Some? {
        RecordFailure(err.value, w);
        YieldKeepsErrors(c, w, View(), s4);
        assert errs[|errs| - 1] == err.value && s4.errs[|errs| - 1] == err.value;
        GiveWay(s4);
      }
      LeaveRun(w);
    }

    /** A worker takes the oldest task and runs it; s1 is where the others lead the pool before
        it starts. */
    method ServeOne(outcome: Outcome, ghost w: nat, s1: State, s2: State, s3: State, s4: State) returns (k: nat)
      requires Valid() && w < |ws| && ws[w].Idle? && queue != [] && outcome == c.outcome(queue[0])
      requires WorkerYields(c, w, WorkStep(c, View(), w, Receive), s1)
      requires WorkerYields(c, w, WorkStep(c, s1, w, BeginRun), s2)
      requires WorkerYields(c, w, WorkStep(c, s2, w, EndRun), s3)
      requires if outcome.Succeeds? then s4 == s3 else WorkerYields(c, w, WorkStep(c, s3, w, RecordErr), s4)
      modifies this
      ensures Valid() && k == old(queue)[0]
      ensures Occurs(h.finished, k) == 1 && Occurs(queue, k) == 0 && Sum(ws, Holds(k)) == 0
      ensures outcome.FailsWith? ==> outcome.err in errs
      ensures completed == |h.finished|
    {
      var more;
      more, k := Next(w);
      GiveWay(s1);
      RunTask(k, outcome, w, s2, s3, s4);
      FinishedIsSettled(c, View(), k);
    }

    // ----------------------------------------------------------------------- closing

    /** CompareAndSwap on the closed flag: only its winner goes on to close the channel. */
    method SwapClosed(ghost i: nat) returns (won: bool)
      requires Valid() && CloseEnabled(View(), i, Cas)
      modifies this`closed, this`closers
      ensures Valid() && won == !old(closed) && View() == CloseStep(old(View()), i, Cas)
    {
      ReachableStep(c, View(), OfClose(i, Cas));
      won := !closed;
      closed := true;
      closers := closers[i := if won then AtCloseChan else AtWait];
    }

    method CloseChannel(ghost i: nat)
      requires Valid() && CloseEnabled(View(), i, CloseChan)
      modifies this`channelClosed, this`closers
      ensures Valid() && View() == CloseStep(old(View()), i, CloseChan)
      ensures !old(channelClosed)
    {
      ClosedOnce(c, View(), i);
      ReachableStep(c, View(), OfClose(i, CloseChan));
      channelClosed := true;
      closers := closers[i := AtWait];
    }

    method WaitForWorkers(ghost i: nat)
      requires Valid() && CloseEnabled(View(), i, WaitWorkers)
      modifies this`closers
      ensures Valid() && View() == CloseStep(old(View()), i, WaitWorkers)
    {
      ReachableStep(c, View(), OfClose(i, WaitWorkers));
      closers := closers[i := AtCancel];
    }

    method CancelContext(ghost i: nat)
      requires Valid() && CloseEnabled(View(), i, CancelPool)
      modifies this`ctxDone, this`closers
      ensures Valid() && View() == CloseStep(old(View()), i, CancelPool)
    {
      ReachableStep(c, View(), OfClose(i, CancelPool));
      ctxDone := true;
      closers := closers[i := AtJoin];
    }

    method JoinErrors(ghost i: nat) returns (joined: seq<nat>)
      requires Valid() && CloseEnabled(View(), i, JoinErrs)
      modifies this`closers
      ensures Valid() && View() == CloseStep(old(View()), i, JoinErrs) && joined == errs
    {
      ReachableStep(c, View(), OfClose(i, JoinErrs));
      closers := closers[i := Done(errs)];
      joined := errs;
    }

    /** Close. The others lead the pool to s1 after the swap, to s2 until the workers have left,
        and to s3 and s4 before and after the context is cancelled. When it returns every
        accepted task has run exactly once, each error is joined as often as accepted tasks
        fail with it, and any other Close that has returned agrees. */
    method Close(ghost i: nat, s1: State, s2: State, s3: State, s4: State) returns (joined: seq<nat>)
      requires Valid() && c.workers > 0 && CloseEnabled(View(), i, Cas)
      requires CloserYields(c, i, CloseStep(View(), i, Cas), s1)
      requires CloserYields(c, i, if closed then s1 else CloseStep(s1, i, CloseChan), s2) && s2.wg == 0
      requires CloserYields(c, i, CloseStep(s2, i, WaitWorkers), s3)
      requires CloserYields(c, i, CloseStep(s3, i, CancelPool), s4)
      modifies this
      ensures Valid() && i < |closers| && closers[i] == Done(joined)
      ensures closed && channelClosed && ctxDone
      ensures queue == [] && inFlight == 0 && completed == |h.accepted|
      ensures multiset(h.finished) == multiset(h.accepted)
      ensures forall e :: Occurs(joined, e) == Sum(h.accepted, FailsWithError(c, e))
      ensures forall j :: 0 <= j < |closers| && closers[j].Done? ==> closers[j] == Done(joined)
    {
      var won := SwapClosed(i);
      GiveWay(s1);
      if won {
        CloseChannel(i);
      }
      GiveWay(s2);
      WaitForWorkers(i);
      GiveWay(s3);
      CancelContext(i);
      GiveWay(s4);
      joined := JoinErrors(i);
      CloseIsComplete(c, View(), i);
      forall j | 0 <= j < |closers| && closers[j].Done? ensures closers[j] == Done(joined) {
        ClosesAgree(c, View(), i, j);
      }
    }
  }
}
