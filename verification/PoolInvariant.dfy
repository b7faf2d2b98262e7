/** The inductive invariant of the worker pool: every step of every run keeps it. It has one
    component for each of the queue, the tasks at work, the counters and the closers; each is
    shown to survive the steps of submitters, workers and closers on its own. What the workers
    hold and owe is counted goroutine by goroutine. */
module PoolInvariant {
  import opened Counting
  import opened Pool

  ghost function HoldsWg(w: Worker): nat { if w.Exited? then 0 else 1 }

  ghost function Flying(w: Worker): nat {
    if w.Running? || w.Recording? || w.Counting? then 1 else 0
  }

  /** 1 if the worker has task k in hand. */
  ghost function Holds(k: nat): Worker -> nat {
    (w: Worker) => match w
      case Idle => 0
      case Exited => 0
      case Took(j) => if j == k then 1 else 0
      case Running(j) => if j == k then 1 else 0
      case Recording(j) => if j == k then 1 else 0
      case Counting(j) => if j == k then 1 else 0
  }

  /** 1 if task k fails with e. */
  ghost function FailsWithError(c: Config, e: nat): nat -> nat {
    (k: nat) => if c.outcome(k) == FailsWith(e) then 1 else 0
  }

  /** 1 if the worker's task fails with e and that is not recorded yet. */
  ghost function Owes(c: Config, e: nat): Worker -> nat {
    (w: Worker) =>
      if (w.Took? || w.Running? || w.Recording?) && c.outcome(w.k) == FailsWith(e) then 1 else 0
  }

  /** How often x occurs in xs. */
  ghost function Occurs(xs: seq<nat>, x: nat): nat {
    multiset(xs)[x]
  }

  ghost function InBump(call: Call): nat { if call.phase.Bumping? then 1 else 0 }

  ghost function InCloseChan(p: CloserPhase): nat { if p.AtCloseChan? then 1 else 0 }

  /** The call's task is in the channel, or was. */
  ghost predicate Entered(call: Call) {
    call.phase.Bumping? || call.phase == Returned(Accepted)
  }

  // --------------------------------------------------------------------- invariants

  /** Acceptance: a task entered the channel iff its call says so, and tasks leave in
      the order they entered. */
  ghost predicate QueueInv(c: Config, calls: seq<Call>, queue: seq<nat>, h: History) {
    && h.accepted == h.started + queue
    && |queue| <= c.queueSize
    && NoRepeats(h.accepted)
    && (forall k :: k in h.accepted ==> k < |calls|)
    && (forall k :: 0 <= k < |calls| ==> (Entered(calls[k]) <==> k in h.accepted))
  }

  /** Every started task is finished or in exactly one worker's hands. */
  ghost predicate HeldInv(ws: seq<Worker>, started: seq<nat>, finished: seq<nat>) {
    forall k :: Occurs(finished, k) + Sum(ws, Holds(k)) == Occurs(started, k)
  }

  /** Every started task's error is recorded or still owed by the worker holding it. */
  ghost predicate OwedInv(c: Config, ws: seq<Worker>, started: seq<nat>, errs: seq<nat>) {
    forall e :: Occurs(errs, e) + Sum(ws, Owes(c, e)) == Sum(started, FailsWithError(c, e))
  }

  ghost predicate WorkInv(c: Config, ws: seq<Worker>, h: History, errs: seq<nat>) {
    && |ws| == c.workers
    && HeldInv(ws, h.started, h.finished)
    && OwedInv(c, ws, h.started, errs)
    && (forall w :: 0 <= w < |ws| && ws[w].Recording? ==> c.outcome(ws[w].k).FailsWith?)
  }

  ghost predicate CountersInv(s: State) {
    && s.n.submitted + Sum(s.calls, InBump) == |s.h.accepted|
    && s.n.completed == |s.h.finished|
    && s.n.errored == |s.errs|
    && s.n.inFlight == Sum(s.ws, Flying)
    && s.wg == Sum(s.ws, HoldsWg)
  }

  /** The channel is closed once, after the flag; workers leave only a closed, empty channel. */
  ghost predicate CloseInv(s: State) {
    && Sum(s.closers, InCloseChan) + (if s.ch.closed then 1 else 0) == (if s.closedFlag then 1 else 0)
    && (forall w :: 0 <= w < |s.ws| && s.ws[w].Exited? ==> s.ch.closed && s.ch.queue == [])
    && (forall i :: 0 <= i < |s.closers| ==>
          && (!s.closers[i].AtCas? ==> s.closedFlag)
          && (s.closers[i].AtCancel? || s.closers[i].AtJoin? || s.closers[i].Done? ==> s.wg == 0)
          && (s.closers[i].AtJoin? || s.closers[i].Done? ==> s.ctxDone)
          && (s.closers[i].Done? ==> s.closers[i].errs == s.errs))
  }

  /** A refusal has its reason: a closed pool, a done context, or TrySubmit's default. */
  ghost predicate VerdictInv(calls: seq<Call>, closedFlag: bool, ctxDone: bool) {
    forall k :: 0 <= k < |calls| ==>
      && (calls[k].phase == Returned(PoolClosed) ==> closedFlag)
      && (calls[k].phase == Returned(CtxErr) ==> ctxDone && !calls[k].try)
      && (calls[k].phase == Returned(QueueFull) ==> calls[k].try)
  }

  ghost predicate Inv(c: Config, s: State) {
    && QueueInv(c, s.calls, s.ch.queue, s.h)
    && WorkInv(c, s.ws, s.h, s.errs)
    && CountersInv(s)
    && CloseInv(s)
    && VerdictInv(s.calls, s.closedFlag, s.ctxDone)
  }

  lemma InitInv(c: Config)
    ensures Inv(c, Init(c))
  {
    var ws := Init(c).ws;
    SumOfAll(ws, HoldsWg);
    SumOfNone(ws, Flying);
    forall k ensures Sum(ws, Holds(k)) == 0 {
      SumOfNone(ws, Holds(k));
    }
    forall e ensures Sum(ws, Owes(c, e)) == 0 {
      SumOfNone(ws, Owes(c, e));
    }
  }

  // --------------------------------------------------------------------------- calls

  /** A call whose task enters the channel. */
  lemma EnterKeepsQueue(c: Config, calls: seq<Call>, queue: seq<nat>, h: History, k: nat, queue': seq<nat>, h': History)
    requires QueueInv(c, calls, queue, h) && k < |calls| && calls[k].phase.Selecting?
    requires h'.accepted == h.accepted + [k] == h'.started + queue' && |queue'| <= c.queueSize
    ensures QueueInv(c, calls[k := calls[k].(phase := Bumping)], queue', h')
  {
    assert !Entered(calls[k]);
  }

  /** A call that moves on without its task entering. */
  lemma PassKeepsQueue(c: Config, calls: seq<Call>, queue: seq<nat>, h: History, k: nat, call: Call)
    requires QueueInv(c, calls, queue, h) && k < |calls| && Entered(call) == Entered(calls[k])
    ensures QueueInv(c, calls[k := call], queue, h)
  {
  }

  lemma CallKeepsQueue(c: Config, s: State, k: nat, op: CallOp)
    requires QueueInv(c, s.calls, s.ch.queue, s.h) && CallEnabled(c, s, k, op)
    ensures var s' := CallStep(c, s, k, op); QueueInv(c, s'.calls, s'.ch.queue, s'.h)
  {
    var s' := CallStep(c, s, k, op);
    if op.Send? || op.Handoff? {
      assert (s.h.started + s.ch.queue) + [k] == s.h.started + (s.ch.queue + [k]);
      EnterKeepsQueue(c, s.calls, s.ch.queue, s.h, k, s'.ch.queue, s'.h);
    } else {
      PassKeepsQueue(c, s.calls, s.ch.queue, s.h, k, CallAfter(s, k, op));
    }
  }

  lemma OccursAppend(xs: seq<nat>, y: nat, x: nat)
    ensures Occurs(xs + [y], x) == Occurs(xs, x) + (if x == y then 1 else 0)
  {
  }

  lemma HandKeepsHeld(ws: seq<Worker>, started: seq<nat>, finished: seq<nat>, w: nat, k: nat)
    requires HeldInv(ws, started, finished) && w < |ws| && ws[w].Idle?
    ensures HeldInv(ws[w := Took(k)], started + [k], finished)
  {
    forall x ensures Occurs(finished, x) + Sum(ws[w := Took(k)], Holds(x)) == Occurs(started + [k], x) {
      SumUpdate(ws, w, Took(k), Holds(x));
      OccursAppend(started, k, x);
    }
  }

  lemma HandKeepsOwed(c: Config, ws: seq<Worker>, started: seq<nat>, errs: seq<nat>, w: nat, k: nat)
    requires OwedInv(c, ws, started, errs) && w < |ws| && ws[w].Idle?
    ensures OwedInv(c, ws[w := Took(k)], started + [k], errs)
  {
    forall e ensures Occurs(errs, e) + Sum(ws[w := Took(k)], Owes(c, e)) == Sum(started + [k], FailsWithError(c, e)) {
      SumUpdate(ws, w, Took(k), Owes(c, e));
      SumAppend(started, k, FailsWithError(c, e));
    }
  }

  /** An idle worker taking up task k. */
  lemma HandKeepsWork(c: Config, ws: seq<Worker>, h: History, errs: seq<nat>, w: nat, k: nat)
    requires WorkInv(c, ws, h, errs) && w < |ws| && ws[w].Idle?
    ensures WorkInv(c, ws[w := Took(k)], h.(started := h.started + [k]), errs)
  {
    HandKeepsHeld(ws, h.started, h.finished, w, k);
    HandKeepsOwed(c, ws, h.started, errs, w, k);
  }

  lemma CallKeepsWork(c: Config, s: State, k: nat, op: CallOp)
    requires WorkInv(c, s.ws, s.h, s.errs) && CallEnabled(c, s, k, op)
    ensures var s' := CallStep(c, s, k, op); WorkInv(c, s'.ws, s'.h, s'.errs)
  {
    if op.Handoff? {
      HandKeepsWork(c, s.ws, s.h, s.errs, op.w, k);
      var h := s.h.(started := s.h.started + [k]);
      assert CallStep(c, s, k, op).h == h.(accepted := s.h.accepted + [k]);
    }
  }

  lemma CallKeepsCounters(c: Config, s: State, k: nat, op: CallOp)
    requires CountersInv(s) && CallEnabled(c, s, k, op)
    ensures CountersInv(CallStep(c, s, k, op))
  {
    SumUpdate(s.calls, k, CallAfter(s, k, op), InBump);
    if op.Handoff? {
      SumUpdate(s.ws, op.w, Took(k), Flying);
      SumUpdate(s.ws, op.w, Took(k), HoldsWg);
    }
  }

  lemma CallKeepsClose(c: Config, s: State, k: nat, op: CallOp)
    requires CloseInv(s) && CallEnabled(c, s, k, op)
    ensures CloseInv(CallStep(c, s, k, op))
  {
  }

  lemma CallKeepsVerdicts(c: Config, s: State, k: nat, op: CallOp)
    requires VerdictInv(s.calls, s.closedFlag, s.ctxDone) && CloseInv(s) && CallEnabled(c, s, k, op)
    ensures var s' := CallStep(c, s, k, op); VerdictInv(s'.calls, s'.closedFlag, s'.ctxDone)
  {
    assert s.ch.closed ==> s.closedFlag;
  }

  lemma CallKeepsInv(c: Config, s: State, k: nat, op: CallOp)
    requires Inv(c, s) && CallEnabled(c, s, k, op)
    ensures Inv(c, CallStep(c, s, k, op))
  {
    CallKeepsQueue(c, s, k, op);
    CallKeepsWork(c, s, k, op);
    CallKeepsCounters(c, s, k, op);
    CallKeepsClose(c, s, k, op);
    CallKeepsVerdicts(c, s, k, op);
  }

  // ------------------------------------------------------------------------- workers

  lemma WorkKeepsQueue(c: Config, s: State, w: nat, op: WorkOp)
    requires QueueInv(c, s.calls, s.ch.queue, s.h) && WorkEnabled(s, w, op)
    ensures var s' := WorkStep(c, s, w, op); QueueInv(c, s'.calls, s'.ch.queue, s'.h)
  {
    if op.Receive? {
      assert s.h.started + s.ch.queue == (s.h.started + [s.ch.queue[0]]) + s.ch.queue[1..];
    }
  }

  /** A worker moving on with the task it holds. */
  lemma SameHeld(ws: seq<Worker>, started: seq<nat>, finished: seq<nat>, w: nat, w': Worker)
    requires HeldInv(ws, started, finished) && w < |ws|
    requires forall k :: Holds(k)(w') == Holds(k)(ws[w])
    ensures HeldInv(ws[w := w'], started, finished)
  {
    forall k ensures Occurs(finished, k) + Sum(ws[w := w'], Holds(k)) == Occurs(started, k) {
      SumUpdate(ws, w, w', Holds(k));
    }
  }

  lemma SameOwed(c: Config, ws: seq<Worker>, started: seq<nat>, errs: seq<nat>, w: nat, w': Worker)
    requires OwedInv(c, ws, started, errs) && w < |ws|
    requires forall e :: Owes(c, e)(w') == Owes(c, e)(ws[w])
    ensures OwedInv(c, ws[w := w'], started, errs)
  {
    forall e ensures Occurs(errs, e) + Sum(ws[w := w'], Owes(c, e)) == Sum(started, FailsWithError(c, e)) {
      SumUpdate(ws, w, w', Owes(c, e));
    }
  }

  lemma RecordKeepsOwed(c: Config, ws: seq<Worker>, started: seq<nat>, errs: seq<nat>, w: nat)
    requires OwedInv(c, ws, started, errs) && w < |ws| && ws[w].Recording?
    requires c.outcome(ws[w].k).FailsWith?
    ensures OwedInv(c, ws[w := Counting(ws[w].k)], started, errs + ErrorOf(c, ws[w].k))
  {
    var w', y := Counting(ws[w].k), c.outcome(ws[w].k).err;
    forall e ensures Occurs(errs + [y], e) + Sum(ws[w := w'], Owes(c, e)) == Sum(started, FailsWithError(c, e)) {
      SumUpdate(ws, w, w', Owes(c, e));
      OccursAppend(errs, y, e);
    }
  }

  lemma CountKeepsHeld(ws: seq<Worker>, started: seq<nat>, finished: seq<nat>, w: nat)
    requires HeldInv(ws, started, finished) && w < |ws| && ws[w].Counting?
    ensures HeldInv(ws[w := Idle], started, finished + [ws[w].k])
  {
    forall k ensures Occurs(finished + [ws[w].k], k) + Sum(ws[w := Idle], Holds(k)) == Occurs(started, k) {
      SumUpdate(ws, w, Idle, Holds(k));
      OccursAppend(finished, ws[w].k, k);
    }
  }

  lemma WorkFrame(c: Config, s: State, w: nat, op: WorkOp)
    requires WorkEnabled(s, w, op)
    ensures var s' := WorkStep(c, s, w, op);
      && s'.ws == s.ws[w := WorkAfter(c, s, w, op)]
      && s'.h.started == (if op.Receive? then s.h.started + [s.ch.queue[0]] else s.h.started)
      && s'.h.finished == (if op.CountDone? then s.h.finished + [s.ws[w].k] else s.h.finished)
      && s'.errs == (if op.RecordErr? then s.errs + ErrorOf(c, s.ws[w].k) else s.errs)
  {
  }

  lemma WorkKeepsHeld(c: Config, s: State, w: nat, op: WorkOp)
    requires HeldInv(s.ws, s.h.started, s.h.finished) && WorkEnabled(s, w, op)
    ensures var s' := WorkStep(c, s, w, op); HeldInv(s'.ws, s'.h.started, s'.h.finished)
  {
    WorkFrame(c, s, w, op);
    match op
    case Receive => HandKeepsHeld(s.ws, s.h.started, s.h.finished, w, s.ch.queue[0]);
    case CountDone => CountKeepsHeld(s.ws, s.h.started, s.h.finished, w);
    case _ => SameHeld(s.ws, s.h.started, s.h.finished, w, WorkAfter(c, s, w, op));
  }

  lemma WorkKeepsOwed(c: Config, s: State, w: nat, op: WorkOp)
    requires OwedInv(c, s.ws, s.h.started, s.errs) && WorkEnabled(s, w, op)
    requires s.ws[w].Recording? ==> c.outcome(s.ws[w].k).FailsWith?
    ensures var s' := WorkStep(c, s, w, op); OwedInv(c, s'.ws, s'.h.started, s'.errs)
  {
    WorkFrame(c, s, w, op);
    match op
    case Receive => HandKeepsOwed(c, s.ws, s.h.started, s.errs, w, s.ch.queue[0]);
    case RecordErr => RecordKeepsOwed(c, s.ws, s.h.started, s.errs, w);
    case _ => SameOwed(c, s.ws, s.h.started, s.errs, w, WorkAfter(c, s, w, op));
  }

  lemma WorkKeepsWork(c: Config, s: State, w: nat, op: WorkOp)
    requires WorkInv(c, s.ws, s.h, s.errs) && WorkEnabled(s, w, op)
    ensures var s' := WorkStep(c, s, w, op); WorkInv(c, s'.ws, s'.h, s'.errs)
  {
    WorkKeepsHeld(c, s, w, op);
    WorkKeepsOwed(c, s, w, op);
  }

  lemma WorkKeepsCounters(c: Config, s: State, w: nat, op: WorkOp)
    requires CountersInv(s) && WorkInv(c, s.ws, s.h, s.errs) && WorkEnabled(s, w, op)
    ensures CountersInv(WorkStep(c, s, w, op))
  {
    SumUpdate(s.ws, w, WorkAfter(c, s, w, op), Flying);
    SumUpdate(s.ws, w, WorkAfter(c, s, w, op), HoldsWg);
  }

  /** A worker that steps holds the wait group, so no Close is past its wait. */
  lemma WorkKeepsClose(c: Config, s: State, w: nat, op: WorkOp)
    requires CloseInv(s) && s.wg == Sum(s.ws, HoldsWg) && WorkEnabled(s, w, op)
    ensures CloseInv(WorkStep(c, s, w, op))
  {
    SumAtLeast(s.ws, w, HoldsWg);
  }

  lemma WorkKeepsInv(c: Config, s: State, w: nat, op: WorkOp)
    requires Inv(c, s) && WorkEnabled(s, w, op)
    ensures Inv(c, WorkStep(c, s, w, op))
  {
    WorkKeepsQueue(c, s, w, op);
    WorkKeepsWork(c, s, w, op);
    WorkKeepsCounters(c, s, w, op);
    WorkKeepsClose(c, s, w, op);
  }

  // -------------------------------------------------------------------- close and runs

  lemma CloseKeepsInv(c: Config, s: State, i: nat, op: CloseOp)
    requires Inv(c, s) && CloseEnabled(s, i, op)
    ensures Inv(c, CloseStep(s, i, op))
  {
    SumUpdate(s.closers, i, CloseStep(s, i, op).closers[i], InCloseChan);
    SumAtLeast(s.closers, i, InCloseChan);
  }

  lemma NewCallKeepsInv(c: Config, s: State, try: bool)
    requires Inv(c, s)
    ensures Inv(c, Step(c, s, NewCall(try)))
  {
    SumAppend(s.calls, Call(try, Checking), InBump);
  }

  lemma NewCloseKeepsInv(c: Config, s: State)
    requires Inv(c, s)
    ensures Inv(c, Step(c, s, NewClose))
  {
    SumAppend(s.closers, AtCas, InCloseChan);
  }

  lemma StepKeepsInv(c: Config, s: State, a: Action)
    requires Inv(c, s) && Enabled(c, s, a)
    ensures Inv(c, Step(c, s, a))
  {
    match a
    case NewCall(try) => NewCallKeepsInv(c, s, try);
    case OfCall(k, op) => CallKeepsInv(c, s, k, op);
    case OfWorker(w, op) => WorkKeepsInv(c, s, w, op);
    case NewClose => NewCloseKeepsInv(c, s);
    case OfClose(i, op) => CloseKeepsInv(c, s, i, op);
    case CancelOutside => assert Step(c, s, a) == s.(ctxDone := true);
  }

  lemma {:induction false} RunKeepsInv(c: Config, s: State, run: seq<Action>)
    requires Inv(c, s) && CanRun(c, s, run)
    ensures Inv(c, After(c, s, run))
    decreases |run|
  {
    if run != [] {
      StepKeepsInv(c, s, run[0]);
      RunKeepsInv(c, Step(c, s, run[0]), run[1..]);
    }
  }
}
