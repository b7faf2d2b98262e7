/** ForEachSlice and MapSlice as task bodies that run inside a scope, and the inductive invariant
    of the two together: which items have been taken, what stands in their entries, and what
    each task body has made of its stride. The strided worker path and the per-item path are the
    same stride with a different step. Each part of the invariant is shown to survive launches,
    items, returns and the scope's own steps. */
module SliceMachine {
  import opened Division
  import opened TaskErrors
  import opened Scope
  import opened ScopeInvariant
  import opened ScopeGuarantees

  // --------------------------------------------------------------- choosing the path

  /** The fast path needs a limit, fail-fast and no observability. */
  predicate ShouldUseWorkerFastPath(cfg: Config, hooks: bool, itemCount: nat) {
    itemCount != 0 && cfg.limit > 0 && cfg.policy.FailFast? && !hooks && !cfg.track
  }

  function WorkerCount(limit: nat, itemCount: nat): (w: nat)
    ensures itemCount > 0 ==> 1 <= w <= itemCount
    ensures 0 < limit ==> w <= limit
    ensures w == itemCount || (0 < limit && w == limit < itemCount)
  {
    if limit <= 0 || limit > itemCount then itemCount else limit
  }

  // ---------------------------------------------------------------------- the machine

  /** What the callback does with one item. */
  datatype Outcome<+R> = Value(v: R) | Fails(e: Error) | Panics(p: Error)

  datatype ItemResult<+R> = Unset | Val(v: R) | Err(e: Error)

  /** `mapping` tells MapSlice from ForEachSlice; `hooks` whether any hook is installed. */
  datatype Job<!T, R> = Job(cfg: Config, hooks: bool, mapping: bool, items: seq<T>, fn: T -> Outcome<R>)
  {
    /** A failure carries a non-nil error. */
    ghost predicate Valid() {
      forall i :: 0 <= i < |items| && fn(items[i]).Fails? ==> !fn(items[i]).e.Nil?
    }

    predicate Fast() { ShouldUseWorkerFastPath(cfg, hooks, |items|) }

    /** The number of tasks, which is also the stride. */
    function Tasks(): (w: nat)
      ensures |items| > 0 ==> w > 0
      ensures Fast() ==> w <= cfg.limit
    {
      if Fast() then WorkerCount(cfg.limit, |items|) else |items|
    }

    /** Per-item failures of a collecting MapSlice stay in the results. */
    predicate Captures() { mapping && cfg.policy.Collect? }

    function At(i: nat): Outcome<R>
      requires i < |items|
    {
      fn(items[i])
    }
  }

  /** `pos[t]` is the next index task t will take, and `checked[t]` says that a worker has found
      ctx.Err() nil in front of it; `calls[i]` counts calls of fn on item i. */
  datatype Slices<R> = Slices(
    sc: Scope.State, pos: seq<nat>, checked: seq<bool>, calls: seq<nat>, results: seq<ItemResult<R>>)

  ghost function Start<T, R>(job: Job<T, R>): Slices<R> {
    Slices(Scope.Init(), [], [], seq(|job.items|, i => 0), seq(|job.items|, i => Unset))
  }

  datatype Action =
    | Launch                    // the calling goroutine spawns the next task
    | Inner(a: Scope.Action)    // a step of the scope around the bodies
    | Check(t: nat)             // a worker finds ctx.Err() nil in front of its next item
    | SeeCancel(t: nat)         // or finds it set, and returns nil
    | Item(t: nat)              // fn runs on the task's next item
    | End(t: nat)               // the task's items are used up

  ghost predicate BodyRunning<T, R>(job: Job<T, R>, s: Slices<R>, t: nat) {
    t < |s.pos| && t < |s.sc.tasks| && s.sc.tasks[t].phase.Running?
  }

  /** A worker of the fast path looks at its context before every item. */
  ghost predicate AtCtxCheck<T, R>(job: Job<T, R>, s: Slices<R>, t: nat) {
    BodyRunning(job, s, t) && job.Fast() && s.pos[t] < |job.items| && t < |s.checked| && !s.checked[t]
  }

  ghost predicate Enabled<T, R>(job: Job<T, R>, s: Slices<R>, a: Action) {
    match a
    case Launch => |s.pos| < job.Tasks() && s.sc.g.rootOpen
    case Inner(b) =>
      && Scope.Enabled(job.cfg, s.sc, b)
      && !b.Begin? && !(b.OfTask? && b.op.Finish?)
      && (b == Finalize(CloseRoot) ==> |s.pos| == job.Tasks())
    case Check(t) => AtCtxCheck(job, s, t) && s.sc.ctx.None?
    case SeeCancel(t) => AtCtxCheck(job, s, t) && s.sc.ctx.Some?
    case Item(t) =>
      && BodyRunning(job, s, t) && (job.Fast() ==> t < |s.checked| && s.checked[t])
      && s.pos[t] < |job.items| && s.pos[t] < |s.calls| && s.pos[t] < |s.results|
    case End(t) => BodyRunning(job, s, t) && s.pos[t] >= |job.items|
  }

  ghost function Finished<T, R>(job: Job<T, R>, s: Slices<R>, t: nat, r: Result): Scope.State
    requires BodyRunning(job, s, t) && !r.NotRun?
  {
    TaskStep(job.cfg, s.sc, t, Finish(r))
  }

  /** What item i leaves in the results. */
  function Stored<R>(o: Outcome<R>): ItemResult<R> {
    match o
    case Value(v) => Val(v)
    case Fails(e) => Err(e)
    case Panics(_) => Unset
  }

  ghost function ItemStep<T, R>(job: Job<T, R>, s: Slices<R>, t: nat): Slices<R>
    requires Enabled(job, s, Item(t))
  {
    var i := s.pos[t];
    var o := job.At(i);
    var sc := match o
      case Value(_) => s.sc
      case Fails(e) => Finished(job, s, t, Returned(if job.Captures() then Nil else e))
      case Panics(p) => Finished(job, s, t, Panicked(p));
    Slices(sc, s.pos[t := i + job.Tasks()], if job.Fast() then s.checked[t := false] else s.checked,
           s.calls[i := s.calls[i] + 1], s.results[i := Stored(o)])
  }

  ghost function Step<T, R>(job: Job<T, R>, s: Slices<R>, a: Action): Slices<R>
    requires Enabled(job, s, a)
  {
    match a
    case Launch => s.(sc := BeginStep(s.sc, Root, false, ""), pos := s.pos + [|s.pos|], checked := s.checked + [false])
    case Inner(b) => s.(sc := Scope.Step(job.cfg, s.sc, b))
    case Check(t) => s.(checked := s.checked[t := true])
    case SeeCancel(t) => s.(sc := Finished(job, s, t, Returned(Nil)))
    case Item(t) => ItemStep(job, s, t)
    case End(t) => s.(sc := Finished(job, s, t, Returned(Nil)))
  }

  ghost predicate CanRun<T, R>(job: Job<T, R>, s: Slices<R>, run: seq<Action>)
    decreases |run|
  {
    run == [] || (Enabled(job, s, run[0]) && CanRun(job, Step(job, s, run[0]), run[1..]))
  }

  ghost function After<T, R>(job: Job<T, R>, s: Slices<R>, run: seq<Action>): Slices<R>
    requires CanRun(job, s, run)
    decreases |run|
  {
    if run == [] then s else After(job, Step(job, s, run[0]), run[1..])
  }

  // ------------------------------------------------------------------------- invariant

  /** Item i has been taken by its task, the one with index i mod stride. */
  ghost predicate Taken<T, R>(job: Job<T, R>, pos: seq<nat>, i: nat)
    requires i < |job.items|
  {
    var t := i % job.Tasks();
    t < |pos| && i < pos[t]
  }

  ghost predicate PosInv<T, R>(job: Job<T, R>, pos: seq<nat>) {
    && |pos| <= job.Tasks()
    && forall t :: 0 <= t < |pos| ==> pos[t] >= t && pos[t] % job.Tasks() == t
  }

  /** Every taken item was processed exactly once, the others not at all. */
  ghost predicate ItemsInv<T, R>(job: Job<T, R>, s: Slices<R>) {
    && |s.calls| == |s.results| == |job.items|
    && forall i :: 0 <= i < |job.items| ==>
         if Taken(job, s.pos, i) then s.calls[i] == 1 && s.results[i] == Stored(job.At(i))
         else s.calls[i] == 0 && s.results[i] == Unset
  }

  /** Item i cannot make its task fail. */
  ghost predicate Harmless<T, R>(job: Job<T, R>, i: nat)
    requires i < |job.items|
  {
    job.At(i).Value? || (job.Captures() && job.At(i).Fails?)
  }

  /** The result a body has after item p: none yet, or what a failure makes of it. */
  function ResultAfter<T, R>(job: Job<T, R>, p: nat): Result
    requires p < |job.items|
  {
    match job.At(p)
    case Value(_) => NotRun
    case Fails(e) => Returned(if job.Captures() then Nil else e)
    case Panics(q) => Panicked(q)
  }

  /** Task t, with next index p, has failed on item i. */
  ghost predicate FailedOn<T, R>(job: Job<T, R>, t: nat, p: nat, r: Result, i: nat) {
    i < |job.items| && i < p && i % job.Tasks() == t && !Harmless(job, i) && r == ResultAfter(job, i)
  }

  /** A task that has not failed met only harmless items, a task that returned nil took
      them all unless, on the fast path, it saw the cancellation, and a failed task's result is that of a harmful
      item it took. */
  ghost predicate BodyInv<T, R>(job: Job<T, R>, t: nat, p: nat, task: Task, seen: bool) {
    var r := task.result;
    && (r.NotRun? || r == Returned(Nil) ==>
          forall i :: 0 <= i < |job.items| && i < p && i % job.Tasks() == t ==> Harmless(job, i))
    && (r == Returned(Nil) ==> p >= |job.items| || (seen && job.Fast()))
    && (!r.NotRun? && r != Returned(Nil) ==> exists i :: FailedOn(job, t, p, r, i))
  }

  ghost predicate BodiesInv<T, R>(job: Job<T, R>, pos: seq<nat>, sc: Scope.State) {
    && |pos| == |sc.tasks|
    && (!sc.g.rootOpen ==> |pos| == job.Tasks())
    && (forall t :: 0 <= t < |pos| ==>
          !sc.tasks[t].nested && BodyInv(job, t, pos[t], sc.tasks[t], SeenCancelled(sc.ctx, sc.f)))
  }

  ghost predicate Inv<T, R>(job: Job<T, R>, s: Slices<R>) {
    && ScopeGuarantees.Reachable(job.cfg, s.sc)
    && PosInv(job, s.pos) && |s.checked| == |s.pos|
    && ItemsInv(job, s)
    && BodiesInv(job, s.pos, s.sc)
  }

  lemma StartInv<T, R>(job: Job<T, R>)
    ensures Inv(job, Start(job))
  {
    assert Scope.CanRun(job.cfg, Scope.Init(), []);
    assert Scope.After(job.cfg, Scope.Init(), []) == Scope.Init();
  }

  lemma OnlyOneTaskMoves(cfg: Config, sc: Scope.State, i: nat, op: TaskOp)
    requires TaskEnabled(cfg, sc, i, op)
    ensures var t' := TaskAfter(cfg, sc, i, op);
      t'.nested == sc.tasks[i].nested && (!op.Finish? ==> t'.result == sc.tasks[i].result)
    ensures TaskStep(cfg, sc, i, op).g.rootOpen == sc.g.rootOpen
    ensures op.Finish? ==> TaskAfter(cfg, sc, i, op).result == op.r
  {
  }

  /** A step of the scope that neither begins nor finishes a task keeps every task's
      result and never forgets a cancellation. */
  lemma InnerFrame(cfg: Config, sc: Scope.State, b: Scope.Action)
    requires Scope.Enabled(cfg, sc, b) && !b.Begin? && !(b.OfTask? && b.op.Finish?)
    ensures var sc' := Scope.Step(cfg, sc, b);
      && |sc'.tasks| == |sc.tasks|
      && (forall t :: 0 <= t < |sc.tasks| ==>
            sc'.tasks[t].result == sc.tasks[t].result && sc'.tasks[t].nested == sc.tasks[t].nested)
      && (SeenCancelled(sc.ctx, sc.f) ==> SeenCancelled(sc'.ctx, sc'.f))
      && (!sc'.g.rootOpen ==> !sc.g.rootOpen || b == Finalize(CloseRoot))
  {
    if b.OfTask? {
      TaskFrame(cfg, sc, b.i, b.op);
      OnlyOneTaskMoves(cfg, sc, b.i, b.op);
    }
  }

  lemma InnerKeepsInv<T, R>(job: Job<T, R>, s: Slices<R>, b: Scope.Action)
    requires Inv(job, s) && Enabled(job, s, Inner(b))
    ensures Inv(job, Step(job, s, Inner(b)))
  {
    InnerFrame(job.cfg, s.sc, b);
    ScopeGuarantees.ReachableStep(job.cfg, s.sc, b);
  }

  /** Finishing task t replaces its result and leaves the other bodies' facts in place. */
  lemma FinishKeepsBodies<T, R>(job: Job<T, R>, s: Slices<R>, pos: seq<nat>, t: nat, r: Result)
    requires BodiesInv(job, s.pos, s.sc) && BodyRunning(job, s, t) && !r.NotRun?
    requires |pos| == |s.pos| && forall u :: 0 <= u < |pos| && u != t ==> pos[u] == s.pos[u]
    requires BodyInv(job, t, pos[t], s.sc.tasks[t].(result := r), SeenCancelled(s.sc.ctx, s.sc.f))
    ensures BodiesInv(job, pos, Finished(job, s, t, r))
  {
    TaskFrame(job.cfg, s.sc, t, Finish(r));
    OnlyOneTaskMoves(job.cfg, s.sc, t, Finish(r));
    var sc' := Finished(job, s, t, r);
    assert SeenCancelled(s.sc.ctx, s.sc.f) ==> SeenCancelled(sc'.ctx, sc'.f);
  }

  lemma LaunchTakesNothing<T, R>(job: Job<T, R>, pos: seq<nat>, i: nat)
    requires i < |job.items| && |pos| < job.Tasks()
    ensures Taken(job, pos + [|pos|], i) == Taken(job, pos, i)
  {
    ModAtMost(i, job.Tasks());
  }

  lemma LaunchKeepsPos<T, R>(job: Job<T, R>, pos: seq<nat>)
    requires PosInv(job, pos) && |pos| < job.Tasks()
    ensures PosInv(job, pos + [|pos|])
  {
    DivMod(|pos|, 0, |pos|, job.Tasks());
  }

  lemma LaunchKeepsItems<T, R>(job: Job<T, R>, s: Slices<R>, pos: seq<nat>)
    requires ItemsInv(job, s) && |s.pos| < job.Tasks() && pos == s.pos + [|s.pos|]
    ensures ItemsInv(job, s.(pos := pos))
  {
    forall i | 0 <= i < |job.items| ensures Taken(job, pos, i) == Taken(job, s.pos, i) {
      LaunchTakesNothing(job, s.pos, i);
    }
  }

  lemma LaunchKeepsBodies<T, R>(job: Job<T, R>, pos: seq<nat>, sc: Scope.State)
    requires BodiesInv(job, pos, sc) && sc.g.rootOpen && |pos| < job.Tasks()
    ensures BodiesInv(job, pos + [|pos|], BeginStep(sc, Root, false, ""))
  {
    var n := |pos|;
    forall i | 0 <= i < |job.items| && i < n ensures i % job.Tasks() != n {
      DivMod(i, 0, i, job.Tasks());
    }
  }

  lemma LaunchKeepsInv<T, R>(job: Job<T, R>, s: Slices<R>)
    requires Inv(job, s) && Enabled(job, s, Launch)
    ensures Inv(job, Step(job, s, Launch))
  {
    ScopeGuarantees.ReachableStep(job.cfg, s.sc, Begin(Root, false, ""));
    LaunchKeepsPos(job, s.pos);
    LaunchKeepsItems(job, s, s.pos + [|s.pos|]);
    LaunchKeepsBodies(job, s.pos, s.sc);
  }

  lemma ItemKeepsItems<T, R>(job: Job<T, R>, s: Slices<R>, t: nat)
    requires PosInv(job, s.pos) && ItemsInv(job, s) && Enabled(job, s, Item(t))
    ensures var s' := ItemStep(job, s, t); PosInv(job, s'.pos) && ItemsInv(job, s')
  {
    var p := s.pos[t];
    var s' := ItemStep(job, s, t);
    NextInStride(p, p, job.Tasks());
    assert !Taken(job, s.pos, p) && Taken(job, s'.pos, p);
    forall i | 0 <= i < |job.items| && i != p ensures Taken(job, s'.pos, i) == Taken(job, s.pos, i) {
      NextInStride(i, p, job.Tasks());
    }
  }

  lemma ItemBody<T, R>(job: Job<T, R>, t: nat, p: nat, task: Task, seen: bool)
    requires job.Valid() && p < |job.items| && p % job.Tasks() == t
    requires BodyInv(job, t, p, task, seen) && task.result.NotRun?
    ensures BodyInv(job, t, p + job.Tasks(), task.(result := ResultAfter(job, p)), seen)
  {
    forall i | 0 <= i < |job.items| && i < p + job.Tasks() && i % job.Tasks() == t
      ensures i == p || i < p
    {
      NextInStride(i, p, job.Tasks());
    }
    if ResultAfter(job, p) != NotRun && ResultAfter(job, p) != Returned(Nil) {
      assert FailedOn(job, t, p + job.Tasks(), ResultAfter(job, p), p);
    }
  }

  lemma ItemShape<T, R>(job: Job<T, R>, s: Slices<R>, t: nat)
    requires Enabled(job, s, Item(t))
    ensures var r := ResultAfter(job, s.pos[t]);
      && ItemStep(job, s, t).pos == s.pos[t := s.pos[t] + job.Tasks()]
      && ItemStep(job, s, t).sc == if r.NotRun? then s.sc else Finished(job, s, t, r)
  {
  }

  lemma AdvanceKeepsBodies<T, R>(job: Job<T, R>, pos: seq<nat>, sc: Scope.State, t: nat, p: nat)
    requires BodiesInv(job, pos, sc) && t < |pos|
    requires BodyInv(job, t, p, sc.tasks[t], SeenCancelled(sc.ctx, sc.f))
    ensures BodiesInv(job, pos[t := p], sc)
  {
  }

  lemma ItemKeepsBodies<T, R>(job: Job<T, R>, s: Slices<R>, t: nat)
    requires job.Valid() && PosInv(job, s.pos) && BodiesInv(job, s.pos, s.sc) && Enabled(job, s, Item(t))
    requires s.sc.tasks[t].result.NotRun?
    ensures BodiesInv(job, ItemStep(job, s, t).pos, ItemStep(job, s, t).sc)
  {
    var p := s.pos[t];
    var r := ResultAfter(job, p);
    ItemShape(job, s, t);
    ItemBody(job, t, p, s.sc.tasks[t], SeenCancelled(s.sc.ctx, s.sc.f));
    if r.NotRun? {
      assert s.sc.tasks[t].(result := r) == s.sc.tasks[t];
      AdvanceKeepsBodies(job, s.pos, s.sc, t, p + job.Tasks());
    } else {
      FinishKeepsBodies(job, s, s.pos[t := p + job.Tasks()], t, r);
    }
  }

  lemma RunningHasNoResult(cfg: Config, sc: Scope.State, t: nat)
    requires ScopeGuarantees.Reachable(cfg, sc) && t < |sc.tasks| && sc.tasks[t].phase.Running?
    ensures sc.tasks[t].result.NotRun?
  {
    ReachableInv(cfg, sc);
    assert TaskInv(cfg, sc.tasks[t]);
  }

  lemma ItemKeepsInv<T, R>(job: Job<T, R>, s: Slices<R>, t: nat)
    requires job.Valid() && Inv(job, s) && Enabled(job, s, Item(t))
    ensures Inv(job, Step(job, s, Item(t)))
  {
    RunningHasNoResult(job.cfg, s.sc, t);
    ItemKeepsItems(job, s, t);
    ItemKeepsBodies(job, s, t);
    var r := ResultAfter(job, s.pos[t]);
    if !r.NotRun? {
      ScopeGuarantees.ReachableStep(job.cfg, s.sc, OfTask(t, Finish(r)));
    }
  }

  /** While a task runs, finalize has not yet sampled the context. */
  lemma CancelledIsSeen(cfg: Config, sc: Scope.State, t: nat)
    requires ScopeGuarantees.Reachable(cfg, sc) && t < |sc.tasks| && sc.tasks[t].phase.Running?
    ensures SeenCancelled(sc.ctx, sc.f) == sc.ctx.Some?
  {
    if sc.f.phase.PastWait() {
      NoneRunning(cfg, sc);
    }
  }

  /** Leaving the loop, at its end or on cancellation, returns nil. */
  lemma LeaveKeepsInv<T, R>(job: Job<T, R>, s: Slices<R>, a: Action)
    requires Inv(job, s) && Enabled(job, s, a) && (a.SeeCancel? || a.End?)
    ensures Inv(job, Step(job, s, a))
  {
    RunningHasNoResult(job.cfg, s.sc, a.t);
    CancelledIsSeen(job.cfg, s.sc, a.t);
    FinishKeepsBodies(job, s, s.pos, a.t, Returned(Nil));
    ScopeGuarantees.ReachableStep(job.cfg, s.sc, OfTask(a.t, Finish(Returned(Nil))));
  }

  lemma CheckKeepsInv<T, R>(job: Job<T, R>, s: Slices<R>, t: nat)
    requires Inv(job, s) && Enabled(job, s, Check(t))
    ensures Inv(job, Step(job, s, Check(t)))
  {
    var s' := Step(job, s, Check(t));
    assert s'.pos == s.pos && s'.sc == s.sc && s'.calls == s.calls && s'.results == s.results;
  }

  lemma StepKeepsInv<T, R>(job: Job<T, R>, s: Slices<R>, a: Action)
    requires job.Valid() && Inv(job, s) && Enabled(job, s, a)
    ensures Inv(job, Step(job, s, a))
  {
    match a
    case Launch => LaunchKeepsInv(job, s);
    case Inner(b) => InnerKeepsInv(job, s, b);
    case Check(t) => CheckKeepsInv(job, s, t);
    case Item(t) => ItemKeepsInv(job, s, t);
    case _ => LeaveKeepsInv(job, s, a);
  }

  lemma {:induction false} RunKeepsInv<T, R>(job: Job<T, R>, s: Slices<R>, run: seq<Action>)
    requires job.Valid() && Inv(job, s) && CanRun(job, s, run)
    ensures Inv(job, After(job, s, run))
    decreases |run|
  {
    if run != [] {
      StepKeepsInv(job, s, run[0]);
      RunKeepsInv(job, Step(job, s, run[0]), run[1..]);
    }
  }

  ghost predicate Reachable<T, R>(job: Job<T, R>, s: Slices<R>) {
    job.Valid() && exists run :: CanRun(job, Start(job), run) && After(job, Start(job), run) == s
  }

  lemma ReachableSlices<T, R>(job: Job<T, R>, s: Slices<R>)
    requires Reachable(job, s)
    ensures Inv(job, s)
  {
    var run :| CanRun(job, Start(job), run) && After(job, Start(job), run) == s;
    StartInv(job);
    RunKeepsInv(job, Start(job), run);
  }
}
