/** What ForEachSlice and MapSlice promise. */
module SliceHelpers {
  import opened Counting
  import opened Division
  import opened Options
  import opened TaskErrors
  import opened Scope
  import opened ScopeInvariant
  import opened ScopeGuarantees
  import opened SliceMachine

  /** In every run, on either path, no item is processed twice, and entry i holds the value
      or the error of item i once it has been processed without a panic, and nothing before. */
  lemma AtMostOnce<T, R>(job: Job<T, R>, s: Slices<R>, i: nat)
    requires SliceMachine.Reachable(job, s) && i < |job.items|
    ensures |s.calls| == |s.results| == |job.items|
    ensures s.calls[i] <= 1
    ensures s.calls[i] == 0 ==> s.results[i] == Unset
    ensures s.calls[i] == 1 ==>
      match job.fn(job.items[i])
      case Value(v) => s.results[i] == Val(v)
      case Fails(e) => s.results[i] == Err(e)
      case Panics(_) => s.results[i] == Unset
  {
    ReachableSlices(job, s);
  }

  /** At finalization a task without a result was skipped, which needs a cancellation. */
  lemma EveryTaskDecided(cfg: Config, sc: Scope.State, t: nat)
    requires ScopeGuarantees.Reachable(cfg, sc) && sc.f.phase.Finalized? && t < |sc.tasks|
    ensures sc.tasks[t].result.NotRun? ==> sc.f.wasCancelled
  {
    ReachableInv(cfg, sc);
    NoneRunning(cfg, sc);
    assert TaskInv(cfg, sc.tasks[t]);
  }

  lemma AllTaken<T, R>(job: Job<T, R>, s: Slices<R>, i: nat)
    requires SliceMachine.Inv(job, s) && s.sc.f.phase.Finalized? && i < |job.items| && !s.sc.f.wasCancelled
    requires forall t :: 0 <= t < |s.sc.tasks| ==> s.sc.tasks[t].result == Returned(Nil)
    ensures Taken(job, s.pos, i) && Harmless(job, i)
  {
    ReachableInv(job.cfg, s.sc);
    var t := i % job.Tasks();
    assert BodyInv(job, t, s.pos[t], s.sc.tasks[t], SeenCancelled(s.sc.ctx, s.sc.f));
  }

  /** The error ForEachSlice and MapSlice return is nil, with no panic re-raised, if and
      only if no item panics, no item fails unless a collecting MapSlice captures its error,
      and finalization saw no cancellation. */
  lemma NilIff<T, R>(job: Job<T, R>, s: Slices<R>)
    requires SliceMachine.Reachable(job, s) && s.sc.f.phase.Finalized?
    ensures s.sc.f.err.Nil? && s.sc.f.panicVal.None? <==>
      && !s.sc.f.wasCancelled
      && forall i :: 0 <= i < |job.items| ==>
           job.fn(job.items[i]).Value? || (job.mapping && job.cfg.policy.Collect? && job.fn(job.items[i]).Fails?)
  {
    ReachableSlices(job, s);
    NilIsFullSuccess(job.cfg, s.sc);
    if s.sc.f.err.Nil? && s.sc.f.panicVal.None? {
      forall i | 0 <= i < |job.items|
        ensures job.fn(job.items[i]).Value? || (job.mapping && job.cfg.policy.Collect? && job.fn(job.items[i]).Fails?)
      {
        AllTaken(job, s, i);
      }
    } else if !s.sc.f.wasCancelled && forall i :: 0 <= i < |job.items| ==> Harmless(job, i) {
      forall t | 0 <= t < |s.sc.tasks| ensures s.sc.tasks[t].result == Returned(Nil) {
        assert BodyInv(job, t, s.pos[t], s.sc.tasks[t], SeenCancelled(s.sc.ctx, s.sc.f));
        EveryTaskDecided(job.cfg, s.sc, t);
      }
      assert false;
    }
  }

  /** A nil error means every item was processed exactly once and its result stored, on
      the strided worker path and on the per-item path alike. */
  lemma NilMeansEachOnce<T, R>(job: Job<T, R>, s: Slices<R>, i: nat)
    requires SliceMachine.Reachable(job, s) && s.sc.f.phase.Finalized? && s.sc.f.err.Nil? && s.sc.f.panicVal.None?
    requires i < |job.items|
    ensures |s.calls| == |s.results| == |job.items|
    ensures s.calls[i] == 1
    ensures match job.fn(job.items[i])
            case Value(v) => s.results[i] == Val(v)
            case Fails(e) => s.results[i] == Err(e) && job.mapping && job.cfg.policy.Collect?
            case Panics(_) => false
  {
    ReachableSlices(job, s);
    NilIsFullSuccess(job.cfg, s.sc);
    AllTaken(job, s, i);
  }

  /** The two paths agree: nil runs of jobs over the same items and callback, whatever
      their limits, hooks and schedules, produce the same results. */
  lemma PathsAgree<T, R>(a: Job<T, R>, sa: Slices<R>, b: Job<T, R>, sb: Slices<R>)
    requires a.items == b.items && a.fn == b.fn
    requires SliceMachine.Reachable(a, sa) && sa.sc.f.phase.Finalized? && sa.sc.f.err.Nil? && sa.sc.f.panicVal.None?
    requires SliceMachine.Reachable(b, sb) && sb.sc.f.phase.Finalized? && sb.sc.f.err.Nil? && sb.sc.f.panicVal.None?
    ensures sa.results == sb.results
  {
    ReachableSlices(a, sa);
    ReachableSlices(b, sb);
    forall i | 0 <= i < |a.items| ensures sa.results[i] == sb.results[i] {
      NilMeansEachOnce(a, sa, i);
      NilMeansEachOnce(b, sb, i);
    }
  }

  /** Item i was processed and failed, and `cause` is its error or, with WithPanicAsError,
      its panic. */
  ghost predicate Caused<T, R>(job: Job<T, R>, s: Slices<R>, i: nat, cause: Error) {
    && i < |job.items| && i < |s.calls| && s.calls[i] == 1
    && match job.At(i)
       case Value(_) => false
       case Fails(e) => cause == e
       case Panics(p) => job.cfg.panicAsErr && cause == PanicError(p)
  }

  /** A recorded task failed on an item of its stride. */
  lemma FailureHasItem<T, R>(job: Job<T, R>, s: Slices<R>, t: nat)
    requires PosInv(job, s.pos) && ItemsInv(job, s) && BodiesInv(job, s.pos, s.sc)
    requires t < |s.sc.tasks| && Recorded(job.cfg, s.sc.tasks[t]) && job.cfg.policy.FailFast?
    ensures exists i :: Caused(job, s, i, ExecErr(job.cfg, s.sc.tasks[t].result))
  {
    var r := s.sc.tasks[t].result;
    assert BodyInv(job, t, s.pos[t], s.sc.tasks[t], SeenCancelled(s.sc.ctx, s.sc.f));
    var i :| FailedOn(job, t, s.pos[t], r, i);
    assert Taken(job, s.pos, i);
    assert Caused(job, s, i, ExecErr(job.cfg, r));
  }

  /** A failing fail-fast call returns the TaskError of an item that was processed and failed,
      or the error of the cancelled context. */
  lemma FailFastNamesAFailure<T, R>(job: Job<T, R>, s: Slices<R>)
    requires SliceMachine.Reachable(job, s) && s.sc.f.phase.Finalized? && job.cfg.policy.FailFast? && !s.sc.f.err.Nil?
    ensures if s.sc.f.err.TaskError? then exists i :: Caused(job, s, i, s.sc.f.err.cause)
            else s.sc.f.wasCancelled && (s.sc.f.err.Canceled? || s.sc.f.err.DeadlineExceeded?)
  {
    ReachableSlices(job, s);
    ReachableInv(job.cfg, s.sc);
    if s.sc.ctx.Some? {
      CtxErrorIsPlain(job.cfg, s.sc);
    }
    if s.sc.f.err.TaskError? {
      var records := s.sc.e.records;
      assert records != [] && records[0] == s.sc.f.err;
      assert records[0] in multiset(records);
      var t := BagSource(s.sc.tasks, Failure(job.cfg), records[0]);
      FailureHasItem(job, s, t);
    }
  }

  /** A task body never waits: it checks its context, runs its next item or returns, whatever the
      others do. */
  lemma BodyCanStep<T, R>(job: Job<T, R>, s: Slices<R>, t: nat) returns (a: SliceMachine.Action)
    requires SliceMachine.Reachable(job, s) && t < |s.sc.tasks| && s.sc.tasks[t].phase.Running?
    ensures SliceMachine.Enabled(job, s, a) && !a.Launch? && !a.Inner? && a.t == t
    ensures |s.checked| == |s.pos| == |s.sc.tasks|
    ensures s.sc.ctx.Some? && job.Fast() && !s.checked[t] && s.pos[t] < |job.items| ==> a.SeeCancel?
  {
    ReachableSlices(job, s);
    a := if s.pos[t] >= |job.items| then End(t)
         else if !job.Fast() || s.checked[t] then Item(t)
         else if s.sc.ctx.Some? then SeeCancel(t)
         else Check(t);
  }

  /** 1 for a worker that has passed the check in front of its next item. */
  ghost function AsOne(b: bool): nat { if b then 1 else 0 }

  ghost function ItemsRun(run: seq<SliceMachine.Action>): nat {
    if run == [] then 0 else (if run[0].Item? then 1 else 0) + ItemsRun(run[1..])
  }

  /** In a cancelled scope a worker's step runs an item only by using up a check it has passed. */
  lemma CancelledStep<T, R>(job: Job<T, R>, s: Slices<R>, a: SliceMachine.Action)
    requires job.Fast() && s.sc.ctx.Some? && SliceMachine.Enabled(job, s, a)
    ensures var s' := SliceMachine.Step(job, s, a);
      && s'.sc.ctx.Some?
      && Sum(s'.checked, AsOne) + (if a.Item? then 1 else 0) == Sum(s.checked, AsOne)
  {
    match a
    case Launch => SumAppend(s.checked, false, AsOne);
    case Item(t) =>
      SumUpdate(s.checked, t, false, AsOne);
      ItemShape(job, s, t);
      if !ResultAfter(job, s.pos[t]).NotRun? {
        TaskFrame(job.cfg, s.sc, t, Finish(ResultAfter(job, s.pos[t])));
      }
    case Inner(b) =>
      if b.OfTask? {
        TaskFrame(job.cfg, s.sc, b.i, b.op);
      }
    case SeeCancel(t) => TaskFrame(job.cfg, s.sc, t, Finish(Returned(Nil)));
    case End(t) => TaskFrame(job.cfg, s.sc, t, Finish(Returned(Nil)));
    case Check(_) =>
  }

  lemma {:induction false} ItemsAfterCancel<T, R>(job: Job<T, R>, s: Slices<R>, run: seq<SliceMachine.Action>)
    requires job.Fast() && s.sc.ctx.Some? && SliceMachine.CanRun(job, s, run)
    ensures ItemsRun(run) <= Sum(s.checked, AsOne)
    decreases |run|
  {
    if run != [] {
      CancelledStep(job, s, run[0]);
      ItemsAfterCancel(job, SliceMachine.Step(job, s, run[0]), run[1..]);
    }
  }

  lemma {:induction false} SumAtMostLength(bs: seq<bool>)
    ensures Sum(bs, AsOne) <= |bs|
  {
    if bs != [] {
      SumAtMostLength(bs[..|bs| - 1]);
    }
  }

  /** The worker path stops quickly: from the moment the scope is cancelled, by a first failure
      or from outside, no run processes more than one item for each worker that has already
      passed the check in front of it, so no more than the limit. */
  lemma StopsQuickly<T, R>(job: Job<T, R>, s: Slices<R>, run: seq<SliceMachine.Action>)
    requires SliceMachine.Reachable(job, s) && s.sc.ctx.Some? && SliceMachine.CanRun(job, s, run)
    requires job.cfg.limit > 0 && job.cfg.policy.FailFast? && !job.hooks && !job.cfg.track && job.items != []
    ensures ItemsRun(run) <= Sum(s.checked, AsOne) <= job.cfg.limit
  {
    ReachableSlices(job, s);
    ItemsAfterCancel(job, s, run);
    SumAtMostLength(s.checked);
  }

  /** What MapSlice hands its caller once Wait has returned: a fail-fast failure drops the
      results, a collecting one keeps them. */
  ghost function MapSliceReturn<T, R>(job: Job<T, R>, s: Slices<R>): (r: (Option<seq<ItemResult<R>>>, Error)) {
    if s.sc.f.err.Nil? then (Some(s.results), Nil)
    else if job.cfg.policy.FailFast? then (None, s.sc.f.err)
    else (Some(s.results), s.sc.f.err)
  }

  /** A collecting MapSlice reports every item: with no panic and no cancellation the outer
      error is nil and entry i is item i's value or item i's own error. */
  lemma CollectReportsEachItem<T, R>(job: Job<T, R>, s: Slices<R>)
    requires SliceMachine.Reachable(job, s) && s.sc.f.phase.Finalized? && !s.sc.f.wasCancelled
    requires job.mapping && job.cfg.policy.Collect?
    requires forall i :: 0 <= i < |job.items| ==> !job.fn(job.items[i]).Panics?
    ensures MapSliceReturn(job, s).1 == Nil && MapSliceReturn(job, s).0.Some?
    ensures var results := MapSliceReturn(job, s).0.value;
      && |results| == |job.items|
      && forall i :: 0 <= i < |job.items| ==>
           && (forall v :: job.fn(job.items[i]) == Value(v) ==> results[i] == Val(v))
           && (forall e :: job.fn(job.items[i]) == Fails(e) ==> results[i] == Err(e))
  {
    NilIff(job, s);
    ReachableSlices(job, s);
    forall i | 0 <= i < |job.items| ensures !job.fn(job.items[i]).Panics? && s.results[i] == Stored(job.At(i)) {
      NilMeansEachOnce(job, s, i);
    }
  }

  /** However the call ends, MapSlice hands back Wait's error, and drops the results exactly
      when a fail-fast call failed. Results it does hand back show, for every item processed,
      that item's value or that item's own error, and are untouched everywhere else. */
  lemma PartialResults<T, R>(job: Job<T, R>, s: Slices<R>)
    requires SliceMachine.Reachable(job, s) && s.sc.f.phase.Finalized?
    ensures |s.calls| == |job.items|
    ensures var (kept, err) := MapSliceReturn(job, s);
      && err == s.sc.f.err
      && (kept.None? <==> job.cfg.policy.FailFast? && !err.Nil?)
      && (kept.Some? ==>
            && |kept.value| == |job.items|
            && forall i :: 0 <= i < |job.items| ==>
                 if s.calls[i] == 0 then kept.value[i] == Unset
                 else match job.fn(job.items[i])
                      case Value(v) => kept.value[i] == Val(v)
                      case Fails(e) => kept.value[i] == Err(e)
                      case Panics(_) => kept.value[i] == Unset)
  {
    ReachableSlices(job, s);
  }

  /** On the per-item path only item i lies in the stride of task i. */
  lemma OwnStride<T, R>(job: Job<T, R>, i: nat, j: nat)
    requires !job.Fast() && i < |job.items| && j < |job.items|
    ensures j % job.Tasks() == i <==> j == i
  {
    DivMod(j, 0, j, job.Tasks());
  }

  /** On the per-item path a task whose function ran has processed its own item, and its
      result is the item's: a collecting MapSlice turns a failure into nil, nothing else does. */
  lemma OwnItem<T, R>(job: Job<T, R>, s: Slices<R>, i: nat)
    requires PosInv(job, s.pos) && ItemsInv(job, s) && BodiesInv(job, s.pos, s.sc)
    requires !job.Fast() && i < |s.sc.tasks| && i < |job.items| && !s.sc.tasks[i].result.NotRun?
    ensures s.calls[i] == 1
    ensures s.sc.tasks[i].result ==
      match job.fn(job.items[i])
      case Value(_) => Returned(Nil)
      case Fails(e) => Returned(if job.mapping && job.cfg.policy.Collect? then Nil else e)
      case Panics(p) => Panicked(p)
  {
    var r := s.sc.tasks[i].result;
    OwnStride(job, i, i);
    assert BodyInv(job, i, s.pos[i], s.sc.tasks[i], SeenCancelled(s.sc.ctx, s.sc.f));
    if r == Returned(Nil) {
      assert Harmless(job, i);
    } else {
      var j :| FailedOn(job, i, s.pos[i], r, j);
      OwnStride(job, i, j);
    }
    assert Taken(job, s.pos, i);
  }

  /** Once the root spawner is closed, every task has been spawned. */
  lemma AllSpawned<T, R>(job: Job<T, R>, s: Slices<R>)
    requires SliceMachine.Reachable(job, s) && s.sc.f.phase.Finalized?
    ensures |s.sc.tasks| == job.Tasks()
  {
    ReachableSlices(job, s);
    ReachableInv(job.cfg, s.sc);
  }

  /** The worker path needs a limit, fail-fast and no observability, and then spawns the
      smaller of the limit and the item count. Every other call spawns a task for each item,
      which processes it whenever its function runs at all, and ends as the item does. */
  lemma PathTaken<T, R>(job: Job<T, R>, s: Slices<R>)
    requires SliceMachine.Reachable(job, s) && s.sc.f.phase.Finalized?
    ensures |s.sc.tasks| ==
      if job.cfg.limit > 0 && job.cfg.policy.FailFast? && !job.hooks && !job.cfg.track && job.cfg.limit < |job.items|
      then job.cfg.limit else |job.items|
    ensures |s.calls| == |job.items|
    ensures job.cfg.limit == 0 || job.cfg.policy.Collect? || job.hooks || job.cfg.track ==>
      forall i :: 0 <= i < |job.items| && !s.sc.tasks[i].result.NotRun? ==>
        && s.calls[i] == 1
        && s.sc.tasks[i].result ==
             match job.fn(job.items[i])
             case Value(_) => Returned(Nil)
             case Fails(e) => Returned(if job.mapping && job.cfg.policy.Collect? then Nil else e)
             case Panics(p) => Panicked(p)
  {
    ReachableSlices(job, s);
    AllSpawned(job, s);
    if job.cfg.limit == 0 || job.cfg.policy.Collect? || job.hooks || job.cfg.track {
      forall i | 0 <= i < |job.items| && !s.sc.tasks[i].result.NotRun? {
        OwnItem(job, s, i);
      }
    }
  }

  // ------------------------------------------------------------------- the worker loop

  /** The results array once the stride that begins at `start` is done below `next`. */
  ghost function Filled<T, R>(job: Job<T, R>, base: seq<ItemResult<R>>, start: nat, next: nat): (rs: seq<ItemResult<R>>)
    requires |base| == |job.items| && job.Tasks() > 0
  {
    seq(|base|, j requires 0 <= j < |base| =>
      if j < next && j % job.Tasks() == start then Stored(job.At(j)) else base[j])
  }

  /** The stride met only successes below `next`. */
  ghost predicate AllValues<T, R>(job: Job<T, R>, start: nat, next: nat)
    requires job.Tasks() > 0
  {
    forall j :: 0 <= j < |job.items| && j < next && j % job.Tasks() == start ==> job.At(j).Value?
  }

  /** The context was not done at any index of the stride below `next`. */
  ghost predicate NeverDone<T, R>(job: Job<T, R>, start: nat, next: nat, ctxDone: nat -> bool)
    requires job.Tasks() > 0
  {
    forall j :: 0 <= j < |job.items| && j < next && j % job.Tasks() == start ==> !ctxDone(j)
  }

  /** Nothing of the stride lies below its start. */
  lemma StrideStart<T, R>(job: Job<T, R>, base: seq<ItemResult<R>>, start: nat, ctxDone: nat -> bool)
    requires |base| == |job.items| && start < job.Tasks()
    ensures start % job.Tasks() == start
    ensures Filled(job, base, start, start) == base && AllValues(job, start, start)
    ensures NeverDone(job, start, start, ctxDone)
  {
    DivMod(start, 0, start, job.Tasks());
    forall j | 0 <= j < |base| && j < start ensures j % job.Tasks() != start {
      DivMod(j, 0, j, job.Tasks());
    }
  }

  /** Moving on by one stride takes in the current index and no other. */
  lemma StrideStep<T, R>(job: Job<T, R>, base: seq<ItemResult<R>>, start: nat, i: nat, ctxDone: nat -> bool)
    requires |base| == |job.items| && job.Tasks() > 0 && i < |base| && i % job.Tasks() == start
    ensures (i + job.Tasks()) % job.Tasks() == start
    ensures Filled(job, base, start, i + job.Tasks()) == Filled(job, base, start, i)[i := Stored(job.At(i))]
    ensures AllValues(job, start, i + job.Tasks()) <==> AllValues(job, start, i) && job.At(i).Value?
    ensures NeverDone(job, start, i + job.Tasks(), ctxDone) <==> NeverDone(job, start, i, ctxDone) && !ctxDone(i)
  {
    var w := job.Tasks();
    NextInStride(i, i, w);
    forall j | 0 <= j < |base|
      ensures (j < i + w && j % w == start) == (j == i || (j < i && j % w == start))
    {
      NextInStride(j, i, w);
    }
  }

  /** The callback on one item, with its result stored. */
  method OneItem<T, R>(job: Job<T, R>, i: nat, results: array<ItemResult<R>>) returns (r: Result)
    requires i < |job.items| == results.Length && results[i] == Unset && !job.Captures()
    modifies results
    ensures match job.fn(job.items[i])
            case Value(v) => r == NotRun && results[i] == Val(v)
            case Fails(e) => r == Returned(e) && results[i] == Err(e)
            case Panics(p) => r == Panicked(p) && results[i] == Unset
    ensures results[..] == old(results[..])[i := results[i]]
  {
    match job.At(i) {
      case Value(v) =>
        results[i] := Val(v);
        r := NotRun;
      case Fails(e) =>
        results[i] := Err(e);
        r := Returned(e);
      case Panics(p) =>
        r := Panicked(p);
    }
  }

  /** One worker of the fast path, as the loop it is: it walks its stride, writing the
      shared results array, until an item fails or it finds the context done. `ctxDone`
      is what ctx.Err() shows before each index. */
  method StridedWorker<T, R>(job: Job<T, R>, start: nat, results: array<ItemResult<R>>, ctxDone: nat -> bool)
    returns (r: Result, next: nat)
    requires job.Valid() && job.Fast() && start < job.Tasks() && results.Length == |job.items|
    requires forall i :: 0 <= i < results.Length && i % job.Tasks() == start ==> results[i] == Unset
    modifies results
    ensures next % job.Tasks() == start && start <= next
    // exactly the stride below `next` was processed and stored; nothing else was touched
    ensures forall j :: 0 <= j < |job.items| ==>
      if j < next && j % job.Tasks() == start then
        match job.fn(job.items[j])
        case Value(v) => results[j] == Val(v)
        case Fails(e) => results[j] == Err(e)
        case Panics(_) => results[j] == Unset
      else results[j] == old(results[j])
    // no index is processed after the context was seen done
    ensures forall j :: 0 <= j < |job.items| && j < next && j % job.Tasks() == start ==> !ctxDone(j)
    // a nil return means the stride met only values, and is used up or the context was done
    ensures r == Returned(Nil) ==>
      && (next >= |job.items| || ctxDone(next))
      && forall j :: 0 <= j < |job.items| && j < next && j % job.Tasks() == start ==> job.fn(job.items[j]).Value?
    // any other return is the verdict on the last item processed, the first that is no value
    ensures r != Returned(Nil) ==>
      && start <= next - job.Tasks() < |job.items|
      && AllValues(job, start, next - job.Tasks())
      && match job.fn(job.items[next - job.Tasks()])
         case Value(_) => false
         case Fails(e) => r == Returned(e) && results[next - job.Tasks()] == Err(e)
         case Panics(p) => r == Panicked(p)
  {
    var w := job.Tasks();
    ghost var base := results[..];
    var i := start;
    StrideStart(job, base, start, ctxDone);
    while i < |job.items|
      invariant start <= i && i % w == start
      invariant results[..] == Filled(job, base, start, i) && AllValues(job, start, i)
      invariant NeverDone(job, start, i, ctxDone)
    {
      if ctxDone(i) {
        return Returned(Nil), i;
      }
      StrideStep(job, base, start, i, ctxDone);
      assert results[i] == results[..][i] == base[i];
      r := OneItem(job, i, results);
      i := i + w;
      if !r.NotRun? {
        return r, i;
      }
    }
    return Returned(Nil), i;
  }
}
