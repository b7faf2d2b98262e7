/** Schedules of ParallelMap, put together for all sources and options and for every manner of
    running: one item after another; a source that panics while a worker is still on its last
    item; and a worker held back while everything behind its item is done, received and
    buffered, until the source panics and the result it owes is dropped. The states they pass
    through are written down, so that each stage only has to be shown to lead from one to the
    next. */
module ParallelMapScenarios {
  import opened ParallelMap
  import opened ParallelMapInvariant
  import opened ParallelMapSafety

  // ------------------------------------------------------------- one item after another

  /** A worker that is done with item i. */
  ghost function Spent<A, B>(c: Config<A, B>, i: nat): Worker<A>
    requires i < |c.src|
  {
    Worker(i, c.src[i], Gone)
  }

  ghost function AllSpent<A, B>(c: Config<A, B>, n: nat): (ws: seq<Worker<A>>)
    requires n <= |c.src|
  {
    seq(n, i requires 0 <= i < |c.src| => Spent(c, i))
  }

  /** The first n items have each been launched, sent and received before the next one. */
  ghost function Settled<A, B>(c: Config<A, B>, n: nat): State<A, B>
    requires n <= |c.src|
  {
    State(Dispatcher(Fetching, n, false, false, if c.ordered then n else 0, false), 0, Pool(AllSpent(c, n), 0, 0), [], false,
          Contexts(Watching, false, false, false, false, true),
          Consumer(Idle, if c.ordered then n else 0, map[],
                   if n == 0 then NoCall else Emitted(c.Result(n - 1).res), Results(c, n), NotedAll(Results(c, n))),
          0, false)
  }

  /** The dispatcher fetches the next item and starts a worker on it. */
  ghost function Launched<A, B>(c: Config<A, B>, s: State<A, B>): State<A, B>
    requires s.d.fetched < |c.src|
  {
    var i := s.d.fetched;
    s.(d := s.d.(fetched := i + 1, acquired := if c.ordered then s.d.acquired + 1 else s.d.acquired),
       tokens := if c.ordered then s.tokens + 1 else s.tokens,
       p := Pool(s.p.ws + [Worker(i, c.src[i], Running)], s.p.sem + 1, s.p.wg + 1))
  }

  /** It holds the next item, in ordered mode with a backpressure slot for it. */
  ghost function Carrying<A, B>(c: Config<A, B>, s: State<A, B>): State<A, B>
    requires s.d.fetched < |c.src|
  {
    Launched(c, s).(d := Launched(c, s).d.(phase := WantWg(s.d.fetched, c.src[s.d.fetched])), p := s.p)
  }

  lemma Fetch<A, B>(c: Config<A, B>, s: State<A, B>, m: Manner)
    requires ReachableAs(c, s, m) && !s.crashed && s.d.phase.Fetching? && s.d.fetched < |c.src|
    requires c.ordered ==> s.tokens < c.maxPending
    ensures ReachableAs(c, Carrying(c, s), m)
  {
    Take(c, s, Dispatch(FetchItem), m);
    if c.ordered {
      var s1 := Step(c, s, Dispatch(FetchItem));
      Take(c, s1, Dispatch(AcquirePending), m);
      assert Step(c, s1, Dispatch(AcquirePending)) == Carrying(c, s);
    } else {
      assert Step(c, s, Dispatch(FetchItem)) == Carrying(c, s);
    }
  }

  lemma Launch<A, B>(c: Config<A, B>, s: State<A, B>, m: Manner)
    requires ReachableAs(c, s, m) && !s.crashed
    requires s.d.phase.Fetching? && s.d.fetched < |c.src| && s.p.sem < c.maxWorkers
    requires c.ordered ==> s.tokens < c.maxPending
    ensures ReachableAs(c, Launched(c, s), m)
  {
    Fetch(c, s, m);
    var s1 := Carrying(c, s);
    Take(c, s1, Dispatch(AddWg), m);
    var s2 := Step(c, s1, Dispatch(AddWg));
    Take(c, s2, Dispatch(AcquireSem), m);
    assert Step(c, s2, Dispatch(AcquireSem)) == Launched(c, s);
  }

  /** Worker i runs the mapper and sends its result. */
  ghost function Sent<A, B>(c: Config<A, B>, s: State<A, B>, i: nat): State<A, B>
    requires i < |s.p.ws|
  {
    s.(p := s.p.(ws := Advance(s.p.ws, i, Releasing)),
       queue := s.queue + [IndexedResult(s.p.ws[i].idx, c.fn(s.p.ws[i].item))])
  }

  lemma Send<A, B>(c: Config<A, B>, s: State<A, B>, i: nat, m: Manner)
    requires ReachableAs(c, s, m) && !s.crashed && !s.closed
    requires i < |s.p.ws| && s.p.ws[i].phase.Running? && |s.queue| < c.Capacity()
    ensures ReachableAs(c, Sent(c, s, i), m)
  {
    Take(c, s, Work(i, RunFn), m);
    var s1 := Step(c, s, Work(i, RunFn));
    Take(c, s1, Work(i, SendResult), m);
    assert Step(c, s1, Work(i, SendResult)) == Sent(c, s, i) by {
      assert Advance(s1.p.ws, i, Releasing) == Advance(s.p.ws, i, Releasing);
    }
  }

  /** Worker i releases its slot and its wait-group count. */
  ghost function Unwound<A, B>(s: State<A, B>, i: nat): State<A, B>
    requires i < |s.p.ws| && s.p.sem > 0 && s.p.wg > 0
  {
    s.(p := Pool(Advance(s.p.ws, i, Gone), s.p.sem - 1, s.p.wg - 1))
  }

  lemma Unwind<A, B>(c: Config<A, B>, s: State<A, B>, i: nat, m: Manner)
    requires ReachableAs(c, s, m) && !s.crashed
    requires i < |s.p.ws| && s.p.ws[i].phase.Releasing? && s.p.sem > 0 && s.p.wg > 0
    ensures ReachableAs(c, Unwound(s, i), m)
  {
    Take(c, s, Work(i, ReleaseSem), m);
    var s1 := Step(c, s, Work(i, ReleaseSem));
    Take(c, s1, Work(i, SignalWg), m);
    assert Step(c, s1, Work(i, SignalWg)) == Unwound(s, i) by {
      assert Advance(s1.p.ws, i, Gone) == Advance(s.p.ws, i, Gone);
    }
  }

  /** A Next call takes the only queued result and, if it is the expected one, returns it. */
  ghost function Pulled<A, B>(c: Config<A, B>, s: State<A, B>): State<A, B>
    requires |s.queue| == 1 && (c.ordered ==> s.tokens > 0)
  {
    var r := s.queue[0];
    s.(queue := [], tokens := if c.ordered then s.tokens - 1 else s.tokens,
       k := s.k.(nextIdx := if c.ordered then s.k.nextIdx + 1 else s.k.nextIdx,
                 last := Emitted(r.res), emitted := s.k.emitted + [r], errs := s.k.errs + NotedTwice(r.res)))
  }

  /** The three steps that take the result into the call. */
  lemma PullIn<A, B>(c: Config<A, B>, s: State<A, B>, m: Manner)
    requires ReachableAs(c, s, m) && !s.crashed && s.k.phase.Idle? && !HeadReady(c, s.k) && |s.queue| == 1
    requires Follows(m, s, Consume(CallNext))
    ensures ReachableAs(c, s.(k := Accept(c, s.k, s.queue[0]), queue := []), m)
  {
    Take(c, s, Consume(CallNext), m);
    var s1 := Step(c, s, Consume(CallNext));
    Take(c, s1, Consume(LookPast), m);
    var s2 := Step(c, s1, Consume(LookPast));
    Take(c, s2, Consume(Receive), m);
    assert s.queue[1..] == [];
    assert Accept(c, s2.k, s.queue[0]) == Accept(c, s.k, s.queue[0]);
  }

  lemma Pull<A, B>(c: Config<A, B>, s: State<A, B>, m: Manner)
    requires ReachableAs(c, s, m) && !s.crashed
    requires s.k.phase.Idle? && s.k.pending == map[] && |s.queue| == 1
    requires c.ordered ==> s.queue[0].idx == s.k.nextIdx && s.tokens > 0
    requires Follows(m, s, Consume(CallNext))
    ensures ReachableAs(c, Pulled(c, s), m)
  {
    PullIn(c, s, m);
    var s3 := s.(k := Accept(c, s.k, s.queue[0]), queue := []);
    if c.ordered {
      Take(c, s3, Consume(EmitPending), m);
      assert s3.k.pending - {s.k.nextIdx} == map[];
      assert Step(c, s3, Consume(EmitPending)) == Pulled(c, s);
    } else {
      assert s3 == Pulled(c, s);
    }
  }

  /** The next item is done, and its result waits in the channel. */
  ghost function OneQueued<A, B>(c: Config<A, B>, n: nat): State<A, B>
    requires n < |c.src|
  {
    Settled(c, n + 1).(tokens := if c.ordered then 1 else 0, queue := [c.Result(n)], k := Settled(c, n).k)
  }

  lemma QueueOne<A, B>(c: Config<A, B>, n: nat)
    requires n < |c.src|
    ensures Unwound(Sent(c, Launched(c, Settled(c, n)), n), n) == OneQueued(c, n)
  {
    var s1 := Sent(c, Launched(c, Settled(c, n)), n);
    assert s1.queue == [c.Result(n)];
    assert Advance(s1.p.ws, n, Gone) == AllSpent(c, n + 1);
  }

  lemma OneMoreResult<A, B>(c: Config<A, B>, n: nat)
    requires n < |c.src|
    ensures Results(c, n) + [c.Result(n)] == Results(c, n + 1)
    ensures NotedAll(Results(c, n)) + NotedTwice(c.Result(n).res) == NotedAll(Results(c, n + 1))
  {
    NotedAppend(Results(c, n), c.Result(n));
    assert Results(c, n) + [c.Result(n)] == Results(c, n + 1);
  }

  lemma PullOne<A, B>(c: Config<A, B>, n: nat)
    requires n < |c.src|
    ensures Pulled(c, OneQueued(c, n)) == Settled(c, n + 1)
  {
    OneMoreResult(c, n);
    assert Pulled(c, OneQueued(c, n)).k == Settled(c, n + 1).k;
  }

  lemma SettleOne<A, B>(c: Config<A, B>, n: nat, m: Manner)
    requires n < |c.src| && ReachableAs(c, Settled(c, n), m)
    requires m.Polite? && n > 0 ==> c.fn(c.src[n - 1]) != Failed(IoEof)
    ensures ReachableAs(c, Settled(c, n + 1), m)
  {
    Launch(c, Settled(c, n), m);
    var s := Launched(c, Settled(c, n));
    Send(c, s, n, m);
    Unwind(c, Sent(c, s, n), n, m);
    QueueOne(c, n);
    Pull(c, OneQueued(c, n), m);
    PullOne(c, n);
  }

  /** Any number of items can be settled one by one; a polite consumer gets as far as its
      first io.EOF. */
  lemma {:induction false} Settle<A, B>(c: Config<A, B>, n: nat, m: Manner)
    requires c.Valid() && n <= |c.src|
    requires m.Polite? ==> forall i :: 0 <= i < n - 1 ==> c.fn(c.src[i]) != Failed(IoEof)
    ensures ReachableAs(c, Settled(c, n), m)
  {
    if n == 0 {
      InitAs(c, m);
      Take(c, Init(c), Environment(OfferSlot), m);
      var s := Step(c, Init(c), Environment(OfferSlot));
      Take(c, s, Dispatch(Start), m);
      assert Step(c, s, Dispatch(Start)) == Settled(c, 0);
    } else {
      Settle(c, n - 1, m);
      SettleOne(c, n - 1, m);
    }
  }

  // ------------------------------------------------------------- a source that panics

  /** The source panics; the deferred calls have cancelled runCtx and wait for the bridge. */
  ghost function Unwinding<A, B>(s: State<A, B>): State<A, B> {
    s.(d := s.d.(phase := AwaitingBridge, panicked := true), x := s.x.(runCancelled := true))
  }

  lemma PanicAndCancel<A, B>(c: Config<A, B>, s: State<A, B>, m: Manner)
    requires ReachableAs(c, s, m) && !s.crashed
    requires c.srcEnd.InPanic? && s.d.phase.Fetching? && s.d.fetched == |c.src|
    ensures ReachableAs(c, Unwinding(s), m)
  {
    Take(c, s, Dispatch(FetchEnd), m);
    var s1 := Step(c, s, Dispatch(FetchEnd));
    Take(c, s1, Dispatch(CancelRun), m);
    assert Step(c, s1, Dispatch(CancelRun)) == Unwinding(s);
  }

  /** The bridge has left and the results channel is closed. */
  ghost function Shut<A, B>(s: State<A, B>): State<A, B> {
    s.(d := s.d.(phase := Finished), x := s.x.(bridge := Exited), closed := true)
  }

  lemma BridgeLeaves<A, B>(c: Config<A, B>, s: State<A, B>, m: Manner)
    requires ReachableAs(c, s, m) && !s.crashed && s.x.bridge.Watching? && s.x.runCancelled
    ensures ReachableAs(c, s.(x := s.x.(bridge := Exited)), m)
  {
    Take(c, s, Bridge(SeeRunDone), m);
    var s1 := Step(c, s, Bridge(SeeRunDone));
    Take(c, s1, Bridge(Exit), m);
  }

  lemma ShutDown<A, B>(c: Config<A, B>, s: State<A, B>, m: Manner)
    requires ReachableAs(c, s, m) && !s.crashed
    requires s.d.phase.AwaitingBridge? && s.x.bridge.Watching? && s.x.runCancelled
    ensures ReachableAs(c, Shut(s), m)
  {
    BridgeLeaves(c, s, m);
    var s2 := s.(x := s.x.(bridge := Exited));
    Take(c, s2, Dispatch(AwaitBridge), m);
    var s3 := Step(c, s2, Dispatch(AwaitBridge));
    Take(c, s3, Dispatch(CloseResults), m);
    assert Step(c, s3, Dispatch(CloseResults)) == Shut(s);
  }

  /** Worker i runs the mapper and drops its result. */
  ghost function Dropped<A, B>(s: State<A, B>, i: nat): State<A, B>
    requires i < |s.p.ws|
  {
    s.(p := s.p.(ws := Advance(s.p.ws, i, Releasing)), lost := s.lost + 1)
  }

  lemma Drop<A, B>(c: Config<A, B>, s: State<A, B>, i: nat, m: Manner)
    requires ReachableAs(c, s, m) && !s.crashed && i < |s.p.ws| && s.p.ws[i].phase.Running? && s.x.RunDone()
    ensures ReachableAs(c, Dropped(s, i), m)
  {
    Take(c, s, Work(i, RunFn), m);
    var s1 := Step(c, s, Work(i, RunFn));
    Take(c, s1, Work(i, DropResult), m);
    assert Advance(s1.p.ws, i, Releasing) == Advance(s.p.ws, i, Releasing);
  }

  /** The source panics while a worker is still on its last item: the channel is closed
      under it. */
  lemma ClosedUnderWorker<A, B>(c: Config<A, B>, m: Manner) returns (s: State<A, B>)
    requires c.Valid() && !c.Sound()
    requires m.Polite? ==> forall i :: 0 <= i < |c.src| - 2 ==> c.fn(c.src[i]) != Failed(IoEof)
    ensures ReachableAs(c, s, m) && s.x.Quiet() && s.closed && s.queue == [] && !s.crashed && s.d.phase.Finished?
    ensures var n := |c.src| - 1;
      |s.p.ws| == n + 1 && s.p.ws[n].phase.Running? && s.k == Settled(c, n).k && s.x.RunDone()
  {
    var n := |c.src| - 1;
    Settle(c, n, m);
    Launch(c, Settled(c, n), m);
    PanicAndCancel(c, Launched(c, Settled(c, n)), m);
    ShutDown(c, Unwinding(Launched(c, Settled(c, n))), m);
    s := Shut(Unwinding(Launched(c, Settled(c, n))));
  }

  // ------------------------------------------------------------------ a result held back

  /** A stream that can lose the result of item h while those of all later items arrive: two
      workers, and slots for item h and everything behind it. */
  ghost predicate CanHole<A, B>(c: Config<A, B>, h: nat) {
    && c.Valid() && c.ordered && c.srcEnd.InPanic? && c.maxWorkers >= 2
    && h + 1 < |c.src| <= h + c.maxPending
  }

  /** Worker h is still running, the items behind it up to j are done. */
  ghost function HeldWorkers<A, B>(c: Config<A, B>, h: nat, j: nat): (ws: seq<Worker<A>>)
    requires h < j <= |c.src|
  {
    seq(j, i requires 0 <= i < |c.src| => if i == h then Worker(h, c.src[h], Running) else Spent(c, i))
  }

  /** Their results, in the reorder map. */
  ghost function HeldResults<A, B>(c: Config<A, B>, h: nat, j: nat): map<nat, IndexedResult<B>>
    requires j <= |c.src|
  {
    map i: nat | h < i < j :: c.Result(i)
  }

  /** A Next call waits for item h, whose worker is still running, and has taken in the
      results behind it up to j. */
  ghost function Held<A, B>(c: Config<A, B>, h: nat, j: nat): State<A, B>
    requires h < j <= |c.src|
  {
    State(Dispatcher(Fetching, j, false, false, j, false), j - h, Pool(HeldWorkers(c, h, j), 1, 1), [], false,
          Contexts(Watching, false, false, false, false, true),
          Settled(c, h).k.(phase := AtSelect, pending := HeldResults(c, h, j)), 0, false)
  }

  lemma HoldFirst<A, B>(c: Config<A, B>, h: nat)
    requires CanHole(c, h)
    ensures ReachableAs(c, Held(c, h, h + 1), Anyhow)
  {
    Settle(c, h, Anyhow);
    Launch(c, Settled(c, h), Anyhow);
    var s := Launched(c, Settled(c, h));
    Take(c, s, Consume(CallNext), Anyhow);
    var s1 := Step(c, s, Consume(CallNext));
    Take(c, s1, Consume(LookPast), Anyhow);
    assert s.p.ws == HeldWorkers(c, h, h + 1);
    assert HeldResults(c, h, h + 1) == map[];
    assert Step(c, s1, Consume(LookPast)) == Held(c, h, h + 1);
  }

  /** One more result has been sent behind the one that is held back. */
  ghost function Arrived<A, B>(c: Config<A, B>, h: nat, j: nat): State<A, B>
    requires h < j < |c.src|
  {
    Held(c, h, j + 1).(k := Held(c, h, j).k, queue := [c.Result(j)])
  }

  lemma SendBehind<A, B>(c: Config<A, B>, h: nat, j: nat)
    requires CanHole(c, h) && h < j < |c.src| && ReachableAs(c, Held(c, h, j), Anyhow)
    ensures ReachableAs(c, Arrived(c, h, j), Anyhow)
  {
    var s := Launched(c, Held(c, h, j));
    Launch(c, Held(c, h, j), Anyhow);
    Send(c, s, j, Anyhow);
    Unwind(c, Sent(c, s, j), j, Anyhow);
    assert Sent(c, s, j).queue == [c.Result(j)];
    assert Advance(Sent(c, s, j).p.ws, j, Gone) == HeldWorkers(c, h, j + 1);
  }

  /** A waiting ordered call takes in a result that is not the one it waits for. */
  lemma TakeInto<A, B>(c: Config<A, B>, s: State<A, B>, r: IndexedResult<B>)
    requires ReachableAs(c, s, Anyhow) && !s.crashed && c.ordered && s.queue == [r]
    requires s.k.phase.AtSelect? && !HeadReady(c, s.k) && r.idx != s.k.nextIdx
    ensures ReachableAs(c, s.(k := s.k.(pending := s.k.pending[r.idx := r]), queue := []), Anyhow)
  {
    Take(c, s, Consume(Receive), Anyhow);
    var s1 := Step(c, s, Consume(Receive));
    assert s.queue[1..] == [];
    Take(c, s1, Consume(LookPast), Anyhow);
  }

  lemma TakenIn<A, B>(c: Config<A, B>, h: nat, j: nat)
    requires h < j < |c.src|
    ensures var s := Arrived(c, h, j);
      s.(k := s.k.(pending := s.k.pending[j := c.Result(j)]), queue := []) == Held(c, h, j + 1)
  {
    assert HeldResults(c, h, j)[j := c.Result(j)] == HeldResults(c, h, j + 1);
  }

  lemma HoldNext<A, B>(c: Config<A, B>, h: nat, j: nat)
    requires CanHole(c, h) && h < j < |c.src| && ReachableAs(c, Held(c, h, j), Anyhow)
    ensures ReachableAs(c, Held(c, h, j + 1), Anyhow)
  {
    SendBehind(c, h, j);
    TakeInto(c, Arrived(c, h, j), c.Result(j));
    TakenIn(c, h, j);
  }

  lemma {:induction false} HoldAll<A, B>(c: Config<A, B>, h: nat, j: nat)
    requires CanHole(c, h) && h < j <= |c.src|
    ensures ReachableAs(c, Held(c, h, j), Anyhow)
  {
    if j == h + 1 {
      HoldFirst(c, h);
    } else {
      HoldAll(c, h, j - 1);
      HoldNext(c, h, j - 1);
    }
  }

  /** The source panics, worker h drops its result, and the waiting call stands before the
      closed channel with everything behind item h in its map. */
  lemma BehindTheHole<A, B>(c: Config<A, B>, h: nat) returns (s: State<A, B>)
    requires CanHole(c, h)
    ensures Reachable(c, s) && !s.crashed && s.x.Quiet() && s.closed && s.queue == []
    ensures s.k == Held(c, h, |c.src|).k
  {
    HoldAll(c, h, |c.src|);
    s := Held(c, h, |c.src|);
    PanicAndCancel(c, s, Anyhow);
    s := Unwinding(s);
    Drop(c, s, h, Anyhow);
    s := Dropped(s, h);
    ShutDown(c, s, Anyhow);
    s := Shut(s);
  }
}
