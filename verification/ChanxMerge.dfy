/** chanx.Merge: forwarders and a closer. */
module ChanxMerge {
  // One forwarder goroutine per non-nil input, and a closer that waits for them all. Each
  // select is one step; which ready case it picks is up to the scheduler.

  import opened Counting

  datatype Forwarder<+T> = AtSelect | Holding(v: T) | Exited

  /** `log` is what was sent on the output, each item with the input it came from. */
  datatype State<+T> = State(
    fs: seq<Forwarder<T>>, read: seq<nat>, log: seq<(nat, T)>, wg: int, cancelled: bool, closed: bool)

  /** The items each input will ever deliver before it is closed. */
  type Inputs<+T> = seq<seq<T>>

  datatype Op = Receive | SeeClosed | Send | CtxDone

  datatype Action = Of(i: nat, op: Op) | CloseOut | Cancel

  ghost function Start<T>(inputs: Inputs<T>): State<T> {
    State(seq(|inputs|, _ => AtSelect), seq(|inputs|, _ => 0), [], |inputs|, false, false)
  }

  /** A Send is a rendezvous, so it also stands for the consumer being ready; sending on a
      closed channel would panic, and nothing here rules it out. */
  ghost predicate Enabled<T>(inputs: Inputs<T>, s: State<T>, a: Action) {
    && |s.fs| == |s.read| == |inputs|
    && match a
       case Of(i, op) =>
         i < |s.fs| && (match op
           case Receive => s.fs[i].AtSelect? && s.read[i] < |inputs[i]|
           case SeeClosed => s.fs[i].AtSelect? && s.read[i] == |inputs[i]|
           case Send => s.fs[i].Holding?
           case CtxDone => !s.fs[i].Exited? && s.cancelled)
       case CloseOut => s.wg == 0 && !s.closed
       case Cancel => !s.cancelled
  }

  ghost function Step<T>(inputs: Inputs<T>, s: State<T>, a: Action): State<T>
    requires Enabled(inputs, s, a)
  {
    match a
    case Of(i, Receive) => s.(fs := s.fs[i := Holding(inputs[i][s.read[i]])], read := s.read[i := s.read[i] + 1])
    case Of(i, Send) => s.(fs := s.fs[i := AtSelect], log := s.log + [(i, s.fs[i].v)])
    case Of(i, _) => s.(fs := s.fs[i := Exited], wg := s.wg - 1)
    case CloseOut => s.(closed := true)
    case Cancel => s.(cancelled := true)
  }

  ghost predicate CanRun<T>(inputs: Inputs<T>, s: State<T>, run: seq<Action>)
    decreases |run|
  {
    run == [] || (Enabled(inputs, s, run[0]) && CanRun(inputs, Step(inputs, s, run[0]), run[1..]))
  }

  ghost function After<T>(inputs: Inputs<T>, s: State<T>, run: seq<Action>): State<T>
    requires CanRun(inputs, s, run)
    decreases |run|
  {
    if run == [] then s else After(inputs, Step(inputs, s, run[0]), run[1..])
  }

  ghost predicate Reachable<T>(inputs: Inputs<T>, s: State<T>) {
    exists run :: CanRun(inputs, Start(inputs), run) && After(inputs, Start(inputs), run) == s
  }

  /** The items of the log that came from input i. */
  ghost function From<T>(log: seq<(nat, T)>, i: nat): seq<T> {
    if log == [] then []
    else From(log[..|log| - 1], i) + (if log[|log| - 1].0 == i then [log[|log| - 1].1] else [])
  }

  lemma FromAppend<T>(log: seq<(nat, T)>, i: nat, e: (nat, T))
    ensures From(log + [e], i) == From(log, i) + (if e.0 == i then [e.1] else [])
  {
    assert (log + [e])[..|log|] == log;
  }

  ghost function Live<T>(f: Forwarder<T>): nat { if f.Exited? then 0 else 1 }

  /** Input i: what was sent from it is what was read, but for the item in hand. */
  ghost predicate Faithful<T>(input: seq<T>, f: Forwarder<T>, read: nat, sent: seq<T>, cancelled: bool) {
    && read <= |input|
    && match f
       case AtSelect => sent == input[..read]
       case Holding(v) => read > 0 && sent == input[..read - 1] && v == input[read - 1]
       case Exited => (sent == input[..read] || (read > 0 && sent == input[..read - 1]))
                      && (!cancelled ==> sent == input)
  }

  ghost predicate Inv<T>(inputs: Inputs<T>, s: State<T>) {
    && |s.fs| == |s.read| == |inputs|
    && (forall i :: 0 <= i < |inputs| ==> Faithful(inputs[i], s.fs[i], s.read[i], From(s.log, i), s.cancelled))
    && (forall e :: e in s.log ==> e.0 < |inputs|)
    && s.wg == Sum(s.fs, Live)
    && (s.closed ==> s.wg == 0)
  }

  /** What a step of forwarder i does to its own input's books. */
  lemma OwnStep<T>(inputs: Inputs<T>, s: State<T>, i: nat, op: Op)
    requires Enabled(inputs, s, Of(i, op))
    requires Faithful(inputs[i], s.fs[i], s.read[i], From(s.log, i), s.cancelled)
    ensures var s' := Step(inputs, s, Of(i, op));
      Faithful(inputs[i], s'.fs[i], s'.read[i], From(s'.log, i), s'.cancelled)
  {
    match op
    case Receive =>
    case SeeClosed =>
      assert inputs[i][..s.read[i]] == inputs[i];
    case Send =>
      FromAppend(s.log, i, (i, s.fs[i].v));
      assert inputs[i][..s.read[i]] == inputs[i][..s.read[i] - 1] + [inputs[i][s.read[i] - 1]];
    case CtxDone =>
  }

  /** The other inputs' books are untouched. */
  lemma OtherStep<T>(inputs: Inputs<T>, s: State<T>, i: nat, op: Op, j: nat)
    requires Enabled(inputs, s, Of(i, op)) && j != i && j < |inputs|
    ensures var s' := Step(inputs, s, Of(i, op));
      s'.fs[j] == s.fs[j] && s'.read[j] == s.read[j] && From(s'.log, j) == From(s.log, j) && s'.cancelled == s.cancelled
  {
    if op.Send? {
      FromAppend(s.log, j, (i, s.fs[i].v));
    }
  }

  lemma ForwarderKeepsBooks<T>(inputs: Inputs<T>, s: State<T>, i: nat, op: Op, j: nat)
    requires Inv(inputs, s) && Enabled(inputs, s, Of(i, op)) && j < |inputs|
    ensures var s' := Step(inputs, s, Of(i, op));
      Faithful(inputs[j], s'.fs[j], s'.read[j], From(s'.log, j), s'.cancelled)
  {
    assert Faithful(inputs[j], s.fs[j], s.read[j], From(s.log, j), s.cancelled);
    if j == i {
      OwnStep(inputs, s, i, op);
    } else {
      OtherStep(inputs, s, i, op, j);
    }
  }

  lemma ForwarderKeepsGate<T>(inputs: Inputs<T>, s: State<T>, i: nat, op: Op)
    requires Inv(inputs, s) && Enabled(inputs, s, Of(i, op))
    ensures var s' := Step(inputs, s, Of(i, op));
      && s'.wg == Sum(s'.fs, Live) && !s'.closed
      && |s'.fs| == |s'.read| == |inputs|
      && forall e :: e in s'.log ==> e.0 < |inputs|
  {
    SumUpdate(s.fs, i, Step(inputs, s, Of(i, op)).fs[i], Live);
    SumAtLeast(s.fs, i, Live);
  }

  lemma ForwarderKeepsInv<T>(inputs: Inputs<T>, s: State<T>, i: nat, op: Op)
    requires Inv(inputs, s) && Enabled(inputs, s, Of(i, op))
    ensures Inv(inputs, Step(inputs, s, Of(i, op)))
  {
    ForwarderKeepsGate(inputs, s, i, op);
    var s' := Step(inputs, s, Of(i, op));
    forall j | 0 <= j < |inputs|
      ensures Faithful(inputs[j], s'.fs[j], s'.read[j], From(s'.log, j), s'.cancelled)
    {
      ForwarderKeepsBooks(inputs, s, i, op, j);
    }
  }

  lemma StepKeepsInv<T>(inputs: Inputs<T>, s: State<T>, a: Action)
    requires Inv(inputs, s) && Enabled(inputs, s, a)
    ensures Inv(inputs, Step(inputs, s, a))
  {
    match a
    case Of(i, op) =>
      ForwarderKeepsInv(inputs, s, i, op);
    case CloseOut =>
    case Cancel =>
      forall i | 0 <= i < |inputs|
        ensures Faithful(inputs[i], s.fs[i], s.read[i], From(s.log, i), true)
      {
        assert Faithful(inputs[i], s.fs[i], s.read[i], From(s.log, i), s.cancelled);
      }
  }

  lemma StartInv<T>(inputs: Inputs<T>)
    ensures Inv(inputs, Start(inputs))
  {
    SumOfAll(Start(inputs).fs, Live);
  }

  lemma {:induction false} RunKeepsInv<T>(inputs: Inputs<T>, s: State<T>, run: seq<Action>)
    requires Inv(inputs, s) && CanRun(inputs, s, run)
    ensures Inv(inputs, After(inputs, s, run))
    decreases |run|
  {
    if run != [] {
      StepKeepsInv(inputs, s, run[0]);
      RunKeepsInv(inputs, Step(inputs, s, run[0]), run[1..]);
    }
  }

  lemma ReachableInv<T>(inputs: Inputs<T>, s: State<T>)
    requires Reachable(inputs, s)
    ensures Inv(inputs, s)
  {
    var run :| CanRun(inputs, Start(inputs), run) && After(inputs, Start(inputs), run) == s;
    StartInv(inputs);
    RunKeepsInv(inputs, Start(inputs), run);
  }

  /** At every moment the output, restricted to one input, is a prefix of that input. */
  lemma SourceOrder<T>(inputs: Inputs<T>, s: State<T>, i: nat)
    requires Reachable(inputs, s) && i < |inputs|
    ensures From(s.log, i) <= inputs[i]
  {
    ReachableInv(inputs, s);
    assert Faithful(inputs[i], s.fs[i], s.read[i], From(s.log, i), s.cancelled);
  }

  /** Nothing is sent once the output is closed, and it is closed at most once. */
  lemma NoSendAfterClose<T>(inputs: Inputs<T>, s: State<T>, a: Action)
    requires Reachable(inputs, s) && s.closed && Enabled(inputs, s, a)
    ensures a.Cancel?
  {
    ReachableInv(inputs, s);
    SumZero(s.fs, Live);
    assert a.Of? && a.i < |s.fs| ==> Live(s.fs[a.i]) == 0;
  }

  /** When the output is closed without a cancellation, it holds all of every input and
      nothing else. */
  lemma ClosedIsComplete<T>(inputs: Inputs<T>, s: State<T>)
    requires Reachable(inputs, s) && s.closed && !s.cancelled
    ensures forall i :: 0 <= i < |inputs| ==> From(s.log, i) == inputs[i]
    ensures forall e :: e in s.log ==> e.0 < |inputs|
  {
    ReachableInv(inputs, s);
    SumZero(s.fs, Live);
    forall i | 0 <= i < |inputs| ensures From(s.log, i) == inputs[i] {
      assert Live(s.fs[i]) == 0;
      assert Faithful(inputs[i], s.fs[i], s.read[i], From(s.log, i), s.cancelled);
    }
  }

  // ---------------------------------------------------------------------- progress

  /** Steps left for input i's forwarder: two per item to come, one per item in hand, and
      the exit. */
  ghost function StepsLeft<T>(input: seq<T>, f: Forwarder<T>, read: nat): nat
    requires read <= |input|
  {
    match f
    case AtSelect => 2 * (|input| - read) + 1
    case Holding(_) => 2 * (|input| - read) + 2
    case Exited => 0
  }

  ghost function TotalLeft<T>(inputs: Inputs<T>, fs: seq<Forwarder<T>>, read: seq<nat>): nat
    requires |fs| == |read| == |inputs|
    requires forall i :: 0 <= i < |inputs| ==> read[i] <= |inputs[i]|
  {
    if inputs == [] then 0
    else
      var m := |inputs| - 1;
      TotalLeft(inputs[..m], fs[..m], read[..m]) + StepsLeft(inputs[m], fs[m], read[m])
  }

  lemma {:induction false} TotalUpdate<T>(inputs: Inputs<T>, fs: seq<Forwarder<T>>, read: seq<nat>,
                                          i: nat, f: Forwarder<T>, r: nat)
    requires |fs| == |read| == |inputs| && i < |inputs|
    requires forall j :: 0 <= j < |inputs| ==> read[j] <= |inputs[j]|
    requires r <= |inputs[i]|
    ensures TotalLeft(inputs, fs[i := f], read[i := r]) + StepsLeft(inputs[i], fs[i], read[i])
         == TotalLeft(inputs, fs, read) + StepsLeft(inputs[i], f, r)
  {
    var m := |inputs| - 1;
    if i == m {
      assert fs[i := f][..m] == fs[..m] && read[i := r][..m] == read[..m];
    } else {
      TotalUpdate(inputs[..m], fs[..m], read[..m], i, f, r);
      assert fs[i := f][..m] == fs[..m][i := f] && read[i := r][..m] == read[..m][i := r];
    }
  }

  ghost function Measure<T>(inputs: Inputs<T>, s: State<T>): nat
    requires Inv(inputs, s)
  {
    TotalLeft(inputs, s.fs, s.read) + (if s.closed then 0 else 1) + (if s.cancelled then 0 else 1)
  }

  /** No run goes on forever: every step uses up some of the measure. */
  lemma StepDrops<T>(inputs: Inputs<T>, s: State<T>, a: Action)
    requires Inv(inputs, s) && Enabled(inputs, s, a)
    ensures Inv(inputs, Step(inputs, s, a))
    ensures Measure(inputs, Step(inputs, s, a)) < Measure(inputs, s)
  {
    StepKeepsInv(inputs, s, a);
    if a.Of? {
      var s' := Step(inputs, s, a);
      TotalUpdate(inputs, s.fs, s.read, a.i, s'.fs[a.i], s'.read[a.i]);
      assert s'.fs == s.fs[a.i := s'.fs[a.i]] && s'.read == s.read[a.i := s'.read[a.i]];
    }
  }

  /** Until the output is closed something other than a cancellation can happen, and after
      a cancellation it does not even take a consumer. */
  lemma CanProceed<T>(inputs: Inputs<T>, s: State<T>) returns (a: Action)
    requires Reachable(inputs, s) && !s.closed
    ensures Enabled(inputs, s, a) && !a.Cancel?
    ensures s.cancelled ==> !(a.Of? && a.op.Send?)
  {
    ReachableInv(inputs, s);
    if s.wg == 0 {
      a := CloseOut;
    } else {
      var i := SumPositive(s.fs, Live);
      if s.cancelled {
        a := Of(i, CtxDone);
      } else {
        assert Faithful(inputs[i], s.fs[i], s.read[i], From(s.log, i), s.cancelled);
        a := if s.fs[i].Holding? then Of(i, Send)
             else if s.read[i] < |inputs[i]| then Of(i, Receive) else Of(i, SeeClosed);
      }
    }
  }

  /** No run is longer than the measure it starts with. With CanProceed: a consumer that
      keeps reading sees the output closed. */
  lemma {:induction false} RunIsBounded<T>(inputs: Inputs<T>, s: State<T>, run: seq<Action>)
    requires Inv(inputs, s) && CanRun(inputs, s, run)
    ensures Inv(inputs, After(inputs, s, run))
    ensures |run| + Measure(inputs, After(inputs, s, run)) <= Measure(inputs, s)
    decreases |run|
  {
    if run != [] {
      StepDrops(inputs, s, run[0]);
      RunIsBounded(inputs, Step(inputs, s, run[0]), run[1..]);
    }
  }
}
