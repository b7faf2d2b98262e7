/** chanx.BufferWithReason: the batching loop with its timer and flush reasons. */
module ChanxBuffer {
  datatype Reason = FlushSize | FlushTimeout | FlushClose

  datatype BatchResult<+T> = BatchResult(items: seq<T>, reason: Reason)

  /** What the outer select picks. `taken` says how an inner select ends if this event
      leads to one: the consumer takes the batch, or ctx.Done is picked. */
  datatype Event<+T> =
    | Value(v: T, taken: bool)
    | InputClosed(taken: bool)
    | TimerFires(taken: bool)
    | CtxDone(taken: bool)

  /** Until the context is cancelled, at event `cancelAt`, no select can pick ctx.Done. */
  ghost predicate Plausible<T>(events: seq<Event<T>>, cancelAt: nat) {
    forall i :: 0 <= i < |events| && i < cancelAt ==> events[i].taken && !events[i].CtxDone?
  }

  function Concat<T>(bs: seq<BatchResult<T>>): seq<T> {
    if bs == [] then [] else Concat(bs[..|bs| - 1]) + bs[|bs| - 1].items
  }

  lemma ConcatAppend<T>(bs: seq<BatchResult<T>>, b: BatchResult<T>)
    ensures Concat(bs + [b]) == Concat(bs) + b.items
  {
    assert (bs + [b])[..|bs|] == bs;
  }

  /** The items read from the input by the first k events. */
  function Values<T>(events: seq<Event<T>>): seq<T> {
    if events == [] then []
    else
      var e := events[|events| - 1];
      Values(events[..|events| - 1]) + (if e.Value? then [e.v] else [])
  }

  lemma ValuesStep<T>(events: seq<Event<T>>, from: nat, k: nat)
    requires from <= k < |events|
    ensures Values(events[from..k + 1]) == Values(events[from..k]) + (if events[k].Value? then [events[k].v] else [])
  {
    assert events[from..k + 1][..k - from] == events[from..k];
  }

  /** Batch b was read between two cuts and went out at the second of them, the event of
      which filled it or was its timer. */
  ghost predicate CutFrom<T>(events: seq<Event<T>>, from: nat, at: nat, b: BatchResult<T>) {
    && from < at <= |events|
    && b.items == Values(events[from..at])
    && events[at - 1].taken
    && match b.reason
       case FlushSize => events[at - 1].Value?
       case FlushTimeout => events[at - 1].TimerFires?
       case FlushClose => false
  }

  /** The batches sent are the items read between successive cuts of the schedule. */
  ghost predicate CutInto<T>(events: seq<Event<T>>, cuts: seq<nat>, out: seq<BatchResult<T>>) {
    && |cuts| == |out| + 1 && cuts[0] == 0
    && forall i {:trigger out[i]} :: 0 <= i < |out| ==> CutFrom(events, cuts[i], cuts[i + 1], out[i])
  }

  /** Where the open batch begins. */
  function LastCut(cuts: seq<nat>): nat
    requires cuts != []
  {
    cuts[|cuts| - 1]
  }

  /** Nothing has been read since the last cut before event k. */
  ghost predicate NoneOpen<T>(events: seq<Event<T>>, cuts: seq<nat>, k: nat)
    requires k <= |events|
  {
    exists from :: 0 <= from <= k && from in cuts && Values(events[from..k]) == []
  }

  /** The loop goes round again after each of the first n events: none of them is the close
      or the cancellation, and no timer leaves a batch open. */
  ghost predicate GoesOn<T>(events: seq<Event<T>>, cuts: seq<nat>, n: nat)
    requires n <= |events|
  {
    forall k :: 0 <= k < n ==>
      && !events[k].InputClosed? && !events[k].CtxDone?
      && (events[k].TimerFires? ==> NoneOpen(events, cuts, k + 1))
  }

  /** The batches sent are cut from the first `used` events, and `batch` is what is open. */
  ghost predicate Cuts<T>(events: seq<Event<T>>, cuts: seq<nat>, used: nat, out: seq<BatchResult<T>>, batch: seq<T>)
    requires used <= |events|
  {
    CutInto(events, cuts, out) && LastCut(cuts) <= used && batch == Values(events[LastCut(cuts)..used])
  }

  lemma OneMoreCut<T>(events: seq<Event<T>>, cuts: seq<nat>, at: nat, out: seq<BatchResult<T>>, b: BatchResult<T>)
    requires CutInto(events, cuts, out) && CutFrom(events, LastCut(cuts), at, b)
    ensures CutInto(events, cuts + [at], out + [b])
  {
    var cuts', out' := cuts + [at], out + [b];
    forall i {:trigger out'[i]} | 0 <= i < |out'| ensures CutFrom(events, cuts'[i], cuts'[i + 1], out'[i]) {
      assert i < |out| ==> CutFrom(events, cuts[i], cuts[i + 1], out[i]);
    }
  }

  /** What one turn does to the cuts: nothing is sent and the event only adds to the open
      batch, or the open batch with what the event adds is sent. */
  lemma CutTurn<T>(events: seq<Event<T>>, cuts: seq<nat>, used: nat, out: seq<BatchResult<T>>, batch: seq<T>,
                   out': seq<BatchResult<T>>, batch': seq<T>) returns (cuts': seq<nat>)
    requires used < |events| && Cuts(events, cuts, used, out, batch)
    requires var e := events[used]; var read := batch + (if e.Value? then [e.v] else []);
      || (out' == out && batch' == read)
      || (out' != [] && out' == out + [out'[|out'| - 1]] && out'[|out'| - 1].items == read && batch' == [] && e.taken
          && out'[|out'| - 1].reason == (if e.Value? then FlushSize else FlushTimeout) && (e.Value? || e.TimerFires?))
    ensures Cuts(events, cuts', used + 1, out', batch') && cuts <= cuts' && (out' == out ==> cuts' == cuts)
  {
    ValuesStep(events, LastCut(cuts), used);
    cuts' := cuts;
    if out' != out {
      OneMoreCut(events, cuts, used + 1, out, out'[|out'| - 1]);
      assert events[used + 1..used + 1] == [];
      cuts' := cuts + [used + 1];
    }
  }

  lemma CutsKeepGoing<T>(events: seq<Event<T>>, cuts: seq<nat>, cuts': seq<nat>, n: nat)
    requires n <= |events| && GoesOn(events, cuts, n) && cuts <= cuts'
    ensures GoesOn(events, cuts', n)
  {
    forall k | 0 <= k < n && events[k].TimerFires? ensures NoneOpen(events, cuts', k + 1) {
      var from :| 0 <= from <= k + 1 && from in cuts && Values(events[from..k + 1]) == [];
      assert from in cuts';
    }
  }

  lemma GoesOnTurn<T>(events: seq<Event<T>>, cuts: seq<nat>, used: nat, out: seq<BatchResult<T>>, batch: seq<T>)
    requires used < |events| && GoesOn(events, cuts, used) && Cuts(events, cuts, used + 1, out, batch)
    requires !events[used].InputClosed? && !events[used].CtxDone? && (events[used].TimerFires? ==> batch == [])
    ensures GoesOn(events, cuts, used + 1)
  {
    assert LastCut(cuts) in cuts;
  }

  /** Inside the loop, batches are flushed for size or for the timer only: full ones for
      size, shorter non-empty ones for the timer. */
  ghost predicate FitsReason(length: nat, reason: Reason, size: nat) {
    match reason
    case FlushSize => length == size
    case FlushTimeout => 1 <= length < size
    case FlushClose => false
  }

  ghost predicate WellSent<T>(out: seq<BatchResult<T>>, size: nat) {
    forall i :: 0 <= i < |out| ==> FitsReason(|out[i].items|, out[i].reason, size)
  }

  // ------------------------------------------------------------------ counting timeouts

  /** The batches sent on a timeout. */
  ghost function Timeouts<T>(out: seq<BatchResult<T>>): set<nat> {
    set i: nat | i < |out| && out[i].reason.FlushTimeout?
  }

  /** Of the first n events, the timers that were taken and found a batch open. */
  ghost function OpenTimers<T>(events: seq<Event<T>>, cuts: seq<nat>, n: nat): set<nat>
    requires n <= |events|
  {
    set k: nat | k < n && events[k].TimerFires? && events[k].taken && !NoneOpen(events, cuts, k)
  }

  lemma {:induction false} CutsIncrease<T>(events: seq<Event<T>>, cuts: seq<nat>, out: seq<BatchResult<T>>, i: nat, j: nat)
    requires CutInto(events, cuts, out) && i <= j < |cuts|
    ensures cuts[i] <= cuts[j]
    ensures i < j ==> cuts[i] < cuts[j]
    decreases j
  {
    if i < j {
      CutsIncrease(events, cuts, out, i, j - 1);
      assert CutFrom(events, cuts[j - 1], cuts[j], out[j - 1]);
    }
  }

  lemma {:induction false} ValuesSplit<T>(events: seq<Event<T>>, from: nat, mid: nat, k: nat)
    requires from <= mid <= k <= |events|
    ensures Values(events[from..k]) == Values(events[from..mid]) + Values(events[mid..k])
    decreases k
  {
    if mid == k {
      assert events[mid..k] == [];
    } else {
      ValuesSplit(events, from, mid, k - 1);
      ValuesStep(events, from, k - 1);
      ValuesStep(events, mid, k - 1);
    }
  }

  /** A timeout batch was open when its timer was taken. */
  lemma TimeoutWasOpen<T>(events: seq<Event<T>>, cuts: seq<nat>, out: seq<BatchResult<T>>, size: nat, i: nat)
    requires CutInto(events, cuts, out) && WellSent(out, size) && i < |out| && out[i].reason.FlushTimeout?
    ensures 0 < cuts[i + 1] <= LastCut(cuts) && cuts[i + 1] <= |events|
    ensures var k := cuts[i + 1] - 1; events[k].TimerFires? && events[k].taken && !NoneOpen(events, cuts, k)
  {
    var k := cuts[i + 1] - 1;
    CutsIncrease(events, cuts, out, i + 1, |cuts| - 1);
    assert CutFrom(events, cuts[i], cuts[i + 1], out[i]) && FitsReason(|out[i].items|, out[i].reason, size);
    ValuesStep(events, cuts[i], k);
    forall from | 0 <= from <= k && from in cuts ensures Values(events[from..k]) != [] {
      var j :| 0 <= j < |cuts| && cuts[j] == from;
      if i < j {
        CutsIncrease(events, cuts, out, i + 1, j);
      } else {
        CutsIncrease(events, cuts, out, j, i);
        ValuesSplit(events, from, cuts[i], k);
      }
    }
  }

  /** A timer that found a batch open sent it. */
  lemma OpenTimerSent<T>(events: seq<Event<T>>, cuts: seq<nat>, out: seq<BatchResult<T>>, n: nat, k: nat)
    requires n <= |events| && CutInto(events, cuts, out) && GoesOn(events, cuts, n)
    requires k < n && events[k].TimerFires? && !NoneOpen(events, cuts, k)
    ensures exists i :: 0 <= i < |out| && cuts[i + 1] == k + 1 && out[i].reason.FlushTimeout?
  {
    assert NoneOpen(events, cuts, k + 1);
    var from :| 0 <= from <= k + 1 && from in cuts && Values(events[from..k + 1]) == [];
    if from <= k {
      ValuesStep(events, from, k);
      assert false;
    }
    var i :| 0 <= i < |cuts| && cuts[i] == k + 1;
    assert CutFrom(events, cuts[i - 1], cuts[i], out[i - 1]);
  }

  /** Injective images are as large as what they are images of. */
  lemma {:induction false} ImageSize(indices: set<nat>, image: set<nat>, f: seq<nat>)
    requires forall i :: i in indices ==> i < |f| && f[i] in image
    requires forall x :: x in image ==> exists i :: i in indices && f[i] == x
    requires forall i, j :: i in indices && j in indices && f[i] == f[j] ==> i == j
    ensures |indices| == |image|
    decreases indices
  {
    if indices == {} {
      assert image == {};
    } else {
      var i :| i in indices;
      ImageSize(indices - {i}, image - {f[i]}, f);
    }
  }

  /** The event at which each batch was sent. */
  ghost function SentAt<T>(events: seq<Event<T>>, cuts: seq<nat>, out: seq<BatchResult<T>>): (at: seq<nat>)
    requires CutInto(events, cuts, out)
    ensures |at| == |out| && forall i {:trigger out[i]} :: 0 <= i < |out| ==> at[i] + 1 == cuts[i + 1]
  {
    seq(|out|, i requires 0 <= i < |out| =>
      assert CutFrom(events, cuts[i], cuts[i + 1], out[i]);
      cuts[i + 1] - 1)
  }

  lemma TimeoutAtTimer<T>(events: seq<Event<T>>, cuts: seq<nat>, out: seq<BatchResult<T>>, size: nat, n: nat, i: nat)
    requires CutInto(events, cuts, out) && WellSent(out, size) && LastCut(cuts) <= n <= |events|
    requires i in Timeouts(out)
    ensures SentAt(events, cuts, out)[i] in OpenTimers(events, cuts, n)
  {
    assert out[i].reason.FlushTimeout?;
    TimeoutWasOpen(events, cuts, out, size, i);
  }

  lemma TimerAtTimeout<T>(events: seq<Event<T>>, cuts: seq<nat>, out: seq<BatchResult<T>>, n: nat, k: nat) returns (i: nat)
    requires n <= |events| && CutInto(events, cuts, out) && GoesOn(events, cuts, n)
    requires k in OpenTimers(events, cuts, n)
    ensures i in Timeouts(out) && SentAt(events, cuts, out)[i] == k
  {
    OpenTimerSent(events, cuts, out, n, k);
    i :| 0 <= i < |out| && cuts[i + 1] == k + 1 && out[i].reason.FlushTimeout?;
  }

  lemma SentAtDiffer<T>(events: seq<Event<T>>, cuts: seq<nat>, out: seq<BatchResult<T>>, i: nat, j: nat)
    requires CutInto(events, cuts, out) && i < |out| && j < |out|
    requires SentAt(events, cuts, out)[i] == SentAt(events, cuts, out)[j]
    ensures i == j
  {
    assert cuts[i + 1] == cuts[j + 1] by {
      assert out[i] == out[i] && out[j] == out[j];
    }
    if i < j {
      CutsIncrease(events, cuts, out, i + 1, j + 1);
    } else if j < i {
      CutsIncrease(events, cuts, out, j + 1, i + 1);
    }
  }

  /** The number of batches sent on a timeout is the number of taken timers that found a
      batch open: no such timer goes unanswered, and none is answered twice. */
  lemma TimeoutsAreTimers<T>(events: seq<Event<T>>, cuts: seq<nat>, out: seq<BatchResult<T>>, size: nat, n: nat)
    requires CutInto(events, cuts, out) && WellSent(out, size)
    requires LastCut(cuts) <= n <= |events| && GoesOn(events, cuts, n)
    ensures |Timeouts(out)| == |OpenTimers(events, cuts, n)|
  {
    var at := SentAt(events, cuts, out);
    var batches, timers := Timeouts(out), OpenTimers(events, cuts, n);
    forall i | i in batches ensures i < |at| && at[i] in timers {
      TimeoutAtTimer(events, cuts, out, size, n, i);
    }
    forall k | k in timers ensures exists i :: i in batches && at[i] == k {
      var i := TimerAtTimeout(events, cuts, out, n, k);
    }
    forall i, j | i in batches && j in batches && at[i] == at[j] ensures i == j {
      SentAtDiffer(events, cuts, out, i, j);
    }
    ImageSize(batches, timers, at);
  }

  // --------------------------------------------------------------------------- the loop

  /** The goroutine's variables and what it has sent. */
  class Loop<T> {
    const size: nat
    var batch: seq<T>
    var timerArmed: bool
    var out: seq<BatchResult<T>>

    /** What holds at every loop head: the timer runs exactly while a batch is open, and
        an open batch is shorter than size. */
    ghost predicate AtHead()
      reads this
    {
      size > 0 && |batch| < size && (timerArmed <==> batch != []) && WellSent(out, size)
    }

    constructor (size: nat)
      requires size > 0
      ensures AtHead() && this.size == size && batch == [] && out == []
    {
      this.size := size;
      batch, timerArmed, out := [], false, [];
    }

    /** flush: false when ctx.Done ended the send, which leaves the batch in place. */
    method Flush(reason: Reason, taken: bool) returns (ok: bool)
      requires WellSent(out, size) && (batch == [] || FitsReason(|batch|, reason, size))
      modifies this
      ensures ok == (taken || old(batch) == [])
      ensures if ok && old(batch) != []
              then out == old(out) + [BatchResult(old(batch), reason)] && batch == [] && !timerArmed
              else out == old(out) && batch == old(batch) && timerArmed == old(timerArmed)
      ensures WellSent(out, size) && Concat(out) + batch == Concat(old(out)) + old(batch)
    {
      if |batch| == 0 {
        return true;
      }
      if !taken {
        return false;
      }
      ConcatAppend(out, BatchResult(batch, reason));
      out := out + [BatchResult(batch, reason)];
      batch := [];
      timerArmed := false;
      return true;
    }

    /** The branch that reads an item: true to go round again. */
    method Accept(v: T, taken: bool) returns (goOn: bool)
      requires AtHead()
      modifies this
      ensures goOn == (|old(batch)| + 1 < size || taken)
      // the batch it fills goes out at once, and only that one
      ensures if |old(batch)| + 1 == size && taken
              then out == old(out) + [BatchResult(old(batch) + [v], FlushSize)] && batch == []
              else out == old(out) && batch == old(batch) + [v]
      ensures goOn ==> AtHead()
      ensures |batch| <= size && WellSent(out, size)
      ensures Concat(out) + batch == Concat(old(out)) + old(batch) + [v]
    {
      batch := batch + [v];
      if |batch| == 1 {
        timerArmed := true;
      }
      assert Concat(out) + batch == Concat(old(out)) + old(batch) + [v];
      goOn := true;
      if |batch| >= size {
        goOn := Flush(FlushSize, taken);
      }
    }

    /** One turn of the loop; false means the goroutine returns. The timer channel is nil,
        and cannot be picked, while the timer is not armed. */
    method Turn(e: Event<T>) returns (goOn: bool)
      requires AtHead()
      modifies this
      // an item that does not fill the batch only joins it
      ensures e.Value? && |old(batch)| + 1 < size ==> goOn && out == old(out) && batch == old(batch) + [e.v]
      // one that does sends the batch for its size, unless the context wins
      ensures e.Value? && |old(batch)| + 1 == size && e.taken ==>
        goOn && out == old(out) + [BatchResult(old(batch) + [e.v], FlushSize)] && batch == []
      ensures e.Value? && |old(batch)| + 1 == size && !e.taken ==>
        !goOn && out == old(out) && batch == old(batch) + [e.v]
      // the timer sends the open batch, unless the context wins
      ensures e.TimerFires? && old(batch) != [] && e.taken ==>
        goOn && out == old(out) + [BatchResult(old(batch), FlushTimeout)] && batch == [] && !timerArmed
      ensures e.TimerFires? && old(batch) != [] && !e.taken ==> !goOn && out == old(out) && batch == old(batch)
      ensures e.TimerFires? && old(batch) == [] ==> goOn && out == old(out) && batch == []
      // the close of the input and the cancellation end the loop
      ensures e.InputClosed? || e.CtxDone? ==> !goOn && out == old(out) && batch == old(batch)
      ensures goOn ==> AtHead()
      ensures |batch| <= size && WellSent(out, size)
      ensures Concat(out) + batch == (Concat(old(out)) + old(batch)) + (if e.Value? then [e.v] else [])
    {
      match e {
        case Value(v, taken) =>
          goOn := Accept(v, taken);
        case TimerFires(taken) =>
          goOn := true;
          if timerArmed {
            goOn := Flush(FlushTimeout, taken);
          }
        case InputClosed(_) => goOn := false;
        case CtxDone(_) => goOn := false;
      }
    }

    /** A closing flush of `size` items. */
    ghost predicate HasFullClose(out: seq<BatchResult<T>>) {
      exists i :: 0 <= i < |out| && out[i].reason.FlushClose? && |out[i].items| == size
    }

    /** The deferred flush of whatever is left. */
    method FlushOnExit(taken: bool)
      requires WellSent(out, size) && |batch| <= size
      modifies this`out
      ensures out == if batch != [] && taken then old(out) + [BatchResult(batch, FlushClose)] else old(out)
      ensures HasFullClose(out) <==> |batch| == size > 0 && taken
      ensures Concat(out) == if taken then Concat(old(out)) + batch else Concat(old(out))
    {
      if |batch| > 0 && taken {
        ConcatAppend(out, BatchResult(batch, FlushClose));
        out := out + [BatchResult(batch, FlushClose)];
      }
    }

    /** The variables agree with the events used so far, cut at `cuts`. */
    ghost predicate Tracks(events: seq<Event<T>>, cuts: seq<nat>, used: nat)
      requires used <= |events|
      reads this
    {
      && |batch| <= size && WellSent(out, size)
      && Cuts(events, cuts, used, out, batch)
      && Concat(out) + batch == Values(events[..used])
    }

    /** Event e ended the loop: the close, the cancellation, or a lost send of the open batch. */
    ghost predicate EndedBy(e: Event<T>)
      reads this
    {
      match e
      case Value(_, taken) => !taken && |batch| == size
      case TimerFires(taken) => !taken && 0 < |batch| < size
      case _ => |batch| < size
    }

    /** The turn that the next event of the schedule drives. */
    method TurnAt(events: seq<Event<T>>, ghost cuts: seq<nat>, used: nat) returns (goOn: bool, ghost cuts': seq<nat>)
      requires used < |events| && AtHead() && Tracks(events, cuts, used) && GoesOn(events, cuts, used)
      modifies this
      ensures Tracks(events, cuts', used + 1) && GoesOn(events, cuts', used) && (!goOn ==> cuts' == cuts)
      ensures if goOn then AtHead() && GoesOn(events, cuts', used + 1) else EndedBy(events[used])
    {
      ValuesStep(events, 0, used);
      assert events[0..used] == events[..used] && events[0..used + 1] == events[..used + 1];
      ghost var before, sent, open := Concat(out) + batch, out, batch;
      goOn := Turn(events[used]);
      assert Concat(out) + batch == before + Values(events[used..used + 1]) by {
        ValuesStep(events, used, used);
      }
      cuts' := CutTurn(events, cuts, used, sent, open, out, batch);
      CutsKeepGoing(events, cuts, cuts', used);
      if goOn {
        GoesOnTurn(events, cuts', used, out, batch);
      }
    }

    /** The loop alone, before the deferred flush. `cuts` are the events at which it sent. */
    method RunLoop(events: seq<Event<T>>) returns (used: nat, ended: bool, ghost cuts: seq<nat>)
      requires AtHead() && batch == [] && out == []
      modifies this
      ensures used <= |events| && Tracks(events, cuts, used)
      ensures if ended then used > 0 && EndedBy(events[used - 1]) else used == |events| && AtHead()
      ensures var n := if ended then used - 1 else used; LastCut(cuts) <= n && GoesOn(events, cuts, n)
    {
      used, ended, cuts := 0, false, [0];
      while used < |events| && !ended
        invariant used <= |events|
        invariant Tracks(events, cuts, used)
        invariant if ended then used > 0 && EndedBy(events[used - 1]) else AtHead()
        invariant var n := if ended then used - 1 else used; LastCut(cuts) <= n && GoesOn(events, cuts, n)
        decreases |events| - used, if ended then 0 else 1
      {
        var goOn;
        goOn, cuts := TurnAt(events, cuts, used);
        used := used + 1;
        ended := !goOn;
      }
    }

    /** The whole goroutine on a schedule of events. It stops at the first event that ends
        the loop, or is left at the loop head when the schedule runs out. `exitTaken` is
        how the deferred send ends. */
    method Run(events: seq<Event<T>>, ghost cancelAt: nat, exitTaken: bool)
      returns (used: nat, ended: bool, ghost cuts: seq<nat>, ghost sent: seq<BatchResult<T>>)
      requires AtHead() && batch == [] && out == []
      requires Plausible(events, cancelAt) && (exitTaken || cancelAt <= |events|)
      modifies this
      ensures used <= |events| && Cuts(events, cuts, used, sent, batch) && WellSent(sent, size)
      // inside the loop it sends the items read between cuts, each made by a full batch or by
      // its timer; it stops at the first event that ends it, and no other
      ensures if ended then used > 0 && EndedBy(events[used - 1]) else used == |events| && AtHead()
      ensures var n := if ended then used - 1 else used; LastCut(cuts) <= n && GoesOn(events, cuts, n)
      ensures |Timeouts(sent)| == |OpenTimers(events, cuts, if ended then used - 1 else used)|
      // a closing flush of what is left comes last
      ensures out == if ended && exitTaken && batch != [] then sent + [BatchResult(batch, FlushClose)] else sent
      // so what was sent is what was read, but for a last batch whose send is cut short
      ensures Concat(out) + (if ended && exitTaken then [] else batch) == Values(events[..used])
      ensures ended && cancelAt > |events| ==> exitTaken && events[used - 1].InputClosed?
      // a closing flush is a full batch exactly when a size flush lost to ctx.Done and the
      // deferred send did not
      ensures ended ==> (HasFullClose(out) <==> events[used - 1].Value? && exitTaken)
    {
      used, ended, cuts := RunLoop(events);
      sent := out;
      TimeoutsAreTimers(events, cuts, sent, size, if ended then used - 1 else used);
      if ended {
        FlushOnExit(exitTaken);
      }
    }
  }

  /** In a cancelled run a closing flush can carry a full batch: here the size flush of a
      single item loses to ctx.Done and the deferred send still goes through. */
  method FullClosingBatch() returns (size: nat, out: seq<BatchResult<int>>)
    ensures exists i :: 0 <= i < |out| && out[i].reason.FlushClose? && |out[i].items| == size
    ensures Concat(out) == [7]
  {
    size := 1;
    var events := [Value(7, false)];
    var loop := new Loop<int>(size);
    var used, ended, cuts, sent := loop.Run(events, 0, true);
    ValuesStep(events, 0, 0);
    assert events[0..1] == events[..1] == events;
    out := loop.out;
    assert Concat(out) + [] == Concat(out);
  }
}
