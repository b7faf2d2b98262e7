/** chanx.Throttle: the token bucket loop. Tickers are events, so the rate is stated in
    ticks rather than in seconds. */
module ChanxThrottle {

  /** What a select picks. Recv reads the next item, or finds the input closed when there
      is none; `sent` says how the send of that item ends: the consumer takes it, or
      ctx.Done is picked. */
  datatype Pick = Recv(sent: bool) | TickerFires | CtxDone

  /** What matters for the rate. */
  datatype Mark = Accept | Tick

  function Accepts(log: seq<Mark>): nat {
    if log == [] then 0 else Accepts(log[..|log| - 1]) + (if log[|log| - 1].Accept? then 1 else 0)
  }

  function Ticks(log: seq<Mark>): nat {
    if log == [] then 0 else Ticks(log[..|log| - 1]) + (if log[|log| - 1].Tick? then 1 else 0)
  }

  /** The bucket after a log: it starts full, a tick adds a token unless it is full, and an
      accepted item takes one, down to a debt if the log takes more than there are. */
  function Level(log: seq<Mark>, n: nat): int {
    if log == [] then n
    else
      var before := Level(log[..|log| - 1], n);
      if log[|log| - 1].Accept? then before - 1
      else if before < n then before + 1
      else before
  }

  /** No item is accepted without a token. */
  ghost predicate NeverInDebt(log: seq<Mark>, n: nat) {
    forall j :: 0 <= j <= |log| ==> Level(log[..j], n) >= 0
  }

  /** Every stretch of the log accepts at most n items more than it has ticks. */
  ghost predicate RateBound(log: seq<Mark>, n: nat) {
    forall i, j :: 0 <= i <= j <= |log| ==> Accepts(log[i..j]) <= n + Ticks(log[i..j])
  }

  lemma LastMark(log: seq<Mark>, n: nat, i: nat, j: nat)
    requires i <= j < |log|
    ensures Accepts(log[i..j + 1]) == Accepts(log[i..j]) + (if log[j].Accept? then 1 else 0)
    ensures Ticks(log[i..j + 1]) == Ticks(log[i..j]) + (if log[j].Tick? then 1 else 0)
    ensures Level(log[..j + 1], n) == if log[j].Accept? then Level(log[..j], n) - 1
      else if Level(log[..j], n) < n then Level(log[..j], n) + 1 else Level(log[..j], n)
  {
    assert log[i..j + 1][..j - i] == log[i..j];
    assert log[..j + 1][..j] == log[..j];
  }

  /** Any stretch that ends at j bounds the level from above. */
  lemma {:induction false} LevelAtMost(log: seq<Mark>, n: nat, i: nat, j: nat)
    requires i <= j <= |log|
    ensures Level(log[..j], n) <= n
    ensures Level(log[..j], n) <= n + Ticks(log[i..j]) - Accepts(log[i..j])
  {
    if i == j {
      assert log[i..j] == [];
      if j > 0 {
        LevelAtMost(log, n, j - 1, j - 1);
        LastMark(log, n, j - 1, j - 1);
      }
    } else {
      LevelAtMost(log, n, i, j - 1);
      LastMark(log, n, i, j - 1);
    }
  }

  /** The level is the slack of the tightest stretch: the one since the bucket was full. */
  lemma {:induction false} TightestStretch(log: seq<Mark>, n: nat, j: nat) returns (i: nat)
    requires j <= |log|
    ensures i <= j && Level(log[..j], n) == n + Ticks(log[i..j]) - Accepts(log[i..j])
  {
    if j == 0 || (log[j - 1].Tick? && Level(log[..j - 1], n) >= n) {
      i := j;
      assert log[i..j] == [];
      if j > 0 {
        LastMark(log, n, j - 1, j - 1);
        LevelAtMost(log, n, j, j);
      }
    } else {
      i := TightestStretch(log, n, j - 1);
      LastMark(log, n, i, j - 1);
    }
  }

  /** The bucket enforces exactly the rate bound: a log is one that never runs into debt if
      and only if every stretch of it is within n items plus its ticks. */
  lemma BucketIsRateBound(log: seq<Mark>, n: nat)
    ensures NeverInDebt(log, n) <==> RateBound(log, n)
  {
    if NeverInDebt(log, n) {
      forall i: nat, j: nat | i <= j <= |log| ensures Accepts(log[i..j]) <= n + Ticks(log[i..j]) {
        LevelAtMost(log, n, i, j);
      }
    }
    if RateBound(log, n) {
      forall j | 0 <= j <= |log| ensures Level(log[..j], n) >= 0 {
        var i := TightestStretch(log, n, j);
      }
    }
  }

  /** The log a schedule asks for, were every pick possible. */
  function Wanted(picks: seq<Pick>): (log: seq<Mark>)
    ensures |log| == |picks|
  {
    seq(|picks|, i requires 0 <= i < |picks| => if picks[i].Recv? then Accept else Tick)
  }

  predicate Uncancelled(picks: seq<Pick>) {
    forall i :: 0 <= i < |picks| ==> !picks[i].CtxDone? && (picks[i].Recv? ==> picks[i].sent)
  }

  lemma Extend(log: seq<Mark>, m: Mark, n: nat)
    requires NeverInDebt(log, n) && (m.Accept? ==> Level(log, n) > 0)
    ensures NeverInDebt(log + [m], n)
    ensures Accepts(log + [m]) == Accepts(log) + (if m.Accept? then 1 else 0)
    ensures Level(log + [m], n) ==
      if m.Accept? then Level(log, n) - 1 else if Level(log, n) < n then Level(log, n) + 1 else Level(log, n)
  {
    var longer := log + [m];
    assert longer[..|log|] == log;
    assert log[..|log|] == log && longer[..|longer|] == longer;
    forall j | 0 <= j <= |longer| ensures Level(longer[..j], n) >= 0 {
      if j <= |log| {
        assert longer[..j] == log[..j];
      }
    }
  }

  lemma {:induction false} AcceptsPrefix(log: seq<Mark>, j: nat)
    requires j <= |log|
    ensures Accepts(log[..j]) <= Accepts(log)
  {
    if j < |log| {
      AcceptsPrefix(log[..|log| - 1], j);
      assert log[..|log| - 1][..j] == log[..j];
    } else {
      assert log[..j] == log;
    }
  }

  /** A schedule without cancellation that asks for no more than the rate and the input. */
  ghost predicate WithinRate(picks: seq<Pick>, n: nat, available: nat) {
    Uncancelled(picks) && RateBound(Wanted(picks), n) && Accepts(Wanted(picks)) <= available
  }

  /** Along such a schedule every Recv finds a token and an item. */
  lemma RecvIsServed(picks: seq<Pick>, n: nat, available: nat, i: nat)
    requires WithinRate(picks, n, available) && i < |picks|
    ensures Wanted(picks)[..i + 1] == Wanted(picks)[..i] + [Wanted(picks)[i]]
    ensures picks[i].Recv? ==> Level(Wanted(picks)[..i], n) > 0 && Accepts(Wanted(picks)[..i]) < available
  {
    var log := Wanted(picks);
    BucketIsRateBound(log, n);
    LastMark(log, n, 0, i);
    AcceptsPrefix(log, i + 1);
    assert Level(log[..i + 1], n) >= 0;
    assert log[0..i + 1] == log[..i + 1] && log[0..i] == log[..i];
  }

  /** The mark of a pick that finds `level` tokens: with none the select does not listen to the
      input, and a closed input is no item. */
  function MarkOf(pick: Pick, level: int, available: bool): seq<Mark> {
    match pick
    case TickerFires => [Tick]
    case Recv(_) => if level > 0 && available then [Accept] else []
    case CtxDone => []
  }

  /** The pick ends the loop: the cancellation, the closed input, or a lost send. */
  predicate Stops(pick: Pick, level: int, available: bool) {
    pick.CtxDone? || (pick.Recv? && level > 0 && !(available && pick.sent))
  }

  /** A pick found the log at length `from`, left it at length `to`, and ended the loop or not. */
  ghost predicate PickNoted(pick: Pick, log: seq<Mark>, from: nat, to: nat, n: nat, available: nat, ends: bool) {
    && from <= to <= |log|
    && log[from..to] == MarkOf(pick, Level(log[..from], n), Accepts(log[..from]) < available)
    && ends == Stops(pick, Level(log[..from], n), Accepts(log[..from]) < available)
  }

  /** The log is what the first `used` picks noted, one after the other, pick k from at[k]
      on. The loop has ended if and only if the last of them ended it. */
  ghost predicate RanFor(picks: seq<Pick>, used: nat, log: seq<Mark>, at: seq<nat>, n: nat, available: nat, ended: bool) {
    && used <= |picks| && (ended ==> used > 0)
    && |at| == used + 1 && at[0] == 0 && at[used] == |log|
    && forall k {:trigger picks[k]} :: 0 <= k < used ==>
         PickNoted(picks[k], log, at[k], at[k + 1], n, available, ended && k == used - 1)
  }

  /** A longer log tells the same about the picks before. */
  lemma StillNoted(pick: Pick, log: seq<Mark>, more: seq<Mark>, from: nat, to: nat, n: nat, available: nat, ends: bool)
    requires PickNoted(pick, log, from, to, n, available, ends)
    ensures PickNoted(pick, log + more, from, to, n, available, ends)
  {
    assert (log + more)[..from] == log[..from];
    assert (log + more)[from..to] == log[from..to];
  }

  /** The next pick extends the account of the run, and changes nothing before it. */
  lemma OneMorePick(picks: seq<Pick>, used: nat, log: seq<Mark>, at: seq<nat>, n: nat, available: nat)
    requires used < |picks| && RanFor(picks, used, log, at, n, available, false)
    ensures var level, open := Level(log, n), Accepts(log) < available;
      var m := MarkOf(picks[used], level, open);
      RanFor(picks, used + 1, log + m, at + [|log| + |m|], n, available, Stops(picks[used], level, open))
  {
    var m := MarkOf(picks[used], Level(log, n), Accepts(log) < available);
    var at' := at + [|log| + |m|];
    var stops := Stops(picks[used], Level(log, n), Accepts(log) < available);
    assert (log + m)[..|log|] == log == log[..|log|] && (log + m)[|log|..|log| + |m|] == m;
    forall k {:trigger picks[k]} | 0 <= k < used + 1
      ensures PickNoted(picks[k], log + m, at'[k], at'[k + 1], n, available, stops && k == used)
    {
      if k < used {
        StillNoted(picks[k], log, m, at[k], at[k + 1], n, available, false);
      }
    }
  }

  /** A schedule within the rate is noted pick by pick, up to its k-th. */
  lemma {:induction false} FairIsServed(picks: seq<Pick>, used: nat, log: seq<Mark>, at: seq<nat>, n: nat, available: nat,
                                        ended: bool, k: nat)
    requires RanFor(picks, used, log, at, n, available, ended) && WithinRate(picks, n, available) && k <= used
    ensures at[k] == k <= |log| && log[..k] == Wanted(picks)[..k]
    ensures k > 0 ==> !(ended && k == used)
  {
    if k > 0 {
      FairIsServed(picks, used, log, at, n, available, ended, k - 1);
      RecvIsServed(picks, n, available, k - 1);
      assert PickNoted(picks[k - 1], log, at[k - 1], at[k], n, available, ended && k == used);
      assert log[..k] == log[..k - 1] + log[k - 1..k];
    }
  }

  lemma RunMeans(picks: seq<Pick>, used: nat, log: seq<Mark>, at: seq<nat>, n: nat, available: nat, ended: bool)
    requires RanFor(picks, used, log, at, n, available, ended) && (!ended ==> used == |picks|) && NeverInDebt(log, n)
    ensures RateBound(log, n)
    ensures WithinRate(picks, n, available) ==> log == Wanted(picks) && !ended
  {
    BucketIsRateBound(log, n);
    if WithinRate(picks, n, available) {
      FairIsServed(picks, used, log, at, n, available, ended, used);
    }
  }

  /** One turn of the loop: the select with the tokens at hand, and the send of an item. */
  method Turn<T>(n: nat, input: seq<T>, pick: Pick, out: seq<T>, tokens: int, ghost log: seq<Mark>)
    returns (out': seq<T>, tokens': int, ghost log': seq<Mark>, ended: bool)
    requires 0 <= tokens <= n && tokens == Level(log, n) && NeverInDebt(log, n) && n > 0
    requires out <= input && Accepts(log) == |out|
    // a tick adds a token to a bucket that is not full
    ensures pick.TickerFires? ==>
      !ended && out' == out && log' == log + [Tick] && tokens' == if tokens < n then tokens + 1 else n
    // an item is read at the price of a token; without a token the select does not listen
    ensures pick.Recv? && tokens == 0 ==> !ended && out' == out && log' == log && tokens' == 0
    ensures pick.Recv? && tokens > 0 && |out| < |input| ==>
      && tokens' == tokens - 1 && log' == log + [Accept] && ended == !pick.sent
      && out' == if pick.sent then out + [input[|out|]] else out
    // the close of the input and the cancellation end the loop
    ensures pick.Recv? && tokens > 0 && out == input ==> ended && out' == out && log' == log && tokens' == tokens
    ensures pick.CtxDone? ==> ended && out' == out && log' == log && tokens' == tokens
    ensures log' == log + MarkOf(pick, tokens, |out| < |input|) && ended == Stops(pick, tokens, |out| < |input|)
    ensures 0 <= tokens' <= n && tokens' == Level(log', n) && NeverInDebt(log', n)
    ensures out' <= input && |out'| <= Accepts(log') <= |out'| + 1 && Accepts(log') <= |input|
  {
    assert log + [] == log;
    out', tokens', log', ended := out, tokens, log, false;
    if tokens == 0 {
      match pick {
        case TickerFires =>
          Extend(log, Tick, n);
          tokens', log' := tokens + 1, log + [Tick];
        case CtxDone =>
          ended := true;
        case Recv(_) =>
      }
    } else {
      match pick {
        case Recv(sent) =>
          if |out| == |input| {
            ended := true;
          } else {
            Extend(log, Accept, n);
            tokens', log' := tokens - 1, log + [Accept];
            if sent {
              out' := out + [input[|out|]];
            } else {
              ended := true;
            }
          }
        case TickerFires =>
          Extend(log, Tick, n);
          log' := log + [Tick];
          if tokens < n {
            tokens' := tokens + 1;
          }
        case CtxDone =>
          ended := true;
      }
    }
  }

  /** One item has been accepted but not sent: its send was cut short. */
  predicate LostSend(pick: Pick, ended: bool, sent: nat, available: nat) {
    ended && pick.Recv? && !pick.sent && sent < available
  }

  /** The turn that the next pick of the schedule drives. */
  method TurnAt<T>(n: nat, input: seq<T>, picks: seq<Pick>, used: nat, out: seq<T>, tokens: int,
                   ghost log: seq<Mark>, ghost at: seq<nat>)
    returns (out': seq<T>, tokens': int, ghost log': seq<Mark>, ghost at': seq<nat>, ended: bool)
    requires 0 <= tokens <= n && tokens == Level(log, n) && NeverInDebt(log, n) && n > 0
    requires out <= input && Accepts(log) == |out|
    requires used < |picks| && RanFor(picks, used, log, at, n, |input|, false)
    ensures 0 <= tokens' <= n && tokens' == Level(log', n) && NeverInDebt(log', n)
    ensures out' <= input
    ensures RanFor(picks, used + 1, log', at', n, |input|, ended)
    ensures Accepts(log') == |out'| + if LostSend(picks[used], ended, |out'|, |input|) then 1 else 0
    ensures ended ==> picks[used].CtxDone? || !picks[used].sent || out' == input
  {
    OneMorePick(picks, used, log, at, n, |input|);
    out', tokens', log', ended := Turn(n, input, picks[used], out, tokens, log);
    at' := at + [|log'|];
  }

  /** The goroutine on a schedule of picks. It stops at the first pick that ends it, or is left
      at the loop head when the schedule runs out. With no token a Recv scheduled then is
      passed over. */
  method Throttle<T>(n: nat, input: seq<T>, picks: seq<Pick>)
    returns (out: seq<T>, ghost log: seq<Mark>, tokens: int, ended: bool, used: nat, ghost at: seq<nat>)
    requires n > 0
    ensures 0 <= tokens <= n && tokens == Level(log, n)
    ensures RateBound(log, n)
    // the log is what the picks noted, and the loop stopped where the first of them ended it
    ensures RanFor(picks, used, log, at, n, |input|, ended) && (!ended ==> used == |picks|)
    // every item accepted is sent, in input order, but for one whose send is cut short
    ensures out <= input
    ensures Accepts(log) == |out| + if ended && LostSend(picks[used - 1], ended, |out|, |input|) then 1 else 0
    // without cancellation the loop ends only once the whole input is out
    ensures ended && Uncancelled(picks) ==> out == input
    // no schedule within the rate is held back
    ensures WithinRate(picks, n, |input|) ==> log == Wanted(picks) && !ended
  {
    out, log, tokens, ended, used, at := [], [], n, false, 0, [0];
    while used < |picks| && !ended
      invariant 0 <= tokens <= n && tokens == Level(log, n) && NeverInDebt(log, n)
      invariant RanFor(picks, used, log, at, n, |input|, ended)
      invariant out <= input
      invariant Accepts(log) == |out| + if ended && LostSend(picks[used - 1], ended, |out|, |input|) then 1 else 0
      invariant ended ==> picks[used - 1].CtxDone? || !picks[used - 1].sent || out == input
    {
      out, tokens, log, at, ended := TurnAt(n, input, picks, used, out, tokens, log, at);
      used := used + 1;
    }
    RunMeans(picks, used, log, at, n, |input|, ended);
  }
}
