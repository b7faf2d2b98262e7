/** chanx.Tee, chanx.Broadcast and chanx.FanOut. */
module ChanxDistribute {
  // One goroutine spreads an input over n output channels. An output is the sequence of
  // items sent on it.

  import opened Division

  /** What the outer select picks. Recv reads the next item, or finds the input closed when
      there is none left. `served` says how many sends of that item go through before
      ctx.Done is picked in a send. */
  datatype Pick = Recv(served: nat) | CtxDone

  /** No select picks ctx.Done, where reading an item leads to `sends` sends. */
  predicate Uncancelled(picks: seq<Pick>, sends: nat) {
    forall i :: 0 <= i < |picks| ==> picks[i].Recv? && picks[i].served >= sends
  }

  // ------------------------------------------------------------ Tee and Broadcast

  /** The first n picks each read an item, and at least `sends` of its sends go through. */
  ghost predicate AllServed(picks: seq<Pick>, n: nat, sends: nat, available: nat)
    requires n <= |picks|
  {
    n <= available && forall i :: 0 <= i < n ==> picks[i].Recv? && picks[i].served >= sends
  }

  /** How many items output k has got once `rounds` items went to every output and the next
      pick, if it ended the loop inside an item, served its first outputs only. */
  function Got(picks: seq<Pick>, rounds: nat, ended: bool, available: nat, k: nat): nat
    requires ended ==> rounds < |picks|
  {
    if ended && rounds < available && picks[rounds].Recv? && k < picks[rounds].served then rounds + 1 else rounds
  }

  /** Tee and Broadcast run this same loop; Broadcast's channels have buffers, which only
      changes when a send can go through. */
  method Broadcast<T>(n: nat, input: seq<T>, picks: seq<Pick>) returns (outs: seq<seq<T>>, rounds: nat, ended: bool)
    requires n > 0
    // the loop ends at the first pick that is the cancellation, finds the input closed, or
    // loses a send to the cancellation
    ensures rounds <= |picks| && AllServed(picks, rounds, n, |input|)
    ensures if ended then rounds < |picks| && (picks[rounds].CtxDone? || rounds == |input| || picks[rounds].served < n)
            else rounds == |picks|
    // every output has every item before that, and the last item read is given out in index
    // order up to the lost send
    ensures |outs| == n && forall k :: 0 <= k < n ==>
      Got(picks, rounds, ended, |input|, k) <= |input| && outs[k] == input[..Got(picks, rounds, ended, |input|, k)]
    ensures Uncancelled(picks, n) ==> rounds == (if |picks| <= |input| then |picks| else |input|)
    ensures Uncancelled(picks, n) ==> (ended <==> |picks| > |input|)
    ensures Uncancelled(picks, n) ==> forall k :: 0 <= k < n ==> outs[k] == input[..rounds]
  {
    outs := seq(n, _ => []);
    rounds, ended := 0, false;
    while rounds < |picks| && !ended
      invariant rounds <= |picks| && AllServed(picks, rounds, n, |input|)
      invariant ended ==> rounds < |picks| && (picks[rounds].CtxDone? || rounds == |input| || picks[rounds].served < n)
      invariant |outs| == n && forall k :: 0 <= k < n ==>
        Got(picks, rounds, ended, |input|, k) <= |input| && outs[k] == input[..Got(picks, rounds, ended, |input|, k)]
      decreases |picks| - rounds, if ended then 0 else 1
    {
      var pick := picks[rounds];
      if pick.CtxDone? || rounds == |input| {
        ended := true;
      } else {
        var k := 0;
        while k < n && !ended
          invariant k <= n && |outs| == n
          invariant forall j :: 0 <= j < n ==> outs[j] == input[..if j < k then rounds + 1 else rounds]
          invariant k <= pick.served && (ended ==> k == pick.served < n)
          decreases n - k, if ended then 0 else 1
        {
          if k < pick.served {
            assert input[..rounds + 1] == input[..rounds] + [input[rounds]];
            outs := outs[k := outs[k] + [input[rounds]]];
            k := k + 1;
          } else {
            ended := true;
          }
        }
        rounds := if ended then rounds else rounds + 1;
      }
    }
  }

  // ----------------------------------------------------------------------- FanOut

  /** The items whose position is k modulo n, in order. */
  function Share<T>(items: seq<T>, k: nat, n: nat): seq<T>
    requires n > 0
  {
    if items == [] then []
    else
      var last := |items| - 1;
      Share(items[..last], k, n) + (if last % n == k then [items[last]] else [])
  }

  lemma ShareStep<T>(items: seq<T>, m: nat, k: nat, n: nat)
    requires n > 0 && m < |items|
    ensures Share(items[..m + 1], k, n) == Share(items[..m], k, n) + (if m % n == k then [items[m]] else [])
  {
    assert items[..m + 1][..m] == items[..m];
  }

  /** FanOut: idx moves on only when the send has gone through. */
  method FanOut<T>(n: nat, input: seq<T>, picks: seq<Pick>)
    returns (outs: seq<seq<T>>, idx: nat, ended: bool)
    requires n > 0
    // the loop ends at the first pick that is the cancellation, finds the input closed, or
    // loses its send to the cancellation
    ensures idx <= |picks| && AllServed(picks, idx, 1, |input|)
    ensures if ended then idx < |picks| && (picks[idx].CtxDone? || idx == |input| || picks[idx].served == 0)
            else idx == |picks|
    // every item before that has gone to the output whose turn it was, and to no other
    ensures |outs| == n && forall k :: 0 <= k < n ==> outs[k] == Share(input[..idx], k, n)
    ensures Uncancelled(picks, 1) ==> idx == if |picks| <= |input| then |picks| else |input|
    ensures Uncancelled(picks, 1) ==> (ended <==> |picks| > |input|)
  {
    outs := seq(n, _ => []);
    idx, ended := 0, false;
    while idx < |picks| && !ended
      invariant idx <= |picks| && AllServed(picks, idx, 1, |input|)
      invariant ended ==> idx < |picks| && (picks[idx].CtxDone? || idx == |input| || picks[idx].served == 0)
      invariant |outs| == n && forall k :: 0 <= k < n ==> outs[k] == Share(input[..idx], k, n)
      decreases |picks| - idx, if ended then 0 else 1
    {
      var pick := picks[idx];
      if pick.CtxDone? || idx == |input| || pick.served == 0 {
        ended := true;
      } else {
        forall k | 0 <= k < n
          ensures Share(input[..idx + 1], k, n) ==
            Share(input[..idx], k, n) + (if idx % n == k then [input[idx]] else [])
        {
          ShareStep(input, idx, k, n);
        }
        outs := outs[idx % n := outs[idx % n] + [input[idx]]];
        idx := idx + 1;
      }
    }
  }

  lemma Quotient(x: nat, d: nat, n: nat)
    requires n > 0 && (d - 1) * n + x % n < x <= d * n + x % n
    ensures x / n == d && x == d * n + x % n
  {
    var q := x / n;
    assert x == q * n + x % n;
    ScaleOrder(q, d - 1, n);
    ScaleOrder(d + 1, q, n);
    assert (d + 1) * n == d * n + n;
  }

  /** How many items share k has: those at k, k + n, ... below |items|. */
  lemma {:induction false} ShareLength<T>(items: seq<T>, k: nat, n: nat)
    requires k < n
    ensures var d := |Share(items, k, n)|; (d - 1) * n + k < |items| <= d * n + k
  {
    if items != [] {
      var last := |items| - 1;
      ShareLength(items[..last], k, n);
      var d := |Share(items[..last], k, n)|;
      if last % n == k {
        Quotient(last, d, n);
        assert (d + 1) * n == d * n + n;
      } else {
        DivMod(d * n + k, d, k, n);
      }
    }
  }

  /** The share next in turn has given out all it has. */
  lemma EndOfShare<T>(items: seq<T>, n: nat)
    requires n > 0
    ensures |items| / n == |Share(items, |items| % n, n)|
  {
    ShareLength(items, |items| % n, n);
    Quotient(|items|, |Share(items, |items| % n, n)|, n);
  }

  lemma {:induction false} ShareAt<T>(items: seq<T>, i: nat, n: nat)
    requires n > 0 && i < |items|
    ensures i / n < |Share(items, i % n, n)| && Share(items, i % n, n)[i / n] == items[i]
  {
    var last := |items| - 1;
    if i < last {
      ShareAt(items[..last], i, n);
    } else {
      EndOfShare(items[..last], n);
    }
  }

  /** A consumer that reads the outputs in turn, one item each, starting with the i-th
      read, until it meets an output with nothing left. */
  function ReadInTurn<T>(outs: seq<seq<T>>, i: nat, limit: nat): seq<T>
    requires |outs| > 0
    decreases limit
  {
    if limit == 0 || i / |outs| >= |outs[i % |outs|]| then []
    else [outs[i % |outs|][i / |outs|]] + ReadInTurn(outs, i + 1, limit - 1)
  }

  /** Reading the outputs of FanOut in turn gives the sent items back in order, and stops
      exactly after the last of them however long the consumer goes on. */
  lemma {:induction false} InTurnRestores<T>(items: seq<T>, outs: seq<seq<T>>, i: nat, limit: nat)
    requires |outs| > 0 && forall k :: 0 <= k < |outs| ==> outs[k] == Share(items, k, |outs|)
    requires i <= |items| && limit > |items| - i
    ensures ReadInTurn(outs, i, limit) == items[i..]
    decreases |items| - i
  {
    var n := |outs|;
    if i < |items| {
      ShareAt(items, i, n);
      InTurnRestores(items, outs, i + 1, limit - 1);
      assert items[i..] == [items[i]] + items[i + 1..];
    } else {
      EndOfShare(items, n);
    }
  }
}
