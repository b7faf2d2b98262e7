/** Error trees and the attribution helpers over them. */
module TaskErrors {
  import opened Options

  /** An error value with its Unwrap structure; Nil is the nil error. */
  datatype Error =
    | Nil
    | Plain(code: nat)
    | Canceled
    | DeadlineExceeded
    | PanicError(value: Error)              // unwraps to the panic value when that is an error
    | TaskError(task: string, cause: Error)
    | Wrapped(inner: Error)                 // any error with Unwrap() error
    | Joined(subs: seq<Error>)              // any error with Unwrap() []error

  // ------------------------------------------------------------ errors.As for *TaskError

  /** The first TaskError met by the pre-order, depth-first search of errors.As. */
  function AsTask(e: Error): Option<Error>
    decreases e, 0
  {
    match e
    case TaskError(_, _) => Some(e)
    case PanicError(v) => AsTask(v)
    case Wrapped(inner) => AsTask(inner)
    case Joined(subs) => AsTaskAny(subs)
    case _ => None
  }

  function AsTaskAny(es: seq<Error>): Option<Error>
    decreases es, 1
  {
    if es == [] then None
    else
      var first := AsTask(es[0]);
      if first.Some? then first else AsTaskAny(es[1..])
  }

  /** Whether errors.As finds a PanicError; unlike AsTask it looks inside task errors. */
  function HasPanic(e: Error): bool
    decreases e, 0
  {
    match e
    case PanicError(_) => true
    case TaskError(_, cause) => HasPanic(cause)
    case Wrapped(inner) => HasPanic(inner)
    case Joined(subs) => HasPanicAny(subs)
    case _ => false
  }

  function HasPanicAny(es: seq<Error>): bool
    decreases es, 1
  {
    es != [] && (HasPanic(es[0]) || HasPanicAny(es[1..]))
  }

  function IsTaskError(e: Error): bool {
    AsTask(e).Some?
  }

  function TaskOf(e: Error): Option<string> {
    match AsTask(e)
    case Some(te) => if te.TaskError? then Some(te.task) else None
    case None => None
  }

  function CauseOf(e: Error): Error {
    match AsTask(e)
    case Some(te) => if te.TaskError? then te.cause else e
    case None => e
  }

  // ------------------------------------------------------------------- the full list

  /** Every outermost TaskError of the tree, left to right. */
  function Outermost(e: Error): seq<Error>
    decreases e, 0
  {
    match e
    case TaskError(_, _) => [e]
    case PanicError(v) => Outermost(v)
    case Wrapped(inner) => Outermost(inner)
    case Joined(subs) => OutermostAll(subs)
    case _ => []
  }

  function OutermostAll(es: seq<Error>): seq<Error>
    decreases es, 1
  {
    if es == [] then [] else Outermost(es[0]) + OutermostAll(es[1..])
  }

  lemma {:induction false} OutermostAppend(es: seq<Error>, e: Error)
    ensures OutermostAll(es + [e]) == OutermostAll(es) + Outermost(e)
  {
    if es == [] {
      assert es + [e] == [e];
      assert [e][1..] == [];
    } else {
      assert (es + [e])[1..] == es[1..] + [e];
      OutermostAppend(es[1..], e);
    }
  }

  /** The accumulator that AllTaskErrors threads through its recursion. */
  class Collector {
    var out: seq<Error>

    constructor ()
      ensures out == []
    {
      out := [];
    }

    method Collect(e: Error)
      modifies this
      ensures out == old(out) + Outermost(e)
      decreases e
    {
      match e {
        case TaskError(_, _) => out := out + [e];
        case Joined(subs) =>
          for i := 0 to |subs|
            invariant out == old(out) + OutermostAll(subs[..i])
          {
            Collect(subs[i]);
            OutermostAppend(subs[..i], subs[i]);
            assert subs[..i + 1] == subs[..i] + [subs[i]];
          }
          assert subs[..|subs|] == subs;
        case PanicError(v) => Collect(v);
        case Wrapped(inner) => Collect(inner);
        case _ =>
      }
    }
  }

  method AllTaskErrors(e: Error) returns (out: seq<Error>)
    ensures out == Outermost(e)
  {
    if e.Nil? {
      return [];
    }
    var c := new Collector();
    c.Collect(e);
    out := c.out;
  }

  // ------------------------------------------------------------------- the agreement

  /** The search and the collection walk the tree the same way. */
  lemma {:induction false} FirstIsHead(e: Error)
    ensures AsTask(e) == if Outermost(e) == [] then None else Some(Outermost(e)[0])
    decreases e, 0
  {
    match e
    case PanicError(v) => FirstIsHead(v);
    case Wrapped(inner) => FirstIsHead(inner);
    case Joined(subs) => FirstIsHeadAny(subs);
    case _ =>
  }

  lemma {:induction false} FirstIsHeadAny(es: seq<Error>)
    ensures AsTaskAny(es) == if OutermostAll(es) == [] then None else Some(OutermostAll(es)[0])
    decreases es, 1
  {
    if es != [] {
      FirstIsHead(es[0]);
      FirstIsHeadAny(es[1..]);
    }
  }

  lemma {:induction false} OutermostAreTasks(e: Error)
    ensures forall i :: 0 <= i < |Outermost(e)| ==> Outermost(e)[i].TaskError?
    decreases e, 0
  {
    match e
    case PanicError(v) => OutermostAreTasks(v);
    case Wrapped(inner) => OutermostAreTasks(inner);
    case Joined(subs) => OutermostAllAreTasks(subs);
    case _ =>
  }

  lemma {:induction false} OutermostAllAreTasks(es: seq<Error>)
    ensures forall i :: 0 <= i < |OutermostAll(es)| ==> OutermostAll(es)[i].TaskError?
    decreases es, 1
  {
    if es != [] {
      OutermostAreTasks(es[0]);
      OutermostAllAreTasks(es[1..]);
    }
  }

  /** For any error tree, IsTaskError, TaskOf and CauseOf describe the head of AllTaskErrors. */
  lemma AttributionAgrees(e: Error)
    ensures IsTaskError(e) <==> Outermost(e) != []
    ensures Outermost(e) != [] ==>
      var te := Outermost(e)[0];
      te.TaskError? && TaskOf(e) == Some(te.task) && CauseOf(e) == te.cause
    ensures Outermost(e) == [] ==> TaskOf(e) == None && CauseOf(e) == e
  {
    FirstIsHead(e);
    OutermostAreTasks(e);
  }

  /** Joining task errors and collecting them again gives back the same list. */
  lemma {:induction false} JoinRoundTrip(tes: seq<Error>)
    requires forall i :: 0 <= i < |tes| ==> tes[i].TaskError?
    ensures Outermost(Joined(tes)) == tes
  {
    if tes != [] {
      JoinRoundTrip(tes[1..]);
      assert OutermostAll(tes[1..]) == Outermost(Joined(tes[1..]));
      assert Outermost(tes[0]) == [tes[0]];
      assert tes == [tes[0]] + tes[1..];
    }
  }

  // ------------------------------------------------------------------ nested task errors

  /** Every TaskError of the tree, those inside the cause of another one too. */
  function Everything(e: Error): seq<Error>
    decreases e, 0
  {
    match e
    case TaskError(_, cause) => [e] + Everything(cause)
    case PanicError(v) => Everything(v)
    case Wrapped(inner) => Everything(inner)
    case Joined(subs) => EverythingIn(subs)
    case _ => []
  }

  function EverythingIn(es: seq<Error>): seq<Error>
    decreases es, 1
  {
    if es == [] then [] else Everything(es[0]) + EverythingIn(es[1..])
  }

  /** No TaskError of the tree sits inside the cause of another one. */
  predicate NoNested(e: Error)
    decreases e, 0
  {
    match e
    case TaskError(_, cause) => !IsTaskError(cause)
    case PanicError(v) => NoNested(v)
    case Wrapped(inner) => NoNested(inner)
    case Joined(subs) => NoNestedIn(subs)
    case _ => true
  }

  predicate NoNestedIn(es: seq<Error>)
    decreases es, 1
  {
    es == [] || (NoNested(es[0]) && NoNestedIn(es[1..]))
  }

  lemma {:induction false} NoneIffEmpty(e: Error)
    ensures IsTaskError(e) <==> Everything(e) != []
    decreases e, 0
  {
    match e
    case PanicError(v) => NoneIffEmpty(v);
    case Wrapped(inner) => NoneIffEmpty(inner);
    case Joined(subs) => NoneIffEmptyIn(subs);
    case _ =>
  }

  lemma {:induction false} NoneIffEmptyIn(es: seq<Error>)
    ensures AsTaskAny(es).Some? <==> EverythingIn(es) != []
    decreases es, 1
  {
    if es != [] {
      NoneIffEmpty(es[0]);
      NoneIffEmptyIn(es[1..]);
    }
  }

  // --------------------------------------------------------------------- the whole chain

  /** The error and all it unwraps to, in the order errors.As visits them. */
  function Nodes(e: Error): seq<Error>
    decreases e, 0
  {
    match e
    case TaskError(_, cause) => [e] + Nodes(cause)
    case PanicError(v) => [e] + Nodes(v)
    case Wrapped(inner) => [e] + Nodes(inner)
    case Joined(subs) => [e] + NodesIn(subs)
    case _ => [e]
  }

  function NodesIn(es: seq<Error>): seq<Error>
    decreases es, 1
  {
    if es == [] then [] else Nodes(es[0]) + NodesIn(es[1..])
  }

  function TasksAmong(es: seq<Error>): seq<Error> {
    if es == [] then [] else (if es[0].TaskError? then [es[0]] else []) + TasksAmong(es[1..])
  }

  lemma {:induction false} TasksAmongConcat(a: seq<Error>, b: seq<Error>)
    ensures TasksAmong(a + b) == TasksAmong(a) + TasksAmong(b)
  {
    if a == [] {
      assert a + b == b;
    } else {
      TasksAmongConcat(a[1..], b);
      assert (a + b)[1..] == a[1..] + b;
    }
  }

  /** Everything is every TaskError of the chain, and IsTaskError, TaskOf and CauseOf are about
      the first of them, wherever in the chain it sits. */
  lemma {:induction false} FirstOfTheChain(e: Error)
    ensures Everything(e) == TasksAmong(Nodes(e))
    ensures AsTask(e) == if TasksAmong(Nodes(e)) == [] then None else Some(TasksAmong(Nodes(e))[0])
    decreases e, 0
  {
    match e
    case TaskError(_, cause) =>
      FirstOfTheChain(cause);
      TasksAmongConcat([e], Nodes(cause));
    case PanicError(v) =>
      FirstOfTheChain(v);
      TasksAmongConcat([e], Nodes(v));
    case Wrapped(inner) =>
      FirstOfTheChain(inner);
      TasksAmongConcat([e], Nodes(inner));
    case Joined(subs) =>
      FirstOfTheChainIn(subs);
      TasksAmongConcat([e], NodesIn(subs));
    case _ =>
      assert Nodes(e)[1..] == [];
  }

  lemma {:induction false} FirstOfTheChainIn(es: seq<Error>)
    ensures EverythingIn(es) == TasksAmong(NodesIn(es))
    ensures AsTaskAny(es) == if TasksAmong(NodesIn(es)) == [] then None else Some(TasksAmong(NodesIn(es))[0])
    decreases es, 1
  {
    if es != [] {
      FirstOfTheChain(es[0]);
      FirstOfTheChainIn(es[1..]);
      TasksAmongConcat(Nodes(es[0]), NodesIn(es[1..]));
    }
  }

  ghost predicate PanicAmong(es: seq<Error>) {
    exists i :: 0 <= i < |es| && es[i].PanicError?
  }

  lemma PanicAmongConcat(a: seq<Error>, b: seq<Error>)
    ensures PanicAmong(a + b) <==> PanicAmong(a) || PanicAmong(b)
  {
    if i :| 0 <= i < |a| && a[i].PanicError? {
      assert (a + b)[i].PanicError?;
    }
    if i :| 0 <= i < |b| && b[i].PanicError? {
      assert (a + b)[|a| + i].PanicError?;
    }
  }

  /** A panic is found exactly when the chain holds one, inside task errors too. */
  lemma {:induction false} PanicInTheChain(e: Error)
    ensures HasPanic(e) <==> PanicAmong(Nodes(e))
    decreases e, 0
  {
    match e
    case TaskError(_, cause) =>
      PanicInTheChain(cause);
      PanicAmongConcat([e], Nodes(cause));
    case PanicError(_) =>
      assert Nodes(e)[0].PanicError?;
    case Wrapped(inner) =>
      PanicInTheChain(inner);
      PanicAmongConcat([e], Nodes(inner));
    case Joined(subs) =>
      PanicInTheChainIn(subs);
      PanicAmongConcat([e], NodesIn(subs));
    case _ =>
  }

  lemma {:induction false} PanicInTheChainIn(es: seq<Error>)
    ensures HasPanicAny(es) <==> PanicAmong(NodesIn(es))
    decreases es, 1
  {
    if es != [] {
      PanicInTheChain(es[0]);
      PanicInTheChainIn(es[1..]);
      PanicAmongConcat(Nodes(es[0]), NodesIn(es[1..]));
    }
  }

  /** AllTaskErrors is documented to collect every TaskError of the chain. It does so
      exactly when none of them sits inside the cause of another. */
  lemma {:induction false} CollectsEveryIff(e: Error)
    ensures |Outermost(e)| <= |Everything(e)|
    ensures |Outermost(e)| == |Everything(e)| <==> NoNested(e)
    ensures Outermost(e) == Everything(e) <==> NoNested(e)
    decreases e, 0
  {
    match e
    case TaskError(_, cause) => NoneIffEmpty(cause);
    case PanicError(v) => CollectsEveryIff(v);
    case Wrapped(inner) => CollectsEveryIff(inner);
    case Joined(subs) => CollectsEveryIffIn(subs);
    case _ =>
  }

  lemma {:induction false} CollectsEveryIffIn(es: seq<Error>)
    ensures |OutermostAll(es)| <= |EverythingIn(es)|
    ensures |OutermostAll(es)| == |EverythingIn(es)| <==> NoNestedIn(es)
    ensures OutermostAll(es) == EverythingIn(es) <==> NoNestedIn(es)
    decreases es, 1
  {
    if es != [] {
      CollectsEveryIff(es[0]);
      CollectsEveryIffIn(es[1..]);
    }
  }

  /** A tree on which it does not: a task that returned another task's error. */
  lemma NestedIsNotCollected()
    ensures var inner := TaskError("inner", Plain(1));
      var outer := TaskError("outer", inner);
      Outermost(outer) == [outer] && Everything(outer) == [outer, inner]
  {
    var inner := TaskError("inner", Plain(1));
    assert Everything(inner) == [inner] + Everything(Plain(1));
  }
}
