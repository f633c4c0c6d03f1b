/**
 * The container lifecycle as a transition table: the states of a container, the
 * kinds of request it can receive, which lifecycle operation each (state, kind)
 * pair runs, and the state a request leaves behind.
 */
module Lifecycle {

  /** The lifecycle states, in the order a container moves through them. */
  datatype State = Born | Active | Stopped | Destroyed
  {
    /** The name a state is reported under, as in an invalid-state error. */
    function Name(): (name: string)
    {
      match this
      case Born => "born"
      case Active => "active"
      case Stopped => "stopped"
      case Destroyed => "destroyed"
    }

    /** Position in the lifecycle; every legal edge goes up. */
    function Rank(): (rank: nat)
    {
      match this
      case Born => 0
      case Active => 1
      case Stopped => 2
      case Destroyed => 3
    }
  }

  /** The kinds of request the dispatcher tells apart; every other message type is `OtherReq`. */
  datatype Kind = CreateReq | StopReq | DestroyReq | OtherReq

  /** What the dispatcher does with a request. */
  datatype Action = RunCreate | RunStop | RunDestroy | Reject

  /** The legal edges of the lifecycle. */
  predicate Edge(s: State, t: State)
  {
    || (s == Born && t == Active)
    || (s == Active && t == Stopped)
    || (s == Active && t == Destroyed)
    || (s == Stopped && t == Destroyed)
  }

  /** The error text written for a request that is illegal in state `s`. */
  function InvalidStateMessage(s: State): (message: string)
  {
    "Cannot execute request in state: " + s.Name()
  }

  /**
   * The dispatch of a request: first on the state, then on the kind of request.
   * Create is accepted only when born, stop only when active, destroy when active
   * or stopped; every other pair is rejected.
   */
  function Dispatch(s: State, k: Kind): (a: Action)
    ensures a == RunCreate <==> s == Born && k == CreateReq
    ensures a == RunStop <==> s == Active && k == StopReq
    ensures a == RunDestroy <==> (s == Active || s == Stopped) && k == DestroyReq
    ensures a == Reject <==> s == Destroyed || (s == Born && k != CreateReq)
                             || (s == Active && k != StopReq && k != DestroyReq)
                             || (s == Stopped && k != DestroyReq)
  {
    match s
    case Born => if k == CreateReq then RunCreate else Reject
    case Active =>
      (match k
       case StopReq => RunStop
       case DestroyReq => RunDestroy
       case _ => Reject)
    case Stopped => if k == DestroyReq then RunDestroy else Reject
    case Destroyed => Reject
  }

  /**
   * The state after a request of kind `k` in state `s`, where `ok` tells whether the
   * request was answered with a success response. The state moves exactly when the
   * request was accepted and succeeded, and then only along a legal edge.
   */
  function Step(s: State, k: Kind, ok: bool): (t: State)
    ensures t == s || Edge(s, t)
    ensures t != s <==> ok && Dispatch(s, k) != Reject
  {
    if !ok then s
    else
      match Dispatch(s, k)
      case Reject => s
      case RunCreate => Active
      case RunStop => Stopped
      case RunDestroy => Destroyed
  }

  /** One serviced request: its kind and whether it was answered with success. */
  datatype Event = Event(kind: Kind, ok: bool)

  /** The state after servicing `trace`, one request after another, starting in `s`. */
  function Replay(s: State, trace: seq<Event>): (t: State)
    decreases |trace|
  {
    if trace == [] then s else Replay(Step(s, trace[0].kind, trace[0].ok), trace[1..])
  }

  /** No sequence of requests makes the state go back. */
  lemma {:induction false} ReplayNeverRegresses(s: State, trace: seq<Event>)
    ensures s.Rank() <= Replay(s, trace).Rank()
    decreases |trace|
  {
    if trace != [] {
      var t := Step(s, trace[0].kind, trace[0].ok);
      assert s.Rank() <= t.Rank();
      ReplayNeverRegresses(t, trace[1..]);
    }
  }

  /** Once destroyed, a container stays destroyed whatever it is sent. */
  lemma {:induction false} DestroyedIsTerminal(trace: seq<Event>)
    ensures Replay(Destroyed, trace) == Destroyed
    decreases |trace|
  {
    if trace != [] {
      DestroyedIsTerminal(trace[1..]);
    }
  }

  /** A container leaves `born` only through a create request that succeeded. */
  lemma {:induction false} LeavesBornOnlyByCreate(trace: seq<Event>)
    requires Replay(Born, trace) != Born
    ensures exists i :: 0 <= i < |trace| && trace[i] == Event(CreateReq, true)
    decreases |trace|
  {
    if trace == [] {
      assert false;
    } else if Step(Born, trace[0].kind, trace[0].ok) == Born {
      LeavesBornOnlyByCreate(trace[1..]);
      var i :| 0 <= i < |trace[1..]| && trace[1..][i] == Event(CreateReq, true);
      assert trace[i + 1] == Event(CreateReq, true);
    } else {
      assert trace[0] == Event(CreateReq, true);
    }
  }

  /** A container reaches `stopped` only from `active`: every trace ending there passes through `active`. */
  lemma {:induction false} StoppedOnlyFromActive(s: State, trace: seq<Event>)
    requires s != Stopped && Replay(s, trace) == Stopped
    ensures exists i :: 0 <= i <= |trace| && Replay(s, trace[..i]) == Active
    decreases |trace|
  {
    if trace == [] {
      assert false;
    } else {
      var t := Step(s, trace[0].kind, trace[0].ok);
      if s == Active {
        assert trace[..0] == [];
      } else if t == Stopped {
        assert false;
      } else {
        StoppedOnlyFromActive(t, trace[1..]);
        var i :| 0 <= i <= |trace[1..]| && Replay(t, trace[1..][..i]) == Active;
        assert trace[..i + 1][1..] == trace[1..][..i];
        assert Replay(s, trace[..i + 1]) == Active;
      }
    }
  }
}
