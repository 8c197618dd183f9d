/** What NotificationHandler.SendNotification and NotificationHandler.Listen
    do, as functions of the connection state, the environment's replies and
    the stream of events the `select` observes. core.go and main.go carry
    identical copies of the wait loop; both are proved against this module. */
module HandlerSpec {
  import opened Bus

  /** The only match rule Listen adds: member ActionInvoked of the
      notification interface. */
  const ActionInvokedRule := MatchRule(Interface, "ActionInvoked")

  /** The result pair of SendNotification: the service's id and no error, or
      id 0 and the transport error wrapped as SendFailed. */
  function SendResult(closed: bool, reply: Result<uint32, BusError>): (r: (uint32, Option<Error>))
    ensures r.1.None? <==> !closed && reply.Success?
    ensures r.1.None? ==> r.0 == reply.value
    ensures r.1.Some? ==> r.0 == 0 && r.1.value.SendFailed?
    ensures closed ==> r.1 == Some(SendFailed(ErrClosed))
  {
    match NotifyOutcome(closed, reply)
    case Failure(e) => (0, Some(SendFailed(e)))
    case Success(id) => (id, None)
  }

  /** How the wait loop ends. */
  datatype Exit =
    | Dispatched(callback: Callback)   // a registered action ran
    | RemoteClosed                     // a NotificationClosed signal arrived
    | TimedOut                         // the timer fired
    | ChannelGone                      // the signal channel was closed

  /** The wait loop, branch for branch: a channel close or the timer ends it;
      an ActionInvoked signal for another id is skipped; one for this id with
      a registered key dispatches; any NotificationClosed ends it; everything
      else is skipped. When the given events run out, the timer (which always
      fires in the end) wins. */
  function Wait(handlers: map<string, Callback>, nid: uint32, events: seq<Event>): (x: Exit)
    ensures x.Dispatched? ==> x.callback in handlers.Values
    decreases |events|
  {
    if events == [] then TimedOut
    else match events[0]
      case ChannelClosed => ChannelGone
      case TimerFired => TimedOut
      case Received(s) =>
        if s.ActionInvoked? && s.id != nid then Wait(handlers, nid, events[1..])
        else if s.ActionInvoked? && s.actionKey in handlers then Dispatched(handlers[s.actionKey])
        else if s.NotificationClosed? then RemoteClosed
        else Wait(handlers, nid, events[1..])
  }

  /** Reference reading of one event on its own: Some(exit) if the event ends
      the wait, None if the loop keeps waiting after it. */
  function Verdict(handlers: map<string, Callback>, nid: uint32, e: Event): Option<Exit>
  {
    match e
    case ChannelClosed => Some(ChannelGone)
    case TimerFired => Some(TimedOut)
    case Received(ActionInvoked(id, key)) =>
      if id == nid && key in handlers then Some(Dispatched(handlers[key])) else None
    case Received(NotificationClosed(_, _)) => Some(RemoteClosed)
    case Received(OtherSignal(_)) => None
  }

  /** The wait ends at the first event whose verdict is an exit, with that
      exit, and times out when there is none. */
  lemma {:induction false} WaitIsFirstVerdict(handlers: map<string, Callback>, nid: uint32, events: seq<Event>, i: int)
    requires 0 <= i <= |events|
    requires forall j :: 0 <= j < i ==> Verdict(handlers, nid, events[j]).None?
    requires i < |events| ==> Verdict(handlers, nid, events[i]).Some?
    ensures i < |events| ==> Wait(handlers, nid, events) == Verdict(handlers, nid, events[i]).value
    ensures i == |events| ==> Wait(handlers, nid, events) == TimedOut
  {
    if events != [] && i > 0 {
      assert Verdict(handlers, nid, events[0]).None?;
      WaitIsFirstVerdict(handlers, nid, events[1..], i - 1);
    }
  }

  /** An event that does not end the wait is consumed and skipped. */
  lemma WaitSkipsQuiet(handlers: map<string, Callback>, nid: uint32, events: seq<Event>)
    requires events != [] && Verdict(handlers, nid, events[0]).None?
    ensures Wait(handlers, nid, events) == Wait(handlers, nid, events[1..])
  {
  }

  /** Events that do not end the wait (foreign ids, unknown keys, other
      signals) leave the outcome to the events after them. */
  lemma {:induction false} WaitSkipsQuietPrefix(handlers: map<string, Callback>, nid: uint32, quiet: seq<Event>, rest: seq<Event>)
    requires forall j :: 0 <= j < |quiet| ==> Verdict(handlers, nid, quiet[j]).None?
    ensures Wait(handlers, nid, quiet + rest) == Wait(handlers, nid, rest)
  {
    if quiet == [] {
      assert quiet + rest == rest;
    } else {
      var all := quiet + rest;
      assert all[0] == quiet[0] && all[1..] == quiet[1..] + rest;
      WaitSkipsQuiet(handlers, nid, all);
      WaitSkipsQuietPrefix(handlers, nid, quiet[1..], rest);
    }
  }

  /** A dispatch always has a cause: an ActionInvoked signal for this very
      id whose key is registered to the dispatched callback. */
  lemma {:induction false} DispatchHasCause(handlers: map<string, Callback>, nid: uint32, events: seq<Event>)
    requires Wait(handlers, nid, events).Dispatched?
    ensures exists i, key :: 0 <= i < |events| && events[i] == Received(ActionInvoked(nid, key))
              && key in handlers && handlers[key] == Wait(handlers, nid, events).callback
  {
    var x := Wait(handlers, nid, events);
    match events[0]
    case Received(s) =>
      if s.ActionInvoked? && s.id == nid && s.actionKey in handlers {
        assert events[0] == Received(ActionInvoked(nid, s.actionKey));
      } else {
        DispatchHasCause(handlers, nid, events[1..]);
        var i, key :| 0 <= i < |events[1..]| && events[1..][i] == Received(ActionInvoked(nid, key))
                     && key in handlers && handlers[key] == x.callback;
        assert events[i + 1] == Received(ActionInvoked(nid, key));
      }
  }

  /** Whether Listen ends by running a handler (and so closing the
      connection): only when the match rule was added and the wait dispatched. */
  predicate Dispatches(handlers: map<string, Callback>, nid: uint32, matchErr: Option<BusError>, events: seq<Event>)
  {
    matchErr.None? && Wait(handlers, nid, events).Dispatched?
  }

  /** Whether the connection is closed when a Listen that got past
      AddMatchSignal returns: Listen closes it itself after a dispatch, and a
      signal channel found closed means it was already closed elsewhere. */
  predicate ClosesConn(handlers: map<string, Callback>, nid: uint32, matchErr: Option<BusError>, events: seq<Event>)
  {
    matchErr.None? && (Wait(handlers, nid, events).Dispatched? || Wait(handlers, nid, events).ChannelGone?)
  }

  /** The match rules on the connection after Listen: the new rule is added
      when AddMatchSignal succeeds and never removed by Listen itself, but
      once the connection is closed the bus drops all its rules. */
  function RulesAfterListen(rules: seq<MatchRule>, matchErr: Option<BusError>, closes: bool): seq<MatchRule>
  {
    if closes then [] else rules + (if matchErr.None? then [ActionInvokedRule] else [])
  }

  /** The signal channels registered on the connection after Listen: one
      more when AddMatchSignal succeeds, none at all once the connection is
      closed. */
  function ChannelsAfterListen(channels: nat, matchErr: Option<BusError>, closes: bool): nat
  {
    if closes then 0 else channels + (if matchErr.None? then 1 else 0)
  }

  /** The effects of one Listen call, given what AddMatchSignal returned:
      a failed match ends Listen at once; otherwise the channel is registered,
      the timer started, the handler (if any) runs and the connection is
      closed, and the deferred timer stop comes last. Nothing is ever
      unsubscribed. */
  function ListenTrace(handlers: map<string, Callback>, nid: uint32, timeout: int,
                       matchErr: Option<BusError>, events: seq<Event>): (t: seq<Effect>)
    ensures |t| >= 1 && t[0] == AddMatchCall(ActionInvokedRule)
  {
    if matchErr.Some? then [AddMatchCall(ActionInvokedRule)]
    else
      [AddMatchCall(ActionInvokedRule), SignalChannel, TimerStart(timeout)]
      + (match Wait(handlers, nid, events)
         case Dispatched(cb) => [Invoke(cb), CloseConn]
         case _ => [])
      + [TimerStop]
  }

  /** The error Listen returns: only a failed AddMatchSignal yields one; every
      exit of the loop returns nil. */
  function ListenResult(matchErr: Option<BusError>): (r: Option<Error>)
    ensures r.None? <==> matchErr.None?
    ensures matchErr.Some? ==> r == Some(AddMatchFailed(matchErr.value))
  {
    match matchErr
    case None => None
    case Some(e) => Some(AddMatchFailed(e))
  }

  /** The callbacks a trace runs, in order. */
  function Invocations(trace: seq<Effect>): seq<Callback>
  {
    if trace == [] then []
    else (if trace[0].Invoke? then [trace[0].callback] else []) + Invocations(trace[1..])
  }

  /** A callback is listed exactly when the trace has an Invoke effect for it. */
  lemma {:induction false} InvocationsListInvokes(trace: seq<Effect>)
    ensures forall c :: c in Invocations(trace) <==> Invoke(c) in trace
  {
    if trace != [] {
      InvocationsListInvokes(trace[1..]);
      assert trace == [trace[0]] + trace[1..];
    }
  }

  lemma {:induction false} InvocationsAppend(a: seq<Effect>, b: seq<Effect>)
    ensures Invocations(a + b) == Invocations(a) + Invocations(b)
  {
    if a == [] {
      assert a + b == b;
    } else {
      var head := if a[0].Invoke? then [a[0].callback] else [];
      assert (a + b)[0] == a[0];
      assert (a + b)[1..] == a[1..] + b;
      assert Invocations(a + b) == head + Invocations(a[1..] + b);
      InvocationsAppend(a[1..], b);
      assert Invocations(a) == head + Invocations(a[1..]);
    }
  }

  /** At most one handler runs per Listen: exactly the dispatched one, and
      none when the match failed or the loop ended any other way. */
  lemma ListenRunsAtMostOneHandler(handlers: map<string, Callback>, nid: uint32, timeout: int,
                                   matchErr: Option<BusError>, events: seq<Event>)
    ensures Invocations(ListenTrace(handlers, nid, timeout, matchErr, events))
            == if Dispatches(handlers, nid, matchErr, events)
               then [Wait(handlers, nid, events).callback] else []
  {
    if matchErr.None? {
      var head := [AddMatchCall(ActionInvokedRule), SignalChannel, TimerStart(timeout)];
      var mid := match Wait(handlers, nid, events)
                 case Dispatched(cb) => [Invoke(cb), CloseConn]
                 case _ => [];
      InvocationsAppend(head + mid, [TimerStop]);
      InvocationsAppend(head, mid);
      assert Invocations(head) == [] by {
        assert head[1..][1..][1..] == [];
        assert Invocations(head[1..][1..]) == [];
        assert Invocations(head[1..]) == [];
      }
      if Wait(handlers, nid, events).Dispatched? {
        assert mid[1..][1..] == [];
      }
    }
  }

  /** Listen closes the connection exactly when it runs a handler, and the
      close comes right after that handler. */
  lemma ListenClosesOnlyAfterDispatch(handlers: map<string, Callback>, nid: uint32, timeout: int,
                                      matchErr: Option<BusError>, events: seq<Event>)
    ensures CloseConn in ListenTrace(handlers, nid, timeout, matchErr, events)
            <==> Dispatches(handlers, nid, matchErr, events)
    ensures Dispatches(handlers, nid, matchErr, events) ==>
            ListenTrace(handlers, nid, timeout, matchErr, events)[3..]
            == [Invoke(Wait(handlers, nid, events).callback), CloseConn, TimerStop]
  {
  }
}
