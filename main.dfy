/** main.go, the stand-alone program: its own copies of the action registry
    loop and of NotificationHandler, whose SendNotification always sends an
    empty icon and an empty hint map. */
module NotifyMain {
  import opened Bus
  import opened Registry
  import opened HandlerSpec

  /** Actions.Results: one pass over the actions that writes each trigger into
      the handler map under its key and appends the (key, title) pair to the
      action list. */
  method Results(ac: seq<Action>) returns (handlers: map<string, Callback>, actions: seq<string>)
    ensures handlers == HandlerTable(ac)
    ensures actions == ActionParams(ac)
  {
    handlers := map[];
    actions := [];
    for i := 0 to |ac|
      invariant handlers == HandlerTable(ac[..i])
      invariant actions == ActionParams(ac[..i])
    {
      assert ac[..i + 1][..i] == ac[..i];
      var functionName := FunctionName(ac[i].trigger);
      handlers := handlers[functionName := ac[i].trigger];
      actions := actions + [functionName, ac[i].title];
    }
    assert ac[..|ac|] == ac;
  }

  /** The handler around one session-bus connection. `trace` records, in
      order, the bus calls it makes, the callbacks it runs and its timer. */
  class NotificationHandler {
    const conn: Conn
    ghost var trace: seq<Effect>

    constructor (conn: Conn)
      ensures this.conn == conn && trace == []
    {
      this.conn := conn;
      trace := [];
    }

    /** Calls Notify with replaces_id 0, an empty icon and an empty (non-nil)
        hint map; returns the id, or 0 and the wrapped error. */
    method SendNotification(appName: string, title: string, body: string,
                            dbusActions: seq<string>, timeout: int,
                            reply: Result<uint32, BusError>)
      returns (id: uint32, err: Option<Error>)
      modifies this`trace
      ensures (id, err) == SendResult(conn.closed, reply)
      ensures trace == old(trace)
              + [NotifyCall(NotifyArgs(appName, 0, "", title, body, dbusActions, Some(map[]), timeout))]
    {
      var args := NotifyArgs(appName, 0, "", title, body, dbusActions, Some(map[]), timeout);
      var r := conn.CallNotify(args, reply);
      trace := trace + [NotifyCall(args)];
      match r
      case Failure(e) =>
        return 0, Some(SendFailed(e));
      case Success(v) =>
        return v, None;
    }

    /** Adds the ActionInvoked match rule, registers a signal channel, starts
        the timer and waits: `events` is what the `select` observes, in order.
        Returns the error of AddMatchSignal, or nil on every exit of the loop. */
    method Listen(actionHandlers: map<string, Callback>, notificationId: uint32, timeout: int,
                  matchReply: Option<BusError>, events: seq<Event>)
      returns (err: Option<Error>)
      modifies this`trace, conn
      ensures var matchErr := MatchOutcome(old(conn.closed), matchReply);
        && err == ListenResult(matchErr)
        && trace == old(trace) + ListenTrace(actionHandlers, notificationId, timeout, matchErr, events)
        && conn.closed == (old(conn.closed) || ClosesConn(actionHandlers, notificationId, matchErr, events))
        && conn.matchRules == RulesAfterListen(old(conn.matchRules), matchErr,
                                               ClosesConn(actionHandlers, notificationId, matchErr, events))
        && conn.signalChannels == ChannelsAfterListen(old(conn.signalChannels), matchErr,
                                                      ClosesConn(actionHandlers, notificationId, matchErr, events))
    {
      var matchErr := conn.AddMatchSignal(ActionInvokedRule, matchReply);
      trace := trace + [AddMatchCall(ActionInvokedRule)];
      if matchErr.Some? {
        return Some(AddMatchFailed(matchErr.value));
      }
      conn.Signal();
      trace := trace + [SignalChannel, TimerStart(timeout)];
      ghost var start := trace;
      ghost var exit := TimedOut;
      var i := 0;
      while i < |events|
        invariant 0 <= i <= |events|
        invariant Wait(actionHandlers, notificationId, events) == Wait(actionHandlers, notificationId, events[i..])
        invariant trace == start && !conn.closed
        invariant conn.matchRules == old(conn.matchRules) + [ActionInvokedRule]
        invariant conn.signalChannels == old(conn.signalChannels) + 1
      {
        match events[i]
        case ChannelClosed =>
          conn.ClosedElsewhere();
          exit := ChannelGone;
          break;
        case TimerFired =>
          exit := TimedOut;
          break;
        case Received(v) =>
          if v.ActionInvoked? {
            if v.id != notificationId {
              i := i + 1;
              continue;
            }
            if v.actionKey in actionHandlers {
              var handler := actionHandlers[v.actionKey];
              trace := trace + [Invoke(handler)];
              conn.Close();
              trace := trace + [CloseConn];
              exit := Dispatched(handler);
              break;
            }
          }
          if v.NotificationClosed? {
            exit := RemoteClosed;
            break;
          }
          i := i + 1;
      }
      assert exit == Wait(actionHandlers, notificationId, events);
      trace := trace + [TimerStop];
      return None;
    }
  }
}
