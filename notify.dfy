/** notify.go and sound_ext_notify.go of package notify: the Notification
    request, its sound-hint setters and Trigger, which derives the action
    table, sends the notification and then listens on the package-level
    handler. */
module Notify {
  import opened Bus
  import opened Registry
  import opened HandlerSpec
  import opened SoundHints
  import Core

  /** A sound name; any string converts to one. */
  type SoundName = string

  /** The result pair of Trigger: the send error is dropped, so only a Listen
      error is reported, with id 0; otherwise the id SendNotification gave,
      which is 0 when sending failed. */
  function TriggerResult(closed: bool, sendReply: Result<uint32, BusError>, matchReply: Option<BusError>)
    : (r: (uint32, Option<Error>))
    ensures r.1 == ListenResult(MatchOutcome(closed, matchReply))
    ensures r.1.Some? ==> r.0 == 0
    ensures r.1.None? ==> r.0 == SendResult(closed, sendReply).0
  {
    var (notificationId, _) := SendResult(closed, sendReply);
    var err := ListenResult(MatchOutcome(closed, matchReply));
    if err.Some? then (0, err) else (notificationId, None)
  }

  /** The effects of Trigger: one Notify call carrying the derived action list,
      the hints as they are (nil included) and the timeout, then one Listen on
      the id that came back (0 on failure) with the derived handler table and
      the same timeout. ReplaceID takes no part. */
  function TriggerTrace(closed: bool, appId: string, appIcon: string, title: string, body: string,
                        actions: seq<Action>, hints: Hints, timeout: int,
                        sendReply: Result<uint32, BusError>, matchReply: Option<BusError>, events: seq<Event>)
    : (t: seq<Effect>)
    ensures |t| >= 2
    ensures t[0] == NotifyCall(NotifyArgs(appId, 0, appIcon, title, body, ActionParams(actions), hints, timeout))
    ensures t[1] == AddMatchCall(ActionInvokedRule)
  {
    [NotifyCall(NotifyArgs(appId, 0, appIcon, title, body, ActionParams(actions), hints, timeout))]
    + ListenTrace(HandlerTable(actions), SendResult(closed, sendReply).0, timeout,
                  MatchOutcome(closed, matchReply), events)
  }

  /** When the bus accepts the match rule, Trigger reports success even if
      the notification was never sent: it then returns id 0 and nil. */
  lemma TriggerHidesSendFailure(closed: bool, sendReply: Result<uint32, BusError>, matchReply: Option<BusError>)
    requires !closed && sendReply.Failure? && matchReply.None?
    ensures TriggerResult(closed, sendReply, matchReply) == (0, None)
  {
  }

  /** On a closed connection every Trigger fails the same way, whatever the
      environment answers, and runs no handler. */
  lemma {:induction false} TriggerOnClosedConnection(appId: string, appIcon: string, title: string, body: string,
                                    actions: seq<Action>, hints: Hints, timeout: int,
                                    sendReply: Result<uint32, BusError>, matchReply: Option<BusError>,
                                    events: seq<Event>)
    ensures TriggerResult(true, sendReply, matchReply) == (0, Some(AddMatchFailed(ErrClosed)))
    ensures Invocations(TriggerTrace(true, appId, appIcon, title, body, actions, hints, timeout,
                                     sendReply, matchReply, events)) == []
  {
    var t := TriggerTrace(true, appId, appIcon, title, body, actions, hints, timeout, sendReply, matchReply, events);
    assert t == [t[0], AddMatchCall(ActionInvokedRule)];
    assert Invocations(t[1..]) == Invocations([AddMatchCall(ActionInvokedRule)]);
  }

  /** Whether the Listen that Trigger runs ends with the connection closed:
      it dispatched an action, or found its signal channel closed. */
  predicate TriggerClosesConn(closed: bool, actions: seq<Action>, sendReply: Result<uint32, BusError>,
                              matchReply: Option<BusError>, events: seq<Event>)
  {
    ClosesConn(HandlerTable(actions), SendResult(closed, sendReply).0, MatchOutcome(closed, matchReply), events)
  }

  /** Whether the connection is closed once Trigger returns: it already was,
      or the Listen that Trigger runs dispatched an action or found its
      signal channel closed. */
  predicate ClosedAfterTrigger(closed: bool, actions: seq<Action>, sendReply: Result<uint32, BusError>,
                               matchReply: Option<BusError>, events: seq<Event>)
  {
    closed || TriggerClosesConn(closed, actions, sendReply, matchReply, events)
  }

  /** A Trigger that dispatches on an open connection returns its id and nil
      but leaves the shared connection closed, so the next Trigger on the same
      handler fails whatever the bus would have answered. */
  lemma DispatchBreaksLaterTriggers(actions: seq<Action>, sendReply: Result<uint32, BusError>,
                                    matchReply: Option<BusError>, events: seq<Event>,
                                    sendReply': Result<uint32, BusError>, matchReply': Option<BusError>)
    requires Dispatches(HandlerTable(actions), SendResult(false, sendReply).0, MatchOutcome(false, matchReply), events)
    ensures TriggerResult(false, sendReply, matchReply) == (SendResult(false, sendReply).0, None)
    ensures ClosedAfterTrigger(false, actions, sendReply, matchReply, events)
    ensures TriggerResult(ClosedAfterTrigger(false, actions, sendReply, matchReply, events), sendReply', matchReply')
            == (0, Some(AddMatchFailed(ErrClosed)))
  {
  }

  /** Trigger's effects follow from its steps: the Notify call that
      SendNotification records, then the effects of the Listen on the derived
      table and the id that came back. */
  lemma TriggerTraceComposes(closed: bool, appId: string, appIcon: string, title: string, body: string,
                             actions: seq<Action>, hints: Hints, timeout: int,
                             sendReply: Result<uint32, BusError>, matchReply: Option<BusError>, events: seq<Event>,
                             dbusActions: seq<string>, listenHandlers: map<string, Callback>,
                             notificationId: uint32, t0: seq<Effect>, t1: seq<Effect>, t2: seq<Effect>)
    requires dbusActions == ActionParams(actions) && listenHandlers == HandlerTable(actions)
    requires notificationId == SendResult(closed, sendReply).0
    requires t1 == t0 + [NotifyCall(NotifyArgs(appId, 0, appIcon, title, body, dbusActions, hints, timeout))]
    requires t2 == t1 + ListenTrace(listenHandlers, notificationId, timeout, MatchOutcome(closed, matchReply), events)
    ensures t2 == t0 + TriggerTrace(closed, appId, appIcon, title, body, actions, hints, timeout,
                                    sendReply, matchReply, events)
  {
    var sendCall := [NotifyCall(NotifyArgs(appId, 0, appIcon, title, body, dbusActions, hints, timeout))];
    var listened := ListenTrace(listenHandlers, notificationId, timeout, MatchOutcome(closed, matchReply), events);
    assert t2 == t0 + (sendCall + listened);
  }

  /** Trigger's result and connection state follow from its steps: given
      what SendNotification and Listen promise about the id, the error and the
      connection, the whole run's are those Trigger promises. */
  lemma TriggerStateComposes(closed: bool, actions: seq<Action>,
                             sendReply: Result<uint32, BusError>, matchReply: Option<BusError>, events: seq<Event>,
                             listenHandlers: map<string, Callback>, notificationId: uint32, listenErr: Option<Error>,
                             closed2: bool, rules0: seq<MatchRule>, rules2: seq<MatchRule>,
                             channels0: nat, channels2: nat)
    requires listenHandlers == HandlerTable(actions)
    requires notificationId == SendResult(closed, sendReply).0
    requires var matchErr := MatchOutcome(closed, matchReply);
      var closes := ClosesConn(listenHandlers, notificationId, matchErr, events);
      && listenErr == ListenResult(matchErr)
      && closed2 == (closed || closes)
      && rules2 == RulesAfterListen(rules0, matchErr, closes)
      && channels2 == ChannelsAfterListen(channels0, matchErr, closes)
    ensures (if listenErr.Some? then (0, listenErr) else (notificationId, None))
            == TriggerResult(closed, sendReply, matchReply)
    ensures closed2 == ClosedAfterTrigger(closed, actions, sendReply, matchReply, events)
    ensures var matchErr := MatchOutcome(closed, matchReply);
      var closes := TriggerClosesConn(closed, actions, sendReply, matchReply, events);
      && rules2 == RulesAfterListen(rules0, matchErr, closes)
      && channels2 == ChannelsAfterListen(channels0, matchErr, closes)
  {
  }

  /** A notification request. Hints may be nil. */
  class Notification {
    var appId: string
    var replaceId: string
    var appIcon: string
    var title: string
    var body: string
    var actions: seq<Action>
    var hints: Hints
    var timeout: int

    constructor (appId: string, replaceId: string, appIcon: string, title: string, body: string,
                 actions: seq<Action>, hints: Hints, timeout: int)
      ensures this.appId == appId && this.replaceId == replaceId && this.appIcon == appIcon
      ensures this.title == title && this.body == body && this.actions == actions
      ensures this.hints == hints && this.timeout == timeout
    {
      this.appId := appId;
      this.replaceId := replaceId;
      this.appIcon := appIcon;
      this.title := title;
      this.body := body;
      this.actions := actions;
      this.hints := hints;
      this.timeout := timeout;
    }

    /** Allocates the hint map if it is nil, then stores the sound name under
        `sound-name`; no other field can change. */
    method SetSoundByName(name: SoundName)
      modifies this`hints
      ensures hints == Some(PutHint(old(hints), SoundNameHint, VString(name)))
    {
      if hints.None? {
        hints := Some(map[]);
      }
      hints := Some(hints.value[SoundNameHint := VString(name)]);
    }

    /** Allocates the hint map if it is nil, then stores the path under
        `sound-file`; no other field can change. */
    method SetSoundByPath(soundFilePath: string)
      modifies this`hints
      ensures hints == Some(PutHint(old(hints), SoundFileHint, VString(soundFilePath)))
    {
      if hints.None? {
        hints := Some(map[]);
      }
      hints := Some(hints.value[SoundFileHint := VString(soundFilePath)]);
    }

    /** Derives the handler table and action list, sends, ignores the send
        error, listens on the id it got and reports the Listen outcome.
        `h` is the package-level handler; the three replies are the
        environment's. */
    method Trigger(h: Core.NotificationHandler, sendReply: Result<uint32, BusError>,
                   matchReply: Option<BusError>, events: seq<Event>)
      returns (id: uint32, err: Option<Error>)
      modifies h`trace, h.conn
      ensures (id, err) == TriggerResult(old(h.conn.closed), sendReply, matchReply)
      ensures h.trace == old(h.trace) + TriggerTrace(old(h.conn.closed), appId, appIcon, title, body,
                                                     actions, hints, timeout, sendReply, matchReply, events)
      ensures h.conn.closed == ClosedAfterTrigger(old(h.conn.closed), actions, sendReply, matchReply, events)
      ensures var matchErr := MatchOutcome(old(h.conn.closed), matchReply);
        var closes := TriggerClosesConn(old(h.conn.closed), actions, sendReply, matchReply, events);
        && h.conn.matchRules == RulesAfterListen(old(h.conn.matchRules), matchErr, closes)
        && h.conn.signalChannels == ChannelsAfterListen(old(h.conn.signalChannels), matchErr, closes)
    {
      ghost var closed, rules, channels, t0 := h.conn.closed, h.conn.matchRules, h.conn.signalChannels, h.trace;
      var listenHandlers, dbusActions := Core.Results(actions);
      var notificationId, _ := h.SendNotification(appId, title, body, appIcon, dbusActions, hints, timeout, sendReply);
      ghost var t1 := h.trace;
      var listenErr := h.Listen(listenHandlers, notificationId, timeout, matchReply, events);
      TriggerTraceComposes(closed, appId, appIcon, title, body, actions, hints, timeout, sendReply, matchReply, events,
                           dbusActions, listenHandlers, notificationId, t0, t1, h.trace);
      TriggerStateComposes(closed, actions, sendReply, matchReply, events, listenHandlers, notificationId, listenErr,
                           h.conn.closed, rules, h.conn.matchRules, channels, h.conn.signalChannels);
      if listenErr.Some? {
        return 0, listenErr;
      }
      return notificationId, None;
    }
  }
}
