/** The part of the D-Bus transport (godbus) that the notifier uses, seen from
    the outside: the values that cross the bus, the observable effects of a
    notifier run, and an abstract connection whose replies are supplied by the
    environment as parameters. */
module Bus {

  /** D-Bus UINT32, the type of notification ids. */
  type uint32 = x: int | 0 <= x < 0x1_0000_0000

  datatype Option<+T> = None | Some(value: T)

  datatype Result<+T, +E> = Success(value: T) | Failure(error: E)

  /** Interface of the freedesktop notification service. */
  const Interface := "org.freedesktop.Notifications"

  /** An error reported by the transport: the connection was already closed,
      or the bus or the remote service answered with a D-Bus error. */
  datatype BusError = ErrClosed | Remote(name: string)

  /** The errors the notifier itself returns; each wraps the transport error
      ("failed to send notification: ..." and "failed to add match: ..."). */
  datatype Error = SendFailed(cause: BusError) | AddMatchFailed(cause: BusError)

  /** The values a hint may carry; the sound hints only use strings. */
  datatype Variant = VString(str: string) | VBool(b: bool) | VByte(byte: int) | VInt32(n: int)

  /** A Go map of hints: None is the nil map, Some(m) an allocated one. */
  type Hints = Option<map<string, Variant>>

  /** A Go callback `func()`. `funcName` is the symbol name the Go runtime
      reports for its code pointer; `closure` tells apart two closures that
      share that code (and so that symbol). */
  datatype Callback = Callback(funcName: string, closure: nat)

  /** The signals that reach the subscribed channel. The constructor stands for
      the signal's name: ActionInvoked and NotificationClosed are the members
      of that name on the notification interface, and OtherSignal is a signal
      with any other name (never one of those two). Signal bodies are taken
      to be well typed. */
  datatype Signal =
    | ActionInvoked(id: uint32, actionKey: string)
    | NotificationClosed(id: uint32, reason: uint32)
    | OtherSignal(name: string)

  /** What the `select` in the wait loop can observe: a signal received on the
      channel, the channel found closed, or the timer firing. godbus closes a
      signal channel only when the whole connection is closed, so
      ChannelClosed also means the connection is gone. */
  datatype Event = Received(signal: Signal) | ChannelClosed | TimerFired

  /** A match rule as built by WithMatchInterface/WithMatchMember. */
  datatype MatchRule = MatchRule(iface: string, member: string)

  /** The positional arguments of the Notify method call, in wire order. */
  datatype NotifyArgs = NotifyArgs(
    appName: string,
    replacesId: uint32,
    appIcon: string,
    summary: string,
    body: string,
    actions: seq<string>,
    hints: Hints,
    expireTimeout: int)

  /** Observable effects of a notifier run, in the order they happen. */
  datatype Effect =
    | NotifyCall(args: NotifyArgs)     // Object(...).Call(Notify, ...)
    | AddMatchCall(rule: MatchRule)    // conn.AddMatchSignal(...)
    | SignalChannel                    // conn.Signal(c)
    | TimerStart(duration: int)        // time.NewTimer(...)
    | Invoke(callback: Callback)       // handler()
    | CloseConn                        // conn.Close()
    | TimerStop                        // the deferred timer.Stop()

  /** What a Notify call yields: the service's reply, unless the connection is
      already closed. */
  function NotifyOutcome(closed: bool, reply: Result<uint32, BusError>): (r: Result<uint32, BusError>)
    ensures closed ==> r == Failure(ErrClosed)
    ensures !closed ==> r == reply
  {
    if closed then Failure(ErrClosed) else reply
  }

  /** What an AddMatchSignal call yields (None is success): the bus's reply,
      unless the connection is already closed. */
  function MatchOutcome(closed: bool, reply: Option<BusError>): (r: Option<BusError>)
    ensures closed ==> r == Some(ErrClosed)
    ensures !closed ==> r == reply
  {
    if closed then Some(ErrClosed) else reply
  }

  /** A session-bus connection. The replies of the bus and of the service are
      parameters; the connection keeps what the notifier can change: whether
      it is closed, the match rules added on it and the channels registered
      for its signals. */
  class Conn {
    var closed: bool
    var matchRules: seq<MatchRule>
    var signalChannels: nat

    constructor ()
      ensures !closed && matchRules == [] && signalChannels == 0
    {
      closed := false;
      matchRules := [];
      signalChannels := 0;
    }

    /** Calls Notify and stores the returned id. */
    method CallNotify(args: NotifyArgs, reply: Result<uint32, BusError>) returns (r: Result<uint32, BusError>)
      ensures r == NotifyOutcome(closed, reply)
    {
      if closed {
        r := Failure(ErrClosed);
      } else {
        r := reply;
      }
    }

    /** Adds a match rule on the bus; a rule is kept only when the bus accepts it. */
    method AddMatchSignal(rule: MatchRule, reply: Option<BusError>) returns (err: Option<BusError>)
      modifies this`matchRules
      ensures err == MatchOutcome(closed, reply)
      ensures matchRules == old(matchRules) + (if err.None? then [rule] else [])
    {
      if closed {
        err := Some(ErrClosed);
      } else {
        err := reply;
        if err.None? {
          matchRules := matchRules + [rule];
        }
      }
    }

    /** Registers one more channel to receive the connection's signals. */
    method Signal()
      modifies this`signalChannels
      ensures signalChannels == old(signalChannels) + 1
    {
      signalChannels := signalChannels + 1;
    }

    /** The connection closed by someone else: another caller's Close, or
        godbus itself after a read error. The notifier learns of it only when
        its signal channel turns out closed; the state is the one Close
        leaves. */
    method ClosedElsewhere()
      modifies this`closed, this`matchRules, this`signalChannels
      ensures closed && matchRules == [] && signalChannels == 0
    {
      closed := true;
      matchRules := [];
      signalChannels := 0;
    }

    /** Closes the connection. godbus closes every channel registered with
        Signal and forgets them, and the bus drops the match rules of a
        connection that goes away. The error of closing twice is not
        modelled, as every caller ignores it. */
    method Close()
      modifies this`closed, this`matchRules, this`signalChannels
      ensures closed && matchRules == [] && signalChannels == 0
    {
      closed := true;
      matchRules := [];
      signalChannels := 0;
    }
  }
}
