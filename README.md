# notify — a Dafny model of a Go Desktop Notifications client

The Go package `notify` sends a notification to the freedesktop
notification service over the D-Bus session bus and then waits for the
user's answer. The notification carries a list of actions (buttons). Each
action has a title and a Go callback. The package derives a key for each
action from the callback's runtime symbol name. It passes the keys and
titles to `Notify` as a flat `[key, title, ...]` list. It then waits for
an `ActionInvoked` signal and runs the callback registered under the
signal's key.

This project models the core of that package in Dafny:

- `Registry` is the action registry (`Actions.Results`). It gives the
  handler table and the action list as functions of the action list, with
  lemmas about length, order, key collisions and titles.
- `HandlerSpec` specifies `SendNotification` and the `Listen` wait loop.
  The loop reads a sequence of events: a signal received on the channel,
  the channel found closed, or the timer firing. A `Verdict` function
  reads one event on its own and serves as the reference definition. The
  lemmas say how the loop's outcome follows from the events, and what the
  recorded effects are.
- `Core` (core.go) and `NotifyMain` (main.go) are the two copies of the
  handler in the source. In each, `Results` is a loop, and
  `NotificationHandler` is a class over an abstract connection. Both
  copies are proved against the same specification functions.
- `SoundHints` and `Notify` cover the sound-hint setters and
  `Notification.Trigger`. `Trigger` runs `Results`, then send, then listen.
- `Bus` stands in for the godbus transport. Replies from the bus and from
  the service are method parameters. A ghost `trace` on the handler
  records the bus calls, the callbacks run and the timer start and stop.
  Once the connection is closed, every call fails with `ErrClosed`. This
  is godbus's behaviour, stated here as an assumption.

The model follows the code as written:

- `Listen` never removes its match rule or its signal channel. Each call
  that gets past `AddMatchSignal` leaves one more rule and one more
  channel on the connection, on every exit except two. A dispatch closes
  the connection. A signal channel found closed means the connection was
  already closed elsewhere, because godbus closes signal channels only
  when it closes the connection. In both cases godbus has closed and
  forgotten every registered channel, and the bus has dropped the
  connection's match rules, so none of them are left.
- On dispatch, `Listen` closes the whole connection instead of calling
  `CloseNotification`. On the package-level handler, every later
  `Trigger` then fails (`DispatchBreaksLaterTriggers`).
- A `NotificationClosed` signal ends the wait whatever its id.
- Every exit of the loop returns nil. Only a failed `AddMatchSignal`
  returns an error.
- `Trigger` drops the send error. It listens on id 0 when sending failed,
  and it can report success for a notification that was never sent.

A cleaner design would unsubscribe on every exit, call
`CloseNotification` on timeout and on dispatch, and not listen after a
failed send. The code does none of these, and the model follows the code.

## Model

| member | source | states |
|---|---|---|
| `Core.Results` | core.go:120-130 | the loop returns exactly the handler table and the action list that the registry specification defines for the input actions |
| `Registry.ActionParams` | core.go:122-128 | the action list has exactly 2·len(ac) strings |
| `Registry.ActionParamsAt` | core.go:124-128 | position 2i of the action list is action i's key and position 2i+1 its title, in input order |
| `Registry.HandlerTable` | core.go:121-127 | the table's keys are exactly the actions' keys, and it has at most len(ac) entries |
| `Registry.HandlerTableDistinctSize` | core.go:121-127 | when the keys are distinct, the table has exactly len(ac) entries |
| `Registry.HandlerTableKeepsLast` | core.go:124-126 | the entry under a key holds the trigger of the last action with that key |
| `Registry.DuplicateKeyKeepsLater` | core.go:121-128 | for any two actions i < j with the same key and no later action repeating it, the table entry under that key holds action j's trigger, while the list still carries both (key, title) pairs at positions 2i and 2j |
| `Registry.ActionKeysRegistered` | core.go:124-128 | every key announced in the action list has a handler, and every handler key was announced |
| `Registry.KeysIgnoreTitles` | core.go:125 | keys depend only on the triggers: changing titles changes neither the table nor any key position of the list |
| `HandlerSpec.SendResult` | core.go:55-59 | send succeeds exactly when the connection is open and the service returns an id, and then yields that id; otherwise it yields id 0 and a SendFailed error |
| `Core.NotificationHandler.SendNotification` | core.go:32-60 | one Notify call with the arguments in wire order and replaces_id 0; the result is SendResult of the reply |
| `HandlerSpec.Wait` | core.go:77-108 | the loop's outcome for an event sequence, branch by branch; a dispatched callback is always one of the registered handlers |
| `HandlerSpec.WaitIsFirstVerdict` | core.go:80-107 | the loop ends at the first event that ends it (channel closed, timer, NotificationClosed with any id, or ActionInvoked for this id with a registered key) and with that event's exit; with no such event it times out |
| `HandlerSpec.WaitSkipsQuiet` | core.go:91-99 | an ActionInvoked signal for another id, one with an unknown key, or any other signal is consumed and the loop keeps waiting |
| `HandlerSpec.WaitSkipsQuietPrefix` | core.go:86-103 | any run of such signals leaves the outcome to the events after it |
| `HandlerSpec.DispatchHasCause` | core.go:91-97 | a dispatch only happens on an ActionInvoked signal for this id whose key is registered to the callback that runs |
| `HandlerSpec.ListenResult` | core.go:64-69 | Listen returns an error exactly when AddMatchSignal fails, wrapping that error; every exit of the loop returns nil |
| `HandlerSpec.ListenTrace` | core.go:64-110 | Listen's first effect is always the AddMatchSignal call; a failed match ends it there, before any channel, timer or handler |
| `HandlerSpec.ListenRunsAtMostOneHandler` | core.go:94-97 | the callbacks one Listen runs are exactly the dispatched one, or none |
| `HandlerSpec.ListenClosesOnlyAfterDispatch` | core.go:94-97 | Listen closes the connection exactly when it runs a handler, right after it, and the timer stop comes last |
| `Core.NotificationHandler.Listen` | core.go:63-111 | its result, its effects and the connection's new state are those of the specification: the connection ends closed after a dispatch (Listen closes it) or after finding its signal channel closed (it was closed elsewhere), and otherwise stays as it was; the match rule and the channel are added when AddMatchSignal succeeds and never removed by Listen, while a closed connection keeps no rule and no channel (ClosesConn, RulesAfterListen, ChannelsAfterListen) |
| `NotifyMain.Results` | main.go:157-167 | main.go's loop returns the same handler table and action list as the registry specification, so the same lemmas on length, order and collisions apply |
| `NotifyMain.NotificationHandler.SendNotification` | main.go:43-63 | one Notify call with replaces_id 0, an empty icon and an empty hint map; it returns (0, error) when the call fails and the service's id otherwise |
| `NotifyMain.NotificationHandler.Listen` | main.go:66-114 | main.go's loop has the same result, effects and connection state (closed flag, rules and channels, emptied when a dispatch or a closed signal channel ends the wait) as the wait-loop specification |
| `SoundHints.PutHint` | sound_ext_notify.go:51-54 | after a hint write the key holds the new value and every other entry is unchanged |
| `SoundHints.PutHintIntoNil` | sound_ext_notify.go:51-53 | writing into a nil hint map leaves exactly one entry |
| `SoundHints.PutHintIdempotent` | sound_ext_notify.go:54 | writing the same value twice equals writing it once |
| `SoundHints.PutHintOverwrites` | sound_ext_notify.go:62 | a later write to the same key replaces the earlier value |
| `SoundHints.SoundHintsDisjoint` | sound_ext_notify.go:54-62 | the two sound hints are different keys: setting one leaves the other as it was, and the two setters commute |
| `Notify.Notification.SetSoundByName` | sound_ext_notify.go:50-56 | Hints becomes non-nil with `sound-name` set to the name; no other field can change |
| `Notify.Notification.SetSoundByPath` | sound_ext_notify.go:58-63 | Hints becomes non-nil with `sound-file` set to the path; no other field can change |
| `Notify.TriggerResult` | notify.go:18-31 | Trigger reports only Listen's error, with id 0; otherwise it returns the id from SendNotification, which is 0 when sending failed |
| `Notify.TriggerTrace` | notify.go:17-28 | Trigger makes one Notify call carrying the derived action list, the hints as they are (nil included) and the timeout, then one Listen with the derived table, the id that came back and the same timeout; ReplaceID is not used |
| `Notify.Notification.Trigger` | notify.go:16-32 | its result is TriggerResult and its effects TriggerTrace; the connection ends closed exactly as ClosedAfterTrigger says (already closed, or the Listen dispatched or found its signal channel closed), and it gains one match rule and one signal channel exactly when AddMatchSignal succeeds and the connection stays open, while a closed one is left with none; the action table is derived once, before sending |
| `Notify.TriggerHidesSendFailure` | notify.go:18-31 | when the send fails but the match rule is accepted, Trigger returns (0, nil) |
| `Notify.TriggerOnClosedConnection` | notify.go:16-30 | on a closed connection Trigger returns (0, failed to add match) whatever the replies, and runs no handler |
| `Notify.DispatchBreaksLaterTriggers` | core.go:94-97 | a Trigger on an open connection that dispatches returns its id and nil, and leaves the connection closed (ClosedAfterTrigger, the state Trigger ends in); the next Trigger started from that state returns (0, failed to add match) whatever the bus answers |

## Left out

- The godbus transport (`Object`, `Call`, `Store`, `AddMatchSignal`, `Signal`, `Close`) is a foreign library. It is an abstract `Conn` whose replies are parameters. The model assumes that a closed connection fails every call with `ErrClosed`. `Close` empties the connection's match rules and signal channels: godbus closes every channel passed to `Signal` and forgets them, and the bus drops the rules of a connection that goes away. It does not model the error from closing twice, which the code ignores.
- Timers, channels and the `select` race are concurrency. They become a sequence of events read one at a time. The connection can be closed elsewhere at any moment; the model records that close when Listen sees its signal channel closed (`Conn.ClosedElsewhere`), not at the moment it happens. When the given events run out, the timer fires, because a Go timer always fires in the end. The buffer size of the channel (10) is not modelled.
- The unit of `time.Duration(timeout)` is not modelled: nanoseconds for the timer, against the milliseconds that Notify's expire timeout expects. The timeout is only recorded, at the Notify call and at the timer start.
- Go's `int` is modelled as an unbounded integer. The width that D-Bus marshals it to is not modelled.
- `GetFunctionName` uses reflection. It is modelled as the symbol name stored in each `Callback`. Two closures with the same code share a name, which is how keys can collide.
- What a callback does when it runs is foreign code. The model only records that it ran.
- Signal bodies are assumed to be well typed. The panics of the type assertions on malformed bodies are not modelled.
- `init()` is not modelled: it builds the package-level handler, logs, and looks up `loginctl`. The package-level handler is passed to `Trigger` as a parameter. A nil connection, left by a failed `SessionBus`, is not modelled.
- Logging (`log.Printf`, `println`) is not modelled.
- The logout helpers, the demo `main` functions and `HandleCall`/`HandleFind` are not modelled. They start OS processes, make unrelated D-Bus calls or are CLI wiring.
- The `SoundName` constant table is plain data with no behaviour. `SoundName` is any string, as Go's conversion allows.
- SetSoundByName, SetSoundByPath: the hint map is a value held by one `Notification`. A Go map is a reference, so when the caller shares one non-nil map between several notifications (or keeps it), a sound hint written through one holder is also seen by the others. The model does not capture that aliasing: only the notification whose setter runs sees the new hint.
- A nil action trigger is not modelled: every `Callback` is a non-nil func. In Go a nil trigger gets the key "" (the runtime finds no function at address 0). Dispatching it makes `handler()` panic (core.go:95, main.go:98). `Close` is then never reached, only the deferred timer stop runs, and neither `Listen` nor `Trigger` returns.
