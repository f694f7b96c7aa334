/**
  The G-code streaming pump of WebSocketExporter.js, as a value: every field
  the exporter updates while it streams `linesPending` to the controller,
  the channel it talks through, the deferred callbacks it has scheduled and
  what it has reported to the user interface so far. Each event the pump
  reacts to is a function from the state before it to the state after it.

  The channel stands for the `socket` singleton of gcodeSocket.js: `sent`
  logs what it transmitted (a `sendGcodeLine` while it is not open is
  dropped), `closes` counts the calls to `socket.close()`. Timers are
  pending records that an event fires; `Date.now()` is the `now` carried by
  each event.
*/
module Transfer {
  import opened JsText

  datatype Option<T> = None | Some(value: T)

  /** The probe sent when the socket opens. */
  const Handshake: string := "\r\n"
  /** What the keepalive tick sends. */
  const Ping: string := ";ping"
  /** `commandTimeout`: milliseconds of silence before a ping. */
  const CommandTimeout: int := 12000
  /** Milliseconds between `homing_complete` and the next line. */
  const SettleDelay: int := 3000
  /** The largest `retryCount` that still schedules a resend. */
  const MaxRetries: nat := 5

  /** A call to one of the user-interface callbacks. */
  datatype UiEvent =
    | Progress(percent: int)             // setProgress
    | LineInfo(sentLines: nat, total: nat) // setLineInfo
    | Sending(on: bool)                   // setIsSending
    | Notice(note: Note)                  // onMessage

  /** What `onMessage` is given: a fixed notice of the handler, or a text it passes on. */
  datatype Note =
    | HomingStartedNote
    | HomingCompleteNote
    | HomingFailedNote
    | AlarmNote(detail: string)
    | ErrorNote(detail: string)
    | BusyNote
    | TooBusyNote
    | TimeoutNote
    | Forwarded(text: string)

  /** The text `onMessage` receives for a notice. */
  function NoteText(n: Note): string
  {
    match n
    case HomingStartedNote => "Homing started... Please wait."
    case HomingCompleteNote => "Homing completed successfully!"
    case HomingFailedNote => "Homing failed. Please check the machine."
    case AlarmNote(d) => "GRBL Alarm: " + d
    case ErrorNote(d) => "GRBL Error: " + d
    case BusyNote => "ESP32 is busy. Retrying..."
    case TooBusyNote => "ESP32 is too busy. Transfer stopped."
    case TimeoutNote => "Command timeout. Stopping transfer."
    case Forwarded(t) => t
  }

  /** A `setTimeout` callback not yet run, with the time it falls due. */
  datatype Deferred =
    | BusyRetry(due: int)     // the resend scheduled on `busy`
    | HomingSettle(due: int)  // the next line scheduled on `homing_complete`

  /** The state of the module-level socket. */
  datatype Socket = NoSocket | Connecting | Open | Closed

  datatype Session = Session(
    pending: seq<string>,           // linesPending
    cursor: nat,                    // currentLineIndex: lines already sent
    handshakeSent: bool,
    readyToSend: bool,
    isHoming: bool,
    retryCount: nat,
    lastCommandTime: Option<int>,   // null is None
    monitoring: bool,               // pingInterval is set
    timers: seq<Deferred>,
    socket: Socket,
    sent: seq<string>,
    closes: nat,
    ui: seq<UiEvent>)

  /**
    What every reachable state satisfies: the cursor never passes the end,
    the two handshake flags move together, and nothing is sent before the
    handshake.
  */
  predicate Valid(s: Session)
  {
    && s.cursor <= |s.pending|
    && s.readyToSend == s.handshakeSent
    && (!s.handshakeSent ==> s.cursor == 0)
  }

  /** The state the constructor leaves. */
  function Initial(): (s: Session)
    ensures Valid(s) && s.pending == [] && !s.readyToSend && !s.monitoring && s.socket == NoSocket
  {
    Session([], 0, false, false, false, 0, None, false, [], NoSocket, [], 0, [])
  }

  /** JavaScript truthiness of `lastCommandTime`: null and 0 are false. */
  predicate Truthy(t: Option<int>)
  {
    t.Some? && t.value != 0
  }

  /** `Math.min(1000 * retryCount, 5000)` */
  function RetryDelay(retryCount: nat): (d: nat)
    ensures d <= 1000 * retryCount && d <= 5000
    ensures d == 1000 * retryCount || d == 5000
  {
    if 1000 * retryCount < 5000 then 1000 * retryCount else 5000
  }

  /**
    `Math.round(i / n * 100)` over exact rationals: the nearest whole
    percentage, halves rounded up.
  */
  function Percent(i: nat, n: nat): (p: int)
    requires n > 0
    ensures 2 * n * p <= 200 * i + n < 2 * n * p + 2 * n
  {
    (200 * i + n) / (2 * n)
  }

  // ---------------------------------------------------------------------------
  // Channel and callbacks

  /** `sendGcodeLine(line)`: transmitted only while the socket is open. */
  function Send(s: Session, line: string): Session
  {
    if s.socket == Open then s.(sent := s.sent + [line]) else s
  }

  /** `disconnectWebSocket()`: closes the socket when one was ever created. */
  function Disconnect(s: Session): Session
  {
    if s.socket == NoSocket then s else s.(socket := Closed, closes := s.closes + 1)
  }

  function Notify(s: Session, e: UiEvent): Session
  {
    s.(ui := s.ui + [e])
  }

  /** `startTimeoutMonitoring()`: a fresh interval and the command time set to now. */
  function StartMonitoring(s: Session, now: int): Session
  {
    s.(monitoring := true, lastCommandTime := Some(now))
  }

  /** `stopTimeoutMonitoring()`: no interval and no command time. */
  function StopMonitoring(s: Session): Session
  {
    s.(monitoring := false, lastCommandTime := None)
  }

  /** The three steps every stopping path ends with: stop monitoring, report not sending, disconnect. */
  function Halt(s: Session): Session
  {
    Disconnect(Notify(StopMonitoring(s), Sending(false)))
  }

  // ---------------------------------------------------------------------------
  // Events

  /** `sendNextLine()` */
  function SendNextLine(s: Session, now: int): (r: Session)
    ensures Valid(s) && s.readyToSend ==> Valid(r)
  {
    if s.cursor >= |s.pending| then Halt(s)
    else
      var sent := Send(s, s.pending[s.cursor]).(lastCommandTime := Some(now), cursor := s.cursor + 1);
      Notify(Notify(sent, Progress(Percent(sent.cursor, |s.pending|))), LineInfo(sent.cursor, |s.pending|))
  }

  /**
    The state changes of `export()` once the lines are generated: monitoring
    stopped, `lines` copied into `linesPending`, cursor, retries and flags
    reset, sending and progress 0 reported, and a new socket connecting.
  */
  function Start(s: Session, lines: seq<string>): (r: Session)
    ensures Valid(r)
  {
    var reset := StopMonitoring(s).(pending := lines, cursor := 0, handshakeSent := false, readyToSend := false,
                                    isHoming := false, retryCount := 0);
    Notify(Notify(reset, Sending(true)), Progress(0)).(socket := Connecting)
  }

  /** The `onOpen` callback: the socket is open and the handshake probe goes out. */
  function Opened(s: Session): (r: Session)
    ensures Valid(s) ==> Valid(r)
  {
    Send(s.(socket := Open), Handshake)
  }

  /** The socket closed from the other side; its `onclose` handler only logs. */
  function ChannelClosed(s: Session): (r: Session)
    ensures Valid(s) ==> Valid(r)
  {
    if s.socket == NoSocket then s else s.(socket := Closed)
  }

  /** `msg.trim().toLowerCase()` */
  function Normalize(msg: string): string
  {
    ToLower(Trim(msg))
  }

  /** The branch of the message handler a normalized message takes. */
  datatype Reply =
    | HomingStarted
    | HomingComplete
    | HomingFailed
    | Alarm(detail: string)
    | Error(detail: string)
    | Busy
    | Timeout
    | Status(detail: string)
    | Ok
    | Other(text: string)

  /** The handler's tests, in the order it makes them. */
  function Classify(t: string): Reply
  {
    if t == "homing_started" then HomingStarted
    else if t == "homing_complete" then HomingComplete
    else if t == "homing_failed" then HomingFailed
    else if StartsWith(t, "alarm:") then Alarm(t[6..])
    else if StartsWith(t, "error:") then Error(t[6..])
    else if t == "busy" then Busy
    else if t == "timeout" then Timeout
    else if StartsWith(t, "status:") then Status(t[7..])
    else if t == "ok" then Ok
    else Other(t)
  }

  /** The text a reply is recognised from. */
  function ReplyText(r: Reply): string
  {
    match r
    case HomingStarted => "homing_started"
    case HomingComplete => "homing_complete"
    case HomingFailed => "homing_failed"
    case Alarm(d) => "alarm:" + d
    case Error(d) => "error:" + d
    case Busy => "busy"
    case Timeout => "timeout"
    case Status(d) => "status:" + d
    case Ok => "ok"
    case Other(t) => t
  }

  /** The message handler given to `connectWebSocket`: the message is classified, then handled. */
  function Receive(s: Session, msg: string, now: int): (r: Session)
    ensures Valid(s) ==> Valid(r)
  {
    Handle(s, Classify(Normalize(msg)), now)
  }

  /** What the handler does for each kind of reply. */
  function Handle(s: Session, reply: Reply, now: int): (r: Session)
    ensures Valid(s) ==> Valid(r)
  {
    match reply
    case HomingStarted =>
      Notify(s.(isHoming := true), Notice(HomingStartedNote))
    case HomingComplete =>
      OnHomingComplete(s, now)
    case HomingFailed =>
      Halt(Notify(s.(isHoming := false), Notice(HomingFailedNote)))
    case Alarm(d) =>
      Halt(Notify(s, Notice(AlarmNote(d))))
    case Error(d) =>
      Halt(Notify(s, Notice(ErrorNote(d))))
    case Busy =>
      OnBusy(s, now)
    case Timeout =>
      Halt(Notify(s, Notice(TimeoutNote)))
    case Status(_) =>
      s
    case Ok =>
      OnOk(s, now)
    case Other(t) =>
      Notify(s, Notice(Forwarded(t)))
  }

  /** The `homing_complete` branch: homing over, command time now, one settle callback scheduled. */
  function OnHomingComplete(s: Session, now: int): (r: Session)
    ensures Valid(s) ==> Valid(r)
  {
    var told := Notify(s.(isHoming := false), Notice(HomingCompleteNote));
    told.(lastCommandTime := Some(now), timers := told.timers + [HomingSettle(now + SettleDelay)])
  }

  /** The `busy` branch: one more retry, then either a scheduled resend or a halt. */
  function OnBusy(s: Session, now: int): (r: Session)
    ensures Valid(s) ==> Valid(r)
  {
    var counted := Notify(s, Notice(BusyNote)).(retryCount := s.retryCount + 1);
    if counted.retryCount > MaxRetries
    then Halt(Notify(counted, Notice(TooBusyNote)))
    else counted.(timers := counted.timers + [BusyRetry(now + RetryDelay(counted.retryCount))])
  }

  /**
    The `ok` branches: the handshake reply, or a reply that sends the next
    line when ready and not homing; a reply after the handshake is also
    forwarded.
  */
  function OnOk(s: Session, now: int): (r: Session)
    ensures Valid(s) ==> Valid(r)
  {
    if !s.handshakeSent
    then SendNextLine(StartMonitoring(s.(handshakeSent := true, readyToSend := true), now), now)
    else
      var next := if s.readyToSend && !s.isHoming
                  then SendNextLine(s.(lastCommandTime := Some(now), retryCount := 0), now)
                  else s;
      Notify(next, Notice(Forwarded("ok")))
  }

  /** `timers` without its `k`-th record. */
  function Without(timers: seq<Deferred>, k: nat): (r: seq<Deferred>)
    requires k < |timers|
    ensures |r| == |timers| - 1
    ensures forall j :: 0 <= j < k ==> r[j] == timers[j]
    ensures forall j :: k <= j < |r| ==> r[j] == timers[j + 1]
  {
    timers[..k] + timers[k + 1..]
  }

  /** The `k`-th pending timer runs its callback and is gone. */
  function Fire(s: Session, k: nat, now: int): (r: Session)
    requires Valid(s) && k < |s.timers|
    ensures Valid(r)
    ensures r.timers == Without(s.timers, k)
  {
    var s' := s.(timers := Without(s.timers, k));
    match s.timers[k]
    case BusyRetry(_) =>
      if s'.readyToSend && s'.cursor > 0
      then Send(s', s'.pending[s'.cursor - 1]).(lastCommandTime := Some(now))
      else s'
    case HomingSettle(_) =>
      if s'.readyToSend then SendNextLine(s', now) else s'
  }

  /** One run of the keepalive interval's callback. */
  function Tick(s: Session, now: int): (r: Session)
    ensures Valid(s) ==> Valid(r)
  {
    if Truthy(s.lastCommandTime) && s.readyToSend && now - s.lastCommandTime.value >= CommandTimeout
    then Send(s, Ping).(lastCommandTime := Some(now))
    else s
  }

  /** `cancel()` */
  function Cancel(s: Session): (r: Session)
    ensures Valid(r)
  {
    var reset := StopMonitoring(s).(readyToSend := false, handshakeSent := false, pending := [], cursor := 0,
                                    isHoming := false, retryCount := 0);
    Disconnect(Notify(reset, Sending(false)))
  }

  // ---------------------------------------------------------------------------
  // Runs of events

  datatype Event =
    | Begin(lines: seq<string>)     // export() with the lines it generated
    | SocketOpened
    | SocketClosed
    | Message(reply: Reply, at: int)  // an inbound message, as classified
    | TimerDue(k: nat, at: int)
    | KeepaliveTick(at: int)
    | CancelTransfer

  /** When an event can happen: messages only on an open socket, ticks only while the interval is set, timers once due. */
  predicate Enabled(s: Session, e: Event)
  {
    match e
    case Begin(_) => true
    case SocketOpened => s.socket == Connecting
    case SocketClosed => s.socket == Connecting || s.socket == Open
    case Message(_, _) => s.socket == Open
    case TimerDue(k, at) => k < |s.timers| && at >= s.timers[k].due
    case KeepaliveTick(_) => s.monitoring
    case CancelTransfer => true
  }

  /** One event; every event keeps the state valid. */
  function Step(s: Session, e: Event): (r: Session)
    requires Valid(s) && Enabled(s, e)
    ensures Valid(r)
  {
    match e
    case Begin(lines) => Start(s, lines)
    case SocketOpened => Opened(s)
    case SocketClosed => ChannelClosed(s)
    case Message(reply, at) => Handle(s, reply, at)
    case TimerDue(k, at) => Fire(s, k, at)
    case KeepaliveTick(at) => Tick(s, at)
    case CancelTransfer => Cancel(s)
  }

  /** Every event of `events` is enabled when its turn comes. */
  predicate Runs(s: Session, events: seq<Event>)
    requires Valid(s)
    decreases |events|
  {
    events == [] || (Enabled(s, events[0]) && Runs(Step(s, events[0]), events[1..]))
  }

  /** The state after the events, one after another. */
  function Run(s: Session, events: seq<Event>): (r: Session)
    requires Valid(s) && Runs(s, events)
    ensures Valid(r)
    decreases |events|
  {
    if events == [] then s else Run(Step(s, events[0]), events[1..])
  }
}
