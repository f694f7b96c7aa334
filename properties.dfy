/**
  What the streaming pump guarantees, stated over the event functions of
  `Transfer`: per event, and over runs of events.
*/
module TransferProperties {
  import opened JsText
  import opened Transfer
  import LineBuilder

  // ---------------------------------------------------------------------------
  // Classification

  /** Every normalized message is recognised as the reply whose text it is. */
  lemma ClassifyKeepsText(t: string)
    ensures ReplyText(Classify(t)) == t
  {
    match Classify(t)
    case Alarm(d) =>
      assert t == t[..6] + t[6..];
    case Error(d) =>
      assert t == t[..6] + t[6..];
    case Status(d) =>
      assert t == t[..7] + t[7..];
    case _ =>
  }

  /** Texts whose first characters differ do not start one with the other. */
  lemma Differs(t: string, p: string)
    requires |t| > 0 && |p| > 0 && t[0] != p[0]
    ensures !StartsWith(t, p)
  {
  }

  /** A text no earlier test of the handler claims. */
  predicate Unclaimed(t: string)
  {
    && t !in {"homing_started", "homing_complete", "homing_failed", "busy", "timeout", "ok"}
    && !StartsWith(t, "alarm:") && !StartsWith(t, "error:") && !StartsWith(t, "status:")
  }

  /**
    A reply's text is classified as that reply; for `Other` exactly when no
    earlier test claims the text.
  */
  lemma ClassifyReplyText(r: Reply)
    ensures r.Other? ==> (Classify(ReplyText(r)) == r <==> Unclaimed(r.text))
    ensures !r.Other? ==> Classify(ReplyText(r)) == r
  {
    match r
    case Alarm(d) =>
      assert ("alarm:" + d)[..6] == "alarm:";
      assert ("alarm:" + d)[6..] == d;
      assert ("alarm:" + d)[0] == 'a';
    case Error(d) =>
      assert ("error:" + d)[..6] == "error:";
      assert ("error:" + d)[6..] == d;
      assert ("error:" + d)[0] == 'e';
      assert !StartsWith("error:" + d, "alarm:");
    case Status(d) =>
      assert ("status:" + d)[..7] == "status:";
      assert ("status:" + d)[7..] == d;
      assert ("status:" + d)[0] == 's';
      assert !StartsWith("status:" + d, "alarm:") && !StartsWith("status:" + d, "error:");
    case HomingStarted =>
      Differs("homing_started", "alarm:");
      Differs("homing_started", "error:");
    case HomingComplete =>
      Differs("homing_complete", "alarm:");
      Differs("homing_complete", "error:");
    case HomingFailed =>
      Differs("homing_failed", "alarm:");
      Differs("homing_failed", "error:");
    case Timeout =>
      Differs("timeout", "alarm:");
      Differs("timeout", "error:");
    case _ =>
  }

  // ---------------------------------------------------------------------------
  // Single events

  /**
    `export()` copies the lines into `linesPending` and resets the cursor,
    the retry count and the three flags, after stopping monitoring; it
    reports sending and a progress of 0 and connects a new socket. Nothing
    is sent and the scheduled callbacks stay.
  */
  lemma StartResets(s: Session, lines: seq<string>)
    ensures var r := Start(s, lines);
            && r.pending == lines && r.cursor == 0 && r.retryCount == 0
            && !r.handshakeSent && !r.readyToSend && !r.isHoming
            && !r.monitoring && r.lastCommandTime == None
            && r.socket == Connecting && r.sent == s.sent && r.timers == s.timers && r.closes == s.closes
            && r.ui == s.ui + [Sending(true), Progress(0)]
  {
  }

  /**
    With a line left, `sendNextLine` sends exactly that line (when the socket
    is open), moves the cursor on by exactly one and reports the progress
    and line count; with none left it sends nothing, keeps the cursor,
    stops monitoring, reports not sending and disconnects.
  */
  lemma SendNextLineEffect(s: Session, now: int)
    ensures var r := SendNextLine(s, now);
            var n := |s.pending|;
            && r.pending == s.pending && r.readyToSend == s.readyToSend && r.timers == s.timers
            && (s.cursor < n ==>
                  && r.cursor == s.cursor + 1
                  && r.sent == s.sent + (if s.socket == Open then [s.pending[s.cursor]] else [])
                  && r.ui == s.ui + [Progress(Percent(s.cursor + 1, n)), LineInfo(s.cursor + 1, n)]
                  && r.lastCommandTime == Some(now) && r.monitoring == s.monitoring && r.closes == s.closes)
            && (s.cursor >= n ==>
                  && r.cursor == s.cursor && r.sent == s.sent
                  && r.ui == s.ui + [Sending(false)]
                  && !r.monitoring && r.lastCommandTime == None
                  && r.closes == s.closes + (if s.socket == NoSocket then 0 else 1)
                  && (s.socket == NoSocket || r.socket == Closed))
  {
    if s.cursor >= |s.pending| {
      StopEffect(s);
    }
  }

  /** Multiplying by a non-negative factor keeps the order, one step at a time. */
  lemma {:induction false} MulStep(a: nat, b: int, c: int)
    requires b < c
    ensures a * b + a <= a * c
    decreases a
  {
    if a > 0 {
      MulStep(a - 1, b, c);
      assert a * b == (a - 1) * b + b;
      assert a * c == (a - 1) * c + c;
    }
  }

  /** Progress stays between 0 and 100 and never goes down as lines go out. */
  lemma PercentBounds(i: nat, j: nat, n: nat)
    requires 0 < n && i <= j <= n
    ensures 0 <= Percent(i, n) <= Percent(j, n) <= 100
  {
    var p, q, m := Percent(i, n), Percent(j, n), 2 * n;
    if p < 0 {
      MulStep(m, p, 0);
    }
    if q < p {
      MulStep(m, q, p);
    }
    if 100 < q {
      MulStep(m, 100, q);
    }
  }

  /** The progress reported for the last line is 100, and before the first line 0. */
  lemma PercentEnds(n: nat)
    requires 0 < n
    ensures Percent(n, n) == 100 && Percent(0, n) == 0
  {
    PercentExact(n, n, 100);
    PercentExact(0, n, 0);
  }

  /** `Percent(i, n)` is the one `v` whose band `[2nv, 2nv + 2n)` holds `200i + n`. */
  lemma PercentExact(i: nat, n: nat, v: int)
    requires n > 0 && 2 * n * v <= 200 * i + n < 2 * n * v + 2 * n
    ensures Percent(i, n) == v
  {
    var p, m := Percent(i, n), 2 * n;
    if p < v {
      MulStep(m, p, v);
    }
    if v < p {
      MulStep(m, v, p);
    }
  }

  /**
    A message whose normalized text is a reply's text is handled as that
    reply (for an `Other` text, one no earlier test claims).
  */
  lemma ReceiveHandles(s: Session, msg: string, reply: Reply, now: int)
    requires Normalize(msg) == ReplyText(reply)
    requires reply.Other? ==> Unclaimed(reply.text)
    ensures Receive(s, msg, now) == Handle(s, reply, now)
  {
    ClassifyReplyText(reply);
  }

  /**
    The first `ok` before the handshake sets both flags, starts monitoring
    and sends line 0; with no lines at all it stops straight away.
  */
  lemma HandshakeReply(s: Session, now: int)
    requires Valid(s) && !s.handshakeSent
    ensures var r := Handle(s, Ok, now);
            && r.handshakeSent && r.readyToSend && r.retryCount == s.retryCount && r.pending == s.pending
            && r.isHoming == s.isHoming
            && (|s.pending| > 0 ==>
                  && r.cursor == 1 && r.monitoring && r.lastCommandTime == Some(now) && r.socket == s.socket
                  && r.closes == s.closes
                  && r.sent == s.sent + (if s.socket == Open then [s.pending[0]] else [])
                  && r.ui == s.ui + [Progress(Percent(1, |s.pending|)), LineInfo(1, |s.pending|)])
            && (|s.pending| == 0 ==>
                  && r.cursor == 0 && !r.monitoring && r.sent == s.sent && r.ui == s.ui + [Sending(false)]
                  && r.closes == s.closes + (if s.socket == NoSocket then 0 else 1)
                  && (s.socket == NoSocket || r.socket == Closed))
  {
    SendNextLineEffect(StartMonitoring(s.(handshakeSent := true, readyToSend := true), now), now);
  }

  /**
    A later `ok` moves the cursor on by one and clears the retry count only
    when the pump is ready and not homing (and a line is left to move on
    to); with no line left it stops the transfer instead. It is forwarded
    to the user interface in every case.
  */
  lemma LaterOk(s: Session, now: int)
    requires Valid(s) && s.handshakeSent
    ensures var r := Handle(s, Ok, now);
            var n := |s.pending|;
            var advance := !s.isHoming && s.cursor < n;
            var finish := !s.isHoming && s.cursor >= n;
            && r.cursor == s.cursor + (if advance then 1 else 0)
            && r.retryCount == (if s.isHoming then s.retryCount else 0)
            && r.sent == s.sent + (if advance && s.socket == Open then [s.pending[s.cursor]] else [])
            && r.ui == s.ui + (if advance then [Progress(Percent(s.cursor + 1, n)), LineInfo(s.cursor + 1, n)]
                               else if finish then [Sending(false)] else [])
                           + [Notice(Forwarded("ok"))]
            && r.handshakeSent && r.readyToSend && r.isHoming == s.isHoming && r.pending == s.pending
            && r.socket == (if finish && s.socket != NoSocket then Closed else s.socket)
            && r.closes == s.closes + (if finish && s.socket != NoSocket then 1 else 0)
            && r.monitoring == (s.monitoring && !finish)
  {
    SendNextLineEffect(s.(lastCommandTime := Some(now), retryCount := 0), now);
  }

  /** `homing_started` sets the flag, and changes nothing else but the notice. */
  lemma HomingStartedEffect(s: Session, now: int)
    ensures Handle(s, HomingStarted, now) == s.(isHoming := true, ui := s.ui + [Notice(HomingStartedNote)])
  {
  }

  /**
    Once the handshake is done, no reply moves the cursor or sends anything
    while homing is under way.
  */
  lemma HomingHoldsCursor(s: Session, reply: Reply, now: int)
    requires Valid(s) && s.handshakeSent && s.isHoming
    ensures Handle(s, reply, now).cursor == s.cursor
    ensures Handle(s, reply, now).sent == s.sent
  {
  }

  /**
    The exception: the handshake branch does not test `isHoming`, so a
    `homing_started` that arrives before the first `ok` does not hold the
    stream. That `ok` still sends line 0, and homing stays set.
  */
  lemma HandshakeIgnoresHoming(s: Session, now: int)
    requires Valid(s) && !s.handshakeSent && s.isHoming && |s.pending| > 0
    ensures var r := Handle(s, Ok, now);
            && r.isHoming && r.handshakeSent && r.cursor == 1
            && r.sent == s.sent + (if s.socket == Open then [s.pending[0]] else [])
  {
    HandshakeReply(s, now);
  }

  /**
    `homing_complete` clears the flag, sets the command time and schedules
    exactly one settle callback, 3000 ms on, and sends nothing.
  */
  lemma HomingCompleteEffect(s: Session, now: int)
    ensures var r := Handle(s, HomingComplete, now);
            && !r.isHoming && r.lastCommandTime == Some(now)
            && r.timers == s.timers + [HomingSettle(now + 3000)]
            && r.cursor == s.cursor && r.sent == s.sent && r.readyToSend == s.readyToSend
  {
  }

  /**
    A settle callback sends the next line only when the pump is still ready;
    otherwise it only disappears.
  */
  lemma SettleFires(s: Session, k: nat, now: int)
    requires Valid(s) && k < |s.timers| && s.timers[k].HomingSettle?
    ensures var r := Fire(s, k, now);
            && r.timers == Without(s.timers, k)
            && r.cursor == s.cursor + (if s.readyToSend && s.cursor < |s.pending| then 1 else 0)
            && (!s.readyToSend ==> r == s.(timers := Without(s.timers, k)))
  {
  }

  /**
    `busy` counts one more retry. Up to five, exactly one resend is
    scheduled `min(1000 * retryCount, 5000)` ms on; past five the transfer
    stops with nothing scheduled. The cursor stays and nothing is sent.
  */
  lemma BusyEffect(s: Session, now: int)
    ensures var r := Handle(s, Busy, now);
            && r.retryCount == s.retryCount + 1
            && r.cursor == s.cursor && r.sent == s.sent && r.pending == s.pending && r.readyToSend == s.readyToSend
            && (r.retryCount <= 5 ==>
                  && r.timers == s.timers + [BusyRetry(now + RetryDelay(r.retryCount))]
                  && r.monitoring == s.monitoring && r.socket == s.socket && r.closes == s.closes)
            && (r.retryCount > 5 ==>
                  && r.timers == s.timers && !r.monitoring && r.ui[|r.ui| - 1] == Sending(false)
                  && r.closes == s.closes + (if s.socket == NoSocket then 0 else 1)
                  && (s.socket == NoSocket || r.socket == Closed))
  {
    var counted := Notify(s, Notice(BusyNote)).(retryCount := s.retryCount + 1);
    if counted.retryCount > MaxRetries {
      HaltEffect(counted, Notice(TooBusyNote));
    }
  }

  /**
    A resend callback sends the line in flight, `linesPending[cursor - 1]`,
    when the pump is ready and has sent a line, and never moves the cursor.
  */
  lemma RetryFires(s: Session, k: nat, now: int)
    requires Valid(s) && k < |s.timers| && s.timers[k].BusyRetry?
    ensures var r := Fire(s, k, now);
            && r.cursor == s.cursor && r.pending == s.pending && r.timers == Without(s.timers, k)
            && r.sent == s.sent + (if s.readyToSend && s.cursor > 0 && s.socket == Open then [s.pending[s.cursor - 1]] else [])
  {
  }

  /** The replies that stop the transfer. */
  predicate Fatal(r: Reply)
  {
    r.HomingFailed? || r.Alarm? || r.Error? || r.Timeout?
  }

  /**
    `alarm:…`, `error:…`, `timeout` and `homing_failed` stop monitoring,
    report one notice and then not sending, and disconnect; the cursor,
    the lines and the readiness flag stay as they were and nothing is sent.
  */
  lemma FatalStops(s: Session, reply: Reply, now: int)
    requires Fatal(reply)
    ensures var r := Handle(s, reply, now);
            && r.cursor == s.cursor && r.pending == s.pending && r.sent == s.sent && r.timers == s.timers
            && r.readyToSend == s.readyToSend && r.handshakeSent == s.handshakeSent
            && !r.monitoring && r.lastCommandTime == None
            && |r.ui| == |s.ui| + 2 && r.ui[..|s.ui|] == s.ui && r.ui[|s.ui|].Notice? && r.ui[|s.ui| + 1] == Sending(false)
            && r.closes == s.closes + (if s.socket == NoSocket then 0 else 1)
            && (s.socket == NoSocket || r.socket == Closed)
  {
    match reply
    case HomingFailed =>
      HaltEffect(s.(isHoming := false), Notice(HomingFailedNote));
    case Alarm(d) =>
      HaltEffect(s, Notice(AlarmNote(d)));
    case Error(d) =>
      HaltEffect(s, Notice(ErrorNote(d)));
    case Timeout =>
      HaltEffect(s, Notice(TimeoutNote));
  }

  /** The three stopping steps: monitoring off, not sending reported, socket closed if there is one. */
  lemma StopEffect(s: Session)
    ensures var r := Halt(s);
            && r.cursor == s.cursor && r.pending == s.pending && r.sent == s.sent && r.timers == s.timers
            && r.readyToSend == s.readyToSend && r.handshakeSent == s.handshakeSent
            && !r.monitoring && r.lastCommandTime == None && r.ui == s.ui + [Sending(false)]
            && r.closes == s.closes + (if s.socket == NoSocket then 0 else 1)
            && (s.socket == NoSocket || r.socket == Closed)
  {
  }

  /** A notice followed by the three stopping steps. */
  lemma HaltEffect(s: Session, n: UiEvent)
    ensures var r := Halt(Notify(s, n));
            && r.cursor == s.cursor && r.pending == s.pending && r.sent == s.sent && r.timers == s.timers
            && r.readyToSend == s.readyToSend && r.handshakeSent == s.handshakeSent
            && !r.monitoring && r.lastCommandTime == None && r.ui == s.ui + [n, Sending(false)]
            && r.closes == s.closes + (if s.socket == NoSocket then 0 else 1)
            && (s.socket == NoSocket || r.socket == Closed)
  {
    StopEffect(Notify(s, n));
  }

  /** The alarm notice carries the text after `alarm:`, the error notice the text after `error:`. */
  lemma FatalNotices(s: Session, detail: string, now: int)
    ensures Handle(s, Alarm(detail), now).ui[|s.ui|].Notice?
    ensures NoteText(Handle(s, Alarm(detail), now).ui[|s.ui|].note) == "GRBL Alarm: " + detail
    ensures Handle(s, Error(detail), now).ui[|s.ui|].Notice?
    ensures NoteText(Handle(s, Error(detail), now).ui[|s.ui|].note) == "GRBL Error: " + detail
  {
    HaltEffect(s, Notice(AlarmNote(detail)));
    HaltEffect(s, Notice(ErrorNote(detail)));
  }

  /** A `status:` report changes nothing and is not forwarded. */
  lemma StatusIgnored(s: Session, msg: string, now: int)
    requires StartsWith(Normalize(msg), "status:")
    ensures Receive(s, msg, now) == s
  {
    ClassifyStatus(Normalize(msg));
  }

  /** A text beginning `status:` passes every earlier test of the handler. */
  lemma ClassifyStatus(t: string)
    requires StartsWith(t, "status:")
    ensures Classify(t) == Status(t[7..])
  {
    assert t[0] == 's' && t[1] == 't';
    assert !StartsWith(t, "alarm:") && !StartsWith(t, "error:");
  }

  /**
    `cancel` empties the lines, resets the cursor, the retry count and every
    flag, stops monitoring, reports not sending and disconnects.
  */
  lemma CancelResets(s: Session)
    ensures var r := Cancel(s);
            && r.pending == [] && r.cursor == 0 && r.retryCount == 0
            && !r.handshakeSent && !r.readyToSend && !r.isHoming
            && !r.monitoring && r.lastCommandTime == None
            && r.socket != Open && r.socket != Connecting
            && r.sent == s.sent && r.ui == s.ui + [Sending(false)]
            && r.closes == s.closes + (if s.socket == NoSocket then 0 else 1)
  {
  }

  /**
    The keepalive tick sends a ping exactly when the command time is set,
    the pump is ready, 12000 ms have passed and the socket is open. When it
    is due it sets the command time to now, even on a socket that is not
    open and so sends nothing; when it is not due it changes nothing.
  */
  lemma TickPings(s: Session, now: int)
    ensures var r := Tick(s, now);
            var due := Truthy(s.lastCommandTime) && s.readyToSend && now - s.lastCommandTime.value >= 12000;
            && (r.sent == s.sent + [Ping] <==> due && s.socket == Open)
            && (due ==> r.lastCommandTime == Some(now))
            && (!due ==> r == s)
  {
  }

  /** After monitoring stops no tick sends anything. */
  lemma StoppedNeverPings(s: Session, now: int)
    ensures Tick(StopMonitoring(s), now) == StopMonitoring(s)
  {
  }

  // ---------------------------------------------------------------------------
  // Runs

  /** Neither a new transfer nor a cancel. */
  predicate Continues(e: Event)
  {
    !e.Begin? && !e.CancelTransfer?
  }

  /** Within a transfer every reply moves the cursor on by at most one line and never back. */
  lemma HandleCursor(s: Session, reply: Reply, now: int)
    requires Valid(s)
    ensures s.cursor <= Handle(s, reply, now).cursor <= s.cursor + 1
    ensures Handle(s, reply, now).pending == s.pending
  {
    if reply.Ok? {
      SendNextLineEffect(s.(lastCommandTime := Some(now), retryCount := 0), now);
      SendNextLineEffect(StartMonitoring(s.(handshakeSent := true, readyToSend := true), now), now);
    }
  }

  /** Within a transfer each event moves the cursor on by at most one line and never back. */
  lemma StepCursor(s: Session, e: Event)
    requires Valid(s) && Enabled(s, e) && Continues(e)
    ensures s.cursor <= Step(s, e).cursor <= s.cursor + 1
    ensures Step(s, e).pending == s.pending
  {
    match e
    case Message(reply, at) =>
      HandleCursor(s, reply, at);
    case TimerDue(k, at) =>
      SendNextLineEffect(s.(timers := Without(s.timers, k)), at);
    case _ =>
  }

  /** Over a run without a new transfer or a cancel the cursor never goes back, and moves at most one line per event. */
  lemma {:induction false} CursorMonotone(s: Session, events: seq<Event>)
    requires Valid(s) && Runs(s, events)
    requires forall i :: 0 <= i < |events| ==> Continues(events[i])
    ensures s.cursor <= Run(s, events).cursor <= s.cursor + |events|
    ensures Run(s, events).pending == s.pending
    decreases |events|
  {
    if events != [] {
      StepCursor(s, events[0]);
      CursorMonotone(Step(s, events[0]), events[1..]);
    }
  }

  /** `k` replies, each the same. */
  function Replies(reply: Reply, k: nat, now: int): (es: seq<Event>)
    ensures |es| == k
  {
    if k == 0 then [] else [Message(reply, now)] + Replies(reply, k - 1, now)
  }

  /**
    Once the handshake is done and while not homing, `k` replies of `ok` on
    an open socket send the next `k` lines, in order, and move the cursor on
    by `k`.
  */
  lemma OksSendInOrder(s: Session, k: nat, now: int)
    requires Valid(s) && s.handshakeSent && !s.isHoming && s.socket == Open
    requires s.cursor + k <= |s.pending|
    ensures Runs(s, Replies(Ok, k, now))
    ensures var r := Run(s, Replies(Ok, k, now));
            r.cursor == s.cursor + k && r.sent == s.sent + s.pending[s.cursor..s.cursor + k]
  {
    OksSendLines(s, k, now);
    LinesSlice(s.pending, s.cursor, k);
  }

  /** The `k` lines from index `c` on, taken one at a time. */
  function Lines(xs: seq<string>, c: nat, k: nat): seq<string>
    requires c + k <= |xs|
    decreases k
  {
    if k == 0 then [] else [xs[c]] + Lines(xs, c + 1, k - 1)
  }

  /** They are the slice `xs[c..c + k]`. */
  lemma {:induction false} LinesSlice(xs: seq<string>, c: nat, k: nat)
    requires c + k <= |xs|
    ensures Lines(xs, c, k) == xs[c..c + k]
    decreases k
  {
    if k > 0 {
      LinesSlice(xs, c + 1, k - 1);
      assert [xs[c]] + xs[c + 1..c + k] == xs[c..c + k];
    }
  }

  /** `OksSendInOrder`, by induction on the number of replies. */
  lemma {:induction false} OksSendLines(s: Session, k: nat, now: int)
    requires Valid(s) && s.handshakeSent && !s.isHoming && s.socket == Open
    requires s.cursor + k <= |s.pending|
    ensures Runs(s, Replies(Ok, k, now))
    ensures var r := Run(s, Replies(Ok, k, now));
            && r.cursor == s.cursor + k && r.sent == s.sent + Lines(s.pending, s.cursor, k)
            && r.handshakeSent && !r.isHoming && r.socket == Open && r.pending == s.pending
            && r.monitoring == s.monitoring && r.closes == s.closes
    decreases k
  {
    if k > 0 {
      var t := Step(s, Message(Ok, now));
      OkStep(s, now);
      OksSendLines(t, k - 1, now);
      assert Runs(s, Replies(Ok, k, now)) && Run(s, Replies(Ok, k, now)) == Run(t, Replies(Ok, k - 1, now)) by {
        RunCons(s, Message(Ok, now), Replies(Ok, k - 1, now));
      }
      LineBuilder.AppendAssociative(s.sent, [s.pending[s.cursor]], Lines(s.pending, s.cursor + 1, k - 1));
    }
  }

  /** A run is its first step followed by the run of the rest. */
  lemma RunCons(s: Session, e: Event, es: seq<Event>)
    requires Valid(s) && Enabled(s, e) && Runs(Step(s, e), es)
    ensures Runs(s, [e] + es) && Run(s, [e] + es) == Run(Step(s, e), es)
  {
    assert ([e] + es)[0] == e && ([e] + es)[1..] == es;
  }

  /** One `ok` in mid-transfer, as `OksSendInOrder` needs it. */
  lemma OkStep(s: Session, now: int)
    requires Valid(s) && s.handshakeSent && !s.isHoming && s.socket == Open && s.cursor < |s.pending|
    ensures Enabled(s, Message(Ok, now))
    ensures var r := Step(s, Message(Ok, now));
            && r.handshakeSent && !r.isHoming && r.socket == Open && r.pending == s.pending
            && r.cursor == s.cursor + 1 && r.sent == s.sent + [s.pending[s.cursor]]
            && r.monitoring == s.monitoring && r.closes == s.closes
            && r.ui == s.ui + [Progress(Percent(s.cursor + 1, |s.pending|)), LineInfo(s.cursor + 1, |s.pending|),
                               Notice(Forwarded("ok"))]
  {
    LaterOk(s, now);
  }

  /** The resends `busy` replies schedule, retry counts `from + 1` to `from + k`. */
  function Resends(from: nat, k: nat, now: int): (ts: seq<Deferred>)
    ensures |ts| == k
    decreases k
  {
    if k == 0 then [] else [BusyRetry(now + RetryDelay(from + 1))] + Resends(from + 1, k - 1, now)
  }

  /**
    While the retry count stays at or below five, `k` replies of `busy` on
    an open socket schedule `k` resends with growing delays, keep the socket
    open and send nothing.
  */
  lemma {:induction false} BusiesSchedule(s: Session, k: nat, now: int)
    requires Valid(s) && s.socket == Open && s.retryCount + k <= 5
    ensures Runs(s, Replies(Busy, k, now))
    ensures var r := Run(s, Replies(Busy, k, now));
            && r.retryCount == s.retryCount + k && r.timers == s.timers + Resends(s.retryCount, k, now)
            && r.socket == Open && r.sent == s.sent && r.cursor == s.cursor && r.closes == s.closes
            && r.monitoring == s.monitoring
    decreases k
  {
    if k > 0 {
      BusyResends(s, now);
      BusiesSchedule(Step(s, Message(Busy, now)), k - 1, now);
      RunCons(s, Message(Busy, now), Replies(Busy, k - 1, now));
      LineBuilder.AppendAssociative(s.timers, [BusyRetry(now + RetryDelay(s.retryCount + 1))], Resends(s.retryCount + 1, k - 1, now));
    }
  }

  /** One `busy` on an open socket below five retries schedules one resend and changes nothing else that runs of `busy` replies track. */
  lemma BusyResends(s: Session, now: int)
    requires Valid(s) && s.socket == Open && s.retryCount < 5
    ensures Enabled(s, Message(Busy, now))
    ensures var r := Step(s, Message(Busy, now));
            && r.retryCount == s.retryCount + 1 && r.sent == s.sent && r.cursor == s.cursor
            && r.timers == s.timers + [BusyRetry(now + RetryDelay(s.retryCount + 1))]
            && r.socket == Open && r.closes == s.closes && r.monitoring == s.monitoring
  {
    BusyEffect(s, now);
  }

  /** One `busy` at five retries stops the transfer. */
  lemma BusyHalts(s: Session, now: int)
    requires Valid(s) && s.socket == Open && s.retryCount == 5
    ensures Enabled(s, Message(Busy, now))
    ensures var r := Step(s, Message(Busy, now));
            && r.sent == s.sent && r.cursor == s.cursor
            && r.timers == s.timers && !r.monitoring && r.socket == Closed && r.closes == s.closes + 1
  {
    BusyEffect(s, now);
  }


  /**
    From retry count `5 - k`, `k` replies of `busy` schedule the remaining
    resends and one more stops the transfer: monitoring stops and the socket
    is closed once.
  */
  lemma {:induction false} BusiesThenStop(s: Session, k: nat, now: int)
    requires Valid(s) && s.socket == Open && s.retryCount + k == 5
    ensures Runs(s, Replies(Busy, k + 1, now))
    ensures var r := Run(s, Replies(Busy, k + 1, now));
            && r.timers == s.timers + Resends(s.retryCount, k, now)
            && !r.monitoring && r.socket == Closed && r.closes == s.closes + 1
            && r.sent == s.sent && r.cursor == s.cursor
    decreases k
  {
    if k == 0 {
      LastBusyStops(s, now);
    } else {
      BusyResends(s, now);
      BusiesThenStop(Step(s, Message(Busy, now)), k - 1, now);
      RunCons(s, Message(Busy, now), Replies(Busy, k, now));
      LineBuilder.AppendAssociative(s.timers, [BusyRetry(now + RetryDelay(s.retryCount + 1))], Resends(s.retryCount + 1, k - 1, now));
    }
  }

  /** At retry count five, one more `busy` stops the transfer and schedules nothing. */
  lemma LastBusyStops(s: Session, now: int)
    requires Valid(s) && s.socket == Open && s.retryCount == 5
    ensures Runs(s, Replies(Busy, 1, now))
    ensures var r := Run(s, Replies(Busy, 1, now));
            && r.timers == s.timers + Resends(s.retryCount, 0, now)
            && !r.monitoring && r.socket == Closed && r.closes == s.closes + 1
            && r.sent == s.sent && r.cursor == s.cursor
  {
    BusyHalts(s, now);
    var t := Step(s, Message(Busy, now));
    assert Runs(t, []) && Run(t, []) == t;
    assert s.timers + Resends(s.retryCount, 0, now) == s.timers;
    RunCons(s, Message(Busy, now), []);
  }

  /**
    From a zero retry count, six `busy` replies in a row schedule five
    resends, 1000 to 5000 ms on, and the sixth stops the transfer.
  */
  lemma SixthBusyStops(s: Session, now: int)
    requires Valid(s) && s.socket == Open && s.retryCount == 0
    ensures Runs(s, Replies(Busy, 6, now))
    ensures var r := Run(s, Replies(Busy, 6, now));
            && r.timers == s.timers + [BusyRetry(now + 1000), BusyRetry(now + 2000), BusyRetry(now + 3000),
                                       BusyRetry(now + 4000), BusyRetry(now + 5000)]
            && !r.monitoring && r.socket == Closed && r.closes == s.closes + 1
            && r.sent == s.sent && r.cursor == s.cursor
  {
    BusiesThenStop(s, 5, now);
    assert Resends(5, 0, now) == [];
    assert Resends(4, 1, now) == [BusyRetry(now + 5000)];
    assert Resends(3, 2, now) == [BusyRetry(now + 4000), BusyRetry(now + 5000)];
    assert Resends(2, 3, now) == [BusyRetry(now + 3000), BusyRetry(now + 4000), BusyRetry(now + 5000)];
    assert Resends(1, 4, now) == [BusyRetry(now + 2000), BusyRetry(now + 3000), BusyRetry(now + 4000), BusyRetry(now + 5000)];
    assert Resends(0, 5, now) == [BusyRetry(now + 1000), BusyRetry(now + 2000), BusyRetry(now + 3000),
                                  BusyRetry(now + 4000), BusyRetry(now + 5000)];
  }

  /**
    With the socket closed, or never created, no event but a new transfer
    transmits anything or changes the socket: sends are dropped and a
    disconnect leaves a closed socket closed.
  */
  lemma StoppedStep(t: Session, e: Event)
    requires Valid(t) && (t.socket == NoSocket || t.socket == Closed) && Enabled(t, e) && !e.Begin?
    ensures Step(t, e).sent == t.sent && Step(t, e).socket == t.socket
  {
    match e
    case TimerDue(k, at) =>
      SendNextLineEffect(t.(timers := Without(t.timers, k)), at);
    case _ =>
  }

  /** `StoppedStep` over a whole run without a new transfer. */
  lemma {:induction false} StoppedRun(t: Session, events: seq<Event>)
    requires Valid(t) && (t.socket == NoSocket || t.socket == Closed) && Runs(t, events)
    requires forall i :: 0 <= i < |events| ==> !events[i].Begin?
    ensures Run(t, events).sent == t.sent && Run(t, events).socket == t.socket
    decreases |events|
  {
    if events != [] {
      StoppedStep(t, events[0]);
      StoppedRun(Step(t, events[0]), events[1..]);
    }
  }

  /**
    After a stopping reply on an open socket, whatever callbacks are still
    scheduled and whatever ticks and cancels follow, nothing more is
    transmitted on this exporter's socket until a new transfer starts.
  */
  lemma FatalSilences(s: Session, reply: Reply, now: int, events: seq<Event>)
    requires Valid(s) && s.socket == Open && Fatal(reply)
    requires Runs(Handle(s, reply, now), events)
    requires forall i :: 0 <= i < |events| ==> !events[i].Begin?
    ensures Run(Handle(s, reply, now), events).sent == s.sent
    ensures Run(Handle(s, reply, now), events).socket == Closed
  {
    FatalStops(s, reply, now);
    StoppedRun(Handle(s, reply, now), events);
  }

  /**
    Six `busy` replies from a zero retry count, then any run without a new
    transfer: the five resends they schedule, and everything after, transmit
    nothing.
  */
  lemma TooBusySilences(s: Session, now: int, events: seq<Event>)
    requires Valid(s) && s.socket == Open && s.retryCount == 0
    requires Runs(s, Replies(Busy, 6, now) + events)
    requires forall i :: 0 <= i < |events| ==> !events[i].Begin?
    ensures Run(s, Replies(Busy, 6, now) + events).sent == s.sent
    ensures Run(s, Replies(Busy, 6, now) + events).socket == Closed
  {
    SixthBusyStops(s, now);
    RunAppend(s, Replies(Busy, 6, now), events);
    StoppedRun(Run(s, Replies(Busy, 6, now)), events);
  }

  /** A run of `a + b` is the run of `a` followed by the run of `b`. */
  lemma {:induction false} RunAppend(s: Session, a: seq<Event>, b: seq<Event>)
    requires Valid(s) && Runs(s, a)
    ensures Runs(s, a + b) <==> Runs(Run(s, a), b)
    ensures Runs(s, a + b) ==> Run(s, a + b) == Run(Run(s, a), b)
    decreases |a|
  {
    if a == [] {
      assert a + b == b;
    } else {
      assert (a + b)[0] == a[0] && (a + b)[1..] == a[1..] + b;
      RunAppend(Step(s, a[0]), a[1..], b);
    }
  }

  /** Cancelled: nothing in flight, and no event but a new transfer can send or move the cursor. */
  predicate Silent(t: Session, sent: seq<string>)
  {
    && Valid(t) && !t.readyToSend && t.pending == [] && t.cursor == 0
    && (t.socket == NoSocket || t.socket == Closed) && t.sent == sent
  }

  lemma {:induction false} SilentRun(t: Session, events: seq<Event>, sent: seq<string>)
    requires Silent(t, sent) && Runs(t, events)
    requires forall i :: 0 <= i < |events| ==> !events[i].Begin?
    ensures Silent(Run(t, events), sent)
    decreases |events|
  {
    if events != [] {
      SilentRun(Step(t, events[0]), events[1..], sent);
    }
  }

  /**
    After `cancel`, whatever callbacks were still scheduled and whatever
    ticks follow, nothing more is sent and the cursor stays at 0 until a new
    transfer starts.
  */
  lemma CancelSilences(s: Session, events: seq<Event>)
    requires Valid(s) && Runs(Cancel(s), events)
    requires forall i :: 0 <= i < |events| ==> !events[i].Begin?
    ensures Run(Cancel(s), events).sent == s.sent
    ensures Run(Cancel(s), events).cursor == 0 && !Run(Cancel(s), events).readyToSend
  {
    SilentRun(Cancel(s), events, s.sent);
  }

  /**
    The stopping replies leave `readyToSend` set, so a settle callback
    scheduled before an alarm still runs `sendNextLine` after it: the cursor
    moves on and progress is reported although the socket is closed and
    the line is never transmitted.
  */
  lemma SettleAfterAlarm(s: Session, detail: string, now: int)
    requires Valid(s) && s.readyToSend && s.socket == Open && s.cursor < |s.pending|
    requires |s.timers| == 1 && s.timers[0].HomingSettle?
    ensures var t := Handle(s, Alarm(detail), now);
            && t.socket == Closed && t.timers == s.timers
            && var r := Fire(t, 0, now);
               && r.cursor == s.cursor + 1 && r.sent == s.sent && r.socket == Closed
               && r.ui == t.ui + [Progress(Percent(s.cursor + 1, |s.pending|)), LineInfo(s.cursor + 1, |s.pending|)]
  {
    var t := Handle(s, Alarm(detail), now);
    FatalStops(s, Alarm(detail), now);
    SettleSends(t, now);
  }

  /** The only pending callback, a settle callback, sends the next line when ready. */
  lemma SettleSends(s: Session, now: int)
    requires Valid(s) && s.readyToSend && |s.timers| == 1 && s.timers[0].HomingSettle? && s.cursor < |s.pending|
    ensures var r := Fire(s, 0, now);
            && r.cursor == s.cursor + 1 && r.socket == s.socket && r.timers == []
            && r.sent == s.sent + (if s.socket == Open then [s.pending[s.cursor]] else [])
            && r.ui == s.ui + [Progress(Percent(s.cursor + 1, |s.pending|)), LineInfo(s.cursor + 1, |s.pending|)]
  {
    assert Without(s.timers, 0) == [];
    SendNextLineEffect(s.(timers := []), now);
  }

  /**
    A two-line transfer from the start: the handshake probe, then each `ok`
    sends the next line with progress 50 and then 100, and the `ok` after
    the last line stops sending and closes the socket.
  */
  lemma TwoLineTransfer(l0: string, l1: string, now: int)
    ensures var r := Handle(Handle(Handle(Opened(Start(Initial(), [l0, l1])), Ok, now), Ok, now), Ok, now);
            && r.sent == [Handshake, l0, l1] && r.cursor == 2 && r.closes == 1 && r.socket == Closed
            && r.ui == [Sending(true), Progress(0), Progress(50), LineInfo(1, 2), Progress(100), LineInfo(2, 2),
                        Notice(Forwarded("ok")), Sending(false), Notice(Forwarded("ok"))]
  {
    PercentExact(1, 2, 50);
    PercentExact(2, 2, 100);
    var s2 := Opened(Start(Initial(), [l0, l1]));
    assert s2.sent == [Handshake] && s2.ui == [Sending(true), Progress(0)] && s2.socket == Open;
    HandshakeReply(s2, now);
    var s3 := Handle(s2, Ok, now);
    LaterOk(s3, now);
    var s4 := Handle(s3, Ok, now);
    LaterOk(s4, now);
  }

  /** `k + 1` replies are `k` replies and then one more. */
  lemma {:induction false} RepliesSnoc(reply: Reply, k: nat, now: int)
    ensures Replies(reply, k + 1, now) == Replies(reply, k, now) + [Message(reply, now)]
    decreases k
  {
    if k > 0 {
      RepliesSnoc(reply, k - 1, now);
    }
  }

  /**
    A whole transfer of any number of lines: `export()`, the socket opening,
    and one `ok` for the handshake probe and one for each line. The probe
    and then every line go out, in order; the last calls to the user
    interface report 100 % and all lines sent (0 % when there were no
    lines) and then not sending; monitoring stops and the socket is closed
    exactly once.
  */
  lemma CompleteTransfer(s: Session, lines: seq<string>, now: int)
    requires Valid(s)
    ensures Runs(s, [Begin(lines), SocketOpened] + Replies(Ok, |lines| + 1, now))
    ensures var r := Run(s, [Begin(lines), SocketOpened] + Replies(Ok, |lines| + 1, now));
            var n := |lines|;
            && r.sent == s.sent + [Handshake] + lines
            && r.pending == lines && r.cursor == n
            && r.closes == s.closes + 1 && r.socket == Closed && !r.monitoring
            && (n == 0 ==> r.ui == s.ui + [Sending(true), Progress(0), Sending(false)])
            && (n == 1 ==> r.ui == s.ui + [Sending(true), Progress(0), Progress(100), LineInfo(1, 1),
                                           Sending(false), Notice(Forwarded("ok"))])
            && (n >= 2 ==> |r.ui| >= 5 && r.ui[|r.ui| - 5..] == [Progress(100), LineInfo(n, n), Notice(Forwarded("ok")),
                                                             Sending(false), Notice(Forwarded("ok"))])
  {
    var oks := Replies(Ok, |lines| + 1, now);
    var t0 := Start(s, lines);
    StartResets(s, lines);
    var t1 := Opened(t0);
    assert t1.sent == s.sent + [Handshake] && t1.ui == s.ui + [Sending(true), Progress(0)];
    if |lines| == 0 {
      HandshakeReply(t1, now);
      assert oks == [Message(Ok, now)] + [];
      RunCons(t1, Message(Ok, now), []);
    } else if |lines| == 1 {
      PercentEnds(1);
      OneLineOks(t1, now);
    } else {
      OksFinish(t1, now);
    }
    assert Runs(t0, [SocketOpened] + oks) && Run(t0, [SocketOpened] + oks) == Run(t1, oks) by {
      RunCons(t0, SocketOpened, oks);
    }
    assert Runs(s, [Begin(lines)] + ([SocketOpened] + oks)) && Run(s, [Begin(lines)] + ([SocketOpened] + oks)) == Run(t1, oks) by {
      RunCons(s, Begin(lines), [SocketOpened] + oks);
    }
    assert [Begin(lines), SocketOpened] + oks == [Begin(lines)] + ([SocketOpened] + oks);
  }

  /** A one-line transfer on its open socket: the handshake `ok` sends the line, the next `ok` stops. */
  lemma OneLineOks(t: Session, now: int)
    requires Valid(t) && !t.handshakeSent && !t.isHoming && t.socket == Open && |t.pending| == 1
    ensures Runs(t, Replies(Ok, 2, now))
    ensures var r := Run(t, Replies(Ok, 2, now));
            && r.sent == t.sent + t.pending && r.pending == t.pending && r.cursor == 1
            && r.closes == t.closes + 1 && r.socket == Closed && !r.monitoring
            && r.ui == t.ui + [Progress(Percent(1, 1)), LineInfo(1, 1), Sending(false), Notice(Forwarded("ok"))]
  {
    FirstOk(t, now);
    var t2 := Handle(t, Ok, now);
    FinalOk(t2, now);
    assert Replies(Ok, 2, now) == [Message(Ok, now)] + ([Message(Ok, now)] + []);
    assert Runs(t2, [Message(Ok, now)] + []) && Run(t2, [Message(Ok, now)] + []) == Handle(t2, Ok, now) by {
      RunCons(t2, Message(Ok, now), []);
    }
    RunCons(t, Message(Ok, now), [Message(Ok, now)] + []);
  }

  /**
    A transfer of two or more lines on its open socket: the handshake `ok`
    sends the first line, each further `ok` the next one, and the `ok` after
    the last line stops the transfer.
  */
  lemma OksFinish(t: Session, now: int)
    requires Valid(t) && !t.handshakeSent && !t.isHoming && t.socket == Open && |t.pending| >= 2
    ensures Runs(t, Replies(Ok, |t.pending| + 1, now))
    ensures var r := Run(t, Replies(Ok, |t.pending| + 1, now));
            var n := |t.pending|;
            && r.sent == t.sent + t.pending && r.pending == t.pending && r.cursor == n
            && r.closes == t.closes + 1 && r.socket == Closed && !r.monitoring
            && |r.ui| >= 5 && r.ui[|r.ui| - 5..] == [Progress(100), LineInfo(n, n), Notice(Forwarded("ok")),
                                                 Sending(false), Notice(Forwarded("ok"))]
  {
    var n := |t.pending|;
    FirstOk(t, now);
    var t2 := Handle(t, Ok, now);
    OksToLast(t2, now);
    var t3 := Run(t2, Replies(Ok, n - 1, now));
    FinalOk(t3, now);
    RepliesThenOne(t2, Ok, n - 1, now);
    assert Runs(t, Replies(Ok, n + 1, now)) && Run(t, Replies(Ok, n + 1, now)) == Handle(t3, Ok, now) by {
      RunCons(t, Message(Ok, now), Replies(Ok, n, now));
    }
    FirstThenRest(t.sent, t.pending);
    LastThree(t3.ui, [Sending(false), Notice(Forwarded("ok"))]);
  }

  /** The first line sent, then the rest: the whole list. */
  lemma FirstThenRest(a: seq<string>, xs: seq<string>)
    requires |xs| > 0
    ensures (a + [xs[0]]) + xs[1..] == a + xs
  {
    assert xs == [xs[0]] + xs[1..];
  }

  /** Two more calls after a log's last three: its last five. */
  lemma LastThree(u: seq<UiEvent>, v: seq<UiEvent>)
    requires |u| >= 3 && |v| == 2
    ensures |u + v| >= 5 && (u + v)[|u + v| - 5..] == u[|u| - 3..] + v
  {
  }

  /**
    After the first line, one `ok` per line left sends the rest in order;
    the last of them reports 100 % and all lines sent.
  */
  lemma OksToLast(t: Session, now: int)
    requires Valid(t) && t.handshakeSent && !t.isHoming && t.socket == Open && t.cursor == 1 && |t.pending| >= 2
    ensures Runs(t, Replies(Ok, |t.pending| - 1, now))
    ensures var r := Run(t, Replies(Ok, |t.pending| - 1, now));
            var n := |t.pending|;
            && r.sent == t.sent + t.pending[1..] && r.pending == t.pending && r.cursor == n
            && r.handshakeSent && !r.isHoming && r.socket == Open && r.closes == t.closes && r.monitoring == t.monitoring
            && |r.ui| >= 3 && r.ui[|r.ui| - 3..] == [Progress(100), LineInfo(n, n), Notice(Forwarded("ok"))]
  {
    var n := |t.pending|;
    OksSendLines(t, n - 2, now);
    var u := Run(t, Replies(Ok, n - 2, now));
    OkStep(u, now);
    RepliesThenOne(t, Ok, n - 2, now);
    LastOk(t, u, Step(u, Message(Ok, now)));
  }

  /**
    The last `ok` of `OksToLast`: from the state after all but one of them
    (`u`) to the state after it (`r`).
  */
  lemma LastOk(t: Session, u: Session, r: Session)
    requires |t.pending| >= 2 && t.cursor == 1
    requires && u.cursor == |t.pending| - 1 && u.sent == t.sent + Lines(t.pending, 1, |t.pending| - 2)
             && u.pending == t.pending
    requires && r.handshakeSent && !r.isHoming && r.socket == Open && r.pending == u.pending
             && r.cursor == u.cursor + 1 && r.sent == u.sent + [u.pending[u.cursor]]
             && r.ui == u.ui + [Progress(Percent(u.cursor + 1, |u.pending|)), LineInfo(u.cursor + 1, |u.pending|),
                                Notice(Forwarded("ok"))]
    ensures var n := |t.pending|;
            && r.sent == t.sent + t.pending[1..] && r.pending == t.pending && r.cursor == n
            && |r.ui| >= 3 && r.ui[|r.ui| - 3..] == [Progress(100), LineInfo(n, n), Notice(Forwarded("ok"))]
  {
    var n := |t.pending|;
    RestSent(t.sent, t.pending);
    PercentEnds(n);
    LastOfAppended(u.ui, [Progress(Percent(n, n)), LineInfo(n, n), Notice(Forwarded("ok"))]);
  }

  /** The last `|v|` entries of `u + v` are `v`. */
  lemma LastOfAppended(u: seq<UiEvent>, v: seq<UiEvent>)
    ensures (u + v)[|u + v| - |v|..] == v
  {
  }

  /** What the lines after the first add to what was sent: the rest of the list. */
  lemma RestSent(a: seq<string>, xs: seq<string>)
    requires |xs| >= 2
    ensures (a + Lines(xs, 1, |xs| - 2)) + [xs[|xs| - 1]] == a + xs[1..]
  {
    LinesSlice(xs, 1, |xs| - 2);
    LastSplit(a, xs, Lines(xs, 1, |xs| - 2));
  }

  /** The lines strictly between the first and the last, then the last: all but the first. */
  lemma LastSplit(a: seq<string>, xs: seq<string>, middle: seq<string>)
    requires |xs| >= 2 && middle == xs[1..|xs| - 1]
    ensures (a + middle) + [xs[|xs| - 1]] == a + xs[1..]
  {
    assert xs[1..] == middle + [xs[|xs| - 1]];
  }

  /** A run of `k + 1` equal replies is the run of `k` of them and one more step. */
  lemma RepliesThenOne(s: Session, reply: Reply, k: nat, now: int)
    requires Valid(s) && Runs(s, Replies(reply, k, now))
    requires Enabled(Run(s, Replies(reply, k, now)), Message(reply, now))
    ensures Runs(s, Replies(reply, k + 1, now))
    ensures Run(s, Replies(reply, k + 1, now)) == Step(Run(s, Replies(reply, k, now)), Message(reply, now))
  {
    var u := Run(s, Replies(reply, k, now));
    RunCons(u, Message(reply, now), []);
    assert [Message(reply, now)] + [] == [Message(reply, now)];
    RunAppend(s, Replies(reply, k, now), [Message(reply, now)]);
    RepliesSnoc(reply, k, now);
  }

  /** The handshake `ok` of a transfer with lines sends the first line, as the runs of `ok` replies need it. */
  lemma FirstOk(t: Session, now: int)
    requires Valid(t) && !t.handshakeSent && !t.isHoming && t.socket == Open && |t.pending| > 0
    ensures Enabled(t, Message(Ok, now))
    ensures var r := Handle(t, Ok, now);
            && r.handshakeSent && !r.isHoming && r.socket == Open && r.cursor == 1 && r.pending == t.pending
            && r.sent == t.sent + [t.pending[0]] && r.closes == t.closes && r.monitoring
            && r.ui == t.ui + [Progress(Percent(1, |t.pending|)), LineInfo(1, |t.pending|)]
  {
    HandshakeReply(t, now);
  }

  /** The `ok` after the last line stops the transfer. */
  lemma FinalOk(t: Session, now: int)
    requires Valid(t) && t.handshakeSent && !t.isHoming && t.socket == Open && t.cursor == |t.pending|
    ensures Enabled(t, Message(Ok, now))
    ensures var r := Handle(t, Ok, now);
            && r.sent == t.sent && r.cursor == t.cursor && r.pending == t.pending && r.closes == t.closes + 1
            && r.socket == Closed && !r.monitoring && r.ui == t.ui + [Sending(false), Notice(Forwarded("ok"))]
  {
    LaterOk(t, now);
  }
}
