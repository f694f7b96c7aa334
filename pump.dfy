/*
  The streaming exporter as an object: the fields `WebSocketExporter`
  updates in place, and one method per entry point or callback. Each method
  is proved to leave the state that the event functions of `Transfer` give
  for the state before it, so everything proved about those functions holds
  of this object too.

  The base-class part of the object (the line buffer and its flags) is the
  `LineBuilder.Exporter` held in `exporter`; the comment character is ";".
  The clock is the `now` parameter of each method; the socket is the
  `socket`, `sent` and `closes` fields; the UI callbacks append to `ui`.
*/
module Pump {
  import opened Transfer
  import LineBuilder

  /** A layer whose code blocks ask for its stats although it has no vertex. */
  predicate Bare<V>(layer: LineBuilder.Layer<V>)
  {
    |layer.code| > 0 && |layer.vertices| == 0
  }

  /** The number of vertices over all layers: the length of `allVertices`. */
  function VertexTotal<V>(layers: seq<LineBuilder.Layer<V>>): (n: nat)
    ensures n == 0 <==> forall i :: 0 <= i < |layers| ==> |layers[i].vertices| == 0
  {
    if layers == [] then 0 else |layers[0].vertices| + VertexTotal(layers[1..])
  }

  /** The index of the first bare layer, or the number of layers when none is bare. */
  function FirstBare<V>(layers: seq<LineBuilder.Layer<V>>): (j: nat)
    ensures j <= |layers|
    ensures forall i :: 0 <= i < j ==> !Bare(layers[i])
    ensures j < |layers| ==> Bare(layers[j])
  {
    if layers == [] then 0
    else if Bare(layers[0]) then 0
    else 1 + FirstBare(layers[1..])
  }

  /** Whether `collectStats` is reached with an empty vertex list. */
  predicate Throws<V>(layers: seq<LineBuilder.Layer<V>>)
  {
    VertexTotal(layers) == 0 || FirstBare(layers) < |layers|
  }

  /**
    What the export leaves in the line buffer: nothing when there is no
    vertex at all; up to the blocks before the first bare layer when one is
    bare; otherwise every line of the export.
  */
  function Buffered<V>(commentChar: string, indentLevel: int, code: V -> string, pre: LineBuilder.PropText, post: LineBuilder.PropText,
                       fileName: string, fileType: string, layers: seq<LineBuilder.Layer<V>>): seq<string>
  {
    if VertexTotal(layers) == 0 then []
    else if FirstBare(layers) < |layers|
    then LineBuilder.Header(commentChar, indentLevel, fileName, fileType)
         + LineBuilder.Bracketed(commentChar, indentLevel, "BEGIN PRE", "END PRE", pre)
         + LineBuilder.CodeLines(false, commentChar, indentLevel, code, layers[..FirstBare(layers)])
    else LineBuilder.ExportLines(commentChar, indentLevel, code, pre, post, fileName, fileType, layers)
  }

  /**
    A throwing export leaves the start of the text a complete export of the
    same layers would have produced, and an export that does not throw
    leaves all of it.
  */
  lemma BufferedIsPrefix<V>(commentChar: string, indentLevel: int, code: V -> string, pre: LineBuilder.PropText, post: LineBuilder.PropText,
                            fileName: string, fileType: string, layers: seq<LineBuilder.Layer<V>>)
    ensures var full := LineBuilder.ExportLines(commentChar, indentLevel, code, pre, post, fileName, fileType, layers);
            var kept := Buffered(commentChar, indentLevel, code, pre, post, fileName, fileType, layers);
            && kept <= full
            && (!Throws(layers) <==> kept == full)
  {
    if VertexTotal(layers) == 0 {
      assert |LineBuilder.ExportLines(commentChar, indentLevel, code, pre, post, fileName, fileType, layers)| >= 4;
    } else if FirstBare(layers) < |layers| {
      BareBufferedIsPrefix(commentChar, indentLevel, code, pre, post, fileName, fileType, layers);
    }
  }

  /** The bare-layer case: the text up to the first bare layer's block. */
  lemma BareBufferedIsPrefix<V>(commentChar: string, indentLevel: int, code: V -> string, pre: LineBuilder.PropText, post: LineBuilder.PropText,
                                fileName: string, fileType: string, layers: seq<LineBuilder.Layer<V>>)
    requires FirstBare(layers) < |layers|
    ensures var full := LineBuilder.ExportLines(commentChar, indentLevel, code, pre, post, fileName, fileType, layers);
            var kept := LineBuilder.Header(commentChar, indentLevel, fileName, fileType)
                        + LineBuilder.Bracketed(commentChar, indentLevel, "BEGIN PRE", "END PRE", pre)
                        + LineBuilder.CodeLines(false, commentChar, indentLevel, code, layers[..FirstBare(layers)]);
            kept <= full && kept != full
  {
    var j := FirstBare(layers);
    var front := LineBuilder.CodeLines(false, commentChar, indentLevel, code, layers[..j]);
    var back := LineBuilder.CodeLines(false, commentChar, indentLevel, code, layers[j..]);
    assert LineBuilder.CodeLines(false, commentChar, indentLevel, code, layers) == front + back by {
      LineBuilder.CodeLinesAppend(false, commentChar, indentLevel, code, layers[..j], layers[j..]);
      SplitAt(layers, j);
    }
    PrefixKept(LineBuilder.Header(commentChar, indentLevel, fileName, fileType),
               LineBuilder.Bracketed(commentChar, indentLevel, "BEGIN PRE", "END PRE", pre),
               front, back,
               LineBuilder.Bracketed(commentChar, indentLevel, "BEGIN POST", "END POST", post));
  }

  /** The opening and the first part of a body are a proper prefix of the whole text. */
  lemma PrefixKept(header: seq<string>, preBlock: seq<string>, front: seq<string>, back: seq<string>,
                   postBlock: seq<string>)
    ensures header + preBlock + front <= header + preBlock + (front + back) + [""] + postBlock + [""]
    ensures header + preBlock + front != header + preBlock + (front + back) + [""] + postBlock + [""]
  {
    var kept := header + preBlock + front;
    var rest := back + [""] + postBlock + [""];
    assert header + preBlock + (front + back) + [""] + postBlock + [""] == kept + rest;
    assert |rest| > 0;
  }

  lemma SplitAt<T>(s: seq<T>, j: nat)
    requires j <= |s|
    ensures s[..j] + s[j..] == s
  {
  }

  /** Appending three pieces one after another appends their concatenation. */
  lemma Regrouped<T>(a: seq<T>, b: seq<T>, c: seq<T>, d: seq<T>)
    ensures a + b + c + d == a + (b + c + d)
  {
  }

  class WebSocketExporter<V> {
    const exporter: LineBuilder.Exporter<V>

    var pending: seq<string>
    var cursor: nat
    var handshakeSent: bool
    var readyToSend: bool
    var isHoming: bool
    var retryCount: nat
    var lastCommandTime: Option<int>
    var monitoring: bool
    var timers: seq<Deferred>
    var socket: Socket
    var sent: seq<string>
    var closes: nat
    var ui: seq<UiEvent>

    /** The fields as a `Transfer.Session` value. */
    function Snapshot(): Session
      reads this
    {
      Session(pending, cursor, handshakeSent, readyToSend, isHoming, retryCount, lastCommandTime,
              monitoring, timers, socket, sent, closes, ui)
    }

    /** The object invariant: the snapshot is a valid session. */
    predicate Valid()
      reads this
    {
      Transfer.Valid(Snapshot())
    }

    /** `constructor(props)`: the comment character is ";" and nothing is pending or connected. */
    constructor (pre: LineBuilder.PropText, post: LineBuilder.PropText, fileName: string, fileType: string, reverse: bool,
                 code: V -> string, transform: V -> V)
      ensures Valid() && Snapshot() == Initial()
      ensures fresh(exporter)
      ensures exporter.commentChar == ";" && exporter.pre == pre && exporter.post == post
      ensures exporter.fileName == fileName && exporter.fileType == fileType && exporter.reverse == reverse
      ensures exporter.code == code && exporter.transform == transform
      ensures exporter.lines == [] && !exporter.commenting && exporter.indentLevel == 0
    {
      exporter := new LineBuilder.Exporter(";", pre, post, fileName, fileType, reverse, code, transform);
      pending := [];
      cursor := 0;
      handshakeSent := false;
      readyToSend := false;
      isHoming := false;
      retryCount := 0;
      lastCommandTime := None;
      monitoring := false;
      timers := [];
      socket := NoSocket;
      sent := [];
      closes := 0;
      ui := [];
    }

    // -------------------------------------------------------------------------
    // Small helpers

    /** `startTimeoutMonitoring()`: any old interval is replaced by a fresh one. */
    method StartTimeoutMonitoring(now: int)
      modifies this
      ensures Snapshot() == StartMonitoring(old(Snapshot()), now)
    {
      lastCommandTime := Some(now);
      monitoring := true;
    }

    /** `stopTimeoutMonitoring()` */
    method StopTimeoutMonitoring()
      modifies this
      ensures Snapshot() == StopMonitoring(old(Snapshot()))
    {
      monitoring := false;
      lastCommandTime := None;
    }

    /** `updateCommandTime()` */
    method UpdateCommandTime(now: int)
      modifies this
      ensures Snapshot() == old(Snapshot()).(lastCommandTime := Some(now))
    {
      lastCommandTime := Some(now);
    }

    /** `sendGcodeLine(line)` */
    method SendGcodeLine(line: string)
      modifies this
      ensures Snapshot() == Send(old(Snapshot()), line)
    {
      if socket == Open {
        sent := sent + [line];
      }
    }

    /** `disconnectWebSocket()` */
    method DisconnectWebSocket()
      modifies this
      ensures Snapshot() == Disconnect(old(Snapshot()))
    {
      if socket != NoSocket {
        socket := Closed;
        closes := closes + 1;
      }
    }

    /** The three calls every stopping branch makes. */
    method StopTransfer()
      modifies this
      ensures Snapshot() == Halt(old(Snapshot()))
    {
      StopTimeoutMonitoring();
      ui := ui + [Sending(false)];
      DisconnectWebSocket();
    }

    // -------------------------------------------------------------------------
    // Entry points and callbacks

    /**
      `export()`: the line buffer is cleared and the base export runs. When
      it throws (`None`), the transfer state is untouched; otherwise the
      transfer restarts on the generated lines, which are also returned.
    */
    method Export(input: seq<LineBuilder.Layer<V>>) returns (result: Option<seq<string>>)
      requires Valid()
      modifies this, exporter`lines, exporter`commenting, exporter`layers
      ensures Valid()
      ensures exporter.layers == LineBuilder.PreparedLayers(input, exporter.reverse, exporter.transform)
      ensures exporter.lines == Buffered(exporter.commentChar, exporter.indentLevel, exporter.code, exporter.pre, exporter.post,
                                         exporter.fileName, exporter.fileType, exporter.layers)
      ensures Throws(exporter.layers) ==> result == None && Snapshot() == old(Snapshot())
      ensures !Throws(exporter.layers) ==>
                result == Some(exporter.lines) && Snapshot() == Start(old(Snapshot()), exporter.lines)
    {
      exporter.lines := [];
      var thrown := BaseExport(input);
      if thrown {
        return None;
      }
      Restart(exporter.lines);
      result := Some(exporter.lines);
    }

    /**
      `super.export()` with this class's `collectStats`, which throws on an
      empty vertex list: the whole export throws when the layers have no
      vertex at all (the `computeStats` call on all vertices), and the layer loop throws
      at the first bare layer, after the header, the pre block and the
      blocks of the layers before it.
    */
    method BaseExport(input: seq<LineBuilder.Layer<V>>) returns (thrown: bool)
      modifies exporter`lines, exporter`commenting, exporter`layers
      ensures exporter.layers == LineBuilder.PreparedLayers(input, exporter.reverse, exporter.transform)
      ensures thrown == Throws(exporter.layers)
      ensures exporter.lines
              == old(exporter.lines)
                 + Buffered(exporter.commentChar, exporter.indentLevel, exporter.code, exporter.pre, exporter.post,
                            exporter.fileName, exporter.fileType, exporter.layers)
    {
      var prepared := exporter.PrepareLayers(input);
      if VertexTotal(prepared) == 0 {
        exporter.layers := prepared;
        return true;
      }
      var bare := FirstBare(prepared);
      if bare < |prepared| {
        EmitUntil(prepared, bare);
        return true;
      }
      var lines := exporter.Export(input);
      thrown := false;
    }

    /** The base export on prepared layers, up to the throw in the loop round of layer `bare`. */
    method EmitUntil(prepared: seq<LineBuilder.Layer<V>>, bare: nat)
      requires bare <= |prepared|
      modifies exporter`lines, exporter`commenting, exporter`layers
      ensures exporter.layers == prepared
      ensures exporter.lines
              == old(exporter.lines)
                 + (LineBuilder.Header(exporter.commentChar, exporter.indentLevel, exporter.fileName, exporter.fileType)
                    + LineBuilder.Bracketed(exporter.commentChar, exporter.indentLevel, "BEGIN PRE", "END PRE", exporter.pre)
                    + LineBuilder.CodeLines(false, exporter.commentChar, exporter.indentLevel, exporter.code, prepared[..bare]))
    {
      exporter.layers := prepared;
      exporter.EmitHeader();
      exporter.EmitBracketed("BEGIN PRE", "END PRE", exporter.pre);
      exporter.ExportLeading(bare);
      Regrouped(old(exporter.lines),
                LineBuilder.Header(exporter.commentChar, exporter.indentLevel, exporter.fileName, exporter.fileType),
                LineBuilder.Bracketed(exporter.commentChar, exporter.indentLevel, "BEGIN PRE", "END PRE", exporter.pre),
                LineBuilder.CodeLines(false, exporter.commentChar, exporter.indentLevel, exporter.code, prepared[..bare]));
    }

    /** The rest of `export()`: every transfer field reset and a new socket connecting. */
    method Restart(lines: seq<string>)
      modifies this
      ensures Snapshot() == Start(old(Snapshot()), lines)
    {
      StopTimeoutMonitoring();
      pending := lines;
      cursor := 0;
      handshakeSent := false;
      readyToSend := false;
      isHoming := false;
      retryCount := 0;
      ui := ui + [Sending(true)];
      ui := ui + [Progress(0)];
      socket := Connecting;
    }

    /** `sendNextLine()`: the next line with its progress, or the end of the transfer. */
    method SendNextLine(now: int)
      requires Valid() && readyToSend
      modifies this
      ensures Valid()
      ensures Snapshot() == Transfer.SendNextLine(old(Snapshot()), now)
    {
      if cursor >= |pending| {
        StopTransfer();
        return;
      }
      var line := pending[cursor];
      SendGcodeLine(line);
      UpdateCommandTime(now);
      cursor := cursor + 1;
      ui := ui + [Progress(Percent(cursor, |pending|))];
      ui := ui + [LineInfo(cursor, |pending|)];
    }

    /** The `onOpen` callback: the handshake probe. */
    method OnOpen()
      requires Valid()
      modifies this
      ensures Valid()
      ensures Snapshot() == Opened(old(Snapshot()))
    {
      socket := Open;
      SendGcodeLine(Handshake);
    }

    /** The socket closed from the other side. */
    method OnClose()
      requires Valid()
      modifies this
      ensures Valid()
      ensures Snapshot() == ChannelClosed(old(Snapshot()))
    {
      if socket != NoSocket {
        socket := Closed;
      }
    }

    /**
      The message handler: the message is trimmed and lower-cased, and the
      handler's chain of tests, which is `Transfer.Classify`, picks
      the branch.
    */
    method OnMessage(msg: string, now: int)
      requires Valid()
      modifies this
      ensures Valid()
      ensures Snapshot() == Receive(old(Snapshot()), msg, now)
    {
      var trimmed := Normalize(msg);
      HandleReply(Classify(trimmed), now);
    }

    /** The statements of the branch the classified message takes. */
    method HandleReply(reply: Reply, now: int)
      requires Valid()
      modifies this
      ensures Valid()
      ensures Snapshot() == Handle(old(Snapshot()), reply, now)
    {
      match reply
      case HomingStarted =>
        isHoming := true;
        ui := ui + [Notice(HomingStartedNote)];
      case HomingComplete =>
        OnHomingCompleteMessage(now);
      case HomingFailed =>
        isHoming := false;
        Abort(HomingFailedNote);
      case Alarm(detail) =>
        Abort(AlarmNote(detail));
      case Error(detail) =>
        Abort(ErrorNote(detail));
      case Busy =>
        OnBusyMessage(now);
      case Timeout =>
        Abort(TimeoutNote);
      case Status(_) =>
      case Ok =>
        OnOkMessage(now);
      case Other(text) =>
        ui := ui + [Notice(Forwarded(text))];
    }

    /** A stopping branch: its notice, then the three stopping calls. */
    method Abort(note: Note)
      requires Valid()
      modifies this
      ensures Valid()
      ensures Snapshot() == Halt(Notify(old(Snapshot()), Notice(note)))
    {
      ui := ui + [Notice(note)];
      StopTransfer();
    }

    /** The `homing_complete` branch: the settle callback is scheduled 3000 ms ahead. */
    method OnHomingCompleteMessage(now: int)
      requires Valid()
      modifies this
      ensures Valid()
      ensures Snapshot() == OnHomingComplete(old(Snapshot()), now)
    {
      isHoming := false;
      ui := ui + [Notice(HomingCompleteNote)];
      UpdateCommandTime(now);
      timers := timers + [HomingSettle(now + SettleDelay)];
    }

    /** The `busy` branch: a resend after a growing delay, or a stop after the fifth retry. */
    method OnBusyMessage(now: int)
      requires Valid()
      modifies this
      ensures Valid()
      ensures Snapshot() == OnBusy(old(Snapshot()), now)
    {
      ui := ui + [Notice(BusyNote)];
      retryCount := retryCount + 1;
      if retryCount > MaxRetries {
        ui := ui + [Notice(TooBusyNote)];
        StopTransfer();
        return;
      }
      var retryDelay := if 1000 * retryCount < 5000 then 1000 * retryCount else 5000;
      timers := timers + [BusyRetry(now + retryDelay)];
    }

    /**
      An `ok`: the handshake reply starts monitoring and sends the first
      line; a later one sends the next line unless homing, and is forwarded.
    */
    method OnOkMessage(now: int)
      requires Valid()
      modifies this
      ensures Valid()
      ensures Snapshot() == OnOk(old(Snapshot()), now)
    {
      if !handshakeSent {
        handshakeSent := true;
        readyToSend := true;
        StartTimeoutMonitoring(now);
        SendNextLine(now);
        return;
      }
      if readyToSend && !isHoming {
        UpdateCommandTime(now);
        retryCount := 0;
        SendNextLine(now);
      }
      ui := ui + [Notice(Forwarded("ok"))];
    }

    /** The `k`-th pending `setTimeout` callback runs. */
    method FireTimer(k: nat, now: int)
      requires Valid() && k < |timers|
      modifies this
      ensures Valid()
      ensures Snapshot() == Fire(old(Snapshot()), k, now)
    {
      var timer := timers[k];
      timers := Without(timers, k);
      match timer
      case BusyRetry(_) =>
        if readyToSend && cursor > 0 {
          var line := pending[cursor - 1];
          SendGcodeLine(line);
          UpdateCommandTime(now);
        }
      case HomingSettle(_) =>
        if readyToSend {
          SendNextLine(now);
        }
    }

    /** One run of the keepalive interval, which is set only while monitoring: a ping once the last command is old enough. */
    method KeepaliveTick(now: int)
      requires Valid() && monitoring
      modifies this
      ensures Valid()
      ensures Snapshot() == Tick(old(Snapshot()), now)
    {
      if lastCommandTime.Some? && lastCommandTime.value != 0 && readyToSend {
        var timeSinceLastCommand := now - lastCommandTime.value;
        if timeSinceLastCommand >= CommandTimeout {
          SendGcodeLine(Ping);
          lastCommandTime := Some(now);
        }
      }
    }

    /** `cancel()`: everything reset, the buffer cleared, the socket closed. */
    method Cancel()
      requires Valid()
      modifies this, exporter`lines
      ensures Valid()
      ensures Snapshot() == Transfer.Cancel(old(Snapshot()))
      ensures exporter.lines == []
    {
      StopTimeoutMonitoring();
      readyToSend := false;
      handshakeSent := false;
      exporter.lines := [];
      pending := [];
      cursor := 0;
      isHoming := false;
      retryCount := 0;
      ui := ui + [Sending(false)];
      DisconnectWebSocket();
    }
  }
}
