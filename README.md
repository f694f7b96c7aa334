# G-code streaming pump of the sand-table web app

This project models in Dafny the part of the web app that streams a G-code
program to the ESP32 controller over a WebSocket. It covers two files.

`WebSocketExporter.js` drives the stream:

- On `export()` it generates the program's lines and opens the socket. It
  sends a handshake probe and waits for `ok`, then sends one line per `ok`.
- A `busy` reply is retried after a growing delay, at most five times.
- `alarm:`, `error:`, `timeout` and `homing_failed` stop the transfer.
- `homing_started` pauses the stream. `homing_complete` resumes it after a
  3-second settle delay.
- A keepalive interval sends `;ping` once the controller has heard nothing
  for 12 seconds.
- `cancel()` resets everything and closes the socket.

`Exporter.js` is the line serialiser that produces those lines. It writes a
commented header, the `pre` block, one block of code lines per layer, and
the `post` block.

Files:

- `js_text.dfy` (`JsText`): the JavaScript string operations the handler
  relies on. These are `trim`, `toLowerCase` and `startsWith`.
- `line_builder.dfy` (`LineBuilder`): the base exporter.
  - Its output is specified by pure functions (`ExportLines`, `CodeLines`,
    `LayerBlock`, ...).
  - `class Exporter` holds the fields `lines`, `commenting`, `indentLevel`
    and `layers`. Its methods append to `lines` and are proved against those
    functions.
- `session.dfy` (`Transfer`): the pump's state as a value, `Session`.
  - Each event the pump reacts to is a function from the state before it to
    the state after it.
  - Runs of events are `Run` over the `Event` datatype. `Enabled` says when
    an event can happen.
- `pump.dfy` (`Pump`): `class WebSocketExporter` has the fields the source
  updates in place. It has one method per entry point or callback, and each
  method is proved to leave exactly the state the matching `Transfer`
  function gives. The base exporter is held in `exporter`, with the comment
  character `;`.
- `properties.dfy` (`TransferProperties`): what the pump guarantees, per
  event and over runs of events.

Collaborators outside the code are modelled as follows:

- **Socket.** The module-level socket of `gcodeSocket.js` becomes, per
  exporter, the `socket` state, `sent` and `closes`:
  - `sent` logs only what was transmitted. A `sendGcodeLine` while the
    socket is not open is dropped.
  - `closes` counts the calls to `socket.close()`.
- **Clock.** `Date.now()` is the `now` parameter of each event.
- **Timers.** A `setTimeout` callback is a pending `Deferred` record. It runs
  when a `TimerDue` event (the method `FireTimer`) fires it.
- **UI callbacks.** `setProgress`, `setLineInfo`, `setIsSending` and
  `onMessage` append to a `ui` log. The handler's fixed notices are the
  `Note` datatype, and `NoteText` gives their exact wording.

Behaviours of the code worth knowing; the model follows the code in each:

- **Fatal replies.** `alarm:`, `error:`, `timeout`, `homing_failed` and a
  sixth `busy` stop monitoring and close the socket. They do not clear
  `readyToSend`, the cursor or the pending lines.
  - So a homing-settle timer that is already scheduled still runs
    `sendNextLine` after the stop. The cursor and the progress move on,
    though nothing is transmitted on the closed socket. `SettleAfterAlarm`
    states this.
  - `cancel()` does clear `readyToSend`. After it no deferred callback sends
    anything (`CancelSilences`).
- **Status reports.** `status:` reports are dropped. They are not passed on
  to `onMessage`.
- **Keepalive timing.** The keepalive fires when the time since the last
  command is at least 12 000 ms, and only while `lastCommandTime` is truthy
  (a time of 0 counts as none).
- **Restarting.** A new `export()` does not close a socket left over from an
  earlier transfer. It connects a new one.
- **Homing before the handshake.** The handshake branch does not test
  `isHoming`. A `homing_started` that arrives before the first `ok` does
  not hold the stream: that `ok` sends line 0 (`HandshakeIgnoresHoming`).
  Only after the handshake does homing hold the cursor
  (`HomingHoldsCursor`).
- **Absent `pre`/`post`.** The transfer panel passes no `pre` or `post`, so
  both are `undefined`, and `undefined !== ""`. The export then emits the
  BEGIN comment, an empty line (the default content of `line()`) and the END
  comment for each. `PropText` models the property as `Undefined` or a
  `Defined` text. An absent `fileName` or `fileType` is printed as the text
  `undefined`; the model's string parameters take that text as given.

## Model

| member | source | states |
|---|---|---|
| `JsText.TrimStart` | Web/src/features/export/WebSocketExporter.js:172 | the result is the suffix of the input left after removing only white space, and it does not start with white space |
| `JsText.TrimEnd` | Web/src/features/export/WebSocketExporter.js:172 | the result is the prefix of the input left after removing only white space, and it does not end with white space |
| `JsText.Trim` | Web/src/features/export/WebSocketExporter.js:172 | the trimmed text is no longer than the input, and neither of its ends is white space |
| `JsText.TrimIsSlice` | Web/src/features/export/WebSocketExporter.js:172 | `trim()` returns a contiguous slice of the message, and everything cut off on either side is white space |
| `JsText.TrimIdempotent` | Web/src/features/export/WebSocketExporter.js:172 | trimming twice is the same as trimming once |
| `JsText.LowerChar` | Web/src/features/export/WebSocketExporter.js:172 | 'A'..'Z' become 'a'..'z', the Kelvin sign becomes 'k', every other character is kept, and no ASCII capital remains |
| `JsText.ToLower` | Web/src/features/export/WebSocketExporter.js:172 | `toLowerCase()` keeps the length, lowers each character as `LowerChar` does, leaves no capital letter, and changes exactly the ASCII capitals and the Kelvin sign |
| `JsText.ToLowerIdempotent` | Web/src/features/export/WebSocketExporter.js:172 | lower-casing twice is the same as lower-casing once |
| `LineBuilder.IndexOf` | Web/src/features/export/Exporter.js:237-239 | the position found is the first line feed, or the length of the text when there is none |
| `LineBuilder.SanitizeValue` | Web/src/features/export/Exporter.js:237-239 | sanitizing keeps the length of the value |
| `LineBuilder.SanitizeValueReplacesFirst` | Web/src/features/export/Exporter.js:237-239 | `replace("\n", " ")` replaces only the first line feed with a space and keeps every other character; a value without a line feed is unchanged |
| `LineBuilder.Indentation` | Web/src/features/export/Exporter.js:189-191 | the padding has two spaces per indent level, and none when the level is zero or below |
| `LineBuilder.RenderedPlain` | Web/src/features/export/Exporter.js:184-198 | outside comment mode a line is its content, sanitized only when asked |
| `LineBuilder.RenderedLayout` | Web/src/features/export/Exporter.js:184-198 | in comment mode a line is the comment character, then a space when the content is non-empty, then two spaces per indent level, then the (sanitized) content |
| `LineBuilder.NatToString` | Web/src/features/export/Exporter.js:228 | a layer index prints as decimal digits without a leading zero |
| `LineBuilder.NatToStringRoundTrip` | Web/src/features/export/Exporter.js:228 | reading the printed index back gives the index |
| `LineBuilder.CodeTextsOneMore` | Web/src/features/export/Exporter.js:142-144 | the `layer.code.forEach` loop emits each non-empty `pre` (or `post`) text in block order, and nothing for an empty one |
| `LineBuilder.VertexLinesAt` | Web/src/features/export/Exporter.js:151-153 | a layer has one code line per vertex, and line k is the sanitized `code` of vertex k |
| `LineBuilder.JoinedAppend` | Web/src/features/export/Exporter.js:133-166 | the blocks of two lists of layers are the blocks of the first followed by those of the second |
| `LineBuilder.CodeLinesAppend` | Web/src/features/export/Exporter.js:132-167 | splitting the layer list splits `exportCode`'s lines at the same place |
| `LineBuilder.LayerBlockLayout` | Web/src/features/export/Exporter.js:148-155 | a layer's block has its BEGIN comment, one code line per vertex in order, then its END comment, at known positions |
| `LineBuilder.LayerBlockBrackets` | Web/src/features/export/Exporter.js:134-165 | a layer with code blocks gets a blank line, BEGIN PRE, its pre texts and END PRE before the vertices, and after its END a blank line, BEGIN POST, its post texts and END POST; a layer without code blocks gets only the blank line |
| `LineBuilder.ExportLayout` | Web/src/features/export/Exporter.js:75-99 | the export is a 4-line commented header, the PRE block (none when `pre` is the empty text; otherwise BEGIN PRE, the text or an empty line when `pre` is undefined, END PRE), the layer code, a blank line, the POST block of the same shape and a final blank line |
| `LineBuilder.MapSeq` | Web/src/features/export/WebSocketExporter.js:41-60 | `vertices.map(transform)` keeps the length and transforms the vertices position by position |
| `LineBuilder.ReversedAt` | Web/src/features/export/Exporter.js:118-126 | `reverse()` puts element i at position n-1-i |
| `LineBuilder.PreparedLayers` | Web/src/features/export/WebSocketExporter.js:64-83 | `prepareLayers` returns as many layers as it is given |
| `LineBuilder.PreparedLayersAt` | Web/src/features/export/WebSocketExporter.js:64-83 | prepared layer i is input layer i (or n-1-i when reversing) with every other field kept and its vertices transformed and, when reversing, in reverse order |
| `LineBuilder.PreparedTwiceInReverse` | Web/src/features/export/WebSocketExporter.js:64-83 | with no shift, preparing twice in reverse restores the original layers |
| `LineBuilder.Exporter.constructor` | Web/src/features/export/Exporter.js:60-67 | an exporter starts with no lines, comment mode off and indent level 0 |
| `LineBuilder.Exporter.Line` | Web/src/features/export/Exporter.js:184-198 | `line()` appends exactly one rendered entry when `add` holds, and nothing otherwise |
| `LineBuilder.Exporter.PlainLine` | Web/src/features/export/Exporter.js:184-198 | outside comment mode `line()` appends the content itself, sanitized when asked |
| `LineBuilder.Exporter.KeyValueLine` | Web/src/features/export/Exporter.js:200-202 | `keyValueLine` appends `key: value` as one line |
| `LineBuilder.Exporter.Indent` | Web/src/features/export/Exporter.js:204-206 | the indent level goes up by one |
| `LineBuilder.Exporter.Dedent` | Web/src/features/export/Exporter.js:208-210 | the indent level goes down by one |
| `LineBuilder.Exporter.StartComments` | Web/src/features/export/Exporter.js:212-214 | comment mode is on |
| `LineBuilder.Exporter.EndComments` | Web/src/features/export/Exporter.js:216-218 | comment mode is off |
| `LineBuilder.Exporter.Comment` | Web/src/features/export/Exporter.js:220-224 | `comment(text)` appends exactly one comment line and leaves comment mode off |
| `LineBuilder.Exporter.ActionComment` | Web/src/features/export/Exporter.js:226-229 | appends one comment `<action> <type>: <index>`, followed by ` <name>` when the layer has a name |
| `LineBuilder.Exporter.PrepareLayers` | Web/src/features/export/WebSocketExporter.js:64-83 | the layers are prepared as `PreparedLayers` says, and the exporter is unchanged |
| `LineBuilder.Exporter.ExportCode` | Web/src/features/export/Exporter.js:132-167 | `exportCode` appends one block per layer, in layer order |
| `LineBuilder.Exporter.ExportLeading` | Web/src/features/export/Exporter.js:133-166 | the first n rounds of the layer loop append the blocks of the first n layers, in order |
| `LineBuilder.Exporter.EmitLayer` | Web/src/features/export/Exporter.js:134-165 | one round of the layer loop appends that layer's block |
| `LineBuilder.Exporter.EmitTexts` | Web/src/features/export/Exporter.js:142-144 | the code-block loop appends each non-empty pre (or post) text |
| `LineBuilder.Exporter.EmitVertices` | Web/src/features/export/Exporter.js:151-153 | the vertex loop appends one sanitized code line per vertex |
| `LineBuilder.Exporter.Export` | Web/src/features/export/Exporter.js:69-102 | `export` keeps the prepared layers and appends header, pre block, layer code, blank line, post block and blank line (as `ExportLayout` lays out, undefined `pre`/`post` included), returning the buffer |
| `LineBuilder.Exporter.EmitHeader` | Web/src/features/export/Exporter.js:76-81 | the header is a blank comment, the file name in quotes, the file type and a blank comment |
| `LineBuilder.Exporter.EmitBracketed` | Web/src/features/export/Exporter.js:83-87 | a property other than the empty text is emitted unsanitized between its BEGIN and END comments, an undefined one as an empty line; the empty text emits nothing |
| `LineBuilder.BracketedShape` | Web/src/features/export/Exporter.js:83-87 | the block has three lines or none: a given non-empty text between BEGIN and END, an undefined property as an empty middle line |
| `Transfer.Initial` | Web/src/features/export/WebSocketExporter.js:9-33 | a new exporter has no pending line, is not ready, does not monitor, and has no socket |
| `Transfer.RetryDelay` | Web/src/features/export/WebSocketExporter.js:269 | the backoff is 1000 ms per retry, capped at 5000 ms |
| `Transfer.Percent` | Web/src/features/export/WebSocketExporter.js:355-359 | the reported percentage is `i/n*100` rounded to the nearest whole number, with halves rounded up |
| `Transfer.SendNextLine` | Web/src/features/export/WebSocketExporter.js:336-364 | sending the next line from a valid, ready session keeps it valid |
| `Transfer.Start` | Web/src/features/export/WebSocketExporter.js:153-169 | a freshly started transfer is a valid session |
| `Transfer.Handle` | Web/src/features/export/WebSocketExporter.js:171-324 | every reply keeps the session valid: the cursor never passes the end of the lines, readiness goes with the handshake, and the cursor stays at 0 until the handshake |
| `Transfer.Fire` | Web/src/features/export/WebSocketExporter.js:196-201 | a deferred callback removes exactly its own record, leaving the others in order, and keeps the session valid |
| `Transfer.Cancel` | Web/src/features/export/WebSocketExporter.js:366-382 | cancelling always leaves a valid session |
| `Transfer.Without` | Web/src/features/export/WebSocketExporter.js:271-280 | removing a ran timer keeps the others in order |
| `Transfer.Step` | Web/src/features/export/WebSocketExporter.js:169-331 | every enabled event keeps the session valid |
| `TransferProperties.ClassifyKeepsText` | Web/src/features/export/WebSocketExporter.js:176-323 | the classified reply carries its whole text: the text is recovered from the reply |
| `TransferProperties.ClassifyReplyText` | Web/src/features/export/WebSocketExporter.js:176-323 | every reply is recognised from its own text (an unrecognised one exactly when no earlier test claims it), so the tests are in an order where none shadows another |
| `TransferProperties.ReceiveHandles` | Web/src/features/export/WebSocketExporter.js:171-173 | a message whose trimmed, lower-cased text is a reply's text is handled as that reply |
| `TransferProperties.StartResets` | Web/src/features/export/WebSocketExporter.js:153-169 | `export()` copies the lines into `linesPending`, zeroes cursor and retries, clears the flags, stops monitoring, reports sending and 0 %, and connects without sending |
| `TransferProperties.SendNextLineEffect` | Web/src/features/export/WebSocketExporter.js:336-364 | with lines left, the next line goes out (when the socket is open), the cursor advances by one, and progress and line info are reported; with none left, the transfer stops: monitoring off, not sending, socket closed |
| `TransferProperties.PercentBounds` | Web/src/features/export/WebSocketExporter.js:355-359 | progress lies between 0 and 100 and never decreases as the cursor advances |
| `TransferProperties.PercentEnds` | Web/src/features/export/WebSocketExporter.js:355-359 | progress is 0 % before the first line and 100 % after the last |
| `TransferProperties.PercentExact` | Web/src/features/export/WebSocketExporter.js:355-359 | the percentage is the unique whole number within half a step of `i/n*100` |
| `TransferProperties.HandshakeReply` | Web/src/features/export/WebSocketExporter.js:305-312 | the first `ok` sets both handshake flags, starts monitoring and sends the first line (or stops at once with no lines), and is not forwarded |
| `TransferProperties.LaterOk` | Web/src/features/export/WebSocketExporter.js:314-323 | a later `ok` resets retries and sends the next line unless homing, stops the transfer when no line is left, and is always forwarded |
| `TransferProperties.HomingStartedEffect` | Web/src/features/export/WebSocketExporter.js:176-184 | `homing_started` only sets the homing flag and posts its notice |
| `TransferProperties.HomingHoldsCursor` | Web/src/features/export/WebSocketExporter.js:314-319 | after the handshake, while homing, no reply advances the cursor or sends a line |
| `TransferProperties.HandshakeIgnoresHoming` | Web/src/features/export/WebSocketExporter.js:305-311 | the handshake `ok` does not test homing: it sends line 0 and moves the cursor to 1 even while homing, which stays set |
| `TransferProperties.HomingCompleteEffect` | Web/src/features/export/WebSocketExporter.js:186-204 | `homing_complete` clears the homing flag, refreshes the command time and schedules exactly one settle callback 3000 ms ahead, sending nothing now |
| `TransferProperties.SettleFires` | Web/src/features/export/WebSocketExporter.js:196-201 | the settle callback advances the cursor only when ready and a line is left, and when not ready it only removes itself |
| `TransferProperties.BusyEffect` | Web/src/features/export/WebSocketExporter.js:247-282 | `busy` counts one more retry; up to five it schedules a resend after the backoff, and beyond five it stops the transfer |
| `TransferProperties.RetryFires` | Web/src/features/export/WebSocketExporter.js:271-280 | the retry callback resends the line last sent, without moving the cursor, when ready and past the first line |
| `TransferProperties.FatalStops` | Web/src/features/export/WebSocketExporter.js:206-245 | `homing_failed`, an alarm, an error or a timeout posts one notice, stops monitoring, reports not sending and closes the socket, without moving the cursor |
| `TransferProperties.StopEffect` | Web/src/features/export/WebSocketExporter.js:337-342 | the stopping calls turn monitoring off, report not sending and close the socket, changing nothing else |
| `TransferProperties.HaltEffect` | Web/src/features/export/WebSocketExporter.js:227-231 | a notice followed by the stopping calls logs exactly that notice and "not sending" |
| `TransferProperties.FatalNotices` | Web/src/features/export/WebSocketExporter.js:221-245 | an alarm or error is reported as `GRBL Alarm: ` or `GRBL Error: ` followed by the text after the 6-character prefix |
| `TransferProperties.StatusIgnored` | Web/src/features/export/WebSocketExporter.js:297-302 | a `status:` report changes nothing at all |
| `TransferProperties.ClassifyStatus` | Web/src/features/export/WebSocketExporter.js:298-302 | any text beginning with `status:` is a status report carrying the rest of the text |
| `TransferProperties.CancelResets` | Web/src/features/export/WebSocketExporter.js:366-382 | `cancel()` empties the lines, zeroes cursor and retries, clears every flag, stops monitoring, reports not sending and leaves no open socket |
| `TransferProperties.TickPings` | Web/src/features/export/WebSocketExporter.js:114-127 | the keepalive transmits `;ping` exactly when the last command is at least 12 s old, the pump is ready and the socket open; when due it sets the command time to now even if nothing could be sent, and when not due it changes nothing |
| `TransferProperties.StoppedNeverPings` | Web/src/features/export/WebSocketExporter.js:131-137 | once monitoring is stopped, a tick does nothing |
| `TransferProperties.HandleCursor` | Web/src/features/export/WebSocketExporter.js:171-324 | a reply moves the cursor forward by at most one line and never changes the pending lines |
| `TransferProperties.StepCursor` | Web/src/features/export/WebSocketExporter.js:336-364 | any event other than export or cancel moves the cursor forward by at most one |
| `TransferProperties.CursorMonotone` | Web/src/features/export/WebSocketExporter.js:336-364 | over any run without export or cancel, the cursor never goes back and advances by at most one per event |
| `TransferProperties.OksSendInOrder` | Web/src/features/export/WebSocketExporter.js:314-319 | k acknowledgements on an open socket send exactly the next k pending lines, in order, one per `ok` |
| `TransferProperties.OksSendLines` | Web/src/features/export/WebSocketExporter.js:314-319 | by induction on k, the run of `ok` replies sends the next k lines in order |
| `TransferProperties.BusiesSchedule` | Web/src/features/export/WebSocketExporter.js:254-281 | k `busy` replies within the retry budget schedule k resends at 1000, 2000, ... ms, capped at 5000, and send nothing |
| `TransferProperties.BusyResends` | Web/src/features/export/WebSocketExporter.js:254-281 | below the limit, a `busy` schedules one resend with the backoff of the new retry count and keeps the socket open |
| `TransferProperties.BusyHalts` | Web/src/features/export/WebSocketExporter.js:256-266 | the `busy` after the fifth retry closes the socket and schedules nothing |
| `TransferProperties.BusiesThenStop` | Web/src/features/export/WebSocketExporter.js:254-281 | `busy` replies up to the limit and one more schedule every resend and then stop the transfer |
| `TransferProperties.LastBusyStops` | Web/src/features/export/WebSocketExporter.js:256-266 | with five retries used, one more `busy` stops the transfer |
| `TransferProperties.SixthBusyStops` | Web/src/features/export/WebSocketExporter.js:254-281 | six `busy` replies in a row schedule resends at 1, 2, 3, 4 and 5 seconds and then stop the transfer with the socket closed once |
| `TransferProperties.SilentRun` | Web/src/features/export/WebSocketExporter.js:366-382 | once the pump is not ready and its cursor is 0, no event other than a new export makes it send or advance |
| `TransferProperties.CancelSilences` | Web/src/features/export/WebSocketExporter.js:366-382 | after `cancel()` no message, timer or tick sends anything or advances the cursor until the next export |
| `TransferProperties.SettleAfterAlarm` | Web/src/features/export/WebSocketExporter.js:196-201 | an alarm closes the socket but leaves the settle callback armed, which then advances the cursor and reports progress without transmitting |
| `TransferProperties.SettleSends` | Web/src/features/export/WebSocketExporter.js:196-201 | a settle callback while ready sends the next line and reports its progress |
| `TransferProperties.TwoLineTransfer` | Web/src/features/export/WebSocketExporter.js:144-364 | a two-line export answered by three `ok`s transmits the handshake and both lines, reports 0, 50 and 100 %, and ends with one close |
| `TransferProperties.StoppedStep` | Web/src/features/export/WebSocketExporter.js:336-364 | with the socket closed or never opened, no event but a new export transmits anything or changes the socket |
| `TransferProperties.StoppedRun` | Web/src/features/export/WebSocketExporter.js:336-364 | over any run without a new export, a pump whose socket is closed or never opened transmits nothing more and its socket stays as it is |
| `TransferProperties.FatalSilences` | Web/src/features/export/WebSocketExporter.js:206-245 | after `homing_failed`, an alarm, an error or a timeout on an open socket, no later message, timer or tick transmits anything until a new export, and the socket stays closed |
| `TransferProperties.TooBusySilences` | Web/src/features/export/WebSocketExporter.js:254-281 | six `busy` replies and then any run without a new export transmit nothing, though five resends were scheduled, and leave the socket closed |
| `TransferProperties.CompleteTransfer` | Web/src/features/export/WebSocketExporter.js:144-364 | for every list of lines, export, open and one `ok` per line plus one for the handshake send the probe and then every line in order, report 100 % and all lines sent last (0 % when there are none), stop monitoring and close the socket once |
| `TransferProperties.OneLineOks` | Web/src/features/export/WebSocketExporter.js:304-364 | a one-line transfer: the handshake `ok` sends the line with 100 %, the next `ok` stops and closes |
| `TransferProperties.OksFinish` | Web/src/features/export/WebSocketExporter.js:304-364 | two or more lines: the handshake `ok` and one `ok` per line send all lines in order and end with 100 %, not sending and one close |
| `TransferProperties.OksToLast` | Web/src/features/export/WebSocketExporter.js:314-364 | after the first line, one `ok` per remaining line sends the rest in order, the last one reporting 100 % and all lines sent |
| `TransferProperties.FirstOk` | Web/src/features/export/WebSocketExporter.js:305-312 | the handshake `ok` of a transfer with lines starts monitoring and sends the first line |
| `TransferProperties.FinalOk` | Web/src/features/export/WebSocketExporter.js:314-343 | the `ok` after the last line sends nothing, stops monitoring, reports not sending and closes the socket |
| `Pump.VertexTotal` | Web/src/features/export/Exporter.js:72 | `allVertices` is empty exactly when every layer has no vertex |
| `Pump.FirstBare` | Web/src/features/export/Exporter.js:133-137 | the layer loop meets its first layer that has code blocks but no vertex at the index found, and there is none before it |
| `Pump.BufferedIsPrefix` | Web/src/features/export/Exporter.js:69-102 | what an export that throws leaves in the buffer is the start of the complete export of the same layers, and the buffer holds all of that export exactly when nothing throws |
| `Pump.WebSocketExporter.constructor` | Web/src/features/export/WebSocketExporter.js:9-33 | a new exporter has comment character `;`, an empty buffer and the initial transfer state |
| `Pump.WebSocketExporter.StartTimeoutMonitoring` | Web/src/features/export/WebSocketExporter.js:105-128 | any previous interval is replaced, and the command time is now |
| `Pump.WebSocketExporter.StopTimeoutMonitoring` | Web/src/features/export/WebSocketExporter.js:131-137 | no interval, and no command time |
| `Pump.WebSocketExporter.UpdateCommandTime` | Web/src/features/export/WebSocketExporter.js:140-142 | only the command time changes |
| `Pump.WebSocketExporter.SendGcodeLine` | Web/src/ws/gcodeSocket.js:29-35 | the line is transmitted only when the socket is open |
| `Pump.WebSocketExporter.DisconnectWebSocket` | Web/src/ws/gcodeSocket.js:38-42 | the socket is closed when one was ever created |
| `Pump.WebSocketExporter.Export` | Web/src/features/export/WebSocketExporter.js:144-169 | the buffer is cleared and the export runs; when `collectStats` throws on an empty vertex list the transfer state is untouched, and otherwise the transfer restarts on the generated lines, which are returned |
| `Pump.WebSocketExporter.BaseExport` | Web/src/features/export/WebSocketExporter.js:86-97 | `super.export()` with this class's `collectStats` throws exactly when no layer has a vertex or a layer with code blocks has none, leaving the lines emitted up to the throw |
| `Pump.WebSocketExporter.EmitUntil` | Web/src/features/export/Exporter.js:70-89 | the export up to the first bare layer leaves the header, the pre block and the blocks of the layers before it |
| `Pump.WebSocketExporter.Restart` | Web/src/features/export/WebSocketExporter.js:153-169 | the transfer fields are reset as `Start` says |
| `Pump.WebSocketExporter.SendNextLine` | Web/src/features/export/WebSocketExporter.js:336-364 | the new state is `Transfer.SendNextLine` of the old one |
| `Pump.WebSocketExporter.OnOpen` | Web/src/features/export/WebSocketExporter.js:325-330 | the socket opens and the handshake probe goes out |
| `Pump.WebSocketExporter.OnClose` | Web/src/ws/gcodeSocket.js:23-25 | a close from the other side only marks the socket closed |
| `Pump.WebSocketExporter.OnMessage` | Web/src/features/export/WebSocketExporter.js:171-324 | the new state is what `Transfer.Receive` gives for the message |
| `Pump.WebSocketExporter.HandleReply` | Web/src/features/export/WebSocketExporter.js:176-323 | each classified reply runs the statements of its branch, giving the state `Transfer.Handle` gives |
| `Pump.WebSocketExporter.Abort` | Web/src/features/export/WebSocketExporter.js:221-232 | a stopping branch posts its notice and then makes the three stopping calls |
| `Pump.WebSocketExporter.OnHomingCompleteMessage` | Web/src/features/export/WebSocketExporter.js:186-204 | the new state is what `Transfer.OnHomingComplete` gives |
| `Pump.WebSocketExporter.OnBusyMessage` | Web/src/features/export/WebSocketExporter.js:247-282 | the new state is what `Transfer.OnBusy` gives |
| `Pump.WebSocketExporter.OnOkMessage` | Web/src/features/export/WebSocketExporter.js:304-323 | the new state is what `Transfer.OnOk` gives |
| `Pump.WebSocketExporter.FireTimer` | Web/src/features/export/WebSocketExporter.js:271-280 | the new state is what `Transfer.Fire` gives |
| `Pump.WebSocketExporter.KeepaliveTick` | Web/src/features/export/WebSocketExporter.js:114-127 | the new state is what `Transfer.Tick` gives |
| `Pump.WebSocketExporter.Cancel` | Web/src/features/export/WebSocketExporter.js:366-382 | the new state is what `Transfer.Cancel` gives, and the buffer is empty |

## Left out

- Floating point is not modelled:
  - `code(vertex)` formats coordinates with `toFixed(3)`, and
    `transformVertices` adds `offsetX`/`offsetY`. Both are the parameters
    `code` and `transform`.
  - The original-coordinate bookkeeping of `transformVertices` is inside
    `transform`.
- `Transfer.Percent` is exact rational rounding. Binary floating point can
  round differently at a half (for example 57/200 % is 28.499… in doubles).
- `computeStats`/`replaceVariable`: the substitution of `{minx}`, `{maxy}`
  etc. into `pre`, `post` and the code blocks' texts is not modelled; those
  texts are kept as given. Only the throw of `collectStats` on an empty
  vertex list is modelled.
- Deep copying in the pump's `prepareLayers` (WebSocketExporter.js:64-83)
  is not modelled; layers are values. The copy keeps the caller's layer
  objects and vertices unchanged, but not its code blocks: `layer.code` and
  its block objects stay shared with the caller. `exportCode` passes them to
  `computeStats` (Exporter.js:137), which rewrites their `pre`/`post` in
  place with the `{minx}`, `{maxy}`, ... values filled in (Exporter.js:108-111,
  231-235). A later export of the same layers then starts from the
  substituted texts. This sharing is left out together with the
  substitution itself (the `computeStats`/`replaceVariable` line above).
- `LineBuilder.Exporter.PrepareLayers`: the base class's `prepareLayers`
  (Exporter.js:115-130) copies the list only shallowly. It rewrites the
  caller's layer objects (`layer.vertices = vertices`), reverses their
  vertex arrays in place when `transformVertices` is the identity, and
  `computeStats` rewrites their `pre`/`post` texts. This mutation of the
  input is not modelled; the model returns new values.
- `JsText.LowerChar` and `JsText.ToLower`: only the ASCII capitals and the
  Kelvin sign are lowered, not the rest of Unicode's case mapping. Every
  text the handler compares with is ASCII, so the classification is
  unaffected. The texts forwarded to `onMessage(trimmed)`
  (WebSocketExporter.js:322) and the alarm/error details (224, 237) keep
  non-ASCII capitals in the model where JavaScript would lower them.
- UTF-16 code units are not modelled: strings are sequences of Unicode
  scalar values, so lengths differ from JavaScript's for astral characters.
- `header()`/`footer()` are empty in the base class and not overridden, so
  they emit nothing and are not modelled.
- `fileExtension` is not modelled. It is not used by the transfer.
- `console.log`/`console.error`: logging only, left out.
- `maxHomingTime` is never read by the code.
- `setInterval`'s period of 2000 ms is not enforced. Ticks are events at
  arbitrary times, and the pump's behaviour only depends on `now`.
- `Transfer.Enabled` orders timers only by `due <= now`. The event loop's
  order among timers that are due is not modelled.
- Absent optional callbacks (`onMessage`, `setProgress`, ...) are not
  modelled. Every callback is assumed present, and its call is logged.
- Socket internals are not modelled: the URL, the `onerror` handler, and
  handlers of an earlier socket that are still attached after a new export
  replaces it.
- The sharing of the one module-level socket between exporters is not
  modelled; each exporter has its own `socket`, `sent` and `closes`. In the
  source every transfer builds a new `WebSocketExporter`
  (WebSocketTransferPanel.js:62), but all of them send and close through
  the same socket (gcodeSocket.js:1-4). After a stopping reply an exporter
  keeps `readyToSend` set, and its busy-retry and settle timers stay armed.
  When they fire they use whatever socket is current, which may belong to
  a later transfer: a stale line could go out on it, or it could be
  closed. This is a possible defect in the source. `CancelSilences`,
  `SettleAfterAlarm`, `StoppedRun`, `FatalSilences` and `TooBusySilences`
  hold per exporter only.
- `Pump.WebSocketExporter.FireTimer` does not require the timer to be due.
  The event loop guarantees that, and `Transfer.Enabled` states it for runs.
- The caller's handling of a throw from `export()` is outside the code
  modelled; a throw is the result `None`.
