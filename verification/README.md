# QtSerialCommunicator, modelled in Dafny

QtSerialCommunicator is a small Qt window for a serial terminal. The user
picks a port and five line settings in combo boxes, connects or disconnects
with one button, and types text to send. Everything sent or received is
appended to an output log. This project models the window's logic. The Qt
objects are replaced by one immutable record, `Communicator.Session`, which
holds:

- the connection flag `status`;
- whether the port is actually open (`isOpen`);
- the selected port;
- the port configuration;
- the output log (`outputlist`);
- the byte payloads written to the port.

Each slot of the window is a pure function on this record.

- `whitespace.dfy` (module `Whitespace`) models `QString::simplified`, which
  every log line goes through. The function is defined through the words of
  a string. Its fixed points are characterised by the predicate `Simple`,
  and the lemmas prove idempotence and uniqueness from that.
- `settings.dfy` (module `PortSettings`) models the five index-to-setting
  maps (`setBaudrate` … `setFlowcontrol`), the setters built on them and
  `fillCheckboxes`.
- `latin1.dfy` (module `Latin1`) models the bytes that `send` writes. These
  are `toLatin1` of the text, handed to `write(const char *)`, so the write
  stops at the first NUL byte.
- `communicator.dfy` (module `Communicator`) holds the rest:
  - the session record and the status lines;
  - `updateTextfield`, the constructor, `connectSerial`, `send` and `receive`;
  - event dispatch, both as wired and as intended;
  - the invariant `status == isOpen` with "every log line is simplified";
  - runs of events, and the proofs about them.

Inputs. Several values come from the outside world, so the transitions take
them as parameters:

- the result of `QSerialPort::open`;
- the port selected in the port list;
- whether the serial port's setter accepts a selected setting;
- the text in the input line;
- the text of the received data.

Two points of the window's behaviour that the model keeps as the program
has them:

- The connect button toggles: pressed while connected, it disconnects (the
  button is relabelled "Disconnect" once connected).
- The "Disconnected" shown at construction goes to the status bar only. It
  is not a log line, so a fresh log is exactly `["Start"]`.

## Model

| member | source | states |
|---|---|---|
| Whitespace.Simplified | QtSerialCommunicator/QtSerialCommunicator.cpp:114 | The result is in simplified form. It has the same words as the input. It is empty exactly when the input is all whitespace. |
| Whitespace.WordsEmptyIff | QtSerialCommunicator/QtSerialCommunicator.cpp:114 | A string has no words exactly when it consists only of whitespace. |
| Whitespace.UnwordsIsSimple | QtSerialCommunicator/QtSerialCommunicator.cpp:114 | Non-empty words joined by single spaces give a simplified string that starts with a non-space. |
| Whitespace.WordsOfUnwords | QtSerialCommunicator/QtSerialCommunicator.cpp:114 | Splitting words that were joined with single spaces gives back the same words. |
| Whitespace.SimpleIsFixedPoint | QtSerialCommunicator/QtSerialCommunicator.cpp:114 | A string in simplified form is rebuilt exactly from its words. |
| Whitespace.SimplifiedFixedPointIff | QtSerialCommunicator/QtSerialCommunicator.cpp:114 | Simplifying leaves a string unchanged exactly when it is in simplified form. |
| Whitespace.SimpleUnique | QtSerialCommunicator/QtSerialCommunicator.cpp:114 | Two simplified strings with the same words are equal. |
| Whitespace.SimplifiedIdempotent | QtSerialCommunicator/QtSerialCommunicator.cpp:114 | Simplifying twice gives the same result as simplifying once. |
| PortSettings.BaudFromIndex | QtSerialCommunicator/QtSerialCommunicator.cpp:163-189 | Indices 0, 1, 2, 4, 5, 6, 7 give 1200, 2400, 4800, 19200, 38400, 57600, 115200 baud, the rate at that position of the ascending rate list. Index 3, which has no case, and every other index give 9600. |
| PortSettings.DataBitsFromIndex | QtSerialCommunicator/QtSerialCommunicator.cpp:193-207 | Indices 0, 1, 2 give 5, 6, 7 data bits. Every other index gives 8. |
| PortSettings.ParityFromIndex | QtSerialCommunicator/QtSerialCommunicator.cpp:211-228 | Indices 1..4 give Even, Odd, Space and Mark. Every other index gives no parity. |
| PortSettings.StopBitsFromIndex | QtSerialCommunicator/QtSerialCommunicator.cpp:232-243 | Indices 1, 2 give one-and-a-half and two stop bits. Every other index gives one. |
| PortSettings.FlowControlFromIndex | QtSerialCommunicator/QtSerialCommunicator.cpp:247-258 | Indices 1, 2 give hardware and software flow control. Every other index gives none. |
| PortSettings.EveryValueSelectable | QtSerialCommunicator/QtSerialCommunicator.cpp:163-258 | Every value of every setting is reached by its own index. |
| PortSettings.BaudFromIndexAscending | QtSerialCommunicator/QtSerialCommunicator.cpp:163-189 | Over indices 0..7 the selected rate strictly increases, across the gap at 3 as well. |
| PortSettings.SetBaudrate | QtSerialCommunicator/QtSerialCommunicator.cpp:163-189 | Sets the baud rate from the index and keeps the other four settings. |
| PortSettings.SetDatabit | QtSerialCommunicator/QtSerialCommunicator.cpp:193-207 | Sets the data bits from the index and keeps the other four settings. |
| PortSettings.SetParity | QtSerialCommunicator/QtSerialCommunicator.cpp:211-228 | Sets the parity from the index and keeps the other four settings. |
| PortSettings.SetStopbit | QtSerialCommunicator/QtSerialCommunicator.cpp:232-243 | Sets the stop bits from the index and keeps the other four settings. |
| PortSettings.SetFlowcontrol | QtSerialCommunicator/QtSerialCommunicator.cpp:247-258 | Sets the flow control from the index and keeps the other four settings. |
| PortSettings.FillCheckboxes | QtSerialCommunicator/QtSerialCommunicator.cpp:140-160 | Whatever the port held before, the result is 9600 baud, 8 data bits, no parity, one stop bit and no flow control. |
| PortSettings.SelectChangesOneField | QtSerialCommunicator/QtSerialCommunicator.cpp:163-258 | A selection stored in one box changes only that box's setting. The setting reads back as the chosen index exactly when the index is in the box's list. |
| PortSettings.SelectLastWins | QtSerialCommunicator/QtSerialCommunicator.cpp:163-258 | A second selection in the same box overrides the first. |
| PortSettings.SelectCommutes | QtSerialCommunicator/QtSerialCommunicator.cpp:163-258 | Selections in two different boxes can be made in either order. |
| Latin1.Encode | QtSerialCommunicator/QtSerialCommunicator.cpp:47 | Latin-1 conversion gives one byte per character. |
| Latin1.UntilNul | QtSerialCommunicator/QtSerialCommunicator.cpp:48-49 | Writing a zero-terminated buffer sends its longest NUL-free prefix: the bytes stop at the end of the buffer or at its first NUL. |
| Latin1.UntilNulOfNoNul | QtSerialCommunicator/QtSerialCommunicator.cpp:48-49 | A buffer without NUL bytes is written whole. |
| Latin1.PayloadIsNulFreePrefix | QtSerialCommunicator/QtSerialCommunicator.cpp:47-49 | The bytes sent are a NUL-free prefix of the text's Latin-1 encoding and never longer than the text. |
| Latin1.PayloadRoundTrip | QtSerialCommunicator/QtSerialCommunicator.cpp:47-49 | For text of non-NUL Latin-1 characters, the whole encoding is sent and decoding it gives the text back. |
| Latin1.PayloadStopsAtNul | QtSerialCommunicator/QtSerialCommunicator.cpp:47-49 | Nothing from a NUL character onwards is sent. |
| Communicator.UpdateTextfield | QtSerialCommunicator/QtSerialCommunicator.cpp:113-117 | The log gains exactly one entry and its earlier entries stay unchanged. The new entry is simplified and has the text's words. A log of simplified entries stays so. |
| Communicator.UpdateTextfieldAbsorbsSimplified | QtSerialCommunicator/QtSerialCommunicator.cpp:113-115 | Logging an already simplified text gives the same log as logging the text itself. |
| Communicator.MessageTexts | QtSerialCommunicator/QtSerialCommunicator.cpp:14-104 | The status lines read "Start", "Connected", "Connection failed", "Disconnected", "Disconnection failed" and "send -> not connected". |
| Communicator.MessageLoggedVerbatim | QtSerialCommunicator/QtSerialCommunicator.cpp:113-115 | Every status line is already simplified, so it is logged unchanged. |
| Communicator.MessagesDistinct | QtSerialCommunicator/QtSerialCommunicator.cpp:85-104 | Different status lines have different texts. |
| Communicator.LogStatus | QtSerialCommunicator/QtSerialCommunicator.cpp:113-117 | Logging a status line appends exactly that line. |
| Communicator.Init | QtSerialCommunicator/QtSerialCommunicator.cpp:7-29 | A new window is not connected, has no port open and has written nothing. Its log is exactly ["Start"]. Its settings are the defaults. |
| Communicator.ConnectSerial | QtSerialCommunicator/QtSerialCommunicator.cpp:77-108 | Disconnected: the new status is the result of open, and the log gains "Connected" or "Connection failed". Connected with the port open: the port closes, the status clears and the log gains "Disconnected". Connected with the port closed: the status stays set, the port stays closed and the log gains "Disconnection failed". When connected, the selected port is kept. Settings and writes are always unchanged. |
| Communicator.Send | QtSerialCommunicator/QtSerialCommunicator.cpp:43-58 | The status, port and settings are unchanged. Connected: exactly one write of the text's payload, and the log gains the simplified "send -> " + text. Disconnected: no write, and the log gains "send -> not connected". |
| Communicator.Receive | QtSerialCommunicator/QtSerialCommunicator.cpp:35-38 | The log gains exactly one entry, with the words of the received data. Nothing else changes. |
| Communicator.DispatchAsWired | QtSerialCommunicator/QtSerialCommunicator.cpp:16-26 | The connect and send buttons, data-ready and four of the combo boxes reach their handlers. A flow-control selection leaves the session as it was. |
| Communicator.Dispatch | QtSerialCommunicator/QtSerialCommunicator.cpp:16-26 | A selection the port takes (the port is closed, or its setter accepts the value) changes exactly the selected box's setting. A selection an open port rejects changes nothing. Every other event appends exactly one log line and keeps the earlier ones. |
| Communicator.InitInv | QtSerialCommunicator/QtSerialCommunicator.cpp:13-14 | A new window satisfies the invariant: status equals the port's open state, and every log line is simplified. |
| Communicator.DispatchPreservesInv | QtSerialCommunicator/QtSerialCommunicator.cpp:35-117 | Every event keeps the invariant. |
| Communicator.NoDisconnectionFailure | QtSerialCommunicator/QtSerialCommunicator.cpp:93-106 | Under the invariant, the connect button never logs "Disconnection failed", and from connected it always disconnects. |
| Communicator.DisconnectionFailureNeedsBrokenInv | QtSerialCommunicator/QtSerialCommunicator.cpp:95-106 | A session that is flagged connected while its port is closed breaks the invariant. For it, the connect button logs "Disconnection failed" and the session stays connected. |
| Communicator.ConnectThenDisconnect | QtSerialCommunicator/QtSerialCommunicator.cpp:77-108 | Two presses with a successful open connect and then disconnect again. They log "Connected" then "Disconnected" and change neither settings nor writes. |
| Communicator.RunPreservesInv | QtSerialCommunicator/QtSerialCommunicator.cpp:35-117 | Any sequence of events keeps the invariant and only appends to the log. |
| Communicator.ReachableSessions | QtSerialCommunicator/QtSerialCommunicator.cpp:7-117 | In every session reachable from a new window, status equals the port's open state and every log line is unchanged by simplifying. Also, the next connect press cannot log "Disconnection failed". |
| Communicator.DispatchAsWiredPreservesInv | QtSerialCommunicator/QtSerialCommunicator.cpp:16-26 | Every event, handled as the window is wired, keeps the invariant. |
| Communicator.Wired | QtSerialCommunicator/QtSerialCommunicator.cpp:21-24 | The events that reach a handler as wired number the given events minus the flow-control selections. |
| Communicator.WiredMembers | QtSerialCommunicator/QtSerialCommunicator.cpp:21-24 | An event reaches a handler as wired exactly when it is one of the given events and not a flow-control selection. |
| Communicator.WiredAppend | QtSerialCommunicator/QtSerialCommunicator.cpp:21-24 | Filtering the events of two consecutive stretches gives the two filtered stretches in order, so the kept events keep their order. |
| Communicator.RunAsWiredIsRunOfWired | QtSerialCommunicator/QtSerialCommunicator.cpp:16-26 | Running the window as wired is running the corrected dispatch with the flow-control selections dropped. |
| Communicator.ReachableSessionsAsWired | QtSerialCommunicator/QtSerialCommunicator.cpp:7-117 | The sessions the window as wired can reach have status equal to the port's open state and only simplified log lines, and the next connect press cannot log "Disconnection failed". |
| Communicator.RunLogGrowth | QtSerialCommunicator/QtSerialCommunicator.cpp:113-117 | The log grows by exactly one line per non-selection event, and earlier lines are never changed. |
| Communicator.RunTwo | QtSerialCommunicator/QtSerialCommunicator.cpp:16-26 | Two events in a row are handled one after the other. |
| Communicator.ConnectAndSend | QtSerialCommunicator/QtSerialCommunicator.cpp:43-58 | From disconnected, a successful connect followed by a send logs "Connected" and then the simplified echo. It writes the payload exactly once. |
| Communicator.FlowControlSelectionIgnored | QtSerialCommunicator/QtSerialCommunicator.cpp:21-24 | As wired, a selection in the flow-control box leaves the port's flow control as it was, whatever the index and whether or not the port would accept it. |
| Communicator.RunAsWiredKeepsFlowControl | QtSerialCommunicator/QtSerialCommunicator.cpp:16-26 | As wired, no sequence of events changes the port's flow control. |
| Communicator.FlowControlNeverChangesAsWired | QtSerialCommunicator/QtSerialCommunicator.cpp:20-24 | As wired, every session reachable from a new window has no flow control, whatever the user selects. |
| Communicator.FlowControlSelectionApplied | QtSerialCommunicator/QtSerialCommunicator.cpp:247-258 | With the flow-control box wired, the same choice selects hardware flow control. |

## Left out

- Widgets are left out, because they are display only:
  - the text edit's display;
  - clearing the input line;
  - status-bar messages;
  - the button relabelling.
- `QSerialPort::open`, `write`, `readAll`, `close`, `isOpen` and the five setters `setBaudRate`, `setDataBits`, `setParity`, `setStopBits` and `setFlowControl` are not modelled as code. They are foreign library I/O. Their outcomes are inputs (`openResult`, the received data, and `accepted` for a setting: a closed port stores every value, while an open port keeps its previous setting when the driver rejects a value, such as 1.5 stop bits with 8 data bits on some drivers), and their effects are fields of the session (`isOpen`, `written`).
- The port is never closed from outside, for example after a device error; only the window's own slots change `isOpen`.
- `getPorts` (port enumeration) and `exportOutput` (writing the log to a file) are OS and file I/O. The export opens its file for reading and writing without truncating it.
- The choice of port is an input. Picking `portlist.at(currentIndex())` is not modelled, and neither is what happens when the list is empty and the index is -1.
- The `readyRead` connection is modelled only as the `ReadyRead` event; Qt's signal delivery is not modelled.
- Communicator.Receive: takes the received data as already decoded text. Converting the `QByteArray` to a `QString` is Qt's.
- Communicator.Receive: a `ReadyRead` event is accepted in every state, including while disconnected, where the port cannot signal data. The model allows more runs than the program has, so the guarantees proved for all runs also hold for the program's runs.
- The five combo-box lists are declared in the window's header, which is not part of this model. The position tables (`BaudPosition` … `FlowControlPosition`) and `ListLength` (8, 4, 5, 3, 3 entries) are assumed: ascending rates and widths, and the enumeration order of the parity, stop-bit and flow-control values. They agree with the defaults `fillCheckboxes` selects.
- Latin1.Encode: characters are Unicode scalar values, where `QString` holds UTF-16 code units. Characters outside Latin-1 become '?' one per character; a surrogate pair would become two.
- `QChar::isSpace` is modelled as a fixed list of code points (TAB..CR, space, U+0085, U+00A0, U+1680, U+2000..U+200A, U+2028, U+2029, U+202F, U+205F, U+3000). Qt's Unicode tables are not modelled.

## Findings

| source | as written | input that shows it | evidently intended | confidence | as-written member | corrected member |
|---|---|---|---|---|---|---|
| QtSerialCommunicator/QtSerialCommunicator.cpp:21-24 | The constructor connects `currentIndexChanged` for the baud, data-bit, parity and stop-bit boxes only, so nothing ever calls `setFlowcontrol` after `fillCheckboxes`. | After construction, choose "Hardware" (index 1) in the flow-control box. The port keeps no flow control. | The flow-control box is connected to `setFlowcontrol` like the other four. | medium; not executed. The window's form file, which could add the connection, is not part of this model. | Communicator.FlowControlSelectionIgnored | Communicator.FlowControlSelectionApplied |

`Communicator.DispatchAsWired` models the wiring as written.
`Communicator.Dispatch` is the corrected wiring, used by `Run`,
`RunPreservesInv` and `ReachableSessions`. The program as wired runs
through `RunAsWired`; `RunAsWiredIsRunOfWired` shows that it only drops the
flow-control selections, so `ReachableSessionsAsWired` gives the same
guarantees for it, and `FlowControlNeverChangesAsWired` extends the
as-written half of the finding to every run.
