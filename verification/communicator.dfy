/**
  The serial terminal's session: whether it considers itself connected
  (`status`), whether the port is actually open (`isOpen`), the selected
  port, the port configuration, the output log shown to the user and the
  payloads written to the port. Every user action and every "data ready"
  notification is a pure transition on this record; the outcome of opening
  the port and the text typed or received are inputs of the transitions.
 */
module Communicator {
  import opened Whitespace
  import opened PortSettings
  import Latin1

  datatype Option<T> = None | Some(value: T)

  /** A serial device as listed by the port enumeration. */
  datatype PortInfo = PortInfo(portName: string, manufacturer: string)

  datatype Session = Session(
    status: bool,
    isOpen: bool,
    port: Option<PortInfo>,
    config: PortConfig,
    log: seq<string>,
    written: seq<seq<Latin1.byte>>)

  /** The fixed status lines the window writes to its log. */
  datatype Status =
    | Start | Connected | ConnectionFailed | Disconnected | DisconnectionFailed
    | NotConnected

  /** The words of each status line. */
  function MessageWords(m: Status): seq<string> {
    match m
    case Start => ["Start"]
    case Connected => ["Connected"]
    case ConnectionFailed => ["Connection", "failed"]
    case Disconnected => ["Disconnected"]
    case DisconnectionFailed => ["Disconnection", "failed"]
    case NotConnected => ["send", "->", "not", "connected"]
  }

  /** The text of a status line: its words separated by single spaces. */
  function Message(m: Status): string {
    Unwords(MessageWords(m))
  }

  /** The prefix of the echo of a sent text. */
  const SendPrefix := "send -> "

  /** Every entry of the log is in simplified form. */
  predicate LogSimplified(log: seq<string>) {
    forall e :: e in log ==> Simple(e)
  }

  /** `log` extended by exactly one entry, which has the words of `text`
      and is in simplified form. */
  predicate AppendedOne(log: seq<string>, log': seq<string>, text: string) {
    && |log'| == |log| + 1
    && log'[..|log|] == log
    && Simple(log'[|log|])
    && Words(log'[|log|]) == Words(text)
  }

  /** `updateTextfield`: the text is simplified and appended to the output
      list. The new entry is the unique simple string with the words of
      `text` (see `Whitespace.SimpleUnique`). */
  function UpdateTextfield(log: seq<string>, text: string): (r: seq<string>)
    ensures AppendedOne(log, r, text)
    ensures LogSimplified(log) ==> LogSimplified(r)
  {
    var e := Simplified(text);
    var r := log + [e];
    assert r[..|log|] == log;
    assert r[|log|] == e;
    assert forall x :: x in r ==> x in log || x == e;
    r
  }

  /** Appending an already simplified text is the same as appending the
      text itself. */
  lemma UpdateTextfieldAbsorbsSimplified(log: seq<string>, text: string)
    ensures UpdateTextfield(log, Simplified(text)) == UpdateTextfield(log, text)
  {
    SimplifiedIdempotent(text);
  }

  /** The status lines spelled out. */
  lemma MessageTexts()
    ensures Message(Start) == "Start"
    ensures Message(Connected) == "Connected"
    ensures Message(ConnectionFailed) == "Connection failed"
    ensures Message(Disconnected) == "Disconnected"
    ensures Message(DisconnectionFailed) == "Disconnection failed"
    ensures Message(NotConnected) == "send -> not connected"
  {
  }

  lemma MessageWordsWellFormed(m: Status)
    ensures WellFormedWords(MessageWords(m))
  {
    match m
    case Start => VisibleIsWord("Start");
    case Connected => VisibleIsWord("Connected");
    case ConnectionFailed => VisibleIsWord("Connection"); VisibleIsWord("failed");
    case Disconnected => VisibleIsWord("Disconnected");
    case DisconnectionFailed => VisibleIsWord("Disconnection"); VisibleIsWord("failed");
    case NotConnected =>
      VisibleIsWord("send"); VisibleIsWord("->"); VisibleIsWord("not"); VisibleIsWord("connected");
  }

  /** A non-empty string of visible ASCII characters is a word. */
  lemma VisibleIsWord(w: string)
    requires w != [] && forall i :: 0 <= i < |w| ==> '!' <= w[i] <= '~'
    ensures NoSpace(w)
  {
  }

  /** Every status line is already in simplified form, so it is logged
      verbatim. */
  lemma MessageLoggedVerbatim(m: Status)
    ensures Simple(Message(m))
    ensures Simplified(Message(m)) == Message(m)
  {
    MessageWordsWellFormed(m);
    UnwordsIsSimple(MessageWords(m));
    WordsOfUnwords(MessageWords(m));
  }

  /** Different status lines read differently. */
  lemma MessagesDistinct(m: Status, m': Status)
    requires m != m'
    ensures Message(m) != Message(m')
  {
    MessageWordsWellFormed(m);
    MessageWordsWellFormed(m');
    WordsOfUnwords(MessageWords(m));
    WordsOfUnwords(MessageWords(m'));
  }

  /** The session with status line `m` appended to its log. */
  function LogStatus(s: Session, m: Status): (r: Session)
    ensures r == s.(log := s.log + [Message(m)])
  {
    MessageLoggedVerbatim(m);
    s.(log := UpdateTextfield(s.log, Message(m)))
  }

  /** The window as constructed: not connected, nothing open or written, the
      log holding only "Start", and the settings filled with their defaults. */
  function Init(): (s: Session)
    ensures !s.status && !s.isOpen && s.port == None && s.written == []
    ensures s.log == [Message(Start)]
    ensures s.config == DefaultConfig
  {
    var s := Session(
      status := false,
      isOpen := false,
      port := None,
      config := DefaultConfig,
      log := [],
      written := []);
    var s := LogStatus(s, Start);
    s.(config := FillCheckboxes(s.config))
  }

  /** `connectSerial`, the handler of the connect/disconnect button.
      Disconnected: select `port` and try to open it; `openResult` is what the
      open call reported. Connected: close the port if it is open, then
      report from `status` whether that worked. */
  function ConnectSerial(s: Session, port: PortInfo, openResult: bool): (r: Session)
    ensures r.config == s.config && r.written == s.written
    ensures !s.status ==> && r.status == openResult && r.port == Some(port)
                          && r.isOpen == (s.isOpen || openResult)
                          && r.log == s.log + [Message(if openResult then Connected else ConnectionFailed)]
    ensures s.status && s.isOpen ==> && !r.status && !r.isOpen && r.port == s.port
                                     && r.log == s.log + [Message(Disconnected)]
    ensures s.status && !s.isOpen ==> && r.status && !r.isOpen && r.port == s.port
                                      && r.log == s.log + [Message(DisconnectionFailed)]
  {
    if !s.status then
      var s' := s.(port := Some(port), status := openResult, isOpen := s.isOpen || openResult);
      if s'.status then LogStatus(s', Connected) else LogStatus(s', ConnectionFailed)
    else
      var s' := if s.isOpen then s.(isOpen := false, status := false) else s;
      if !s'.status then LogStatus(s', Disconnected) else LogStatus(s', DisconnectionFailed)
  }

  /** `send`, the handler of the send button, with `text` the content of the
      input line. Connected: one write of the text's payload and a log
      entry echoing it. Disconnected: no write, and a fixed log entry. */
  function Send(s: Session, text: string): (r: Session)
    ensures r.status == s.status && r.isOpen == s.isOpen
    ensures r.port == s.port && r.config == s.config
    ensures s.status ==> && r.written == s.written + [Latin1.Payload(text)]
                         && AppendedOne(s.log, r.log, SendPrefix + text)
    ensures !s.status ==> && r.written == s.written
                          && r.log == s.log + [Message(NotConnected)]
  {
    if s.status then
      s.(written := s.written + [Latin1.Payload(text)],
         log := UpdateTextfield(s.log, SendPrefix + text))
    else
      LogStatus(s, NotConnected)
  }

  /** `receive`, the handler of the port's "data ready" notification, with
      `data` the text of everything the port had buffered. */
  function Receive(s: Session, data: string): (r: Session)
    ensures r.status == s.status && r.isOpen == s.isOpen
    ensures r.port == s.port && r.config == s.config && r.written == s.written
    ensures AppendedOne(s.log, r.log, data)
  {
    s.(log := UpdateTextfield(s.log, data))
  }

  /** What can happen to the window. For a selection, `accepted` is what the
      serial port's setter reports: a closed port stores any value, while an
      open port keeps its previous setting when the driver rejects the new
      one. The window ignores that report. */
  datatype Event =
    | ConnectPressed(port: PortInfo, openResult: bool)
    | SendPressed(text: string)
    | ReadyRead(data: string)
    | IndexChanged(box: Selector, index: int, accepted: bool)

  /** A selection in the flow-control box. */
  predicate IsFlowSelection(e: Event) {
    e.IndexChanged? && e.box == FlowControlBox
  }

  /** A selection the port takes: the port is closed, or the driver accepts it. */
  predicate Takes(s: Session, e: Event) {
    e.IndexChanged? && (!s.isOpen || e.accepted)
  }

  /** Events as the constructor wires them: the connect and send buttons,
      the port's "data ready" notification and the index changes of four
      combo boxes. The flow-control box is not wired, so its index changes
      reach no handler and leave the session as it was. */
  function DispatchAsWired(s: Session, e: Event): (r: Session)
    ensures IsFlowSelection(e) ==> r == s
    ensures !IsFlowSelection(e) ==> r == Dispatch(s, e)
  {
    match e
    case IndexChanged(FlowControlBox, _, _) => s
    case _ => Dispatch(s, e)
  }

  /** Events with every combo box wired to its setter. A selection the port
      takes changes the one matching field of the configuration; one an open
      port rejects changes nothing. Every other event adds exactly one line to
      the log and keeps the earlier lines. */
  function Dispatch(s: Session, e: Event): (r: Session)
    ensures Takes(s, e) ==> r == s.(config := Select(s.config, e.box, e.index))
    ensures e.IndexChanged? && !Takes(s, e) ==> r == s
    ensures e.IndexChanged? ==> forall other: Selector :: other != e.box ==> PositionIn(r.config, other) == PositionIn(s.config, other)
    ensures Takes(s, e) ==> (0 <= e.index < ListLength(e.box) <==> PositionIn(r.config, e.box) == e.index)
    ensures !e.IndexChanged? ==> |r.log| == |s.log| + 1 && r.log[..|s.log|] == s.log
  {
    match e
    case ConnectPressed(port, openResult) => ConnectSerial(s, port, openResult)
    case SendPressed(text) => Send(s, text)
    case ReadyRead(data) => Receive(s, data)
    case IndexChanged(box, i, accepted) =>
      SelectChangesOneField(s.config, box, i);
      if s.isOpen && !accepted then s
      else s.(config := Select(s.config, box, i))
  }

  /** The session after the events `es`, in order. */
  function Run(s: Session, es: seq<Event>): Session
    decreases |es|
  {
    if es == [] then s else Run(Dispatch(s, es[0]), es[1..])
  }

  /** The session invariant: the connection flag agrees with the port's open
      state, and every logged line is in simplified form. */
  predicate Inv(s: Session) {
    s.status == s.isOpen && LogSimplified(s.log)
  }

  lemma InitInv()
    ensures Inv(Init())
  {
    MessageLoggedVerbatim(Start);
  }

  /** Every transition keeps the invariant. */
  lemma DispatchPreservesInv(s: Session, e: Event)
    requires Inv(s)
    ensures Inv(Dispatch(s, e))
  {
    var r := Dispatch(s, e);
    if !e.IndexChanged? {
      var line := r.log[|s.log|];
      assert r.log == s.log + [line];
      assert Simple(line) by {
        if e.ConnectPressed? || (e.SendPressed? && !s.status) {
          var m :| Message(m) == line;
          MessageLoggedVerbatim(m);
        }
      }
    }
  }

  /** Under the invariant, disconnecting always succeeds: the "Disconnection
      failed" branch cannot be taken. */
  lemma NoDisconnectionFailure(s: Session, port: PortInfo, openResult: bool)
    requires Inv(s)
    ensures ConnectSerial(s, port, openResult).log[|s.log|] != Message(DisconnectionFailed)
    ensures s.status ==> !ConnectSerial(s, port, openResult).status
  {
    MessagesDistinct(Connected, DisconnectionFailed);
    MessagesDistinct(ConnectionFailed, DisconnectionFailed);
    MessagesDistinct(Disconnected, DisconnectionFailed);
  }

  /** Without the invariant that branch is live: a session that believes it
      is connected while the port is closed reports a failed disconnection
      and stays "connected". */
  lemma DisconnectionFailureNeedsBrokenInv(port: PortInfo, openResult: bool)
    ensures var s := Session(true, false, None, DefaultConfig, [], []);
      && !Inv(s)
      && ConnectSerial(s, port, openResult).log == [Message(DisconnectionFailed)]
      && ConnectSerial(s, port, openResult).status
  {
  }

  /** Pressing the button twice from the disconnected state with a
      successful open connects and then disconnects again. */
  lemma ConnectThenDisconnect(s: Session, port: PortInfo)
    requires !s.status && !s.isOpen
    ensures var r := ConnectSerial(ConnectSerial(s, port, true), port, true);
      && !r.status && !r.isOpen
      && r.log == s.log + [Message(Connected), Message(Disconnected)]
      && r.config == s.config && r.written == s.written
  {
    var m := ConnectSerial(s, port, true);
    assert m.status && m.isOpen;
    var r := ConnectSerial(m, port, true);
    var c, d := Message(Connected), Message(Disconnected);
    assert m.log == s.log + [c];
    assert r.log == m.log + [d];
    AppendTwo(s.log, c, d);
  }

  lemma AppendTwo<T>(a: seq<T>, x: T, y: T)
    ensures a + [x] + [y] == a + [x, y]
  {
  }

  /** Any sequence of events keeps the invariant and only appends to the log. */
  lemma {:induction false} RunPreservesInv(s: Session, es: seq<Event>)
    requires Inv(s)
    ensures Inv(Run(s, es))
    ensures |s.log| <= |Run(s, es).log| && Run(s, es).log[..|s.log|] == s.log
    decreases |es|
  {
    if es != [] {
      var m := Dispatch(s, es[0]);
      DispatchPreservesInv(s, es[0]);
      RunPreservesInv(m, es[1..]);
      var r := Run(m, es[1..]);
      assert r == Run(s, es);
      assert m.log[..|s.log|] == s.log;
      assert r.log[..|m.log|] == m.log;
      assert r.log[..|s.log|] == m.log[..|s.log|];
    }
  }

  /** In every session the window can reach, the connection flag agrees
      with the port, every log line is a fixed point of simplification, and
      pressing the connect button next cannot report a failed disconnection. */
  lemma ReachableSessions(es: seq<Event>, port: PortInfo, openResult: bool)
    ensures var r := Run(Init(), es);
      && r.status == r.isOpen
      && (forall k :: 0 <= k < |r.log| ==> Simplified(r.log[k]) == r.log[k])
      && ConnectSerial(r, port, openResult).log[|r.log|] != Message(DisconnectionFailed)
  {
    InitInv();
    RunPreservesInv(Init(), es);
    var r := Run(Init(), es);
    forall k | 0 <= k < |r.log|
      ensures Simplified(r.log[k]) == r.log[k]
    {
      assert r.log[k] in r.log;
      SimplifiedFixedPointIff(r.log[k]);
    }
    NoDisconnectionFailure(r, port, openResult);
  }

  /** The wiring as written keeps the invariant too. */
  lemma DispatchAsWiredPreservesInv(s: Session, e: Event)
    requires Inv(s)
    ensures Inv(DispatchAsWired(s, e))
  {
    if !IsFlowSelection(e) {
      DispatchPreservesInv(s, e);
    }
  }

  /** The session after the events `es`, handled as the window is wired. */
  function RunAsWired(s: Session, es: seq<Event>): Session
    decreases |es|
  {
    if es == [] then s else RunAsWired(DispatchAsWired(s, es[0]), es[1..])
  }

  /** The number of flow-control selections in `es`. */
  function FlowSelections(es: seq<Event>): nat {
    if es == [] then 0
    else (if IsFlowSelection(es[0]) then 1 else 0) + FlowSelections(es[1..])
  }

  /** The events of `es` that reach a handler as the window is wired: all but
      the flow-control selections, in order (see `WiredAppend`). */
  function Wired(es: seq<Event>): (r: seq<Event>)
    ensures |r| + FlowSelections(es) == |es|
  {
    if es == [] then []
    else if IsFlowSelection(es[0]) then Wired(es[1..])
    else [es[0]] + Wired(es[1..])
  }

  /** The kept events are exactly the events of `es` that are not
      flow-control selections. */
  lemma {:induction false} WiredMembers(es: seq<Event>)
    ensures forall e :: e in Wired(es) ==> e in es && !IsFlowSelection(e)
    ensures forall e :: e in es && !IsFlowSelection(e) ==> e in Wired(es)
    decreases |es|
  {
    if es != [] {
      WiredMembers(es[1..]);
      assert forall e :: e in es ==> e == es[0] || e in es[1..];
    }
  }

  /** Filtering distributes over concatenation, so the kept events stay in
      their original order. */
  lemma {:induction false} WiredAppend(a: seq<Event>, b: seq<Event>)
    ensures Wired(a + b) == Wired(a) + Wired(b)
    decreases |a|
  {
    if a == [] {
      assert a + b == b;
    } else {
      assert (a + b)[0] == a[0];
      assert (a + b)[1..] == a[1..] + b;
      WiredAppend(a[1..], b);
    }
  }

  /** Running the window as wired is running the corrected dispatch on the
      events that reach a handler: the flow-control selections are dropped
      and nothing else differs. */
  lemma {:induction false} RunAsWiredIsRunOfWired(s: Session, es: seq<Event>)
    ensures RunAsWired(s, es) == Run(s, Wired(es))
    decreases |es|
  {
    if es != [] {
      var e, rest := es[0], es[1..];
      RunAsWiredIsRunOfWired(DispatchAsWired(s, e), rest);
      if !IsFlowSelection(e) {
        var ws := [e] + Wired(rest);
        assert Wired(es) == ws;
        assert ws[0] == e && ws[1..] == Wired(rest);
      }
    }
  }

  /** The sessions the window as wired can reach satisfy the same
      guarantees as those of the corrected dispatch. */
  lemma ReachableSessionsAsWired(es: seq<Event>, port: PortInfo, openResult: bool)
    ensures var r := RunAsWired(Init(), es);
      && r.status == r.isOpen
      && (forall k :: 0 <= k < |r.log| ==> Simplified(r.log[k]) == r.log[k])
      && ConnectSerial(r, port, openResult).log[|r.log|] != Message(DisconnectionFailed)
  {
    RunAsWiredIsRunOfWired(Init(), es);
    ReachableSessions(Wired(es), port, openResult);
  }

  /** The number of events in `es` that write a line to the log: all but
      the selection changes. */
  function LoggingEvents(es: seq<Event>): nat {
    if es == [] then 0
    else (if es[0].IndexChanged? then 0 else 1) + LoggingEvents(es[1..])
  }

  /** The log grows by exactly one line per logging event and never loses
      or rewrites a line. */
  lemma {:induction false} RunLogGrowth(s: Session, es: seq<Event>)
    ensures |Run(s, es).log| == |s.log| + LoggingEvents(es)
    ensures Run(s, es).log[..|s.log|] == s.log
    decreases |es|
  {
    if es != [] {
      var m := Dispatch(s, es[0]);
      RunLogGrowth(m, es[1..]);
      var r := Run(m, es[1..]);
      assert m.log[..|s.log|] == s.log;
      assert r.log[..|s.log|] == m.log[..|s.log|];
    }
  }

  lemma RunTwo(s: Session, e: Event, e': Event)
    ensures Run(s, [e, e']) == Dispatch(Dispatch(s, e), e')
  {
    var m := Dispatch(s, e);
    assert [e, e'][1..] == [e'];
    assert Run(s, [e, e']) == Run(m, [e']);
    assert [e'][1..] == [];
    assert Run(m, [e']) == Run(Dispatch(m, e'), []);
  }

  /** From a disconnected window (a fresh one, say): connecting
      successfully and sending `text` logs "Connected" and the simplified
      echo, in that order, and writes the text's payload exactly once. */
  lemma ConnectAndSend(s: Session, port: PortInfo, text: string)
    requires !s.status && !s.isOpen
    ensures var r := Run(s, [ConnectPressed(port, true), SendPressed(text)]);
      && r.status && r.isOpen
      && r.log == s.log + [Message(Connected), Simplified(SendPrefix + text)]
      && r.written == s.written + [Latin1.Payload(text)]
  {
    RunTwo(s, ConnectPressed(port, true), SendPressed(text));
    var m := ConnectSerial(s, port, true);
    var r := Send(m, text);
    assert r.log == m.log + [Simplified(SendPrefix + text)];
    AppendTwo(s.log, Message(Connected), Simplified(SendPrefix + text));
  }

  /** As wired, choosing an entry of the flow-control box has no effect on
      the flow control, whichever entry is chosen and whether or not the
      port would accept it. */
  lemma FlowControlSelectionIgnored(s: Session, i: int, accepted: bool)
    ensures DispatchAsWired(s, IndexChanged(FlowControlBox, i, accepted)).config.flowControl == s.config.flowControl
  {
  }

  /** As wired, no event changes the flow control. */
  lemma {:induction false} RunAsWiredKeepsFlowControl(s: Session, es: seq<Event>)
    ensures RunAsWired(s, es).config.flowControl == s.config.flowControl
    decreases |es|
  {
    if es != [] {
      var m := DispatchAsWired(s, es[0]);
      assert m.config.flowControl == s.config.flowControl;
      RunAsWiredKeepsFlowControl(m, es[1..]);
    }
  }

  /** So the window as wired never uses flow control, whatever the user
      selects. */
  lemma FlowControlNeverChangesAsWired(es: seq<Event>)
    ensures RunAsWired(Init(), es).config.flowControl == NoFlowControl
  {
    RunAsWiredKeepsFlowControl(Init(), es);
  }

  /** With the flow-control box wired like the other four, the same choice
      takes effect whenever the port takes it. */
  lemma FlowControlSelectionApplied(s: Session)
    ensures Dispatch(s, IndexChanged(FlowControlBox, 1, true)).config.flowControl == HardwareControl
  {
  }
}
