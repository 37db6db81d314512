/**
  Port settings: the five serial-line parameters and the total maps from a
  combo-box index to each of them. Every index is accepted; an index outside
  a map's table selects that field's default. The baud-rate table has no
  entry for index 3, which therefore selects the default, 9600.
 */
module PortSettings {

  datatype BaudRate =
    Baud1200 | Baud2400 | Baud4800 | Baud9600 | Baud19200 | Baud38400 | Baud57600 | Baud115200

  datatype DataBits = Data5 | Data6 | Data7 | Data8

  datatype Parity = NoParity | EvenParity | OddParity | SpaceParity | MarkParity

  datatype StopBits = OneStop | OneAndHalfStop | TwoStop

  datatype FlowControl = NoFlowControl | HardwareControl | SoftwareControl

  datatype PortConfig = PortConfig(
    baudRate: BaudRate,
    dataBits: DataBits,
    parity: Parity,
    stopBits: StopBits,
    flowControl: FlowControl)

  /** The configuration a freshly constructed serial port starts with:
      9600 baud, 8 data bits, no parity, one stop bit, no flow control. */
  const DefaultConfig := PortConfig(Baud9600, Data8, NoParity, OneStop, NoFlowControl)

  /** Symbols per second. */
  function Rate(b: BaudRate): nat {
    match b
    case Baud1200 => 1200
    case Baud2400 => 2400
    case Baud4800 => 4800
    case Baud9600 => 9600
    case Baud19200 => 19200
    case Baud38400 => 38400
    case Baud57600 => 57600
    case Baud115200 => 115200
  }

  /** Bits per character. */
  function Width(d: DataBits): nat {
    match d
    case Data5 => 5
    case Data6 => 6
    case Data7 => 7
    case Data8 => 8
  }

  // Position of each value in its selection list, slowest/smallest first.
  // The lists themselves are declared with the window class, whose header is
  // not part of this model; these positions are an assumption that agrees
  // with the defaults `fillCheckboxes` selects (index 3 for 9600 baud and
  // for 8 data bits, index 0 for the first entry of the other three).

  function BaudPosition(b: BaudRate): nat {
    match b
    case Baud1200 => 0
    case Baud2400 => 1
    case Baud4800 => 2
    case Baud9600 => 3
    case Baud19200 => 4
    case Baud38400 => 5
    case Baud57600 => 6
    case Baud115200 => 7
  }

  function DataBitsPosition(d: DataBits): nat {
    Width(d) - 5
  }

  function ParityPosition(p: Parity): nat {
    match p
    case NoParity => 0
    case EvenParity => 1
    case OddParity => 2
    case SpaceParity => 3
    case MarkParity => 4
  }

  function StopBitsPosition(s: StopBits): nat {
    match s
    case OneStop => 0
    case OneAndHalfStop => 1
    case TwoStop => 2
  }

  function FlowControlPosition(f: FlowControl): nat {
    match f
    case NoFlowControl => 0
    case HardwareControl => 1
    case SoftwareControl => 2
  }

  /** Baud rate selected by combo-box index `i`. Index 3 has no case of its
      own and falls through to the default, which is 9600, the rate listed
      at position 3: so an index selects the value at its position exactly
      when it lies in 0..7, and every other index selects 9600. */
  function BaudFromIndex(i: int): (b: BaudRate)
    ensures 0 <= i < 8 <==> BaudPosition(b) == i
    ensures !(0 <= i < 8) ==> b == Baud9600
  {
    match i
    case 0 => Baud1200
    case 1 => Baud2400
    case 2 => Baud4800
    case 4 => Baud19200
    case 5 => Baud38400
    case 6 => Baud57600
    case 7 => Baud115200
    case _ => Baud9600
  }

  /** Data bits selected by index `i`: 0, 1, 2 give 5, 6, 7; anything else 8. */
  function DataBitsFromIndex(i: int): (d: DataBits)
    ensures 0 <= i < 4 <==> DataBitsPosition(d) == i
    ensures 0 <= i < 3 ==> Width(d) == i + 5
    ensures !(0 <= i < 3) ==> d == Data8
  {
    match i
    case 0 => Data5
    case 1 => Data6
    case 2 => Data7
    case _ => Data8
  }

  /** Parity selected by index `i`: 1..4 give Even, Odd, Space, Mark; anything else None. */
  function ParityFromIndex(i: int): (p: Parity)
    ensures 0 <= i < 5 <==> ParityPosition(p) == i
    ensures !(1 <= i < 5) ==> p == NoParity
  {
    match i
    case 1 => EvenParity
    case 2 => OddParity
    case 3 => SpaceParity
    case 4 => MarkParity
    case _ => NoParity
  }

  /** Stop bits selected by index `i`: 1, 2 give one-and-a-half, two; anything else one. */
  function StopBitsFromIndex(i: int): (s: StopBits)
    ensures 0 <= i < 3 <==> StopBitsPosition(s) == i
    ensures !(1 <= i < 3) ==> s == OneStop
  {
    match i
    case 1 => OneAndHalfStop
    case 2 => TwoStop
    case _ => OneStop
  }

  /** Flow control selected by index `i`: 1, 2 give hardware, software; anything else none. */
  function FlowControlFromIndex(i: int): (f: FlowControl)
    ensures 0 <= i < 3 <==> FlowControlPosition(f) == i
    ensures !(1 <= i < 3) ==> f == NoFlowControl
  {
    match i
    case 1 => HardwareControl
    case 2 => SoftwareControl
    case _ => NoFlowControl
  }

  /** Every value of every field can be selected: its position selects it. */
  lemma EveryValueSelectable(b: BaudRate, d: DataBits, p: Parity, s: StopBits, f: FlowControl)
    ensures BaudFromIndex(BaudPosition(b)) == b
    ensures DataBitsFromIndex(DataBitsPosition(d)) == d
    ensures ParityFromIndex(ParityPosition(p)) == p
    ensures StopBitsFromIndex(StopBitsPosition(s)) == s
    ensures FlowControlFromIndex(FlowControlPosition(f)) == f
  {
  }

  /** Over its table the baud map is strictly increasing in the rate, the
      gap at index 3 included. */
  lemma BaudFromIndexAscending(i: int, j: int)
    requires 0 <= i < j < 8
    ensures Rate(BaudFromIndex(i)) < Rate(BaudFromIndex(j))
  {
  }

  // The five setters: each replaces one field and keeps the other four.

  function SetBaudrate(c: PortConfig, i: int): (r: PortConfig)
    ensures r.baudRate == BaudFromIndex(i)
    ensures r.dataBits == c.dataBits && r.parity == c.parity
    ensures r.stopBits == c.stopBits && r.flowControl == c.flowControl
  {
    c.(baudRate := BaudFromIndex(i))
  }

  function SetDatabit(c: PortConfig, i: int): (r: PortConfig)
    ensures r.dataBits == DataBitsFromIndex(i)
    ensures r.baudRate == c.baudRate && r.parity == c.parity
    ensures r.stopBits == c.stopBits && r.flowControl == c.flowControl
  {
    c.(dataBits := DataBitsFromIndex(i))
  }

  function SetParity(c: PortConfig, i: int): (r: PortConfig)
    ensures r.parity == ParityFromIndex(i)
    ensures r.baudRate == c.baudRate && r.dataBits == c.dataBits
    ensures r.stopBits == c.stopBits && r.flowControl == c.flowControl
  {
    c.(parity := ParityFromIndex(i))
  }

  function SetStopbit(c: PortConfig, i: int): (r: PortConfig)
    ensures r.stopBits == StopBitsFromIndex(i)
    ensures r.baudRate == c.baudRate && r.dataBits == c.dataBits
    ensures r.parity == c.parity && r.flowControl == c.flowControl
  {
    c.(stopBits := StopBitsFromIndex(i))
  }

  function SetFlowcontrol(c: PortConfig, i: int): (r: PortConfig)
    ensures r.flowControl == FlowControlFromIndex(i)
    ensures r.baudRate == c.baudRate && r.dataBits == c.dataBits
    ensures r.parity == c.parity && r.stopBits == c.stopBits
  {
    c.(flowControl := FlowControlFromIndex(i))
  }

  /** Filling the combo boxes selects indices 3, 3, 0, 0, 0 and applies each;
      whatever the port held before, the result is 9600 baud, 8 data bits,
      no parity, one stop bit and no flow control. */
  function FillCheckboxes(c: PortConfig): (r: PortConfig)
    ensures Rate(r.baudRate) == 9600 && Width(r.dataBits) == 8
    ensures r.parity == NoParity && r.stopBits == OneStop && r.flowControl == NoFlowControl
    ensures r == DefaultConfig
  {
    var c1 := SetBaudrate(c, 3);
    var c2 := SetDatabit(c1, 3);
    var c3 := SetParity(c2, 0);
    var c4 := SetStopbit(c3, 0);
    SetFlowcontrol(c4, 0)
  }

  /** The five combo boxes of the settings panel. */
  datatype Selector = BaudBox | DataBitsBox | ParityBox | StopBitsBox | FlowControlBox

  /** The position of the value `c` holds in the list of `box`. */
  function PositionIn(c: PortConfig, box: Selector): nat {
    match box
    case BaudBox => BaudPosition(c.baudRate)
    case DataBitsBox => DataBitsPosition(c.dataBits)
    case ParityBox => ParityPosition(c.parity)
    case StopBitsBox => StopBitsPosition(c.stopBits)
    case FlowControlBox => FlowControlPosition(c.flowControl)
  }

  /** The number of entries in the list of `box`, under the same assumption
      as the position tables. */
  function ListLength(box: Selector): nat {
    match box
    case BaudBox => 8
    case DataBitsBox => 4
    case ParityBox => 5
    case StopBitsBox => 3
    case FlowControlBox => 3
  }

  /** The setter that belongs to `box`. */
  function Select(c: PortConfig, box: Selector, i: int): PortConfig {
    match box
    case BaudBox => SetBaudrate(c, i)
    case DataBitsBox => SetDatabit(c, i)
    case ParityBox => SetParity(c, i)
    case StopBitsBox => SetStopbit(c, i)
    case FlowControlBox => SetFlowcontrol(c, i)
  }

  /** Selecting index `i` in `box` leaves the other four boxes' values as
      they were, and reads back as `i` exactly when `i` is in the list. */
  lemma SelectChangesOneField(c: PortConfig, box: Selector, i: int)
    ensures forall other: Selector :: other != box ==> PositionIn(Select(c, box, i), other) == PositionIn(c, other)
    ensures 0 <= i < ListLength(box) <==> PositionIn(Select(c, box, i), box) == i
  {
  }

  /** A later selection in the same box replaces an earlier one. */
  lemma SelectLastWins(c: PortConfig, box: Selector, i: int, j: int)
    ensures Select(Select(c, box, i), box, j) == Select(c, box, j)
  {
  }

  /** Selections in different boxes do not interfere: their order is irrelevant. */
  lemma SelectCommutes(c: PortConfig, a: Selector, i: int, b: Selector, j: int)
    requires a != b
    ensures Select(Select(c, a, i), b, j) == Select(Select(c, b, j), a, i)
  {
  }
}
