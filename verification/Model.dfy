/** The shared view-model and the commands that change it. */
module Model {
  import opened Bytes

  const SR_HZ := 1_000_000
  const DEFAULT_SF: u8 := 11
  const DEFAULT_INTERVAL_MS: u64 := 2000
  const U64_SPAN := 0x1_0000_0000_0000_0000

  type u64 = x: int | 0 <= x < 0x1_0000_0000_0000_0000
  type Text = seq<u8>

  datatype SimMode = Terminal | Listen
  datatype MsgDir = Tx | Rx | Fwd | System | Error

  /** A log line, without its time stamp and wording. */
  datatype LogEntry = LogEntry(dir: MsgDir, from: Option<u32>, hops: Option<u8>, selfOrigin: bool)

  /** `SetLevel` stands for the four gain and level commands, `SetNodeName` for the two name commands. */
  datatype Command =
    | SetSf(sf: u8)
    | SetLevel
    | SetIntervalMs(ms: u64)
    | SetMode(mode: SimMode)
    | SetNodeName
    | SetTxDest(dest: u32)
    | SetUhdEnabled(on: bool)
    | SetUhdArgs(args: string)
    | SetUhdFreqHz
    | SetAutoTx(auto: bool)
    | SetRunning(running: bool)
    | SendText(text: Text)
    | ResetStats

  /** What the radio loop reads and writes of the view-model. */
  datatype View = View(
    running: bool, sf: u8, intervalMs: u64, mode: SimMode, txDest: u32, autoTx: bool, nodeId: u32,
    useUhd: bool, uhdArgs: string, rebuildDriver: bool, rebuildNodes: bool,
    txQueue: seq<Text>, log: seq<LogEntry>, txCount: u64, rxCount: u64)

  function Apply(v: View, c: Command): View {
    match c
    case SetSf(n) => v.(sf := n)
    case SetLevel => v
    case SetIntervalMs(ms) => v.(intervalMs := ms)
    case SetMode(m) => v.(mode := m, rebuildNodes := true)
    case SetNodeName => v.(rebuildNodes := true)
    case SetTxDest(id) => v.(txDest := id)
    case SetUhdEnabled(on) => v.(useUhd := on, rebuildDriver := true)
    case SetUhdArgs(s) => v.(uhdArgs := s, rebuildDriver := v.rebuildDriver || v.useUhd)
    case SetUhdFreqHz => v.(rebuildDriver := v.rebuildDriver || v.useUhd)
    case SetAutoTx(on) => v.(autoTx := on)
    case SetRunning(on) => v.(running := on)
    case SendText(s) => v.(txQueue := v.txQueue + [s])
    case ResetStats => v.(txCount := 0, rxCount := 0, log := [])
  }

  /** The view-model object; the radio loop is its only writer. */
  class ViewModel {
    var running: bool
    var sf: u8
    var intervalMs: u64
    var mode: SimMode
    var txDest: u32
    var autoTx: bool
    const nodeId: u32
    var useUhd: bool
    var uhdArgs: string
    var rebuildDriver: bool
    var rebuildNodes: bool
    var txQueue: seq<Text>
    var log: seq<LogEntry>
    var txCount: u64
    var rxCount: u64

    ghost function Value(): View
      reads this
    {
      View(running, sf, intervalMs, mode, txDest, autoTx, nodeId, useUhd, uhdArgs, rebuildDriver, rebuildNodes,
           txQueue, log, txCount, rxCount)
    }

    /** A new view-model; the binary may have switched to UHD before the loop starts. */
    constructor (nodeId: u32, uhdFound: bool)
      ensures Value() == Initial(nodeId, uhdFound)
    {
      running, sf, intervalMs, mode, txDest, autoTx :=
        true, DEFAULT_SF, DEFAULT_INTERVAL_MS, Listen, 0xFFFF_FFFF, true;
      this.nodeId := nodeId;
      useUhd, uhdArgs, rebuildDriver, rebuildNodes := uhdFound, "", uhdFound, false;
      txQueue, log, txCount, rxCount := [], [], 0, 0;
    }

    method ApplyUhd(c: Command)
      requires c.SetUhdEnabled? || c.SetUhdArgs? || c.SetUhdFreqHz?
      modifies this`useUhd, this`uhdArgs, this`rebuildDriver
      ensures Value() == Apply(old(Value()), c)
    {
      match c {
        case SetUhdEnabled(on) =>
          useUhd := on;
          rebuildDriver := true;
        case SetUhdArgs(s) =>
          uhdArgs := s;
          if useUhd { rebuildDriver := true; }
        case SetUhdFreqHz =>
          if useUhd { rebuildDriver := true; }
      }
    }

    method ApplySetting(c: Command)
      requires c.SetSf? || c.SetIntervalMs? || c.SetTxDest? || c.SetAutoTx? || c.SetRunning?
      modifies this`sf, this`intervalMs, this`txDest, this`autoTx, this`running
      ensures Value() == Apply(old(Value()), c)
    {
      match c {
        case SetSf(n) => sf := n;
        case SetIntervalMs(ms) => intervalMs := ms;
        case SetTxDest(id) => txDest := id;
        case SetAutoTx(on) => autoTx := on;
        case SetRunning(on) => running := on;
      }
    }

    method ApplyCommand(c: Command)
      modifies this
      ensures Value() == Apply(old(Value()), c)
    {
      match c {
        case SetLevel =>
        case SetMode(m) =>
          mode := m;
          rebuildNodes := true;
        case SetNodeName => rebuildNodes := true;
        case SetUhdEnabled(_) => ApplyUhd(c);
        case SetUhdArgs(_) => ApplyUhd(c);
        case SetUhdFreqHz => ApplyUhd(c);
        case SendText(s) => txQueue := txQueue + [s];
        case ResetStats =>
          txCount := 0;
          rxCount := 0;
          log := [];
        case _ => ApplySetting(c);
      }
    }
  }

  function Initial(nodeId: u32, uhdFound: bool): View {
    View(true, DEFAULT_SF, DEFAULT_INTERVAL_MS, Listen, 0xFFFF_FFFF, true, nodeId,
         uhdFound, "", uhdFound, false, [], [], 0, 0)
  }
}
