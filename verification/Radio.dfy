/**
 One tick of the radio loop as a function of the loop's state, phase by phase. Fields marked
 "history" are not in the program; they record what the theorems speak about.
 */
module Radio {
  import opened Bytes
  import opened Packet
  import opened Router
  import opened App
  import opened Model

  const MAX_LOG := 200
  const MAX_RX_BUF := 4_000_000
  const BEACON_INTERVAL := 5 * SR_HZ

  datatype Complex = Complex(re: real, im: real)

  /** Channel, the stream of random packet ids, the n-th test text and the node-info body. */
  datatype Env = Env(channel: Channel, rand: nat -> u32, testText: nat -> Text, userInfo: Data)

  /** The outcome of one streaming decode attempt. */
  datatype StreamResult =
    | Ok(payload: seq<u8>, consumed: nat)
    | CrcFail(consumed: nat)
    | DecodeFailed(consumed: nat)
    | Nothing

  /** The receiver: its answer to the k-th attempt of a tick, given the buffer. */
  type Decoder = (nat, seq<Complex>) -> StreamResult

  /** Every successful attempt consumes at least one sample, and no more than there are. */
  ghost predicate WellBehaved(decode: Decoder) {
    forall k, b :: !decode(k, b).Nothing? ==> 1 <= decode(k, b).consumed <= |b|
  }

  /** What the outside world contributes to one tick. */
  datatype Input = Input(cmds: seq<Command>, openOk: bool, mixed: seq<Complex>, decode: Decoder)

  datatype Driver = Sim | Uhd(openArgs: string)
  datatype Parked = Parked(openArgs: string, filedAs: string)

  datatype Devices = Devices(
    driver: Driver,
    parked: Option<Parked>,
    activeArgs: string,
    live: int,         // history: UHD handles in existence
    clashes: nat,      // history: openings attempted while another handle existed
    opens: nat)        // history: openings attempted

  /** The sample clock, the dates derived from it and the interval last read. */
  datatype Pace = Pace(produced: nat, nextTxAt: nat, nextBeaconAt: nat, prevIntervalMs: u64)

  /** What became of a typed message, with the mode the tick had read. */
  datatype Fate = Sent(mode: SimMode) | Oversize(mode: SimMode) | Cleared(mode: SimMode)

  datatype Texts = Texts(
    applied: seq<Text>,            // history: every SendText applied
    fates: seq<Fate>)              // history: what became of the first |fates| of them

  /** A decode attempt: a frame, with the mode at that time and the number of node rebuilds before it, or a failure. */
  datatype Reception = Decoded(payload: seq<u8>, mode: SimMode, epoch: nat) | Failed

  datatype Receptions = Receptions(
    all: seq<Reception>,           // history: every decode attempt that consumed samples
    epoch: nat,                    // history: how often the node was rebuilt
    since: nat)                    // history: how many attempts there had been at the last reset

  /** Samples that left the buffer: used by a decode attempt, or trimmed when there were `total`. */
  datatype Drop = Used(n: nat) | Trimmed(total: nat)

  /** Samples handed to the driver, named after the five places that do so. */
  datatype Push =
    | PushBeacon(frame: MeshFrame)
    | PushManual(frame: MeshFrame, text: Text)
    | PushAuto(frame: MeshFrame, n: nat)
    | PushRelayOfDelivered(frame: MeshFrame)
    | PushRelay(frame: MeshFrame)

  datatype State = State(
    view: View,
    nodeId: u32,
    cache: seq<PacketKey>,
    dev: Devices,
    pace: Pace,
    curSf: u8,
    autoSeq: nat,
    draws: nat,                    // random packet ids used so far
    rxBuffer: seq<Complex>,
    delivered: seq<Complex>,       // history: samples received since the buffer was last cleared
    gone: seq<Drop>,               // history: those of them that left the buffer again
    hist: seq<LogEntry>,           // history: log lines since the last reset
    texts: Texts,
    rx: Receptions,
    pushed: seq<Push>)             // history: everything handed to the driver

  // ---- Log and counters ----

  function PushLog(log: seq<LogEntry>, e: LogEntry): seq<LogEntry> {
    var l := log + [e];
    if |l| > MAX_LOG then l[1..] else l
  }

  function Logged(s: State, e: LogEntry): State {
    s.(view := s.view.(log := PushLog(s.view.log, e)), hist := s.hist + [e])
  }

  function Plain(dir: MsgDir): LogEntry {
    LogEntry(dir, None, None, false)
  }

  function Bump(n: u64): u64 {
    if n + 1 == U64_SPAN then 0 else n + 1
  }

  // ---- Commands ----

  /** What the history records of a command. */
  function Noted(s: State, c: Command): State {
    match c
    case ResetStats => s.(hist := [], rx := s.rx.(since := |s.rx.all|))
    case SendText(t) => s.(texts := s.texts.(applied := s.texts.applied + [t]))
    case _ => s
  }

  function Execute(s: State, c: Command): State {
    Noted(s.(view := Apply(s.view, c)), c)
  }

  function Drain(s: State, cmds: seq<Command>): State
    decreases |cmds|
  {
    if cmds == [] then s else Drain(Execute(s, cmds[0]), cmds[1..])
  }

  // ---- Node and driver rebuild ----

  function FreshNode(s: State): State {
    s.(view := s.view.(rebuildNodes := false), nodeId := s.view.nodeId, cache := [], rx := s.rx.(epoch := s.rx.epoch + 1))
  }

  function RebuildNode(s: State): State {
    if !s.view.rebuildNodes then s
    else Logged(FreshNode(s), Plain(System))
  }

  function Handles(dev: Devices): nat {
    (if dev.driver.Uhd? then 1 else 0) + (if dev.parked.Some? then 1 else 0)
  }

  function DropParked(dev: Devices): Devices {
    dev.(parked := None, live := if dev.parked.Some? then dev.live - 1 else dev.live)
  }

  function DropDriver(dev: Devices): Devices {
    dev.(driver := Sim, live := if dev.driver.Uhd? then dev.live - 1 else dev.live)
  }

  /** `UhdDevice::new`, called with a simulated driver in place. */
  function Open(dev: Devices, args: string, ok: bool): Devices {
    var dev' := dev.(clashes := if dev.live > 0 then dev.clashes + 1 else dev.clashes, opens := dev.opens + 1);
    if ok then dev'.(driver := Uhd(args), live := dev'.live + 1) else dev'
  }

  /** The parked device becomes the driver. */
  function Unpark(dev: Devices, args: string): Devices
    requires dev.parked.Some?
  {
    DropDriver(dev).(driver := Uhd(dev.parked.value.openArgs), parked := None, activeArgs := args)
  }

  /** Whatever exists is dropped, then a device is opened. */
  function Reopen(dev: Devices, args: string, openOk: bool): Devices {
    Open(DropDriver(DropParked(dev)), args, openOk).(activeArgs := args)
  }

  /** The active device is parked, filed under the arguments now in the view. */
  function ParkActive(dev: Devices, args: string): Devices
    requires dev.driver.Uhd?
  {
    DropParked(dev).(driver := Sim, parked := Some(Parked(dev.driver.openArgs, args)))
  }

  /** The driver branch of the loop: the new devices and the new `use_uhd` flag. */
  function Reconfigure(dev: Devices, useUhd: bool, args: string, openOk: bool): (Devices, bool) {
    if useUhd then
      if dev.driver.Uhd? && dev.activeArgs == args then (dev, true)
      else if dev.parked.Some? && dev.parked.value.filedAs == args then (Unpark(dev, args), true)
      else (Reopen(dev, args, openOk), openOk)
    else (if dev.driver.Uhd? then ParkActive(dev, args) else dev, false)
  }

  /** The devices after a rebuild request has been taken up. */
  function Switched(s: State, openOk: bool): State {
    var (dev, useUhd) := Reconfigure(s.dev, s.view.useUhd, s.view.uhdArgs, openOk);
    s.(view := s.view.(rebuildDriver := false, useUhd := useUhd), dev := dev)
  }

  function EmptyRx(s: State): State {
    s.(rxBuffer := [], delivered := [], gone := [])
  }

  /** The sample clock restarts with the new driver. */
  function NewClock(p: Pace): Pace {
    p.(produced := 0, nextTxAt := SR_HZ, nextBeaconAt := SR_HZ / 2)
  }

  function ClockRestarted(s: State): State {
    s.(pace := NewClock(s.pace))
  }

  function RebuildDriver(s: State, openOk: bool): State {
    if s.view.rebuildDriver then ClockRestarted(EmptyRx(Switched(s, openOk))) else s
  }

  // ---- Parameters ----

  /** `interval_ms * SR_HZ / 1000` in 64-bit arithmetic. */
  function IntervalSamples(ms: u64): u64 {
    (ms * SR_HZ) % U64_SPAN / 1000
  }

  function Min(a: nat, b: nat): nat {
    if a <= b then a else b
  }

  /** A changed interval takes effect at once: the next auto transmission is at most that far away. */
  function ReadInterval(p: Pace, ms: u64): Pace {
    if ms == p.prevIntervalMs then p
    else p.(prevIntervalMs := ms, nextTxAt := Min(p.nextTxAt, p.produced + IntervalSamples(ms)))
  }

  function AdjustPacing(s: State): State {
    s.(pace := ReadInterval(s.pace, s.view.intervalMs))
  }

  /** A new spreading factor empties the receive buffer. */
  function SyncSf(s: State): State {
    if s.view.sf == s.curSf then s else EmptyRx(s.(curSf := s.view.sf))
  }

  function ReadParams(s: State): State {
    SyncSf(AdjustPacing(s))
  }

  // ---- Transmission ----

  function TextData(t: Text): Data {
    Data(TEXT_MESSAGE_APP, t, [])
  }

  function Build(env: Env, s: State, to: u32, data: Data): Option<MeshFrame> {
    BuildFrame(env.channel, s.nodeId, to, data, env.rand(s.draws))
  }

  /** One more random packet id is used up. */
  function Drawn(s: State): State {
    s.(draws := s.draws + 1)
  }

  function Transmit(s: State, p: Push): State {
    s.(pushed := s.pushed + [p])
  }

  function BeaconDue(s: State): State {
    s.(pace := s.pace.(nextBeaconAt := s.pace.produced + BEACON_INTERVAL))
  }

  function PushBuiltBeacon(env: Env, s: State): State {
    var frame := Build(env, s, BROADCAST, env.userInfo);
    if frame.None? then s else Transmit(Drawn(s), PushBeacon(frame.value))
  }

  function Beacon(env: Env, s: State): State {
    if s.pace.produced < s.pace.nextBeaconAt then s
    else if s.view.mode.Listen? then BeaconDue(s)
    else PushBuiltBeacon(env, BeaconDue(s))
  }

  /** A transmitted text message: one more counted, logged and handed to the driver. */
  function Counted(s: State, p: Push): State {
    Transmit(Logged(s.(view := s.view.(txCount := Bump(s.view.txCount))), Plain(Tx)), p)
  }

  function Settled(s: State, fate: Fate): State {
    s.(texts := s.texts.(fates := s.texts.fates + [fate]))
  }

  function ManualText(env: Env, s: State, t: Text): State {
    var frame := Build(env, s, s.view.txDest, TextData(t));
    if frame.None? then Settled(s, Oversize(s.view.mode))
    else Counted(Settled(Drawn(s), Sent(s.view.mode)), PushManual(frame.value, t))
  }

  function SendTexts(env: Env, s: State, ts: seq<Text>): State
    decreases |ts|
  {
    if ts == [] then s else SendTexts(env, ManualText(env, s, ts[0]), ts[1..])
  }

  function ManualTx(env: Env, s: State): State {
    var s' := s.(view := s.view.(txQueue := []));
    if s.view.mode.Listen? then
      s'.(texts := s.texts.(fates := s.texts.fates + seq(|s.view.txQueue|, _ => Cleared(s.view.mode))))
    else SendTexts(env, s', s.view.txQueue)
  }

  function AutoDue(s: State): State {
    s.(pace := s.pace.(nextTxAt := s.pace.produced + IntervalSamples(s.view.intervalMs)), autoSeq := s.autoSeq + 1)
  }

  function AutoText(env: Env, s: State): State {
    var frame := Build(env, s, s.view.txDest, TextData(env.testText(s.autoSeq)));
    if frame.None? then s else Counted(Drawn(s), PushAuto(frame.value, s.autoSeq))
  }

  function AutoTx(env: Env, s: State): State {
    if s.view.mode.Listen? || !s.view.autoTx || s.pace.produced < s.pace.nextTxAt then s
    else AutoText(env, AutoDue(s))
  }

  // ---- Reception ----

  function Extend(s: State, mixed: seq<Complex>): State {
    s.(pace := s.pace.(produced := s.pace.produced + |mixed|), delivered := s.delivered + mixed,
       rxBuffer := s.rxBuffer + mixed)
  }

  /** An overlong buffer keeps its latest samples, half of what it may hold. */
  function Trim(s: State): State {
    var n := |s.rxBuffer|;
    if n > MAX_RX_BUF then s.(gone := s.gone + [Trimmed(n)], rxBuffer := s.rxBuffer[n - MAX_RX_BUF / 2..]) else s
  }

  function Collect(s: State, mixed: seq<Complex>): State {
    Trim(Extend(s, mixed))
  }

  /** A forwarded frame goes out unless the mode is Listen. */
  function RelayOut(s: State, p: Push): State {
    if s.view.mode.Listen? then s else Logged(Transmit(s, p), Plain(Fwd))
  }

  /** A delivered message is counted unless it is our own, and logged. */
  function LogMessage(s: State, msg: MeshMessage): State {
    var s' := if msg.selfOrigin then s else s.(view := s.view.(rxCount := Bump(s.view.rxCount)));
    Logged(s', LogEntry(Rx, Some(msg.from), Some(msg.hopLimit), msg.selfOrigin))
  }

  /** What the loop does with the node's answer. */
  function HandleAnswer(s: State, r: RxResult): State {
    match r
    case Done(Some(msg), None) => LogMessage(s, msg)
    case Done(Some(msg), Some(fwd)) => RelayOut(LogMessage(s, msg), PushRelayOfDelivered(fwd))
    case Done(None, Some(fwd)) => RelayOut(s, PushRelay(fwd))
    case Done(None, None) => s
    case _ => Logged(s, Plain(Error))
  }

  function Received(s: State, payload: seq<u8>, cache: seq<PacketKey>): State {
    s.(cache := cache, rx := s.rx.(all := s.rx.all + [Decoded(payload, s.view.mode, s.rx.epoch)]))
  }

  function Garbled(s: State): State {
    Logged(s.(rx := s.rx.(all := s.rx.all + [Failed])), Plain(Error))
  }

  function HandleFrame(env: Env, s: State, payload: seq<u8>): State {
    var (r, cache) := ProcessRx(env.channel, s.nodeId, s.cache, payload);
    HandleAnswer(Received(s, payload, cache), r)
  }

  function Consume(s: State, n: nat): State
    requires n <= |s.rxBuffer|
  {
    s.(rxBuffer := s.rxBuffer[n..], gone := s.gone + [Used(n)])
  }

  function HandleResult(env: Env, s: State, r: StreamResult): State
    requires !r.Nothing? ==> r.consumed <= |s.rxBuffer|
  {
    match r
    case Nothing => s
    case Ok(payload, n) => HandleFrame(env, Consume(s, n), payload)
    case CrcFail(n) => Garbled(Consume(s, n))
    case DecodeFailed(n) => Garbled(Consume(s, n))
  }

  /** The inner decode loop from attempt `k` on; every round shortens the buffer. */
  function DecodeLoop(env: Env, s: State, decode: Decoder, k: nat): State
    requires WellBehaved(decode)
    decreases |s.rxBuffer|
  {
    var r := decode(k, s.rxBuffer);
    if r.Nothing? then s else DecodeLoop(env, HandleResult(env, s, r), decode, k + 1)
  }

  // ---- The tick ----

  function Transmissions(env: Env, s: State): State {
    AutoTx(env, ManualTx(env, Beacon(env, s)))
  }

  /** The state in which the tick has read its parameters. */
  function Prepared(s: State, input: Input): State {
    ReadParams(RebuildDriver(RebuildNode(s), input.openOk))
  }

  function Tick(env: Env, s: State, input: Input): State
    requires WellBehaved(input.decode)
  {
    var s1 := Drain(s, input.cmds);
    if !s1.view.running then s1
    else DecodeLoop(env, Collect(Transmissions(env, Prepared(s1, input)), input.mixed), input.decode, 0)
  }

  /** The state when the loop is entered: the first driver has been made, the rebuild flag cleared. */
  function Start(nodeId: u32, uhdFound: bool, openOk: bool): State {
    var none := Devices(Sim, None, "", 0, 0, 0);
    var view := Initial(nodeId, uhdFound);
    State(view.(rebuildDriver := false, useUhd := uhdFound && openOk), nodeId, [],
          if uhdFound then Open(none, "", openOk) else none,
          Pace(0, SR_HZ, SR_HZ / 2, DEFAULT_INTERVAL_MS), DEFAULT_SF, 0, 0, [], [], [], [],
          Texts([], []), Receptions([], 0, 0), [])
  }

  function Run(env: Env, s: State, inputs: seq<Input>): State
    requires forall i :: i in inputs ==> WellBehaved(i.decode)
    decreases |inputs|
  {
    if inputs == [] then s else Run(env, Tick(env, s, inputs[0]), inputs[1..])
  }
}
