/** What every run of the radio loop keeps. */
module RadioSafety {
  import opened Bytes
  import opened Packet
  import opened Router
  import opened App
  import opened Model
  import opened Radio

  // ---- What the loops inside a tick leave alone ----

  /** `s'` differs from `s` at most in what sending texts may change. */
  ghost predicate OnlySent(s: State, s': State) {
    s' == s.(view := s.view.(log := s'.view.log, txCount := s'.view.txCount), draws := s'.draws,
             hist := s'.hist, texts := s.texts.(fates := s'.texts.fates), pushed := s'.pushed)
  }

  /** `s'` differs from `s` at most in what decoding may change. */
  ghost predicate OnlyDecoded(s: State, s': State) {
    s' == s.(view := s.view.(log := s'.view.log, rxCount := s'.view.rxCount), cache := s'.cache,
             rxBuffer := s'.rxBuffer, gone := s'.gone, hist := s'.hist, rx := s.rx.(all := s'.rx.all), pushed := s'.pushed)
  }

  lemma {:induction false} SendTextsFrame(env: Env, s: State, ts: seq<Text>)
    ensures OnlySent(s, SendTexts(env, s, ts))
    decreases |ts|
  {
    if ts != [] {
      assert OnlySent(s, ManualText(env, s, ts[0]));
      SendTextsFrame(env, ManualText(env, s, ts[0]), ts[1..]);
      OnlySentTwice(s, ManualText(env, s, ts[0]), SendTexts(env, s, ts));
    }
  }

  lemma OnlySentTwice(a: State, b: State, c: State)
    requires OnlySent(a, b) && OnlySent(b, c)
    ensures OnlySent(a, c)
  {}

  lemma OnlyDecodedTwice(a: State, b: State, c: State)
    requires OnlyDecoded(a, b) && OnlyDecoded(b, c)
    ensures OnlyDecoded(a, c)
  {}

  /** `s'` differs from `s` at most in what reporting a frame may change, and pushes nothing in mode Listen. */
  ghost predicate OnlyReported(s: State, s': State) {
    && s' == s.(view := s.view.(log := s'.view.log, rxCount := s'.view.rxCount), hist := s'.hist, pushed := s'.pushed)
    && (s.view.mode.Listen? ==> s'.pushed == s.pushed)
  }

  lemma LogMessageFrame(s: State, msg: MeshMessage)
    ensures OnlyReported(s, LogMessage(s, msg))
  {}

  lemma RelayOutFrame(s: State, p: Push)
    ensures OnlyReported(s, RelayOut(s, p))
  {}

  lemma OnlyReportedTwice(a: State, b: State, c: State)
    requires OnlyReported(a, b) && OnlyReported(b, c)
    ensures OnlyReported(a, c)
  {}

  lemma HandleAnswerFrame(s: State, r: RxResult)
    ensures OnlyReported(s, HandleAnswer(s, r))
  {
    match r
    case Done(Some(msg), fwd) =>
      var s' := LogMessage(s, msg);
      LogMessageFrame(s, msg);
      if fwd.Some? {
        RelayOutFrame(s', PushRelayOfDelivered(fwd.value));
        OnlyReportedTwice(s, s', RelayOut(s', PushRelayOfDelivered(fwd.value)));
      }
    case Done(None, Some(fwd)) => RelayOutFrame(s, PushRelay(fwd));
    case _ =>
  }

  lemma HandleFrameFrame(env: Env, s: State, payload: seq<u8>)
    ensures OnlyDecoded(s, HandleFrame(env, s, payload)) && HandleFrame(env, s, payload).rxBuffer == s.rxBuffer
    ensures s.view.mode.Listen? ==> HandleFrame(env, s, payload).pushed == s.pushed
  {
    var (r, cache) := ProcessRx(env.channel, s.nodeId, s.cache, payload);
    HandleAnswerFrame(Received(s, payload, cache), r);
  }

  lemma HandleResultFrame(env: Env, s: State, r: StreamResult)
    requires !r.Nothing? ==> r.consumed <= |s.rxBuffer|
    ensures OnlyDecoded(s, HandleResult(env, s, r))
    ensures s.view.mode.Listen? ==> HandleResult(env, s, r).pushed == s.pushed
    ensures !r.Nothing? ==> HandleResult(env, s, r).rxBuffer == s.rxBuffer[r.consumed..]
  {
    if r.Ok? {
      var c := Consume(s, r.consumed);
      HandleFrameFrame(env, c, r.payload);
      OnlyDecodedTwice(s, c, HandleFrame(env, c, r.payload));
    }
  }

  lemma {:induction false} DecodeFrame(env: Env, s: State, decode: Decoder, k: nat)
    requires WellBehaved(decode)
    ensures OnlyDecoded(s, DecodeLoop(env, s, decode, k))
    decreases |s.rxBuffer|
  {
    var r := decode(k, s.rxBuffer);
    if !r.Nothing? {
      var s' := HandleResult(env, s, r);
      HandleResultFrame(env, s, r);
      DecodeFrame(env, s', decode, k + 1);
      OnlyDecodedTwice(s, s', DecodeLoop(env, s', decode, k + 1));
    }
  }

  /** The settings that only commands and rebuilds change. */
  ghost predicate SameSettings(s: State, s': State) {
    && s'.dev == s.dev && s'.curSf == s.curSf
    && s'.view == s.view.(log := s'.view.log, txCount := s'.view.txCount, rxCount := s'.view.rxCount,
                          txQueue := s'.view.txQueue)
  }

  lemma ManualTxFrame(env: Env, s: State)
    ensures var s' := ManualTx(env, s);
            && SameSettings(s, s') && s'.pace == s.pace && s'.autoSeq == s.autoSeq && s'.rxBuffer == s.rxBuffer && s'.delivered == s.delivered && s'.gone == s.gone
            && s'.view.txQueue == [] && (s.view.mode.Listen? ==> s'.pushed == s.pushed)
  {
    SendTextsFrame(env, s.(view := s.view.(txQueue := [])), s.view.txQueue);
  }

  lemma AutoTxFrame(env: Env, s: State)
    ensures var s' := AutoTx(env, s);
            && SameSettings(s, s') && s'.rxBuffer == s.rxBuffer && s'.delivered == s.delivered && s'.gone == s.gone
            && s'.view.txQueue == s.view.txQueue && (s.view.mode.Listen? ==> s'.pushed == s.pushed)
            && (if s.view.mode.Terminal? && s.view.autoTx && s.pace.produced >= s.pace.nextTxAt
                then s'.autoSeq == s.autoSeq + 1
                     && s'.pace == s.pace.(nextTxAt := s.pace.produced + IntervalSamples(s.view.intervalMs))
                else s'.pace == s.pace && s'.autoSeq == s.autoSeq)
  {}

  lemma BeaconFrame(env: Env, s: State)
    ensures var s' := Beacon(env, s);
            && SameSettings(s, s') && s'.autoSeq == s.autoSeq
            && s'.pace == (if s.pace.produced >= s.pace.nextBeaconAt
                           then s.pace.(nextBeaconAt := s.pace.produced + 5_000_000) else s.pace)
            && s'.rxBuffer == s.rxBuffer && s'.delivered == s.delivered && s'.gone == s.gone
            && (s.view.mode.Listen? ==> s'.pushed == s.pushed)
  {}

  lemma TransmissionsFrame(env: Env, s: State)
    ensures var s' := Transmissions(env, s);
            && SameSettings(s, s') && s'.rxBuffer == s.rxBuffer && s'.delivered == s.delivered && s'.gone == s.gone
            && s'.view.txQueue == [] && (s.view.mode.Listen? ==> s'.pushed == s.pushed)
  {
    BeaconFrame(env, s);
    ManualTxFrame(env, Beacon(env, s));
    AutoTxFrame(env, ManualTx(env, Beacon(env, s)));
  }

  /** The tick from its parameters on. */
  function Tail(env: Env, s: State, input: Input): State
    requires WellBehaved(input.decode)
  {
    DecodeLoop(env, Collect(Transmissions(env, s), input.mixed), input.decode, 0)
  }

  lemma TailFrame(env: Env, s: State, input: Input)
    requires WellBehaved(input.decode)
    ensures SameSettings(s, Tail(env, s, input)) && Tail(env, s, input).view.txQueue == []
    ensures Tail(env, s, input).pace == Collect(Transmissions(env, s), input.mixed).pace
    ensures Tail(env, s, input).autoSeq == Transmissions(env, s).autoSeq
  {
    TransmissionsFrame(env, s);
    DecodeFrame(env, Collect(Transmissions(env, s), input.mixed), input.decode, 0);
  }

  // ---- Devices ----

  /** At most one UHD handle exists, nothing is parked beside an active one, and none was opened beside another. */
  ghost predicate OneDevice(dev: Devices) {
    dev.live == Handles(dev) <= 1 && dev.clashes == 0
  }

  /** Unless a rebuild is pending, the driver is the one the view asks for. */
  ghost predicate DriverAgrees(view: View, dev: Devices) {
    !view.rebuildDriver ==>
      && (dev.driver.Uhd? <==> view.useUhd)
      && (dev.driver.Uhd? ==> dev.activeArgs == view.uhdArgs)
  }

  /** Every handle was opened with the arguments it is filed under. */
  ghost predicate LabelsTrue(dev: Devices) {
    && (dev.driver.Uhd? ==> dev.driver.openArgs == dev.activeArgs)
    && (dev.parked.Some? ==> dev.parked.value.openArgs == dev.parked.value.filedAs)
  }

  lemma {:induction false} DrainKeepsDevices(s: State, cmds: seq<Command>)
    ensures var s' := Drain(s, cmds);
            s'.dev == s.dev && (DriverAgrees(s.view, s.dev) ==> DriverAgrees(s'.view, s'.dev))
    decreases |cmds|
  {
    if cmds != [] { DrainKeepsDevices(Execute(s, cmds[0]), cmds[1..]); }
  }

  lemma RebuildDevices(s: State, openOk: bool)
    ensures var (v, s') := (s.view, ReadParams(RebuildDriver(s, openOk)));
            && s'.view.uhdArgs == v.uhdArgs && !s'.view.rebuildDriver && s'.view.running == v.running
            && (s'.dev, s'.view.useUhd)
               == if v.rebuildDriver then Reconfigure(s.dev, v.useUhd, v.uhdArgs, openOk) else (s.dev, v.useUhd)
  {
    var d := RebuildDriver(s, openOk);
    assert ReadParams(d).dev == d.dev && ReadParams(d).view == d.view;
  }

  lemma NodeDevices(s: State)
    ensures var s' := RebuildNode(s);
            s'.dev == s.dev && s'.view == s.view.(rebuildNodes := s'.view.rebuildNodes, log := s'.view.log)
  {}

  /** Preparing a tick does to the devices what `Reconfigure` does, if asked to. */
  lemma PreparedDevices(s: State, input: Input)
    ensures var (v, s') := (s.view, Prepared(s, input));
            && s'.view.uhdArgs == v.uhdArgs && !s'.view.rebuildDriver && s'.view.running == v.running
            && (s'.dev, s'.view.useUhd)
               == if v.rebuildDriver then Reconfigure(s.dev, v.useUhd, v.uhdArgs, input.openOk) else (s.dev, v.useUhd)
  {
    NodeDevices(s);
    RebuildDevices(RebuildNode(s), input.openOk);
  }

  /** What one tick does to the devices. */
  lemma TickDevices(env: Env, s: State, input: Input)
    requires WellBehaved(input.decode)
    ensures var (v, v', dev') := (Drain(s, input.cmds).view, Tick(env, s, input).view, Tick(env, s, input).dev);
            && v'.uhdArgs == v.uhdArgs && v'.running == v.running
            && v'.rebuildDriver == (v.rebuildDriver && !v.running)
            && (dev', v'.useUhd) == if v.running && v.rebuildDriver
                                    then Reconfigure(s.dev, v.useUhd, v.uhdArgs, input.openOk) else (s.dev, v.useUhd)
  {
    var s1 := Drain(s, input.cmds);
    DrainKeepsDevices(s, input.cmds);
    if s1.view.running {
      PreparedDevices(s1, input);
      TailFrame(env, Prepared(s1, input), input);
    }
  }

  lemma ReconfigureSafe(dev: Devices, useUhd: bool, args: string, openOk: bool)
    requires OneDevice(dev)
    ensures var (dev', up) := Reconfigure(dev, useUhd, args, openOk);
            && OneDevice(dev') && (dev'.driver.Uhd? <==> up) && (dev'.driver.Uhd? ==> dev'.activeArgs == args)
  {}

  /** The driver already runs the device that this view asks for. */
  predicate RunsWanted(dev: Devices, v: View) {
    v.useUhd && dev.driver.Uhd? && dev.activeArgs == v.uhdArgs
  }

  /** The device that this view asks for is parked. */
  predicate ParkedWanted(dev: Devices, v: View) {
    v.useUhd && dev.parked.Some? && dev.parked.value.filedAs == v.uhdArgs
  }

  /** A running device that is still wanted survives every tick, whether or not a device could be opened. */
  lemma RunningDeviceStays(env: Env, s: State, input: Input)
    requires WellBehaved(input.decode) && RunsWanted(s.dev, Drain(s, input.cmds).view)
    ensures Tick(env, s, input).dev == s.dev && Tick(env, s, input).view.useUhd
  {
    TickDevices(env, s, input);
  }

  /**
   A device is opened, once, in exactly those ticks that take up a rebuild request for UHD while the
   wanted device neither runs nor is parked.
   */
  lemma OpensIff(env: Env, s: State, input: Input)
    requires WellBehaved(input.decode)
    ensures var v := Drain(s, input.cmds).view;
            Tick(env, s, input).dev.opens
            == if v.running && v.rebuildDriver && v.useUhd && !RunsWanted(s.dev, v) && !ParkedWanted(s.dev, v)
               then s.dev.opens + 1 else s.dev.opens
  {
    TickDevices(env, s, input);
  }

  /**
   What becomes of driver and parking place when a rebuild request is taken up. A running device that is
   wanted stays. A parked one returns, whether or not a device could be opened. Otherwise one is opened,
   and if that fails UHD is off. Switching off parks a running device under the arguments now in the view.
   */
  ghost predicate HandedOver(dev: Devices, v: View, openOk: bool, dev': Devices, up: bool) {
    if RunsWanted(dev, v) then dev' == dev && up
    else if ParkedWanted(dev, v) then
      up && dev'.driver == Uhd(dev.parked.value.openArgs) && dev'.parked == None && dev'.activeArgs == v.uhdArgs
    else if v.useUhd then
      && up == openOk && dev'.driver == (if openOk then Uhd(v.uhdArgs) else Sim)
      && dev'.parked == None && dev'.activeArgs == v.uhdArgs
    else
      && !up && dev'.driver == Sim && dev'.activeArgs == dev.activeArgs
      && dev'.parked == if dev.driver.Uhd? then Some(Parked(dev.driver.openArgs, v.uhdArgs)) else dev.parked
  }

  lemma ReconfigureHandsOver(dev: Devices, v: View, openOk: bool)
    ensures var (dev', up) := Reconfigure(dev, v.useUhd, v.uhdArgs, openOk); HandedOver(dev, v, openOk, dev', up)
  {}

  lemma TickHandsOver(env: Env, s: State, input: Input)
    requires WellBehaved(input.decode)
    ensures var (v, s') := (Drain(s, input.cmds).view, Tick(env, s, input));
            if v.running && v.rebuildDriver then HandedOver(s.dev, v, input.openOk, s'.dev, s'.view.useUhd)
            else s'.dev == s.dev && s'.view.useUhd == v.useUhd
  {
    TickDevices(env, s, input);
    ReconfigureHandsOver(s.dev, Drain(s, input.cmds).view, input.openOk);
  }

  /** A tick keeps at most one device alive and the driver in agreement, and hands devices over as told. */
  lemma TickKeepsDevices(env: Env, s: State, input: Input)
    requires WellBehaved(input.decode) && OneDevice(s.dev) && DriverAgrees(s.view, s.dev)
    ensures var s' := Tick(env, s, input); OneDevice(s'.dev) && DriverAgrees(s'.view, s'.dev)
    ensures var (v, s') := (Drain(s, input.cmds).view, Tick(env, s, input));
            if v.running && v.rebuildDriver then HandedOver(s.dev, v, input.openOk, s'.dev, s'.view.useUhd)
            else s'.dev == s.dev && s'.view.useUhd == v.useUhd
  {
    var v := Drain(s, input.cmds).view;
    TickDevices(env, s, input);
    DrainKeepsDevices(s, input.cmds);
    ReconfigureSafe(s.dev, v.useUhd, v.uhdArgs, input.openOk);
    TickHandsOver(env, s, input);
  }

  /** The tick parks an active device although its arguments have changed since it was brought up. */
  predicate ParksUnderOtherArgs(s: State, input: Input) {
    var v := Drain(s, input.cmds).view;
    v.running && v.rebuildDriver && !v.useUhd && s.dev.driver.Uhd? && v.uhdArgs != s.dev.activeArgs
  }

  /** A tick keeps labels truthful if and only if it does not park a device whose arguments have changed. */
  lemma LabelsStayTrueIff(env: Env, s: State, input: Input)
    requires WellBehaved(input.decode) && OneDevice(s.dev) && LabelsTrue(s.dev)
    ensures LabelsTrue(Tick(env, s, input).dev) <==> !ParksUnderOtherArgs(s, input)
  {
    TickDevices(env, s, input);
    DrainKeepsDevices(s, input.cmds);
  }

  // ---- Pacing ----

  function Max(a: nat, b: nat): nat {
    if a >= b then a else b
  }

  /** The next auto transmission is not too far away. */
  ghost predicate PaceOk(p: Pace) {
    p.nextTxAt <= p.produced + Max(SR_HZ, IntervalSamples(p.prevIntervalMs))
  }

  lemma PreparedPace(s: State, input: Input)
    requires PaceOk(s.pace)
    ensures var s' := Prepared(s, input);
            && PaceOk(s'.pace) && s'.pace.prevIntervalMs == s'.view.intervalMs == s.view.intervalMs
            && s'.view.mode == s.view.mode
  {
    var s1 := RebuildDriver(RebuildNode(s), input.openOk);
    assert PaceOk(s1.pace);
    assert PaceOk(ReadInterval(s1.pace, s1.view.intervalMs));
  }

  lemma {:induction false} DrainKeepsPace(s: State, cmds: seq<Command>)
    ensures Drain(s, cmds).pace == s.pace && Drain(s, cmds).autoSeq == s.autoSeq
    decreases |cmds|
  {
    if cmds != [] { DrainKeepsPace(Execute(s, cmds[0]), cmds[1..]); }
  }

  lemma TickKeepsPace(env: Env, s: State, input: Input)
    requires WellBehaved(input.decode) && PaceOk(s.pace)
    ensures PaceOk(Tick(env, s, input).pace)
  {
    TickClock(env, s, input);
  }

  /** The sample at which a tick with this view places its transmissions; a rebuild restarts the clock. */
  function At(p: Pace, v: View): nat {
    if v.rebuildDriver then 0 else p.produced
  }

  /** The date of the next auto transmission; a changed interval may bring it forward. */
  function TxDate(p: Pace, v: View): nat {
    var date := if v.rebuildDriver then 1_000_000 else p.nextTxAt;
    var earliest := At(p, v) + IntervalSamples(v.intervalMs);
    if v.intervalMs != p.prevIntervalMs && earliest < date then earliest else date
  }

  function BeaconDate(p: Pace, v: View): nat {
    if v.rebuildDriver then 500_000 else p.nextBeaconAt
  }

  /** The tick places a test message: the mode is Terminal, the switch is on and the date has come. */
  predicate AutoDueIn(p: Pace, v: View) {
    v.running && v.mode.Terminal? && v.autoTx && At(p, v) >= TxDate(p, v)
  }

  predicate BeaconDueIn(p: Pace, v: View) {
    v.running && At(p, v) >= BeaconDate(p, v)
  }

  /** The clock and the dates after a tick. */
  function PaceAfter(p: Pace, v: View, samples: nat): Pace {
    if !v.running then p
    else Pace(At(p, v) + samples,
              if AutoDueIn(p, v) then At(p, v) + IntervalSamples(v.intervalMs) else TxDate(p, v),
              if BeaconDueIn(p, v) then At(p, v) + 5_000_000 else BeaconDate(p, v),
              v.intervalMs)
  }

  lemma PreparedClock(s: State, input: Input)
    ensures Prepared(s, input).pace == Pace(At(s.pace, s.view), TxDate(s.pace, s.view), BeaconDate(s.pace, s.view), s.view.intervalMs)
    ensures Prepared(s, input).autoSeq == s.autoSeq
  {}

  lemma TransmissionsPace(env: Env, s: State)
    ensures var (p, s') := (s.pace, Transmissions(env, s));
            var auto := s.view.mode.Terminal? && s.view.autoTx && p.produced >= p.nextTxAt;
            && s'.autoSeq == (if auto then s.autoSeq + 1 else s.autoSeq)
            && s'.pace == p.(nextTxAt := if auto then p.produced + IntervalSamples(s.view.intervalMs) else p.nextTxAt,
                             nextBeaconAt := if p.produced >= p.nextBeaconAt then p.produced + 5_000_000 else p.nextBeaconAt)
  {
    BeaconFrame(env, s);
    ManualTxFrame(env, Beacon(env, s));
    AutoTxFrame(env, ManualTx(env, Beacon(env, s)));
  }

  lemma PreparedSwitches(s: State, input: Input)
    ensures var v := Prepared(s, input).view;
            v.intervalMs == s.view.intervalMs && v.mode == s.view.mode && v.autoTx == s.view.autoTx
  {}

  lemma TailPace(env: Env, s: State, input: Input, p: Pace, v: View)
    requires WellBehaved(input.decode) && v.running
    requires s.pace == Pace(At(p, v), TxDate(p, v), BeaconDate(p, v), v.intervalMs)
    requires s.view.intervalMs == v.intervalMs && s.view.mode == v.mode && s.view.autoTx == v.autoTx
    ensures Tail(env, s, input).pace == PaceAfter(p, v, |input.mixed|)
    ensures Tail(env, s, input).autoSeq == (if AutoDueIn(p, v) then s.autoSeq + 1 else s.autoSeq)
  {
    TransmissionsPace(env, s);
    TailFrame(env, s, input);
  }

  /** What a tick does to the clock, the dates and the number of test messages. */
  lemma TickClock(env: Env, s: State, input: Input)
    requires WellBehaved(input.decode)
    ensures var (v, s') := (Drain(s, input.cmds).view, Tick(env, s, input));
            && s'.pace == PaceAfter(s.pace, v, |input.mixed|)
            && s'.autoSeq == (if AutoDueIn(s.pace, v) then s.autoSeq + 1 else s.autoSeq)
  {
    var s1 := Drain(s, input.cmds);
    DrainKeepsPace(s, input.cmds);
    if s1.view.running {
      PreparedClock(s1, input);
      PreparedSwitches(s1, input);
      TailPace(env, Prepared(s1, input), input, s.pace, s1.view);
    }
  }

  /** The sample at which the tick's transmissions are placed. */
  function Position(s: State, input: Input): nat {
    At(s.pace, Drain(s, input.cmds).view)
  }

  /** The tick sends a test message, or would if it fitted. */
  predicate AutoSlot(env: Env, s: State, input: Input)
    requires WellBehaved(input.decode)
  {
    Tick(env, s, input).autoSeq != s.autoSeq
  }

  /** The tick is not paused and rebuilds the driver. */
  predicate RebuildsDriver(s: State, input: Input) {
    var v := Drain(s, input.cmds).view;
    v.running && v.rebuildDriver
  }

  /** If the tick reads an interval at all, it is at least `m` samples. */
  predicate ReadsAtLeast(s: State, input: Input, m: nat) {
    var v := Drain(s, input.cmds).view;
    v.running ==> IntervalSamples(v.intervalMs) >= m
  }

  /** Test messages are placed exactly in Terminal mode with the switch on and the date reached. */
  lemma AutoSlotIff(env: Env, s: State, input: Input)
    requires WellBehaved(input.decode)
    ensures var (v, p) := (Drain(s, input.cmds).view, s.pace);
            var (at, date) := if v.rebuildDriver then (0, 1_000_000) else (p.produced, p.nextTxAt);
            AutoSlot(env, s, input) <==>
              && v.running && v.mode.Terminal? && v.autoTx
              && (at >= date || (v.intervalMs != p.prevIntervalMs && IntervalSamples(v.intervalMs) == 0))
  {
    TickClock(env, s, input);
  }

  /** Without a rebuild and a test message, no tick puts the next date off, whatever the intervals are. */
  lemma IntervalNeverPostpones(env: Env, s: State, input: Input)
    requires WellBehaved(input.decode) && !RebuildsDriver(s, input) && !AutoSlot(env, s, input)
    ensures Tick(env, s, input).pace.nextTxAt <= s.pace.nextTxAt
  {
    TickClock(env, s, input);
  }

  /** In `inputs` no driver is rebuilt and no interval below `m` is read. */
  ghost predicate Steady(env: Env, s: State, inputs: seq<Input>, m: nat)
    requires forall i :: i in inputs ==> WellBehaved(i.decode)
    decreases |inputs|
  {
    inputs != [] ==>
      assert inputs[0] in inputs;
      && !RebuildsDriver(s, inputs[0]) && ReadsAtLeast(s, inputs[0], m)
      && Steady(env, Tick(env, s, inputs[0]), inputs[1..], m)
  }

  /** The next date is at least `m` samples after `from`, which has passed. */
  predicate DateAfter(p: Pace, from: nat, m: nat) {
    from <= p.produced && from + m <= p.nextTxAt
  }

  /** A steady tick moves the next date only to at least `m` samples from a later position. */
  lemma SteadyTick(env: Env, s: State, input: Input, m: nat, from: nat)
    requires WellBehaved(input.decode) && !RebuildsDriver(s, input) && ReadsAtLeast(s, input, m)
    requires DateAfter(s.pace, from, m)
    ensures DateAfter(Tick(env, s, input).pace, from, m)
    ensures AutoSlot(env, s, input) ==> Position(s, input) >= from + m
  {
    TickClock(env, s, input);
  }

  lemma SlotSetsDate(env: Env, s: State, input: Input, m: nat)
    requires WellBehaved(input.decode) && AutoSlot(env, s, input) && ReadsAtLeast(s, input, m)
    ensures DateAfter(Tick(env, s, input).pace, Position(s, input), m)
  {
    TickClock(env, s, input);
  }

  lemma {:induction false} SteadyKeepsDate(env: Env, s: State, inputs: seq<Input>, m: nat, from: nat)
    requires forall i :: i in inputs ==> WellBehaved(i.decode)
    requires Steady(env, s, inputs, m) && DateAfter(s.pace, from, m)
    ensures DateAfter(Run(env, s, inputs).pace, from, m)
    decreases |inputs|
  {
    if inputs != [] {
      assert inputs[0] in inputs;
      SteadyTick(env, s, inputs[0], m, from);
      SteadyKeepsDate(env, Tick(env, s, inputs[0]), inputs[1..], m, from);
    }
  }

  /**
   Pacing. From an auto transmission in tick `first` to one in tick `last`, with any ticks but no
   driver rebuild in between, at least the smallest interval read since the first has passed:
   whatever bounds all those intervals from below bounds the distance in samples.
   */
  lemma AutoTransmissionsPaced(env: Env, s: State, first: Input, between: seq<Input>, last: Input, m: nat)
    requires WellBehaved(first.decode) && WellBehaved(last.decode)
    requires forall i :: i in between ==> WellBehaved(i.decode)
    requires AutoSlot(env, s, first) && ReadsAtLeast(s, first, m)
    requires Steady(env, Tick(env, s, first), between, m)
    requires var t := Run(env, Tick(env, s, first), between);
             AutoSlot(env, t, last) && ReadsAtLeast(t, last, m) && !RebuildsDriver(t, last)
    ensures Position(Run(env, Tick(env, s, first), between), last) >= Position(s, first) + m
  {
    var s1 := Tick(env, s, first);
    var t := Run(env, s1, between);
    SlotSetsDate(env, s, first, m);
    SteadyKeepsDate(env, s1, between, m, Position(s, first));
    SteadyTick(env, t, last, m, Position(s, first));
  }

  /** The tick moves the beacon date, and sends a beacon if the mode is Terminal and it fits. */
  predicate BeaconSlot(s: State, input: Input) {
    BeaconDueIn(s.pace, Drain(s, input.cmds).view)
  }

  ghost predicate NoRebuild(env: Env, s: State, inputs: seq<Input>)
    requires forall i :: i in inputs ==> WellBehaved(i.decode)
    decreases |inputs|
  {
    inputs != [] ==>
      assert inputs[0] in inputs;
      !RebuildsDriver(s, inputs[0]) && NoRebuild(env, Tick(env, s, inputs[0]), inputs[1..])
  }

  lemma BeaconDateStays(env: Env, s: State, input: Input, date: nat)
    requires WellBehaved(input.decode) && !RebuildsDriver(s, input)
    requires s.pace.nextBeaconAt >= date
    ensures Tick(env, s, input).pace.nextBeaconAt >= date
    ensures BeaconSlot(s, input) ==> Position(s, input) >= date
  {
    TickClock(env, s, input);
  }

  lemma {:induction false} RunKeepsBeaconDate(env: Env, s: State, inputs: seq<Input>, date: nat)
    requires forall i :: i in inputs ==> WellBehaved(i.decode)
    requires NoRebuild(env, s, inputs) && s.pace.nextBeaconAt >= date
    ensures Run(env, s, inputs).pace.nextBeaconAt >= date
    decreases |inputs|
  {
    if inputs != [] {
      assert inputs[0] in inputs;
      BeaconDateStays(env, s, inputs[0], date);
      RunKeepsBeaconDate(env, Tick(env, s, inputs[0]), inputs[1..], date);
    }
  }

  /** Two beacons without a driver rebuild in between or at the second are at least five seconds of samples apart. */
  lemma BeaconsPaced(env: Env, s: State, first: Input, between: seq<Input>, last: Input)
    requires WellBehaved(first.decode) && WellBehaved(last.decode)
    requires forall i :: i in between ==> WellBehaved(i.decode)
    requires BeaconSlot(s, first) && NoRebuild(env, Tick(env, s, first), between)
    requires var t := Run(env, Tick(env, s, first), between); BeaconSlot(t, last) && !RebuildsDriver(t, last)
    ensures Position(Run(env, Tick(env, s, first), between), last) >= Position(s, first) + 5_000_000
  {
    var (s1, date) := (Tick(env, s, first), Position(s, first) + 5_000_000);
    TickClock(env, s, first);
    RunKeepsBeaconDate(env, s1, between, date);
    BeaconDateStays(env, Run(env, s1, between), last, date);
  }

  // ---- Log and counters ----

  function CountTx(h: seq<LogEntry>): nat {
    if h == [] then 0 else CountTx(h[..|h| - 1]) + if h[|h| - 1].dir.Tx? then 1 else 0
  }

  /** Received messages that are not our own. */
  function CountRx(h: seq<LogEntry>): nat {
    if h == [] then 0
    else CountRx(h[..|h| - 1]) + if h[|h| - 1].dir.Rx? && !h[|h| - 1].selfOrigin then 1 else 0
  }

  /** `n` counted with a wrapping 64-bit counter. */
  function Wrapped(n: nat): u64 {
    if n == 0 then 0 else Bump(Wrapped(n - 1))
  }

  /** The wrapping counter is the count modulo 2^64. */
  lemma {:induction false} WrappedIsModulo(n: nat)
    ensures Wrapped(n) == n % U64_SPAN
  {
    if n > 0 {
      WrappedIsModulo(n - 1);
      NextRemainder(n - 1, U64_SPAN);
    }
  }

  lemma NextRemainder(n: nat, m: nat)
    requires m > 1
    ensures (n + 1) % m == if n % m + 1 == m then 0 else n % m + 1
  {
    var (q, r) := (n / m, n % m);
    assert n == m * q + r;
    if r + 1 == m {
      assert n + 1 == m * (q + 1);
      RemainderOf(n + 1, m, q + 1, 0);
    } else {
      RemainderOf(n + 1, m, q, r + 1);
    }
  }

  lemma RemainderOf(x: nat, m: nat, q: nat, r: nat)
    requires m > 0 && r < m && x == m * q + r
    ensures x % m == r
  {
    var d := x / m - q;
    assert x == m * (x / m) + x % m;
    assert m * d == r - x % m;
    MultiplesApart(m, d);
  }

  lemma MultiplesApart(m: nat, d: int)
    ensures d >= 1 ==> m * d >= m
    ensures d <= -1 ==> m * d + m <= 0
  {}

  ghost predicate LogOk(s: State) {
    && s.view.log == Last(s.hist, MAX_LOG)
    && s.view.txCount == Wrapped(CountTx(s.hist))
    && s.view.rxCount == Wrapped(CountRx(s.hist))
  }

  lemma LoggedLast(h: seq<LogEntry>, e: LogEntry)
    ensures PushLog(Last(h, MAX_LOG), e) == Last(h + [e], MAX_LOG)
  {}

  /** Logging keeps the invariant when the counters have been bumped for the entry. */
  lemma LoggedOk(s: State, s': State, e: LogEntry)
    requires LogOk(s) && s'.hist == s.hist && s'.view.log == s.view.log
    requires s'.view.txCount == if e.dir.Tx? then Bump(s.view.txCount) else s.view.txCount
    requires s'.view.rxCount == if e.dir.Rx? && !e.selfOrigin then Bump(s.view.rxCount) else s.view.rxCount
    ensures LogOk(Logged(s', e))
  {
    LoggedLast(s.hist, e);
    assert (s.hist + [e])[..|s.hist|] == s.hist;
  }

  lemma CommandKeepsLog(s: State, c: Command)
    requires LogOk(s)
    ensures LogOk(Execute(s, c))
  {
    if c.ResetStats? { assert Execute(s, c).hist == []; } else { assert Execute(s, c).hist == s.hist; }
  }

  lemma {:induction false} DrainKeepsLog(s: State, cmds: seq<Command>)
    requires LogOk(s)
    ensures LogOk(Drain(s, cmds))
    decreases |cmds|
  {
    if cmds != [] {
      CommandKeepsLog(s, cmds[0]);
      DrainKeepsLog(Execute(s, cmds[0]), cmds[1..]);
    }
  }

  lemma CountedOk(s: State, p: Push)
    requires LogOk(s)
    ensures LogOk(Counted(s, p))
  {
    LoggedOk(s, s.(view := s.view.(txCount := Bump(s.view.txCount))), Plain(Tx));
  }

  lemma ManualTextKeepsLog(env: Env, s: State, t: Text)
    requires LogOk(s)
    ensures LogOk(ManualText(env, s, t))
  {
    var frame := Build(env, s, s.view.txDest, TextData(t));
    if frame.Some? {
      var s' := s.(texts := s.texts.(fates := s.texts.fates + [Sent(s.view.mode)]));
      CountedOk(s'.(draws := s.draws + 1), PushManual(frame.value, t));
    }
  }

  lemma {:induction false} SendTextsKeepsLog(env: Env, s: State, ts: seq<Text>)
    requires LogOk(s)
    ensures LogOk(SendTexts(env, s, ts))
    decreases |ts|
  {
    if ts != [] {
      ManualTextKeepsLog(env, s, ts[0]);
      SendTextsKeepsLog(env, ManualText(env, s, ts[0]), ts[1..]);
    }
  }

  lemma TransmissionsKeepLog(env: Env, s: State)
    requires LogOk(s)
    ensures LogOk(Transmissions(env, s))
  {
    var b := Beacon(env, s);
    assert LogOk(b);
    SendTextsKeepsLog(env, b.(view := b.view.(txQueue := [])), b.view.txQueue);
    var m := ManualTx(env, b);
    assert LogOk(m);
    var a := AutoDue(m);
    var frame := Build(env, a, a.view.txDest, TextData(env.testText(a.autoSeq)));
    if frame.Some? { CountedOk(a.(draws := a.draws + 1), PushAuto(frame.value, a.autoSeq)); }
  }

  lemma RelayOutOk(s: State, p: Push)
    requires LogOk(s)
    ensures LogOk(RelayOut(s, p))
  {
    LoggedOk(s, Transmit(s, p), Plain(Fwd));
  }

  lemma LogMessageOk(s: State, msg: MeshMessage)
    requires LogOk(s)
    ensures LogOk(LogMessage(s, msg))
  {
    var s' := if msg.selfOrigin then s else s.(view := s.view.(rxCount := Bump(s.view.rxCount)));
    LoggedOk(s, s', LogEntry(Rx, Some(msg.from), Some(msg.hopLimit), msg.selfOrigin));
  }

  lemma HandleAnswerKeepsLog(s: State, r: RxResult)
    requires LogOk(s)
    ensures LogOk(HandleAnswer(s, r))
  {
    match r
    case Done(Some(msg), fwd) =>
      LogMessageOk(s, msg);
      if fwd.Some? { RelayOutOk(LogMessage(s, msg), PushRelayOfDelivered(fwd.value)); }
    case Done(None, Some(fwd)) => RelayOutOk(s, PushRelay(fwd));
    case Done(None, None) =>
    case _ => LoggedOk(s, s, Plain(Error));
  }

  lemma HandleFrameKeepsLog(env: Env, s: State, payload: seq<u8>)
    requires LogOk(s)
    ensures LogOk(HandleFrame(env, s, payload))
  {
    var (r, cache) := ProcessRx(env.channel, s.nodeId, s.cache, payload);
    HandleAnswerKeepsLog(Received(s, payload, cache), r);
  }

  lemma SameLog(s: State, s': State)
    requires LogOk(s) && s'.hist == s.hist && s'.view.log == s.view.log
    requires s'.view.txCount == s.view.txCount && s'.view.rxCount == s.view.rxCount
    ensures LogOk(s')
  {}

  lemma HandleResultKeepsLog(env: Env, s: State, r: StreamResult)
    requires (!r.Nothing? ==> r.consumed <= |s.rxBuffer|) && LogOk(s)
    ensures LogOk(HandleResult(env, s, r))
  {
    if !r.Nothing? {
      var c := Consume(s, r.consumed);
      SameLog(s, c);
      if r.Ok? { HandleFrameKeepsLog(env, c, r.payload); } else { LoggedOk(c, c, Plain(Error)); }
    }
  }

  lemma {:induction false} DecodeKeepsLog(env: Env, s: State, decode: Decoder, k: nat)
    requires WellBehaved(decode) && LogOk(s)
    ensures LogOk(DecodeLoop(env, s, decode, k))
    decreases |s.rxBuffer|
  {
    var r := decode(k, s.rxBuffer);
    if !r.Nothing? {
      var s' := HandleResult(env, s, r);
      HandleResultKeepsLog(env, s, r);
      HandleResultFrame(env, s, r);
      DecodeKeepsLog(env, s', decode, k + 1);
    }
  }

  /** Rebuilding the driver and reading the parameters leave log, counters and texts alone. */
  lemma PreparedFrame(s: State, input: Input)
    ensures var (n, s') := (RebuildNode(s), Prepared(s, input));
            && s'.hist == n.hist && s'.view.log == n.view.log && s'.view.txCount == n.view.txCount
            && s'.view.rxCount == n.view.rxCount && s'.view.txQueue == n.view.txQueue && s'.texts == n.texts
            && s'.pushed == n.pushed && s'.rx == n.rx && s'.view.mode == n.view.mode
            && s'.view.txDest == n.view.txDest
  {}

  lemma PreparedLog(s: State, input: Input)
    requires LogOk(s)
    ensures LogOk(Prepared(s, input))
  {
    if s.view.rebuildNodes {
      LoggedOk(s, FreshNode(s), Plain(System));
    }
    PreparedFrame(s, input);
    SameLog(RebuildNode(s), Prepared(s, input));
  }

  lemma TickKeepsLog(env: Env, s: State, input: Input)
    requires WellBehaved(input.decode) && LogOk(s)
    ensures LogOk(Tick(env, s, input))
  {
    var s1 := Drain(s, input.cmds);
    DrainKeepsLog(s, input.cmds);
    if s1.view.running {
      PreparedLog(s1, input);
      TransmissionsKeepLog(env, Prepared(s1, input));
      DecodeKeepsLog(env, Collect(Transmissions(env, Prepared(s1, input)), input.mixed), input.decode, 0);
    }
  }

  // ---- Typed messages ----

  /** The texts of the manual pushes, in order. */
  function ManualTexts(ps: seq<Push>): seq<Text> {
    if ps == [] then []
    else ManualTexts(ps[..|ps| - 1]) + if ps[|ps| - 1].PushManual? then [ps[|ps| - 1].text] else []
  }

  /** The texts among `ts` whose fate is `Sent`, in order. */
  function SentTexts(ts: seq<Text>, fates: seq<Fate>): seq<Text>
    requires |fates| <= |ts|
    decreases |fates|
  {
    if fates == [] then []
    else
      var k := |fates| - 1;
      SentTexts(ts, fates[..k]) + if fates[k].Sent? then [ts[k]] else []
  }

  predicate BodyFits(env: Env, data: Data) {
    |env.channel.codec.encode(data)| <= 237
  }

  predicate Fits(env: Env, t: Text) {
    BodyFits(env, TextData(t))
  }

  /** What must become of a text that is settled in this mode. */
  function FateOf(env: Env, mode: SimMode, t: Text): Fate {
    if mode.Listen? then Cleared(mode) else if Fits(env, t) then Sent(mode) else Oversize(mode)
  }

  /**
   Every applied text is in exactly one state: the first |fates| are settled, the rest are still
   queued, in order; those settled as sent are exactly what was transmitted, in order. Exactly the
   texts settled while the mode was Listen are cleared; of the others exactly the oversize are dropped.
   */
  ghost predicate TextsOk(env: Env, s: State) {
    var t := s.texts;
    && |t.fates| <= |t.applied|
    && s.view.txQueue == t.applied[|t.fates|..]
    && ManualTexts(s.pushed) == SentTexts(t.applied, t.fates)
    && (forall k :: 0 <= k < |t.fates| ==> t.fates[k] == FateOf(env, t.fates[k].mode, t.applied[k]))
  }

  lemma {:induction false} SentTextsExtend(ts: seq<Text>, more: seq<Text>, fates: seq<Fate>)
    requires |fates| <= |ts|
    ensures SentTexts(ts + more, fates) == SentTexts(ts, fates)
    decreases |fates|
  {
    if fates != [] { SentTextsExtend(ts, more, fates[..|fates| - 1]); }
  }

  lemma {:induction false} DrainKeepsTexts(env: Env, s: State, cmds: seq<Command>)
    requires TextsOk(env, s)
    ensures TextsOk(env, Drain(s, cmds))
    decreases |cmds|
  {
    if cmds != [] {
      if cmds[0].SendText? { SentTextsExtend(s.texts.applied, [cmds[0].text], s.texts.fates); }
      DrainKeepsTexts(env, Execute(s, cmds[0]), cmds[1..]);
    }
  }

  lemma PushOther(env: Env, ps: seq<Push>, p: Push)
    requires !p.PushManual?
    ensures ManualTexts(ps + [p]) == ManualTexts(ps)
  {
    assert (ps + [p])[..|ps|] == ps;
  }

  /** Half-way through the queue: `queue` is what is left of it. */
  ghost predicate TextsPending(env: Env, s: State, queue: seq<Text>) {
    TextsOk(env, s.(view := s.view.(txQueue := queue)))
  }

  lemma ManualTextKeepsTexts(env: Env, s: State, queue: seq<Text>)
    requires queue != [] && TextsPending(env, s, queue) && s.view.mode.Terminal?
    ensures TextsPending(env, ManualText(env, s, queue[0]), queue[1..])
  {
    var (s', t, k) := (ManualText(env, s, queue[0]), s.texts, |s.texts.fates|);
    assert t.applied[k] == queue[0] && t.applied[k + 1..] == queue[1..];
    assert s'.texts.fates[..k] == t.fates;
    if s'.pushed != s.pushed { assert s'.pushed[..|s.pushed|] == s.pushed; }
  }

  lemma {:induction false} SendTextsKeepsTexts(env: Env, s: State, queue: seq<Text>)
    requires TextsPending(env, s, queue) && s.view.mode.Terminal?
    ensures TextsPending(env, SendTexts(env, s, queue), [])
    decreases |queue|
  {
    if queue != [] {
      ManualTextKeepsTexts(env, s, queue);
      SendTextsKeepsTexts(env, ManualText(env, s, queue[0]), queue[1..]);
    }
  }

  lemma {:induction false} ClearedSendNothing(ts: seq<Text>, fates: seq<Fate>, n: nat, mode: SimMode)
    requires |fates| + n <= |ts|
    ensures SentTexts(ts, fates + seq(n, _ => Cleared(mode))) == SentTexts(ts, fates)
  {
    var all := fates + seq(n, _ => Cleared(mode));
    if n > 0 {
      ClearedSendNothing(ts, fates, n - 1, mode);
      assert all[..|all| - 1] == fates + seq(n - 1, _ => Cleared(mode));
    } else {
      assert all == fates;
    }
  }

  lemma ManualTxKeepsTexts(env: Env, s: State)
    requires TextsOk(env, s)
    ensures TextsOk(env, ManualTx(env, s))
  {
    var q := s.view.txQueue;
    assert s.(view := s.view.(txQueue := q)) == s;
    var s' := s.(view := s.view.(txQueue := []));
    if s.view.mode.Listen? {
      ClearedSendNothing(s.texts.applied, s.texts.fates, |q|, s.view.mode);
    } else {
      assert s'.(view := s'.view.(txQueue := q)) == s;
      SendTextsKeepsTexts(env, s', q);
      SendTextsFrame(env, s', q);
      var e := SendTexts(env, s', q);
      assert e.(view := e.view.(txQueue := [])) == e;
    }
  }

  lemma BeaconKeepsTexts(env: Env, s: State)
    requires TextsOk(env, s)
    ensures TextsOk(env, Beacon(env, s))
  {
    var d := BeaconDue(s);
    var frame := Build(env, d, BROADCAST, env.userInfo);
    if frame.Some? { PushOther(env, s.pushed, PushBeacon(frame.value)); }
  }

  lemma TransmissionsKeepTexts(env: Env, s: State)
    requires TextsOk(env, s)
    ensures TextsOk(env, Transmissions(env, s))
  {
    BeaconKeepsTexts(env, s);
    ManualTxKeepsTexts(env, Beacon(env, s));
    AutoKeepsTexts(env, ManualTx(env, Beacon(env, s)));
  }

  lemma AutoKeepsTexts(env: Env, s: State)
    requires TextsOk(env, s)
    ensures TextsOk(env, AutoTx(env, s))
  {
    var a := AutoDue(s);
    var frame := Build(env, a, a.view.txDest, TextData(env.testText(a.autoSeq)));
    if frame.Some? { PushOther(env, s.pushed, PushAuto(frame.value, a.autoSeq)); }
  }

  lemma RelayKeepsTexts(env: Env, s: State, p: Push)
    requires TextsOk(env, s) && !p.PushManual?
    ensures TextsOk(env, RelayOut(s, p))
  {
    PushOther(env, s.pushed, p);
  }

  lemma HandleAnswerKeepsTexts(env: Env, s: State, r: RxResult)
    requires TextsOk(env, s)
    ensures TextsOk(env, HandleAnswer(s, r))
  {
    match r
    case Done(Some(msg), Some(fwd)) => RelayKeepsTexts(env, LogMessage(s, msg), PushRelayOfDelivered(fwd));
    case Done(None, Some(fwd)) => RelayKeepsTexts(env, s, PushRelay(fwd));
    case _ =>
  }

  lemma HandleFrameKeepsTexts(env: Env, s: State, payload: seq<u8>)
    requires TextsOk(env, s)
    ensures TextsOk(env, HandleFrame(env, s, payload))
  {
    var (r, cache) := ProcessRx(env.channel, s.nodeId, s.cache, payload);
    HandleAnswerKeepsTexts(env, Received(s, payload, cache), r);
  }

  lemma SameTexts(env: Env, s: State, s': State)
    requires TextsOk(env, s)
    requires s'.texts == s.texts && s'.view.txQueue == s.view.txQueue && s'.pushed == s.pushed
    ensures TextsOk(env, s')
  {}

  lemma HandleResultKeepsTexts(env: Env, s: State, r: StreamResult)
    requires (!r.Nothing? ==> r.consumed <= |s.rxBuffer|) && TextsOk(env, s)
    ensures TextsOk(env, HandleResult(env, s, r))
  {
    if !r.Nothing? {
      var c := Consume(s, r.consumed);
      SameTexts(env, s, c);
      if r.Ok? { HandleFrameKeepsTexts(env, c, r.payload); } else { SameTexts(env, c, Garbled(c)); }
    }
  }

  lemma {:induction false} DecodeKeepsTexts(env: Env, s: State, decode: Decoder, k: nat)
    requires WellBehaved(decode) && TextsOk(env, s)
    ensures TextsOk(env, DecodeLoop(env, s, decode, k))
    decreases |s.rxBuffer|
  {
    var r := decode(k, s.rxBuffer);
    if !r.Nothing? {
      HandleResultKeepsTexts(env, s, r);
      HandleResultFrame(env, s, r);
      DecodeKeepsTexts(env, HandleResult(env, s, r), decode, k + 1);
    }
  }

  lemma PreparedTexts(env: Env, s: State, input: Input)
    requires TextsOk(env, s)
    ensures TextsOk(env, Prepared(s, input))
  {
    PreparedFrame(s, input);
    SameTexts(env, s, Prepared(s, input));
  }

  lemma TickKeepsTexts(env: Env, s: State, input: Input)
    requires WellBehaved(input.decode) && TextsOk(env, s)
    ensures TextsOk(env, Tick(env, s, input))
  {
    var s1 := Drain(s, input.cmds);
    DrainKeepsTexts(env, s, input.cmds);
    if s1.view.running {
      PreparedTexts(env, s1, input);
      TransmissionsKeepTexts(env, Prepared(s1, input));
      DecodeKeepsTexts(env, Collect(Transmissions(env, Prepared(s1, input)), input.mixed), input.decode, 0);
    }
  }

  // ---- What each tick settles ----

  function FatesOf(env: Env, mode: SimMode, ts: seq<Text>): seq<Fate> {
    if ts == [] then [] else [FateOf(env, mode, ts[0])] + FatesOf(env, mode, ts[1..])
  }

  lemma {:induction false} ClearedFates(env: Env, ts: seq<Text>)
    ensures FatesOf(env, Listen, ts) == seq(|ts|, _ => Cleared(Listen))
  {
    if ts != [] { ClearedFates(env, ts[1..]); }
  }

  lemma {:induction false} SendTextsSettles(env: Env, s: State, ts: seq<Text>)
    requires s.view.mode.Terminal?
    ensures SendTexts(env, s, ts).texts == s.texts.(fates := s.texts.fates + FatesOf(env, Terminal, ts))
    decreases |ts|
  {
    if ts != [] {
      var s' := ManualText(env, s, ts[0]);
      assert s'.texts == s.texts.(fates := s.texts.fates + [FateOf(env, Terminal, ts[0])]);
      SendTextsSettles(env, s', ts[1..]);
      assert s.texts.fates + FatesOf(env, Terminal, ts) == s'.texts.fates + FatesOf(env, Terminal, ts[1..]);
    } else {
      assert s.texts.fates + FatesOf(env, Terminal, ts) == s.texts.fates;
    }
  }

  lemma TransmissionsSettle(env: Env, s: State)
    ensures Transmissions(env, s).texts
            == s.texts.(fates := s.texts.fates + FatesOf(env, s.view.mode, s.view.txQueue))
  {
    var b := Beacon(env, s);
    assert b.texts == s.texts && b.view == s.view;
    if s.view.mode.Listen? {
      ClearedFates(env, s.view.txQueue);
    } else {
      SendTextsSettles(env, b.(view := b.view.(txQueue := [])), b.view.txQueue);
    }
    AutoKeepsHistory(env, ManualTx(env, b));
  }

  lemma AutoKeepsHistory(env: Env, s: State)
    ensures AutoTx(env, s).texts == s.texts
  {}

  lemma {:induction false} DrainKeepsFates(s: State, cmds: seq<Command>)
    ensures Drain(s, cmds).texts.fates == s.texts.fates
    decreases |cmds|
  {
    if cmds != [] { DrainKeepsFates(Execute(s, cmds[0]), cmds[1..]); }
  }

  /**
   A tick that is not paused settles everything queued once its commands are applied: cleared if the
   mode is then Listen, else sent or, if oversize, dropped. A paused tick settles nothing.
   */
  lemma TickSettles(env: Env, s: State, input: Input)
    requires WellBehaved(input.decode)
    ensures var (v, s') := (Drain(s, input.cmds).view, Tick(env, s, input));
            && s'.texts.applied == Drain(s, input.cmds).texts.applied
            && s'.texts.fates == s.texts.fates + (if v.running then FatesOf(env, v.mode, v.txQueue) else [])
  {
    var s1 := Drain(s, input.cmds);
    DrainKeepsFates(s, input.cmds);
    if s1.view.running {
      var p := Prepared(s1, input);
      PreparedFrame(s1, input);
      TransmissionsSettle(env, p);
      DecodeFrame(env, Collect(Transmissions(env, p), input.mixed), input.decode, 0);
    } else {
      assert s.texts.fates + [] == s.texts.fates;
    }
  }

  predicate ReadsListen(s: State, input: Input) {
    var v := Drain(s, input.cmds).view;
    v.running && v.mode.Listen?
  }

  ghost predicate NoTickReadsListen(env: Env, s: State, inputs: seq<Input>)
    requires forall i :: i in inputs ==> WellBehaved(i.decode)
    decreases |inputs|
  {
    inputs != [] ==>
      assert inputs[0] in inputs;
      !ReadsListen(s, inputs[0]) && NoTickReadsListen(env, Tick(env, s, inputs[0]), inputs[1..])
  }

  ghost predicate NoneCleared(fates: seq<Fate>) {
    forall f :: f in fates ==> !f.Cleared?
  }

  lemma {:induction false} TerminalClearsNothing(env: Env, ts: seq<Text>)
    ensures NoneCleared(FatesOf(env, Terminal, ts))
  {
    if ts != [] { TerminalClearsNothing(env, ts[1..]); }
  }

  lemma {:induction false} NoListenNoneCleared(env: Env, s: State, inputs: seq<Input>)
    requires forall i :: i in inputs ==> WellBehaved(i.decode)
    requires NoTickReadsListen(env, s, inputs) && NoneCleared(s.texts.fates)
    ensures NoneCleared(Run(env, s, inputs).texts.fates)
    decreases |inputs|
  {
    if inputs != [] {
      assert inputs[0] in inputs;
      TickSettles(env, s, inputs[0]);
      TerminalClearsNothing(env, Drain(s, inputs[0].cmds).view.txQueue);
      NoListenNoneCleared(env, Tick(env, s, inputs[0]), inputs[1..]);
    }
  }

  /** The texts that fit a frame, in order. */
  function Fitting(env: Env, ts: seq<Text>): seq<Text> {
    if ts == [] then []
    else Fitting(env, ts[..|ts| - 1]) + if Fits(env, ts[|ts| - 1]) then [ts[|ts| - 1]] else []
  }

  lemma {:induction false} SentAreFitting(env: Env, ts: seq<Text>, fates: seq<Fate>)
    requires |fates| <= |ts| && NoneCleared(fates)
    requires forall k :: 0 <= k < |fates| ==> fates[k] == FateOf(env, fates[k].mode, ts[k])
    ensures SentTexts(ts, fates) == Fitting(env, ts[..|fates|])
    decreases |fates|
  {
    if fates != [] {
      var k := |fates| - 1;
      SentAreFitting(env, ts, fates[..k]);
      assert fates[k] in fates && ts[..k + 1][..k] == ts[..k];
    }
  }

  lemma UnlistenedAllSent(env: Env, s: State, s': State, inputs: seq<Input>)
    requires forall i :: i in inputs ==> WellBehaved(i.decode)
    requires NoneCleared(s.texts.fates) && NoTickReadsListen(env, s, inputs)
    requires s' == Run(env, s, inputs) && TextsOk(env, s')
    ensures ManualTexts(s'.pushed) == Fitting(env, s'.texts.applied[..|s'.texts.fates|])
  {
    NoListenNoneCleared(env, s, inputs);
    SentAreFitting(env, s'.texts.applied, s'.texts.fates);
  }

  /** If no tick of a run reads Listen, what was transmitted is every settled text that fits, in order. */
  lemma WithoutListenAllSent(env: Env, nodeId: u32, uhdFound: bool, openOk: bool, inputs: seq<Input>)
    requires forall i :: i in inputs ==> WellBehaved(i.decode)
    requires NoTickReadsListen(env, Start(nodeId, uhdFound, openOk), inputs)
    ensures var s := Run(env, Start(nodeId, uhdFound, openOk), inputs);
            && |s.texts.fates| <= |s.texts.applied| && s.view.txQueue == s.texts.applied[|s.texts.fates|..]
            && ManualTexts(s.pushed) == Fitting(env, s.texts.applied[..|s.texts.fates|])
  {
    var start := Start(nodeId, uhdFound, openOk);
    AlwaysSafe(env, nodeId, uhdFound, openOk, inputs);
    UnlistenedAllSent(env, start, Run(env, start, inputs), inputs);
  }

  // ---- What goes on the air ----

  /** A frame of this channel from this node with this body, as `build_frame` makes it. */
  ghost predicate Carries(env: Env, nodeId: u32, f: MeshFrame, data: Data) {
    f == FrameFor(env.channel, nodeId, f.header.to, data, f.header.id, HOP_LIMIT) && |f.payload| <= MAX_PAYLOAD
  }

  /** `raw` is the received `payload` with one hop less and clear reserved bytes. */
  predicate OneHopOn(payload: seq<u8>, raw: seq<u8>) {
    |payload| >= HEADER_LEN && payload[12] % 8 > 0 && raw == payload[12 := payload[12] - 1][14 := 0][15 := 0]
  }

  ghost predicate Accounted(env: Env, nodeId: u32, all: seq<Reception>, p: Push) {
    match p
    case PushBeacon(f) => Carries(env, nodeId, f, env.userInfo) && f.header.to == BROADCAST
    case PushManual(f, text) => Carries(env, nodeId, f, TextData(text))
    case PushAuto(f, n) => Carries(env, nodeId, f, TextData(env.testText(n)))
    case PushRelayOfDelivered(f) => exists q :: q in all && q.Decoded? && OneHopOn(q.payload, ToBytes(f))
    case PushRelay(f) => exists q :: q in all && q.Decoded? && OneHopOn(q.payload, ToBytes(f))
  }

  /** Nothing is transmitted but frames this node built, with their proper bodies, and received bytes one hop on. */
  ghost predicate AirOk(env: Env, s: State) {
    s.nodeId == s.view.nodeId && forall p :: p in s.pushed ==> Accounted(env, s.nodeId, s.rx.all, p)
  }

  lemma {:induction false} DrainKeepsAir(s: State, cmds: seq<Command>)
    ensures var s' := Drain(s, cmds);
            && s'.pushed == s.pushed && s'.rx.all == s.rx.all
            && s'.nodeId == s.nodeId && s'.view.nodeId == s.view.nodeId
    decreases |cmds|
  {
    if cmds != [] { DrainKeepsAir(Execute(s, cmds[0]), cmds[1..]); }
  }

  lemma {:induction false} SendTextsKeepsAir(env: Env, s: State, ts: seq<Text>)
    requires AirOk(env, s)
    ensures AirOk(env, SendTexts(env, s, ts))
    decreases |ts|
  {
    if ts != [] {
      assert AirOk(env, ManualText(env, s, ts[0]));
      SendTextsKeepsAir(env, ManualText(env, s, ts[0]), ts[1..]);
    }
  }

  lemma TransmissionsKeepAir(env: Env, s: State)
    requires AirOk(env, s)
    ensures AirOk(env, Transmissions(env, s))
  {
    var b := Beacon(env, s);
    assert AirOk(env, b);
    SendTextsKeepsAir(env, b.(view := b.view.(txQueue := [])), b.view.txQueue);
    var m := ManualTx(env, b);
    assert AirOk(env, m) && AirOk(env, AutoDue(m));
    assert AirOk(env, AutoText(env, AutoDue(m)));
  }

  lemma RelayKeepsAir(env: Env, s: State, p: Push)
    requires AirOk(env, s) && Accounted(env, s.nodeId, s.rx.all, p)
    ensures AirOk(env, RelayOut(s, p))
  {}

  lemma HandleAnswerKeepsAir(env: Env, s: State, r: RxResult)
    requires AirOk(env, s)
    requires r.Done? && r.fwd.Some? ==> exists q :: q in s.rx.all && q.Decoded? && OneHopOn(q.payload, ToBytes(r.fwd.value))
    ensures AirOk(env, HandleAnswer(s, r))
  {
    match r
    case Done(Some(msg), Some(fwd)) => RelayKeepsAir(env, LogMessage(s, msg), PushRelayOfDelivered(fwd));
    case Done(None, Some(fwd)) => RelayKeepsAir(env, s, PushRelay(fwd));
    case _ =>
  }

  lemma HandleFrameKeepsAir(env: Env, s: State, payload: seq<u8>)
    requires AirOk(env, s)
    ensures AirOk(env, HandleFrame(env, s, payload))
  {
    var (r, cache) := ProcessRx(env.channel, s.nodeId, s.cache, payload);
    var s' := Received(s, payload, cache);
    forall p | p in s'.pushed
      ensures Accounted(env, s.nodeId, s'.rx.all, p)
    {
      assert Accounted(env, s.nodeId, s.rx.all, p);
    }
    RxEffect(env.channel, s.nodeId, s.cache, payload);
    assert Decoded(payload, s.view.mode, s.rx.epoch) in s'.rx.all;
    HandleAnswerKeepsAir(env, s', r);
  }

  lemma HandleResultKeepsAir(env: Env, s: State, r: StreamResult)
    requires (!r.Nothing? ==> r.consumed <= |s.rxBuffer|) && AirOk(env, s)
    ensures AirOk(env, HandleResult(env, s, r))
  {
    if r.Ok? {
      HandleFrameKeepsAir(env, Consume(s, r.consumed), r.payload);
    } else if !r.Nothing? {
      GarbledKeepsAir(env, Consume(s, r.consumed));
    }
  }

  lemma GarbledKeepsAir(env: Env, s: State)
    requires AirOk(env, s)
    ensures AirOk(env, Garbled(s))
  {
    forall p | p in s.pushed
      ensures Accounted(env, s.nodeId, Garbled(s).rx.all, p)
    {
      assert Accounted(env, s.nodeId, s.rx.all, p);
    }
  }

  lemma {:induction false} DecodeKeepsAir(env: Env, s: State, decode: Decoder, k: nat)
    requires WellBehaved(decode) && AirOk(env, s)
    ensures AirOk(env, DecodeLoop(env, s, decode, k))
    decreases |s.rxBuffer|
  {
    var r := decode(k, s.rxBuffer);
    if !r.Nothing? {
      HandleResultKeepsAir(env, s, r);
      HandleResultFrame(env, s, r);
      DecodeKeepsAir(env, HandleResult(env, s, r), decode, k + 1);
    }
  }

  lemma TickKeepsAir(env: Env, s: State, input: Input)
    requires WellBehaved(input.decode) && AirOk(env, s)
    ensures AirOk(env, Tick(env, s, input))
  {
    var s1 := Drain(s, input.cmds);
    DrainKeepsAir(s, input.cmds);
    if s1.view.running {
      var p := Prepared(s1, input);
      assert p.pushed == s.pushed && p.rx.all == s.rx.all && p.nodeId == s.nodeId && p.view.nodeId == s.view.nodeId;
      TransmissionsKeepAir(env, p);
      DecodeKeepsAir(env, Collect(Transmissions(env, p), input.mixed), input.decode, 0);
    }
  }

  /** From position `n` on, every text message pushed is addressed to `dest`. */
  ghost predicate SentTo(ps: seq<Push>, n: nat, dest: u32) {
    n <= |ps| && forall k :: n <= k < |ps| && (ps[k].PushManual? || ps[k].PushAuto?) ==> ps[k].frame.header.to == dest
  }

  lemma {:induction false} SendTextsAddress(env: Env, s: State, ts: seq<Text>, n: nat)
    requires SentTo(s.pushed, n, s.view.txDest)
    ensures SentTo(SendTexts(env, s, ts).pushed, n, s.view.txDest)
    decreases |ts|
  {
    if ts != [] { SendTextsAddress(env, ManualText(env, s, ts[0]), ts[1..], n); }
  }

  lemma BeaconAddress(env: Env, s: State, n: nat)
    requires SentTo(s.pushed, n, s.view.txDest)
    ensures SentTo(Beacon(env, s).pushed, n, s.view.txDest) && Beacon(env, s).view == s.view
  {}

  lemma ManualAddress(env: Env, s: State, n: nat)
    requires SentTo(s.pushed, n, s.view.txDest)
    ensures SentTo(ManualTx(env, s).pushed, n, s.view.txDest) && ManualTx(env, s).view.txDest == s.view.txDest
  {
    ManualTxFrame(env, s);
    SendTextsAddress(env, s.(view := s.view.(txQueue := [])), s.view.txQueue, n);
  }

  lemma AutoAddress(env: Env, s: State, n: nat)
    requires SentTo(s.pushed, n, s.view.txDest)
    ensures SentTo(AutoTx(env, s).pushed, n, s.view.txDest)
  {}

  lemma TransmissionsAddress(env: Env, s: State)
    ensures SentTo(Transmissions(env, s).pushed, |s.pushed|, s.view.txDest)
  {
    BeaconAddress(env, s, |s.pushed|);
    ManualAddress(env, Beacon(env, s), |s.pushed|);
    AutoAddress(env, ManualTx(env, Beacon(env, s)), |s.pushed|);
  }

  lemma HandleResultAddress(env: Env, s: State, r: StreamResult, n: nat, dest: u32)
    requires (!r.Nothing? ==> r.consumed <= |s.rxBuffer|) && SentTo(s.pushed, n, dest)
    ensures SentTo(HandleResult(env, s, r).pushed, n, dest)
  {
    if r.Ok? {
      var c := Consume(s, r.consumed);
      var (a, cache) := ProcessRx(env.channel, c.nodeId, c.cache, r.payload);
      HandleAnswerAddress(Received(c, r.payload, cache), a, n, dest);
    }
  }

  lemma HandleAnswerAddress(s: State, r: RxResult, n: nat, dest: u32)
    requires SentTo(s.pushed, n, dest)
    ensures SentTo(HandleAnswer(s, r).pushed, n, dest)
  {}

  lemma {:induction false} DecodeAddress(env: Env, s: State, decode: Decoder, k: nat, n: nat, dest: u32)
    requires WellBehaved(decode) && SentTo(s.pushed, n, dest)
    ensures SentTo(DecodeLoop(env, s, decode, k).pushed, n, dest)
    decreases |s.rxBuffer|
  {
    var r := decode(k, s.rxBuffer);
    if !r.Nothing? {
      HandleResultAddress(env, s, r, n, dest);
      HandleResultFrame(env, s, r);
      DecodeAddress(env, HandleResult(env, s, r), decode, k + 1, n, dest);
    }
  }

  /** Every text message a tick pushes is addressed to the destination set once its commands are applied. */
  lemma TickAddresses(env: Env, s: State, input: Input)
    requires WellBehaved(input.decode)
    ensures SentTo(Tick(env, s, input).pushed, |s.pushed|, Drain(s, input.cmds).view.txDest)
  {
    var s1 := Drain(s, input.cmds);
    DrainKeepsAir(s, input.cmds);
    if s1.view.running {
      var p := Prepared(s1, input);
      PreparedFrame(s1, input);
      TransmissionsAddress(env, p);
      DecodeAddress(env, Collect(Transmissions(env, p), input.mixed), input.decode, 0, |s.pushed|, p.view.txDest);
    }
  }

  /** The packet ids of the frames this node built, in order. */
  function BuiltIds(ps: seq<Push>): seq<u32> {
    if ps == [] then []
    else
      var p := ps[|ps| - 1];
      BuiltIds(ps[..|ps| - 1]) + if p.PushRelay? || p.PushRelayOfDelivered? then [] else [p.frame.header.id]
  }

  function FirstIds(env: Env, n: nat): seq<u32> {
    if n == 0 then [] else FirstIds(env, n - 1) + [env.rand(n - 1)]
  }

  /** Every frame built has used a packet id of its own. */
  ghost predicate IdsOk(env: Env, s: State) {
    BuiltIds(s.pushed) == FirstIds(env, s.draws)
  }

  lemma BuiltKeepsIds(env: Env, s: State, p: Push)
    requires IdsOk(env, s) && !p.PushRelay? && !p.PushRelayOfDelivered? && p.frame.header.id == env.rand(s.draws)
    ensures BuiltIds(s.pushed + [p]) == FirstIds(env, s.draws + 1)
  {
    assert (s.pushed + [p])[..|s.pushed|] == s.pushed;
  }

  lemma ManualTextKeepsIds(env: Env, s: State, t: Text)
    requires IdsOk(env, s)
    ensures IdsOk(env, ManualText(env, s, t))
  {
    var frame := Build(env, s, s.view.txDest, TextData(t));
    if frame.Some? { BuiltKeepsIds(env, s, PushManual(frame.value, t)); }
  }

  lemma {:induction false} SendTextsKeepsIds(env: Env, s: State, ts: seq<Text>)
    requires IdsOk(env, s)
    ensures IdsOk(env, SendTexts(env, s, ts))
    decreases |ts|
  {
    if ts != [] {
      ManualTextKeepsIds(env, s, ts[0]);
      SendTextsKeepsIds(env, ManualText(env, s, ts[0]), ts[1..]);
    }
  }

  lemma BeaconKeepsIds(env: Env, s: State)
    requires IdsOk(env, s)
    ensures IdsOk(env, Beacon(env, s))
  {
    var frame := Build(env, s, BROADCAST, env.userInfo);
    if frame.Some? { BuiltKeepsIds(env, s, PushBeacon(frame.value)); }
  }

  lemma AutoKeepsIds(env: Env, s: State)
    requires IdsOk(env, s)
    ensures IdsOk(env, AutoTx(env, s))
  {
    var frame := Build(env, s, s.view.txDest, TextData(env.testText(s.autoSeq + 1)));
    if frame.Some? { BuiltKeepsIds(env, s, PushAuto(frame.value, s.autoSeq + 1)); }
  }

  lemma TransmissionsKeepIds(env: Env, s: State)
    requires IdsOk(env, s)
    ensures IdsOk(env, Transmissions(env, s))
  {
    var b := Beacon(env, s);
    BeaconKeepsIds(env, s);
    SendTextsKeepsIds(env, b.(view := b.view.(txQueue := [])), b.view.txQueue);
    AutoKeepsIds(env, ManualTx(env, b));
  }

  lemma RelayKeepsIds(s: State, p: Push)
    requires p.PushRelay? || p.PushRelayOfDelivered?
    ensures BuiltIds(RelayOut(s, p).pushed) == BuiltIds(s.pushed)
  {
    assert (s.pushed + [p])[..|s.pushed|] == s.pushed;
  }

  lemma HandleResultKeepsIds(env: Env, s: State, r: StreamResult)
    requires !r.Nothing? ==> r.consumed <= |s.rxBuffer|
    ensures BuiltIds(HandleResult(env, s, r).pushed) == BuiltIds(s.pushed)
  {
    if r.Ok? {
      var c := Consume(s, r.consumed);
      var (a, cache) := ProcessRx(env.channel, c.nodeId, c.cache, r.payload);
      HandleAnswerKeepsIds(Received(c, r.payload, cache), a);
    }
  }

  lemma HandleAnswerKeepsIds(s: State, r: RxResult)
    ensures BuiltIds(HandleAnswer(s, r).pushed) == BuiltIds(s.pushed)
  {
    match r
    case Done(Some(msg), Some(fwd)) => RelayKeepsIds(LogMessage(s, msg), PushRelayOfDelivered(fwd));
    case Done(None, Some(fwd)) => RelayKeepsIds(s, PushRelay(fwd));
    case _ =>
  }

  lemma {:induction false} DecodeKeepsIds(env: Env, s: State, decode: Decoder, k: nat)
    requires WellBehaved(decode)
    ensures BuiltIds(DecodeLoop(env, s, decode, k).pushed) == BuiltIds(s.pushed)
    decreases |s.rxBuffer|
  {
    var r := decode(k, s.rxBuffer);
    if !r.Nothing? {
      HandleResultKeepsIds(env, s, r);
      HandleResultFrame(env, s, r);
      DecodeKeepsIds(env, HandleResult(env, s, r), decode, k + 1);
    }
  }

  lemma {:induction false} DrainKeepsIds(s: State, cmds: seq<Command>)
    ensures Drain(s, cmds).pushed == s.pushed && Drain(s, cmds).draws == s.draws
    decreases |cmds|
  {
    if cmds != [] { DrainKeepsIds(Execute(s, cmds[0]), cmds[1..]); }
  }

  /** The frames this node ever built carry successive packet ids of the random source, none of them twice used. */
  lemma TickKeepsIds(env: Env, s: State, input: Input)
    requires WellBehaved(input.decode) && IdsOk(env, s)
    ensures IdsOk(env, Tick(env, s, input))
  {
    var d := Drain(s, input.cmds);
    DrainKeepsIds(s, input.cmds);
    if d.view.running {
      var p := Prepared(d, input);
      assert IdsOk(env, p);
      TransmissionsKeepIds(env, p);
      DecodeKeepsIds(env, Collect(Transmissions(env, p), input.mixed), input.decode, 0);
      DecodeFrame(env, Collect(Transmissions(env, p), input.mixed), input.decode, 0);
    }
  }

  // ---- Receive buffer ----

  /** `buf` is the end of `all`. */
  ghost predicate EndOf(buf: seq<Complex>, all: seq<Complex>) {
    |buf| <= |all| && buf == all[|all| - |buf|..]
  }

  /** How many samples left the buffer. */
  function Lost(gone: seq<Drop>): int {
    if gone == [] then 0
    else Lost(gone[..|gone| - 1]) + match gone[|gone| - 1] { case Used(n) => n case Trimmed(total) => total - 2_000_000 }
  }

  lemma LostLast(gone: seq<Drop>, d: Drop)
    ensures Lost(gone + [d]) == Lost(gone) + match d { case Used(n) => n case Trimmed(total) => total - 2_000_000 }
  {
    assert (gone + [d])[..|gone|] == gone;
  }

  /**
   The buffer is bounded and is the end of what was received since it was last cleared. Every other
   sample since then was used by a decode attempt, or trimmed in a tick with more than four million.
   */
  ghost predicate RxOk(s: State) {
    && EndOf(s.rxBuffer, s.delivered) && |s.rxBuffer| <= MAX_RX_BUF
    && |s.delivered| == |s.rxBuffer| + Lost(s.gone)
    && forall d :: d in s.gone && d.Trimmed? ==> d.total > 4_000_000
  }

  lemma AppendEnd(buf: seq<Complex>, all: seq<Complex>, more: seq<Complex>)
    requires EndOf(buf, all)
    ensures EndOf(buf + more, all + more)
  {
    assert (all + more)[|all| - |buf|..] == all[|all| - |buf|..] + more;
  }

  lemma DropEnd(buf: seq<Complex>, all: seq<Complex>, n: nat)
    requires n <= |buf| && EndOf(buf, all)
    ensures EndOf(buf[n..], all)
  {
    assert buf[n..] == all[|all| - |buf| + n..];
  }

  /** New samples extend the buffer, and nothing is trimmed unless the total exceeds four million. */
  lemma CollectOk(s: State, mixed: seq<Complex>)
    requires RxOk(s)
    ensures RxOk(Collect(s, mixed))
    ensures var total := |s.rxBuffer| + |mixed|;
            && |Collect(s, mixed).rxBuffer| == (if total <= 4_000_000 then total else 2_000_000)
            && EndOf(Collect(s, mixed).rxBuffer, s.rxBuffer + mixed)
  {
    var buf := s.rxBuffer + mixed;
    AppendEnd(s.rxBuffer, s.delivered, mixed);
    if |buf| > MAX_RX_BUF {
      DropEnd(buf, s.delivered + mixed, |buf| - MAX_RX_BUF / 2);
      LostLast(s.gone, Trimmed(|buf|));
    }
  }

  lemma HandleResultKeepsRx(env: Env, s: State, r: StreamResult)
    requires !r.Nothing? && r.consumed <= |s.rxBuffer| && RxOk(s)
    ensures RxOk(HandleResult(env, s, r))
  {
    DropEnd(s.rxBuffer, s.delivered, r.consumed);
    LostLast(s.gone, Used(r.consumed));
    HandleResultFrame(env, s, r);
    HandleResultDrops(env, s, r);
  }

  lemma HandleResultDrops(env: Env, s: State, r: StreamResult)
    requires !r.Nothing? && r.consumed <= |s.rxBuffer|
    ensures HandleResult(env, s, r).gone == s.gone + [Used(r.consumed)]
  {
    if r.Ok? {
      var c := Consume(s, r.consumed);
      var (a, cache) := ProcessRx(env.channel, c.nodeId, c.cache, r.payload);
      HandleAnswerFrame(Received(c, r.payload, cache), a);
    }
  }

  lemma {:induction false} DecodeKeepsRx(env: Env, s: State, decode: Decoder, k: nat)
    requires WellBehaved(decode) && RxOk(s)
    ensures RxOk(DecodeLoop(env, s, decode, k))
    decreases |s.rxBuffer|
  {
    var r := decode(k, s.rxBuffer);
    if !r.Nothing? {
      HandleResultFrame(env, s, r);
      HandleResultKeepsRx(env, s, r);
      DecodeKeepsRx(env, HandleResult(env, s, r), decode, k + 1);
    }
  }

  lemma {:induction false} DrainKeepsRx(s: State, cmds: seq<Command>)
    ensures var s' := Drain(s, cmds); s'.rxBuffer == s.rxBuffer && s'.delivered == s.delivered && s'.gone == s.gone
    decreases |cmds|
  {
    if cmds != [] { DrainKeepsRx(Execute(s, cmds[0]), cmds[1..]); }
  }

  predicate SameRx(s: State, s': State) {
    s'.rxBuffer == s.rxBuffer && s'.delivered == s.delivered && s'.gone == s.gone
  }

  lemma SameRxOk(s: State, s': State)
    requires SameRx(s, s') && RxOk(s)
    ensures RxOk(s')
  {}

  lemma EmptyRxOk(s: State)
    requires s.rxBuffer == [] && s.delivered == [] && s.gone == []
    ensures RxOk(s)
  {}

  lemma NodeKeepsRx(s: State)
    requires RxOk(s)
    ensures RxOk(RebuildNode(s))
  {
    SameRxOk(s, RebuildNode(s));
  }

  lemma RebuildKeepsRx(s: State, openOk: bool)
    requires RxOk(s)
    ensures RxOk(RebuildDriver(s, openOk))
  {
    if s.view.rebuildDriver { EmptyRxOk(RebuildDriver(s, openOk)); }
  }

  lemma ParamsKeepRx(s: State)
    requires RxOk(s)
    ensures RxOk(ReadParams(s))
  {
    if s.view.sf == s.curSf { SameRxOk(s, ReadParams(s)); } else { EmptyRxOk(ReadParams(s)); }
  }

  lemma PreparedRx(s: State, input: Input)
    requires RxOk(s)
    ensures RxOk(Prepared(s, input))
  {
    NodeKeepsRx(s);
    RebuildKeepsRx(RebuildNode(s), input.openOk);
    ParamsKeepRx(RebuildDriver(RebuildNode(s), input.openOk));
  }

  lemma TickKeepsRx(env: Env, s: State, input: Input)
    requires WellBehaved(input.decode) && RxOk(s)
    ensures RxOk(Tick(env, s, input))
  {
    var s1 := Drain(s, input.cmds);
    DrainKeepsRx(s, input.cmds);
    if s1.view.running {
      var p := Prepared(s1, input);
      PreparedRx(s1, input);
      TransmissionsFrame(env, p);
      CollectOk(Transmissions(env, p), input.mixed);
      DecodeKeepsRx(env, Collect(Transmissions(env, p), input.mixed), input.decode, 0);
    }
  }

  // ---- Listen mode ----

  lemma {:induction false} DecodeSilent(env: Env, s: State, decode: Decoder, k: nat)
    requires WellBehaved(decode) && s.view.mode.Listen?
    ensures DecodeLoop(env, s, decode, k).pushed == s.pushed
    decreases |s.rxBuffer|
  {
    var r := decode(k, s.rxBuffer);
    if !r.Nothing? {
      HandleResultFrame(env, s, r);
      DecodeSilent(env, HandleResult(env, s, r), decode, k + 1);
    }
  }

  lemma TailSilent(env: Env, s: State, input: Input)
    requires WellBehaved(input.decode) && s.view.mode.Listen?
    ensures Tail(env, s, input).pushed == s.pushed
  {
    TransmissionsFrame(env, s);
    DecodeSilent(env, Collect(Transmissions(env, s), input.mixed), input.decode, 0);
  }

  /** A tick that reads mode Listen, or is paused, hands nothing to the driver and, if not paused, empties the queue. */
  lemma ListenIsSilent(env: Env, s: State, input: Input)
    requires WellBehaved(input.decode)
    requires var v := Drain(s, input.cmds).view; v.mode.Listen? || !v.running
    ensures Tick(env, s, input).pushed == s.pushed
    ensures Drain(s, input.cmds).view.running ==> Tick(env, s, input).view.txQueue == []
  {
    var s1 := Drain(s, input.cmds);
    DrainKeepsAir(s, input.cmds);
    if s1.view.running {
      PreparedFrame(s1, input);
      TailFrame(env, Prepared(s1, input), input);
      TailSilent(env, Prepared(s1, input), input);
    }
  }

  // ---- Whole runs ----

  ghost predicate Safe(env: Env, s: State) {
    && OneDevice(s.dev) && DriverAgrees(s.view, s.dev)
    && PaceOk(s.pace)
    && LogOk(s)
    && TextsOk(env, s)
    && RxOk(s)
    && AirOk(env, s) && IdsOk(env, s)
  }

  lemma TickKeepsSafe(env: Env, s: State, input: Input)
    requires WellBehaved(input.decode) && Safe(env, s)
    ensures Safe(env, Tick(env, s, input))
  {
    TickKeepsDevices(env, s, input);
    TickKeepsPace(env, s, input);
    TickKeepsLog(env, s, input);
    TickKeepsTexts(env, s, input);
    TickKeepsRx(env, s, input);
    TickKeepsAir(env, s, input);
    TickKeepsIds(env, s, input);
  }

  lemma {:induction false} RunKeepsSafe(env: Env, s: State, inputs: seq<Input>)
    requires Safe(env, s) && forall i :: i in inputs ==> WellBehaved(i.decode)
    ensures Safe(env, Run(env, s, inputs))
    decreases |inputs|
  {
    if inputs != [] {
      assert inputs[0] in inputs;
      TickKeepsSafe(env, s, inputs[0]);
      RunKeepsSafe(env, Tick(env, s, inputs[0]), inputs[1..]);
    }
  }

  lemma StartSafe(env: Env, nodeId: u32, uhdFound: bool, openOk: bool)
    ensures Safe(env, Start(nodeId, uhdFound, openOk))
  {
    var s := Start(nodeId, uhdFound, openOk);
    assert OneDevice(s.dev) && DriverAgrees(s.view, s.dev);
    assert LogOk(s) && TextsOk(env, s) && RxOk(s) && AirOk(env, s) && IdsOk(env, s);
  }

  /** Every state of every run of the radio loop is safe, whatever the commands, the devices and the receiver do. */
  lemma AlwaysSafe(env: Env, nodeId: u32, uhdFound: bool, openOk: bool, inputs: seq<Input>)
    requires forall i :: i in inputs ==> WellBehaved(i.decode)
    ensures Safe(env, Run(env, Start(nodeId, uhdFound, openOk), inputs))
  {
    StartSafe(env, nodeId, uhdFound, openOk);
    RunKeepsSafe(env, Start(nodeId, uhdFound, openOk), inputs);
  }

  /** In every tick, once the parameters are read, the next auto transmission is at most one interval away. */
  lemma NextTxCeiling(env: Env, nodeId: u32, uhdFound: bool, openOk: bool, inputs: seq<Input>, input: Input)
    requires forall i :: i in inputs ==> WellBehaved(i.decode)
    ensures var s := Prepared(Drain(Run(env, Start(nodeId, uhdFound, openOk), inputs), input.cmds), input);
            s.pace.nextTxAt <= s.pace.produced + Max(SR_HZ, IntervalSamples(s.view.intervalMs))
  {
    AlwaysSafe(env, nodeId, uhdFound, openOk, inputs);
    var s := Run(env, Start(nodeId, uhdFound, openOk), inputs);
    DrainKeepsPace(s, input.cmds);
    PreparedPace(Drain(s, input.cmds), input);
  }

  /** The interval in samples is the intended one exactly while the product fits 64 bits. */
  lemma IntervalExactIff(ms: u64)
    ensures IntervalSamples(ms) == ms * 1000 <==> ms * SR_HZ < U64_SPAN
  {}

  /** No tick of the run parks a device under changed arguments. */
  ghost predicate ParksTruthfully(env: Env, s: State, inputs: seq<Input>)
    requires forall i :: i in inputs ==> WellBehaved(i.decode)
    decreases |inputs|
  {
    inputs != [] ==>
      assert inputs[0] in inputs;
      !ParksUnderOtherArgs(s, inputs[0]) && ParksTruthfully(env, Tick(env, s, inputs[0]), inputs[1..])
  }

  lemma {:induction false} LabelsTrueAlong(env: Env, s: State, inputs: seq<Input>)
    requires forall i :: i in inputs ==> WellBehaved(i.decode)
    requires OneDevice(s.dev) && DriverAgrees(s.view, s.dev) && LabelsTrue(s.dev) && ParksTruthfully(env, s, inputs)
    ensures LabelsTrue(Run(env, s, inputs).dev)
    decreases |inputs|
  {
    if inputs != [] {
      assert inputs[0] in inputs;
      LabelsStayTrueIff(env, s, inputs[0]);
      TickKeepsDevices(env, s, inputs[0]);
      LabelsTrueAlong(env, Tick(env, s, inputs[0]), inputs[1..]);
    }
  }

  /** In a run that parks truthfully, an active device was opened with the view's arguments unless a rebuild is pending. */
  lemma DeviceHasViewArgs(env: Env, nodeId: u32, uhdFound: bool, openOk: bool, inputs: seq<Input>)
    requires forall i :: i in inputs ==> WellBehaved(i.decode)
    requires ParksTruthfully(env, Start(nodeId, uhdFound, openOk), inputs)
    ensures var s := Run(env, Start(nodeId, uhdFound, openOk), inputs);
            s.dev.driver.Uhd? && !s.view.rebuildDriver ==> s.dev.driver.openArgs == s.view.uhdArgs
  {
    AlwaysSafe(env, nodeId, uhdFound, openOk, inputs);
    LabelsTrueAlong(env, Start(nodeId, uhdFound, openOk), inputs);
  }

  /**
   Without that, it need not: change the arguments and switch to the simulator between two ticks,
   then switch back. The old device is running, and both the view and the loop take it for the new one.
   */
  lemma StaleDevice(env: Env, nodeId: u32, args: string, decode: Decoder)
    requires WellBehaved(decode) && args != ""
    ensures var inputs := [Input([SetUhdArgs(args), SetUhdEnabled(false)], true, [], decode),
                           Input([SetUhdEnabled(true)], true, [], decode)];
            var s := Run(env, Start(nodeId, true, true), inputs);
            s.dev.driver == Uhd("") && !s.view.rebuildDriver && s.view.uhdArgs == s.dev.activeArgs == args
  {
    var (off, on) := ([SetUhdArgs(args), SetUhdEnabled(false)], [SetUhdEnabled(true)]);
    var (a, b) := (Input(off, true, [], decode), Input(on, true, [], decode));
    var s0 := Start(nodeId, true, true);
    StaleParked(env, s0, args, a);
    var s1 := Tick(env, s0, a);
    StaleReturns(env, s1, args, b);
    RunTwo(env, s0, a, b);
  }

  lemma RunTwo(env: Env, s: State, a: Input, b: Input)
    requires WellBehaved(a.decode) && WellBehaved(b.decode)
    ensures Run(env, s, [a, b]) == Tick(env, Tick(env, s, a), b)
  {
    assert [a, b][1..] == [b] && [b][1..] == [];
    assert Run(env, Tick(env, s, a), [b]) == Run(env, Tick(env, Tick(env, s, a), b), []);
  }

  /** Changing the arguments and switching off in one batch parks the old device under the new arguments. */
  lemma StaleParked(env: Env, s: State, args: string, input: Input)
    requires WellBehaved(input.decode) && input.cmds == [SetUhdArgs(args), SetUhdEnabled(false)]
    requires s.view.running && s.view.useUhd && s.dev.driver.Uhd?
    ensures var s' := Tick(env, s, input);
            && s'.dev.driver == Sim && s'.dev.parked == Some(Parked(s.dev.driver.openArgs, args))
            && s'.view.running && s'.view.uhdArgs == args
  {
    DrainTwo(s, input.cmds[0], input.cmds[1]);
    TickDevices(env, s, input);
  }

  /** Switching on again brings back whatever is parked under the view's arguments. */
  lemma StaleReturns(env: Env, s: State, args: string, input: Input)
    requires WellBehaved(input.decode) && input.cmds == [SetUhdEnabled(true)]
    requires s.view.running && s.view.uhdArgs == args
    requires s.dev.driver == Sim && s.dev.parked.Some? && s.dev.parked.value.filedAs == args
    ensures var s' := Tick(env, s, input);
            && s'.dev.driver == Uhd(s.dev.parked.value.openArgs) && !s'.view.rebuildDriver
            && s'.view.uhdArgs == s'.dev.activeArgs == args
  {
    DrainOne(s, input.cmds[0]);
    TickDevices(env, s, input);
  }

  lemma DrainOne(s: State, c: Command)
    ensures Drain(s, [c]) == Execute(s, c)
  {
    assert [c][1..] == [];
    assert Drain(Execute(s, c), []) == Execute(s, c);
  }

  lemma DrainTwo(s: State, c: Command, d: Command)
    ensures Drain(s, [c, d]) == Execute(Execute(s, c), d)
  {
    assert [c, d][1..] == [d];
    DrainOne(Execute(s, c), d);
  }
}
