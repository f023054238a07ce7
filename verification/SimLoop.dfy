/** The radio loop as an object whose fields are updated phase by phase. */
module SimLoop {
  import opened Bytes
  import opened Packet
  import opened App
  import opened Model
  import opened Radio

  class SimRadio {
    const env: Env
    const shared: ViewModel
    var node: MeshNode
    var driver: Driver
    var parked: Option<Parked>
    var activeArgs: string
    var produced: nat
    var nextTxAt: nat
    var nextBeaconAt: nat
    var prevIntervalMs: u64
    var curSf: u8
    var autoSeq: nat
    var draws: nat
    var rxBuffer: seq<Complex>

    ghost var live: int
    ghost var clashes: nat
    ghost var opens: nat
    ghost var delivered: seq<Complex>
    ghost var gone: seq<Drop>
    ghost var hist: seq<LogEntry>
    ghost var texts: Texts
    ghost var rx: Receptions
    ghost var pushed: seq<Push>

    ghost function DevicesNow(): Devices
      reads this`driver, this`parked, this`activeArgs, this`live, this`clashes, this`opens
    {
      Devices(driver, parked, activeArgs, live, clashes, opens)
    }

    ghost function PaceNow(): Pace
      reads this`produced, this`nextTxAt, this`nextBeaconAt, this`prevIntervalMs
    {
      Pace(produced, nextTxAt, nextBeaconAt, prevIntervalMs)
    }

    ghost function Now(): State
      reads this, shared, node, node.dedup
    {
      State(shared.Value(), node.nodeId, node.dedup.entries, DevicesNow(), PaceNow(), curSf, autoSeq, draws,
            rxBuffer, delivered, gone, hist, texts, rx, pushed)
    }

    ghost predicate Valid()
      reads this, node
    {
      node.channel == env.channel
    }

    /** The part of the loop before its first tick. */
    constructor (env: Env, shared: ViewModel, uhdFound: bool, openOk: bool)
      requires shared.Value() == Initial(shared.nodeId, uhdFound)
      modifies shared
      ensures Valid() && this.shared == shared && this.env == env && fresh(node) && fresh(node.dedup)
      ensures Now() == Start(shared.nodeId, uhdFound, openOk)
    {
      this.env, this.shared := env, shared;
      node := new MeshNode.WithId(env.channel, shared.nodeId);
      if shared.useUhd && openOk {
        driver, live := Uhd(shared.uhdArgs), 1;
      } else {
        driver, live := Sim, 0;
      }
      parked, activeArgs, clashes, opens := None, "", 0, if shared.useUhd then 1 else 0;
      produced, nextTxAt, nextBeaconAt, prevIntervalMs := 0, SR_HZ, SR_HZ / 2, DEFAULT_INTERVAL_MS;
      curSf, autoSeq, draws, rxBuffer, delivered, gone := DEFAULT_SF, 0, 0, [], [], [];
      hist, texts, rx, pushed := [], Texts([], []), Receptions([], 0, 0), [];
      new;
      if shared.useUhd && !openOk {
        shared.useUhd := false;
      }
      shared.rebuildDriver := false;
    }

    method PushLogFull(e: LogEntry)
      requires Valid()
      modifies this`hist, shared`log
      ensures Valid() && Now() == Logged(old(Now()), e)
    {
      shared.log := shared.log + [e];
      if |shared.log| > MAX_LOG {
        shared.log := shared.log[1..];
      }
      hist := hist + [e];
    }

    method Note(ghost c: Command)
      requires Valid()
      modifies this`hist, this`texts, this`rx
      ensures Valid() && Now() == Noted(old(Now()), c)
    {
      ghost var s := Noted(Now(), c);
      hist, texts, rx := s.hist, s.texts, s.rx;
    }

    method Execute(c: Command)
      requires Valid()
      modifies this`hist, this`texts, this`rx, shared
      ensures Valid() && Now() == Radio.Execute(old(Now()), c)
    {
      shared.ApplyCommand(c);
      Note(c);
    }

    method DrainCommands(cmds: seq<Command>)
      requires Valid()
      modifies this`hist, this`texts, this`rx, shared
      ensures Valid() && Now() == Drain(old(Now()), cmds)
    {
      var i := 0;
      while i < |cmds|
        invariant 0 <= i <= |cmds| && Valid()
        invariant Drain(Now(), cmds[i..]) == Drain(old(Now()), cmds)
      {
        Execute(cmds[i]);
        assert cmds[i..][1..] == cmds[i + 1..];
        i := i + 1;
      }
    }

    method NodeRebuild()
      requires Valid()
      modifies this`node, this`hist, this`rx, shared`log, shared`rebuildNodes
      ensures Valid() && Now() == RebuildNode(old(Now()))
      ensures (node == old(node) && node.dedup == old(node.dedup)) || (fresh(node) && fresh(node.dedup))
    {
      var rebuild := shared.rebuildNodes;
      shared.rebuildNodes := false;
      if rebuild {
        node := new MeshNode.WithId(env.channel, shared.nodeId);
        rx := rx.(epoch := rx.epoch + 1);
        PushLogFull(Plain(System));
      }
    }

    method ReuseParked(args: string)
      requires parked.Some?
      modifies this`driver, this`parked, this`activeArgs, this`live
      ensures DevicesNow() == Unpark(old(DevicesNow()), args)
    {
      var device := parked.value;
      parked := None;
      if driver.Uhd? { live := live - 1; }
      driver := Uhd(device.openArgs);
      activeArgs := args;
    }

    /** Returns whether a device could be opened; `openOk` says whether opening would succeed now. */
    method OpenAfresh(args: string, openOk: bool) returns (ok: bool)
      modifies this`driver, this`parked, this`activeArgs, this`live, this`clashes, this`opens
      ensures ok == openOk && DevicesNow() == Reopen(old(DevicesNow()), args, openOk)
    {
      if parked.Some? { live := live - 1; }
      parked := None;
      if driver.Uhd? { live := live - 1; }
      driver := Sim;
      if live > 0 { clashes := clashes + 1; }
      opens := opens + 1;
      ok := openOk;
      if ok {
        driver := Uhd(args);
        live := live + 1;
      }
      activeArgs := args;
    }

    method ParkDriver(args: string)
      requires driver.Uhd?
      modifies this`driver, this`parked, this`live
      ensures DevicesNow() == ParkActive(old(DevicesNow()), args)
    {
      var device := driver;
      driver := Sim;
      if parked.Some? { live := live - 1; }
      parked := Some(Parked(device.openArgs, args));
    }

    /** UHD is asked for; returns whether it is up afterwards. */
    method BringUp(args: string, openOk: bool) returns (up: bool)
      modifies this`driver, this`parked, this`activeArgs, this`live, this`clashes, this`opens
      ensures (DevicesNow(), up) == Reconfigure(old(DevicesNow()), true, args, openOk)
    {
      up := true;
      if driver.Uhd? && activeArgs == args {
        return; // the active device is parked and unparked again
      }
      if parked.Some? && parked.value.filedAs == args {
        ReuseParked(args);
      } else {
        up := OpenAfresh(args, openOk);
      }
    }

    method SwitchToUhd(openOk: bool)
      requires Valid() && shared.useUhd
      modifies this`driver, this`parked, this`activeArgs, this`live, this`clashes, this`opens, shared`useUhd, shared`rebuildDriver
      ensures Valid() && Now() == Switched(old(Now()), openOk)
    {
      var up := BringUp(shared.uhdArgs, openOk);
      shared.useUhd := up;
      shared.rebuildDriver := false;
    }

    method SwitchToSim(ghost openOk: bool)
      requires Valid() && !shared.useUhd
      modifies this`driver, this`parked, this`live, shared`rebuildDriver
      ensures Valid() && Now() == Switched(old(Now()), openOk)
    {
      shared.rebuildDriver := false;
      if driver.Uhd? {
        ParkDriver(shared.uhdArgs);
      }
    }

    method ClearRx()
      requires Valid()
      modifies this`rxBuffer, this`delivered, this`gone
      ensures Valid() && Now() == EmptyRx(old(Now()))
    {
      rxBuffer := [];
      delivered, gone := [], [];
    }

    method RestartClock()
      requires Valid()
      modifies this`produced, this`nextTxAt, this`nextBeaconAt
      ensures Valid() && PaceNow() == NewClock(old(PaceNow()))
    {
      produced := 0;
      nextTxAt := SR_HZ;
      nextBeaconAt := SR_HZ / 2;
    }

    method StartOver()
      requires Valid()
      modifies this`rxBuffer, this`delivered, this`gone, this`produced, this`nextTxAt, this`nextBeaconAt
      ensures Valid() && Now() == ClockRestarted(EmptyRx(old(Now())))
    {
      RestartClock();
      ClearRx();
    }

    method DriverRebuild(openOk: bool)
      requires Valid()
      modifies this`driver, this`parked, this`activeArgs, this`live, this`clashes, this`opens, this`rxBuffer, this`delivered, this`gone,
               this`produced, this`nextTxAt, this`nextBeaconAt, shared`rebuildDriver, shared`useUhd
      ensures Valid() && Now() == RebuildDriver(old(Now()), openOk)
    {
      if shared.rebuildDriver {
        if shared.useUhd {
          SwitchToUhd(openOk);
        } else {
          SwitchToSim(openOk);
        }
        StartOver();
      }
    }

    method ReadIntervalNow()
      requires Valid()
      modifies this`prevIntervalMs, this`nextTxAt
      ensures Valid() && Now() == AdjustPacing(old(Now()))
    {
      var intervalMs := shared.intervalMs;
      var intervalSamples := IntervalSamples(intervalMs);
      if intervalMs != prevIntervalMs {
        prevIntervalMs := intervalMs;
        var earliest := produced + intervalSamples;
        if nextTxAt > earliest {
          nextTxAt := earliest;
        }
      }
    }

    method ReadSf()
      requires Valid()
      modifies this`curSf, this`rxBuffer, this`delivered, this`gone
      ensures Valid() && Now() == SyncSf(old(Now()))
    {
      if shared.sf != curSf {
        curSf := shared.sf;
        ClearRx();
      }
    }

    method ReadParameters()
      requires Valid()
      modifies this`prevIntervalMs, this`nextTxAt, this`curSf, this`rxBuffer, this`delivered, this`gone
      ensures Valid() && Now() == ReadParams(old(Now()))
    {
      ReadIntervalNow();
      ReadSf();
    }

    /** Everything a round does before it transmits. */
    method Prepare(input: Input)
      requires Valid()
      modifies this`node, this`hist, this`rx, this`driver, this`parked, this`activeArgs, this`live, this`clashes, this`opens,
               this`rxBuffer, this`delivered, this`gone, this`produced, this`nextTxAt, this`nextBeaconAt,
               this`prevIntervalMs, this`curSf, shared`log, shared`rebuildNodes, shared`rebuildDriver, shared`useUhd
      ensures Valid() && Now() == Prepared(old(Now()), input)
      ensures (node == old(node) && node.dedup == old(node.dedup)) || (fresh(node) && fresh(node.dedup))
    {
      NodeRebuild();
      DriverRebuild(input.openOk);
      ReadParameters();
    }

    method BuildOne(to: u32, data: Data) returns (frame: Option<MeshFrame>)
      requires Valid()
      modifies this`draws
      ensures Valid() && frame == Radio.Build(env, old(Now()), to, data)
      ensures Now() == if frame.Some? then Drawn(old(Now())) else old(Now())
    {
      frame := node.Build(to, data, env.rand(draws));
      draws := if frame.Some? then draws + 1 else draws;
    }

    method ScheduleBeacon()
      requires Valid()
      modifies this`nextBeaconAt
      ensures Valid() && Now() == BeaconDue(old(Now()))
    {
      nextBeaconAt := produced + BEACON_INTERVAL;
    }

    method HandOver(p: Push)
      requires Valid()
      modifies this`pushed
      ensures Valid() && Now() == Radio.Transmit(old(Now()), p)
    {
      pushed := pushed + [p];
    }

    method SendBeacon()
      requires Valid()
      modifies this`nextBeaconAt, this`draws, this`pushed
      ensures Valid() && Now() == Beacon(env, old(Now()))
    {
      if produced >= nextBeaconAt {
        ScheduleBeacon();
        if shared.mode != Listen {
          var frame := BuildOne(BROADCAST, env.userInfo);
          if frame.Some? { HandOver(PushBeacon(frame.value)); }
        }
      }
    }

    /** A message is on its way: one more counted, logged and handed to the driver. */
    method CountAndPush(p: Push)
      requires Valid()
      modifies this`hist, this`pushed, shared`txCount, shared`log
      ensures Valid() && Now() == Counted(old(Now()), p)
    {
      shared.txCount := Bump(shared.txCount);
      PushLogFull(Plain(Tx));
      HandOver(p);
    }

    method Settle(ghost fate: Fate)
      requires Valid()
      modifies this`texts
      ensures Valid() && Now() == Settled(old(Now()), fate)
    {
      texts := texts.(fates := texts.fates + [fate]);
    }

    method SendOneText(text: Text)
      requires Valid()
      modifies this`draws, this`texts, this`hist, this`pushed, shared`txCount, shared`log
      ensures Valid() && Now() == ManualText(env, old(Now()), text)
    {
      var frame := BuildOne(shared.txDest, TextData(text));
      if frame.Some? {
        Settle(Sent(shared.mode));
        CountAndPush(PushManual(frame.value, text));
      } else {
        Settle(Oversize(shared.mode));
      }
    }

    method SendManual()
      requires Valid()
      modifies this`draws, this`texts, this`hist, this`pushed, shared`txQueue, shared`txCount, shared`log
      ensures Valid() && Now() == ManualTx(env, old(Now()))
    {
      var manual := shared.txQueue;
      shared.txQueue := [];
      if shared.mode == Listen {
        ghost var mode := shared.mode;
        texts := texts.(fates := texts.fates + seq(|manual|, _ => Cleared(mode)));
        return;
      }
      ghost var start := Now();
      var i := 0;
      while i < |manual|
        invariant 0 <= i <= |manual| && Valid()
        invariant SendTexts(env, Now(), manual[i..]) == SendTexts(env, start, manual)
      {
        SendOneText(manual[i]);
        assert manual[i..][1..] == manual[i + 1..];
        i := i + 1;
      }
    }

    method ScheduleAuto()
      requires Valid()
      modifies this`nextTxAt, this`autoSeq
      ensures Valid() && Now() == AutoDue(old(Now()))
    {
      var intervalSamples := IntervalSamples(shared.intervalMs);
      nextTxAt := produced + intervalSamples;
      autoSeq := autoSeq + 1;
    }

    method SendTestText()
      requires Valid()
      modifies this`draws, this`hist, this`pushed, shared`txCount, shared`log
      ensures Valid() && Now() == AutoText(env, old(Now()))
    {
      var frame := BuildOne(shared.txDest, TextData(env.testText(autoSeq)));
      if frame.Some? {
        CountAndPush(PushAuto(frame.value, autoSeq));
      }
    }

    method SendAuto()
      requires Valid()
      modifies this`nextTxAt, this`autoSeq, this`draws, this`hist, this`pushed,
               shared`txCount, shared`log
      ensures Valid() && Now() == AutoTx(env, old(Now()))
    {
      if shared.mode != Listen && shared.autoTx && produced >= nextTxAt {
        ScheduleAuto();
        SendTestText();
      }
    }

    /** Everything a round sends before it receives: the beacon, the typed messages, the test message. */
    method Transmit()
      requires Valid()
      modifies this`nextBeaconAt, this`nextTxAt, this`autoSeq, this`draws, this`texts, this`hist, this`pushed,
               shared`txQueue, shared`txCount, shared`log
      ensures Valid() && Now() == Transmissions(env, old(Now()))
    {
      SendBeacon();
      SendManual();
      SendAuto();
    }

    method ExtendBuffer(mixed: seq<Complex>)
      requires Valid()
      modifies this`produced, this`rxBuffer, this`delivered
      ensures Valid() && Now() == Extend(old(Now()), mixed)
    {
      produced := produced + |mixed|;
      rxBuffer, delivered := rxBuffer + mixed, delivered + mixed;
    }

    method TrimBuffer()
      requires Valid()
      modifies this`rxBuffer, this`gone
      ensures Valid() && Now() == Trim(old(Now()))
    {
      if |rxBuffer| > MAX_RX_BUF {
        gone := gone + [Trimmed(|rxBuffer|)];
        var drain := |rxBuffer| - MAX_RX_BUF / 2;
        rxBuffer := rxBuffer[drain..];
      }
    }

    method CollectSamples(mixed: seq<Complex>)
      requires Valid()
      modifies this`produced, this`rxBuffer, this`delivered, this`gone
      ensures Valid() && Now() == Collect(old(Now()), mixed)
    {
      ExtendBuffer(mixed);
      TrimBuffer();
    }

    method ForwardFrame(p: Push)
      requires Valid()
      modifies this`pushed, this`hist, shared`log
      ensures Valid() && Now() == RelayOut(old(Now()), p)
    {
      if shared.mode != Listen {
        HandOver(p);
        PushLogFull(Plain(Fwd));
      }
    }

    method ReportMessage(msg: MeshMessage)
      requires Valid()
      modifies this`hist, shared`log, shared`rxCount
      ensures Valid() && Now() == LogMessage(old(Now()), msg)
    {
      if !msg.selfOrigin {
        shared.rxCount := Bump(shared.rxCount);
      }
      PushLogFull(LogEntry(Rx, Some(msg.from), Some(msg.hopLimit), msg.selfOrigin));
    }

    method ReceiveFrame(payload: seq<u8>)
      requires Valid()
      modifies this`rx, this`pushed, this`hist, shared`log, shared`rxCount, node.dedup
      ensures Valid() && Now() == HandleFrame(env, old(Now()), payload)
    {
      var r := node.ProcessRxFrame(payload);
      rx := rx.(all := rx.all + [Decoded(payload, shared.mode, rx.epoch)]);
      match r {
        case Done(Some(msg), fwd) =>
          ReportMessage(msg);
          if fwd.Some? {
            ForwardFrame(PushRelayOfDelivered(fwd.value));
          }
        case Done(None, Some(fwd)) => ForwardFrame(PushRelay(fwd));
        case Done(None, None) =>
        case _ => PushLogFull(Plain(Error));
      }
    }

    method Discard(consumed: nat)
      requires Valid() && consumed <= |rxBuffer|
      modifies this`rxBuffer, this`gone
      ensures Valid() && Now() == Consume(old(Now()), consumed)
    {
      rxBuffer := rxBuffer[consumed..];
      gone := gone + [Used(consumed)];
    }

    method ReportFailure()
      requires Valid()
      modifies this`rx, this`hist, shared`log
      ensures Valid() && Now() == Garbled(old(Now()))
    {
      rx := rx.(all := rx.all + [Failed]);
      PushLogFull(Plain(Error));
    }

    /** One answer of the receiver: drop what it consumed, then handle the frame or log the failure. */
    method HandleDecoded(r: StreamResult)
      requires Valid() && (!r.Nothing? ==> r.consumed <= |rxBuffer|)
      modifies this`rxBuffer, this`gone, this`rx, this`pushed, this`hist, shared`log, shared`rxCount, node.dedup
      ensures Valid() && Now() == HandleResult(env, old(Now()), r)
      ensures !r.Nothing? ==> rxBuffer == old(rxBuffer)[r.consumed..]
    {
      match r {
        case Ok(payload, consumed) =>
          Discard(consumed);
          ReceiveFrame(payload);
        case CrcFail(consumed) =>
          Discard(consumed);
          ReportFailure();
        case DecodeFailed(consumed) =>
          Discard(consumed);
          ReportFailure();
        case Nothing =>
      }
    }

    method Decode(decode: Decoder)
      requires Valid() && WellBehaved(decode)
      modifies this`rxBuffer, this`gone, this`rx, this`pushed, this`hist, shared`log, shared`rxCount, node.dedup
      ensures Valid() && Now() == DecodeLoop(env, old(Now()), decode, 0)
    {
      var k := 0;
      var r := decode(k, rxBuffer);
      while !r.Nothing?
        invariant Valid() && r == decode(k, rxBuffer)
        invariant DecodeLoop(env, Now(), decode, k) == DecodeLoop(env, old(Now()), decode, 0)
        decreases |rxBuffer|
      {
        HandleDecoded(r);
        k := k + 1;
        r := decode(k, rxBuffer);
      }
    }

    /** One round of the loop. */
    method RunTick(input: Input)
      requires Valid() && WellBehaved(input.decode)
      modifies this, shared, node.dedup
      ensures Valid() && Now() == Tick(env, old(Now()), input)
      ensures (node == old(node) && node.dedup == old(node.dedup)) || (fresh(node) && fresh(node.dedup))
    {
      DrainCommands(input.cmds);
      if !shared.running {
        return;
      }
      Prepare(input);
      Transmit();
      CollectSamples(input.mixed);
      Decode(input.decode);
    }
  }
}
