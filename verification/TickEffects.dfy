/**
 What one tick adds to transmissions, log, attempts and samples, told by its inputs, and what
 follows for whole runs.
 */
module TickEffects {
  import opened Bytes
  import opened Packet
  import opened Router
  import opened App
  import opened Model
  import opened Radio
  import opened Settings
  import opened RadioSafety
  import opened Receiving

  // ---- What is transmitted before the tick receives ----

  /** The texts that fit a frame, as transmissions. */
  function TextsSent(env: Env, ts: seq<Text>): seq<Sent> {
    if ts == [] then []
    else (if Fits(env, ts[0]) then [TextSent(ts[0])] else []) + TextsSent(env, ts[1..])
  }

  function TxLines(n: nat): (lines: seq<LogEntry>)
    ensures |lines| == n
  {
    if n == 0 then [] else [LogEntry(Tx, None, None, false)] + TxLines(n - 1)
  }

  lemma {:induction false} TxLinesAppend(m: nat, n: nat)
    ensures TxLines(m) + TxLines(n) == TxLines(m + n)
  {
    if m > 0 { TxLinesAppend(m - 1, n); }
  }

  /** From `s` to `s'` exactly `os` were transmitted and `lines` logged; nothing was received. */
  ghost predicate Transmitted(s: State, s': State, os: seq<Sent>, lines: seq<LogEntry>) {
    && Outline(s'.pushed) == Outline(s.pushed) + os && s'.hist == s.hist + lines
    && s'.rx == s.rx && s'.cache == s.cache && s'.nodeId == s.nodeId
    && s'.rxBuffer == s.rxBuffer && s'.delivered == s.delivered && s'.gone == s.gone
    && s'.view.mode == s.view.mode && s'.view.autoTx == s.view.autoTx
  }

  lemma TransmittedTwice(a: State, b: State, c: State, os: seq<Sent>, lines: seq<LogEntry>, os': seq<Sent>, lines': seq<LogEntry>)
    requires Transmitted(a, b, os, lines) && Transmitted(b, c, os', lines')
    ensures Transmitted(a, c, os + os', lines + lines')
  {}

  lemma NothingTransmitted(s: State)
    ensures Transmitted(s, s, [], [])
  {
    assert Outline(s.pushed) + [] == Outline(s.pushed) && s.hist + [] == s.hist;
  }

  function BeaconsSent(env: Env, due: bool): seq<Sent> {
    if due && BodyFits(env, env.userInfo) then [BeaconSent] else []
  }

  lemma BeaconSends(env: Env, s: State)
    ensures Transmitted(s, Beacon(env, s), BeaconsSent(env, BeaconDueNow(s)), [])
    ensures Beacon(env, s).view == s.view && Beacon(env, s).autoSeq == s.autoSeq
  {
    NothingTransmitted(s);
    var frame := Build(env, s, BROADCAST, env.userInfo);
    if frame.Some? { OutlineAppends(s.pushed, PushBeacon(frame.value)); }
  }

  lemma CountedSends(s: State, p: Push)
    ensures Transmitted(s, Counted(s, p), [SentOf(p)], TxLines(1))
  {
    OutlineAppends(s.pushed, p);
    assert TxLines(1) == [LogEntry(Tx, None, None, false)] + TxLines(0);
  }

  lemma ManualTextSends(env: Env, s: State, t: Text)
    ensures var fits := Fits(env, t);
            Transmitted(s, ManualText(env, s, t), if fits then [TextSent(t)] else [], TxLines(if fits then 1 else 0))
  {
    var frame := Build(env, s, s.view.txDest, TextData(t));
    if frame.None? {
      NothingTransmitted(s);
    } else {
      CountedSends(Settled(Drawn(s), Sent(s.view.mode)), PushManual(frame.value, t));
    }
  }

  lemma {:induction false} SendTextsSends(env: Env, s: State, ts: seq<Text>)
    ensures var os := TextsSent(env, ts); Transmitted(s, SendTexts(env, s, ts), os, TxLines(|os|))
    decreases |ts|
  {
    if ts == [] {
      NothingTransmitted(s);
    } else {
      var (m, rest) := (ManualText(env, s, ts[0]), TextsSent(env, ts[1..]));
      var os := if Fits(env, ts[0]) then [TextSent(ts[0])] else [];
      ManualTextSends(env, s, ts[0]);
      SendTextsSends(env, m, ts[1..]);
      TransmittedTwice(s, m, SendTexts(env, m, ts[1..]), os, TxLines(|os|), rest, TxLines(|rest|));
      TxLinesAppend(|os|, |rest|);
    }
  }

  lemma ManualSends(env: Env, s: State)
    ensures var os := if s.view.mode.Terminal? then TextsSent(env, s.view.txQueue) else [];
            Transmitted(s, ManualTx(env, s), os, TxLines(|os|))
  {
    if s.view.mode.Terminal? {
      SendTextsSends(env, s.(view := s.view.(txQueue := [])), s.view.txQueue);
    } else {
      NothingTransmitted(s);
    }
  }

  function AutosSent(env: Env, due: bool, n: nat): seq<Sent> {
    if due && Fits(env, env.testText(n)) then [AutoSent(n)] else []
  }

  lemma AutoSends(env: Env, s: State)
    ensures var os := AutosSent(env, AutoDueNow(s), s.autoSeq + 1);
            Transmitted(s, AutoTx(env, s), os, TxLines(|os|))
  {
    var d := AutoDue(s);
    var frame := Build(env, d, d.view.txDest, TextData(env.testText(d.autoSeq)));
    NothingTransmitted(s);
    if frame.Some? { CountedSends(Drawn(d), PushAuto(frame.value, d.autoSeq)); }
  }

  /** The typed messages and the test message of a tick, in this order. */
  function MessagesSent(env: Env, mode: SimMode, queue: seq<Text>, autoDue: bool, n: nat): seq<Sent> {
    (if mode.Terminal? then TextsSent(env, queue) else []) + AutosSent(env, autoDue, n)
  }

  predicate AutoDueNow(s: State) {
    s.view.mode.Terminal? && s.view.autoTx && s.pace.produced >= s.pace.nextTxAt
  }

  predicate BeaconDueNow(s: State) {
    s.view.mode.Terminal? && s.pace.produced >= s.pace.nextBeaconAt
  }

  lemma ManualKeepsDue(env: Env, s: State)
    ensures AutoDueNow(ManualTx(env, s)) == AutoDueNow(s) && ManualTx(env, s).autoSeq == s.autoSeq
  {
    ManualTxFrame(env, s);
  }

  /** The test message after the typed ones, which led from `s` to `m`. */
  lemma AutoAfter(env: Env, s: State, m: State, ts: seq<Sent>)
    requires Transmitted(s, m, ts, TxLines(|ts|)) && AutoDueNow(m) == AutoDueNow(s) && m.autoSeq == s.autoSeq
    ensures var os := ts + AutosSent(env, AutoDueNow(s), s.autoSeq + 1); Transmitted(s, AutoTx(env, m), os, TxLines(|os|))
  {
    var os := AutosSent(env, AutoDueNow(s), s.autoSeq + 1);
    AutoSends(env, m);
    TransmittedTwice(s, m, AutoTx(env, m), ts, TxLines(|ts|), os, TxLines(|os|));
    TxLinesAppend(|ts|, |os|);
  }

  lemma MessagesSend(env: Env, s: State)
    ensures var os := MessagesSent(env, s.view.mode, s.view.txQueue, AutoDueNow(s), s.autoSeq + 1);
            Transmitted(s, AutoTx(env, ManualTx(env, s)), os, TxLines(|os|))
  {
    ManualKeepsDue(env, s);
    ManualSends(env, s);
    AutoAfter(env, s, ManualTx(env, s), if s.view.mode.Terminal? then TextsSent(env, s.view.txQueue) else []);
  }

  /** Everything transmitted before the tick receives: beacon, typed messages, test message, in this order. */
  lemma TransmissionsSend(env: Env, s: State)
    ensures var os := MessagesSent(env, s.view.mode, s.view.txQueue, AutoDueNow(s), s.autoSeq + 1);
            Transmitted(s, Transmissions(env, s), BeaconsSent(env, BeaconDueNow(s)) + os, TxLines(|os|))
  {
    var (b, bs, os) := (Beacon(env, s), BeaconsSent(env, BeaconDueNow(s)), MessagesSent(env, s.view.mode, s.view.txQueue, AutoDueNow(s), s.autoSeq + 1));
    BeaconFrame(env, s);
    BeaconSends(env, s);
    MessagesSend(env, b);
    TransmittedTwice(s, b, Transmissions(env, s), bs, [], os, TxLines(|os|));
    assert [] + TxLines(|os|) == TxLines(|os|);
  }

  // ---- Before the transmissions ----

  /** The receive buffer is emptied by a new driver and by a new spreading factor. */
  predicate ClearsRx(s: State, v: View) {
    v.rebuildDriver || v.sf != s.curSf
  }

  /** `x`, unless the receive buffer is emptied. */
  function Kept<T>(s: State, v: View, x: seq<T>): seq<T> {
    if ClearsRx(s, v) then [] else x
  }

  /** Epoch and node id once a tick with this view has prepared itself. */
  function EpochIn(s: State, v: View): nat {
    if v.rebuildNodes then s.rx.epoch + 1 else s.rx.epoch
  }

  function NodeIn(s: State, v: View): u32 {
    if v.rebuildNodes then v.nodeId else s.nodeId
  }

  function NodeLines(v: View): seq<LogEntry> {
    if v.rebuildNodes then [LogEntry(System, None, None, false)] else []
  }

  lemma NodeState(s: State)
    ensures var (v, s') := (s.view, RebuildNode(s));
            && s'.rx == s.rx.(epoch := EpochIn(s, v))
            && s'.cache == (if v.rebuildNodes then [] else s.cache)
            && s'.nodeId == NodeIn(s, v) && s'.hist == s.hist + NodeLines(v)
            && s' == s.(view := v.(rebuildNodes := false, log := s'.view.log), rx := s'.rx, cache := s'.cache,
                        nodeId := s'.nodeId, hist := s'.hist)
  {
    assert s.hist + [] == s.hist;
  }

  lemma SetupState(s: State, openOk: bool)
    ensures var (v, s') := (s.view, ReadParams(RebuildDriver(s, openOk)));
            && s'.curSf == v.sf
            && s'.rxBuffer == Kept(s, v, s.rxBuffer)
            && s'.delivered == Kept(s, v, s.delivered)
            && s'.gone == Kept(s, v, s.gone)
            && s'.view == v.(useUhd := s'.view.useUhd, rebuildDriver := s'.view.rebuildDriver)
            && s' == s.(view := s'.view, dev := s'.dev, pace := s'.pace, curSf := s'.curSf,
                        rxBuffer := s'.rxBuffer, delivered := s'.delivered, gone := s'.gone)
  {}

  /** What preparing a tick does, apart from the devices and the dates. */
  ghost predicate Readied(s: State, s': State) {
    var v := s.view;
    && s'.pushed == s.pushed && s'.autoSeq == s.autoSeq && s'.texts == s.texts && s'.curSf == v.sf
    && s'.rx == s.rx.(epoch := EpochIn(s, v))
    && s'.cache == (if v.rebuildNodes then [] else s.cache)
    && s'.nodeId == NodeIn(s, v) && s'.hist == s.hist + NodeLines(v)
    && s'.rxBuffer == Kept(s, v, s.rxBuffer)
    && s'.delivered == Kept(s, v, s.delivered)
    && s'.gone == Kept(s, v, s.gone)
    && s'.view.mode == v.mode && s'.view.autoTx == v.autoTx && s'.view.txQueue == v.txQueue && s'.view.nodeId == v.nodeId
  }

  lemma PreparedState(s: State, input: Input)
    ensures Readied(s, Prepared(s, input))
  {
    NodeState(s);
    SetupState(RebuildNode(s), input.openOk);
  }

  lemma PreparedKeepsCache(ch: Channel, s: State, input: Input)
    requires CacheOk(ch, s)
    ensures CacheOk(ch, Prepared(s, input))
  {
    PreparedState(s, input);
    if s.view.rebuildNodes { FreshEpoch(ch, s.rx.all, s.rx.epoch + 1); }
  }

  // ---- Samples ----

  /** What is kept of `all` samples: everything, or if it is too much the latest two million. */
  function Latest2M(all: seq<Complex>): seq<Complex> {
    if |all| <= 4_000_000 then all else all[|all| - 2_000_000..]
  }

  /** New samples extend the buffer, and nothing is trimmed unless the total exceeds four million. */
  lemma CollectExtends(s: State, mixed: seq<Complex>)
    ensures var (s', all) := (Collect(s, mixed), s.rxBuffer + mixed);
            && s'.rxBuffer == Latest2M(all) && s'.delivered == s.delivered + mixed
            && s'.gone == s.gone + (if |all| > 4_000_000 then [Trimmed(|all|)] else [])
            && s' == s.(pace := s'.pace, rxBuffer := s'.rxBuffer, delivered := s'.delivered, gone := s'.gone)
  {
    assert s.gone + [] == s.gone;
  }

  // ---- The tick ----

  function TrimmedOf(total: nat): seq<Drop> {
    if total > 4_000_000 then [Trimmed(total)] else []
  }

  /** The buffer the receiver works on in a tick, if `kept` is left of the old one. */
  function Heap(kept: seq<Complex>, mixed: seq<Complex>): seq<Complex> {
    Latest2M(kept + mixed)
  }

  /** From `s` to `s'`: `os` were transmitted with `lines`, `mixed` was received, and the attempts `rs` were dealt with. */
  ghost predicate Worked(env: Env, s: State, s': State, os: seq<Sent>, lines: seq<LogEntry>, mixed: seq<Complex>,
                         rs: seq<StreamResult>) {
    var (n, heap) := (|s.rx.all|, Heap(s.rxBuffer, mixed));
    && Outline(s'.pushed) == Outline(s.pushed) + os + Since(s'.rx.all, n, RelayRule(env.channel, s.nodeId))
    && s'.hist == s.hist + lines + Since(s'.rx.all, n, LineRule(env.channel, s.nodeId))
    && s'.rx == s.rx.(all := s.rx.all + Attempts(rs, s.view.mode, s.rx.epoch))
    && Consumed(rs) <= |heap| && s'.rxBuffer == heap[Consumed(rs)..]
    && s'.delivered == s.delivered + mixed
    && s'.gone == s.gone + TrimmedOf(|s.rxBuffer + mixed|) + UsedBy(rs)
    && s'.nodeId == s.nodeId
  }

  lemma WorkedInOrder(env: Env, s: State, t: State, c: State, s': State, os: seq<Sent>, lines: seq<LogEntry>,
                      mixed: seq<Complex>, rs: seq<StreamResult>)
    requires Transmitted(s, t, os, lines) && c == Collect(t, mixed) && AllDealt(env, c, s', rs) && OnlyDecoded(c, s')
    ensures Worked(env, s, s', os, lines, mixed, rs)
  {
    CollectExtends(t, mixed);
  }

  lemma TailWorks(env: Env, s: State, input: Input)
    requires WellBehaved(input.decode) && CacheOk(env.channel, s)
    ensures var (s', os) := (Tail(env, s, input), MessagesSent(env, s.view.mode, s.view.txQueue, AutoDueNow(s), s.autoSeq + 1));
            && CacheOk(env.channel, s') && s'.curSf == s.curSf && s'.view.nodeId == s.view.nodeId
            && Worked(env, s, s', BeaconsSent(env, BeaconDueNow(s)) + os, TxLines(|os|), input.mixed,
                      Answers(input.decode, Heap(s.rxBuffer, input.mixed), 0))
  {
    var t := Transmissions(env, s);
    var c := Collect(t, input.mixed);
    var os := MessagesSent(env, s.view.mode, s.view.txQueue, AutoDueNow(s), s.autoSeq + 1);
    TransmissionsSend(env, s);
    CollectExtends(t, input.mixed);
    DecodeDeals(env, c, input.decode, 0);
    DecodeFrame(env, c, input.decode, 0);
    TailFrame(env, s, input);
    WorkedInOrder(env, s, t, c, Tail(env, s, input), BeaconsSent(env, BeaconDueNow(s)) + os, TxLines(|os|), input.mixed,
                  Answers(input.decode, c.rxBuffer, 0));
  }

  lemma DueWhenPrepared(s: State, input: Input)
    requires s.view.running
    ensures AutoDueNow(Prepared(s, input)) == AutoDueIn(s.pace, s.view)
    ensures BeaconDueNow(Prepared(s, input)) == (s.view.mode.Terminal? && BeaconDueIn(s.pace, s.view))
  {
    PreparedClock(s, input);
    PreparedSwitches(s, input);
  }

  /** What a tick that is not paused transmits before it receives. */
  function SentBy(env: Env, d: State): seq<Sent> {
    BeaconsSent(env, d.view.mode.Terminal? && BeaconDueIn(d.pace, d.view)) + MessagesBy(env, d)
  }

  function MessagesBy(env: Env, d: State): seq<Sent> {
    MessagesSent(env, d.view.mode, d.view.txQueue, AutoDueIn(d.pace, d.view), d.autoSeq + 1)
  }

  /** What is due by the view and the dates before a tick is what is due in `p`. */
  ghost predicate SendsAgree(env: Env, s: State, p: State) {
    && MessagesBy(env, s) == MessagesSent(env, p.view.mode, p.view.txQueue, AutoDueNow(p), p.autoSeq + 1)
    && SentBy(env, s) == BeaconsSent(env, BeaconDueNow(p)) + MessagesBy(env, s)
  }

  lemma PreparedSends(env: Env, s: State, input: Input)
    requires s.view.running
    ensures SendsAgree(env, s, Prepared(s, input))
  {
    PreparedState(s, input);
    DueWhenPrepared(s, input);
  }

  /** What the receiver answers in a tick with this view. */
  function AnswersTo(s: State, v: View, input: Input): seq<StreamResult>
    requires WellBehaved(input.decode)
  {
    Answers(input.decode, Heap(Kept(s, v, s.rxBuffer), input.mixed), 0)
  }

  lemma ReadiedWorks(env: Env, s: State, p: State, input: Input)
    requires WellBehaved(input.decode) && Readied(s, p) && CacheOk(env.channel, p) && SendsAgree(env, s, p)
    ensures var s' := Tail(env, p, input);
            && CacheOk(env.channel, s') && s'.curSf == s.view.sf && s'.view.nodeId == s.view.nodeId
            && Worked(env, p, s', SentBy(env, s), TxLines(|MessagesBy(env, s)|), input.mixed, AnswersTo(s, s.view, input))
  {
    TailWorks(env, p, input);
  }

  /** In terms of the state `d` after the commands: what is transmitted, logged and received. */
  ghost predicate SendsTold(env: Env, d: State, s': State) {
    Outline(s'.pushed) == Outline(d.pushed) + SentBy(env, d)
                          + Since(s'.rx.all, |d.rx.all|, RelayRule(env.channel, NodeIn(d, d.view)))
  }

  ghost predicate LogsTold(env: Env, d: State, s': State) {
    s'.hist == d.hist + NodeLines(d.view) + TxLines(|MessagesBy(env, d)|)
               + Since(s'.rx.all, |d.rx.all|, LineRule(env.channel, NodeIn(d, d.view)))
  }

  ghost predicate SamplesTold(d: State, s': State, mixed: seq<Complex>, rs: seq<StreamResult>) {
    var (v, kept) := (d.view, Kept(d, d.view, d.rxBuffer));
    && s'.rx == Receptions(d.rx.all + Attempts(rs, v.mode, EpochIn(d, v)), EpochIn(d, v), d.rx.since)
    && Consumed(rs) <= |Heap(kept, mixed)| && s'.rxBuffer == Heap(kept, mixed)[Consumed(rs)..]
    && s'.delivered == Kept(d, v, d.delivered) + mixed
    && s'.gone == Kept(d, v, d.gone) + TrimmedOf(|kept + mixed|) + UsedBy(rs)
    && s'.nodeId == NodeIn(d, v)
  }

  lemma WorkedSends(env: Env, d: State, p: State, s': State, lines: seq<LogEntry>, mixed: seq<Complex>, rs: seq<StreamResult>)
    requires Readied(d, p) && Worked(env, p, s', SentBy(env, d), lines, mixed, rs)
    ensures SendsTold(env, d, s')
  {}

  lemma WorkedLogs(env: Env, d: State, p: State, s': State, os: seq<Sent>, mixed: seq<Complex>, rs: seq<StreamResult>)
    requires Readied(d, p) && Worked(env, p, s', os, TxLines(|MessagesBy(env, d)|), mixed, rs)
    ensures LogsTold(env, d, s')
  {}

  lemma WorkedSamples(env: Env, d: State, p: State, s': State, os: seq<Sent>, lines: seq<LogEntry>, mixed: seq<Complex>,
                      rs: seq<StreamResult>)
    requires Readied(d, p) && Worked(env, p, s', os, lines, mixed, rs)
    ensures SamplesTold(d, s', mixed, rs)
  {}

  /** A tick that is not paused is told by the state after its commands and its inputs. */
  ghost predicate Ticked(env: Env, d: State, s': State, input: Input)
    requires WellBehaved(input.decode)
  {
    && SendsTold(env, d, s') && LogsTold(env, d, s') && SamplesTold(d, s', input.mixed, AnswersTo(d, d.view, input))
    && s'.curSf == d.view.sf && s'.view.nodeId == d.view.nodeId
  }

  lemma WorkedIsTicked(env: Env, d: State, p: State, s': State, input: Input)
    requires WellBehaved(input.decode) && Readied(d, p)
    requires Worked(env, p, s', SentBy(env, d), TxLines(|MessagesBy(env, d)|), input.mixed, AnswersTo(d, d.view, input))
    requires s'.curSf == d.view.sf && s'.view.nodeId == d.view.nodeId
    ensures Ticked(env, d, s', input)
  {
    var (os, lines, rs) := (SentBy(env, d), TxLines(|MessagesBy(env, d)|), AnswersTo(d, d.view, input));
    WorkedSends(env, d, p, s', lines, input.mixed, rs);
    WorkedLogs(env, d, p, s', os, input.mixed, rs);
    WorkedSamples(env, d, p, s', os, lines, input.mixed, rs);
  }

  lemma TickIsTicked(env: Env, s: State, input: Input)
    requires WellBehaved(input.decode) && CacheOk(env.channel, s)
    ensures var (d, s') := (Drain(s, input.cmds), Tick(env, s, input));
            && OnlyCommanded(s, d) && QueuesDrained(s, input.cmds, d) && CacheOk(env.channel, s')
            && if d.view.running then Ticked(env, d, s', input) else s' == d
  {
    var d := Drain(s, input.cmds);
    Drained(s, input.cmds);
    if d.view.running {
      var p := Prepared(d, input);
      PreparedState(d, input);
      PreparedKeepsCache(env.channel, d, input);
      PreparedSends(env, d, input);
      ReadiedWorks(env, d, p, input);
      WorkedIsTicked(env, d, p, Tail(env, p, input), input);
    }
  }

  // ---- Whole runs ----

  function Only<T>(s: seq<T>, keep: T -> bool): seq<T> {
    if s == [] then [] else Only(s[..|s| - 1], keep) + if keep(s[|s| - 1]) then [s[|s| - 1]] else []
  }

  lemma {:induction false} OnlyAppend<T>(a: seq<T>, b: seq<T>, keep: T -> bool)
    ensures Only(a + b, keep) == Only(a, keep) + Only(b, keep)
  {
    if b == [] {
      assert a + b == a;
    } else {
      var last := |b| - 1;
      OnlyAppend(a, b[..last], keep);
      assert (a + b)[..|a| + last] == a + b[..last];
    }
  }

  lemma {:induction false} OnlyAll<T>(s: seq<T>, keep: T -> bool)
    requires forall i :: 0 <= i < |s| ==> keep(s[i])
    ensures Only(s, keep) == s
  {
    if s != [] { OnlyAll(s[..|s| - 1], keep); }
  }

  lemma {:induction false} OnlyNone<T>(s: seq<T>, keep: T -> bool)
    requires forall i :: 0 <= i < |s| ==> !keep(s[i])
    ensures Only(s, keep) == []
  {
    if s != [] { OnlyNone(s[..|s| - 1], keep); }
  }

  predicate IsRelay(o: Sent) { o.RelaySent? }

  /** The lines that decode attempts call for. */
  predicate IsReport(e: LogEntry) { e.dir.Rx? || e.dir.Fwd? || e.dir.Error? }

  lemma {:induction false} RelaysAreRelays(all: seq<Reception>, from: nat, ch: Channel, nodeId: u32)
    ensures forall i :: 0 <= i < |Since(all, from, RelayRule(ch, nodeId))| ==> IsRelay(Since(all, from, RelayRule(ch, nodeId))[i])
  {
    if |all| > from { RelaysAreRelays(all[..|all| - 1], from, ch, nodeId); }
  }

  lemma {:induction false} ReportsAreReports(all: seq<Reception>, from: nat, ch: Channel, nodeId: u32)
    ensures forall i :: 0 <= i < |Since(all, from, LineRule(ch, nodeId))| ==> IsReport(Since(all, from, LineRule(ch, nodeId))[i])
  {
    if |all| > from { ReportsAreReports(all[..|all| - 1], from, ch, nodeId); }
  }

  lemma {:induction false} TextsAreNoRelays(env: Env, ts: seq<Text>)
    ensures forall i :: 0 <= i < |TextsSent(env, ts)| ==> !IsRelay(TextsSent(env, ts)[i])
  {
    if ts != [] { TextsAreNoRelays(env, ts[1..]); }
  }

  lemma NoRelaysBefore(env: Env, d: State)
    ensures Only(SentBy(env, d), IsRelay) == []
  {
    TextsAreNoRelays(env, d.view.txQueue);
    OnlyNone(SentBy(env, d), IsRelay);
  }

  lemma {:induction false} TxLinesAre(n: nat)
    ensures forall i :: 0 <= i < n ==> TxLines(n)[i] == LogEntry(Tx, None, None, false)
  {
    if n > 0 { TxLinesAre(n - 1); }
  }

  lemma NoReportsBefore(v: View, n: nat)
    ensures Only(NodeLines(v) + TxLines(n), IsReport) == []
  {
    TxLinesAre(n);
    OnlyNone(NodeLines(v) + TxLines(n), IsReport);
  }

  /** The relays ever sent and the reports since the last reset are exactly those the decode attempts call for. */
  ghost predicate ReportsOk(env: Env, s: State) {
    && s.nodeId == s.view.nodeId && s.rx.since <= |s.rx.all|
    && Only(Outline(s.pushed), IsRelay) == Since(s.rx.all, 0, RelayRule(env.channel, s.nodeId))
    && Only(s.hist, IsReport) == Since(s.rx.all, s.rx.since, LineRule(env.channel, s.nodeId))
  }

  lemma DrainKeepsReports(env: Env, s: State, cmds: seq<Command>, d: State)
    requires ReportsOk(env, s) && OnlyCommanded(s, d) && QueuesDrained(s, cmds, d) && d.view.nodeId == s.view.nodeId
    ensures ReportsOk(env, d)
  {}

  lemma OnlyAround<T>(was: seq<T>, between: seq<T>, rest: seq<T>, keep: T -> bool)
    requires Only(between, keep) == [] && Only(rest, keep) == rest
    ensures Only(was + between + rest, keep) == Only(was, keep) + rest
  {
    OnlyAppend(was + between, rest, keep);
    OnlyAppend(was, between, keep);
    assert Only(was, keep) + [] == Only(was, keep);
  }

  /** If what is kept of `was` is what the first attempts call for, the rest of the attempts extends it likewise. */
  lemma OnlyGrows<T>(was: seq<T>, between: seq<T>, now: seq<T>, keep: T -> bool, all: seq<Reception>, from: nat, n: nat, rule: Rule<T>)
    requires from <= n <= |all| && now == was + between + Since(all, n, rule)
    requires Only(was, keep) == Since(all[..n], from, rule) && Only(between, keep) == []
    requires Only(Since(all, n, rule), keep) == Since(all, n, rule)
    ensures Only(now, keep) == Since(all, from, rule)
  {
    OnlyAround(was, between, Since(all, n, rule), keep);
    SinceSplit(all, from, n, rule);
  }

  lemma ToldKeepsRelays(env: Env, d: State, s': State)
    requires ReportsOk(env, d) && SendsTold(env, d, s') && s'.nodeId == d.nodeId == NodeIn(d, d.view)
    requires |d.rx.all| <= |s'.rx.all| && s'.rx.all[..|d.rx.all|] == d.rx.all
    ensures Only(Outline(s'.pushed), IsRelay) == Since(s'.rx.all, 0, RelayRule(env.channel, s'.nodeId))
  {
    var (n, rule) := (|d.rx.all|, RelayRule(env.channel, d.nodeId));
    NoRelaysBefore(env, d);
    RelaysAreRelays(s'.rx.all, n, env.channel, d.nodeId);
    OnlyAll(Since(s'.rx.all, n, rule), IsRelay);
    OnlyGrows(Outline(d.pushed), SentBy(env, d), Outline(s'.pushed), IsRelay, s'.rx.all, 0, n, rule);
  }

  lemma ToldKeepsLines(env: Env, d: State, s': State)
    requires ReportsOk(env, d) && LogsTold(env, d, s') && s'.nodeId == d.nodeId == NodeIn(d, d.view)
    requires |d.rx.all| <= |s'.rx.all| && s'.rx.all[..|d.rx.all|] == d.rx.all
    ensures Only(s'.hist, IsReport) == Since(s'.rx.all, d.rx.since, LineRule(env.channel, s'.nodeId))
  {
    var (n, rule, k) := (|d.rx.all|, LineRule(env.channel, d.nodeId), |MessagesBy(env, d)|);
    Associate(d.hist, NodeLines(d.view), TxLines(k));
    NoReportsBefore(d.view, k);
    ReportsAreReports(s'.rx.all, n, env.channel, d.nodeId);
    OnlyAll(Since(s'.rx.all, n, rule), IsReport);
    OnlyGrows(d.hist, NodeLines(d.view) + TxLines(k), s'.hist, IsReport, s'.rx.all, d.rx.since, n, rule);
  }

  /** Every tick keeps all of this. */
  lemma TickKeepsReception(env: Env, s: State, input: Input)
    requires WellBehaved(input.decode) && CacheOk(env.channel, s) && ReportsOk(env, s)
    ensures var s' := Tick(env, s, input); CacheOk(env.channel, s') && ReportsOk(env, s')
  {
    var (d, s') := (Drain(s, input.cmds), Tick(env, s, input));
    TickIsTicked(env, s, input);
    Drained(s, input.cmds);
    DrainKeepsReports(env, s, input.cmds, d);
    if d.view.running {
      ToldKeepsRelays(env, d, s');
      ToldKeepsLines(env, d, s');
    }
  }

  lemma {:induction false} RunKeepsReception(env: Env, s: State, inputs: seq<Input>)
    requires forall i :: i in inputs ==> WellBehaved(i.decode)
    requires CacheOk(env.channel, s) && ReportsOk(env, s)
    ensures var s' := Run(env, s, inputs); CacheOk(env.channel, s') && ReportsOk(env, s')
    decreases |inputs|
  {
    if inputs != [] {
      assert inputs[0] in inputs;
      TickKeepsReception(env, s, inputs[0]);
      RunKeepsReception(env, Tick(env, s, inputs[0]), inputs[1..]);
    }
  }

  /**
   In every state of every run: the relays sent are, in order, exactly the decoded frames that were
   relayable while the mode was Terminal, one hop on; the Rx, Fwd and Error lines since the last reset
   are exactly those the decode attempts since then call for; and the cache is what the lookups since
   the last node rebuild leave.
   */
  lemma AlwaysReceives(env: Env, nodeId: u32, uhdFound: bool, openOk: bool, inputs: seq<Input>)
    requires forall i :: i in inputs ==> WellBehaved(i.decode)
    ensures var s := Run(env, Start(nodeId, uhdFound, openOk), inputs);
            && s.cache == CacheAfter(HeardIn(env.channel, s.rx.all, s.rx.epoch))
            && s.rx.since <= |s.rx.all|
            && Only(Outline(s.pushed), IsRelay) == Since(s.rx.all, 0, RelayRule(env.channel, nodeId))
            && Only(s.hist, IsReport) == Since(s.rx.all, s.rx.since, LineRule(env.channel, nodeId))
  {
    var s := Start(nodeId, uhdFound, openOk);
    RunKeepsReception(env, s, inputs);
    RunKeepsNode(env, s, inputs);
  }

  lemma {:induction false} RunKeepsNode(env: Env, s: State, inputs: seq<Input>)
    requires forall i :: i in inputs ==> WellBehaved(i.decode)
    requires CacheOk(env.channel, s) && ReportsOk(env, s)
    ensures Run(env, s, inputs).nodeId == s.nodeId
    decreases |inputs|
  {
    if inputs != [] {
      assert inputs[0] in inputs;
      TickKeepsReception(env, s, inputs[0]);
      TickIsTicked(env, s, inputs[0]);
      Drained(s, inputs[0].cmds);
      RunKeepsNode(env, Tick(env, s, inputs[0]), inputs[1..]);
    }
  }
}
