/**
 The receive side of the radio loop, told by the decode attempts alone: which frames are relayed
 and reported, over single frames, ticks and whole runs, and what becomes of the samples.
 */
module Receiving {
  import opened Bytes
  import opened Packet
  import opened Router
  import opened App
  import opened Model
  import opened Radio
  import opened RadioSafety

  // ---- One frame ----

  /** The bytes reach the dedup cache, and their key is not in it. */
  predicate NewTo(ch: Channel, cache: seq<PacketKey>, raw: seq<u8>) {
    Heard(ch, raw).Some? && Heard(ch, raw).value !in cache
  }

  /** A new foreign packet with hops left that is not both for us and unreadable. */
  predicate Relayable(ch: Channel, nodeId: u32, cache: seq<PacketKey>, raw: seq<u8>) {
    && NewTo(ch, cache, raw) && raw[12] % 8 > 0 && Heard(ch, raw).value.0 != nodeId
    && !UnreadableForUs(ch, nodeId, raw)
  }

  /** A new packet for us or for everyone with a readable body. */
  predicate Deliverable(ch: Channel, nodeId: u32, cache: seq<PacketKey>, raw: seq<u8>) {
    && NewTo(ch, cache, raw) && (FromLe(raw[0..4]) == nodeId || FromLe(raw[0..4]) == 0xFFFF_FFFF)
    && !Unreadable(ch, FromBytes(raw).value)
  }

  /** The node answers with an error. */
  predicate Faulty(ch: Channel, nodeId: u32, cache: seq<PacketKey>, raw: seq<u8>) {
    !Admitted(ch, raw) || (NewTo(ch, cache, raw) && UnreadableForUs(ch, nodeId, raw))
  }

  /** What one element of the list of transmissions is about. */
  datatype Sent = BeaconSent | TextSent(text: Text) | AutoSent(n: nat) | RelaySent(raw: seq<u8>)

  function SentOf(p: Push): Sent {
    match p
    case PushBeacon(_) => BeaconSent
    case PushManual(_, t) => TextSent(t)
    case PushAuto(_, n) => AutoSent(n)
    case PushRelayOfDelivered(f) => RelaySent(ToBytes(f))
    case PushRelay(f) => RelaySent(ToBytes(f))
  }

  function Outline(ps: seq<Push>): (os: seq<Sent>)
    ensures |os| == |ps|
  {
    seq(|ps|, i requires 0 <= i < |ps| => SentOf(ps[i]))
  }

  /** What goes out because of a frame: its bytes with one hop less and clear reserved bytes, or nothing. */
  function RelaysOf(ch: Channel, nodeId: u32, cache: seq<PacketKey>, mode: SimMode, raw: seq<u8>): seq<Sent> {
    if mode.Terminal? && Relayable(ch, nodeId, cache, raw) then [RelaySent(raw[12 := raw[12] - 1][14 := 0][15 := 0])] else []
  }

  /** What is logged because of a frame. */
  function LinesOf(ch: Channel, nodeId: u32, cache: seq<PacketKey>, mode: SimMode, raw: seq<u8>): seq<LogEntry> {
    (if Deliverable(ch, nodeId, cache, raw)
     then [LogEntry(Rx, Some(FromLe(raw[4..8])), Some(raw[12] % 8), FromLe(raw[4..8]) == nodeId)] else [])
    + (if mode.Terminal? && Relayable(ch, nodeId, cache, raw) then [LogEntry(Fwd, None, None, false)] else [])
    + (if Faulty(ch, nodeId, cache, raw) then [LogEntry(Error, None, None, false)] else [])
  }

  /** The same, read off the node's answer. */
  function AnswerRelays(r: RxResult, mode: SimMode): seq<Sent> {
    if r.Done? && r.fwd.Some? && mode.Terminal? then [RelaySent(ToBytes(r.fwd.value))] else []
  }

  function AnswerLines(r: RxResult, mode: SimMode): seq<LogEntry> {
    if !r.Done? then [LogEntry(Error, None, None, false)]
    else
      (if r.msg.Some? then [LogEntry(Rx, Some(r.msg.value.from), Some(r.msg.value.hopLimit), r.msg.value.selfOrigin)] else [])
      + (if r.fwd.Some? && mode.Terminal? then [LogEntry(Fwd, None, None, false)] else [])
  }

  lemma RelayOutEffect(s: State, p: Push)
    ensures var s' := RelayOut(s, p);
            if s.view.mode.Terminal?
            then s'.pushed == s.pushed + [p] && s'.hist == s.hist + [LogEntry(Fwd, None, None, false)]
            else s' == s
  {}

  lemma OutlineAppends(ps: seq<Push>, p: Push)
    ensures Outline(ps + [p]) == Outline(ps) + [SentOf(p)]
  {}

  lemma HandleAnswerEffect(s: State, r: RxResult)
    ensures HandleAnswer(s, r).hist == s.hist + AnswerLines(r, s.view.mode)
    ensures Outline(HandleAnswer(s, r).pushed) == Outline(s.pushed) + AnswerRelays(r, s.view.mode)
  {
    match r
    case Done(Some(msg), Some(fwd)) =>
      var m := LogMessage(s, msg);
      assert m.pushed == s.pushed && m.view.mode == s.view.mode;
      RelayOutEffect(m, PushRelayOfDelivered(fwd));
      OutlineAppends(s.pushed, PushRelayOfDelivered(fwd));
    case Done(None, Some(fwd)) =>
      RelayOutEffect(s, PushRelay(fwd));
      OutlineAppends(s.pushed, PushRelay(fwd));
    case _ =>
  }

  lemma AnswersMatch(ch: Channel, nodeId: u32, cache: seq<PacketKey>, mode: SimMode, raw: seq<u8>)
    ensures var r := ProcessRx(ch, nodeId, cache, raw).0;
            && AnswerLines(r, mode) == LinesOf(ch, nodeId, cache, mode, raw)
            && AnswerRelays(r, mode) == RelaysOf(ch, nodeId, cache, mode, raw)
  {
    RxExits(ch, nodeId, cache, raw);
    RxEffect(ch, nodeId, cache, raw);
    RxMessage(ch, nodeId, cache, raw);
  }

  /**
   One decoded frame. In Terminal mode exactly one relay, with the received bytes one hop on, and one
   Fwd line are added if and only if the frame is relayable; exactly one Rx line with sender and hops
   if and only if it is deliverable; exactly one Error line if and only if it is faulty; nothing else.
   */
  lemma HandleFrameEffect(env: Env, s: State, payload: seq<u8>)
    ensures var (ch, s') := (env.channel, HandleFrame(env, s, payload));
            && s'.hist == s.hist + LinesOf(ch, s.nodeId, s.cache, s.view.mode, payload)
            && Outline(s'.pushed) == Outline(s.pushed) + RelaysOf(ch, s.nodeId, s.cache, s.view.mode, payload)
            && s'.cache == (if Heard(ch, payload).Some? then Insert(s.cache, Heard(ch, payload).value) else s.cache)
            && s'.rx == s.rx.(all := s.rx.all + [Decoded(payload, s.view.mode, s.rx.epoch)])
  {
    var (r, cache) := ProcessRx(env.channel, s.nodeId, s.cache, payload);
    var s1 := Received(s, payload, cache);
    HandleAnswerFrame(s1, r);
    HandleAnswerEffect(s1, r);
    AnswersMatch(env.channel, s.nodeId, s.cache, s.view.mode, payload);
  }

  // ---- Decode attempts in order ----

  /** The keys looked up since the `epoch`-th node rebuild. */
  function HeardIn(ch: Channel, all: seq<Reception>, epoch: nat): seq<PacketKey> {
    if all == [] then []
    else
      var r := all[|all| - 1];
      HeardIn(ch, all[..|all| - 1], epoch)
      + if r.Decoded? && r.epoch == epoch && Heard(ch, r.payload).Some? then [Heard(ch, r.payload).value] else []
  }

  /** What is logged for an attempt, given those before it. */
  function LinesAt(ch: Channel, nodeId: u32, before: seq<Reception>, r: Reception): seq<LogEntry> {
    match r
    case Failed => [LogEntry(Error, None, None, false)]
    case Decoded(raw, mode, epoch) => LinesOf(ch, nodeId, CacheAfter(HeardIn(ch, before, epoch)), mode, raw)
  }

  function RelaysAt(ch: Channel, nodeId: u32, before: seq<Reception>, r: Reception): seq<Sent> {
    match r
    case Failed => []
    case Decoded(raw, mode, epoch) => RelaysOf(ch, nodeId, CacheAfter(HeardIn(ch, before, epoch)), mode, raw)
  }

  type Rule<T> = (seq<Reception>, Reception) -> seq<T>

  function LineRule(ch: Channel, nodeId: u32): Rule<LogEntry> {
    (before, r) => LinesAt(ch, nodeId, before, r)
  }

  function RelayRule(ch: Channel, nodeId: u32): Rule<Sent> {
    (before, r) => RelaysAt(ch, nodeId, before, r)
  }

  /** What the attempts from number `from` on give rise to, in order. */
  function Since<T>(all: seq<Reception>, from: nat, rule: Rule<T>): seq<T> {
    if |all| <= from then []
    else
      var last := |all| - 1;
      Since(all[..last], from, rule) + rule(all[..last], all[last])
  }

  lemma {:induction false} SinceSplit<T>(all: seq<Reception>, from: nat, mid: nat, rule: Rule<T>)
    requires from <= mid <= |all|
    ensures Since(all, from, rule) == Since(all[..mid], from, rule) + Since(all, mid, rule)
  {
    if mid < |all| {
      var before := all[..|all| - 1];
      SinceSplit(before, from, mid, rule);
      assert before[..mid] == all[..mid];
      Associate(Since(all[..mid], from, rule), Since(before, mid, rule), rule(before, all[|all| - 1]));
    } else {
      assert all[..mid] == all;
    }
  }

  lemma SinceLast<T>(all: seq<Reception>, r: Reception, rule: Rule<T>)
    ensures Since(all + [r], |all|, rule) == rule(all, r)
  {
    assert (all + [r])[..|all|] == all && Since(all, |all|, rule) == [];
  }

  /** The cache holds what lookups since the last rebuild leave in it. */
  ghost predicate CacheOk(ch: Channel, s: State) {
    && s.cache == CacheAfter(HeardIn(ch, s.rx.all, s.rx.epoch))
    && forall r :: r in s.rx.all && r.Decoded? ==> r.epoch <= s.rx.epoch
  }

  lemma {:induction false} FreshEpoch(ch: Channel, all: seq<Reception>, epoch: nat)
    requires forall r :: r in all && r.Decoded? ==> r.epoch < epoch
    ensures HeardIn(ch, all, epoch) == []
  {
    if all != [] {
      assert all[|all| - 1] in all;
      FreshEpoch(ch, all[..|all| - 1], epoch);
    }
  }

  lemma HeardLast(ch: Channel, all: seq<Reception>, r: Reception, epoch: nat)
    ensures HeardIn(ch, all + [r], epoch)
            == HeardIn(ch, all, epoch)
               + if r.Decoded? && r.epoch == epoch && Heard(ch, r.payload).Some? then [Heard(ch, r.payload).value] else []
  {
    assert (all + [r])[..|all|] == all;
  }

  lemma CacheAfterLast(keys: seq<PacketKey>, key: PacketKey)
    ensures CacheAfter(keys + [key]) == Insert(CacheAfter(keys), key)
  {
    assert (keys + [key])[..|keys|] == keys;
  }

  lemma LookupKeepsCache(ch: Channel, all: seq<Reception>, r: Reception)
    requires r.Decoded?
    ensures var (cache, key) := (CacheAfter(HeardIn(ch, all, r.epoch)), Heard(ch, r.payload));
            CacheAfter(HeardIn(ch, all + [r], r.epoch)) == if key.Some? then Insert(cache, key.value) else cache
  {
    var (keys, key) := (HeardIn(ch, all, r.epoch), Heard(ch, r.payload));
    HeardLast(ch, all, r, r.epoch);
    if key.Some? { CacheAfterLast(keys, key.value); } else { assert keys + [] == keys; }
  }

  /** The history after one more attempt. */
  function Attempt(s: State, r: StreamResult): Reception
    requires !r.Nothing?
  {
    if r.Ok? then Decoded(r.payload, s.view.mode, s.rx.epoch) else Failed
  }

  /** From `s` to `s'` the attempt `r` has been dealt with. */
  ghost predicate Dealt(env: Env, s: State, s': State, r: StreamResult)
    requires !r.Nothing? && r.consumed <= |s.rxBuffer|
  {
    && s'.rx == s.rx.(all := s.rx.all + [Attempt(s, r)])
    && s'.rxBuffer == s.rxBuffer[r.consumed..] && s'.gone == s.gone + [Used(r.consumed)]
    && s'.hist == s.hist + LinesAt(env.channel, s.nodeId, s.rx.all, Attempt(s, r))
    && Outline(s'.pushed) == Outline(s.pushed) + RelaysAt(env.channel, s.nodeId, s.rx.all, Attempt(s, r))
    && s'.view.mode == s.view.mode && s'.nodeId == s.nodeId
  }

  lemma FrameDealt(env: Env, s: State, n: nat, payload: seq<u8>)
    requires n <= |s.rxBuffer| && CacheOk(env.channel, s)
    ensures var s' := HandleFrame(env, Consume(s, n), payload);
            Dealt(env, s, s', Ok(payload, n)) && CacheOk(env.channel, s')
  {
    var c := Consume(s, n);
    HandleFrameEffect(env, c, payload);
    HandleFrameFrame(env, c, payload);
    HandleFrameGone(env, c, payload);
    LookupKeepsCache(env.channel, s.rx.all, Decoded(payload, s.view.mode, s.rx.epoch));
  }

  lemma HandleFrameGone(env: Env, s: State, payload: seq<u8>)
    ensures HandleFrame(env, s, payload).gone == s.gone
  {
    var (r, cache) := ProcessRx(env.channel, s.nodeId, s.cache, payload);
    HandleAnswerFrame(Received(s, payload, cache), r);
  }

  lemma GarbledDealt(env: Env, s: State, r: StreamResult)
    requires (r.CrcFail? || r.DecodeFailed?) && r.consumed <= |s.rxBuffer| && CacheOk(env.channel, s)
    ensures var s' := Garbled(Consume(s, r.consumed)); Dealt(env, s, s', r) && CacheOk(env.channel, s')
  {
    HeardLast(env.channel, s.rx.all, Failed, s.rx.epoch);
    assert HeardIn(env.channel, s.rx.all, s.rx.epoch) + [] == HeardIn(env.channel, s.rx.all, s.rx.epoch);
    assert Outline(s.pushed) + [] == Outline(s.pushed);
  }

  /** Every attempt that consumes samples is dealt with. */
  lemma HandleResultDeals(env: Env, s: State, r: StreamResult)
    requires !r.Nothing? && r.consumed <= |s.rxBuffer| && CacheOk(env.channel, s)
    ensures Dealt(env, s, HandleResult(env, s, r), r) && CacheOk(env.channel, HandleResult(env, s, r))
  {
    if r.Ok? { FrameDealt(env, s, r.consumed, r.payload); } else { GarbledDealt(env, s, r); }
  }

  // ---- The decode loop ----

  /** The receiver's answers to attempts `k`, `k + 1`, ... on a buffer that shrinks by what they consume. */
  function Answers(decode: Decoder, buf: seq<Complex>, k: nat): seq<StreamResult>
    requires WellBehaved(decode)
    decreases |buf|
  {
    var r := decode(k, buf);
    if r.Nothing? then [] else [r] + Answers(decode, buf[r.consumed..], k + 1)
  }

  function Consumed(rs: seq<StreamResult>): nat {
    if rs == [] then 0 else (if rs[0].Nothing? then 0 else rs[0].consumed) + Consumed(rs[1..])
  }

  function UsedBy(rs: seq<StreamResult>): seq<Drop> {
    if rs == [] then [] else (if rs[0].Nothing? then [] else [Used(rs[0].consumed)]) + UsedBy(rs[1..])
  }

  function Attempts(rs: seq<StreamResult>, mode: SimMode, epoch: nat): seq<Reception> {
    if rs == [] then []
    else [if rs[0].Ok? then Decoded(rs[0].payload, mode, epoch) else Failed] + Attempts(rs[1..], mode, epoch)
  }

  /** From `s` to `s'` the attempts `rs` have been dealt with in order. */
  ghost predicate AllDealt(env: Env, s: State, s': State, rs: seq<StreamResult>) {
    && s'.rx == s.rx.(all := s.rx.all + Attempts(rs, s.view.mode, s.rx.epoch))
    && Consumed(rs) <= |s.rxBuffer| && s'.rxBuffer == s.rxBuffer[Consumed(rs)..] && s'.gone == s.gone + UsedBy(rs)
    && s'.hist == s.hist + Since(s'.rx.all, |s.rx.all|, LineRule(env.channel, s.nodeId))
    && Outline(s'.pushed) == Outline(s.pushed) + Since(s'.rx.all, |s.rx.all|, RelayRule(env.channel, s.nodeId))
  }

  lemma Associate<T>(a: seq<T>, b: seq<T>, c: seq<T>)
    ensures a + b + c == a + (b + c)
  {}

  /** What one attempt and the attempts after it give rise to, joined. */
  lemma JoinRules<T>(all: seq<Reception>, a: Reception, more: seq<Reception>, rule: Rule<T>)
    ensures Since(all + [a] + more, |all|, rule) == rule(all, a) + Since(all + [a] + more, |all| + 1, rule)
  {
    var total := all + [a] + more;
    SinceSplit(total, |all|, |all| + 1, rule);
    assert total[..|all| + 1] == all + [a];
    SinceLast(all, a, rule);
  }

  /** The attempt's own effect, then that of the rest. */
  lemma JoinEffects<T>(was: seq<T>, now: seq<T>, all: seq<Reception>, a: Reception, more: seq<Reception>, rule: Rule<T>)
    requires now == was + rule(all, a) + Since(all + [a] + more, |all| + 1, rule)
    ensures now == was + Since(all + [a] + more, |all|, rule)
  {
    JoinRules(all, a, more, rule);
    Associate(was, rule(all, a), Since(all + [a] + more, |all| + 1, rule));
  }

  lemma JoinSamples(s: State, r: StreamResult, rs: seq<StreamResult>, mode: SimMode, epoch: nat)
    requires !r.Nothing? && r.consumed <= |s.rxBuffer| && Consumed(rs) <= |s.rxBuffer[r.consumed..]|
    ensures Consumed([r] + rs) == r.consumed + Consumed(rs)
    ensures s.rxBuffer[r.consumed..][Consumed(rs)..] == s.rxBuffer[Consumed([r] + rs)..]
    ensures s.gone + [Used(r.consumed)] + UsedBy(rs) == s.gone + UsedBy([r] + rs)
    ensures Attempts([r] + rs, mode, epoch) == [if r.Ok? then Decoded(r.payload, mode, epoch) else Failed] + Attempts(rs, mode, epoch)
  {
    assert ([r] + rs)[1..] == rs;
  }

  lemma DealtThenAll(env: Env, s: State, m: State, s': State, r: StreamResult, rs: seq<StreamResult>)
    requires !r.Nothing? && r.consumed <= |s.rxBuffer| && Dealt(env, s, m, r) && AllDealt(env, m, s', rs)
    ensures AllDealt(env, s, s', [r] + rs)
  {
    var (a, all, more) := (Attempt(s, r), s.rx.all, Attempts(rs, s.view.mode, s.rx.epoch));
    JoinSamples(s, r, rs, s.view.mode, s.rx.epoch);
    Associate(all, [a], more);
    JoinEffects(s.hist, s'.hist, all, a, more, LineRule(env.channel, s.nodeId));
    JoinEffects(Outline(s.pushed), Outline(s'.pushed), all, a, more, RelayRule(env.channel, s.nodeId));
  }

  lemma {:induction false} DecodeDeals(env: Env, s: State, decode: Decoder, k: nat)
    requires WellBehaved(decode) && CacheOk(env.channel, s)
    ensures var s' := DecodeLoop(env, s, decode, k);
            AllDealt(env, s, s', Answers(decode, s.rxBuffer, k)) && CacheOk(env.channel, s')
    decreases |s.rxBuffer|
  {
    var r := decode(k, s.rxBuffer);
    if r.Nothing? {
      NoneDealt(env, s);
    } else {
      var m := HandleResult(env, s, r);
      HandleResultDeals(env, s, r);
      DecodeDeals(env, m, decode, k + 1);
      DealtThenAll(env, s, m, DecodeLoop(env, m, decode, k + 1), r, Answers(decode, m.rxBuffer, k + 1));
    }
  }

  lemma NoneDealt(env: Env, s: State)
    ensures AllDealt(env, s, s, [])
  {
    assert s.rx.all + [] == s.rx.all && s.hist + [] == s.hist && s.gone + [] == s.gone;
    assert Outline(s.pushed) + [] == Outline(s.pushed);
  }
}
