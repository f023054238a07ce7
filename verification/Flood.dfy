/**
 Termination of the flood. Nothing is assumed about the bytes in the air, the dedup caches or
 the codec: duplicates, foreign frames, evicted keys and rebuilt nodes are all allowed.
 */
module Flood {
  import opened Bytes
  import opened Packet
  import opened Router
  import opened App
  import opened Network

  /** An upper bound on the receptions one copy with `h` hops left can cause among `n` nodes. */
  function Weight(n: nat, h: nat): (w: nat)
    ensures w >= 1
  {
    if h == 0 then 1 else 1 + n * Weight(n, h - 1)
  }

  function HopsLeft(raw: seq<u8>): nat {
    if |raw| < HEADER_LEN then 0 else raw[12] % 8
  }

  function TotalWeight(n: nat, cs: seq<Copy>): nat {
    if cs == [] then 0 else Weight(n, HopsLeft(cs[0].raw)) + TotalWeight(n, cs[1..])
  }

  lemma {:induction false} TotalAppend(n: nat, a: seq<Copy>, b: seq<Copy>)
    ensures TotalWeight(n, a + b) == TotalWeight(n, a) + TotalWeight(n, b)
  {
    if a == [] {
      assert a + b == b;
    } else {
      assert (a + b)[1..] == a[1..] + b;
      TotalAppend(n, a[1..], b);
    }
  }

  lemma TotalWithout(n: nat, cs: seq<Copy>, k: nat)
    requires k < |cs|
    ensures TotalWeight(n, cs) == TotalWeight(n, Without(cs, k)) + Weight(n, HopsLeft(cs[k].raw))
  {
    TotalAppend(n, cs[..k], cs[k..]);
    TotalAppend(n, cs[..k], cs[k + 1..]);
    assert cs == cs[..k] + cs[k..] && cs[k..][1..] == cs[k + 1..];
  }

  lemma {:induction false} TotalSame(n: nat, cs: seq<Copy>, h: nat)
    requires forall k :: 0 <= k < |cs| ==> HopsLeft(cs[k].raw) == h
    ensures TotalWeight(n, cs) == |cs| * Weight(n, h)
  {
    if cs != [] {
      TotalSame(n, cs[1..], h);
      assert (|cs| - 1) * Weight(n, h) + Weight(n, h) == |cs| * Weight(n, h);
    }
  }

  lemma {:induction false} BelowCardinality(s: set<nat>, n: nat)
    requires forall x :: x in s ==> x < n
    ensures |s| <= n
  {
    if n == 0 {
      assert s == {};
    } else {
      BelowCardinality(s - {n - 1}, n - 1);
    }
  }

  /** A transmission reaches at most all nodes. */
  lemma FanOut(mesh: Mesh, m: nat)
    requires mesh.WellFormed() && m < |mesh.ids|
    ensures |mesh.listeners[m]| <= |mesh.ids|
  {
    NoRepeatsCardinality(mesh.listeners[m]);
    BelowCardinality(Elements(mesh.listeners[m]), |mesh.ids|);
  }

  lemma ProductMonotone(a: nat, b: nat, w: nat)
    requires a <= b
    ensures a * w <= b * w
  {}

  /** One transmission by node `m` with `h` hops left adds at most N * Weight(h). */
  lemma TransmissionWeight(mesh: Mesh, m: nat, raw: seq<u8>, orig: Origination, path: seq<nat>)
    requires mesh.WellFormed() && m < |mesh.ids|
    ensures TotalWeight(|mesh.ids|, Copies(mesh.listeners[m], raw, orig, path))
            <= |mesh.ids| * Weight(|mesh.ids|, HopsLeft(raw))
  {
    FanOut(mesh, m);
    TotalSame(|mesh.ids|, Copies(mesh.listeners[m], raw, orig, path), HopsLeft(raw));
    ProductMonotone(|mesh.listeners[m]|, |mesh.ids|, Weight(|mesh.ids|, HopsLeft(raw)));
  }

  lemma OneHopLess(raw: seq<u8>, g: seq<u8>)
    requires |raw| >= HEADER_LEN && raw[12] % 8 > 0 && g == raw[12 := raw[12] - 1][14 := 0][15 := 0]
    ensures HopsLeft(g) + 1 == HopsLeft(raw)
  {
    assert g[12] == raw[12] - 1;
  }

  lemma RelaySpendsHop(ch: Channel, nodeId: u32, cache: seq<PacketKey>, raw: seq<u8>)
    ensures var (r, _) := ProcessRx(ch, nodeId, cache, raw);
            r.Done? && r.fwd.Some? ==> HopsLeft(ToBytes(r.fwd.value)) + 1 == HopsLeft(raw)
  {
    RxEffect(ch, nodeId, cache, raw);
    var (r, _) := ProcessRx(ch, nodeId, cache, raw);
    if r.Done? && r.fwd.Some? { OneHopLess(raw, ToBytes(r.fwd.value)); }
  }

  /** A relay of bytes with one hop less adds strictly less weight than the relayed bytes had. */
  lemma RelayWeight(mesh: Mesh, flight: seq<Copy>, c: Copy, raw: seq<u8>)
    requires mesh.WellFormed() && c.dest < |mesh.ids| && HopsLeft(raw) + 1 == HopsLeft(c.raw)
    ensures var (n, added) := (|mesh.ids|, Copies(mesh.listeners[c.dest], raw, c.orig, c.path + [c.dest]));
            TotalWeight(n, flight + added) <= TotalWeight(n, flight) + Weight(n, HopsLeft(c.raw)) - 1
  {
    var path := c.path + [c.dest];
    TransmissionWeight(mesh, c.dest, raw, c.orig, path);
    TotalAppend(|mesh.ids|, flight, Copies(mesh.listeners[c.dest], raw, c.orig, path));
  }

  /** What a reception, whatever the answer, does to the air and to the counts. */
  lemma AbsorbFlight(mesh: Mesh, net: Net, c: Copy, heard: Option<PacketKey>, r: RxResult, cache: seq<PacketKey>)
    requires c.dest < |net.nodes| && c.dest < |mesh.listeners|
    ensures var net' := Absorb(mesh, net, c, heard, r, cache);
            && net'.received == net.received + 1 && net'.lost == net.lost && |net'.nodes| == |net.nodes|
            && net'.flight == if r.Done? && r.fwd.Some?
                              then net.flight + Copies(mesh.listeners[c.dest], ToBytes(r.fwd.value), c.orig, c.path + [c.dest])
                              else net.flight
  {
    assert (c.path + [c.dest])[|c.path|] == c.dest;
  }

  /** Receiving a copy adds strictly less weight than the copy had. */
  lemma ReceiveLowersWeight(mesh: Mesh, net: Net, c: Copy)
    requires mesh.WellFormed() && |net.nodes| == |mesh.ids| && c.dest < |net.nodes|
    ensures var net' := ReceiveCopy(mesh, net, c);
            && TotalWeight(|mesh.ids|, net'.flight)
               <= TotalWeight(|mesh.ids|, net.flight) + Weight(|mesh.ids|, HopsLeft(c.raw)) - 1
            && net'.received == net.received + 1 && net'.lost == net.lost && |net'.nodes| == |net.nodes|
  {
    var (r, cache) := ProcessRx(mesh.channel, mesh.ids[c.dest], net.nodes[c.dest].cache, c.raw);
    AbsorbFlight(mesh, net, c, Heard(mesh.channel, c.raw), r, cache);
    if r.Done? && r.fwd.Some? {
      RelaySpendsHop(mesh.channel, mesh.ids[c.dest], net.nodes[c.dest].cache, c.raw);
      RelayWeight(mesh, net.flight, c, ToBytes(r.fwd.value));
    }
  }

  /** The weight that the originations of `steps` may add. */
  function Originated(mesh: Mesh, steps: seq<Step>): nat {
    if steps == [] then 0
    else (if steps[0].Originate? && CanOriginate(mesh, steps[0].orig)
          then |mesh.ids| * Weight(|mesh.ids|, steps[0].orig.hops) else 0) + Originated(mesh, steps[1..])
  }

  /** Receptions and losses so far, plus those still to come. */
  function Spent(mesh: Mesh, net: Net): nat {
    net.received + net.lost + TotalWeight(|mesh.ids|, net.flight)
  }

  lemma OriginateWeight(mesh: Mesh, net: Net, o: Origination)
    requires mesh.WellFormed() && CanOriginate(mesh, o)
    ensures Spent(mesh, DoOriginate(mesh, net, o)) <= Spent(mesh, net) + |mesh.ids| * Weight(|mesh.ids|, o.hops)
  {
    var f := FrameFor(mesh.channel, mesh.ids[o.node], o.to, o.data, o.id, o.hops);
    assert HopsLeft(ToBytes(f)) == o.hops by { FlagsRoundTrip(f.header); }
    TransmissionWeight(mesh, o.node, ToBytes(f), o, [o.node]);
    TotalAppend(|mesh.ids|, net.flight, Copies(mesh.listeners[o.node], ToBytes(f), o, [o.node]));
  }

  lemma StepSpends(mesh: Mesh, net: Net, step: Step)
    requires mesh.WellFormed() && |net.nodes| == |mesh.ids|
    ensures var net' := Next(mesh, net, step);
            && Spent(mesh, net') <= Spent(mesh, net) + Originated(mesh, [step])
            && |net'.nodes| == |net.nodes|
            && ((step.Receive? || step.Lose?) && net' != net ==>
                  TotalWeight(|mesh.ids|, net'.flight) < TotalWeight(|mesh.ids|, net.flight))
  {
    match step
    case Originate(o) => if CanOriginate(mesh, o) { OriginateWeight(mesh, net, o); }
    case Receive(k) =>
      if k < |net.flight| && net.flight[k].dest < |net.nodes| {
        TotalWithout(|mesh.ids|, net.flight, k);
        ReceiveLowersWeight(mesh, net.(flight := Without(net.flight, k)), net.flight[k]);
      }
    case Lose(k) => if k < |net.flight| { TotalWithout(|mesh.ids|, net.flight, k); }
    case Rebuild(n) =>
  }

  /** In any run from any state, everything that can still happen to the copies in the air is paid for. */
  lemma {:induction false} FloodTerminates(mesh: Mesh, net: Net, steps: seq<Step>)
    requires mesh.WellFormed() && |net.nodes| == |mesh.ids|
    ensures Spent(mesh, Run(mesh, net, steps)) <= Spent(mesh, net) + Originated(mesh, steps)
    decreases |steps|
  {
    if steps != [] {
      StepSpends(mesh, net, steps[0]);
      FloodTerminates(mesh, Next(mesh, net, steps[0]), steps[1..]);
    }
  }

  lemma {:induction false} NoneOriginated(mesh: Mesh, steps: seq<Step>)
    requires forall k :: 0 <= k < |steps| ==> !steps[k].Originate?
    ensures Originated(mesh, steps) == 0
  {
    if steps != [] { NoneOriginated(mesh, steps[1..]); }
  }

  /** One packet of `build_frame` in a quiet network causes at most N + N^2 + N^3 + N^4 receptions. */
  lemma SingleFloodBound(mesh: Mesh, o: Origination, steps: seq<Step>)
    requires mesh.WellFormed() && CanOriginate(mesh, o) && o.hops == HOP_LIMIT
    requires forall k :: 0 <= k < |steps| ==> !steps[k].Originate?
    ensures var n := |mesh.ids|;
            Run(mesh, Next(mesh, Quiet(mesh), Originate(o)), steps).received <= n + n * n + n * n * n + n * n * n * n
  {
    var n := |mesh.ids|;
    StepSpends(mesh, Quiet(mesh), Originate(o));
    FloodTerminates(mesh, Next(mesh, Quiet(mesh), Originate(o)), steps);
    NoneOriginated(mesh, steps);
    Powers(n);
  }

  lemma Powers(n: nat)
    ensures n * Weight(n, HOP_LIMIT) == n + n * n + n * n * n + n * n * n * n
  {
    var (w1, w2) := (Weight(n, 1), Weight(n, 2));
    assert w1 == 1 + n by { assert Weight(n, 0) == 1; }
    assert w2 == 1 + n + n * n by { assert n * w1 == n + n * n; }
    assert Weight(n, 3) == 1 + n + n * n + n * n * n by { Distribute(n, 1, n, n * n); }
    Distribute(n, 1 + n, n * n, n * n * n);
    assert n * (1 + n) == n + n * n;
  }

  lemma Distribute(n: nat, a: nat, b: nat, c: nat)
    ensures n * (a + b + c) == n * a + n * b + n * c
  {}
}
