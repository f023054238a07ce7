/**
 The flood over a whole network of nodes: packets are originated, each transmission puts one
 copy per listener in the air, and copies are received or lost in any order. A copy carries,
 besides its bytes, the origination it stems from and the nodes that have transmitted it;
 neither is visible to the nodes.
 */
module Network {
  import opened Bytes
  import opened Packet
  import opened Router
  import opened App

  /** `listeners[m]` are the nodes that hear node `m`; `ids[m]` is its node id. */
  datatype Mesh = Mesh(channel: Channel, ids: seq<u32>, listeners: seq<seq<nat>>) {
    ghost predicate WellFormed() {
      && |ids| == |listeners|
      && forall m :: 0 <= m < |ids| ==> NoRepeats(listeners[m]) && forall d :: d in listeners[m] ==> d < |ids|
    }

    ghost predicate Valid() {
      WellFormed() && channel.codec.RoundTrips()
    }

    ghost predicate DistinctIds() {
      NoRepeats(ids)
    }

    predicate Hears(m: nat, d: nat) {
      m < |listeners| && d in listeners[m]
    }
  }

  /** One packet put on the air; `hops` is its initial hop limit (3 for `build_frame`). */
  datatype Origination = Origination(node: nat, to: u32, data: Data, id: u32, hops: u8)

  datatype Copy = Copy(dest: nat, raw: seq<u8>, orig: Origination, path: seq<nat>)

  /** `heard` lists the keys looked up in the cache since the node was last rebuilt, for the `epoch`-th time. */
  datatype Node = Node(cache: seq<PacketKey>, heard: seq<PacketKey>, epoch: nat)

  datatype Delivery = Delivery(node: nat, epoch: nat, msg: MeshMessage, orig: Origination, path: seq<nat>)
  datatype Relay = Relay(node: nat, epoch: nat, orig: Origination, path: seq<nat>)

  datatype Net = Net(
    nodes: seq<Node>,
    flight: seq<Copy>,
    origs: seq<Origination>,
    delivered: seq<Delivery>,
    relays: seq<Relay>,
    errors: nat,      // frames answered with Malformed, WrongChannel or Proto
    received: nat,
    lost: nat)

  datatype Step =
    | Originate(orig: Origination)
    | Receive(k: nat)
    | Lose(k: nat)
    | Rebuild(n: nat)

  function Quiet(mesh: Mesh): Net {
    Net(seq(|mesh.ids|, _ => Node([], [], 0)), [], [], [], [], 0, 0, 0)
  }

  function Key(mesh: Mesh, o: Origination): PacketKey
    requires o.node < |mesh.ids|
  {
    (mesh.ids[o.node], o.id)
  }

  /** One copy of `raw` for each node that hears the last node of `path`. */
  function Copies(listeners: seq<nat>, raw: seq<u8>, orig: Origination, path: seq<nat>): (cs: seq<Copy>)
    ensures |cs| == |listeners|
    ensures forall k :: 0 <= k < |cs| ==> cs[k] == Copy(listeners[k], raw, orig, path)
  {
    seq(|listeners|, k requires 0 <= k < |listeners| => Copy(listeners[k], raw, orig, path))
  }

  function Transmit(mesh: Mesh, net: Net, raw: seq<u8>, orig: Origination, path: seq<nat>): Net
    requires path != [] && path[|path| - 1] < |mesh.listeners|
  {
    net.(flight := net.flight + Copies(mesh.listeners[path[|path| - 1]], raw, orig, path))
  }

  /** What a node may originate: the hop limit fits its field and the encoded body fits a frame. */
  predicate CanOriginate(mesh: Mesh, o: Origination) {
    && o.node < |mesh.ids| && o.node < |mesh.listeners| && o.hops < 8
    && |mesh.channel.codec.encode(o.data)| <= MAX_PAYLOAD
  }

  function DoOriginate(mesh: Mesh, net: Net, o: Origination): Net
    requires CanOriginate(mesh, o)
  {
    var raw := ToBytes(FrameFor(mesh.channel, mesh.ids[o.node], o.to, o.data, o.id, o.hops));
    Transmit(mesh, net.(origs := net.origs + [o]), raw, o, [o.node])
  }

  /** With the node's own hop limit, what goes on the air is exactly what `build_frame` returns. */
  lemma OriginatesBuiltFrame(mesh: Mesh, net: Net, o: Origination)
    requires o.node < |mesh.ids| == |mesh.listeners| && o.hops == HOP_LIMIT
    ensures var frame := BuildFrame(mesh.channel, mesh.ids[o.node], o.to, o.data, o.id);
            && (CanOriginate(mesh, o) <==> frame.Some?)
            && (frame.Some? ==> DoOriginate(mesh, net, o).flight
                                == net.flight + Copies(mesh.listeners[o.node], ToBytes(frame.value), o, [o.node]))
  {}

  /** What follows from the node's answer `r` to the bytes of `c`; `heard` is the key it looked up, if any. */
  function Absorb(mesh: Mesh, net: Net, c: Copy, heard: Option<PacketKey>, r: RxResult, cache: seq<PacketKey>): Net
    requires c.dest < |net.nodes| && c.dest < |mesh.listeners|
  {
    var node := net.nodes[c.dest];
    var node' := Node(cache, if heard.Some? then node.heard + [heard.value] else node.heard, node.epoch);
    var net1 := net.(nodes := net.nodes[c.dest := node'], received := net.received + 1);
    if !r.Done? then net1.(errors := net1.errors + 1)
    else
      var net2 := if r.msg.None? then net1 else
                    net1.(delivered := net1.delivered + [Delivery(c.dest, node.epoch, r.msg.value, c.orig, c.path)]);
      if r.fwd.None? then net2
      else Transmit(mesh, net2.(relays := net2.relays + [Relay(c.dest, node.epoch, c.orig, c.path)]),
                    ToBytes(r.fwd.value), c.orig, c.path + [c.dest])
  }

  /** Node `c.dest` processes the bytes of `c`, which has already left the air. */
  function ReceiveCopy(mesh: Mesh, net: Net, c: Copy): Net
    requires c.dest < |net.nodes| && c.dest < |mesh.ids| && c.dest < |mesh.listeners|
  {
    var (r, cache) := ProcessRx(mesh.channel, mesh.ids[c.dest], net.nodes[c.dest].cache, c.raw);
    Absorb(mesh, net, c, Heard(mesh.channel, c.raw), r, cache)
  }

  function Without<T>(s: seq<T>, k: nat): seq<T>
    requires k < |s|
  {
    s[..k] + s[k + 1..]
  }

  /** One step of the network; a step that is not possible changes nothing. */
  function Next(mesh: Mesh, net: Net, step: Step): Net {
    match step
    case Originate(o) => if CanOriginate(mesh, o) then DoOriginate(mesh, net, o) else net
    case Receive(k) =>
      if k < |net.flight| && net.flight[k].dest < |net.nodes| && net.flight[k].dest < |mesh.ids|
         && net.flight[k].dest < |mesh.listeners|
      then ReceiveCopy(mesh, net.(flight := Without(net.flight, k)), net.flight[k]) else net
    case Lose(k) =>
      if k < |net.flight| then net.(flight := Without(net.flight, k), lost := net.lost + 1) else net
    case Rebuild(n) =>
      if n < |net.nodes| then net.(nodes := net.nodes[n := Node([], [], net.nodes[n].epoch + 1)]) else net
  }

  function Run(mesh: Mesh, net: Net, steps: seq<Step>): Net
    decreases |steps|
  {
    if steps == [] then net else Run(mesh, Next(mesh, net, steps[0]), steps[1..])
  }

  // ---- What every run keeps ----

  /** The bytes of `o` after its hop limit has dropped to `left`. */
  function BytesOf(mesh: Mesh, o: Origination, left: u8): seq<u8>
    requires o.node < |mesh.ids|
  {
    ToBytes(Hopped(mesh.channel, mesh.ids[o.node], o.to, o.data, o.id, o.hops, left))
  }

  /** `path` leads from the origin along links of the mesh, and is no longer than the hop limit allows. */
  ghost predicate Travelled(mesh: Mesh, o: Origination, path: seq<nat>) {
    && CanOriginate(mesh, o)
    && 1 <= |path| <= o.hops + 1
    && path[0] == o.node
    && forall i :: 0 < i < |path| ==> mesh.Hears(path[i - 1], path[i])
  }

  ghost predicate GoodCopy(mesh: Mesh, origs: seq<Origination>, c: Copy) {
    && c.orig in origs
    && Travelled(mesh, c.orig, c.path)
    && mesh.Hears(c.path[|c.path| - 1], c.dest)
    && c.raw == BytesOf(mesh, c.orig, c.orig.hops - (|c.path| - 1))
  }

  ghost predicate GoodDelivery(mesh: Mesh, origs: seq<Origination>, d: Delivery) {
    && d.orig in origs
    && Travelled(mesh, d.orig, d.path)
    && d.node < |mesh.ids|
    && mesh.Hears(d.path[|d.path| - 1], d.node)
    && (d.orig.to == mesh.ids[d.node] || d.orig.to == BROADCAST)
    && d.msg == MeshMessage(mesh.ids[d.orig.node], d.orig.to, d.orig.data, d.orig.hops - (|d.path| - 1),
                            mesh.ids[d.orig.node] == mesh.ids[d.node])
  }

  ghost predicate GoodRelay(mesh: Mesh, origs: seq<Origination>, r: Relay) {
    && r.orig in origs
    && Travelled(mesh, r.orig, r.path)
    && |r.path| <= r.orig.hops
    && r.node < |mesh.ids|
    && mesh.Hears(r.path[|r.path| - 1], r.node)
    && mesh.ids[r.node] != mesh.ids[r.orig.node]
  }

  ghost predicate GoodNode(node: Node) {
    node.cache == CacheAfter(node.heard)
  }

  /**
   End-to-end integrity, hop accounting and confinement to the links of the mesh: every copy in
   the air is a real packet with one hop spent per relay, every delivery hands the originated
   data to an addressee, and no node ever sees an unreadable frame.
   */
  ghost predicate Inv(mesh: Mesh, net: Net) {
    && mesh.Valid()
    && |net.nodes| == |mesh.ids|
    && (forall n :: 0 <= n < |net.nodes| ==> GoodNode(net.nodes[n]))
    && (forall c :: c in net.flight ==> GoodCopy(mesh, net.origs, c))
    && (forall d :: d in net.delivered ==> GoodDelivery(mesh, net.origs, d))
    && (forall r :: r in net.relays ==> GoodRelay(mesh, net.origs, r))
    && net.errors == 0
  }

  /** What receiving a copy of a real packet does, in terms of the packet alone. */
  function Received(mesh: Mesh, net: Net, c: Copy): Net
    requires |net.nodes| == |mesh.ids| == |mesh.listeners| && c.dest < |net.nodes| && CanOriginate(mesh, c.orig)
    requires 1 <= |c.path| <= c.orig.hops + 1
  {
    var (node, key, left) := (net.nodes[c.dest], Key(mesh, c.orig), c.orig.hops - (|c.path| - 1));
    var (me, src) := (mesh.ids[c.dest], key.0);
    var heard := net.(nodes := net.nodes[c.dest := Node(Insert(node.cache, key), node.heard + [key], node.epoch)],
                      received := net.received + 1);
    if key in node.cache then heard
    else
      var done := if c.orig.to != me && c.orig.to != BROADCAST then heard else
                    heard.(delivered := heard.delivered + [Delivery(c.dest, node.epoch,
                      MeshMessage(src, c.orig.to, c.orig.data, left, src == me), c.orig, c.path)]);
      if left == 0 || src == me then done
      else done.(relays := done.relays + [Relay(c.dest, node.epoch, c.orig, c.path)],
                 flight := done.flight + Copies(mesh.listeners[c.dest], BytesOf(mesh, c.orig, left - 1),
                                                c.orig, c.path + [c.dest]))
  }

  /** `r` and `cache'` are the right answer to a real packet. */
  ghost predicate RightAnswer(mesh: Mesh, c: Copy, cache: seq<PacketKey>, r: RxResult, cache': seq<PacketKey>)
    requires c.dest < |mesh.ids| && c.orig.node < |mesh.ids| && 1 <= |c.path| <= c.orig.hops + 1
  {
    var (key, left, me) := (Key(mesh, c.orig), c.orig.hops - (|c.path| - 1), mesh.ids[c.dest]);
    && r.Done? && cache' == Insert(cache, key)
    && r.msg == (if key !in cache && (c.orig.to == me || c.orig.to == BROADCAST)
                 then Some(MeshMessage(key.0, c.orig.to, c.orig.data, left, key.0 == me)) else None)
    && (r.fwd.Some? <==> key !in cache && left > 0 && key.0 != me)
    && (r.fwd.Some? ==> ToBytes(r.fwd.value) == BytesOf(mesh, c.orig, left - 1))
  }

  /** The node function gives the right answer to the bytes of a real packet. */
  lemma ProcessGood(mesh: Mesh, c: Copy, origs: seq<Origination>, cache: seq<PacketKey>)
    requires mesh.Valid() && GoodCopy(mesh, origs, c)
    ensures c.dest < |mesh.ids| && Heard(mesh.channel, c.raw) == Some(Key(mesh, c.orig))
    ensures var (r, cache') := ProcessRx(mesh.channel, mesh.ids[c.dest], cache, c.raw);
            RightAnswer(mesh, c, cache, r, cache')
  {
    var (o, left) := (c.orig, c.orig.hops - (|c.path| - 1));
    assert mesh.Hears(c.path[|c.path| - 1], c.dest);
    ReceiveBuilt(mesh.channel, mesh.ids[o.node], o.to, o.data, o.id, o.hops, left, mesh.ids[c.dest], cache);
  }

  lemma AbsorbRight(mesh: Mesh, net: Net, c: Copy, r: RxResult, cache': seq<PacketKey>)
    requires |net.nodes| == |mesh.ids| == |mesh.listeners| && c.dest < |net.nodes| && CanOriginate(mesh, c.orig)
    requires 1 <= |c.path| <= c.orig.hops + 1 && RightAnswer(mesh, c, net.nodes[c.dest].cache, r, cache')
    ensures Absorb(mesh, net, c, Some(Key(mesh, c.orig)), r, cache') == Received(mesh, net, c)
  {
    assert (c.path + [c.dest])[|c.path|] == c.dest;
  }

  lemma ReceiveGood(mesh: Mesh, net: Net, c: Copy, origs: seq<Origination>)
    requires mesh.Valid() && |net.nodes| == |mesh.ids| && GoodCopy(mesh, origs, c)
    ensures c.dest < |net.nodes| && ReceiveCopy(mesh, net, c) == Received(mesh, net, c)
  {
    assert mesh.Hears(c.path[|c.path| - 1], c.dest);
    var cache := net.nodes[c.dest].cache;
    ProcessGood(mesh, c, origs, cache);
    var (r, cache') := ProcessRx(mesh.channel, mesh.ids[c.dest], cache, c.raw);
    AbsorbRight(mesh, net, c, r, cache');
  }

  lemma ExtendPath(mesh: Mesh, o: Origination, path: seq<nat>, dest: nat)
    requires Travelled(mesh, o, path) && mesh.Hears(path[|path| - 1], dest) && |path| <= o.hops
    ensures Travelled(mesh, o, path + [dest])
  {
    var p := path + [dest];
    forall i | 0 < i < |p|
      ensures mesh.Hears(p[i - 1], p[i])
    {
      if i < |path| { assert mesh.Hears(path[i - 1], path[i]); }
    }
  }

  lemma HeardExtends(node: Node, key: PacketKey)
    requires GoodNode(node)
    ensures GoodNode(Node(Insert(node.cache, key), node.heard + [key], node.epoch))
  {
    assert (node.heard + [key])[..|node.heard + [key]| - 1] == node.heard;
  }

  /** The copies a relay puts in the air are good again. */
  lemma RelayedCopiesGood(mesh: Mesh, origs: seq<Origination>, c: Copy, r: Copy)
    requires mesh.Valid() && GoodCopy(mesh, origs, c) && |c.path| <= c.orig.hops
    requires r in Copies(mesh.listeners[c.dest], BytesOf(mesh, c.orig, c.orig.hops - |c.path|), c.orig, c.path + [c.dest])
    ensures GoodCopy(mesh, origs, r)
  {
    ExtendPath(mesh, c.orig, c.path, c.dest);
    assert (c.path + [c.dest])[|c.path|] == c.dest;
  }

  lemma DeliveryGood(mesh: Mesh, net: Net, c: Copy, d: Delivery)
    requires Inv(mesh, net) && GoodCopy(mesh, net.origs, c) && c.dest < |net.nodes|
    requires d in Received(mesh, net, c).delivered
    ensures GoodDelivery(mesh, net.origs, d)
  {
    if d in net.delivered { assert GoodDelivery(mesh, net.origs, d); }
  }

  lemma RelayGood(mesh: Mesh, net: Net, c: Copy, r: Relay)
    requires Inv(mesh, net) && GoodCopy(mesh, net.origs, c) && c.dest < |net.nodes|
    requires r in Received(mesh, net, c).relays
    ensures GoodRelay(mesh, net.origs, r)
  {
    if r in net.relays { assert GoodRelay(mesh, net.origs, r); }
  }

  lemma FlightGood(mesh: Mesh, net: Net, c: Copy, r: Copy)
    requires Inv(mesh, net) && GoodCopy(mesh, net.origs, c) && c.dest < |net.nodes|
    requires r in Received(mesh, net, c).flight
    ensures GoodCopy(mesh, net.origs, r)
  {
    if r in net.flight { assert GoodCopy(mesh, net.origs, r); } else { RelayedCopiesGood(mesh, net.origs, c, r); }
  }

  lemma NodesGood(mesh: Mesh, net: Net, c: Copy, n: nat)
    requires Inv(mesh, net) && GoodCopy(mesh, net.origs, c) && c.dest < |net.nodes| && n < |net.nodes|
    ensures GoodNode(Received(mesh, net, c).nodes[n])
  {
    HeardExtends(net.nodes[c.dest], Key(mesh, c.orig));
  }

  lemma ReceiveKeepsInv(mesh: Mesh, net: Net, c: Copy)
    requires Inv(mesh, net) && GoodCopy(mesh, net.origs, c)
    ensures c.dest < |net.nodes| && Inv(mesh, ReceiveCopy(mesh, net, c))
  {
    ReceiveGood(mesh, net, c, net.origs);
    forall r | r in Received(mesh, net, c).flight { FlightGood(mesh, net, c, r); }
    forall d | d in Received(mesh, net, c).delivered { DeliveryGood(mesh, net, c, d); }
    forall r | r in Received(mesh, net, c).relays { RelayGood(mesh, net, c, r); }
    forall n: nat | n < |net.nodes| { NodesGood(mesh, net, c, n); }
  }

  lemma OriginateKeepsInv(mesh: Mesh, net: Net, o: Origination)
    requires Inv(mesh, net) && CanOriginate(mesh, o)
    ensures Inv(mesh, DoOriginate(mesh, net, o))
  {
    var net' := DoOriginate(mesh, net, o);
    assert o in net'.origs;
    forall c | c in net'.flight
      ensures GoodCopy(mesh, net'.origs, c)
    {
      if c in net.flight { assert GoodCopy(mesh, net.origs, c); }
    }
    forall d | d in net'.delivered
      ensures GoodDelivery(mesh, net'.origs, d)
    {
      assert GoodDelivery(mesh, net.origs, d);
    }
    forall r | r in net'.relays
      ensures GoodRelay(mesh, net'.origs, r)
    {
      assert GoodRelay(mesh, net.origs, r);
    }
  }

  lemma StepKeepsInv(mesh: Mesh, net: Net, step: Step)
    requires Inv(mesh, net)
    ensures Inv(mesh, Next(mesh, net, step))
  {
    match step
    case Originate(o) => if CanOriginate(mesh, o) { OriginateKeepsInv(mesh, net, o); }
    case Receive(k) =>
      if k < |net.flight| {
        assert GoodCopy(mesh, net.origs, net.flight[k]);
        ReceiveKeepsInv(mesh, net.(flight := Without(net.flight, k)), net.flight[k]);
      }
    case Lose(k) =>
    case Rebuild(n) =>
  }

  /** Every run from a quiet network, whatever is lost, reordered or rebuilt, satisfies the invariant. */
  lemma {:induction false} RunKeepsInv(mesh: Mesh, net: Net, steps: seq<Step>)
    requires Inv(mesh, net)
    ensures Inv(mesh, Run(mesh, net, steps))
    decreases |steps|
  {
    if steps != [] {
      StepKeepsInv(mesh, net, steps[0]);
      RunKeepsInv(mesh, Next(mesh, net, steps[0]), steps[1..]);
    }
  }

  lemma QuietInv(mesh: Mesh)
    requires mesh.Valid()
    ensures Inv(mesh, Quiet(mesh))
  {}

  /**
   In every run from a quiet network, each delivered message carries the sender, addressee and
   data of one real origination, went to an addressee, and was sent along links of the mesh
   by as many relays as the hop limit has dropped.
   */
  lemma EndToEndIntegrity(mesh: Mesh, steps: seq<Step>, d: Delivery)
    requires mesh.Valid() && d in Run(mesh, Quiet(mesh), steps).delivered
    ensures d.orig in Run(mesh, Quiet(mesh), steps).origs && Travelled(mesh, d.orig, d.path) && d.node < |mesh.ids|
    ensures d.msg.from == mesh.ids[d.orig.node] && d.msg.to == d.orig.to && d.msg.data == d.orig.data
    ensures d.msg.to == mesh.ids[d.node] || d.msg.to == BROADCAST
    ensures d.msg.hopLimit == d.orig.hops - (|d.path| - 1) && mesh.Hears(d.path[|d.path| - 1], d.node)
    ensures d.msg.selfOrigin <==> mesh.ids[d.orig.node] == mesh.ids[d.node]
  {
    QuietInv(mesh);
    RunKeepsInv(mesh, Quiet(mesh), steps);
    assert GoodDelivery(mesh, Run(mesh, Quiet(mesh), steps).origs, d);
  }

  lemma GoodCopyParses(mesh: Mesh, origs: seq<Origination>, c: Copy)
    requires GoodCopy(mesh, origs, c)
    ensures var (o, left) := (c.orig, c.orig.hops - (|c.path| - 1));
            FromBytes(c.raw) == Some(Hopped(mesh.channel, mesh.ids[o.node], o.to, o.data, o.id, o.hops, left))
  {
    var (o, left) := (c.orig, c.orig.hops - (|c.path| - 1));
    RoundTripExact(Hopped(mesh.channel, mesh.ids[o.node], o.to, o.data, o.id, o.hops, left));
  }

  /** Bytes in the air always parse to an originated header and body, with one hop spent per relay. */
  lemma HopAccounting(mesh: Mesh, steps: seq<Step>, c: Copy)
    requires mesh.Valid() && c in Run(mesh, Quiet(mesh), steps).flight
    ensures c.orig in Run(mesh, Quiet(mesh), steps).origs && Travelled(mesh, c.orig, c.path)
    ensures mesh.Hears(c.path[|c.path| - 1], c.dest)
    ensures var (o, f) := (c.orig, FromBytes(c.raw));
            && f.Some? && f.value.header.hopStart - f.value.header.hopLimit == |c.path| - 1
            && f.value == Hopped(mesh.channel, mesh.ids[o.node], o.to, o.data, o.id, o.hops, f.value.header.hopLimit)
  {
    QuietInv(mesh);
    RunKeepsInv(mesh, Quiet(mesh), steps);
    assert GoodCopy(mesh, Run(mesh, Quiet(mesh), steps).origs, c);
    GoodCopyParses(mesh, Run(mesh, Quiet(mesh), steps).origs, c);
  }

  // ---- Distance ----

  /** The nodes within `r` links of `o`. */
  function Ball(mesh: Mesh, o: nat, r: nat): set<nat> {
    if r == 0 then {o}
    else Ball(mesh, o, r - 1) + ListenersOf(mesh, Ball(mesh, o, r - 1))
  }

  /** The nodes that hear some node of `s`. */
  function ListenersOf(mesh: Mesh, s: set<nat>): set<nat> {
    set m, d | m in s && m < |mesh.listeners| && d in mesh.listeners[m] :: d
  }

  lemma {:induction false} PathInBall(mesh: Mesh, path: seq<nat>, r: nat)
    requires path != [] && |path| == r + 1
    requires forall i :: 0 < i < |path| ==> mesh.Hears(path[i - 1], path[i])
    ensures path[r] in Ball(mesh, path[0], r)
    decreases r
  {
    if r > 0 {
      PathInBall(mesh, path[..r], r - 1);
      assert mesh.Hears(path[r - 1], path[r]);
    }
  }

  lemma {:induction false} BallGrows(mesh: Mesh, o: nat, r: nat, s: nat)
    requires r <= s
    ensures Ball(mesh, o, r) <= Ball(mesh, o, s)
    decreases s - r
  {
    if r < s { BallGrows(mesh, o, r + 1, s); }
  }

  /** A node that hears the last node of a travelled path is as many links away as the path has nodes. */
  lemma EndInBall(mesh: Mesh, o: Origination, path: seq<nat>, n: nat)
    requires Travelled(mesh, o, path) && mesh.Hears(path[|path| - 1], n)
    ensures n in Ball(mesh, o.node, |path|)
  {
    var p := path + [n];
    forall i | 0 < i < |p|
      ensures mesh.Hears(p[i - 1], p[i])
    {
      if i < |path| { assert mesh.Hears(path[i - 1], path[i]); }
    }
    PathInBall(mesh, p, |path|);
  }

  /** Whoever can receive bytes in the air is within hop_start - hop_limit + 1 links of the origin. */
  lemma ReceiversNearby(mesh: Mesh, steps: seq<Step>, c: Copy)
    requires mesh.Valid() && c in Run(mesh, Quiet(mesh), steps).flight
    ensures FromBytes(c.raw).Some? && FromBytes(c.raw).value.header.hopLimit <= FromBytes(c.raw).value.header.hopStart
    ensures var h := FromBytes(c.raw).value.header; c.dest in Ball(mesh, c.orig.node, h.hopStart - h.hopLimit + 1)
  {
    HopAccounting(mesh, steps, c);
    EndInBall(mesh, c.orig, c.path, c.dest);
  }

  /** A delivered message travelled one link more than it spent hops, so never beyond one more than its hop limit. */
  lemma DeliveredNearby(mesh: Mesh, steps: seq<Step>, d: Delivery)
    requires mesh.Valid() && d in Run(mesh, Quiet(mesh), steps).delivered
    ensures d.msg.hopLimit <= d.orig.hops && d.node in Ball(mesh, d.orig.node, d.orig.hops - d.msg.hopLimit + 1)
    ensures d.node in Ball(mesh, d.orig.node, d.orig.hops + 1)
  {
    EndToEndIntegrity(mesh, steps, d);
    EndInBall(mesh, d.orig, d.path, d.node);
    BallGrows(mesh, d.orig.node, |d.path|, d.orig.hops + 1);
  }
}
