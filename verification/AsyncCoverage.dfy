/**
 Coverage when copies arrive in any order. For one packet with `h` hops among `N` nodes with
 distinct ids, every loss-free order covers all nodes within `h + 1` links, on every link graph,
 if and only if `h == 0` or `N <= h + 2`.
 */
module AsyncCoverage {
  import opened Bytes
  import opened Packet
  import opened Router
  import opened App
  import opened Network
  import opened Flood
  import opened AtMostOnce
  import opened Asynchrony

  /** `o` is put on the air in a quiet network, then the steps happen. */
  function Flooded(mesh: Mesh, o: Origination, steps: seq<Step>): Net {
    Run(mesh, Next(mesh, Quiet(mesh), Originate(o)), steps)
  }

  ghost predicate OnlyReceives(steps: seq<Step>) {
    forall i :: 0 <= i < |steps| ==> steps[i].Receive?
  }

  /** The steps are receptions, in any order, that leave nothing in the air. */
  ghost predicate Complete(mesh: Mesh, o: Origination, steps: seq<Step>) {
    && mesh.Valid() && CanOriginate(mesh, o)
    && OnlyReceives(steps) && Flooded(mesh, o, steps).flight == []
  }

  ghost predicate Addressee(mesh: Mesh, o: Origination, n: nat) {
    n < |mesh.ids| && (o.to == mesh.ids[n] || o.to == BROADCAST)
  }

  ghost predicate HandedTo(net: Net, n: nat) {
    exists d :: d in net.delivered && d.node == n
  }

  /** Node `n` has accepted `o`, and was handed the message if it is an addressee. */
  ghost predicate Reached(mesh: Mesh, net: Net, o: Origination, n: nat) {
    && o.node < |mesh.ids| && n < |net.nodes|
    && Key(mesh, o) in net.nodes[n].cache
    && (Addressee(mesh, o, n) ==> HandedTo(net, n))
  }

  /** Every node but the origin that is at most one link farther than the hop limit is reached. */
  ghost predicate Covers(mesh: Mesh, o: Origination, steps: seq<Step>) {
    forall n :: n in Ball(mesh, o.node, o.hops + 1) && n != o.node ==> Reached(mesh, Flooded(mesh, o, steps), o, n)
  }

  /** Whatever the links, the packet and the order, a complete run with hop limit `h` covers. */
  ghost predicate CoversInEveryOrder(ch: Channel, ids: seq<u32>, h: u8) {
    forall listeners, o, steps ::
      Complete(Mesh(ch, ids, listeners), o, steps) && o.hops == h ==> Covers(Mesh(ch, ids, listeners), o, steps)
  }

  // ---- One packet alone ----

  /** `o` is the only packet ever originated, and nothing was lost or rebuilt. */
  ghost predicate Solo(mesh: Mesh, net: Net, o: Origination) {
    && Inv(mesh, net) && PathsSimple(mesh, net) && AllServed(mesh, net)
    && CanOriginate(mesh, o) && net.origs == [o] && net.lost == 0
    && forall n :: 0 <= n < |net.nodes| ==> OnlyHeard(net.nodes[n], Key(mesh, o))
  }

  ghost predicate OnlyHeard(node: Node, key: PacketKey) {
    node.epoch == 0 && forall k :: k in node.heard ==> k == key
  }

  ghost predicate HasHeard(mesh: Mesh, net: Net, o: Origination, n: nat) {
    o.node < |mesh.ids| && n < |net.nodes| && Key(mesh, o) in net.nodes[n].heard
  }

  ghost predicate HasRelayed(net: Net, n: nat) {
    exists r :: r in net.relays && r.node == n
  }

  /** Either every node that has heard the packet has relayed it, or all nodes have heard it. */
  ghost predicate Spread(mesh: Mesh, net: Net, o: Origination) {
    || (forall n: nat :: n != o.node && HasHeard(mesh, net, o, n) ==> HasRelayed(net, n))
    || (forall n: nat :: n != o.node && n < |net.nodes| ==> HasHeard(mesh, net, o, n))
  }

  ghost predicate Handed(mesh: Mesh, net: Net, o: Origination) {
    forall n: nat :: n != o.node && HasHeard(mesh, net, o, n) && Addressee(mesh, o, n) ==> HandedTo(net, n)
  }

  lemma OnlyHeardIsCalm(node: Node, key: PacketKey)
    requires OnlyHeard(node, key)
    ensures Calm(node)
  {
    SubsetCardinality(Elements(node.heard), {key});
  }

  lemma SoloIsCalm(mesh: Mesh, net: Net, o: Origination)
    requires Solo(mesh, net, o)
    ensures AllCalm(net)
  {
    forall n | 0 <= n < |net.nodes|
      ensures Calm(net.nodes[n]) && net.nodes[n].epoch == 0
    {
      OnlyHeardIsCalm(net.nodes[n], Key(mesh, o));
    }
  }

  lemma SoloCopy(mesh: Mesh, net: Net, o: Origination, k: nat)
    requires Solo(mesh, net, o) && k < |net.flight|
    ensures var c := net.flight[k];
            && GoodCopy(mesh, net.origs, c) && c.orig == o && c.dest < |net.nodes| && SimplePath(mesh, net.nodes, o, c.path)
            && (Key(mesh, o) in net.nodes[c.dest].cache <==> HasHeard(mesh, net, o, c.dest))
    ensures Next(mesh, net, Receive(k)) == Received(mesh, net.(flight := Without(net.flight, k)), net.flight[k])
  {
    NextIsReceived(mesh, net, k);
    SoloIsCalm(mesh, net, o);
    CalmRemembers(net.nodes[net.flight[k].dest], Key(mesh, o));
  }

  lemma ReceivedHeard(mesh: Mesh, net: Net, c: Copy, o: Origination)
    requires mesh.Valid() && |net.nodes| == |mesh.ids| && GoodCopy(mesh, net.origs, c) && c.dest < |net.nodes| && c.orig == o
    requires forall n :: 0 <= n < |net.nodes| ==> OnlyHeard(net.nodes[n], Key(mesh, o))
    ensures var net' := Received(mesh, net, c);
            && net'.origs == net.origs && net'.lost == net.lost && |net'.nodes| == |net.nodes|
            && forall n :: 0 <= n < |net.nodes| ==> OnlyHeard(net'.nodes[n], Key(mesh, o))
  {}

  lemma ReceiveKeepsSolo(mesh: Mesh, net: Net, o: Origination, k: nat)
    requires Solo(mesh, net, o) && k < |net.flight|
    ensures Solo(mesh, Next(mesh, net, Receive(k)), o)
  {
    SoloCopy(mesh, net, o, k);
    ReceivedHeard(mesh, net.(flight := Without(net.flight, k)), net.flight[k], o);
    StepKeepsInv(mesh, net, Receive(k));
    StepKeepsSimple(mesh, net, Receive(k));
    ReceiveKeepsServed(mesh, net, k);
  }

  /** What a reception adds for the receiver `n`, seen from any node `m`. */
  lemma ReceivedAdds(mesh: Mesh, net: Net, c: Copy, m: nat)
    requires mesh.Valid() && |net.nodes| == |mesh.ids| && GoodCopy(mesh, net.origs, c) && c.dest < |net.nodes|
    ensures var (net', o) := (Received(mesh, net, c), c.orig);
            && (HasHeard(mesh, net', o, m) <==> HasHeard(mesh, net, o, m) || m == c.dest)
            && (HasRelayed(net, m) ==> HasRelayed(net', m))
            && (HandedTo(net, m) ==> HandedTo(net', m))
  {
    var net' := Received(mesh, net, c);
    assert forall r :: r in net.relays ==> r in net'.relays;
    assert forall d :: d in net.delivered ==> d in net'.delivered;
  }

  /** A first reception is handed over to an addressee, and is relayed unless it has no hops left. */
  lemma FirstReception(mesh: Mesh, net: Net, c: Copy)
    requires mesh.Valid() && |net.nodes| == |mesh.ids| && GoodCopy(mesh, net.origs, c) && c.dest < |net.nodes|
    requires Key(mesh, c.orig) !in net.nodes[c.dest].cache && mesh.ids[c.dest] != mesh.ids[c.orig.node]
    ensures Addressee(mesh, c.orig, c.dest) ==> HandedTo(Received(mesh, net, c), c.dest)
    ensures |c.path| <= c.orig.hops ==> HasRelayed(Received(mesh, net, c), c.dest)
  {
    var net' := Received(mesh, net, c);
    if Addressee(mesh, c.orig, c.dest) {
      assert net'.delivered[|net.delivered|] in net'.delivered && net'.delivered[|net.delivered|].node == c.dest;
    }
    if |c.path| <= c.orig.hops {
      assert net'.relays[|net.relays|] in net'.relays && net'.relays[|net.relays|].node == c.dest;
    }
  }

  lemma ReceiveKeepsHanded(mesh: Mesh, net: Net, o: Origination, k: nat)
    requires Solo(mesh, net, o) && Handed(mesh, net, o) && k < |net.flight| && mesh.DistinctIds()
    ensures Handed(mesh, Next(mesh, net, Receive(k)), o)
  {
    var (c, rest, net') := (net.flight[k], net.(flight := Without(net.flight, k)), Next(mesh, net, Receive(k)));
    SoloCopy(mesh, net, o, k);
    forall n: nat | n != o.node && HasHeard(mesh, net', o, n) && Addressee(mesh, o, n)
      ensures HandedTo(net', n)
    {
      ReceivedAdds(mesh, rest, c, n);
      if !HasHeard(mesh, net, o, n) { FirstReception(mesh, rest, c); } else { assert HandedTo(rest, n); }
    }
  }

  /** A path of `hops + 2` distinct nodes leaves nobody out among `hops + 2` nodes. */
  lemma LongPathVisitsAll(path: seq<nat>, total: nat, n: nat)
    requires NoRepeats(path) && (forall x :: x in path ==> x < total) && total <= |path| && n < total
    ensures n in path
  {
    if n !in path {
      NoRepeatsCardinality(path);
      BelowCardinality(Elements(path) + {n}, total);
    }
  }

  /** Whoever gets the packet without hops left is the last of at most `hops + 2` nodes to hear it. */
  lemma LastHopIsLast(mesh: Mesh, net: Net, o: Origination, c: Copy, n: nat)
    requires SimplePath(mesh, net.nodes, o, c.path) && |c.path| == o.hops + 1 && c.path[0] == o.node < |net.nodes|
    requires !HasHeard(mesh, net, o, c.dest) && c.dest != o.node && c.dest < |net.nodes| <= o.hops + 2
    requires n < |net.nodes| && n != o.node && n != c.dest
    ensures HasHeard(mesh, net, o, n)
  {
    var p := c.path + [c.dest];
    LongPathVisitsAll(p, |net.nodes|, n);
  }

  /** From `net` to `net'` node `d` has heard the packet, and nothing is forgotten. */
  ghost predicate HeardAt(mesh: Mesh, net: Net, net': Net, o: Origination, d: nat) {
    && |net'.nodes| == |net.nodes|
    && (forall n: nat :: HasHeard(mesh, net', o, n) <==> HasHeard(mesh, net, o, n) || n == d)
    && (forall n: nat :: HasRelayed(net, n) ==> HasRelayed(net', n))
  }

  lemma ReceiveHeardAt(mesh: Mesh, net: Net, o: Origination, k: nat)
    requires Solo(mesh, net, o) && k < |net.flight|
    ensures HeardAt(mesh, net, Next(mesh, net, Receive(k)), o, net.flight[k].dest)
  {
    var (c, rest) := (net.flight[k], net.(flight := Without(net.flight, k)));
    SoloCopy(mesh, net, o, k);
    ReceivedHeard(mesh, rest, c, o);
    forall n: nat
      ensures HasHeard(mesh, Received(mesh, rest, c), o, n) <==> HasHeard(mesh, net, o, n) || n == c.dest
      ensures HasRelayed(net, n) ==> HasRelayed(Received(mesh, rest, c), n)
    {
      ReceivedAdds(mesh, rest, c, n);
      assert HasRelayed(net, n) ==> HasRelayed(rest, n);
    }
  }

  lemma FirstIsRelayed(mesh: Mesh, net: Net, o: Origination, k: nat)
    requires Solo(mesh, net, o) && k < |net.flight| && mesh.DistinctIds() && |net.flight[k].path| <= o.hops
    requires net.flight[k].dest != o.node && !HasHeard(mesh, net, o, net.flight[k].dest)
    ensures HasRelayed(Next(mesh, net, Receive(k)), net.flight[k].dest)
  {
    SoloCopy(mesh, net, o, k);
    FirstReception(mesh, net.(flight := Without(net.flight, k)), net.flight[k]);
  }

  lemma SpreadStays(mesh: Mesh, net: Net, net': Net, o: Origination, d: nat)
    requires Spread(mesh, net, o) && HeardAt(mesh, net, net', o, d)
    requires d == o.node || HasHeard(mesh, net, o, d) || HasRelayed(net', d)
    ensures Spread(mesh, net', o)
  {}

  lemma ReceiveKeepsSpread(mesh: Mesh, net: Net, o: Origination, k: nat)
    requires Solo(mesh, net, o) && Spread(mesh, net, o) && k < |net.flight| && mesh.DistinctIds()
    requires |mesh.ids| <= o.hops + 2
    ensures Spread(mesh, Next(mesh, net, Receive(k)), o)
  {
    var (c, net') := (net.flight[k], Next(mesh, net, Receive(k)));
    SoloCopy(mesh, net, o, k);
    ReceiveHeardAt(mesh, net, o, k);
    if c.dest == o.node || HasHeard(mesh, net, o, c.dest) {
      SpreadStays(mesh, net, net', o, c.dest);
    } else if |c.path| <= o.hops {
      FirstIsRelayed(mesh, net, o, k);
      SpreadStays(mesh, net, net', o, c.dest);
    } else {
      forall n: nat | n != o.node && n < |net'.nodes|
        ensures HasHeard(mesh, net', o, n)
      {
        if n != c.dest { LastHopIsLast(mesh, net, o, c, n); }
      }
    }
  }

  /** What the receptions of one packet alone keep. */
  ghost predicate Spreading(mesh: Mesh, net: Net, o: Origination) {
    Solo(mesh, net, o) && Handed(mesh, net, o) && (|mesh.ids| <= o.hops + 2 ==> Spread(mesh, net, o))
  }

  lemma SpreadingStarts(mesh: Mesh, o: Origination)
    requires mesh.Valid() && CanOriginate(mesh, o)
    ensures Spreading(mesh, Next(mesh, Quiet(mesh), Originate(o)), o)
  {
    QuietInv(mesh);
    StepKeepsInv(mesh, Quiet(mesh), Originate(o));
    StepKeepsSimple(mesh, Quiet(mesh), Originate(o));
    OriginateKeepsServed(mesh, Quiet(mesh), o);
  }

  lemma {:induction false} RunKeepsSpreading(mesh: Mesh, net: Net, o: Origination, steps: seq<Step>)
    requires Spreading(mesh, net, o) && OnlyReceives(steps) && mesh.DistinctIds()
    ensures Spreading(mesh, Run(mesh, net, steps), o)
    decreases |steps|
  {
    if steps != [] {
      var k := steps[0].k;
      if k < |net.flight| {
        ReceiveKeepsSolo(mesh, net, o, k);
        ReceiveKeepsHanded(mesh, net, o, k);
        if |mesh.ids| <= o.hops + 2 { ReceiveKeepsSpread(mesh, net, o, k); }
      }
      RunKeepsSpreading(mesh, Next(mesh, net, steps[0]), o, steps[1..]);
    }
  }

  // ---- At rest ----

  /** When nothing is in the air, whoever hears the origin or a relay has heard the packet. */
  lemma RestCloses(mesh: Mesh, net: Net, o: Origination, m: nat, d: nat)
    requires Solo(mesh, net, o) && net.flight == [] && mesh.Hears(m, d) && (m == o.node || HasRelayed(net, m))
    ensures HasHeard(mesh, net, o, d)
  {
    SoloIsCalm(mesh, net, o);
    if m == o.node {
      assert Served(mesh, net, o, d);
    } else {
      var r :| r in net.relays && r.node == m;
      assert GoodRelay(mesh, net.origs, r) && Served(mesh, net, r.orig, d);
    }
  }

  lemma HearsOneOf(mesh: Mesh, s: set<nat>, d: nat) returns (m: nat)
    requires d in ListenersOf(mesh, s)
    ensures m in s && mesh.Hears(m, d)
  {
    m :| m in s && mesh.Hears(m, d);
  }

  /** With few nodes, all nodes that links lead to have heard the packet. */
  lemma {:induction false} FewNodesAllHear(mesh: Mesh, net: Net, o: Origination, r: nat, n: nat)
    requires Solo(mesh, net, o) && Spread(mesh, net, o) && net.flight == []
    requires n in Ball(mesh, o.node, r) && n != o.node
    ensures HasHeard(mesh, net, o, n)
  {
    if r > 0 {
      if n in Ball(mesh, o.node, r - 1) {
        FewNodesAllHear(mesh, net, o, r - 1, n);
      } else {
        var m := HearsOneOf(mesh, Ball(mesh, o.node, r - 1), n);
        if m != o.node { FewNodesAllHear(mesh, net, o, r - 1, m); }
        if m == o.node || HasRelayed(net, m) { RestCloses(mesh, net, o, m, n); }
      }
    }
  }

  lemma HeardIsReached(mesh: Mesh, net: Net, o: Origination, n: nat)
    requires Solo(mesh, net, o) && Handed(mesh, net, o) && HasHeard(mesh, net, o, n) && n != o.node
    ensures Reached(mesh, net, o, n)
  {
    SoloIsCalm(mesh, net, o);
    CalmRemembers(net.nodes[n], Key(mesh, o));
  }

  /** Without hops, or with at most `hops + 2` nodes, every order covers. */
  lemma SmallFloodsCover(mesh: Mesh, o: Origination, steps: seq<Step>)
    requires Complete(mesh, o, steps) && mesh.DistinctIds()
    requires o.hops == 0 || |mesh.ids| <= o.hops + 2
    ensures Covers(mesh, o, steps)
  {
    var net := Flooded(mesh, o, steps);
    SpreadingStarts(mesh, o);
    RunKeepsSpreading(mesh, Next(mesh, Quiet(mesh), Originate(o)), o, steps);
    forall n | n in Ball(mesh, o.node, o.hops + 1) && n != o.node
      ensures Reached(mesh, net, o, n)
    {
      if o.hops == 0 {
        assert n in ListenersOf(mesh, Ball(mesh, o.node, 0)) && mesh.Hears(o.node, n);
        RestCloses(mesh, net, o, o.node, n);
      } else {
        FewNodesAllHear(mesh, net, o, o.hops + 1, n);
      }
      HeardIsReached(mesh, net, o, n);
    }
  }

  // ---- The long way round ----

  /**
   Node 0 is heard by node 1, by way of which links lead through all nodes up to `h + 2`, and by
   node `h + 1` directly. Further nodes hear nobody.
   */
  function DetourLinks(h: u8, total: nat): (links: seq<seq<nat>>)
    ensures |links| == total
  {
    seq(total, i requires 0 <= i < total => if i == 0 then [h + 1, 1] else if i <= h + 1 then [i + 1] else [])
  }

  ghost predicate Detour(mesh: Mesh, o: Origination) {
    && mesh.Valid() && mesh.DistinctIds() && CanOriginate(mesh, o) && o.node == 0 && o.hops >= 1
    && |mesh.ids| >= o.hops + 3 && mesh.listeners == DetourLinks(o.hops, |mesh.ids|)
  }

  /** `w` waits to be received directly while the other copy has come the long way round to node `at`. */
  ghost predicate LongWay(mesh: Mesh, net: Net, o: Origination, w: Copy, at: nat) {
    && |net.nodes| == |mesh.ids| && |net.flight| == 2 && net.flight[0] == w
    && Coming(mesh, net, o, w, o.hops + 1) && Coming(mesh, net, o, net.flight[1], at) && |net.flight[1].path| == at
    && (forall n :: at <= n < |net.nodes| ==> net.nodes[n].cache == [])
  }

  /** A copy of `o` on its way to node `d`. */
  ghost predicate Coming(mesh: Mesh, net: Net, o: Origination, c: Copy, d: nat) {
    GoodCopy(mesh, net.origs, c) && c.orig == o && c.dest == d
  }

  /** What a reception of a real packet does, with the copy taken out of the air. */
  lemma ReceiptOf(mesh: Mesh, net: Net, k: nat)
    requires mesh.Valid() && |net.nodes| == |mesh.ids| && k < |net.flight| && GoodCopy(mesh, net.origs, net.flight[k])
    ensures net.flight[k].dest < |net.nodes|
    ensures Next(mesh, net, Receive(k)) == Received(mesh, net.(flight := Without(net.flight, k)), net.flight[k])
  {
    ReceiveGood(mesh, net.(flight := Without(net.flight, k)), net.flight[k], net.origs);
  }

  /** The only relay of a fresh node that has a single listener `m`. */
  lemma HopPassesOn(mesh: Mesh, net: Net, c: Copy, m: nat)
    requires mesh.Valid() && |net.nodes| == |mesh.ids| && GoodCopy(mesh, net.origs, c) && c.dest < |net.nodes|
    requires net.nodes[c.dest].cache == [] && mesh.listeners[c.dest] == [m]
    requires |c.path| <= c.orig.hops && mesh.ids[c.dest] != mesh.ids[c.orig.node]
    ensures var net' := Received(mesh, net, c);
            && |net'.nodes| == |net.nodes| && net'.origs == net.origs
            && (exists r :: net'.flight == net.flight + [r] && |r.path| == |c.path| + 1 && Coming(mesh, net, c.orig, r, m))
            && (forall n :: 0 <= n < |net.nodes| && n != c.dest ==> net'.nodes[n] == net.nodes[n])
  {
    var cs := Copies([m], BytesOf(mesh, c.orig, c.orig.hops - |c.path|), c.orig, c.path + [c.dest]);
    assert cs == [cs[0]] && Received(mesh, net, c).flight == net.flight + cs;
    RelayedCopiesGood(mesh, net.origs, c, cs[0]);
  }

  /** A node that knows the packet, or gets it without hops left, does not relay it. */
  lemma DeadEnd(mesh: Mesh, net: Net, c: Copy)
    requires |net.nodes| == |mesh.ids| == |mesh.listeners| && c.dest < |net.nodes| && CanOriginate(mesh, c.orig)
    requires 1 <= |c.path| <= c.orig.hops + 1
    requires Key(mesh, c.orig) in net.nodes[c.dest].cache || |c.path| == c.orig.hops + 1
    ensures var net' := Received(mesh, net, c);
            && net'.flight == net.flight && net'.origs == net.origs && |net'.nodes| == |net.nodes|
            && Key(mesh, c.orig) in net'.nodes[c.dest].cache
            && (forall n :: 0 <= n < |net.nodes| && n != c.dest ==> net'.nodes[n] == net.nodes[n])
  {}

  /** The copy `net.flight[k]` reaches a node that does not relay it. */
  lemma HopEnds(mesh: Mesh, net: Net, k: nat) returns (net': Net)
    requires mesh.Valid() && |net.nodes| == |mesh.ids| && k < |net.flight| && GoodCopy(mesh, net.origs, net.flight[k])
    requires var c := net.flight[k];
             c.dest < |net.nodes| && (Key(mesh, c.orig) in net.nodes[c.dest].cache || |c.path| == c.orig.hops + 1)
    ensures net' == Next(mesh, net, Receive(k)) && |net'.nodes| == |net.nodes| && net'.origs == net.origs
    ensures net'.flight == Without(net.flight, k) && Key(mesh, net.flight[k].orig) in net'.nodes[net.flight[k].dest].cache
    ensures forall n :: 0 <= n < |net.nodes| && n != net.flight[k].dest ==> net'.nodes[n] == net.nodes[n]
  {
    net' := Next(mesh, net, Receive(k));
    ReceiptOf(mesh, net, k);
    DeadEnd(mesh, net.(flight := Without(net.flight, k)), net.flight[k]);
  }

  lemma LongWayStarts(mesh: Mesh, o: Origination) returns (net: Net)
    requires Detour(mesh, o)
    ensures net == Next(mesh, Quiet(mesh), Originate(o)) && net.flight != [] && LongWay(mesh, net, o, net.flight[0], 1)
  {
    net := Next(mesh, Quiet(mesh), Originate(o));
    assert net.flight == Copies([o.hops + 1, 1], BytesOf(mesh, o, o.hops), o, [0]);
    OriginatedGood(mesh, net.origs, o, o.hops + 1);
    OriginatedGood(mesh, net.origs, o, 1);
  }

  lemma OriginatedGood(mesh: Mesh, origs: seq<Origination>, o: Origination, d: nat)
    requires CanOriginate(mesh, o) && o in origs && mesh.Hears(o.node, d)
    ensures GoodCopy(mesh, origs, Copy(d, BytesOf(mesh, o, o.hops), o, [o.node]))
  {}

  lemma LongWayGoesOn(mesh: Mesh, net: Net, o: Origination, w: Copy, at: nat) returns (next: Net)
    requires Detour(mesh, o) && LongWay(mesh, net, o, w, at) && 1 <= at <= o.hops
    ensures next == Next(mesh, net, Receive(1)) && LongWay(mesh, next, o, w, at + 1)
  {
    var c := net.flight[1];
    next := Next(mesh, net, Receive(1));
    ReceiptOf(mesh, net, 1);
    assert Without(net.flight, 1) == [w];
    HopPassesOn(mesh, net.(flight := [w]), c, at + 1);
    var r :| next.flight == [w] + [r] && |r.path| == |c.path| + 1 && Coming(mesh, net, o, r, at + 1);
  }

  /** Nothing is in the air, and node `n` never got the packet. */
  ghost predicate Missed(net: Net, n: nat) {
    net.flight == [] && n < |net.nodes| && net.nodes[n].cache == []
  }

  lemma LongWayEnds(mesh: Mesh, net: Net, o: Origination, w: Copy) returns (mid: Net, end: Net)
    requires Detour(mesh, o) && LongWay(mesh, net, o, w, o.hops + 1)
    ensures mid == Next(mesh, net, Receive(1)) && end == Next(mesh, mid, Receive(0)) && Missed(end, o.hops + 2)
  {
    mid := HopEnds(mesh, net, 1);
    assert mid.flight == [w];
    end := HopEnds(mesh, mid, 0);
  }

  /** The nets of a run of receptions, one step after the other. */
  ghost predicate Trace(mesh: Mesh, nets: seq<Net>, steps: seq<Step>) {
    && OnlyReceives(steps) && |nets| == |steps| + 1
    && forall i :: 0 <= i < |steps| ==> nets[i + 1] == Next(mesh, nets[i], steps[i])
  }

  lemma {:induction false} TraceIsRun(mesh: Mesh, nets: seq<Net>, steps: seq<Step>)
    requires Trace(mesh, nets, steps)
    ensures Run(mesh, nets[0], steps) == nets[|steps|]
    decreases |steps|
  {
    if steps != [] {
      assert nets[1] == Next(mesh, nets[0], steps[0]);
      TraceIsRun(mesh, nets[1..], steps[1..]);
    }
  }

  /** `(nets, steps)` is a trace from `start` to `end`. */
  ghost predicate Leads(mesh: Mesh, start: Net, nets: seq<Net>, steps: seq<Step>, end: Net) {
    Trace(mesh, nets, steps) && nets[0] == start && nets[|steps|] == end
  }

  lemma LeadsOn(mesh: Mesh, start: Net, nets: seq<Net>, steps: seq<Step>, end: Net, k: nat, next: Net)
    requires Leads(mesh, start, nets, steps, end) && next == Next(mesh, end, Receive(k))
    ensures Leads(mesh, start, nets + [next], steps + [Receive(k)], next)
  {}

  /** The second copy in the air is received `at - 1` times. */
  lemma {:induction false} LongWayTrace(mesh: Mesh, o: Origination, start: Net, w: Copy, at: nat)
      returns (nets: seq<Net>, steps: seq<Step>, end: Net)
    requires Detour(mesh, o) && LongWay(mesh, start, o, w, 1) && 1 <= at <= o.hops + 1
    ensures Leads(mesh, start, nets, steps, end) && LongWay(mesh, end, o, w, at)
  {
    if at == 1 {
      nets, steps, end := [start], [], start;
    } else {
      var mid;
      nets, steps, mid := LongWayTrace(mesh, o, start, w, at - 1);
      end := LongWayGoesOn(mesh, mid, o, w, at - 1);
      LeadsOn(mesh, start, nets, steps, mid, 1, end);
      nets, steps := nets + [end], steps + [Receive(1)];
    }
  }

  lemma LongWayWhole(mesh: Mesh, o: Origination, start: Net, w: Copy) returns (nets: seq<Net>, steps: seq<Step>, end: Net)
    requires Detour(mesh, o) && LongWay(mesh, start, o, w, 1)
    ensures Leads(mesh, start, nets, steps, end) && Missed(end, o.hops + 2)
  {
    var late, mid;
    nets, steps, late := LongWayTrace(mesh, o, start, w, o.hops + 1);
    mid, end := LongWayEnds(mesh, late, o, w);
    LeadsOn(mesh, start, nets, steps, late, 1, mid);
    LeadsOn(mesh, start, nets + [mid], steps + [Receive(1)], mid, 0, end);
    nets, steps := nets + [mid] + [end], steps + [Receive(1)] + [Receive(0)];
  }

  /** A trace from the origination that misses node `n` within reach. */
  lemma MissingTrace(mesh: Mesh, o: Origination, start: Net, nets: seq<Net>, steps: seq<Step>, end: Net, n: nat)
    requires mesh.Valid() && CanOriginate(mesh, o) && start == Next(mesh, Quiet(mesh), Originate(o))
    requires Leads(mesh, start, nets, steps, end) && Missed(end, n)
    requires n in Ball(mesh, o.node, o.hops + 1) && n != o.node
    ensures Complete(mesh, o, steps) && !Covers(mesh, o, steps)
  {
    TraceIsRun(mesh, nets, steps);
    MissedIsUncovered(mesh, o, steps, end, n);
  }

  lemma MissedIsUncovered(mesh: Mesh, o: Origination, steps: seq<Step>, end: Net, n: nat)
    requires mesh.Valid() && CanOriginate(mesh, o) && OnlyReceives(steps) && end == Flooded(mesh, o, steps) && Missed(end, n)
    requires n in Ball(mesh, o.node, o.hops + 1) && n != o.node
    ensures Complete(mesh, o, steps) && !Covers(mesh, o, steps)
  {
    assert !Reached(mesh, end, o, n);
    assert !Reached(mesh, Flooded(mesh, o, steps), o, n);
  }

  lemma DetourIsShort(mesh: Mesh, o: Origination)
    requires Detour(mesh, o)
    ensures o.hops + 2 in Ball(mesh, o.node, o.hops + 1)
  {
    var path: seq<nat> := [0, o.hops + 1, o.hops + 2];
    assert mesh.Hears(path[0], path[1]) && mesh.Hears(path[1], path[2]);
    PathInBall(mesh, path, 2);
    BallGrows(mesh, 0, 2, o.hops + 1);
  }

  /**
   In an asynchronous run a relay may first hear a copy that came the long way round with no hops
   left, and must then ignore the copy that came directly. Every copy is received, yet a node two
   links from the origin never gets the packet.
   */
  lemma AsynchronyBreaksCoverage(mesh: Mesh, o: Origination) returns (steps: seq<Step>)
    requires Detour(mesh, o)
    ensures Complete(mesh, o, steps) && !Covers(mesh, o, steps)
  {
    var nets, end;
    var start := LongWayStarts(mesh, o);
    nets, steps, end := LongWayWhole(mesh, o, start, start.flight[0]);
    DetourIsShort(mesh, o);
    MissingTrace(mesh, o, start, nets, steps, end, o.hops + 2);
  }

  lemma DetourValid(ch: Channel, ids: seq<u32>, o: Origination)
    requires ch.codec.RoundTrips() && NoRepeats(ids) && 1 <= o.hops < 8 && |ids| >= o.hops + 3
    requires o.node == 0 && |ch.codec.encode(o.data)| <= MAX_PAYLOAD
    ensures Detour(Mesh(ch, ids, DetourLinks(o.hops, |ids|)), o)
  {
    var links := DetourLinks(o.hops, |ids|);
    assert forall m :: 0 <= m < |ids| ==> NoRepeats(links[m]) && forall d :: d in links[m] ==> d < |ids|;
  }

  /**
   The exact condition for coverage in every order, on every link graph: no hops at all, or no more
   nodes than a path of maximal length has. `data` is any message that fits a frame.
   */
  lemma AsyncCoverageIff(ch: Channel, ids: seq<u32>, h: u8, data: Data)
    requires ch.codec.RoundTrips() && NoRepeats(ids) && h < 8 && |ch.codec.encode(data)| <= MAX_PAYLOAD
    ensures CoversInEveryOrder(ch, ids, h) <==> h == 0 || |ids| <= h + 2
  {
    if h == 0 || |ids| <= h + 2 {
      forall listeners, o, steps | Complete(Mesh(ch, ids, listeners), o, steps) && o.hops == h
        ensures Covers(Mesh(ch, ids, listeners), o, steps)
      {
        SmallFloodsCover(Mesh(ch, ids, listeners), o, steps);
      }
    } else {
      var o := Origination(0, BROADCAST, data, 0, h);
      DetourValid(ch, ids, o);
      var steps := AsynchronyBreaksCoverage(Mesh(ch, ids, DetourLinks(h, |ids|)), o);
      assert !CoversInEveryOrder(ch, ids, h);
    }
  }
}
