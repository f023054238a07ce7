/** At-most-once delivery and relaying while the dedup windows do not overflow. */
module AtMostOnce {
  import opened Router
  import opened Network
  import opened Flood

  /** A delivery or a relay: which node handled which packet, and since which rebuild. */
  datatype Event = Event(node: nat, epoch: nat, key: PacketKey)

  function EventOf(mesh: Mesh, node: nat, epoch: nat, o: Origination): Event {
    Event(node, epoch, if o.node < |mesh.ids| then Key(mesh, o) else (0, 0))
  }

  function Deliveries(mesh: Mesh, ds: seq<Delivery>): (es: seq<Event>)
    ensures |es| == |ds|
  {
    seq(|ds|, i requires 0 <= i < |ds| => EventOf(mesh, ds[i].node, ds[i].epoch, ds[i].orig))
  }

  function Relays(mesh: Mesh, rs: seq<Relay>): (es: seq<Event>)
    ensures |es| == |rs|
  {
    seq(|rs|, i requires 0 <= i < |rs| => EventOf(mesh, rs[i].node, rs[i].epoch, rs[i].orig))
  }

  /** At most fifty distinct packets have reached the node since it was last rebuilt. */
  ghost predicate Calm(node: Node) {
    |Elements(node.heard)| <= DEDUP_CAPACITY
  }

  /** `e` happened since its node was last rebuilt. */
  predicate Current(nodes: seq<Node>, e: Event) {
    e.node < |nodes| && e.epoch == nodes[e.node].epoch
  }

  ghost predicate Known(nodes: seq<Node>, e: Event) {
    && (e.node < |nodes| ==> e.epoch <= nodes[e.node].epoch)
    && (Current(nodes, e) ==> e.key in nodes[e.node].heard)
  }

  /** No calm node has handled the same packet twice since it was last rebuilt. */
  ghost predicate Once(nodes: seq<Node>, es: seq<Event>) {
    && (forall i :: 0 <= i < |es| ==> Known(nodes, es[i]))
    && (forall i, j :: 0 <= i < j < |es| && Current(nodes, es[i]) && Calm(nodes[es[i].node]) ==> es[i] != es[j])
  }

  lemma CalmBefore(node: Node, key: PacketKey)
    requires |Elements(node.heard + [key])| <= DEDUP_CAPACITY
    ensures Calm(node)
  {
    assert (node.heard + [key])[..|node.heard|] == node.heard;
    ElementsMonotone(node.heard + [key], |node.heard|);
  }

  /** A calm node still remembers everything it has heard. */
  lemma CalmRemembers(node: Node, key: PacketKey)
    requires GoodNode(node) && Calm(node)
    ensures key in node.cache <==> key in node.heard
  {
    FewKeysAcceptedOnce(node.heard);
    AcceptedElement(node.heard, key);
  }

  lemma HearingKeepsOnce(nodes: seq<Node>, es: seq<Event>, n: nat, key: PacketKey, handled: bool)
    requires n < |nodes| && GoodNode(nodes[n]) && Once(nodes, es)
    requires handled ==> key !in nodes[n].cache
    ensures var node := nodes[n];
            Once(nodes[n := Node(Insert(node.cache, key), node.heard + [key], node.epoch)],
                 if handled then es + [Event(n, node.epoch, key)] else es)
  {
    var (node, e) := (nodes[n], Event(n, nodes[n].epoch, key));
    var node' := Node(Insert(node.cache, key), node.heard + [key], node.epoch);
    var nodes' := nodes[n := node'];
    var es' := if handled then es + [e] else es;
    forall i | 0 <= i < |es'|
      ensures Known(nodes', es'[i])
    {
      if i < |es| { assert Known(nodes, es[i]); }
    }
    forall i, j | 0 <= i < j < |es'| && Current(nodes', es'[i]) && Calm(nodes'[es'[i].node])
      ensures es'[i] != es'[j]
    {
      if es[i].node == n { CalmBefore(node, key); }
      assert Current(nodes, es[i]) && Calm(nodes[es[i].node]) && Known(nodes, es[i]);
      if j == |es| && es[i].node == n { CalmRemembers(node, key); }
    }
  }

  lemma RebuildKeepsOnce(nodes: seq<Node>, es: seq<Event>, n: nat)
    requires n < |nodes| && Once(nodes, es)
    ensures Once(nodes[n := Node([], [], nodes[n].epoch + 1)], es)
  {
    var nodes' := nodes[n := Node([], [], nodes[n].epoch + 1)];
    forall i | 0 <= i < |es|
      ensures Known(nodes', es[i]) && (Current(nodes', es[i]) ==> es[i].node != n && Current(nodes, es[i]))
    {
      assert Known(nodes, es[i]);
    }
  }

  ghost predicate OnceInv(mesh: Mesh, net: Net) {
    && Inv(mesh, net)
    && Once(net.nodes, Deliveries(mesh, net.delivered))
    && Once(net.nodes, Relays(mesh, net.relays))
  }

  lemma ReceiveKeepsDeliveredOnce(mesh: Mesh, net: Net, c: Copy)
    requires OnceInv(mesh, net) && GoodCopy(mesh, net.origs, c) && c.dest < |net.nodes|
    ensures Once(Received(mesh, net, c).nodes, Deliveries(mesh, Received(mesh, net, c).delivered))
  {
    var (key, net', ds) := (Key(mesh, c.orig), Received(mesh, net, c), Deliveries(mesh, net.delivered));
    var handled := net'.delivered != net.delivered;
    HearingKeepsOnce(net.nodes, ds, c.dest, key, handled);
    assert Deliveries(mesh, net'.delivered)
        == if handled then ds + [Event(c.dest, net.nodes[c.dest].epoch, key)] else ds;
  }

  lemma ReceiveKeepsRelayedOnce(mesh: Mesh, net: Net, c: Copy)
    requires OnceInv(mesh, net) && GoodCopy(mesh, net.origs, c) && c.dest < |net.nodes|
    ensures Once(Received(mesh, net, c).nodes, Relays(mesh, Received(mesh, net, c).relays))
  {
    var (key, net', rs) := (Key(mesh, c.orig), Received(mesh, net, c), Relays(mesh, net.relays));
    var handled := net'.relays != net.relays;
    HearingKeepsOnce(net.nodes, rs, c.dest, key, handled);
    assert Relays(mesh, net'.relays)
        == if handled then rs + [Event(c.dest, net.nodes[c.dest].epoch, key)] else rs;
  }

  lemma ReceiveKeepsOnce(mesh: Mesh, net: Net, c: Copy)
    requires OnceInv(mesh, net) && GoodCopy(mesh, net.origs, c)
    ensures c.dest < |net.nodes| && OnceInv(mesh, ReceiveCopy(mesh, net, c))
  {
    ReceiveKeepsInv(mesh, net, c);
    ReceiveGood(mesh, net, c, net.origs);
    ReceiveKeepsDeliveredOnce(mesh, net, c);
    ReceiveKeepsRelayedOnce(mesh, net, c);
  }

  lemma OriginateKeepsOnce(mesh: Mesh, net: Net, o: Origination)
    requires OnceInv(mesh, net)
    ensures OnceInv(mesh, Next(mesh, net, Originate(o)))
  {
    StepKeepsInv(mesh, net, Originate(o));
    var net' := Next(mesh, net, Originate(o));
    assert net'.nodes == net.nodes && net'.delivered == net.delivered && net'.relays == net.relays;
  }

  lemma ReceptionKeepsOnce(mesh: Mesh, net: Net, k: nat)
    requires OnceInv(mesh, net) && k < |net.flight|
    ensures OnceInv(mesh, Next(mesh, net, Receive(k)))
  {
    assert GoodCopy(mesh, net.origs, net.flight[k]);
    ReceiveKeepsOnce(mesh, net.(flight := Without(net.flight, k)), net.flight[k]);
  }

  lemma RebuildStepKeepsOnce(mesh: Mesh, net: Net, n: nat)
    requires OnceInv(mesh, net) && n < |net.nodes|
    ensures OnceInv(mesh, Next(mesh, net, Rebuild(n)))
  {
    StepKeepsInv(mesh, net, Rebuild(n));
    RebuildKeepsOnce(net.nodes, Deliveries(mesh, net.delivered), n);
    RebuildKeepsOnce(net.nodes, Relays(mesh, net.relays), n);
  }

  lemma StepKeepsOnce(mesh: Mesh, net: Net, step: Step)
    requires OnceInv(mesh, net)
    ensures OnceInv(mesh, Next(mesh, net, step))
  {
    match step
    case Originate(o) => OriginateKeepsOnce(mesh, net, o);
    case Receive(k) => if k < |net.flight| { ReceptionKeepsOnce(mesh, net, k); }
    case Lose(k) => StepKeepsInv(mesh, net, step);
    case Rebuild(n) => if n < |net.nodes| { RebuildStepKeepsOnce(mesh, net, n); }
  }

  lemma {:induction false} RunKeepsOnce(mesh: Mesh, net: Net, steps: seq<Step>)
    requires OnceInv(mesh, net)
    ensures OnceInv(mesh, Run(mesh, net, steps))
    decreases |steps|
  {
    if steps != [] {
      StepKeepsOnce(mesh, net, steps[0]);
      RunKeepsOnce(mesh, Next(mesh, net, steps[0]), steps[1..]);
    }
  }

  /**
   In every run from a quiet network: a node that has heard at most fifty distinct packets
   since it was last rebuilt has, since then, delivered each packet at most once.
   */
  lemma DeliversOnce(mesh: Mesh, steps: seq<Step>, i: nat, j: nat)
    requires mesh.Valid()
    requires var net := Run(mesh, Quiet(mesh), steps);
             && i < j < |net.delivered| && net.delivered[i].node == net.delivered[j].node < |net.nodes|
             && net.delivered[i].epoch == net.delivered[j].epoch == net.nodes[net.delivered[i].node].epoch
             && Calm(net.nodes[net.delivered[i].node])
    ensures var (d, e) := (Run(mesh, Quiet(mesh), steps).delivered[i], Run(mesh, Quiet(mesh), steps).delivered[j]);
            && d.orig.node < |mesh.ids| && e.orig.node < |mesh.ids| && Key(mesh, d.orig) != Key(mesh, e.orig)
  {
    QuietInv(mesh);
    RunKeepsOnce(mesh, Quiet(mesh), steps);
    var net := Run(mesh, Quiet(mesh), steps);
    assert GoodDelivery(mesh, net.origs, net.delivered[i]) && GoodDelivery(mesh, net.origs, net.delivered[j]);
    var es := Deliveries(mesh, net.delivered);
    assert Current(net.nodes, es[i]) && es[i] != es[j];
  }

  /** Likewise, it has relayed each packet at most once. */
  lemma RelaysOnce(mesh: Mesh, steps: seq<Step>, i: nat, j: nat)
    requires mesh.Valid()
    requires var net := Run(mesh, Quiet(mesh), steps);
             && i < j < |net.relays| && net.relays[i].node == net.relays[j].node < |net.nodes|
             && net.relays[i].epoch == net.relays[j].epoch == net.nodes[net.relays[i].node].epoch
             && Calm(net.nodes[net.relays[i].node])
    ensures var (r, s) := (Run(mesh, Quiet(mesh), steps).relays[i], Run(mesh, Quiet(mesh), steps).relays[j]);
            && r.orig.node < |mesh.ids| && s.orig.node < |mesh.ids| && Key(mesh, r.orig) != Key(mesh, s.orig)
  {
    QuietInv(mesh);
    RunKeepsOnce(mesh, Quiet(mesh), steps);
    var net := Run(mesh, Quiet(mesh), steps);
    assert GoodRelay(mesh, net.origs, net.relays[i]) && GoodRelay(mesh, net.origs, net.relays[j]);
    var es := Relays(mesh, net.relays);
    assert Current(net.nodes, es[i]) && es[i] != es[j];
  }

  // ---- Relay paths ----

  /** No node has been rebuilt and none has heard more than fifty distinct packets. */
  ghost predicate AllCalm(net: Net) {
    forall n :: 0 <= n < |net.nodes| ==> Calm(net.nodes[n]) && net.nodes[n].epoch == 0
  }

  /** The path visits no node twice, and every relay on it has heard the packet. */
  ghost predicate SimplePath(mesh: Mesh, nodes: seq<Node>, o: Origination, path: seq<nat>) {
    && NoRepeats(path)
    && o.node < |mesh.ids|
    && forall i :: 0 < i < |path| ==> path[i] < |nodes| && Key(mesh, o) in nodes[path[i]].heard
  }

  ghost predicate PathsSimple(mesh: Mesh, net: Net) {
    AllCalm(net) ==>
      && (forall c :: c in net.flight ==> SimplePath(mesh, net.nodes, c.orig, c.path))
      && (forall r :: r in net.relays ==> SimplePath(mesh, net.nodes, r.orig, r.path + [r.node]))
  }

  lemma ReceiveCalm(mesh: Mesh, net: Net, c: Copy)
    requires Inv(mesh, net) && GoodCopy(mesh, net.origs, c) && c.dest < |net.nodes| && AllCalm(Received(mesh, net, c))
    ensures AllCalm(net)
  {
    var net' := Received(mesh, net, c);
    forall n | 0 <= n < |net.nodes|
      ensures Calm(net.nodes[n]) && net.nodes[n].epoch == 0
    {
      assert Calm(net'.nodes[n]) && net'.nodes[n].epoch == 0;
      if n == c.dest { CalmBefore(net.nodes[n], Key(mesh, c.orig)); }
    }
  }

  lemma SimpleStays(mesh: Mesh, nodes: seq<Node>, nodes': seq<Node>, o: Origination, path: seq<nat>)
    requires SimplePath(mesh, nodes, o, path) && |nodes| == |nodes'|
    requires forall n, k :: 0 <= n < |nodes| && k in nodes[n].heard ==> k in nodes'[n].heard
    ensures SimplePath(mesh, nodes', o, path)
  {}

  /** A relay of a calm network is not yet on the path of the packet it relays. */
  lemma RelayExtendsSimply(mesh: Mesh, net: Net, c: Copy)
    requires Inv(mesh, net) && GoodCopy(mesh, net.origs, c) && c.dest < |net.nodes|
    requires SimplePath(mesh, net.nodes, c.orig, c.path) && Calm(net.nodes[c.dest])
    requires Key(mesh, c.orig) !in net.nodes[c.dest].cache && mesh.ids[c.dest] != mesh.ids[c.orig.node]
    ensures SimplePath(mesh, Received(mesh, net, c).nodes, c.orig, c.path + [c.dest])
  {
    CalmRemembers(net.nodes[c.dest], Key(mesh, c.orig));
    SimpleStays(mesh, net.nodes, Received(mesh, net, c).nodes, c.orig, c.path);
  }

  lemma ReceivedSimple(mesh: Mesh, net: Net, c: Copy)
    requires Inv(mesh, net) && GoodCopy(mesh, net.origs, c) && c.dest < |net.nodes|
    requires AllCalm(net) && PathsSimple(mesh, net) && SimplePath(mesh, net.nodes, c.orig, c.path)
    ensures forall r :: r in Received(mesh, net, c).flight ==>
              SimplePath(mesh, Received(mesh, net, c).nodes, r.orig, r.path)
    ensures forall r :: r in Received(mesh, net, c).relays ==>
              SimplePath(mesh, Received(mesh, net, c).nodes, r.orig, r.path + [r.node])
  {
    var net' := Received(mesh, net, c);
    assert forall n, k :: 0 <= n < |net.nodes| && k in net.nodes[n].heard ==> k in net'.nodes[n].heard;
    if net'.relays != net.relays { RelayExtendsSimply(mesh, net, c); }
    forall r | r in net'.flight
      ensures SimplePath(mesh, net'.nodes, r.orig, r.path)
    {
      if r in net.flight { SimpleStays(mesh, net.nodes, net'.nodes, r.orig, r.path); }
    }
    forall r | r in net'.relays
      ensures SimplePath(mesh, net'.nodes, r.orig, r.path + [r.node])
    {
      if r in net.relays { SimpleStays(mesh, net.nodes, net'.nodes, r.orig, r.path + [r.node]); }
    }
  }

  lemma ReceiveKeepsSimple(mesh: Mesh, net: Net, c: Copy)
    requires Inv(mesh, net) && GoodCopy(mesh, net.origs, c) && PathsSimple(mesh, net)
    requires AllCalm(net) ==> SimplePath(mesh, net.nodes, c.orig, c.path)
    ensures c.dest < |net.nodes| && PathsSimple(mesh, ReceiveCopy(mesh, net, c))
  {
    ReceiveGood(mesh, net, c, net.origs);
    if AllCalm(Received(mesh, net, c)) {
      ReceiveCalm(mesh, net, c);
      ReceivedSimple(mesh, net, c);
    }
  }

  lemma OriginateKeepsSimple(mesh: Mesh, net: Net, o: Origination)
    requires Inv(mesh, net) && PathsSimple(mesh, net) && CanOriginate(mesh, o)
    ensures PathsSimple(mesh, Next(mesh, net, Originate(o)))
  {
    assert SimplePath(mesh, net.nodes, o, [o.node]);
    assert Next(mesh, net, Originate(o)).relays == net.relays;
  }

  lemma StepKeepsSimple(mesh: Mesh, net: Net, step: Step)
    requires Inv(mesh, net) && PathsSimple(mesh, net)
    ensures PathsSimple(mesh, Next(mesh, net, step))
  {
    match step
    case Originate(o) => if CanOriginate(mesh, o) { OriginateKeepsSimple(mesh, net, o); }
    case Receive(k) =>
      if k < |net.flight| {
        assert GoodCopy(mesh, net.origs, net.flight[k]);
        ReceiveKeepsSimple(mesh, net.(flight := Without(net.flight, k)), net.flight[k]);
      }
    case Lose(k) =>
    case Rebuild(n) =>
      if n < |net.nodes| { assert Next(mesh, net, step).nodes[n].epoch > 0; }
  }

  lemma {:induction false} RunKeepsSimple(mesh: Mesh, net: Net, steps: seq<Step>)
    requires Inv(mesh, net) && PathsSimple(mesh, net)
    ensures PathsSimple(mesh, Run(mesh, net, steps))
    decreases |steps|
  {
    if steps != [] {
      StepKeepsInv(mesh, net, steps[0]);
      StepKeepsSimple(mesh, net, steps[0]);
      RunKeepsSimple(mesh, Next(mesh, net, steps[0]), steps[1..]);
    }
  }

  /** In a calm network every relay path, including the relay itself, is simple and avoids its origin. */
  lemma RelayPathsSimple(mesh: Mesh, steps: seq<Step>, r: Relay)
    requires mesh.Valid() && AllCalm(Run(mesh, Quiet(mesh), steps)) && r in Run(mesh, Quiet(mesh), steps).relays
    ensures NoRepeats(r.path + [r.node]) && r.path != [] && r.path[0] == r.orig.node
    ensures r.orig.node !in r.path[1..] + [r.node]
  {
    QuietInv(mesh);
    RunKeepsSimple(mesh, Quiet(mesh), steps);
    RunKeepsInv(mesh, Quiet(mesh), steps);
    assert GoodRelay(mesh, Run(mesh, Quiet(mesh), steps).origs, r);
    var p := r.path + [r.node];
    assert SimplePath(mesh, Run(mesh, Quiet(mesh), steps).nodes, r.orig, p);
    assert r.path[1..] + [r.node] == p[1..];
    assert forall i :: 0 <= i < |p[1..]| ==> p[1..][i] == p[i + 1] != p[0];
  }

  /** The nodes that relayed the packet `key`, one entry per relay. */
  function RelayersOf(es: seq<Event>, key: PacketKey): seq<nat> {
    if es == [] then []
    else RelayersOf(es[..|es| - 1], key) + if es[|es| - 1].key == key then [es[|es| - 1].node] else []
  }

  lemma {:induction false} RelayersDistinct(es: seq<Event>, key: PacketKey)
    requires forall i, j :: 0 <= i < j < |es| ==> es[i] != es[j]
    requires forall i :: 0 <= i < |es| ==> es[i].epoch == 0
    ensures NoRepeats(RelayersOf(es, key))
    ensures forall n :: n in RelayersOf(es, key) ==> Event(n, 0, key) in es
  {
    if es != [] {
      var before := es[..|es| - 1];
      RelayersDistinct(before, key);
      assert forall e :: e in before ==> e in es && e != es[|es| - 1];
    }
  }

  lemma OthersBound(who: seq<nat>, home: nat, n: nat)
    requires NoRepeats(who) && home < n && forall x :: x in who ==> x < n && x != home
    ensures |who| <= n - 1
  {
    NoRepeatsCardinality(who);
    BelowCardinality(Elements(who) + {home}, n);
  }

  lemma CalmEvents(mesh: Mesh, net: Net)
    requires OnceInv(mesh, net) && AllCalm(net)
    ensures var es := Relays(mesh, net.relays);
            && (forall i :: 0 <= i < |es| ==> es[i].epoch == 0)
            && (forall i, j :: 0 <= i < j < |es| ==> es[i] != es[j])
  {
    var es := Relays(mesh, net.relays);
    forall i | 0 <= i < |es|
      ensures Current(net.nodes, es[i]) && Calm(net.nodes[es[i].node]) && es[i].epoch == 0
    {
      assert GoodRelay(mesh, net.origs, net.relays[i]) && Known(net.nodes, es[i]);
    }
  }

  /** In a calm network of N nodes no packet is relayed more than N-1 times. */
  lemma RelayedAtMost(mesh: Mesh, steps: seq<Step>, key: PacketKey)
    requires mesh.Valid() && |mesh.ids| > 0 && AllCalm(Run(mesh, Quiet(mesh), steps))
    ensures |RelayersOf(Relays(mesh, Run(mesh, Quiet(mesh), steps).relays), key)| <= |mesh.ids| - 1
  {
    QuietInv(mesh);
    RunKeepsOnce(mesh, Quiet(mesh), steps);
    CalmRelayedAtMost(mesh, Run(mesh, Quiet(mesh), steps), key);
  }

  lemma CalmRelayedAtMost(mesh: Mesh, net: Net, key: PacketKey)
    requires OnceInv(mesh, net) && AllCalm(net) && |mesh.ids| > 0
    ensures |RelayersOf(Relays(mesh, net.relays), key)| <= |mesh.ids| - 1
  {
    var es := Relays(mesh, net.relays);
    var who := RelayersOf(es, key);
    CalmEvents(mesh, net);
    RelayersDistinct(es, key);
    if who != [] {
      var k :| 0 <= k < |es| && es[k] == Event(who[0], 0, key);
      var home := net.relays[k].orig.node;
      assert GoodRelay(mesh, net.origs, net.relays[k]);
      forall n | n in who
        ensures n < |mesh.ids| && n != home
      {
        var i :| 0 <= i < |es| && es[i] == Event(n, 0, key);
        assert GoodRelay(mesh, net.origs, net.relays[i]);
      }
      OthersBound(who, home, |mesh.ids|);
    }
  }
}
