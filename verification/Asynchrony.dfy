/** The flood without rounds: what a loss-free run keeps in an arbitrary order of events. */
module Asynchrony {
  import opened Bytes
  import opened Packet
  import opened App
  import opened Network

  /** Node `d` has processed a copy of `o`, or one is on its way. */
  ghost predicate Served(mesh: Mesh, net: Net, o: Origination, d: nat) {
    && o.node < |mesh.ids| && d < |net.nodes|
    && (Key(mesh, o) in net.nodes[d].heard || exists c :: c in net.flight && c.orig == o && c.dest == d)
  }

  /** As long as nothing is lost or rebuilt, everyone who hears a transmission is served. */
  ghost predicate AllServed(mesh: Mesh, net: Net) {
    net.lost == 0 && (forall n :: 0 <= n < |net.nodes| ==> net.nodes[n].epoch == 0) ==>
      && (forall o, d :: o in net.origs && mesh.Hears(o.node, d) ==> Served(mesh, net, o, d))
      && (forall r, d :: r in net.relays && mesh.Hears(r.node, d) ==> Served(mesh, net, r.orig, d))
  }

  lemma NextIsReceived(mesh: Mesh, net: Net, k: nat)
    requires Inv(mesh, net) && k < |net.flight|
    ensures GoodCopy(mesh, net.origs, net.flight[k]) && net.flight[k].dest < |net.nodes|
    ensures Next(mesh, net, Receive(k)) == Received(mesh, net.(flight := Without(net.flight, k)), net.flight[k])
  {
    assert GoodCopy(mesh, net.origs, net.flight[k]);
    ReceiveGood(mesh, net.(flight := Without(net.flight, k)), net.flight[k], net.origs);
  }

  /** A reception leaves the other copies in the air, and its own receiver has heard the packet. */
  lemma ReceivedKeeps(mesh: Mesh, net: Net, c: Copy)
    requires mesh.Valid() && |net.nodes| == |mesh.ids| && GoodCopy(mesh, net.origs, c) && c.dest < |net.nodes|
    ensures var net' := Received(mesh, net, c);
            && |net'.nodes| == |net.nodes| && Key(mesh, c.orig) in net'.nodes[c.dest].heard
            && (forall w :: w in net.flight ==> w in net'.flight)
            && (forall n, key :: 0 <= n < |net.nodes| && key in net.nodes[n].heard ==> key in net'.nodes[n].heard)
  {}

  lemma OthersRemain(cs: seq<Copy>, k: nat, w: Copy)
    requires k < |cs| && w in cs && w != cs[k]
    ensures w in Without(cs, k)
  {
    var i :| 0 <= i < |cs| && cs[i] == w;
    assert Without(cs, k)[if i < k then i else i - 1] == w;
  }

  lemma ReceiveServes(mesh: Mesh, net: Net, k: nat, o: Origination, d: nat)
    requires Inv(mesh, net) && k < |net.flight| && Served(mesh, net, o, d)
    ensures Served(mesh, Next(mesh, net, Receive(k)), o, d)
  {
    var (c, rest) := (net.flight[k], net.(flight := Without(net.flight, k)));
    NextIsReceived(mesh, net, k);
    ReceivedKeeps(mesh, rest, c);
    if Key(mesh, o) !in net.nodes[d].heard {
      var w :| w in net.flight && w.orig == o && w.dest == d;
      if w != c { OthersRemain(net.flight, k, w); }
    }
  }

  lemma CopyFor(listeners: seq<nat>, raw: seq<u8>, o: Origination, path: seq<nat>, d: nat)
    requires d in listeners
    ensures exists c :: c in Copies(listeners, raw, o, path) && c.orig == o && c.dest == d
  {
    var i :| 0 <= i < |listeners| && listeners[i] == d;
    assert Copies(listeners, raw, o, path)[i] in Copies(listeners, raw, o, path);
  }

  /** A relay leaves one copy in the air for each of its listeners. */
  lemma RelayedCopy(mesh: Mesh, net: Net, c: Copy, r: Relay, d: nat)
    requires mesh.Valid() && |net.nodes| == |mesh.ids| && GoodCopy(mesh, net.origs, c) && c.dest < |net.nodes|
    requires mesh.Hears(r.node, d) && r in Received(mesh, net, c).relays && r !in net.relays
    ensures r.orig == c.orig && exists w :: w in Received(mesh, net, c).flight && w.orig == r.orig && w.dest == d
  {
    var left := c.orig.hops - (|c.path| - 1);
    var (raw, path) := (BytesOf(mesh, c.orig, left - 1), c.path + [c.dest]);
    CopyFor(mesh.listeners[c.dest], raw, c.orig, path, d);
    assert forall w :: w in Copies(mesh.listeners[c.dest], raw, c.orig, path) ==> w in Received(mesh, net, c).flight;
  }

  lemma RelayServes(mesh: Mesh, net: Net, k: nat, r: Relay, d: nat)
    requires Inv(mesh, net) && k < |net.flight| && mesh.Hears(r.node, d)
    requires r in Next(mesh, net, Receive(k)).relays && r !in net.relays
    ensures Served(mesh, Next(mesh, net, Receive(k)), r.orig, d)
  {
    NextIsReceived(mesh, net, k);
    RelayedCopy(mesh, net.(flight := Without(net.flight, k)), net.flight[k], r, d);
  }

  lemma ReceiveKeepsServed(mesh: Mesh, net: Net, k: nat)
    requires Inv(mesh, net) && AllServed(mesh, net) && k < |net.flight|
    ensures AllServed(mesh, Next(mesh, net, Receive(k)))
  {
    var net' := Next(mesh, net, Receive(k));
    ReceiveKeepsPast(mesh, net, k);
    if net'.lost == 0 && (forall n :: 0 <= n < |net'.nodes| ==> net'.nodes[n].epoch == 0) {
      assert forall n :: 0 <= n < |net.nodes| ==> net.nodes[n].epoch == net'.nodes[n].epoch;
      forall o, d | o in net'.origs && mesh.Hears(o.node, d)
        ensures Served(mesh, net', o, d)
      {
        ReceiveServes(mesh, net, k, o, d);
      }
      forall r, d | r in net'.relays && mesh.Hears(r.node, d)
        ensures Served(mesh, net', r.orig, d)
      {
        if r in net.relays { ReceiveServes(mesh, net, k, r.orig, d); } else { RelayServes(mesh, net, k, r, d); }
      }
    }
  }

  lemma ReceiveKeepsPast(mesh: Mesh, net: Net, k: nat)
    requires Inv(mesh, net) && k < |net.flight|
    ensures var net' := Next(mesh, net, Receive(k));
            && net'.lost == net.lost && net'.origs == net.origs && |net'.nodes| == |net.nodes|
            && forall n :: 0 <= n < |net.nodes| ==> net'.nodes[n].epoch == net.nodes[n].epoch
  {
    NextIsReceived(mesh, net, k);
  }

  /** From `net` to `net'` the nodes and the copies in the air stay, and maybe more copies come. */
  ghost predicate AddsCopies(net: Net, net': Net) {
    && net'.nodes == net.nodes && net'.lost == net.lost && net'.relays == net.relays
    && forall c :: c in net.flight ==> c in net'.flight
  }

  lemma OriginateAdds(mesh: Mesh, net: Net, o: Origination, d: nat)
    requires CanOriginate(mesh, o)
    ensures var net' := Next(mesh, net, Originate(o));
            && AddsCopies(net, net') && net'.origs == net.origs + [o]
            && (mesh.Hears(o.node, d) ==> exists c :: c in net'.flight && c.orig == o && c.dest == d)
  {
    var raw := ToBytes(FrameFor(mesh.channel, mesh.ids[o.node], o.to, o.data, o.id, o.hops));
    if mesh.Hears(o.node, d) { CopyFor(mesh.listeners[o.node], raw, o, [o.node], d); }
  }

  lemma OriginateKeepsServed(mesh: Mesh, net: Net, o: Origination)
    requires Inv(mesh, net) && AllServed(mesh, net) && CanOriginate(mesh, o)
    ensures AllServed(mesh, Next(mesh, net, Originate(o)))
  {
    var net' := Next(mesh, net, Originate(o));
    forall d: nat
      ensures AddsCopies(net, net') && net'.origs == net.origs + [o] && (mesh.Hears(o.node, d) ==> Served(mesh, net', o, d))
    {
      OriginateAdds(mesh, net, o, d);
      if mesh.Hears(o.node, d) { assert d in mesh.listeners[o.node]; }
    }
    ServedStays(mesh, net, net', o);
  }

  lemma ServedStays(mesh: Mesh, net: Net, net': Net, o: Origination)
    requires AllServed(mesh, net) && AddsCopies(net, net') && net'.origs == net.origs + [o]
    requires forall d: nat :: mesh.Hears(o.node, d) ==> Served(mesh, net', o, d)
    ensures AllServed(mesh, net')
  {
    assert forall p, d :: Served(mesh, net, p, d) ==> Served(mesh, net', p, d);
  }

  lemma {:induction false} RunKeepsServed(mesh: Mesh, net: Net, steps: seq<Step>)
    requires Inv(mesh, net) && AllServed(mesh, net)
    ensures Inv(mesh, Run(mesh, net, steps)) && AllServed(mesh, Run(mesh, net, steps))
    decreases |steps|
  {
    if steps != [] {
      match steps[0] {
        case Originate(o) => if CanOriginate(mesh, o) { OriginateKeepsServed(mesh, net, o); }
        case Receive(k) => if k < |net.flight| { ReceiveKeepsServed(mesh, net, k); }
        case Lose(k) =>
        case Rebuild(n) => if n < |net.nodes| { assert Next(mesh, net, steps[0]).nodes[n].epoch > 0; }
      }
      StepKeepsInv(mesh, net, steps[0]);
      RunKeepsServed(mesh, Next(mesh, net, steps[0]), steps[1..]);
    }
  }

  /**
   What does hold in every order of events: when a run without losses and rebuilds has come to
   rest, every node that hears the origin or any relay of a packet has processed the packet.
   */
  lemma AtRestEveryoneInEarshotHeard(mesh: Mesh, steps: seq<Step>)
    requires mesh.Valid()
    requires var net := Run(mesh, Quiet(mesh), steps);
             net.lost == 0 && net.flight == [] && forall n :: 0 <= n < |net.nodes| ==> net.nodes[n].epoch == 0
    ensures var net := Run(mesh, Quiet(mesh), steps);
            && |net.nodes| == |mesh.ids|
            && (forall o, d: nat :: o in net.origs && mesh.Hears(o.node, d) ==>
                  o.node < |mesh.ids| && d < |net.nodes| && Key(mesh, o) in net.nodes[d].heard)
            && (forall r, d: nat :: r in net.relays && mesh.Hears(r.node, d) ==>
                  r.orig.node < |mesh.ids| && d < |net.nodes| && Key(mesh, r.orig) in net.nodes[d].heard)
  {
    QuietInv(mesh);
    RunKeepsServed(mesh, Quiet(mesh), steps);
    var net := Run(mesh, Quiet(mesh), steps);
    assert forall o, d :: o in net.origs && mesh.Hears(o.node, d) ==> Served(mesh, net, o, d);
    assert forall r, d :: r in net.relays && mesh.Hears(r.node, d) ==> Served(mesh, net, r.orig, d);
  }
}
