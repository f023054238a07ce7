/**
 Coverage of the flood. In a round every copy in the air is received, in any order; the copies
 this puts in the air belong to the next round. Rounds are ordinary runs of the network.
 */
module Coverage {
  import opened Bytes
  import opened Packet
  import opened Router
  import opened App
  import opened Network

  /** `k` times: receive the oldest copy in the air. */
  function InOrder(k: nat): (steps: seq<Step>)
    ensures |steps| == k
  {
    if k == 0 then [] else [Receive(0)] + InOrder(k - 1)
  }

  /** All copies in the air, arranged as `order`, are received. */
  function Round(mesh: Mesh, net: Net, order: seq<Copy>): Net {
    Run(mesh, net.(flight := order), InOrder(|order|))
  }

  function Rounds(mesh: Mesh, net: Net, orders: seq<seq<Copy>>): Net {
    if orders == [] then net
    else
      var last := |orders| - 1;
      Round(mesh, Rounds(mesh, net, orders[..last]), orders[last])
  }

  /** Each round receives exactly the copies that are then in the air. */
  ghost predicate Lossless(mesh: Mesh, net: Net, orders: seq<seq<Copy>>) {
    orders != [] ==>
      var last := |orders| - 1;
      && Lossless(mesh, net, orders[..last])
      && multiset(orders[last]) == multiset(Rounds(mesh, net, orders[..last]).flight)
  }

  /** Receives `cs` in order; what they put in the air is kept apart. */
  function ReceiveAll(mesh: Mesh, net: Net, cs: seq<Copy>): Net
    requires |net.nodes| == |mesh.ids| == |mesh.listeners|
    requires forall c :: c in cs ==> c.dest < |net.nodes|
    decreases |cs|
  {
    if cs == [] then net else ReceiveAll(mesh, ReceiveCopy(mesh, net, cs[0]), cs[1..])
  }

  lemma AbsorbFrame(mesh: Mesh, net: Net, c: Copy, heard: Option<PacketKey>, r: RxResult, cache: seq<PacketKey>,
                    waiting: seq<Copy>)
    requires c.dest < |net.nodes| && c.dest < |mesh.listeners|
    ensures var net' := Absorb(mesh, net, c, heard, r, cache);
            Absorb(mesh, net.(flight := waiting + net.flight), c, heard, r, cache) == net'.(flight := waiting + net'.flight)
  {
    if r.Done? && r.fwd.Some? {
      var added := Copies(mesh.listeners[c.dest], ToBytes(r.fwd.value), c.orig, c.path + [c.dest]);
      assert (c.path + [c.dest])[|c.path|] == c.dest;
      assert (waiting + net.flight) + added == waiting + (net.flight + added);
    }
  }

  /** Copies already in the air do not influence a reception. */
  lemma ReceiveFrame(mesh: Mesh, net: Net, c: Copy, waiting: seq<Copy>)
    requires |net.nodes| == |mesh.ids| == |mesh.listeners| && c.dest < |net.nodes|
    ensures var net' := ReceiveCopy(mesh, net, c);
            ReceiveCopy(mesh, net.(flight := waiting + net.flight), c) == net'.(flight := waiting + net'.flight)
  {
    var (r, cache) := ProcessRx(mesh.channel, mesh.ids[c.dest], net.nodes[c.dest].cache, c.raw);
    AbsorbFrame(mesh, net, c, Heard(mesh.channel, c.raw), r, cache, waiting);
  }

  lemma {:induction false} RoundReceivesAll(mesh: Mesh, net: Net, cs: seq<Copy>)
    requires |net.nodes| == |mesh.ids| == |mesh.listeners|
    requires forall c :: c in cs ==> c.dest < |net.nodes|
    ensures Run(mesh, net.(flight := cs + net.flight), InOrder(|cs|)) == ReceiveAll(mesh, net, cs)
    decreases |cs|
  {
    var start := net.(flight := cs + net.flight);
    if cs == [] {
      assert start == net;
    } else {
      var net' := ReceiveCopy(mesh, net, cs[0]);
      assert Without(start.flight, 0) == cs[1..] + net.flight;
      ReceiveFrame(mesh, net, cs[0], cs[1..]);
      assert Next(mesh, start, Receive(0)) == net'.(flight := cs[1..] + net'.flight);
      RoundReceivesAll(mesh, net', cs[1..]);
      assert InOrder(|cs|)[1..] == InOrder(|cs| - 1);
    }
  }

  // ---- Breadth-first structure ----

  /** The nodes at distance exactly `r` from `o`. */
  function Frontier(mesh: Mesh, o: nat, r: nat): set<nat> {
    if r == 0 then {o} else Ball(mesh, o, r) - Ball(mesh, o, r - 1)
  }

  lemma InListeners(mesh: Mesh, s: set<nat>, m: nat, d: nat)
    requires m in s && mesh.Hears(m, d)
    ensures d in ListenersOf(mesh, s)
  {}

  /** Only the frontier can reach new nodes. */
  lemma BallStep(mesh: Mesh, o: nat, r: nat)
    ensures Ball(mesh, o, r + 1) == Ball(mesh, o, r) + ListenersOf(mesh, Frontier(mesh, o, r))
    ensures ListenersOf(mesh, Frontier(mesh, o, r)) - Ball(mesh, o, r) == Frontier(mesh, o, r + 1)
  {
    forall d | d in ListenersOf(mesh, Ball(mesh, o, r))
      ensures d in Ball(mesh, o, r) + ListenersOf(mesh, Frontier(mesh, o, r))
    {
      var m :| m in Ball(mesh, o, r) && mesh.Hears(m, d);
      if m in Frontier(mesh, o, r) {
        InListeners(mesh, Frontier(mesh, o, r), m, d);
      } else {
        InListeners(mesh, Ball(mesh, o, r - 1), m, d);
      }
    }
    forall d | d in ListenersOf(mesh, Frontier(mesh, o, r))
      ensures d in Ball(mesh, o, r + 1)
    {
      var m :| m in Frontier(mesh, o, r) && mesh.Hears(m, d);
      InListeners(mesh, Ball(mesh, o, r), m, d);
    }
  }

  // ---- One flood ----

  function Dests(cs: seq<Copy>): set<nat> {
    set c | c in cs :: c.dest
  }

  function DeliveredTo(net: Net): set<nat> {
    set d | d in net.delivered :: d.node
  }

  ghost predicate Addressed(mesh: Mesh, o: Origination, n: nat) {
    n < |mesh.ids| && (o.to == mesh.ids[n] || o.to == BROADCAST)
  }

  /** Apart from the origin, exactly the nodes of `s` have accepted `o`, and the addressees among them got it. */
  ghost predicate AcceptedBy(mesh: Mesh, net: Net, o: Origination, s: set<nat>) {
    && o.node < |mesh.ids| == |net.nodes|
    && (forall n :: 0 <= n < |net.nodes| && n != o.node ==>
          && net.nodes[n].cache == (if n in s then [Key(mesh, o)] else [])
          && (n in DeliveredTo(net) <==> n in s && Addressed(mesh, o, n)))
  }

  /** All copies in the air stem from `o` and have been transmitted `sent` times; they are headed for `dests`. */
  ghost predicate InAir(cs: seq<Copy>, o: Origination, sent: nat, dests: set<nat>) {
    && (forall c :: c in cs ==> c.orig == o && |c.path| == sent)
    && Dests(cs) == dests
  }

  /** The nodes that can have accepted `o` within `r` rounds. */
  function Reach(mesh: Mesh, o: Origination, r: nat): set<nat> {
    Ball(mesh, o.node, if r <= o.hops then r else o.hops + 1)
  }

  ghost predicate WaveFront(mesh: Mesh, flight: seq<Copy>, o: Origination, r: nat) {
    if r <= o.hops then InAir(flight, o, r + 1, ListenersOf(mesh, Frontier(mesh, o.node, r))) else flight == []
  }

  /** The state of the network after `r` rounds. */
  ghost predicate Wave(mesh: Mesh, net: Net, o: Origination, r: nat) {
    Inv(mesh, net) && AcceptedBy(mesh, net, o, Reach(mesh, o, r)) && WaveFront(mesh, net.flight, o, r)
  }

  /** Half-way through round `r`: the copies headed for `done` have been received. */
  ghost predicate MidWave(mesh: Mesh, net: Net, o: Origination, r: nat, done: set<nat>) {
    && Inv(mesh, net)
    && AcceptedBy(mesh, net, o, Ball(mesh, o.node, r) + done)
    && InAir(net.flight, o, r + 2, if r < o.hops then ListenersOf(mesh, done - Ball(mesh, o.node, r)) else {})
  }

  lemma CopiesDests(mesh: Mesh, n: nat, raw: seq<u8>, o: Origination, path: seq<nat>)
    requires n < |mesh.listeners|
    ensures Dests(Copies(mesh.listeners[n], raw, o, path)) == ListenersOf(mesh, {n})
  {
    var cs := Copies(mesh.listeners[n], raw, o, path);
    forall d | d in mesh.listeners[n]
      ensures d in Dests(cs)
    {
      var k :| 0 <= k < |mesh.listeners[n]| && mesh.listeners[n][k] == d;
      assert cs[k] in cs && cs[k].dest == d;
    }
    forall d | d in Dests(cs)
      ensures d in ListenersOf(mesh, {n})
    {
      InListeners(mesh, {n}, n, d);
    }
  }

  lemma ListenersUnion(mesh: Mesh, s: set<nat>, t: set<nat>)
    ensures ListenersOf(mesh, s + t) == ListenersOf(mesh, s) + ListenersOf(mesh, t)
  {
    forall d | d in ListenersOf(mesh, s + t)
      ensures d in ListenersOf(mesh, s) + ListenersOf(mesh, t)
    {
      var m :| m in s + t && mesh.Hears(m, d);
      if m in s { InListeners(mesh, s, m, d); } else { InListeners(mesh, t, m, d); }
    }
    forall d | d in ListenersOf(mesh, s) + ListenersOf(mesh, t)
      ensures d in ListenersOf(mesh, s + t)
    {
      var m :| m in s + t && mesh.Hears(m, d);
      InListeners(mesh, s + t, m, d);
    }
  }

  lemma AirAppends(mesh: Mesh, cs: seq<Copy>, added: seq<Copy>, o: Origination, sent: nat, a: set<nat>, b: set<nat>)
    requires InAir(cs, o, sent, a) && InAir(added, o, sent, b)
    ensures InAir(cs + added, o, sent, a + b)
  {
    assert forall c :: c in cs + added <==> c in cs || c in added;
  }

  /** A reception adds a delivery to its receiver, or none. */
  lemma ReceiveDelivers(mesh: Mesh, net: Net, c: Copy, n: nat)
    requires |net.nodes| == |mesh.ids| == |mesh.listeners| && c.dest < |net.nodes| && CanOriginate(mesh, c.orig)
    requires 1 <= |c.path| <= c.orig.hops + 1
    ensures n in DeliveredTo(Received(mesh, net, c)) <==>
              n in DeliveredTo(net)
              || (n == c.dest && Key(mesh, c.orig) !in net.nodes[n].cache && Addressed(mesh, c.orig, n))
  {
    var (was, now) := (net.delivered, Received(mesh, net, c).delivered);
    if now != was {
      var d := now[|was|];
      assert d in now && d.node == c.dest;
      assert forall e :: e in now <==> e in was || e == d;
    }
  }

  lemma ReceiveAcceptance(mesh: Mesh, net: Net, o: Origination, r: nat, done: set<nat>, c: Copy)
    requires MidWave(mesh, net, o, r, done) && r <= o.hops && mesh.DistinctIds()
    requires GoodCopy(mesh, net.origs, c) && c.orig == o && |c.path| == r + 1 && c.dest < |net.nodes|
    ensures AcceptedBy(mesh, Received(mesh, net, c), o, Ball(mesh, o.node, r) + (done + {c.dest}))
  {
    var (net', s, t) := (Received(mesh, net, c), Ball(mesh, o.node, r) + done, Ball(mesh, o.node, r) + (done + {c.dest}));
    forall n | 0 <= n < |net.nodes| && n != o.node
      ensures net'.nodes[n].cache == (if n in t then [Key(mesh, o)] else [])
      ensures n in DeliveredTo(net') <==> n in t && Addressed(mesh, o, n)
    {
      assert n in t <==> n in s || n == c.dest;
      ReceiveDelivers(mesh, net, c, n);
    }
  }

  /** The air after a first or repeated reception by `n`, half-way through a round with hops left. */
  lemma AirGrows(mesh: Mesh, flight: seq<Copy>, o: Origination, r: nat, done: set<nat>, n: nat, raw: seq<u8>, path: seq<nat>)
    requires n < |mesh.listeners| && |path| == r + 2
    requires InAir(flight, o, r + 2, ListenersOf(mesh, done - Ball(mesh, o.node, r)))
    ensures var ball := Ball(mesh, o.node, r);
            InAir(if n in ball + done then flight else flight + Copies(mesh.listeners[n], raw, o, path), o, r + 2,
                  ListenersOf(mesh, done + {n} - ball))
  {
    var ball := Ball(mesh, o.node, r);
    if n in ball + done {
      assert done + {n} - ball == done - ball;
    } else {
      CopiesDests(mesh, n, raw, o, path);
      AirAppends(mesh, flight, Copies(mesh.listeners[n], raw, o, path), o, r + 2,
                 ListenersOf(mesh, done - ball), ListenersOf(mesh, {n}));
      ListenersUnion(mesh, done - ball, {n});
      assert done + {n} - ball == (done - ball) + {n};
    }
  }

  lemma ReceiveFlight(mesh: Mesh, net: Net, o: Origination, r: nat, done: set<nat>, c: Copy)
    requires MidWave(mesh, net, o, r, done) && r <= o.hops && mesh.DistinctIds()
    requires GoodCopy(mesh, net.origs, c) && c.orig == o && |c.path| == r + 1 && c.dest < |net.nodes|
    ensures Received(mesh, net, c).flight
            == if r == o.hops || c.dest in Ball(mesh, o.node, r) + done then net.flight
               else net.flight + Copies(mesh.listeners[c.dest], BytesOf(mesh, o, o.hops - r - 1), o, c.path + [c.dest])
  {
    BallGrows(mesh, o.node, 0, r);
    if c.dest != o.node { assert mesh.ids[c.dest] != mesh.ids[o.node]; }
  }

  lemma ReceiveAir(mesh: Mesh, net: Net, o: Origination, r: nat, done: set<nat>, c: Copy)
    requires MidWave(mesh, net, o, r, done) && r <= o.hops && mesh.DistinctIds()
    requires GoodCopy(mesh, net.origs, c) && c.orig == o && |c.path| == r + 1 && c.dest < |net.nodes|
    ensures InAir(Received(mesh, net, c).flight, o, r + 2,
                  if r < o.hops then ListenersOf(mesh, done + {c.dest} - Ball(mesh, o.node, r)) else {})
  {
    ReceiveFlight(mesh, net, o, r, done, c);
    if r < o.hops {
      AirGrows(mesh, net.flight, o, r, done, c.dest, BytesOf(mesh, o, o.hops - r - 1), c.path + [c.dest]);
    }
  }

  lemma {:induction false} WaveReceives(mesh: Mesh, net: Net, o: Origination, r: nat, done: set<nat>, cs: seq<Copy>)
    requires MidWave(mesh, net, o, r, done) && r <= o.hops && mesh.DistinctIds()
    requires forall c :: c in cs ==> GoodCopy(mesh, net.origs, c) && c.orig == o && |c.path| == r + 1 && c.dest < |net.nodes|
    ensures MidWave(mesh, ReceiveAll(mesh, net, cs), o, r, done + Dests(cs))
    decreases |cs|
  {
    if cs == [] {
      assert done + Dests(cs) == done;
    } else {
      var c := cs[0];
      assert c in cs;
      ReceiveGood(mesh, net, c, net.origs);
      ReceiveKeepsInv(mesh, net, c);
      ReceiveAcceptance(mesh, net, o, r, done, c);
      ReceiveAir(mesh, net, o, r, done, c);
      WaveReceives(mesh, ReceiveCopy(mesh, net, c), o, r, done + {c.dest}, cs[1..]);
      assert forall x :: x in cs <==> x == c || x in cs[1..];
      assert done + {c.dest} + Dests(cs[1..]) == done + Dests(cs);
    }
  }

  lemma SameElements(a: seq<Copy>, b: seq<Copy>)
    requires multiset(a) == multiset(b)
    ensures |a| == |b| && (forall c :: c in a <==> c in b) && Dests(a) == Dests(b)
  {
    assert |multiset(a)| == |a| && |multiset(b)| == |b|;
    assert forall c :: c in a <==> c in multiset(a);
    assert forall c :: c in b <==> c in multiset(b);
  }

  /** A whole round is one reception of every copy. */
  lemma RoundIsReceiveAll(mesh: Mesh, net: Net, order: seq<Copy>)
    requires Inv(mesh, net) && multiset(order) == multiset(net.flight)
    ensures forall c :: c in order ==> GoodCopy(mesh, net.origs, c) && c.dest < |net.nodes|
    ensures Round(mesh, net, order) == ReceiveAll(mesh, net.(flight := []), order)
  {
    SameElements(order, net.flight);
    forall c | c in order
      ensures c.dest < |net.nodes| && GoodCopy(mesh, net.origs, c)
    {
      assert GoodCopy(mesh, net.origs, c) && mesh.Hears(c.path[|c.path| - 1], c.dest);
    }
    var start := net.(flight := []);
    assert order + start.flight == order;
    RoundReceivesAll(mesh, start, order);
  }

  lemma WaveOpens(mesh: Mesh, net: Net, o: Origination, r: nat)
    requires Wave(mesh, net, o, r) && r <= o.hops
    ensures MidWave(mesh, net.(flight := []), o, r, {})
  {
    var ball := Ball(mesh, o.node, r);
    assert ball + {} == ball && ListenersOf(mesh, {} - ball) == {};
  }

  lemma FrontCloses(mesh: Mesh, flight: seq<Copy>, o: Origination, r: nat)
    requires r <= o.hops
    requires var reached := ListenersOf(mesh, Frontier(mesh, o.node, r));
             InAir(flight, o, r + 2, if r < o.hops then ListenersOf(mesh, reached - Ball(mesh, o.node, r)) else {})
    ensures WaveFront(mesh, flight, o, r + 1)
  {
    BallStep(mesh, o.node, r);
    NobodyHeaded(flight, o, r + 2);
  }

  lemma ReachGrows(mesh: Mesh, o: Origination, r: nat)
    requires r <= o.hops
    ensures Ball(mesh, o.node, r) + ListenersOf(mesh, Frontier(mesh, o.node, r)) == Reach(mesh, o, r + 1)
  {
    var next := r + 1;
    assert Reach(mesh, o, next) == Ball(mesh, o.node, next);
    BallStep(mesh, o.node, r);
  }

  lemma SameAcceptors(mesh: Mesh, net: Net, o: Origination, s: set<nat>, t: set<nat>)
    requires AcceptedBy(mesh, net, o, s) && s == t
    ensures AcceptedBy(mesh, net, o, t)
  {}

  lemma WaveCloses(mesh: Mesh, net: Net, o: Origination, r: nat, reached: set<nat>)
    requires reached == ListenersOf(mesh, Frontier(mesh, o.node, r))
    requires MidWave(mesh, net, o, r, reached) && r <= o.hops
    ensures Wave(mesh, net, o, r + 1)
  {
    FrontCloses(mesh, net.flight, o, r);
    ReachGrows(mesh, o, r);
    SameAcceptors(mesh, net, o, Ball(mesh, o.node, r) + reached, Reach(mesh, o, r + 1));
  }

  lemma NobodyHeaded(cs: seq<Copy>, o: Origination, sent: nat)
    ensures InAir(cs, o, sent, {}) ==> cs == []
  {
    if cs != [] { assert cs[0] in cs && cs[0].dest in Dests(cs); }
  }

  /** One lossless round carries the wave one link further. */
  lemma WaveAdvances(mesh: Mesh, net: Net, o: Origination, r: nat, order: seq<Copy>)
    requires Wave(mesh, net, o, r) && mesh.DistinctIds() && CanOriginate(mesh, o)
    requires multiset(order) == multiset(net.flight)
    ensures Wave(mesh, Round(mesh, net, order), o, r + 1)
  {
    RoundIsReceiveAll(mesh, net, order);
    SameElements(order, net.flight);
    if r <= o.hops {
      WaveOpens(mesh, net, o, r);
      WaveReceives(mesh, net.(flight := []), o, r, {}, order);
      assert {} + Dests(order) == Dests(order);
      WaveCloses(mesh, Round(mesh, net, order), o, r, Dests(order));
    } else {
      assert net.(flight := []) == net;
    }
  }

  lemma WaveStarts(mesh: Mesh, o: Origination)
    requires mesh.Valid() && CanOriginate(mesh, o)
    ensures Wave(mesh, Next(mesh, Quiet(mesh), Originate(o)), o, 0)
  {
    QuietInv(mesh);
    StepKeepsInv(mesh, Quiet(mesh), Originate(o));
    var net := Next(mesh, Quiet(mesh), Originate(o));
    CopiesDests(mesh, o.node, BytesOf(mesh, o, o.hops), o, [o.node]);
    assert net.flight == Copies(mesh.listeners[o.node], BytesOf(mesh, o, o.hops), o, [o.node]);
  }

  lemma {:induction false} WaveAfter(mesh: Mesh, net: Net, o: Origination, orders: seq<seq<Copy>>)
    requires Wave(mesh, net, o, 0) && mesh.DistinctIds() && CanOriginate(mesh, o) && Lossless(mesh, net, orders)
    ensures Wave(mesh, Rounds(mesh, net, orders), o, |orders|)
  {
    if orders != [] {
      var last := |orders| - 1;
      var before := Rounds(mesh, net, orders[..last]);
      WaveAfter(mesh, net, o, orders[..last]);
      WaveAdvances(mesh, before, o, last, orders[last]);
    }
  }

  /**
   Coverage. After any number of lossless rounds from a quiet network, in whatever order each
   round's copies arrive, a node other than the origin has accepted the packet exactly when
   its distance is at most the number of rounds and at most one more than the hop limit, and
   it has been handed the message exactly when it is also an addressee.
   */
  lemma FloodCovers(mesh: Mesh, o: Origination, orders: seq<seq<Copy>>, n: nat)
    requires mesh.Valid() && mesh.DistinctIds() && CanOriginate(mesh, o)
    requires Lossless(mesh, Next(mesh, Quiet(mesh), Originate(o)), orders)
    requires n < |mesh.ids| && n != o.node
    ensures var net := Rounds(mesh, Next(mesh, Quiet(mesh), Originate(o)), orders);
            var reached := n in Ball(mesh, o.node, if |orders| <= o.hops then |orders| else o.hops + 1);
            && |net.nodes| == |mesh.ids|
            && (Key(mesh, o) in net.nodes[n].cache <==> reached)
            && ((exists d :: d in net.delivered && d.node == n) <==>
                reached && (o.to == mesh.ids[n] || o.to == BROADCAST))
  {
    WaveStarts(mesh, o);
    WaveAfter(mesh, Next(mesh, Quiet(mesh), Originate(o)), o, orders);
  }

  /** The flood is over after one round more than the hop limit. */
  lemma FloodEnds(mesh: Mesh, o: Origination, orders: seq<seq<Copy>>)
    requires mesh.Valid() && mesh.DistinctIds() && CanOriginate(mesh, o)
    requires Lossless(mesh, Next(mesh, Quiet(mesh), Originate(o)), orders) && |orders| > o.hops
    ensures Rounds(mesh, Next(mesh, Quiet(mesh), Originate(o)), orders).flight == []
  {
    WaveStarts(mesh, o);
    WaveAfter(mesh, Next(mesh, Quiet(mesh), Originate(o)), o, orders);
  }
}
