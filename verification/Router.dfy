/** Flood routing: the bounded dedup cache and the per-frame routing decision. */
module Router {
  import opened Bytes
  import opened Packet

  const DEDUP_CAPACITY := 50

  /** (from, id), what identifies a packet. */
  type PacketKey = (u32, u32)

  function KeyOf(h: MeshHeader): PacketKey {
    (h.from, h.id)
  }

  /** The cache after `key` has been looked up: untouched on a hit, else with the oldest entry evicted when full. */
  function Insert(cache: seq<PacketKey>, key: PacketKey): seq<PacketKey> {
    if key in cache then cache
    else (if |cache| == DEDUP_CAPACITY then cache[1..] else cache) + [key]
  }

  class DedupCache {
    var entries: seq<PacketKey>

    constructor ()
      ensures entries == []
    {
      entries := [];
    }

    method CheckAndInsert(from: u32, id: u32) returns (duplicate: bool)
      modifies this
      ensures duplicate == ((from, id) in old(entries))
      ensures entries == Insert(old(entries), (from, id))
    {
      if (from, id) in entries {
        return true;
      }
      if |entries| == DEDUP_CAPACITY {
        entries := entries[1..];
      }
      entries := entries + [(from, id)];
      return false;
    }
  }

  datatype RouteDecision =
    | Deliver(plaintext: seq<u8>)
    | Forward(frame: MeshFrame)
    | DeliverAndForward(plaintext: seq<u8>, frame: MeshFrame)
    | Drop

  function ForUs(h: MeshHeader, nodeId: u32): bool {
    h.to == nodeId || h.to == BROADCAST
  }

  function Relayed(f: MeshFrame): MeshFrame
    requires f.header.hopLimit > 0
  {
    f.(header := f.header.(hopLimit := f.header.hopLimit - 1))
  }

  /** The decision for a frame, given whether its key was in the cache. */
  function Decide(f: MeshFrame, nodeId: u32, plaintext: seq<u8>, seen: bool): RouteDecision {
    if seen then Drop
    else if f.header.hopLimit == 0 then if ForUs(f.header, nodeId) then Deliver(plaintext) else Drop
    else if ForUs(f.header, nodeId) then DeliverAndForward(plaintext, Relayed(f))
    else Forward(Relayed(f))
  }

  method Route(f: MeshFrame, nodeId: u32, plaintext: seq<u8>, dedup: DedupCache) returns (d: RouteDecision)
    modifies dedup
    ensures d == Decide(f, nodeId, plaintext, KeyOf(f.header) in old(dedup.entries))
    ensures dedup.entries == Insert(old(dedup.entries), KeyOf(f.header))
  {
    var h := f.header;
    var duplicate := dedup.CheckAndInsert(h.from, h.id);
    if duplicate {
      return Drop;
    }
    var forUs := h.to == nodeId || h.to == BROADCAST;
    if h.hopLimit == 0 {
      return if forUs then Deliver(plaintext) else Drop;
    }
    var fwd := MeshFrame(h.(hopLimit := h.hopLimit - 1), f.payload);
    if forUs {
      return DeliverAndForward(plaintext, fwd);
    } else {
      return Forward(fwd);
    }
  }

  /** Lowering the hop limit lowers the flag byte, and touches no other byte of the frame. */
  lemma RelayedBytes(f: MeshFrame)
    requires 0 < f.header.hopLimit < 8
    ensures ToBytes(Relayed(f)) == ToBytes(f)[12 := Flags(f.header) - 1]
  {
    var (h, g) := (f.header, Relayed(f).header);
    assert Flags(g) == Flags(h) - 1;
    assert HeaderBytes(g) == HeaderBytes(h)[12 := Flags(h) - 1];
  }

  /** Relaying received bytes lowers byte 12 by one and clears the reserved bytes; nothing else changes. */
  lemma RelayBytes(raw: seq<u8>)
    requires |raw| >= HEADER_LEN && raw[12] % 8 > 0
    ensures FromBytes(raw).Some? && FromBytes(raw).value.header.hopLimit == raw[12] % 8
    ensures ToBytes(Relayed(FromBytes(raw).value)) == raw[12 := raw[12] - 1][14 := 0][15 := 0]
  {
    var f := FromBytes(raw).value;
    ReencodeBytes(raw);
    FieldsDetermineBytes(raw, f.header);
    RelayedBytes(f);
  }

  // ---- The cache over whole call sequences ----

  /** The cache after looking up `keys` in order, starting empty. */
  function CacheAfter(keys: seq<PacketKey>): seq<PacketKey> {
    if keys == [] then [] else Insert(CacheAfter(keys[..|keys| - 1]), keys[|keys| - 1])
  }

  /** The keys that were reported as new, in order. */
  function Accepted(keys: seq<PacketKey>): seq<PacketKey> {
    if keys == [] then []
    else
      var (before, key) := (keys[..|keys| - 1], keys[|keys| - 1]);
      if key in CacheAfter(before) then Accepted(before) else Accepted(before) + [key]
  }

  function Last<T>(s: seq<T>, n: nat): seq<T> {
    if |s| <= n then s else s[|s| - n..]
  }

  ghost predicate NoRepeats<T>(s: seq<T>) {
    forall i, j :: 0 <= i < j < |s| ==> s[i] != s[j]
  }

  function Elements<T>(s: seq<T>): set<T> {
    set x | x in s
  }

  /** The cache is exactly the window of the last fifty accepted keys, and never holds a key twice. */
  lemma {:induction false} CacheIsWindow(keys: seq<PacketKey>)
    ensures CacheAfter(keys) == Last(Accepted(keys), DEDUP_CAPACITY)
    ensures NoRepeats(CacheAfter(keys))
  {
    if keys != [] {
      CacheIsWindow(keys[..|keys| - 1]);
    }
  }

  lemma LastContains<T>(s: seq<T>, n: nat, i: nat)
    requires i < |s| <= i + n
    ensures s[i] in Last(s, n)
  {
    assert Last(s, n)[i - (|s| - |Last(s, n)|)] == s[i];
  }

  /** Any fifty-one consecutive acceptances are pairwise distinct. */
  lemma {:induction false} AcceptancesDistinct(keys: seq<PacketKey>, i: nat, j: nat)
    requires i < j < |Accepted(keys)| && j - i <= DEDUP_CAPACITY
    ensures Accepted(keys)[i] != Accepted(keys)[j]
  {
    var before := keys[..|keys| - 1];
    if j < |Accepted(before)| {
      AcceptancesDistinct(before, i, j);
    } else {
      CacheIsWindow(before);
      LastContains(Accepted(before), DEDUP_CAPACITY, i);
    }
  }

  lemma LastOnly<T>(s: seq<T>, n: nat, i: nat)
    requires i + n < |s| && s[i] !in s[i + 1..]
    ensures s[i] !in Last(s, n)
  {
    var w := Last(s, n);
    forall k | 0 <= k < |w|
      ensures w[k] != s[i]
    {
      assert w[k] == s[i + 1..][|s| - n + k - i - 1];
    }
  }

  /** A key last accepted at position `i` is reported as a duplicate exactly until fifty later acceptances. */
  lemma DuplicateIff(keys: seq<PacketKey>, i: nat)
    requires i < |Accepted(keys)| && Accepted(keys)[i] !in Accepted(keys)[i + 1..]
    ensures Accepted(keys)[i] in CacheAfter(keys) <==> |Accepted(keys)| - i <= DEDUP_CAPACITY
  {
    CacheIsWindow(keys);
    if |Accepted(keys)| <= i + DEDUP_CAPACITY {
      LastContains(Accepted(keys), DEDUP_CAPACITY, i);
    } else {
      LastOnly(Accepted(keys), DEDUP_CAPACITY, i);
    }
  }

  lemma LastElements<T>(s: seq<T>, n: nat, x: T)
    requires x in Last(s, n)
    ensures x in s
  {}

  lemma {:induction false} AcceptedElement(keys: seq<PacketKey>, k: PacketKey)
    ensures k in Accepted(keys) <==> k in keys
  {
    if keys != [] {
      var (before, key) := (keys[..|keys| - 1], keys[|keys| - 1]);
      AcceptedElement(before, k);
      assert k in keys <==> k in before || k == key;
      if key in CacheAfter(before) {
        CacheIsWindow(before);
        LastElements(Accepted(before), DEDUP_CAPACITY, key);
      }
    }
  }

  lemma AcceptedElements(keys: seq<PacketKey>)
    ensures Elements(Accepted(keys)) == Elements(keys)
  {
    forall k { AcceptedElement(keys, k); }
  }

  lemma {:induction false} NoRepeatsCardinality<T>(s: seq<T>)
    requires NoRepeats(s)
    ensures |Elements(s)| == |s|
  {
    if s != [] {
      var (t, x) := (s[..|s| - 1], s[|s| - 1]);
      NoRepeatsCardinality(t);
      assert s == t + [x] && Elements(s) == Elements(t) + {x} && x !in Elements(t);
    }
  }

  lemma ElementsMonotone(s: seq<PacketKey>, n: nat)
    requires n <= |s|
    ensures Elements(s[..n]) <= Elements(s) && |Elements(s[..n])| <= |Elements(s)|
  {
    SubsetCardinality(Elements(s[..n]), Elements(s));
  }

  lemma SubsetCardinality<T>(a: set<T>, b: set<T>)
    requires a <= b
    ensures |a| <= |b|
  {
    assert |b| == |a| + |b - a| by { assert b == a + (b - a); }
  }

  /** While at most fifty distinct keys have been seen, nothing is evicted and every key is accepted once. */
  lemma {:induction false} FewKeysAcceptedOnce(keys: seq<PacketKey>)
    requires |Elements(keys)| <= DEDUP_CAPACITY
    ensures CacheAfter(keys) == Accepted(keys) && NoRepeats(Accepted(keys))
  {
    if keys != [] {
      var before := keys[..|keys| - 1];
      ElementsMonotone(keys, |keys| - 1);
      FewKeysAcceptedOnce(before);
      assert NoRepeats(Accepted(keys));
      NoRepeatsCardinality(Accepted(keys));
      AcceptedElements(keys);
      CacheIsWindow(keys);
    }
  }

  lemma {:induction false} DistinctAllAccepted(keys: seq<PacketKey>)
    requires NoRepeats(keys)
    ensures Accepted(keys) == keys
  {
    if keys != [] {
      var (before, key) := (keys[..|keys| - 1], keys[|keys| - 1]);
      DistinctAllAccepted(before);
      CacheIsWindow(before);
      if key in CacheAfter(before) { LastElements(before, DEDUP_CAPACITY, key); }
      assert keys == before + [key];
    }
  }

  /** The bound is tight: after any fifty-one distinct keys the first is accepted a second time. */
  lemma FiftyOneKeysForget(keys: seq<PacketKey>)
    requires NoRepeats(keys) && |keys| == DEDUP_CAPACITY + 1
    ensures Accepted(keys + [keys[0]]) == keys + [keys[0]]
  {
    DistinctAllAccepted(keys);
    CacheIsWindow(keys);
    assert (keys + [keys[0]])[..|keys|] == keys;
    assert forall k :: 0 <= k < DEDUP_CAPACITY ==> keys[1..][k] == keys[k + 1] != keys[0];
  }
}
