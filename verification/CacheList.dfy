/** What a cache shard does, on its entries in order of use, the most recent first
    (core/cache/cache.cpp). */
module CacheList {
  import opened DnsTypes
  import opened ResolverTask

  /** Clock ticks in a second; TTLs are whole seconds. */
  const SECOND := 1_000_000_000
  const NODE_OVERHEAD := 64

  /** Sizes of the records in memory, which differ between platforms. */
  datatype Sizes = Sizes(key: nat, entry: nat, rr: nat, str: nat)

  datatype CacheConfig = CacheConfig(budget: nat, minTtl: u32, maxTtl: u32, sizes: Sizes)

  datatype CacheEntry = CacheEntry(records: seq<RR>, trust: TrustRank, expiresAt: nat, insertedAt: nat, hitCount: nat,
                                   negative: bool)

  datatype Node = Node(key: QKey, entry: CacheEntry, bytes: nat)

  function RankOf(t: TrustRank): nat {
    match t
    case Additional => 0
    case Glue => 1
    case Authority => 2
    case Answer => 3
  }

  /** Glue is worth more than other additional data, what a referral says more than
      glue, and an authoritative answer most (section 5.4.1 of RFC 2181). */
  lemma RankOrder()
    ensures RankOf(Additional) < RankOf(Glue) < RankOf(Authority) < RankOf(Answer)
  {
  }

  // ─── Memory accounting ────────────────────────────────────────────────────

  function NameBytes(z: Sizes, labels: seq<Label>): nat {
    2 * (|labels| * z.str + WireLength(labels))
  }

  function StringsBytes(z: Sizes, strings: seq<Bytes>): nat {
    if strings == [] then 0 else z.str + |strings[0]| + StringsBytes(z, strings[1..])
  }

  function RdataBytes(z: Sizes, d: RData): nat {
    match d
    case RDataA(_) => 0
    case RDataAAAA(_) => 0
    case RDataNS(n) => NameBytes(z, n.labels)
    case RDataCNAME(n) => NameBytes(z, n.labels)
    case RDataPTR(n) => NameBytes(z, n.labels)
    case RDataMX(_, n) => NameBytes(z, n.labels)
    case RDataSOA(m, r, _, _, _, _, _) => NameBytes(z, m.labels) + NameBytes(z, r.labels)
    case RDataTXT(s) => StringsBytes(z, s)
    case RDataRaw(b) => |b|
  }

  function RecordsBytes(z: Sizes, rrs: seq<RR>): nat {
    if rrs == [] then 0
    else z.rr + NameBytes(z, rrs[0].name.labels) + RdataBytes(z, rrs[0].rdata) + RecordsBytes(z, rrs[1..])
  }

  function EntryBytes(z: Sizes, key: QKey, records: seq<RR>): nat {
    NODE_OVERHEAD + z.key + z.entry + NameBytes(z, key.name) + RecordsBytes(z, records)
  }

  function TotalBytes(s: seq<Node>): nat {
    if s == [] then 0 else s[0].bytes + TotalBytes(s[1..])
  }

  /** Records are counted one by one: each for itself, its owner's labels in both
      forms, and whatever of its data has no fixed size. */
  lemma {:induction false} RecordsCount(z: Sizes, a: seq<RR>, rr: RR)
    ensures RecordsBytes(z, a + [rr]) == RecordsBytes(z, a) + z.rr + RdataBytes(z, rr.rdata)
                                         + 2 * (|rr.name.labels| * z.str + WireLength(rr.name.labels))
    ensures rr.rdata.RDataRaw? ==> RdataBytes(z, rr.rdata) == |rr.rdata.data|
    ensures rr.rdata.RDataCNAME? ==>
              RdataBytes(z, rr.rdata) == 2 * (|rr.rdata.target.labels| * z.str + WireLength(rr.rdata.target.labels))
  {
    if a == [] {
      assert [rr][1..] == [] && a + [rr] == [rr];
    } else {
      RecordsCount(z, a[1..], rr);
      assert (a + [rr])[1..] == a[1..] + [rr];
    }
    hide WireLength;
  }

  lemma {:induction false} TotalConcat(a: seq<Node>, b: seq<Node>)
    ensures TotalBytes(a + b) == TotalBytes(a) + TotalBytes(b)
  {
    if a == [] {
      assert a + b == b;
    } else {
      assert (a + b)[1..] == a[1..] + b;
      TotalConcat(a[1..], b);
    }
  }

  lemma TotalAt(s: seq<Node>, i: nat)
    requires i < |s|
    ensures TotalBytes(s) == TotalBytes(s[..i]) + s[i].bytes + TotalBytes(s[i + 1..])
  {
    assert s == s[..i] + s[i..] && s[i..] == [s[i]] + s[i + 1..];
    TotalConcat(s[..i], s[i..]);
    TotalConcat([s[i]], s[i + 1..]);
    assert TotalBytes([s[i]]) == s[i].bytes;
  }

  // ─── Entries by key ───────────────────────────────────────────────────────

  predicate DistinctKeys(s: seq<Node>) {
    forall i, j :: 0 <= i < j < |s| ==> s[i].key != s[j].key
  }

  predicate Has(s: seq<Node>, key: QKey) {
    exists i :: 0 <= i < |s| && s[i].key == key
  }

  /** Where a key is; past the end if nowhere. */
  function Find(s: seq<Node>, key: QKey): (i: nat)
    ensures i <= |s| && (i < |s| ==> s[i].key == key) && (forall j :: 0 <= j < i ==> s[j].key != key)
    ensures i < |s| <==> Has(s, key)
  {
    if s == [] || s[0].key == key then 0
    else
      assert forall j :: 1 <= j < |s| ==> s[j] == s[1..][j - 1];
      1 + Find(s[1..], key)
  }

  function RemoveAt(s: seq<Node>, i: nat): seq<Node>
    requires i < |s|
  {
    s[..i] + s[i + 1..]
  }

  lemma RemoveTotal(s: seq<Node>, i: nat)
    requires i < |s|
    ensures TotalBytes(RemoveAt(s, i)) == TotalBytes(s) - s[i].bytes
  {
    TotalAt(s, i);
    TotalConcat(s[..i], s[i + 1..]);
  }

  lemma RemoveDistinct(s: seq<Node>, i: nat)
    requires i < |s| && DistinctKeys(s)
    ensures DistinctKeys(RemoveAt(s, i))
    ensures |RemoveAt(s, i)| == |s| - 1
    ensures forall j :: 0 <= j < |s| - 1 ==> RemoveAt(s, i)[j] in s && RemoveAt(s, i)[j].key != s[i].key
    ensures forall j :: 0 <= j < |s| && j != i ==> s[j] in RemoveAt(s, i)
  {
    var r := RemoveAt(s, i);
    assert forall j :: 0 <= j < |r| ==> r[j] == if j < i then s[j] else s[j + 1];
    forall j | 0 <= j < |s| && j != i
      ensures s[j] in r
    {
      assert r[if j < i then j else j - 1] == s[j];
    }
  }

  lemma RemoveKeeps(s: seq<Node>, i: nat)
    requires i < |s| && DistinctKeys(s)
    ensures DistinctKeys(RemoveAt(s, i)) && TotalBytes(RemoveAt(s, i)) == TotalBytes(s) - s[i].bytes
    ensures !Has(RemoveAt(s, i), s[i].key)
    ensures forall n :: n in RemoveAt(s, i) <==> n in s && n.key != s[i].key
  {
    hide TotalBytes, DistinctKeys, RemoveAt;
    RemoveTotal(s, i);
    RemoveDistinct(s, i);
    var r := RemoveAt(s, i);
    forall n | n in s && n.key != s[i].key
      ensures n in r
    {
      var j :| 0 <= j < |s| && s[j] == n;
    }
  }

  // ─── Operations ───────────────────────────────────────────────────────────

  /** Entries in use longest ago go, until the rest fits; never the first. */
  function Trimmed(s: seq<Node>, budget: nat): seq<Node> {
    if TotalBytes(s) > budget && |s| > 1 then Trimmed(s[..|s| - 1], budget) else s
  }

  function Clamp(cfg: CacheConfig, ttl: u32): u32 {
    var atLeast := if ttl < cfg.minTtl then cfg.minTtl else ttl;
    if atLeast < cfg.maxTtl then atLeast else cfg.maxTtl
  }

  function NewNode(cfg: CacheConfig, ins: Insert, now: nat): Node {
    Node(ins.key,
         CacheEntry(ins.entry.records, ins.entry.trust, now + Clamp(cfg, ins.ttl) * SECOND, now, 0, ins.entry.negative),
         EntryBytes(cfg.sizes, ins.key, ins.entry.records))
  }

  predicate Live(e: CacheEntry, now: nat) {
    e.expiresAt > now
  }

  /** A write loses to a higher rank, unless that has expired (section 5.4.1 of
      RFC 2181). */
  predicate Outranked(s: seq<Node>, ins: Insert, now: nat) {
    var i := Find(s, ins.key);
    i < |s| && Live(s[i].entry, now) && RankOf(s[i].entry.trust) > RankOf(ins.entry.trust)
  }

  /** Is the write stored? */
  predicate Accepted(cfg: CacheConfig, s: seq<Node>, ins: Insert, now: nat) {
    Clamp(cfg, ins.ttl) != 0 && !Outranked(s, ins, now) && NewNode(cfg, ins, now).bytes <= cfg.budget
  }

  function Evicted(s: seq<Node>, key: QKey): seq<Node> {
    if Find(s, key) < |s| then RemoveAt(s, Find(s, key)) else s
  }

  function Inserted(cfg: CacheConfig, s: seq<Node>, ins: Insert, now: nat): seq<Node> {
    if Clamp(cfg, ins.ttl) == 0 || Outranked(s, ins, now) then s
    else if NewNode(cfg, ins, now).bytes > cfg.budget then Evicted(s, ins.key)
    else Trimmed([NewNode(cfg, ins, now)] + Evicted(s, ins.key), cfg.budget)
  }

  /** A hit: a live entry, with the whole seconds left as its TTLs. */
  function WithTtl(rrs: seq<RR>, ttl: u32): seq<RR> {
    seq(|rrs|, i requires 0 <= i < |rrs| => rrs[i].(ttl := ttl))
  }

  /** Seconds left, as the thirty-two bits of a TTL. */
  function Remaining(e: CacheEntry, now: nat): u32
    requires Live(e, now)
  {
    ((e.expiresAt - now) / SECOND) % 0x1_0000_0000
  }

  predicate Hits(s: seq<Node>, key: QKey, now: nat) {
    var i := Find(s, key);
    i < |s| && Live(s[i].entry, now)
  }

  function Used(s: seq<Node>, i: nat): seq<Node>
    requires i < |s|
  {
    [s[i].(entry := s[i].entry.(hitCount := s[i].entry.hitCount + 1))] + RemoveAt(s, i)
  }

  function LookedUp(s: seq<Node>, key: QKey, now: nat): (seq<Node>, Option<CacheEntry>) {
    if !Hits(s, key, now) then (s, None)
    else
      var i := Find(s, key);
      var e := s[i].entry.(hitCount := s[i].entry.hitCount + 1);
      (Used(s, i), Some(e.(records := WithTtl(e.records, Remaining(e, now)))))
  }

  // ─── What every operation keeps ───────────────────────────────────────────

  predicate NodeOk(cfg: CacheConfig, n: Node) {
    && n.bytes == EntryBytes(cfg.sizes, n.key, n.entry.records)
    && n.entry.insertedAt < n.entry.expiresAt <= n.entry.insertedAt + cfg.maxTtl * SECOND
  }

  /** Each key once, sizes as accounted for, all within the budget. */
  predicate ShardOk(cfg: CacheConfig, s: seq<Node>) {
    DistinctKeys(s) && TotalBytes(s) <= cfg.budget && forall i :: 0 <= i < |s| ==> NodeOk(cfg, s[i])
  }

  /** Trimming keeps the most recently used entries: as many as fit, and one. */
  lemma {:induction false} TrimmedKeeps(s: seq<Node>, budget: nat) returns (k: nat)
    ensures k <= |s| && Trimmed(s, budget) == s[..k] && (s != [] ==> k > 0)
    ensures k < |s| ==> TotalBytes(s[..k + 1]) > budget
    ensures k > 1 ==> TotalBytes(s[..k]) <= budget
  {
    if TotalBytes(s) > budget && |s| > 1 {
      k := TrimmedKeeps(s[..|s| - 1], budget);
      assert s[..|s| - 1][..k] == s[..k];
      if k < |s| - 1 { assert s[..|s| - 1][..k + 1] == s[..k + 1]; } else { assert s[..k + 1] == s; }
    } else {
      k := |s|;
      assert s[..k] == s;
    }
  }

  lemma TrimmedOk(cfg: CacheConfig, s: seq<Node>)
    requires DistinctKeys(s) && (forall i :: 0 <= i < |s| ==> NodeOk(cfg, s[i])) && s != [] && s[0].bytes <= cfg.budget
    ensures ShardOk(cfg, Trimmed(s, cfg.budget)) && Trimmed(s, cfg.budget) != [] && Trimmed(s, cfg.budget)[0] == s[0]
    ensures forall n :: n in Trimmed(s, cfg.budget) ==> n in s
  {
    var k := TrimmedKeeps(s, cfg.budget);
    if k == 1 {
      assert s[..1] == [s[0]] && TotalBytes([s[0]]) == s[0].bytes;
    }
    hide NodeOk, Trimmed;
  }

  lemma EvictedOk(cfg: CacheConfig, s: seq<Node>, key: QKey)
    requires ShardOk(cfg, s)
    ensures ShardOk(cfg, Evicted(s, key)) && !Has(Evicted(s, key), key)
    ensures forall n :: n in Evicted(s, key) <==> n in s && n.key != key
  {
    var i := Find(s, key);
    if i < |s| {
      RemoveKeeps(s, i);
      assert forall j :: 0 <= j < |s| - 1 ==> RemoveAt(s, i)[j] in s;
    }
    hide NodeOk;
  }

  lemma InsertedOk(cfg: CacheConfig, s: seq<Node>, ins: Insert, now: nat)
    requires ShardOk(cfg, s)
    ensures ShardOk(cfg, Inserted(cfg, s, ins, now))
    ensures forall n :: n in Inserted(cfg, s, ins, now) ==>
              if Accepted(cfg, s, ins, now) then (n in s && n.key != ins.key) || n == NewNode(cfg, ins, now) else n in s
    ensures Accepted(cfg, s, ins, now) ==>
              Inserted(cfg, s, ins, now) != [] && Inserted(cfg, s, ins, now)[0] == NewNode(cfg, ins, now)
  {
    EvictedOk(cfg, s, ins.key);
    if Accepted(cfg, s, ins, now) {
      var n := NewNode(cfg, ins, now);
      var t := [n] + Evicted(s, ins.key);
      assert NodeOk(cfg, n);
      hide NodeOk, EntryBytes, Evicted;
      assert DistinctKeys(t) by {
        forall j | 0 <= j < |Evicted(s, ins.key)|
          ensures Evicted(s, ins.key)[j].key != ins.key
        {
        }
      }
      TrimmedOk(cfg, t);
    }
  }

  lemma LookedUpOk(cfg: CacheConfig, s: seq<Node>, key: QKey, now: nat)
    requires ShardOk(cfg, s)
    ensures ShardOk(cfg, LookedUp(s, key, now).0)
  {
    if Hits(s, key, now) { UsedOk(cfg, s, Find(s, key)); }
  }

  lemma UsedOk(cfg: CacheConfig, s: seq<Node>, i: nat)
    requires ShardOk(cfg, s) && i < |s|
    ensures ShardOk(cfg, Used(s, i))
  {
    hide EntryBytes, RemoveAt;
    RemoveTotal(s, i);
    RemoveDistinct(s, i);
    var n := s[i].(entry := s[i].entry.(hitCount := s[i].entry.hitCount + 1));
    var r := RemoveAt(s, i);
    assert NodeOk(cfg, s[i]) && NodeOk(cfg, n);
    assert TotalBytes([n] + r) == n.bytes + TotalBytes(r) by { assert ([n] + r)[1..] == r; }
    hide NodeOk, TotalBytes;
    forall j | 0 <= j < |[n] + r|
      ensures NodeOk(cfg, ([n] + r)[j])
    {
      if j > 0 { assert r[j - 1] in s; }
    }
  }
}
