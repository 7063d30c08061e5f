/** The cache does remember (core/cache/cache.cpp): what was written is found again
    until it expires, unless more bytes than the shard has room for were put or
    found ahead of it in the meantime. */
module CacheKeeps {
  import opened DnsTypes
  import opened ResolverTask
  import opened ResolverAnswers
  import opened ResolverRuns
  import opened CacheList
  import opened CacheRuns

  /** Entry `m` is in the list, with at most `d` bytes up to its end. */
  ghost predicate Kept(s: seq<Node>, m: Node, d: nat) {
    exists p :: 0 <= p < |s| && KeptAt(s, m, d, p)
  }

  predicate KeptAt(s: seq<Node>, m: Node, d: nat, p: nat)
    requires p < |s|
  {
    SameButHits(s[p], m) && TotalBytes(s[..p + 1]) <= d
  }

  // ─── Lists ────────────────────────────────────────────────────────────────

  lemma PrefixTotals(s: seq<Node>, i: nat, j: nat)
    requires i <= j <= |s|
    ensures TotalBytes(s[..i]) <= TotalBytes(s[..j])
  {
    assert s[..j] == s[..i] + s[i..j];
    TotalConcat(s[..i], s[i..j]);
  }

  lemma PushedKept(n: Node, s: seq<Node>, m: Node, d: nat)
    requires Kept(s, m, d)
    ensures Kept([n] + s, m, d + n.bytes)
  {
    var p :| 0 <= p < |s| && KeptAt(s, m, d, p);
    var t := [n] + s;
    assert t[..p + 2] == [n] + s[..p + 1];
    assert TotalBytes(t[..p + 2]) == n.bytes + TotalBytes(s[..p + 1]) by { assert t[..p + 2][1..] == s[..p + 1]; }
    assert KeptAt(t, m, d + n.bytes, p + 1);
  }

  lemma RemovedKept(s: seq<Node>, i: nat, m: Node, d: nat)
    requires i < |s| && s[i].key != m.key && Kept(s, m, d)
    ensures Kept(RemoveAt(s, i), m, d)
  {
    var p :| 0 <= p < |s| && KeptAt(s, m, d, p);
    var r := RemoveAt(s, i);
    if p < i {
      assert r[..p + 1] == s[..p + 1];
      assert KeptAt(r, m, d, p);
    } else {
      var head := s[..p + 1];
      assert r[..p] == RemoveAt(head, i) && head[i] == s[i];
      RemoveTotal(head, i);
      hide TotalBytes;
      assert KeptAt(r, m, d, p - 1);
    }
  }

  lemma EvictedKept(s: seq<Node>, key: QKey, m: Node, d: nat)
    requires key != m.key && Kept(s, m, d)
    ensures Kept(Evicted(s, key), m, d)
  {
    hide Kept, RemoveAt;
    if Find(s, key) < |s| { RemovedKept(s, Find(s, key), m, d); }
  }

  /** Trimming spares what fits. */
  lemma TrimmedKept(s: seq<Node>, budget: nat, m: Node, d: nat)
    requires Kept(s, m, d) && d <= budget
    ensures Kept(Trimmed(s, budget), m, d)
  {
    hide Trimmed;
    var p :| 0 <= p < |s| && KeptAt(s, m, d, p);
    var k := TrimmedKeeps(s, budget);
    if p >= k { PrefixTotals(s, k + 1, p + 1); }
    assert s[..k][..p + 1] == s[..p + 1];
    assert KeptAt(s[..k], m, d, p);
  }

  /** Being used brings an entry to the front. */
  lemma UsedKept(s: seq<Node>, i: nat, m: Node, d: nat)
    requires i < |s| && DistinctKeys(s) && Kept(s, m, d)
    ensures Kept(Used(s, i), m, if s[i].key == m.key then d else d + s[i].bytes)
  {
    if s[i].key == m.key {
      var p :| 0 <= p < |s| && KeptAt(s, m, d, p);
      assert p == i;
      TotalAt(s[..p + 1], p);
      var t := Used(s, i);
      assert t[..1] == [t[0]] && TotalBytes([t[0]]) == s[i].bytes;
      assert KeptAt(t, m, d, 0);
    } else {
      RemovedKept(s, i, m, d);
      PushedKept(Used(s, i)[0], RemoveAt(s, i), m, d);
    }
  }

  /** What is kept is found. */
  lemma KeptHits(s: seq<Node>, m: Node, d: nat, now: nat)
    requires DistinctKeys(s) && Kept(s, m, d) && Live(m.entry, now)
    ensures LookedUp(s, m.key, now).1.Some?
    ensures LookedUp(s, m.key, now).1.value.records == WithTtl(m.entry.records, Remaining(m.entry, now))
    ensures LookedUp(s, m.key, now).1.value.trust == m.entry.trust
    ensures LookedUp(s, m.key, now).1.value.negative == m.entry.negative
  {
    hide TotalBytes;
    var p :| 0 <= p < |s| && KeptAt(s, m, d, p);
    assert Find(s, m.key) == p;
    hide Find, Has;
  }

  lemma KeptMore(s: seq<Node>, m: Node, d: nat, d': nat)
    requires Kept(s, m, d) && d <= d'
    ensures Kept(s, m, d')
  {
    var p :| 0 <= p < |s| && KeptAt(s, m, d, p);
    assert KeptAt(s, m, d', p);
  }

  // ─── Operations ───────────────────────────────────────────────────────────

  /** The operation is not about taking the key out, or writing it anew. */
  predicate Spares(op: Op, key: QKey) {
    match op
    case Write(ins, _) => ins.key != key
    case Read(_, _) => true
    case Evict(k) => k != key
    case Flush => false
  }

  /** The bytes an operation puts ahead of the key's entry. */
  function Ahead(cfg: CacheConfig, hash: QKey -> nat, c: Views, key: QKey, op: Op): nat
    requires |c| > 0
  {
    var s := c[ShardFor(hash, |c|, key)];
    match op
    case Write(ins, now) =>
      if ShardFor(hash, |c|, ins.key) == ShardFor(hash, |c|, key) && Accepted(cfg, s, ins, now)
      then NewNode(cfg, ins, now).bytes else 0
    case Read(k, now) =>
      if ShardFor(hash, |c|, k) == ShardFor(hash, |c|, key) && k != key && Hits(s, k, now)
      then s[Find(s, k)].bytes else 0
    case _ => 0
  }

  lemma InsertedKept(cfg: CacheConfig, s: seq<Node>, ins: Insert, now: nat, m: Node, d: nat)
    requires ins.key != m.key && Kept(s, m, d)
    requires d + (if Accepted(cfg, s, ins, now) then NewNode(cfg, ins, now).bytes else 0) <= cfg.budget
    ensures Kept(Inserted(cfg, s, ins, now), m,
                 d + if Accepted(cfg, s, ins, now) then NewNode(cfg, ins, now).bytes else 0)
  {
    hide Kept, Evicted, Trimmed, NewNode, Outranked, Clamp;
    EvictedKept(s, ins.key, m, d);
    if Accepted(cfg, s, ins, now) {
      var n := NewNode(cfg, ins, now);
      PushedKept(n, Evicted(s, ins.key), m, d);
      TrimmedKept([n] + Evicted(s, ins.key), cfg.budget, m, d + n.bytes);
    }
  }

  lemma ReadKept(s: seq<Node>, key: QKey, now: nat, m: Node, d: nat)
    requires DistinctKeys(s) && Kept(s, m, d)
    ensures Kept(LookedUp(s, key, now).0, m, d + if key != m.key && Hits(s, key, now) then s[Find(s, key)].bytes else 0)
  {
    hide Kept, Used, Has;
    if Hits(s, key, now) { UsedKept(s, Find(s, key), m, d); }
    hide Find;
  }

  /** What an operation makes of the shard of a key. */
  function ShardAfter(cfg: CacheConfig, hash: QKey -> nat, c: Views, key: QKey, op: Op): seq<Node>
    requires |c| > 0
  {
    var i := ShardFor(hash, |c|, key);
    match op
    case Write(ins, now) => if ShardFor(hash, |c|, ins.key) == i then Inserted(cfg, c[i], ins, now) else c[i]
    case Read(k, now) => if ShardFor(hash, |c|, k) == i then LookedUp(c[i], k, now).0 else c[i]
    case Evict(k) => if ShardFor(hash, |c|, k) == i then Evicted(c[i], k) else c[i]
    case Flush => []
  }

  lemma ShardAfterIs(cfg: CacheConfig, hash: QKey -> nat, c: Views, key: QKey, op: Op)
    requires |c| > 0
    ensures var c' := Apply(cfg, hash, c, op);
      |c'| == |c| && c'[ShardFor(hash, |c|, key)] == ShardAfter(cfg, hash, c, key, op)
  {
    hide Inserted, LookedUp, Evicted, ShardFor;
  }

  lemma ApplyKept(cfg: CacheConfig, hash: QKey -> nat, c: Views, op: Op, m: Node, d: nat)
    requires CacheSound(cfg, hash, c) && Spares(op, m.key)
    requires var i := ShardFor(hash, |c|, m.key); Kept(c[i], m, d)
    requires d + Ahead(cfg, hash, c, m.key, op) <= cfg.budget
    ensures var c' := Apply(cfg, hash, c, op);
      |c'| == |c| && Kept(c'[ShardFor(hash, |c|, m.key)], m, d + Ahead(cfg, hash, c, m.key, op))
  {
    var i := ShardFor(hash, |c|, m.key);
    assert DistinctKeys(c[i]) by { assert ShardOk(cfg, c[i]); }
    hide Apply, Kept, Inserted, Accepted, NewNode, LookedUp, Evicted, ShardFor, CacheSound, DistinctKeys, Hits, Find;
    ShardAfterIs(cfg, hash, c, m.key, op);
    match op
    case Write(ins, now) =>
      if ShardFor(hash, |c|, ins.key) == i { InsertedKept(cfg, c[i], ins, now, m, d); }
    case Read(key, now) =>
      if ShardFor(hash, |c|, key) == i { ReadKept(c[i], key, now, m, d); }
    case Evict(key) =>
      if ShardFor(hash, |c|, key) == i { EvictedKept(c[i], key, m, d); }
    case Flush => assert false;
  }

  // ─── Runs ─────────────────────────────────────────────────────────────────

  function AllAhead(cfg: CacheConfig, hash: QKey -> nat, c: Views, key: QKey, ops: seq<Op>): nat
    requires |c| > 0
    decreases |ops|
  {
    if ops == [] then 0
    else Ahead(cfg, hash, c, key, ops[0]) + AllAhead(cfg, hash, Apply(cfg, hash, c, ops[0]), key, ops[1..])
  }

  lemma {:induction false} RunKept(
    cfg: CacheConfig, hash: QKey -> nat, c: Views, latest: map<QKey, Written>, ops: seq<Op>, m: Node, d: nat)
    requires CacheSound(cfg, hash, c) && (forall op :: op in ops ==> Spares(op, m.key))
    requires var i := ShardFor(hash, |c|, m.key); Kept(c[i], m, d)
    requires d + AllAhead(cfg, hash, c, m.key, ops) <= cfg.budget
    ensures var c' := Run(cfg, hash, c, latest, ops).0;
      CacheSound(cfg, hash, c') && Kept(c'[ShardFor(hash, |c'|, m.key)], m, cfg.budget)
    decreases |ops|
  {
    hide CacheSound, Apply, Latest, Ahead, ShardFor, Kept, Spares;
    SameShards(cfg, hash, c, Flush);
    if ops == [] {
      KeptMore(c[ShardFor(hash, |c|, m.key)], m, d, cfg.budget);
    } else {
      assert ops[0] in ops;
      ApplySound(cfg, hash, c, ops[0]);
      ApplyKept(cfg, hash, c, ops[0], m, d);
      RunKept(cfg, hash, Apply(cfg, hash, c, ops[0]), Latest(cfg, hash, c, latest, ops[0]), ops[1..], m,
              d + Ahead(cfg, hash, c, m.key, ops[0]));
    }
  }

  lemma LifeIs(cfg: CacheConfig, ttl: u32)
    ensures var least := if ttl < cfg.minTtl then cfg.minTtl else ttl;
      Clamp(cfg, ttl) == if cfg.maxTtl < least then cfg.maxTtl else least
  {
  }

  /** A write that no live entry of a higher rank stands against is found again,
      but for its TTLs, for as long as its own TTL and the configured bounds say,
      if it and what was put or found ahead of it since fit in the shard. */
  lemma WrittenIsFound(
    cfg: CacheConfig, hash: QKey -> nat, c: Views, latest: map<QKey, Written>, ins: Insert, now: nat, ops: seq<Op>,
    later: nat)
    requires CacheSound(cfg, hash, c) && (forall op :: op in ops ==> Spares(op, ins.key))
    requires forall n :: n in c[ShardFor(hash, |c|, ins.key)] && n.key == ins.key && n.entry.expiresAt > now ==>
               RankOf(n.entry.trust) <= RankOf(ins.entry.trust)
    requires var c1 := Apply(cfg, hash, c, Write(ins, now));
      EntryBytes(cfg.sizes, ins.key, ins.entry.records) + AllAhead(cfg, hash, c1, ins.key, ops) <= cfg.budget
    requires now <= later < now + cfg.maxTtl * 1_000_000_000
    requires later < now + (if ins.ttl < cfg.minTtl then cfg.minTtl else ins.ttl) * 1_000_000_000
    ensures var hit := HitAt(hash, Run(cfg, hash, Apply(cfg, hash, c, Write(ins, now)), latest, ops).0, ins.key, later);
      hit.Some? && HitOf(AsEntry(hit.value), ins.key, ins)
  {
    var i, c1, m := ShardFor(hash, |c|, ins.key), Apply(cfg, hash, c, Write(ins, now)), NewNode(cfg, ins, now);
    WriteStands(cfg, c[i], ins, now);
    LifeIs(cfg, ins.ttl);
    InsertedOk(cfg, c[i], ins, now);
    ApplySound(cfg, hash, c, Write(ins, now));
    assert KeptAt(c1[i], m, m.bytes, 0) by { assert c1[i][..1] == [m] && TotalBytes([m]) == m.bytes; }
    hide Run, AllAhead, Inserted, LookedUp, Kept, TotalBytes, EntryBytes, Clamp, ShardFor, Accepted, RankOf;
    FoundAfter(cfg, hash, c1, latest, ins, now, ops, later);
  }

  lemma WriteStands(cfg: CacheConfig, s: seq<Node>, ins: Insert, now: nat)
    requires forall n :: n in s && n.key == ins.key && n.entry.expiresAt > now ==>
               RankOf(n.entry.trust) <= RankOf(ins.entry.trust)
    requires EntryBytes(cfg.sizes, ins.key, ins.entry.records) <= cfg.budget
    requires cfg.maxTtl > 0 && (ins.ttl > 0 || cfg.minTtl > 0)
    ensures Accepted(cfg, s, ins, now)
  {
    hide EntryBytes, RankOf, Has;
  }

  lemma FoundAfter(
    cfg: CacheConfig, hash: QKey -> nat, c: Views, latest: map<QKey, Written>, ins: Insert, now: nat, ops: seq<Op>,
    later: nat)
    requires CacheSound(cfg, hash, c) && (forall op :: op in ops ==> Spares(op, ins.key))
    requires var m := NewNode(cfg, ins, now); var i := ShardFor(hash, |c|, ins.key);
      Kept(c[i], m, m.bytes) && m.bytes + AllAhead(cfg, hash, c, ins.key, ops) <= cfg.budget
    requires later < now + Clamp(cfg, ins.ttl) * SECOND
    ensures var hit := HitAt(hash, Run(cfg, hash, c, latest, ops).0, ins.key, later);
      hit.Some? && HitOf(AsEntry(hit.value), ins.key, ins)
  {
    hide Run, AllAhead, LookedUp, Kept, TotalBytes, EntryBytes, Clamp, ShardFor;
    var m := NewNode(cfg, ins, now);
    RunKept(cfg, hash, c, latest, ops, m, m.bytes);
    var c' := Run(cfg, hash, c, latest, ops).0;
    assert ShardOk(cfg, c'[ShardFor(hash, |c'|, ins.key)]);
    KeptHits(c'[ShardFor(hash, |c'|, ins.key)], m, cfg.budget, later);
  }

  // ─── No longer than that ──────────────────────────────────────────────────

  /** The write behind what is known of a key is one of the operations. */
  lemma {:induction false} LatestFrom(
    cfg: CacheConfig, hash: QKey -> nat, c: Views, latest: map<QKey, Written>, ops: seq<Op>, key: QKey) returns (i: nat)
    requires |c| > 0
    ensures var r := Run(cfg, hash, c, latest, ops).1;
      key in r ==> (key in latest && r[key] == latest[key]) || (i < |ops| && ops[i] == Write(r[key].ins, r[key].now))
    decreases |ops|
  {
    i := 0;
    if ops == [] {
    } else {
      var c', latest' := Apply(cfg, hash, c, ops[0]), Latest(cfg, hash, c, latest, ops[0]);
      assert Run(cfg, hash, c, latest, ops) == Run(cfg, hash, c', latest', ops[1..]);
      var j := LatestFrom(cfg, hash, c', latest', ops[1..], key);
      hide Apply, Accepted, ShardFor, Run;
      var r := Run(cfg, hash, c', latest', ops[1..]).1;
      if key in r && j + 1 < |ops| && ops[1..][j] == Write(r[key].ins, r[key].now) { i := j + 1; }
    }
  }

  /** Whatever is done to an empty cache: a hit is some write of that key, made less
      long ago than its TTL, or the least TTL if that is longer, and the greatest
      TTL; it shows the whole seconds left; and nothing written for no time at all
      is ever hit. */
  lemma HitsExpire(cfg: CacheConfig, hash: QKey -> nat, n: nat, ops: seq<Op>, key: QKey, now: nat) returns (i: nat)
    requires n > 0 && NoneAfter(ops, now) && HitAt(hash, Run(cfg, hash, seq(n, _ => []), map[], ops).0, key, now).Some?
    ensures i < |ops| && ops[i].Write? && ops[i].ins.key == key
    ensures var w, e := ops[i], HitAt(hash, Run(cfg, hash, seq(n, _ => []), map[], ops).0, key, now).value;
      var least := if w.ins.ttl < cfg.minTtl then cfg.minTtl else w.ins.ttl;
      && HitOf(AsEntry(e), key, w.ins) && w.now <= now
      && now < w.now + least * 1_000_000_000 && now < w.now + cfg.maxTtl * 1_000_000_000
      && (w.ins.ttl > 0 || cfg.minTtl > 0)
      && forall x :: x in e.records ==>
           && x.ttl ==
                (w.now + (if cfg.maxTtl < least then cfg.maxTtl else least) * 1_000_000_000 - now) / 1_000_000_000
           && x.ttl <= cfg.maxTtl && (w.ins.ttl >= cfg.minTtl ==> x.ttl <= w.ins.ttl)
  {
    var c: Views := seq(n, _ => []);
    EmptyOk(cfg);
    assert CacheSound(cfg, hash, c) && Backed(cfg, c, map[]) && WrittenIn(map[], {});
    hide CacheSound, Backed, Run, HitAt, Clamp;
    RunSound(cfg, hash, c, map[], ops, {});
    var r := Run(cfg, hash, c, map[], ops);
    LatestBefore(cfg, hash, c, map[], ops, now);
    HitIsLatest(cfg, hash, r.0, r.1, key, now);
    i := LatestFrom(cfg, hash, c, map[], ops, key);
    LifeIs(cfg, r.1[key].ins.ttl);
  }
}
