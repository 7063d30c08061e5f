/** The whole cache over any sequence of operations: memory, what a hit is, its
    TTLs and its rank (core/cache/cache.cpp). */
module CacheRuns {
  import opened DnsTypes
  import opened ResolverTask
  import opened ResolverAnswers
  import opened ResolverRuns
  import opened CacheList

  type Views = seq<seq<Node>>

  /** Which shard a key belongs to: the high bits of its hash. */
  function ShardFor(hash: QKey -> nat, n: nat, key: QKey): (i: nat)
    requires n > 0
    ensures i < n
  {
    (hash(key) / 0x1_0000_0000) % n
  }

  /** A hash whose high half is a number below the shard count belongs to the shard
      of that number. */
  lemma ShardsSpread(hash: QKey -> nat, n: nat, key: QKey, i: nat)
    requires i < n && i * 0x1_0000_0000 <= hash(key) < (i + 1) * 0x1_0000_0000
    ensures ShardFor(hash, n, key) == i
  {
    HighHalf(hash(key), i);
    SmallRemainder(i, n);
  }

  lemma HighHalf(h: nat, i: nat)
    requires i * 0x1_0000_0000 <= h < (i + 1) * 0x1_0000_0000
    ensures h / 0x1_0000_0000 == i
  {
  }

  lemma SmallRemainder(i: nat, n: nat)
    requires i < n
    ensures i % n == i
  {
  }

  datatype Op = Write(ins: Insert, now: nat) | Read(key: QKey, now: nat) | Evict(key: QKey) | Flush

  function Apply(cfg: CacheConfig, hash: QKey -> nat, c: Views, op: Op): Views
    requires |c| > 0
  {
    match op
    case Write(ins, now) => var i := ShardFor(hash, |c|, ins.key); c[i := Inserted(cfg, c[i], ins, now)]
    case Read(key, now) => var i := ShardFor(hash, |c|, key); c[i := LookedUp(c[i], key, now).0]
    case Evict(key) => var i := ShardFor(hash, |c|, key); c[i := Evicted(c[i], key)]
    case Flush => seq(|c|, _ => [])
  }

  // ─── Shards and memory ────────────────────────────────────────────────────

  ghost predicate Placed(hash: QKey -> nat, c: Views, i: nat)
    requires i < |c|
  {
    forall n :: n in c[i] ==> ShardFor(hash, |c|, n.key) == i
  }

  ghost predicate CacheSound(cfg: CacheConfig, hash: QKey -> nat, c: Views) {
    |c| > 0 && forall i :: 0 <= i < |c| ==> ShardOk(cfg, c[i]) && Placed(hash, c, i)
  }

  function Memory(c: Views): nat {
    if c == [] then 0 else TotalBytes(c[0]) + Memory(c[1..])
  }

  lemma {:induction false} MemoryBound(cfg: CacheConfig, c: Views)
    requires forall i :: 0 <= i < |c| ==> TotalBytes(c[i]) <= cfg.budget
    ensures Memory(c) <= |c| * cfg.budget
  {
    hide TotalBytes;
    if c == [] {
    } else {
      MemoryBound(cfg, c[1..]);
      OneMore(|c| - 1, cfg.budget);
    }
  }

  lemma OneMore(n: nat, b: nat)
    ensures (n + 1) * b == n * b + b
  {
  }

  lemma EvenSplit(max: nat, n: nat)
    requires n > 0
    ensures n * (max / n) <= max
  {
  }

  /** Split evenly, the budgets of the shards never add up to more than allowed. */
  lemma WithinMaxMemory(cfg: CacheConfig, hash: QKey -> nat, c: Views, maxMemory: nat)
    requires CacheSound(cfg, hash, c) && cfg.budget == maxMemory / |c|
    ensures Memory(c) <= maxMemory
  {
    hide TotalBytes, DistinctKeys;
    MemoryBound(cfg, c);
    EvenSplit(maxMemory, |c|);
  }

  lemma ApplySound(cfg: CacheConfig, hash: QKey -> nat, c: Views, op: Op)
    requires CacheSound(cfg, hash, c)
    ensures CacheSound(cfg, hash, Apply(cfg, hash, c, op))
  {
    var c' := Apply(cfg, hash, c, op);
    hide ShardOk, ShardFor;
    match op
    case Write(ins, now) =>
      var i := ShardFor(hash, |c|, ins.key);
      InsertedOk(cfg, c[i], ins, now);
      assert NewNode(cfg, ins, now).key == ins.key;
      hide NewNode, Inserted, Accepted;
      assert Placed(hash, c, i);
      ReplaceSound(cfg, hash, c, i, c'[i]);
    case Read(key, now) =>
      var i := ShardFor(hash, |c|, key);
      LookedUpOk(cfg, c[i], key, now);
      LookedUpKeys(c[i], key, now);
      assert Placed(hash, c, i);
      hide LookedUp;
      ReplaceSound(cfg, hash, c, i, c'[i]);
    case Evict(key) =>
      var i := ShardFor(hash, |c|, key);
      EvictedOk(cfg, c[i], key);
      assert Placed(hash, c, i);
      hide Evicted;
      ReplaceSound(cfg, hash, c, i, c'[i]);
    case Flush =>
      assert forall i :: 0 <= i < |c'| ==> c'[i] == [];
      EmptyOk(cfg);
  }

  lemma EmptyOk(cfg: CacheConfig)
    ensures ShardOk(cfg, [])
  {
  }

  lemma LookedUpKeys(s: seq<Node>, key: QKey, now: nat)
    ensures forall n :: n in LookedUp(s, key, now).0 ==> exists m :: m in s && SameButHits(n, m)
    ensures forall m :: m in s && m.key != key ==> m in LookedUp(s, key, now).0
  {
    hide Find;
    forall m | m in s
      ensures SameButHits(m, m)
    {
    }
    if Hits(s, key, now) {
      var i := Find(s, key);
      UsedMembers(s, i);
      assert SameButHits(Used(s, i)[0], s[i]) && s[i] in s;
      hide Used, Has;
    }
  }

  lemma UsedMembers(s: seq<Node>, i: nat)
    requires i < |s|
    ensures forall n :: n in Used(s, i) ==> n == Used(s, i)[0] || n in s
    ensures forall m :: m in s && m.key != s[i].key ==> m in Used(s, i)
  {
    var r := RemoveAt(s, i);
    forall m | m in s && m.key != s[i].key
      ensures m in r
    {
      var j :| 0 <= j < |s| && s[j] == m;
      assert r[if j < i then j else j - 1] == m;
    }
  }

  /** The same entry, but for how often it was hit. */
  predicate SameButHits(n: Node, m: Node) {
    n.key == m.key && n.bytes == m.bytes && n.entry == m.entry.(hitCount := n.entry.hitCount)
  }

  lemma ReplaceSound(cfg: CacheConfig, hash: QKey -> nat, c: Views, i: nat, s: seq<Node>)
    requires CacheSound(cfg, hash, c) && i < |c| && ShardOk(cfg, s) && forall n :: n in s ==>
               ShardFor(hash, |c|, n.key) == i
    ensures CacheSound(cfg, hash, c[i := s])
  {
    hide ShardOk, ShardFor;
    var c' := c[i := s];
    forall j | 0 <= j < |c'|
      ensures ShardOk(cfg, c'[j]) && Placed(hash, c', j)
    {
      assert ShardOk(cfg, c[j]) && Placed(hash, c, j);
    }
  }

  // ─── What was last written ────────────────────────────────────────────────

  datatype Written = Written(ins: Insert, now: nat)

  /** The last write of each key that was stored. */
  function Latest(cfg: CacheConfig, hash: QKey -> nat, c: Views, latest: map<QKey, Written>, op: Op): map<QKey, Written>
    requires |c| > 0
  {
    if op.Write? && Accepted(cfg, c[ShardFor(hash, |c|, op.ins.key)], op.ins, op.now)
    then latest[op.ins.key := Written(op.ins, op.now)] else latest
  }

  /** An entry is what was last written for its key. */
  predicate FromLatest(cfg: CacheConfig, n: Node, latest: map<QKey, Written>) {
    && n.key in latest && latest[n.key].ins.key == n.key
    && n == NewNode(cfg, latest[n.key].ins, latest[n.key].now).(entry := n.entry)
    && n.entry == NewNode(cfg, latest[n.key].ins, latest[n.key].now).entry.(hitCount := n.entry.hitCount)
  }

  ghost predicate Backed(cfg: CacheConfig, c: Views, latest: map<QKey, Written>) {
    forall i, n {:trigger n in c[i]} :: 0 <= i < |c| && n in c[i] ==> FromLatest(cfg, n, latest)
  }

  lemma WriteBacked(cfg: CacheConfig, hash: QKey -> nat, c: Views, latest: map<QKey, Written>, ins: Insert, now: nat)
    requires CacheSound(cfg, hash, c) && Backed(cfg, c, latest)
    ensures Backed(cfg, Apply(cfg, hash, c, Write(ins, now)), Latest(cfg, hash, c, latest, Write(ins, now)))
  {
    var op := Write(ins, now);
    var c', latest' := Apply(cfg, hash, c, op), Latest(cfg, hash, c, latest, op);
    var i := ShardFor(hash, |c|, ins.key);
    InsertedOk(cfg, c[i], ins, now);
    hide Inserted, Accepted, EntryBytes, ShardOk, Clamp;
    forall j, n | 0 <= j < |c'| && n in c'[j]
      ensures FromLatest(cfg, n, latest')
    {
      if j != i {
        assert c'[j] == c[j] && Placed(hash, c, j) && n.key != ins.key;
      }
    }
  }

  lemma ApplyBacked(cfg: CacheConfig, hash: QKey -> nat, c: Views, latest: map<QKey, Written>, op: Op)
    requires CacheSound(cfg, hash, c) && Backed(cfg, c, latest)
    ensures Backed(cfg, Apply(cfg, hash, c, op), Latest(cfg, hash, c, latest, op))
  {
    var c' := Apply(cfg, hash, c, op);
    hide NewNode, ShardFor;
    match op
    case Write(ins, now) => WriteBacked(cfg, hash, c, latest, ins, now);
    case Read(key, now) =>
      var i := ShardFor(hash, |c|, key);
      LookedUpKeys(c[i], key, now);
      hide LookedUp;
      forall j, n | 0 <= j < |c'| && n in c'[j]
        ensures FromLatest(cfg, n, latest)
      {
        if j == i {
          var m :| m in c[i] && SameButHits(n, m);
          assert FromLatest(cfg, m, latest);
        } else {
          assert n in c[j];
        }
      }
    case Evict(key) =>
      var i := ShardFor(hash, |c|, key);
      assert ShardOk(cfg, c[i]);
      EvictedOk(cfg, c[i], key);
      hide Evicted, ShardOk;
      forall j, n | 0 <= j < |c'| && n in c'[j]
        ensures FromLatest(cfg, n, latest)
      {
        assert n in c[j];
      }
    case Flush =>
      assert forall j :: 0 <= j < |c'| ==> c'[j] == [];
  }

  // ─── Hits ─────────────────────────────────────────────────────────────────

  /** What the resolver sees of a hit. */
  function AsEntry(e: CacheEntry): Entry {
    Entry(e.records, e.trust, e.negative)
  }

  function HitAt(hash: QKey -> nat, c: Views, key: QKey, now: nat): Option<CacheEntry>
    requires |c| > 0
  {
    LookedUp(c[ShardFor(hash, |c|, key)], key, now).1
  }

  /** A hit is the last write stored for its key, but for the TTLs: the whole
      seconds left, never more than the clamped TTL. */
  lemma HitIsLatest(cfg: CacheConfig, hash: QKey -> nat, c: Views, latest: map<QKey, Written>, key: QKey, now: nat)
    requires CacheSound(cfg, hash, c) && Backed(cfg, c, latest) && HitAt(hash, c, key, now).Some?
    requires key in latest ==> latest[key].now <= now
    ensures key in latest
    ensures var w, e := latest[key], HitAt(hash, c, key, now).value;
      && HitOf(AsEntry(e), key, w.ins)
      && e.expiresAt == w.now + Clamp(cfg, w.ins.ttl) * SECOND && now < e.expiresAt
      && forall x :: x in e.records ==> x.ttl == (e.expiresAt - now) / SECOND && x.ttl <= Clamp(cfg, w.ins.ttl)
  {
    var s := c[ShardFor(hash, |c|, key)];
    hide ShardFor, ShardOk, EntryBytes, Clamp;
    var i := Find(s, key);
    assert s[i] in s && FromLatest(cfg, s[i], latest);
    SecondsLeft(Clamp(cfg, latest[key].ins.ttl), latest[key].now, now);
    hide Find, Has;
  }

  lemma SecondsLeft(ttl: u32, written: nat, now: nat)
    requires written <= now < written + ttl * SECOND
    ensures var left := (written + ttl * SECOND - now) / SECOND; left % 0x1_0000_0000 == left <= ttl
  {
    var ticks := written + ttl * SECOND - now;
    assert ticks / SECOND <= ttl;
  }

  /** While nothing new is stored for a key, its TTLs only fall. */
  lemma TtlsFall(
    cfg: CacheConfig, hash: QKey -> nat, c: Views, c': Views, latest: map<QKey, Written>, latest': map<QKey, Written>,
    key: QKey, now: nat, now': nat)
    requires CacheSound(cfg, hash, c) && Backed(cfg, c, latest) && HitAt(hash, c, key, now).Some?
    requires CacheSound(cfg, hash, c') && Backed(cfg, c', latest') && HitAt(hash, c', key, now').Some?
    requires key in latest && key in latest' && latest[key] == latest'[key] && latest[key].now <= now <= now'
    ensures var e, e' := HitAt(hash, c, key, now).value, HitAt(hash, c', key, now').value;
      && |e.records| == |e'.records|
      && forall i :: 0 <= i < |e.records| ==>
        Bare(e.records[i]) == Bare(e'.records[i]) && e'.records[i].ttl <= e.records[i].ttl
  {
    assert |c| > 0 && |c'| > 0;
    hide CacheSound, Backed, HitAt, Clamp;
    HitIsLatest(cfg, hash, c, latest, key, now);
    HitIsLatest(cfg, hash, c', latest', key, now');
    var e, e' := HitAt(hash, c, key, now).value, HitAt(hash, c', key, now').value;
    forall i | 0 <= i < |e.records|
      ensures Bare(e.records[i]) == Bare(e'.records[i]) && e'.records[i].ttl <= e.records[i].ttl
    {
      assert e.records[i] in e.records && e'.records[i] in e'.records;
      assert Bare(AsEntry(e).records[i]) == Bare(AsEntry(e').records[i]);
      DivFalls(e.expiresAt - now', e.expiresAt - now);
    }
  }

  lemma DivFalls(a: nat, b: nat)
    requires a <= b
    ensures a / SECOND <= b / SECOND
  {
  }

  lemma InsertedRank(cfg: CacheConfig, s: seq<Node>, ins: Insert, now: nat, n: Node, n': Node)
    requires ShardOk(cfg, s) && n in s && Live(n.entry, now)
    requires n' in Inserted(cfg, s, ins, now) && n'.key == n.key
    ensures RankOf(n'.entry.trust) >= RankOf(n.entry.trust)
  {
    InsertedOk(cfg, s, ins, now);
    hide Inserted, TotalBytes, EntryBytes, RankOf;
    var i :| 0 <= i < |s| && s[i] == n;
    if n' in s {
      var j :| 0 <= j < |s| && s[j] == n';
      assert i == j;
    } else {
      assert Find(s, ins.key) == i;
    }
    hide Find, Has;
  }

  lemma SameNode(cfg: CacheConfig, s: seq<Node>, n: Node, m: Node)
    requires ShardOk(cfg, s) && n in s && m in s && n.key == m.key
    ensures n == m
  {
  }

  lemma RankStep(cfg: CacheConfig, hash: QKey -> nat, c: Views, op: Op, i: nat, n: Node, n': Node)
    requires CacheSound(cfg, hash, c) && i < |c| && n in c[i] && (op.Write? ==> Live(n.entry, op.now))
    requires |Apply(cfg, hash, c, op)| == |c| && n' in Apply(cfg, hash, c, op)[i] && n'.key == n.key
    ensures RankOf(n'.entry.trust) >= RankOf(n.entry.trust)
  {
    assert ShardOk(cfg, c[i]);
    hide RankOf, ShardOk, CacheSound, ShardFor;
    var s' := Apply(cfg, hash, c, op)[i];
    match op
    case Write(ins, now) =>
      if s' == c[i] { SameNode(cfg, c[i], n, n'); } else { InsertedRank(cfg, c[i], ins, now, n, n'); }
    case Read(key, now) =>
      LookedUpKeys(c[i], key, now);
      if s' == c[i] {
        SameNode(cfg, c[i], n, n');
      } else {
        var m :| m in c[i] && SameButHits(n', m);
        SameNode(cfg, c[i], n, m);
      }
    case Evict(key) =>
      EvictedOk(cfg, c[i], key);
      SameNode(cfg, c[i], n, n');
    case Flush =>
  }

  // ─── Runs ─────────────────────────────────────────────────────────────────

  function AllWritten(ops: seq<Op>): set<Insert> {
    if ops == [] then {}
    else AllWritten(ops[1..]) + if ops[0].Write? then {ops[0].ins} else {}
  }

  function Run(
    cfg: CacheConfig, hash: QKey -> nat, c: Views, latest: map<QKey, Written>, ops: seq<Op>)
    : (r: (Views, map<QKey, Written>))
    requires |c| > 0
    ensures |r.0| == |c|
    decreases |ops|
  {
    if ops == [] then (c, latest)
    else Run(cfg, hash, Apply(cfg, hash, c, ops[0]), Latest(cfg, hash, c, latest, ops[0]), ops[1..])
  }

  ghost predicate WrittenIn(latest: map<QKey, Written>, log: set<Insert>) {
    forall k :: k in latest ==> latest[k].ins in log
  }

  /** After any operations: sizes and places in order, and each entry the last
      write stored for its key, all of them writes that were made. */
  lemma {:induction false} RunSound(
    cfg: CacheConfig, hash: QKey -> nat, c: Views, latest: map<QKey, Written>, ops: seq<Op>, log: set<Insert>)
    requires CacheSound(cfg, hash, c) && Backed(cfg, c, latest) && WrittenIn(latest, log)
    ensures var r := Run(cfg, hash, c, latest, ops);
      CacheSound(cfg, hash, r.0) && Backed(cfg, r.0, r.1) && WrittenIn(r.1, log + AllWritten(ops))
    decreases |ops|
  {
    hide CacheSound, Backed, Apply;
    if ops == [] {
      assert log + AllWritten(ops) == log;
    } else {
      assert |c| > 0 && |Apply(cfg, hash, c, ops[0])| == |c| by { SameShards(cfg, hash, c, ops[0]); }
      ApplySound(cfg, hash, c, ops[0]);
      ApplyBacked(cfg, hash, c, latest, ops[0]);
      var log' := log + if ops[0].Write? then {ops[0].ins} else {};
      RunSound(cfg, hash, Apply(cfg, hash, c, ops[0]), Latest(cfg, hash, c, latest, ops[0]), ops[1..], log');
      assert log' + AllWritten(ops[1..]) == log + AllWritten(ops);
    }
  }

  function NodeOf(hash: QKey -> nat, c: Views, key: QKey): Option<Node>
    requires |c| > 0
  {
    var s := c[ShardFor(hash, |c|, key)];
    if Find(s, key) < |s| then Some(s[Find(s, key)]) else None
  }

  /** A key is in the cache all the time, and live whenever something is written. */
  predicate Stays(cfg: CacheConfig, hash: QKey -> nat, c: Views, key: QKey, ops: seq<Op>)
    requires |c| > 0
    decreases |ops|
  {
    && NodeOf(hash, c, key).Some?
    && (ops != [] ==>
          && (ops[0].Write? ==> Live(NodeOf(hash, c, key).value.entry, ops[0].now))
          && Stays(cfg, hash, Apply(cfg, hash, c, ops[0]), key, ops[1..]))
  }

  /** A live entry's rank never drops while its key stays, whatever is done. */
  lemma {:induction false} RankKept(
    cfg: CacheConfig, hash: QKey -> nat, c: Views, latest: map<QKey, Written>, key: QKey, ops: seq<Op>)
    requires CacheSound(cfg, hash, c) && Stays(cfg, hash, c, key, ops)
    ensures var c' := Run(cfg, hash, c, latest, ops).0;
      && NodeOf(hash, c', key).Some?
      && RankOf(NodeOf(hash, c', key).value.entry.trust) >= RankOf(NodeOf(hash, c, key).value.entry.trust)
    decreases |ops|
  {
    assert |c| > 0;
    if ops == [] {
    } else {
      hide CacheSound, Apply, RankOf, Find, Latest, ShardFor;
      SameShards(cfg, hash, c, ops[0]);
      ApplySound(cfg, hash, c, ops[0]);
      var c1 := Apply(cfg, hash, c, ops[0]);
      RankStep(cfg, hash, c, ops[0], ShardFor(hash, |c|, key), NodeOf(hash, c, key).value, NodeOf(hash, c1, key).value);
      RankKept(cfg, hash, c1, Latest(cfg, hash, c, latest, ops[0]), key, ops[1..]);
    }
  }

  lemma SameShards(cfg: CacheConfig, hash: QKey -> nat, c: Views, op: Op)
    requires CacheSound(cfg, hash, c)
    ensures |c| > 0 && |Apply(cfg, hash, c, op)| == |c|
  {
  }

  /** Every hit is a write once made, but for the TTLs. */
  lemma HitWasWritten(
    cfg: CacheConfig, hash: QKey -> nat, n: nat, ops: seq<Op>, key: QKey, now: nat) returns (ins: Insert)
    requires n > 0
    requires var r := Run(cfg, hash, seq(n, _ => []), map[], ops);
      HitAt(hash, r.0, key, now).Some? && (key in r.1 ==> r.1[key].now <= now)
    ensures ins in AllWritten(ops)
    ensures HitOf(AsEntry(HitAt(hash, Run(cfg, hash, seq(n, _ => []), map[], ops).0, key, now).value), key, ins)
  {
    var c: Views := seq(n, _ => []);
    EmptyOk(cfg);
    assert CacheSound(cfg, hash, c) && Backed(cfg, c, map[]) && WrittenIn(map[], {});
    hide CacheSound, Backed, Run;
    RunSound(cfg, hash, c, map[], ops, {});
    var r := Run(cfg, hash, c, map[], ops);
    HitIsLatest(cfg, hash, r.0, r.1, key, now);
    ins := r.1[key].ins;
    assert {} + AllWritten(ops) == AllWritten(ops);
  }

  // ─── The cache the resolver sees ──────────────────────────────────────────

  /** A lookup at some time, after some operations on an empty cache. */
  function LookIn(cfg: CacheConfig, hash: QKey -> nat, n: nat, ops: seq<Op>, key: QKey, now: nat): Option<Entry>
    requires n > 0
  {
    match HitAt(hash, Run(cfg, hash, seq(n, _ => []), map[], ops).0, key, now)
    case None => None
    case Some(e) => Some(AsEntry(e))
  }

  predicate NoneAfter(ops: seq<Op>, now: nat) {
    forall i :: 0 <= i < |ops| && ops[i].Write? ==> ops[i].now <= now
  }

  lemma {:induction false} LatestBefore(
    cfg: CacheConfig, hash: QKey -> nat, c: Views, latest: map<QKey, Written>, ops: seq<Op>, now: nat)
    requires |c| > 0 && NoneAfter(ops, now) && (forall k :: k in latest ==> latest[k].now <= now)
    ensures var r := Run(cfg, hash, c, latest, ops); forall k :: k in r.1 ==> r.1[k].now <= now
    decreases |ops|
  {
    if ops == [] {
    } else {
      hide Apply, Accepted, ShardFor;
      var c', latest' := Apply(cfg, hash, c, ops[0]), Latest(cfg, hash, c, latest, ops[0]);
      assert Run(cfg, hash, c, latest, ops) == Run(cfg, hash, c', latest', ops[1..]);
      LatestBefore(cfg, hash, c', latest', ops[1..], now);
    }
  }

  /** What the resolver assumes holds of this cache: each lookup of a callback may
      come after other operations, at another time, and finds only what was
      written. */
  lemma CacheIsHonest(
    cfg: CacheConfig, hash: QKey -> nat, n: nat, env: Env, before: Ask -> seq<Op>, at: Ask -> nat, log: set<Insert>)
    requires n > 0 && (forall ask :: NoneAfter(before(ask), at(ask)) && AllWritten(before(ask)) <= log)
    requires forall ask, key {:trigger env.look(ask, key)} ::
               env.look(ask, key) == LookIn(cfg, hash, n, before(ask), key, at(ask))
    ensures Honest(env, log)
  {
    hide AllWritten, Run, HitAt, NoneAfter, HitOf;
    forall ask, key | env.look(ask, key).Some?
      ensures exists ins :: ins in log && HitOf(env.look(ask, key).value, key, ins)
    {
      assert NoneAfter(before(ask), at(ask));
      LatestBefore(cfg, hash, seq(n, _ => []), map[], before(ask), at(ask));
      var ins := HitWasWritten(cfg, hash, n, before(ask), key, at(ask));
      assert ins in log;
    }
  }
}
