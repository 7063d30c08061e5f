/** The sharded cache object (core/cache/cache.cpp): each operation works on the
    one shard its key belongs to. */
module SharedCache {
  import opened DnsTypes
  import opened ResolverTask
  import opened CacheList
  import opened CacheShard
  import opened CacheRuns

  class Cache {
    const cfg: CacheConfig
    const hash: QKey -> nat
    const maxMemory: nat
    const shards: seq<Shard>
    var hits: nat
    var misses: nat

    ghost predicate Valid()
      reads this, shards
    {
      && |shards| > 0 && cfg.budget == maxMemory / |shards|
      && (forall i, j :: 0 <= i < j < |shards| ==> shards[i] != shards[j])
      && (forall i :: 0 <= i < |shards| ==> shards[i].Valid())
      && CacheSound(cfg, hash, Contents())
    }

    /** What every shard holds. */
    ghost function Contents(): Views
      requires forall i :: 0 <= i < |shards| ==> shards[i].Valid()
      reads shards
    {
      seq(|shards|, i reads shards requires 0 <= i < |shards| && shards[i].Valid() => shards[i].View())
    }

    constructor (maxMemory: nat, numShards: nat, minTtl: u32, maxTtl: u32, sizes: Sizes, hash: QKey -> nat)
      ensures Valid() && Memory(Contents()) == 0 && fresh(shards)
      ensures |shards| == (if numShards > 1 then numShards else 1) && this.maxMemory == maxMemory
      ensures cfg == CacheConfig(maxMemory / |shards|, minTtl, maxTtl, sizes) && this.hash == hash
    {
      hide CacheSound, Memory, Kept, ViewOf;
      var n := if numShards > 1 then numShards else 1;
      var all := MakeShards(n);
      this.cfg, this.hash, this.maxMemory := CacheConfig(maxMemory / n, minTtl, maxTtl, sizes), hash, maxMemory;
      shards, hits, misses := all, 0, 0;
      new;
      assert Contents() == seq(n, _ => []);
      EmptySound(cfg, hash, n);
    }

    method Lookup(key: QKey, now: nat) returns (hit: Option<CacheEntry>)
      requires Valid()
      modifies this, shards
      ensures Valid() && hit == HitAt(hash, old(Contents()), key, now)
      ensures Contents() == Apply(cfg, hash, old(Contents()), Read(key, now))
      ensures hits == old(hits) + (if hit.Some? then 1 else 0) && misses == old(misses) + (if hit.None? then 1 else 0)
    {
      hide CacheSound, LookedUp, Apply, ShardFor, HitAt, Kept, ViewOf;
      ghost var before := Contents();
      var i := ShardFor(hash, |shards|, key);
      assert before[i] == shards[i].View();
      ApplySound(cfg, hash, before, Read(key, now));
      hit := shards[i].Lookup(key, now);
      assert Contents() == before[i := LookedUp(before[i], key, now).0];
      ReadIs(cfg, hash, before, key, now);
      if hit.Some? { hits := hits + 1; } else { misses := misses + 1; }
    }

    method Insert(ins: Insert, now: nat)
      requires Valid()
      modifies shards
      ensures Valid() && Contents() == Apply(cfg, hash, old(Contents()), Write(ins, now))
    {
      hide CacheSound, Inserted, ShardFor, Kept, ViewOf;
      ghost var before := Contents();
      var i := ShardFor(hash, |shards|, ins.key);
      assert before[i] == shards[i].View();
      ApplySound(cfg, hash, before, Write(ins, now));
      shards[i].Insert(cfg, ins, now);
      assert Contents() == before[i := Inserted(cfg, before[i], ins, now)];
    }

    method Evict(key: QKey)
      requires Valid()
      modifies shards
      ensures Valid() && Contents() == Apply(cfg, hash, old(Contents()), Op.Evict(key))
    {
      hide CacheSound, Evicted, ShardFor, Kept, ViewOf;
      ghost var before := Contents();
      var i := ShardFor(hash, |shards|, key);
      assert before[i] == shards[i].View();
      ApplySound(cfg, hash, before, Op.Evict(key));
      shards[i].Evict(key);
      assert Contents() == before[i := Evicted(before[i], key)];
    }

    method Flush()
      requires Valid()
      modifies shards
      ensures Valid() && Contents() == Apply(cfg, hash, old(Contents()), Op.Flush)
    {
      hide CacheSound, Kept, ViewOf;
      ghost var before := Contents();
      ApplySound(cfg, hash, before, Op.Flush);
      var i := 0;
      while i < |shards|
        invariant 0 <= i <= |shards|
        invariant forall j :: 0 <= j < |shards| ==> shards[j].Valid()
        invariant forall j :: 0 <= j < i ==> shards[j].View() == []
      {
        shards[i].Flush();
        i := i + 1;
      }
      assert Contents() == seq(|shards|, _ => []);
    }

    /** Never more than was allowed. */
    method MemoryUsed() returns (total: nat)
      requires Valid()
      ensures total == Memory(Contents()) <= maxMemory
    {
      hide CacheSound, Memory, TotalBytes, ViewOf;
      assert Memory([]) == 0 by { EmptyMemory([]); }
      WithinMaxMemory(cfg, hash, Contents(), maxMemory);
      total := 0;
      var i := 0;
      while i < |shards|
        invariant 0 <= i <= |shards| && total == Memory(Contents()[..i])
      {
        MemorySnoc(Contents()[..i], Contents()[i]);
        assert Contents()[..i] + [Contents()[i]] == Contents()[..i + 1];
        total := total + shards[i].bytes;
        i := i + 1;
      }
      assert Contents()[..i] == Contents();
    }
  }

  method MakeShards(n: nat) returns (all: seq<Shard>)
    ensures |all| == n && fresh(all)
    ensures forall i, j :: 0 <= i < j < n ==> all[i] != all[j]
    ensures forall i :: 0 <= i < n ==> all[i].Valid() && all[i].View() == []
  {
    hide Kept, ViewOf;
    all := [];
    while |all| < n
      invariant |all| <= n && fresh(all)
      invariant forall i, j :: 0 <= i < j < |all| ==> all[i] != all[j]
      invariant forall i :: 0 <= i < |all| ==> all[i].Valid() && all[i].View() == []
    {
      var s := new Shard();
      all := all + [s];
    }
  }

  lemma EmptySound(cfg: CacheConfig, hash: QKey -> nat, n: nat)
    requires n > 0
    ensures CacheSound(cfg, hash, seq(n, _ => [])) && Memory(seq(n, _ => [])) == 0
  {
    EmptyOk(cfg);
    EmptyMemory(seq(n, _ => []));
  }

  lemma {:induction false} EmptyMemory(c: Views)
    requires forall i :: 0 <= i < |c| ==> c[i] == []
    ensures Memory(c) == 0
  {
    if c == [] {
    } else {
      EmptyMemory(c[1..]);
    }
  }

  lemma {:induction false} MemorySnoc(c: Views, s: seq<Node>)
    ensures Memory(c + [s]) == Memory(c) + TotalBytes(s)
  {
    if c == [] {
      assert c + [s] == [s] && Memory([s]) == TotalBytes(s) + Memory([]);
    } else {
      assert (c + [s])[1..] == c[1..] + [s];
      MemorySnoc(c[1..], s);
    }
  }

  lemma ReadIs(cfg: CacheConfig, hash: QKey -> nat, c: Views, key: QKey, now: nat)
    requires |c| > 0
    ensures var i := ShardFor(hash, |c|, key);
      && Apply(cfg, hash, c, Read(key, now)) == c[i := LookedUp(c[i], key, now).0]
      && HitAt(hash, c, key, now) == LookedUp(c[i], key, now).1
  {
  }
}
