/** A cache shard as it is kept: list nodes in order of use, an index from keys to
    list nodes, and a running total of their sizes, all updated in place
    (core/cache/cache.cpp, Cache::Shard). */
module CacheShard {
  import opened DnsTypes
  import opened ResolverTask
  import opened CacheList

  // A handle stands for an iterator: it names a node wherever in the list it is.

  predicate Listed(lru: seq<nat>, nodes: map<nat, Node>) {
    && (forall i, j :: 0 <= i < j < |lru| ==> lru[i] != lru[j])
    && (forall i :: 0 <= i < |lru| ==> lru[i] in nodes)
    && (forall h :: h in nodes ==> h in lru)
  }

  /** The index and the list are in bijection. */
  predicate Indexed(nodes: map<nat, Node>, index: map<QKey, nat>) {
    && (forall k :: k in index ==> index[k] in nodes && nodes[index[k]].key == k)
    && (forall h :: h in nodes ==> nodes[h].key in index && index[nodes[h].key] == h)
  }

  function ViewOf(lru: seq<nat>, nodes: map<nat, Node>): (s: seq<Node>)
    requires Listed(lru, nodes)
    ensures |s| == |lru| && forall i :: 0 <= i < |s| ==> s[i] == nodes[lru[i]]
  {
    seq(|lru|, i requires 0 <= i < |lru| => nodes[lru[i]])
  }

  lemma ViewDistinct(lru: seq<nat>, nodes: map<nat, Node>, index: map<QKey, nat>)
    requires Listed(lru, nodes) && Indexed(nodes, index)
    ensures DistinctKeys(ViewOf(lru, nodes))
  {
    forall i, j | 0 <= i < j < |lru|
      ensures nodes[lru[i]].key != nodes[lru[j]].key
    {
      assert index[nodes[lru[i]].key] == lru[i] && index[nodes[lru[j]].key] == lru[j];
    }
  }

  /** Where a handle is in the list. */
  function Position(lru: seq<nat>, h: nat): (i: nat)
    requires h in lru
    ensures i < |lru| && lru[i] == h
  {
    if lru[0] == h then 0 else 1 + Position(lru[1..], h)
  }

  /** The index finds what a search of the list would. */
  lemma IndexFinds(lru: seq<nat>, nodes: map<nat, Node>, index: map<QKey, nat>, key: QKey)
    requires Listed(lru, nodes) && Indexed(nodes, index)
    ensures key in index <==> Has(ViewOf(lru, nodes), key)
    ensures key in index ==> index[key] in lru && Find(ViewOf(lru, nodes), key) == Position(lru, index[key])
  {
    var s := ViewOf(lru, nodes);
    ViewDistinct(lru, nodes, index);
    if key in index {
      var i := Position(lru, index[key]);
      assert s[i].key == key;
    }
    if Has(s, key) {
      var i :| 0 <= i < |s| && s[i].key == key;
      assert index[nodes[lru[i]].key] == lru[i];
    }
  }

  function Dropped(lru: seq<nat>, i: nat): seq<nat>
    requires i < |lru|
  {
    lru[..i] + lru[i + 1..]
  }

  lemma DropAll(lru: seq<nat>, i: nat)
    requires i < |lru|
    ensures |Dropped(lru, i)| == |lru| - 1
    ensures forall j {:trigger Dropped(lru, i)[j]} :: 0 <= j < |lru| - 1 ==>
              Dropped(lru, i)[j] == if j < i then lru[j] else lru[j + 1]
    ensures forall j :: 0 <= j < |lru| && j != i ==> lru[j] in Dropped(lru, i)
  {
    var r := Dropped(lru, i);
    forall j | 0 <= j < |lru| && j != i
      ensures lru[j] in r
    {
      assert r[if j < i then j else j - 1] == lru[j];
    }
  }

  lemma DropListed(lru: seq<nat>, nodes: map<nat, Node>, i: nat)
    requires Listed(lru, nodes) && i < |lru|
    ensures Listed(Dropped(lru, i), nodes - {lru[i]})
  {
    hide Dropped;
    var r := Dropped(lru, i);
    DropAll(lru, i);
    forall h | h in nodes && h != lru[i]
      ensures h in r
    {
      var j :| 0 <= j < |lru| && lru[j] == h;
    }
  }

  lemma DropView(lru: seq<nat>, nodes: map<nat, Node>, i: nat)
    requires Listed(lru, nodes) && i < |lru| && Listed(Dropped(lru, i), nodes - {lru[i]})
    ensures ViewOf(Dropped(lru, i), nodes - {lru[i]}) == RemoveAt(ViewOf(lru, nodes), i)
  {
    hide Dropped;
    var r := Dropped(lru, i);
    DropAll(lru, i);
    var v := ViewOf(lru, nodes);
    var s, t := ViewOf(r, nodes - {lru[i]}), RemoveAt(v, i);
    forall j | 0 <= j < |s|
      ensures s[j] == t[j]
    {
      assert t[j] == if j < i then v[j] else v[j + 1];
      assert r[j] == if j < i then lru[j] else lru[j + 1];
    }
  }

  lemma DropIndexed(nodes: map<nat, Node>, index: map<QKey, nat>, h: nat)
    requires Indexed(nodes, index) && h in nodes
    ensures Indexed(nodes - {h}, index - {nodes[h].key})
  {
  }

  /** A node, new or taken from its place, at the front. */
  lemma FrontListed(lru: seq<nat>, nodes: map<nat, Node>, h: nat, n: Node)
    requires Listed(lru, nodes) && h !in nodes
    ensures Listed([h] + lru, nodes[h := n]) && ViewOf([h] + lru, nodes[h := n]) == [n] + ViewOf(lru, nodes)
  {
    var l := [h] + lru;
    assert forall i :: 0 <= i < |lru| ==> lru[i] != h;
    forall x | x in nodes[h := n]
      ensures x in l
    {
      if x != h { assert x in lru; }
    }
  }

  lemma FrontIndexed(nodes: map<nat, Node>, index: map<QKey, nat>, h: nat, n: Node)
    requires Indexed(nodes, index) && h !in nodes && n.key !in index
    ensures Indexed(nodes[h := n], index[n.key := h])
  {
  }

  ghost predicate Kept(lru: seq<nat>, nodes: map<nat, Node>, index: map<QKey, nat>, bytes: nat, handles: nat) {
    && Listed(lru, nodes) && Indexed(nodes, index) && bytes == TotalBytes(ViewOf(lru, nodes))
    && forall h :: h in nodes ==> h < handles
  }

  lemma DropKept(lru: seq<nat>, nodes: map<nat, Node>, index: map<QKey, nat>, bytes: nat, handles: nat, h: nat)
    requires Kept(lru, nodes, index, bytes, handles) && h in nodes
    ensures h in lru && bytes >= nodes[h].bytes
    ensures var i := Position(lru, h);
      && Kept(Dropped(lru, i), nodes - {h}, index - {nodes[h].key}, bytes - nodes[h].bytes, handles)
      && ViewOf(Dropped(lru, i), nodes - {h}) == RemoveAt(ViewOf(lru, nodes), i)
  {
    var i := Position(lru, h);
    DropListed(lru, nodes, i);
    DropView(lru, nodes, i);
    DropIndexed(nodes, index, h);
    RemoveTotal(ViewOf(lru, nodes), i);
    hide Listed, Indexed, Dropped, RemoveAt;
  }

  lemma FrontKept(
    lru: seq<nat>, nodes: map<nat, Node>, index: map<QKey, nat>, bytes: nat, handles: nat, h: nat, n: Node)
    requires Kept(lru, nodes, index, bytes, handles) && h !in nodes && n.key !in index
    ensures Kept([h] + lru, nodes[h := n], index[n.key := h], bytes + n.bytes, if h < handles then handles else h + 1)
    ensures ViewOf([h] + lru, nodes[h := n]) == [n] + ViewOf(lru, nodes)
  {
    FrontListed(lru, nodes, h, n);
    FrontIndexed(nodes, index, h, n);
    var rest := ViewOf(lru, nodes);
    assert TotalBytes([n] + rest) == n.bytes + TotalBytes(rest) by { assert ([n] + rest)[1..] == rest; }
    hide Listed, Indexed, TotalBytes;
  }

  lemma MoveKept(lru: seq<nat>, nodes: map<nat, Node>, index: map<QKey, nat>, bytes: nat, handles: nat, h: nat, n: Node)
    requires Kept(lru, nodes, index, bytes, handles) && h in nodes && n.key == nodes[h].key
    ensures h in lru && bytes >= nodes[h].bytes
    ensures var i := Position(lru, h);
      && Kept([h] + Dropped(lru, i), nodes[h := n], index, bytes - nodes[h].bytes + n.bytes, handles)
      && ViewOf([h] + Dropped(lru, i), nodes[h := n]) == [n] + RemoveAt(ViewOf(lru, nodes), i)
  {
    hide Kept, ViewOf, Dropped, RemoveAt, Position;
    DropKept(lru, nodes, index, bytes, handles, h);
    HandleOk(lru, nodes, index, bytes, handles, h);
    var i := Position(lru, h);
    FrontKept(Dropped(lru, i), nodes - {h}, index - {n.key}, bytes - nodes[h].bytes, handles, h, n);
    assert (nodes - {h})[h := n] == nodes[h := n];
    assert (index - {n.key})[n.key := h] == index;
  }

  lemma HandleOk(lru: seq<nat>, nodes: map<nat, Node>, index: map<QKey, nat>, bytes: nat, handles: nat, h: nat)
    requires Kept(lru, nodes, index, bytes, handles) && h in nodes
    ensures nodes[h].key in index && index[nodes[h].key] == h && h < handles
  {
  }

  class Shard {
    var lru: seq<nat>
    var nodes: map<nat, Node>
    var index: map<QKey, nat>
    var bytes: nat
    var handles: nat

    ghost predicate Valid()
      reads this
    {
      Kept(lru, nodes, index, bytes, handles)
    }

    /** The entries, the most recently used first. */
    ghost function View(): seq<Node>
      requires Valid()
      reads this
    {
      ViewOf(lru, nodes)
    }

    constructor ()
      ensures Valid() && View() == []
    {
      lru, nodes, index, bytes, handles := [], map[], map[], 0, 0;
    }

    method Erase(h: nat)
      requires Valid() && h in nodes
      modifies this
      ensures Valid() && h in old(lru) && View() == RemoveAt(old(View()), Position(old(lru), h)) && |lru| < |old(lru)|
    {
      hide Kept, Position, ViewOf, RemoveAt;
      DropKept(lru, nodes, index, bytes, handles, h);
      bytes := bytes - nodes[h].bytes;
      index := index - {nodes[h].key};
      lru, nodes := Dropped(lru, Position(lru, h)), nodes - {h};
    }

    /** A list node to the front, with what it holds now. */
    method MoveToFront(h: nat, n: Node)
      requires Valid() && h in nodes && n.key == nodes[h].key
      modifies this
      ensures Valid() && h in old(lru) && View() == [n] + RemoveAt(old(View()), Position(old(lru), h))
    {
      hide Kept, Position, ViewOf, RemoveAt, Dropped;
      MoveKept(lru, nodes, index, bytes, handles, h, n);
      bytes := bytes - nodes[h].bytes + n.bytes;
      lru, nodes := [h] + Dropped(lru, Position(lru, h)), nodes[h := n];
    }

    method Lookup(key: QKey, now: nat) returns (hit: Option<CacheEntry>)
      requires Valid()
      modifies this
      ensures Valid() && (View(), hit) == LookedUp(old(View()), key, now)
    {
      hide Kept, Find, Has, Position, RemoveAt, ViewOf, WithTtl;
      Finds(lru, nodes, index, bytes, handles, key);
      if key !in index || nodes[index[key]].entry.expiresAt <= now {
        return None;
      }
      var h := index[key];
      var n := nodes[h].(entry := nodes[h].entry.(hitCount := nodes[h].entry.hitCount + 1));
      MoveToFront(h, n);
      hit := Some(n.entry.(records := WithTtl(n.entry.records, Remaining(n.entry, now))));
    }

    method Insert(cfg: CacheConfig, ins: Insert, now: nat)
      requires Valid()
      modifies this
      ensures Valid() && View() == Inserted(cfg, old(View()), ins, now)
    {
      hide EntryBytes, NewNode, RankOf, Kept, Find, Has, RemoveAt, Clamp, Position, ViewOf, Trimmed;
      var effective := Clamp(cfg, ins.ttl);
      if effective == 0 { return; }
      var n := NewNode(cfg, ins, now);
      NewKey(cfg, ins, now);
      Finds(lru, nodes, index, bytes, handles, ins.key);
      if ins.key in index {
        var h := index[ins.key];
        if nodes[h].entry.expiresAt > now && RankOf(nodes[h].entry.trust) > RankOf(ins.entry.trust) { return; }
        if n.bytes > cfg.budget {
          Erase(h);
          return;
        }
        MoveToFront(h, n);
      } else {
        if n.bytes > cfg.budget { return; }
        FrontKept(lru, nodes, index, bytes, handles, handles, n);
        lru, nodes, index := [handles] + lru, nodes[handles := n], index[n.key := handles];
        bytes, handles := bytes + n.bytes, handles + 1;
      }
      Trim(cfg.budget);
    }

    /** Entries in use longest ago go. */
    method Trim(budget: nat)
      requires Valid()
      modifies this
      ensures Valid() && View() == Trimmed(old(View()), budget)
    {
      while bytes > budget && |lru| > 1
        invariant Valid() && Trimmed(View(), budget) == Trimmed(old(View()), budget)
        decreases |lru|
      {
        LastPosition(lru, nodes);
        TrimOne(lru, nodes, index, bytes, handles, budget);
        Erase(lru[|lru| - 1]);
      }
    }

    method Evict(key: QKey)
      requires Valid()
      modifies this
      ensures Valid() && View() == Evicted(old(View()), key)
    {
      hide Kept, Find, Has, Position, RemoveAt, ViewOf;
      Finds(lru, nodes, index, bytes, handles, key);
      if key in index { Erase(index[key]); }
    }

    method Flush()
      modifies this
      ensures Valid() && View() == []
    {
      lru, nodes, index, bytes := [], map[], map[], 0;
    }
  }

  lemma Finds(lru: seq<nat>, nodes: map<nat, Node>, index: map<QKey, nat>, bytes: nat, handles: nat, key: QKey)
    requires Kept(lru, nodes, index, bytes, handles)
    ensures key in index <==> Find(ViewOf(lru, nodes), key) < |lru|
    ensures key in index ==> index[key] in nodes && index[key] in lru && nodes[index[key]].key == key
                             && Find(ViewOf(lru, nodes), key) == Position(lru, index[key])
    ensures handles !in nodes
  {
    IndexFinds(lru, nodes, index, key);
  }

  lemma TrimOne(lru: seq<nat>, nodes: map<nat, Node>, index: map<QKey, nat>, bytes: nat, handles: nat, budget: nat)
    requires Kept(lru, nodes, index, bytes, handles) && bytes > budget && |lru| > 1
    ensures lru[|lru| - 1] in nodes
    ensures Trimmed(ViewOf(lru, nodes), budget) == Trimmed(RemoveAt(ViewOf(lru, nodes), |lru| - 1), budget)
  {
    var s := ViewOf(lru, nodes);
    assert RemoveAt(s, |s| - 1) == s[..|s| - 1];
  }

  lemma NewKey(cfg: CacheConfig, ins: Insert, now: nat)
    ensures NewNode(cfg, ins, now).key == ins.key
  {
  }

  lemma LastPosition(lru: seq<nat>, nodes: map<nat, Node>)
    requires Listed(lru, nodes) && lru != []
    ensures Position(lru, lru[|lru| - 1]) == |lru| - 1
  {
  }
}
