/** The shape of the tasks in progress, kept by every step: each waits for just
    one thing, each sub-task is the child of one live parent, and each client
    task is the one in flight for its question. */
module ResolverInvariant {
  import opened DnsTypes
  import opened ResolverTask
  import opened ResolverServers
  import opened ResolverAnswers
  import opened ResolverTree

  // While a step is being carried out some links are open: the parent of task
  // `orphan` and the child `dangling` of some task are gone, and task `idle`
  // waits for nothing. Zero stands for no task.

  predicate ParentLinked(st: State, x: nat, orphan: nat)
    requires x in st.nodes
  {
    var n := st.nodes[x];
    n.done.ToParent? && x != orphan ==>
      var p := n.done.parent;
      && p in st.nodes && st.nodes[p].child == x && st.nodes[p].root == n.root
      && n.t.ancestry == st.nodes[p].t.ancestry + [QKey(st.nodes[p].t.qname, st.nodes[p].t.Qtype(), CLASS_IN)]
  }

  predicate ChildLinked(st: State, x: nat, dangling: nat)
    requires x in st.nodes
  {
    var c := st.nodes[x].child;
    c != 0 && c != dangling ==> c in st.nodes && st.nodes[c].done == ToParent(x)
  }

  predicate ClientListed(st: State, x: nat)
    requires x in st.nodes
  {
    var n := st.nodes[x];
    var k := KeyOf(n.t.question);
    if n.done.ToClient? then
      n.root == x && n.deadline && n.t.ancestry == [] && k in st.inFlight && st.inFlight[k] == x
      && forall w :: w in n.joiners ==> KeyOf(w.question) == k
    else !n.deadline && n.joiners == []
  }

  predicate WithinLimits(cfg: Config, st: State, n: Node) {
    && |n.t.ancestry| <= MAX_SUBQUERY_DEPTH && n.t.glueless <= cfg.maxGlueless
    && n.root in st.queries && st.queries[n.root] <= cfg.maxQueries
  }

  predicate NodeOk(cfg: Config, st: State, x: nat, orphan: nat, dangling: nat, idle: nat)
    requires x in st.nodes
  {
    && ParentLinked(st, x, orphan) && ChildLinked(st, x, dangling) && ClientListed(st, x)
    && WithinLimits(cfg, st, st.nodes[x])
    && (if x == idle then st.nodes[x].Idle() else st.nodes[x].Waiting())
  }

  /** Every question in flight is that of a live client task. */
  predicate InFlightOk(st: State) {
    forall k :: k in st.inFlight ==>
      && st.inFlight[k] in st.nodes && st.nodes[st.inFlight[k]].done.ToClient?
      && KeyOf(st.nodes[st.inFlight[k]].t.question) == k
  }

  ghost predicate Tree(cfg: Config, st: State, orphan: nat, dangling: nat, idle: nat) {
    && 0 < st.nextId && (forall x :: x in st.nodes ==> 0 < x < st.nextId)
    && InFlightOk(st)
    && forall x {:trigger NodeOk(cfg, st, x, orphan, dangling, idle)} :: x in st.nodes ==>
      NodeOk(cfg, st, x, orphan, dangling, idle)
  }

  lemma NextFree(cfg: Config, st: State, idle: nat)
    requires Tree(cfg, st, 0, 0, idle)
    ensures 0 < st.nextId && st.nextId !in st.nodes
  {
  }

  // ─── Dropping a task and its descendants ──────────────────────────────────

  function Removed(st: State, id: nat): State
    requires id in st.nodes
  {
    st.(nodes := st.nodes - {id}, inFlight := Unlisted(st.inFlight, id, st.nodes[id]))
  }

  lemma RemovedInFlight(st: State, id: nat)
    requires id in st.nodes && InFlightOk(st)
    ensures InFlightOk(Removed(st, id))
    ensures forall k :: k in Removed(st, id).inFlight <==> k in st.inFlight && st.inFlight[k] != id
    ensures forall k :: k in Removed(st, id).inFlight ==> Removed(st, id).inFlight[k] == st.inFlight[k]
  {
  }

  /** Only the parent, if any, points at a task. */
  lemma OnlyParentPoints(cfg: Config, st: State, orphan: nat, dangling: nat, idle: nat, id: nat, y: nat)
    requires Tree(cfg, st, orphan, dangling, idle) && id in st.nodes && y in st.nodes
    requires st.nodes[y].child == id && id != dangling
    ensures st.nodes[id].done == ToParent(y)
  {
    assert NodeOk(cfg, st, y, orphan, dangling, idle);
    assert NodeOk(cfg, st, id, orphan, dangling, idle);
  }

  lemma RemoveLinks(cfg: Config, st: State, orphan: nat, dangling: nat, idle: nat, id: nat, dangling': nat)
    requires Tree(cfg, st, orphan, dangling, idle) && id in st.nodes && (idle == 0 || idle == id)
    requires dangling == 0 || dangling !in st.nodes
    requires dangling' == dangling || (dangling == 0 && dangling' == id)
    requires forall y :: y in st.nodes && st.nodes[y].child == id ==> dangling' == id
    requires orphan == 0 || orphan == id
    ensures Tree(cfg, Removed(st, id), st.nodes[id].child, dangling', 0)
  {
    var st1 := Removed(st, id);
    var child := st.nodes[id].child;
    assert NodeOk(cfg, st, id, orphan, dangling, idle);
    RemovedInFlight(st, id);
    forall x | x in st1.nodes
      ensures NodeOk(cfg, st1, x, child, dangling', 0)
    {
      assert NodeOk(cfg, st, x, orphan, dangling, idle);
    }
  }

  /** The descendants of a removed task go too, and nothing else does. */
  lemma {:induction false} DropRest(cfg: Config, st: State, id: nat, dangling: nat) returns (st': State)
    requires Tree(cfg, st, id, dangling, 0) && dangling !in st.nodes
    requires id in st.nodes ==> id != 0 && st.nodes[id].done.ToParent? && st.nodes[id].done.parent !in st.nodes
    requires id !in st.nodes ==> id == 0
    requires id in st.nodes ==> DeeperThanParents(st, dangling, id)
    ensures st' == (if id == 0 then st else Drop(st, id)) && Tree(cfg, st', 0, dangling, 0)
    ensures forall x :: x in st.nodes && st.nodes[x].done.ToClient? ==> x in st'.nodes
    ensures forall x :: x in st.nodes && id in st.nodes && st.nodes[x].root != st.nodes[id].root ==> x in st'.nodes
    ensures st'.inFlight == st.inFlight
    decreases st.nodes.Keys
  {
    if id !in st.nodes {
      st' := st;
    } else {
      assert NodeOk(cfg, st, id, id, dangling, 0);
      var child := st.nodes[id].child;
      if child != 0 { assert NodeOk(cfg, st, child, id, dangling, 0); }
      forall y | y in st.nodes && st.nodes[y].child == id
        ensures false
      {
        OnlyParentPoints(cfg, st, id, dangling, 0, id, y);
      }
      RemoveLinks(cfg, st, id, dangling, 0, id, dangling);
      var st1 := Removed(st, id);
      assert st1.nodes.Keys < st.nodes.Keys by { assert id !in st1.nodes.Keys; }
      st' := DropRest(cfg, st1, child, dangling);
    }
  }

  /** Whoever points at `dangling` is nearer the root than `id` is. */
  predicate DeeperThanParents(st: State, dangling: nat, id: nat)
    requires id in st.nodes
  {
    forall y :: y in st.nodes && st.nodes[y].child == dangling ==> |st.nodes[y].t.ancestry| < |st.nodes[id].t.ancestry|
  }

  /** Ending a task leaves a sound tree, but that its parent, if any, still
      points at it; and no client task but itself is gone. */
  lemma DropTree(cfg: Config, st: State, id: nat, idle: nat) returns (st': State)
    requires Tree(cfg, st, 0, 0, idle) && id in st.nodes && (idle == 0 || idle == id)
    ensures st' == Drop(st, id) && Tree(cfg, st', 0, id, 0)
    ensures forall x :: x in st.nodes && st.nodes[x].done.ToClient? && x != id ==> x in st'.nodes
    ensures forall x :: x in st.nodes && st.nodes[x].root != st.nodes[id].root ==> x in st'.nodes
    ensures forall k :: k in st'.inFlight <==> k in st.inFlight && st.inFlight[k] != id
    ensures forall k :: k in st'.inFlight ==> st'.inFlight[k] == st.inFlight[k]
    ensures forall y :: y in st'.nodes && st'.nodes[y].child == id ==> st.nodes[id].done == ToParent(y)
  {
    assert NodeOk(cfg, st, id, 0, 0, idle);
    RemovedInFlight(st, id);
    RemoveLinks(cfg, st, 0, 0, idle, id, id);
    var child := st.nodes[id].child;
    if child != 0 {
      assert NodeOk(cfg, st, child, 0, 0, idle);
      forall y | y in st.nodes && st.nodes[y].child == id
        ensures |st.nodes[y].t.ancestry| < |st.nodes[child].t.ancestry|
      {
        OnlyParentPoints(cfg, st, 0, 0, idle, id, y);
      }
    }
    st' := DropRest(cfg, Removed(st, id), st.nodes[id].child, id);
    forall y | y in st'.nodes && st'.nodes[y].child == id
      ensures st.nodes[id].done == ToParent(y)
    {
      OnlyParentPoints(cfg, st, 0, 0, idle, id, y);
    }
  }

  // ─── The other steps ──────────────────────────────────────────────────────

  /** Nothing hangs from an idle task. */
  lemma NoChildOfIdle(cfg: Config, st: State, id: nat, x: nat)
    requires Tree(cfg, st, 0, 0, id) && id in st.nodes && x in st.nodes
    ensures st.nodes[x].done != ToParent(id)
  {
    assert NodeOk(cfg, st, x, 0, 0, id);
    assert NodeOk(cfg, st, id, 0, 0, id);
  }

  /** What a task may not change of itself. */
  predicate SameOrigin(t: Task, t': Task) {
    t'.question == t.question && t'.ancestry == t.ancestry
  }

  lemma AskingTree(cfg: Config, st: State, id: nat, t: Task)
    requires Tree(cfg, st, 0, 0, id) && id in st.nodes && SameOrigin(st.nodes[id].t, t)
    requires t.glueless <= cfg.maxGlueless && Spent(st, st.nodes[id].root) < cfg.maxQueries
    ensures Tree(cfg, Asking(st, id, t), 0, 0, 0)
  {
    var st' := Asking(st, id, t);
    forall x | x in st'.nodes
      ensures NodeOk(cfg, st', x, 0, 0, 0)
    {
      assert NodeOk(cfg, st, x, 0, 0, id);
      NoChildOfIdle(cfg, st, id, x);
    }
  }

  lemma LookingTree(cfg: Config, st: State, id: nat, t: Task, q: Question)
    requires Tree(cfg, st, 0, 0, id) && id in st.nodes && SameOrigin(st.nodes[id].t, t)
    requires t.glueless <= cfg.maxGlueless && |t.ancestry| < MAX_SUBQUERY_DEPTH
    ensures Tree(cfg, Looking(st, id, t, q), 0, 0, 0)
  {
    var st' := Looking(st, id, t, q);
    assert st.nextId !in st.nodes;
    forall x | x in st'.nodes
      ensures NodeOk(cfg, st', x, 0, 0, 0)
    {
      LookingNode(cfg, st, id, t, q, x);
    }
  }

  lemma LookingNode(cfg: Config, st: State, id: nat, t: Task, q: Question, x: nat)
    requires Tree(cfg, st, 0, 0, id) && id in st.nodes && SameOrigin(st.nodes[id].t, t)
    requires t.glueless <= cfg.maxGlueless && |t.ancestry| < MAX_SUBQUERY_DEPTH && x in Looking(st, id, t, q).nodes
    ensures NodeOk(cfg, Looking(st, id, t, q), x, 0, 0, 0)
  {
    assert st.nextId !in st.nodes;
    assert NodeOk(cfg, st, id, 0, 0, id);
    if x != st.nextId {
      assert NodeOk(cfg, st, x, 0, 0, id);
      NoChildOfIdle(cfg, st, id, x);
    }
  }

  /** A sub-task that waits for nothing ends: its parent is the one idle now. */
  lemma ResumedTree(cfg: Config, st: State, id: nat, p: nat)
    requires Tree(cfg, st, 0, 0, id) && id in st.nodes && st.nodes[id].done == ToParent(p)
    ensures Drop(st, id) == Removed(st, id) && p in Removed(st, id).nodes
    ensures Tree(cfg, Resumed(Removed(st, id), p), 0, 0, p)
  {
    assert NodeOk(cfg, st, id, 0, 0, id);
    assert p in st.nodes && NodeOk(cfg, st, p, 0, 0, id);
    RemoveLinks(cfg, st, 0, 0, id, id, id);
    forall y | y in st.nodes && st.nodes[y].child == id
      ensures y == p
    {
      OnlyParentPoints(cfg, st, 0, 0, id, id, y);
    }
    RelinkedTree(cfg, Removed(st, id), id, p);
  }

  lemma RelinkedTree(cfg: Config, st: State, gone: nat, p: nat)
    requires Tree(cfg, st, 0, gone, 0) && gone !in st.nodes && gone != 0 && p in st.nodes && st.nodes[p].child == gone
    requires forall y :: y in st.nodes && st.nodes[y].child == gone ==> y == p
    ensures Tree(cfg, Resumed(st, p), 0, 0, p)
  {
    forall x | x in st.nodes
      ensures NodeOk(cfg, Resumed(st, p), x, 0, 0, p)
    {
      assert NodeOk(cfg, st, x, 0, gone, 0);
    }
  }

  /** A client task ends, with all that it waits for. */
  lemma EndedTree(cfg: Config, st: State, id: nat, idle: nat)
    requires Tree(cfg, st, 0, 0, idle) && id in st.nodes && (idle == 0 || idle == id) && st.nodes[id].done.ToClient?
    ensures Tree(cfg, Drop(st, id), 0, 0, 0)
    ensures forall x :: x in st.nodes && (st.nodes[x].root != id || (st.nodes[x].done.ToClient? && x != id)) ==>
              x in Drop(st, id).nodes
  {
    assert NodeOk(cfg, st, id, 0, 0, idle);
    var st' := DropTree(cfg, st, id, idle);
    forall x | x in st'.nodes
      ensures NodeOk(cfg, st', x, 0, 0, 0)
    {
      assert NodeOk(cfg, st', x, 0, id, 0);
    }
  }

  /** A pending timer or reply arrives. */
  lemma WokenTree(cfg: Config, st: State, id: nat, n: Node)
    requires Tree(cfg, st, 0, 0, 0) && id in st.nodes && st.nodes[id].child == 0
    requires n == st.nodes[id].(start := false, upstream := false)
    ensures Tree(cfg, st.(nodes := st.nodes[id := n]), 0, 0, id)
  {
    hide NodeOk;
    var st' := st.(nodes := st.nodes[id := n]);
    forall x | x in st'.nodes
      ensures NodeOk(cfg, st', x, 0, 0, id)
    {
      WokenNode(cfg, st, id, n, x);
    }
  }

  lemma WokenNode(cfg: Config, st: State, id: nat, n: Node, x: nat)
    requires Tree(cfg, st, 0, 0, 0) && id in st.nodes && st.nodes[id].child == 0 && x in st.nodes
    requires n == st.nodes[id].(start := false, upstream := false)
    ensures NodeOk(cfg, st.(nodes := st.nodes[id := n]), x, 0, 0, id)
  {
    assert NodeOk(cfg, st, x, 0, 0, 0);
  }

  lemma ResolveTree(cfg: Config, st: State, q: Question)
    requires Tree(cfg, st, 0, 0, 0)
    ensures Tree(cfg, ResolveClient(st, q), 0, 0, 0)
  {
    if Joins(st, q) { JoinTree(cfg, st, q); } else { SpawnTree(cfg, st, q); }
  }

  lemma JoinTree(cfg: Config, st: State, q: Question)
    requires Tree(cfg, st, 0, 0, 0) && Joins(st, q)
    ensures Tree(cfg, ResolveClient(st, q), 0, 0, 0)
  {
    hide NodeOk;
    var st' := ResolveClient(st, q);
    forall x | x in st'.nodes
      ensures NodeOk(cfg, st', x, 0, 0, 0)
    {
      JoinNode(cfg, st, q, x);
    }
  }

  lemma JoinNode(cfg: Config, st: State, q: Question, x: nat)
    requires Tree(cfg, st, 0, 0, 0) && Joins(st, q) && x in ResolveClient(st, q).nodes
    ensures NodeOk(cfg, ResolveClient(st, q), x, 0, 0, 0)
  {
    assert NodeOk(cfg, st, x, 0, 0, 0);
  }

  lemma SpawnTree(cfg: Config, st: State, q: Question)
    requires Tree(cfg, st, 0, 0, 0) && !Joins(st, q)
    ensures Tree(cfg, ResolveClient(st, q), 0, 0, 0)
  {
    var st' := ResolveClient(st, q);
    assert KeyOf(q) !in st.inFlight && st.nextId !in st.nodes;
    hide NodeOk;
    forall x | x in st'.nodes
      ensures NodeOk(cfg, st', x, 0, 0, 0)
    {
      SpawnNode(cfg, st, q, x);
    }
  }

  lemma SpawnNode(cfg: Config, st: State, q: Question, x: nat)
    requires Tree(cfg, st, 0, 0, 0) && !Joins(st, q) && x in ResolveClient(st, q).nodes
    ensures NodeOk(cfg, ResolveClient(st, q), x, 0, 0, 0)
  {
    assert KeyOf(q) !in st.inFlight && st.nextId !in st.nodes;
    if x != st.nextId { assert NodeOk(cfg, st, x, 0, 0, 0); }
    hide InFlightOk;
  }

  // ─── Roots ────────────────────────────────────────────────────────────────

  /** No task outlives the client task it works for. */
  lemma {:induction false} RootLive(cfg: Config, st: State, idle: nat, x: nat)
    requires Tree(cfg, st, 0, 0, idle) && x in st.nodes
    ensures st.nodes[x].root in st.nodes && st.nodes[st.nodes[x].root].done.ToClient?
    decreases |st.nodes[x].t.ancestry|
  {
    assert NodeOk(cfg, st, x, 0, 0, idle);
    if st.nodes[x].done.ToParent? {
      RootLive(cfg, st, idle, st.nodes[x].done.parent);
    }
  }
}
