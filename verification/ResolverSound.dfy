/** Every step keeps the tasks in progress sound, whatever the servers, the cache
    and the clients do: their zones and chains, what they have sent, what was
    cached and what was delivered; and it concerns one client task only. */
module ResolverSound {
  import opened DnsTypes
  import opened ResolverTask
  import opened ResolverServers
  import opened ResolverAnswers
  import opened ResolverLimits
  import opened ResolverTree
  import opened ResolverInvariant

  ghost predicate NodeSound(cfg: Config, n: Node, noCase: set<Addr>, trusted: Facts) {
    && TaskOk(cfg, n.t, trusted)
    && (n.upstream || n.child != 0 ==> ZoneAbove(n.t) && Disciplined(n.t, noCase))
    && (n.upstream ==> AskedOk(n.t))
  }

  ghost predicate NodesSound(cfg: Config, st: State) {
    forall x :: x in st.nodes ==> NodeSound(cfg, st.nodes[x], st.noCase, st.trusted)
  }

  ghost predicate LogOk(log: set<Insert>, trusted: Facts) {
    forall ins {:trigger InsertOk(ins, ins.zone, trusted)} :: ins in log ==> InsertOk(ins, ins.zone, trusted)
  }

  ghost predicate DeliveredOk(cfg: Config, delivered: seq<Delivery>, trusted: Facts) {
    forall d :: d in delivered ==> OutcomeOk(cfg, d.question, d.outcome, trusted)
  }

  ghost predicate Sound(cfg: Config, st: State) {
    && cfg.maxCname <= 254
    && NodesSound(cfg, st) && LogOk(st.log, st.trusted) && DeliveredOk(cfg, st.delivered, st.trusted)
  }

  /** A verdict within the limits. */
  predicate Affordable(cfg: Config, spent: nat, v: Verdict) {
    match v
    case Query(t) => spent < cfg.maxQueries && t.glueless <= cfg.maxGlueless
    case Lookup(t, _) => t.glueless <= cfg.maxGlueless && |t.ancestry| < MAX_SUBQUERY_DEPTH
    case Done(_) => true
  }

  ghost predicate Good(cfg: Config, st: State, id: nat, v: Verdict)
    requires id in st.nodes
  {
    && VerdictOk(cfg, v, st.nodes[id].t, st.trusted) && VerdictDisciplined(v, st.noCase)
    && Affordable(cfg, Spent(st, st.nodes[id].root), v)
  }

  // ─── What a step leaves alone ─────────────────────────────────────────────

  /** Tasks of other clients, and their budgets, are as they were. */
  ghost predicate Untouched(st: State, st': State, r: nat) {
    && (forall x :: x in st.nodes && st.nodes[x].root != r ==> x in st'.nodes && st'.nodes[x] == st.nodes[x])
    && (forall x :: x in st'.nodes && st'.nodes[x].root != r ==> x in st.nodes && st'.nodes[x] == st.nodes[x])
    && (forall k :: k != r ==> Spent(st', k) == Spent(st, k)) && Spent(st, r) <= Spent(st', r) <= Spent(st, r) + 1
    && st'.asked == st.asked && st.nextId <= st'.nextId <= st.nextId + 1
    && (forall x :: x in st'.nodes ==> x in st.nodes || x == st.nextId)
  }

  predicate SameClient(n: Node, n': Node) {
    n'.done == n.done && n'.joiners == n.joiners && n'.t.question == n.t.question
  }

  /** Every client task but `r` goes on, with the same callbacks. */
  ghost predicate ClientsKept(st: State, st': State, r: nat) {
    && (forall x :: x in st.nodes && st.nodes[x].done.ToClient? && x != r ==>
          x in st'.nodes && SameClient(st.nodes[x], st'.nodes[x]))
    && (forall x :: x in st'.nodes && st'.nodes[x].done.ToClient? ==> x in st.nodes && st.nodes[x].done.ToClient?)
  }

  /** Client task `r` goes on as well and nobody is called back, or it ends and
      all its callbacks are told the same. */
  ghost predicate Effect(st: State, st': State, r: nat) {
    && Untouched(st, st', r)
    && (if r in st'.nodes then ClientsKept(st, st', 0) && st'.delivered == st.delivered && st'.inFlight == st.inFlight
        else ClientsKept(st, st', r) && exists o :: Told(st, st', r, o))
  }

  predicate Told(st: State, st': State, r: nat, o: Outcome) {
    && r in st.nodes && st.nodes[r].done.ToClient?
    && st'.delivered == st.delivered + Deliveries(st.nodes[r], o)
  }

  // ─── Each kind of step ────────────────────────────────────────────────────

  lemma AskingSound(cfg: Config, st: State, id: nat, t: Task)
    requires Sound(cfg, st) && id in st.nodes && Good(cfg, st, id, Query(t)) && st.nodes[id].child == 0
    ensures Sound(cfg, Asking(st, id, t))
  {
    var st' := Asking(st, id, t);
    forall x | x in st'.nodes
      ensures NodeSound(cfg, st'.nodes[x], st'.noCase, st'.trusted)
    {
      if x != id { assert st'.nodes[x] == st.nodes[x]; }
    }
  }

  lemma AskingEffect(cfg: Config, st: State, id: nat, t: Task)
    requires Tree(cfg, st, 0, 0, id) && id in st.nodes && SameOrigin(st.nodes[id].t, t)
    ensures Effect(st, Asking(st, id, t), st.nodes[id].root)
  {
    RootLive(cfg, st, id, id);
    hide NodeOk, InFlightOk;
  }

  lemma LookingSound(cfg: Config, st: State, id: nat, t: Task, q: Question)
    requires Sound(cfg, st) && id in st.nodes && Good(cfg, st, id, Lookup(t, q)) && !st.nodes[id].upstream
    ensures Sound(cfg, Looking(st, id, t, q))
  {
    var st' := Looking(st, id, t, q);
    forall x | x in st'.nodes
      ensures NodeSound(cfg, st'.nodes[x], st'.noCase, st'.trusted)
    {
      if x != id && x != st.nextId { assert st'.nodes[x] == st.nodes[x]; }
    }
  }

  lemma LookingEffect(cfg: Config, st: State, id: nat, t: Task, q: Question)
    requires Tree(cfg, st, 0, 0, id) && id in st.nodes && SameOrigin(st.nodes[id].t, t)
    ensures Effect(st, Looking(st, id, t, q), st.nodes[id].root)
  {
    hide Tree, Looking, Untouched, ClientsKept;
    NextFree(cfg, st, id);
    RootLive(cfg, st, id, id);
    LookingUntouched(st, id, t, q);
    LookingClients(st, id, t, q);
  }

  lemma LookingUntouched(st: State, id: nat, t: Task, q: Question)
    requires id in st.nodes && st.nextId !in st.nodes
    ensures var st' := Looking(st, id, t, q);
      && Untouched(st, st', st.nodes[id].root) && st'.delivered == st.delivered && st'.inFlight == st.inFlight
      && (forall x :: x in st.nodes ==> x in st'.nodes)
  {
    hide NewTask;
  }

  lemma LookingClients(st: State, id: nat, t: Task, q: Question)
    requires id in st.nodes && st.nextId !in st.nodes && SameOrigin(st.nodes[id].t, t)
    ensures ClientsKept(st, Looking(st, id, t, q), 0)
  {
    hide NewTask;
  }

  /** A sub-task has ended and its parent goes on. */
  function AfterChild(st: State, id: nat, p: nat): State
    requires id in st.nodes && p in st.nodes && p != id
  {
    Resumed(Removed(st, id), p)
  }

  lemma AfterChildSound(cfg: Config, st: State, id: nat, p: nat)
    requires Sound(cfg, st) && id in st.nodes && p in st.nodes && p != id
    ensures Sound(cfg, AfterChild(st, id, p))
  {
    var st' := AfterChild(st, id, p);
    forall x | x in st'.nodes
      ensures NodeSound(cfg, st'.nodes[x], st'.noCase, st'.trusted)
    {
      assert NodeSound(cfg, st.nodes[x], st.noCase, st.trusted);
      hide TaskOk, ZoneAbove, Disciplined, AskedOk;
    }
  }

  lemma AfterChildEffect(cfg: Config, st: State, id: nat, p: nat)
    requires Tree(cfg, st, 0, 0, id) && id in st.nodes && p in st.nodes && p != id && st.nodes[id].done == ToParent(p)
    ensures Effect(st, AfterChild(st, id, p), st.nodes[id].root)
  {
    RootLive(cfg, st, id, id);
    assert NodeOk(cfg, st, id, 0, 0, id);
    hide NodeOk, InFlightOk;
  }

  lemma ChildDoneGood(cfg: Config, env: Env, st: State, p: nat, o: Outcome) returns (v: Verdict)
    requires p in st.nodes && st.nodes[p].t.glueless <= cfg.maxGlueless && PicksMember(env)
    requires TaskOk(cfg, st.nodes[p].t, st.trusted) && ZoneAbove(st.nodes[p].t) && Disciplined(st.nodes[p].t, st.noCase)
    ensures v == ChildDone(ContextAt(cfg, env, st, st.nodes[p].root), st.nodes[p].t, o) && Good(cfg, st, p, v)
  {
    var ctx := ContextAt(cfg, env, st, st.nodes[p].root);
    var t := st.nodes[p].t;
    v := ChildDoneOk(ctx, t, o, st.trusted);
    ChildDoneDisciplined(ctx, t, o);
    var _ := ChildDoneAllowed(ctx, t, o);
    hide ChildDone;
  }

  /** A client task has ended. */
  function Ended(st: State, id: nat, o: Outcome): State
    requires id in st.nodes && st.nodes[id].done.ToClient?
  {
    var st1 := Drop(st, id);
    st1.(delivered := st1.delivered + Deliveries(st.nodes[id], o))
  }

  lemma EndedSound(cfg: Config, st: State, id: nat, o: Outcome)
    requires Sound(cfg, st) && id in st.nodes && st.nodes[id].done.ToClient?
    requires OutcomeOk(cfg, st.nodes[id].t.question, o, st.trusted)
    requires forall w :: w in st.nodes[id].joiners ==> KeyOf(w.question) == KeyOf(st.nodes[id].t.question)
    ensures Sound(cfg, Ended(st, id, o))
  {
    var n := st.nodes[id];
    forall d | d in Deliveries(n, o)
      ensures OutcomeOk(cfg, d.question, d.outcome, st.trusted)
    {
      assert KeyOf(d.question) == KeyOf(n.t.question);
      SameKeyOutcome(cfg, n.t.question, d.question, o, st.trusted);
    }
    hide Drop, NodeSound, Deliveries, OutcomeOk;
  }

  lemma SameKeyOutcome(cfg: Config, q: Question, q': Question, o: Outcome, trusted: Facts)
    requires OutcomeOk(cfg, q, o, trusted) && KeyOf(q') == KeyOf(q)
    ensures OutcomeOk(cfg, q', o, trusted)
  {
    if o.Resolved? {
      var k: nat :| AnswersOk(cfg, q, o, trusted, k);
      assert AnswersOk(cfg, q', o, trusted, k);
    }
  }

  lemma EndedEffect(cfg: Config, st: State, id: nat, idle: nat, o: Outcome)
    requires Tree(cfg, st, 0, 0, idle) && id in st.nodes && (idle == 0 || idle == id) && st.nodes[id].done.ToClient?
    ensures Tree(cfg, Ended(st, id, o), 0, 0, 0) && Effect(st, Ended(st, id, o), id)
  {
    EndedTree(cfg, st, id, idle);
    TreeFrame(cfg, Drop(st, id), Ended(st, id, o), 0);
    assert Told(st, Ended(st, id, o), id, o);
    hide NodeOk, InFlightOk, Deliveries;
  }

  lemma TreeFrame(cfg: Config, st: State, st': State, idle: nat)
    requires Tree(cfg, st, 0, 0, idle)
    requires st'.nodes == st.nodes && st'.inFlight == st.inFlight && st'.queries == st.queries
    requires st'.nextId == st.nextId
    ensures Tree(cfg, st', 0, 0, idle)
  {
    forall x | x in st'.nodes
      ensures NodeOk(cfg, st', x, 0, 0, idle)
    {
      assert NodeOk(cfg, st, x, 0, 0, idle);
    }
  }

  // ─── Carrying a verdict out ───────────────────────────────────────────────

  /** Nothing was sent or begun between `st` and `st1`, and the client goes on. */
  lemma EffectThen(st: State, st1: State, st2: State, r: nat)
    requires Effect(st, st1, r) && r in st.nodes && r in st1.nodes && st1.nextId == st.nextId
    requires Spent(st1, r) == Spent(st, r)
    requires Effect(st1, st2, r) && st.nodes[r].done.ToClient? && 0 !in st.nodes
    ensures Effect(st, st2, r)
  {
    if r !in st2.nodes {
      var o :| Told(st1, st2, r, o);
      assert Told(st, st2, r, o);
    }
    hide Deliveries;
  }

  lemma FinishGoesUp(cfg: Config, env: Env, st: State, id: nat, o: Outcome, p: nat, v: Verdict, st': State)
    requires id in st.nodes && p in st.nodes && p != id && st.nodes[id].done == ToParent(p)
    requires Drop(st, id) == Removed(st, id)
    requires v == ChildDone(ContextAt(cfg, env, AfterChild(st, id, p), st.nodes[p].root), st.nodes[p].t, o)
    requires st' == Apply(cfg, env, AfterChild(st, id, p), p, v)
    ensures st' == Apply(cfg, env, st, id, Done(o))
  {
    hide ChildDone, Drop;
  }

  /** Carrying a good verdict out keeps everything sound; when it ends a sub-task
      its ancestors decide what to do next in turn. */
  lemma {:induction false} ApplyKeeps(cfg: Config, env: Env, st: State, id: nat, v: Verdict) returns (st': State)
    requires Tree(cfg, st, 0, 0, id) && Sound(cfg, st) && id in st.nodes && Good(cfg, st, id, v) && PicksMember(env)
    ensures st' == Apply(cfg, env, st, id, v)
    ensures Tree(cfg, st', 0, 0, 0) && Sound(cfg, st') && Effect(st, st', st.nodes[id].root)
    decreases st.nodes.Keys
  {
    assert NodeOk(cfg, st, id, 0, 0, id);
    match v
    case Query(t) =>
      st' := Asking(st, id, t);
      AskingTree(cfg, st, id, t);
      AskingSound(cfg, st, id, t);
      AskingEffect(cfg, st, id, t);
    case Lookup(t, q) =>
      st' := Looking(st, id, t, q);
      LookingTree(cfg, st, id, t, q);
      LookingSound(cfg, st, id, t, q);
      LookingEffect(cfg, st, id, t, q);
    case Done(o) =>
      if st.nodes[id].done.ToClient? {
        st' := Ended(st, id, o);
        EndedSound(cfg, st, id, o);
        EndedEffect(cfg, st, id, id, o);
      } else {
        st' := GoUp(cfg, env, st, id, o);
      }
  }

  lemma {:induction false} GoUp(cfg: Config, env: Env, st: State, id: nat, o: Outcome) returns (st': State)
    requires Tree(cfg, st, 0, 0, id) && Sound(cfg, st) && id in st.nodes && st.nodes[id].done.ToParent?
    requires PicksMember(env)
    ensures st' == Apply(cfg, env, st, id, Done(o))
    ensures Tree(cfg, st', 0, 0, 0) && Sound(cfg, st') && Effect(st, st', st.nodes[id].root)
    decreases st.nodes.Keys, 0
  {
    var p := st.nodes[id].done.parent;
    assert NodeOk(cfg, st, id, 0, 0, id);
    assert p in st.nodes && p != id && NodeOk(cfg, st, p, 0, 0, id);
    ResumedTree(cfg, st, id, p);
    AfterChildSound(cfg, st, id, p);
    AfterChildEffect(cfg, st, id, p);
    RootLive(cfg, st, id, id);
    var st1 := AfterChild(st, id, p);
    assert NodeSound(cfg, st.nodes[p], st.noCase, st.trusted);
    var v := ChildDoneGood(cfg, env, st1, p, o);
    assert st1.nodes.Keys < st.nodes.Keys by { assert id !in st1.nodes.Keys; }
    st' := ApplyKeeps(cfg, env, st1, p, v);
    FinishGoesUp(cfg, env, st, id, o, p, v, st');
    EffectThen(st, st1, st', st.nodes[id].root);
  }
}
