/** Whole runs: any interleaving of clients, timers, replies and deadlines, over
    a cache that may forget but never invents. */
module ResolverRuns {
  import opened DnsTypes
  import opened ResolverTask
  import opened ResolverServers
  import opened ResolverAnswers
  import opened ResolverLimits
  import opened ResolverTree
  import opened ResolverInvariant
  import opened ResolverSound

  /** What holds between events. */
  ghost predicate Inv(cfg: Config, st: State) {
    Tree(cfg, st, 0, 0, 0) && Sound(cfg, st)
  }

  // ─── The cache ────────────────────────────────────────────────────────────

  /** A hit is an entry once written, but for the TTLs. */
  predicate HitOf(e: Entry, key: QKey, ins: Insert) {
    && ins.key == key && e.trust == ins.entry.trust && e.negative == ins.entry.negative
    && |e.records| == |ins.entry.records|
    && forall i :: 0 <= i < |e.records| ==> Bare(e.records[i]) == Bare(ins.entry.records[i])
  }

  ghost predicate Honest(env: Env, log: set<Insert>) {
    forall ask, key {:trigger env.look(ask, key)} ::
      env.look(ask, key).Some? ==> exists ins :: ins in log && HitOf(env.look(ask, key).value, key, ins)
  }

  lemma HonestCacheOk(env: Env, log: set<Insert>, trusted: Facts)
    requires Honest(env, log) && LogOk(log, trusted)
    ensures CacheOk(env, trusted)
  {
    forall ask, key | env.look(ask, key).Some?
      ensures EntryOk(key, env.look(ask, key).value, trusted)
    {
      var e := env.look(ask, key).value;
      var ins :| ins in log && HitOf(e, key, ins);
      assert InsertOk(ins, ins.zone, trusted);
      HitTrusted(e, key, ins, trusted);
    }
  }

  lemma HitTrusted(e: Entry, key: QKey, ins: Insert, trusted: Facts)
    requires HitOf(e, key, ins) && EntryOk(ins.key, ins.entry, trusted)
    ensures EntryOk(key, e, trusted)
  {
    if !e.negative && e.trust == Answer {
      forall x | x in e.records
        ensures x.name.labels == key.name && x.rtype == key.qtype && x.cls == CLASS_IN && Bare(x) in trusted.records
      {
        var i :| 0 <= i < |e.records| && e.records[i] == x;
        assert Bare(e.records[i]) == Bare(ins.entry.records[i]) && ins.entry.records[i] in ins.entry.records;
      }
    }
  }

  // ─── What a callback learns ───────────────────────────────────────────────

  lemma OutcomeGrows(cfg: Config, q: Question, o: Outcome, trusted: Facts, trusted': Facts)
    requires OutcomeOk(cfg, q, o, trusted) && trusted.Within(trusted')
    ensures OutcomeOk(cfg, q, o, trusted')
  {
    if o.Resolved? {
      var k: nat :| AnswersOk(cfg, q, o, trusted, k);
      assert AnswersOk(cfg, q, o, trusted', k);
    }
  }

  lemma NodeGrows(cfg: Config, n: Node, noCase: set<Addr>, noCase': set<Addr>, trusted: Facts, trusted': Facts)
    requires NodeSound(cfg, n, noCase, trusted) && noCase <= noCase' && trusted.Within(trusted')
    ensures NodeSound(cfg, n, noCase', trusted')
  {
    if n.upstream || n.child != 0 { DisciplineKeptByOthers(n.t, noCase, noCase'); }
    hide Disciplined, ZoneAbove, AskedOk, Path;
  }

  lemma LogGrows(log: set<Insert>, more: seq<Insert>, zone: Dom, trusted: Facts, trusted': Facts)
    requires LogOk(log, trusted) && trusted.Within(trusted') && InsertsOk(more, zone, trusted')
    ensures LogOk(log + (set x | x in more), trusted')
  {
    forall ins | ins in log + (set x | x in more)
      ensures InsertOk(ins, ins.zone, trusted')
    {
      if ins in more {
        assert InsertOk(ins, zone, trusted');
      } else {
        assert InsertOk(ins, ins.zone, trusted);
      }
    }
  }

  lemma LearnSound(cfg: Config, st: State, r: Reaction, accepted: Facts, zone: Dom)
    requires Sound(cfg, st) && st.noCase <= r.noCase && InsertsOk(r.inserts, zone, st.trusted.Plus(accepted))
    ensures Sound(cfg, Learn(st, r, accepted))
  {
    var st' := Learn(st, r, accepted);
    LogGrows(st.log, r.inserts, zone, st.trusted, st'.trusted);
    forall x | x in st'.nodes
      ensures NodeSound(cfg, st'.nodes[x], st'.noCase, st'.trusted)
    {
      NodeGrows(cfg, st.nodes[x], st.noCase, st'.noCase, st.trusted, st'.trusted);
    }
    forall d | d in st'.delivered
      ensures OutcomeOk(cfg, d.question, d.outcome, st'.trusted)
    {
      OutcomeGrows(cfg, d.question, d.outcome, st.trusted, st'.trusted);
    }
    hide NodeSound, OutcomeOk, LogOk;
  }

  // ─── Events ───────────────────────────────────────────────────────────────

  /** The state in which a task waiting for a timer or a reply decides. */
  function Woken(st: State, id: nat): State
    requires id in st.nodes
  {
    st.(nodes := st.nodes[id := st.nodes[id].(start := false, upstream := false)])
  }

  lemma WokenSound(cfg: Config, st: State, id: nat)
    requires Sound(cfg, st) && id in st.nodes
    ensures Sound(cfg, Woken(st, id))
  {
    var st' := Woken(st, id);
    forall x | x in st'.nodes
      ensures NodeSound(cfg, st'.nodes[x], st'.noCase, st'.trusted)
    {
      assert NodeSound(cfg, st.nodes[x], st.noCase, st.trusted);
      hide TaskOk, ZoneAbove, Disciplined, AskedOk;
    }
  }

  lemma StartGood(cfg: Config, env: Env, st: State, id: nat) returns (v: Verdict)
    requires Sound(cfg, st) && id in st.nodes && PicksMember(env) && Honest(env, st.log)
    ensures Bounded(cfg, st.nodes[id].t)
    ensures v == Begin(ContextAt(cfg, env, st, st.nodes[id].root), st.nodes[id].t) && Good(cfg, st, id, v)
  {
    var ctx := ContextAt(cfg, env, st, st.nodes[id].root);
    var t := st.nodes[id].t;
    assert NodeSound(cfg, st.nodes[id], st.noCase, st.trusted);
    if t.question.qclass != CLASS_IN {
      v := Done(Failed(ServFail));
    } else {
      HonestCacheOk(env, st.log, st.trusted);
      v := StepOk(ctx, t, st.trusted);
      StepDisciplined(ctx, t);
      var _ := StepAllowed(ctx, t);
    }
    hide Step, VerdictOk, VerdictDisciplined;
  }

  /** What a callback has learnt by the time it decides. */
  function Informed(cfg: Config, env: Env, st: State, id: nat, reply: Reply): State
    requires id in st.nodes && Bounded(cfg, st.nodes[id].t)
  {
    Learn(Woken(st, id), OnReply(ContextAt(cfg, env, st, st.nodes[id].root), st.nodes[id].t, reply),
          Said(st.nodes[id].t, reply))
  }

  lemma InformedSound(cfg: Config, env: Env, st: State, id: nat, reply: Reply)
    requires Sound(cfg, st) && id in st.nodes && st.nodes[id].upstream && Bounded(cfg, st.nodes[id].t)
    requires PicksMember(env) && CanReply(st.nodes[id].t, reply)
    ensures Sound(cfg, Informed(cfg, env, st, id, reply))
  {
    var ctx := ContextAt(cfg, env, st, st.nodes[id].root);
    var t := st.nodes[id].t;
    var accepted := Said(t, reply);
    assert NodeSound(cfg, st.nodes[id], st.noCase, st.trusted);
    TaskGrows(cfg, t, st.trusted, st.trusted.Plus(accepted));
    var r := ReplyOk(ctx, t, reply, st.trusted.Plus(accepted));
    ReplyDisciplined(ctx, t, reply);
    WokenSound(cfg, st, id);
    hide OnReply, Said, Sound;
    LearnSound(cfg, Woken(st, id), r, accepted, t.zone);
  }

  lemma TaskGrows(cfg: Config, t: Task, trusted: Facts, trusted': Facts)
    requires TaskOk(cfg, t, trusted) && trusted.Within(trusted')
    ensures TaskOk(cfg, t, trusted')
  {
  }

  lemma ReplyGood(cfg: Config, env: Env, st: State, id: nat, reply: Reply) returns (v: Verdict)
    requires Sound(cfg, st) && id in st.nodes && st.nodes[id].upstream && Bounded(cfg, st.nodes[id].t)
    requires PicksMember(env) && CanReply(st.nodes[id].t, reply) && st.nodes[id].t.glueless <= cfg.maxGlueless
    requires Sound(cfg, Informed(cfg, env, st, id, reply)) && Honest(env, Informed(cfg, env, st, id, reply).log)
    ensures v == OnReply(ContextAt(cfg, env, st, st.nodes[id].root), st.nodes[id].t, reply).verdict
    ensures Good(cfg, Informed(cfg, env, st, id, reply), id, v)
  {
    var ctx := ContextAt(cfg, env, st, st.nodes[id].root);
    var t := st.nodes[id].t;
    assert NodeSound(cfg, st.nodes[id], st.noCase, st.trusted);
    var st' := Informed(cfg, env, st, id, reply);
    TaskGrows(cfg, t, st.trusted, st'.trusted);
    HonestCacheOk(env, st'.log, st'.trusted);
    hide OnReply, Said, Sound, VerdictOk, VerdictDisciplined, TaskOk, Disciplined, AskedOk, InsertsOk, CacheOk;
    var r := ReplyOk(ctx, t, reply, st'.trusted);
    v := r.verdict;
    ReplyDisciplined(ctx, t, reply);
    ReplyAllowed(ctx, t, reply);
  }

  /** Waking a task, and what it then learns, changes nothing for clients. */
  lemma WokenEffect(cfg: Config, st: State, id: nat, st1: State)
    requires Tree(cfg, st, 0, 0, 0) && id in st.nodes && st.nodes[id].child == 0
    requires st1.nodes == Woken(st, id).nodes && st1.inFlight == st.inFlight && st1.queries == st.queries
    requires st1.nextId == st.nextId && st1.asked == st.asked && st1.delivered == st.delivered
    ensures Tree(cfg, st1, 0, 0, id)
    ensures Effect(st, st1, st.nodes[id].root) && st.nodes[id].root in st.nodes && st.nodes[id].root in st1.nodes
    ensures st.nodes[st.nodes[id].root].done.ToClient?
  {
    hide Tree, Untouched, ClientsKept;
    WokenTree(cfg, st, id, Woken(st, id).nodes[id]);
    TreeFrame(cfg, Woken(st, id), st1, id);
    RootLive(cfg, st, 0, id);
    WokenUntouched(st, id, st1);
    WokenClients(st, id, st1);
  }

  lemma WokenUntouched(st: State, id: nat, st1: State)
    requires id in st.nodes && st1.nodes == Woken(st, id).nodes && st1.queries == st.queries
    requires st1.nextId == st.nextId && st1.asked == st.asked
    ensures Untouched(st, st1, st.nodes[id].root)
  {
  }

  lemma WokenClients(st: State, id: nat, st1: State)
    requires id in st.nodes && st1.nodes == Woken(st, id).nodes
    ensures ClientsKept(st, st1, 0)
  {
  }

  /** What the outside world may do next. */
  ghost predicate EventOk(cfg: Config, st: State, ev: Event) {
    && Enabled(st, ev) && Hops(cfg, st)
    && match ev
       case Start(_, env) => PicksMember(env) && Honest(env, st.log)
       case Respond(id, reply, env) => PicksMember(env) && Honest(env, Informed(cfg, env, st, id, reply).log)
       case _ => true
  }

  lemma StartKeeps(cfg: Config, st: State, id: nat, env: Env) returns (st1: State, v: Verdict, st': State)
    requires Inv(cfg, st) && EventOk(cfg, st, Start(id, env))
    ensures st1 == Woken(st, id) && Tree(cfg, st1, 0, 0, id) && Sound(cfg, st1) && Good(cfg, st1, id, v)
    ensures v == Begin(ContextAt(cfg, env, st, st.nodes[id].root), st.nodes[id].t)
    ensures st' == Apply(cfg, env, st1, id, v) && st' == StepEvent(cfg, st, Start(id, env))
    ensures Inv(cfg, st') && Effect(st, st', st.nodes[id].root)
  {
    assert NodeOk(cfg, st, id, 0, 0, 0);
    st1 := Woken(st, id);
    WokenEffect(cfg, st, id, st1);
    WokenSound(cfg, st, id);
    v := StartGood(cfg, env, st1, id);
    assert ContextAt(cfg, env, st1, st1.nodes[id].root) == ContextAt(cfg, env, st, st.nodes[id].root);
    hide Begin, Good, Tree, Sound, Effect, Honest, PicksMember;
    st' := ApplyKeeps(cfg, env, st1, id, v);
    assert 0 !in st.nodes && st1.nodes[id] == st.nodes[id].(start := false) by { StartsClear(cfg, st, id); }
    hide Apply;
    EffectThen(st, st1, st', st.nodes[id].root);
  }

  lemma StartsClear(cfg: Config, st: State, id: nat)
    requires Tree(cfg, st, 0, 0, 0) && id in st.nodes
    ensures 0 !in st.nodes && (st.nodes[id].start ==> !st.nodes[id].upstream)
    ensures (st.nodes[id].upstream ==> !st.nodes[id].start)
  {
    assert NodeOk(cfg, st, id, 0, 0, 0);
  }

  lemma RespondKeeps(
    cfg: Config, st: State, id: nat, reply: Reply, env: Env) returns (st1: State, v: Verdict, st': State)
    requires Inv(cfg, st) && EventOk(cfg, st, Respond(id, reply, env))
    ensures st1 == Informed(cfg, env, st, id, reply) && Tree(cfg, st1, 0, 0, id) && Sound(cfg, st1)
    ensures Good(cfg, st1, id, v)
    ensures v == OnReply(ContextAt(cfg, env, st, st.nodes[id].root), st.nodes[id].t, reply).verdict
    ensures st' == Apply(cfg, env, st1, id, v) && st' == StepEvent(cfg, st, Respond(id, reply, env))
    ensures Inv(cfg, st') && Effect(st, st', st.nodes[id].root)
  {
    assert NodeOk(cfg, st, id, 0, 0, 0);
    st1 := Informed(cfg, env, st, id, reply);
    WokenEffect(cfg, st, id, st1);
    InformedSound(cfg, env, st, id, reply);
    v := ReplyGood(cfg, env, st, id, reply);
    hide OnReply, Good, Tree, Sound, Effect, Honest, PicksMember, Said;
    st' := ApplyKeeps(cfg, env, st1, id, v);
    assert 0 !in st.nodes && Woken(st, id).nodes[id] == st.nodes[id].(upstream := false) by {
      StartsClear(cfg, st, id);
    }
    hide Apply;
    EffectThen(st, st1, st', st.nodes[id].root);
  }

  lemma DeadlineKeeps(cfg: Config, st: State, id: nat)
    requires Inv(cfg, st) && EventOk(cfg, st, Deadline(id))
    ensures Inv(cfg, StepEvent(cfg, st, Deadline(id)))
    ensures Effect(st, StepEvent(cfg, st, Deadline(id)), st.nodes[id].root)
    ensures st.nodes[id].root == id && StepEvent(cfg, st, Deadline(id)) == Ended(st, id, Failed(Timeout))
  {
    assert NodeOk(cfg, st, id, 0, 0, 0);
    EndedSound(cfg, st, id, Failed(Timeout));
    EndedEffect(cfg, st, id, 0, Failed(Timeout));
    hide Sound, Tree, Effect, Drop;
  }

  lemma ResolveKeeps(cfg: Config, st: State, q: Question)
    requires Inv(cfg, st)
    ensures Inv(cfg, ResolveClient(st, q))
  {
    ResolveTree(cfg, st, q);
    var st' := ResolveClient(st, q);
    NewSound(cfg, NewNode(q, [], ToClient(|st.asked|), st.nextId, true), st.noCase, st.trusted);
    hide Tree, OutcomeOk, LogOk, TaskOk, ZoneAbove, Disciplined, AskedOk, NewNode;
    forall x | x in st'.nodes
      ensures NodeSound(cfg, st'.nodes[x], st'.noCase, st'.trusted)
    {
      if x in st.nodes { assert NodeSound(cfg, st.nodes[x], st.noCase, st.trusted); }
    }
  }

  lemma NewSound(cfg: Config, n: Node, noCase: set<Addr>, trusted: Facts)
    requires cfg.maxCname <= 254 && n.t == NewTask(n.t.question, n.t.ancestry) && !n.upstream && n.child == 0
    ensures NodeSound(cfg, n, noCase, trusted)
  {
  }

  // ─── Runs ─────────────────────────────────────────────────────────────────

  /** Every step keeps the invariant. */
  lemma StepKeeps(cfg: Config, st: State, ev: Event)
    requires Inv(cfg, st) && EventOk(cfg, st, ev)
    ensures Inv(cfg, StepEvent(cfg, st, ev))
  {
    hide Inv, EventOk;
    match ev
    case Resolve(q) => ResolveKeeps(cfg, st, q);
    case Start(id, env) => var _, _, _ := StartKeeps(cfg, st, id, env);
    case Respond(id, reply, env) => var _, _, _ := RespondKeeps(cfg, st, id, reply, env);
    case Deadline(id) => DeadlineKeeps(cfg, st, id);
  }

  ghost predicate Runs(cfg: Config, st: State, evs: seq<Event>)
    decreases |evs|
  {
    evs != [] ==> EventOk(cfg, st, evs[0]) && Runs(cfg, StepEvent(cfg, st, evs[0]), evs[1..])
  }

  ghost function After(cfg: Config, st: State, evs: seq<Event>): State
    requires Runs(cfg, st, evs)
    decreases |evs|
  {
    if evs == [] then st else After(cfg, StepEvent(cfg, st, evs[0]), evs[1..])
  }

  lemma {:induction false} RunKeeps(cfg: Config, st: State, evs: seq<Event>)
    requires Inv(cfg, st) && Runs(cfg, st, evs)
    ensures Inv(cfg, After(cfg, st, evs))
    decreases |evs|
  {
    hide Inv, StepEvent;
    if evs == [] {
    } else {
      StepKeeps(cfg, st, evs[0]);
      RunKeeps(cfg, StepEvent(cfg, st, evs[0]), evs[1..]);
    }
  }

  lemma InitialInv(cfg: Config)
    requires cfg.maxCname <= 254
    ensures Inv(cfg, Initial())
  {
  }
}
