/** Every resolution ends, without help from its deadline: each event of a client's
    tasks lowers a number that is known when the client asks. */
module ResolverEnds {
  import opened DnsTypes
  import opened ResolverTask
  import opened ResolverServers
  import opened ResolverAnswers
  import opened ResolverLimits
  import opened ResolverTree
  import opened ResolverInvariant
  import opened ResolverSound
  import opened ResolverRuns

  // The tasks of one client form a path. Read from the client down, the name
  // servers each may still look up are the digits of a number in base G, and
  // the queries that may still be sent are its leading digits.

  function Base(cfg: Config): nat {
    cfg.maxGlueless as nat + 2
  }

  function Pow(b: nat, e: nat): nat {
    if e == 0 then 1 else b * Pow(b, e - 1)
  }

  function Weight(cfg: Config, depth: nat): nat {
    if depth > MAX_SUBQUERY_DEPTH then 0 else Pow(Base(cfg), MAX_SUBQUERY_DEPTH - depth)
  }

  /** A query in flight, or half of one not yet sent. */
  function Unit(cfg: Config): nat {
    Pow(Base(cfg), MAX_SUBQUERY_DEPTH + 1)
  }

  function Digit(cfg: Config, n: Node): nat {
    if n.start then cfg.maxGlueless as nat + 1
    else if n.t.glueless <= cfg.maxGlueless then cfg.maxGlueless - n.t.glueless
    else 0
  }

  function Share(cfg: Config, n: Node): nat {
    Digit(cfg, n) * Weight(cfg, |n.t.ancestry|)
  }

  /** A task and the tasks it waits for. */
  function Down(cfg: Config, st: State, x: nat): nat
    requires x in st.nodes
    decreases MAX_SUBQUERY_DEPTH - |st.nodes[x].t.ancestry|
  {
    var n := st.nodes[x];
    var c := n.child;
    Share(cfg, n) +
    (if c != 0 && c in st.nodes && |n.t.ancestry| < |st.nodes[c].t.ancestry| <= MAX_SUBQUERY_DEPTH then Down(cfg, st, c)
     else if n.upstream then Unit(cfg) else 0)
  }

  /** The tasks that wait for a task. */
  function Above(cfg: Config, st: State, x: nat): nat
    requires x in st.nodes
    decreases |st.nodes[x].t.ancestry|
  {
    var n := st.nodes[x];
    if n.done.ToParent? && n.done.parent in st.nodes && |st.nodes[n.done.parent].t.ancestry| < |n.t.ancestry|
    then Share(cfg, st.nodes[n.done.parent]) + Above(cfg, st, n.done.parent)
    else 0
  }

  /** The queries not yet sent. */
  function Budget(cfg: Config, st: State, r: nat): nat {
    if Spent(st, r) <= cfg.maxQueries then 2 * (cfg.maxQueries - Spent(st, r)) * Unit(cfg) else 0
  }

  function Potential(cfg: Config, st: State, r: nat): nat
    requires r in st.nodes
  {
    Budget(cfg, st, r) + Down(cfg, st, r)
  }

  // ─── Arithmetic ───────────────────────────────────────────────────────────

  lemma {:induction false} PowPositive(b: nat, e: nat)
    requires b > 0
    ensures Pow(b, e) > 0
  {
    if e == 0 {
    } else {
      PowPositive(b, e - 1);
    }
  }

  lemma WeightStep(cfg: Config, depth: nat)
    requires depth < MAX_SUBQUERY_DEPTH
    ensures Weight(cfg, depth) == Base(cfg) * Weight(cfg, depth + 1) && Weight(cfg, depth + 1) > 0
  {
    PowPositive(Base(cfg), MAX_SUBQUERY_DEPTH - depth - 1);
  }

  lemma WeightTop(cfg: Config)
    ensures Unit(cfg) == Base(cfg) * Weight(cfg, 0) && Weight(cfg, 0) > 0
  {
    PowPositive(Base(cfg), MAX_SUBQUERY_DEPTH);
  }

  lemma Times(a: nat, b: nat, w: nat)
    requires a <= b
    ensures a * w <= b * w
  {
  }

  lemma TimesPlus(a: nat, w: nat)
    ensures (a + 1) * w == a * w + w
  {
  }

  // ─── One path per client ──────────────────────────────────────────────────

  lemma {:induction false} Splits(cfg: Config, st: State, idle: nat, x: nat)
    requires Tree(cfg, st, 0, 0, idle) && x in st.nodes
    ensures st.nodes[x].root in st.nodes
    ensures Down(cfg, st, st.nodes[x].root) == Above(cfg, st, x) + Down(cfg, st, x)
    decreases |st.nodes[x].t.ancestry|
  {
    assert NodeOk(cfg, st, x, 0, 0, idle);
    hide Share, Unit;
    if st.nodes[x].done.ToParent? {
      var p := st.nodes[x].done.parent;
      Splits(cfg, st, idle, p);
      DownStep(cfg, st, p);
    }
  }

  lemma DownStep(cfg: Config, st: State, p: nat)
    requires p in st.nodes && st.nodes[p].child != 0 && st.nodes[p].child in st.nodes
    requires |st.nodes[p].t.ancestry| < |st.nodes[st.nodes[p].child].t.ancestry| <= MAX_SUBQUERY_DEPTH
    ensures Down(cfg, st, p) == Share(cfg, st.nodes[p]) + Down(cfg, st, st.nodes[p].child)
  {
    hide Share, Unit;
  }

  /** The lower digits never make up a whole unit. */
  lemma {:induction false} Fits(cfg: Config, st: State, idle: nat, x: nat)
    requires Tree(cfg, st, 0, 0, idle) && x in st.nodes
    ensures Above(cfg, st, x) + Base(cfg) * Weight(cfg, |st.nodes[x].t.ancestry|) <= Unit(cfg)
    decreases |st.nodes[x].t.ancestry|
  {
    assert NodeOk(cfg, st, x, 0, 0, idle);
    var n := st.nodes[x];
    if n.done.ToClient? {
      WeightTop(cfg);
    } else {
      var p := st.nodes[n.done.parent];
      Fits(cfg, st, idle, n.done.parent);
      WeightStep(cfg, |p.t.ancestry|);
      Times(Digit(cfg, p) + 1, Base(cfg), Weight(cfg, |p.t.ancestry|));
      TimesPlus(Digit(cfg, p), Weight(cfg, |p.t.ancestry|));
      hide Weight, Unit, Digit;
    }
  }

  /** What a task's ancestors add up to depends on them alone. */
  lemma {:induction false} AboveSame(cfg: Config, st: State, st': State, x: nat)
    requires x in st.nodes && x in st'.nodes
    requires st'.nodes[x].t.ancestry == st.nodes[x].t.ancestry && st'.nodes[x].done == st.nodes[x].done
    requires forall y :: y in st.nodes && |st.nodes[y].t.ancestry| < |st.nodes[x].t.ancestry| ==>
               y in st'.nodes && SameStanding(st.nodes[y], st'.nodes[y])
    requires forall y :: y in st'.nodes && |st'.nodes[y].t.ancestry| < |st.nodes[x].t.ancestry| ==>
               y in st.nodes && SameStanding(st.nodes[y], st'.nodes[y])
    ensures Above(cfg, st', x) == Above(cfg, st, x)
    decreases |st.nodes[x].t.ancestry|
  {
    hide Share;
    var n := st.nodes[x];
    if n.done.ToParent? && n.done.parent in st.nodes && |st.nodes[n.done.parent].t.ancestry| < |n.t.ancestry| {
      var p := n.done.parent;
      assert SameStanding(st.nodes[p], st'.nodes[p]);
      ShareSame(cfg, st.nodes[p], st'.nodes[p]);
      AboveSame(cfg, st, st', p);
    }
  }

  predicate SameStanding(n: Node, n': Node) {
    n'.t == n.t && n'.start == n.start && n'.done == n.done
  }

  lemma ShareSame(cfg: Config, n: Node, n': Node)
    requires SameStanding(n, n')
    ensures Share(cfg, n') == Share(cfg, n)
  {
  }

  // ─── What a step costs ────────────────────────────────────────────────────

  /** What is left of a task's digit, and one more, after it decides to look a
      name server up. */
  function Left(cfg: Config, v: Verdict): nat {
    if v.Lookup? && v.t.glueless <= cfg.maxGlueless then cfg.maxGlueless - v.t.glueless + 1 else 0
  }

  lemma AskingCost(cfg: Config, st: State, id: nat, t: Task)
    requires Tree(cfg, st, 0, 0, id) && id in st.nodes && Tree(cfg, Asking(st, id, t), 0, 0, 0)
    requires SameOrigin(st.nodes[id].t, t) && Spent(st, st.nodes[id].root) < cfg.maxQueries
    ensures var r := st.nodes[id].root;
      r in Asking(st, id, t).nodes && Potential(cfg, Asking(st, id, t), r) < Budget(cfg, st, r)
  {
    var st' := Asking(st, id, t);
    var r := st.nodes[id].root;
    assert NodeOk(cfg, st, id, 0, 0, id) && NodeOk(cfg, st', id, 0, 0, 0);
    Splits(cfg, st', 0, id);
    Fits(cfg, st', 0, id);
    var w := Weight(cfg, |t.ancestry|);
    PowPositive(Base(cfg), MAX_SUBQUERY_DEPTH - |t.ancestry|);
    var d := Digit(cfg, st'.nodes[id]);
    assert d < Base(cfg);
    Times(d + 1, Base(cfg), w);
    TimesPlus(d, w);
    assert Down(cfg, st', id) == d * w + Unit(cfg);
    UnitStep(cfg, cfg.maxQueries - Spent(st, r));
    hide Weight, Unit, Digit;
  }

  lemma UnitStep(cfg: Config, left: nat)
    requires left > 0
    ensures 2 * left * Unit(cfg) == 2 * (left - 1) * Unit(cfg) + 2 * Unit(cfg)
  {
    hide Unit;
  }

  lemma LookingAbove(cfg: Config, st: State, id: nat, t: Task, q: Question)
    requires Tree(cfg, st, 0, 0, id) && id in st.nodes && SameOrigin(st.nodes[id].t, t)
    ensures Above(cfg, Looking(st, id, t, q), id) == Above(cfg, st, id)
  {
    assert st.nextId !in st.nodes;
    var st' := Looking(st, id, t, q);
    forall y | y in st.nodes && |st.nodes[y].t.ancestry| < |st.nodes[id].t.ancestry|
      ensures y in st'.nodes && SameStanding(st.nodes[y], st'.nodes[y])
    {
    }
    hide NodeOk, InFlightOk, Above;
    AboveSame(cfg, st, st', id);
  }

  lemma LookingDown(cfg: Config, st: State, id: nat, t: Task, q: Question)
    requires Tree(cfg, st, 0, 0, id) && id in st.nodes && t.glueless <= cfg.maxGlueless
    requires SameOrigin(st.nodes[id].t, t) && |t.ancestry| < MAX_SUBQUERY_DEPTH
    ensures Down(cfg, Looking(st, id, t, q), id) < Left(cfg, Lookup(t, q)) * Weight(cfg, |t.ancestry|)
  {
    var st' := Looking(st, id, t, q);
    assert st.nextId !in st.nodes && NodeOk(cfg, st, id, 0, 0, id);
    hide NodeOk, InFlightOk, Weight, Unit;
    DownStep(cfg, st', id);
    var w, w' := Weight(cfg, |t.ancestry|), Weight(cfg, |t.ancestry| + 1);
    assert Down(cfg, st', st.nextId) == (cfg.maxGlueless as nat + 1) * w';
    assert Share(cfg, st'.nodes[id]) == (cfg.maxGlueless - t.glueless) * w;
    WeightStep(cfg, |t.ancestry|);
    TimesPlus(cfg.maxGlueless as nat + 1, w');
    TimesPlus(cfg.maxGlueless - t.glueless, w);
  }

  lemma LookingCost(cfg: Config, st: State, id: nat, t: Task, q: Question)
    requires Tree(cfg, st, 0, 0, id) && id in st.nodes && Tree(cfg, Looking(st, id, t, q), 0, 0, 0)
    requires SameOrigin(st.nodes[id].t, t) && t.glueless <= cfg.maxGlueless && |t.ancestry| < MAX_SUBQUERY_DEPTH
    ensures st.nodes[id].root in Looking(st, id, t, q).nodes
    ensures Potential(cfg, Looking(st, id, t, q), st.nodes[id].root)
            < Budget(cfg, st, st.nodes[id].root) + Above(cfg, st, id)
              + Left(cfg, Lookup(t, q)) * Weight(cfg, |t.ancestry|)
  {
    LookingDown(cfg, st, id, t, q);
    LookingAbove(cfg, st, id, t, q);
    Splits(cfg, Looking(st, id, t, q), 0, id);
    hide Tree, Weight, Unit, Down, Above, Left;
  }

  lemma AfterChildAbove(cfg: Config, st: State, id: nat, p: nat)
    requires Tree(cfg, st, 0, 0, id) && id in st.nodes && p in st.nodes && p != id && st.nodes[id].done == ToParent(p)
    ensures Above(cfg, st, id) == Share(cfg, st.nodes[p]) + Above(cfg, AfterChild(st, id, p), p)
  {
    assert NodeOk(cfg, st, id, 0, 0, id);
    var st' := AfterChild(st, id, p);
    forall y | y in st.nodes && |st.nodes[y].t.ancestry| < |st.nodes[p].t.ancestry|
      ensures y in st'.nodes && SameStanding(st.nodes[y], st'.nodes[y])
    {
    }
    hide NodeOk, InFlightOk, Share;
    AboveSame(cfg, st, st', p);
  }

  /** Whatever a verdict sets off, the client's number ends up lower than what
      the task's ancestors, and the part of its own digit it did not use, allow. */
  lemma {:induction false} ApplyCost(cfg: Config, env: Env, st: State, id: nat, v: Verdict) returns (st': State)
    requires Tree(cfg, st, 0, 0, id) && Sound(cfg, st) && id in st.nodes && Good(cfg, st, id, v) && PicksMember(env)
    ensures st' == Apply(cfg, env, st, id, v)
    ensures var r := st.nodes[id].root; r in st'.nodes ==>
      Potential(cfg, st', r) < Budget(cfg, st, r) + Above(cfg, st, id)
              + Left(cfg, v) * Weight(cfg, |st.nodes[id].t.ancestry|)
    decreases st.nodes.Keys
  {
    hide Potential, Budget, Above, Weight, Tree, Sound, Good, Apply;
    match v
    case Query(t) =>
      st' := Asking(st, id, t);
      AskedLess(cfg, env, st, id, t);
    case Lookup(t, q) =>
      st' := Looking(st, id, t, q);
      LookedLess(cfg, env, st, id, t, q);
    case Done(o) =>
      if st.nodes[id].done.ToClient? {
        st' := Ended(st, id, o);
        EndedGone(cfg, env, st, id, o);
      } else {
        st' := UpCost(cfg, env, st, id, o);
      }
  }

  lemma AskedLess(cfg: Config, env: Env, st: State, id: nat, t: Task)
    requires Tree(cfg, st, 0, 0, id) && id in st.nodes && Good(cfg, st, id, Query(t))
    ensures Asking(st, id, t) == Apply(cfg, env, st, id, Query(t)) && st.nodes[id].root in Asking(st, id, t).nodes
    ensures Potential(cfg, Asking(st, id, t), st.nodes[id].root) < Budget(cfg, st, st.nodes[id].root)
  {
    hide TaskOk, ZoneAbove, VerdictDisciplined, Potential, Budget;
    AskingTree(cfg, st, id, t);
    AskingCost(cfg, st, id, t);
  }

  lemma LookedLess(cfg: Config, env: Env, st: State, id: nat, t: Task, q: Question)
    requires Tree(cfg, st, 0, 0, id) && id in st.nodes && Good(cfg, st, id, Lookup(t, q))
    ensures Looking(st, id, t, q) == Apply(cfg, env, st, id, Lookup(t, q))
    ensures st.nodes[id].root in Looking(st, id, t, q).nodes
    ensures t.ancestry == st.nodes[id].t.ancestry
    ensures Potential(cfg, Looking(st, id, t, q), st.nodes[id].root)
            < Budget(cfg, st, st.nodes[id].root) + Above(cfg, st, id)
              + Left(cfg, Lookup(t, q)) * Weight(cfg, |t.ancestry|)
  {
    hide TaskOk, ZoneAbove, VerdictDisciplined, Potential, Budget, Above, Weight;
    LookingTree(cfg, st, id, t, q);
    LookingCost(cfg, st, id, t, q);
  }

  lemma EndedGone(cfg: Config, env: Env, st: State, id: nat, o: Outcome)
    requires Tree(cfg, st, 0, 0, id) && id in st.nodes && st.nodes[id].done.ToClient?
    ensures Ended(st, id, o) == Apply(cfg, env, st, id, Done(o)) && st.nodes[id].root !in Ended(st, id, o).nodes
  {
    assert NodeOk(cfg, st, id, 0, 0, id);
  }

  lemma {:induction false} UpCost(cfg: Config, env: Env, st: State, id: nat, o: Outcome) returns (st': State)
    requires Tree(cfg, st, 0, 0, id) && Sound(cfg, st) && id in st.nodes && st.nodes[id].done.ToParent?
    requires PicksMember(env)
    ensures st' == Apply(cfg, env, st, id, Done(o))
    ensures var r := st.nodes[id].root;
      r in st'.nodes ==> Potential(cfg, st', r) < Budget(cfg, st, r) + Above(cfg, st, id)
    decreases st.nodes.Keys, 0
  {
    hide Potential, Above, Weight, Tree, Sound, Good, ChildDone;
    hide Unit, Left, Digit, Disciplined, TaskOk, Removed, Resumed;
    var p := st.nodes[id].done.parent;
    ParentReady(cfg, st, id);
    ResumedTree(cfg, st, id, p);
    AfterChildSound(cfg, st, id, p);
    AfterChildAbove(cfg, st, id, p);
    var st1 := AfterChild(st, id, p);
    AfterChildIs(st, id, p);
    var v := ChildDoneGood(cfg, env, st1, p, o);
    LeftAfterChild(cfg, env, st1, p, o, st.nodes[p]);
    st' := ApplyCost(cfg, env, st1, p, v);
    FinishGoesUp(cfg, env, st, id, o, p, v, st');
    Times(Left(cfg, v), Digit(cfg, st.nodes[p]), Weight(cfg, |st.nodes[p].t.ancestry|));
  }

  /** What is known of the task that an idle sub-task works for. */
  lemma ParentReady(cfg: Config, st: State, id: nat)
    requires Tree(cfg, st, 0, 0, id) && Sound(cfg, st) && id in st.nodes && st.nodes[id].done.ToParent?
    ensures var p := st.nodes[id].done.parent;
      && p in st.nodes && p != id && !st.nodes[p].start && st.nodes[p].root == st.nodes[id].root
      && st.nodes[p].t.glueless <= cfg.maxGlueless
      && TaskOk(cfg, st.nodes[p].t, st.trusted) && ZoneAbove(st.nodes[p].t) && Disciplined(st.nodes[p].t, st.noCase)
  {
    hide TaskOk, ZoneAbove, Disciplined;
    var p := st.nodes[id].done.parent;
    assert NodeOk(cfg, st, id, 0, 0, id);
    assert p in st.nodes && NodeOk(cfg, st, p, 0, 0, id);
    assert NodeSound(cfg, st.nodes[p], st.noCase, st.trusted);
  }

  lemma AfterChildIs(st: State, id: nat, p: nat)
    requires id in st.nodes && p in st.nodes && p != id
    ensures var st1 := AfterChild(st, id, p);
      && p in st1.nodes && st1.nodes[p] == st.nodes[p].(child := 0) && st1.nodes.Keys < st.nodes.Keys
      && st1.trusted == st.trusted && st1.noCase == st.noCase && st1.queries == st.queries
  {
    assert id !in AfterChild(st, id, p).nodes.Keys;
  }

  lemma LeftAfterChild(cfg: Config, env: Env, st: State, p: nat, o: Outcome, n: Node)
    requires p in st.nodes && st.nodes[p].t == n.t && !n.start && n.t.glueless <= cfg.maxGlueless
    ensures Left(cfg, ChildDone(ContextAt(cfg, env, st, st.nodes[p].root), st.nodes[p].t, o)) <= Digit(cfg, n)
  {
    hide ChildDone;
    var _ := ChildDoneAllowed(ContextAt(cfg, env, st, st.nodes[p].root), st.nodes[p].t, o);
  }

  // ─── Each event of a client's tasks ───────────────────────────────────────

  lemma WokenAbove(cfg: Config, st: State, id: nat, st1: State)
    requires id in st.nodes && st1.nodes == Woken(st, id).nodes
    ensures Above(cfg, st1, id) == Above(cfg, st, id)
  {
    hide Above;
    AboveSame(cfg, st, st1, id);
  }

  /** The digit of a task about to start, or its query in flight, pays. */
  lemma WokenPays(cfg: Config, st: State, id: nat, v: Verdict)
    requires Tree(cfg, st, 0, 0, 0) && id in st.nodes && (st.nodes[id].start || st.nodes[id].upstream)
    ensures st.nodes[id].root in st.nodes
    ensures Budget(cfg, st, st.nodes[id].root) + Above(cfg, st, id)
              + Left(cfg, v) * Weight(cfg, |st.nodes[id].t.ancestry|)
            <= Potential(cfg, st, st.nodes[id].root)
  {
    assert NodeOk(cfg, st, id, 0, 0, 0);
    Splits(cfg, st, 0, id);
    Fits(cfg, st, 0, id);
    hide Tree, Weight, Unit, Above;
    Times(Left(cfg, v), Base(cfg) - 1, Weight(cfg, |st.nodes[id].t.ancestry|));
    Times(Left(cfg, v), Base(cfg), Weight(cfg, |st.nodes[id].t.ancestry|));
  }

  lemma WokenLess(cfg: Config, env: Env, st: State, id: nat, st1: State, v: Verdict, r: nat) returns (st': State)
    requires Tree(cfg, st, 0, 0, 0) && id in st.nodes && (st.nodes[id].start || st.nodes[id].upstream)
    requires st1.nodes == Woken(st, id).nodes && st1.queries == st.queries && r == st.nodes[id].root
    requires Tree(cfg, st1, 0, 0, id) && Sound(cfg, st1) && Good(cfg, st1, id, v) && PicksMember(env)
    ensures st' == Apply(cfg, env, st1, id, v)
    ensures r in st.nodes && (r in st'.nodes ==> Potential(cfg, st', r) < Potential(cfg, st, r))
  {
    hide Tree, Sound, Potential, Good, Apply, PicksMember, Above, Left, Weight, Unit;
    st' := ApplyCost(cfg, env, st1, id, v);
    WokenAbove(cfg, st, id, st1);
    WokenPays(cfg, st, id, v);
  }

  lemma StartLess(cfg: Config, st: State, id: nat, env: Env) returns (st': State)
    requires Inv(cfg, st) && EventOk(cfg, st, Start(id, env))
    ensures st' == StepEvent(cfg, st, Start(id, env)) && st.nodes[id].root in st.nodes
    ensures st.nodes[id].root in st'.nodes ==>
              Potential(cfg, st', st.nodes[id].root) < Potential(cfg, st, st.nodes[id].root)
  {
    hide Tree, Sound, Potential, Good, Apply, Begin, StepEvent, Honest, PicksMember, Hops, Effect;
    var st1, v, st2 := StartKeeps(cfg, st, id, env);
    st' := WokenLess(cfg, env, st, id, st1, v, st.nodes[id].root);
  }

  lemma RespondLess(cfg: Config, st: State, id: nat, reply: Reply, env: Env) returns (st': State)
    requires Inv(cfg, st) && EventOk(cfg, st, Respond(id, reply, env))
    ensures st' == StepEvent(cfg, st, Respond(id, reply, env)) && st.nodes[id].root in st.nodes
    ensures st.nodes[id].root in st'.nodes ==>
              Potential(cfg, st', st.nodes[id].root) < Potential(cfg, st, st.nodes[id].root)
  {
    hide Tree, Sound, Potential, Good, Apply, OnReply, Said, StepEvent, Honest, PicksMember, Hops, Effect;
    var st1, v, st2 := RespondKeeps(cfg, st, id, reply, env);
    st' := WokenLess(cfg, env, st, id, st1, v, st.nodes[id].root);
  }

  /** A path depends on the tasks of its own client only. */
  lemma {:induction false} DownSame(cfg: Config, st: State, st': State, x: nat, r: nat)
    requires Tree(cfg, st, 0, 0, 0) && x in st.nodes && st.nodes[x].root == r && x in st'.nodes
    requires forall y :: y in st.nodes && st.nodes[y].root == r ==>
               y in st'.nodes && SamePath(st.nodes[y], st'.nodes[y])
    ensures Down(cfg, st', x) == Down(cfg, st, x)
    decreases MAX_SUBQUERY_DEPTH - |st.nodes[x].t.ancestry|
  {
    assert NodeOk(cfg, st, x, 0, 0, 0);
    assert SamePath(st.nodes[x], st'.nodes[x]);
    var c := st.nodes[x].child;
    if c == 0 {
    } else {
      assert NodeOk(cfg, st, c, 0, 0, 0);
      assert SamePath(st.nodes[c], st'.nodes[c]);
      DownSame(cfg, st, st', c, r);
    }
    hide Unit, Weight;
  }

  predicate SamePath(n: Node, n': Node) {
    n'.t == n.t && n'.start == n.start && n'.upstream == n.upstream && n'.child == n.child
  }

  lemma OthersSame(cfg: Config, st: State, st': State, r: nat, other: nat)
    requires Tree(cfg, st, 0, 0, 0) && r in st.nodes && st.nodes[r].done.ToClient?
    requires Untouched(st, st', other) && other != r
    ensures r in st'.nodes && Potential(cfg, st', r) == Potential(cfg, st, r)
  {
    assert NodeOk(cfg, st, r, 0, 0, 0);
    hide Down, Unit;
    DownSame(cfg, st, st', r, r);
  }

  lemma ResolveSame(cfg: Config, st: State, q: Question, r: nat)
    requires Tree(cfg, st, 0, 0, 0) && r in st.nodes && st.nodes[r].done.ToClient?
    ensures r in ResolveClient(st, q).nodes && Potential(cfg, ResolveClient(st, q), r) == Potential(cfg, st, r)
  {
    assert NodeOk(cfg, st, r, 0, 0, 0) && st.nextId !in st.nodes;
    hide Down, Unit, NodeOk, InFlightOk;
    DownSame(cfg, st, ResolveClient(st, q), r, r);
  }

  // ─── Runs ─────────────────────────────────────────────────────────────────

  predicate Concerns(st: State, ev: Event, r: nat)
    requires Enabled(st, ev)
  {
    match ev
    case Resolve(_) => false
    case Start(id, _) => st.nodes[id].root == r
    case Respond(id, _, _) => st.nodes[id].root == r
    case Deadline(id) => st.nodes[id].root == r
  }

  /** How many events of a run concern client task `r` and its sub-tasks. */
  ghost function Own(cfg: Config, st: State, evs: seq<Event>, r: nat): nat
    requires Runs(cfg, st, evs)
    decreases |evs|
  {
    if evs == [] then 0
    else (if Concerns(st, evs[0], r) then 1 else 0) + Own(cfg, StepEvent(cfg, st, evs[0]), evs[1..], r)
  }

  /** How many tasks those events begin. */
  ghost function Begun(cfg: Config, st: State, evs: seq<Event>, r: nat): int
    requires Runs(cfg, st, evs)
    decreases |evs|
  {
    if evs == [] then 0
    else
      var st' := StepEvent(cfg, st, evs[0]);
      (if Concerns(st, evs[0], r) then st'.nextId - st.nextId else 0) + Begun(cfg, st', evs[1..], r)
  }

  function Rank(cfg: Config, st: State, r: nat): nat {
    if r in st.nodes then Potential(cfg, st, r) + 1 else 0
  }

  /** `r` is, or was, a client task. */
  predicate ClientOnce(st: State, r: nat) {
    r < st.nextId && (r in st.nodes ==> st.nodes[r].done.ToClient?)
  }

  lemma EffectClient(st: State, st': State, other: nat, r: nat)
    requires Effect(st, st', other) && ClientOnce(st, r) && 0 !in st.nodes
    ensures ClientOnce(st', r) && (r !in st.nodes ==> r !in st'.nodes)
  {
  }

  lemma OtherRank(cfg: Config, st: State, st': State, other: nat, r: nat)
    requires Tree(cfg, st, 0, 0, 0) && Effect(st, st', other) && ClientOnce(st, r) && other != r
    ensures ClientOnce(st', r) && Rank(cfg, st', r) == Rank(cfg, st, r)
  {
    EffectClient(st, st', other, r);
    if r in st.nodes { OthersSame(cfg, st, st', r, other); }
    hide Tree, Potential;
  }

  lemma ResolveRank(cfg: Config, st: State, q: Question, r: nat)
    requires Tree(cfg, st, 0, 0, 0) && ClientOnce(st, r)
    ensures ClientOnce(ResolveClient(st, q), r) && Rank(cfg, ResolveClient(st, q), r) == Rank(cfg, st, r)
  {
    if r in st.nodes { ResolveSame(cfg, st, q, r); }
    hide Tree, Potential;
  }

  lemma StepRank(cfg: Config, st: State, ev: Event, r: nat) returns (st': State)
    requires Inv(cfg, st) && EventOk(cfg, st, ev) && ClientOnce(st, r)
    ensures st' == StepEvent(cfg, st, ev) && ClientOnce(st', r)
    ensures Rank(cfg, st', r) + (if Concerns(st, ev, r) then 1 else 0) <= Rank(cfg, st, r)
    ensures Concerns(st, ev, r) ==> st'.nextId <= st.nextId + 1
  {
    assert 0 !in st.nodes;
    hide Tree, Sound, Potential, StepEvent, Hops, Honest, PicksMember, Effect, Good, Apply, Begin, OnReply;
    match ev
    case Resolve(q) =>
      st' := ResolveClient(st, q);
      ResolveRank(cfg, st, q, r);
      ResolveIs(cfg, st, q);
    case Start(id, env) =>
      st' := StartLess(cfg, st, id, env);
      var _, _, st'' := StartKeeps(cfg, st, id, env);
      OwnOrOther(cfg, st, st', st.nodes[id].root, r);
    case Respond(id, reply, env) =>
      st' := RespondLess(cfg, st, id, reply, env);
      var _, _, st'' := RespondKeeps(cfg, st, id, reply, env);
      OwnOrOther(cfg, st, st', st.nodes[id].root, r);
    case Deadline(id) =>
      st' := StepEvent(cfg, st, ev);
      DeadlineKeeps(cfg, st, id);
      OwnOrOther(cfg, st, st', id, r);
      assert id !in st'.nodes;
  }

  lemma ResolveIs(cfg: Config, st: State, q: Question)
    requires Hops(cfg, st)
    ensures StepEvent(cfg, st, Resolve(q)) == ResolveClient(st, q)
  {
  }

  lemma OwnOrOther(cfg: Config, st: State, st': State, other: nat, r: nat)
    requires Tree(cfg, st, 0, 0, 0) && Effect(st, st', other) && ClientOnce(st, r)
    ensures ClientOnce(st', r) && st'.nextId <= st.nextId + 1
    ensures other != r ==> Rank(cfg, st', r) == Rank(cfg, st, r)
  {
    EffectClient(st, st', other, r);
    if other != r { OtherRank(cfg, st, st', other, r); }
    hide Tree, Rank, Potential;
  }

  /** However the run goes, the events of a client's tasks, and the tasks they
      begin, are at most its rank when it asked. */
  lemma {:induction false} RunEnds(cfg: Config, st: State, evs: seq<Event>, r: nat)
    requires Inv(cfg, st) && Runs(cfg, st, evs) && ClientOnce(st, r)
    ensures Begun(cfg, st, evs, r) <= Own(cfg, st, evs, r)
    ensures Own(cfg, st, evs, r) + Rank(cfg, After(cfg, st, evs), r) <= Rank(cfg, st, r)
    decreases |evs|
  {
    hide Inv, StepEvent, Rank, Concerns;
    if evs == [] {
    } else {
      var st' := StepRank(cfg, st, evs[0], r);
      StepKeeps(cfg, st, evs[0]);
      RunEnds(cfg, st', evs[1..], r);
    }
  }

  /** The rank of a new client, from the configuration alone. */
  lemma FreshRank(cfg: Config, st: State, q: Question)
    requires Tree(cfg, st, 0, 0, 0) && !Joins(st, q)
    ensures Rank(cfg, ResolveClient(st, q), st.nextId)
            == 2 * cfg.maxQueries * Unit(cfg) + (Base(cfg) - 1) * Weight(cfg, 0) + 1
  {
    var st' := ResolveClient(st, q);
    assert st'.nodes[st.nextId] == NewNode(q, [], ToClient(|st.asked|), st.nextId, true);
    hide Tree, Weight, Unit;
  }

  /** Nor can a resolution get stuck: some task of it waits for a timer or a
      reply, and those come. */
  lemma {:induction false} NeverStuck(cfg: Config, st: State, x: nat, env: Env) returns (y: nat)
    requires Tree(cfg, st, 0, 0, 0) && x in st.nodes
    ensures y in st.nodes && st.nodes[y].root == st.nodes[x].root
    ensures Enabled(st, Start(y, env)) || Enabled(st, Respond(y, NoReply(UpstreamTimeout), env))
    decreases MAX_SUBQUERY_DEPTH - |st.nodes[x].t.ancestry|
  {
    assert NodeOk(cfg, st, x, 0, 0, 0);
    if st.nodes[x].child == 0 {
      y := x;
    } else {
      assert NodeOk(cfg, st, st.nodes[x].child, 0, 0, 0);
      y := NeverStuck(cfg, st, st.nodes[x].child, env);
    }
  }
}
