/** Every call of resolve is answered exactly once: over any run, each callback
    is either held by one client task or has been called, once, with the question
    that was asked. */
module ResolverClients {
  import opened DnsTypes
  import opened ResolverTask
  import opened ResolverServers
  import opened ResolverAnswers
  import opened ResolverTree
  import opened ResolverInvariant
  import opened ResolverSound
  import opened ResolverRuns

  predicate Held(st: State, x: nat, w: Waiter) {
    x in st.nodes && st.nodes[x].done.ToClient? && w in Waiters(st.nodes[x])
  }

  predicate Distinct(ws: seq<Waiter>) {
    forall i, j :: 0 <= i < j < |ws| ==> ws[i].cb != ws[j].cb
  }

  predicate Called(st: State, cb: nat) {
    exists i :: 0 <= i < |st.delivered| && st.delivered[i].cb == cb
  }

  /** Held callbacks are those of calls made, each with its question, by one task. */
  ghost predicate HeldOk(st: State) {
    && (forall x, w {:trigger Held(st, x, w)} :: Held(st, x, w) ==>
          w.cb < |st.asked| && st.asked[w.cb] == w.question && !Called(st, w.cb))
    && (forall x, y, w, w' {:trigger Held(st, x, w), Held(st, y, w')} ::
          Held(st, x, w) && Held(st, y, w') && w.cb == w'.cb ==> x == y)
    && (forall x :: x in st.nodes && st.nodes[x].done.ToClient? ==> Distinct(Waiters(st.nodes[x])))
  }

  ghost predicate CalledOk(st: State) {
    && (forall i :: 0 <= i < |st.delivered| ==>
          st.delivered[i].cb < |st.asked| && st.delivered[i].question == st.asked[st.delivered[i].cb])
    && (forall i, j :: 0 <= i < j < |st.delivered| ==> st.delivered[i].cb != st.delivered[j].cb)
  }

  ghost predicate Waits(st: State, cb: nat) {
    exists x, w :: Held(st, x, w) && w.cb == cb
  }

  /** Nobody is forgotten and nobody is called twice. */
  ghost predicate Conserved(st: State) {
    && HeldOk(st) && CalledOk(st)
    && forall cb {:trigger Waits(st, cb)} {:trigger Called(st, cb)} :: 0 <= cb < |st.asked| ==>
      Waits(st, cb) || Called(st, cb)
  }

  /** In words: a call made is answered exactly once, or waits. */
  lemma AnsweredOnce(st: State, cb: nat)
    requires Conserved(st) && cb < |st.asked|
    ensures Waits(st, cb) <==> !Called(st, cb)
    ensures forall i, j {:trigger st.delivered[i], st.delivered[j]} :: 0 <= i < j < |st.delivered| ==>
              !(st.delivered[i].cb == cb == st.delivered[j].cb)
  {
  }

  // ─── Steps ────────────────────────────────────────────────────────────────

  lemma SameWaiters(n: Node, n': Node)
    requires SameClient(n, n') && n.done.ToClient?
    ensures Waiters(n) == Waiters(n')
  {
  }

  lemma HeldAfter(st: State, st': State, r: nat, x: nat, w: Waiter)
    requires Effect(st, st', r) && 0 !in st.nodes
    ensures Held(st', x, w) <==> Held(st, x, w) && (x != r || r in st'.nodes)
  {
    if x in st'.nodes && x in st.nodes && st.nodes[x].done.ToClient? {
      SameWaiters(st.nodes[x], st'.nodes[x]);
    }
    hide Waiters;
  }

  lemma GoesOnConserves(st: State, st': State, r: nat)
    requires Conserved(st) && Effect(st, st', r) && 0 !in st.nodes && r in st'.nodes
    ensures Conserved(st')
  {
    forall x, w
      ensures Held(st', x, w) <==> Held(st, x, w)
    {
      HeldAfter(st, st', r, x, w);
    }
    forall cb
      ensures Called(st', cb) <==> Called(st, cb)
    {
    }
    forall cb | 0 <= cb < |st'.asked|
      ensures Waits(st', cb) || Called(st', cb)
    {
      if Waits(st, cb) {
        var x, w :| Held(st, x, w) && w.cb == cb;
        assert Held(st', x, w);
      }
    }
    forall x | x in st'.nodes && st'.nodes[x].done.ToClient?
      ensures Distinct(Waiters(st'.nodes[x]))
    {
      SameWaiters(st.nodes[x], st'.nodes[x]);
    }
    hide Waiters, Distinct;
  }

  /** What an ended task's callbacks become. */
  lemma CalledAfter(st: State, st': State, r: nat, o: Outcome, cb: nat)
    requires Told(st, st', r, o)
    ensures Called(st', cb) <==> Called(st, cb) || exists w :: w in Waiters(st.nodes[r]) && w.cb == cb
  {
    var ws := Waiters(st.nodes[r]);
    var ds := Deliveries(st.nodes[r], o);
    if exists w :: w in ws && w.cb == cb {
      var w :| w in ws && w.cb == cb;
      var i :| 0 <= i < |ws| && ws[i] == w;
      assert st'.delivered[|st.delivered| + i].cb == cb;
    }
    if Called(st, cb) {
      var i :| 0 <= i < |st.delivered| && st.delivered[i].cb == cb;
      assert st'.delivered[i].cb == cb;
    }
    if Called(st', cb) {
      var i :| 0 <= i < |st'.delivered| && st'.delivered[i].cb == cb;
      if i < |st.delivered| {
        assert st.delivered[i].cb == cb;
      } else {
        assert ws[i - |st.delivered|] in ws;
      }
    }
    hide Waiters;
  }

  lemma EndConserves(st: State, st': State, r: nat, o: Outcome)
    requires Conserved(st) && Effect(st, st', r) && 0 !in st.nodes && r !in st'.nodes && Told(st, st', r, o)
    ensures Conserved(st')
  {
    EndedHeldOk(st, st', r, o);
    EndedCalledOk(st, st', r, o);
    forall cb | 0 <= cb < |st'.asked|
      ensures Waits(st', cb) || Called(st', cb)
    {
      CalledAfter(st, st', r, o, cb);
      if Waits(st, cb) {
        var x, w :| Held(st, x, w) && w.cb == cb;
        HeldAfter(st, st', r, x, w);
      }
    }
    hide Waiters, HeldOk, CalledOk, Deliveries;
  }

  lemma EndedHeldOk(st: State, st': State, r: nat, o: Outcome)
    requires Conserved(st) && Effect(st, st', r) && 0 !in st.nodes && r !in st'.nodes && Told(st, st', r, o)
    ensures HeldOk(st')
  {
    forall x, w | Held(st', x, w)
      ensures Held(st, x, w) && x != r && !Called(st', w.cb)
    {
      HeldAfter(st, st', r, x, w);
      CalledAfter(st, st', r, o, w.cb);
      forall w' | w' in Waiters(st.nodes[r])
        ensures w'.cb != w.cb
      {
        assert Held(st, r, w');
      }
    }
    forall x | x in st'.nodes && st'.nodes[x].done.ToClient?
      ensures Distinct(Waiters(st'.nodes[x]))
    {
      SameWaiters(st.nodes[x], st'.nodes[x]);
    }
    hide Waiters, Distinct, Deliveries;
  }

  lemma EndedCalledOk(st: State, st': State, r: nat, o: Outcome)
    requires Conserved(st) && Told(st, st', r, o) && st'.asked == st.asked
    ensures CalledOk(st')
  {
    var ws := Waiters(st.nodes[r]);
    forall i | 0 <= i < |ws|
      ensures ws[i].cb < |st.asked| && st.asked[ws[i].cb] == ws[i].question && !Called(st, ws[i].cb)
    {
      assert Held(st, r, ws[i]);
    }
    forall i | 0 <= i < |st'.delivered|
      ensures st'.delivered[i] == if i < |st.delivered| then st.delivered[i] else
                Delivery(ws[i - |st.delivered|].cb, ws[i - |st.delivered|].question, o)
    {
    }
    forall i, j | 0 <= i < j < |st'.delivered|
      ensures st'.delivered[i].cb != st'.delivered[j].cb
    {
    }
    hide Waiters;
  }

  lemma ResolveConserves(cfg: Config, st: State, q: Question)
    requires Conserved(st) && Tree(cfg, st, 0, 0, 0)
    ensures Conserved(ResolveClient(st, q))
  {
    var st' := ResolveClient(st, q);
    var cb := |st.asked|;
    var w0 := Waiter(q, cb);
    var x0 := if Joins(st, q) then st.inFlight[KeyOf(q)] else st.nextId;
    assert !Joins(st, q) ==> x0 !in st.nodes;
    forall x, w
      ensures Held(st', x, w) <==> Held(st, x, w) || (x == x0 && w == w0)
    {
      ResolveHeld(cfg, st, q, x, w);
    }
    forall c
      ensures Called(st', c) <==> Called(st, c)
    {
    }
    assert Held(st', x0, w0);
    forall c | 0 <= c < |st'.asked|
      ensures Waits(st', c) || Called(st', c)
    {
      if c < cb && Waits(st, c) {
        var x, w :| Held(st, x, w) && w.cb == c;
        assert Held(st', x, w);
      }
    }
    assert HeldOk(st') by { ResolveHeldOk(cfg, st, q, x0, w0); }
    hide Held, HeldOk;
  }

  lemma ResolveHeld(cfg: Config, st: State, q: Question, x: nat, w: Waiter)
    requires Tree(cfg, st, 0, 0, 0)
    ensures var x0 := if Joins(st, q) then st.inFlight[KeyOf(q)] else st.nextId;
            Held(ResolveClient(st, q), x, w) <==> Held(st, x, w) || (x == x0 && w == Waiter(q, |st.asked|))
  {
    assert st.nextId !in st.nodes;
    hide NodeOk;
  }

  lemma HeldHere(st: State, x: nat, i: nat)
    requires x in st.nodes && st.nodes[x].done.ToClient? && i < |Waiters(st.nodes[x])|
    ensures Held(st, x, Waiters(st.nodes[x])[i])
  {
  }

  lemma ResolveHeldOk(cfg: Config, st: State, q: Question, x0: nat, w0: Waiter)
    requires Conserved(st) && Tree(cfg, st, 0, 0, 0) && w0 == Waiter(q, |st.asked|)
    requires x0 == if Joins(st, q) then st.inFlight[KeyOf(q)] else st.nextId
    ensures HeldOk(ResolveClient(st, q))
  {
    var st' := ResolveClient(st, q);
    hide Held, Tree;
    NextFree(cfg, st, 0);
    forall x, w
      ensures Held(st', x, w) <==> Held(st, x, w) || (x == x0 && w == w0)
    {
      ResolveHeld(cfg, st, q, x, w);
    }
    forall x | x in st'.nodes && st'.nodes[x].done.ToClient?
      ensures Distinct(Waiters(st'.nodes[x]))
    {
      if x in st.nodes {
        var ws := Waiters(st.nodes[x]);
        forall i | 0 <= i < |ws|
          ensures ws[i].cb < |st.asked|
        {
          HeldHere(st, x, i);
        }
        assert Waiters(st'.nodes[x]) == ws || Waiters(st'.nodes[x]) == ws + [w0];
      }
    }
    assert forall cb :: Called(st', cb) <==> Called(st, cb);
  }

  // ─── Runs ─────────────────────────────────────────────────────────────────

  lemma EffectConserves(st: State, st': State, r: nat)
    requires Conserved(st) && Effect(st, st', r) && 0 !in st.nodes
    ensures Conserved(st')
  {
    if r in st'.nodes {
      GoesOnConserves(st, st', r);
    } else {
      var o :| Told(st, st', r, o);
      EndConserves(st, st', r, o);
    }
  }

  lemma StepConserves(cfg: Config, st: State, ev: Event)
    requires Inv(cfg, st) && Conserved(st) && EventOk(cfg, st, ev)
    ensures Conserved(StepEvent(cfg, st, ev))
  {
    assert 0 !in st.nodes;
    hide Inv, EventOk, Conserved;
    match ev
    case Resolve(q) => ResolveConserves(cfg, st, q) by { assert Inv(cfg, st); }
    case Start(id, env) =>
      var _, _, st' := StartKeeps(cfg, st, id, env);
      EffectConserves(st, st', st.nodes[id].root);
    case Respond(id, reply, env) =>
      var _, _, st' := RespondKeeps(cfg, st, id, reply, env);
      EffectConserves(st, st', st.nodes[id].root);
    case Deadline(id) =>
      DeadlineKeeps(cfg, st, id);
      EffectConserves(st, StepEvent(cfg, st, ev), id);
  }

  /** Over every run, every call is answered exactly once or still waits. */
  lemma {:induction false} RunConserves(cfg: Config, st: State, evs: seq<Event>)
    requires Inv(cfg, st) && Conserved(st) && Runs(cfg, st, evs)
    ensures Conserved(After(cfg, st, evs))
    decreases |evs|
  {
    hide Inv, Conserved, StepEvent;
    if evs == [] {
    } else {
      StepKeeps(cfg, st, evs[0]);
      StepConserves(cfg, st, evs[0]);
      RunConserves(cfg, StepEvent(cfg, st, evs[0]), evs[1..]);
    }
  }

  /** At most one client task per question. */
  lemma OnePerQuestion(cfg: Config, st: State, x: nat, y: nat)
    requires Tree(cfg, st, 0, 0, 0) && x in st.nodes && y in st.nodes
    requires st.nodes[x].done.ToClient? && st.nodes[y].done.ToClient?
    requires KeyOf(st.nodes[x].t.question) == KeyOf(st.nodes[y].t.question)
    ensures x == y
  {
    assert NodeOk(cfg, st, x, 0, 0, 0) && NodeOk(cfg, st, y, 0, 0, 0);
  }

  lemma InitialConserved()
    ensures Conserved(Initial())
  {
  }

  /** From the start, whatever happens: every answer delivered and every record
      cached is sound, no server is pestered, no budget exceeded, no task is
      stuck or outside its zone, and no call is lost or answered twice. */
  lemma EveryRun(cfg: Config, evs: seq<Event>) returns (st: State)
    requires cfg.maxCname <= 254 && Runs(cfg, Initial(), evs)
    ensures st == After(cfg, Initial(), evs) && Conserved(st)
    ensures forall d :: d in st.delivered ==> OutcomeOk(cfg, d.question, d.outcome, st.trusted)
    ensures forall ins {:trigger InsertOk(ins, ins.zone, st.trusted)} :: ins in st.log ==>
              InsertOk(ins, ins.zone, st.trusted)
    ensures forall x :: x in st.nodes ==> st.nodes[x].Waiting() && Spent(st, st.nodes[x].root) <= cfg.maxQueries
    ensures forall x :: x in st.nodes && !st.nodes[x].start ==> ZoneAbove(st.nodes[x].t)
    ensures forall x, a :: x in st.nodes && !st.nodes[x].start ==> st.nodes[x].t.SentTo(a).udp <= 4
  {
    InitialInv(cfg);
    InitialConserved();
    RunKeeps(cfg, Initial(), evs);
    RunConserves(cfg, Initial(), evs);
    st := After(cfg, Initial(), evs);
    hide Conserved, After, Runs, OutcomeOk, InsertOk;
    forall x | x in st.nodes
      ensures st.nodes[x].Waiting() && Spent(st, st.nodes[x].root) <= cfg.maxQueries
      ensures !st.nodes[x].start ==> ZoneAbove(st.nodes[x].t) && Disciplined(st.nodes[x].t, st.noCase)
    {
      assert NodeOk(cfg, st, x, 0, 0, 0);
      assert NodeSound(cfg, st.nodes[x], st.noCase, st.trusted);
    }
    forall x, a | x in st.nodes && !st.nodes[x].start
      ensures st.nodes[x].t.SentTo(a).udp <= 4
    {
      ServerLimits(st.nodes[x].t, st.noCase, a);
    }
  }
}
