/** The eight-bit counter of CNAMEs followed (core/resolver/recursive_resolver.cpp):
    when the two loops that follow them are sure to end. */
module ResolverHops {
  import opened DnsTypes
  import opened ResolverTask
  import opened ResolverAnswers
  import opened ResolverServes
  import opened ResolverRuns

  // ─── Through the cache ────────────────────────────────────────────────────

  /** The loop of step() for at most `rounds` rounds; None if it has not ended. */
  function StepFor(ctx: Context, t: Task, rounds: nat): Option<Verdict>
    decreases rounds
  {
    if rounds == 0 then None
    else
      var nx := ctx.env.look(AskNx(t.hops), QKey(t.qname, NXDOMAIN_TYPE, CLASS_IN));
      var hit := ctx.env.look(AskAnswer(t.hops), QKey(t.qname, t.Qtype(), CLASS_IN));
      var cname := ctx.env.look(AskCname(t.hops), QKey(t.qname, TYPE_CNAME, CLASS_IN));
      if nx.Some? then Some(Done(OutcomeOf(t, RCODE_NXDOMAIN, [], nx.value.records)))
      else if hit.Some? && hit.value.negative then Some(Done(OutcomeOf(t, RCODE_NOERROR, [], hit.value.records)))
      else if Usable(hit) then Some(Done(OutcomeOf(t, RCODE_NOERROR, hit.value.records, [])))
      else if t.Qtype() != TYPE_CNAME && Usable(cname) && cname.value.records != [] then
        match FollowCname(ctx.cfg, t, cname.value.records[0])
        case None => Some(Done(Failed(MaxCnameChainExceeded)))
        case Some(t') => StepFor(ctx, t', rounds - 1)
      else Some(NextServer(ctx, ClosestZone(ctx, t, t.qname)))
  }

  /** With at most 254 CNAMEs allowed, the loop ends within that many rounds and
      one, whatever the cache holds, and Step is what it ends with. */
  lemma {:induction false} StepEnds(ctx: Context, t: Task, rounds: nat)
    requires Bounded(ctx.cfg, t) && rounds >= ctx.cfg.maxCname - t.hops + 1
    ensures StepFor(ctx, t, rounds) == Some(Step(ctx, t))
    decreases rounds
  {
    var nx := ctx.env.look(AskNx(t.hops), QKey(t.qname, NXDOMAIN_TYPE, CLASS_IN));
    var hit := ctx.env.look(AskAnswer(t.hops), QKey(t.qname, t.Qtype(), CLASS_IN));
    var cname := ctx.env.look(AskCname(t.hops), QKey(t.qname, TYPE_CNAME, CLASS_IN));
    if nx.Some? || (hit.Some? && hit.value.negative) || Usable(hit) {
    } else if t.Qtype() != TYPE_CNAME && Usable(cname) && cname.value.records != [] {
      var next := FollowCname(ctx.cfg, t, cname.value.records[0]);
      if next.Some? {
        StepEnds(ctx, next.value, rounds - 1);
      }
    }
  }

  // ─── Through an answer section ────────────────────────────────────────────

  /** The loop over a response's answers for at most `rounds` rounds. */
  function ChaseFor(ctx: Context, t: Task, m: Message, before: seq<Insert>, rounds: nat): Option<Chase>
    decreases rounds
  {
    var rrset := Collect(m.answers, t.qname, t.Qtype());
    var cname := Collect(m.answers, t.qname, TYPE_CNAME);
    if rounds == 0 then None
    else if rrset != [] then
      var ins := Insert(QKey(t.qname, t.Qtype(), CLASS_IN), Entry(rrset, AnswerRank(m), false), MinTtl(rrset), t.zone,
                        m.header.aa);
      Some(Found(t, rrset, before + [ins] + (if t.Qtype() == TYPE_NS then CacheGlue(t.zone, m, rrset) else [])))
    else if t.Qtype() == TYPE_CNAME || cname == [] then Some(Open(t, before))
    else
      var ins := Insert(QKey(t.qname, TYPE_CNAME, CLASS_IN), Entry([cname[0]], AnswerRank(m), false), cname[0].ttl,
                        t.zone, m.header.aa);
      match FollowCname(ctx.cfg, t, cname[0])
      case None => Some(TooLong(before + [ins]))
      case Some(t') => ChaseFor(ctx, t', m, before + [ins], rounds - 1)
  }

  lemma {:induction false} ChaseEnds(ctx: Context, t: Task, m: Message, before: seq<Insert>, rounds: nat)
    requires Bounded(ctx.cfg, t) && rounds >= ctx.cfg.maxCname - t.hops + 1
    ensures ChaseFor(ctx, t, m, before, rounds) == Some(ChaseAnswers(ctx, t, m, before))
    decreases rounds
  {
    hide Collect, MinTtl, CacheGlue;
    var rrset := Collect(m.answers, t.qname, t.Qtype());
    var cname := Collect(m.answers, t.qname, TYPE_CNAME);
    if rrset != [] || t.Qtype() == TYPE_CNAME || cname == [] {
    } else {
      var ins := Insert(QKey(t.qname, TYPE_CNAME, CLASS_IN), Entry([cname[0]], AnswerRank(m), false), cname[0].ttl,
                        t.zone, m.header.aa);
      var next := FollowCname(ctx.cfg, t, cname[0]);
      if next.Some? { ChaseEnds(ctx, next.value, m, before + [ins], rounds - 1); }
    }
  }

  /** With 255 allowed, an answer that is a CNAME of its own name has no end. */
  lemma {:induction false} AnswerLoopNeverEnds(
    ctx: Context, t: Task, m: Message, before: seq<Insert>, cname: RR, rounds: nat)
    requires ctx.cfg.maxCname == 255 && t.Qtype() == TYPE_A && m.answers == [cname] && cname.cls == CLASS_IN
    requires cname.rtype == TYPE_CNAME && cname.rdata.RDataCNAME?
    requires cname.name.labels == t.qname == cname.rdata.target.labels
    ensures ChaseFor(ctx, t, m, before, rounds) == None
    decreases rounds
  {
    if rounds == 0 {
    } else {
      assert Collect([cname], t.qname, TYPE_A) == [] && Collect([cname], t.qname, TYPE_CNAME) == [cname];
      hide Collect;
      var ins := Insert(QKey(t.qname, TYPE_CNAME, CLASS_IN), Entry([cname], AnswerRank(m), false), cname.ttl, t.zone,
                        m.header.aa);
      AnswerLoopNeverEnds(ctx, FollowCname(ctx.cfg, t, cname).value, m, before + [ins], cname, rounds - 1);
    }
  }

  ghost predicate AnswersEnd(cfg: Config) {
    forall ctx: Context, t: Task, m: Message {:trigger ChaseDone(ctx, t, m)} ::
      ctx.cfg == cfg && t.hops <= cfg.maxCname ==> ChaseDone(ctx, t, m)
  }

  ghost predicate ChaseDone(ctx: Context, t: Task, m: Message) {
    exists rounds: nat :: ChaseFor(ctx, t, m, [], rounds).Some?
  }

  // ─── A cache that loops ───────────────────────────────────────────────────

  /** The cache has a CNAME for each of some names that leads to another of them,
      and nothing else. */
  ghost predicate Cycles(env: Env, names: set<Dom>) {
    && (forall ask, name {:trigger env.look(ask, QKey(name, NXDOMAIN_TYPE, CLASS_IN))} ::
          env.look(ask, QKey(name, NXDOMAIN_TYPE, CLASS_IN)) == None)
    && (forall ask, name {:trigger env.look(ask, QKey(name, TYPE_A, CLASS_IN))} ::
          env.look(ask, QKey(name, TYPE_A, CLASS_IN)) == None)
    && (forall ask, name {:trigger env.look(ask, QKey(name, TYPE_CNAME, CLASS_IN))} ::
          name in names ==> LeadsInto(env.look(ask, QKey(name, TYPE_CNAME, CLASS_IN)), names))
  }

  predicate LeadsInto(e: Option<Entry>, names: set<Dom>) {
    && Usable(e) && e.value.records != []
    && e.value.records[0].rdata.RDataCNAME? && e.value.records[0].rdata.target.labels in names
  }

  /** With 255 allowed the counter wraps before it exceeds the limit, and a cycle
      of CNAMEs in the cache keeps step() going for as long as it stays there. */
  lemma {:induction false} CnameLoopNeverEnds(ctx: Context, t: Task, names: set<Dom>, rounds: nat)
    requires ctx.cfg.maxCname == 255 && t.Qtype() == TYPE_A && Cycles(ctx.env, names) && t.qname in names
    ensures StepFor(ctx, t, rounds) == None
    decreases rounds
  {
    if rounds == 0 {
    } else {
      var e := ctx.env.look(AskCname(t.hops), QKey(t.qname, TYPE_CNAME, CLASS_IN));
      assert LeadsInto(e, names);
      CnameLoopNeverEnds(ctx, FollowCname(ctx.cfg, t, e.value.records[0]).value, names, rounds - 1);
    }
  }

  /** A write that the loop over some response's answers made before it ended. */
  ghost predicate Learnt(cfg: Config, ins: Insert) {
    exists ctx: Context, t: Task, m: Message, rounds: nat :: LearntFrom(cfg, ins, ctx, t, m, rounds)
  }

  predicate LearntFrom(cfg: Config, ins: Insert, ctx: Context, t: Task, m: Message, rounds: nat) {
    && ctx.cfg == cfg && ZoneAbove(t) && Heard(m) && t.hops <= cfg.maxCname
    && var c := ChaseFor(ctx, t, FilterToBailiwick(m, t.zone), [], rounds); c.Some? && ins in c.value.inserts
  }

  ghost predicate StepDone(ctx: Context, t: Task) {
    exists rounds: nat :: StepFor(ctx, t, rounds).Some?
  }

  /** Every new task's first step ends, whatever was learnt before it. */
  ghost predicate StepsEnd(cfg: Config) {
    forall ctx: Context, q: Question, log {:trigger StepDone(ctx, NewTask(q, [])), Honest(ctx.env, log)} ::
      ctx.cfg == cfg && (forall ins :: ins in log ==> Learnt(cfg, ins)) && Honest(ctx.env, log) ==>
        StepDone(ctx, NewTask(q, []))
  }

  // ─── Two names ────────────────────────────────────────────────────────────

  /** A name of one label, and a CNAME from it to another. */
  function Short(b: u8): Name {
    Name([[b]], [[b]])
  }

  function Alias(from: u8, to: u8): RR {
    RR(Short(from), TYPE_CNAME, CLASS_IN, 60, RDataCNAME(Short(to)))
  }

  function AliasMessage(from: u8, to: u8): Message {
    Message(Header(0, true, 0, true, false, false, false, false, false, RCODE_NOERROR, 0, 1, 0, 0), [],
            [Alias(from, to)], [], [], None)
  }

  function AliasInsert(from: u8, to: u8): Insert {
    Insert(QKey([[from]], TYPE_CNAME, CLASS_IN), Entry([Alias(from, to)], Answer, false), 60, [], true)
  }

  /** A CNAME to another name is learnt from the response that holds just it. */
  lemma AliasLearnt(cfg: Config, from: u8, to: u8)
    requires from != to && cfg.maxCname > 0
    ensures Learnt(cfg, AliasInsert(from, to))
  {
    var ctx := Context(cfg, Env((_, _) => None, _ => []), {}, 0);
    var t := NewTask(Question(Short(from), TYPE_A, CLASS_IN), []);
    var m := AliasMessage(from, to);
    var rr := Alias(from, to);
    assert InZone([rr], []) == [rr] && InZone([], []) == [];
    assert FilterToBailiwick(m, []) == m;
    assert Collect([rr], [[from]], TYPE_A) == [] && Collect([rr], [[from]], TYPE_CNAME) == [rr];
    assert [[from]][0] != [[to]][0];
    assert Collect([rr], [[to]], TYPE_A) == [] && Collect([rr], [[to]], TYPE_CNAME) == [];
    var t' := FollowCname(cfg, t, rr).value;
    var ins := AliasInsert(from, to);
    hide Collect, InZone;
    assert ChaseFor(ctx, t', m, [] + [ins], 1) == Some(Open(t', [] + [ins]));
    assert ChaseFor(ctx, t, m, [], 2) == Some(Open(t', [] + [ins]));
    assert LearntFrom(cfg, ins, ctx, t, m, 2);
  }

  function TwoAliases(): Env {
    Env((_, key) => if key == QKey([[1]], TYPE_CNAME, CLASS_IN) then Some(Entry([Alias(1, 2)], Answer, false))
                    else if key == QKey([[2]], TYPE_CNAME, CLASS_IN) then Some(Entry([Alias(2, 1)], Answer, false))
                    else None,
        _ => [])
  }

  lemma TwoAliasesLoop()
    ensures Cycles(TwoAliases(), {[[1]], [[2]]})
    ensures Honest(TwoAliases(), {AliasInsert(1, 2), AliasInsert(2, 1)})
  {
    var log := {AliasInsert(1, 2), AliasInsert(2, 1)};
    assert HitOf(Entry([Alias(1, 2)], Answer, false), QKey([[1]], TYPE_CNAME, CLASS_IN), AliasInsert(1, 2));
    assert HitOf(Entry([Alias(2, 1)], Answer, false), QKey([[2]], TYPE_CNAME, CLASS_IN), AliasInsert(2, 1));
    assert AliasInsert(1, 2) in log && AliasInsert(2, 1) in log;
    hide HitOf;
  }

  // ─── The limit ────────────────────────────────────────────────────────────

  /** Both loops end, whatever servers say, exactly when the limit fits under the
      counter's greatest value. */
  lemma EndsIffBelow255(cfg: Config)
    ensures StepsEnd(cfg) <==> cfg.maxCname <= 254
    ensures AnswersEnd(cfg) <==> cfg.maxCname <= 254
  {
    hide StepFor, ChaseFor, Learnt, Honest;
    if cfg.maxCname <= 254 {
      forall ctx: Context, q: Question | ctx.cfg == cfg
        ensures StepDone(ctx, NewTask(q, []))
      {
        StepEnds(ctx, NewTask(q, []), 255);
      }
      forall ctx: Context, t: Task, m: Message | ctx.cfg == cfg && t.hops <= cfg.maxCname
        ensures ChaseDone(ctx, t, m)
      {
        ChaseEnds(ctx, t, m, [], 255);
      }
    } else {
      StepLoops(cfg);
      AnswersLoop(cfg);
    }
  }

  lemma StepLoops(cfg: Config)
    requires cfg.maxCname == 255
    ensures !StepsEnd(cfg)
  {
    hide StepFor, Learnt, Honest, Cycles, TwoAliases, AliasInsert;
    var log := {AliasInsert(1, 2), AliasInsert(2, 1)};
    AliasLearnt(cfg, 1, 2);
    AliasLearnt(cfg, 2, 1);
    TwoAliasesLoop();
    var ctx := Context(cfg, TwoAliases(), {}, 0);
    var q := Question(Short(1), TYPE_A, CLASS_IN);
    forall rounds: nat
      ensures StepFor(ctx, NewTask(q, []), rounds) == None
    {
      CnameLoopNeverEnds(ctx, NewTask(q, []), {[[1]], [[2]]}, rounds);
    }
    assert !StepDone(ctx, NewTask(q, [])) && Honest(ctx.env, log);
  }

  lemma AnswersLoop(cfg: Config)
    requires cfg.maxCname == 255
    ensures !AnswersEnd(cfg)
  {
    hide ChaseFor;
    var ctx := Context(cfg, TwoAliases(), {}, 0);
    var t, m := NewTask(Question(Short(1), TYPE_A, CLASS_IN), []), AliasMessage(1, 1);
    forall rounds: nat
      ensures ChaseFor(ctx, t, m, [], rounds) == None
    {
      AnswerLoopNeverEnds(ctx, t, m, [], Alias(1, 1), rounds);
    }
    assert !ChaseDone(ctx, t, m);
  }
}
