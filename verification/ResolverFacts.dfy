/** Where what clients are told came from: over any run, each record of an answer,
    and the absence of one, was stated by a response heard in that run. */
module ResolverFacts {
  import opened DnsTypes
  import opened ResolverTask
  import opened ResolverServers
  import opened ResolverAnswers
  import opened ResolverServes
  import opened ResolverTree
  import opened ResolverInvariant
  import opened ResolverSound
  import opened ResolverRuns
  import opened ResolverClients
  import ResolverZero

  datatype Fact = Record(rr: RR) | Denial(key: QKey)

  predicate States(f: Facts, x: Fact) {
    match x
    case Record(rr) => rr in f.records
    case Denial(key) => key in f.denied
  }

  /** Task `t`, asking about a zone above its name, hears the response `m`. */
  predicate HeardNow(st: State, ev: Event, t: Task, m: Message) {
    && ev.Respond? && ev.reply == Reply(m) && Heard(m)
    && ev.id in st.nodes && st.nodes[ev.id].t == t && ZoneAbove(t)
  }

  ghost predicate HeardIn(cfg: Config, st: State, evs: seq<Event>, t: Task, m: Message)
    requires Runs(cfg, st, evs)
    decreases |evs|
  {
    evs != [] && (HeardNow(st, evs[0], t, m) || HeardIn(cfg, StepEvent(cfg, st, evs[0]), evs[1..], t, m))
  }

  // ─── One step ─────────────────────────────────────────────────────────────

  lemma {:induction false} ApplyLearnsNothing(cfg: Config, env: Env, st: State, id: nat, v: Verdict)
    requires id in st.nodes
    ensures Apply(cfg, env, st, id, v).trusted == st.trusted && Apply(cfg, env, st, id, v).log == st.log
    decreases st.nodes.Keys
  {
    hide ChildDone, Deliveries, NewNode;
    if v.Done? && st.nodes[id].done.ToParent? {
      var p := st.nodes[id].done.parent;
      var st1 := Drop(st, id);
      if p in st1.nodes {
        var st2 := Resumed(st1, p);
        assert id !in st2.nodes && st2.nodes.Keys < st.nodes.Keys;
        ApplyLearnsNothing(cfg, env, st2, p,
                           ChildDone(ContextAt(cfg, env, st2, st2.nodes[p].root), st2.nodes[p].t, v.outcome));
      }
    }
  }

  /** Only a response teaches anything, and what it writes is written. */
  lemma StepLearns(cfg: Config, st: State, ev: Event)
    requires Enabled(st, ev) && Hops(cfg, st)
    ensures StepEvent(cfg, st, ev).trusted
            == if ev.Respond? then st.trusted.Plus(Said(st.nodes[ev.id].t, ev.reply)) else st.trusted
    ensures ev.Respond? ==>
              var ctx := ContextAt(cfg, ev.env, st, st.nodes[ev.id].root);
              StepEvent(cfg, st, ev).log == st.log + set x | x in OnReply(ctx, st.nodes[ev.id].t, ev.reply).inserts
    ensures !ev.Respond? ==> StepEvent(cfg, st, ev).log == st.log
  {
    hide Begin, OnReply, Apply, Said, Deliveries;
    match ev
    case Resolve(_) =>
    case Start(id, env) =>
      var n := st.nodes[id].(start := false);
      ApplyLearnsNothing(cfg, env, st.(nodes := st.nodes[id := n]), id, Begin(ContextAt(cfg, env, st, n.root), n.t));
    case Respond(id, reply, env) =>
      var n := st.nodes[id].(upstream := false);
      var r := OnReply(ContextAt(cfg, env, st, n.root), n.t, reply);
      ApplyLearnsNothing(cfg, env, Learn(st.(nodes := st.nodes[id := n]), r, Said(n.t, reply)), id, r.verdict);
    case Deadline(_) =>
  }

  lemma SaidHeard(t: Task, reply: Reply, x: Fact)
    requires States(Said(t, reply), x)
    ensures reply.Reply? && Heard(reply.msg)
  {
  }

  lemma AskerAbove(cfg: Config, st: State, ev: Event)
    requires Inv(cfg, st) && Enabled(st, ev) && ev.Respond?
    ensures ZoneAbove(st.nodes[ev.id].t)
  {
    assert NodeSound(cfg, st.nodes[ev.id], st.noCase, st.trusted);
    hide TaskOk, Disciplined, Tree;
  }

  // ─── Questions of type zero ───────────────────────────────────────────────

  /** No client has asked for records of type zero, and no task does. */
  predicate NoZero(st: State) {
    && (forall x :: x in st.nodes ==> st.nodes[x].t.Qtype() != NXDOMAIN_TYPE)
    && (forall q :: q in st.asked ==> q.qtype != NXDOMAIN_TYPE)
  }

  predicate NoneAsked(evs: seq<Event>) {
    forall i :: 0 <= i < |evs| && evs[i].Resolve? ==> evs[i].q.qtype != NXDOMAIN_TYPE
  }

  predicate Typed(v: Verdict, t: Task) {
    !v.Done? ==> v.t.question == t.question && ForAddress(v)
  }

  lemma {:induction false} ApplyNoZero(cfg: Config, env: Env, st: State, id: nat, v: Verdict)
    requires id in st.nodes && NoZero(st) && Typed(v, st.nodes[id].t)
    ensures NoZero(Apply(cfg, env, st, id, v))
    decreases st.nodes.Keys
  {
    hide ChildDone, Deliveries;
    if v.Done? && st.nodes[id].done.ToParent? {
      var p := st.nodes[id].done.parent;
      var st1 := Drop(st, id);
      if p in st1.nodes {
        var st2 := Resumed(st1, p);
        assert id !in st2.nodes && st2.nodes.Keys < st.nodes.Keys;
        var v' := ChildDoneTyped(ContextAt(cfg, env, st2, st2.nodes[p].root), st2.nodes[p].t, v.outcome);
        ApplyNoZero(cfg, env, st2, p, v');
      }
    }
  }

  lemma ChildDoneTyped(ctx: Context, t: Task, child: Outcome) returns (v: Verdict)
    ensures v == ChildDone(ctx, t, child) && Typed(v, t)
  {
    hide NextServer, AddServers, Ipv4Addresses;
    v := NextServerStays(ctx,
        if child.Resolved? then t.(servers := AddServers(t.servers, Ipv4Addresses(child.answers))) else t);
  }

  lemma GoodTyped(cfg: Config, st: State, id: nat, v: Verdict)
    requires id in st.nodes && Good(cfg, st, id, v)
    ensures Typed(v, st.nodes[id].t)
  {
  }

  lemma StepNoZero(cfg: Config, st: State, ev: Event)
    requires Inv(cfg, st) && EventOk(cfg, st, ev) && NoZero(st) && (ev.Resolve? ==> ev.q.qtype != NXDOMAIN_TYPE)
    ensures NoZero(StepEvent(cfg, st, ev))
  {
    hide Inv, Apply, Begin, OnReply, Said, Good, Tree, Sound, Effect, Deliveries, Honest;
    match ev
    case Resolve(_) =>
    case Start(id, env) =>
      var st1, v, _ := StartKeeps(cfg, st, id, env);
      GoodTyped(cfg, st1, id, v);
      ApplyNoZero(cfg, env, st1, id, v);
    case Respond(id, reply, env) =>
      var st1, v, _ := RespondKeeps(cfg, st, id, reply, env);
      GoodTyped(cfg, st1, id, v);
      ApplyNoZero(cfg, env, st1, id, v);
    case Deadline(_) =>
  }

  lemma {:induction false} RunNoZero(cfg: Config, st: State, evs: seq<Event>, t: Task, m: Message)
    requires Inv(cfg, st) && Runs(cfg, st, evs) && NoZero(st) && NoneAsked(evs)
    ensures NoZero(After(cfg, st, evs))
    ensures HeardIn(cfg, st, evs, t, m) ==> t.Qtype() != NXDOMAIN_TYPE
    decreases |evs|
  {
    hide Inv, StepEvent;
    if evs == [] {
    } else {
      StepKeeps(cfg, st, evs[0]);
      StepNoZero(cfg, st, evs[0]);
      RunNoZero(cfg, StepEvent(cfg, st, evs[0]), evs[1..], t, m);
    }
  }

  // ─── Runs ─────────────────────────────────────────────────────────────────

  /** Whatever is believed was said in a response heard. */
  lemma {:induction false} FactHeard(cfg: Config, st: State, evs: seq<Event>, x: Fact) returns (t: Task, m: Message)
    requires Inv(cfg, st) && Runs(cfg, st, evs) && States(After(cfg, st, evs).trusted, x) && !States(st.trusted, x)
    ensures HeardIn(cfg, st, evs, t, m) && States(Said(t, Reply(m)), x)
    decreases |evs|
  {
    hide Inv, StepEvent, Said;
    var st' := StepEvent(cfg, st, evs[0]);
    StepLearns(cfg, st, evs[0]);
    StepKeeps(cfg, st, evs[0]);
    if States(st'.trusted, x) {
      t := st.nodes[evs[0].id].t;
      SaidHeard(t, evs[0].reply, x);
      AskerAbove(cfg, st, evs[0]);
      m := evs[0].reply.msg;
    } else {
      t, m := FactHeard(cfg, st', evs[1..], x);
    }
  }

  lemma {:induction false} HeardAbove(cfg: Config, st: State, evs: seq<Event>, t: Task, m: Message)
    requires Runs(cfg, st, evs) && HeardIn(cfg, st, evs, t, m)
    ensures ZoneAbove(t) && Heard(m)
    decreases |evs|
  {
    hide StepEvent;
    if !HeardNow(st, evs[0], t, m) {
      HeardAbove(cfg, StepEvent(cfg, st, evs[0]), evs[1..], t, m);
    }
  }

  /** Each record a client is given was, TTL aside, an answer in some response to
      a query about a zone above its owner. */
  lemma AnswerHeard(cfg: Config, evs: seq<Event>, d: Delivery, x: RR) returns (t: Task, m: Message, y: RR)
    requires cfg.maxCname <= 254 && Runs(cfg, Initial(), evs)
    requires d in After(cfg, Initial(), evs).delivered && d.outcome.Resolved? && x in d.outcome.answers
    ensures HeardIn(cfg, Initial(), evs, t, m) && y in m.answers
    ensures Bare(y) == Bare(x) && IsSuffix(t.zone, x.name.labels) && IsSuffix(t.zone, t.qname)
  {
    hide Inv, After, Runs, AnswersOk, HeardIn, FilterToBailiwick;
    var st := EveryRun(cfg, evs);
    InitialInv(cfg);
    var k: nat :| AnswersOk(cfg, d.question, d.outcome, st.trusted, k);
    assert Bare(x) in st.trusted.records by { PartsTrusted(cfg, d, st.trusted, k, x); }
    t, m := FactHeard(cfg, Initial(), evs, Record(Bare(x)));
    HeardAbove(cfg, Initial(), evs, t, m);
    y := SaidRecord(t, m, Bare(x));
  }

  lemma PartsTrusted(cfg: Config, d: Delivery, trusted: Facts, k: nat, x: RR)
    requires d.outcome.Resolved? && AnswersOk(cfg, d.question, d.outcome, trusted, k) && x in d.outcome.answers
    ensures Bare(x) in trusted.records
  {
    hide Path, Hop, Missing;
  }

  lemma SaidRecord(t: Task, m: Message, x: RR) returns (y: RR)
    requires x in Said(t, Reply(m)).records
    ensures y in m.answers && Bare(y) == x && IsSuffix(t.zone, x.name.labels)
  {
    hide Denials;
    y :| y in InZone(m.answers, t.zone) && Bare(y) == x;
  }

  /** What a response says there is none of. */
  predicate Lacks(t: Task, m: Message, name: Dom, qtype: u16, rcode: nat) {
    && t.qname == name && NoRecords(t, m)
    && (rcode == RCODE_NXDOMAIN <==> m.header.rcode == RCODE_NXDOMAIN)
    && (rcode != RCODE_NXDOMAIN ==> t.Qtype() == qtype && NoData(FilterToBailiwick(m, t.zone), name))
  }

  lemma SaidDenial(t: Task, m: Message, name: Dom, qtype: u16, rcode: nat)
    requires ZoneAbove(t) && Heard(m) && Missing(name, qtype, rcode) in Said(t, Reply(m)).denied
    requires qtype != NXDOMAIN_TYPE && t.Qtype() != NXDOMAIN_TYPE
    ensures Lacks(t, m, name, qtype, rcode)
  {
    hide Collect, InZone, ReferralNs, FindSoa;
    InZoneCollects(m.answers, t.zone, t.qname, t.Qtype());
    InZoneCollects(m.answers, t.zone, t.qname, TYPE_CNAME);
  }

  /** A client is told that a name does not exist, or has no such records. */
  predicate TellsAbsence(d: Delivery) {
    && d.outcome.Resolved?
    && (d.outcome.rcode == RCODE_NXDOMAIN || forall x :: x in d.outcome.answers ==> x.rtype != d.question.qtype)
  }

  /** The name an answer's CNAMEs lead to. */
  function EndName(d: Delivery): Dom
    requires d.outcome.Resolved?
  {
    Hop(d.question.qname.labels, d.outcome.answers, |d.outcome.answers|)
  }

  /** While no client asks for records of type zero, clients are told of absence
      only after some server asked about a zone above the name has said just that. */
  lemma AbsenceHeard(cfg: Config, evs: seq<Event>, d: Delivery) returns (t: Task, m: Message)
    requires cfg.maxCname <= 254 && Runs(cfg, Initial(), evs) && NoneAsked(evs)
    requires d in After(cfg, Initial(), evs).delivered && TellsAbsence(d)
    ensures HeardIn(cfg, Initial(), evs, t, m) && Lacks(t, m, EndName(d), d.question.qtype, d.outcome.rcode)
  {
    hide Inv, Runs, After, HeardIn, Said, Lacks, AnswersOk, Conserved;
    var st := EveryRun(cfg, evs);
    InitialInv(cfg);
    var k: nat :| AnswersOk(cfg, d.question, d.outcome, st.trusted, k);
    AbsenceDenied(cfg, d, st.trusted, k);
    t, m := FactHeard(cfg, Initial(), evs, Denial(Missing(EndName(d), d.question.qtype, d.outcome.rcode)));
    HeardAbove(cfg, Initial(), evs, t, m);
    RunNoZero(cfg, Initial(), evs, t, m);
    QuestionAsked(st, d);
    SaidDenial(t, m, EndName(d), d.question.qtype, d.outcome.rcode);
  }

  lemma QuestionAsked(st: State, d: Delivery)
    requires Conserved(st) && d in st.delivered
    ensures d.question in st.asked
  {
    hide HeldOk, Waits, Called;
    var i :| 0 <= i < |st.delivered| && st.delivered[i] == d;
  }

  lemma AbsenceDenied(cfg: Config, d: Delivery, trusted: Facts, k: nat)
    requires TellsAbsence(d) && AnswersOk(cfg, d.question, d.outcome, trusted, k)
    ensures Missing(EndName(d), d.question.qtype, d.outcome.rcode) in trusted.denied
  {
    hide Path, ChainTrusted;
    var answers := d.outcome.answers;
    HasMember(answers[k..]);
    assert answers[..k] == answers;
  }

  lemma HasMember(s: seq<RR>)
    ensures s != [] ==> exists x :: x in s
  {
    if s != [] { assert s[0] in s; }
  }

  // ─── Which questions are safe ─────────────────────────────────────────────

  predicate AsksOnly(evs: seq<Event>, types: set<u16>) {
    forall i :: 0 <= i < |evs| && evs[i].Resolve? ==> evs[i].q.qtype in types
  }

  ghost predicate AbsenceSaid(cfg: Config, evs: seq<Event>, d: Delivery)
    requires Runs(cfg, Initial(), evs) && d.outcome.Resolved?
  {
    exists t, m :: HeardIn(cfg, Initial(), evs, t, m) && Lacks(t, m, EndName(d), d.question.qtype, d.outcome.rcode)
  }

  /** Whoever asks only for such types is told only of absences that were heard. */
  ghost predicate Safe(types: set<u16>) {
    forall cfg: Config, evs, d {:trigger AbsenceSaid(cfg, evs, d)} ::
      && cfg.maxCname <= 254 && Runs(cfg, Initial(), evs) && AsksOnly(evs, types)
      && d in After(cfg, Initial(), evs).delivered && TellsAbsence(d)
      ==> AbsenceSaid(cfg, evs, d)
  }

  lemma {:induction false} HeardIsEvent(cfg: Config, st: State, evs: seq<Event>, t: Task, m: Message) returns (i: nat)
    requires Runs(cfg, st, evs) && HeardIn(cfg, st, evs, t, m)
    ensures i < |evs| && evs[i].Respond? && evs[i].reply == Reply(m)
    decreases |evs|
  {
    hide StepEvent;
    if HeardNow(st, evs[0], t, m) {
      i := 0;
    } else {
      i := HeardIsEvent(cfg, StepEvent(cfg, st, evs[0]), evs[1..], t, m);
      i := i + 1;
    }
  }

  /** Two clients ask for records of type zero. A server has one and says so; the
      second client finds it in the cache, and is told that there is no such name. */
  lemma ZeroReadsAsMissing() returns (cfg: Config, evs: seq<Event>, d: Delivery)
    ensures cfg.maxCname <= 254 && Runs(cfg, Initial(), evs) && AsksOnly(evs, {NXDOMAIN_TYPE})
    ensures d in After(cfg, Initial(), evs).delivered && TellsAbsence(d) && !AbsenceSaid(cfg, evs, d)
  {
    hide Runs, After, StepEvent;
    cfg, evs, d := ResolverZero.Settings(), ResolverZero.Events(), ResolverZero.Told();
    ResolverZero.WholeRun();
    forall t, m | HeardIn(cfg, Initial(), evs, t, m)
      ensures !Lacks(t, m, EndName(d), d.question.qtype, d.outcome.rcode)
    {
      var i := HeardIsEvent(cfg, Initial(), evs, t, m);
      assert m == ResolverZero.Response();
    }
    hide HeardIn;
  }

  /** The types that are safe to ask for are all but zero. */
  lemma SafeIffNotZero(types: set<u16>)
    ensures Safe(types) <==> NXDOMAIN_TYPE !in types
  {
    if NXDOMAIN_TYPE !in types {
      hide Runs, After, HeardIn, Lacks;
      forall cfg: Config, evs, d |
        cfg.maxCname <= 254 && Runs(cfg, Initial(), evs) && AsksOnly(evs, types)
        && d in After(cfg, Initial(), evs).delivered && TellsAbsence(d)
        ensures AbsenceSaid(cfg, evs, d)
      {
        var t, m := AbsenceHeard(cfg, evs, d);
      }
    } else {
      hide Runs, After, HeardIn, Lacks, AbsenceSaid;
      var cfg, evs, d := ZeroReadsAsMissing();
    }
  }
}
