/** What a task may conclude, whatever it is told: its answers are a CNAME path
    from the question to the records asked for, all of them answers of servers
    asked about a zone above the owner; and what it caches stays in that zone. */
module ResolverAnswers {
  import opened DnsTypes
  import opened ResolverTask

  /** A record without its TTL, which a cache hit changes. */
  function Bare(rr: RR): RR {
    rr.(ttl := 0)
  }

  // ─── CNAME paths ──────────────────────────────────────────────────────────

  /** The name reached after `i` records of a chain from `start`. */
  function Hop(start: Dom, chain: seq<RR>, i: nat): Dom
    requires i <= |chain|
  {
    if i == 0 then start
    else if chain[i - 1].rdata.RDataCNAME? then chain[i - 1].rdata.target.labels
    else []
  }

  /** Each record is a CNAME of the name reached so far, and the last leads to `end`. */
  predicate Path(start: Dom, chain: seq<RR>, end: Dom) {
    && (forall i :: 0 <= i < |chain| ==>
          && chain[i].rdata.RDataCNAME? && chain[i].rtype == TYPE_CNAME && chain[i].cls == CLASS_IN
          && chain[i].name.labels == Hop(start, chain, i))
    && end == Hop(start, chain, |chain|)
  }

  lemma PathExtends(start: Dom, chain: seq<RR>, end: Dom, cname: RR)
    requires Path(start, chain, end)
    requires cname.rdata.RDataCNAME? && cname.rtype == TYPE_CNAME && cname.cls == CLASS_IN && cname.name.labels == end
    ensures Path(start, chain + [cname], cname.rdata.target.labels)
  {
    var chain' := chain + [cname];
    forall i | 0 <= i < |chain'|
      ensures chain'[i].name.labels == Hop(start, chain', i)
    {
      if i > 0 { assert chain'[i - 1] == chain[i - 1]; }
    }
  }

  // ─── What can be believed ─────────────────────────────────────────────────

  /** What servers have said about names in the zone they were asked about:
      records, less their TTLs, and names, or types of a name, that do not exist. */
  datatype Facts = Facts(records: set<RR>, denied: set<QKey>)
  {
    predicate Within(f: Facts) {
      records <= f.records && denied <= f.denied
    }

    function Plus(f: Facts): Facts {
      Facts(records + f.records, denied + f.denied)
    }
  }

  /** A cache entry of the highest rank holds the records its key names, all of
      them said by some server; a negative one, and any under the type reserved
      for missing names, stands for something that was denied. */
  predicate EntryOk(key: QKey, e: Entry, trusted: Facts) {
    && (!e.negative ==> e.records != [])
    && (e.negative || key.qtype == NXDOMAIN_TYPE ==> key in trusted.denied)
    && (!e.negative && e.trust == Answer ==>
          forall x :: x in e.records ==>
            x.name.labels == key.name && x.rtype == key.qtype && x.cls == CLASS_IN && Bare(x) in trusted.records)
  }

  ghost predicate CacheOk(env: Env, trusted: Facts) {
    forall ask, key {:trigger env.look(ask, key)} ::
      env.look(ask, key).Some? ==> EntryOk(key, env.look(ask, key).value, trusted)
  }

  predicate ChainTrusted(chain: seq<RR>, trusted: Facts) {
    forall x :: x in chain ==> Bare(x) in trusted.records
  }

  predicate TaskOk(cfg: Config, t: Task, trusted: Facts) {
    && Bounded(cfg, t) && |t.chain| == t.hops
    && Path(t.question.qname.labels, t.chain, t.qname)
    && ChainTrusted(t.chain, trusted)
  }

  /** A task past its start: of the Internet class, in a zone above its name. */
  predicate ZoneAbove(t: Task) {
    t.question.qclass == CLASS_IN && IsSuffix(t.zone, t.qname)
  }

  /** The first `k` answers are a path from the question; the rest are the
      records it asked for, owned by the path's end, which if there are none was
      said not to exist or not to have any. */
  predicate AnswersOk(cfg: Config, q: Question, o: Outcome, trusted: Facts, k: nat)
    requires o.Resolved?
  {
    && q.qclass == CLASS_IN && k <= |o.answers| && k <= cfg.maxCname
    && Path(q.qname.labels, o.answers[..k], Hop(q.qname.labels, o.answers[..k], k))
    && (forall x :: x in o.answers[k..] ==>
          x.name.labels == Hop(q.qname.labels, o.answers[..k], k) && x.rtype == q.qtype && x.cls == CLASS_IN)
    && ChainTrusted(o.answers, trusted)
    && (o.rcode == RCODE_NOERROR || (o.rcode == RCODE_NXDOMAIN && k == |o.answers|))
    && (k == |o.answers| ==> Missing(Hop(q.qname.labels, o.answers[..k], k), q.qtype, o.rcode) in trusted.denied)
  }

  /** What an answer without records says does not exist. */
  function Missing(name: Dom, qtype: u16, rcode: nat): QKey {
    QKey(name, if rcode == RCODE_NXDOMAIN then NXDOMAIN_TYPE else qtype, CLASS_IN)
  }

  ghost predicate OutcomeOk(cfg: Config, q: Question, o: Outcome, trusted: Facts) {
    o.Resolved? ==> exists k: nat :: AnswersOk(cfg, q, o, trusted, k)
  }

  /** Whatever a task decides to do, it is still about the same question, in a
      zone above the name it is at; or its outcome is sound. */
  ghost predicate VerdictOk(cfg: Config, v: Verdict, t0: Task, trusted: Facts) {
    match v
    case Done(o) => OutcomeOk(cfg, t0.question, o, trusted)
    case _ =>
      && TaskOk(cfg, v.t, trusted) && ZoneAbove(v.t) && v.t.question == t0.question && v.t.ancestry == t0.ancestry
      && ForAddress(v)
  }

  /** Sub-tasks look for addresses. */
  predicate ForAddress(v: Verdict) {
    v.Lookup? ==> v.q.qtype == TYPE_A
  }

  lemma OutcomeSound(cfg: Config, t: Task, rcode: nat, rrset: seq<RR>, authority: seq<RR>, trusted: Facts)
    requires t.question.qclass == CLASS_IN && TaskOk(cfg, t, trusted) && ChainTrusted(rrset, trusted)
    requires rcode == RCODE_NOERROR || (rcode == RCODE_NXDOMAIN && rrset == [])
    requires rrset == [] ==> Missing(t.qname, t.Qtype(), rcode) in trusted.denied
    requires forall x :: x in rrset ==> x.name.labels == t.qname && x.rtype == t.Qtype() && x.cls == CLASS_IN
    ensures OutcomeOk(cfg, t.question, OutcomeOf(t, rcode, rrset, authority), trusted)
  {
    var o := OutcomeOf(t, rcode, rrset, authority);
    var k := |t.chain|;
    assert o.answers[..k] == t.chain && o.answers[k..] == rrset;
    assert AnswersOk(cfg, t.question, o, trusted, k);
  }

  lemma FollowOk(cfg: Config, t: Task, cname: RR, trusted: Facts)
    requires TaskOk(cfg, t, trusted) && Bare(cname) in trusted.records
    requires cname.rtype == TYPE_CNAME && cname.cls == CLASS_IN && cname.name.labels == t.qname
    ensures var r := FollowCname(cfg, t, cname);
            r.Some? ==>
              TaskOk(cfg, r.value, trusted) && r.value.question == t.question && r.value.ancestry == t.ancestry
                        && r.value.zone == t.zone && r.value.hops == t.hops + 1 && r.value.chain == t.chain + [cname]
  {
    if cname.rdata.RDataCNAME? {
      PathExtends(t.question.qname.labels, t.chain, t.qname, cname);
    }
  }

  // ─── Zones ────────────────────────────────────────────────────────────────

  /** What asking for servers leaves alone. */
  predicate SameTask(t: Task, t': Task) {
    && t'.question == t.question && t'.ancestry == t.ancestry && t'.qname == t.qname
    && t'.chain == t.chain && t'.hops == t.hops
  }

  /** A task that is sound stays so when only its servers change. */
  predicate StaysIn(v: Verdict, t: Task) {
    match v
    case Done(o) => o.Failed?
    case _ => SameTask(t, v.t) && v.t.zone == t.zone && ForAddress(v)
  }

  lemma {:induction false} NextServerStays(ctx: Context, t: Task) returns (v: Verdict)
    ensures v == NextServer(ctx, t) && StaysIn(v, t)
    decreases if t.retryRounds <= MAX_RETRY_ROUNDS then MAX_RETRY_ROUNDS - t.retryRounds + 1 else 0
  {
    if WithoutAll(t.servers, t.tried) != [] {
      v := SendQuery(ctx, t, ctx.env.pick(WithoutAll(t.servers, t.tried)), false);
    } else {
      var (t', name) := NextGlueless(ctx.cfg, t);
      if name.Some? {
        v := Lookup(t', Question(Name(name.value, name.value), TYPE_A, CLASS_IN));
      } else if t'.timedOut != [] && t'.retryRounds < MAX_RETRY_ROUNDS {
        v := NextServerStays(ctx, Retried(t'));
        NextServerRetries(ctx, t, t', v);
      } else {
        v := Done(Failed(AllServersFailed));
      }
    }
  }

  lemma StaysOk(cfg: Config, v: Verdict, t: Task, trusted: Facts)
    requires StaysIn(v, t) && TaskOk(cfg, t, trusted) && ZoneAbove(t)
    ensures VerdictOk(cfg, v, t, trusted)
  {
  }

  lemma EnterZoneStays(ctx: Context, t: Task, zone: Dom, ns: seq<RR>, glue: seq<RR>)
    ensures SameTask(t, EnterZone(ctx, t, zone, ns, glue)) && EnterZone(ctx, t, zone, ns, glue).zone == zone
  {
  }

  lemma SuffixOfTail(z: Dom, name: Dom)
    requires z != [] && IsSuffix(z, name)
    ensures IsSuffix(z[1..], name)
  {
    assert name[|name| - |z|..][1..] == name[|name| - |z| + 1..];
  }

  /** The closest zone is above the name. */
  lemma {:induction false} ClosestZoneAbove(ctx: Context, t: Task, z: Dom) returns (t': Task)
    requires IsSuffix(z, t.qname)
    ensures t' == ClosestZone(ctx, t, z) && SameTask(t, t') && IsSuffix(t'.zone, t.qname)
    decreases |z|
  {
    t' := ClosestZone(ctx, t, z);
    if z !in ctx.cfg.stubs {
      var ns := ctx.env.look(AskZone(z), QKey(z, TYPE_NS, CLASS_IN));
      if ns.Some? && !ns.value.negative && ns.value.records != [] {
        EnterZoneStays(ctx, t, z, ns.value.records, []);
      } else if z == [] {
        EnterZoneStays(ctx, t, [], ctx.cfg.hintNs, []);
      } else {
        SuffixOfTail(z, t.qname);
        var _ := ClosestZoneAbove(ctx, t, z[1..]);
      }
    }
  }

  // ─── Steps ────────────────────────────────────────────────────────────────

  lemma {:induction false} StepOk(ctx: Context, t: Task, trusted: Facts) returns (v: Verdict)
    requires TaskOk(ctx.cfg, t, trusted) && CacheOk(ctx.env, trusted) && t.question.qclass == CLASS_IN
    ensures v == Step(ctx, t) && VerdictOk(ctx.cfg, v, t, trusted)
    decreases 255 - t.hops
  {
    var nx := ctx.env.look(AskNx(t.hops), QKey(t.qname, NXDOMAIN_TYPE, CLASS_IN));
    var hit := ctx.env.look(AskAnswer(t.hops), QKey(t.qname, t.Qtype(), CLASS_IN));
    var cname := ctx.env.look(AskCname(t.hops), QKey(t.qname, TYPE_CNAME, CLASS_IN));
    if nx.Some? {
      v := Done(OutcomeOf(t, RCODE_NXDOMAIN, [], nx.value.records));
      OutcomeSound(ctx.cfg, t, RCODE_NXDOMAIN, [], nx.value.records, trusted);
    } else if hit.Some? && hit.value.negative {
      v := Done(OutcomeOf(t, RCODE_NOERROR, [], hit.value.records));
      OutcomeSound(ctx.cfg, t, RCODE_NOERROR, [], hit.value.records, trusted);
    } else if Usable(hit) {
      v := Done(OutcomeOf(t, RCODE_NOERROR, hit.value.records, []));
      OutcomeSound(ctx.cfg, t, RCODE_NOERROR, hit.value.records, [], trusted);
    } else if t.Qtype() != TYPE_CNAME && Usable(cname) && cname.value.records != [] {
      FollowOk(ctx.cfg, t, cname.value.records[0], trusted);
      match FollowCname(ctx.cfg, t, cname.value.records[0]) {
        case None => v := Done(Failed(MaxCnameChainExceeded));
        case Some(t') => v := StepOk(ctx, t', trusted);
      }
    } else {
      var t' := ClosestZoneAbove(ctx, t, t.qname);
      v := NextServerStays(ctx, t');
      StaysOk(ctx.cfg, v, t', trusted);
    }
  }

  lemma ChildDoneOk(ctx: Context, t: Task, child: Outcome, trusted: Facts) returns (v: Verdict)
    requires TaskOk(ctx.cfg, t, trusted) && ZoneAbove(t)
    ensures v == ChildDone(ctx, t, child) && VerdictOk(ctx.cfg, v, t, trusted)
  {
    var t' := if child.Resolved? then t.(servers := AddServers(t.servers, Ipv4Addresses(child.answers))) else t;
    v := NextServerStays(ctx, t');
    StaysOk(ctx.cfg, v, t', trusted);
  }

  // ─── Replies ──────────────────────────────────────────────────────────────

  /** What a whole reply without error says about names in the zone asked about. */
  function Said(t: Task, reply: Reply): Facts {
    if reply.NoReply? || reply.msg.header.tc || Refused(reply.msg) then Facts({}, {})
    else
      var m := FilterToBailiwick(reply.msg, t.zone);
      Facts(set x | x in m.answers :: Bare(x), Denials(t, m))
  }

  /** No answer to the question, and no CNAME to follow. */
  predicate NoRecords(t: Task, m: Message) {
    && Collect(m.answers, t.qname, t.Qtype()) == []
    && (t.Qtype() == TYPE_CNAME || Collect(m.answers, t.qname, TYPE_CNAME) == [])
  }

  /** A response without an answer that is no referral: from the authority itself,
      or with an SOA to show. */
  predicate NoData(m: Message, qname: Dom) {
    m.header.aa || (ReferralNs(m.authority) == [] && FindSoa(m.authority, qname) != [])
  }

  /** What a response denies: the name, with NXDOMAIN; its records of the type, if
      it is no referral. One that has records denies nothing, except that those of
      type zero are cached under the type reserved for missing names. */
  function Denials(t: Task, m: Message): set<QKey> {
    if !NoRecords(t, m) then
      if t.Qtype() != NXDOMAIN_TYPE then {}
      else set x | x in m.answers && x.rtype == NXDOMAIN_TYPE :: QKey(x.name.labels, NXDOMAIN_TYPE, CLASS_IN)
    else if m.header.rcode == RCODE_NXDOMAIN then {QKey(t.qname, NXDOMAIN_TYPE, CLASS_IN)}
    else if NoData(m, t.qname) then {QKey(t.qname, t.Qtype(), CLASS_IN)}
    else {}
  }

  predicate Refused(m: Message) {
    m.header.rcode != RCODE_NOERROR && m.header.rcode != RCODE_NXDOMAIN
  }

  /** A write to the cache keeps to the zone of the server that supplied it; the
      highest rank needs an authoritative answer; and it is meant for no longer
      than any of its records, or, for an absence, than its SOA says. */
  predicate InsertOk(ins: Insert, zone: Dom, trusted: Facts) {
    && ins.zone == zone && IsSuffix(zone, ins.key.name)
    && (forall x :: x in ins.entry.records ==> IsSuffix(zone, x.name.labels))
    && (ins.entry.trust == Answer ==> ins.aa && !ins.entry.negative)
    && (forall x :: x in ins.entry.records ==> ins.ttl <= x.ttl)
    && (ins.entry.negative ==> forall x :: x in ins.entry.records ==> x.rdata.RDataSOA? && ins.ttl <= x.rdata.minimum)
    && EntryOk(ins.key, ins.entry, trusted)
  }

  ghost predicate InsertsOk(inserts: seq<Insert>, zone: Dom, trusted: Facts) {
    forall ins {:trigger InsertOk(ins, zone, trusted)} :: ins in inserts ==> InsertOk(ins, zone, trusted)
  }

  lemma InsertsJoin(a: seq<Insert>, b: seq<Insert>, zone: Dom, trusted: Facts)
    requires InsertsOk(a, zone, trusted) && InsertsOk(b, zone, trusted)
    ensures InsertsOk(a + b, zone, trusted)
  {
  }

  /** The records of a response, once filtered. */
  predicate Filtered(m: Message, zone: Dom, trusted: Facts) {
    && (forall x :: x in m.answers ==> IsSuffix(zone, x.name.labels) && Bare(x) in trusted.records)
    && (forall x :: x in m.authority ==> IsSuffix(zone, x.name.labels))
    && (forall x :: x in m.additional ==> IsSuffix(zone, x.name.labels))
  }

  /** Answers that will be cached as if they denied their owners. */
  predicate ZeroDenied(m: Message, qtype: u16, trusted: Facts) {
    qtype == NXDOMAIN_TYPE ==> forall x :: x in m.answers && x.rtype == qtype ==>
      QKey(x.name.labels, qtype, CLASS_IN) in trusted.denied
  }

  lemma {:induction false} GlueOk(zone: Dom, m: Message, ns: seq<RR>, trusted: Facts)
    requires Filtered(m, zone, trusted)
    ensures InsertsOk(CacheGlue(zone, m, ns), zone, trusted)
  {
    if ns == [] {
    } else {
      GlueOk(zone, m, ns[1..], trusted);
      var rest := CacheGlue(zone, m, ns[1..]);
      if ns[0].rdata.RDataNS? {
        var target := ns[0].rdata.nsdname.labels;
        var glue := Collect(m.additional, target, TYPE_A);
        if glue != [] {
          var ins := Insert(QKey(target, TYPE_A, CLASS_IN), Entry(glue, Glue, false), MinTtl(glue), zone, m.header.aa);
          assert glue[0] in glue;
          assert InsertOk(ins, zone, trusted);
          InsertsJoin([ins], rest, zone, trusted);
        }
      }
    }
  }

  /** What following a response's CNAMEs ends with. */
  ghost predicate ChaseOk(cfg: Config, c: Chase, t: Task, trusted: Facts) {
    && InsertsOk(c.inserts, t.zone, trusted)
    && match c
       case Found(t', rrset, _) => OutcomeOk(cfg, t.question, OutcomeOf(t', RCODE_NOERROR, rrset, []), trusted)
       case TooLong(_) => true
       case Open(t', _) =>
         TaskOk(cfg, t', trusted) && t'.question == t.question && t'.ancestry == t.ancestry && t'.zone == t.zone
  }

  lemma RrsetInsertOk(t: Task, m: Message, key: QKey, rrset: seq<RR>, ttl: u32, trusted: Facts)
    requires Filtered(m, t.zone, trusted) && ZeroDenied(m, key.qtype, trusted) && rrset != [] && key.qclass == CLASS_IN
    requires forall x :: x in rrset ==>
               x in m.answers && x.cls == CLASS_IN && x.rtype == key.qtype && x.name.labels == key.name
    requires forall x :: x in rrset ==> ttl <= x.ttl
    ensures InsertOk(Insert(key, Entry(rrset, AnswerRank(m), false), ttl, t.zone, m.header.aa), t.zone, trusted)
  {
    assert rrset[0] in rrset;
  }

  lemma {:induction false} ChaseSound(
    ctx: Context, t: Task, m: Message, before: seq<Insert>, trusted: Facts) returns (c: Chase)
    requires t.question.qclass == CLASS_IN && TaskOk(ctx.cfg, t, trusted) && Filtered(m, t.zone, trusted)
    requires InsertsOk(before, t.zone, trusted)
    requires NoRecords(t, m) || ZeroDenied(m, t.Qtype(), trusted)
    ensures c == ChaseAnswers(ctx, t, m, before) && ChaseOk(ctx.cfg, c, t, trusted)
    decreases 255 - t.hops
  {
    var rrset := Collect(m.answers, t.qname, t.Qtype());
    var cname := Collect(m.answers, t.qname, TYPE_CNAME);
    if rrset != [] {
      var key := QKey(t.qname, t.Qtype(), CLASS_IN);
      var ins := Insert(key, Entry(rrset, AnswerRank(m), false), MinTtl(rrset), t.zone, m.header.aa);
      RrsetInsertOk(t, m, key, rrset, MinTtl(rrset), trusted);
      var glue := if t.Qtype() == TYPE_NS then CacheGlue(t.zone, m, rrset) else [];
      GlueOk(t.zone, m, rrset, trusted);
      InsertsJoin(before, [ins], t.zone, trusted);
      InsertsJoin(before + [ins], glue, t.zone, trusted);
      OutcomeSound(ctx.cfg, t, RCODE_NOERROR, rrset, [], trusted);
      c := Found(t, rrset, before + [ins] + glue);
    } else if t.Qtype() == TYPE_CNAME || cname == [] {
      c := Open(t, before);
    } else {
      var key := QKey(t.qname, TYPE_CNAME, CLASS_IN);
      var ins := Insert(key, Entry([cname[0]], AnswerRank(m), false), cname[0].ttl, t.zone, m.header.aa);
      assert cname[0] in cname;
      RrsetInsertOk(t, m, key, [cname[0]], cname[0].ttl, trusted);
      InsertsJoin(before, [ins], t.zone, trusted);
      FollowOk(ctx.cfg, t, cname[0], trusted);
      match FollowCname(ctx.cfg, t, cname[0]) {
        case None => c := TooLong(before + [ins]);
        case Some(t') => c := ChaseSound(ctx, t', m, before + [ins], trusted);
      }
    }
  }

  /** A reply's effect: the verdict and every write are sound. */
  ghost predicate ReactionOk(cfg: Config, r: Reaction, t: Task, trusted: Facts) {
    VerdictOk(cfg, r.verdict, t, trusted) && InsertsOk(r.inserts, t.zone, trusted)
  }

  /** The same of a reply that makes the task look in the cache again: what it
      writes is sound whatever the cache holds. */
  ghost predicate SoundAfter(ctx: Context, r: Reaction, t: Task, trusted: Facts) {
    && InsertsOk(r.inserts, t.zone, trusted)
    && (CacheOk(ctx.env, trusted) ==> VerdictOk(ctx.cfg, r.verdict, t, trusted))
  }

  lemma NegativeOk(t: Task, m: Message, qtype: u16, trusted: Facts)
    requires ZoneAbove(t) && Filtered(m, t.zone, trusted) && QKey(t.qname, qtype, CLASS_IN) in trusted.denied
    ensures InsertsOk(NegativeInsert(t, m, qtype, FindSoa(m.authority, t.qname)), t.zone, trusted)
  {
    var proof := FindSoa(m.authority, t.qname);
    if proof != [] {
      var ins := NegativeInsert(t, m, qtype, proof)[0];
      assert InsertOk(ins, t.zone, trusted);
    }
  }

  /** Each accepted referral is to a zone strictly below the old one and still
      above the name. */
  lemma ReferOk(ctx: Context, t: Task, m: Message, ns: seq<RR>, trusted: Facts) returns (r: Reaction)
    requires TaskOk(ctx.cfg, t, trusted) && ZoneAbove(t) && Filtered(m, t.zone, trusted)
    requires ns != [] && NsInZone(ns, t.zone) && Downward(t, ns[0].name.labels)
    ensures r == Refer(ctx, t, m, ns) && ReactionOk(ctx.cfg, r, t, trusted)
    ensures !r.verdict.Done? ==>
              |r.verdict.t.zone| > |t.zone| && IsSuffix(t.zone, r.verdict.t.zone) && IsSuffix(r.verdict.t.zone, t.qname)
  {
    var child := ns[0].name.labels;
    assert ns[0] in ns;
    var t1 := t.(referrals := (t.referrals as int + 1) % 0x1_0000);
    if t1.referrals > ctx.cfg.maxReferrals {
      r := ReferTooDeep(ctx, t, m, ns);
    } else {
      var v := EnterAndAskStays(ctx, t1, ns, m.additional);
      ReferInsertsOk(t, m, ns, trusted);
      r := ReferIs(ctx, t, m, ns, t1, v);
      SuffixesNest(t.zone, child, t.qname);
    }
  }

  predicate NsInZone(ns: seq<RR>, zone: Dom) {
    forall x :: x in ns ==> IsSuffix(zone, x.name.labels)
  }

  lemma SuffixesNest(a: Dom, b: Dom, c: Dom)
    requires IsSuffix(a, c) && IsSuffix(b, c) && |a| <= |b|
    ensures IsSuffix(a, b)
  {
    assert c[|c| - |a|..] == c[|c| - |b|..][|b| - |a|..];
  }

  lemma EnterAndAskStays(ctx: Context, t: Task, ns: seq<RR>, glue: seq<RR>) returns (v: Verdict)
    requires ns != []
    ensures v == EnterAndAsk(ctx, t, ns, glue)
    ensures if v.Done? then v.outcome.Failed? else SameTask(t, v.t) && v.t.zone == ns[0].name.labels && ForAddress(v)
  {
    EnterZoneStays(ctx, t, ns[0].name.labels, ns, glue);
    v := NextServerStays(ctx, EnterZone(ctx, t, ns[0].name.labels, ns, glue));
  }

  lemma ReferInsertsOk(t: Task, m: Message, ns: seq<RR>, trusted: Facts)
    requires Filtered(m, t.zone, trusted) && ns != [] && NsInZone(ns, t.zone)
    ensures InsertsOk(ReferInserts(t, m, ns), t.zone, trusted)
  {
    assert ns[0] in ns;
    var ins := Insert(QKey(ns[0].name.labels, TYPE_NS, CLASS_IN), Entry(ns, Authority, false), MinTtl(ns), t.zone,
                      m.header.aa);
    assert InsertOk(ins, t.zone, trusted);
    GlueOk(t.zone, m, ns, trusted);
    InsertsJoin([ins], CacheGlue(t.zone, m, ns), t.zone, trusted);
  }

  lemma ZeroFrom(t: Task, m: Message, trusted: Facts)
    requires !NoRecords(t, m) && Denials(t, m) <= trusted.denied
    ensures ZeroDenied(m, t.Qtype(), trusted)
  {
    hide NoRecords, ReferralNs, FindSoa;
    if t.Qtype() == NXDOMAIN_TYPE {
      forall x | x in m.answers && x.rtype == NXDOMAIN_TYPE
        ensures QKey(x.name.labels, NXDOMAIN_TYPE, CLASS_IN) in trusted.denied
      {
        assert QKey(x.name.labels, NXDOMAIN_TYPE, CLASS_IN) in Denials(t, m);
      }
    }
  }

  lemma DenialsOf(t: Task, m: Message)
    requires NoRecords(t, m)
    ensures m.header.rcode == RCODE_NXDOMAIN ==> QKey(t.qname, NXDOMAIN_TYPE, CLASS_IN) in Denials(t, m)
    ensures m.header.rcode != RCODE_NXDOMAIN && NoData(m, t.qname) ==>
              QKey(t.qname, t.Qtype(), CLASS_IN) in Denials(t, m)
  {
  }

  lemma NoAnswerOk(ctx: Context, t: Task, m: Message, trusted: Facts) returns (r: Reaction)
    requires TaskOk(ctx.cfg, t, trusted) && ZoneAbove(t) && Filtered(m, t.zone, trusted)
    requires NoRecords(t, m) && Denials(t, m) <= trusted.denied
    ensures r == NoAnswer(ctx, t, m) && ReactionOk(ctx.cfg, r, t, trusted)
  {
    DenialsOf(t, m);
    var proof := FindSoa(m.authority, t.qname);
    var ns := if m.header.aa then [] else ReferralNs(m.authority);
    if m.header.rcode == RCODE_NXDOMAIN {
      r := Reaction(Done(OutcomeOf(t, RCODE_NXDOMAIN, [], proof)), NegativeInsert(t, m, NXDOMAIN_TYPE, proof),
                    ctx.noCase);
      OutcomeSound(ctx.cfg, t, RCODE_NXDOMAIN, [], proof, trusted);
      NegativeOk(t, m, NXDOMAIN_TYPE, trusted);
    } else if ns != [] && Downward(t, ns[0].name.labels) {
      r := ReferOk(ctx, t, m, ns, trusted);
    } else if ns == [] && (m.header.aa || proof != []) {
      r := Reaction(Done(OutcomeOf(t, RCODE_NOERROR, [], proof)), NegativeInsert(t, m, t.Qtype(), proof), ctx.noCase);
      OutcomeSound(ctx.cfg, t, RCODE_NOERROR, [], proof, trusted);
      NegativeOk(t, m, t.Qtype(), trusted);
    } else {
      var v := NextServerStays(ctx, t);
      StaysOk(ctx.cfg, v, t, trusted);
      r := Plain(ctx, v);
    }
  }

  /** The chain grows with each CNAME followed; so if it has not, there is none. */
  lemma {:induction false} ChaseGrows(ctx: Context, t: Task, m: Message, before: seq<Insert>)
    requires Bounded(ctx.cfg, t)
    ensures var c := ChaseAnswers(ctx, t, m, before);
            c.Open? ==> |c.t.chain| >= |t.chain| && (|c.t.chain| == |t.chain| ==> c.t == t && NoRecords(t, m))
    decreases 255 - t.hops
  {
    var cname := Collect(m.answers, t.qname, TYPE_CNAME);
    if !NoRecords(t, m) && Collect(m.answers, t.qname, t.Qtype()) == [] {
      var ins := Insert(QKey(t.qname, TYPE_CNAME, CLASS_IN), Entry([cname[0]], AnswerRank(m), false), cname[0].ttl,
                        t.zone, m.header.aa);
      match FollowCname(ctx.cfg, t, cname[0]) {
        case None =>
        case Some(t') => ChaseGrows(ctx, t', m, before + [ins]);
      }
    }
  }

  lemma BelieveOk(ctx: Context, t: Task, m: Message, trusted: Facts) returns (r: Reaction)
    requires TaskOk(ctx.cfg, t, trusted) && ZoneAbove(t) && Filtered(m, t.zone, trusted)
    requires Denials(t, m) <= trusted.denied
    ensures r == Believe(ctx, t, m) && SoundAfter(ctx, r, t, trusted)
  {
    if !NoRecords(t, m) { ZeroFrom(t, m, trusted); }
    var c := ChaseSound(ctx, t, m, [], trusted);
    match c
    case Found(t', rrset, inserts) => r := Reaction(Done(OutcomeOf(t', RCODE_NOERROR, rrset, [])), inserts, ctx.noCase);
    case TooLong(inserts) => r := Reaction(Done(Failed(MaxCnameChainExceeded)), inserts, ctx.noCase);
    case Open(t', inserts) =>
      if t'.chain != t.chain {
        r := Reaction(Step(ctx, t'), inserts, ctx.noCase);
        if CacheOk(ctx.env, trusted) { var v := StepOk(ctx, t', trusted); }
      } else {
        ChaseGrows(ctx, t, m, []);
        r := NoAnswerOk(ctx, t, m, trusted);
      }
  }

  lemma FilterOk(t: Task, m: Message, trusted: Facts)
    requires !m.header.tc && !Refused(m) && Said(t, Reply(m)).Within(trusted)
    ensures Filtered(FilterToBailiwick(m, t.zone), t.zone, trusted)
    ensures Denials(t, FilterToBailiwick(m, t.zone)) <= trusted.denied
  {
    hide Denials;
    var f := FilterToBailiwick(m, t.zone);
    forall x | x in f.answers
      ensures Bare(x) in trusted.records
    {
      assert Bare(x) in Said(t, Reply(m)).records;
    }
  }

  lemma AskAgainStays(ctx: Context, t: Task, a: Addr, tcp: bool)
    ensures StaysIn(SendQuery(ctx, t, a, tcp), t)
  {
  }

  /** Whatever a server replies: the task stays sound, in a zone above its name,
      or ends with a sound outcome, and only in-zone records are cached. */
  lemma ReplyOk(ctx: Context, t: Task, reply: Reply, trusted: Facts) returns (r: Reaction)
    requires TaskOk(ctx.cfg, t, trusted) && ZoneAbove(t)
    requires Said(t, reply).Within(trusted)
    ensures r == OnReply(ctx, t, reply) && SoundAfter(ctx, r, t, trusted)
  {
    match reply
    case NoReply(SpoofSuspected) =>
      AskAgainStays(ctx, t, t.asked, true);
      r := Plain(ctx, SendQuery(ctx, t, t.asked, true));
      StaysOk(ctx.cfg, r.verdict, t, trusted);
    case NoReply(CaseMismatch) =>
      r := OnReply(ctx, t, reply);
      StaysOk(ctx.cfg, r.verdict, t, trusted);
    case NoReply(UpstreamTimeout) =>
      var t' := t.(timedOut := t.timedOut + [t.asked]);
      var v := NextServerStays(ctx, t');
      StaysOk(ctx.cfg, v, t', trusted);
      r := Plain(ctx, v);
    case NoReply(NetworkError) =>
      var v := NextServerStays(ctx, t);
      StaysOk(ctx.cfg, v, t, trusted);
      r := Plain(ctx, v);
    case Reply(m) =>
      r := MessageOk(ctx, t, m, trusted);
  }

  lemma MessageOk(ctx: Context, t: Task, m: Message, trusted: Facts) returns (r: Reaction)
    requires TaskOk(ctx.cfg, t, trusted) && ZoneAbove(t)
    requires Said(t, Reply(m)).Within(trusted)
    ensures r == OnMessage(ctx, t, m) && SoundAfter(ctx, r, t, trusted)
  {
    if m.header.tc && !t.overTcp {
      AskAgainStays(ctx, t, t.asked, true);
      r := Plain(ctx, SendQuery(ctx, t, t.asked, true));
      StaysOk(ctx.cfg, r.verdict, t, trusted);
    } else if m.header.tc || Refused(m) {
      var v := NextServerStays(ctx, t);
      StaysOk(ctx.cfg, v, t, trusted);
      r := Plain(ctx, v);
    } else {
      FilterOk(t, m, trusted);
      r := BelieveOk(ctx, t, FilterToBailiwick(m, t.zone), trusted);
    }
  }
}
