/** What a task does make of a response (core/resolver/recursive_resolver.cpp):
    the other side of what it must not conclude. */
module ResolverServes {
  import opened DnsTypes
  import opened ResolverTask
  import opened ResolverServers
  import opened ResolverAnswers
  import opened ResolverTree
  import opened ResolverInvariant
  import opened ResolverSound
  import opened ResolverRuns

  /** A whole response without an error. */
  predicate Heard(m: Message) {
    !m.header.tc && !Refused(m)
  }

  // ─── Outside the zone ─────────────────────────────────────────────────────

  /** Records outside the zone asked about have no effect whatever: not on the
      verdict, on the cache, or on what is known of servers. */
  lemma OutsideUnheard(ctx: Context, t: Task, m: Message, m': Message)
    requires Bounded(ctx.cfg, t) && m'.header == m.header && m'.questions == m.questions && m'.edns == m.edns
    requires InZone(m.answers, t.zone) == InZone(m'.answers, t.zone)
    requires InZone(m.authority, t.zone) == InZone(m'.authority, t.zone)
    requires InZone(m.additional, t.zone) == InZone(m'.additional, t.zone)
    ensures OnReply(ctx, t, Reply(m)) == OnReply(ctx, t, Reply(m'))
  {
    hide Believe, NextServer, SendQuery, InZone;
  }

  /** The filter loses nothing of a name in the zone. */
  lemma {:induction false} InZoneCollects(section: seq<RR>, zone: Dom, name: Dom, rtype: u16)
    requires IsSuffix(zone, name)
    ensures Collect(InZone(section, zone), name, rtype) == Collect(section, name, rtype)
  {
    if section == [] {
    } else {
      InZoneCollects(section[1..], zone, name, rtype);
      var rest := InZone(section[1..], zone);
      if IsSuffix(zone, section[0].name.labels) {
        assert ([section[0]] + rest)[1..] == rest;
      }
    }
    hide IsSuffix;
  }

  // ─── What is cached ───────────────────────────────────────────────────────

  /** The least TTL of some records. */
  predicate LeastTtl(rrs: seq<RR>, ttl: u32) {
    (forall x :: x in rrs ==> ttl <= x.ttl) && exists x :: x in rrs && x.ttl == ttl
  }

  /** These records are written for this key: for as long as the least of their
      TTLs, or for an absence as its SOA says if that is less. */
  ghost predicate Stored(inserts: seq<Insert>, key: QKey, rrs: seq<RR>, trust: TrustRank, negative: bool) {
    exists ins :: ins in inserts && ins.key == key && ins.entry == Entry(rrs, trust, negative) && RightTtl(ins)
  }

  predicate RightTtl(ins: Insert) {
    if ins.entry.negative then
      && |ins.entry.records| == 1 && ins.entry.records[0].rdata.RDataSOA?
      && ins.ttl == (if ins.entry.records[0].ttl < ins.entry.records[0].rdata.minimum
                     then ins.entry.records[0].ttl else ins.entry.records[0].rdata.minimum)
    else LeastTtl(ins.entry.records, ins.ttl)
  }

  lemma StoredBy(inserts: seq<Insert>, ins: Insert)
    requires ins in inserts && RightTtl(ins)
    ensures Stored(inserts, ins.key, ins.entry.records, ins.entry.trust, ins.entry.negative)
  {
  }

  // ─── Answers ──────────────────────────────────────────────────────────────

  /** A chain of CNAMEs found in an answer section, each the first of its owner,
      where nothing else answers on the way. */
  predicate Along(answers: seq<RR>, start: Dom, path: seq<RR>, qtype: u16)
    decreases |path|
  {
    path != [] ==>
      && qtype != TYPE_CNAME && Collect(answers, start, qtype) == []
      && Collect(answers, start, TYPE_CNAME) != [] && path[0] == Collect(answers, start, TYPE_CNAME)[0]
      && path[0].rdata.RDataCNAME? && Along(answers, path[0].rdata.target.labels, path[1..], qtype)
  }

  function EndOf(start: Dom, path: seq<RR>): Dom
    decreases |path|
  {
    if path == [] then start
    else EndOf(if path[0].rdata.RDataCNAME? then path[0].rdata.target.labels else [], path[1..])
  }

  /** A task that has followed a path. */
  function Followed(t: Task, path: seq<RR>): Task
    requires t.hops + |path| <= 254
  {
    t.(hops := t.hops + |path|, chain := t.chain + path, qname := EndOf(t.qname, path))
  }

  function CnameInsert(t: Task, m: Message, cname: RR): Insert {
    Insert(QKey(t.qname, TYPE_CNAME, CLASS_IN), Entry([cname], AnswerRank(m), false), cname.ttl, t.zone, m.header.aa)
  }

  lemma ChaseStep(ctx: Context, t: Task, m: Message, before: seq<Insert>, cname: RR, t': Task)
    requires Bounded(ctx.cfg, t) && FollowCname(ctx.cfg, t, cname) == Some(t') && t.Qtype() != TYPE_CNAME
    requires t'.hops == t.hops + 1
    requires Collect(m.answers, t.qname, t.Qtype()) == []
    requires var c := Collect(m.answers, t.qname, TYPE_CNAME); c != [] && c[0] == cname
    ensures ChaseAnswers(ctx, t, m, before) == ChaseAnswers(ctx, t', m, before + [CnameInsert(t, m, cname)])
  {
    hide Collect, FollowCname;
  }

  lemma FollowedStep(cfg: Config, t: Task, path: seq<RR>) returns (t': Task)
    requires path != [] && path[0].rdata.RDataCNAME? && t.hops + |path| <= cfg.maxCname <= 254
    ensures FollowCname(cfg, t, path[0]) == Some(t') && t'.hops == t.hops + 1 && t'.qname == path[0].rdata.target.labels
    ensures t'.question == t.question && t'.zone == t.zone && Followed(t', path[1..]) == Followed(t, path)
  {
    t' := FollowCname(cfg, t, path[0]).value;
    assert t.chain + path == t.chain + [path[0]] + path[1..];
  }

  lemma CnameStored(t: Task, m: Message, cname: RR)
    requires cname.name.labels == t.qname
    ensures Stored([CnameInsert(t, m, cname)], QKey(cname.name.labels, TYPE_CNAME, CLASS_IN), [cname], AnswerRank(m),
                   false)
  {
    assert cname in [cname];
    assert LeastTtl([cname], cname.ttl);
    StoredBy([CnameInsert(t, m, cname)], CnameInsert(t, m, cname));
  }

  ghost predicate PathStored(inserts: seq<Insert>, path: seq<RR>, trust: TrustRank) {
    forall x :: x in path ==> Stored(inserts, QKey(x.name.labels, TYPE_CNAME, CLASS_IN), [x], trust, false)
  }

  lemma PathStoredMore(ins: Insert, rest: seq<Insert>, path: seq<RR>, trust: TrustRank)
    requires path != [] && PathStored(rest, path[1..], trust)
    requires Stored([ins], QKey(path[0].name.labels, TYPE_CNAME, CLASS_IN), [path[0]], trust, false)
    ensures PathStored([ins] + rest, path, trust)
  {
    forall x | x in path
      ensures Stored([ins] + rest, QKey(x.name.labels, TYPE_CNAME, CLASS_IN), [x], trust, false)
    {
      if x != path[0] { assert x in path[1..]; }
    }
    hide RightTtl;
  }

  lemma {:induction false} ChaseAlong(ctx: Context, t: Task, m: Message, before: seq<Insert>, path: seq<RR>)
    returns (mid: seq<Insert>)
    requires Bounded(ctx.cfg, t) && Along(m.answers, t.qname, path, t.Qtype()) && t.hops + |path| <= ctx.cfg.maxCname
    ensures ChaseAnswers(ctx, t, m, before) == ChaseAnswers(ctx, Followed(t, path), m, before + mid)
    ensures PathStored(mid, path, AnswerRank(m))
    decreases |path|
  {
    if path == [] {
      hide ChaseAnswers;
      mid := [];
      assert before + [] == before && t.chain + [] == t.chain;
    } else {
      hide Collect, ChaseAnswers, Followed, FollowCname, PathStored, Stored, CnameInsert, AnswerRank;
      assert path[0] in Collect(m.answers, t.qname, TYPE_CNAME);
      var t' := FollowedStep(ctx.cfg, t, path);
      var ins := CnameInsert(t, m, path[0]);
      ChaseStep(ctx, t, m, before, path[0], t');
      var rest := ChaseAlong(ctx, t', m, before + [ins], path[1..]);
      mid := [ins] + rest;
      assert before + mid == before + [ins] + rest;
      CnameStored(t, m, path[0]);
      PathStoredMore(ins, rest, path, AnswerRank(m));
    }
  }

  /** A response with the records asked for, at the end of CNAMEs or of none, in
      whatever order and with whatever else: the outcome is just that path and
      those records, and all of it is cached, at the highest rank if the server
      is the authority. */
  lemma AnswerServed(ctx: Context, t: Task, m: Message, path: seq<RR>) returns (rrset: seq<RR>, inserts: seq<Insert>)
    requires Bounded(ctx.cfg, t) && ZoneAbove(t) && Heard(m)
    requires var answers := InZone(m.answers, t.zone);
      && Along(answers, t.qname, path, t.Qtype()) && t.hops + |path| <= ctx.cfg.maxCname
      && Collect(answers, EndOf(t.qname, path), t.Qtype()) != []
    ensures rrset == Collect(InZone(m.answers, t.zone), EndOf(t.qname, path), t.Qtype())
    ensures var r := OnReply(ctx, t, Reply(m));
      r.verdict == Done(Resolved(RCODE_NOERROR, t.chain + path + rrset, [])) && r.inserts == inserts
    ensures Stored(inserts, QKey(EndOf(t.qname, path), t.Qtype(), CLASS_IN), rrset,
                   if m.header.aa then Answer else Authority, false)
    ensures PathStored(inserts, path, if m.header.aa then Answer else Authority)
  {
    hide Collect, InZone, CacheGlue, NextServer, Step, Along, EndOf, NoAnswer;
    var f := FilterToBailiwick(m, t.zone);
    var t' := Followed(t, path);
    rrset := Collect(f.answers, t'.qname, t.Qtype());
    var mid := ChaseAlong(ctx, t, f, [], path);
    assert [] + mid == mid;
    var ins := Insert(QKey(t'.qname, t.Qtype(), CLASS_IN), Entry(rrset, AnswerRank(f), false), MinTtl(rrset), t.zone,
                      m.header.aa);
    var glue := if t.Qtype() == TYPE_NS then CacheGlue(t.zone, f, rrset) else [];
    assert ChaseAnswers(ctx, t', f, mid) == Found(t', rrset, mid + [ins] + glue);
    inserts := mid + [ins] + glue;
    StoredBy(inserts, ins);
    AllStored(mid, inserts, path, AnswerRank(f));
    hide ChaseAnswers, LeastTtl;
  }

  lemma AllStored(mid: seq<Insert>, all: seq<Insert>, path: seq<RR>, trust: TrustRank)
    requires (forall ins :: ins in mid ==> ins in all) && PathStored(mid, path, trust)
    ensures PathStored(all, path, trust)
  {
    hide RightTtl;
  }

  /** CNAMEs that lead out of what a response can be believed on: the task goes on
      from where they end, with the cache first. */
  lemma ChainGoesOn(ctx: Context, t: Task, m: Message, path: seq<RR>)
    requires Bounded(ctx.cfg, t) && ZoneAbove(t) && Heard(m) && path != []
    requires var answers := InZone(m.answers, t.zone);
      && Along(answers, t.qname, path, t.Qtype()) && t.hops + |path| <= ctx.cfg.maxCname
      && Collect(answers, EndOf(t.qname, path), t.Qtype()) == []
      && Collect(answers, EndOf(t.qname, path), TYPE_CNAME) == []
    ensures OnReply(ctx, t, Reply(m)).verdict == Step(ctx, Followed(t, path))
  {
    hide Collect, InZone, CacheGlue, NextServer, Step, Along, EndOf, NoAnswer;
    var f := FilterToBailiwick(m, t.zone);
    var t' := Followed(t, path);
    var mid := ChaseAlong(ctx, t, f, [], path);
    assert [] + mid == mid;
    assert ChaseAnswers(ctx, t', f, mid) == Open(t', mid);
    assert t'.chain[|t.chain|..] == path && t.chain[|t.chain|..] == [];
    hide ChaseAnswers;
  }

  lemma Unanswered(ctx: Context, t: Task, m: Message)
    requires Bounded(ctx.cfg, t) && ZoneAbove(t) && Heard(m) && NoRecords(t, m)
    ensures OnReply(ctx, t, Reply(m)) == NoAnswer(ctx, t, FilterToBailiwick(m, t.zone))
  {
    InZoneCollects(m.answers, t.zone, t.qname, t.Qtype());
    InZoneCollects(m.answers, t.zone, t.qname, TYPE_CNAME);
    var f := FilterToBailiwick(m, t.zone);
    assert ChaseAnswers(ctx, t, f, []) == Open(t, []);
    hide Collect, InZone, MinTtl, CacheGlue, NextServer, Step, NoAnswer;
  }

  /** A name that does not exist: the answer says so, with the proof if there is
      one in the zone, and then it is remembered. */
  lemma NxDomainServed(ctx: Context, t: Task, m: Message)
    requires Bounded(ctx.cfg, t) && ZoneAbove(t) && Heard(m) && NoRecords(t, m) && m.header.rcode == RCODE_NXDOMAIN
    ensures var soa, r := FindSoa(InZone(m.authority, t.zone), t.qname), OnReply(ctx, t, Reply(m));
      && r.verdict == Done(Resolved(RCODE_NXDOMAIN, t.chain, soa))
      && if soa == [] then r.inserts == []
         else Stored(r.inserts, QKey(t.qname, NXDOMAIN_TYPE, CLASS_IN), soa, Authority, true)
  {
    hide OnReply, FindSoa, InZone, Collect, NextServer, Refer, LeastTtl;
    Unanswered(ctx, t, m);
    assert t.chain + [] == t.chain;
    var soa, f := FindSoa(InZone(m.authority, t.zone), t.qname), FilterToBailiwick(m, t.zone);
    if soa != [] { StoredBy(NegativeInsert(t, f, NXDOMAIN_TYPE, soa), NegativeInsert(t, f, NXDOMAIN_TYPE, soa)[0]); }
  }

  /** An answer with no records, from the authority or with an SOA to show: the name
      has none of this type, and that too is remembered if there is proof. */
  lemma NoDataServed(ctx: Context, t: Task, m: Message)
    requires Bounded(ctx.cfg, t) && ZoneAbove(t) && Heard(m) && NoRecords(t, m) && m.header.rcode == RCODE_NOERROR
    requires m.header.aa || (ReferralNs(InZone(m.authority, t.zone)) == []
                             && FindSoa(InZone(m.authority, t.zone), t.qname) != [])
    ensures var soa, r := FindSoa(InZone(m.authority, t.zone), t.qname), OnReply(ctx, t, Reply(m));
      && r.verdict == Done(Resolved(RCODE_NOERROR, t.chain, soa))
      && if soa == [] then r.inserts == []
         else Stored(r.inserts, QKey(t.qname, t.Qtype(), CLASS_IN), soa, Authority, true)
  {
    hide OnReply, FindSoa, InZone, Collect, NextServer, Refer, ReferralNs, LeastTtl;
    Unanswered(ctx, t, m);
    assert t.chain + [] == t.chain;
    var soa, f := FindSoa(InZone(m.authority, t.zone), t.qname), FilterToBailiwick(m, t.zone);
    if soa != [] { StoredBy(NegativeInsert(t, f, t.Qtype(), soa), NegativeInsert(t, f, t.Qtype(), soa)[0]); }
  }

  // ─── Referrals ────────────────────────────────────────────────────────────

  /** A referral toward the name is remembered, name servers and glue alike; but
      one more than is allowed fails. */
  lemma ReferralLearnt(ctx: Context, t: Task, m: Message, ns: seq<RR>)
    requires Bounded(ctx.cfg, t) && ZoneAbove(t) && Heard(m) && NoRecords(t, m)
    requires m.header.rcode == RCODE_NOERROR && !m.header.aa && ns == ReferralNs(InZone(m.authority, t.zone))
    requires ns != []
    requires Downward(t, ns[0].name.labels)
    ensures var r := OnReply(ctx, t, Reply(m));
      if t.referrals as int + 1 < 0x1_0000 && t.referrals as int + 1 > ctx.cfg.maxReferrals then
        r.verdict == Done(Failed(MaxDepthExceeded))
      else
        && Stored(r.inserts, QKey(ns[0].name.labels, TYPE_NS, CLASS_IN), ns, Authority, false)
        && forall x :: x in ns && x.rdata.RDataNS? ==>
          GlueStored(r.inserts, InZone(m.additional, t.zone), x.rdata.nsdname.labels)
  {
    hide OnReply, InZone, Collect, ReferralNs, FindSoa, EnterAndAsk, CacheGlue, LeastTtl;
    Unanswered(ctx, t, m);
    var f := FilterToBailiwick(m, t.zone);
    var r := OnReply(ctx, t, Reply(m));
    assert r == Refer(ctx, t, f, ns);
    if (t.referrals as int + 1) % 0x1_0000 <= ctx.cfg.maxReferrals {
      var ins := Insert(QKey(ns[0].name.labels, TYPE_NS, CLASS_IN), Entry(ns, Authority, false), MinTtl(ns), t.zone,
                        m.header.aa);
      assert r.inserts == [ins] + CacheGlue(t.zone, f, ns);
      assert LeastTtl(ns, MinTtl(ns)) by { LeastIs(ns); }
      StoredBy(r.inserts, ins);
      forall x | x in ns && x.rdata.RDataNS?
        ensures GlueStored(r.inserts, f.additional, x.rdata.nsdname.labels)
      {
        GlueIsStored(t.zone, f, ns, x);
        GlueMore(CacheGlue(t.zone, f, ns), r.inserts, f.additional, x.rdata.nsdname.labels);
      }
    }
  }

  lemma LeastIs(rrs: seq<RR>)
    requires rrs != []
    ensures LeastTtl(rrs, MinTtl(rrs))
  {
  }

  /** The addresses a response gives for a name server, if any, are written. */
  ghost predicate GlueStored(inserts: seq<Insert>, additional: seq<RR>, name: Dom) {
    Collect(additional, name, TYPE_A) != [] ==>
      Stored(inserts, QKey(name, TYPE_A, CLASS_IN), Collect(additional, name, TYPE_A), Glue, false)
  }

  lemma GlueMore(some: seq<Insert>, all: seq<Insert>, additional: seq<RR>, name: Dom)
    requires GlueStored(some, additional, name) && forall ins :: ins in some ==> ins in all
    ensures GlueStored(all, additional, name)
  {
    hide Collect, RightTtl;
  }

  lemma {:induction false} GlueIsStored(zone: Dom, m: Message, ns: seq<RR>, x: RR)
    requires x in ns && x.rdata.RDataNS?
    ensures GlueStored(CacheGlue(zone, m, ns), m.additional, x.rdata.nsdname.labels)
  {
    hide Collect, GlueStored, MinTtl;
    var rest := CacheGlue(zone, m, ns[1..]);
    if ns[0].rdata.RDataNS? && ns[0].rdata.nsdname.labels == x.rdata.nsdname.labels {
      FirstGlue(zone, m, ns);
    } else {
      assert x in ns[1..];
      GlueIsStored(zone, m, ns[1..], x);
      GlueMore(rest, CacheGlue(zone, m, ns), m.additional, x.rdata.nsdname.labels);
    }
  }

  lemma FirstGlue(zone: Dom, m: Message, ns: seq<RR>)
    requires ns != [] && ns[0].rdata.RDataNS?
    ensures GlueStored(CacheGlue(zone, m, ns), m.additional, ns[0].rdata.nsdname.labels)
  {
    var target := ns[0].rdata.nsdname.labels;
    var glue := Collect(m.additional, target, TYPE_A);
    hide Collect;
    if glue != [] {
      var ins := Insert(QKey(target, TYPE_A, CLASS_IN), Entry(glue, Glue, false), MinTtl(glue), zone, m.header.aa);
      assert ins in CacheGlue(zone, m, ns);
      LeastIs(glue);
      StoredBy(CacheGlue(zone, m, ns), ins);
    }
  }

  // ─── From the cache ───────────────────────────────────────────────────────

  /** A chain of CNAMEs in the cache, each an authoritative answer, where nothing
      else is known of the names on the way. */
  predicate CachedAlong(env: Env, t: Task, path: seq<RR>, i: nat)
    requires i <= |path| && t.hops + |path| <= 254
    decreases |path| - i
  {
    i < |path| ==>
      var name, hop := EndOf(t.qname, path[..i]), t.hops + i;
      var hit := env.look(AskAnswer(hop), QKey(name, t.Qtype(), CLASS_IN));
      var cname := env.look(AskCname(hop), QKey(name, TYPE_CNAME, CLASS_IN));
      && t.Qtype() != TYPE_CNAME && env.look(AskNx(hop), QKey(name, NXDOMAIN_TYPE, CLASS_IN)) == None
      && (hit.Some? ==> !hit.value.negative && hit.value.trust != Answer)
      && cname.Some? && !cname.value.negative && cname.value.trust == Answer && cname.value.records != []
      && cname.value.records[0] == path[i] && path[i].rdata.RDataCNAME? && CachedAlong(env, t, path, i + 1)
  }

  lemma {:induction false} EndSnoc(start: Dom, path: seq<RR>, i: nat)
    requires i < |path| && path[i].rdata.RDataCNAME?
    ensures EndOf(start, path[..i + 1]) == path[i].rdata.target.labels
    decreases i
  {
    assert path[..i + 1][1..] == path[1..][..i];
    if i == 0 {
      assert path[..1][1..] == [];
    } else {
      EndSnoc(if path[0].rdata.RDataCNAME? then path[0].rdata.target.labels else [], path[1..], i - 1);
      assert path[1..][..i - 1 + 1] == path[1..][..i];
    }
  }

  lemma StepOn(ctx: Context, t: Task, cname: RR, t': Task)
    requires Bounded(ctx.cfg, t) && FollowCname(ctx.cfg, t, cname) == Some(t') && t.Qtype() != TYPE_CNAME
    requires t'.hops == t.hops + 1
    requires ctx.env.look(AskNx(t.hops), QKey(t.qname, NXDOMAIN_TYPE, CLASS_IN)) == None
    requires var hit := ctx.env.look(AskAnswer(t.hops), QKey(t.qname, t.Qtype(), CLASS_IN));
      hit.Some? ==> !hit.value.negative && hit.value.trust != Answer
    requires var c := ctx.env.look(AskCname(t.hops), QKey(t.qname, TYPE_CNAME, CLASS_IN));
      c.Some? && !c.value.negative && c.value.trust == Answer && c.value.records != [] && c.value.records[0] == cname
    ensures Step(ctx, t) == Step(ctx, t')
  {
    hide FollowCname, NextServer, ClosestZone;
  }

  lemma FollowedOn(cfg: Config, t: Task, path: seq<RR>, i: nat)
    requires i < |path| && path[i].rdata.RDataCNAME? && t.hops + |path| <= cfg.maxCname <= 254
    ensures FollowCname(cfg, Followed(t, path[..i]), path[i]) == Some(Followed(t, path[..i + 1]))
  {
    hide EndOf;
    EndSnoc(t.qname, path, i);
    assert path[..i + 1] == path[..i] + [path[i]];
    assert t.chain + path[..i] + [path[i]] == t.chain + path[..i + 1];
  }

  lemma {:induction false} StepAlong(ctx: Context, t: Task, path: seq<RR>, i: nat)
    requires t.hops + |path| <= ctx.cfg.maxCname <= 254 && i <= |path| && CachedAlong(ctx.env, t, path, i)
    ensures Step(ctx, Followed(t, path[..i])) == Step(ctx, Followed(t, path))
    decreases |path| - i
  {
    hide Step, EndOf, FollowCname;
    if i == |path| {
      assert path[..i] == path;
    } else {
      FollowedOn(ctx.cfg, t, path, i);
      StepOn(ctx, Followed(t, path[..i]), path[i], Followed(t, path[..i + 1]));
      StepAlong(ctx, t, path, i + 1);
    }
  }

  /** What the cache settles is answered from it, at the end of cached CNAMEs or of
      none: the records, if they are an authoritative answer's; that there are
      none; or that there is no such name. */
  lemma CacheServes(ctx: Context, t: Task, path: seq<RR>)
    requires t.hops + |path| <= ctx.cfg.maxCname <= 254 && CachedAlong(ctx.env, t, path, 0)
    ensures Settled(ctx, t, EndOf(t.qname, path), t.hops + |path|, t.chain + path)
  {
    hide Step, CachedAlong, EndOf, Settled;
    assert path[..0] == [] && t.chain + [] == t.chain;
    assert EndOf(t.qname, []) == t.qname by { NoPath(t.qname); }
    assert Followed(t, []) == t;
    StepAlong(ctx, t, path, 0);
    StepSettles(ctx, Followed(t, path));
    SameSettled(ctx, t, Followed(t, path));
  }

  /** What a step makes of what is cached for a name, after a chain. */
  ghost predicate Settled(ctx: Context, t: Task, name: Dom, hop: nat, chain: seq<RR>)
    requires Bounded(ctx.cfg, t)
  {
    var nx := ctx.env.look(AskNx(hop), QKey(name, NXDOMAIN_TYPE, CLASS_IN));
    var hit := ctx.env.look(AskAnswer(hop), QKey(name, t.Qtype(), CLASS_IN));
    && (nx.Some? ==> Step(ctx, t) == Done(Resolved(RCODE_NXDOMAIN, chain, nx.value.records)))
    && (nx.None? && hit.Some? && hit.value.negative ==>
          Step(ctx, t) == Done(Resolved(RCODE_NOERROR, chain, hit.value.records)))
    && (nx.None? && hit.Some? && !hit.value.negative && hit.value.trust == Answer ==>
          Step(ctx, t) == Done(Resolved(RCODE_NOERROR, chain + hit.value.records, [])))
  }

  lemma StepSettles(ctx: Context, t: Task)
    requires Bounded(ctx.cfg, t)
    ensures Settled(ctx, t, t.qname, t.hops, t.chain)
  {
    hide NextServer, ClosestZone, FollowCname;
    assert t.chain + [] == t.chain;
  }

  lemma SameSettled(ctx: Context, t: Task, t': Task)
    requires Bounded(ctx.cfg, t) && Bounded(ctx.cfg, t') && t.question == t'.question && Step(ctx, t) == Step(ctx, t')
    requires Settled(ctx, t', t'.qname, t'.hops, t'.chain)
    ensures Settled(ctx, t, t'.qname, t'.hops, t'.chain)
  {
    hide Step;
  }

  lemma NoPath(start: Dom)
    ensures EndOf(start, []) == start
  {
  }

  // ─── Asking again ─────────────────────────────────────────────────────────

  /** The same server deserves another query: its answer was cut short or perhaps
      forged, over UDP, or it does not echo letter case. */
  predicate SameAgain(t: Task, reply: Reply) {
    match reply
    case NoReply(e) => e == SpoofSuspected || e == CaseMismatch
    case Reply(m) => m.header.tc && !t.overTcp
  }

  /** A response that neither answers nor refers to a zone nearer the name. */
  predicate Lame(t: Task, m: Message) {
    && ZoneAbove(t) && Heard(m) && m.header.rcode == RCODE_NOERROR && !m.header.aa && NoRecords(t, m)
    && var ns := ReferralNs(InZone(m.authority, t.zone));
       if ns == [] then FindSoa(InZone(m.authority, t.zone), t.qname) == [] else !Downward(t, ns[0].name.labels)
  }

  /** The server is of no help. */
  predicate NoHelp(t: Task, reply: Reply) {
    match reply
    case NoReply(e) => e == UpstreamTimeout || e == NetworkError
    case Reply(m) => if m.header.tc then t.overTcp else Refused(m) || Lame(t, m)
  }

  lemma UntriedAsked(ctx: Context, t: Task)
    requires PicksMember(ctx.env) && ctx.queries < ctx.cfg.maxQueries && (exists a :: a in t.servers && a !in t.tried)
    ensures var v := NextServer(ctx, t);
      && v.Query? && v.t.asked in t.servers && v.t.asked !in t.tried && !v.t.overTcp
      && v.t.sent0x20 == (ctx.cfg.use0x20 && v.t.asked !in ctx.noCase)
  {
    var untried := WithoutAll(t.servers, t.tried);
    assert untried != [];
    hide WithoutAll, NextGlueless;
  }

  lemma AnotherAsked(ctx: Context, t: Task, reply: Reply)
    requires Bounded(ctx.cfg, t) && PicksMember(ctx.env) && ctx.queries < ctx.cfg.maxQueries
    requires NoHelp(t, reply) && (exists a :: a in t.servers && a !in t.tried)
    ensures var v := OnReply(ctx, t, reply).verdict;
      && v.Query? && v.t.asked in t.servers && v.t.asked !in t.tried && !v.t.overTcp
      && v.t.sent0x20 == (ctx.cfg.use0x20 && v.t.asked !in ctx.noCase)
  {
    if reply.Reply? && !reply.msg.header.tc && Lame(t, reply.msg) { Unanswered(ctx, t, reply.msg); }
    UntriedAsked(ctx, t);
    UntriedAsked(ctx, t.(timedOut := t.timedOut + [t.asked]));
    hide NextServer, SendQuery, Believe, PicksMember;
  }

  lemma SameAsked(ctx: Context, t: Task, reply: Reply)
    requires Bounded(ctx.cfg, t) && ctx.queries < ctx.cfg.maxQueries && SameAgain(t, reply)
    ensures var r := OnReply(ctx, t, reply);
      && r.verdict.Query? && r.verdict.t.asked == t.asked && r.verdict.t.overTcp == (reply != NoReply(CaseMismatch))
      && (reply == NoReply(CaseMismatch) ==> !r.verdict.t.sent0x20 && t.asked in r.noCase)
  {
    hide NextServer, Believe, Without;
  }

  /** In no state does a task give up while it has a query left and another way to
      use it: the same server over TCP, or in plain letter case for good, or else
      a server of the zone it has not tried. It spends one query on it. */
  lemma NeverGivesUp(cfg: Config, st: State, id: nat, reply: Reply, env: Env) returns (t: Task, st': State)
    requires EventOk(cfg, st, Respond(id, reply, env)) && Spent(st, st.nodes[id].root) < cfg.maxQueries
    requires SameAgain(st.nodes[id].t, reply)
             || (NoHelp(st.nodes[id].t, reply) && exists a :: a in st.nodes[id].t.servers && a !in st.nodes[id].t.tried)
    ensures st' == StepEvent(cfg, st, Respond(id, reply, env)) && id in st'.nodes
    ensures st'.nodes == st.nodes[id := st.nodes[id].(t := t)]
    ensures Spent(st', st.nodes[id].root) == Spent(st, st.nodes[id].root) + 1
    ensures var t0 := st.nodes[id].t;
      if NoHelp(t0, reply) then
        && t.asked in t0.servers && t.asked !in t0.tried && !t.overTcp
        && t.sent0x20 == (cfg.use0x20 && t.asked !in st.noCase)
      else && t.asked == t0.asked && t.overTcp == (reply != NoReply(CaseMismatch))
           && (reply == NoReply(CaseMismatch) ==> !t.sent0x20 && t0.asked in st'.noCase)
  {
    hide OnReply, Said, Honest, NoHelp, SameAgain, PicksMember;
    var n := st.nodes[id];
    var ctx := ContextAt(cfg, env, st, n.root);
    Either(n.t, reply);
    if NoHelp(n.t, reply) {
      AnotherAsked(ctx, n.t, reply);
    } else {
      SameAsked(ctx, n.t, reply);
    }
    t := OnReply(ctx, n.t, reply).verdict.t;
    st' := StepEvent(cfg, st, Respond(id, reply, env));
  }

  lemma Either(t: Task, reply: Reply)
    ensures !(SameAgain(t, reply) && NoHelp(t, reply))
  {
  }
}
