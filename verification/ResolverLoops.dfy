/** The loops of core/resolver/recursive_resolver.cpp, each proved to compute the
    function that the rest of the model reasons about. */
module ResolverLoops {
  import opened DnsTypes
  import opened ResolverTask

  /** collect */
  method CollectAll(section: seq<RR>, name: Dom, rtype: u16) returns (out: seq<RR>)
    ensures out == Collect(section, name, rtype)
  {
    out := [];
    var i := 0;
    assert section[0..] == section;
    while i < |section|
      invariant 0 <= i <= |section| && out + Collect(section[i..], name, rtype) == Collect(section, name, rtype)
    {
      var rr := section[i];
      assert section[i..][0] == rr && section[i..][1..] == section[i + 1..];
      if rr.cls == CLASS_IN && rr.rtype == rtype && rr.name.labels == name { out := out + [rr]; }
      i := i + 1;
    }
    assert section[i..] == [];
  }

  /** std::erase_if over one section of a response. */
  method KeepInZone(section: seq<RR>, zone: Dom) returns (out: seq<RR>)
    ensures out == InZone(section, zone)
  {
    out := [];
    var i := 0;
    assert section[0..] == section;
    while i < |section|
      invariant 0 <= i <= |section| && out + InZone(section[i..], zone) == InZone(section, zone)
    {
      var rr := section[i];
      assert section[i..][0] == rr && section[i..][1..] == section[i + 1..];
      if IsSuffix(zone, rr.name.labels) { out := out + [rr]; }
      i := i + 1;
    }
    assert section[i..] == [];
  }

  method AddressesOf(rrs: seq<RR>) returns (out: seq<Addr>)
    ensures out == Ipv4Addresses(rrs)
  {
    out := [];
    var i := 0;
    assert rrs[0..] == rrs;
    while i < |rrs|
      invariant 0 <= i <= |rrs| && out + Ipv4Addresses(rrs[i..]) == Ipv4Addresses(rrs)
    {
      assert rrs[i..][0] == rrs[i] && rrs[i..][1..] == rrs[i + 1..];
      if rrs[i].rdata.RDataA? { out := out + [rrs[i].rdata.addr]; }
      i := i + 1;
    }
    assert rrs[i..] == [];
  }

  /** add_server, for each address. */
  method AddEach(servers: seq<Addr>, more: seq<Addr>) returns (out: seq<Addr>)
    ensures out == AddServers(servers, more)
  {
    out := servers;
    var i := 0;
    assert more[0..] == more;
    while i < |more|
      invariant 0 <= i <= |more| && AddServers(out, more[i..]) == AddServers(servers, more)
    {
      assert more[i..][0] == more[i] && more[i..][1..] == more[i + 1..];
      if more[i] !in out { out := out + [more[i]]; }
      i := i + 1;
    }
    assert more[i..] == [];
  }

  lemma WithoutAllStep(s: seq<Addr>, xs: seq<Addr>, i: nat)
    requires i < |s|
    ensures WithoutAll(s[i..], xs) == (if s[i] in xs then [] else [s[i]]) + WithoutAll(s[i + 1..], xs)
  {
    assert s[i..][0] == s[i] && s[i..][1..] == s[i + 1..];
  }

  lemma WithoutAllNone(xs: seq<Addr>)
    ensures WithoutAll([], xs) == []
  {
  }

  method UntriedOf(servers: seq<Addr>, tried: seq<Addr>) returns (out: seq<Addr>)
    ensures out == WithoutAll(servers, tried)
  {
    hide WithoutAll;
    out := [];
    var i := 0;
    assert servers[0..] == servers;
    while i < |servers|
      invariant 0 <= i <= |servers| && out + WithoutAll(servers[i..], tried) == WithoutAll(servers, tried)
    {
      WithoutAllStep(servers, tried, i);
      if servers[i] !in tried { out := out + [servers[i]]; }
      i := i + 1;
    }
    assert servers[i..] == [];
    WithoutAllNone(tried);
  }

  /** The loop of enter_zone over the name servers. */
  method ServersOf(env: Env, t0: Task, ns: seq<RR>, glue: seq<RR>) returns (t: Task)
    ensures t == AddNameServers(env, t0, ns, glue, 0)
  {
    hide Collect, Ipv4Addresses, AddServers;
    t := t0;
    var i := 0;
    while i < |ns|
      invariant 0 <= i <= |ns| && AddNameServers(env, t, ns, glue, i) == AddNameServers(env, t0, ns, glue, 0)
    {
      if ns[i].rdata.RDataNS? {
        var target := ns[i].rdata.nsdname.labels;
        var glued := CollectAll(glue, target, TYPE_A);
        var addresses := AddressesOf(glued);
        if addresses == [] {
          var cached := env.look(AskAddress(i), QKey(target, TYPE_A, CLASS_IN));
          if cached.Some? && !cached.value.negative { addresses := AddressesOf(cached.value.records); }
        }
        if addresses == [] { t := t.(unresolved := t.unresolved + [target]); }
        var servers := AddEach(t.servers, addresses);
        t := t.(servers := servers);
      }
      i := i + 1;
    }
  }

  method Enter(ctx: Context, t0: Task, zone: Dom, ns: seq<RR>, glue: seq<RR>) returns (t: Task)
    ensures t == EnterZone(ctx, t0, zone, ns, glue)
  {
    hide AddNameServers, AddServers, Ipv4Addresses;
    t := ServersOf(ctx.env, ResetZone(t0, zone), ns, glue);
    if t.zone == [] {
      var hints := AddressesOf(ctx.cfg.hintAddresses);
      var servers := AddEach(t.servers, hints);
      t := t.(servers := servers);
    }
  }

  /** start_at_closest_zone: up from the name until a zone is known. */
  method StartAtClosestZone(ctx: Context, t0: Task) returns (t: Task)
    ensures t == ClosestZone(ctx, t0, t0.qname)
  {
    hide EnterZone, AddServers;
    var z := t0.qname;
    while true
      invariant ClosestZone(ctx, t0, z) == ClosestZone(ctx, t0, t0.qname)
      decreases |z|
    {
      if z in ctx.cfg.stubs {
        t := ResetZone(t0, z);
        var servers := AddEach(t.servers, ctx.cfg.stubs[z]);
        t := t.(servers := servers);
        return;
      }
      var ns := ctx.env.look(AskZone(z), QKey(z, TYPE_NS, CLASS_IN));
      if ns.Some? && !ns.value.negative && ns.value.records != [] {
        t := Enter(ctx, t0, z, ns.value.records, []);
        return;
      }
      if z == [] { break; }
      z := z[1..];
    }
    t := Enter(ctx, t0, [], ctx.cfg.hintNs, []);
  }

  /** The loop of next_server over the names without glue. */
  method Glueless(cfg: Config, t0: Task) returns (t: Task, name: Option<Dom>)
    ensures (t, name) == NextGlueless(cfg, t0)
  {
    t := t0;
    while t.unresolved != [] && t.glueless < cfg.maxGlueless
      invariant NextGlueless(cfg, t) == NextGlueless(cfg, t0)
      decreases |t.unresolved|
    {
      var n := t.unresolved[0];
      var t' := t.(unresolved := t.unresolved[1..]);
      if WouldCycle(t, QKey(n, TYPE_A, CLASS_IN)) || |t.ancestry| >= MAX_SUBQUERY_DEPTH {
        t := t';
        continue;
      }
      t := t'.(glueless := t.glueless + 1);
      return t, Some(n);
    }
    name := None;
  }

  /** next_server, which begins again for a retry round. */
  method ChooseServer(ctx: Context, t0: Task) returns (v: Verdict)
    ensures v == NextServer(ctx, t0)
  {
    hide NextGlueless, WithoutAll, SendQuery;
    var t := t0;
    while true
      invariant NextServer(ctx, t) == NextServer(ctx, t0)
      decreases if t.retryRounds <= MAX_RETRY_ROUNDS then MAX_RETRY_ROUNDS - t.retryRounds + 1 else 0
    {
      var untried := UntriedOf(t.servers, t.tried);
      if untried != [] { return SendQuery(ctx, t, ctx.env.pick(untried), false); }
      var t', name := Glueless(ctx.cfg, t);
      GluelessSameRounds(ctx.cfg, t);
      if name.Some? { return Lookup(t', Question(Name(name.value, name.value), TYPE_A, CLASS_IN)); }
      if t'.timedOut == [] || t'.retryRounds >= MAX_RETRY_ROUNDS { return Done(Failed(AllServersFailed)); }
      var tried := UntriedOf(t'.tried, t'.timedOut);
      t := t'.(retryRounds := t'.retryRounds + 1, tried := tried, timedOut := []);
    }
  }

  lemma GluelessSameRounds(cfg: Config, t: Task)
    ensures NextGlueless(cfg, t).0.retryRounds == t.retryRounds
  {
  }

  /** The loop of step over CNAMEs in the cache. */
  method StepOver(ctx: Context, t0: Task) returns (v: Verdict)
    requires Bounded(ctx.cfg, t0)
    ensures v == Step(ctx, t0)
  {
    hide NextServer, ClosestZone;
    var t := t0;
    while true
      invariant Bounded(ctx.cfg, t) && Step(ctx, t) == Step(ctx, t0)
      decreases 255 - t.hops
    {
      var nx := ctx.env.look(AskNx(t.hops), QKey(t.qname, NXDOMAIN_TYPE, CLASS_IN));
      if nx.Some? { return Done(OutcomeOf(t, RCODE_NXDOMAIN, [], nx.value.records)); }
      var hit := ctx.env.look(AskAnswer(t.hops), QKey(t.qname, t.Qtype(), CLASS_IN));
      if hit.Some? && hit.value.negative { return Done(OutcomeOf(t, RCODE_NOERROR, [], hit.value.records)); }
      if hit.Some? && hit.value.trust == Answer { return Done(OutcomeOf(t, RCODE_NOERROR, hit.value.records, [])); }
      if t.Qtype() == TYPE_CNAME { break; }
      var cname := ctx.env.look(AskCname(t.hops), QKey(t.qname, TYPE_CNAME, CLASS_IN));
      if !Usable(cname) || cname.value.records == [] { break; }
      var next := FollowCname(ctx.cfg, t, cname.value.records[0]);
      if next.None? { return Done(Failed(MaxCnameChainExceeded)); }
      t := next.value;
    }
    var t' := StartAtClosestZone(ctx, t);
    v := ChooseServer(ctx, t');
  }

  /** cache_glue */
  method GlueInserts(zone: Dom, m: Message, ns: seq<RR>) returns (out: seq<Insert>)
    ensures out == CacheGlue(zone, m, ns)
  {
    hide Collect, MinTtl;
    out := [];
    var i := 0;
    assert ns[0..] == ns;
    while i < |ns|
      invariant 0 <= i <= |ns| && out + CacheGlue(zone, m, ns[i..]) == CacheGlue(zone, m, ns)
    {
      assert ns[i..][0] == ns[i] && ns[i..][1..] == ns[i + 1..];
      if ns[i].rdata.RDataNS? {
        var target := ns[i].rdata.nsdname.labels;
        var glue := CollectAll(m.additional, target, TYPE_A);
        if glue != [] {
          out := out + [Insert(QKey(target, TYPE_A, CLASS_IN), Entry(glue, Glue, false), MinTtl(glue), zone,
                               m.header.aa)];
        }
      }
      i := i + 1;
    }
    assert ns[i..] == [];
  }

  /** The loop of handle_response over the answer section's CNAMEs. */
  method FollowAnswers(ctx: Context, t0: Task, m: Message) returns (c: Chase)
    requires Bounded(ctx.cfg, t0)
    ensures c == ChaseAnswers(ctx, t0, m, [])
  {
    hide Collect, MinTtl, CacheGlue;
    var t, inserts := t0, [];
    while true
      invariant Bounded(ctx.cfg, t) && ChaseAnswers(ctx, t, m, inserts) == ChaseAnswers(ctx, t0, m, [])
      decreases 255 - t.hops
    {
      var rrset := CollectAll(m.answers, t.qname, t.Qtype());
      if rrset != [] {
        inserts := inserts + [Insert(QKey(t.qname, t.Qtype(), CLASS_IN), Entry(rrset, AnswerRank(m), false),
                                     MinTtl(rrset), t.zone, m.header.aa)];
        var glue := [];
        if t.Qtype() == TYPE_NS { glue := GlueInserts(t.zone, m, rrset); }
        return Found(t, rrset, inserts + glue);
      }
      if t.Qtype() == TYPE_CNAME { break; }
      var cname := CollectAll(m.answers, t.qname, TYPE_CNAME);
      if cname == [] { break; }
      inserts := inserts + [Insert(QKey(t.qname, TYPE_CNAME, CLASS_IN), Entry([cname[0]], AnswerRank(m), false),
                                   cname[0].ttl, t.zone, m.header.aa)];
      var next := FollowCname(ctx.cfg, t, cname[0]);
      if next.None? { return TooLong(inserts); }
      t := next.value;
    }
    c := Open(t, inserts);
  }

  // ─── Responses ────────────────────────────────────────────────────────────

  /** on_response */
  method OnResponse(ctx: Context, t: Task, reply: ResolverTask.Reply) returns (r: Reaction)
    requires Bounded(ctx.cfg, t)
    ensures r == OnReply(ctx, t, reply)
  {
    hide NextServer, SendQuery, OnMessage;
    match reply
    case NoReply(SpoofSuspected) => r := Plain(ctx, SendQuery(ctx, t, t.asked, true));
    case NoReply(CaseMismatch) =>
      var s := t.SentTo(t.asked);
      var t' := t.(tried := Without(t.tried, t.asked), sent := t.sent[t.asked := s.(wrongCase := s.wrongCase + 1)]);
      var ctx' := ctx.(noCase := ctx.noCase + {t.asked});
      r := Plain(ctx', SendQuery(ctx', t', t.asked, false));
    case NoReply(UpstreamTimeout) =>
      var v := ChooseServer(ctx, t.(timedOut := t.timedOut + [t.asked]));
      r := Plain(ctx, v);
    case NoReply(NetworkError) =>
      var v := ChooseServer(ctx, t);
      r := Plain(ctx, v);
    case Reply(m) => r := HandleResponse(ctx, t, m);
  }

  /** handle_response, up to the bailiwick filter. */
  method HandleResponse(ctx: Context, t: Task, m: Message) returns (r: Reaction)
    requires Bounded(ctx.cfg, t)
    ensures r == OnMessage(ctx, t, m)
  {
    hide NextServer, SendQuery, Believe, InZone;
    if m.header.tc {
      if t.overTcp {
        var v := ChooseServer(ctx, t);
        return Plain(ctx, v);
      }
      return Plain(ctx, SendQuery(ctx, t, t.asked, true));
    }
    if m.header.rcode != RCODE_NOERROR && m.header.rcode != RCODE_NXDOMAIN {
      var v := ChooseServer(ctx, t);
      return Plain(ctx, v);
    }
    var answers := KeepInZone(m.answers, t.zone);
    var authority := KeepInZone(m.authority, t.zone);
    var additional := KeepInZone(m.additional, t.zone);
    r := ActOn(ctx, t, m.(answers := answers, authority := authority, additional := additional));
  }

  /** The rest of handle_response. */
  method ActOn(ctx: Context, t: Task, m: Message) returns (r: Reaction)
    requires Bounded(ctx.cfg, t)
    ensures r == Believe(ctx, t, m)
  {
    hide Step, ChaseAnswers, NextServer, EnterZone, FindSoa, ReferralNs, CacheGlue;
    var c := FollowAnswers(ctx, t, m);
    match c {
      case Found(t', rrset, inserts) => return Reaction(Done(OutcomeOf(t', RCODE_NOERROR, rrset, [])), inserts,
                                                        ctx.noCase);
      case TooLong(inserts) => return Reaction(Done(Failed(MaxCnameChainExceeded)), inserts, ctx.noCase);
      case Open(t', inserts) =>
        if t'.chain != t.chain {
          var v := StepOver(ctx, t');
          return Reaction(v, inserts, ctx.noCase);
        }
    }
    r := WithoutAnswer(ctx, t, m);
  }

  method WithoutAnswer(ctx: Context, t: Task, m: Message) returns (r: Reaction)
    ensures r == NoAnswer(ctx, t, m)
  {
    hide NextServer, EnterZone, FindSoa, ReferralNs, CacheGlue;
    var proof := FindSoa(m.authority, t.qname);
    var ns := if m.header.aa then [] else ReferralNs(m.authority);
    if m.header.rcode == RCODE_NXDOMAIN {
      return Reaction(Done(OutcomeOf(t, RCODE_NXDOMAIN, [], proof)), NegativeInsert(t, m, NXDOMAIN_TYPE, proof),
                      ctx.noCase);
    }
    if ns != [] {
      if !Downward(t, ns[0].name.labels) {
        var v := ChooseServer(ctx, t);
        return Plain(ctx, v);
      }
      r := FollowReferral(ctx, t, m, ns);
      return;
    }
    if m.header.aa || proof != [] {
      return Reaction(Done(OutcomeOf(t, RCODE_NOERROR, [], proof)), NegativeInsert(t, m, t.Qtype(), proof), ctx.noCase);
    }
    var v := ChooseServer(ctx, t);
    r := Plain(ctx, v);
  }

  method FollowReferral(ctx: Context, t: Task, m: Message, ns: seq<RR>) returns (r: Reaction)
    requires ns != []
    ensures r == Refer(ctx, t, m, ns)
  {
    hide NextServer, EnterZone, CacheGlue, MinTtl;
    var referrals: u16 := (t.referrals as int + 1) % 0x1_0000;
    if referrals > ctx.cfg.maxReferrals { return Plain(ctx, Done(Failed(MaxDepthExceeded))); }
    var child := ns[0].name.labels;
    var glue := GlueInserts(t.zone, m, ns);
    var t' := Enter(ctx, t.(referrals := referrals), child, ns, m.additional);
    var v := ChooseServer(ctx, t');
    var ins := Insert(QKey(child, TYPE_NS, CLASS_IN), Entry(ns, Authority, false), MinTtl(ns), t.zone, m.header.aa);
    r := Reaction(v, [ins] + glue, ctx.noCase);
  }
}
