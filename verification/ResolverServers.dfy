/** How a task treats the servers of one zone, whatever they answer: each is
    asked at most four times over UDP, and over TCP at most once for every UDP
    query that was not merely echoed in the wrong letter case. */
module ResolverServers {
  import opened DnsTypes
  import opened ResolverTask

  predicate NoDup<T(==)>(s: seq<T>) {
    forall i, j :: 0 <= i < j < |s| ==> s[i] != s[j]
  }

  /** What was sent to one server since the zone was entered. */
  predicate SentOk(t: Task, noCase: set<Addr>, a: Addr) {
    var s := t.SentTo(a);
    && s.wrongCase <= 1 && (s.wrongCase == 1 ==> a in noCase)
    && s.tcp + s.wrongCase <= s.udp
    && s.udp <= t.retryRounds + s.wrongCase + (if a in t.tried then 1 else 0)
  }

  /** What holds between callbacks, and while choosing whom to ask. */
  ghost predicate Disciplined(t: Task, noCase: set<Addr>) {
    && NoDup(t.servers) && NoDup(t.tried) && NoDup(t.timedOut)
    && (forall a :: a in t.tried ==> a in t.servers)
    && (forall a :: a in t.timedOut ==> a in t.tried)
    && t.retryRounds <= MAX_RETRY_ROUNDS
    && forall a {:trigger SentOk(t, noCase, a)} :: SentOk(t, noCase, a)
  }

  /** What also holds while a query is in flight. */
  predicate AskedOk(t: Task) {
    var s := t.SentTo(t.asked);
    && t.asked in t.tried && t.asked !in t.timedOut
    && (!t.overTcp ==> s.tcp + s.wrongCase + 1 <= s.udp)
    && (t.sent0x20 ==> !t.overTcp && s.wrongCase == 0)
  }

  /** The upstream client reports a case mismatch only for a query in random
      case, and suspects spoofing only over UDP (core/resolver/upstream.cpp). */
  predicate CanReply(t: Task, reply: Reply) {
    && (reply == NoReply(CaseMismatch) ==> t.sent0x20)
    && (reply == NoReply(SpoofSuspected) ==> !t.overTcp)
  }

  ghost predicate PicksMember(env: Env) {
    forall s :: s != [] ==> env.pick(s) in s
  }

  /** The limits a maintainer can rely on, read off the invariant. */
  lemma ServerLimits(t: Task, noCase: set<Addr>, a: Addr)
    requires Disciplined(t, noCase)
    ensures t.SentTo(a).udp <= 4
    ensures t.SentTo(a).tcp <= t.SentTo(a).udp - t.SentTo(a).wrongCase <= 3
  {
    assert SentOk(t, noCase, a);
  }

  // ─── Sequences without duplicates ─────────────────────────────────────────

  lemma {:induction false} AddServersNoDup(servers: seq<Addr>, more: seq<Addr>)
    requires NoDup(servers)
    ensures NoDup(AddServers(servers, more))
    decreases |more|
  {
    if more == [] {
    } else {
      AddServersNoDup(if more[0] in servers then servers else servers + [more[0]], more[1..]);
    }
  }

  lemma {:induction false} WithoutNoDup(s: seq<Addr>, x: Addr)
    requires NoDup(s)
    ensures NoDup(Without(s, x))
  {
    if s == [] {
    } else {
      WithoutNoDup(s[1..], x);
      assert s[0] !in s[1..];
      assert s[0] !in Without(s[1..], x);
    }
  }

  lemma {:induction false} WithoutAllNoDup(s: seq<Addr>, xs: seq<Addr>)
    requires NoDup(s)
    ensures NoDup(WithoutAll(s, xs))
  {
    if s == [] {
    } else {
      WithoutAllNoDup(s[1..], xs);
      assert s[0] !in s[1..];
      assert s[0] !in WithoutAll(s[1..], xs);
    }
  }

  // ─── Every step keeps the discipline ──────────────────────────────────────

  /** A verdict leaves its task disciplined, with a query in flight or not. */
  ghost predicate VerdictDisciplined(v: Verdict, noCase: set<Addr>) {
    match v
    case Query(t) => Disciplined(t, noCase) && AskedOk(t)
    case Lookup(t, _) => Disciplined(t, noCase)
    case Done(_) => true
  }

  lemma SendUdpDisciplined(ctx: Context, t: Task, a: Addr)
    requires Disciplined(t, ctx.noCase) && a in t.servers && a !in t.tried
    ensures VerdictDisciplined(SendQuery(ctx, t, a, false), ctx.noCase)
  {
    var v := SendQuery(ctx, t, a, false);
    if v.Query? {
      assert SentOk(t, ctx.noCase, a);
      forall x
        ensures SentOk(v.t, ctx.noCase, x)
      {
        assert SentOk(t, ctx.noCase, x);
      }
    }
  }

  lemma SendTcpDisciplined(ctx: Context, t: Task)
    requires Disciplined(t, ctx.noCase) && AskedOk(t) && !t.overTcp
    ensures VerdictDisciplined(SendQuery(ctx, t, t.asked, true), ctx.noCase)
  {
    var v := SendQuery(ctx, t, t.asked, true);
    if v.Query? {
      forall x
        ensures SentOk(v.t, ctx.noCase, x)
      {
        assert SentOk(t, ctx.noCase, x);
      }
    }
  }

  /** Another round: those that timed out count as not yet tried in it. */
  lemma RetryDisciplined(t: Task, noCase: set<Addr>) returns (t': Task)
    requires Disciplined(t, noCase) && t.retryRounds < MAX_RETRY_ROUNDS
    ensures t' == Retried(t)
    ensures Disciplined(t', noCase)
  {
    t' := Retried(t);
    WithoutAllNoDup(t.tried, t.timedOut);
    forall x
      ensures SentOk(t', noCase, x)
    {
      assert SentOk(t, noCase, x);
    }
  }

  lemma GluelessDisciplined(cfg: Config, t: Task, noCase: set<Addr>) returns (t': Task, name: Option<Dom>)
    requires Disciplined(t, noCase)
    ensures (t', name) == NextGlueless(cfg, t) && Disciplined(t', noCase) && t'.retryRounds == t.retryRounds
  {
    var r := NextGlueless(cfg, t);
    t', name := r.0, r.1;
    forall x
      ensures SentOk(t', noCase, x)
    {
      assert SentOk(t, noCase, x);
    }
  }

  lemma {:induction false} NextServerDisciplined(ctx: Context, t: Task) returns (v: Verdict)
    requires Disciplined(t, ctx.noCase) && PicksMember(ctx.env)
    ensures v == NextServer(ctx, t) && VerdictDisciplined(v, ctx.noCase)
    decreases MAX_RETRY_ROUNDS - t.retryRounds
  {
    var untried := WithoutAll(t.servers, t.tried);
    if untried != [] {
      var a := ctx.env.pick(untried);
      v := SendQuery(ctx, t, a, false);
      SendUdpDisciplined(ctx, t, a);
    } else {
      var t', name := GluelessDisciplined(ctx.cfg, t, ctx.noCase);
      if name.Some? {
        v := Lookup(t', Question(Name(name.value, name.value), TYPE_A, CLASS_IN));
      } else if t'.timedOut != [] && t'.retryRounds < MAX_RETRY_ROUNDS {
        var t'' := RetryDisciplined(t', ctx.noCase);
        v := NextServerDisciplined(ctx, t'');
        NextServerRetries(ctx, t, t', v);
      } else {
        v := Done(Failed(AllServersFailed));
      }
    }
  }

  /** The servers of a task that just entered a zone. */
  predicate JustEntered(t: Task) {
    NoDup(t.servers) && t.tried == [] && t.timedOut == [] && t.retryRounds == 0 && t.sent == map[]
  }

  lemma EnteredDisciplined(t: Task, noCase: set<Addr>)
    requires JustEntered(t)
    ensures Disciplined(t, noCase)
  {
  }

  lemma {:induction false} NameServersNoDup(env: Env, t: Task, ns: seq<RR>, glue: seq<RR>, i: nat)
    requires i <= |ns| && NoDup(t.servers)
    ensures NoDup(AddNameServers(env, t, ns, glue, i).servers)
    decreases |ns| - i
  {
    if i < |ns| {
      if !ns[i].rdata.RDataNS? {
        NameServersNoDup(env, t, ns, glue, i + 1);
      } else {
        var target := ns[i].rdata.nsdname.labels;
        var glued := Ipv4Addresses(Collect(glue, target, TYPE_A));
        var cached := env.look(AskAddress(i), QKey(target, TYPE_A, CLASS_IN));
        var addresses := if glued == [] && cached.Some? && !cached.value.negative
                         then Ipv4Addresses(cached.value.records) else glued;
        AddServersNoDup(t.servers, addresses);
        var t' := t.(unresolved := if addresses == [] then t.unresolved + [target] else t.unresolved,
                     servers := AddServers(t.servers, addresses));
        NameServersNoDup(env, t', ns, glue, i + 1);
      }
    }
  }

  lemma EnterZoneJustEntered(ctx: Context, t: Task, zone: Dom, ns: seq<RR>, glue: seq<RR>)
    ensures JustEntered(EnterZone(ctx, t, zone, ns, glue))
  {
    NameServersNoDup(ctx.env, ResetZone(t, zone), ns, glue, 0);
    var t' := AddNameServers(ctx.env, ResetZone(t, zone), ns, glue, 0);
    AddServersNoDup(t'.servers, Ipv4Addresses(ctx.cfg.hintAddresses));
  }

  lemma {:induction false} ClosestZoneJustEntered(ctx: Context, t: Task, z: Dom)
    ensures JustEntered(ClosestZone(ctx, t, z))
    decreases |z|
  {
    if z in ctx.cfg.stubs {
      AddServersNoDup([], ctx.cfg.stubs[z]);
    } else {
      var ns := ctx.env.look(AskZone(z), QKey(z, TYPE_NS, CLASS_IN));
      if ns.Some? && !ns.value.negative && ns.value.records != [] {
        EnterZoneJustEntered(ctx, t, z, ns.value.records, []);
      } else if z == [] {
        EnterZoneJustEntered(ctx, t, [], ctx.cfg.hintNs, []);
      } else {
        ClosestZoneJustEntered(ctx, t, z[1..]);
      }
    }
  }

  lemma {:induction false} StepDisciplined(ctx: Context, t: Task)
    requires Bounded(ctx.cfg, t) && PicksMember(ctx.env)
    ensures VerdictDisciplined(Step(ctx, t), ctx.noCase)
    decreases 255 - t.hops
  {
    var nx := ctx.env.look(AskNx(t.hops), QKey(t.qname, NXDOMAIN_TYPE, CLASS_IN));
    var hit := ctx.env.look(AskAnswer(t.hops), QKey(t.qname, t.Qtype(), CLASS_IN));
    var cname := ctx.env.look(AskCname(t.hops), QKey(t.qname, TYPE_CNAME, CLASS_IN));
    if nx.Some? || (hit.Some? && hit.value.negative) || Usable(hit) {
    } else if t.Qtype() != TYPE_CNAME && Usable(cname) && cname.value.records != [] {
      var next := FollowCname(ctx.cfg, t, cname.value.records[0]);
      if next.Some? {
        StepDisciplined(ctx, next.value);
      }
    } else {
      ClosestZoneJustEntered(ctx, t, t.qname);
      var t' := ClosestZone(ctx, t, t.qname);
      EnteredDisciplined(t', ctx.noCase);
      var v := NextServerDisciplined(ctx, t');
    }
  }

  lemma ChildDoneDisciplined(ctx: Context, t: Task, child: Outcome)
    requires Disciplined(t, ctx.noCase) && PicksMember(ctx.env)
    ensures VerdictDisciplined(ChildDone(ctx, t, child), ctx.noCase)
  {
    var t' := if child.Resolved? then t.(servers := AddServers(t.servers, Ipv4Addresses(child.answers))) else t;
    if child.Resolved? {
      AddServersNoDup(t.servers, Ipv4Addresses(child.answers));
      forall x
        ensures SentOk(t', ctx.noCase, x)
      {
        assert SentOk(t, ctx.noCase, x);
      }
    }
    var v := NextServerDisciplined(ctx, t');
  }

  lemma WrongCaseDisciplined(ctx: Context, t: Task)
    requires Disciplined(t, ctx.noCase) && AskedOk(t) && t.sent0x20
    ensures var s := t.SentTo(t.asked);
            var t' := t.(tried := Without(t.tried, t.asked),
                         sent := t.sent[t.asked := s.(wrongCase := s.wrongCase + 1)]);
            Disciplined(t', ctx.noCase + {t.asked}) && t'.asked in t'.servers && t'.asked !in t'.tried
  {
    var s := t.SentTo(t.asked);
    var t' := t.(tried := Without(t.tried, t.asked), sent := t.sent[t.asked := s.(wrongCase := s.wrongCase + 1)]);
    WithoutNoDup(t.tried, t.asked);
    forall x
      ensures SentOk(t', ctx.noCase + {t.asked}, x)
    {
      assert SentOk(t, ctx.noCase, x);
    }
  }

  lemma TimedOutDisciplined(t: Task, noCase: set<Addr>)
    requires Disciplined(t, noCase) && AskedOk(t)
    ensures Disciplined(t.(timedOut := t.timedOut + [t.asked]), noCase)
  {
    var t' := t.(timedOut := t.timedOut + [t.asked]);
    forall x
      ensures SentOk(t', noCase, x)
    {
      assert SentOk(t, noCase, x);
    }
  }

  lemma BelieveDisciplined(ctx: Context, t: Task, m: Message)
    requires Bounded(ctx.cfg, t) && PicksMember(ctx.env) && Disciplined(t, ctx.noCase)
    ensures VerdictDisciplined(Believe(ctx, t, m).verdict, ctx.noCase) && Believe(ctx, t, m).noCase == ctx.noCase
  {
    var c := ChaseAnswers(ctx, t, m, []);
    if c.Open? {
      if c.t.chain != t.chain {
        StepDisciplined(ctx, c.t);
      } else {
        NoAnswerDisciplined(ctx, t, m);
      }
    }
  }

  lemma NoAnswerDisciplined(ctx: Context, t: Task, m: Message)
    requires PicksMember(ctx.env) && Disciplined(t, ctx.noCase)
    ensures VerdictDisciplined(NoAnswer(ctx, t, m).verdict, ctx.noCase) && NoAnswer(ctx, t, m).noCase == ctx.noCase
  {
    var ns := if m.header.aa then [] else ReferralNs(m.authority);
    if m.header.rcode == RCODE_NXDOMAIN {
    } else if ns != [] && Downward(t, ns[0].name.labels) {
      var r := ReferDisciplined(ctx, t, m, ns);
    } else {
      var v := NextServerDisciplined(ctx, t);
    }
  }

  lemma ReferDisciplined(ctx: Context, t: Task, m: Message, ns: seq<RR>) returns (r: Reaction)
    requires PicksMember(ctx.env) && ns != []
    ensures r == Refer(ctx, t, m, ns) && VerdictDisciplined(r.verdict, ctx.noCase) && r.noCase == ctx.noCase
  {
    var t1 := t.(referrals := (t.referrals as int + 1) % 0x1_0000);
    if t1.referrals > ctx.cfg.maxReferrals {
      r := ReferTooDeep(ctx, t, m, ns);
    } else {
      var v := EnterAndAskDisciplined(ctx, t1, ns, m.additional);
      r := ReferIs(ctx, t, m, ns, t1, v);
    }
  }

  lemma EnterAndAskDisciplined(ctx: Context, t: Task, ns: seq<RR>, glue: seq<RR>) returns (v: Verdict)
    requires PicksMember(ctx.env) && ns != []
    ensures v == EnterAndAsk(ctx, t, ns, glue) && VerdictDisciplined(v, ctx.noCase)
  {
    EnterZoneJustEntered(ctx, t, ns[0].name.labels, ns, glue);
    var t' := EnterZone(ctx, t, ns[0].name.labels, ns, glue);
    EnteredDisciplined(t', ctx.noCase);
    v := NextServerDisciplined(ctx, t');
  }

  /** Whatever a server replies, the discipline is kept; the set of servers that
      normalise letter case only grows. */
  lemma ReplyDisciplined(ctx: Context, t: Task, reply: Reply)
    requires Bounded(ctx.cfg, t) && PicksMember(ctx.env) && CanReply(t, reply)
    requires Disciplined(t, ctx.noCase) && AskedOk(t)
    ensures var r := OnReply(ctx, t, reply);
            VerdictDisciplined(r.verdict, r.noCase) && ctx.noCase <= r.noCase
  {
    hide NextServer, OnMessage;
    match reply
    case NoReply(SpoofSuspected) => SendTcpDisciplined(ctx, t);
    case NoReply(CaseMismatch) =>
      WrongCaseDisciplined(ctx, t);
      var s := t.SentTo(t.asked);
      var t' := t.(tried := Without(t.tried, t.asked), sent := t.sent[t.asked := s.(wrongCase := s.wrongCase + 1)]);
      SendUdpDisciplined(ctx.(noCase := ctx.noCase + {t.asked}), t', t.asked);
    case NoReply(UpstreamTimeout) =>
      TimedOutDisciplined(t, ctx.noCase);
      var v := NextServerDisciplined(ctx, t.(timedOut := t.timedOut + [t.asked]));
    case NoReply(NetworkError) =>
      var v := NextServerDisciplined(ctx, t);
    case Reply(m) => MessageDisciplined(ctx, t, m);
  }

  lemma MessageDisciplined(ctx: Context, t: Task, m: Message)
    requires Bounded(ctx.cfg, t) && PicksMember(ctx.env) && Disciplined(t, ctx.noCase) && AskedOk(t)
    ensures VerdictDisciplined(OnMessage(ctx, t, m).verdict, ctx.noCase) && OnMessage(ctx, t, m).noCase == ctx.noCase
  {
    if m.header.tc && !t.overTcp {
      SendTcpDisciplined(ctx, t);
    } else if m.header.tc || (m.header.rcode != RCODE_NOERROR && m.header.rcode != RCODE_NXDOMAIN) {
      var v := NextServerDisciplined(ctx, t);
    } else {
      BelieveDisciplined(ctx, t, FilterToBailiwick(m, t.zone));
    }
  }

  /** Other tasks may learn of more servers that normalise case meanwhile. */
  lemma DisciplineKeptByOthers(t: Task, noCase: set<Addr>, noCase': set<Addr>)
    requires Disciplined(t, noCase) && noCase <= noCase'
    ensures Disciplined(t, noCase')
  {
    forall x
      ensures SentOk(t, noCase', x)
    {
      assert SentOk(t, noCase, x);
    }
  }
}
