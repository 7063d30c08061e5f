/** How much a task may still ask for: the shared budget of queries, the name
    servers looked up per zone, and the depth of sub-queries. */
module ResolverLimits {
  import opened DnsTypes
  import opened ResolverTask

  /** A query needs budget left; a look-up uses up one of the zone's, and is
      never made at the greatest depth. */
  predicate Allowed(ctx: Context, v: Verdict, glueless: nat) {
    match v
    case Query(t) => ctx.queries < ctx.cfg.maxQueries && t.glueless == glueless
    case Lookup(t, q) => t.glueless == glueless + 1 <= ctx.cfg.maxGlueless && |t.ancestry| < MAX_SUBQUERY_DEPTH
    case Done(_) => true
  }

  lemma {:induction false} NextServerAllowed(ctx: Context, t: Task) returns (v: Verdict)
    ensures v == NextServer(ctx, t) && Allowed(ctx, v, t.glueless)
    decreases if t.retryRounds <= MAX_RETRY_ROUNDS then MAX_RETRY_ROUNDS - t.retryRounds + 1 else 0
  {
    if WithoutAll(t.servers, t.tried) != [] {
      v := SendQuery(ctx, t, ctx.env.pick(WithoutAll(t.servers, t.tried)), false);
    } else {
      var (t', name) := NextGlueless(ctx.cfg, t);
      if name.Some? {
        v := Lookup(t', Question(Name(name.value, name.value), TYPE_A, CLASS_IN));
      } else if t'.timedOut != [] && t'.retryRounds < MAX_RETRY_ROUNDS {
        v := NextServerAllowed(ctx, Retried(t'));
        NextServerRetries(ctx, t, t', v);
      } else {
        v := Done(Failed(AllServersFailed));
      }
    }
  }

  lemma EnterZoneFresh(ctx: Context, t: Task, zone: Dom, ns: seq<RR>, glue: seq<RR>)
    ensures EnterZone(ctx, t, zone, ns, glue).glueless == 0
  {
  }

  lemma {:induction false} ClosestZoneFresh(ctx: Context, t: Task, z: Dom)
    ensures ClosestZone(ctx, t, z).glueless == 0
    decreases |z|
  {
    if z !in ctx.cfg.stubs {
      var ns := ctx.env.look(AskZone(z), QKey(z, TYPE_NS, CLASS_IN));
      if ns.Some? && !ns.value.negative && ns.value.records != [] {
        EnterZoneFresh(ctx, t, z, ns.value.records, []);
      } else if z == [] {
        EnterZoneFresh(ctx, t, [], ctx.cfg.hintNs, []);
      } else {
        ClosestZoneFresh(ctx, t, z[1..]);
      }
    }
  }

  lemma {:induction false} StepAllowed(ctx: Context, t: Task) returns (v: Verdict)
    requires Bounded(ctx.cfg, t)
    ensures v == Step(ctx, t) && Allowed(ctx, v, 0)
    decreases 255 - t.hops
  {
    var nx := ctx.env.look(AskNx(t.hops), QKey(t.qname, NXDOMAIN_TYPE, CLASS_IN));
    var hit := ctx.env.look(AskAnswer(t.hops), QKey(t.qname, t.Qtype(), CLASS_IN));
    var cname := ctx.env.look(AskCname(t.hops), QKey(t.qname, TYPE_CNAME, CLASS_IN));
    if nx.Some? || (hit.Some? && hit.value.negative) || Usable(hit) {
      v := Step(ctx, t);
    } else if t.Qtype() != TYPE_CNAME && Usable(cname) && cname.value.records != [] {
      match FollowCname(ctx.cfg, t, cname.value.records[0]) {
        case None => v := Done(Failed(MaxCnameChainExceeded));
        case Some(t') => v := StepAllowed(ctx, t');
      }
    } else {
      ClosestZoneFresh(ctx, t, t.qname);
      v := NextServerAllowed(ctx, ClosestZone(ctx, t, t.qname));
    }
  }

  lemma ChildDoneAllowed(ctx: Context, t: Task, child: Outcome) returns (v: Verdict)
    ensures v == ChildDone(ctx, t, child) && Allowed(ctx, v, t.glueless)
  {
    v := NextServerAllowed(ctx,
        if child.Resolved? then t.(servers := AddServers(t.servers, Ipv4Addresses(child.answers))) else t);
  }

  /** After a reply a task is in its zone still, or begins in another one. */
  predicate AllowedAfter(ctx: Context, v: Verdict, glueless: nat) {
    Allowed(ctx, v, glueless) || Allowed(ctx, v, 0)
  }

  lemma ReferAllowed(ctx: Context, t: Task, m: Message, ns: seq<RR>) returns (r: Reaction)
    requires ns != []
    ensures r == Refer(ctx, t, m, ns) && Allowed(ctx, r.verdict, 0)
  {
    var t1 := t.(referrals := (t.referrals as int + 1) % 0x1_0000);
    if t1.referrals > ctx.cfg.maxReferrals {
      r := ReferTooDeep(ctx, t, m, ns);
    } else {
      EnterZoneFresh(ctx, t1, ns[0].name.labels, ns, m.additional);
      var v := NextServerAllowed(ctx, EnterZone(ctx, t1, ns[0].name.labels, ns, m.additional));
      r := ReferIs(ctx, t, m, ns, t1, v);
    }
  }

  lemma BelieveAllowed(ctx: Context, t: Task, m: Message)
    requires Bounded(ctx.cfg, t)
    ensures AllowedAfter(ctx, Believe(ctx, t, m).verdict, t.glueless)
  {
    var c := ChaseAnswers(ctx, t, m, []);
    if c.Open? {
      if c.t.chain != t.chain {
        var v := StepAllowed(ctx, c.t);
      } else {
        NoAnswerAllowed(ctx, t, m);
      }
    }
  }

  lemma NoAnswerAllowed(ctx: Context, t: Task, m: Message)
    ensures AllowedAfter(ctx, NoAnswer(ctx, t, m).verdict, t.glueless)
  {
    var ns := if m.header.aa then [] else ReferralNs(m.authority);
    if m.header.rcode == RCODE_NXDOMAIN {
    } else if ns != [] && Downward(t, ns[0].name.labels) {
      var r := ReferAllowed(ctx, t, m, ns);
    } else {
      var v := NextServerAllowed(ctx, t);
    }
  }

  lemma ReplyAllowed(ctx: Context, t: Task, reply: Reply)
    requires Bounded(ctx.cfg, t)
    ensures var r := OnReply(ctx, t, reply); AllowedAfter(ctx, r.verdict, t.glueless)
  {
    match reply
    case NoReply(SpoofSuspected) =>
    case NoReply(CaseMismatch) =>
    case NoReply(UpstreamTimeout) =>
      var v := NextServerAllowed(ctx, t.(timedOut := t.timedOut + [t.asked]));
    case NoReply(NetworkError) =>
      var v := NextServerAllowed(ctx, t);
    case Reply(m) =>
      if m.header.tc || (m.header.rcode != RCODE_NOERROR && m.header.rcode != RCODE_NXDOMAIN) {
        var v := NextServerAllowed(ctx, t);
      } else {
        BelieveAllowed(ctx, t, FilterToBailiwick(m, t.zone));
      }
  }
}
