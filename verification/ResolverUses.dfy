/** What the resolver makes of the servers it knows (core/resolver/recursive_resolver.cpp):
    where it starts, whose addresses it has there, and when it has run out of them. */
module ResolverUses {
  import opened DnsTypes
  import opened ResolverTask
  import opened ResolverServers
  import opened ResolverAnswers
  import opened ResolverTree
  import opened ResolverInvariant
  import opened ResolverSound
  import opened ResolverRuns
  import opened ResolverServes

  // ─── Addresses of name servers ────────────────────────────────────────────

  /** An A record among `rrs` holds this address. */
  predicate HasAddress(rrs: seq<RR>, a: Addr) {
    exists x :: x in rrs && x.rdata == RDataA(a)
  }

  lemma {:induction false} AddressesAre(rrs: seq<RR>, a: Addr)
    ensures a in Ipv4Addresses(rrs) <==> HasAddress(rrs, a)
  {
    if rrs == [] {
    } else {
      AddressesAre(rrs[1..], a);
      if HasAddress(rrs, a) {
        var x :| x in rrs && x.rdata == RDataA(a);
        if x != rrs[0] { assert x in rrs[1..]; }
      }
    }
  }

  /** An address that came with the referral for this name server. */
  ghost predicate Glued(ns: RR, glue: seq<RR>, a: Addr) {
    ns.rdata.RDataNS?
    && exists x :: x in glue && x.cls == CLASS_IN && x.rtype == TYPE_A && x.name.labels == ns.rdata.nsdname.labels
                   && x.rdata == RDataA(a)
  }

  /** An address the cache has for the name server looked up as the `i`th. */
  ghost predicate CachedFor(env: Env, ns: RR, i: nat, a: Addr) {
    && ns.rdata.RDataNS?
    && var e := env.look(AskAddress(i), QKey(ns.rdata.nsdname.labels, TYPE_A, CLASS_IN));
       e.Some? && !e.value.negative && HasAddress(e.value.records, a)
  }

  /** An address of the `i`th name server: from glue if there is any, else cached. */
  ghost predicate AddressOf(env: Env, ns: RR, glue: seq<RR>, i: nat, a: Addr) {
    Glued(ns, glue, a) || ((forall b :: !Glued(ns, glue, b)) && CachedFor(env, ns, i, a))
  }

  ghost predicate NoAddress(env: Env, ns: RR, glue: seq<RR>, i: nat) {
    forall a {:trigger AddressOf(env, ns, glue, i, a)} :: !AddressOf(env, ns, glue, i, a)
  }

  function FoundFor(env: Env, ns: RR, glue: seq<RR>, i: nat): seq<Addr>
    requires ns.rdata.RDataNS?
  {
    var target := ns.rdata.nsdname.labels;
    var glued := Ipv4Addresses(Collect(glue, target, TYPE_A));
    var cached := env.look(AskAddress(i), QKey(target, TYPE_A, CLASS_IN));
    if glued == [] && cached.Some? && !cached.value.negative then Ipv4Addresses(cached.value.records) else glued
  }

  lemma GluedAre(ns: RR, glue: seq<RR>, a: Addr)
    requires ns.rdata.RDataNS?
    ensures a in Ipv4Addresses(Collect(glue, ns.rdata.nsdname.labels, TYPE_A)) <==> Glued(ns, glue, a)
  {
    AddressesAre(Collect(glue, ns.rdata.nsdname.labels, TYPE_A), a);
    hide Collect, Ipv4Addresses;
  }

  lemma FoundAre(env: Env, ns: RR, glue: seq<RR>, i: nat)
    requires ns.rdata.RDataNS?
    ensures forall a :: a in FoundFor(env, ns, glue, i) <==> AddressOf(env, ns, glue, i, a)
    ensures FoundFor(env, ns, glue, i) == [] <==> NoAddress(env, ns, glue, i)
  {
    hide Collect, Ipv4Addresses, Glued, HasAddress;
    var rrs := Collect(glue, ns.rdata.nsdname.labels, TYPE_A);
    forall a
      ensures a in Ipv4Addresses(rrs) <==> Glued(ns, glue, a)
    {
      GluedAre(ns, glue, a);
    }
    if Ipv4Addresses(rrs) != [] { assert Glued(ns, glue, Ipv4Addresses(rrs)[0]); }
    var e := env.look(AskAddress(i), QKey(ns.rdata.nsdname.labels, TYPE_A, CLASS_IN));
    if e.Some? {
      forall a
        ensures a in Ipv4Addresses(e.value.records) <==> HasAddress(e.value.records, a)
      {
        AddressesAre(e.value.records, a);
      }
    }
    var found := FoundFor(env, ns, glue, i);
    if found != [] { assert AddressOf(env, ns, glue, i, found[0]); }
  }

  /** Some name server from the `i`th on has this address. */
  ghost predicate SomeServer(env: Env, ns: seq<RR>, glue: seq<RR>, i: nat, a: Addr) {
    exists j :: i <= j < |ns| && AddressOf(env, ns[j], glue, j, a)
  }

  /** Some name server from the `i`th on has this name and no known address. */
  ghost predicate SomeNameless(env: Env, ns: seq<RR>, glue: seq<RR>, i: nat, name: Dom) {
    exists j {:trigger ns[j]} ::
      i <= j < |ns| && ns[j].rdata.RDataNS? && ns[j].rdata.nsdname.labels == name && NoAddress(env, ns[j], glue, j)
  }

  lemma {:induction false} ServersKnown(env: Env, t: Task, ns: seq<RR>, glue: seq<RR>, i: nat)
    requires i <= |ns|
    ensures var r := AddNameServers(env, t, ns, glue, i);
      && (forall a :: a in r.servers <==> a in t.servers || SomeServer(env, ns, glue, i, a))
      && (forall d :: d in r.unresolved <==> d in t.unresolved || SomeNameless(env, ns, glue, i, d))
    decreases |ns| - i
  {
    if i == |ns| {
    } else if !ns[i].rdata.RDataNS? {
      ServersKnown(env, t, ns, glue, i + 1);
      NotServer(env, ns, glue, i);
      hide AddressOf, NoAddress;
    } else {
      var found := FoundFor(env, ns[i], glue, i);
      var t' := t.(unresolved := if found == [] then t.unresolved + [ns[i].rdata.nsdname.labels] else t.unresolved,
                   servers := AddServers(t.servers, found));
      assert AddNameServers(env, t, ns, glue, i) == AddNameServers(env, t', ns, glue, i + 1);
      hide AddNameServers, AddressOf, NoAddress, AddServers;
      FoundAre(env, ns[i], glue, i);
      hide FoundFor;
      ServersKnown(env, t', ns, glue, i + 1);
      OneMoreServer(env, ns, glue, i);
    }
  }

  lemma NotServer(env: Env, ns: seq<RR>, glue: seq<RR>, i: nat)
    requires i < |ns| && !ns[i].rdata.RDataNS?
    ensures forall a :: SomeServer(env, ns, glue, i, a) <==> SomeServer(env, ns, glue, i + 1, a)
    ensures forall d :: SomeNameless(env, ns, glue, i, d) <==> SomeNameless(env, ns, glue, i + 1, d)
  {
    assert forall a :: !AddressOf(env, ns[i], glue, i, a);
    hide AddressOf, NoAddress;
  }

  lemma OneMoreServer(env: Env, ns: seq<RR>, glue: seq<RR>, i: nat)
    requires i < |ns| && ns[i].rdata.RDataNS?
    ensures forall a :: SomeServer(env, ns, glue, i, a) <==>
              AddressOf(env, ns[i], glue, i, a) || SomeServer(env, ns, glue, i + 1, a)
    ensures forall d :: SomeNameless(env, ns, glue, i, d) <==>
              (d == ns[i].rdata.nsdname.labels && NoAddress(env, ns[i], glue, i)) || SomeNameless(env, ns, glue, i + 1,
                  d)
  {
    hide AddressOf, NoAddress;
  }

  // ─── Entering a zone ──────────────────────────────────────────────────────

  /** A task in a zone with these name servers: it has every address known of
      them, and for the root those configured, and no other; the rest it knows by
      name. */
  ghost predicate ZoneServers(ctx: Context, t: Task, ns: seq<RR>, glue: seq<RR>) {
    && (forall a :: a in t.servers <==>
          SomeServer(ctx.env, ns, glue, 0, a) || (t.zone == [] && HasAddress(ctx.cfg.hintAddresses, a)))
    && (forall d :: d in t.unresolved <==> SomeNameless(ctx.env, ns, glue, 0, d))
    && t.tried == [] && t.timedOut == [] && t.retryRounds == 0 && t.glueless == 0
  }

  lemma EnterKnown(ctx: Context, t: Task, zone: Dom, ns: seq<RR>, glue: seq<RR>)
    ensures var r := EnterZone(ctx, t, zone, ns, glue); r.zone == zone && ZoneServers(ctx, r, ns, glue)
  {
    ServersKnown(ctx.env, ResetZone(t, zone), ns, glue, 0);
    forall a
      ensures a in Ipv4Addresses(ctx.cfg.hintAddresses) <==> HasAddress(ctx.cfg.hintAddresses, a)
    {
      AddressesAre(ctx.cfg.hintAddresses, a);
    }
    hide AddNameServers, SomeServer, SomeNameless, HasAddress, Ipv4Addresses, AddServers;
  }

  predicate CachedZone(ctx: Context, z: Dom) {
    var ns := ctx.env.look(AskZone(z), QKey(z, TYPE_NS, CLASS_IN));
    ns.Some? && !ns.value.negative && ns.value.records != []
  }

  predicate KnownZone(ctx: Context, z: Dom) {
    z in ctx.cfg.stubs || CachedZone(ctx, z)
  }

  /** A task that begins in the deepest zone above a name that is configured or
      cached, else in the root, with the servers of that zone. */
  ghost predicate StartsAt(ctx: Context, t: Task, qname: Dom) {
    && IsSuffix(t.zone, qname)
    && (forall z {:trigger KnownZone(ctx, z)} :: IsSuffix(z, qname) && |z| > |t.zone| ==> !KnownZone(ctx, z))
    && if t.zone in ctx.cfg.stubs then t.tried == [] && forall a :: a in t.servers <==> a in ctx.cfg.stubs[t.zone]
       else if CachedZone(ctx, t.zone) then
         ZoneServers(ctx, t, ctx.env.look(AskZone(t.zone), QKey(t.zone, TYPE_NS, CLASS_IN)).value.records, [])
       else t.zone == [] && ZoneServers(ctx, t, ctx.cfg.hintNs, [])
  }

  lemma {:induction false} ClosestIsDeepest(ctx: Context, t: Task, z: Dom)
    requires IsSuffix(z, t.qname)
    requires forall s {:trigger KnownZone(ctx, s)} :: IsSuffix(s, t.qname) && |s| > |z| ==> !KnownZone(ctx, s)
    ensures StartsAt(ctx, ClosestZone(ctx, t, z), t.qname)
    decreases |z|
  {
    hide EnterZone, ZoneServers, AddServers;
    if z in ctx.cfg.stubs {
    } else if CachedZone(ctx, z) {
      EnterKnown(ctx, t, z, ctx.env.look(AskZone(z), QKey(z, TYPE_NS, CLASS_IN)).value.records, []);
    } else if z == [] {
      EnterKnown(ctx, t, [], ctx.cfg.hintNs, []);
    } else {
      SuffixOfTail(z, t.qname);
      forall s | IsSuffix(s, t.qname) && |s| > |z[1..]|
        ensures !KnownZone(ctx, s)
      {
        if |s| == |z| { assert s == z; }
      }
      ClosestIsDeepest(ctx, t, z[1..]);
    }
  }

  // ─── Who is asked next ────────────────────────────────────────────────────

  /** A name server without an address may be looked up: the zone and the depth
      allow for one more, and nothing waits for that very address already. */
  predicate MayLookUp(cfg: Config, t: Task, name: Dom) {
    && name in t.unresolved && t.glueless < cfg.maxGlueless && |t.ancestry| < 4
    && !(name == t.qname && t.question.qtype == 1) && QKey(name, 1, 1) !in t.ancestry
  }

  lemma {:induction false} LookUpIf(cfg: Config, t: Task)
    ensures var r := NextGlueless(cfg, t);
      if r.1.Some? then MayLookUp(cfg, t, r.1.value) else forall d :: !MayLookUp(cfg, t, d)
    decreases |t.unresolved|
  {
    if t.unresolved == [] || t.glueless >= cfg.maxGlueless {
    } else {
      var t' := t.(unresolved := t.unresolved[1..]);
      if !MayLookUp(cfg, t, t.unresolved[0]) {
        LookUpIf(cfg, t');
        forall d | MayLookUp(cfg, t, d)
          ensures MayLookUp(cfg, t', d)
        {
        }
      }
    }
  }

  ghost predicate Untried(t: Task) {
    exists a :: a in t.servers && a !in t.tried
  }

  /** Who is asked next, and that a task fails exactly when nobody is left: no
      server untried, no name server to look up, and none that was merely slow
      and has rounds left. */
  ghost predicate NextIs(ctx: Context, t: Task, v: Verdict) {
    if Untried(t) then
      if ctx.queries < ctx.cfg.maxQueries then
        v.Query? && v.t.asked in t.servers && v.t.asked !in t.tried && !v.t.overTcp
      else v == Done(Failed(MaxQueriesExceeded))
    else if exists d :: MayLookUp(ctx.cfg, t, d) then
      v.Lookup? && MayLookUp(ctx.cfg, t, v.q.qname.labels) && v.q.qtype == 1 && v.q.qclass == 1
    else if t.timedOut != [] && t.retryRounds < 2 then
      if ctx.queries < ctx.cfg.maxQueries then v.Query? && v.t.asked in t.timedOut && !v.t.overTcp
      else v == Done(Failed(MaxQueriesExceeded))
    else v == Done(Failed(AllServersFailed))
  }

  lemma LastResorts(ctx: Context, t: Task) returns (v: Verdict)
    requires PicksMember(ctx.env) && (forall a :: a in t.timedOut ==> a in t.servers)
    ensures v == NextServer(ctx, t) && NextIs(ctx, t, v)
    ensures !v.Done? ==> v.t.zone == t.zone && v.t.servers == t.servers
  {
    hide WithoutAll, NextGlueless, MayLookUp;
    var untried := WithoutAll(t.servers, t.tried);
    LookUpIf(ctx.cfg, t);
    v := NextServer(ctx, t);
    if untried != [] {
      assert untried[0] in untried;
    } else {
      var (t', name) := NextGlueless(ctx.cfg, t);
      if name.None? && t'.timedOut != [] && t'.retryRounds < MAX_RETRY_ROUNDS {
        var r := Retried(t');
        NextServerRetries(ctx, t, t', NextServer(ctx, r));
        assert t'.timedOut[0] in t'.timedOut;
        assert t'.timedOut[0] in WithoutAll(r.servers, r.tried);
      }
    }
  }

  // ─── Starting ─────────────────────────────────────────────────────────────

  /** Nothing in the cache settles a question, and no CNAME leads on from it. */
  predicate Cold(ctx: Context, t: Task) {
    var hit := ctx.env.look(AskAnswer(t.hops), QKey(t.qname, t.Qtype(), CLASS_IN));
    var cname := ctx.env.look(AskCname(t.hops), QKey(t.qname, TYPE_CNAME, CLASS_IN));
    && ctx.env.look(AskNx(t.hops), QKey(t.qname, NXDOMAIN_TYPE, CLASS_IN)).None?
    && (hit.Some? ==> !hit.value.negative && hit.value.trust != Answer)
    && (cname.Some? && t.Qtype() != TYPE_CNAME ==>
          cname.value.negative || cname.value.trust != Answer || cname.value.records == [])
  }

  /** A question the cache does not settle is taken to the deepest zone known. */
  lemma ColdStart(ctx: Context, t: Task) returns (v: Verdict, t': Task)
    requires Bounded(ctx.cfg, t) && PicksMember(ctx.env) && Cold(ctx, t)
    ensures v == Step(ctx, t) && StartsAt(ctx, t', t.qname) && SameTask(t, t') && NextIs(ctx, t', v)
    ensures !v.Done? ==> v.t.zone == t'.zone && v.t.servers == t'.servers
  {
    hide ClosestZone, NextServer, StartsAt, NextIs;
    assert t.qname[|t.qname| - |t.qname|..] == t.qname;
    ClosestIsDeepest(ctx, t, t.qname);
    t' := ClosestZoneAbove(ctx, t, t.qname);
    ClosestFresh(ctx, t, t.qname);
    v := LastResorts(ctx, t');
  }

  lemma {:induction false} ClosestFresh(ctx: Context, t: Task, z: Dom)
    ensures ClosestZone(ctx, t, z).timedOut == []
    decreases |z|
  {
    hide AddNameServers;
    if z != [] && z !in ctx.cfg.stubs && !CachedZone(ctx, z) { ClosestFresh(ctx, t, z[1..]); }
  }

  /** The same of a start timer, in any state. */
  lemma StartsDeepest(cfg: Config, st: State, id: nat, env: Env) returns (st': State, t': Task)
    requires EventOk(cfg, st, Start(id, env)) && st.nodes[id].t.question.qclass == CLASS_IN
    requires Cold(ContextAt(cfg, env, st, st.nodes[id].root), st.nodes[id].t)
    ensures st' == StepEvent(cfg, st, Start(id, env))
    ensures var ctx := ContextAt(cfg, env, st, st.nodes[id].root);
      && StartsAt(ctx, t', st.nodes[id].t.qname)
      && (Untried(t') && ctx.queries < cfg.maxQueries ==>
            && id in st'.nodes && st'.nodes[id].upstream && st'.nodes[id].t.zone == t'.zone
            && st'.nodes[id].t.servers == t'.servers && st'.nodes[id].t.asked in t'.servers)
  {
    hide StartsAt, Step, Cold, Untried, PicksMember, Honest;
    var ctx := ContextAt(cfg, env, st, st.nodes[id].root);
    var v;
    v, t' := ColdStart(ctx, st.nodes[id].t);
    st' := StepEvent(cfg, st, Start(id, env));
    hide MayLookUp;
  }

  // ─── Referrals ────────────────────────────────────────────────────────────

  /** A referral that is followed: every address in its glue for the zone's name
      servers is known, and one of them is asked. */
  lemma ReferralUsed(ctx: Context, t: Task, m: Message, ns: seq<RR>) returns (v: Verdict, t': Task)
    requires Bounded(ctx.cfg, t) && ZoneAbove(t) && Heard(m) && NoRecords(t, m) && PicksMember(ctx.env)
    requires m.header.rcode == RCODE_NOERROR && !m.header.aa
    requires ns == ReferralNs(InZone(m.authority, t.zone)) && ns != []
    requires Downward(t, ns[0].name.labels) && t.referrals < ctx.cfg.maxReferrals
    ensures v == OnReply(ctx, t, Reply(m)).verdict && SameTask(t, t') && t'.zone == ns[0].name.labels
    ensures ZoneServers(ctx, t', ns, InZone(m.additional, t.zone)) && NextIs(ctx, t', v)
    ensures !v.Done? ==> v.t.zone == t'.zone && v.t.servers == t'.servers
  {
    hide OnReply, InZone, Collect, NextServer, ReferralNs, FindSoa, CacheGlue,
         EnterZone, ZoneServers, NextIs, PicksMember;
    Unanswered(ctx, t, m);
    var f := FilterToBailiwick(m, t.zone);
    var t1 := t.(referrals := (t.referrals as int + 1) % 0x1_0000);
    EnterZoneStays(ctx, t1, ns[0].name.labels, ns, f.additional);
    EnterKnown(ctx, t1, ns[0].name.labels, ns, f.additional);
    t' := EnterZone(ctx, t1, ns[0].name.labels, ns, f.additional);
    NoneTimedOut(ctx, t', ns, f.additional);
    v := LastResorts(ctx, t');
    var r := ReferIs(ctx, t, f, ns, t1, v);
  }

  lemma NoneTimedOut(ctx: Context, t: Task, ns: seq<RR>, glue: seq<RR>)
    requires ZoneServers(ctx, t, ns, glue)
    ensures forall a :: a in t.timedOut ==> a in t.servers
  {
  }

  // ─── Sub-tasks ────────────────────────────────────────────────────────────

  /** What the task that an event concerns decides. */
  function Decides(cfg: Config, st: State, ev: Event): Verdict
    requires Enabled(st, ev) && Hops(cfg, st) && (ev.Start? || ev.Respond?)
  {
    var n := st.nodes[ev.id];
    var ctx := ContextAt(cfg, ev.env, st, n.root);
    if ev.Start? then Begin(ctx, n.t) else OnReply(ctx, n.t, ev.reply).verdict
  }

  /** A sub-task that ends with addresses: its parent has them all, and if one was
      not tried it now asks a server it has not tried. */
  lemma AddressesUsed(cfg: Config, st: State, ev: Event, a: Addr) returns (st': State)
    requires Inv(cfg, st) && EventOk(cfg, st, ev) && (ev.Start? || ev.Respond?)
    requires Spent(st, st.nodes[ev.id].root) < cfg.maxQueries && st.nodes[ev.id].done.ToParent?
    requires var v := Decides(cfg, st, ev); v.Done? && v.outcome.Resolved? && HasAddress(v.outcome.answers, a)
    ensures st' == StepEvent(cfg, st, ev)
    ensures var p := st.nodes[ev.id].done.parent;
      && p in st.nodes && (p in st'.nodes ==> a in st'.nodes[p].t.servers)
      && (a !in st.nodes[p].t.tried ==>
            && p in st'.nodes && st'.nodes[p].upstream && !st'.nodes[p].t.overTcp
            && st'.nodes[p].t.asked in st'.nodes[p].t.servers && st'.nodes[p].t.asked !in st.nodes[p].t.tried
            && Spent(st', st.nodes[p].root) == Spent(st, st.nodes[p].root) + 1)
  {
    hide Begin, OnReply, Good, Sound, Effect, Honest, HasAddress, Said, Apply, Inv;
    var c := ev.id;
    var st1, v;
    if ev.Start? { st1, v, st' := StartKeeps(cfg, st, c, ev.env); } else { st1, v,
        st' := RespondKeeps(cfg, st, c, ev.reply, ev.env); }
    ParentThere(cfg, st, st1, c);
    SlowAreServers(cfg, st1, st1.nodes[c].done.parent);
    FoundUsed(cfg, ev.env, st1, c, v.outcome, a);
  }

  lemma ParentThere(cfg: Config, st: State, st1: State, c: nat)
    requires c in st.nodes && Tree(cfg, st1, 0, 0, c) && st1.nodes == Woken(st, c).nodes && st.nodes[c].done.ToParent?
    ensures var p := st.nodes[c].done.parent;
      && p != c && p in st1.nodes && st1.nodes[p] == st.nodes[p] && st1.nodes[p].root == st1.nodes[c].root
      && st1.nodes[c].child == 0 && st1.nodes[p].child != 0 && p < st1.nextId
  {
    assert NodeOk(cfg, st1, c, 0, 0, c);
    assert NodeOk(cfg, st1, st.nodes[c].done.parent, 0, 0, c);
  }

  lemma SlowAreServers(cfg: Config, st: State, p: nat)
    requires Sound(cfg, st) && p in st.nodes && st.nodes[p].child != 0
    ensures forall a :: a in st.nodes[p].t.timedOut ==> a in st.nodes[p].t.servers
  {
    assert NodeSound(cfg, st.nodes[p], st.noCase, st.trusted);
    forall a | a in st.nodes[p].t.timedOut
      ensures a in st.nodes[p].t.servers
    {
      assert a in st.nodes[p].t.tried;
    }
  }

  /** A task with these servers, resumed: unless it ends it still has them, and it
      asks an untried one if it can. */
  lemma ResumedAsks(cfg: Config, env: Env, st: State, p: nat, t: Task, v: Verdict, a: Addr)
    requires p in st.nodes && p < st.nextId && a in t.servers && (!v.Done? ==> v.t.servers == t.servers)
    requires NextIs(ContextAt(cfg, env, st, st.nodes[p].root), t, v) && Spent(st, st.nodes[p].root) < cfg.maxQueries
    ensures var st' := Apply(cfg, env, st, p, v);
      && (p in st'.nodes ==> a in st'.nodes[p].t.servers)
      && (a !in t.tried ==>
            && p in st'.nodes && st'.nodes[p].upstream && !st'.nodes[p].t.overTcp
            && st'.nodes[p].t.asked in t.servers && st'.nodes[p].t.asked !in t.tried
            && Spent(st', st.nodes[p].root) == Spent(st, st.nodes[p].root) + 1)
  {
    hide MayLookUp, NewNode;
    if v.Done? { EndsGone(cfg, env, st, p, v.outcome); }
    hide Finish;
  }

  lemma FoundUsed(cfg: Config, env: Env, st: State, c: nat, o: Outcome, a: Addr)
    requires c in st.nodes && st.nodes[c].done.ToParent? && st.nodes[c].child == 0 && PicksMember(env)
    requires var p := st.nodes[c].done.parent;
      && p != c && p in st.nodes && p < st.nextId && st.nodes[p].root == st.nodes[c].root
      && forall x :: x in st.nodes[p].t.timedOut ==> x in st.nodes[p].t.servers
    requires Spent(st, st.nodes[c].root) < cfg.maxQueries && o.Resolved? && HasAddress(o.answers, a)
    ensures var p, st' := st.nodes[c].done.parent, Apply(cfg, env, st, c, Done(o));
      && (p in st'.nodes ==> a in st'.nodes[p].t.servers)
      && (a !in st.nodes[p].t.tried ==>
            && p in st'.nodes && st'.nodes[p].upstream && !st'.nodes[p].t.overTcp
            && st'.nodes[p].t.asked in st'.nodes[p].t.servers && st'.nodes[p].t.asked !in st.nodes[p].t.tried
            && Spent(st', st.nodes[p].root) == Spent(st, st.nodes[p].root) + 1)
  {
    var p := st.nodes[c].done.parent;
    var st1 := Drop(st, c);
    var st2 := Resumed(st1, p);
    var ctx := ContextAt(cfg, env, st2, st2.nodes[p].root);
    var t := st2.nodes[p].t;
    AddressesAre(o.answers, a);
    hide NextServer, AddServers, Ipv4Addresses, NextIs, HasAddress, PicksMember, Apply;
    var t' := t.(servers := AddServers(t.servers, Ipv4Addresses(o.answers)));
    var v := LastResorts(ctx, t');
    GoesToParent(cfg, env, st, c, o, v);
    ResumedAsks(cfg, env, st2, p, t', v, a);
  }

  lemma GoesToParent(cfg: Config, env: Env, st: State, c: nat, o: Outcome, v: Verdict)
    requires c in st.nodes && st.nodes[c].done.ToParent? && st.nodes[c].child == 0
    requires st.nodes[c].done.parent != c && st.nodes[c].done.parent in st.nodes
    requires var p := st.nodes[c].done.parent;
      var st2 := Resumed(Drop(st, c), p);
      v == ChildDone(ContextAt(cfg, env, st2, st2.nodes[p].root), st2.nodes[p].t, o)
    ensures var p := st.nodes[c].done.parent; Apply(cfg, env, st, c, Done(o)) == Apply(cfg, env,
        Resumed(Drop(st, c), p), p, v)
  {
    hide ChildDone, Deliveries;
  }

  lemma {:induction false} StaysGone(cfg: Config, env: Env, st: State, id: nat, v: Verdict, x: nat)
    requires id in st.nodes && x !in st.nodes && x < st.nextId
    ensures x !in Apply(cfg, env, st, id, v).nodes
    decreases st.nodes.Keys
  {
    hide ChildDone, Deliveries, NewNode;
    if v.Done? && st.nodes[id].done.ToParent? {
      var p := st.nodes[id].done.parent;
      var st1 := Drop(st, id);
      if p in st1.nodes {
        var st2 := Resumed(st1, p);
        assert id !in st2.nodes && st2.nodes.Keys < st.nodes.Keys;
        StaysGone(cfg, env, st2, p, ChildDone(ContextAt(cfg, env, st2, st2.nodes[p].root), st2.nodes[p].t, v.outcome),
                  x);
      }
    }
  }

  lemma EndsGone(cfg: Config, env: Env, st: State, id: nat, o: Outcome)
    requires id in st.nodes && id < st.nextId
    ensures id !in Apply(cfg, env, st, id, Done(o)).nodes
  {
    hide ChildDone, Deliveries;
    var st1 := Drop(st, id);
    if st.nodes[id].done.ToParent? && st.nodes[id].done.parent in st1.nodes {
      var p := st.nodes[id].done.parent;
      var st2 := Resumed(st1, p);
      StaysGone(cfg, env, st2, p, ChildDone(ContextAt(cfg, env, st2, st2.nodes[p].root), st2.nodes[p].t, o), id);
    }
  }
}
