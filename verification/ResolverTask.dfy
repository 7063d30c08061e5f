/** One resolution of the recursive resolver (core/resolver/recursive_resolver.cpp):
    what a task does when it starts, when a server answers or fails to, and when
    the address it was waiting for arrives. Names are canonical labels here. */
module ResolverTask {
  import opened DnsTypes

  type Dom = seq<Label>
  type Addr = Bytes

  const MAX_SUBQUERY_DEPTH := 4
  const MAX_RETRY_ROUNDS := 2
  const NXDOMAIN_TYPE: u16 := 0
  const RCODE_NOERROR := 0
  const RCODE_NXDOMAIN := 3

  datatype QKey = QKey(name: Dom, qtype: u16, qclass: u16)

  function KeyOf(q: Question): QKey {
    QKey(q.qname.labels, q.qtype, q.qclass)
  }

  datatype Config = Config(
    maxQueries: nat, maxReferrals: u16, maxCname: u8, maxGlueless: u8, use0x20: bool,
    stubs: map<Dom, seq<Addr>>, hintNs: seq<RR>, hintAddresses: seq<RR>)

  // ─── The cache, as the resolver sees it ───────────────────────────────────

  /** Section 5.4.1 of RFC 2181. */
  datatype TrustRank = Additional | Glue | Authority | Answer

  datatype Entry = Entry(records: seq<RR>, trust: TrustRank, negative: bool)

  /** A write to the cache: also the zone of the server that supplied it, and
      whether it answered with authority. */
  datatype Insert = Insert(key: QKey, entry: Entry, ttl: u32, zone: Dom, aa: bool)

  /** Which lookup of a callback this is; each may hit or miss on its own. */
  datatype Ask =
    | AskNx(hop: nat) | AskAnswer(hop: nat) | AskCname(hop: nat)
    | AskZone(zone: Dom) | AskAddress(index: nat)

  /** What the outside decides during one callback: cache hits, and which of
      several servers is picked. */
  datatype Env = Env(look: (Ask, QKey) -> Option<Entry>, pick: seq<Addr> -> Addr)

  // ─── Tasks ────────────────────────────────────────────────────────────────

  datatype ResolveError =
    | Timeout | ServFail | MaxQueriesExceeded | MaxDepthExceeded | MaxCnameChainExceeded | AllServersFailed

  datatype Outcome = Resolved(rcode: nat, answers: seq<RR>, authority: seq<RR>) | Failed(error: ResolveError)

  /** What was sent to one server since the zone was entered: queries over UDP,
      over TCP, and UDP queries it answered in the wrong letter case. */
  datatype Sent = Sent(udp: nat, tcp: nat, wrongCase: nat)

  datatype Task = Task(
    question: Question, qname: Dom, chain: seq<RR>, hops: u8, ancestry: seq<QKey>,
    zone: Dom, servers: seq<Addr>, unresolved: seq<Dom>, tried: seq<Addr>, timedOut: seq<Addr>, retryRounds: nat,
    asked: Addr, overTcp: bool, sent0x20: bool, glueless: nat, referrals: u16, sent: map<Addr, Sent>)
  {
    function SentTo(a: Addr): Sent {
      if a in sent then sent[a] else Sent(0, 0, 0)
    }

    function Qtype(): u16 {
      question.qtype
    }
  }

  function NewTask(q: Question, ancestry: seq<QKey>): Task {
    Task(q, q.qname.labels, [], 0, ancestry, [], [], [], [], [], 0, [], false, false, 0, 0, map[])
  }

  /** What a task does next: send a query, look an address up, or end. */
  datatype Verdict = Query(t: Task) | Lookup(t: Task, q: Question) | Done(outcome: Outcome)

  /** A verdict, with what was learnt on the way. */
  datatype Reaction = Reaction(verdict: Verdict, inserts: seq<Insert>, noCase: set<Addr>)

  /** What a callback knows beside its task. */
  datatype Context = Context(cfg: Config, env: Env, noCase: set<Addr>, queries: nat)

  // ─── Helpers over records ─────────────────────────────────────────────────

  function Collect(section: seq<RR>, name: Dom, rtype: u16): (r: seq<RR>)
    ensures forall x :: x in r <==> x in section && x.cls == CLASS_IN && x.rtype == rtype && x.name.labels == name
  {
    if section == [] then []
    else
      var rest := Collect(section[1..], name, rtype);
      if section[0].cls == CLASS_IN && section[0].rtype == rtype && section[0].name.labels == name
      then [section[0]] + rest else rest
  }

  function MinTtl(rrs: seq<RR>): (ttl: u32)
    ensures forall x :: x in rrs ==> ttl <= x.ttl
    ensures if rrs == [] then ttl == 0 else exists x :: x in rrs && x.ttl == ttl
  {
    if rrs == [] then 0
    else if |rrs| == 1 then rrs[0].ttl
    else
      var rest := MinTtl(rrs[1..]);
      if rrs[0].ttl < rest then rrs[0].ttl else rest
  }

  /** The first SOA whose owner is the name or above it, if any. */
  function FindSoa(authority: seq<RR>, qname: Dom): (r: seq<RR>)
    ensures |r| <= 1
    ensures forall x :: x in r ==> x in authority && x.rdata.RDataSOA? && IsSuffix(x.name.labels, qname)
    ensures r == [] ==> forall x :: x in authority ==> !(x.rdata.RDataSOA? && IsSuffix(x.name.labels, qname))
  {
    if authority == [] then []
    else if authority[0].rdata.RDataSOA? && IsSuffix(authority[0].name.labels, qname) then [authority[0]]
    else FindSoa(authority[1..], qname)
  }

  function NegativeTtl(soa: RR): u32
    requires soa.rdata.RDataSOA?
  {
    if soa.ttl < soa.rdata.minimum then soa.ttl else soa.rdata.minimum
  }

  /** All NS records that share the first one's owner. */
  function ReferralNs(authority: seq<RR>): (r: seq<RR>)
    ensures forall x :: x in r ==>
              x in authority && x.cls == CLASS_IN && x.rdata.RDataNS? && x.name.labels == r[0].name.labels
    ensures forall x :: x in authority && x.cls == CLASS_IN && x.rdata.RDataNS? ==>
              r != [] && (x.name.labels == r[0].name.labels ==> x in r)
  {
    var first := FirstNs(authority);
    if first == [] then [] else NsOwnedBy(authority, first[0].name.labels)
  }

  function FirstNs(authority: seq<RR>): (r: seq<RR>)
    ensures |r| <= 1 && forall x :: x in r ==> x in authority && x.cls == CLASS_IN && x.rdata.RDataNS?
    ensures r == [] ==> forall x :: x in authority ==> !(x.cls == CLASS_IN && x.rdata.RDataNS?)
  {
    if authority == [] then []
    else if authority[0].cls == CLASS_IN && authority[0].rdata.RDataNS? then [authority[0]]
    else FirstNs(authority[1..])
  }

  function NsOwnedBy(authority: seq<RR>, owner: Dom): (r: seq<RR>)
    ensures forall x :: x in r <==> x in authority && x.cls == CLASS_IN && x.rdata.RDataNS? && x.name.labels == owner
  {
    if authority == [] then []
    else
      var rest := NsOwnedBy(authority[1..], owner);
      if authority[0].cls == CLASS_IN && authority[0].rdata.RDataNS? && authority[0].name.labels == owner
      then [authority[0]] + rest else rest
  }

  function Ipv4Addresses(rrs: seq<RR>): seq<Addr> {
    if rrs == [] then []
    else (if rrs[0].rdata.RDataA? then [rrs[0].rdata.addr] else []) + Ipv4Addresses(rrs[1..])
  }

  /** filter_to_bailiwick (core/security/bailiwick.cpp), for one section. */
  function InZone(section: seq<RR>, zone: Dom): (r: seq<RR>)
    ensures forall x :: x in r <==> x in section && IsSuffix(zone, x.name.labels)
  {
    if section == [] then []
    else
      var rest := InZone(section[1..], zone);
      if IsSuffix(zone, section[0].name.labels) then [section[0]] + rest else rest
  }

  function FilterToBailiwick(m: Message, zone: Dom): Message {
    m.(answers := InZone(m.answers, zone), authority := InZone(m.authority, zone),
       additional := InZone(m.additional, zone))
  }

  function Without(s: seq<Addr>, x: Addr): (r: seq<Addr>)
    ensures forall y :: y in r <==> y in s && y != x
  {
    if s == [] then [] else (if s[0] == x then [] else [s[0]]) + Without(s[1..], x)
  }

  function WithoutAll(s: seq<Addr>, xs: seq<Addr>): (r: seq<Addr>)
    ensures forall y :: y in r <==> y in s && y !in xs
  {
    if s == [] then [] else (if s[0] in xs then [] else [s[0]]) + WithoutAll(s[1..], xs)
  }

  // ─── Servers of a zone ────────────────────────────────────────────────────

  function AddServers(servers: seq<Addr>, more: seq<Addr>): (r: seq<Addr>)
    ensures forall a :: a in r <==> a in servers || a in more
    decreases |more|
  {
    if more == [] then servers
    else AddServers(if more[0] in servers then servers else servers + [more[0]], more[1..])
  }

  function ResetZone(t: Task, zone: Dom): Task {
    t.(zone := zone, servers := [], unresolved := [], tried := [], timedOut := [], retryRounds := 0, glueless := 0,
       sent := map[])
  }

  /** The addresses of the name servers `ns[i..]`, from glue or the cache; those
      with none are left to be looked up. */
  function AddNameServers(env: Env, t: Task, ns: seq<RR>, glue: seq<RR>, i: nat): (r: Task)
    requires i <= |ns|
    ensures r == t.(servers := r.servers, unresolved := r.unresolved)
    ensures forall a :: a in t.servers ==> a in r.servers
    decreases |ns| - i
  {
    if i == |ns| then t
    else if !ns[i].rdata.RDataNS? then AddNameServers(env, t, ns, glue, i + 1)
    else
      var target := ns[i].rdata.nsdname.labels;
      var glued := Ipv4Addresses(Collect(glue, target, TYPE_A));
      var cached := env.look(AskAddress(i), QKey(target, TYPE_A, CLASS_IN));
      var addresses := if glued == [] && cached.Some? && !cached.value.negative
                       then Ipv4Addresses(cached.value.records) else glued;
      var t' := t.(unresolved := if addresses == [] then t.unresolved + [target] else t.unresolved,
                   servers := AddServers(t.servers, addresses));
      AddNameServers(env, t', ns, glue, i + 1)
  }

  function EnterZone(ctx: Context, t: Task, zone: Dom, ns: seq<RR>, glue: seq<RR>): Task {
    var t' := AddNameServers(ctx.env, ResetZone(t, zone), ns, glue, 0);
    if zone == [] then t'.(servers := AddServers(t'.servers, Ipv4Addresses(ctx.cfg.hintAddresses))) else t'
  }

  /** Where to begin: the nearest zone, from `z` upward, with configured or cached
      servers, and the root hints if there is none. */
  function ClosestZone(ctx: Context, t: Task, z: Dom): Task
    decreases |z|
  {
    if z in ctx.cfg.stubs then
      var t' := ResetZone(t, z);
      t'.(servers := AddServers(t'.servers, ctx.cfg.stubs[z]))
    else
      var ns := ctx.env.look(AskZone(z), QKey(z, TYPE_NS, CLASS_IN));
      if ns.Some? && !ns.value.negative && ns.value.records != [] then EnterZone(ctx, t, z, ns.value.records, [])
      else if z == [] then EnterZone(ctx, t, [], ctx.cfg.hintNs, [])
      else ClosestZone(ctx, t, z[1..])
  }

  // ─── Asking ───────────────────────────────────────────────────────────────

  /** send_query: the budget is shared by the whole tree of tasks. */
  function SendQuery(ctx: Context, t: Task, address: Addr, tcp: bool): Verdict {
    if ctx.queries >= ctx.cfg.maxQueries then Done(Failed(MaxQueriesExceeded))
    else
      var s := t.SentTo(address);
      Query(t.(tried := if tcp then t.tried else t.tried + [address],
               asked := address, overTcp := tcp,
               sent0x20 := ctx.cfg.use0x20 && !tcp && address !in ctx.noCase,
               sent := t.sent[address := if tcp then s.(tcp := s.tcp + 1) else s.(udp := s.udp + 1)]))
  }

  predicate WouldCycle(t: Task, q: QKey) {
    (q.name == t.qname && q.qtype == t.Qtype()) || q in t.ancestry
  }

  /** The next name server to look up, and the task without those passed over. */
  function NextGlueless(cfg: Config, t: Task): (r: (Task, Option<Dom>))
    ensures r.0 == t.(unresolved := r.0.unresolved, glueless := r.0.glueless)
    ensures r.1.Some? ==> r.0.glueless == t.glueless + 1 <= cfg.maxGlueless && |t.ancestry| < MAX_SUBQUERY_DEPTH
                          && !WouldCycle(t, QKey(r.1.value, TYPE_A, CLASS_IN))
    ensures r.1.None? ==> r.0.glueless == t.glueless
    decreases |t.unresolved|
  {
    if t.unresolved == [] || t.glueless >= cfg.maxGlueless then (t, None)
    else
      var name := t.unresolved[0];
      var t' := t.(unresolved := t.unresolved[1..]);
      if WouldCycle(t, QKey(name, TYPE_A, CLASS_IN)) || |t.ancestry| >= MAX_SUBQUERY_DEPTH then NextGlueless(cfg, t')
      else (t'.(glueless := t.glueless + 1), Some(name))
  }

  /** next_server: an untried address, else a glueless name server, else another
      round for those that timed out, else failure. */
  function NextServer(ctx: Context, t: Task): Verdict
    decreases if t.retryRounds <= MAX_RETRY_ROUNDS then MAX_RETRY_ROUNDS - t.retryRounds + 1 else 0
  {
    var untried := WithoutAll(t.servers, t.tried);
    if untried != [] then SendQuery(ctx, t, ctx.env.pick(untried), false)
    else
      var (t', name) := NextGlueless(ctx.cfg, t);
      if name.Some? then Lookup(t', Question(Name(name.value, name.value), TYPE_A, CLASS_IN))
      else if t'.timedOut != [] && t'.retryRounds < MAX_RETRY_ROUNDS then
        NextServer(ctx, Retried(t'))
      else Done(Failed(AllServersFailed))
  }

  /** Servers that gave no answer in time may be asked once more. */
  function Retried(t: Task): Task {
    t.(retryRounds := t.retryRounds + 1, tried := WithoutAll(t.tried, t.timedOut), timedOut := [])
  }

  lemma NextServerRetries(ctx: Context, t: Task, t': Task, v: Verdict)
    requires WithoutAll(t.servers, t.tried) == [] && NextGlueless(ctx.cfg, t) == (t', None)
    requires t'.timedOut != [] && t'.retryRounds < MAX_RETRY_ROUNDS && v == NextServer(ctx, Retried(t'))
    ensures v == NextServer(ctx, t)
  {
  }

  /** follow_cname. The hop counter is eight bits wide. */
  function FollowCname(cfg: Config, t: Task, cname: RR): Option<Task> {
    if !cname.rdata.RDataCNAME? then None
    else
      var hops: u8 := (t.hops as int + 1) % 256;
      if hops > cfg.maxCname then None
      else Some(t.(hops := hops, chain := t.chain + [cname], qname := cname.rdata.target.labels))
  }

  /** Hops are counted without wrapping: see ResolverHops for 255. */
  predicate Bounded(cfg: Config, t: Task) {
    t.hops <= cfg.maxCname <= 254
  }

  /** The answer so far, with `answers` at its end. */
  function OutcomeOf(t: Task, rcode: nat, answers: seq<RR>, authority: seq<RR>): Outcome {
    Resolved(rcode, t.chain + answers, authority)
  }

  predicate Usable(e: Option<Entry>) {
    e.Some? && !e.value.negative && e.value.trust == Answer
  }

  /** step: what the cache settles, through its CNAMEs, is the outcome; otherwise
      servers are asked. Entries below the highest rank settle nothing. */
  function Step(ctx: Context, t: Task): Verdict
    requires Bounded(ctx.cfg, t)
    decreases 255 - t.hops
  {
    var nx := ctx.env.look(AskNx(t.hops), QKey(t.qname, NXDOMAIN_TYPE, CLASS_IN));
    var hit := ctx.env.look(AskAnswer(t.hops), QKey(t.qname, t.Qtype(), CLASS_IN));
    var cname := ctx.env.look(AskCname(t.hops), QKey(t.qname, TYPE_CNAME, CLASS_IN));
    if nx.Some? then Done(OutcomeOf(t, RCODE_NXDOMAIN, [], nx.value.records))
    else if hit.Some? && hit.value.negative then Done(OutcomeOf(t, RCODE_NOERROR, [], hit.value.records))
    else if Usable(hit) then Done(OutcomeOf(t, RCODE_NOERROR, hit.value.records, []))
    else if t.Qtype() != TYPE_CNAME && Usable(cname) && cname.value.records != [] then
      match FollowCname(ctx.cfg, t, cname.value.records[0])
      case None => Done(Failed(MaxCnameChainExceeded))
      case Some(t') => Step(ctx, t')
    else NextServer(ctx, ClosestZone(ctx, t, t.qname))
  }

  /** The start timer: questions of another class fail at once. */
  function Begin(ctx: Context, t: Task): Verdict
    requires Bounded(ctx.cfg, t)
  {
    if t.question.qclass != CLASS_IN then Done(Failed(ServFail)) else Step(ctx, t)
  }

  /** on_child_done: the addresses found, if any, are servers to ask. */
  function ChildDone(ctx: Context, t: Task, child: Outcome): Verdict {
    NextServer(ctx, if child.Resolved? then t.(servers := AddServers(t.servers, Ipv4Addresses(child.answers))) else t)
  }

  // ─── Responses ────────────────────────────────────────────────────────────

  datatype UpstreamError = UpstreamTimeout | NetworkError | CaseMismatch | SpoofSuspected

  datatype Reply = Reply(msg: Message) | NoReply(error: UpstreamError)

  function Plain(ctx: Context, v: Verdict): Reaction {
    Reaction(v, [], ctx.noCase)
  }

  /** on_response */
  function OnReply(ctx: Context, t: Task, reply: Reply): Reaction
    requires Bounded(ctx.cfg, t)
  {
    match reply
    case NoReply(SpoofSuspected) => Plain(ctx, SendQuery(ctx, t, t.asked, true))
    case NoReply(CaseMismatch) =>
      var s := t.SentTo(t.asked);
      var t' := t.(tried := Without(t.tried, t.asked), sent := t.sent[t.asked := s.(wrongCase := s.wrongCase + 1)]);
      var ctx' := ctx.(noCase := ctx.noCase + {t.asked});
      Plain(ctx', SendQuery(ctx', t', t.asked, false))
    case NoReply(UpstreamTimeout) => Plain(ctx, NextServer(ctx, t.(timedOut := t.timedOut + [t.asked])))
    case NoReply(NetworkError) => Plain(ctx, NextServer(ctx, t))
    case Reply(m) => OnMessage(ctx, t, m)
  }

  function OnMessage(ctx: Context, t: Task, m: Message): Reaction
    requires Bounded(ctx.cfg, t)
  {
    if m.header.tc then
      Plain(ctx, if t.overTcp then NextServer(ctx, t) else SendQuery(ctx, t, t.asked, true))
    else if m.header.rcode != RCODE_NOERROR && m.header.rcode != RCODE_NXDOMAIN then Plain(ctx, NextServer(ctx, t))
    else Believe(ctx, t, FilterToBailiwick(m, t.zone))
  }

  /** Where following the answer section's CNAMEs leads, and what it caches. */
  datatype Chase = Found(t: Task, rrset: seq<RR>, inserts: seq<Insert>)
                 | TooLong(inserts: seq<Insert>)
                 | Open(t: Task, inserts: seq<Insert>)

  function AnswerRank(m: Message): TrustRank {
    if m.header.aa then Answer else Authority
  }

  function ChaseAnswers(ctx: Context, t: Task, m: Message, before: seq<Insert>): (c: Chase)
    requires Bounded(ctx.cfg, t)
    ensures c.Open? ==> Bounded(ctx.cfg, c.t)
    decreases 255 - t.hops
  {
    var rrset := Collect(m.answers, t.qname, t.Qtype());
    var cname := Collect(m.answers, t.qname, TYPE_CNAME);
    if rrset != [] then
      var ins := Insert(QKey(t.qname, t.Qtype(), CLASS_IN), Entry(rrset, AnswerRank(m), false), MinTtl(rrset), t.zone,
                        m.header.aa);
      Found(t, rrset, before + [ins] + (if t.Qtype() == TYPE_NS then CacheGlue(t.zone, m, rrset) else []))
    else if t.Qtype() == TYPE_CNAME || cname == [] then Open(t, before)
    else
      var ins := Insert(QKey(t.qname, TYPE_CNAME, CLASS_IN), Entry([cname[0]], AnswerRank(m), false), cname[0].ttl,
                        t.zone, m.header.aa);
      match FollowCname(ctx.cfg, t, cname[0])
      case None => TooLong(before + [ins])
      case Some(t') => ChaseAnswers(ctx, t', m, before + [ins])
  }

  /** cache_glue: at glue rank, which finds servers and never answers. */
  function CacheGlue(zone: Dom, m: Message, ns: seq<RR>): seq<Insert> {
    if ns == [] then []
    else
      var rest := CacheGlue(zone, m, ns[1..]);
      if !ns[0].rdata.RDataNS? then rest
      else
        var target := ns[0].rdata.nsdname.labels;
        var glue := Collect(m.additional, target, TYPE_A);
        if glue == [] then rest
        else [Insert(QKey(target, TYPE_A, CLASS_IN), Entry(glue, Glue, false), MinTtl(glue), zone, m.header.aa)] + rest
  }

  /** A filtered response. */
  function Believe(ctx: Context, t: Task, m: Message): Reaction
    requires Bounded(ctx.cfg, t)
  {
    match ChaseAnswers(ctx, t, m, [])
    case Found(t', rrset, inserts) => Reaction(Done(OutcomeOf(t', RCODE_NOERROR, rrset, [])), inserts, ctx.noCase)
    case TooLong(inserts) => Reaction(Done(Failed(MaxCnameChainExceeded)), inserts, ctx.noCase)
    case Open(t', inserts) =>
      if t'.chain != t.chain then Reaction(Step(ctx, t'), inserts, ctx.noCase) else NoAnswer(ctx, t, m)
  }

  function NegativeInsert(t: Task, m: Message, qtype: u16, proof: seq<RR>): seq<Insert>
    requires forall x :: x in proof ==> x.rdata.RDataSOA?
  {
    if proof == [] then []
    else [Insert(QKey(t.qname, qtype, CLASS_IN), Entry(proof, Authority, true), NegativeTtl(proof[0]), t.zone,
                 m.header.aa)]
  }

  /** No answer in it: NXDOMAIN, a referral, NODATA, or nothing useful. */
  function NoAnswer(ctx: Context, t: Task, m: Message): Reaction {
    var proof := FindSoa(m.authority, t.qname);
    var ns := if m.header.aa then [] else ReferralNs(m.authority);
    if m.header.rcode == RCODE_NXDOMAIN then
      Reaction(Done(OutcomeOf(t, RCODE_NXDOMAIN, [], proof)), NegativeInsert(t, m, NXDOMAIN_TYPE, proof), ctx.noCase)
    else if ns != [] then
      if !Downward(t, ns[0].name.labels) then Plain(ctx, NextServer(ctx, t)) else Refer(ctx, t, m, ns)
    else if m.header.aa || proof != [] then
      Reaction(Done(OutcomeOf(t, RCODE_NOERROR, [], proof)), NegativeInsert(t, m, t.Qtype(), proof), ctx.noCase)
    else Plain(ctx, NextServer(ctx, t))
  }

  /** Is a delegated zone strictly inside ours and still around the name? */
  predicate Downward(t: Task, zone: Dom) {
    |zone| > |t.zone| && IsSuffix(zone, t.qname)
  }

  function Refer(ctx: Context, t: Task, m: Message, ns: seq<RR>): Reaction
    requires ns != []
  {
    var referrals: u16 := (t.referrals as int + 1) % 0x1_0000;
    if referrals > ctx.cfg.maxReferrals then Plain(ctx, Done(Failed(MaxDepthExceeded)))
    else Reaction(EnterAndAsk(ctx, t.(referrals := referrals), ns, m.additional), ReferInserts(t, m, ns), ctx.noCase)
  }

  function EnterAndAsk(ctx: Context, t: Task, ns: seq<RR>, glue: seq<RR>): Verdict
    requires ns != []
  {
    NextServer(ctx, EnterZone(ctx, t, ns[0].name.labels, ns, glue))
  }

  function ReferInserts(t: Task, m: Message, ns: seq<RR>): seq<Insert>
    requires ns != []
  {
    [Insert(QKey(ns[0].name.labels, TYPE_NS, CLASS_IN), Entry(ns, Authority, false), MinTtl(ns), t.zone, m.header.aa)]
    + CacheGlue(t.zone, m, ns)
  }

  lemma ReferTooDeep(ctx: Context, t: Task, m: Message, ns: seq<RR>) returns (r: Reaction)
    requires ns != [] && (t.referrals as int + 1) % 0x1_0000 > ctx.cfg.maxReferrals
    ensures r == Refer(ctx, t, m, ns) && r.verdict == Done(Failed(MaxDepthExceeded)) && r.inserts == []
    ensures r.noCase == ctx.noCase
  {
    r := Plain(ctx, Done(Failed(MaxDepthExceeded)));
  }

  lemma ReferIs(ctx: Context, t: Task, m: Message, ns: seq<RR>, t1: Task, v: Verdict) returns (r: Reaction)
    requires ns != [] && t1 == t.(referrals := (t.referrals as int + 1) % 0x1_0000)
    requires t1.referrals <= ctx.cfg.maxReferrals
    requires v == EnterAndAsk(ctx, t1, ns, m.additional)
    ensures r == Refer(ctx, t, m, ns) && r == Reaction(v, ReferInserts(t, m, ns), ctx.noCase)
  {
    hide EnterAndAsk, ReferInserts;
    r := Reaction(v, ReferInserts(t, m, ns), ctx.noCase);
  }
}
