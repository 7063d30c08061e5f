/** A run in which a client is told of absence that no server spoke of: the cache
    keeps missing names under type zero, where it keeps answers of that type too. */
module ResolverZero {
  import opened DnsTypes
  import opened ResolverTask
  import opened ResolverServers
  import opened ResolverAnswers
  import opened ResolverServes
  import opened ResolverTree
  import opened ResolverInvariant
  import opened ResolverSound
  import opened ResolverRuns

  const ROOT := Name([], [])

  /** One server, for the root. */
  function Settings(): Config {
    Config(1, 1, 8, 0, false, map[[] := [[1]]], [], [])
  }

  function Asked(): Question {
    Question(ROOT, NXDOMAIN_TYPE, CLASS_IN)
  }

  function Record(): RR {
    RR(ROOT, NXDOMAIN_TYPE, CLASS_IN, 60, RDataRaw([]))
  }

  function Response(): Message {
    Message(Header(0, true, 0, true, false, false, false, false, false, RCODE_NOERROR, 0, 1, 0, 0), [], [Record()], [],
            [], None)
  }

  function Key(): QKey {
    QKey([], NXDOMAIN_TYPE, CLASS_IN)
  }

  function PickFirst(s: seq<Addr>): Addr {
    if s == [] then [] else s[0]
  }

  function Miss(): Env {
    Env((_, _) => None, PickFirst)
  }

  function Hit(): Env {
    Env((_, key) => if key == Key() then Some(Entry([Record()], Answer, false)) else None, PickFirst)
  }

  function Written(): Insert {
    Insert(Key(), Entry([Record()], Answer, false), 60, [], true)
  }

  function Waiting(): Task {
    NewTask(Asked(), []).(servers := [[1]], tried := [[1]], asked := [1], sent := map[[1] := Sent(1, 0, 0)])
  }

  // ─── What each event does ─────────────────────────────────────────────────

  lemma Asks(ctx: Context)
    requires ctx.cfg == Settings() && ctx.env == Miss() && ctx.queries == 0
    ensures Bounded(ctx.cfg, NewTask(Asked(), [])) && Begin(ctx, NewTask(Asked(), [])) == Query(Waiting())
  {
    var t := NewTask(Asked(), []);
    var t' := t.(servers := [[1]]);
    assert ClosestZone(ctx, t, []) == t';
    assert WithoutAll([[1]], []) == [[1]];
    assert NextServer(ctx, t') == SendQuery(ctx, t', [1], false);
  }

  lemma Answers(ctx: Context)
    requires ctx.cfg == Settings()
    ensures Bounded(ctx.cfg, Waiting())
    ensures OnReply(ctx, Waiting(), Reply(Response())) == Reaction(Done(Resolved(RCODE_NOERROR, [Record()], [])),
                                                                   [Written()], ctx.noCase)
  {
    var t, m := Waiting(), Response();
    assert InZone([Record()], []) == [Record()];
    assert InZone([], []) == [];
    var f := FilterToBailiwick(m, []);
    assert f == m;
    assert Collect([Record()], [], NXDOMAIN_TYPE) == [Record()];
    assert [] + [Written()] + [] == [Written()] && [] + [Record()] == [Record()];
    assert ChaseAnswers(ctx, t, m, []) == Found(t, [Record()], [Written()]);
  }

  lemma Denies(ctx: Context)
    requires ctx.cfg == Settings() && ctx.env == Hit()
    ensures Begin(ctx, NewTask(Asked(), [])) == Done(Resolved(RCODE_NXDOMAIN, [], [Record()]))
  {
    var t := NewTask(Asked(), []);
    assert ctx.env.look(AskNx(t.hops), Key()) == Some(Entry([Record()], Answer, false));
    assert t.chain + [] == [];
  }

  /** A client task that ends takes its place in the table with it. */
  lemma Ends(st: State, id: nat, env: Env, o: Outcome)
    requires st.nodes.Keys == {id} && st.inFlight == map[Key() := id] && st.nodes[id].child == 0
    requires st.nodes[id].done.ToClient? && st.nodes[id].joiners == [] && st.nodes[id].t.question == Asked()
    ensures Apply(Settings(), env, st, id, Done(o))
            == st.(nodes := map[], inFlight := map[],
                   delivered := st.delivered + [Delivery(st.nodes[id].done.cb, Asked(), o)])
  {
    var n := st.nodes[id];
    assert st.nodes - {id} == map[] && st.inFlight - {Key()} == map[];
    assert Deliveries(n, o) == [Delivery(n.done.cb, Asked(), o)];
  }

  // ─── The states of the run ────────────────────────────────────────────────

  function Fresh(id: nat, cb: nat): Node {
    NewNode(Asked(), [], ToClient(cb), id, true)
  }

  function AfterAsking(): State {
    Initial().(nodes := map[1 := Fresh(1, 0)], inFlight := map[Key() := 1], queries := map[1 := 0], nextId := 2,
               asked := [Asked()])
  }

  function AfterSending(): State {
    AfterAsking().(nodes := map[1 := Fresh(1, 0).(t := Waiting(), start := false, upstream := true)],
                   queries := map[1 := 1])
  }

  function AfterAnswer(): State {
    State(map[], map[], map[1 := 1], {}, 2, [Asked()], {Written()}, Said(Waiting(), Reply(Response())),
          [Delivery(0, Asked(), Resolved(RCODE_NOERROR, [Record()], []))])
  }

  function AfterAskingAgain(): State {
    AfterAnswer().(nodes := map[2 := Fresh(2, 1)], inFlight := map[Key() := 2], queries := map[1 := 1, 2 := 0],
                   nextId := 3,
                   asked := [Asked(), Asked()])
  }

  function Told(): Delivery {
    Delivery(1, Asked(), Resolved(RCODE_NXDOMAIN, [], [Record()]))
  }

  lemma FirstAsks()
    ensures EventOk(Settings(), Initial(), Resolve(Asked()))
    ensures StepEvent(Settings(), Initial(), Resolve(Asked())) == AfterAsking()
  {
    hide NewTask;
    assert [] + [Asked()] == [Asked()];
  }

  lemma FirstStarts()
    ensures EventOk(Settings(), AfterAsking(), Start(1, Miss()))
    ensures StepEvent(Settings(), AfterAsking(), Start(1, Miss())) == AfterSending()
  {
    hide Begin, Waiting;
    var st := AfterAsking();
    Asks(ContextAt(Settings(), Miss(), st, 1));
    assert PicksMember(Miss()) && Honest(Miss(), st.log);
  }

  lemma FirstHears()
    ensures EventOk(Settings(), AfterSending(), Respond(1, Reply(Response()), Miss()))
    ensures StepEvent(Settings(), AfterSending(), Respond(1, Reply(Response()), Miss())) == AfterAnswer()
  {
    hide OnReply, Said, Response, Written, Apply;
    var st, o := AfterSending(), Resolved(RCODE_NOERROR, [Record()], []);
    var ctx := ContextAt(Settings(), Miss(), st, 1);
    Answers(ctx);
    var said := Said(Waiting(), Reply(Response()));
    var st1 := st.(nodes := map[1 := st.nodes[1].(upstream := false)], log := {Written()}, trusted := said);
    var r := OnReply(ctx, Waiting(), Reply(Response()));
    assert Learn(st.(nodes := st.nodes[1 := st.nodes[1].(upstream := false)]), r, said) == st1;
    Ends(st1, 1, Miss(), o);
    assert PicksMember(Miss());
    assert Honest(Miss(), Informed(Settings(), Miss(), st, 1, Reply(Response())).log);
  }

  lemma SecondAsks()
    ensures EventOk(Settings(), AfterAnswer(), Resolve(Asked()))
    ensures StepEvent(Settings(), AfterAnswer(), Resolve(Asked())) == AfterAskingAgain()
  {
    hide NewTask, Said;
  }

  lemma SecondStarts()
    ensures EventOk(Settings(), AfterAskingAgain(), Start(2, Hit()))
    ensures Told() in StepEvent(Settings(), AfterAskingAgain(), Start(2, Hit())).delivered
  {
    hide Begin, Said, Apply;
    var st := AfterAskingAgain();
    Denies(ContextAt(Settings(), Hit(), st, 2));
    Ends(st.(nodes := st.nodes[2 := st.nodes[2].(start := false)]), 2, Hit(), Told().outcome);
    assert PicksMember(Hit());
    assert HitOf(Entry([Record()], Answer, false), Key(), Written()) && Written() in st.log;
    assert Honest(Hit(), st.log);
  }

  // ─── The run ──────────────────────────────────────────────────────────────

  function Events(): seq<Event> {
    [Resolve(Asked()), Start(1, Miss()), Respond(1, Reply(Response()), Miss()), Resolve(Asked()), Start(2, Hit())]
  }

  lemma RunCons(cfg: Config, st: State, ev: Event, evs: seq<Event>)
    requires EventOk(cfg, st, ev) && Runs(cfg, StepEvent(cfg, st, ev), evs)
    ensures Runs(cfg, st, [ev] + evs) && After(cfg, st, [ev] + evs) == After(cfg, StepEvent(cfg, st, ev), evs)
  {
    hide EventOk, StepEvent;
    assert ([ev] + evs)[1..] == evs;
  }

  lemma WholeRun()
    ensures Runs(Settings(), Initial(), Events()) && Told() in After(Settings(), Initial(), Events()).delivered
  {
    hide EventOk, StepEvent, Settings, AfterAsking, AfterSending, AfterAnswer, AfterAskingAgain, Told;
    var evs := Events();
    FirstAsks();
    FirstStarts();
    FirstHears();
    SecondAsks();
    SecondStarts();
    assert evs[4..] == [evs[4]] + [] && evs[3..] == [evs[3]] + evs[4..] && evs[2..] == [evs[2]] + evs[3..];
    assert evs[1..] == [evs[1]] + evs[2..] && evs == [evs[0]] + evs[1..];
    hide Events;
    RunCons(Settings(), AfterAskingAgain(), evs[4], []);
    hide Runs, After;
    RunCons(Settings(), AfterAnswer(), evs[3], evs[4..]);
    RunCons(Settings(), AfterSending(), evs[2], evs[3..]);
    RunCons(Settings(), AfterAsking(), evs[1], evs[2..]);
    RunCons(Settings(), Initial(), evs[0], evs[1..]);
  }
}
