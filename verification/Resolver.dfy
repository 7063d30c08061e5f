/** The recursive resolver object (core/resolver/recursive_resolver.cpp): its tasks,
    the questions in flight and the shared budgets, changed in place by the
    callbacks of clients, timers and upstream queries. */
module RecursiveResolver {
  import opened DnsTypes
  import opened ResolverTask
  import opened ResolverServers
  import opened ResolverAnswers
  import opened ResolverTree
  import opened ResolverInvariant
  import opened ResolverSound
  import opened ResolverRuns
  import opened ResolverLoops

  class Resolver {
    const cfg: Config
    var tasks: map<nat, Node>
    var inFlight: map<QKey, nat>
    var queries: map<nat, nat>
    var noCase: set<Addr>
    var nextId: nat
    var asked: seq<Question>
    var delivered: seq<Delivery>
    ghost var log: set<Insert>
    ghost var trusted: Facts

    ghost function Now(): State
      reads this
    {
      State(tasks, inFlight, queries, noCase, nextId, asked, log, trusted, delivered)
    }

    /** What holds between callbacks. */
    ghost predicate Valid()
      reads this
    {
      Inv(cfg, Now())
    }

    constructor (cfg: Config)
      requires cfg.maxCname <= 254
      ensures Valid() && this.cfg == cfg && Now() == Initial()
    {
      this.cfg := cfg;
      tasks, inFlight, queries, noCase, nextId, asked, delivered := map[], map[], map[], {}, 1, [], [];
      log, trusted := {}, Facts({}, {});
      new;
      InitialInv(cfg);
    }

    // ─── Ending tasks ───────────────────────────────────────────────────────

    /** cancel: nobody is told. */
    method Cancel(id: nat)
      modifies this
      ensures Now() == Drop(old(Now()), id)
      decreases tasks.Keys, 0
    {
      if id !in tasks { return; }
      var t := tasks[id];
      ghost var before := Now();
      tasks := tasks - {id};
      assert tasks.Keys < before.nodes.Keys by { assert id !in tasks.Keys && id in before.nodes.Keys; }
      Release(id, t);
    }

    method Release(id: nat, n: Node)
      modifies this
      ensures var st := old(Now()).(inFlight := Unlisted(old(inFlight), id, n));
        Now() == if n.child != 0 then Drop(st, n.child) else st
      decreases tasks.Keys, 1
    {
      var k := KeyOf(n.t.question);
      if n.done.ToClient? && k in inFlight && inFlight[k] == id { inFlight := inFlight - {k}; }
      if n.child != 0 { Cancel(n.child); }
    }

    /** finish: the task goes, its waiters are called back in order, or the task
        it was looked up for goes on. */
    method Finish(id: nat, env: Env, o: Outcome)
      requires id in tasks
      modifies this
      ensures Now() == ResolverTree.Finish(cfg, env, old(Now()), id, o)
      decreases tasks.Keys, 0
    {
      hide ChildDone;
      var n := tasks[id];
      ghost var before := Now();
      Cancel(id);
      assert tasks.Keys < before.nodes.Keys by { assert id !in tasks.Keys && id in before.nodes.Keys; }
      match n.done
      case ToClient(_) => CallBack(n, o);
      case ToParent(p) => OnChildDone(p, env, o);
    }

    method CallBack(n: Node, o: Outcome)
      requires n.done.ToClient?
      modifies this`delivered
      ensures delivered == old(delivered) + Deliveries(n, o)
    {
      delivered := delivered + [Delivery(n.done.cb, n.t.question, o)];
      var i := 0;
      while i < |n.joiners|
        invariant 0 <= i <= |n.joiners| && delivered == old(delivered) + Deliveries(n, o)[..i + 1]
      {
        delivered := delivered + [Delivery(n.joiners[i].cb, n.joiners[i].question, o)];
        i := i + 1;
      }
    }

    /** on_child_done */
    method OnChildDone(p: nat, env: Env, o: Outcome)
      modifies this
      ensures var st := old(Now()); Now() == if p !in st.nodes then st else
                var st2 := Resumed(st, p);
                Apply(cfg, env, st2, p, ChildDone(ContextAt(cfg, env, st2, st2.nodes[p].root), st2.nodes[p].t, o))
      decreases tasks.Keys, 2
    {
      hide NextServer, AddServers, Ipv4Addresses;
      if p !in tasks { return; }
      ghost var before := Now();
      tasks := tasks[p := tasks[p].(child := 0)];
      assert tasks.Keys == before.nodes.Keys;
      var t := tasks[p].t;
      if o.Resolved? {
        var addresses := AddressesOf(o.answers);
        var servers := AddEach(t.servers, addresses);
        t := t.(servers := servers);
      }
      var v := ChooseServer(Context(cfg, env, noCase, if tasks[p].root in queries then queries[tasks[p].root] else 0),
                            t);
      CarryOut(p, env, v);
    }

    /** What a task decided. */
    method CarryOut(id: nat, env: Env, v: Verdict)
      requires id in tasks
      modifies this
      ensures Now() == Apply(cfg, env, old(Now()), id, v)
      decreases tasks.Keys, 1
    {
      hide ChildDone, ResolverTree.Finish;
      var n := tasks[id];
      match v
      case Query(t) =>
        queries := queries[n.root := (if n.root in queries then queries[n.root] else 0) + 1];
        tasks := tasks[id := n.(t := t, upstream := true)];
      case Lookup(t, q) =>
        var child := NewNode(q, t.ancestry + [QKey(t.qname, t.Qtype(), CLASS_IN)], ToParent(id), n.root, false);
        tasks := tasks[id := n.(t := t, child := nextId)][nextId := child];
        nextId := nextId + 1;
      case Done(o) => Finish(id, env, o);
    }

    // ─── Callbacks ──────────────────────────────────────────────────────────

    /** resolve_client: join an identical resolution, or begin one. */
    method ResolveQuestion(q: Question)
      requires Valid()
      modifies this
      ensures Valid() && Now() == StepEvent(cfg, old(Now()), Event.Resolve(q))
    {
      hide Inv, Hops, NewNode;
      HopsOk(cfg, Now());
      StepKeeps(cfg, Now(), Event.Resolve(q));
      var k := KeyOf(q);
      if k in inFlight && inFlight[k] in tasks {
        var id := inFlight[k];
        tasks := tasks[id := tasks[id].(joiners := tasks[id].joiners + [Waiter(q, |asked|)])];
      } else {
        tasks := tasks[nextId := NewNode(q, [], ToClient(|asked|), nextId, true)];
        inFlight := inFlight[k := nextId];
        queries := queries[nextId := 0];
        nextId := nextId + 1;
      }
      asked := asked + [q];
    }

    /** The start timer. */
    method OnStart(id: nat, env: Env)
      requires Valid() && EventOk(cfg, Now(), Start(id, env))
      modifies this
      ensures Valid() && Now() == StepEvent(cfg, old(Now()), Start(id, env))
    {
      hide Inv, Apply, Step;
      StepKeeps(cfg, Now(), Start(id, env));
      var n := tasks[id].(start := false);
      var ctx := Context(cfg, env, noCase, if n.root in queries then queries[n.root] else 0);
      tasks := tasks[id := n];
      var v;
      if n.t.question.qclass != CLASS_IN {
        v := Done(Failed(ServFail));
      } else {
        v := StepOver(ctx, n.t);
      }
      CarryOut(id, env, v);
    }

    /** A reply from a server, or the want of one. */
    method OnUpstream(id: nat, reply: ResolverTask.Reply, env: Env)
      requires Valid() && EventOk(cfg, Now(), Respond(id, reply, env))
      modifies this
      ensures Valid() && Now() == StepEvent(cfg, old(Now()), Respond(id, reply, env))
    {
      hide Inv, Apply, OnReply, Said;
      StepKeeps(cfg, Now(), Respond(id, reply, env));
      var n := tasks[id].(upstream := false);
      var ctx := Context(cfg, env, noCase, if n.root in queries then queries[n.root] else 0);
      tasks := tasks[id := n];
      var r := OnResponse(ctx, n.t, reply);
      noCase := r.noCase;
      log := log + (set x | x in r.inserts);
      trusted := trusted.Plus(Said(n.t, reply));
      CarryOut(id, env, r.verdict);
    }

    /** The overall deadline of a client task. */
    method OnDeadline(id: nat)
      requires Valid() && EventOk(cfg, Now(), Deadline(id))
      modifies this
      ensures Valid() && Now() == StepEvent(cfg, old(Now()), Deadline(id))
    {
      hide Inv, Drop, Deliveries;
      StepKeeps(cfg, Now(), Deadline(id));
      var n := tasks[id];
      Cancel(id);
      if n.done.ToClient? { CallBack(n, Failed(Timeout)); }
    }
  }

  lemma HopsOk(cfg: Config, st: State)
    requires Inv(cfg, st)
    ensures Hops(cfg, st)
  {
    forall id | id in st.nodes
      ensures Bounded(cfg, st.nodes[id].t)
    {
      assert NodeSound(cfg, st.nodes[id], st.noCase, st.trusted);
    }
  }
}
