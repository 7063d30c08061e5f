/** All the resolutions in progress (core/resolver/recursive_resolver.cpp): client
    tasks, the tasks they wait for, the clients that joined them, and the steps
    that callbacks take. */
module ResolverTree {
  import opened DnsTypes
  import opened ResolverTask
  import opened ResolverServers
  import opened ResolverAnswers

  /** Who is told of a task's outcome: a client's callback, or a task. */
  datatype Sink = ToClient(cb: nat) | ToParent(parent: nat)

  datatype Waiter = Waiter(question: Question, cb: nat)

  /** A task and what it waits for; `root` is the client task that shares its
      query budget with it. */
  datatype Node = Node(t: Task, start: bool, upstream: bool, child: nat, deadline: bool, done: Sink,
                       joiners: seq<Waiter>, root: nat)
  {
    predicate Idle() {
      !start && !upstream && child == 0
    }

    /** Exactly one of start timer, query and child. */
    predicate Waiting() {
      (start && !upstream && child == 0) || (!start && upstream && child == 0) || (!start && !upstream && child != 0)
    }
  }

  /** A callback run, with the question as that client asked it. Callbacks are
      numbered in the order of the calls, whose questions are `asked`. */
  datatype Delivery = Delivery(cb: nat, question: Question, outcome: Outcome)

  datatype State = State(
    nodes: map<nat, Node>, inFlight: map<QKey, nat>, queries: map<nat, nat>, noCase: set<Addr>,
    nextId: nat, asked: seq<Question>, log: set<Insert>, trusted: Facts, delivered: seq<Delivery>)

  function Initial(): State {
    State(map[], map[], map[], {}, 1, [], {}, Facts({}, {}), [])
  }

  function ContextAt(cfg: Config, env: Env, st: State, root: nat): Context {
    Context(cfg, env, st.noCase, Spent(st, root))
  }

  /** The queries sent so far for a client task. */
  function Spent(st: State, root: nat): nat {
    if root in st.queries then st.queries[root] else 0
  }

  // ─── Ending tasks ─────────────────────────────────────────────────────────

  /** The in-flight table without task `id`. */
  function Unlisted(inFlight: map<QKey, nat>, id: nat, n: Node): map<QKey, nat> {
    var k := KeyOf(n.t.question);
    if n.done.ToClient? && k in inFlight && inFlight[k] == id then inFlight - {k} else inFlight
  }

  /** cancel: a task, and whatever it has in flight, disappear. */
  function Drop(st: State, id: nat): (st': State)
    ensures st'.nodes.Keys <= st.nodes.Keys && (forall x :: x in st'.nodes ==> st'.nodes[x] == st.nodes[x])
    ensures id !in st'.nodes
    ensures st' == st.(nodes := st'.nodes, inFlight := st'.inFlight)
    decreases st.nodes.Keys
  {
    if id !in st.nodes then st
    else
      var n := st.nodes[id];
      var st1 := st.(nodes := st.nodes - {id}, inFlight := Unlisted(st.inFlight, id, n));
      assert st1.nodes.Keys < st.nodes.Keys by { assert id !in st1.nodes.Keys; }
      if n.child != 0 then Drop(st1, n.child) else st1
  }

  /** Those to call back, in order: the client, then whoever joined it. */
  function Waiters(n: Node): seq<Waiter>
    requires n.done.ToClient?
  {
    [Waiter(n.t.question, n.done.cb)] + n.joiners
  }

  function Deliveries(n: Node, o: Outcome): seq<Delivery>
    requires n.done.ToClient?
  {
    var ws := Waiters(n);
    seq(|ws|, i requires 0 <= i < |ws| => Delivery(ws[i].cb, ws[i].question, o))
  }

  /** finish: clients are called back, joiners too; a parent goes on. */
  function Finish(cfg: Config, env: Env, st: State, id: nat, o: Outcome): State
    requires id in st.nodes
    decreases st.nodes.Keys, 0
  {
    var n := st.nodes[id];
    var st1 := Drop(st, id);
    assert st1.nodes.Keys < st.nodes.Keys by { assert id !in st1.nodes.Keys; }
    match n.done
    case ToClient(_) => st1.(delivered := st1.delivered + Deliveries(n, o))
    case ToParent(p) =>
      if p !in st1.nodes then st1
      else
        var st2 := Resumed(st1, p);
        assert st2.nodes.Keys == st1.nodes.Keys;
        Apply(cfg, env, st2, p, ChildDone(ContextAt(cfg, env, st2, st2.nodes[p].root), st2.nodes[p].t, o))
  }

  /** A task whose child has just ended. */
  function Resumed(st: State, p: nat): State
    requires p in st.nodes
  {
    st.(nodes := st.nodes[p := st.nodes[p].(child := 0)])
  }

  /** A task with a query in flight. */
  function Asking(st: State, id: nat, t: Task): State
    requires id in st.nodes
  {
    var n := st.nodes[id];
    st.(nodes := st.nodes[id := n.(t := t, upstream := true)], queries := st.queries[n.root := Spent(st, n.root) + 1])
  }

  /** A task with a sub-task in progress. */
  function Looking(st: State, id: nat, t: Task, q: Question): State
    requires id in st.nodes
  {
    var n := st.nodes[id];
    var child := NewNode(q, t.ancestry + [QKey(t.qname, t.Qtype(), CLASS_IN)], ToParent(id), n.root, false);
    st.(nodes := st.nodes[id := n.(t := t, child := st.nextId)][st.nextId := child], nextId := st.nextId + 1)
  }

  function NewNode(q: Question, ancestry: seq<QKey>, done: Sink, root: nat, deadline: bool): Node {
    Node(NewTask(q, ancestry), true, false, 0, deadline, done, [], root)
  }

  /** What a task decided, carried out. */
  function Apply(cfg: Config, env: Env, st: State, id: nat, v: Verdict): State
    requires id in st.nodes
    decreases st.nodes.Keys, 1
  {
    match v
    case Query(t) => Asking(st, id, t)
    case Lookup(t, q) => Looking(st, id, t, q)
    case Done(o) => Finish(cfg, env, st, id, o)
  }

  // ─── Events ───────────────────────────────────────────────────────────────

  datatype Event =
    | Resolve(q: Question)
    | Start(id: nat, env: Env)
    | Respond(id: nat, reply: Reply, env: Env)
    | Deadline(id: nat)

  predicate Joins(st: State, q: Question) {
    KeyOf(q) in st.inFlight && st.inFlight[KeyOf(q)] in st.nodes
  }

  /** resolve_client: join an identical resolution, or begin one. */
  function ResolveClient(st: State, q: Question): State {
    var k := KeyOf(q);
    if Joins(st, q) then
      var id := st.inFlight[k];
      var n := st.nodes[id];
      st.(nodes := st.nodes[id := n.(joiners := n.joiners + [Waiter(q, |st.asked|)])], asked := st.asked + [q])
    else
      st.(nodes := st.nodes[st.nextId := NewNode(q, [], ToClient(|st.asked|), st.nextId, true)],
          inFlight := st.inFlight[k := st.nextId], queries := st.queries[st.nextId := 0],
          nextId := st.nextId + 1, asked := st.asked + [q])
  }

  /** What a callback adds to the cache and to what is known of servers. */
  function Learn(st: State, r: Reaction, accepted: Facts): State {
    st.(noCase := r.noCase, log := st.log + (set x | x in r.inserts), trusted := st.trusted.Plus(accepted))
  }

  predicate Enabled(st: State, ev: Event) {
    match ev
    case Resolve(_) => true
    case Start(id, _) => id in st.nodes && st.nodes[id].start
    case Respond(id, reply, _) => id in st.nodes && st.nodes[id].upstream && CanReply(st.nodes[id].t, reply)
    case Deadline(id) => id in st.nodes && st.nodes[id].deadline
  }

  predicate Hops(cfg: Config, st: State) {
    forall id :: id in st.nodes ==> Bounded(cfg, st.nodes[id].t)
  }

  function StepEvent(cfg: Config, st: State, ev: Event): State
    requires Enabled(st, ev) && Hops(cfg, st)
  {
    match ev
    case Resolve(q) => ResolveClient(st, q)
    case Start(id, env) =>
      var n := st.nodes[id].(start := false);
      Apply(cfg, env, st.(nodes := st.nodes[id := n]), id, Begin(ContextAt(cfg, env, st, n.root), n.t))
    case Respond(id, reply, env) =>
      var n := st.nodes[id].(upstream := false);
      var r := OnReply(ContextAt(cfg, env, st, n.root), n.t, reply);
      Apply(cfg, env, Learn(st.(nodes := st.nodes[id := n]), r, Said(n.t, reply)), id, r.verdict)
    case Deadline(id) => DeadlineFinish(st, id)
  }

  /** The overall deadline: only client tasks have one. */
  function DeadlineFinish(st: State, id: nat): State
    requires id in st.nodes
  {
    var n := st.nodes[id];
    var st1 := Drop(st, id);
    if n.done.ToClient? then st1.(delivered := st1.delivered + Deliveries(n, Failed(Timeout))) else st1
  }
}
