/** The event loop's timers (core/net/event_loop.cpp): an ordered table of deadlines
    and an index by timer, both changed by the very callbacks that a round of due
    timers runs. */
module Timers {
  /** Timers are ordered by deadline, then by age. */
  datatype Key = Key(deadline: int, id: nat)

  predicate Before(a: Key, b: Key) {
    a.deadline < b.deadline || (a.deadline == b.deadline && a.id < b.id)
  }

  /** What a callback may do to the timers, and when. */
  datatype Action = Add(now: int, delay: int) | Cancel(id: nat)

  /** The table in order, the deadline of each timer, and the next timer's id. */
  datatype State = State(queue: seq<Key>, deadlines: map<nat, int>, next: nat)

  predicate Sorted(q: seq<Key>) {
    forall i, j :: 0 <= i < j < |q| ==> Before(q[i], q[j])
  }

  /** The table and the index are in bijection, and ids are never reused. */
  predicate StateOk(st: State) {
    && Sorted(st.queue)
    && (forall k :: k in st.queue ==> k.id in st.deadlines && st.deadlines[k.id] == k.deadline && k.id < st.next)
    && (forall id :: id in st.deadlines ==> Key(st.deadlines[id], id) in st.queue)
  }

  // ─── The ordered table ────────────────────────────────────────────────────

  function Inserted(q: seq<Key>, k: Key): (r: seq<Key>)
    ensures forall x :: x in r <==> x in q || x == k
  {
    if q == [] || Before(k, q[0]) then [k] + q
    else
      assert q == [q[0]] + q[1..];
      [q[0]] + Inserted(q[1..], k)
  }

  function Erased(q: seq<Key>, k: Key): (r: seq<Key>)
    ensures forall x :: x in r <==> x in q && x != k
  {
    if q == [] then []
    else
      assert q == [q[0]] + q[1..];
      if q[0] == k then Erased(q[1..], k) else [q[0]] + Erased(q[1..], k)
  }

  lemma {:induction false} InsertedSorted(q: seq<Key>, k: Key)
    requires Sorted(q) && k !in q
    ensures Sorted(Inserted(q, k))
  {
    if q != [] && !Before(k, q[0]) {
      InsertedSorted(q[1..], k);
      var r := Inserted(q[1..], k);
      assert forall x :: x in r ==> Before(q[0], x);
    }
  }

  lemma {:induction false} ErasedSorted(q: seq<Key>, k: Key)
    requires Sorted(q)
    ensures Sorted(Erased(q, k))
  {
    if q == [] {
    } else {
      ErasedSorted(q[1..], k);
      var r := Erased(q[1..], k);
      assert forall x :: x in r ==> x in q[1..] && Before(q[0], x);
    }
  }

  // ─── Adding and cancelling ────────────────────────────────────────────────

  function Added(st: State, now: int, delay: int): State {
    State(Inserted(st.queue, Key(now + delay, st.next)), st.deadlines[st.next := now + delay], st.next + 1)
  }

  function Cancelled(st: State, id: nat): State {
    if id !in st.deadlines then st
    else st.(queue := Erased(st.queue, Key(st.deadlines[id], id)), deadlines := st.deadlines - {id})
  }

  lemma AddedOk(st: State, now: int, delay: int)
    requires StateOk(st)
    ensures StateOk(Added(st, now, delay))
  {
    InsertedSorted(st.queue, Key(now + delay, st.next));
    hide Inserted, Sorted;
  }

  lemma CancelledOk(st: State, id: nat)
    requires StateOk(st)
    ensures StateOk(Cancelled(st, id))
    ensures forall k :: k in Cancelled(st, id).queue <==> k in st.queue && k.id != id
  {
    hide Erased, Sorted;
    if id in st.deadlines { ErasedSorted(st.queue, Key(st.deadlines[id], id)); }
  }

  // ─── A callback ───────────────────────────────────────────────────────────

  /** The timers after a callback, and those it cancelled. */
  function Done(st: State, acts: seq<Action>): (State, set<nat>)
    decreases |acts|
  {
    if acts == [] then (st, {})
    else
      match acts[0]
      case Add(now, delay) => Done(Added(st, now, delay), acts[1..])
      case Cancel(id) =>
        var (st', gone) := Done(Cancelled(st, id), acts[1..]);
        (st', gone + if id in st.deadlines then {id} else {})
  }

  /** The keys of timers older than `newest`. */
  function Old(st: State, newest: nat): set<Key> {
    set k | k in st.queue && k.id < newest
  }

  function Without(ks: set<Key>, gone: set<nat>): set<Key> {
    set k | k in ks && k.id !in gone
  }

  /** Timers that were there, or came later. */
  predicate Known(ids: set<nat>, st: State) {
    forall id :: id in ids ==> id in st.deadlines || id >= st.next
  }

  /** Whatever a callback does, older timers are only ever cancelled. */
  lemma {:induction false} DoneOk(st: State, acts: seq<Action>, newest: nat)
    requires StateOk(st) && newest <= st.next
    ensures var (st', gone) := Done(st, acts);
      && StateOk(st') && st.next <= st'.next && Old(st', newest) == Without(Old(st, newest), gone)
      && Known(gone, st) && Known(st'.deadlines.Keys, st)
    decreases |acts|
  {
    if acts == [] {
    } else {
      match acts[0]
      case Add(now, delay) =>
        AddedOk(st, now, delay);
        assert Old(Added(st, now, delay), newest) == Old(st, newest);
        DoneOk(Added(st, now, delay), acts[1..], newest);
      case Cancel(id) =>
        CancelledOk(st, id);
        CancelledOld(st, id, newest);
        DoneOk(Cancelled(st, id), acts[1..], newest);
    }
    hide StateOk, Inserted, Erased;
  }

  lemma CancelledOld(st: State, id: nat, newest: nat)
    requires StateOk(st)
    ensures Old(Cancelled(st, id), newest) == Without(Old(st, newest), if id in st.deadlines then {id} else {})
  {
    CancelledOk(st, id);
    hide Sorted, Erased;
  }

  // ─── A round of due timers ────────────────────────────────────────────────

  /** What each callback of a round does: the first, the second, and so on. */
  type Behaviour = nat -> seq<Action>

  predicate Ends(st: State, now: int, newest: nat) {
    st.queue == [] || st.queue[0].deadline > now || st.queue[0].id >= newest
  }

  function Popped(st: State): State
    requires st.queue != []
  {
    st.(queue := st.queue[1..], deadlines := st.deadlines - {st.queue[0].id})
  }

  lemma PoppedOk(st: State, newest: nat)
    requires StateOk(st) && st.queue != []
    ensures StateOk(Popped(st)) && st.queue[0] !in Popped(st).queue && st.queue[0].id !in Popped(st).deadlines
    ensures Old(Popped(st), newest) == Old(st, newest) - {st.queue[0]}
  {
    hide Sorted;
    Tail(st.queue);
  }

  lemma Tail(q: seq<Key>)
    requires Sorted(q) && q != []
    ensures Sorted(q[1..]) && forall k :: k in q <==> k == q[0] || k in q[1..]
    ensures q[0] !in q[1..]
  {
    assert q == [q[0]] + q[1..];
  }

  /** The timers, the keys fired in order, and the timers cancelled. */
  datatype Round = Round(st: State, fired: seq<Key>, gone: set<nat>)

  ghost function RunDue(st: State, now: int, newest: nat, does: Behaviour, turn: nat): Round
    requires StateOk(st) && newest <= st.next
    decreases |Old(st, newest)|
  {
    if Ends(st, now, newest) then Round(st, [], {})
    else
      PoppedOk(st, newest);
      DoneOk(Popped(st), does(turn), newest);
      var (st', gone) := Done(Popped(st), does(turn));
      OldShrinks(st, st', newest, gone);
      var r := RunDue(st', now, newest, does, turn + 1);
      Round(r.st, [st.queue[0]] + r.fired, gone + r.gone)
  }

  lemma OldShrinks(st: State, st': State, newest: nat, gone: set<nat>)
    requires st.queue != [] && st.queue[0].id < newest
    requires Old(st', newest) == Without(Old(st, newest) - {st.queue[0]}, gone)
    ensures |Old(st', newest)| < |Old(st, newest)|
  {
    var a, b := Old(st', newest), Old(st, newest);
    assert a <= b && st.queue[0] in b && st.queue[0] !in a;
    ProperSubset(a, b, st.queue[0]);
  }

  lemma ProperSubset(a: set<Key>, b: set<Key>, k: Key)
    requires a <= b && k in b && k !in a
    ensures |a| < |b|
  {
    SubsetSize(a, b - {k});
  }

  lemma {:induction false} SubsetSize(a: set<Key>, b: set<Key>)
    requires a <= b
    ensures |a| <= |b|
    decreases a
  {
    if a == {} {
    } else {
      var x :| x in a;
      SubsetSize(a - {x}, b - {x});
    }
  }

  function Due(st: State, now: int, newest: nat): set<Key> {
    set k | k in st.queue && k.id < newest && k.deadline <= now
  }

  // ─── Every due timer fires, once ──────────────────────────────────────────

  /** Timers added since the round began are not due before it. */
  predicate NewLater(st: State, now: int, newest: nat) {
    forall k :: k in st.queue && k.id >= newest ==> k.deadline >= now
  }

  /** No timer is ever given a deadline in the past. */
  predicate Punctual(now: int, does: Behaviour, turns: nat) {
    forall t :: 0 <= t < turns ==> PunctualActs(now, does(t))
  }

  predicate PunctualActs(now: int, acts: seq<Action>) {
    forall i :: 0 <= i < |acts| && acts[i].Add? ==> acts[i].now >= now && acts[i].delay >= 0
  }

  lemma {:induction false} DoneLater(st: State, acts: seq<Action>, now: int, newest: nat)
    requires StateOk(st) && newest <= st.next && NewLater(st, now, newest) && PunctualActs(now, acts)
    ensures NewLater(Done(st, acts).0, now, newest)
    decreases |acts|
  {
    hide Inserted, Erased;
    if acts == [] {
    } else {
      assert PunctualActs(now, acts[1..]);
      match acts[0]
      case Add(at, delay) =>
        AddedOk(st, at, delay);
        DoneLater(Added(st, at, delay), acts[1..], now, newest);
      case Cancel(id) =>
        CancelledOk(st, id);
        DoneLater(Cancelled(st, id), acts[1..], now, newest);
    }
  }

  lemma DueOfOld(st: State, st': State, now: int, newest: nat, gone: set<nat>)
    requires st.queue != [] && Old(st', newest) == Without(Old(st, newest) - {st.queue[0]}, gone)
    ensures Due(st', now, newest) == Without(Due(st, now, newest) - {st.queue[0]}, gone)
  {
    assert forall k :: k in Due(st', now, newest) <==> k in Old(st', newest) && k.deadline <= now;
    assert forall k :: k in Due(st, now, newest) <==> k in Old(st, newest) && k.deadline <= now;
  }

  /** A timer added in the round is next, and holds up one that is due. */
  predicate HeldUp(st: State, now: int, newest: nat) {
    st.queue != [] && st.queue[0].id >= newest && Due(st, now, newest) != {}
  }

  /** When the loop stops, nothing due is left but what is held up. */
  lemma EndsClean(st: State, now: int, newest: nat)
    requires StateOk(st) && Ends(st, now, newest)
    ensures Due(st, now, newest) == {} <==> !HeldUp(st, now, newest)
    ensures NewLater(st, now, newest) ==> Due(st, now, newest) == {}
  {
    forall k | k in Due(st, now, newest)
      ensures st.queue[0].id >= newest && st.queue[0].deadline <= now && !NewLater(st, now, newest)
    {
      var i :| 0 <= i < |st.queue| && st.queue[i] == k;
      if i > 0 { assert Before(st.queue[0], st.queue[i]); }
      assert st.queue[0] in st.queue;
    }
  }

  /** Whatever callbacks do: each due timer fires, is cancelled, or is left; they
      fire once, in order, none that was added meanwhile does, and timers that
      were not due are touched only by being cancelled. */
  ghost predicate Accounted(st: State, now: int, newest: nat, r: Round) {
    && StateOk(r.st) && Sorted(r.fired)
    && (forall k :: k in Due(st, now, newest) ==> ((k in r.fired) <==> k.id !in r.gone && k !in Due(r.st, now, newest)))
    && (forall k :: k in r.fired ==> k in Due(st, now, newest))
    && Old(r.st, newest) == Without(Old(st, newest), r.gone) - (set k | k in r.fired)
    && Known(r.gone, st)
  }

  /** The keys that fired are the due ones not cancelled: nothing due is left. */
  ghost predicate Fired(st: State, now: int, newest: nat, r: Round) {
    && Accounted(st, now, newest, r) && Due(r.st, now, newest) == {}
    && forall k :: k in Due(st, now, newest) ==> ((k in r.fired) <==> k.id !in r.gone)
  }

  lemma {:induction false} RoundAccounted(st: State, now: int, newest: nat, does: Behaviour, turn: nat)
    requires StateOk(st) && newest <= st.next
    ensures var r := RunDue(st, now, newest, does, turn); Accounted(st, now, newest, r) && Ends(r.st, now, newest)
    decreases |Old(st, newest)|
  {
    hide StateOk, Old, Accounted, Done, Popped;
    if Ends(st, now, newest) {
      NoneFired(st, now, newest);
    } else {
      var (st', gone) := Done(Popped(st), does(turn));
      TurnOk(st, now, newest, does(turn));
      RoundAccounted(st', now, newest, does, turn + 1);
      AccountedStep(st, now, newest, gone, st', RunDue(st', now, newest, does, turn + 1));
    }
  }

  lemma NoneFired(st: State, now: int, newest: nat)
    requires StateOk(st)
    ensures Accounted(st, now, newest, Round(st, [], {}))
  {
  }

  /** One turn of the loop. */
  lemma TurnOk(st: State, now: int, newest: nat, acts: seq<Action>)
    requires StateOk(st) && newest <= st.next && !Ends(st, now, newest)
    ensures StateOk(Popped(st))
    ensures var (st', gone) := Done(Popped(st), acts);
      && StateOk(st') && newest <= st'.next && |Old(st', newest)| < |Old(st, newest)|
      && Old(st', newest) == Without(Old(st, newest) - {st.queue[0]}, gone) && st.next <= st'.next
      && Known(gone, Popped(st)) && Known(st'.deadlines.Keys, Popped(st))
  {
    hide Sorted, Done;
    PoppedOk(st, newest);
    DoneOk(Popped(st), acts, newest);
    var (st', gone) := Done(Popped(st), acts);
    OldShrinks(st, st', newest, gone);
  }

  lemma AccountedStep(st: State, now: int, newest: nat, gone: set<nat>, st': State, r: Round)
    requires StateOk(st) && newest <= st.next && !Ends(st, now, newest) && Accounted(st', now, newest, r)
    requires Old(st', newest) == Without(Old(st, newest) - {st.queue[0]}, gone) && st.next <= st'.next
    requires Known(gone, Popped(st)) && Known(st'.deadlines.Keys, Popped(st))
    ensures Accounted(st, now, newest, Round(r.st, [st.queue[0]] + r.fired, gone + r.gone))
  {
    var head := st.queue[0];
    DueOfOld(st, st', now, newest, gone);
    DueStays(st', r, now, newest);
  }

  lemma DueStays(st: State, r: Round, now: int, newest: nat)
    requires Old(r.st, newest) == Without(Old(st, newest), r.gone) - (set k | k in r.fired)
    ensures Due(r.st, now, newest) == Without(Due(st, now, newest), r.gone) - (set k | k in r.fired)
  {
    assert forall k :: k in Due(st, now, newest) <==> k in Old(st, newest) && k.deadline <= now;
    assert forall k :: k in Due(r.st, now, newest) <==> k in Old(r.st, newest) && k.deadline <= now;
  }

  /** A whole round fires all that is due exactly if no timer added in it holds a
      due one up at its end. */
  lemma FiresUnlessHeldUp(st: State, now: int, does: Behaviour)
    requires StateOk(st)
    ensures var r := RunDue(st, now, st.next, does, 0);
      Accounted(st, now, st.next, r) && (Fired(st, now, st.next, r) <==> !HeldUp(r.st, now, st.next))
  {
    RoundAccounted(st, now, st.next, does, 0);
    EndsClean(RunDue(st, now, st.next, does, 0).st, now, st.next);
    hide StateOk, Old, RunDue, Known, Without;
  }

  // ─── When nothing is held up ──────────────────────────────────────────────

  lemma {:induction false} RoundLater(st: State, now: int, newest: nat, does: Behaviour, turn: nat, turns: nat)
    requires StateOk(st) && newest <= st.next && NewLater(st, now, newest)
    requires turn + |Old(st, newest)| <= turns && Punctual(now, does, turns)
    ensures NewLater(RunDue(st, now, newest, does, turn).st, now, newest)
    decreases |Old(st, newest)|
  {
    hide StateOk, Old, Done, NewLater, Popped;
    if Ends(st, now, newest) {
    } else {
      var st' := Done(Popped(st), does(turn)).0;
      HeadOld(st, now, newest);
      TurnOk(st, now, newest, does(turn));
      PoppedOk(st, newest);
      PoppedLater(st, now, newest);
      DoneLater(Popped(st), does(turn), now, newest);
      RoundLater(st', now, newest, does, turn + 1, turns);
    }
  }

  lemma HeadOld(st: State, now: int, newest: nat)
    requires !Ends(st, now, newest)
    ensures |Old(st, newest)| > 0
  {
    assert st.queue[0] in Old(st, newest);
  }

  lemma PoppedLater(st: State, now: int, newest: nat)
    requires NewLater(st, now, newest) && st.queue != []
    ensures NewLater(Popped(st), now, newest) && Popped(st).next == st.next
  {
  }

  /** A whole round: whatever the callbacks add, never in the past, and cancel,
      exactly the timers due at its start and not cancelled fire, once and in
      order, and no timer added meanwhile does. */
  lemma WholeRound(st: State, now: int, does: Behaviour)
    requires StateOk(st) && Punctual(now, does, |Old(st, st.next)|)
    ensures Fired(st, now, st.next, RunDue(st, now, st.next, does, 0))
  {
    NoneNewer(st, now);
    RoundLater(st, now, st.next, does, 0, |Old(st, st.next)|);
    RoundAccounted(st, now, st.next, does, 0);
    EndsClean(RunDue(st, now, st.next, does, 0).st, now, st.next);
    hide StateOk, Old, RunDue, Known, Without;
  }

  lemma NoneNewer(st: State, now: int)
    requires StateOk(st)
    ensures NewLater(st, now, st.next)
  {
  }

  /** Clocks that do not run backwards, and delays of at least `d`. */
  ghost predicate DelaysFrom(d: int, now: int, does: Behaviour) {
    forall t: nat, i :: 0 <= i < |does(t)| && does(t)[i].Add? ==> does(t)[i].now >= now && does(t)[i].delay >= d
  }

  ghost predicate AllFire(d: int) {
    forall st, now, does {:trigger RunDue(st, now, st.next, does, 0)} ::
      StateOk(st) && DelaysFrom(d, now, does) ==> Fired(st, now, st.next, RunDue(st, now, st.next, does, 0))
  }

  /** Every round fires all that is due exactly if delays may not be negative. */
  lemma AllFireIff(d: int)
    ensures AllFire(d) <==> d >= 0
  {
    if d >= 0 {
      forall st, now, does: Behaviour | StateOk(st) && DelaysFrom(d, now, does)
        ensures Fired(st, now, st.next, RunDue(st, now, st.next, does, 0))
      {
        assert Punctual(now, does, |Old(st, st.next)|);
        WholeRound(st, now, does);
      }
      hide Fired, RunDue, StateOk, Old;
    } else {
      PastDeadlineEndsRound(d);
      hide Accounted, Sorted, RunDue;
    }
  }

  /** With a deadline in the past, a new timer can end the round before its time:
      here the second of two due timers is left for the next one. */
  lemma PastDeadlineEndsRound(d: int)
    requires d < 0
    ensures var st := State([Key(0, 0), Key(0, 1)], map[0 := 0, 1 := 0], 2);
      var does: Behaviour := _ => [Add(0, d)];
      && StateOk(st) && DelaysFrom(d, 0, does)
      && var r := RunDue(st, 0, 2, does, 0);
         r.fired == [Key(0, 0)] && HeldUp(r.st, 0, 2) && Key(0, 1) in Due(st, 0, 2) && !Fired(st, 0, 2, r)
  {
    hide Accounted, Sorted, Known;
    var st := State([Key(0, 0), Key(0, 1)], map[0 := 0, 1 := 0], 2);
    var does: Behaviour := _ => [Add(0, d)];
    TwoDue(st);
    var st' := AddedBefore(d);
    RunStep(st, 0, 2, does, 0);
    RunEnds(st', 0, 2, does, 1);
    assert [Key(0, 0)] + [] == [Key(0, 0)];
  }

  lemma TwoDue(st: State)
    requires st == State([Key(0, 0), Key(0, 1)], map[0 := 0, 1 := 0], 2)
    ensures StateOk(st) && !Ends(st, 0, 2) && Popped(st) == State([Key(0, 1)], map[1 := 0], 2)
    ensures Key(0, 1) in Due(st, 0, 2)
  {
  }

  lemma AddedBefore(d: int) returns (st: State)
    requires d < 0
    ensures st == Done(State([Key(0, 1)], map[1 := 0], 2), [Add(0, d)]).0
    ensures StateOk(st) && Ends(st, 0, 2) && st.next == 3 && HeldUp(st, 0, 2)
  {
    var p := State([Key(0, 1)], map[1 := 0], 2);
    st := Added(p, 0, d);
    AddedOk(p, 0, d);
    assert [Add(0, d)][1..] == [] && Done(p, [Add(0, d)]).0 == Done(st, []).0;
    assert Key(0, 1) in Due(st, 0, 2);
  }

  /** Timers fire by deadline, and those of one deadline oldest first. */
  lemma FiredInOrder(st: State, now: int, does: Behaviour, i: nat, j: nat)
    requires StateOk(st) && i < j < |RunDue(st, now, st.next, does, 0).fired|
    ensures var a, b := RunDue(st, now, st.next, does, 0).fired[i], RunDue(st, now, st.next, does, 0).fired[j];
      && a.deadline <= b.deadline <= now && (a.deadline == b.deadline ==> a.id < b.id)
  {
    hide StateOk, RunDue, Old, Known, Without;
    RoundAccounted(st, now, st.next, does, 0);
    var r := RunDue(st, now, st.next, does, 0);
    assert r.fired[j] in r.fired && r.fired[j] in Due(st, now, st.next);
  }

  /** A timer that is added fires in the first round at or after its time, and not
      before, if no callback interferes. */
  lemma AddedFires(st: State, now: int, delay: int, later: int)
    requires StateOk(st)
    ensures var st' := Added(st, now, delay);
      StateOk(st') &&
         (Key(now + delay, st.next) in RunDue(st', later, st'.next, _ => [], 0).fired <==> now + delay <= later)
  {
    hide RunDue, Sorted, Old, Known, Without;
    AddedOk(st, now, delay);
    var st', k := Added(st, now, delay), Key(now + delay, st.next);
    var does: Behaviour := _ => [];
    var r := RunDue(st', later, st'.next, does, 0);
    WholeRound(st', later, does);
    NoneCancelled(st', later, st'.next, does, 0);
    assert k in st'.queue && (k in Due(st', later, st'.next) <==> now + delay <= later);
  }

  lemma {:induction false} NoneCancelled(st: State, now: int, newest: nat, does: Behaviour, turn: nat)
    requires StateOk(st) && newest <= st.next && forall n :: does(n) == []
    ensures RunDue(st, now, newest, does, turn).gone == {}
    decreases |Old(st, newest)|
  {
    hide StateOk, Old, Popped;
    if Ends(st, now, newest) {
    } else {
      TurnOk(st, now, newest, does(turn));
      NoneCancelled(Done(Popped(st), does(turn)).0, now, newest, does, turn + 1);
    }
  }

  // ─── The object ───────────────────────────────────────────────────────────

  class EventLoop {
    var timers: seq<Key>
    var timerDeadlines: map<nat, int>
    var nextTimerId: nat

    function Now(): State
      reads this
    {
      State(timers, timerDeadlines, nextTimerId)
    }

    ghost predicate Valid()
      reads this
    {
      StateOk(Now())
    }

    constructor ()
      ensures Valid() && timers == []
    {
      timers, timerDeadlines, nextTimerId := [], map[], 1;
    }

    method AddTimer(now: int, delay: int) returns (id: nat)
      requires Valid()
      modifies this
      ensures Valid() && id == old(nextTimerId) && Now() == Added(old(Now()), now, delay)
    {
      AddedOk(Now(), now, delay);
      id := nextTimerId;
      nextTimerId := nextTimerId + 1;
      var deadline := now + delay;
      timers := Inserted(timers, Key(deadline, id));
      timerDeadlines := timerDeadlines[id := deadline];
    }

    method CancelTimer(id: nat) returns (found: bool)
      requires Valid()
      modifies this
      ensures Valid() && found == (id in old(timerDeadlines)) && Now() == Cancelled(old(Now()), id)
    {
      CancelledOk(Now(), id);
      if id !in timerDeadlines { return false; }
      timers := Erased(timers, Key(timerDeadlines[id], id));
      timerDeadlines := timerDeadlines - {id};
      return true;
    }

    /** A callback, which adds and cancels timers as it likes. */
    method Call(acts: seq<Action>)
      requires Valid()
      modifies this
      ensures Valid() && Now() == Done(old(Now()), acts).0
    {
      hide Added, Cancelled, StateOk;
      var i := 0;
      assert acts[0..] == acts;
      while i < |acts|
        invariant 0 <= i <= |acts| && Valid() && Done(old(Now()), acts).0 == Done(Now(), acts[i..]).0
      {
        assert acts[i..][0] == acts[i] && acts[i..][1..] == acts[i + 1..];
        match acts[i] {
          case Add(now, delay) =>
            var _ := AddTimer(now, delay);
          case Cancel(id) =>
            var _ := CancelTimer(id);
        }
        i := i + 1;
      }
      assert acts[i..] == [];
    }

    method RunDueTimers(now: int, does: Behaviour) returns (fired: seq<Key>)
      requires Valid()
      modifies this
      ensures Valid()
      ensures var r := RunDue(old(Now()), now, old(nextTimerId), does, 0); Now() == r.st && fired == r.fired
    {
      hide Done, StateOk, Old, RunDue;
      ghost var all := RunDue(Now(), now, nextTimerId, does, 0);
      var newest := nextTimerId;
      fired := [];
      assert [] + all.fired == all.fired;
      while timers != []
        invariant Valid() && newest <= nextTimerId
        invariant var r := RunDue(Now(), now, newest, does, |fired|); all.st == r.st && all.fired == fired + r.fired
        decreases |Old(Now(), newest)|
      {
        var head := timers[0];
        if head.deadline > now || head.id >= newest { break; }
        RunStep(Now(), now, newest, does, |fired|);
        ghost var rest := RunDue(Done(Popped(Now()), does(|fired|)).0, now, newest, does, |fired| + 1);
        timers, timerDeadlines := timers[1..], timerDeadlines - {head.id};
        Call(does(|fired|));
        assert fired + ([head] + rest.fired) == fired + [head] + rest.fired;
        fired := fired + [head];
      }
      RunEnds(Now(), now, newest, does, |fired|);
      assert fired + [] == fired;
    }
  }

  /** One timer of a round, then the rest of it. */
  lemma RunStep(st: State, now: int, newest: nat, does: Behaviour, turn: nat)
    requires StateOk(st) && newest <= st.next && !Ends(st, now, newest)
    ensures StateOk(Popped(st))
    ensures var st' := Done(Popped(st), does(turn)).0;
      && StateOk(st') && newest <= st'.next && |Old(st', newest)| < |Old(st, newest)|
      && var r, r' := RunDue(st, now, newest, does, turn), RunDue(st', now, newest, does, turn + 1);
         r.st == r'.st && r.fired == [st.queue[0]] + r'.fired
  {
    hide StateOk, Done, Old;
    PoppedOk(st, newest);
    DoneOk(Popped(st), does(turn), newest);
    var (st', gone) := Done(Popped(st), does(turn));
    OldShrinks(st, st', newest, gone);
  }

  lemma RunEnds(st: State, now: int, newest: nat, does: Behaviour, turn: nat)
    requires StateOk(st) && newest <= st.next && Ends(st, now, newest)
    ensures RunDue(st, now, newest, does, turn).st == st && RunDue(st, now, newest, does, turn).fired == []
  {
  }
}
