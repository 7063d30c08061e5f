/** The bounded table that both rate limiters keep (core/policy/rate_limiter.cpp,
    core/security/rrl.cpp): a full table is swept of entries that no longer
    matter, if the last sweep is a second old; while it stays full, newcomers
    share one entry. Sweeping cannot be observed. */
module RateTable {
  import opened DnsTypes

  type Client = Bytes

  /** The address a query came from, if it is an IP address. */
  datatype Sender = NotIp | Ip(address: Client)

  /** Seconds on a clock that never goes backwards. */
  type Time = real

  /** What an entry is when new, what counting a query does to it and answers,
      and when it might as well be new. */
  datatype Policy<!V, !R> = Policy(start: Time -> V, count: (V, Time) -> (V, R), spent: (V, Time) -> bool, most: nat)

  datatype Table<K, V> = Table(entries: map<K, V>, overflow: V, overflowUsed: bool, lastSweep: Time)

  function Swept<K, V, R>(p: Policy<V, R>, t: Table<K, V>, now: Time): Table<K, V> {
    t.(entries := map k | k in t.entries && !p.spent(t.entries[k], now) :: t.entries[k], lastSweep := now)
  }

  predicate Full<K, V, R>(p: Policy<V, R>, t: Table<K, V>) {
    |t.entries| >= p.most
  }

  /** The table a newcomer finds. */
  function MadeRoom<K, V, R>(p: Policy<V, R>, t: Table<K, V>, now: Time): Table<K, V> {
    if Full(p, t) && now - t.lastSweep >= 1.0 then Swept(p, t, now) else t
  }

  /** Must this query share the common entry? */
  predicate Overflows<K, V, R>(p: Policy<V, R>, t: Table<K, V>, key: K, now: Time) {
    key !in t.entries && Full(p, MadeRoom(p, t, now))
  }

  function Check<K, V, R>(p: Policy<V, R>, t: Table<K, V>, key: K, now: Time): (Table<K, V>, R) {
    if key in t.entries then
      var (v, r) := p.count(t.entries[key], now);
      (t.(entries := t.entries[key := v]), r)
    else
      var t' := MadeRoom(p, t, now);
      if Full(p, t') then
        var (v, r) := p.count(if t'.overflowUsed then t'.overflow else p.start(now), now);
        (t'.(overflow := v, overflowUsed := true), r)
      else
        var (v, r) := p.count(p.start(now), now);
        (t'.(entries := t'.entries[key := v]), r)
  }

  /** The table never grows past its limit. */
  lemma CheckBounded<K, V, R>(p: Policy<V, R>, t: Table<K, V>, key: K, now: Time)
    requires |t.entries| <= p.most
    ensures |Check(p, t, key, now).0.entries| <= p.most
  {
    var t' := MadeRoom(p, t, now);
    if key in t.entries {
      var v := p.count(t.entries[key], now).0;
      assert t.entries[key := v].Keys == t.entries.Keys;
      SameKeysSize(t.entries[key := v], t.entries);
    } else if !Full(p, t') {
      var v := p.count(p.start(now), now).0;
      assert key !in t'.entries && t'.entries[key := v].Keys == t'.entries.Keys + {key};
      assert |t'.entries[key := v].Keys| == |t'.entries.Keys| + 1;
      MapSize(t'.entries);
      MapSize(t'.entries[key := v]);
    } else {
      SweptSmaller(p, t, now);
    }
  }

  lemma MapSize<K, V>(m: map<K, V>)
    ensures |m| == |m.Keys|
  {
  }

  lemma SameKeysSize<K, V>(m: map<K, V>, n: map<K, V>)
    requires m.Keys == n.Keys
    ensures |m| == |n|
  {
    MapSize(m);
    MapSize(n);
  }

  lemma SweptSmaller<K, V, R>(p: Policy<V, R>, t: Table<K, V>, now: Time)
    ensures |Swept(p, t, now).entries| <= |t.entries|
  {
    var s := Swept(p, t, now).entries;
    assert s.Keys <= t.entries.Keys;
    SubsetSize(s.Keys, t.entries.Keys);
    MapSize(s);
    MapSize(t.entries);
  }

  lemma {:induction false} SubsetSize<K>(a: set<K>, b: set<K>)
    requires a <= b
    ensures |a| <= |b|
    decreases a
  {
    if a == {} {
    } else {
      var x :| x in a;
      SubsetSize(a - {x}, b - {x});
    }
  }

  // ─── When entries are forgotten ───────────────────────────────────────────

  /** A newcomer to a full table, a second after the last sweep: if anything can be
      forgotten it is, and the newcomer has an entry of its own. */
  lemma NewcomerFindsRoom<K, V, R>(p: Policy<V, R>, t: Table<K, V>, key: K, now: Time, idle: K)
    requires key !in t.entries && |t.entries| == p.most && now - t.lastSweep >= 1.0
    requires idle in t.entries && p.spent(t.entries[idle], now)
    ensures var t' := Check(p, t, key, now).0;
      && !Overflows(p, t, key, now) && key in t'.entries && t'.lastSweep == now
      && forall k :: k in t.entries ==>
           ((k in t'.entries) <==> !p.spent(t.entries[k], now)) && (k in t'.entries ==> t'.entries[k] == t.entries[k])
  {
    var s := Swept(p, t, now).entries;
    assert s.Keys <= t.entries.Keys - {idle};
    SubsetSize(s.Keys, t.entries.Keys - {idle});
    MapSize(s);
    MapSize(t.entries);
    assert |t.entries.Keys - {idle}| == |t.entries.Keys| - 1;
  }

  /** Otherwise nothing is: neither for a key that is known, nor while there is
      room, nor sooner than a second after the last sweep. */
  lemma NothingForgotten<K, V, R>(p: Policy<V, R>, t: Table<K, V>, key: K, now: Time)
    requires key in t.entries || |t.entries| < p.most || now - t.lastSweep < 1.0
    ensures var t' := Check(p, t, key, now).0;
      && t'.lastSweep == t.lastSweep
      && forall k :: k in t.entries ==> k in t'.entries && (k != key ==> t'.entries[k] == t.entries[k])
  {
  }

  // ─── Forgetting cannot be observed ────────────────────────────────────────

  /** Once spent an entry stays so, and counting on it is counting on a new one. */
  ghost predicate Forgettable<V(!new), R(!new)>(p: Policy<V, R>) {
    && (forall v, now, now' :: p.spent(v, now) && now <= now' ==> p.spent(v, now'))
    && (forall v, now :: p.spent(v, now) ==> p.count(v, now) == p.count(p.start(now), now))
  }

  /** An entry for every key that ever came, none forgotten. */
  function IdealCheck<K, V, R>(p: Policy<V, R>, m: map<K, V>, key: K, now: Time): (map<K, V>, R) {
    var (v, r) := p.count(if key in m then m[key] else p.start(now), now);
    (m[key := v], r)
  }

  /** What the table has forgotten is spent. */
  ghost predicate Simulates<K(!new), V, R>(p: Policy<V, R>, t: Table<K, V>, m: map<K, V>, now: Time) {
    && (forall k :: k in t.entries ==> k in m && m[k] == t.entries[k])
    && (forall k :: k in m && k !in t.entries ==> p.spent(m[k], now))
  }

  lemma SweptSimulates<K(!new), V(!new), R(!new)>(p: Policy<V, R>, t: Table<K, V>, m: map<K, V>, now: Time)
    requires Simulates(p, t, m, now)
    ensures Simulates(p, MadeRoom(p, t, now), m, now)
  {
  }

  lemma LaterSimulates<K(!new), V(!new), R(!new)>(p: Policy<V, R>, t: Table<K, V>, m: map<K, V>, now: Time, later: Time)
    requires Forgettable(p) && Simulates(p, t, m, now) && now <= later
    ensures Simulates(p, t, m, later)
  {
  }

  /** The same answer, as long as there is room. */
  lemma CheckSimulates<K(!new), V(!new), R(!new)>(p: Policy<V, R>, t: Table<K, V>, m: map<K, V>, key: K, now: Time)
    requires Forgettable(p) && Simulates(p, t, m, now) && !Overflows(p, t, key, now)
    ensures Check(p, t, key, now).1 == IdealCheck(p, m, key, now).1
    ensures Simulates(p, Check(p, t, key, now).0, IdealCheck(p, m, key, now).0, now)
  {
    SweptSimulates(p, t, m, now);
  }

  datatype Query<K> = Query(key: K, now: Time)

  predicate InOrder<K>(qs: seq<Query<K>>, from: Time) {
    qs != [] ==> from <= qs[0].now && InOrder(qs[1..], qs[0].now)
  }

  function Answers<K, V, R>(p: Policy<V, R>, t: Table<K, V>, qs: seq<Query<K>>): seq<R>
    decreases |qs|
  {
    if qs == [] then []
    else
      var (t', r) := Check(p, t, qs[0].key, qs[0].now);
      [r] + Answers(p, t', qs[1..])
  }

  function IdealAnswers<K, V, R>(p: Policy<V, R>, m: map<K, V>, qs: seq<Query<K>>): seq<R>
    decreases |qs|
  {
    if qs == [] then []
    else
      var (m', r) := IdealCheck(p, m, qs[0].key, qs[0].now);
      [r] + IdealAnswers(p, m', qs[1..])
  }

  predicate AlwaysRoom<K, V, R>(p: Policy<V, R>, t: Table<K, V>, qs: seq<Query<K>>)
    decreases |qs|
  {
    qs != [] ==> !Overflows(p, t, qs[0].key, qs[0].now) && AlwaysRoom(p, Check(p, t, qs[0].key, qs[0].now).0, qs[1..])
  }

  /** Over any run without overflow the table answers like one that never
      forgets. */
  lemma {:induction false} ForgettingUnobservable<K(!new), V(!new), R(!new)>(
    p: Policy<V, R>, t: Table<K, V>, m: map<K, V>, qs: seq<Query<K>>, from: Time)
    requires Forgettable(p) && Simulates(p, t, m, from) && InOrder(qs, from) && AlwaysRoom(p, t, qs)
    ensures Answers(p, t, qs) == IdealAnswers(p, m, qs)
    decreases |qs|
  {
    hide Forgettable, Simulates, Check, IdealCheck, Overflows;
    if qs == [] {
    } else {
      var q := qs[0];
      LaterSimulates(p, t, m, from, q.now);
      CheckSimulates(p, t, m, q.key, q.now);
      ForgettingUnobservable(p, Check(p, t, q.key, q.now).0, IdealCheck(p, m, q.key, q.now).0, qs[1..], q.now);
    }
  }

  // ─── Each entry on its own ────────────────────────────────────────────────

  /** Which entry counts a query: its key's own, or the one newcomers share. */
  datatype Lane<K> = Own(key: K) | Shared

  function LaneOf<K, V, R>(p: Policy<V, R>, t: Table<K, V>, q: Query<K>): Lane<K> {
    if Overflows(p, t, q.key, q.now) then Shared else Own(q.key)
  }

  /** When a run's queries came that one entry counted. */
  function LaneTimes<K(==), V, R>(p: Policy<V, R>, t: Table<K, V>, qs: seq<Query<K>>, lane: Lane<K>): seq<Time>
    decreases |qs|
  {
    if qs == [] then []
    else
      var rest := LaneTimes(p, Check(p, t, qs[0].key, qs[0].now).0, qs[1..], lane);
      if LaneOf(p, t, qs[0]) == lane then [qs[0].now] + rest else rest
  }

  /** What those queries were answered. */
  function LaneAnswers<K(==), V, R>(p: Policy<V, R>, t: Table<K, V>, qs: seq<Query<K>>, lane: Lane<K>): seq<R>
    decreases |qs|
  {
    if qs == [] then []
    else
      var (t', r) := Check(p, t, qs[0].key, qs[0].now);
      var rest := LaneAnswers(p, t', qs[1..], lane);
      if LaneOf(p, t, qs[0]) == lane then [r] + rest else rest
  }

  /** The answers when one entry counts queries at these times. */
  function Counted<V, R>(p: Policy<V, R>, v: V, times: seq<Time>): seq<R>
    decreases |times|
  {
    if times == [] then []
    else
      var (v', r) := p.count(v, times[0]);
      [r] + Counted(p, v', times[1..])
  }

  /** The same from an entry that may be yet to come: it is new at the first query. */
  function CountedFrom<V, R>(p: Policy<V, R>, o: Option<V>, times: seq<Time>): seq<R> {
    if times == [] then [] else Counted(p, Current(p, o, times[0]), times)
  }

  function Current<V, R>(p: Policy<V, R>, o: Option<V>, now: Time): V {
    if o.Some? then o.value else p.start(now)
  }

  /** The entry of a lane, while the table has it. */
  function Held<K, V>(t: Table<K, V>, lane: Lane<K>): Option<V> {
    match lane
    case Own(k) => if k in t.entries then Some(t.entries[k]) else None
    case Shared => if t.overflowUsed then Some(t.overflow) else None
  }

  /** `o` is the entry of a lane if nothing were ever forgotten. */
  predicate Stands<K, V(==), R>(p: Policy<V, R>, t: Table<K, V>, lane: Lane<K>, o: Option<V>, now: Time) {
    Held(t, lane) == o || (Held(t, lane).None? && lane.Own? && p.spent(o.value, now))
  }

  lemma LaneStep<K(!new), V(!new), R(!new)>(
    p: Policy<V, R>, t: Table<K, V>, q: Query<K>, lane: Lane<K>, o: Option<V>)
    requires Forgettable(p) && Stands(p, t, lane, o, q.now)
    ensures var (t', r) := Check(p, t, q.key, q.now);
      if LaneOf(p, t, q) != lane then Stands(p, t', lane, o, q.now)
      else var (v, r') := p.count(Current(p, o, q.now), q.now); r == r' && Held(t', lane) == Some(v)
  {
  }

  lemma LaterStands<K(!new), V(!new), R(!new)>(
    p: Policy<V, R>, t: Table<K, V>, lane: Lane<K>, o: Option<V>, now: Time, later: Time)
    requires Forgettable(p) && Stands(p, t, lane, o, now) && now <= later
    ensures Stands(p, t, lane, o, later)
  {
  }

  /** Over any run, through any forgetting and overflow: what a lane's queries are
      answered depends on when they came and on nothing else. */
  lemma {:induction false} LanesCount<K(!new), V(!new), R(!new)>(
    p: Policy<V, R>, t: Table<K, V>, qs: seq<Query<K>>, from: Time, lane: Lane<K>, o: Option<V>)
    requires Forgettable(p) && Stands(p, t, lane, o, from) && InOrder(qs, from)
    ensures LaneAnswers(p, t, qs, lane) == CountedFrom(p, o, LaneTimes(p, t, qs, lane))
    decreases |qs|
  {
    if qs == [] {
    } else {
      hide Forgettable, Check, LaneOf, Stands, Held;
      var q, rest := qs[0], qs[1..];
      LaterStands(p, t, lane, o, from, q.now);
      LaneStep(p, t, q, lane, o);
      var t' := Check(p, t, q.key, q.now).0;
      if LaneOf(p, t, q) == lane {
        var v := p.count(Current(p, o, q.now), q.now).0;
        HeldStands(p, t', lane, v, q.now);
        LanesCount(p, t', rest, q.now, lane, Some(v));
        var times, cur := LaneTimes(p, t, qs, lane), Current(p, o, q.now);
        assert times == [q.now] + LaneTimes(p, t', rest, lane) && times[1..] == LaneTimes(p, t', rest, lane);
        assert Counted(p, cur, times) == [p.count(cur, q.now).1] + Counted(p, v, times[1..]);
      } else {
        LanesCount(p, t', rest, q.now, lane, o);
      }
    }
  }

  lemma HeldStands<K(!new), V(!new), R(!new)>(p: Policy<V, R>, t: Table<K, V>, lane: Lane<K>, v: V, now: Time)
    requires Held(t, lane) == Some(v)
    ensures Stands(p, t, lane, Some(v), now)
  {
  }

  // ─── Room for all ─────────────────────────────────────────────────────────

  function OwnTimes<K(==)>(qs: seq<Query<K>>, key: K): seq<Time> {
    if qs == [] then []
    else if qs[0].key == key then [qs[0].now] + OwnTimes(qs[1..], key)
    else OwnTimes(qs[1..], key)
  }

  function OwnAnswers<K(==), R>(qs: seq<Query<K>>, answers: seq<R>, key: K): seq<R>
    requires |answers| == |qs|
  {
    if qs == [] then []
    else if qs[0].key == key then [answers[0]] + OwnAnswers(qs[1..], answers[1..], key)
    else OwnAnswers(qs[1..], answers[1..], key)
  }

  /** With room for all, each key is on its own. */
  lemma {:induction false} RoomyLanes<K, V, R>(p: Policy<V, R>, t: Table<K, V>, qs: seq<Query<K>>, key: K)
    requires AlwaysRoom(p, t, qs)
    ensures |Answers(p, t, qs)| == |qs|
    ensures LaneTimes(p, t, qs, Own(key)) == OwnTimes(qs, key)
    ensures LaneAnswers(p, t, qs, Own(key)) == OwnAnswers(qs, Answers(p, t, qs), key)
    decreases |qs|
  {
    if qs == [] {
    } else {
      hide Check, Overflows;
      var t' := Check(p, t, qs[0].key, qs[0].now).0;
      RoomyLanes(p, t', qs[1..], key);
      assert Answers(p, t, qs)[1..] == Answers(p, t', qs[1..]);
    }
  }

  function KeysOf<K>(qs: seq<Query<K>>): set<K> {
    set q | q in qs :: q.key
  }

  /** There is room if the keys of a run, and those there before it, are no more
      than the table may hold. */
  lemma {:induction false} FewKeysFit<K, V, R>(p: Policy<V, R>, t: Table<K, V>, qs: seq<Query<K>>, keys: set<K>)
    requires t.entries.Keys <= keys && KeysOf(qs) <= keys && |keys| <= p.most
    ensures AlwaysRoom(p, t, qs)
    decreases |qs|
  {
    if qs == [] {
    } else {
      var q := qs[0];
      assert q in qs && q.key in KeysOf(qs);
      var room := MadeRoom(p, t, q.now);
      if q.key !in t.entries {
        MapSize(room.entries);
        SubsetSize(room.entries.Keys + {q.key}, keys);
      }
      var t' := Check(p, t, q.key, q.now).0;
      assert t'.entries.Keys <= keys;
      assert KeysOf(qs[1..]) <= KeysOf(qs);
      FewKeysFit(p, t', qs[1..], keys);
    }
  }
}
