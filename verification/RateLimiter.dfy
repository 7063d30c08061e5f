/** Token buckets per client (core/policy/rate_limiter.cpp): over any stretch of
    time a client is let through at most its burst and what it earns meanwhile,
    and so are all newcomers together once the table is full. */
module RateLimiter {
  import opened DnsTypes
  import opened RateTable

  datatype Config = Config(qps: nat, burst: nat, maxClients: nat, exempt: Client -> bool)

  datatype Bucket = Bucket(tokens: real, last: Time)

  function Rate(cfg: Config): real {
    cfg.qps as real
  }

  /** The size of a bucket: a configured zero counts as one. */
  function Burst(cfg: Config): real {
    if cfg.burst < 1 then 1.0 else cfg.burst as real
  }

  /** What a client earns in a stretch of time. */
  function Earned(cfg: Config, from: Time, now: Time): real {
    (now - from) * Rate(cfg)
  }

  function Min(a: real, b: real): real {
    if b < a then b else a
  }

  /** The tokens a bucket has come to. */
  function Refilled(cfg: Config, b: Bucket, now: Time): real {
    Min(Burst(cfg), b.tokens + Earned(cfg, b.last, now))
  }

  function Take(cfg: Config, b: Bucket, now: Time): (Bucket, bool) {
    var tokens := Refilled(cfg, b, now);
    if tokens < 1.0 then (Bucket(tokens, now), false) else (Bucket(tokens - 1.0, now), true)
  }

  function Buckets(cfg: Config): Policy<Bucket, bool> {
    Policy((now: Time) => Bucket(Burst(cfg), now),
           (b: Bucket, now: Time) => Take(cfg, b, now),
           (b: Bucket, now: Time) => b.tokens + Earned(cfg, b.last, now) >= Burst(cfg),
           cfg.maxClients)
  }

  // ─── Forgetting ───────────────────────────────────────────────────────────

  lemma EarnedAdds(cfg: Config, from: Time, now: Time, later: Time)
    ensures Earned(cfg, from, later) == Earned(cfg, from, now) + Earned(cfg, now, later)
    ensures Earned(cfg, now, now) == 0.0 && (now <= later ==> Earned(cfg, now, later) >= 0.0)
  {
    var a, b := now - from, later - now;
    assert a + b == later - from;
    Products(a, b, Rate(cfg));
  }

  lemma Products(a: real, b: real, r: real)
    requires r >= 0.0
    ensures (a + b) * r == a * r + b * r && (b >= 0.0 ==> b * r >= 0.0)
  {
  }

  /** A full bucket answers as one just made would, now and later. */
  lemma BucketsForgettable(cfg: Config)
    ensures Forgettable(Buckets(cfg))
  {
    hide Earned, Burst;
    var p := Buckets(cfg);
    forall b, now, now' | p.spent(b, now) && now <= now'
      ensures p.spent(b, now')
    {
      EarnedAdds(cfg, b.last, now, now');
    }
    forall b, now | p.spent(b, now)
      ensures p.count(b, now) == p.count(p.start(now), now)
    {
      EarnedAdds(cfg, now, now, now);
      assert Refilled(cfg, b, now) == Burst(cfg) == Refilled(cfg, p.start(now), now);
    }
  }

  /** A client unheard of for long enough can be forgotten. */
  lemma IdleForgotten(cfg: Config, b: Bucket, now: Time)
    requires b.tokens >= 0.0 && (now - b.last) * cfg.qps as real >= (if cfg.burst == 0 then 1 else cfg.burst) as real
    ensures Buckets(cfg).spent(b, now)
  {
    assert Earned(cfg, b.last, now) == (now - b.last) * cfg.qps as real;
    hide Earned;
  }

  // ─── How much gets through ────────────────────────────────────────────────

  /** What a client could spend at once. */
  function Credit(cfg: Config, t: Table<Client, Bucket>, c: Client, now: Time): real {
    if c in t.entries then Refilled(cfg, t.entries[c], now) else Burst(cfg)
  }

  function SharedCredit(cfg: Config, t: Table<Client, Bucket>, now: Time): real {
    if t.overflowUsed then Refilled(cfg, t.overflow, now) else Burst(cfg)
  }

  predicate BucketOk(cfg: Config, b: Bucket, now: Time) {
    0.0 <= b.tokens <= Burst(cfg) && b.last <= now
  }

  ghost predicate TableOk(cfg: Config, t: Table<Client, Bucket>, now: Time) {
    && (forall c :: c in t.entries ==> BucketOk(cfg, t.entries[c], now))
    && (t.overflowUsed ==> BucketOk(cfg, t.overflow, now))
  }

  /** Credit is earned at the rate, never faster. */
  lemma RefillSlow(cfg: Config, b: Bucket, now: Time, later: Time)
    requires BucketOk(cfg, b, now) && now <= later
    ensures 0.0 <= Refilled(cfg, b, now) <= Refilled(cfg, b, later) <= Refilled(cfg, b, now) + Earned(cfg, now, later)
    ensures Refilled(cfg, b, later) <= Burst(cfg)
  {
    hide Earned, Burst;
    EarnedAdds(cfg, b.last, now, later);
    EarnedAdds(cfg, b.last, b.last, now);
  }

  /** A query costs what it was let through for. */
  lemma TakeCosts(cfg: Config, b: Bucket, now: Time)
    requires BucketOk(cfg, b, now)
    ensures BucketOk(cfg, Take(cfg, b, now).0, now)
    ensures var (b', ok) := Take(cfg, b, now);
      Refilled(cfg, b', now) == Refilled(cfg, b, now) - (if ok then 1.0 else 0.0)
  {
    hide Earned, Burst;
    RefillSlow(cfg, b, now, now);
    Still(cfg, Take(cfg, b, now).0);
  }

  /** A bucket that is up to date has what it says. */
  lemma Still(cfg: Config, b: Bucket)
    ensures Refilled(cfg, b, b.last) == Min(Burst(cfg), b.tokens)
  {
    EarnedAdds(cfg, b.last, b.last, b.last);
    hide Earned;
  }

  function Bit(b: bool): nat {
    if b then 1 else 0
  }

  /** A new bucket is full. */
  lemma StartFull(cfg: Config, now: Time)
    ensures BucketOk(cfg, Bucket(Burst(cfg), now), now) && Refilled(cfg, Bucket(Burst(cfg), now), now) == Burst(cfg)
  {
    EarnedAdds(cfg, now, now, now);
    hide Earned;
  }

  lemma MadeRoomOk(cfg: Config, t: Table<Client, Bucket>, c: Client, now: Time)
    requires TableOk(cfg, t, now)
    ensures TableOk(cfg, MadeRoom(Buckets(cfg), t, now), now)
    ensures Credit(cfg, MadeRoom(Buckets(cfg), t, now), c, now) == Credit(cfg, t, c, now)
    ensures SharedCredit(cfg, MadeRoom(Buckets(cfg), t, now), now) == SharedCredit(cfg, t, now)
  {
    hide Earned, Burst;
  }

  /** One query: the credit of client `c`, and that of all newcomers, pay for
      what they were let through. */
  lemma CheckCosts(cfg: Config, t: Table<Client, Bucket>, q: Query<Client>, c: Client)
    requires TableOk(cfg, t, q.now)
    ensures var (t', ok) := Check(Buckets(cfg), t, q.key, q.now);
      var shared := Overflows(Buckets(cfg), t, q.key, q.now);
      && TableOk(cfg, t', q.now)
      && Credit(cfg, t', c, q.now) + Bit(ok && !shared && q.key == c) as real == Credit(cfg, t, c, q.now)
      && SharedCredit(cfg, t', q.now) + Bit(ok && shared) as real == SharedCredit(cfg, t, q.now)
  {
    hide Earned, Burst, Refilled, Take, BucketOk;
    var p := Buckets(cfg);
    var t1 := MadeRoom(p, t, q.now);
    MadeRoomOk(cfg, t, c, q.now);
    StartFull(cfg, q.now);
    if q.key in t.entries {
      TakeCosts(cfg, t.entries[q.key], q.now);
    } else if Full(p, t1) {
      TakeCosts(cfg, if t1.overflowUsed then t1.overflow else Bucket(Burst(cfg), q.now), q.now);
    } else {
      TakeCosts(cfg, Bucket(Burst(cfg), q.now), q.now);
    }
  }

  lemma LaterOk(cfg: Config, t: Table<Client, Bucket>, c: Client, now: Time, later: Time)
    requires TableOk(cfg, t, now) && now <= later
    ensures TableOk(cfg, t, later)
    ensures 0.0 <= Credit(cfg, t, c, now)
    ensures Credit(cfg, t, c, later) <= Credit(cfg, t, c, now) + Earned(cfg, now, later)
    ensures 0.0 <= SharedCredit(cfg, t, now)
    ensures SharedCredit(cfg, t, later) <= SharedCredit(cfg, t, now) + Earned(cfg, now, later)
  {
    if c in t.entries { RefillSlow(cfg, t.entries[c], now, later); }
    if t.overflowUsed { RefillSlow(cfg, t.overflow, now, later); }
    EarnedAdds(cfg, now, now, later);
    assert Burst(cfg) >= 1.0;
    hide Earned, Burst, Refilled;
  }

  // ─── Runs ─────────────────────────────────────────────────────────────────

  /** How many of client `c`'s queries its own bucket let through. */
  function Admitted(cfg: Config, t: Table<Client, Bucket>, qs: seq<Query<Client>>, c: Client): nat
    decreases |qs|
  {
    if qs == [] then 0
    else
      var (t', ok) := Check(Buckets(cfg), t, qs[0].key, qs[0].now);
      Bit(ok && !Overflows(Buckets(cfg), t, qs[0].key, qs[0].now) && qs[0].key == c) + Admitted(cfg, t', qs[1..], c)
  }

  /** How many the shared bucket let through. */
  function SharedAdmitted(cfg: Config, t: Table<Client, Bucket>, qs: seq<Query<Client>>): nat
    decreases |qs|
  {
    if qs == [] then 0
    else
      var (t', ok) := Check(Buckets(cfg), t, qs[0].key, qs[0].now);
      Bit(ok && Overflows(Buckets(cfg), t, qs[0].key, qs[0].now)) + SharedAdmitted(cfg, t', qs[1..])
  }

  function EndOf(qs: seq<Query<Client>>, from: Time): Time {
    if qs == [] then from else qs[|qs| - 1].now
  }

  /** Over any run, whatever is forgotten or shared meanwhile: at most the burst,
      and the rate for as long as it takes. */
  lemma {:induction false} AdmitsAtMost(
    cfg: Config, t: Table<Client, Bucket>, qs: seq<Query<Client>>, from: Time, c: Client)
    requires TableOk(cfg, t, from) && InOrder(qs, from)
    ensures Admitted(cfg, t, qs, c) as real <= Credit(cfg, t, c, from) + Earned(cfg, from, EndOf(qs, from))
    ensures SharedAdmitted(cfg, t, qs) as real <= SharedCredit(cfg, t, from) + Earned(cfg, from, EndOf(qs, from))
    decreases |qs|
  {
    hide Credit, SharedCredit, Check, Overflows, TableOk, Earned;
    LaterOk(cfg, t, c, from, from);
    if qs == [] {
      EarnedAdds(cfg, from, from, from);
    } else {
      var q := qs[0];
      LaterOk(cfg, t, c, from, q.now);
      CheckCosts(cfg, t, q, c);
      var t' := Check(Buckets(cfg), t, q.key, q.now).0;
      AdmitsAtMost(cfg, t', qs[1..], q.now, c);
      EndStep(qs, from);
      EarnedAdds(cfg, from, q.now, EndOf(qs, from));
      var ok, shared := Check(Buckets(cfg), t, q.key, q.now).1, Overflows(Buckets(cfg), t, q.key, q.now);
      Adds(Bit(ok && !shared && q.key == c), Admitted(cfg, t', qs[1..], c));
      Adds(Bit(ok && shared), SharedAdmitted(cfg, t', qs[1..]));
    }
  }

  lemma Adds(a: nat, b: nat)
    ensures (a + b) as real == a as real + b as real
  {
  }

  lemma EndStep(qs: seq<Query<Client>>, from: Time)
    requires qs != []
    ensures EndOf(qs[1..], qs[0].now) == EndOf(qs, from)
  {
  }

  lemma EarnedIs(cfg: Config, from: Time, now: Time)
    ensures Earned(cfg, from, now) == (now - from) * cfg.qps as real
  {
  }

  lemma BurstBound(cfg: Config, t: Table<Client, Bucket>, qs: seq<Query<Client>>, from: Time, c: Client)
    requires TableOk(cfg, t, from) && InOrder(qs, from)
    ensures var most := (if cfg.burst == 0 then 1 else cfg.burst) as real + (EndOf(qs, from) - from) * cfg.qps as real;
      Admitted(cfg, t, qs, c) as real <= most && SharedAdmitted(cfg, t, qs) as real <= most
  {
    hide Admitted, SharedAdmitted, Refilled, Earned;
    EarnedIs(cfg, from, EndOf(qs, from));
    AdmitsAtMost(cfg, t, qs, from, c);
    if c in t.entries { RefillSlow(cfg, t.entries[c], from, from); }
    if t.overflowUsed { RefillSlow(cfg, t.overflow, from, from); }
  }

  // ─── Who is never refused ─────────────────────────────────────────────────

  /** `i + 1` queries by the `i`th time: no more than the credit and what is earned. */
  predicate Fits(cfg: Config, credit: real, from: Time, times: seq<Time>) {
    forall i {:trigger times[i]} :: 0 <= i < |times| ==> (i + 1) as real <= credit + Earned(cfg, from, times[i])
  }

  predicate Keeps(cfg: Config, times: seq<Time>) {
    forall i, j :: 0 <= i <= j < |times| ==> (j - i + 1) as real <= Burst(cfg) + Earned(cfg, times[i], times[j])
  }

  /** In no stretch more queries than the burst, of at least one, and so many per
      second. */
  predicate Conforms(cfg: Config, times: seq<Time>) {
    forall i, j :: 0 <= i <= j < |times| ==>
      (j - i + 1) as real <= (if cfg.burst == 0 then 1 else cfg.burst) as real + (times[j] - times[i]) * cfg.qps as real
  }

  lemma ConformsIs(cfg: Config, times: seq<Time>)
    ensures Conforms(cfg, times) <==> Keeps(cfg, times)
  {
    hide Earned;
    forall i, j | 0 <= i <= j < |times|
      ensures Earned(cfg, times[i], times[j]) == (times[j] - times[i]) * cfg.qps as real
    {
      EarnedIs(cfg, times[i], times[j]);
    }
  }

  predicate All(answers: seq<bool>) {
    forall i :: 0 <= i < |answers| ==> answers[i]
  }

  lemma KeepsStep(cfg: Config, times: seq<Time>)
    requires times != []
    ensures Keeps(cfg, times) <==> Fits(cfg, Burst(cfg), times[0], times) && Keeps(cfg, times[1..])
  {
    hide Burst, Earned;
    var rest := times[1..];
    if Keeps(cfg, times) {
      forall i | 0 <= i < |times|
        ensures (i + 1) as real <= Burst(cfg) + Earned(cfg, times[0], times[i])
      {
        assert (i - 0 + 1) as real <= Burst(cfg) + Earned(cfg, times[0], times[i]);
      }
      forall i, j | 0 <= i <= j < |rest|
        ensures (j - i + 1) as real <= Burst(cfg) + Earned(cfg, rest[i], rest[j])
      {
        assert rest[j] == times[j + 1] && rest[i] == times[i + 1] && ((j + 1) - (i + 1) + 1) == j - i + 1;
      }
    }
    if Fits(cfg, Burst(cfg), times[0], times) && Keeps(cfg, rest) {
      forall i, j | 0 <= i <= j < |times|
        ensures (j - i + 1) as real <= Burst(cfg) + Earned(cfg, times[i], times[j])
      {
        if i > 0 { assert rest[j - 1] == times[j] && rest[i - 1] == times[i] && ((j - 1) - (i - 1) + 1) == j - i + 1; }
      }
    }
  }

  /** The first query costs one of the credit. */
  lemma FitsTail(cfg: Config, credit: real, times: seq<Time>)
    requires times != []
    ensures Fits(cfg, credit, times[0], times) <==> credit >= 1.0 && Fits(cfg, credit - 1.0, times[0], times[1..])
  {
    hide Earned;
    var now, rest := times[0], times[1..];
    EarnedAdds(cfg, now, now, now);
    if Fits(cfg, credit, now, times) {
      assert (0 + 1) as real <= credit + Earned(cfg, now, times[0]);
      forall i | 0 <= i < |rest|
        ensures (i + 1) as real <= credit - 1.0 + Earned(cfg, now, rest[i])
      {
        assert (i + 1 + 1) as real <= credit + Earned(cfg, now, times[i + 1]);
        Adds(i + 1, 1);
      }
    }
    if credit >= 1.0 && Fits(cfg, credit - 1.0, now, rest) {
      forall i | 0 <= i < |times|
        ensures (i + 1) as real <= credit + Earned(cfg, now, times[i])
      {
        if i > 0 {
          assert (i - 1 + 1) as real <= credit - 1.0 + Earned(cfg, now, rest[i - 1]);
          Adds(i, 1);
        }
      }
    }
  }

  /** A bucket offers the lesser of its own credit and the burst. */
  lemma FitsRefilled(cfg: Config, b: Bucket, times: seq<Time>)
    requires times != []
    ensures Fits(cfg, b.tokens, b.last, times) && Fits(cfg, Burst(cfg), times[0], times)
            <==> Fits(cfg, Refilled(cfg, b, times[0]), times[0], times)
  {
    var now := times[0];
    assert Refilled(cfg, b, now) == Min(Burst(cfg), b.tokens + Earned(cfg, b.last, now));
    hide Burst, Earned, Refilled;
    forall i | 0 <= i < |times|
      ensures Earned(cfg, b.last, times[i]) == Earned(cfg, b.last, now) + Earned(cfg, now, times[i])
    {
      EarnedAdds(cfg, b.last, now, times[i]);
    }
  }

  /** A bucket refuses nothing exactly when the queries fit. */
  lemma {:induction false} RefusesNone(cfg: Config, b: Bucket, times: seq<Time>)
    ensures |Counted(Buckets(cfg), b, times)| == |times|
    ensures All(Counted(Buckets(cfg), b, times)) <==> Fits(cfg, b.tokens, b.last, times) && Keeps(cfg, times)
    decreases |times|
  {
    if times == [] {
    } else {
      var (b', ok) := Take(cfg, b, times[0]);
      RefusesNone(cfg, b', times[1..]);
      FitsRefilled(cfg, b, times);
      FitsTail(cfg, Refilled(cfg, b, times[0]), times);
      KeepsStep(cfg, times);
      AllStep(ok, Counted(Buckets(cfg), b', times[1..]));
      hide Fits, Keeps, All, Refilled, Burst;
    }
  }

  lemma AllStep(ok: bool, rest: seq<bool>)
    ensures All([ok] + rest) <==> ok && All(rest)
  {
    if All([ok] + rest) {
      assert ([ok] + rest)[0];
      assert forall i :: 0 <= i < |rest| ==> rest[i] == ([ok] + rest)[i + 1];
    }
  }

  /** Whatever others send, and whatever is forgotten or shared meanwhile: a
      client's own bucket never refuses exactly when the queries it counts never
      exceed the burst and the rate; and so for the shared one. */
  lemma ConformingServed(
    cfg: Config, t: Table<Client, Bucket>, qs: seq<Query<Client>>, from: Time, lane: Lane<Client>)
    requires t.entries == map[] && !t.overflowUsed && InOrder(qs, from)
    ensures var times, answers := LaneTimes(Buckets(cfg), t, qs, lane), LaneAnswers(Buckets(cfg), t, qs, lane);
      |answers| == |times| && (All(answers) <==> Conforms(cfg, times))
  {
    BucketsForgettable(cfg);
    hide All, Conforms, Keeps, Fits, Forgettable, Counted, LaneTimes, LaneAnswers, InOrder, Burst, Earned;
    LanesCount(Buckets(cfg), t, qs, from, lane, None);
    var times := LaneTimes(Buckets(cfg), t, qs, lane);
    ConformsIs(cfg, times);
    if times == [] {
      NoneRefused(cfg);
    } else {
      RefusesNone(cfg, Bucket(Burst(cfg), times[0]), times);
      KeepsStep(cfg, times);
    }
  }

  /** While clients are no more than the table may hold, each is served exactly as
      its own queries deserve. */
  lemma FewClientsServed(cfg: Config, t: Table<Client, Bucket>, qs: seq<Query<Client>>, from: Time, c: Client)
    requires t.entries == map[] && !t.overflowUsed && InOrder(qs, from) && |KeysOf(qs)| <= cfg.maxClients
    ensures var answers := Answers(Buckets(cfg), t, qs);
      |answers| == |qs| && (All(OwnAnswers(qs, answers, c)) <==> Conforms(cfg, OwnTimes(qs, c)))
  {
    hide All, Conforms, InOrder;
    FewKeysFit(Buckets(cfg), t, qs, KeysOf(qs));
    RoomyLanes(Buckets(cfg), t, qs, c);
    ConformingServed(cfg, t, qs, from, Own(c));
  }

  lemma NoneRefused(cfg: Config)
    ensures All([]) && Keeps(cfg, [])
  {
  }

  // ─── The object ───────────────────────────────────────────────────────────

  class Limiter {
    const cfg: Config
    var buckets: map<Client, Bucket>
    var overflow: Bucket
    var overflowUsed: bool
    var lastSweep: Time
    var limited: nat

    function State(): Table<Client, Bucket>
      reads this
    {
      Table(buckets, overflow, overflowUsed, lastSweep)
    }

    ghost predicate Valid()
      reads this
    {
      |buckets| <= cfg.maxClients
    }

    constructor (cfg: Config)
      ensures Valid() && this.cfg == cfg && State().entries == map[] && !overflowUsed && limited == 0
    {
      this.cfg, buckets, overflow, overflowUsed, lastSweep, limited := cfg, map[], Bucket(0.0, 0.0), false, 0.0, 0;
    }

    /** Brings a bucket up to date, and takes a token if there is one. */
    method TakeFrom(b: Bucket, now: Time) returns (b': Bucket, ok: bool)
      modifies this`limited
      ensures (b', ok) == Take(cfg, b, now) && limited == old(limited) + (if ok then 0 else 1)
    {
      var tokens := Min(Burst(cfg), b.tokens + Earned(cfg, b.last, now));
      assert tokens == Refilled(cfg, b, now);
      b' := Bucket(tokens, now);
      if b'.tokens < 1.0 {
        limited := limited + 1;
        return b', false;
      }
      b' := b'.(tokens := b'.tokens - 1.0);
      ok := true;
    }

    method ForgetIdle(now: Time)
      modifies this`buckets, this`lastSweep
      ensures State() == Swept(Buckets(cfg), old(State()), now)
    {
      buckets := map c | c in buckets && !(buckets[c].tokens + Earned(cfg, buckets[c].last, now) >= Burst(cfg))
                   :: buckets[c];
      lastSweep := now;
    }

    method Allow(sender: Sender, now: Time) returns (ok: bool)
      requires Valid()
      modifies this
      ensures Valid()
      ensures if cfg.qps == 0 || sender.NotIp? || cfg.exempt(sender.address)
              then ok && State() == old(State()) && limited == old(limited)
              else (State(), ok) == Check(Buckets(cfg), old(State()), sender.address, now)
                   && limited == old(limited) + (if ok then 0 else 1)
    {
      if cfg.qps == 0 || sender.NotIp? || cfg.exempt(sender.address) { return true; }
      var c := sender.address;
      CheckBounded(Buckets(cfg), State(), c, now);
      hide Take, Burst, Earned;
      if c in buckets {
        var b;
        b, ok := TakeFrom(buckets[c], now);
        buckets := buckets[c := b];
        return;
      }
      if |buckets| >= cfg.maxClients && now - lastSweep >= 1.0 { ForgetIdle(now); }
      if |buckets| >= cfg.maxClients {
        if !overflowUsed { overflow := Bucket(Burst(cfg), now); }
        overflowUsed := true;
        overflow, ok := TakeFrom(overflow, now);
        return;
      }
      var b;
      b, ok := TakeFrom(Bucket(Burst(cfg), now), now);
      buckets := buckets[c := b];
    }
  }
}
