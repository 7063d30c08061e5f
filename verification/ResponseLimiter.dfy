/** Response rate limiting (core/security/rrl.cpp): of equal responses in a window,
    how many are sent whole, how many truncated and how many not at all. */
module ResponseLimiter {
  import opened DnsTypes
  import opened NameText
  import opened RateTable

  const COUNTER_LIMIT := 0x1_0000_0000

  type Fingerprint = Bytes

  /** A client's network: its address family and sixteen bytes, those past the
      prefix cleared. */
  datatype Network = Network(family: u8, address: Bytes)

  datatype Config = Config(
    responsesPerSecond: u32, windowSeconds: u32, slip: u32, maxEntries: nat,
    exempt: Client -> bool, network: Client -> Network)

  datatype Verdict = Send | Drop | Slip

  /** Counters of thirty-two bits. */
  datatype Entry = Entry(windowStart: Time, sent: u32, excess: u32)

  // ─── Fingerprints ─────────────────────────────────────────────────────────

  const RCODE_NOERROR := 0
  const RCODE_NXDOMAIN := 3

  function FirstSoa(rrs: seq<RR>): Option<seq<Label>> {
    if rrs == [] then None else if rrs[0].rtype == TYPE_SOA then Some(rrs[0].name.labels) else FirstSoa(rrs[1..])
  }

  /** What a response is about: if it denies something, the zone that does. */
  function Subject(m: Message): Option<seq<Label>> {
    var negative := m.header.rcode == RCODE_NXDOMAIN || (m.header.rcode == RCODE_NOERROR && m.answers == []);
    if negative && FirstSoa(m.authority).Some? then FirstSoa(m.authority)
    else if m.questions == [] then None
    else Some(m.questions[0].qname.labels)
  }

  function QuestionType(m: Message): u16 {
    if m.questions == [] then 0 else m.questions[0].qtype
  }

  function SubjectText(m: Message): Bytes {
    if Subject(m).None? then [] else Shown(Subject(m).value)
  }

  function FingerprintOf(net: Network, m: Message): Fingerprint {
    [net.family] + net.address + [m.header.rcode, QuestionType(m) / 0x100, QuestionType(m) % 0x100] + SubjectText(m)
  }

  predicate SubjectValid(m: Message) {
    Subject(m).Some? ==> ValidLabels(Subject(m).value)
  }

  lemma SameSubject(m: Message, m': Message)
    requires SubjectValid(m) && SubjectValid(m') && SubjectText(m) == SubjectText(m')
    ensures Subject(m) == Subject(m')
  {
    hide Subject, ShownLabel;
    if Subject(m).Some? && Subject(m').Some? {
      ShownInjective(Subject(m).value, Subject(m').value);
    }
  }

  /** Responses count together exactly when they are identical: the same client
      network, code, type and name. */
  lemma FingerprintsTell(net: Network, m: Message, net': Network, m': Message)
    requires |net.address| == 16 == |net'.address| && SubjectValid(m) && SubjectValid(m')
    ensures FingerprintOf(net, m) == FingerprintOf(net', m')
            <==>
            && net == net' && m.header.rcode == m'.header.rcode
            && QuestionType(m) == QuestionType(m') && Subject(m) == Subject(m')
  {
    hide Subject, Shown, QuestionType;
    var f, f' := FingerprintOf(net, m), FingerprintOf(net', m');
    if f == f' {
      assert f[0] == net.family && f'[0] == net'.family;
      assert f[1..17] == net.address && f'[1..17] == net'.address;
      assert f[17] == m.header.rcode && f'[17] == m'.header.rcode;
      assert f[18] as int * 0x100 + f[19] == QuestionType(m) && f'[18] as int * 0x100 + f'[19] == QuestionType(m');
      assert f[20..] == SubjectText(m) && f'[20..] == SubjectText(m');
      hide SubjectText, SubjectValid;
      SameSubject(m, m');
    }
  }

  /** An SOA at `i` is the first of its section. */
  predicate FirstSoaAt(rrs: seq<RR>, i: nat) {
    i < |rrs| && rrs[i].rtype == 6 && forall j :: 0 <= j < i ==> rrs[j].rtype != 6
  }

  lemma {:induction false} FirstSoaIs(rrs: seq<RR>, i: nat)
    requires FirstSoaAt(rrs, i)
    ensures FirstSoa(rrs) == Some(rrs[i].name.labels)
  {
    if i == 0 {
    } else {
      FirstSoaIs(rrs[1..], i - 1);
    }
  }

  /** Negative responses of one zone count together whatever names they deny; a
      flood of made-up names is a flood of equal responses. */
  lemma ZoneSharesCount(net: Network, m: Message, i: nat, m': Message, i': nat)
    requires m.header.rcode == m'.header.rcode
    requires (m.header.rcode == 3 || (m.header.rcode == 0 && m.answers == [] == m'.answers))
    requires FirstSoaAt(m.authority, i) && FirstSoaAt(m'.authority, i')
    requires m.authority[i].name.labels == m'.authority[i'].name.labels
    requires |m.questions| > 0 && |m'.questions| > 0 && m.questions[0].qtype == m'.questions[0].qtype
    ensures FingerprintOf(net, m) == FingerprintOf(net, m')
  {
    FirstSoaIs(m.authority, i);
    FirstSoaIs(m'.authority, i');
    hide Shown;
  }

  /** Answers count together only if their questions agree. */
  lemma AnswersCountApart(net: Network, m: Message, net': Network, m': Message)
    requires |net.address| == 16 == |net'.address| && SubjectValid(m) && SubjectValid(m')
    requires |m.questions| > 0 && |m'.questions| > 0 && m.answers != [] && m'.answers != [] && m.header.rcode == 0
    requires FingerprintOf(net, m) == FingerprintOf(net', m')
    ensures net == net' && m'.header.rcode == 0
    ensures m.questions[0].qtype == m'.questions[0].qtype && m.questions[0].qname.labels == m'.questions[0].qname.labels
  {
    FingerprintsTell(net, m, net', m');
    hide FingerprintOf, SubjectText, SubjectValid;
  }

  // ─── Windows ──────────────────────────────────────────────────────────────

  function WindowSeconds(cfg: Config): nat {
    if cfg.windowSeconds < 1 then 1 else cfg.windowSeconds
  }

  function Window(cfg: Config): Time {
    WindowSeconds(cfg) as real
  }

  function Cap(cfg: Config): nat {
    cfg.responsesPerSecond * WindowSeconds(cfg)
  }

  predicate Expired(cfg: Config, e: Entry, now: Time) {
    now - e.windowStart >= Window(cfg)
  }

  /** One more response in an entry's window. */
  function CountOne(cfg: Config, e: Entry): (Entry, Verdict) {
    var sent := (e.sent as int + 1) % COUNTER_LIMIT;
    if sent <= Cap(cfg) then (e.(sent := sent), Send)
    else
      var excess := (e.excess as int + 1) % COUNTER_LIMIT;
      (Entry(e.windowStart, sent, excess), if cfg.slip > 0 && excess % cfg.slip == 0 then Slip else Drop)
  }

  function Count(cfg: Config, e: Entry, now: Time): (Entry, Verdict) {
    CountOne(cfg, if Expired(cfg, e, now) then Entry(now, 0, 0) else e)
  }

  function Windows(cfg: Config): Policy<Entry, Verdict> {
    Policy((now: Time) => Entry(now, 0, 0),
           (e: Entry, now: Time) => Count(cfg, e, now),
           (e: Entry, now: Time) => Expired(cfg, e, now),
           cfg.maxEntries)
  }

  /** An expired entry answers as one just made would, now and later. */
  lemma WindowsForgettable(cfg: Config)
    ensures Forgettable(Windows(cfg))
  {
    var p := Windows(cfg);
    assert Window(cfg) > 0.0;
    forall e, now | p.spent(e, now)
      ensures p.count(e, now) == p.count(p.start(now), now)
    {
    }
    hide CountOne, Window;
  }

  /** A fingerprint whose window is over can be forgotten. */
  lemma OldForgotten(cfg: Config, e: Entry, now: Time)
    requires now >= e.windowStart + (if cfg.windowSeconds == 0 then 1 else cfg.windowSeconds) as real
    ensures Windows(cfg).spent(e, now)
  {
    WindowIs(cfg);
    hide Window;
  }

  // ─── One window ───────────────────────────────────────────────────────────

  /** What became of the responses of one window. */
  datatype Tally = Tally(entry: Entry, sends: nat, slips: nat, drops: nat)

  function Tallied(cfg: Config, start: Time, n: nat): Tally {
    if n == 0 then Tally(Entry(start, 0, 0), 0, 0, 0)
    else Tallied1(cfg, Tallied(cfg, start, n - 1))
  }

  function Tallied1(cfg: Config, t: Tally): Tally {
    var (e, v) := CountOne(cfg, t.entry);
    match v
    case Send => t.(entry := e, sends := t.sends + 1)
    case Slip => t.(entry := e, slips := t.slips + 1)
    case Drop => t.(entry := e, drops := t.drops + 1)
  }

  function Least(a: nat, b: nat): nat {
    if a < b then a else b
  }

  lemma {:induction false} AtLeast(a: nat, k: nat)
    requires a > 0
    ensures a * k >= k
  {
    if a > 1 { AtLeast(a - 1, k); }
  }

  lemma DivMod(x: nat, k: nat, q: nat, r: nat)
    requires r < k && x == q * k + r
    ensures x / k == q && x % k == r
  {
    var d, m := x / k, x % k;
    assert x == d * k + m;
    if q > d {
      AtLeast(q - d, k);
    } else if d > q {
      AtLeast(d - q, k);
    }
  }

  lemma NextMultiple(x: nat, k: nat)
    requires k > 0
    ensures (x + 1) / k == x / k + if (x + 1) % k == 0 then 1 else 0
  {
    var q, r := x / k, x % k;
    assert x == q * k + r;
    if r + 1 == k {
      assert (q + 1) * k == q * k + k;
      DivMod(x + 1, k, q + 1, 0);
    } else {
      DivMod(x + 1, k, q, r + 1);
    }
  }

  function Slips(cfg: Config, excess: nat): nat {
    if cfg.slip == 0 then 0 else excess / cfg.slip
  }

  lemma SlipStep(cfg: Config, excess: nat)
    ensures Slips(cfg, excess + 1) == Slips(cfg, excess) + if cfg.slip > 0 && (excess + 1) % cfg.slip == 0 then 1 else 0
  {
    if cfg.slip > 0 { NextMultiple(excess, cfg.slip); }
  }

  /** The counters and the tally of one window, exactly. */
  lemma {:induction false} WindowCounts(cfg: Config, start: Time, n: nat)
    requires n < COUNTER_LIMIT
    ensures var t := Tallied(cfg, start, n);
      && t.entry.windowStart == start && t.entry.sent == n && t.sends == Least(n, Cap(cfg))
      && t.entry.excess == n - t.sends
      && t.slips == Slips(cfg, n - t.sends) && t.drops == n - t.sends - t.slips
  {
    hide Cap, Tallied1, Slips;
    if n > 0 {
      WindowCounts(cfg, start, n - 1);
      var t := Tallied(cfg, start, n - 1);
      if n <= Cap(cfg) {
        SendStep(cfg, t);
      } else {
        ExcessStep(cfg, t);
        SlipStep(cfg, n - 1 - Cap(cfg));
      }
    } else {
      NoSlips(cfg);
    }
  }

  lemma NoSlips(cfg: Config)
    ensures Slips(cfg, 0) == 0
  {
  }

  lemma SendStep(cfg: Config, t: Tally)
    requires t.entry.sent + 1 < COUNTER_LIMIT && t.entry.sent + 1 <= Cap(cfg)
    ensures Tallied1(cfg, t) == t.(entry := t.entry.(sent := t.entry.sent + 1), sends := t.sends + 1)
  {
    hide Cap;
  }

  lemma ExcessStep(cfg: Config, t: Tally)
    requires t.entry.sent + 1 < COUNTER_LIMIT && t.entry.sent + 1 > Cap(cfg) && t.entry.excess + 1 < COUNTER_LIMIT
    ensures var e := Entry(t.entry.windowStart, t.entry.sent + 1, t.entry.excess + 1);
      Tallied1(cfg, t) == if cfg.slip > 0 && e.excess % cfg.slip == 0 then t.(entry := e, slips := t.slips + 1)
                          else t.(entry := e, drops := t.drops + 1)
  {
    hide Cap;
  }

  lemma {:induction false} SendsGrow(cfg: Config, start: Time, m: nat, n: nat)
    requires m <= n
    ensures Tallied(cfg, start, m).sends <= Tallied(cfg, start, n).sends
    decreases n
  {
    if m < n { SendsGrow(cfg, start, m, n - 1); }
  }

  lemma {:induction false} AllSent(cfg: Config, start: Time, n: nat)
    requires Cap(cfg) >= COUNTER_LIMIT - 1
    ensures Tallied(cfg, start, n).sends == n
  {
    if n == 0 {
    } else {
      AllSent(cfg, start, n - 1);
    }
  }

  /** The cap holds for as long as the counter does not wrap around, and exactly
      then: the response that wraps it counts as none and is sent again. */
  lemma CapHoldsIff(cfg: Config, start: Time, n: nat)
    ensures Tallied(cfg, start, n).sends <= Cap(cfg) <==> n < COUNTER_LIMIT || n <= Cap(cfg)
  {
    if n < COUNTER_LIMIT {
      WindowCounts(cfg, start, n);
    } else if Cap(cfg) >= COUNTER_LIMIT - 1 {
      AllSent(cfg, start, n);
    } else {
      WindowCounts(cfg, start, COUNTER_LIMIT - 1);
      Wraps(cfg, Tallied(cfg, start, COUNTER_LIMIT - 1));
      SendsGrow(cfg, start, COUNTER_LIMIT, n);
    }
    hide Cap, CountOne;
  }

  lemma Wraps(cfg: Config, t: Tally)
    requires t.entry.sent == COUNTER_LIMIT - 1
    ensures Tallied1(cfg, t).sends == t.sends + 1
  {
  }

  /** A counter that wrapped: one response a second too many. */
  lemma CapCanBreak(cfg: Config)
    requires cfg.responsesPerSecond == 1 && cfg.windowSeconds == 1
    ensures Tallied(cfg, 0.0, COUNTER_LIMIT).sends > Cap(cfg)
  {
    CapHoldsIff(cfg, 0.0, COUNTER_LIMIT);
  }

  // ─── Responses in time ────────────────────────────────────────────────────

  function HowMany(vs: seq<Verdict>, v: Verdict): nat {
    if vs == [] then 0 else (if vs[0] == v then 1 else 0) + HowMany(vs[1..], v)
  }

  /** How many of the first times lie in the window that begins at `start`. */
  function InWindow(cfg: Config, start: Time, times: seq<Time>): (n: nat)
    ensures n <= |times| && (forall i :: 0 <= i < n ==> times[i] < start + Window(cfg))
    ensures n < |times| ==> times[n] >= start + Window(cfg)
  {
    if times == [] || times[0] >= start + Window(cfg) then 0 else 1 + InWindow(cfg, start, times[1..])
  }

  /** Times, split where windows begin. */
  function Split(cfg: Config, times: seq<Time>): seq<seq<Time>>
    decreases |times|
  {
    if times == [] then []
    else
      var n := InWindow(cfg, times[0], times);
      [times[..n]] + Split(cfg, times[n..])
  }

  function Joined<T>(parts: seq<seq<T>>): seq<T> {
    if parts == [] then [] else parts[0] + Joined(parts[1..])
  }

  /** Times that lie in the window the first of them begins. */
  predicate Together(cfg: Config, w: seq<Time>) {
    && w != []
    && forall i :: 0 <= i < |w| ==> w[i] < w[0] + (if cfg.windowSeconds == 0 then 1 else cfg.windowSeconds) as real
  }

  lemma FirstTogether(cfg: Config, times: seq<Time>)
    requires times != []
    ensures InWindow(cfg, times[0], times) > 0 && Together(cfg, times[..InWindow(cfg, times[0], times)])
  {
    assert Window(cfg) > 0.0;
  }

  /** Each window begins no sooner than the one before it ends. */
  predicate Apart(cfg: Config, ws: seq<seq<Time>>) {
    |ws| >= 2 ==>
      && ws[0] != [] && ws[1] != []
      && ws[1][0] >= ws[0][0] + (if cfg.windowSeconds == 0 then 1 else cfg.windowSeconds) as real
      && Apart(cfg, ws[1..])
  }

  predicate AllTogether(cfg: Config, ws: seq<seq<Time>>) {
    forall w :: w in ws ==> Together(cfg, w)
  }

  lemma SplitStep(cfg: Config, times: seq<Time>) returns (w: seq<Time>, rest: seq<Time>)
    requires times != []
    ensures Split(cfg, times) == [w] + Split(cfg, rest) && times == w + rest && |rest| < |times|
    ensures w != [] && Together(cfg, w) && w[0] == times[0] && (rest != [] ==> rest[0] >= w[0] + Window(cfg))
    ensures w == times[..InWindow(cfg, times[0], times)]
  {
    FirstTogether(cfg, times);
    var n := InWindow(cfg, times[0], times);
    w, rest := times[..n], times[n..];
    hide Window, InWindow;
  }

  lemma FirstSplit(cfg: Config, w: seq<Time>, ws: seq<seq<Time>>)
    requires w != [] && Together(cfg, w) && AllTogether(cfg, ws) && Apart(cfg, ws)
    requires ws != [] ==> ws[0] != [] && ws[0][0] >= w[0] + Window(cfg)
    ensures AllTogether(cfg, [w] + ws) && Apart(cfg, [w] + ws) && Joined([w] + ws) == w + Joined(ws)
  {
    hide Together;
    assert ([w] + ws)[1..] == ws;
  }

  /** Windows leave no time out, each is as long as the configured one, and the
      next begins with the first time after it. */
  lemma {:induction false} SplitRight(cfg: Config, times: seq<Time>)
    ensures var ws := Split(cfg, times);
      && Joined(ws) == times && AllTogether(cfg, ws) && Apart(cfg, ws)
      && if times == [] then ws == [] else ws != [] && ws[0] != [] && ws[0][0] == times[0]
    decreases |times|
  {
    if times == [] {
    } else {
      hide Window, InWindow, Apart, Joined, AllTogether, Split;
      var w, rest := SplitStep(cfg, times);
      SplitRight(cfg, rest);
      FirstSplit(cfg, w, Split(cfg, rest));
    }
  }

  /** Verdicts, a part for each window. */
  function Cut(vs: seq<Verdict>, ws: seq<seq<Time>>): (parts: seq<seq<Verdict>>)
    requires |vs| == |Joined(ws)|
    ensures |parts| == |ws| && Joined(parts) == vs && forall i :: 0 <= i < |ws| ==> |parts[i]| == |ws[i]|
  {
    if ws == [] then []
    else
      assert vs == vs[..|ws[0]|] + vs[|ws[0]|..];
      [vs[..|ws[0]|]] + Cut(vs[|ws[0]|..], ws[1..])
  }

  /** Where counting leaves an entry. */
  function Left(cfg: Config, e: Entry, times: seq<Time>): Entry
    decreases |times|
  {
    if times == [] then e else Left(cfg, Count(cfg, e, times[0]).0, times[1..])
  }

  lemma CountedStep(cfg: Config, e: Entry, times: seq<Time>)
    requires times != []
    ensures var (e', v) := Count(cfg, e, times[0]);
      && Counted(Windows(cfg), e, times) == [v] + Counted(Windows(cfg), e', times[1..])
      && Left(cfg, e, times) == Left(cfg, e', times[1..])
  {
    hide Count;
  }

  lemma {:induction false} CountedParts(cfg: Config, e: Entry, a: seq<Time>, b: seq<Time>)
    ensures |Counted(Windows(cfg), e, a)| == |a|
    ensures Counted(Windows(cfg), e, a + b) == Counted(Windows(cfg), e, a) + Counted(Windows(cfg), Left(cfg, e, a), b)
    decreases |a|
  {
    if a == [] {
      assert a + b == b;
    } else {
      hide Count, Counted, Left, Windows;
      CountedStep(cfg, e, a);
      CountedStep(cfg, e, a + b);
      assert (a + b)[1..] == a[1..] + b;
      CountedParts(cfg, Count(cfg, e, a[0]).0, a[1..], b);
    }
  }

  /** Whenever the responses of a window come, what becomes of them depends on
      their number only: here of those after the first `k`. */
  lemma {:induction false} WindowVerdicts(cfg: Config, start: Time, k: nat, times: seq<Time>)
    requires forall i :: 0 <= i < |times| ==> times[i] < start + Window(cfg)
    requires Tallied(cfg, start, k).entry.windowStart == start
    ensures var before, after := Tallied(cfg, start, k), Tallied(cfg, start, k + |times|);
      var vs := Counted(Windows(cfg), before.entry, times);
      && Left(cfg, before.entry, times) == after.entry && after.entry.windowStart == start
      && after.sends == before.sends + HowMany(vs, Send)
      && after.slips == before.slips + HowMany(vs, Slip)
      && after.drops == before.drops + HowMany(vs, Drop)
    decreases |times|
  {
    if times == [] {
    } else {
      hide Window, CountOne;
      var e := Tallied(cfg, start, k).entry;
      assert !Expired(cfg, e, times[0]);
      StartKept(cfg, e);
      assert Tallied(cfg, start, k + 1) == Tallied1(cfg, Tallied(cfg, start, k));
      WindowVerdicts(cfg, start, k + 1, times[1..]);
      hide Tallied;
    }
  }

  /** What becomes of `n` responses in one window: as many are sent as the rate
      allows in its seconds, and every `slip`-th of the rest is truncated, unless
      there are so many that a counter wraps; exactly then too many are sent. */
  predicate WindowOk(cfg: Config, n: nat, vs: seq<Verdict>) {
    var allowed := cfg.responsesPerSecond * if cfg.windowSeconds == 0 then 1 else cfg.windowSeconds;
    var sent := if n < allowed then n else allowed;
    && (n < 0x1_0000_0000 ==>
          && HowMany(vs, Send) == sent
          && HowMany(vs, Slip) == (if cfg.slip == 0 then 0 else (n - sent) / cfg.slip)
          && HowMany(vs, Drop) == n - HowMany(vs, Send) - HowMany(vs, Slip))
    && (HowMany(vs, Send) <= allowed <==> n < 0x1_0000_0000 || n <= allowed)
  }

  predicate WindowsOk(cfg: Config, ws: seq<seq<Time>>, vs: seq<Verdict>)
    requires |vs| == |Joined(ws)|
  {
    forall i :: 0 <= i < |ws| ==> WindowOk(cfg, |ws[i]|, Cut(vs, ws)[i])
  }

  lemma OneWindow(cfg: Config, times: seq<Time>)
    requires Together(cfg, times)
    ensures WindowOk(cfg, |times|, Counted(Windows(cfg), Entry(times[0], 0, 0), times))
    ensures Left(cfg, Entry(times[0], 0, 0), times).windowStart == times[0]
  {
    hide Tallied, Counted, Left, Window, HowMany;
    NoneTallied(cfg, times[0]);
    WindowIs(cfg);
    WindowVerdicts(cfg, times[0], 0, times);
    if |times| < COUNTER_LIMIT { WindowCounts(cfg, times[0], |times|); }
    CapHoldsIff(cfg, times[0], |times|);
  }

  lemma WindowIs(cfg: Config)
    ensures Window(cfg) == (if cfg.windowSeconds == 0 then 1 else cfg.windowSeconds) as real
  {
  }

  lemma NoneTallied(cfg: Config, start: Time)
    ensures Tallied(cfg, start, 0) == Tally(Entry(start, 0, 0), 0, 0, 0)
  {
  }

  lemma {:induction false} AllWindows(cfg: Config, e: Entry, times: seq<Time>)
    requires times != [] ==> e == Entry(times[0], 0, 0) || Expired(cfg, e, times[0])
    ensures var vs := Counted(Windows(cfg), e, times);
      |vs| == |times| == |Joined(Split(cfg, times))| && WindowsOk(cfg, Split(cfg, times), vs)
    decreases |times|
  {
    if times == [] {
    } else {
      var first := Entry(times[0], 0, 0);
      FreshCounts(cfg, e, times);
      hide Window, Count, CountOne, WindowOk, Together, Expired, Split, Counted, Left, Windows, Joined, WindowsOk;
      var a, b := SplitStep(cfg, times);
      CountedParts(cfg, first, a, b);
      OneWindow(cfg, a);
      if b != [] { WindowOver(cfg, Left(cfg, first, a), b[0]); }
      AllWindows(cfg, Left(cfg, first, a), b);
      FirstWindow(cfg, a, Split(cfg, b), Counted(Windows(cfg), first, a),
                  Counted(Windows(cfg), Left(cfg, first, a), b));
      SplitRight(cfg, times);
    }
  }

  lemma FreshCounts(cfg: Config, e: Entry, times: seq<Time>)
    requires times != [] && (e == Entry(times[0], 0, 0) || Expired(cfg, e, times[0]))
    ensures Counted(Windows(cfg), e, times) == Counted(Windows(cfg), Entry(times[0], 0, 0), times)
  {
    assert Window(cfg) > 0.0;
    hide Window, CountOne;
    CountedStep(cfg, e, times);
    CountedStep(cfg, Entry(times[0], 0, 0), times);
    hide Counted, Left;
  }

  lemma WindowOver(cfg: Config, e: Entry, now: Time)
    requires now >= e.windowStart + Window(cfg)
    ensures Expired(cfg, e, now)
  {
  }

  lemma FirstWindow(cfg: Config, w: seq<Time>, ws: seq<seq<Time>>, vs: seq<Verdict>, rest: seq<Verdict>)
    requires |vs| == |w| && |rest| == |Joined(ws)| && WindowOk(cfg, |w|, vs) && WindowsOk(cfg, ws, rest)
    ensures |vs + rest| == |Joined([w] + ws)| && WindowsOk(cfg, [w] + ws, vs + rest)
  {
    hide WindowOk;
    var all := [w] + ws;
    assert all[1..] == ws && (vs + rest)[..|w|] == vs && (vs + rest)[|w|..] == rest;
    assert Cut(vs + rest, all) == [vs] + Cut(rest, ws);
  }

  /** Over any run of a limiter, whatever is forgotten or shared meanwhile, and for
      each fingerprint's own entry as for the shared one: every window sends the
      cap, or all if they are fewer, and no more unless a counter wraps. */
  lemma WindowCapped(
    cfg: Config, t: Table<Fingerprint, Entry>, qs: seq<Query<Fingerprint>>, from: Time, lane: Lane<Fingerprint>)
    requires t.entries == map[] && !t.overflowUsed && InOrder(qs, from)
    ensures var times, vs := LaneTimes(Windows(cfg), t, qs, lane), LaneAnswers(Windows(cfg), t, qs, lane);
      |vs| == |times| == |Joined(Split(cfg, times))| && WindowsOk(cfg, Split(cfg, times), vs)
  {
    WindowsForgettable(cfg);
    hide Forgettable, InOrder, LaneTimes, LaneAnswers, Counted, Split, WindowsOk;
    LanesCount(Windows(cfg), t, qs, from, lane, None);
    var times := LaneTimes(Windows(cfg), t, qs, lane);
    if times == [] {
      AllWindows(cfg, Entry(from, 0, 0), times);
      assert Counted(Windows(cfg), Entry(from, 0, 0), []) == [];
    } else {
      AllWindows(cfg, Entry(times[0], 0, 0), times);
    }
  }

  /** While there is room for every fingerprint, that is all that becomes of its
      responses, however many others come between. */
  lemma FingerprintCapped(
    cfg: Config, t: Table<Fingerprint, Entry>, qs: seq<Query<Fingerprint>>, from: Time, key: Fingerprint)
    requires t.entries == map[] && !t.overflowUsed && InOrder(qs, from) && |KeysOf(qs)| <= cfg.maxEntries
    ensures |Answers(Windows(cfg), t, qs)| == |qs|
    ensures var times, vs := OwnTimes(qs, key), OwnAnswers(qs, Answers(Windows(cfg), t, qs), key);
      |vs| == |times| == |Joined(Split(cfg, times))| && WindowsOk(cfg, Split(cfg, times), vs)
  {
    hide InOrder, WindowsOk, Split;
    FewKeysFit(Windows(cfg), t, qs, KeysOf(qs));
    RoomyLanes(Windows(cfg), t, qs, key);
    WindowCapped(cfg, t, qs, from, Own(key));
  }

  lemma StartKept(cfg: Config, e: Entry)
    ensures CountOne(cfg, e).0.windowStart == e.windowStart
  {
  }

  // ─── The object ───────────────────────────────────────────────────────────

  class Limiter {
    const cfg: Config
    var entries: map<Fingerprint, Entry>
    var overflow: Entry
    var overflowUsed: bool
    var lastSweep: Time
    var dropped: nat
    var slipped: nat

    function State(): Table<Fingerprint, Entry>
      reads this
    {
      Table(entries, overflow, overflowUsed, lastSweep)
    }

    ghost predicate Valid()
      reads this
    {
      |entries| <= cfg.maxEntries
    }

    constructor (cfg: Config)
      ensures Valid() && this.cfg == cfg && entries == map[] && !overflowUsed && dropped == 0 == slipped
    {
      this.cfg, entries, overflow, overflowUsed, lastSweep := cfg, map[], Entry(0.0, 0, 0), false, 0.0;
      dropped, slipped := 0, 0;
    }

    method CountIn(e: Entry, now: Time) returns (e': Entry, v: Verdict)
      modifies this`dropped, this`slipped
      ensures (e', v) == Count(cfg, e, now)
      ensures dropped == old(dropped) + (if v == Drop then 1 else 0)
      ensures slipped == old(slipped) + (if v == Slip then 1 else 0)
    {
      e' := e;
      if now - e'.windowStart >= Window(cfg) { e' := Entry(now, 0, 0); }
      e' := e'.(sent := (e'.sent as int + 1) % COUNTER_LIMIT);
      if e'.sent <= Cap(cfg) { return e', Send; }
      e' := e'.(excess := (e'.excess as int + 1) % COUNTER_LIMIT);
      if cfg.slip > 0 && e'.excess % cfg.slip == 0 {
        slipped := slipped + 1;
        return e', Slip;
      }
      dropped := dropped + 1;
      v := Drop;
    }

    method ForgetExpired(now: Time)
      modifies this`entries, this`lastSweep
      ensures State() == Swept(Windows(cfg), old(State()), now)
    {
      entries := map k | k in entries && !(now - entries[k].windowStart >= Window(cfg)) :: entries[k];
      lastSweep := now;
    }

    method Check(sender: Sender, m: Message, now: Time) returns (v: Verdict)
      requires Valid()
      modifies this
      ensures Valid()
      ensures if cfg.responsesPerSecond == 0 || sender.NotIp? || cfg.exempt(sender.address)
              then v == Send && State() == old(State())
              else var key := FingerprintOf(cfg.network(sender.address), m);
                (State(), v) == RateTable.Check(Windows(cfg), old(State()), key, now)
      ensures dropped == old(dropped) + (if v == Drop then 1 else 0)
      ensures slipped == old(slipped) + (if v == Slip then 1 else 0)
    {
      hide FingerprintOf, Count, Window;
      if cfg.responsesPerSecond == 0 || sender.NotIp? || cfg.exempt(sender.address) { return Send; }
      var key := FingerprintOf(cfg.network(sender.address), m);
      CheckBounded(Windows(cfg), State(), key, now);
      if key in entries {
        var e;
        e, v := CountIn(entries[key], now);
        entries := entries[key := e];
        return;
      }
      if |entries| >= cfg.maxEntries && now - lastSweep >= 1.0 { ForgetExpired(now); }
      if |entries| >= cfg.maxEntries {
        if !overflowUsed { overflow := Entry(now, 0, 0); }
        overflowUsed := true;
        overflow, v := CountIn(overflow, now);
        return;
      }
      var e;
      e, v := CountIn(Entry(now, 0, 0), now);
      entries := entries[key := e];
    }
  }
}
