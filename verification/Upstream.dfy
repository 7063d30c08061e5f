/** One query to one server (core/resolver/upstream.cpp): which replies end it, and
    that it reports back once, unless cancelled. This is what
    can reach the resolver. */
module Upstream {
  import opened DnsTypes
  import opened WireParser
  import opened ResolverTask
  import opened ResolverServers

  datatype Pending = Pending(txid: u16, question: Question, tcp: bool, matchCase: bool, wrongCaseSeen: bool,
                             suspicious: nat, input: Bytes)

  datatype Match = No | WrongCase | Yes

  /** Does a message answer a pending query? It must repeat its ID and question,
      down to letter case if that was random. */
  function MatchOf(data: Bytes, p: Pending): Match {
    var msg := DecodeMessage(data);
    if msg.Err? || !msg.value.header.qr || msg.value.header.id != p.txid || |msg.value.questions| != 1
       || KeyOf(msg.value.questions[0]) != KeyOf(p.question) then No
    else if p.matchCase && msg.value.questions[0].qname.original != p.question.qname.original then WrongCase
    else Yes
  }

  /** A query goes on waiting, or ends. */
  datatype Progress = Waits(p: Pending) | Ends(reply: Reply)

  // ─── Over UDP ─────────────────────────────────────────────────────────────

  /** One datagram: anything but the response is counted and ignored, unless there
      have been suspiciously many. */
  function Datagram(threshold: nat, p: Pending, data: Bytes): Progress {
    var m := MatchOf(data, p);
    if m == Yes then Ends(Reply(DecodeMessage(data).value))
    else
      var p' := p.(wrongCaseSeen := p.wrongCaseSeen || m == WrongCase,
                   suspicious := if threshold == 0 then p.suspicious else p.suspicious + 1);
      if threshold != 0 && p'.suspicious >= threshold then Ends(NoReply(SpoofSuspected)) else Waits(p')
  }

  function Datagrams(threshold: nat, p: Pending, ds: seq<Bytes>): Progress
    decreases |ds|
  {
    if ds == [] then Waits(p)
    else
      match Datagram(threshold, p, ds[0])
      case Ends(r) => Ends(r)
      case Waits(p') => Datagrams(threshold, p', ds[1..])
  }

  /** The response to the query that `p` was sent for. */
  predicate Answers(p: Pending, data: Bytes) {
    MatchOf(data, p) == Yes
  }

  predicate SameQuery(p: Pending, p': Pending) {
    p'.txid == p.txid && p'.question == p.question && p'.tcp == p.tcp && p'.matchCase == p.matchCase
  }

  lemma SameMatch(p: Pending, p': Pending, data: Bytes)
    requires SameQuery(p, p')
    ensures MatchOf(data, p) == MatchOf(data, p')
  {
  }

  lemma DatagramIs(threshold: nat, p: Pending, data: Bytes)
    ensures match Datagram(threshold, p, data)
      case Waits(p') =>
        && SameQuery(p, p') && !Answers(p, data)
        && p'.suspicious == (if threshold == 0 then p.suspicious else p.suspicious + 1)
                        && (threshold == 0 || p'.suspicious < threshold)
                        && p'.wrongCaseSeen == (p.wrongCaseSeen || MatchOf(data, p) == WrongCase)
      case Ends(Reply(m)) => Answers(p, data) && DecodeMessage(data) == Ok(m)
      case Ends(NoReply(e)) =>
        !Answers(p, data) && e == SpoofSuspected && threshold != 0 && p.suspicious + 1 >= threshold
  {
  }

  /** Datagram `k` is the first response, and was not too late. */
  predicate AnsweredBy(threshold: nat, p: Pending, ds: seq<Bytes>, k: nat, m: Message) {
    && k < |ds| && Answers(p, ds[k]) && DecodeMessage(ds[k]) == Ok(m)
    && (forall i :: 0 <= i < k ==> !Answers(p, ds[i])) && (threshold == 0 || p.suspicious + k < threshold)
  }

  /** However many datagrams come: the message that ends the query is the first
      that answers it, and came before too many that did not; without one the
      query ends only when there are too many, else it waits. */
  lemma {:induction false} ForgedIgnored(threshold: nat, p: Pending, ds: seq<Bytes>) returns (k: nat)
    requires threshold == 0 || p.suspicious < threshold
    ensures match Datagrams(threshold, p, ds)
      case Waits(p') =>
        && SameQuery(p, p') && (forall i :: 0 <= i < |ds| ==> !Answers(p, ds[i]))
        && (threshold == 0 || p.suspicious + |ds| < threshold)
      case Ends(Reply(m)) => AnsweredBy(threshold, p, ds, k, m)
      case Ends(NoReply(e)) => e == SpoofSuspected && threshold != 0 && p.suspicious + |ds| >= threshold
                               && forall i :: 0 <= i < threshold - p.suspicious ==> !Answers(p, ds[i])
    decreases |ds|
  {
    hide MatchOf, DecodeMessage, Datagram;
    k := 0;
    if ds == [] {
    } else {
      DatagramIs(threshold, p, ds[0]);
      match Datagram(threshold, p, ds[0])
      case Ends(Reply(m)) =>
        assert AnsweredBy(threshold, p, ds, 0, m);
      case Ends(NoReply(_)) =>
      case Waits(p') =>
        var j := ForgedIgnored(threshold, p', ds[1..]);
        k := j + 1;
        forall i | 0 < i < |ds|
          ensures Answers(p, ds[i]) <==> Answers(p', ds[1..][i - 1])
        {
          SameMatch(p, p', ds[i]);
        }
        match Datagrams(threshold, p', ds[1..])
        case Waits(_) =>
        case Ends(Reply(m)) =>
          assert ds[1..][j] == ds[j + 1] && Answers(p, ds[j + 1]);
          forall i | 0 <= i < j + 1
            ensures !Answers(p, ds[i])
          {
            if i > 0 { assert !Answers(p', ds[1..][i - 1]); }
          }
          assert AnsweredBy(threshold, p, ds, k, m);
        case Ends(NoReply(_)) =>
          forall i | 0 <= i < threshold - p.suspicious
            ensures !Answers(p, ds[i])
          {
            if i > 0 { assert !Answers(p', ds[1..][i - 1]); }
          }
    }
  }

  /** A response to the query, in any letter case: a well-formed message that is one
      and repeats the ID and the question. */
  predicate Echoes(p: Pending, data: Bytes) {
    && DecodeMessage(data).Ok?
    && var m := DecodeMessage(data).value;
       && m.header.qr && m.header.id == p.txid && |m.questions| == 1
       && m.questions[0].qname.labels == p.question.qname.labels
       && m.questions[0].qtype == p.question.qtype && m.questions[0].qclass == p.question.qclass
  }

  predicate WrongLetters(p: Pending, data: Bytes) {
    Echoes(p, data) && p.matchCase && DecodeMessage(data).value.questions[0].qname.original != p.question.qname.original
  }

  /** Exactly such messages answer a query, but for the letter case if it matters,
      and then exactly those with other letters count as the wrong case. */
  lemma MatchExact(p: Pending, data: Bytes)
    ensures Answers(p, data) <==>
              Echoes(p, data) &&
                (p.matchCase ==> DecodeMessage(data).value.questions[0].qname.original == p.question.qname.original)
    ensures MatchOf(data, p) == WrongCase <==> WrongLetters(p, data)
  {
    hide DecodeMessage;
  }

  /** A query that only ever got answers in other letters is reported as such when
      its time is up, and any other as timed out. */
  lemma {:induction false} TimeUp(threshold: nat, p: Pending, ds: seq<Bytes>)
    requires !p.wrongCaseSeen && Datagrams(threshold, p, ds).Waits?
    ensures TimedOut(Datagrams(threshold, p, ds).p)
            == NoReply(if exists i :: 0 <= i < |ds| && WrongLetters(p, ds[i]) then CaseMismatch else UpstreamTimeout)
  {
    SeenSoFar(threshold, p, ds);
    hide Datagrams, MatchOf, WrongLetters;
  }

  lemma {:induction false} SeenSoFar(threshold: nat, p: Pending, ds: seq<Bytes>)
    requires Datagrams(threshold, p, ds).Waits?
    ensures Datagrams(threshold, p, ds).p.wrongCaseSeen
            <==> p.wrongCaseSeen || exists i :: 0 <= i < |ds| && WrongLetters(p, ds[i])
    decreases |ds|
  {
    if ds == [] {
    } else {
      hide MatchOf, DecodeMessage, Datagram, Echoes;
      DatagramIs(threshold, p, ds[0]);
      MatchExact(p, ds[0]);
      var p' := Datagram(threshold, p, ds[0]).p;
      SeenSoFar(threshold, p', ds[1..]);
      forall i | 0 < i < |ds|
        ensures WrongLetters(p, ds[i]) <==> WrongLetters(p', ds[1..][i - 1])
      {
        MatchExact(p, ds[i]);
        MatchExact(p', ds[i]);
        SameMatch(p, p', ds[i]);
      }
      if exists i :: 0 <= i < |ds| && WrongLetters(p, ds[i]) {
        var i :| 0 <= i < |ds| && WrongLetters(p, ds[i]);
        if i > 0 { assert WrongLetters(p', ds[1..][i - 1]); }
      }
      if exists i :: 0 <= i < |ds[1..]| && WrongLetters(p', ds[1..][i]) {
        var i :| 0 <= i < |ds[1..]| && WrongLetters(p', ds[1..][i]);
        assert WrongLetters(p, ds[i + 1]);
      }
      hide WrongLetters;
    }
  }

  // ─── Over TCP ─────────────────────────────────────────────────────────────

  /** More of the framed response; nothing else comes on the connection. */
  function Stream(p: Pending, chunk: Bytes): Progress {
    var p' := p.(input := p.input + chunk);
    if |p'.input| < 2 || |p'.input| - 2 < p'.input[0] as int * 0x100 + p'.input[1] then Waits(p')
    else
      var data := p'.input[2..2 + p'.input[0] as int * 0x100 + p'.input[1]];
      match MatchOf(data, p)
      case Yes => Ends(Reply(DecodeMessage(data).value))
      case WrongCase => Ends(NoReply(CaseMismatch))
      case No => Ends(NoReply(NetworkError))
  }

  function Streams(p: Pending, chunks: seq<Bytes>): Progress
    decreases |chunks|
  {
    if chunks == [] then Waits(p)
    else
      match Stream(p, chunks[0])
      case Ends(r) => Ends(r)
      case Waits(p') => Streams(p', chunks[1..])
  }

  function Together(chunks: seq<Bytes>): Bytes {
    if chunks == [] then [] else chunks[0] + Together(chunks[1..])
  }

  /** A stream holds a whole message after its two octets of length. */
  predicate WholeIn(s: Bytes) {
    |s| >= 2 && |s| >= 2 + s[0] as int * 256 + s[1]
  }

  /** What the first message of a stream makes of a query. */
  ghost predicate EndsAs(p: Pending, s: Bytes, r: Reply)
    requires WholeIn(s)
  {
    var data := s[2..2 + s[0] as int * 256 + s[1]];
    if Answers(p, data) then DecodeMessage(data).Ok? && r == Reply(DecodeMessage(data).value)
    else r == NoReply(if WrongLetters(p, data) then CaseMismatch else NetworkError)
  }

  lemma StreamIs(p: Pending, chunk: Bytes)
    ensures match Stream(p, chunk)
      case Waits(p') => !WholeIn(p.input + chunk) && p' == p.(input := p.input + chunk)
      case Ends(r) => WholeIn(p.input + chunk) && EndsAs(p, p.input + chunk, r)
  {
    hide MatchOf, DecodeMessage;
    var s := p.input + chunk;
    if WholeIn(s) {
      MatchExact(p, s[2..2 + s[0] as int * 256 + s[1]]);
    }
  }

  lemma EndsSame(p: Pending, p': Pending, s: Bytes, s': Bytes, r: Reply)
    requires SameQuery(p, p') && WholeIn(s) && s <= s' && EndsAs(p', s, r)
    ensures WholeIn(s') && EndsAs(p, s', r)
  {
    var data := s[2..2 + s[0] as int * 256 + s[1]];
    assert s'[2..2 + s'[0] as int * 256 + s'[1]] == data;
    SameMatch(p, p', data);
    MatchExact(p, data);
    MatchExact(p', data);
    hide MatchOf, DecodeMessage, Echoes;
  }

  /** However a response over TCP is chopped up: the query waits exactly until it is
      whole, and ends with it, if it is the answer, or with an error. */
  lemma {:induction false} StreamsExact(p: Pending, chunks: seq<Bytes>)
    requires !WholeIn(p.input)
    ensures var s := p.input + Together(chunks);
      match Streams(p, chunks)
      case Waits(p') => !WholeIn(s) && p' == p.(input := s)
      case Ends(r) => WholeIn(s) && EndsAs(p, s, r)
    decreases |chunks|
  {
    hide Stream, Streams, EndsAs, WholeIn, Together;
    StreamsStep(p, chunks);
    if chunks == [] {
    } else {
      StreamIs(p, chunks[0]);
      match Stream(p, chunks[0])
      case Ends(r) => EndsSame(p, p, p.input + chunks[0], p.input + Together(chunks), r);
      case Waits(p') =>
        StreamsExact(p', chunks[1..]);
        if Streams(p', chunks[1..]).Ends? {
          EndsSame(p, p', p'.input + Together(chunks[1..]), p.input + Together(chunks), Streams(p', chunks[1..]).reply);
        }
    }
  }

  lemma StreamsStep(p: Pending, chunks: seq<Bytes>)
    ensures chunks == [] ==> Streams(p, chunks) == Waits(p) && p.input + Together(chunks) == p.input
    ensures chunks != [] ==>
      && p.input + Together(chunks) == p.input + chunks[0] + Together(chunks[1..])
      && match Stream(p, chunks[0])
         case Ends(r) => Streams(p, chunks) == Ends(r)
         case Waits(p') => Streams(p, chunks) == Streams(p', chunks[1..])
  {
    hide Stream;
    if chunks == [] {
      assert p.input + [] == p.input;
    }
  }

  function TimedOut(p: Pending): Reply {
    NoReply(if p.wrongCaseSeen then CaseMismatch else UpstreamTimeout)
  }

  // ─── What can reach the caller ────────────────────────────────────────────

  /** A reply to this query: its own question and ID, in its letter case if that
      was random; suspicion only over UDP, and the wrong case only of it. */
  predicate Possible(p: Pending, r: Reply) {
    match r
    case Reply(m) =>
      m.header.qr && m.header.id == p.txid && |m.questions| == 1 && KeyOf(m.questions[0]) == KeyOf(p.question)
                     && (p.matchCase ==> m.questions[0].qname.original == p.question.qname.original)
    case NoReply(SpoofSuspected) => !p.tcp
    case NoReply(CaseMismatch) => p.matchCase
    case _ => true
  }

  predicate PendingOk(p: Pending) {
    p.wrongCaseSeen ==> p.matchCase
  }

  lemma MatchPossible(data: Bytes, p: Pending)
    ensures MatchOf(data, p) == Yes ==> DecodeMessage(data).Ok? && Possible(p, Reply(DecodeMessage(data).value))
    ensures MatchOf(data, p) == WrongCase ==> p.matchCase
  {
  }

  lemma {:induction false} DatagramsPossible(threshold: nat, p: Pending, ds: seq<Bytes>)
    requires PendingOk(p) && !p.tcp
    ensures match Datagrams(threshold, p, ds)
      case Waits(p') => PendingOk(p') && SameQuery(p, p')
      case Ends(r) => Possible(p, r)
    decreases |ds|
  {
    hide MatchOf, DecodeMessage;
    if ds == [] {
    } else {
      MatchPossible(ds[0], p);
      match Datagram(threshold, p, ds[0])
      case Ends(_) =>
      case Waits(p') =>
        DatagramsPossible(threshold, p', ds[1..]);
        PossibleSame(p, p');
    }
  }

  lemma PossibleSame(p: Pending, p': Pending)
    requires SameQuery(p, p')
    ensures forall r :: Possible(p', r) ==> Possible(p, r)
  {
  }

  lemma StreamPossible(p: Pending, chunk: Bytes)
    requires PendingOk(p)
    ensures match Stream(p, chunk)
      case Waits(p') => PendingOk(p') && SameQuery(p, p')
      case Ends(r) => Possible(p, r)
  {
    hide MatchOf, DecodeMessage;
    var p' := p.(input := p.input + chunk);
    if |p'.input| >= 2 && |p'.input| - 2 >= p'.input[0] as int * 0x100 + p'.input[1] {
      MatchPossible(p'.input[2..2 + p'.input[0] as int * 0x100 + p'.input[1]], p);
    }
  }

  /** The resolver's assumption of its replies holds: a task's query is matched in
      case when it was sent in random case, which it is only over UDP. */
  lemma ResolverCanReply(t: Task, p: Pending, r: Reply)
    requires Possible(p, r) && p.tcp == t.overTcp && p.matchCase == t.sent0x20
    ensures CanReply(t, r)
  {
  }

  // ─── The object ───────────────────────────────────────────────────────────

  datatype Called = Called(id: nat, reply: Reply)

  class UpstreamClient {
    const threshold: nat
    var pending: map<nat, Pending>
    var nextId: nat
    ghost var sent: map<nat, Pending>  // every query, as it was sent
    ghost var called: seq<Called>      // every callback, in order
    ghost var cancelled: set<nat>

    /** Each query waits, was called back once, or was cancelled; and what it was
        told was possible. */
    ghost predicate Valid()
      reads this
    {
      && (forall id :: id in pending ==> id in sent && SameQuery(sent[id], pending[id]) && PendingOk(pending[id]))
      && (forall id :: id in sent ==> id < nextId)
      && (forall id :: id in sent ==> id in pending || id in cancelled || WasCalled(called, id))
      && (forall id :: id in pending ==> id !in cancelled && !WasCalled(called, id))
      && (forall id :: id in cancelled ==> id in sent && !WasCalled(called, id))
      && (forall i :: 0 <= i < |called| ==> called[i].id in sent && Possible(sent[called[i].id], called[i].reply))
      && (forall i, j :: 0 <= i < j < |called| ==> called[i].id != called[j].id)
    }

    constructor (threshold: nat)
      ensures Valid() && this.threshold == threshold && called == []
    {
      this.threshold, pending, nextId := threshold, map[], 1;
      sent, called, cancelled := map[], [], {};
    }

    method Send(txid: u16, question: Question, tcp: bool, matchCase: bool) returns (id: nat)
      requires Valid()
      modifies this
      ensures Valid() && id == old(nextId) && id in pending && called == old(called) && cancelled == old(cancelled)
      ensures sent == old(sent)[id := Pending(txid, question, tcp, matchCase, false, 0, [])]
    {
      var p := Pending(txid, question, tcp, matchCase, false, 0, []);
      id := nextId;
      assert id !in sent && !WasCalled(called, id);
      nextId := nextId + 1;
      pending := pending[id := p];
      sent := sent[id := p];
    }

    /** Without calling back. */
    method Cancel(id: nat)
      requires Valid()
      modifies this
      ensures Valid() && called == old(called) && sent == old(sent) && id !in pending
      ensures cancelled == if id in old(pending) then old(cancelled) + {id} else old(cancelled)
    {
      if id !in pending { return; }
      pending := pending - {id};
      cancelled := cancelled + {id};
    }

    method Finish(id: nat, reply: Reply)
      requires Valid() && (id in pending ==> Possible(sent[id], reply))
      modifies this
      ensures Valid() && sent == old(sent) && cancelled == old(cancelled) && id !in pending
      ensures called == if id in old(pending) then old(called) + [Called(id, reply)] else old(called)
    {
      hide Possible, PendingOk;
      if id !in pending { return; }
      pending := pending - {id};
      CalledMore(called, id, reply);
      called := called + [Called(id, reply)];
    }

    /** on_readable: the datagrams that wait, then perhaps a refusal. */
    method OnReadable(id: nat, ds: seq<Bytes>, refused: bool)
      requires Valid() && (id in pending ==> !pending[id].tcp)
      modifies this
      ensures Valid() && sent == old(sent) && cancelled == old(cancelled)
      ensures id in old(pending) ==>
        match Datagrams(threshold, old(pending)[id], ds)
        case Ends(r) => called == old(called) + [Called(id, r)] && id !in pending
        case Waits(p) =>
          if refused then called == old(called) + [Called(id, NoReply(NetworkError))]
          else called == old(called) && id in pending && pending[id] == p
    {
      hide Possible, PendingOk, MatchOf, DecodeMessage, Datagram;
      if id !in pending { return; }
      ghost var p0 := pending[id];
      DatagramsPossible(threshold, p0, ds);
      PossibleSame(sent[id], p0);
      var p, i := pending[id], 0;
      assert ds[0..] == ds;
      while i < |ds|
        invariant 0 <= i <= |ds| && Datagrams(threshold, p, ds[i..]) == Datagrams(threshold, p0, ds)
        invariant pending == old(pending) && sent == old(sent) && cancelled == old(cancelled) && called == old(called)
        invariant Valid()
      {
        assert ds[i..][0] == ds[i] && ds[i..][1..] == ds[i + 1..];
        var step := Datagram(threshold, p, ds[i]);
        if step.Ends? {
          Finish(id, step.reply);
          return;
        }
        p := step.p;
        i := i + 1;
      }
      assert ds[i..] == [];
      if refused {
        assert Possible(sent[id], NoReply(NetworkError)) by { NetworkPossible(sent[id]); }
        Finish(id, NoReply(NetworkError));
        return;
      }
      pending := pending[id := p];
    }

    /** Bytes of a response over TCP, or the end of the connection. */
    method OnTcpBytes(id: nat, chunk: Bytes)
      requires Valid()
      modifies this
      ensures Valid() && sent == old(sent) && cancelled == old(cancelled)
      ensures id in old(pending) ==>
        match (if chunk == [] then Ends(NoReply(NetworkError)) else Stream(old(pending)[id], chunk))
        case Ends(r) => called == old(called) + [Called(id, r)] && id !in pending
        case Waits(p) => called == old(called) && id in pending && pending[id] == p
    {
      hide Possible, PendingOk, MatchOf, DecodeMessage, Stream;
      if id !in pending { return; }
      StreamPossible(pending[id], chunk);
      PossibleSame(sent[id], pending[id]);
      if chunk == [] {
        assert Possible(sent[id], NoReply(NetworkError)) by { NetworkPossible(sent[id]); }
        Finish(id, NoReply(NetworkError));
        return;
      }
      var step := Stream(pending[id], chunk);
      if step.Ends? {
        Finish(id, step.reply);
      } else {
        pending := pending[id := step.p];
      }
    }

    method OnTimeout(id: nat)
      requires Valid()
      modifies this
      ensures Valid() && sent == old(sent) && cancelled == old(cancelled) && id !in pending
      ensures id in old(pending) ==> called == old(called) + [Called(id, TimedOut(old(pending)[id]))]
    {
      if id !in pending { return; }
      Finish(id, TimedOut(pending[id]));
    }
  }

  predicate WasCalled(called: seq<Called>, id: nat) {
    exists i :: 0 <= i < |called| && called[i].id == id
  }

  lemma CalledMore(called: seq<Called>, id: nat, r: Reply)
    ensures forall x :: WasCalled(called + [Called(id, r)], x) <==> WasCalled(called, x) || x == id
  {
    var more := called + [Called(id, r)];
    forall x
      ensures WasCalled(more, x) <==> WasCalled(called, x) || x == id
    {
      if WasCalled(called, x) {
        var i :| 0 <= i < |called| && called[i].id == x;
        assert more[i].id == x;
      }
      if x == id { assert more[|called|].id == x; }
    }
  }

  lemma NetworkPossible(p: Pending)
    ensures Possible(p, NoReply(NetworkError))
  {
  }
}
