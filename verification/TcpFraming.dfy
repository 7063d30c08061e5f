/** Queries and responses on one TCP connection (core/net/tcp_listener.cpp): each
    message follows its length in two octets (section 4.2.2 of RFC 1035). What is
    handed over depends on the bytes received, never on how they were split. */
module TcpFraming {
  import opened DnsTypes
  import opened WireParser
  import opened WireMessage
  import B = WireBuilder

  const MAX_PIPELINED := 32

  // ─── Frames ───────────────────────────────────────────────────────────────

  /** Messages, each after its length. */
  function Framed(frames: seq<Bytes>): Bytes
    requires forall f :: f in frames ==> |f| < 0x1_0000
  {
    if frames == [] then []
    else Framed(frames[..|frames| - 1]) + Frame(frames[|frames| - 1])
  }

  function Frame(f: Bytes): Bytes
    requires |f| < 0x1_0000
  {
    [|f| / 0x100, |f| % 0x100] + f
  }

  function LengthAt(s: Bytes): nat
    requires |s| >= 2
  {
    s[0] as int * 0x100 + s[1]
  }

  /** Does a whole message lie at the start? */
  predicate Whole(s: Bytes) {
    |s| >= 2 && |s| - 2 >= LengthAt(s)
  }

  function First(s: Bytes): (f: Bytes)
    requires Whole(s)
    ensures |f| < 0x1_0000
  {
    s[2..2 + LengthAt(s)]
  }

  lemma FirstFrame(s: Bytes)
    requires Whole(s)
    ensures s == Frame(First(s)) + s[2 + LengthAt(s)..]
  {
    var n := LengthAt(s);
    assert n / 0x100 == s[0] && n % 0x100 == s[1];
  }

  lemma FrameFirst(f: Bytes, rest: Bytes)
    requires |f| < 0x1_0000
    ensures Whole(Frame(f) + rest) && First(Frame(f) + rest) == f && (Frame(f) + rest)[2 + |f|..] == rest
  {
    var s := Frame(f) + rest;
    assert s[0] == |f| / 0x100 && s[1] == |f| % 0x100;
    assert LengthAt(s) == |f|;
  }

  predicate FramesOk(frames: seq<Bytes>) {
    forall f :: f in frames ==> |f| < 0x1_0000
  }

  /** All the whole messages of a stream, and what is left. */
  function Split(s: Bytes): (r: (seq<Bytes>, Bytes))
    ensures FramesOk(r.0)
    decreases |s|
  {
    if !Whole(s) then ([], s)
    else
      var (fs, rest) := Split(s[2 + LengthAt(s)..]);
      ([First(s)] + fs, rest)
  }

  lemma FramedSnoc(frames: seq<Bytes>, f: Bytes)
    requires FramesOk(frames) && |f| < 0x1_0000
    ensures FramesOk(frames + [f]) && Framed(frames + [f]) == Framed(frames) + Frame(f)
  {
    assert (frames + [f])[..|frames|] == frames;
  }

  lemma {:induction false} FramedCons(f: Bytes, frames: seq<Bytes>)
    requires FramesOk(frames) && |f| < 0x1_0000
    ensures FramesOk([f] + frames) && Framed([f] + frames) == Frame(f) + Framed(frames)
  {
    if frames == [] {
      assert [f] + frames == [] + [f];
      FramedSnoc([], f);
    } else {
      var init, last := frames[..|frames| - 1], frames[|frames| - 1];
      FramedCons(f, init);
      assert [f] + frames == ([f] + init) + [last];
      FramedSnoc([f] + init, last);
      FramedSnoc(init, last);
      assert init + [last] == frames;
    }
    hide Frame;
  }

  /** A stream that begins with some messages splits into them first. */
  lemma {:induction false} SplitFramed(frames: seq<Bytes>, rest: Bytes)
    requires FramesOk(frames)
    ensures Split(Framed(frames) + rest) == (frames + Split(rest).0, Split(rest).1)
  {
    if frames == [] {
      assert Framed(frames) + rest == rest && frames + Split(rest).0 == Split(rest).0;
    } else {
      var f, more := frames[0], frames[1..];
      assert frames == [f] + more;
      FramedCons(f, more);
      assert Framed(frames) + rest == Frame(f) + (Framed(more) + rest);
      FrameFirst(f, Framed(more) + rest);
      SplitFramed(more, rest);
      assert [f] + (more + Split(rest).0) == frames + Split(rest).0;
    }
    hide Framed, Frame;
  }

  /** Everything whole was handed over: then it is just what the stream holds. */
  lemma HandedAll(received: Bytes, handed: seq<Bytes>, rest: Bytes)
    requires FramesOk(handed) && received == Framed(handed) + rest
    ensures handed <= Split(received).0 && (!Whole(rest) ==> Split(received) == (handed, rest))
  {
    hide Framed;
    SplitFramed(handed, rest);
    assert handed + [] == handed;
  }

  /** The same bytes in other chunks: the same messages, as far as both got; and
      the same altogether once neither has a whole one waiting. */
  lemma ChunkingIrrelevant(received: Bytes, handed: seq<Bytes>, rest: Bytes, handed': seq<Bytes>, rest': Bytes)
    requires FramesOk(handed) && FramesOk(handed') && received == Framed(handed) + rest == Framed(handed') + rest'
    ensures handed <= handed' || handed' <= handed
    ensures !Whole(rest) && !Whole(rest') ==> handed == handed' && rest == rest'
  {
    HandedAll(received, handed, rest);
    HandedAll(received, handed', rest');
    hide Split, Framed;
  }

  // ─── One connection ───────────────────────────────────────────────────────

  /** A query the handler gets: well-formed, and not itself a response. */
  predicate Acceptable(f: Bytes) {
    var m := DecodeMessage(f);
    m.Ok? && !m.value.header.qr
  }

  /** Every well-formed query that is built is acceptable, and no response is. */
  lemma QueriesAcceptable(m: Message, maxSize: nat, compress: bool)
    requires B.ValidMessage(m) && CodableMessage(m) && 512 <= maxSize < 0x1_0000
    ensures Acceptable(B.BuildMessage(m, maxSize, compress)) <==> !m.header.qr
  {
    hide DecodeMessage, B.BuildMessage;
    var cut, msg, p := BuildRoundTrip(m, maxSize, compress);
  }

  /** A response, already framed; how much of what is unsent the socket takes
      then, and whether it fails. */
  datatype Reply = Reply(frame: Bytes, taken: nat, fails: bool)

  /** What a read of the socket yields: bytes, none at the end of the stream; none
      as yet; or a failure. */
  datatype Input = Chunk(bytes: Bytes) | NotYet | Broken

  /** Why a connection was closed. */
  datatype Cause = StillOpen | BadQuery | SocketFailed | AllDone

  predicate AllAcceptable(frames: seq<Bytes>) {
    forall f :: f in frames ==> Acceptable(f)
  }

  /** The responses that the handler gives at once when handed a query: to it, or
      to others that wait. */
  type Handler = nat -> seq<Reply>

  predicate NoneFail(replies: seq<Reply>) {
    forall i :: 0 <= i < |replies| ==> !replies[i].fails
  }

  /** No response the handler will give at once fails on the socket. */
  ghost predicate Reliable(handler: Handler) {
    forall n :: NoneFail(handler(n))
  }

  class Connection {
    var input: Bytes
    var out: Bytes
    var pending: nat
    var processing: bool
    var open: bool
    var peerDone: bool
    var queries: nat
    ghost var used: nat           // how much of the input was handed over
    ghost var received: Bytes     // every byte that came in
    ghost var handed: seq<Bytes>  // every query handed over
    ghost var answered: Bytes     // every response, framed
    ghost var sent: Bytes         // every byte that went out
    ghost var cause: Cause

    /** Nothing is lost, repeated or reordered, either way. */
    ghost predicate Valid()
      reads this
    {
      && FramesOk(handed) && AllAcceptable(handed) && used <= |input| && received == Framed(handed) + input[used..]
      && (open && !processing ==> used == 0)
      && pending <= 32 && queries == |handed|
      && sent <= answered && (open ==> sent + out == answered)
      && (open <==> cause == StillOpen)
      && (cause == BadQuery ==> Whole(input[used..]) && !Acceptable(First(input[used..])))
      && (cause == AllDone ==> peerDone && pending == 0 && sent == answered)
    }

    /** Between events no whole query waits while there is room for it. */
    ghost predicate Settled()
      reads this
    {
      !processing && (open ==> pending == 32 || !Whole(input))
    }

    constructor ()
      ensures Valid() && Settled() && open && received == [] && answered == []
    {
      input, out, pending, processing, open, peerDone, queries := [], [], 0, false, true, false, 0;
      used, received, handed, answered, sent, cause := 0, [], [], [], [], StillOpen;
    }

    /** One read: only a failure, or what the bytes lead to, closes the connection. */
    method ReadFrom(input: Input, handler: Handler)
      requires Valid() && Settled() && open
      modifies this
      ensures Valid() && Settled() && old(handed) <= handed && old(answered) <= answered
      ensures received == if input.Chunk? then old(received) + input.bytes else old(received)
      ensures input.Broken? ==> !open && cause == SocketFailed && handed == old(handed)
      ensures input.NotYet? ==> open && handed == old(handed) && peerDone == old(peerDone)
      ensures cause == SocketFailed && Reliable(handler) ==> input.Broken?
    {
      hide Framed, Whole, Acceptable;
      match input
      case NotYet =>
      case Broken =>
        open, cause := false, SocketFailed;
      case Chunk(chunk) =>
        if chunk == [] {
          peerDone := true;
          assert received + chunk == received;
          return;
        }
        this.input := this.input + chunk;
        received := received + chunk;
        assert Framed(handed) + old(this.input)[used..] + chunk == Framed(handed) + this.input[used..];
        ProcessMessages(handler);
    }

    method ProcessMessages(handler: Handler)
      requires Valid()
      modifies this
      ensures Valid() && processing == old(processing) && received == old(received) && peerDone == old(peerDone)
      ensures old(processing) ==>
                && input == old(input) && used == old(used) && handed == old(handed)
                && open == old(open) && pending == old(pending)
      ensures old(handed) <= handed && (!old(processing) ==> Settled())
      ensures !old(open) ==> handed == old(handed) && !open && cause == old(cause)
      ensures old(answered) <= answered && (old(processing) ==> answered == old(answered))
      ensures Reliable(handler) && old(open) ==> cause != SocketFailed
      decreases if processing then 0 else 3
    {
      hide Framed, Frame, Acceptable, First, FramesOk, LengthAt;
      if processing { return; }
      processing := true;
      var u := 0;
      while open && pending < MAX_PIPELINED && |input| - u >= 2
        invariant Valid() && processing && received == old(received) && peerDone == old(peerDone) && input == old(input)
        invariant u <= |input| && (open ==> used == u) && old(handed) <= handed
        invariant !old(open) ==> !open && handed == old(handed) && cause == old(cause)
        invariant Reliable(handler) && old(open) ==> cause != SocketFailed
        invariant old(answered) <= answered
        decreases |input| - u
      {
        var length := LengthAt(input[u..]);
        if |input| - u - 2 < length { break; }
        u := HandNext(u, handler);
      }
      if open {
        assert input[u..][0..] == input[u..];
        input := input[u..];
        used := 0;
      }
      processing := false;
    }

    /** One query to the handler; a broken client loses the connection. */
    method HandNext(u: nat, handler: Handler) returns (next: nat)
      requires Valid() && processing && open && used == u <= |input| && pending < MAX_PIPELINED && Whole(input[u..])
      modifies this
      ensures Valid() && processing && received == old(received) && peerDone == old(peerDone) && input == old(input)
      ensures u < next <= |input| && (open ==> used == next) && old(handed) <= handed && old(answered) <= answered
      ensures Reliable(handler) ==> cause != SocketFailed
      decreases if processing then 2 else 5, 1
    {
      hide Framed, Frame, Acceptable, First, FramesOk;
      var length := LengthAt(input[u..]);
      HandOver(handed, input, u);
      next := u + 2 + length;
      var frame := input[u + 2..next];
      if !Acceptable(frame) {
        open, cause := false, BadQuery;
        return;
      }
      pending, queries := pending + 1, queries + 1;
      handed, used := handed + [frame], next;
      Handle(handler(queries - 1), handler);
    }

    /** The handler's immediate responses come back through Respond. */
    method Handle(replies: seq<Reply>, handler: Handler)
      requires Valid() && processing
      modifies this
      ensures Valid() && processing && received == old(received) && input == old(input) && used == old(used)
      ensures handed == old(handed)
      ensures (open ==> old(open)) && peerDone == old(peerDone) && old(answered) <= answered
      ensures NoneFail(replies) && Reliable(handler) && old(open) ==> cause != SocketFailed
      decreases if processing then 2 else 5, 0
    {
      hide Framed;
      var i := 0;
      while i < |replies| && open && pending > 0
        invariant 0 <= i <= |replies| && Valid() && processing && received == old(received) && input == old(input)
        invariant used == old(used) && handed == old(handed) && (open ==> old(open))
        invariant peerDone == old(peerDone) && old(answered) <= answered
        invariant NoneFail(replies) && Reliable(handler) && old(open) ==> cause != SocketFailed
      {
        Respond(replies[i], handler);
        i := i + 1;
      }
    }

    /** The response to a query that waits for one. */
    method Respond(r: Reply, handler: Handler)
      requires Valid() && (open ==> pending > 0)
      modifies this
      ensures Valid() && processing == old(processing) && received == old(received) && (open ==> old(open))
      ensures peerDone == old(peerDone)
      ensures if old(open) then old(answered) + r.frame <= answered else answered == old(answered)
      ensures old(processing) && old(open) ==> answered == old(answered) + r.frame
      ensures old(processing) ==> input == old(input) && used == old(used) && handed == old(handed)
      ensures old(handed) <= handed
      ensures !processing && old(open) ==> Settled()
      ensures old(open) && cause == SocketFailed && Reliable(handler) ==> r.fails
      decreases if processing then 1 else 4
    {
      hide Framed, Whole;
      if !open { return; }
      pending := pending - 1;
      out := out + r.frame;
      answered := answered + r.frame;
      assert sent + out == answered;
      Flush(r.taken, r.fails);
      if !open { return; }
      ProcessMessages(handler);
      if open { Update(); }
    }

    /** The socket takes some of what is unsent. */
    method Flush(taken: nat, fails: bool)
      requires Valid() && open
      modifies this
      ensures Valid() && open == !fails && (fails ==> cause == SocketFailed) && answered == old(answered)
      ensures pending == old(pending) && processing == old(processing)
      ensures input == old(input) && used == old(used) && handed == old(handed) && received == old(received)
      ensures peerDone == old(peerDone)
    {
      hide Framed;
      var n := if taken < |out| then taken else |out|;
      assert sent + out[..n] + out[n..] == sent + out;
      sent := sent + out[..n];
      if fails {
        open, cause := false, SocketFailed;
        return;
      }
      out := out[n..];
    }

    /** Close the connection once it is done. */
    method Update()
      requires Valid() && open
      modifies this`open, this`cause
      ensures Valid() && open == !(peerDone && pending == 0 && out == []) && (!open ==> cause == AllDone)
    {
      if peerDone && pending == 0 && out == [] { open, cause := false, AllDone; }
    }
  }

  lemma NextFrame(input: Bytes, u: nat)
    requires u <= |input| && Whole(input[u..])
    ensures var n := LengthAt(input[u..]);
      && u + 2 + n <= |input| && n < 0x1_0000 && |input[u + 2..u + 2 + n]| == n
      && input[u..] == Frame(input[u + 2..u + 2 + n]) + input[u + 2 + n..]
      && First(input[u..]) == input[u + 2..u + 2 + n]
  {
    var s := input[u..];
    var n := LengthAt(s);
    FirstFrame(s);
    assert First(s) == input[u + 2..u + 2 + n] && s[2 + n..] == input[u + 2 + n..];
  }

  /** One message more handed over. */
  lemma HandOver(handed: seq<Bytes>, input: Bytes, u: nat)
    requires FramesOk(handed) && u <= |input| && Whole(input[u..])
    ensures var n := LengthAt(input[u..]);
      && u + 2 + n <= |input|
      && var f := input[u + 2..u + 2 + n];
         && First(input[u..]) == f && FramesOk(handed + [f])
         && Framed(handed) + input[u..] == Framed(handed + [f]) + input[u + 2 + n..]
  {
    hide Framed, Frame;
    NextFrame(input, u);
    FramedSnoc(handed, input[u + 2..u + 2 + LengthAt(input[u..])]);
  }
}
