/** The codec's laws for whole messages: whatever is built fits its limit, is
    cut only where it must be, and parses back as what was kept. */
module WireMessage {
  import opened DnsTypes
  import opened WireName
  import opened NameWriter
  import opened Emitting
  import opened WireParser
  import opened WireRecords
  import opened WireSections
  import B = WireBuilder

  predicate CodableMessage(m: Message) {
    CodableRRs(m.answers) && CodableRRs(m.authority) && CodableRRs(m.additional)
  }

  // ─── Header and OPT read back ─────────────────────────────────────────────

  /** The header as it survives: opcode and rcode are four bits wide. */
  function FourBits(h: Header): Header {
    h.(opcode := h.opcode % 16, rcode := h.rcode % 16)
  }

  lemma FlagBits2(h: Header, b: int)
    requires b == B.Flag(h.qr, 128) as int + h.opcode % 16 * 8 + B.Flag(h.aa, 4) + B.Flag(h.tc, 2) + B.Flag(h.rd, 1)
    ensures 0 <= b < 256 && Bit(b, 128) == h.qr && b / 8 % 16 == h.opcode % 16
    ensures Bit(b, 4) == h.aa && Bit(b, 2) == h.tc && Bit(b, 1) == h.rd
  {
    var qr, op, aa, tc, rd :=
      if h.qr then 1 else 0, h.opcode as int % 16, if h.aa then 1 else 0, if h.tc then 1 else 0, if h.rd then 1 else 0;
    var b8 := qr * 16 + op;
    assert b == b8 * 8 + aa * 4 + tc * 2 + rd;
    assert b / 8 == b8 && b / 4 == b8 * 2 + aa && b / 2 == b8 * 4 + aa * 2 + tc;
    assert b8 % 16 == op && b8 / 16 == qr && b / 128 == b8 / 16;
  }

  lemma FlagBits3(h: Header, b: int)
    requires b == B.Flag(h.ra, 128) as int + B.Flag(h.ad, 32) + B.Flag(h.cd, 16) + h.rcode % 16
    ensures 0 <= b < 256 && Bit(b, 128) == h.ra && Bit(b, 32) == h.ad && Bit(b, 16) == h.cd && b % 16 == h.rcode % 16
  {
  }

  lemma HeaderReads(h: Header, rest: Bytes)
    ensures DecodeHeader(B.HeaderBytes(h) + rest) == Ok(FourBits(h))
  {
    var b := B.HeaderBytes(h);
    FlagBits2(h, b[2]);
    FlagBits3(h, b[3]);
    assert forall i :: 0 <= i < 12 ==> (b + rest)[i] == b[i];
  }

  lemma OptTtl(info: EdnsInfo, ttl: u32)
    requires ttl == info.extendedRcode as int * 0x100_0000 + info.version as int * 0x1_0000
                    + (if info.dnssecOk then 0x8000 else 0)
    ensures OptFields(info.udpPayloadSize, ttl) == info
  {
    var high: int, bit := info.extendedRcode as int * 256 + info.version as int, if info.dnssecOk then 1 else 0;
    assert ttl == high * 0x1_0000 + bit * 0x8000;
    assert ttl / 0x1_0000 == high && ttl / 0x8000 == high * 2 + bit;
    assert ttl / 0x100_0000 == high / 256 == info.extendedRcode && high % 256 == info.version;
  }

  lemma OptReads(buf: Bytes, info: EdnsInfo)
    ensures DecodeRecord(buf + B.OptBytes(info), |buf|, true, None) == Ok(Section([], Some(info),
        |buf| + B.OPT_RECORD_SIZE))
  {
    var ttl: u32 := info.extendedRcode as int * 0x100_0000 + info.version as int * 0x1_0000
                    + (if info.dnssecOk then 0x8000 else 0);
    OptTtl(info, ttl);
    var t, c, l, r := U16(TYPE_OPT), U16(info.udpPayloadSize), U32(ttl), U16(0);
    var pre := buf + [0];
    var msg := buf + B.OptBytes(info);
    assert msg == pre + t + (c + l + r);
    LoadsU16(pre, TYPE_OPT, c + l + r);
    assert msg == (pre + t) + c + (l + r);
    LoadsU16(pre + t, info.udpPayloadSize, l + r);
    assert msg == (pre + t + c) + l + r;
    LoadsU32(pre + t + c, ttl, r);
    assert msg == (pre + t + c + l) + r + [];
    LoadsU16(pre + t + c + l, 0, []);
    RootReads(msg, |buf|);
    assert msg[|msg|..|msg|] == [];
  }

  lemma RootReads(msg: Bytes, pos: nat)
    requires pos < |msg| && msg[pos] == 0
    ensures DecodeName(msg, pos) == Ok((Name([], []), pos + 1))
  {
    assert LowerAll([]) == [];
  }

  // ─── A section added to a draft reads back ────────────────────────────────

  lemma AddedSectionReads(
    step: Step<RR>, dec: RecordDecoder, msg: Bytes, hdr: Bytes, w: B.Draft, compress: bool, rrs: seq<RR>,
    additional: bool)
    returns (w': B.Draft, rrs': seq<RR>)
    requires IsRRStep(step, compress) && ReadsRecordsOf(dec, msg, additional)
    requires B.ValidRRs(rrs) && CodableRRs(rrs)
    requires |hdr| == HEADER_SIZE && Good(hdr + w.body, w.suffixes)
    requires |msg| < 0x1_0000 && hdr + w.Add(step, rrs).body <= msg
    ensures w' == w.Add(step, rrs) && Good(hdr + w'.body, w'.suffixes) && w.Size() + MIN_RR_SIZE * |rrs| <= w'.Size()
    ensures DecodeSection(dec, w.Size(), |rrs|, None) == Ok(Section(rrs', None, w'.Size()))
    ensures SameRRs(compress, rrs', rrs)
  {
    var buf := hdr + w.body;
    assert |buf| == w.Size();
    w' := w.Add(step, rrs);
    Regroup(hdr, w.body, EmitAll(step, w.Size(), w.suffixes, rrs).bytes, []);
    var e;
    e, rrs' := SectionReads(step, dec, msg, buf, w.suffixes, compress, rrs, additional, None);
  }

  lemma AddedQuestionsRead(
    step: Step<Question>, dec: QuestionDecoder, msg: Bytes, hdr: Bytes, compress: bool, qs: seq<Question>)
    returns (w': B.Draft, qs': seq<Question>)
    requires IsQuestionStep(step, compress) && ReadsQuestionsOf(dec, msg) && B.ValidQuestions(qs)
    requires |hdr| == HEADER_SIZE && hdr + B.EMPTY_DRAFT.Add(step, qs).body <= msg
    ensures w' == B.EMPTY_DRAFT.Add(step, qs) && Good(hdr + w'.body, w'.suffixes)
    ensures HEADER_SIZE + MIN_QUESTION_SIZE * |qs| <= w'.Size()
    ensures DecodeQuestions(dec, HEADER_SIZE, |qs|) == Ok((qs', w'.Size())) && SameQuestions(compress, qs', qs)
  {
    w' := B.EMPTY_DRAFT.Add(step, qs);
    var e;
    assert [] + EmitAll(step, |hdr|, map[], qs).bytes == EmitAll(step, |hdr|, map[], qs).bytes;
    e, qs' := QuestionsRead(step, dec, msg, hdr, map[], compress, qs);
    assert w'.body == e.bytes;
  }

  /** Nothing written before is lost by adding to a draft. */
  lemma AddExtends<T>(step: Step<T>, hdr: Bytes, w: B.Draft, items: seq<T>, msg: Bytes)
    requires hdr + w.Add(step, items).body <= msg
    ensures hdr + w.body <= msg
  {
    Regroup(hdr, w.body, EmitAll(step, w.Size(), w.suffixes, items).bytes, []);
  }

  // ─── Whole messages ───────────────────────────────────────────────────────

  /** `p` is `m` up to `cut`, with the counts as they are on the wire. */
  ghost predicate ParsedAs(p: Message, m: Message, cut: B.Cut, compress: bool)
    requires cut.Within(m)
  {
    && p.header == FourBits(B.FinalHeader(m, cut))
    && p.header.qdcount == cut.questions && p.header.ancount == cut.answers && p.header.nscount == cut.authority
    && p.header.arcount == cut.additional + (if m.edns.Some? then 1 else 0)
    && SameQuestions(compress, p.questions, m.questions[..cut.questions])
    && SameRRs(compress, p.answers, m.answers[..cut.answers])
    && SameRRs(compress, p.authority, m.authority[..cut.authority])
    && SameRRs(compress, p.additional, m.additional[..cut.additional])
    && p.edns == m.edns
  }

  /** The parser's view of the four sections, once each is known. */
  datatype Sections = Sections(qs: seq<Question>, an: seq<RR>, ns: seq<RR>, ar: seq<RR>, p1: nat, p2: nat, p3: nat,
                               end: nat)

  ghost predicate Decode(d: Decoders, msg: Bytes) {
    && ReadsQuestionsOf(d.questions, msg) && ReadsRecordsOf(d.records, msg, false)
    && ReadsRecordsOf(d.additional, msg, true)
  }

  /** Where each section ends, and that it decodes, in a message. */
  ghost predicate ReadTo(d: Decoders, cut: B.Cut, s: Sections) {
    && DecodeQuestions(d.questions, HEADER_SIZE, cut.questions) == Ok((s.qs, s.p1))
    && DecodeSection(d.records, s.p1, cut.answers, None) == Ok(Section(s.an, None, s.p2))
    && DecodeSection(d.records, s.p2, cut.authority, None) == Ok(Section(s.ns, None, s.p3))
    && DecodeSection(d.additional, s.p3, cut.additional, None) == Ok(Section(s.ar, None, s.end))
  }

  ghost predicate SameSections(s: Sections, m: Message, cut: B.Cut, compress: bool)
    requires cut.Within(m)
  {
    && SameQuestions(compress, s.qs, m.questions[..cut.questions])
    && SameRRs(compress, s.an, m.answers[..cut.answers])
    && SameRRs(compress, s.ns, m.authority[..cut.authority])
    && SameRRs(compress, s.ar, m.additional[..cut.additional])
  }

  lemma SectionsRead(
    qstep: Step<Question>, step: Step<RR>, d: Decoders, m: Message, cut: B.Cut, compress: bool, hdr: Bytes, msg: Bytes)
    returns (s: Sections)
    requires B.ValidMessage(m) && CodableMessage(m) && cut.Within(m)
    requires IsQuestionStep(qstep, compress) && IsRRStep(step, compress) && Decode(d, msg)
    requires |hdr| == HEADER_SIZE && |msg| < 0x1_0000 && hdr + B.DraftBy(qstep, step, m, cut).body <= msg
    ensures s.end == B.DraftBy(qstep, step, m, cut).Size()
    ensures HEADER_SIZE + MIN_QUESTION_SIZE * cut.questions
            + MIN_RR_SIZE * (cut.answers + cut.authority + cut.additional) <= s.end
    ensures ReadTo(d, cut, s) && SameSections(s, m, cut, compress)
  {
    var w1 := B.EMPTY_DRAFT.Add(qstep, m.questions[..cut.questions]);
    var w2 := w1.Add(step, m.answers[..cut.answers]);
    var w3 := w2.Add(step, m.authority[..cut.authority]);
    AddExtends(step, hdr, w3, m.additional[..cut.additional], msg);
    AddExtends(step, hdr, w2, m.authority[..cut.authority], msg);
    AddExtends(step, hdr, w1, m.answers[..cut.answers], msg);
    var w1', qs := AddedQuestionsRead(qstep, d.questions, msg, hdr, compress, m.questions[..cut.questions]);
    var w2', an := AddedSectionReads(step, d.records, msg, hdr, w1', compress, m.answers[..cut.answers], false);
    var w3', ns := AddedSectionReads(step, d.records, msg, hdr, w2', compress, m.authority[..cut.authority], false);
    var w4', ar := AddedSectionReads(step, d.additional, msg, hdr, w3', compress, m.additional[..cut.additional], true);
    s := Sections(qs, an, ns, ar, w1'.Size(), w2'.Size(), w3'.Size(), w4'.Size());
  }

  /** With the OPT at the end, if there is one. */
  lemma AdditionalRead(
    dec: RecordDecoder, msg: Bytes, body: Bytes, pos: nat, count: nat, ar: seq<RR>, edns: Option<EdnsInfo>)
    requires ReadsRecordsOf(dec, msg, true) && msg == body + B.EdnsBytes(edns)
    requires DecodeSection(dec, pos, count, None) == Ok(Section(ar, None, |body|))
    ensures DecodeSection(dec, pos, count + (if edns.Some? then 1 else 0), None) == Ok(Section(ar, edns, |msg|))
  {
    match edns
    case None =>
      assert body + [] == body;
    case Some(info) =>
      var opt := OptStepReads(dec, msg, body, info);
      DecodeSectionSnoc(dec, pos, count, None, Section(ar, None, |body|), opt);
      assert ar + [] == ar;
  }

  lemma OptStepReads(dec: RecordDecoder, msg: Bytes, body: Bytes, info: EdnsInfo) returns (opt: Section)
    requires ReadsRecordsOf(dec, msg, true) && msg == body + B.OptBytes(info)
    ensures opt == Section([], Some(info), |msg|) && dec(|body|, None) == Ok(opt)
  {
    OptReads(body, info);
    opt := Section([], Some(info), |msg|);
    assert dec(|body|, None) == DecodeRecord(msg, |body|, true, None);
  }

  lemma MessageReads(msg: Bytes, h: Header, cut: B.Cut, s: Sections, edns: Option<EdnsInfo>)
    requires DecodeHeader(msg) == Ok(h) && ReadTo(DecodersOf(msg), cut, s)
    requires h.qdcount == cut.questions && h.ancount == cut.answers && h.nscount == cut.authority
    requires DecodeSection(DecodersOf(msg).additional, s.p3, h.arcount, None) == Ok(Section(s.ar, edns, |msg|))
    requires MinNeeded(h) <= |msg| - HEADER_SIZE
    ensures DecodeMessage(msg) == Ok(Message(h, s.qs, s.an, s.ns, s.ar, edns))
  {
  }

  /** No 16-bit count wraps, and the records announced do fit. */
  lemma CountsExact(m: Message, cut: B.Cut, size: nat)
    requires HEADER_SIZE + MIN_QUESTION_SIZE * cut.questions
             + MIN_RR_SIZE * (cut.answers + cut.authority + cut.additional)
             + B.EdnsSize(m.edns) <= size < 0x1_0000
    ensures var h := FourBits(B.FinalHeader(m, cut));
            && h.qdcount == cut.questions && h.ancount == cut.answers && h.nscount == cut.authority
            && h.arcount == cut.additional + (if m.edns.Some? then 1 else 0)
            && MinNeeded(h) <= size - HEADER_SIZE
  {
  }

  /** From the sections to the message: header, counts and OPT. */
  lemma MessageFinishes(d: Decoders, m: Message, cut: B.Cut, compress: bool, body: Bytes, msg: Bytes, s: Sections)
    returns (h: Header, p: Message)
    requires Decode(d, msg) && cut.Within(m) && ReadTo(d, cut, s) && SameSections(s, m, cut, compress)
    requires msg == body + B.EdnsBytes(m.edns) && |body| == s.end && |msg| < 0x1_0000
    requires B.HeaderBytes(B.FinalHeader(m, cut)) <= body
    requires HEADER_SIZE + MIN_QUESTION_SIZE * cut.questions
             + MIN_RR_SIZE * (cut.answers + cut.authority + cut.additional) <= s.end
    ensures p == Message(h, s.qs, s.an, s.ns, s.ar, m.edns) && ParsedAs(p, m, cut, compress)
    ensures DecodeHeader(msg) == Ok(h) && MinNeeded(h) <= |msg| - HEADER_SIZE
    ensures DecodeSection(d.additional, s.p3, h.arcount, None) == Ok(Section(s.ar, m.edns, |msg|))
  {
    var final := B.FinalHeader(m, cut);
    CountsExact(m, cut, |msg|);
    var hdr := B.HeaderBytes(final);
    assert msg == hdr + msg[|hdr|..];
    HeaderReads(final, msg[|hdr|..]);
    h := FourBits(final);
    p := Message(h, s.qs, s.an, s.ns, s.ar, m.edns);
    AdditionalRead(d.additional, msg, body, s.p3, cut.additional, s.ar, m.edns);
  }

  /** Whatever cut is made, the message that carries it parses back as it. */
  lemma CutReadsBack(m: Message, cut: B.Cut, compress: bool, hdr: Bytes, w: B.Draft, msg: Bytes) returns (p: Message)
    requires B.ValidMessage(m) && CodableMessage(m) && cut.Within(m)
    requires hdr == B.HeaderBytes(B.FinalHeader(m, cut)) && w == B.DraftOf(m, cut, compress)
    requires msg == hdr + w.body + B.EdnsBytes(m.edns) && |msg| < 0x1_0000
    ensures DecodeMessage(msg) == Ok(p) && ParsedAs(p, m, cut, compress)
  {
    var s := SectionsRead(B.QuestionStep(compress), B.RRStep(compress), DecodersOf(msg), m, cut, compress, hdr, msg);
    var h;
    h, p := MessageFinishes(DecodersOf(msg), m, cut, compress, hdr + w.body, msg, s);
    MessageReads(msg, h, cut, s, m.edns);
  }

  // ─── What is cut ──────────────────────────────────────────────────────────

  /** How a message that does not fit is cut, section 9 of RFC 2181. */
  predicate CutRules(m: Message, cut: B.Cut)
    requires cut.Within(m)
  {
    // nothing follows a section that was cut
    && (cut.questions < |m.questions| ==> cut.answers == 0)
    && (cut.questions < |m.questions| || cut.answers < |m.answers| ==> cut.authority == 0)
    && (cut.Truncates(m) ==> cut.additional == 0)
    // no RRset is divided
    && Undivided(m.answers, cut.answers)
    && Undivided(m.authority, cut.authority)
    && Undivided(m.additional, cut.additional)
  }

  /** `k` does not separate records of one owner, type and class. */
  predicate Undivided(rrs: seq<RR>, k: nat)
    requires k <= |rrs|
  {
    0 < k < |rrs| ==>
      !(rrs[k - 1].rtype == rrs[k].rtype && rrs[k - 1].cls == rrs[k].cls
        && rrs[k - 1].name.labels == rrs[k].name.labels)
  }

  /** A section is cut only where its next whole group would not fit. */
  predicate Tight<T>(step: Step<T>, same: (T, T) -> bool, w: B.Draft, items: seq<T>, limit: nat, count: nat)
    requires count <= |items|
  {
    count < |items| ==> w.Add(step, items[..count + RunLength(same, items[count..])]).Size() > limit
  }

  predicate CutTight(qstep: Step<Question>, step: Step<RR>, m: Message, cut: B.Cut, limit: nat)
    requires cut.Within(m)
  {
    var w1 := B.EMPTY_DRAFT.Add(qstep, m.questions[..cut.questions]);
    var w2 := w1.Add(step, m.answers[..cut.answers]);
    var w3 := w2.Add(step, m.authority[..cut.authority]);
    var q, a, u := cut.questions == |m.questions|, cut.answers == |m.answers|, cut.authority == |m.authority|;
    && Tight(qstep, B.SameGroup, B.EMPTY_DRAFT, m.questions, limit, cut.questions)
    && (q ==> Tight(step, B.SameRRset, w1, m.answers, limit, cut.answers))
    && (q && a ==> Tight(step, B.SameRRset, w2, m.authority, limit, cut.authority))
    && (q && a && u ==> Tight(step, B.SameRRset, w3, m.additional, limit, cut.additional))
  }

  predicate CutRight(m: Message, cut: B.Cut, limit: nat, compress: bool)
    requires cut.Within(m)
  {
    && B.DraftOf(m, cut, compress).Size() <= limit
    && CutRules(m, cut)
    && CutTight(B.QuestionStep(compress), B.RRStep(compress), m, cut, limit)
  }

  function FullCut(m: Message): (cut: B.Cut)
    ensures cut.Within(m)
  {
    B.Cut(|m.questions|, |m.answers|, |m.authority|, |m.additional|)
  }

  lemma FitInCutsWell<T(!new)>(step: Step<T>, same: (T, T) -> bool, w: B.Draft, items: seq<T>, limit: nat, open: bool)
    returns (count: nat)
    requires Transitive(same) && w.Size() <= limit
    ensures count == B.FitIn(step, same, w, items, limit, open)
    ensures w.Add(step, items[..count]).Size() <= limit && RunBoundary(same, items, count)
    ensures if open then Tight(step, same, w, items, limit, count) else count == 0
    ensures open && w.Add(step, items).Size() <= limit ==> count == |items|
  {
    if open {
      count := FitCutsWell(step, same, w.Size(), w.suffixes, items, limit);
      if w.Add(step, items).Size() <= limit {
        FitsUncut(step, same, w.Size(), w.suffixes, items, limit);
      }
    } else {
      count := 0;
      assert items[..0] == [];
    }
  }

  lemma CutForRight(m: Message, limit: nat, compress: bool) returns (cut: B.Cut)
    requires limit >= HEADER_SIZE
    ensures cut == B.CutFor(m, limit, compress)
    ensures CutRight(m, cut, limit, compress)
  {
    cut := CutByRight(B.QuestionStep(compress), B.RRStep(compress), m, limit);
  }

  lemma CutByRight(qstep: Step<Question>, step: Step<RR>, m: Message, limit: nat) returns (cut: B.Cut)
    requires limit >= HEADER_SIZE
    ensures cut == B.CutBy(qstep, step, m, limit) && B.DraftBy(qstep, step, m, cut).Size() <= limit
    ensures CutRules(m, cut) && CutTight(qstep, step, m, cut, limit)
  {
    var q := FitInCutsWell(qstep, B.SameGroup, B.EMPTY_DRAFT, m.questions, limit, true);
    var w1 := B.EMPTY_DRAFT.Add(qstep, m.questions[..q]);
    var a := FitInCutsWell(step, B.SameRRset, w1, m.answers, limit, q == |m.questions|);
    var w2 := w1.Add(step, m.answers[..a]);
    var u := FitInCutsWell(step, B.SameRRset, w2, m.authority, limit, q == |m.questions| && a == |m.answers|);
    var w3 := w2.Add(step, m.authority[..u]);
    var d := FitInCutsWell(step, B.SameRRset, w3, m.additional, limit,
                           q == |m.questions| && a == |m.answers| && u == |m.authority|);
    cut := B.Cut(q, a, u, d);
  }

  lemma AssembleIs(m: Message, compress: bool, cut: B.Cut) returns (hdr: Bytes, w: B.Draft, msg: Bytes)
    requires cut.Within(m)
    ensures hdr == B.HeaderBytes(B.FinalHeader(m, cut)) && w == B.DraftOf(m, cut, compress)
    ensures msg == B.Assemble(m, cut, compress) == hdr + w.body + B.EdnsBytes(m.edns)
    ensures |msg| == w.Size() + B.EdnsSize(m.edns)
  {
    hdr, w := B.HeaderBytes(B.FinalHeader(m, cut)), B.DraftOf(m, cut, compress);
    msg := hdr + w.body + B.EdnsBytes(m.edns);
  }

  /** The codec's main law: what is built never exceeds its limit, and parses
      back as the part of the message that was kept, with exact counts. */
  lemma BuildRoundTrip(m: Message, maxSize: nat, compress: bool) returns (cut: B.Cut, msg: Bytes, p: Message)
    requires B.ValidMessage(m) && CodableMessage(m) && B.CLASSIC_UDP_SIZE <= maxSize < 0x1_0000
    ensures cut == B.CutFor(m, B.Limit(m, maxSize), compress) && msg == B.BuildMessage(m, maxSize, compress)
    ensures |msg| <= maxSize && DecodeMessage(msg) == Ok(p)
    ensures ParsedAs(p, m, cut, compress)
    ensures CutRight(m, cut, B.Limit(m, maxSize), compress)
  {
    cut := CutForRight(m, B.Limit(m, maxSize), compress);
    var hdr, w;
    hdr, w, msg := AssembleIs(m, compress, cut);
    p := CutReadsBack(m, cut, compress, hdr, w, msg);
  }

  /** A message that fits is not cut at all. */
  lemma FitsWhole(m: Message, limit: nat, compress: bool)
    requires B.DraftOf(m, FullCut(m), compress).Size() <= limit
    ensures B.CutFor(m, limit, compress) == FullCut(m)
  {
    FitsWholeBy(B.QuestionStep(compress), B.RRStep(compress), m, limit);
  }

  lemma FitsWholeBy(qstep: Step<Question>, step: Step<RR>, m: Message, limit: nat)
    requires B.DraftBy(qstep, step, m, FullCut(m)).Size() <= limit
    ensures B.CutBy(qstep, step, m, limit) == FullCut(m)
  {
    assert m.questions[..|m.questions|] == m.questions && m.answers[..|m.answers|] == m.answers;
    assert m.authority[..|m.authority|] == m.authority && m.additional[..|m.additional|] == m.additional;
    var w1 := B.EMPTY_DRAFT.Add(qstep, m.questions);
    var w2 := w1.Add(step, m.answers);
    var w3 := w2.Add(step, m.authority);
    assert B.EMPTY_DRAFT.Size() <= w1.Size() <= w2.Size() <= w3.Size() <= w3.Add(step, m.additional).Size() <= limit;
    var q := FitInCutsWell(qstep, B.SameGroup, B.EMPTY_DRAFT, m.questions, limit, true);
    var a := FitInCutsWell(step, B.SameRRset, w1, m.answers, limit, true);
    var u := FitInCutsWell(step, B.SameRRset, w2, m.authority, limit, true);
    var d := FitInCutsWell(step, B.SameRRset, w3, m.additional, limit, true);
  }

  /** A message that fits parses back whole, compressed or not. */
  lemma WholeRoundTrip(m: Message, maxSize: nat, compress: bool) returns (p: Message)
    requires B.ValidMessage(m) && CodableMessage(m) && B.CLASSIC_UDP_SIZE <= maxSize < 0x1_0000
    requires B.DraftOf(m, FullCut(m), compress).Size() + B.EdnsSize(m.edns) <= maxSize
    ensures DecodeMessage(B.BuildMessage(m, maxSize, compress)) == Ok(p)
    ensures SameMessage(compress, p, m)
  {
    FitsWhole(m, B.Limit(m, maxSize), compress);
    var cut, msg;
    cut, msg, p := BuildRoundTrip(m, maxSize, compress);
    ParsedWhole(p, m, compress, cut);
  }

  lemma ParsedWhole(p: Message, m: Message, compress: bool, cut: B.Cut)
    requires cut == FullCut(m) && ParsedAs(p, m, cut, compress)
    ensures SameMessage(compress, p, m)
  {
    assert m.questions[..|m.questions|] == m.questions && m.answers[..|m.answers|] == m.answers;
    assert m.authority[..|m.authority|] == m.authority && m.additional[..|m.additional|] == m.additional;
  }

  /** Equal messages, but for the counts, which are those on the wire. */
  ghost predicate SameMessage(compress: bool, p: Message, m: Message) {
    && p.header == FourBits(m.header).(qdcount := p.header.qdcount, ancount := p.header.ancount,
                                       nscount := p.header.nscount, arcount := p.header.arcount)
    && p.header.qdcount == |m.questions| && p.header.ancount == |m.answers| && p.header.nscount == |m.authority|
    && p.header.arcount == |m.additional| + (if m.edns.Some? then 1 else 0)
    && SameQuestions(compress, p.questions, m.questions)
    && SameRRs(compress, p.answers, m.answers)
    && SameRRs(compress, p.authority, m.authority)
    && SameRRs(compress, p.additional, m.additional)
    && p.edns == m.edns
  }

  // ─── The compression map, whatever the header turns out to be ─────────────

  /** Every step of a section keeps the map good. */
  ghost predicate Grows<T(!new)>(step: Step<T>, ok: T -> bool) {
    forall buf, sfx, x {:trigger Grown(buf, sfx, step(|buf|, sfx, x))} ::
      Good(buf, sfx) && ok(x) ==> Grown(buf, sfx, step(|buf|, sfx, x))
  }

  lemma {:induction false} AllGrow<T(!new)>(
    step: Step<T>, ok: T -> bool, buf: Bytes, sfx: Suffixes, items: seq<T>) returns (e: Emission)
    requires Grows(step, ok) && Good(buf, sfx) && (forall i :: 0 <= i < |items| ==> ok(items[i]))
    ensures e == EmitAll(step, |buf|, sfx, items) && Grown(buf, sfx, e)
    decreases |items|
  {
    if items == [] {
      e := Emission([], sfx);
      GrownPlain(buf, sfx, []);
    } else {
      var one := step(|buf|, sfx, items[0]);
      assert Grown(buf, sfx, step(|buf|, sfx, items[0]));
      var rest := AllGrow(step, ok, buf + one.bytes, one.suffixes, items[1..]);
      assert |buf + one.bytes| == |buf| + |one.bytes|;
      GrownThen(buf, sfx, one, rest);
      e := Emission(one.bytes + rest.bytes, rest.suffixes);
    }
  }

  lemma StepsGrow(compress: bool)
    ensures Grows(B.RRStep(compress), B.ValidRR)
    ensures Grows(B.QuestionStep(compress), ValidQuestion)
  {
    forall buf: Bytes, sfx, rr | Good(buf, sfx) && B.ValidRR(rr)
      ensures Grown(buf, sfx, B.RRStep(compress)(|buf|, sfx, rr))
    {
      var e, owner, d, owner', d' := RecordGrows(buf, sfx, compress, rr);
    }
    forall buf: Bytes, sfx, q: Question | Good(buf, sfx) && ValidQuestion(q)
      ensures Grown(buf, sfx, B.QuestionStep(compress)(|buf|, sfx, q))
    {
      var e, q' := QuestionReads(buf, sfx, compress, q);
    }
  }

  predicate ValidQuestion(q: Question) {
    q.qname.Valid()
  }

  lemma AddKeepsGood<T(!new)>(step: Step<T>, ok: T -> bool, hdr: Bytes, w: B.Draft, items: seq<T>) returns (w': B.Draft)
    requires Grows(step, ok) && (forall i :: 0 <= i < |items| ==> ok(items[i]))
    requires |hdr| == HEADER_SIZE && Good(hdr + w.body, w.suffixes)
    ensures w' == w.Add(step, items) && Good(hdr + w'.body, w'.suffixes)
  {
    var e := AllGrow(step, ok, hdr + w.body, w.suffixes, items);
    assert |hdr + w.body| == w.Size();
    Regroup(hdr, w.body, e.bytes, []);
    w' := w.Add(step, items);
  }

  /** At every point of building a message, each remembered suffix is where the
      map says it is, under whatever header is filled in later. */
  lemma MapGoodUnderAnyHeader(m: Message, cut: B.Cut, compress: bool, hdr: Bytes)
    requires B.ValidMessage(m) && cut.Within(m) && |hdr| == HEADER_SIZE
    ensures var w := B.DraftOf(m, cut, compress); Good(hdr + w.body, w.suffixes)
  {
    StepsGrow(compress);
    MapGoodBy(B.QuestionStep(compress), B.RRStep(compress), m, cut, hdr);
  }

  lemma MapGoodBy(qstep: Step<Question>, step: Step<RR>, m: Message, cut: B.Cut, hdr: Bytes)
    requires B.ValidMessage(m) && cut.Within(m) && |hdr| == HEADER_SIZE
    requires Grows(qstep, ValidQuestion) && Grows(step, B.ValidRR)
    ensures var w := B.DraftBy(qstep, step, m, cut); Good(hdr + w.body, w.suffixes)
  {
    var w1 := AddKeepsGood(qstep, ValidQuestion, hdr, B.EMPTY_DRAFT, m.questions[..cut.questions]);
    var w2 := AddKeepsGood(step, B.ValidRR, hdr, w1, m.answers[..cut.answers]);
    var w3 := AddKeepsGood(step, B.ValidRR, hdr, w2, m.authority[..cut.authority]);
    var w4 := AddKeepsGood(step, B.ValidRR, hdr, w3, m.additional[..cut.additional]);
  }
}
