/** What the parser accepts is always something the builder can write, so any
    accepted message can be re-encoded without loss. */
module WireSound {
  import opened DnsTypes
  import opened WireName
  import opened NameWriter
  import opened Emitting
  import opened WireParser
  import opened WireRecords
  import opened WireSections
  import opened WireMessage
  import B = WireBuilder

  lemma {:induction false} StringsValid(rdata: Bytes)
    requires DecodeStrings(rdata).Ok?
    ensures var ss := DecodeStrings(rdata).value; forall i :: 0 <= i < |ss| ==> |ss[i]| <= 255
  {
    if rdata == [] {
    } else {
      StringsValid(rdata[1 + rdata[0]..]);
    }
  }

  lemma SoaValid(msg: Bytes, pos: nat, end: nat)
    requires end <= |msg| && DecodeSoa(msg, pos, end).Ok?
    ensures var d := DecodeSoa(msg, pos, end).value; d.RDataSOA? && B.ValidRData(d)
  {
    DecodeNameIffWalk(msg, pos);
    DecodeNameIffWalk(msg, DecodeName(msg, pos).value.1);
  }

  lemma RdataValid(msg: Bytes, pos: nat, end: nat, rtype: u16, cls: u16)
    requires pos <= end <= |msg| && DecodeRdata(msg, pos, end, rtype, cls).Ok?
    ensures var d := DecodeRdata(msg, pos, end, rtype, cls).value; B.ValidRData(d) && RDataFits(rtype, cls, d)
  {
    if rtype == TYPE_NS || rtype == TYPE_CNAME || rtype == TYPE_PTR {
      DecodeNameIffWalk(msg, pos);
    } else if rtype == TYPE_MX {
      DecodeNameIffWalk(msg, pos + 2);
    } else if rtype == TYPE_SOA {
      SoaValid(msg, pos, end);
    } else if rtype == TYPE_TXT {
      StringsValid(msg[pos..end]);
    }
  }

  /** The records of a section: valid, of one piece, and with a 31-bit TTL. */
  predicate Accepted(rrs: seq<RR>) {
    B.ValidRRs(rrs) && CodableRRs(rrs) && forall i :: 0 <= i < |rrs| ==> rrs[i].ttl < 0x8000_0000
  }

  lemma FieldsValid(msg: Bytes, owner: Name, rtype: u16, cls: u16, ttl: u32, start: nat, end: nat,
                    additional: bool, edns: Option<EdnsInfo>)
    requires owner.Valid() && start <= end <= |msg|
    requires DecodeFields(msg, owner, rtype, cls, ttl, start, end, additional, edns).Ok?
    ensures var s := DecodeFields(msg, owner, rtype, cls, ttl, start, end, additional, edns).value;
            Accepted(s.records) && (edns.Some? ==> s.edns == edns && |s.records| == 1)
            && |s.records| + (if s.edns.Some? then 1 else 0) == 1 + (if edns.Some? then 1 else 0)
  {
    if rtype != TYPE_OPT {
      RdataValid(msg, start, end, rtype, cls);
    }
  }

  lemma RecordValid(dec: RecordDecoder, msg: Bytes, pos: nat, additional: bool, edns: Option<EdnsInfo>)
    requires ReadsRecordsOf(dec, msg, additional) && dec(pos, edns).Ok?
    ensures var s := dec(pos, edns).value;
            Accepted(s.records) && |s.records| + (if s.edns.Some? then 1 else 0) == 1 + (if edns.Some? then 1 else 0)
  {
    assert dec(pos, edns) == DecodeRecord(msg, pos, additional, edns);
    DecodeNameIffWalk(msg, pos);
    var owner := DecodeName(msg, pos).value;
    var p := owner.1;
    FieldsValid(msg, owner.0, LoadU16(msg, p), LoadU16(msg, p + 2), LoadU32(msg, p + 4),
                p + RR_FIXED_SIZE, p + RR_FIXED_SIZE + LoadU16(msg, p + 8), additional, edns);
  }

  /** A section holds just the records announced, but for an OPT. */
  lemma {:induction false} SectionValid(
    dec: RecordDecoder, msg: Bytes, pos: nat, count: nat, additional: bool, edns: Option<EdnsInfo>)
    requires ReadsRecordsOf(dec, msg, additional) && DecodeSection(dec, pos, count, edns).Ok?
    ensures var s := DecodeSection(dec, pos, count, edns).value;
            && Accepted(s.records)
            && |s.records| + (if s.edns.Some? then 1 else 0) == count + (if edns.Some? then 1 else 0)
    decreases count
  {
    if count == 0 {
    } else {
      var one := dec(pos, edns).value;
      RecordValid(dec, msg, pos, additional, edns);
      SectionValid(dec, msg, one.end, count - 1, additional, one.edns);
    }
  }

  lemma {:induction false} QuestionsValid(dec: QuestionDecoder, msg: Bytes, pos: nat, count: nat)
    requires ReadsQuestionsOf(dec, msg) && DecodeQuestions(dec, pos, count).Ok?
    ensures var qs := DecodeQuestions(dec, pos, count).value.0; B.ValidQuestions(qs) && |qs| == count
    decreases count
  {
    if count == 0 {
    } else {
      assert dec(pos) == DecodeQuestion(msg, pos);
      DecodeNameIffWalk(msg, pos);
      QuestionsValid(dec, msg, dec(pos).value.1, count - 1);
    }
  }

  /** Only the additional section can bring an OPT. */
  lemma {:induction false} NoOptOutsideAdditional(dec: RecordDecoder, msg: Bytes, pos: nat, count: nat)
    requires ReadsRecordsOf(dec, msg, false) && DecodeSection(dec, pos, count, None).Ok?
    ensures DecodeSection(dec, pos, count, None).value.edns == None
    decreases count
  {
    if count == 0 {
    } else {
      assert dec(pos, None) == DecodeRecord(msg, pos, false, None);
      NoOptOutsideAdditional(dec, msg, dec(pos, None).value.end, count - 1);
    }
  }

  ghost predicate Buildable(m: Message) {
    && B.ValidMessage(m) && CodableMessage(m)
    && Accepted(m.answers) && Accepted(m.authority) && Accepted(m.additional)
    && m.header.qdcount == |m.questions| && m.header.ancount == |m.answers| && m.header.nscount == |m.authority|
    && m.header.arcount == |m.additional| + (if m.edns.Some? then 1 else 0)
  }

  lemma SectionsValid(d: Decoders, data: Bytes, h: Header)
    requires Decode(d, data) && DecodeSections(d, h).Ok?
    ensures Buildable(DecodeSections(d, h).value) && DecodeSections(d, h).value.header == h
  {
    var qs := DecodeQuestions(d.questions, HEADER_SIZE, h.qdcount).value;
    var an := DecodeSection(d.records, qs.1, h.ancount, None).value;
    QuestionsValid(d.questions, data, HEADER_SIZE, h.qdcount);
    SectionValid(d.records, data, qs.1, h.ancount, false, None);
    NoOptOutsideAdditional(d.records, data, qs.1, h.ancount);
    var ns := DecodeSection(d.records, an.end, h.nscount, None).value;
    SectionValid(d.records, data, an.end, h.nscount, false, None);
    NoOptOutsideAdditional(d.records, data, an.end, h.nscount);
    SectionValid(d.additional, data, ns.end, h.arcount, true, None);
  }

  lemma HeaderFits(data: Bytes) returns (h: Header)
    requires DecodeHeader(data).Ok?
    ensures DecodeHeader(data) == Ok(h) && FourBits(h) == h
  {
    h := DecodeHeader(data).value;
    assert h.opcode < 16 && h.rcode < 16;
  }

  /** Every accepted message meets the builder's precondition, holds what its
      header counts, and has a header the builder can write. */
  lemma ParsedIsBuildable(data: Bytes) returns (m: Message)
    requires DecodeMessage(data).Ok?
    ensures DecodeMessage(data) == Ok(m)
    ensures Buildable(m) && m.header == FourBits(m.header)
  {
    var h := HeaderFits(data);
    m := DecodeSections(DecodersOf(data), h).value;
    SectionsValid(DecodersOf(data), data, h);
  }

  /** Re-encoding an accepted message loses nothing: it parses back equal, down
      to the counts and the TTLs, and to the letter case if uncompressed. */
  lemma ReencodeRoundTrip(data: Bytes, maxSize: nat, compress: bool) returns (m: Message, p: Message)
    requires DecodeMessage(data).Ok? && B.CLASSIC_UDP_SIZE <= maxSize < 0x1_0000
    requires var m := DecodeMessage(data).value;
             B.DraftOf(m, FullCut(m), compress).Size() + B.EdnsSize(m.edns) <= maxSize
    ensures DecodeMessage(data) == Ok(m)
    ensures DecodeMessage(B.BuildMessage(m, maxSize, compress)) == Ok(p)
    ensures p.header == m.header && p.edns == m.edns && SameQuestions(compress, p.questions, m.questions)
    ensures SameRRs(compress, p.answers, m.answers) && SameRRs(compress, p.authority, m.authority)
    ensures SameRRs(compress, p.additional, m.additional)
  {
    m := ParsedIsBuildable(data);
    p := WholeRoundTrip(m, maxSize, compress);
  }

  /** The length in front of a TCP message is exact, and what follows parses. */
  lemma TcpFrameExact(m: Message, compress: bool) returns (cut: B.Cut, p: Message)
    requires B.ValidMessage(m) && CodableMessage(m)
    ensures cut == B.CutFor(m, B.Limit(m, B.MAX_TCP_MESSAGE), compress)
    ensures var framed := B.BuildTcp(m, compress);
            |framed| >= 2 && LoadU16(framed, 0) == |framed| - 2 && DecodeMessage(framed[2..]) == Ok(p)
    ensures ParsedAs(p, m, cut, compress)
  {
    var msg;
    cut, msg, p := BuildRoundTrip(m, B.MAX_TCP_MESSAGE, compress);
    FrameExact(msg);
  }

  lemma FrameExact(msg: Bytes)
    requires |msg| < 0x1_0000
    ensures var framed := B.Framed(msg);
            |framed| == 2 + |msg| && LoadU16(framed, 0) == |msg| && framed[2..] == msg
  {
  }
}
