/** The wire format itself, octet by octet (sections 4.1 of RFC 1035 and 6.1 of
    RFC 6891): what other programs' messages look like to the parser, and the
    builder's to them. */
module WireLayout {
  import opened DnsTypes
  import opened WireName
  import opened NameWriter
  import opened Emitting
  import opened WireParser
  import opened WireRecords
  import opened WireSections
  import opened WireMessage
  import B = WireBuilder

  // ─── EDNS options ─────────────────────────────────────────────────────────

  datatype EdnsOption = EdnsOption(code: u16, data: Bytes)

  predicate OptionsFit(os: seq<EdnsOption>) {
    forall i :: 0 <= i < |os| ==> |os[i].data| < 0x1_0000
  }

  /** Options back to back: code, length, data. */
  function OptionsBytes(os: seq<EdnsOption>): Bytes
    requires OptionsFit(os)
  {
    if os == [] then []
    else
      var o := os[0];
      [o.code / 256, o.code % 256, |o.data| / 256, |o.data| % 256] + o.data + OptionsBytes(os[1..])
  }

  lemma {:induction false} OptionsRead(os: seq<EdnsOption>)
    requires OptionsFit(os)
    ensures OptionsOk(OptionsBytes(os))
  {
    if os == [] {
    } else {
      OptionsRead(os[1..]);
      var b, n := OptionsBytes(os), |os[0].data|;
      assert b[2] == n / 256 && b[3] == n % 256 && LoadU16(b, 2) == n;
      assert b[4 + n..] == OptionsBytes(os[1..]);
    }
  }

  lemma {:induction false} OptionsSplit(rdata: Bytes) returns (os: seq<EdnsOption>)
    requires OptionsOk(rdata)
    ensures OptionsFit(os) && OptionsBytes(os) == rdata
  {
    if rdata == [] {
      os := [];
    } else {
      var n := LoadU16(rdata, 2);
      var rest := OptionsSplit(rdata[4 + n..]);
      var code: u16 := LoadU16(rdata, 0);
      os := [EdnsOption(code, rdata[4..4 + n])] + rest;
      assert os[1..] == rest;
      assert code / 256 == rdata[0] && code % 256 == rdata[1] && n / 256 == rdata[2] && n % 256 == rdata[3];
      assert rdata == [rdata[0], rdata[1], rdata[2], rdata[3]] + rdata[4..4 + n] + rdata[4 + n..];
    }
  }

  /** An OPT is accepted exactly when its data is a sequence of options, of any
      codes, and means the same whatever they are. */
  lemma OptAcceptedIff(cls: u16, ttl: u32, rdata: Bytes)
    ensures DecodeOpt(cls, ttl, rdata).Ok? <==> exists os :: OptionsFit(os) && OptionsBytes(os) == rdata
    ensures DecodeOpt(cls, ttl, rdata).Ok? ==>
              DecodeOpt(cls, ttl, rdata).value == EdnsInfo(cls, ttl / 0x100_0000, ttl / 0x1_0000 % 256,
                                                           ttl / 0x8000 % 2 == 1)
    ensures DecodeOpt(cls, ttl, rdata).Err? ==> DecodeOpt(cls, ttl, rdata) == Err(MalformedRData)
  {
    hide OptionsOk, OptionsBytes;
    if OptionsOk(rdata) {
      var os := OptionsSplit(rdata);
    }
    if exists os :: OptionsFit(os) && OptionsBytes(os) == rdata {
      var os :| OptionsFit(os) && OptionsBytes(os) == rdata;
      OptionsRead(os);
    }
  }

  /** An OPT record with options: the root, type 41, and the fields of EDNS. */
  function OptWith(info: EdnsInfo, options: Bytes): Bytes
    requires |options| < 0x1_0000
  {
    [0, 0, 41, info.udpPayloadSize / 256, info.udpPayloadSize % 256, info.extendedRcode, info.version,
     if info.dnssecOk then 0x80 else 0, 0, |options| / 256, |options| % 256] + options
  }

  /** Without options it is what the builder writes. */
  lemma OptOnWire(info: EdnsInfo)
    ensures B.OptBytes(info) == OptWith(info, [])
  {
    var ttl: u32 := info.extendedRcode as int * 0x100_0000 + info.version as int * 0x1_0000
                    + (if info.dnssecOk then 0x8000 else 0);
    OptTtlBytes(info, ttl);
  }

  lemma OptTtlBytes(info: EdnsInfo, ttl: u32)
    requires ttl == info.extendedRcode as int * 0x100_0000 + info.version as int * 0x1_0000
                    + (if info.dnssecOk then 0x8000 else 0)
    ensures U32(ttl) == [info.extendedRcode, info.version, if info.dnssecOk then 0x80 else 0, 0]
  {
    var high: int, low := info.extendedRcode as int * 256 + info.version as int, if info.dnssecOk then 0x80 else 0;
    assert ttl == high * 0x1_0000 + low * 256;
    assert ttl / 0x1_0000 == high && ttl / 256 == high * 256 + low && ttl % 256 == 0;
    assert ttl / 0x100_0000 == high / 256 == info.extendedRcode;
    assert high % 256 == info.version && (high * 256 + low) % 256 == low;
  }

  lemma OptFieldsAt(buf: Bytes, info: EdnsInfo, options: Bytes)
    requires |options| < 0x1_0000
    ensures var msg, p := buf + OptWith(info, options), |buf|;
      && |msg| == p + 11 + |options| && msg[p] == 0 && LoadU16(msg, p + 1) == TYPE_OPT
      && LoadU16(msg, p + 3) == info.udpPayloadSize && LoadU16(msg, p + 9) == |options|
      && msg[p + 5] == info.extendedRcode && msg[p + 6] == info.version && msg[p + 8] == 0
      && msg[p + 7] == (if info.dnssecOk then 0x80 else 0)
      && msg[p + 11..p + 11 + |options|] == options
  {
    var o := OptWith(info, options);
    var msg, p := buf + o, |buf|;
    assert forall i :: 0 <= i < 11 ==> msg[p + i] == o[i];
    assert msg[p + 11..] == o[11..] == options;
    Pair(info.udpPayloadSize);
    Pair(|options|);
  }

  lemma Pair(x: u16)
    ensures x == x / 256 * 256 + x % 256
  {
  }

  lemma OptDecodes(msg: Bytes, p: nat, cls: u16, ttl: u32, options: Bytes)
    requires |msg| == p + 11 + |options| && msg[p] == 0 && OptionsOk(options) && msg[p + 11..] == options
    requires LoadU16(msg, p + 1) == TYPE_OPT && LoadU16(msg, p + 3) == cls && LoadU32(msg, p + 5) == ttl
    requires LoadU16(msg, p + 9) == |options|
    ensures DecodeRecord(msg, p, true, None) == Ok(Section([], Some(OptFields(cls, ttl)), |msg|))
  {
    hide OptionsOk, LoadU16, LoadU32, DecodeName, OptFields, DecodeRdata;
    RootReads(msg, p);
    assert msg[p + 11..|msg|] == msg[p + 11..];
  }

  lemma OptWithReads(buf: Bytes, info: EdnsInfo, options: Bytes)
    requires |options| < 0x1_0000 && OptionsOk(options)
    ensures DecodeRecord(buf + OptWith(info, options), |buf|, true, None)
            == Ok(Section([], Some(info), |buf| + 11 + |options|))
  {
    hide OptionsOk, OptWith, LoadU16, LoadU32, DecodeRecord, OptFields;
    var msg, p := buf + OptWith(info, options), |buf|;
    OptFieldsAt(buf, info, options);
    var ttl := LoadU32(msg, p + 5);
    TtlOfOpt(info, ttl, msg, p + 5);
    OptTtl(info, ttl);
    assert msg[p + 11..] == msg[p + 11..p + 11 + |options|];
    OptDecodes(msg, p, info.udpPayloadSize, ttl, options);
  }

  lemma TtlOfOpt(info: EdnsInfo, ttl: u32, msg: Bytes, p: nat)
    requires p + 4 <= |msg| && ttl == LoadU32(msg, p)
    requires msg[p] == info.extendedRcode && msg[p + 1] == info.version && msg[p + 3] == 0
    requires msg[p + 2] == if info.dnssecOk then 0x80 else 0
    ensures ttl == info.extendedRcode as int * 0x100_0000 + info.version as int * 0x1_0000
                   + (if info.dnssecOk then 0x8000 else 0)
  {
  }

  /** A built message whose OPT also carries options, of any number and codes, is
      accepted and parses as if it carried none. */
  lemma OptionsIgnored(
    m: Message, cut: B.Cut, compress: bool, options: seq<EdnsOption>) returns (msg: Bytes, p: Message)
    requires B.ValidMessage(m) && CodableMessage(m) && cut.Within(m) && m.edns.Some? && OptionsFit(options)
    requires |B.Assemble(m, cut, compress)| + |OptionsBytes(options)| < 0x1_0000
    ensures msg == B.HeaderBytes(B.FinalHeader(m, cut)) + B.DraftOf(m, cut, compress).body
                   + OptWith(m.edns.value, OptionsBytes(options))
    ensures DecodeMessage(msg) == Ok(p) && ParsedAs(p, m, cut, compress)
  {
    OptionsRead(options);
    hide OptionsBytes, OptionsOk;
    var hdr, w, plain := AssembleIs(m, compress, cut);
    var body := hdr + w.body;
    msg := body + OptWith(m.edns.value, OptionsBytes(options));
    var s := SectionsRead(B.QuestionStep(compress), B.RRStep(compress), DecodersOf(msg), m, cut, compress, hdr, msg);
    p := FinishesWith(m, cut, compress, hdr, body, msg, s, OptionsBytes(options));
  }

  lemma FinishesWith(
    m: Message, cut: B.Cut, compress: bool, hdr: Bytes, body: Bytes, msg: Bytes, s: Sections, options: Bytes)
    returns (p: Message)
    requires cut.Within(m) && ReadTo(DecodersOf(msg), cut, s) && SameSections(s, m, cut, compress)
    requires m.edns.Some? && |options| < 0x1_0000 && OptionsOk(options)
    requires msg == body + OptWith(m.edns.value, options) && |body| == s.end && |msg| < 0x1_0000
    requires hdr == B.HeaderBytes(B.FinalHeader(m, cut)) && hdr <= body
    requires HEADER_SIZE + MIN_QUESTION_SIZE * cut.questions
             + MIN_RR_SIZE * (cut.answers + cut.authority + cut.additional) <= s.end
    ensures DecodeMessage(msg) == Ok(p) && ParsedAs(p, m, cut, compress)
  {
    hide OptionsOk;
    var info := m.edns.value;
    CountsExact(m, cut, |msg|);
    assert msg == hdr + msg[|hdr|..];
    HeaderReads(B.FinalHeader(m, cut), msg[|hdr|..]);
    var h := FourBits(B.FinalHeader(m, cut));
    OptWithReads(body, info, options);
    var opt := Section([], Some(info), |msg|);
    var dec := DecodersOf(msg).additional;
    assert dec(|body|, None) == Ok(opt);
    DecodeSectionSnoc(dec, s.p3, cut.additional, None, Section(s.ar, None, |body|), opt);
    assert s.ar + [] == s.ar;
    MessageReads(msg, h, cut, s, m.edns);
    p := Message(h, s.qs, s.an, s.ns, s.ar, m.edns);
  }

  // ─── Header, questions and records ────────────────────────────────────────

  /** The flags of a header, bit by bit. */
  lemma HeaderOnWire(data: Bytes, h: Header)
    requires DecodeHeader(data) == Ok(h)
    ensures |data| >= 12 && h.id == data[0] as int * 256 + data[1]
    ensures data[2] == (if h.qr then 128 else 0) + h.opcode as int * 8 + (if h.aa then 4 else 0)
                       + (if h.tc then 2 else 0) + (if h.rd then 1 else 0)
    ensures data[3] % 64 == (if h.ad then 32 else 0) + (if h.cd then 16 else 0) + h.rcode as int
    ensures data[3] / 128 == if h.ra then 1 else 0
    ensures h.qdcount == data[4] as int * 256 + data[5] && h.ancount == data[6] as int * 256 + data[7]
    ensures h.nscount == data[8] as int * 256 + data[9] && h.arcount == data[10] as int * 256 + data[11]
  {
    FlagsOf(data[2]);
    FlagsOf(data[3]);
  }

  lemma FlagsOf(b: u8)
    ensures b == b / 128 % 2 * 128 + b / 8 % 16 * 8 + b / 4 % 2 * 4 + b / 2 % 2 * 2 + b % 2
    ensures b % 64 == b / 32 % 2 * 32 + b / 16 % 2 * 16 + b % 16 && b / 128 == b / 128 % 2
  {
    LowFlags(b);
    HighFlags(b);
  }

  lemma LowFlags(b: u8)
    ensures b == b / 128 % 2 * 128 + b / 8 % 16 * 8 + b / 4 % 2 * 4 + b / 2 % 2 * 2 + b % 2 && b / 128 == b / 128 % 2
  {
    var b2, b4, b8, b128 := b / 2, b / 4, b / 8, b / 128;
    assert b4 == b2 / 2 && b8 == b4 / 2 && b128 == b8 / 16;
    assert b8 == 16 * b128 + b8 % 16 && b128 < 2;
    assert b == 2 * b2 + b % 2 && b2 == 2 * b4 + b2 % 2 && b4 == 2 * b8 + b4 % 2;
  }

  lemma HighFlags(b: u8)
    ensures b % 64 == b / 32 % 2 * 32 + b / 16 % 2 * 16 + b % 16
  {
    var b16, b32, b64 := b / 16, b / 32, b / 64;
    assert b32 == b16 / 2 && b64 == b32 / 2;
    assert b == 64 * b64 + b % 64 && b == 16 * b16 + b % 16;
    assert b16 == 2 * b32 + b16 % 2 && b32 == 2 * b64 + b32 % 2;
  }

  /** A name in full: each label after its length, and the root. */
  function FullName(text: seq<Label>): Bytes
    requires forall i :: 0 <= i < |text| ==> ValidLabel(text[i])
  {
    if text == [] then [0]
    else
      assert ValidLabel(text[0]);
      var length: u8 := |text[0]|;
      [length] + text[0] + FullName(text[1..])
  }

  lemma {:induction false} LabelsOnWire(off: nat, sfx: Suffixes, text: seq<Label>, keys: seq<Bytes>)
    requires |text| == |keys| && forall i :: 0 <= i < |text| ==> ValidLabel(text[i])
    ensures EmitLabels(off, sfx, false, text, keys) == Emission(FullName(text), sfx)
    decreases |text|
  {
    if text == [] {
    } else {
      LabelsOnWire(off + |LabelBytes(text[0])|, sfx, text[1..], keys[1..]);
    }
  }

  /** A question, and a record of any type, without compression. */
  lemma PlainOnWire(off: nat, sfx: Suffixes, q: Question, rr: RR)
    requires q.qname.Valid() && rr.name.Valid()
    ensures B.EmitQuestion(off, sfx, false, q).bytes
            == FullName(q.qname.Text()) + [q.qtype / 256, q.qtype % 256, q.qclass / 256, q.qclass % 256]
    ensures var d := B.EmitRdata(off + |FullName(rr.name.Text())| + 10, sfx, false, rr.rdata).bytes;
      B.EmitRR(off, sfx, false, rr).bytes
      == FullName(rr.name.Text()) + [rr.rtype / 256, rr.rtype % 256, rr.cls / 256, rr.cls % 256]
         + [rr.ttl / 0x100_0000, rr.ttl / 0x1_0000 % 256, rr.ttl / 256 % 256, rr.ttl % 256]
         + [|d| % 0x1_0000 / 256, |d| % 0x1_0000 % 256] + d
  {
    LabelsOnWire(off, sfx, q.qname.Text(), SuffixKeys(q.qname.labels));
    LabelsOnWire(off, sfx, rr.name.Text(), SuffixKeys(rr.name.labels));
    hide EmitLabels, B.EmitRdata;
  }

  /** A pointer: two bits, then fourteen of offset. */
  lemma PointerOnWire(target: Offset)
    ensures PointerBytes(target) == [0xC0 + target / 256, target % 256]
  {
  }

  function Word(x: u32): Bytes {
    [x / 0x100_0000, x / 0x1_0000 % 256, x / 256 % 256, x % 256]
  }

  /** The data of a mail exchange and of a start of authority, field by field. */
  lemma DataOnWire(off: nat, sfx: Suffixes, mx: RData, soa: RData)
    requires mx.RDataMX? && mx.exchange.Valid() && soa.RDataSOA? && soa.mname.Valid() && soa.rname.Valid()
    ensures B.EmitRdata(off, sfx, false, mx).bytes
            == [mx.preference / 256, mx.preference % 256] + FullName(mx.exchange.Text())
    ensures B.EmitRdata(off, sfx, false, soa).bytes
            == FullName(soa.mname.Text()) + FullName(soa.rname.Text())
               + Word(soa.serial) + Word(soa.refresh) + Word(soa.retry) + Word(soa.expire) + Word(soa.minimum)
  {
    hide EmitLabels, FullName, U32, Word;
    LabelsOnWire(off + 2, sfx, mx.exchange.Text(), SuffixKeys(mx.exchange.labels));
    LabelsOnWire(off, sfx, soa.mname.Text(), SuffixKeys(soa.mname.labels));
    LabelsOnWire(off + |FullName(soa.mname.Text())|, sfx, soa.rname.Text(), SuffixKeys(soa.rname.labels));
    WordIs(soa.serial);
    WordIs(soa.refresh);
    WordIs(soa.retry);
    WordIs(soa.expire);
    WordIs(soa.minimum);
  }

  lemma WordIs(x: u32)
    ensures U32(x) == Word(x)
  {
  }

  /** The numbers of the types and the class that are understood, and the limits of
      names. */
  lemma KnownNumbers()
    ensures MAX_LABEL_LENGTH == 63 && MAX_NAME_WIRE_LENGTH == 255 && MAX_POINTER_JUMPS == 128
    ensures TYPE_A == 1 && TYPE_NS == 2 && TYPE_CNAME == 5 && TYPE_SOA == 6 && TYPE_PTR == 12 && TYPE_MX == 15
    ensures TYPE_TXT == 16 && TYPE_AAAA == 28 && TYPE_OPT == 41 && CLASS_IN == 1
  {
  }

  // ─── What the parser turns away ───────────────────────────────────────────

  /** A TTL with its top bit set is none; any other is as it stands. */
  lemma TtlRead(msg: Bytes, pos: nat, p: nat, owner: Name, additional: bool, edns: Option<EdnsInfo>, s: Section)
    requires DecodeName(msg, pos) == Ok((owner, p)) && DecodeRecord(msg, pos, additional, edns) == Ok(s)
    requires s.records != []
    ensures p + 10 <= |msg| && |s.records| == 1 && s.records[0].name == owner
    ensures s.records[0].rtype == msg[p] as int * 256 + msg[p + 1]
    ensures s.records[0].cls == msg[p + 2] as int * 256 + msg[p + 3]
    ensures s.records[0].ttl == if msg[p + 4] >= 128 then 0
                                else msg[p + 4] as int * 0x100_0000 + msg[p + 5] as int * 0x1_0000
                                     + msg[p + 6] as int * 256 + msg[p + 7]
    ensures s.end == p + 10 + msg[p + 8] as int * 256 + msg[p + 9]
  {
    hide DecodeRdata, DecodeOpt, DecodeName;
  }

  lemma NameEnds(msg: Bytes, pos: nat)
    requires DecodeName(msg, pos).Ok?
    ensures pos < DecodeName(msg, pos).value.1 <= |msg|
  {
    DecodeNameIffWalk(msg, pos);
    WalkEnds(msg, pos, pos);
    hide DecodeName, Walk;
  }

  lemma {:induction false} WalkEnds(buf: Bytes, cur: nat, seg: nat)
    requires Walk(buf, cur, seg).Some?
    ensures cur < Walk(buf, cur, seg).value.end <= |buf|
    decreases seg, |buf| - cur
  {
    if buf[cur] != 0 && buf[cur] < 64 { WalkEnds(buf, cur + 1 + buf[cur], seg); }
  }

  lemma {:induction false} QuestionsTakeRoom(msg: Bytes, pos: nat, count: nat)
    requires pos <= |msg| && DecodeQuestions(QuestionsIn(msg), pos, count).Ok?
    ensures pos + 5 * count <= DecodeQuestions(QuestionsIn(msg), pos, count).value.1 <= |msg|
    decreases count
  {
    if count == 0 {
    } else {
      hide DecodeName;
      NameEnds(msg, pos);
      var q := DecodeQuestion(msg, pos).value;
      QuestionsTakeRoom(msg, q.1, count - 1);
    }
  }

  lemma RecordTakesRoom(msg: Bytes, pos: nat, additional: bool, edns: Option<EdnsInfo>)
    requires DecodeRecord(msg, pos, additional, edns).Ok?
    ensures pos + 11 <= DecodeRecord(msg, pos, additional, edns).value.end <= |msg|
  {
    NameEnds(msg, pos);
    hide DecodeName, DecodeRdata, DecodeOpt;
  }

  lemma {:induction false} SectionTakesRoom(msg: Bytes, additional: bool, pos: nat, count: nat, edns: Option<EdnsInfo>)
    requires pos <= |msg| && DecodeSection(RecordsIn(msg, additional), pos, count, edns).Ok?
    ensures pos + 11 * count <= DecodeSection(RecordsIn(msg, additional), pos, count, edns).value.end <= |msg|
    decreases count
  {
    if count == 0 {
    } else {
      hide DecodeRecord;
      RecordTakesRoom(msg, pos, additional, edns);
      var one := DecodeRecord(msg, pos, additional, edns).value;
      SectionTakesRoom(msg, additional, one.end, count - 1, one.edns);
    }
  }

  /** Announcing more than could fit is an error at once, and only what would have
      been one anyway: no message that could be read is turned away. */
  lemma PrecheckExact(data: Bytes, h: Header)
    requires DecodeHeader(data) == Ok(h)
    ensures var needed := 5 * h.qdcount as int + 11 * (h.ancount as int + h.nscount as int + h.arcount as int);
      && (needed > |data| - 12 ==> DecodeMessage(data) == Err(SectionOverflow))
      && (DecodeSections(DecodersOf(data), h).Ok? ==> DecodeMessage(data) == DecodeSections(DecodersOf(data), h))
  {
    hide DecodeHeader;
    if DecodeSections(DecodersOf(data), h).Ok? {
      assert |data| >= 12 by { HeaderOnWire(data, h); }
      SectionsTakeRoom(data, h);
    }
    hide DecodeSections;
  }

  lemma SectionsTakeRoom(data: Bytes, h: Header)
    requires |data| >= 12 && DecodeSections(DecodersOf(data), h).Ok?
    ensures 5 * h.qdcount as int + 11 * (h.ancount as int + h.nscount as int + h.arcount as int) <= |data| - 12
  {
    hide DecodeQuestions, DecodeSection, QuestionsIn, RecordsIn;
    var qs := DecodeQuestions(QuestionsIn(data), HEADER_SIZE, h.qdcount).value;
    QuestionsTakeRoom(data, HEADER_SIZE, h.qdcount);
    var an := DecodeSection(RecordsIn(data, false), qs.1, h.ancount, None).value;
    SectionTakesRoom(data, false, qs.1, h.ancount, None);
    var ns := DecodeSection(RecordsIn(data, false), an.end, h.nscount, an.edns).value;
    SectionTakesRoom(data, false, an.end, h.nscount, an.edns);
    SectionTakesRoom(data, true, ns.end, h.arcount, ns.edns);
  }

  // ─── Names shared within a message ────────────────────────────────────────

  /** A record whose names have all been written before: two octets each. */
  lemma KnownNamesShort(off: nat, sfx: Suffixes, rr: RR)
    requires Known(sfx, rr.name)
    ensures rr.rdata.RDataA? || rr.rdata.RDataAAAA? || rr.rdata.RDataRaw? ==>
              B.EmitRR(off, sfx, true, rr).suffixes == sfx
    ensures rr.rdata.RDataA? ==> |B.EmitRR(off, sfx, true, rr).bytes| == 12 + |rr.rdata.addr|
    ensures rr.rdata.RDataNS? && Known(sfx, rr.rdata.nsdname) ==> |B.EmitRR(off, sfx, true, rr).bytes| == 14
    ensures rr.rdata.RDataCNAME? && Known(sfx, rr.rdata.target) ==> |B.EmitRR(off, sfx, true, rr).bytes| == 14
    ensures rr.rdata.RDataPTR? && Known(sfx, rr.rdata.ptrdname) ==> |B.EmitRR(off, sfx, true, rr).bytes| == 14
    ensures rr.rdata.RDataMX? && Known(sfx, rr.rdata.exchange) ==> |B.EmitRR(off, sfx, true, rr).bytes| == 16
    ensures rr.rdata.RDataSOA? && Known(sfx, rr.rdata.mname) && Known(sfx, rr.rdata.rname) ==>
              |B.EmitRR(off, sfx, true, rr).bytes| == 36
  {
    KnownShort(off, sfx, rr.name);
    match rr.rdata
    case RDataNS(n) => if Known(sfx, n) { KnownShort(off + 12, sfx, n); }
    case RDataCNAME(n) => if Known(sfx, n) { KnownShort(off + 12, sfx, n); }
    case RDataPTR(n) => if Known(sfx, n) { KnownShort(off + 12, sfx, n); }
    case RDataMX(_, n) => if Known(sfx, n) { KnownShort(off + 14, sfx, n); }
    case RDataSOA(a, b, _, _, _, _, _) =>
      if Known(sfx, a) && Known(sfx, b) {
        KnownShort(off + 12, sfx, a);
        KnownShort(off + 14, sfx, b);
      }
    case _ =>
    hide EmitName, Known;
  }

  predicate Known(sfx: Suffixes, n: Name) {
    |n.Text()| == |n.labels| > 0 && SuffixKey(n.labels) in sfx
  }

  lemma KnownShort(off: nat, sfx: Suffixes, n: Name)
    requires Known(sfx, n)
    ensures |EmitName(off, sfx, true, n).bytes| == 2 && EmitName(off, sfx, true, n).suffixes == sfx
  {
    KeysAre(n.labels, 0);
    assert n.labels[0..] == n.labels;
  }

  predicate AllAddresses(rrs: seq<RR>, labels: seq<Label>) {
    forall i :: 0 <= i < |rrs| ==>
      && rrs[i].rdata.RDataA? && |rrs[i].rdata.addr| == 4 && rrs[i].name.labels == labels
      && |rrs[i].name.Text()| == |labels|
  }

  lemma {:induction false} AddressesTake16(off: nat, sfx: Suffixes, rrs: seq<RR>, labels: seq<Label>)
    requires labels != [] && SuffixKey(labels) in sfx && AllAddresses(rrs, labels)
    ensures |EmitAll(B.RRStep(true), off, sfx, rrs).bytes| == 16 * |rrs|
    decreases |rrs|
  {
    if rrs == [] {
    } else {
      KnownNamesShort(off, sfx, rrs[0]);
      hide B.EmitRR;
      AddressesTake16(off + 16, sfx, rrs[1..], labels);
    }
  }

  /** An answer with any number of addresses of the name asked for: sixteen octets
      for each, and so it is not cut while that is within the limit. */
  lemma AddressAnswerSize(m: Message, maxSize: nat)
    requires |m.questions| == 1 && m.questions[0].qname.Valid() && m.questions[0].qname.labels != []
    requires AllAddresses(m.answers, m.questions[0].qname.labels) && m.authority == [] && m.additional == []
    requires m.edns == None
    requires 512 <= maxSize && 12 + LabelsSize(m.questions[0].qname.Text()) + 5 + 16 * |m.answers| <= maxSize
    ensures |B.BuildMessage(m, maxSize, true)| == 12 + LabelsSize(m.questions[0].qname.Text()) + 5 + 16 * |m.answers|
    ensures B.CutFor(m, maxSize, true) == FullCut(m)
  {
    hide B.DraftOf, B.CutFor, EmitName, B.EmitRR, LabelsSize, SuffixKey;
    var q := m.questions[0];
    var e := QuestionFirst(m);
    AddressesTake16(12 + |e.bytes|, e.suffixes, m.answers, q.qname.labels);
    DraftIs(m, e);
    FitsWhole(m, maxSize, true);
  }

  lemma QuestionFirst(m: Message) returns (e: Emission)
    requires |m.questions| == 1 && m.questions[0].qname.Valid() && m.questions[0].qname.labels != []
    ensures e == EmitAll(B.QuestionStep(true), 12, map[], m.questions)
    ensures |e.bytes| == LabelsSize(m.questions[0].qname.Text()) + 5
    ensures SuffixKey(m.questions[0].qname.labels) in e.suffixes
  {
    hide EmitName, SuffixKey, LabelsSize;
    var q := m.questions[0];
    assert m.questions == [q];
    FreshName(q.qname);
    EmitAllOne(B.QuestionStep(true), 12, map[], q);
    e := B.EmitQuestion(12, map[], true, q);
  }

  lemma FreshName(n: Name)
    requires n.Valid() && n.labels != []
    ensures var e := EmitName(12, map[], true, n);
      |e.bytes| == LabelsSize(n.Text()) + 1 && SuffixKey(n.labels) in e.suffixes
  {
    assert |n.Text()| == |n.labels|;
    assert n.labels[0..] == n.labels && n.Text()[..0] == [];
    NamesRecorded(12, map[], n, 0);
    KeysShrink(n.labels);
    FreshSize(12, map[], n.Text(), SuffixKeys(n.labels));
  }

  lemma {:induction false} FreshSize(off: nat, sfx: Suffixes, text: seq<Label>, keys: seq<Bytes>)
    requires |text| == |keys| && Shrinking(keys) && forall k :: k in sfx ==> forall i :: 0 <= i < |keys| ==>
               |k| > |keys[i]|
    ensures |EmitLabels(off, sfx, true, text, keys).bytes| == LabelsSize(text) + 1
    decreases |text|
  {
    if text == [] {
    } else {
      assert keys[0] !in sfx;
      assert forall i :: 0 <= i < |keys| - 1 ==> keys[1..][i] == keys[i + 1];
      FreshSize(off + |LabelBytes(text[0])|, Recorded(off, sfx, true, keys[0]), text[1..], keys[1..]);
    }
  }

  lemma DraftIs(m: Message, e: Emission)
    requires |m.questions| == 1 && m.authority == [] && m.additional == [] && m.edns == None
    requires e == EmitAll(B.QuestionStep(true), 12, map[], m.questions)
    ensures B.DraftOf(m, FullCut(m), true).Size()
            == 12 + |e.bytes| + |EmitAll(B.RRStep(true), 12 + |e.bytes|, e.suffixes, m.answers).bytes|
    ensures |B.Assemble(m, FullCut(m), true)| == B.DraftOf(m, FullCut(m), true).Size()
  {
    assert m.questions[..1] == m.questions && m.answers[..|m.answers|] == m.answers;
    hide B.QuestionStep, B.RRStep;
  }

  // ─── Limits ───────────────────────────────────────────────────────────────

  /** Over UDP a limit counts from 512 octets up: what fits goes out whole, and
      what is built never exceeds it. */
  lemma UdpLimit(m: Message, maxSize: u16, compress: bool) returns (p: Message)
    requires B.ValidMessage(m) && CodableMessage(m)
    ensures |B.Build(m, maxSize, compress)| <= (if maxSize < 512 then 512 else maxSize)
    ensures DecodeMessage(B.Build(m, maxSize, compress)) == Ok(p)
    ensures |B.Assemble(m, FullCut(m), compress)| <= (if maxSize < 512 then 512 else maxSize) ==>
              B.Build(m, maxSize, compress) == B.Assemble(m, FullCut(m), compress) && SameMessage(compress, p, m)
  {
    hide B.BuildMessage, B.Assemble, B.CutFor;
    var limit := if maxSize < 512 then 512 else maxSize;
    assert B.Build(m, maxSize, compress) == B.BuildMessage(m, limit, compress);
    var cut, msg;
    cut, msg, p := BuildRoundTrip(m, limit, compress);
    var _, w, full := AssembleIs(m, compress, FullCut(m));
    if |full| <= limit {
      FitsWhole(m, B.Limit(m, limit), compress);
      BuildIs(m, limit, compress);
      ParsedWhole(p, m, compress, cut);
    }
  }

  lemma BuildIs(m: Message, limit: nat, compress: bool)
    requires limit >= B.OPT_RECORD_SIZE
    ensures B.BuildMessage(m, limit, compress) == B.Assemble(m, B.CutFor(m, B.Limit(m, limit), compress), compress)
  {
  }
}
