/** The message parser (core/wire/parser.cpp, core/wire/edns.cpp): what each
    piece of a message decodes to, and the cursor-driven code that computes it. */
module WireParser {
  import opened DnsTypes
  import opened WireName

  const HEADER_SIZE := 12
  const MIN_QUESTION_SIZE := 5
  const MIN_RR_SIZE := 11
  const RR_FIXED_SIZE := 10

  // ─── What the bytes decode to ─────────────────────────────────────────────

  function DecodeQuestion(msg: Bytes, pos: nat): Result<(Question, nat)> {
    var n :- DecodeName(msg, pos);
    if |msg| - n.1 < 4 then Err(BufferTooShort)
    else Ok((Question(n.0, LoadU16(msg, n.1), LoadU16(msg, n.1 + 2)), n.1 + 4))
  }

  /** What decoding a question at a position gives. */
  type QuestionDecoder = nat -> Result<(Question, nat)>

  function QuestionsIn(msg: Bytes): QuestionDecoder {
    (pos: nat) => DecodeQuestion(msg, pos)
  }

  function DecodeQuestions(dec: QuestionDecoder, pos: nat, count: nat): Result<(seq<Question>, nat)>
    decreases count
  {
    if count == 0 then Ok(([], pos))
    else
      var q :- dec(pos);
      var rest :- DecodeQuestions(dec, q.1, count - 1);
      Ok(([q.0] + rest.0, rest.1))
  }

  /** TXT: length-prefixed character strings back to back. */
  function DecodeStrings(rdata: Bytes): Result<seq<Bytes>> {
    if rdata == [] then Ok([])
    else if |rdata| - 1 < rdata[0] then Err(MalformedRData)
    else
      var rest :- DecodeStrings(rdata[1 + rdata[0]..]);
      Ok([rdata[1..1 + rdata[0]]] + rest)
  }

  /** Record data that is one name, with nothing after it. */
  function DecodeNameRdata(msg: Bytes, pos: nat, end: nat): Result<Name> {
    var n :- DecodeName(msg, pos);
    if n.1 != end then Err(RDataLengthMismatch) else Ok(n.0)
  }

  function DecodeSoa(msg: Bytes, pos: nat, end: nat): Result<RData>
    requires end <= |msg|
  {
    var mname :- DecodeName(msg, pos);
    var rname :- DecodeName(msg, mname.1);
    var p := rname.1;
    if p > end || end - p != 20 then Err(RDataLengthMismatch)
    else Ok(RDataSOA(mname.0, rname.0, LoadU32(msg, p), LoadU32(msg, p + 4), LoadU32(msg, p + 8),
                     LoadU32(msg, p + 12), LoadU32(msg, p + 16)))
  }

  function DecodeMx(msg: Bytes, pos: nat, end: nat): Result<RData>
    requires pos <= end <= |msg|
  {
    if end - pos < 2 then Err(RDataLengthMismatch)
    else
      var exchange :- DecodeNameRdata(msg, pos + 2, end);
      Ok(RDataMX(LoadU16(msg, pos), exchange))
  }

  function DecodeRdata(msg: Bytes, pos: nat, end: nat, rtype: u16, cls: u16): Result<RData>
    requires pos <= end <= |msg|
  {
    if rtype == TYPE_A && cls == CLASS_IN then
      if end - pos != 4 then Err(RDataLengthMismatch) else Ok(RDataA(msg[pos..end]))
    else if rtype == TYPE_AAAA && cls == CLASS_IN then
      if end - pos != 16 then Err(RDataLengthMismatch) else Ok(RDataAAAA(msg[pos..end]))
    else if rtype == TYPE_NS then
      var n :- DecodeNameRdata(msg, pos, end); Ok(RDataNS(n))
    else if rtype == TYPE_CNAME then
      var n :- DecodeNameRdata(msg, pos, end); Ok(RDataCNAME(n))
    else if rtype == TYPE_PTR then
      var n :- DecodeNameRdata(msg, pos, end); Ok(RDataPTR(n))
    else if rtype == TYPE_MX then DecodeMx(msg, pos, end)
    else if rtype == TYPE_SOA then DecodeSoa(msg, pos, end)
    else if rtype == TYPE_TXT then
      var ss :- DecodeStrings(msg[pos..end]); Ok(RDataTXT(ss))
    else Ok(RDataRaw(msg[pos..end]))
  }

  /** Options are code, length and data, back to back. */
  predicate OptionsOk(rdata: Bytes) {
    rdata == [] || (|rdata| >= 4 && |rdata| - 4 >= LoadU16(rdata, 2) && OptionsOk(rdata[4 + LoadU16(rdata, 2)..]))
  }

  function OptFields(cls: u16, ttl: u32): EdnsInfo {
    EdnsInfo(cls, ttl / 0x100_0000, ttl / 0x1_0000 % 256, ttl / 0x8000 % 2 == 1)
  }

  function DecodeOpt(cls: u16, ttl: u32, rdata: Bytes): Result<EdnsInfo> {
    if OptionsOk(rdata) then Ok(OptFields(cls, ttl)) else Err(MalformedRData)
  }

  /** TTLs of 2^31 and more are none (section 8 of RFC 2181). */
  function WireTtl(ttl: u32): u32 {
    if ttl >= 0x8000_0000 then 0 else ttl
  }

  /** Records read so far, the OPT seen so far, and the position after them. */
  datatype Section = Section(records: seq<RR>, edns: Option<EdnsInfo>, end: nat)

  /** A record of which all but the RDATA in [start, end) was read. */
  function DecodeFields(msg: Bytes, owner: Name, rtype: u16, cls: u16, ttl: u32, start: nat, end: nat,
                        additional: bool, edns: Option<EdnsInfo>): Result<Section>
    requires start <= end <= |msg|
  {
    if rtype == TYPE_OPT then
      if !additional || edns.Some? || |owner.labels| != 0 then Err(InvalidOpt)
      else
        var info :- DecodeOpt(cls, ttl, msg[start..end]);
        Ok(Section([], Some(info), end))
    else
      var rdata :- DecodeRdata(msg, start, end, rtype, cls);
      Ok(Section([RR(owner, rtype, cls, WireTtl(ttl), rdata)], edns, end))
  }

  /** The record whose owner name ends at `pos`. */
  function DecodeRecordBody(
    msg: Bytes, owner: Name, pos: nat, additional: bool, edns: Option<EdnsInfo>): Result<Section> {
    if |msg| - pos < RR_FIXED_SIZE then Err(BufferTooShort)
    else
      var end := pos + RR_FIXED_SIZE + LoadU16(msg, pos + 8);
      if |msg| < end then Err(BufferTooShort)
      else DecodeFields(msg, owner, LoadU16(msg, pos), LoadU16(msg, pos + 2), LoadU32(msg, pos + 4),
                        pos + RR_FIXED_SIZE, end, additional, edns)
  }

  function DecodeRecord(msg: Bytes, pos: nat, additional: bool, edns: Option<EdnsInfo>): Result<Section> {
    var owner :- DecodeName(msg, pos);
    DecodeRecordBody(msg, owner.0, owner.1, additional, edns)
  }

  /** What decoding a record at a position, after some OPT or none, gives. */
  type RecordDecoder = (nat, Option<EdnsInfo>) -> Result<Section>

  function RecordsIn(msg: Bytes, additional: bool): RecordDecoder {
    (pos: nat, edns: Option<EdnsInfo>) => DecodeRecord(msg, pos, additional, edns)
  }

  function DecodeSection(dec: RecordDecoder, pos: nat, count: nat, edns: Option<EdnsInfo>): Result<Section>
    decreases count
  {
    if count == 0 then Ok(Section([], edns, pos))
    else
      var one :- dec(pos, edns);
      var rest :- DecodeSection(dec, one.end, count - 1, one.edns);
      Ok(Section(one.records + rest.records, rest.edns, rest.end))
  }

  predicate Bit(b: u8, weight: nat)
    requires weight > 0
  {
    b / weight % 2 == 1
  }

  function DecodeHeader(data: Bytes): Result<Header> {
    if |data| < HEADER_SIZE then Err(BufferTooShort)
    else
      Ok(Header(LoadU16(data, 0),
                Bit(data[2], 128), data[2] / 8 % 16, Bit(data[2], 4), Bit(data[2], 2), Bit(data[2], 1),
                Bit(data[3], 128), Bit(data[3], 32), Bit(data[3], 16), data[3] % 16,
                LoadU16(data, 4), LoadU16(data, 6), LoadU16(data, 8), LoadU16(data, 10)))
  }

  /** The least room the records a header announces could take. */
  function MinNeeded(h: Header): nat {
    h.qdcount as int * MIN_QUESTION_SIZE + (h.ancount as int + h.nscount + h.arcount) * MIN_RR_SIZE
  }

  /** The decoders of one message. */
  datatype Decoders = Decoders(questions: QuestionDecoder, records: RecordDecoder, additional: RecordDecoder)

  function DecodersOf(msg: Bytes): Decoders {
    Decoders(QuestionsIn(msg), RecordsIn(msg, false), RecordsIn(msg, true))
  }

  function DecodeSections(d: Decoders, h: Header): Result<Message>
  {
    var qs :- DecodeQuestions(d.questions, HEADER_SIZE, h.qdcount);
    var an :- DecodeSection(d.records, qs.1, h.ancount, None);
    var ns :- DecodeSection(d.records, an.end, h.nscount, an.edns);
    var ar :- DecodeSection(d.additional, ns.end, h.arcount, ns.edns);
    Ok(Message(h, qs.0, an.records, ns.records, ar.records, ar.edns))
  }

  function DecodeMessage(data: Bytes): Result<Message> {
    var h :- DecodeHeader(data);
    if MinNeeded(h) > |data| - HEADER_SIZE then Err(SectionOverflow)
    else DecodeSections(DecodersOf(data), h)
  }

  // ─── The parser's code ────────────────────────────────────────────────────

  /** read_question; the new cursor is returned with the question. */
  method ReadQuestion(msg: Bytes, pos: nat) returns (r: Result<(Question, nat)>)
    ensures r == DecodeQuestion(msg, pos)
  {
    var qname :- ReadName(msg, pos);
    var p := qname.1;
    if |msg| - p < 4 {
      return Err(BufferTooShort);
    }
    r := Ok((Question(qname.0, LoadU16(msg, p), LoadU16(msg, p + 2)), p + 4));
  }

  lemma StringsStep(rdata: Bytes, p: nat)
    requires p < |rdata|
    ensures var n := rdata[p] as int;
      if |rdata| - p - 1 < n then DecodeStrings(rdata[p..]) == Err(MalformedRData)
      else
        var rest := DecodeStrings(rdata[p + 1 + n..]);
        DecodeStrings(rdata[p..]) == if rest.Err? then rest else Ok([rdata[p + 1..p + 1 + n]] + rest.value)
  {
    var n := rdata[p] as int;
    if |rdata| - p - 1 >= n {
      assert rdata[p..][1 + n..] == rdata[p + 1 + n..] && rdata[p..][1..1 + n] == rdata[p + 1..p + 1 + n];
    }
  }

  lemma NoStrings()
    ensures DecodeStrings([]) == Ok([])
  {
  }

  method ReadStrings(rdata: Bytes) returns (r: Result<seq<Bytes>>)
    ensures r == DecodeStrings(rdata)
  {
    hide DecodeStrings;
    var strings: seq<Bytes>, p := [], 0;
    ghost var whole := DecodeStrings(rdata);
    assert rdata[0..] == rdata;
    assert whole.Ok? ==> strings + whole.value == whole.value;
    while p < |rdata|
      invariant 0 <= p <= |rdata|
      invariant var rest := DecodeStrings(rdata[p..]);
                whole == if rest.Err? then rest else Ok(strings + rest.value)
      decreases |rdata| - p
    {
      StringsStep(rdata, p);
      var n := rdata[p] as int;
      p := p + 1;
      if |rdata| - p < n {
        return Err(MalformedRData);
      }
      ghost var rest := DecodeStrings(rdata[p + n..]);
      if rest.Ok? {
        assert strings + ([rdata[p..p + n]] + rest.value) == (strings + [rdata[p..p + n]]) + rest.value;
      }
      strings := strings + [rdata[p..p + n]];
      p := p + n;
    }
    assert rdata[p..] == [];
    NoStrings();
    assert strings + [] == strings;
    r := Ok(strings);
  }

  method ReadRdata(msg: Bytes, pos: nat, rdlen: u16, rtype: u16, cls: u16) returns (r: Result<RData>)
    requires pos + rdlen <= |msg|
    ensures r == DecodeRdata(msg, pos, pos + rdlen, rtype, cls)
  {
    var end := pos + rdlen;
    if rtype == TYPE_A && cls == CLASS_IN {
      if rdlen != 4 { return Err(RDataLengthMismatch); }
      return Ok(RDataA(msg[pos..end]));
    } else if rtype == TYPE_AAAA && cls == CLASS_IN {
      if rdlen != 16 { return Err(RDataLengthMismatch); }
      return Ok(RDataAAAA(msg[pos..end]));
    } else if rtype == TYPE_NS || rtype == TYPE_CNAME || rtype == TYPE_PTR {
      var n :- ReadName(msg, pos);
      if n.1 != end { return Err(RDataLengthMismatch); }
      return Ok(if rtype == TYPE_NS then RDataNS(n.0)
                else if rtype == TYPE_CNAME then RDataCNAME(n.0)
                else RDataPTR(n.0));
    } else if rtype == TYPE_MX {
      if rdlen < 2 { return Err(RDataLengthMismatch); }
      var exchange :- ReadName(msg, pos + 2);
      if exchange.1 != end { return Err(RDataLengthMismatch); }
      return Ok(RDataMX(LoadU16(msg, pos), exchange.0));
    } else if rtype == TYPE_SOA {
      var mname :- ReadName(msg, pos);
      var rname :- ReadName(msg, mname.1);
      var p := rname.1;
      if p > end || end - p != 20 { return Err(RDataLengthMismatch); }
      return Ok(RDataSOA(mname.0, rname.0, LoadU32(msg, p), LoadU32(msg, p + 4), LoadU32(msg, p + 8),
                         LoadU32(msg, p + 12), LoadU32(msg, p + 16)));
    } else if rtype == TYPE_TXT {
      var strings :- ReadStrings(msg[pos..end]);
      return Ok(RDataTXT(strings));
    }
    r := Ok(RDataRaw(msg[pos..end]));
  }

  /** parse_opt */
  method ParseOpt(cls: u16, ttl: u32, rdata: Bytes) returns (r: Result<EdnsInfo>)
    ensures r == DecodeOpt(cls, ttl, rdata)
  {
    var pos := 0;
    assert rdata[0..] == rdata;
    while pos < |rdata|
      invariant 0 <= pos <= |rdata|
      invariant OptionsOk(rdata) == OptionsOk(rdata[pos..])
    {
      if |rdata| - pos < 4 {
        return Err(MalformedRData);
      }
      var optLen := LoadU16(rdata, pos + 2);
      assert LoadU16(rdata[pos..], 2) == optLen;
      pos := pos + 4;
      if |rdata| - pos < optLen {
        return Err(MalformedRData);
      }
      assert rdata[pos - 4..][4 + optLen..] == rdata[pos + optLen..];
      pos := pos + optLen;
    }
    r := Ok(OptFields(cls, ttl));
  }

  ghost predicate ReadsRecordsOf(dec: RecordDecoder, msg: Bytes, additional: bool) {
    forall pos: nat, edns {:trigger DecodeRecord(msg, pos, additional, edns)} ::
      dec(pos, edns) == DecodeRecord(msg, pos, additional, edns)
  }

  /** One round of read_section's loop. */
  method ReadRecord(msg: Bytes, pos: nat, additional: bool, edns: Option<EdnsInfo>, ghost dec: RecordDecoder)
    returns (r: Result<Section>)
    requires ReadsRecordsOf(dec, msg, additional)
    ensures r == dec(pos, edns)
  {
    assert dec(pos, edns) == DecodeRecord(msg, pos, additional, edns);
    var owner :- ReadName(msg, pos);
    var p := owner.1;
    if |msg| - p < RR_FIXED_SIZE {
      return Err(BufferTooShort);
    }
    var rtype, cls, ttl, rdlen := LoadU16(msg, p), LoadU16(msg, p + 2), LoadU32(msg, p + 4), LoadU16(msg, p + 8);
    p := p + RR_FIXED_SIZE;
    if |msg| - p < rdlen {
      return Err(BufferTooShort);
    }
    if rtype == TYPE_OPT {
      if !additional || edns.Some? || |owner.0.labels| != 0 {
        return Err(InvalidOpt);
      }
      var info :- ParseOpt(cls, ttl, msg[p..p + rdlen]);
      return Ok(Section([], Some(info), p + rdlen));
    }
    var rdata :- ReadRdata(msg, p, rdlen, rtype, cls);
    if ttl >= 0x8000_0000 {
      ttl := 0;
    }
    r := Ok(Section([RR(owner.0, rtype, cls, ttl, rdata)], edns, p + rdlen));
  }

  /** What remains, appended to what was read before it. */
  ghost function After(before: seq<RR>, rest: Result<Section>): Result<Section> {
    match rest
    case Err(e) => Err(e)
    case Ok(s) => Ok(Section(before + s.records, s.edns, s.end))
  }

  lemma AfterAfter(a: seq<RR>, b: seq<RR>, rest: Result<Section>)
    ensures After(a, After(b, rest)) == After(a + b, rest)
  {
    if rest.Ok? {
      assert a + (b + rest.value.records) == (a + b) + rest.value.records;
    }
  }

  lemma SectionUnfold(dec: RecordDecoder, pos: nat, count: nat, edns: Option<EdnsInfo>)
    requires count > 0
    ensures DecodeSection(dec, pos, count, edns)
         == match dec(pos, edns)
            case Err(e) => Err(e)
            case Ok(one) => After(one.records, DecodeSection(dec, one.end, count - 1, one.edns))
  {
  }

  method ReadSection(
    msg: Bytes, pos: nat, count: u16, additional: bool, edns: Option<EdnsInfo>, ghost dec: RecordDecoder)
    returns (r: Result<Section>)
    requires ReadsRecordsOf(dec, msg, additional)
    ensures r == DecodeSection(dec, pos, count, edns)
  {
    var records: seq<RR>, seen, p: nat, i: nat := [], edns, pos, 0;
    ghost var whole := DecodeSection(dec, pos, count, edns);
    assert whole == After([], whole) by {
      if whole.Ok? { assert [] + whole.value.records == whole.value.records; }
    }
    while i < count
      invariant i <= count
      invariant whole == After(records, DecodeSection(dec, p, count - i, seen))
    {
      SectionUnfold(dec, p, count - i, seen);
      var one :- ReadRecord(msg, p, additional, seen, dec);
      AfterAfter(records, one.records, DecodeSection(dec, one.end, count - i - 1, one.edns));
      records := records + one.records;
      seen := one.edns;
      p := one.end;
      i := i + 1;
    }
    assert records + [] == records;
    r := Ok(Section(records, seen, p));
  }

  ghost function Asked(before: seq<Question>, rest: Result<(seq<Question>, nat)>): Result<(seq<Question>, nat)> {
    match rest
    case Err(e) => Err(e)
    case Ok(r) => Ok((before + r.0, r.1))
  }

  lemma AskedAsked(a: seq<Question>, q: Question, rest: Result<(seq<Question>, nat)>)
    ensures Asked(a, Asked([q], rest)) == Asked(a + [q], rest)
  {
    if rest.Ok? {
      assert a + ([q] + rest.value.0) == (a + [q]) + rest.value.0;
    }
  }

  method ReadQuestions(msg: Bytes, pos: nat, count: u16) returns (r: Result<(seq<Question>, nat)>)
    ensures r == DecodeQuestions(QuestionsIn(msg), pos, count)
  {
    var questions: seq<Question>, p: nat, i: nat := [], pos, 0;
    ghost var dec := QuestionsIn(msg);
    ghost var whole := DecodeQuestions(dec, pos, count);
    assert whole == Asked([], whole) by {
      if whole.Ok? { assert [] + whole.value.0 == whole.value.0; }
    }
    while i < count
      invariant i <= count
      invariant whole == Asked(questions, DecodeQuestions(dec, p, count - i))
    {
      var q :- ReadQuestion(msg, p);
      AskedAsked(questions, q.0, DecodeQuestions(dec, q.1, count - i - 1));
      questions := questions + [q.0];
      p := q.1;
      i := i + 1;
    }
    assert questions + [] == questions;
    r := Ok((questions, p));
  }

  method Parse(data: Bytes) returns (r: Result<Message>)
    ensures r == DecodeMessage(data)
  {
    var h :- DecodeHeader(data);
    var minNeeded := h.qdcount as int * MIN_QUESTION_SIZE + (h.ancount as int + h.nscount + h.arcount) * MIN_RR_SIZE;
    if minNeeded > |data| - HEADER_SIZE {
      return Err(SectionOverflow);
    }
    var qs :- ReadQuestions(data, HEADER_SIZE, h.qdcount);
    var an :- ReadSection(data, qs.1, h.ancount, false, None, RecordsIn(data, false));
    var ns :- ReadSection(data, an.end, h.nscount, false, an.edns, RecordsIn(data, false));
    var ar :- ReadSection(data, ns.end, h.arcount, true, ns.edns, RecordsIn(data, true));
    r := Ok(Message(h, qs.0, an.records, ns.records, ar.records, ar.edns));
  }
}
