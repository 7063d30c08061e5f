/** The message builder (core/wire/builder.cpp, core/wire/edns.cpp): the bytes
    each part of a message becomes, and how a message is cut to a size limit. */
module WireBuilder {
  import opened DnsTypes
  import opened WireName
  import opened NameWriter
  import opened Emitting

  const HEADER_SIZE := 12
  const OPT_RECORD_SIZE := 11
  const CLASSIC_UDP_SIZE := 512
  const MAX_TCP_MESSAGE := 0xFFFF

  // ─── What the builder asks of its callers ─────────────────────────────────

  predicate ValidRData(d: RData) {
    match d
    case RDataA(addr) => |addr| == 4
    case RDataAAAA(addr) => |addr| == 16
    case RDataNS(n) => n.Valid()
    case RDataCNAME(n) => n.Valid()
    case RDataPTR(n) => n.Valid()
    case RDataMX(_, n) => n.Valid()
    case RDataSOA(m, r, _, _, _, _, _) => m.Valid() && r.Valid()
    case RDataTXT(strings) => forall i :: 0 <= i < |strings| ==> |strings[i]| <= 255
    case RDataRaw(_) => true
  }

  predicate ValidRR(rr: RR) {
    rr.name.Valid() && ValidRData(rr.rdata)
  }

  predicate ValidRRs(rrs: seq<RR>) {
    forall i :: 0 <= i < |rrs| ==> ValidRR(rrs[i])
  }

  predicate ValidQuestions(qs: seq<Question>) {
    forall i :: 0 <= i < |qs| ==> qs[i].qname.Valid()
  }

  predicate ValidMessage(m: Message) {
    && ValidQuestions(m.questions)
    && ValidRRs(m.answers) && ValidRRs(m.authority) && ValidRRs(m.additional)
  }

  // ─── Bytes ────────────────────────────────────────────────────────────────

  function StringBytes(strings: seq<Bytes>): Bytes {
    if strings == [] then [] else LabelBytes(strings[0]) + StringBytes(strings[1..])
  }

  function EmitSoa(off: nat, sfx: Suffixes, compress: bool, d: RData): Emission
    requires d.RDataSOA?
  {
    var m := EmitName(off, sfx, compress, d.mname);
    var r := EmitName(off + |m.bytes|, m.suffixes, compress, d.rname);
    Emission(m.bytes + r.bytes + SoaNumbers(d), r.suffixes)
  }

  function SoaNumbers(d: RData): (b: Bytes)
    requires d.RDataSOA?
    ensures |b| == 20
  {
    U32(d.serial) + U32(d.refresh) + U32(d.retry) + U32(d.expire) + U32(d.minimum)
  }

  function EmitMx(off: nat, sfx: Suffixes, compress: bool, d: RData): Emission
    requires d.RDataMX?
  {
    var e := EmitName(off + 2, sfx, compress, d.exchange);
    Emission(U16(d.preference) + e.bytes, e.suffixes)
  }

  function EmitRdata(off: nat, sfx: Suffixes, compress: bool, d: RData): Emission
  {
    match d
    case RDataA(addr) => Emission(addr, sfx)
    case RDataAAAA(addr) => Emission(addr, sfx)
    case RDataNS(n) => EmitName(off, sfx, compress, n)
    case RDataCNAME(n) => EmitName(off, sfx, compress, n)
    case RDataPTR(n) => EmitName(off, sfx, compress, n)
    case RDataMX(_, _) => EmitMx(off, sfx, compress, d)
    case RDataSOA(_, _, _, _, _, _, _) => EmitSoa(off, sfx, compress, d)
    case RDataTXT(strings) => Emission(StringBytes(strings), sfx)
    case RDataRaw(data) => Emission(data, sfx)
  }

  /** Type, class, TTL and RDLENGTH; the length is stored in 16 bits. */
  function FixedBytes(rr: RR, rdlen: nat): (b: Bytes)
    ensures |b| == 10
  {
    U16(rr.rtype) + U16(rr.cls) + U32(rr.ttl) + U16(rdlen % 0x1_0000)
  }

  function EmitRR(off: nat, sfx: Suffixes, compress: bool, rr: RR): Emission
  {
    var owner := EmitName(off, sfx, compress, rr.name);
    var rdata := EmitRdata(off + |owner.bytes| + 10, owner.suffixes, compress, rr.rdata);
    Emission(owner.bytes + FixedBytes(rr, |rdata.bytes|) + rdata.bytes, rdata.suffixes)
  }

  function EmitQuestion(off: nat, sfx: Suffixes, compress: bool, q: Question): Emission
  {
    var e := EmitName(off, sfx, compress, q.qname);
    Emission(e.bytes + U16(q.qtype) + U16(q.qclass), e.suffixes)
  }

  function RRStep(compress: bool): Step<RR> {
    (off: nat, sfx: Suffixes, rr: RR) => EmitRR(off, sfx, compress, rr)
  }

  function QuestionStep(compress: bool): Step<Question> {
    (off: nat, sfx: Suffixes, q: Question) => EmitQuestion(off, sfx, compress, q)
  }

  /** write_opt: the root as owner, and no options. */
  function OptBytes(edns: EdnsInfo): (b: Bytes)
    ensures |b| == OPT_RECORD_SIZE
  {
    var ttl: u32 := edns.extendedRcode as int * 0x100_0000 + edns.version as int * 0x1_0000
                    + (if edns.dnssecOk then 0x8000 else 0);
    [0] + U16(TYPE_OPT) + U16(edns.udpPayloadSize) + U32(ttl) + U16(0)
  }

  function EdnsBytes(edns: Option<EdnsInfo>): (b: Bytes)
    ensures |b| == EdnsSize(edns)
  {
    match edns case None => [] case Some(info) => OptBytes(info)
  }

  function EdnsSize(edns: Option<EdnsInfo>): nat {
    if edns.Some? then OPT_RECORD_SIZE else 0
  }

  function Flag(b: bool, weight: u8): u8 {
    if b then weight else 0
  }

  /** write_header. Opcode and rcode are cut to four bits. */
  function HeaderBytes(h: Header): (b: Bytes)
    ensures |b| == HEADER_SIZE
  {
    var b2: u8 := Flag(h.qr, 128) as int + h.opcode % 16 * 8 + Flag(h.aa, 4) + Flag(h.tc, 2) + Flag(h.rd, 1);
    var b3: u8 := Flag(h.ra, 128) as int + Flag(h.ad, 32) + Flag(h.cd, 16) + h.rcode % 16;
    U16(h.id) + [b2, b3] + U16(h.qdcount) + U16(h.ancount) + U16(h.nscount) + U16(h.arcount)
  }

  // ─── Cutting to size ──────────────────────────────────────────────────────

  predicate SameRRset(a: RR, b: RR) {
    a.rtype == b.rtype && a.cls == b.cls && a.name.Equals(b.name)
  }

  /** Questions are kept or dropped one by one. */
  predicate SameGroup(a: Question, b: Question) {
    false
  }

  /** The bytes written after the header up to a point, and their suffixes. */
  datatype Draft = Draft(body: Bytes, suffixes: Suffixes)
  {
    function Size(): nat {
      HEADER_SIZE + |body|
    }

    function Add<T>(step: Step<T>, items: seq<T>): Draft {
      var e := EmitAll(step, Size(), suffixes, items);
      Draft(body + e.bytes, e.suffixes)
    }
  }

  const EMPTY_DRAFT := Draft([], map[])

  /** How much of each section is written. */
  datatype Cut = Cut(questions: nat, answers: nat, authority: nat, additional: nat)
  {
    predicate Within(m: Message) {
      && questions <= |m.questions| && answers <= |m.answers|
      && authority <= |m.authority| && additional <= |m.additional|
    }

    /** The question, answer or authority section lost data. */
    predicate Truncates(m: Message) {
      questions < |m.questions| || answers < |m.answers| || authority < |m.authority|
    }
  }

  /** Sections are filled in order; once one is cut, those after it stay empty. */
  function CutFor(m: Message, limit: nat, compress: bool): (cut: Cut)
    ensures cut.Within(m)
  {
    CutBy(QuestionStep(compress), RRStep(compress), m, limit)
  }

  function CutBy(qstep: Step<Question>, step: Step<RR>, m: Message, limit: nat): (cut: Cut)
    ensures cut.Within(m)
  {
    var q := FitIn(qstep, SameGroup, EMPTY_DRAFT, m.questions, limit, true);
    var w1 := EMPTY_DRAFT.Add(qstep, m.questions[..q]);
    var a := FitIn(step, SameRRset, w1, m.answers, limit, q == |m.questions|);
    var w2 := w1.Add(step, m.answers[..a]);
    var u := FitIn(step, SameRRset, w2, m.authority, limit, q == |m.questions| && a == |m.answers|);
    var w3 := w2.Add(step, m.authority[..u]);
    var d := FitIn(step, SameRRset, w3, m.additional, limit,
                   q == |m.questions| && a == |m.answers| && u == |m.authority|);
    Cut(q, a, u, d)
  }

  function FitIn<T>(step: Step<T>, same: (T, T) -> bool, w: Draft, items: seq<T>, limit: nat, open: bool): (count: nat)
    ensures count <= |items|
  {
    if open then Fit(step, same, w.Size(), w.suffixes, items, limit) else 0
  }

  /** The four sections of `m` up to `cut`, one after the other. */
  function DraftOf(m: Message, cut: Cut, compress: bool): Draft
    requires cut.Within(m)
  {
    DraftBy(QuestionStep(compress), RRStep(compress), m, cut)
  }

  function DraftBy(qstep: Step<Question>, step: Step<RR>, m: Message, cut: Cut): Draft
    requires cut.Within(m)
  {
    EMPTY_DRAFT.Add(qstep, m.questions[..cut.questions])
    .Add(step, m.answers[..cut.answers])
    .Add(step, m.authority[..cut.authority])
    .Add(step, m.additional[..cut.additional])
  }

  /** The header that goes out: 16-bit counts of what was written, and TC. */
  function FinalHeader(m: Message, cut: Cut): Header {
    m.header.(tc := m.header.tc || cut.Truncates(m),
              qdcount := cut.questions % 0x1_0000,
              ancount := cut.answers % 0x1_0000,
              nscount := cut.authority % 0x1_0000,
              arcount := (cut.additional + if m.edns.Some? then 1 else 0) % 0x1_0000)
  }

  /** build_message */
  function BuildMessage(m: Message, maxSize: nat, compress: bool): Bytes
    requires maxSize >= OPT_RECORD_SIZE
  {
    Assemble(m, CutFor(m, Limit(m, maxSize), compress), compress)
  }

  /** Room is kept for the OPT, so that a cut message still carries it. */
  function Limit(m: Message, maxSize: nat): nat
    requires maxSize >= OPT_RECORD_SIZE
  {
    maxSize - EdnsSize(m.edns)
  }

  /** The header, the sections up to `cut`, and the OPT. */
  function Assemble(m: Message, cut: Cut, compress: bool): Bytes
    requires cut.Within(m)
  {
    HeaderBytes(FinalHeader(m, cut)) + DraftOf(m, cut, compress).body + EdnsBytes(m.edns)
  }

  function Max(a: nat, b: nat): nat {
    if a < b then b else a
  }

  /** build: limits under 512 are raised to it. */
  function Build(m: Message, maxSize: u16, compress: bool): Bytes
  {
    BuildMessage(m, Max(maxSize, CLASSIC_UDP_SIZE), compress)
  }

  /** A 16-bit length in front, section 4.2.2 of RFC 1035. */
  function Framed(msg: Bytes): Bytes {
    U16(|msg| % 0x1_0000) + msg
  }

  /** build_tcp: up to 65535 bytes of message, with its length. */
  function BuildTcp(m: Message, compress: bool): Bytes {
    Framed(BuildMessage(m, MAX_TCP_MESSAGE, compress))
  }
}
