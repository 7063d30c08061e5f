/** The DNS data types shared by every component (core/include/dnsentinel/types.h). */
module DnsTypes {

  type u8 = x: int | 0 <= x < 0x100
  type u16 = x: int | 0 <= x < 0x1_0000
  type u32 = x: int | 0 <= x < 0x1_0000_0000

  type Bytes = seq<u8>
  type Label = seq<u8>

  const MAX_LABEL_LENGTH := 63
  const MAX_NAME_WIRE_LENGTH := 255

  datatype Option<+T> = None | Some(value: T)

  // ─── Names ────────────────────────────────────────────────────────────────

  /** A name keeps its labels twice: lower-cased for comparison and as written. */
  datatype Name = Name(labels: seq<Label>, original: seq<Label>)
  {
    /** `operator==` of the source: letter case is ignored. */
    predicate Equals(other: Name) {
      labels == other.labels
    }

    /** The labels the builder writes: the original case if it is recorded. */
    function Text(): seq<Label> {
      if |original| == |labels| then original else labels
    }

    /** What the builder asks of a name: label sizes, total size, and that the
        canonical labels are the lower-cased text. */
    predicate Valid() {
      && ValidLabels(Text())
      && labels == LowerAll(Text())
    }
  }

  predicate IsSuffix<T(==)>(suffix: seq<T>, s: seq<T>) {
    |suffix| <= |s| && s[|s| - |suffix|..] == suffix
  }

  function LowerByte(b: u8): u8 {
    if 65 <= b <= 90 then b + 32 else b
  }

  function Lower(l: Label): (r: Label)
    ensures |r| == |l|
  {
    seq(|l|, i requires 0 <= i < |l| => LowerByte(l[i]))
  }

  function LowerAll(ls: seq<Label>): (r: seq<Label>)
    ensures |r| == |ls|
    ensures forall i :: 0 <= i < |ls| ==> r[i] == Lower(ls[i])
  {
    seq(|ls|, i requires 0 <= i < |ls| => Lower(ls[i]))
  }

  predicate ValidLabel(l: Label) {
    1 <= |l| <= MAX_LABEL_LENGTH
  }

  predicate ValidLabels(ls: seq<Label>) {
    && (forall i :: 0 <= i < |ls| ==> ValidLabel(ls[i]))
    && WireLength(ls) <= MAX_NAME_WIRE_LENGTH
  }

  /** Bytes of the labels with their length octets, and the root octet. */
  function WireLength(ls: seq<Label>): nat {
    if ls == [] then 1 else 1 + |ls[0]| + WireLength(ls[1..])
  }

  /** The name that appending each raw label in turn builds. */
  function NameOf(raw: seq<Label>): Name {
    Name(LowerAll(raw), raw)
  }

  // ─── Records and messages ─────────────────────────────────────────────────

  const TYPE_A: u16 := 1
  const TYPE_NS: u16 := 2
  const TYPE_CNAME: u16 := 5
  const TYPE_SOA: u16 := 6
  const TYPE_PTR: u16 := 12
  const TYPE_MX: u16 := 15
  const TYPE_TXT: u16 := 16
  const TYPE_AAAA: u16 := 28
  const TYPE_OPT: u16 := 41
  const CLASS_IN: u16 := 1

  datatype RData =
    | RDataA(addr: Bytes)
    | RDataAAAA(addr6: Bytes)
    | RDataNS(nsdname: Name)
    | RDataCNAME(target: Name)
    | RDataSOA(mname: Name, rname: Name, serial: u32, refresh: u32, retry: u32, expire: u32, minimum: u32)
    | RDataMX(preference: u16, exchange: Name)
    | RDataTXT(strings: seq<Bytes>)
    | RDataPTR(ptrdname: Name)
    | RDataRaw(data: Bytes)

  datatype RR = RR(name: Name, rtype: u16, cls: u16, ttl: u32, rdata: RData)

  datatype Question = Question(qname: Name, qtype: u16, qclass: u16)

  datatype Header = Header(
    id: u16, qr: bool, opcode: u8, aa: bool, tc: bool, rd: bool, ra: bool, ad: bool, cd: bool, rcode: u8,
    qdcount: u16, ancount: u16, nscount: u16, arcount: u16)

  datatype EdnsInfo = EdnsInfo(udpPayloadSize: u16, extendedRcode: u8, version: u8, dnssecOk: bool)

  datatype Message = Message(
    header: Header,
    questions: seq<Question>,
    answers: seq<RR>,
    authority: seq<RR>,
    additional: seq<RR>,
    edns: Option<EdnsInfo>)

  datatype ParseError =
    | BufferTooShort
    | NameTooLong
    | CompressionLoop
    | InvalidLabelType
    | SectionOverflow
    | RDataLengthMismatch
    | MalformedRData
    | InvalidOpt

  datatype Result<+T> = Ok(value: T) | Err(error: ParseError)
  {
    predicate IsFailure() {
      Err?
    }

    function PropagateFailure<U>(): Result<U>
      requires Err?
    {
      Err(error)
    }

    function Extract(): T
      requires Ok?
    {
      value
    }
  }
}
