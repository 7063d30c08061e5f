/** Whatever the builder writes for a question or a record, the parser reads
    back as that question or record. */
module WireRecords {
  import opened DnsTypes
  import opened WireName
  import opened NameWriter
  import opened WireParser
  import B = WireBuilder

  // ─── Equality as far as compression preserves it ──────────────────────────

  /** Canonical labels always survive; letter case does if not compressing. */
  predicate SameName(compress: bool, a: Name, b: Name) {
    a.labels == b.labels && (!compress ==> a.original == b.Text())
  }

  predicate SameRData(compress: bool, a: RData, b: RData) {
    match (a, b)
    case (RDataNS(x), RDataNS(y)) => SameName(compress, x, y)
    case (RDataCNAME(x), RDataCNAME(y)) => SameName(compress, x, y)
    case (RDataPTR(x), RDataPTR(y)) => SameName(compress, x, y)
    case (RDataMX(p, x), RDataMX(q, y)) => p == q && SameName(compress, x, y)
    case (RDataSOA(m, r, _, _, _, _, _), RDataSOA(m', r', _, _, _, _, _)) =>
      SameName(compress, m, m') && SameName(compress, r, r') && a.(mname := m', rname := r') == b
    case _ => a == b
  }

  predicate SameRR(compress: bool, a: RR, b: RR) {
    && SameName(compress, a.name, b.name)
    && a.rtype == b.rtype && a.cls == b.cls && a.ttl == WireTtl(b.ttl)
    && SameRData(compress, a.rdata, b.rdata)
  }

  predicate SameQuestion(compress: bool, a: Question, b: Question) {
    SameName(compress, a.qname, b.qname) && a.qtype == b.qtype && a.qclass == b.qclass
  }

  /** The RDATA variant is the one the parser makes for this type and class. */
  predicate RDataFits(rtype: u16, cls: u16, d: RData) {
    if rtype == TYPE_A && cls == CLASS_IN then d.RDataA?
    else if rtype == TYPE_AAAA && cls == CLASS_IN then d.RDataAAAA?
    else if rtype == TYPE_NS then d.RDataNS?
    else if rtype == TYPE_CNAME then d.RDataCNAME?
    else if rtype == TYPE_PTR then d.RDataPTR?
    else if rtype == TYPE_MX then d.RDataMX?
    else if rtype == TYPE_SOA then d.RDataSOA?
    else if rtype == TYPE_TXT then d.RDataTXT?
    else d.RDataRaw?
  }

  /** A record that can stand in a section: not an OPT, and of one piece. */
  predicate Codable(rr: RR) {
    rr.rtype != TYPE_OPT && RDataFits(rr.rtype, rr.cls, rr.rdata)
  }

  predicate CodableRRs(rrs: seq<RR>) {
    forall i :: 0 <= i < |rrs| ==> Codable(rrs[i])
  }

  // ─── The writer's invariant ───────────────────────────────────────────────

  ghost predicate Good(buf: Bytes, sfx: Suffixes) {
    MapOk(buf, sfx) && forall k :: k in sfx ==> sfx[k] < |buf|
  }

  /** Emission kept the invariant, and only added suffixes it wrote itself. */
  ghost predicate Grown(buf: Bytes, sfx: Suffixes, e: Emission) {
    && Good(buf + e.bytes, e.suffixes)
    && Extends(sfx, e.suffixes)
    && forall k :: k in e.suffixes && k !in sfx ==> |buf| <= e.suffixes[k]
  }

  lemma Regroup(a: Bytes, b: Bytes, c: Bytes, d: Bytes)
    ensures a + (b + c + d) == a + b + (c + d)
    ensures a + (b + c + d) == a + b + c + d
    ensures a + (b + c) == a + b + c
  {
  }

  lemma LoadsAppend(buf: Bytes, more: Bytes, p: nat)
    requires p + RR_FIXED_SIZE <= |buf|
    ensures LoadU16(buf + more, p) == LoadU16(buf, p) && LoadU16(buf + more, p + 2) == LoadU16(buf, p + 2)
    ensures LoadU32(buf + more, p + 4) == LoadU32(buf, p + 4) && LoadU16(buf + more, p + 8) == LoadU16(buf, p + 8)
  {
  }

  lemma GrownPlain(buf: Bytes, sfx: Suffixes, bytes: Bytes)
    requires Good(buf, sfx)
    ensures Grown(buf, sfx, Emission(bytes, sfx))
  {
    MapOkAppend(buf, bytes, sfx);
  }

  lemma GrownThen(buf: Bytes, sfx: Suffixes, e: Emission, f: Emission)
    requires Grown(buf, sfx, e) && Grown(buf + e.bytes, e.suffixes, f)
    ensures Grown(buf, sfx, Emission(e.bytes + f.bytes, f.suffixes))
  {
    Regroup(buf, e.bytes, f.bytes, []);
  }

  // ─── Bytes appended later change nothing ──────────────────────────────────

  lemma DecodeNameAppend(buf: Bytes, more: Bytes, pos: nat)
    requires DecodeName(buf, pos).Ok?
    ensures DecodeName(buf + more, pos) == DecodeName(buf, pos)
    ensures DecodeName(buf, pos).value.1 <= |buf|
  {
    DecodeNameIffWalk(buf, pos);
    WalkAppend(buf, more, pos, pos);
    DecodeNameIffWalk(buf + more, pos);
  }

  lemma DecodeSoaAppend(buf: Bytes, more: Bytes, pos: nat, end: nat)
    requires end <= |buf| && DecodeSoa(buf, pos, end).Ok?
    ensures DecodeSoa(buf + more, pos, end) == DecodeSoa(buf, pos, end)
  {
    DecodeNameAppend(buf, more, pos);
    DecodeNameAppend(buf, more, DecodeName(buf, pos).value.1);
  }

  lemma DecodeNameRdataAppend(buf: Bytes, more: Bytes, pos: nat, end: nat)
    requires end <= |buf| && DecodeNameRdata(buf, pos, end).Ok?
    ensures DecodeNameRdata(buf + more, pos, end) == DecodeNameRdata(buf, pos, end)
  {
    DecodeNameAppend(buf, more, pos);
  }

  lemma DecodeRdataAppend(buf: Bytes, more: Bytes, pos: nat, end: nat, rtype: u16, cls: u16)
    requires pos <= end <= |buf| && DecodeRdata(buf, pos, end, rtype, cls).Ok?
    ensures DecodeRdata(buf + more, pos, end, rtype, cls) == DecodeRdata(buf, pos, end, rtype, cls)
  {
    assert (buf + more)[pos..end] == buf[pos..end];
    if rtype == TYPE_NS || rtype == TYPE_CNAME || rtype == TYPE_PTR {
      DecodeNameRdataAppend(buf, more, pos, end);
    } else if rtype == TYPE_MX {
      DecodeNameRdataAppend(buf, more, pos + 2, end);
    } else if rtype == TYPE_SOA {
      DecodeSoaAppend(buf, more, pos, end);
    }
  }

  lemma DecodeFieldsAppend(buf: Bytes, more: Bytes, owner: Name, rtype: u16, cls: u16, ttl: u32, start: nat, end: nat,
                           additional: bool, edns: Option<EdnsInfo>)
    requires start <= end <= |buf| && DecodeFields(buf, owner, rtype, cls, ttl, start, end, additional, edns).Ok?
    ensures DecodeFields(buf + more, owner, rtype, cls, ttl, start, end, additional, edns)
         == DecodeFields(buf, owner, rtype, cls, ttl, start, end, additional, edns)
  {
    assert (buf + more)[start..end] == buf[start..end];
    if rtype != TYPE_OPT {
      DecodeRdataAppend(buf, more, start, end, rtype, cls);
    }
  }

  lemma DecodeBodyAppend(buf: Bytes, more: Bytes, owner: Name, p: nat, additional: bool, edns: Option<EdnsInfo>)
    requires DecodeRecordBody(buf, owner, p, additional, edns).Ok?
    ensures DecodeRecordBody(buf + more, owner, p, additional, edns)
            == DecodeRecordBody(buf, owner, p, additional, edns)
  {
    LoadsAppend(buf, more, p);
    DecodeFieldsAppend(buf, more, owner, LoadU16(buf, p), LoadU16(buf, p + 2), LoadU32(buf, p + 4),
                       p + RR_FIXED_SIZE, p + RR_FIXED_SIZE + LoadU16(buf, p + 8), additional, edns);
  }

  lemma DecodeRecordAppend(buf: Bytes, more: Bytes, pos: nat, additional: bool, edns: Option<EdnsInfo>)
    requires DecodeRecord(buf, pos, additional, edns).Ok?
    ensures DecodeRecord(buf + more, pos, additional, edns) == DecodeRecord(buf, pos, additional, edns)
  {
    DecodeNameAppend(buf, more, pos);
    var owner := DecodeName(buf, pos).value;
    DecodeBodyAppend(buf, more, owner.0, owner.1, additional, edns);
  }

  lemma DecodeQuestionAppend(buf: Bytes, more: Bytes, pos: nat)
    requires DecodeQuestion(buf, pos).Ok?
    ensures DecodeQuestion(buf + more, pos) == DecodeQuestion(buf, pos)
  {
    DecodeNameAppend(buf, more, pos);
  }

  // ─── Names and numbers read back ──────────────────────────────────────────

  lemma LoadsU16(pre: Bytes, v: u16, post: Bytes)
    ensures LoadU16(pre + U16(v) + post, |pre|) == v
  {
  }

  lemma LoadsU32(pre: Bytes, v: u32, post: Bytes)
    ensures LoadU32(pre + U32(v) + post, |pre|) == v
  {
    var b := pre + U32(v) + post;
    forall i | 0 <= i < 4
      ensures b[|pre| + i] == U32(v)[i]
    {
    }
  }

  lemma NameReads(buf: Bytes, sfx: Suffixes, compress: bool, n: Name) returns (e: Emission, n': Name)
    requires n.Valid() && Good(buf, sfx)
    ensures e == EmitName(|buf|, sfx, compress, n) && Grown(buf, sfx, e) && |e.bytes| >= 1
    ensures DecodeName(buf + e.bytes, |buf|) == Ok((n', |buf + e.bytes|)) && SameName(compress, n', n)
  {
    var raw: seq<Label>;
    e, raw := EmitNameReads(buf, sfx, compress, n);
    n' := NameOf(raw);
    DecodeNameIffWalk(buf + e.bytes, |buf|);
  }

  // ─── RDATA reads back ─────────────────────────────────────────────────────

  lemma {:induction false} StringsRead(strings: seq<Bytes>)
    requires forall i :: 0 <= i < |strings| ==> |strings[i]| <= 255
    ensures DecodeStrings(B.StringBytes(strings)) == Ok(strings)
  {
    if strings == [] {
    } else {
      var b := B.StringBytes(strings);
      var s := strings[0];
      StringsRead(strings[1..]);
      assert b == LabelBytes(s) + B.StringBytes(strings[1..]);
      assert b[0] == |s| && b[1..1 + |s|] == LabelBytes(s)[1..] && b[1 + |s|..] == B.StringBytes(strings[1..]);
      assert [s] + strings[1..] == strings;
    }
  }

  lemma MxReads(buf: Bytes, sfx: Suffixes, compress: bool, d: RData) returns (e: Emission, d': RData)
    requires d.RDataMX? && B.ValidRData(d) && Good(buf, sfx)
    ensures e == B.EmitMx(|buf|, sfx, compress, d) && Grown(buf, sfx, e)
    ensures DecodeMx(buf + e.bytes, |buf|, |buf + e.bytes|) == Ok(d') && SameRData(compress, d', d)
  {
    var pre := U16(d.preference);
    GrownPlain(buf, sfx, pre);
    var f, n' := NameReads(buf + pre, sfx, compress, d.exchange);
    e := Emission(pre + f.bytes, f.suffixes);
    GrownThen(buf, sfx, Emission(pre, sfx), f);
    assert |buf + pre| == |buf| + 2;
    assert buf + e.bytes == (buf + pre) + f.bytes;
    LoadsU16(buf, d.preference, f.bytes);
    d' := RDataMX(d.preference, n');
  }

  lemma SoaNumbersRead(buf: Bytes, d: RData)
    requires d.RDataSOA?
    ensures var b := buf + B.SoaNumbers(d);
            var p := |buf|;
            && LoadU32(b, p) == d.serial && LoadU32(b, p + 4) == d.refresh && LoadU32(b, p + 8) == d.retry
            && LoadU32(b, p + 12) == d.expire && LoadU32(b, p + 16) == d.minimum
  {
    var s, f, t, x, m := U32(d.serial), U32(d.refresh), U32(d.retry), U32(d.expire), U32(d.minimum);
    var b := buf + B.SoaNumbers(d);
    assert b == buf + s + (f + t + x + m);
    LoadsU32(buf, d.serial, f + t + x + m);
    assert b == (buf + s) + f + (t + x + m);
    LoadsU32(buf + s, d.refresh, t + x + m);
    assert b == (buf + s + f) + t + (x + m);
    LoadsU32(buf + s + f, d.retry, x + m);
    assert b == (buf + s + f + t) + x + m;
    LoadsU32(buf + s + f + t, d.expire, m);
    assert b == (buf + s + f + t + x) + m + [];
    LoadsU32(buf + s + f + t + x, d.minimum, []);
  }

  lemma SoaReads(buf: Bytes, sfx: Suffixes, compress: bool, d: RData) returns (e: Emission, d': RData)
    requires d.RDataSOA? && B.ValidRData(d) && Good(buf, sfx)
    ensures e == B.EmitSoa(|buf|, sfx, compress, d) && Grown(buf, sfx, e)
    ensures DecodeSoa(buf + e.bytes, |buf|, |buf + e.bytes|) == Ok(d') && SameRData(compress, d', d)
  {
    var m, r, mname, rname;
    e, m, r, mname, rname := SoaGrows(buf, sfx, compress, d);
    var nums := B.SoaNumbers(d);
    var buf1, buf2 := buf + m.bytes, buf + m.bytes + r.bytes;
    var whole := buf + e.bytes;
    Regroup(buf, m.bytes, r.bytes, nums);
    DecodeNameAppend(buf1, r.bytes + nums, |buf|);
    DecodeNameAppend(buf2, nums, |buf1|);
    SoaNumbersRead(buf2, d);
    d' := d.(mname := mname, rname := rname);
    SoaDecodes(whole, |buf|, |buf1|, |buf2|, d');
  }

  lemma SoaDecodes(msg: Bytes, pos: nat, p1: nat, p2: nat, d: RData)
    requires d.RDataSOA? && p2 + 20 == |msg|
    requires DecodeName(msg, pos) == Ok((d.mname, p1)) && DecodeName(msg, p1) == Ok((d.rname, p2))
    requires LoadU32(msg, p2) == d.serial && LoadU32(msg, p2 + 4) == d.refresh && LoadU32(msg, p2 + 8) == d.retry
    requires LoadU32(msg, p2 + 12) == d.expire && LoadU32(msg, p2 + 16) == d.minimum
    ensures DecodeSoa(msg, pos, |msg|) == Ok(d)
  {
  }

  lemma SoaGrows(buf: Bytes, sfx: Suffixes, compress: bool, d: RData)
    returns (e: Emission, m: Emission, r: Emission, mname: Name, rname: Name)
    requires d.RDataSOA? && B.ValidRData(d) && Good(buf, sfx)
    ensures e == B.EmitSoa(|buf|, sfx, compress, d) && Grown(buf, sfx, e)
    ensures e.bytes == m.bytes + r.bytes + B.SoaNumbers(d)
    ensures SameName(compress, mname, d.mname) && SameName(compress, rname, d.rname)
    ensures DecodeName(buf + m.bytes, |buf|) == Ok((mname, |buf + m.bytes|))
    ensures DecodeName(buf + m.bytes + r.bytes, |buf + m.bytes|) == Ok((rname, |buf + m.bytes + r.bytes|))
  {
    hide Grown, Good, DecodeName, EmitName, SameName;
    m, mname := NameReads(buf, sfx, compress, d.mname);
    var buf1 := buf + m.bytes;
    r, rname := NameReads(buf1, m.suffixes, compress, d.rname);
    assert |buf1| == |buf| + |m.bytes|;
    var nums := B.SoaNumbers(d);
    e := Emission(m.bytes + r.bytes + nums, r.suffixes);
    GrownThen(buf, sfx, m, r);
    Regroup(buf, m.bytes, r.bytes, []);
    GrownPlain(buf1 + r.bytes, r.suffixes, nums);
    GrownThen(buf, sfx, Emission(m.bytes + r.bytes, r.suffixes), Emission(nums, r.suffixes));
  }

  lemma RdataReads(buf: Bytes, sfx: Suffixes, compress: bool, rtype: u16, cls: u16, d: RData)
    returns (e: Emission, d': RData)
    requires B.ValidRData(d) && Good(buf, sfx)
    ensures e == B.EmitRdata(|buf|, sfx, compress, d) && Grown(buf, sfx, e)
    ensures RDataFits(rtype, cls, d) ==>
              DecodeRdata(buf + e.bytes, |buf|, |buf + e.bytes|, rtype, cls) == Ok(d') && SameRData(compress, d', d)
  {
    match d
    case RDataNS(n) =>
      var n';
      e, n' := NameReads(buf, sfx, compress, n);
      d' := RDataNS(n');
    case RDataCNAME(n) =>
      var n';
      e, n' := NameReads(buf, sfx, compress, n);
      d' := RDataCNAME(n');
    case RDataPTR(n) =>
      var n';
      e, n' := NameReads(buf, sfx, compress, n);
      d' := RDataPTR(n');
    case RDataMX(_, _) =>
      e, d' := MxReads(buf, sfx, compress, d);
    case RDataSOA(_, _, _, _, _, _, _) =>
      e, d' := SoaReads(buf, sfx, compress, d);
    case _ =>
      e, d' := PlainRdataReads(buf, sfx, compress, rtype, cls, d);
  }

  lemma PlainRdataReads(buf: Bytes, sfx: Suffixes, compress: bool, rtype: u16, cls: u16, d: RData)
    returns (e: Emission, d': RData)
    requires d.RDataA? || d.RDataAAAA? || d.RDataTXT? || d.RDataRaw?
    requires B.ValidRData(d) && Good(buf, sfx)
    ensures e == B.EmitRdata(|buf|, sfx, compress, d) && Grown(buf, sfx, e)
    ensures RDataFits(rtype, cls, d) ==>
              DecodeRdata(buf + e.bytes, |buf|, |buf + e.bytes|, rtype, cls) == Ok(d') && SameRData(compress, d', d)
  {
    e := B.EmitRdata(|buf|, sfx, compress, d);
    d' := d;
    GrownPlain(buf, sfx, e.bytes);
    var whole := buf + e.bytes;
    assert whole[|buf|..|whole|] == e.bytes;
    if d.RDataTXT? {
      StringsRead(d.strings);
    }
  }

  // ─── Records and questions read back ──────────────────────────────────────

  lemma FixedReads(pre: Bytes, rr: RR, rdlen: nat, post: Bytes)
    requires rdlen < 0x1_0000
    ensures var b := pre + B.FixedBytes(rr, rdlen) + post;
            var p := |pre|;
            && LoadU16(b, p) == rr.rtype && LoadU16(b, p + 2) == rr.cls
            && LoadU32(b, p + 4) == rr.ttl && LoadU16(b, p + 8) == rdlen
  {
    var t, c, l, r := U16(rr.rtype), U16(rr.cls), U32(rr.ttl), U16(rdlen);
    var b := pre + B.FixedBytes(rr, rdlen) + post;
    assert b == pre + t + (c + l + r + post);
    LoadsU16(pre, rr.rtype, c + l + r + post);
    assert b == (pre + t) + c + (l + r + post);
    LoadsU16(pre + t, rr.cls, l + r + post);
    assert b == (pre + t + c) + l + (r + post);
    LoadsU32(pre + t + c, rr.ttl, r + post);
    assert b == (pre + t + c + l) + r + post;
    LoadsU16(pre + t + c + l, rdlen, post);
  }

  /** A record whose bytes stay under 64 KiB reads back as itself. */
  lemma RecordReads(buf: Bytes, sfx: Suffixes, compress: bool, rr: RR, additional: bool, edns: Option<EdnsInfo>)
    returns (e: Emission, rr': RR)
    requires B.ValidRR(rr) && Codable(rr) && Good(buf, sfx)
    requires |B.EmitRR(|buf|, sfx, compress, rr).bytes| < 0x1_0000
    ensures e == B.EmitRR(|buf|, sfx, compress, rr) && Grown(buf, sfx, e) && |e.bytes| >= MIN_RR_SIZE
    ensures DecodeRecord(buf + e.bytes, |buf|, additional, edns) == Ok(Section([rr'], edns, |buf + e.bytes|))
    ensures SameRR(compress, rr', rr)
  {
    var d', owner', d, owner;
    e, owner, d, owner', d' := RecordGrows(buf, sfx, compress, rr);
    rr' := RR(owner', rr.rtype, rr.cls, WireTtl(rr.ttl), d');
    var buf1 := buf + owner.bytes;
    var fixed := B.FixedBytes(rr, |d.bytes|);
    var whole := buf + e.bytes;
    Regroup(buf, owner.bytes, fixed, d.bytes);
    DecodeNameAppend(buf1, fixed + d.bytes, |buf|);
    FixedReads(buf1, rr, |d.bytes|, d.bytes);
    assert |buf1 + fixed| == |buf1| + RR_FIXED_SIZE;
    RecordDecodes(whole, |buf|, |buf1|, |buf1 + fixed|, owner', rr, d', additional, edns);
  }

  lemma RecordDecodes(msg: Bytes, pos: nat, p: nat, start: nat, owner: Name, rr: RR, d: RData,
                      additional: bool, edns: Option<EdnsInfo>)
    requires start == p + RR_FIXED_SIZE <= |msg| && rr.rtype != TYPE_OPT
    requires DecodeName(msg, pos) == Ok((owner, p))
    requires LoadU16(msg, p) == rr.rtype && LoadU16(msg, p + 2) == rr.cls
    requires LoadU32(msg, p + 4) == rr.ttl && LoadU16(msg, p + 8) == |msg| - start
    requires DecodeRdata(msg, start, |msg|, rr.rtype, rr.cls) == Ok(d)
    ensures DecodeRecord(msg, pos, additional, edns)
         == Ok(Section([RR(owner, rr.rtype, rr.cls, WireTtl(rr.ttl), d)], edns, |msg|))
  {
    BodyDecodes(msg, p, start, owner, rr, d, additional, edns);
  }

  lemma BodyDecodes(
    msg: Bytes, p: nat, start: nat, owner: Name, rr: RR, d: RData, additional: bool, edns: Option<EdnsInfo>)
    requires start == p + RR_FIXED_SIZE <= |msg| && rr.rtype != TYPE_OPT
    requires LoadU16(msg, p) == rr.rtype && LoadU16(msg, p + 2) == rr.cls
    requires LoadU32(msg, p + 4) == rr.ttl && LoadU16(msg, p + 8) == |msg| - start
    requires DecodeRdata(msg, start, |msg|, rr.rtype, rr.cls) == Ok(d)
    ensures DecodeRecordBody(msg, owner, p, additional, edns)
         == Ok(Section([RR(owner, rr.rtype, rr.cls, WireTtl(rr.ttl), d)], edns, |msg|))
  {
  }

  lemma RecordGrows(buf: Bytes, sfx: Suffixes, compress: bool, rr: RR)
    returns (e: Emission, owner: Emission, d: Emission, owner': Name, d': RData)
    requires B.ValidRR(rr) && Good(buf, sfx)
    ensures e == B.EmitRR(|buf|, sfx, compress, rr) && Grown(buf, sfx, e)
    ensures |owner.bytes| >= 1
    ensures e.bytes == owner.bytes + B.FixedBytes(rr, |d.bytes|) + d.bytes
    ensures DecodeName(buf + owner.bytes, |buf|) == Ok((owner', |buf + owner.bytes|))
    ensures SameName(compress, owner', rr.name)
    ensures Codable(rr) ==>
            var buf2 := buf + owner.bytes + B.FixedBytes(rr, |d.bytes|);
            && DecodeRdata(buf2 + d.bytes, |buf2|, |buf2 + d.bytes|, rr.rtype, rr.cls) == Ok(d')
            && SameRData(compress, d', rr.rdata)
  {
    owner, owner' := NameReads(buf, sfx, compress, rr.name);
    var buf1 := buf + owner.bytes;
    var off := |buf1| + 10;
    var rdlen := |B.EmitRdata(off, owner.suffixes, compress, rr.rdata).bytes|;
    var fixed := B.FixedBytes(rr, rdlen);
    var buf2 := buf1 + fixed;
    GrownPlain(buf1, owner.suffixes, fixed);
    assert |buf2| == off;
    d, d' := RdataReads(buf2, owner.suffixes, compress, rr.rtype, rr.cls, rr.rdata);
    e := Emission(owner.bytes + fixed + d.bytes, d.suffixes);
    assert |buf| + |owner.bytes| + 10 == off;
    GrownThen(buf, sfx, owner, Emission(fixed, owner.suffixes));
    Regroup(buf, owner.bytes, fixed, []);
    GrownThen(buf, sfx, Emission(owner.bytes + fixed, owner.suffixes), d);
  }

  lemma QuestionReads(buf: Bytes, sfx: Suffixes, compress: bool, q: Question) returns (e: Emission, q': Question)
    requires q.qname.Valid() && Good(buf, sfx)
    ensures e == B.EmitQuestion(|buf|, sfx, compress, q) && Grown(buf, sfx, e) && |e.bytes| >= MIN_QUESTION_SIZE
    ensures DecodeQuestion(buf + e.bytes, |buf|) == Ok((q', |buf + e.bytes|)) && SameQuestion(compress, q', q)
  {
    var n, qname := NameReads(buf, sfx, compress, q.qname);
    var buf1 := buf + n.bytes;
    var t, c := U16(q.qtype), U16(q.qclass);
    e := Emission(n.bytes + t + c, n.suffixes);
    GrownPlain(buf1, n.suffixes, t + c);
    GrownThen(buf, sfx, n, Emission(t + c, n.suffixes));
    assert n.bytes + (t + c) == e.bytes;
    assert buf + e.bytes == buf1 + (t + c);
    DecodeNameAppend(buf1, t + c, |buf|);
    assert buf1 + (t + c) == buf1 + t + c;
    LoadsU16(buf1, q.qtype, c);
    assert buf1 + (t + c) == (buf1 + t) + c + [];
    LoadsU16(buf1 + t, q.qclass, []);
    q' := Question(qname, q.qtype, q.qclass);
  }
}
