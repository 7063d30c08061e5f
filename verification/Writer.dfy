/** The builder's code (core/wire/builder.cpp): a growing buffer and a map of
    the suffixes in it, appended to, patched and rolled back. */
module MessageWriter {
  import opened DnsTypes
  import opened WireName
  import opened NameWriter
  import opened Emitting
  import opened WireRecords
  import opened WireSections
  import B = WireBuilder

  /** The suffixes that rolling back to `mark` keeps. */
  function RolledBack(sfx: Suffixes, mark: nat): Suffixes {
    map k | k in sfx && sfx[k] < mark :: sfx[k]
  }

  /** Rolling back to where something was begun undoes it exactly. */
  lemma RollbackRestores(buf: Bytes, sfx: Suffixes, e: Emission)
    requires Good(buf, sfx) && Grown(buf, sfx, e)
    ensures (buf + e.bytes)[..|buf|] == buf
    ensures RolledBack(e.suffixes, |buf|) == sfx
  {
  }

  function StoreU16(b: Bytes, off: nat, v: u16): (r: Bytes)
    requires off + 2 <= |b|
    ensures |r| == |b|
  {
    b[off := v / 256][off + 1 := v % 256]
  }

  lemma StorePatches(pre: Bytes, hole: Bytes, post: Bytes, v: u16)
    requires |hole| == 2
    ensures StoreU16(pre + hole + post, |pre|, v) == pre + U16(v) + post
  {
  }

  class Writer {
    const compress: bool
    var out: Bytes
    var suffixes: Suffixes

    /** Each suffix offset fits a pointer, and reading there yields that suffix
        from bytes already written. */
    ghost predicate Valid()
      reads this
    {
      Good(out, suffixes)
    }

    /** The buffer starts with room for the header. */
    constructor (compress: bool)
      ensures this.compress == compress && Valid()
      ensures out == seq(B.HEADER_SIZE, _ => 0) && suffixes == map[]
    {
      this.compress := compress;
      out := seq(B.HEADER_SIZE, _ => 0);
      suffixes := map[];
    }

    method Rollback(mark: nat)
      requires mark <= |out|
      modifies this
      ensures out == old(out)[..mark] && suffixes == RolledBack(old(suffixes), mark)
    {
      out := out[..mark];
      suffixes := map k | k in suffixes && suffixes[k] < mark :: suffixes[k];
    }

    method Put(bytes: Bytes)
      requires Valid()
      modifies this`out
      ensures Valid() && out == old(out) + bytes
    {
      GrownPlain(out, suffixes, bytes);
      out := out + bytes;
    }

    /** The loop goes from the root up: each key extends the one before. */
    static method Keys(labels: seq<Label>) returns (keys: seq<Bytes>)
      ensures keys == SuffixKeys(labels)
    {
      keys := [];
      var i := |labels|;
      while i > 0
        invariant 0 <= i <= |labels|
        invariant keys == SuffixKeys(labels[i..])
      {
        i := i - 1;
        assert labels[i..][1..] == labels[i + 1..];
        var key := LabelBytes(labels[i]);
        if i + 1 < |labels| {
          key := key + keys[0];
        }
        assert key == SuffixKey(labels[i..]) by {
          if i + 1 == |labels| { assert LabelBytes(labels[i]) + [] == LabelBytes(labels[i]); }
        }
        keys := [key] + keys;
      }
      assert labels[0..] == labels;
    }

    /** The loop of Writer::name: labels until a known suffix, or the root. */
    method Labels(text: seq<Label>, keys: seq<Bytes>, ghost e: Emission)
      requires |text| == |keys| && e == EmitLabels(|out|, suffixes, compress, text, keys)
      modifies this
      ensures out == old(out) + e.bytes && suffixes == e.suffixes
    {
      var i := 0;
      assert text[0..] == text && keys[0..] == keys;
      ghost var rest := e;
      while i < |text|
        invariant 0 <= i <= |text|
        invariant rest == EmitLabels(|out|, suffixes, compress, text[i..], keys[i..])
        invariant out + rest.bytes == old(out) + e.bytes && rest.suffixes == e.suffixes
      {
        ghost var out0 := out;
        assert text[i..][0] == text[i] && text[i..][1..] == text[i + 1..];
        assert keys[i..][0] == keys[i] && keys[i..][1..] == keys[i + 1..];
        if compress && keys[i] in suffixes {
          out := out + PointerBytes(suffixes[keys[i]]);
          return;
        }
        ghost var off := |out| + |LabelBytes(text[i])|;
        ghost var next := EmitLabels(off, Recorded(|out|, suffixes, compress, keys[i]), compress, text[i + 1..],
                                     keys[i + 1..]);
        EmitUnfold(|out|, off, suffixes, compress, text[i..], keys[i..], next);
        assert out + (LabelBytes(text[i]) + next.bytes) == (out + LabelBytes(text[i])) + next.bytes;
        if compress && |out| <= MAX_POINTER_OFFSET {
          suffixes := suffixes[keys[i] := |out|];
        }
        out := out + LabelBytes(text[i]);
        rest := next;
        i := i + 1;
      }
      assert text[i..] == [];
      out := out + [0];
    }

    /** Writer::name */
    method Name(n: Name) returns (ghost e: Emission)
      requires Valid() && n.Valid()
      modifies this
      ensures e == EmitName(|old(out)|, old(suffixes), compress, n)
      ensures out == old(out) + e.bytes && suffixes == e.suffixes
      ensures Valid() && Grown(old(out), old(suffixes), e)
    {
      var keys: seq<Bytes> := seq(|n.labels|, _ => []);
      if compress {
        keys := Keys(n.labels);
      }
      ghost var n';
      e, n' := NameReads(out, suffixes, compress, n);
      NoKeysNeeded(|out|, suffixes, compress, n.Text(), keys, SuffixKeys(n.labels));
      Labels(n.Text(), keys, e);
    }

    /** Writer::question */
    method Question(q: Question) returns (ghost e: Emission)
      requires Valid() && q.qname.Valid()
      modifies this
      ensures e == B.EmitQuestion(|old(out)|, old(suffixes), compress, q)
      ensures out == old(out) + e.bytes && suffixes == e.suffixes
      ensures Valid() && Grown(old(out), old(suffixes), e)
    {
      ghost var q';
      e, q' := QuestionReads(out, suffixes, compress, q);
      ghost var n := Name(q.qname);
      Put(U16(q.qtype));
      Put(U16(q.qclass));
      Regroup(old(out), n.bytes, U16(q.qtype), U16(q.qclass));
    }

    /** The RDATA visitor of Writer::rr. */
    method RDataOf(d: RData) returns (ghost e: Emission)
      requires Valid() && B.ValidRData(d)
      modifies this
      ensures e == B.EmitRdata(|old(out)|, old(suffixes), compress, d)
      ensures out == old(out) + e.bytes && suffixes == e.suffixes
      ensures Valid()
    {
      match d
      case RDataA(addr) =>
        Put(addr);
        e := Emission(addr, suffixes);
      case RDataAAAA(addr) =>
        Put(addr);
        e := Emission(addr, suffixes);
      case RDataNS(n) => e := Name(n);
      case RDataCNAME(n) => e := Name(n);
      case RDataPTR(n) => e := Name(n);
      case RDataMX(preference, n) =>
        Put(U16(preference));
        e := Name(n);
        Regroup(old(out), U16(preference), e.bytes, []);
        e := Emission(U16(preference) + e.bytes, e.suffixes);
      case RDataSOA(m, r, _, _, _, _, _) =>
        e := Soa(d);
      case RDataTXT(strings) =>
        e := Strings(strings);
      case RDataRaw(data) =>
        Put(data);
        e := Emission(data, suffixes);
    }

    method Soa(d: RData) returns (ghost e: Emission)
      requires Valid() && d.RDataSOA? && B.ValidRData(d)
      modifies this
      ensures e == B.EmitSoa(|old(out)|, old(suffixes), compress, d)
      ensures out == old(out) + e.bytes && suffixes == e.suffixes
      ensures Valid()
    {
      ghost var m := Name(d.mname);
      ghost var r := Name(d.rname);
      var numbers := U32(d.serial) + U32(d.refresh) + U32(d.retry) + U32(d.expire) + U32(d.minimum);
      Put(numbers);
      Regroup(old(out), m.bytes, r.bytes, numbers);
      e := Emission(m.bytes + r.bytes + numbers, r.suffixes);
    }

    method Strings(strings: seq<Bytes>) returns (ghost e: Emission)
      requires Valid()
      modifies this`out
      ensures e == Emission(B.StringBytes(strings), suffixes)
      ensures out == old(out) + e.bytes && Valid()
    {
      var i := 0;
      assert strings[0..] == strings;
      while i < |strings|
        invariant 0 <= i <= |strings| && Valid()
        invariant out + B.StringBytes(strings[i..]) == old(out) + B.StringBytes(strings)
      {
        assert strings[i..][1..] == strings[i + 1..];
        Regroup(out, LabelBytes(strings[i]), B.StringBytes(strings[i + 1..]), []);
        Put(LabelBytes(strings[i]));
        i := i + 1;
      }
      assert strings[i..] == [];
      assert out + [] == out;
      e := Emission(B.StringBytes(strings), suffixes);
    }

    /** Writer::rr: RDLENGTH is written as zero and patched once known. */
    method Record(rr: RR) returns (ghost e: Emission)
      requires Valid() && B.ValidRR(rr)
      modifies this
      ensures e == B.EmitRR(|old(out)|, old(suffixes), compress, rr)
      ensures out == old(out) + e.bytes && suffixes == e.suffixes
      ensures Valid() && Grown(old(out), old(suffixes), e)
    {
      ghost var owner, d, owner', d';
      e, owner, d, owner', d' := RecordGrows(out, suffixes, compress, rr);
      ghost var n := Name(rr.name);
      var fixed := U16(rr.rtype) + U16(rr.cls) + U32(rr.ttl);
      Put(fixed);
      var rdlenAt := |out|;
      ghost var pre := out;
      Put(U16(0));
      ghost var r := RDataOf(rr.rdata);
      var rdlen := |out| - rdlenAt - 2;
      out := StoreU16(out, rdlenAt, rdlen % 0x1_0000);
      StorePatches(pre, U16(0), r.bytes, rdlen % 0x1_0000);
      RecordBytes(old(out), n.bytes, rr, r.bytes);
    }

    method RecordBy(ghost step: Step<RR>, rr: RR) returns (ghost e: Emission)
      requires IsRRStep(step, compress) && Valid() && B.ValidRR(rr)
      modifies this
      ensures e == step(|old(out)|, old(suffixes), rr)
      ensures out == old(out) + e.bytes && suffixes == e.suffixes
      ensures Valid() && Grown(old(out), old(suffixes), e)
    {
      e := Record(rr);
    }

    /** The records of one RRset. */
    method Records(ghost step: Step<RR>, rrs: seq<RR>) returns (ghost e: Emission)
      requires IsRRStep(step, compress) && Valid() && B.ValidRRs(rrs)
      modifies this
      ensures e == EmitAll(step, |old(out)|, old(suffixes), rrs)
      ensures out == old(out) + e.bytes && suffixes == e.suffixes
      ensures Valid() && Grown(old(out), old(suffixes), e)
    {
      var k := 0;
      e := Emission([], suffixes);
      GrownPlain(out, suffixes, []);
      assert rrs[..0] == [];
      while k < |rrs|
        invariant 0 <= k <= |rrs| && Valid()
        invariant e == EmitAll(step, |old(out)|, old(suffixes), rrs[..k])
        invariant out == old(out) + e.bytes && suffixes == e.suffixes && Grown(old(out), old(suffixes), e)
      {
        ghost var one := RecordBy(step, rrs[k]);
        e := OneMore(step, old(out), old(suffixes), rrs, k, e, one);
        k := k + 1;
      }
      assert rrs[..k] == rrs;
    }

    /** write_section: whole RRsets until one does not fit. `kept` is how many
        records were written; the count returned is 16 bits wide. */
    method Section(ghost step: Step<RR>, rrs: seq<RR>, limit: nat)
      returns (count: u16, complete: bool, ghost kept: nat, ghost e: Emission)
      requires IsRRStep(step, compress) && Valid() && B.ValidRRs(rrs)
      modifies this
      ensures kept == Fit(step, B.SameRRset, |old(out)|, old(suffixes), rrs, limit) <= |rrs|
      ensures count == kept % 0x1_0000 && complete == (kept == |rrs|)
      ensures e == EmitAll(step, |old(out)|, old(suffixes), rrs[..kept])
      ensures out == old(out) + e.bytes && suffixes == e.suffixes
      ensures Valid()
    {
      hide Fit, EmitAll, RunLength, Grown, Good, RolledBack, B.SameRRset;
      count := 0;
      var i := 0;
      e := EmitAll(step, |out|, suffixes, []);
      NoneEmitted(step, |out|, suffixes);
      assert rrs[..0] == [] && rrs[0..] == rrs && out + [] == out;
      ghost var total := Fit(step, B.SameRRset, |out|, suffixes, rrs, limit);
      ghost var left := total;
      while i < |rrs|
        invariant 0 <= i <= |rrs| && Valid() && count == i % 0x1_0000
        invariant e == EmitAll(step, |old(out)|, old(suffixes), rrs[..i])
        invariant out == old(out) + e.bytes && suffixes == e.suffixes
        invariant total == i + left && left == Fit(step, B.SameRRset, |out|, suffixes, rrs[i..], limit)
      {
        var j := RunEnd(rrs, i);
        var mark := |out|;
        ghost var out0, sfx0 := out, suffixes;
        ghost var run := Records(step, rrs[i..j]);
        if |out| > limit {
          RollbackRestores(out0, sfx0, run);
          Rollback(mark);
          assert rrs[i..j] == rrs[i..][..j - i];
          FitNone(step, B.SameRRset, |out0|, sfx0, rrs[i..], limit, j - i, run);
          kept, complete := i, false;
          return;
        }
        e, left := SectionGrows(step, old(out), old(suffixes), rrs, limit, i, j, out0, sfx0, e, run);
        count := AddCount(count, i, j);
        i := j;
      }
      complete, kept := true, i;
    }

    method QuestionBy(ghost step: Step<Question>, q: Question) returns (ghost e: Emission)
      requires IsQuestionStep(step, compress) && Valid() && q.qname.Valid()
      modifies this
      ensures e == step(|old(out)|, old(suffixes), q)
      ensures out == old(out) + e.bytes && suffixes == e.suffixes
      ensures Valid() && Grown(old(out), old(suffixes), e)
    {
      e := Question(q);
    }

    /** The questions, until one does not fit. */
    method Questions(ghost step: Step<Question>, qs: seq<Question>, limit: nat)
      returns (count: u16, complete: bool, ghost kept: nat, ghost e: Emission)
      requires IsQuestionStep(step, compress) && Valid() && B.ValidQuestions(qs)
      modifies this
      ensures kept == Fit(step, B.SameGroup, |old(out)|, old(suffixes), qs, limit) <= |qs|
      ensures count == kept % 0x1_0000 && complete == (kept == |qs|)
      ensures e == EmitAll(step, |old(out)|, old(suffixes), qs[..kept])
      ensures out == old(out) + e.bytes && suffixes == e.suffixes
      ensures Valid()
    {
      count := 0;
      var i := 0;
      e := Emission([], suffixes);
      assert qs[..0] == [] && qs[0..] == qs;
      ghost var total := Fit(step, B.SameGroup, |out|, suffixes, qs, limit);
      ghost var left := total;
      while i < |qs|
        invariant 0 <= i <= |qs| && Valid() && count == i % 0x1_0000
        invariant e == EmitAll(step, |old(out)|, old(suffixes), qs[..i])
        invariant out == old(out) + e.bytes && suffixes == e.suffixes
        invariant total == i + left && left == Fit(step, B.SameGroup, |out|, suffixes, qs[i..], limit)
      {
        var mark := |out|;
        ghost var out0, sfx0 := out, suffixes;
        ghost var one := QuestionBy(step, qs[i]);
        OneRun(step, |out0|, sfx0, qs[i..], one);
        if |out| > limit {
          RollbackRestores(out0, sfx0, one);
          Rollback(mark);
          FitNone(step, B.SameGroup, |out0|, sfx0, qs[i..], limit, 1, one);
          kept, complete := i, false;
          return;
        }
        e, left := QuestionsGrow(step, old(out), old(suffixes), qs, limit, i, out0, sfx0, e, one);
        count := AddCount(count, i, i + 1);
        i := i + 1;
      }
      complete, kept := true, i;
    }

    /** write_header: the room left for the header is filled in place. */
    method FillHeader(h: Header)
      requires |out| >= B.HEADER_SIZE
      modifies this`out
      ensures out == B.HeaderBytes(h) + old(out)[B.HEADER_SIZE..]
    {
      out := StoreU16(out, 0, h.id);
      var b2: u8 := B.Flag(h.qr, 128) as int + h.opcode % 16 * 8 + B.Flag(h.aa, 4) + B.Flag(h.tc, 2) + B.Flag(h.rd, 1);
      var b3: u8 := B.Flag(h.ra, 128) as int + B.Flag(h.ad, 32) + B.Flag(h.cd, 16) + h.rcode % 16;
      out := out[2 := b2][3 := b3];
      out := StoreU16(out, 4, h.qdcount);
      out := StoreU16(out, 6, h.ancount);
      out := StoreU16(out, 8, h.nscount);
      out := StoreU16(out, 10, h.arcount);
    }
  }

  lemma OneRun(step: Step<Question>, off: nat, sfx: Suffixes, qs: seq<Question>, one: Emission)
    requires qs != [] && one == step(off, sfx, qs[0])
    ensures RunLength(B.SameGroup, qs) == 1 && one == EmitAll(step, off, sfx, qs[..1])
  {
    EmitAllOne(step, off, sfx, qs[0]);
    assert qs[..1] == [qs[0]];
    assert |qs| > 1 ==> !B.SameGroup(qs[0], qs[1]);
  }

  lemma QuestionsGrow(step: Step<Question>, buf: Bytes, sfx: Suffixes, qs: seq<Question>, limit: nat, i: nat,
                      out0: Bytes, sfx0: Suffixes, e: Emission, one: Emission)
    returns (f: Emission, left: nat)
    requires i < |qs| && e == EmitAll(step, |buf|, sfx, qs[..i]) && out0 == buf + e.bytes && sfx0 == e.suffixes
    requires one == step(|out0|, sfx0, qs[i]) && |out0 + one.bytes| <= limit
    ensures f == EmitAll(step, |buf|, sfx, qs[..i + 1])
    ensures out0 + one.bytes == buf + f.bytes && one.suffixes == f.suffixes
    ensures left == Fit(step, B.SameGroup, |out0 + one.bytes|, one.suffixes, qs[i + 1..], limit)
    ensures Fit(step, B.SameGroup, |out0|, sfx0, qs[i..], limit) == 1 + left
  {
    var _, _ := EmitAllConcat(step, |buf|, sfx, qs[..i], [qs[i]]);
    EmitAllOne(step, |out0|, sfx0, qs[i]);
    assert qs[..i] + [qs[i]] == qs[..i + 1];
    f := Emission(e.bytes + one.bytes, one.suffixes);
    Regroup(buf, e.bytes, one.bytes, []);
    OneRun(step, |out0|, sfx0, qs[i..], one);
    assert qs[i..][1..] == qs[i + 1..];
    var off1 := |out0 + one.bytes|;
    left := Fit(step, B.SameGroup, off1, one.suffixes, qs[i..][1..], limit);
    FitUnfold(step, B.SameGroup, |out0|, sfx0, qs[i..], limit, 1, one, off1, left);
  }

  /** What the writer holds is the room for the header and a draft. */
  ghost predicate Holds(out: Bytes, sfx: Suffixes, draft: B.Draft) {
    |out| == draft.Size() && out[B.HEADER_SIZE..] == draft.body && sfx == draft.suffixes
  }

  lemma HoldsMore<T>(out: Bytes, sfx: Suffixes, draft: B.Draft, step: Step<T>, items: seq<T>, e: Emission)
    requires Holds(out, sfx, draft) && e == EmitAll(step, |out|, sfx, items)
    ensures Holds(out + e.bytes, e.suffixes, draft.Add(step, items))
  {
    assert (out + e.bytes)[B.HEADER_SIZE..] == out[B.HEADER_SIZE..] + e.bytes;
  }

  lemma AddNothing<T>(draft: B.Draft, step: Step<T>, items: seq<T>)
    ensures draft.Add(step, items[..0]) == draft
  {
    assert items[..0] == [];
    assert draft.body + [] == draft.body;
  }

  /** A section, unless an earlier one was already cut. */
  method SectionUnless(truncated: bool, w: Writer, ghost step: Step<RR>, rrs: seq<RR>, limit: nat, ghost draft: B.Draft)
    returns (count: u16, complete: bool, ghost kept: nat, ghost draft': B.Draft)
    requires IsRRStep(step, w.compress) && w.Valid() && B.ValidRRs(rrs) && Holds(w.out, w.suffixes, draft)
    modifies w
    ensures w.Valid() && kept == B.FitIn(step, B.SameRRset, draft, rrs, limit, !truncated)
    ensures kept <= |rrs| && count == kept % 0x1_0000 && (!truncated ==> complete == (kept == |rrs|))
    ensures draft' == draft.Add(step, rrs[..kept]) && Holds(w.out, w.suffixes, draft')
  {
    if truncated {
      AddNothing(draft, step, rrs);
      return 0, false, 0, draft;
    }
    ghost var e;
    count, complete, kept, e := w.Section(step, rrs, limit);
    HoldsMore(old(w.out), old(w.suffixes), draft, step, rrs[..kept], e);
    draft' := draft.Add(step, rrs[..kept]);
  }

  /** The four sections; their counts, and whether one before the additional
      section was cut. */
  method Sections(w: Writer, ghost qstep: Step<Question>, ghost step: Step<RR>, m: Message, limit: nat)
    returns (qd: u16, an: u16, ns: u16, ar: u16, truncated: bool, ghost cut: B.Cut, ghost draft: B.Draft)
    requires B.ValidMessage(m) && IsQuestionStep(qstep, w.compress) && IsRRStep(step, w.compress)
    requires w.Valid() && Holds(w.out, w.suffixes, B.EMPTY_DRAFT)
    modifies w
    ensures w.Valid() && cut == B.CutBy(qstep, step, m, limit)
    ensures draft == B.DraftBy(qstep, step, m, cut) && Holds(w.out, w.suffixes, draft)
    ensures qd == cut.questions % 0x1_0000 && an == cut.answers % 0x1_0000
    ensures ns == cut.authority % 0x1_0000 && ar == cut.additional % 0x1_0000
    ensures truncated == cut.Truncates(m)
  {
    ghost var q, a, u, d, e, w1, w2, w3;
    var all, more;
    qd, all, q, e := w.Questions(qstep, m.questions, limit);
    HoldsMore(old(w.out), old(w.suffixes), B.EMPTY_DRAFT, qstep, m.questions[..q], e);
    w1 := B.EMPTY_DRAFT.Add(qstep, m.questions[..q]);
    truncated := !all;
    an, all, a, w2 := SectionUnless(truncated, w, step, m.answers, limit, w1);
    truncated := truncated || !all;
    ns, all, u, w3 := SectionUnless(truncated, w, step, m.authority, limit, w2);
    truncated := truncated || !all;
    ar, more, d, draft := SectionUnless(truncated, w, step, m.additional, limit, w3);
    cut := B.Cut(q, a, u, d);
  }

  method BuildBy(ghost qstep: Step<Question>, ghost step: Step<RR>, m: Message, limit: nat, compress: bool)
    returns (bytes: Bytes, ghost cut: B.Cut, ghost draft: B.Draft)
    requires B.ValidMessage(m) && IsQuestionStep(qstep, compress) && IsRRStep(step, compress)
    ensures cut == B.CutBy(qstep, step, m, limit) && draft == B.DraftBy(qstep, step, m, cut)
    ensures bytes == B.HeaderBytes(B.FinalHeader(m, cut)) + draft.body + B.EdnsBytes(m.edns)
  {
    var w := new Writer(compress);
    var qd, an, ns, ar, truncated;
    qd, an, ns, ar, truncated, cut, draft := Sections(w, qstep, step, m, limit);
    bytes := Finish(w, m, qd, an, ns, ar, truncated, cut, draft.body);
  }

  /** The OPT, which always fits, and then the header. */
  method Finish(
    w: Writer, m: Message, qd: u16, an: u16, ns: u16, ar: u16, truncated: bool, ghost cut: B.Cut, ghost body: Bytes)
    returns (bytes: Bytes)
    requires w.Valid() && |w.out| >= B.HEADER_SIZE && w.out[B.HEADER_SIZE..] == body
    requires qd == cut.questions % 0x1_0000 && an == cut.answers % 0x1_0000
    requires ns == cut.authority % 0x1_0000 && ar == cut.additional % 0x1_0000
    requires truncated == cut.Truncates(m)
    modifies w
    ensures bytes == B.HeaderBytes(B.FinalHeader(m, cut)) + body + B.EdnsBytes(m.edns)
  {
    var arcount := ar;
    if m.edns.Some? {
      w.Put(B.OptBytes(m.edns.value));
      CountOne(ar, cut.additional);
      arcount := (ar as int + 1) % 0x1_0000;
    }
    assert w.out[B.HEADER_SIZE..] == body + B.EdnsBytes(m.edns);
    var h := m.header.(qdcount := qd, ancount := an, nscount := ns, arcount := arcount, tc := m.header.tc || truncated);
    assert h == B.FinalHeader(m, cut);
    w.FillHeader(h);
    bytes := w.out;
    Regroup(B.HeaderBytes(h), body, B.EdnsBytes(m.edns), []);
  }

  /** build_message */
  method BuildMessage(m: Message, maxSize: nat, compress: bool) returns (bytes: Bytes)
    requires B.ValidMessage(m) && maxSize >= B.OPT_RECORD_SIZE
    ensures bytes == B.BuildMessage(m, maxSize, compress)
  {
    ghost var cut, draft;
    bytes, cut, draft := BuildBy(B.QuestionStep(compress), B.RRStep(compress), m, B.Limit(m, maxSize), compress);
  }

  /** build */
  method Build(m: Message, maxSize: u16, compress: bool) returns (bytes: Bytes)
    requires B.ValidMessage(m)
    ensures bytes == B.Build(m, maxSize, compress)
  {
    bytes := BuildMessage(m, B.Max(maxSize, B.CLASSIC_UDP_SIZE), compress);
  }

  /** build_tcp */
  method BuildTcp(m: Message, compress: bool) returns (bytes: Bytes)
    requires B.ValidMessage(m)
    ensures bytes == B.BuildTcp(m, compress)
  {
    bytes := BuildMessage(m, B.MAX_TCP_MESSAGE, compress);
    bytes := U16(|bytes| % 0x1_0000) + bytes;
  }

  lemma CountOne(count: u16, n: nat)
    requires count == n % 0x1_0000
    ensures (count as int + 1) % 0x1_0000 == (n + 1) % 0x1_0000
  {
    assert AddCount(count, n, n + 1) == (n + 1) % 0x1_0000;
  }

  /** The 16-bit count, after the records up to `j`. */
  function AddCount(count: u16, i: nat, j: nat): (r: u16)
    requires i <= j && count == i % 0x1_0000
    ensures r == j % 0x1_0000
  {
    assert j == count + (j - i) + 0x1_0000 * (i / 0x1_0000);
    (count as int + (j - i)) % 0x1_0000
  }

  lemma OneMore(
    step: Step<RR>, buf: Bytes, sfx: Suffixes, rrs: seq<RR>, k: nat, e: Emission, one: Emission) returns (f: Emission)
    requires k < |rrs| && e == EmitAll(step, |buf|, sfx, rrs[..k]) && one == step(|buf + e.bytes|, e.suffixes, rrs[k])
    requires Grown(buf, sfx, e) && Grown(buf + e.bytes, e.suffixes, one)
    ensures f == EmitAll(step, |buf|, sfx, rrs[..k + 1]) && f == Emission(e.bytes + one.bytes, one.suffixes)
    ensures buf + f.bytes == buf + e.bytes + one.bytes && Grown(buf, sfx, f)
  {
    var _, _ := EmitAllConcat(step, |buf|, sfx, rrs[..k], [rrs[k]]);
    EmitAllOne(step, |buf + e.bytes|, e.suffixes, rrs[k]);
    assert rrs[..k] + [rrs[k]] == rrs[..k + 1];
    f := Emission(e.bytes + one.bytes, one.suffixes);
    GrownThen(buf, sfx, e, one);
    Regroup(buf, e.bytes, one.bytes, []);
  }

  lemma FitNone<T>(
    step: Step<T>, same: (T, T) -> bool, off: nat, sfx: Suffixes, items: seq<T>, limit: nat, j: nat, e: Emission)
    requires items != [] && j == RunLength(same, items) && e == EmitAll(step, off, sfx, items[..j])
    requires off + |e.bytes| > limit
    ensures Fit(step, same, off, sfx, items, limit) == 0
  {
  }

  lemma NoneEmitted<T>(step: Step<T>, off: nat, sfx: Suffixes)
    ensures EmitAll(step, off, sfx, []) == Emission([], sfx)
  {
  }

  lemma SectionGrows(step: Step<RR>, buf: Bytes, sfx: Suffixes, rrs: seq<RR>, limit: nat, i: nat, j: nat,
                     out0: Bytes, sfx0: Suffixes, e: Emission, run: Emission)
    returns (f: Emission, left: nat)
    requires i < j <= |rrs| && j - i == RunLength(B.SameRRset, rrs[i..])
    requires e == EmitAll(step, |buf|, sfx, rrs[..i]) && out0 == buf + e.bytes && sfx0 == e.suffixes
    requires run == EmitAll(step, |out0|, sfx0, rrs[i..j]) && |out0 + run.bytes| <= limit
    ensures f == EmitAll(step, |buf|, sfx, rrs[..j])
    ensures out0 + run.bytes == buf + f.bytes && run.suffixes == f.suffixes
    ensures left == Fit(step, B.SameRRset, |out0 + run.bytes|, run.suffixes, rrs[j..], limit)
    ensures Fit(step, B.SameRRset, |out0|, sfx0, rrs[i..], limit) == j - i + left
  {
    var _, _ := EmitAllConcat(step, |buf|, sfx, rrs[..i], rrs[i..j]);
    assert rrs[..i] + rrs[i..j] == rrs[..j];
    f := Emission(e.bytes + run.bytes, run.suffixes);
    Regroup(buf, e.bytes, run.bytes, []);
    assert rrs[i..][..j - i] == rrs[i..j] && rrs[i..][j - i..] == rrs[j..];
    var off1 := |out0 + run.bytes|;
    left := Fit(step, B.SameRRset, off1, run.suffixes, rrs[i..][j - i..], limit);
    FitUnfold(step, B.SameRRset, |out0|, sfx0, rrs[i..], limit, j - i, run, off1, left);
  }

  /** Where the RRset that begins at `i` ends. */
  method RunEnd(rrs: seq<RR>, i: nat) returns (j: nat)
    requires i < |rrs|
    ensures i < j <= |rrs| && j - i == RunLength(B.SameRRset, rrs[i..])
  {
    j := i + 1;
    while j < |rrs| && B.SameRRset(rrs[i], rrs[j])
      invariant i < j <= |rrs|
      invariant forall x :: 1 <= x < j - i ==> B.SameRRset(rrs[i..][0], rrs[i..][x])
      invariant RunFrom(B.SameRRset, rrs[i..], j - i) == RunLength(B.SameRRset, rrs[i..])
    {
      j := j + 1;
    }
  }

  lemma RecordBytes(buf: Bytes, owner: Bytes, rr: RR, rdata: Bytes)
    ensures buf + owner + (U16(rr.rtype) + U16(rr.cls) + U32(rr.ttl)) + U16(|rdata| % 0x1_0000) + rdata
         == buf + (owner + B.FixedBytes(rr, |rdata|) + rdata)
  {
    var a, b := U16(rr.rtype) + U16(rr.cls) + U32(rr.ttl), U16(|rdata| % 0x1_0000);
    assert B.FixedBytes(rr, |rdata|) == a + b;
    Regroup(buf + owner, a, b, rdata);
    Regroup(buf, owner, a + b, rdata);
  }

  /** Without compression the keys are never looked at. */
  lemma {:induction false} NoKeysNeeded(
    off: nat, sfx: Suffixes, compress: bool, text: seq<Label>, keys: seq<Bytes>, keys': seq<Bytes>)
    requires |text| == |keys| == |keys'| && (compress ==> keys == keys')
    ensures EmitLabels(off, sfx, compress, text, keys) == EmitLabels(off, sfx, compress, text, keys')
    decreases |text|
  {
    if text != [] && !compress {
      NoKeysNeeded(off + |LabelBytes(text[0])|, sfx, compress, text[1..], keys[1..], keys'[1..]);
    }
  }
}
