/** Whole sections read back. The message they stand in is fixed beforehand:
    what is written for a section is somewhere in it, after what came before. */
module WireSections {
  import opened DnsTypes
  import opened WireName
  import opened NameWriter
  import opened Emitting
  import opened WireParser
  import opened WireRecords
  import B = WireBuilder

  predicate SameRRs(compress: bool, a: seq<RR>, b: seq<RR>) {
    |a| == |b| && forall i :: 0 <= i < |a| ==> SameRR(compress, a[i], b[i])
  }

  predicate SameQuestions(compress: bool, a: seq<Question>, b: seq<Question>) {
    |a| == |b| && forall i :: 0 <= i < |a| ==> SameQuestion(compress, a[i], b[i])
  }

  ghost predicate IsRRStep(step: Step<RR>, compress: bool) {
    forall off: nat, sfx: Suffixes, rr {:trigger B.EmitRR(off, sfx, compress, rr)} ::
      step(off, sfx, rr) == B.EmitRR(off, sfx, compress, rr)
  }

  ghost predicate IsQuestionStep(step: Step<Question>, compress: bool) {
    forall off: nat, sfx: Suffixes, q {:trigger B.EmitQuestion(off, sfx, compress, q)} ::
      step(off, sfx, q) == B.EmitQuestion(off, sfx, compress, q)
  }

  ghost predicate ReadsQuestionsOf(dec: QuestionDecoder, msg: Bytes) {
    forall pos: nat {:trigger DecodeQuestion(msg, pos)} :: dec(pos) == DecodeQuestion(msg, pos)
  }

  lemma LaterRecordSame(buf: Bytes, msg: Bytes, pos: nat, additional: bool, edns: Option<EdnsInfo>)
    requires buf <= msg && DecodeRecord(buf, pos, additional, edns).Ok?
    ensures DecodeRecord(msg, pos, additional, edns) == DecodeRecord(buf, pos, additional, edns)
  {
    assert msg == buf + msg[|buf|..];
    DecodeRecordAppend(buf, msg[|buf|..], pos, additional, edns);
  }

  lemma LaterQuestionSame(buf: Bytes, msg: Bytes, pos: nat)
    requires buf <= msg && DecodeQuestion(buf, pos).Ok?
    ensures DecodeQuestion(msg, pos) == DecodeQuestion(buf, pos)
  {
    assert msg == buf + msg[|buf|..];
    DecodeQuestionAppend(buf, msg[|buf|..], pos);
  }

  // ─── Records ──────────────────────────────────────────────────────────────

  lemma RecordStepReads(
    step: Step<RR>, dec: RecordDecoder, msg: Bytes, buf: Bytes, sfx: Suffixes, compress: bool, rr: RR,
    additional: bool, edns: Option<EdnsInfo>)
    returns (e: Emission, rr': RR)
    requires IsRRStep(step, compress) && ReadsRecordsOf(dec, msg, additional)
    requires B.ValidRR(rr) && Codable(rr) && Good(buf, sfx)
    requires |step(|buf|, sfx, rr).bytes| < 0x1_0000 && buf + step(|buf|, sfx, rr).bytes <= msg
    ensures e == step(|buf|, sfx, rr) && Grown(buf, sfx, e) && |e.bytes| >= MIN_RR_SIZE
    ensures dec(|buf|, edns) == Ok(Section([rr'], edns, |buf + e.bytes|))
    ensures SameRR(compress, rr', rr)
  {
    assert step(|buf|, sfx, rr) == B.EmitRR(|buf|, sfx, compress, rr);
    e, rr' := RecordReads(buf, sfx, compress, rr, additional, edns);
    assert dec(|buf|, edns) == DecodeRecord(msg, |buf|, additional, edns);
    LaterRecordSame(buf + e.bytes, msg, |buf|, additional, edns);
  }

  lemma {:induction false} SectionReads(step: Step<RR>, dec: RecordDecoder, msg: Bytes, buf: Bytes, sfx: Suffixes,
                                        compress: bool, rrs: seq<RR>, additional: bool, edns: Option<EdnsInfo>)
    returns (e: Emission, rrs': seq<RR>)
    requires IsRRStep(step, compress) && ReadsRecordsOf(dec, msg, additional)
    requires B.ValidRRs(rrs) && CodableRRs(rrs) && Good(buf, sfx)
    requires |msg| < 0x1_0000 && buf + EmitAll(step, |buf|, sfx, rrs).bytes <= msg
    ensures e == EmitAll(step, |buf|, sfx, rrs) && Grown(buf, sfx, e) && |e.bytes| >= MIN_RR_SIZE * |rrs|
    ensures DecodeSection(dec, |buf|, |rrs|, edns) == Ok(Section(rrs', edns, |buf + e.bytes|))
    ensures SameRRs(compress, rrs', rrs)
    decreases |rrs|
  {
    if rrs == [] {
      e, rrs' := Emission([], sfx), [];
      assert buf + [] == buf;
    } else {
      PrefixOfFirst(step, msg, buf, sfx, rrs);
      var one, rr' := RecordStepReads(step, dec, msg, buf, sfx, compress, rrs[0], additional, edns);
      var mid := buf + one.bytes;
      var rest, tail := SectionReads(step, dec, msg, mid, one.suffixes, compress, rrs[1..], additional, edns);
      e, rrs' := Emission(one.bytes + rest.bytes, rest.suffixes), [rr'] + tail;
      SectionReadsCons(step, dec, buf, sfx, compress, rrs, edns, one, rr', rest, tail);
    }
  }

  lemma SectionReadsCons(step: Step<RR>, dec: RecordDecoder, buf: Bytes, sfx: Suffixes, compress: bool, rrs: seq<RR>,
                         edns: Option<EdnsInfo>, one: Emission, rr': RR, rest: Emission, tail: seq<RR>)
    requires rrs != [] && one == step(|buf|, sfx, rrs[0])
    requires rest == EmitAll(step, |buf + one.bytes|, one.suffixes, rrs[1..])
    requires Grown(buf, sfx, one) && Grown(buf + one.bytes, one.suffixes, rest)
    requires dec(|buf|, edns) == Ok(Section([rr'], edns, |buf + one.bytes|))
    requires DecodeSection(dec, |buf + one.bytes|, |rrs| - 1, edns)
             == Ok(Section(tail, edns, |buf + one.bytes + rest.bytes|))
    requires SameRR(compress, rr', rrs[0]) && SameRRs(compress, tail, rrs[1..])
    ensures var e := Emission(one.bytes + rest.bytes, rest.suffixes);
            && e == EmitAll(step, |buf|, sfx, rrs) && Grown(buf, sfx, e)
            && DecodeSection(dec, |buf|, |rrs|, edns) == Ok(Section([rr'] + tail, edns, |buf + e.bytes|))
            && SameRRs(compress, [rr'] + tail, rrs)
  {
    GrownThen(buf, sfx, one, rest);
    Regroup(buf, one.bytes, rest.bytes, []);
    SameCons(compress, rr', rrs[0], tail, rrs[1..]);
    assert [rrs[0]] + rrs[1..] == rrs;
    assert |buf + one.bytes| == |buf| + |one.bytes|;
    EmitAllCons(step, |buf|, sfx, rrs[0], rrs[1..], rest);
    SectionCons(dec, |buf|, |buf + one.bytes|, |rrs| - 1, edns, rr', tail, |buf + one.bytes + rest.bytes|);
  }

  lemma SectionCons(
    dec: RecordDecoder, pos: nat, mid: nat, count: nat, edns: Option<EdnsInfo>, rr: RR, rest: seq<RR>, end: nat)
    requires dec(pos, edns) == Ok(Section([rr], edns, mid))
    requires DecodeSection(dec, mid, count, edns) == Ok(Section(rest, edns, end))
    ensures DecodeSection(dec, pos, count + 1, edns) == Ok(Section([rr] + rest, edns, end))
  {
  }

  lemma SameCons(compress: bool, a: RR, b: RR, as': seq<RR>, bs: seq<RR>)
    requires SameRR(compress, a, b) && SameRRs(compress, as', bs)
    ensures SameRRs(compress, [a] + as', [b] + bs)
  {
  }

  /** If all of it is in the message, so are its first part and the rest. */
  lemma PrefixOfFirst<T>(step: Step<T>, msg: Bytes, buf: Bytes, sfx: Suffixes, items: seq<T>)
    requires items != [] && buf + EmitAll(step, |buf|, sfx, items).bytes <= msg
    ensures var one := step(|buf|, sfx, items[0]);
            var mid := buf + one.bytes;
            mid <= msg && mid + EmitAll(step, |mid|, one.suffixes, items[1..]).bytes <= msg
            && |mid| == |buf| + |one.bytes|
  {
    var one := step(|buf|, sfx, items[0]);
    var mid := buf + one.bytes;
    var rest := EmitAll(step, |buf| + |one.bytes|, one.suffixes, items[1..]);
    assert |mid| == |buf| + |one.bytes|;
    Regroup(buf, one.bytes, rest.bytes, []);
  }

  // ─── Questions ────────────────────────────────────────────────────────────

  lemma QuestionStepReads(
    step: Step<Question>, dec: QuestionDecoder, msg: Bytes, buf: Bytes, sfx: Suffixes, compress: bool, q: Question)
    returns (e: Emission, q': Question)
    requires IsQuestionStep(step, compress) && ReadsQuestionsOf(dec, msg)
    requires q.qname.Valid() && Good(buf, sfx) && buf + step(|buf|, sfx, q).bytes <= msg
    ensures e == step(|buf|, sfx, q) && Grown(buf, sfx, e) && |e.bytes| >= MIN_QUESTION_SIZE
    ensures dec(|buf|) == Ok((q', |buf + e.bytes|)) && SameQuestion(compress, q', q)
  {
    assert step(|buf|, sfx, q) == B.EmitQuestion(|buf|, sfx, compress, q);
    e, q' := QuestionReads(buf, sfx, compress, q);
    assert dec(|buf|) == DecodeQuestion(msg, |buf|);
    LaterQuestionSame(buf + e.bytes, msg, |buf|);
  }

  lemma {:induction false} QuestionsRead(
    step: Step<Question>, dec: QuestionDecoder, msg: Bytes, buf: Bytes, sfx: Suffixes,
    compress: bool, qs: seq<Question>)
    returns (e: Emission, qs': seq<Question>)
    requires IsQuestionStep(step, compress) && ReadsQuestionsOf(dec, msg)
    requires B.ValidQuestions(qs) && Good(buf, sfx) && buf + EmitAll(step, |buf|, sfx, qs).bytes <= msg
    ensures e == EmitAll(step, |buf|, sfx, qs) && Grown(buf, sfx, e) && |e.bytes| >= MIN_QUESTION_SIZE * |qs|
    ensures DecodeQuestions(dec, |buf|, |qs|) == Ok((qs', |buf + e.bytes|))
    ensures SameQuestions(compress, qs', qs)
    decreases |qs|
  {
    if qs == [] {
      e, qs' := Emission([], sfx), [];
      assert buf + [] == buf;
    } else {
      PrefixOfFirst(step, msg, buf, sfx, qs);
      var one, q' := QuestionStepReads(step, dec, msg, buf, sfx, compress, qs[0]);
      var mid := buf + one.bytes;
      var rest, tail := QuestionsRead(step, dec, msg, mid, one.suffixes, compress, qs[1..]);
      e, qs' := Emission(one.bytes + rest.bytes, rest.suffixes), [q'] + tail;
      GrownThen(buf, sfx, one, rest);
      Regroup(buf, one.bytes, rest.bytes, []);
    }
  }

  /** One more record at the end of a section. */
  lemma {:induction false} DecodeSectionSnoc(
    dec: RecordDecoder, pos: nat, count: nat, edns: Option<EdnsInfo>, s: Section, t: Section)
    requires DecodeSection(dec, pos, count, edns) == Ok(s)
    requires dec(s.end, s.edns) == Ok(t)
    ensures DecodeSection(dec, pos, count + 1, edns) == Ok(Section(s.records + t.records, t.edns, t.end))
    decreases count
  {
    if count == 0 {
      assert DecodeSection(dec, t.end, 0, t.edns) == Ok(Section([], t.edns, t.end));
      assert t.records + [] == [] + t.records;
    } else {
      var one := dec(pos, edns).value;
      var rest := DecodeSection(dec, one.end, count - 1, one.edns).value;
      DecodeSectionSnoc(dec, one.end, count - 1, one.edns, rest, t);
      assert one.records + (rest.records + t.records) == (one.records + rest.records) + t.records;
    }
  }
}
