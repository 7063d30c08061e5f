/** Writing names with suffix compression (core/wire/builder.cpp). The bytes a
    name becomes depend on the buffer only through its size and the suffixes
    already written, so emission is a function of those two. */
module NameWriter {
  import opened DnsTypes
  import opened WireName

  /** An offset a pointer can carry. */
  type Offset = x: int | 0 <= x <= MAX_POINTER_OFFSET

  /** Where each suffix was written, by its key. */
  type Suffixes = map<Bytes, Offset>

  datatype Emission = Emission(bytes: Bytes, suffixes: Suffixes)

  /** A label with its length octet. */
  function LabelBytes(l: Label): (b: Bytes)
    ensures |b| == 1 + |l| && b[1..] == l
  {
    var length: u8 := |l| % 256;
    [length] + l
  }

  /** A compression pointer: two high bits, then the offset. */
  function PointerBytes(target: Offset): (b: Bytes)
    ensures |b| == 2
  {
    U16(0xC000 + target as int)
  }

  /** What a suffix is found by: its lower-case labels as written, less the root. */
  function SuffixKey(labels: seq<Label>): Bytes {
    if labels == [] then [] else LabelBytes(labels[0]) + SuffixKey(labels[1..])
  }

  /** The keys of all the non-empty suffixes, longest first. */
  function SuffixKeys(labels: seq<Label>): (keys: seq<Bytes>)
    ensures |keys| == |labels|
  {
    if labels == [] then [] else [SuffixKey(labels)] + SuffixKeys(labels[1..])
  }

  predicate GoodLabels(labels: seq<Label>) {
    forall i :: 0 <= i < |labels| ==> ValidLabel(labels[i])
  }

  /** Length prefixes make the key determine the labels. */
  lemma {:induction false} SuffixKeyInjective(a: seq<Label>, b: seq<Label>)
    requires GoodLabels(a) && GoodLabels(b) && SuffixKey(a) == SuffixKey(b)
    ensures a == b
  {
    if a != [] && b != [] {
      var n := |a[0]|;
      assert SuffixKey(a)[0] == n && SuffixKey(b)[0] == |b[0]|;
      assert SuffixKey(a)[1..1 + n] == LabelBytes(a[0])[1..] && SuffixKey(b)[1..1 + n] == LabelBytes(b[0])[1..];
      assert SuffixKey(a)[1 + n..] == SuffixKey(a[1..]) && SuffixKey(b)[1 + n..] == SuffixKey(b[1..]);
      SuffixKeyInjective(a[1..], b[1..]);
    }
  }

  /** `keys[i]` is the canonical form of the suffix that starts at label i. */
  function EmitLabels(off: nat, sfx: Suffixes, compress: bool, text: seq<Label>, keys: seq<Bytes>): Emission
    requires |text| == |keys|
    decreases |text|
  {
    if text == [] then Emission([0], sfx)
    else if compress && keys[0] in sfx then Emission(PointerBytes(sfx[keys[0]]), sfx)
    else
      var rest := EmitLabels(off + |LabelBytes(text[0])|, Recorded(off, sfx, compress, keys[0]), compress, text[1..],
                             keys[1..]);
      Emission(LabelBytes(text[0]) + rest.bytes, rest.suffixes)
  }

  /** A suffix is remembered where a pointer can still reach it. */
  function Recorded(off: nat, sfx: Suffixes, compress: bool, key: Bytes): Suffixes {
    if compress && off <= MAX_POINTER_OFFSET then sfx[key := off] else sfx
  }

  function EmitName(off: nat, sfx: Suffixes, compress: bool, n: Name): Emission
    requires |n.Text()| == |n.labels|
  {
    EmitLabels(off, sfx, compress, n.Text(), SuffixKeys(n.labels))
  }

  // ─── The compression-map invariant ────────────────────────────────────────

  /** Reading at `off` yields the suffix `key` stands for, and each pointer on
      the way is followed by at least one label. */
  ghost predicate EntryOk(buf: Bytes, off: nat, key: Bytes) {
    var w := Walk(buf, off, off);
    && w.Some?
    && SuffixKey(LowerAll(w.value.labels)) == key
    && w.value.jumps < |w.value.labels|
  }

  ghost predicate MapOk(buf: Bytes, sfx: Suffixes) {
    forall k {:trigger EntryOk(buf, sfx[k], k)} :: k in sfx ==> EntryOk(buf, sfx[k], k)
  }

  lemma MapOkAppend(buf: Bytes, more: Bytes, sfx: Suffixes)
    requires MapOk(buf, sfx)
    ensures MapOk(buf + more, sfx)
  {
    forall k | k in sfx
      ensures EntryOk(buf + more, sfx[k], k)
    {
      assert EntryOk(buf, sfx[k], k);
      WalkAppend(buf, more, sfx[k], sfx[k]);
    }
  }

  ghost predicate Extends(sfx: Suffixes, sfx': Suffixes) {
    forall k :: k in sfx ==> k in sfx' && sfx'[k] == sfx[k]
  }

  // ─── What was written reads back ──────────────────────────────────────────

  ghost predicate ReadsAs(w: Walked, compress: bool, text: seq<Label>) {
    && LowerAll(w.labels) == LowerAll(text)
    && w.jumps <= |text|
    && (!compress ==> w.labels == text && w.jumps == 0)
  }

  /** The bytes of `buf` from `off`, in a name that began at `start`, read as
      `text` and end the buffer. */
  ghost predicate Emitted(buf: Bytes, off: nat, start: nat, compress: bool, text: seq<Label>) {
    var w := Walk(buf, off, start);
    w.Some? && w.value.end == |buf| && ReadsAs(w.value, compress, text)
  }

  ghost predicate Fresh(buf: Bytes, off: nat, sfx: Suffixes, sfx': Suffixes) {
    && (forall k :: k in sfx' && k !in sfx ==> off <= sfx'[k])
    && forall k {:trigger EntryOk(buf, sfx'[k], k)} :: k in sfx' && k !in sfx ==> EntryOk(buf, sfx'[k], k)
  }

  /** The outcome of writing `text` at the end of `buf`. */
  ghost predicate Written(buf: Bytes, start: nat, sfx: Suffixes, compress: bool, text: seq<Label>, e: Emission) {
    && Emitted(buf + e.bytes, |buf|, start, compress, text)
    && Extends(sfx, e.suffixes)
    && Fresh(buf + e.bytes, |buf|, sfx, e.suffixes)
  }

  /** `done` are the suffixes of complete names. The rest of `sfx` belongs to
      the name being written, and is longer than what remains of it. */
  ghost predicate Pending(done: Suffixes, sfx: Suffixes, key: Bytes) {
    && Extends(done, sfx)
    && forall k :: k in sfx && k !in done ==> |k| > |key|
  }

  lemma PointerReads(buf: Bytes, target: Offset, start: nat)
    requires target < start <= |buf| && Walk(buf, target, target).Some?
    ensures var b := buf + PointerBytes(target);
            var w := Walk(buf, target, target).value;
            Walk(b, |buf|, start) == Some(Walked(w.labels, |b|, w.jumps + 1))
  {
    var b := buf + PointerBytes(target);
    assert b[|buf|] == (0xC000 + target) / 256 && b[|buf| + 1] == (0xC000 + target) % 256;
    assert LoadU16(b, |buf|) == 0xC000 + target;
    WalkAppend(buf, PointerBytes(target), target, target);
  }

  lemma EmitPointer(buf: Bytes, start: nat, done: Suffixes, text: seq<Label>)
    requires GoodLabels(text)
    requires var key := SuffixKey(LowerAll(text));
             MapOk(buf, done) && key in done && done[key] < start <= |buf|
    ensures Emitted(buf + PointerBytes(done[SuffixKey(LowerAll(text))]), |buf|, start, true, text)
  {
    var key := SuffixKey(LowerAll(text));
    var target := done[key];
    assert EntryOk(buf, target, key);
    PointerReads(buf, target, start);
    var w := Walk(buf, target, target).value;
    WalkLabels(buf, target, target);
    SuffixKeyInjective(LowerAll(w.labels), LowerAll(text));
  }

  lemma HeadReads(buf: Bytes, l: Label, more: Bytes)
    requires ValidLabel(l)
    ensures var b := buf + (LabelBytes(l) + more);
            && |buf| + 1 + |l| <= |b|
            && b[|buf|] == |l|
            && b[|buf| + 1..|buf| + 1 + |l|] == l
  {
    var b := buf + (LabelBytes(l) + more);
    assert b[|buf|..|buf| + 1 + |l|] == LabelBytes(l);
    assert b[|buf| + 1..|buf| + 1 + |l|] == b[|buf|..|buf| + 1 + |l|][1..];
  }

  lemma EmittedLabel(buf: Bytes, off: nat, start: nat, compress: bool, text: seq<Label>, w: Walked)
    requires |text| > 0 && ValidLabel(text[0])
    requires off + 1 + |text[0]| <= |buf| && buf[off] == |text[0]| && buf[off + 1..off + 1 + |text[0]|] == text[0]
    requires Walk(buf, off + 1 + |text[0]|, start) == Some(w)
    requires w.end == |buf| && ReadsAs(w, compress, text[1..])
    ensures Emitted(buf, off, start, compress, text)
    ensures Walk(buf, off, start).value.jumps < |text|
  {
    hide Walk, LowerAll;
    WalkLabel(buf, off, start, text[0], w);
    LowerCons(text[0], w.labels);
    LowerCons(text[0], text[1..]);
    assert [text[0]] + text[1..] == text;
  }

  lemma WalkLabel(buf: Bytes, off: nat, start: nat, l: Label, w: Walked)
    requires ValidLabel(l) && off + 1 + |l| <= |buf| && buf[off] == |l| && buf[off + 1..off + 1 + |l|] == l
    requires Walk(buf, off + 1 + |l|, start) == Some(w)
    ensures Walk(buf, off, start) == Some(Walked([l] + w.labels, w.end, w.jumps))
  {
  }

  lemma LowerCons(l: Label, ls: seq<Label>)
    ensures LowerAll([l] + ls) == [Lower(l)] + LowerAll(ls)
  {
  }

  lemma LabelThenRest(buf: Bytes, start: nat, compress: bool, text: seq<Label>, more: Bytes, w: Walked)
    requires |text| > 0 && ValidLabel(text[0])
    requires var whole := buf + (LabelBytes(text[0]) + more);
             Walk(whole, |buf| + 1 + |text[0]|, start) == Some(w) && w.end == |whole|
    requires ReadsAs(w, compress, text[1..])
    ensures var whole := buf + (LabelBytes(text[0]) + more);
            && Emitted(whole, |buf|, start, compress, text)
            && Walk(whole, |buf|, start).value.jumps < |text|
  {
    HeadReads(buf, text[0], more);
    EmittedLabel(buf + (LabelBytes(text[0]) + more), |buf|, start, compress, text, w);
  }

  lemma FreshLabel(buf: Bytes, off: nat, start: nat, compress: bool, text: seq<Label>, sfx: Suffixes, sfx'': Suffixes)
    requires |text| > 0
    requires start <= off && Emitted(buf, off, start, compress, text)
    requires Walk(buf, off, start).value.jumps < |text|
    requires var sfx' := Recorded(off, sfx, compress, SuffixKey(LowerAll(text)));
             Extends(sfx', sfx'') && Fresh(buf, off + 1 + |text[0]|, sfx', sfx'')
    ensures Fresh(buf, off, sfx, sfx'')
  {
    WalkLaterSegment(buf, off, start, off);
  }

  lemma WrittenLabel(buf: Bytes, start: nat, sfx: Suffixes, compress: bool, text: seq<Label>, rest: Emission)
    requires |text| > 0 && GoodLabels(text)
    requires var key := SuffixKey(LowerAll(text));
             && start <= |buf| && !(compress && key in sfx)
             && Written(buf + LabelBytes(text[0]), start, Recorded(|buf|, sfx, compress, key), compress, text[1..],
                        rest)
    ensures Written(buf, start, sfx, compress, text, Emission(LabelBytes(text[0]) + rest.bytes, rest.suffixes))
  {
    var whole := buf + (LabelBytes(text[0]) + rest.bytes);
    assert whole == (buf + LabelBytes(text[0])) + rest.bytes;
    var w := Walk(whole, |buf| + 1 + |text[0]|, start).value;
    LabelThenRest(buf, start, compress, text, rest.bytes, w);
    FreshLabel(whole, |buf|, start, compress, text, sfx, rest.suffixes);
  }

  lemma EmitUnfold(
    off: nat, off': nat, sfx: Suffixes, compress: bool, text: seq<Label>, keys: seq<Bytes>, rest: Emission)
    requires |text| == |keys| > 0 && !(compress && keys[0] in sfx) && off' == off + |LabelBytes(text[0])|
    requires rest == EmitLabels(off', Recorded(off, sfx, compress, keys[0]), compress, text[1..], keys[1..])
    ensures EmitLabels(off, sfx, compress, text, keys) == Emission(LabelBytes(text[0]) + rest.bytes, rest.suffixes)
  {
  }

  lemma KeysTail(text: seq<Label>, keys: seq<Bytes>)
    requires |text| > 0 && keys == SuffixKeys(LowerAll(text))
    ensures |keys| > 0 && keys[0] == SuffixKey(LowerAll(text))
    ensures keys[1..] == SuffixKeys(LowerAll(text[1..]))
    ensures |SuffixKey(LowerAll(text[1..]))| < |keys[0]|
  {
    assert LowerAll(text)[1..] == LowerAll(text[1..]);
  }

  lemma {:induction false} EmitLabelsReads(buf: Bytes, start: nat, done: Suffixes, sfx: Suffixes, compress: bool,
                                           text: seq<Label>, keys: seq<Bytes>) returns (e: Emission)
    requires GoodLabels(text) && keys == SuffixKeys(LowerAll(text))
    requires start <= |buf| && MapOk(buf, done) && (forall k :: k in done ==> done[k] < start)
    requires Pending(done, sfx, SuffixKey(LowerAll(text)))
    ensures e == EmitLabels(|buf|, sfx, compress, text, keys)
    ensures Written(buf, start, sfx, compress, text, e)
    decreases |text|
  {
    if text == [] {
      e := Emission([0], sfx);
      assert (buf + [0])[|buf|] == 0;
    } else {
      KeysTail(text, keys);
      if compress && keys[0] in sfx {
        e := Emission(PointerBytes(sfx[keys[0]]), sfx);
        EmitPointer(buf, start, done, text);
      } else {
        var head := LabelBytes(text[0]);
        var sfx' := Recorded(|buf|, sfx, compress, keys[0]);
        MapOkAppend(buf, head, done);
        var rest := EmitLabelsReads(buf + head, start, done, sfx', compress, text[1..], keys[1..]);
        EmitUnfold(|buf|, |buf + head|, sfx, compress, text, keys, rest);
        e := Emission(head + rest.bytes, rest.suffixes);
        WrittenLabel(buf, start, sfx, compress, text, rest);
      }
    }
  }

  lemma {:induction false} WireLengthSame(a: seq<Label>, b: seq<Label>)
    requires LowerAll(a) == LowerAll(b)
    ensures WireLength(a) == WireLength(b)
  {
    assert |a| == |LowerAll(a)| == |LowerAll(b)| == |b|;
    if a == [] {
    } else {
      assert Lower(a[0]) == LowerAll(a)[0] == LowerAll(b)[0] == Lower(b[0]);
      assert |a[0]| == |Lower(a[0])| == |Lower(b[0])| == |b[0]|;
      assert LowerAll(a[1..]) == LowerAll(a)[1..] == LowerAll(b)[1..] == LowerAll(b[1..]);
      WireLengthSame(a[1..], b[1..]);
    }
  }

  /** 255 bytes hold at most 127 labels. */
  lemma {:induction false} LabelCount(ls: seq<Label>)
    requires GoodLabels(ls)
    ensures 2 * |ls| + 1 <= WireLength(ls)
  {
    if ls == [] {
    } else {
      LabelCount(ls[1..]);
    }
  }

  lemma NameFits(raw: seq<Label>, n: Name)
    requires n.Valid() && LowerAll(raw) == n.labels
    ensures ValidLabels(raw) && |raw| <= 127
  {
    WireLengthSame(raw, n.Text());
    forall i | 0 <= i < |raw|
      ensures ValidLabel(raw[i])
    {
      assert |Lower(raw[i])| == |Lower(n.Text()[i])|;
    }
    LabelCount(raw);
  }

  /** Writing a name at the end of a buffer keeps the compression map good, and
      the parser reads the name back from there, ending where the writer did. */
  lemma EmitNameReads(buf: Bytes, sfx: Suffixes, compress: bool, n: Name) returns (e: Emission, raw: seq<Label>)
    requires n.Valid() && MapOk(buf, sfx) && (forall k :: k in sfx ==> sfx[k] < |buf|)
    ensures e == EmitName(|buf|, sfx, compress, n)
    ensures MapOk(buf + e.bytes, e.suffixes) && (forall k :: k in e.suffixes ==> e.suffixes[k] < |buf + e.bytes|)
    ensures Extends(sfx, e.suffixes) && (forall k :: k in e.suffixes && k !in sfx ==> |buf| <= e.suffixes[k])
    ensures DecodeName(buf + e.bytes, |buf|) == Ok((NameOf(raw), |buf + e.bytes|))
    ensures LowerAll(raw) == n.labels && (!compress ==> raw == n.Text())
  {
    e := EmitLabelsReads(buf, |buf|, sfx, sfx, compress, n.Text(), SuffixKeys(n.labels));
    var b := buf + e.bytes;
    MapOkAppend(buf, e.bytes, sfx);
    raw := Walk(b, |buf|, |buf|).value.labels;
    NameFits(raw, n);
    DecodeNameIffWalk(b, |buf|);
    forall k | k in e.suffixes
      ensures EntryOk(b, e.suffixes[k], k) && e.suffixes[k] < |b|
    {
      if k in sfx { assert EntryOk(b, sfx[k], k); }
    }
  }

  // ─── How much room a name takes ───────────────────────────────────────────

  /** The bytes of some labels, each with its length octet. */
  function LabelsSize(ls: seq<Label>): nat {
    if ls == [] then 0 else 1 + |ls[0]| + LabelsSize(ls[1..])
  }

  lemma {:induction false} KeysAre(labels: seq<Label>, i: nat)
    requires i < |labels|
    ensures SuffixKeys(labels)[i] == SuffixKey(labels[i..])
  {
    if i == 0 {
      assert labels[0..] == labels;
    } else {
      KeysAre(labels[1..], i - 1);
      assert labels[1..][i - 1..] == labels[i..];
    }
  }

  lemma {:induction false} KeyLength(labels: seq<Label>)
    ensures |SuffixKey(labels)| == LabelsSize(labels)
  {
    if labels == [] {
    } else {
      KeyLength(labels[1..]);
    }
  }

  /** A suffix that was written before takes a pointer, and no more. */
  lemma {:induction false} LabelsShrink(
    off: nat, sfx: Suffixes, text: seq<Label>, keys: seq<Bytes>, i: nat)
    requires |text| == |keys| && i < |keys| && keys[i] in sfx
    ensures |EmitLabels(off, sfx, true, text, keys).bytes| <= LabelsSize(text[..i]) + 2
    decreases |text|
  {
    if keys[0] in sfx {
    } else {
      var rest := Recorded(off, sfx, true, keys[0]);
      LabelsShrink(off + |LabelBytes(text[0])|, rest, text[1..], keys[1..], i - 1);
      assert text[..i][1..] == text[1..][..i - 1];
    }
  }

  /** With compression, whatever suffix of a name is known costs two bytes; without
      any, or with none known, a name takes its labels and the root. */
  lemma NamesShrink(off: nat, sfx: Suffixes, n: Name, i: nat)
    requires |n.Text()| == |n.labels| && i < |n.labels| && SuffixKey(n.labels[i..]) in sfx
    ensures |EmitName(off, sfx, true, n).bytes| <= LabelsSize(n.Text()[..i]) + 2
  {
    KeysAre(n.labels, i);
    LabelsShrink(off, sfx, n.Text(), SuffixKeys(n.labels), i);
  }

  lemma {:induction false} NeverLonger(
    off: nat, sfx: Suffixes, compress: bool, text: seq<Label>, keys: seq<Bytes>)
    requires |text| == |keys| && forall i :: 0 <= i < |text| ==> ValidLabel(text[i])
    ensures |EmitLabels(off, sfx, compress, text, keys).bytes| <= LabelsSize(text) + 1
    ensures !compress ==> |EmitLabels(off, sfx, compress, text, keys).bytes| == LabelsSize(text) + 1
    decreases |text|
  {
    if text == [] || (compress && keys[0] in sfx) {
    } else {
      NeverLonger(off + |LabelBytes(text[0])|, Recorded(off, sfx, compress, keys[0]), compress, text[1..], keys[1..]);
    }
  }

  /** No longer suffix of the name from label `i` on, nor that one, is known. */
  predicate NoneKnown(sfx: Suffixes, keys: seq<Bytes>, i: nat)
    requires i < |keys|
  {
    forall j :: 0 <= j <= i ==> keys[j] !in sfx
  }

  /** Keys of suffixes get shorter toward the root. */
  predicate Shrinking(keys: seq<Bytes>) {
    forall i, j :: 0 <= i < j < |keys| ==> |keys[i]| > |keys[j]|
  }

  lemma {:induction false} LabelsRecorded(
    off: nat, sfx: Suffixes, text: seq<Label>, keys: seq<Bytes>, i: nat)
    requires |text| == |keys| && i < |keys| && NoneKnown(sfx, keys, i) && Shrinking(keys)
    requires off + LabelsSize(text[..i]) <= 0x3FFF
    ensures var e := EmitLabels(off, sfx, true, text, keys);
      keys[i] in e.suffixes && e.suffixes[keys[i]] == off + LabelsSize(text[..i])
    decreases |text|
  {
    var off', sfx' := off + |LabelBytes(text[0])|, Recorded(off, sfx, true, keys[0]);
    if i == 0 {
      LabelsKeep(off', sfx', text[1..], keys[1..], keys[0]);
    } else {
      assert text[..i][1..] == text[1..][..i - 1];
      assert forall j :: 0 <= j < i ==> keys[1..][j] == keys[j + 1];
      LabelsRecorded(off', sfx', text[1..], keys[1..], i - 1);
    }
  }

  lemma {:induction false} LabelsKeep(
    off: nat, sfx: Suffixes, text: seq<Label>, keys: seq<Bytes>, k: Bytes)
    requires |text| == |keys| && k in sfx && k !in keys
    ensures var e := EmitLabels(off, sfx, true, text, keys); k in e.suffixes && e.suffixes[k] == sfx[k]
    decreases |text|
  {
    if text == [] || keys[0] in sfx {
    } else {
      LabelsKeep(off + |LabelBytes(text[0])|, Recorded(off, sfx, true, keys[0]), text[1..], keys[1..], k);
    }
  }

  lemma {:induction false} KeysShrink(labels: seq<Label>)
    ensures Shrinking(SuffixKeys(labels))
  {
    forall i, j | 0 <= i < j < |labels|
      ensures |SuffixKeys(labels)[i]| > |SuffixKeys(labels)[j]|
    {
      KeysAre(labels, i);
      KeysAre(labels, j);
      KeyLength(labels[i..]);
      KeyLength(labels[j..]);
      LaterShorter(labels, i, j);
    }
  }

  lemma {:induction false} LaterShorter(labels: seq<Label>, i: nat, j: nat)
    requires i < j <= |labels|
    ensures LabelsSize(labels[i..]) > LabelsSize(labels[j..])
    decreases j - i
  {
    assert labels[i..][1..] == labels[i + 1..];
    if i + 1 < j { LaterShorter(labels, i + 1, j); }
  }

  /** Every suffix of a name that is written out, rather than pointed to, and
      begins where a pointer can reach, can be pointed to afterwards. */
  lemma NamesRecorded(off: nat, sfx: Suffixes, n: Name, i: nat)
    requires |n.Text()| == |n.labels| && i < |n.labels| && off + LabelsSize(n.Text()[..i]) <= 0x3FFF
    requires forall j :: 0 <= j <= i ==> SuffixKey(n.labels[j..]) !in sfx
    ensures var e := EmitName(off, sfx, true, n);
      SuffixKey(n.labels[i..]) in e.suffixes && e.suffixes[SuffixKey(n.labels[i..])] == off + LabelsSize(n.Text()[..i])
  {
    var keys := SuffixKeys(n.labels);
    forall j | 0 <= j <= i
      ensures keys[j] == SuffixKey(n.labels[j..])
    {
      KeysAre(n.labels, j);
    }
    KeysShrink(n.labels);
    LabelsRecorded(off, sfx, n.Text(), keys, i);
  }

  /** So a name written a second time, where a pointer could reach the first, takes
      two bytes. */
  lemma SecondTimeShort(off: nat, sfx: Suffixes, n: Name, off': nat, sfx': Suffixes)
    requires |n.Text()| == |n.labels| > 0 && off <= 0x3FFF && Extends(EmitName(off, sfx, true, n).suffixes, sfx')
    ensures |EmitName(off', sfx', true, n).bytes| == 2
  {
    assert n.labels[0..] == n.labels && n.Text()[..0] == [];
    KeysAre(n.labels, 0);
    if SuffixKey(n.labels) !in sfx { NamesRecorded(off, sfx, n, 0); }
    assert SuffixKey(n.labels) in sfx';
  }
}
