/** Names on the wire, section 4.1.4 of RFC 1035: reading through compression
    pointers (core/wire/parser.cpp) and writing with suffix compression
    (core/wire/builder.cpp). */
module WireName {
  import opened DnsTypes

  const MAX_POINTER_JUMPS := 128
  const MAX_POINTER_OFFSET := 0x3FFF

  // ─── Big-endian integers (core/wire/byte_io.h) ────────────────────────────

  function U16(v: u16): (b: Bytes)
    ensures |b| == 2
  {
    [v / 256, v % 256]
  }

  function U32(v: u32): (b: Bytes)
    ensures |b| == 4
  {
    [v / 0x100_0000, v / 0x1_0000 % 256, v / 256 % 256, v % 256]
  }

  function LoadU16(b: Bytes, off: nat): u16
    requires off + 2 <= |b|
  {
    (b[off] as int) * 256 + b[off + 1]
  }

  function LoadU32(b: Bytes, off: nat): u32
    requires off + 4 <= |b|
  {
    (b[off] as int) * 0x100_0000 + (b[off + 1] as int) * 0x1_0000 + (b[off + 2] as int) * 256 + b[off + 3]
  }

  // ─── What a name on the wire means ────────────────────────────────────────

  /** A name found in a buffer: its labels, the position after its in-place
      bytes, and the number of pointers followed to collect them. */
  datatype Walked = Walked(labels: seq<Label>, end: nat, jumps: nat)

  /** The name at `cur`, in a segment that began at `seg`, with no cap on its
      size or on jumps: only strictly backward pointers are followed. */
  function Walk(buf: Bytes, cur: nat, seg: nat): Option<Walked>
    decreases seg, |buf| - cur
  {
    if cur >= |buf| then None
    else if buf[cur] == 0 then Some(Walked([], cur + 1, 0))
    else if buf[cur] < 64 then
      if |buf| - cur - 1 < buf[cur] then None
      else
        var next := cur + 1 + buf[cur];
        match Walk(buf, next, seg)
        case None => None
        case Some(w) => Some(Walked([buf[cur + 1..next]] + w.labels, w.end, w.jumps))
    else if buf[cur] >= 192 && |buf| - cur >= 2 then
      var target := LoadU16(buf, cur) % 0x4000;
      if target >= seg then None
      else
        match Walk(buf, target, target)
        case None => None
        case Some(w) => Some(Walked(w.labels, cur + 2, w.jumps + 1))
    else None
  }

  /** Bytes appended later do not change a name that is already complete. */
  lemma {:induction false} WalkAppend(buf: Bytes, more: Bytes, cur: nat, seg: nat)
    requires Walk(buf, cur, seg).Some?
    ensures Walk(buf + more, cur, seg) == Walk(buf, cur, seg)
    decreases seg, |buf| - cur
  {
    if buf[cur] == 0 {
    } else if buf[cur] < 64 {
      var next := cur + 1 + buf[cur];
      WalkAppend(buf, more, next, seg);
      assert (buf + more)[cur + 1..next] == buf[cur + 1..next];
    } else {
      var target := LoadU16(buf, cur) % 0x4000;
      assert LoadU16(buf + more, cur) == LoadU16(buf, cur);
      WalkAppend(buf, more, target, target);
    }
  }

  /** A later segment start only admits more pointers. */
  lemma {:induction false} WalkLaterSegment(buf: Bytes, cur: nat, seg: nat, seg': nat)
    requires Walk(buf, cur, seg).Some? && seg <= seg'
    ensures Walk(buf, cur, seg') == Walk(buf, cur, seg)
    decreases |buf| - cur
  {
    if buf[cur] != 0 && buf[cur] < 64 {
      WalkLaterSegment(buf, cur + 1 + buf[cur], seg, seg');
    }
  }

  /** Every name found holds labels of 1 to 63 bytes, and ends past its start. */
  lemma {:induction false} WalkLabels(buf: Bytes, cur: nat, seg: nat)
    requires Walk(buf, cur, seg).Some?
    ensures var w := Walk(buf, cur, seg).value;
            && (forall i :: 0 <= i < |w.labels| ==> ValidLabel(w.labels[i]))
            && cur < w.end <= |buf|
    decreases seg, |buf| - cur
  {
    if buf[cur] == 0 {
    } else if buf[cur] < 64 {
      WalkLabels(buf, cur + 1 + buf[cur], seg);
    } else {
      var target := LoadU16(buf, cur) % 0x4000;
      WalkLabels(buf, target, target);
    }
  }

  // ─── Reading ──────────────────────────────────────────────────────────────

  datatype NameRead = NameRead(labels: seq<Label>, end: nat)

  /** What is still to be read with the cursor at `cur`, or the error. */
  function DecodeLabels(msg: Bytes, cur: nat, seg: nat, wireLen: nat, jumps: nat): Result<NameRead>
    decreases seg, |msg| - cur
  {
    if cur >= |msg| then Err(BufferTooShort)
    else
      var len := msg[cur];
      if len / 64 == 0 then
        if len == 0 then Ok(NameRead([], cur + 1))
        else if |msg| - cur - 1 < len then Err(BufferTooShort)
        else if wireLen + 1 + len > MAX_NAME_WIRE_LENGTH then Err(NameTooLong)
        else
          var next := cur + 1 + len;
          var rest :- DecodeLabels(msg, next, seg, wireLen + 1 + len, jumps);
          Ok(NameRead([msg[cur + 1..next]] + rest.labels, rest.end))
      else if len / 64 == 3 then
        if |msg| - cur < 2 then Err(BufferTooShort)
        else
          var target := LoadU16(msg, cur) % 0x4000;
          if target >= seg || jumps + 1 > MAX_POINTER_JUMPS then Err(CompressionLoop)
          else
            var rest :- DecodeLabels(msg, target, target, wireLen, jumps + 1);
            Ok(NameRead(rest.labels, cur + 2))
      else Err(InvalidLabelType)
  }

  function DecodeName(msg: Bytes, pos: nat): Result<(Name, nat)> {
    var r :- DecodeLabels(msg, pos, pos, 1, 0);
    Ok((NameOf(r.labels), r.end))
  }

  /** Reading succeeds exactly on the names that respect both caps, and then
      reads just what the bytes mean. */
  lemma {:induction false} DecodeLabelsIffWalk(msg: Bytes, cur: nat, seg: nat, wireLen: nat, jumps: nat)
    requires 1 <= wireLen <= MAX_NAME_WIRE_LENGTH && jumps <= MAX_POINTER_JUMPS
    ensures var w := Walk(msg, cur, seg);
            var r := DecodeLabels(msg, cur, seg, wireLen, jumps);
            && (r.Ok? <==> w.Some? && wireLen + WireLength(w.value.labels) - 1 <= MAX_NAME_WIRE_LENGTH
                           && jumps + w.value.jumps <= MAX_POINTER_JUMPS)
            && (r.Ok? ==> r.value == NameRead(w.value.labels, w.value.end))
    decreases seg, |msg| - cur
  {
    if cur >= |msg| {
    } else if msg[cur] == 0 {
    } else if msg[cur] < 64 {
      var len := msg[cur];
      var next := cur + 1 + len;
      if next <= |msg| {
        var w := Walk(msg, next, seg);
        if w.Some? {
          assert ([msg[cur + 1..next]] + w.value.labels)[1..] == w.value.labels;
        }
        if wireLen + 1 + len <= MAX_NAME_WIRE_LENGTH {
          DecodeLabelsIffWalk(msg, next, seg, wireLen + 1 + len, jumps);
        }
      }
    } else if msg[cur] >= 192 && |msg| - cur >= 2 {
      var target := LoadU16(msg, cur) % 0x4000;
      if target < seg && jumps + 1 <= MAX_POINTER_JUMPS {
        DecodeLabelsIffWalk(msg, target, target, wireLen, jumps + 1);
      }
    }
  }

  /** The parser accepts a name exactly when the bytes mean one within the
      limits; the name it returns always satisfies the builder's precondition. */
  lemma DecodeNameIffWalk(msg: Bytes, pos: nat)
    ensures var w := Walk(msg, pos, pos);
            var r := DecodeName(msg, pos);
            && (r.Ok? <==> w.Some? && ValidLabels(w.value.labels) && w.value.jumps <= MAX_POINTER_JUMPS)
            && (r.Ok? ==> r.value == (NameOf(w.value.labels), w.value.end) && r.value.0.Valid()
                          && pos < r.value.1 <= |msg|)
  {
    DecodeLabelsIffWalk(msg, pos, pos, 1, 0);
    if Walk(msg, pos, pos).Some? {
      WalkLabels(msg, pos, pos);
    }
  }

  /** The whole result, once `before` was read and `rest` is what remains. */
  ghost function Resume(before: seq<Label>, jumped: bool, end: nat, rest: Result<NameRead>): Result<NameRead> {
    match rest
    case Err(e) => Err(e)
    case Ok(n) => Ok(NameRead(before + n.labels, if jumped then end else n.end))
  }

  lemma ResumeLabel(before: seq<Label>, raw: Label, jumped: bool, end: nat, rest: Result<NameRead>)
    ensures Resume(before + [raw], jumped, end, rest)
         == Resume(before, jumped, end,
                   match rest case Err(e) => Err(e) case Ok(n) => Ok(NameRead([raw] + n.labels, n.end)))
  {
    if rest.Ok? {
      assert (before + [raw]) + rest.value.labels == before + ([raw] + rest.value.labels);
    }
  }

  /** read_name: the cursor loop. */
  method ReadName(msg: Bytes, pos: nat) returns (r: Result<(Name, nat)>)
    ensures r == DecodeName(msg, pos)
  {
    var labels: seq<Label>, original: seq<Label> := [], [];
    var cur: nat, segmentStart: nat, wireLen: nat, jumps: nat, end: nat := pos, pos, 1, 0, 0;
    var jumped := false;
    ghost var whole := DecodeLabels(msg, pos, pos, 1, 0);
    assert whole == Resume([], false, 0, whole) by {
      if whole.Ok? { assert [] + whole.value.labels == whole.value.labels; }
    }
    while true
      invariant labels == LowerAll(original)
      invariant whole == Resume(original, jumped, end, DecodeLabels(msg, cur, segmentStart, wireLen, jumps))
      decreases segmentStart, |msg| - cur
    {
      if cur >= |msg| {
        return Err(BufferTooShort);
      }
      var len := msg[cur];
      if len / 64 == 0 {
        if len == 0 {
          if !jumped { end := cur + 1; }
          assert original + [] == original;
          return Ok((Name(labels, original), end));
        }
        if |msg| - cur - 1 < len {
          return Err(BufferTooShort);
        }
        wireLen := wireLen + 1 + len;
        if wireLen > MAX_NAME_WIRE_LENGTH {
          return Err(NameTooLong);
        }
        var raw := msg[cur + 1..cur + 1 + len];
        ResumeLabel(original, raw, jumped, end, DecodeLabels(msg, cur + 1 + len, segmentStart, wireLen, jumps));
        original := original + [raw];
        labels := labels + [Lower(raw)];
        cur := cur + 1 + len;
      } else if len / 64 == 3 {
        if |msg| - cur < 2 {
          return Err(BufferTooShort);
        }
        var target := LoadU16(msg, cur) % 0x4000;
        if target >= segmentStart {
          return Err(CompressionLoop);
        }
        jumps := jumps + 1;
        if jumps > MAX_POINTER_JUMPS {
          return Err(CompressionLoop);
        }
        if !jumped {
          end := cur + 2;
          jumped := true;
        }
        cur := target;
        segmentStart := target;
      } else {
        return Err(InvalidLabelType);
      }
    }
  }
}
