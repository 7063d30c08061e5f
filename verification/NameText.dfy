/** The presentation format of names (core/wire/name.cpp), section 5.1 of RFC 1035:
    what is shown can be read back, over all 256 byte values. */
module NameText {
  import opened DnsTypes

  const DOT: u8 := 0x2E
  const BACKSLASH: u8 := 0x5C
  const ZERO: u8 := 0x30

  predicate IsDigit(c: u8) {
    ZERO <= c <= ZERO + 9
  }

  /** . \ " ( ) ; @ $ */
  predicate NeedsBackslash(c: u8) {
    c in {DOT, BACKSLASH, 0x22, 0x28, 0x29, 0x3B, 0x40, 0x24}
  }

  // ─── Showing ──────────────────────────────────────────────────────────────

  function ShownByte(b: u8): Bytes {
    if NeedsBackslash(b) then [BACKSLASH, b]
    else if b < 0x21 || b > 0x7E then [BACKSLASH, ZERO + b / 100, ZERO + b / 10 % 10, ZERO + b % 10]
    else [b]
  }

  function ShownLabel(l: Label): Bytes {
    if l == [] then [] else ShownLabel(l[..|l| - 1]) + ShownByte(l[|l| - 1])
  }

  function ShownLabels(ls: seq<Label>): Bytes {
    if ls == [] then [] else ShownLabels(ls[..|ls| - 1]) + ShownLabel(ls[|ls| - 1]) + [DOT]
  }

  function Shown(ls: seq<Label>): Bytes {
    if ls == [] then [DOT] else ShownLabels(ls)
  }

  method ShowLabel(l: Label) returns (out: Bytes)
    ensures out == ShownLabel(l)
  {
    out := [];
    var j := 0;
    while j < |l|
      invariant 0 <= j <= |l| && out == ShownLabel(l[..j])
    {
      var c := l[j];
      assert l[..j + 1][..j] == l[..j];
      if NeedsBackslash(c) {
        out := out + [BACKSLASH, c];
      } else if c < 0x21 || c > 0x7E {
        out := out + [BACKSLASH, ZERO + c / 100, ZERO + c / 10 % 10, ZERO + c % 10];
      } else {
        out := out + [c];
      }
      j := j + 1;
    }
    assert l[..j] == l;
  }

  method ToString(name: Name) returns (out: Bytes)
    ensures out == Shown(name.labels)
  {
    if name.labels == [] { return [DOT]; }
    hide ShownLabel;
    out := [];
    var i := 0;
    while i < |name.labels|
      invariant 0 <= i <= |name.labels| && out == ShownLabels(name.labels[..i])
    {
      var text := ShowLabel(name.labels[i]);
      assert name.labels[..i + 1][..i] == name.labels[..i];
      out := out + text + [DOT];
      i := i + 1;
    }
    assert name.labels[..i] == name.labels;
  }

  // ─── Reading ──────────────────────────────────────────────────────────────

  /** What one character, or one escape, stands for, and its length. */
  datatype Char = Char(value: u8, length: nat) | BadChar

  function ReadChar(text: Bytes): (c: Char)
    requires text != []
    ensures c.Char? ==> 1 <= c.length <= |text|
  {
    if text[0] != BACKSLASH then Char(text[0], 1)
    else if |text| < 2 then BadChar
    else if !IsDigit(text[1]) then Char(text[1], 2)
    else if |text| < 4 || !IsDigit(text[2]) || !IsDigit(text[3]) then BadChar
    else
      var value := (text[1] - ZERO) as int * 100 + (text[2] - ZERO) as int * 10 + (text[3] - ZERO) as int;
      if value > 255 then BadChar else Char(value, 4)
  }

  /** The labels of the rest of a text, after some labels and part of one. */
  function Read(text: Bytes, labels: seq<Label>, l: Label): Option<seq<Label>>
    decreases |text|
  {
    if text == [] then (if l == [] then Some(labels) else Finished(labels, l))
    else if text[0] == DOT then
      match Finished(labels, l)
      case None => None
      case Some(ls) => Read(text[1..], ls, [])
    else
      match ReadChar(text)
      case BadChar => None
      case Char(value, length) =>
        if |l| == MAX_LABEL_LENGTH then None else Read(text[length..], labels, l + [value])
  }

  /** A label is done: not empty, and the name not too long. */
  function Finished(labels: seq<Label>, l: Label): Option<seq<Label>> {
    if l == [] || WireLength(labels) + 1 + |l| > MAX_NAME_WIRE_LENGTH then None else Some(labels + [l])
  }

  function FromText(text: Bytes): Option<seq<Label>> {
    if text == [DOT] then Some([]) else if text == [] then None else Read(text, [], [])
  }

  lemma {:induction false} WireSnoc(ls: seq<Label>, l: Label)
    ensures WireLength(ls + [l]) == WireLength(ls) + 1 + |l|
  {
    if ls == [] {
      assert ls + [l] == [l] && [l][1..] == [];
    } else {
      assert (ls + [l])[1..] == ls[1..] + [l];
      WireSnoc(ls[1..], l);
    }
  }

  /** Every name that is read respects both limits. */
  lemma {:induction false} ReadValid(text: Bytes, labels: seq<Label>, l: Label)
    requires ValidLabels(labels) && |l| <= MAX_LABEL_LENGTH && Read(text, labels, l).Some?
    ensures ValidLabels(Read(text, labels, l).value)
    decreases |text|
  {
    if l == [] {
    } else {
      WireSnoc(labels, l);
    }
    if text != [] {
      if text[0] == DOT {
        ReadValid(text[1..], Finished(labels, l).value, []);
      } else {
        var c := ReadChar(text);
        ReadValid(text[c.length..], labels, l + [c.value]);
      }
    }
    hide ReadChar;
  }

  lemma FromTextValid(text: Bytes)
    requires FromText(text).Some?
    ensures ValidLabels(FromText(text).value)
  {
    if text != [DOT] { ReadValid(text, [], []); }
  }

  method FromString(text: Bytes) returns (name: Option<Name>)
    ensures match FromText(text)
            case None => name == None
            case Some(ls) => name == Some(NameOf(ls))
  {
    hide ReadChar, WireLength;
    if text == [DOT] { return Some(NameOf([])); }
    if text == [] { return None; }
    var labels: seq<Label>, l: Label, wireLen := [], [], 1;
    var i := 0;
    assert text[0..] == text && WireLength([]) == 1 by { EmptyWire(); }
    while i < |text|
      invariant 0 <= i <= |text| && wireLen == WireLength(labels) && FromText(text) == Read(text[i..], labels, l)
    {
      if text[i] == DOT {
        if l == [] || wireLen + 1 + |l| > MAX_NAME_WIRE_LENGTH { return None; }
        wireLen := wireLen + 1 + |l|;
        WireSnoc(labels, l);
        assert text[i..][1..] == text[i + 1..];
        labels, l := labels + [l], [];
        i := i + 1;
        continue;
      }
      var c := ReadChar(text[i..]);
      if c.BadChar? || |l| == MAX_LABEL_LENGTH { return None; }
      assert text[i..][c.length..] == text[i + c.length..];
      l := l + [c.value];
      i := i + c.length;
    }
    assert text[i..] == [];
    if l != [] {
      if wireLen + 1 + |l| > MAX_NAME_WIRE_LENGTH { return None; }
      labels := labels + [l];
    }
    name := Some(NameOf(labels));
  }

  lemma EmptyWire()
    ensures WireLength([]) == 1
  {
  }

  // ─── Reading what was shown ───────────────────────────────────────────────

  lemma Digits(b: u8)
    ensures b / 100 * 100 + b / 10 % 10 * 10 + b % 10 == b && b / 100 <= 9 && b / 10 % 10 <= 9 && b % 10 <= 9
  {
  }

  lemma ReadShownByte(b: u8, rest: Bytes)
    ensures var text := ShownByte(b) + rest;
      text != [] && text[0] != DOT && ReadChar(text) == Char(b, |ShownByte(b)|) && text[|ShownByte(b)|..] == rest
  {
    Digits(b);
    var text := ShownByte(b) + rest;
    assert text[|ShownByte(b)|..] == rest;
  }

  lemma {:induction false} ShownLabelCons(b: u8, l: Label)
    ensures ShownLabel([b] + l) == ShownByte(b) + ShownLabel(l)
  {
    hide ShownByte;
    if l == [] {
      assert [b] + l == [b] && [b][..0] == [];
    } else {
      var init, last := l[..|l| - 1], l[|l| - 1];
      assert ([b] + l)[..|l|] == [b] + init && ([b] + l)[|l|] == last;
      ShownLabelCons(b, init);
    }
  }

  lemma {:induction false} ReadShownLabel(l: Label, rest: Bytes, labels: seq<Label>, before: Label)
    requires |before| + |l| <= MAX_LABEL_LENGTH
    ensures Read(ShownLabel(l) + rest, labels, before) == Read(rest, labels, before + l)
    decreases |l|
  {
    hide ShownByte, ReadChar, ShownLabel;
    if l == [] {
      NoLabel();
      assert [] + rest == rest && before + l == before;
    } else {
      var b, more := l[0], l[1..];
      assert l == [b] + more;
      ShownLabelCons(b, more);
      ReadShownByte(b, ShownLabel(more) + rest);
      assert ShownLabel(l) + rest == ShownByte(b) + (ShownLabel(more) + rest);
      ReadShownLabel(more, rest, labels, before + [b]);
      assert before + [b] + more == before + l;
    }
  }

  lemma NoLabel()
    ensures ShownLabel([]) == []
  {
  }

  lemma {:induction false} ShownLabelsCons(l: Label, ls: seq<Label>)
    ensures ShownLabels([l] + ls) == ShownLabel(l) + [DOT] + ShownLabels(ls)
  {
    hide ShownLabel;
    if ls == [] {
      assert [l] + ls == [l] && [l][..0] == [];
    } else {
      var init, last := ls[..|ls| - 1], ls[|ls| - 1];
      assert ([l] + ls)[..|ls|] == [l] + init && ([l] + ls)[|ls|] == last;
      ShownLabelsCons(l, init);
    }
  }

  lemma {:induction false} WireConcat(a: seq<Label>, b: seq<Label>)
    ensures WireLength(a + b) == WireLength(a) + WireLength(b) - 1 && WireLength(b) >= 1
  {
    if a == [] {
      assert a + b == b;
    } else {
      assert (a + b)[1..] == a[1..] + b;
      WireConcat(a[1..], b);
    }
  }

  lemma {:induction false} ReadShownLabels(ls: seq<Label>, before: seq<Label>)
    requires ValidLabels(before + ls)
    ensures Read(ShownLabels(ls), before, []) == Some(before + ls)
    decreases |ls|
  {
    hide ShownLabel, ShownLabels, ReadChar;
    if ls == [] {
      NoLabels();
      assert before + ls == before;
    } else {
      var l, more := ls[0], ls[1..];
      assert ls == [l] + more && before + ls == before + [l] + more;
      assert ValidLabel((before + ls)[|before|]);
      ShownLabelsCons(l, more);
      var rest := [DOT] + ShownLabels(more);
      assert ShownLabels(ls) == ShownLabel(l) + rest;
      ReadShownLabel(l, rest, before, []);
      assert [] + l == l && rest[1..] == ShownLabels(more);
      WireConcat(before + [l], more);
      WireSnoc(before, l);
      ReadShownLabels(more, before + [l]);
    }
  }

  lemma NoLabels()
    ensures ShownLabels([]) == []
  {
  }

  /** Read back, what is shown is the same name. */
  lemma TextRoundTrip(ls: seq<Label>)
    requires ValidLabels(ls)
    ensures FromText(Shown(ls)) == Some(ls)
  {
    hide ShownLabel, ShownLabels, Read;
    if ls != [] {
      var l, more := ls[0], ls[1..];
      assert ls == [l] + more && ValidLabel(ls[0]);
      ShownLabelsCons(l, more);
      LabelShows(l);
      assert [] + ls == ls;
      ReadShownLabels(ls, []);
    }
  }

  lemma LabelShows(l: Label)
    requires l != []
    ensures |ShownLabel(l)| >= 1
  {
  }

  /** Different names never show the same. */
  lemma ShownInjective(a: seq<Label>, b: seq<Label>)
    requires ValidLabels(a) && ValidLabels(b) && Shown(a) == Shown(b)
    ensures a == b
  {
    TextRoundTrip(a);
    TextRoundTrip(b);
  }

  /** For a name as the program holds it: canonical labels, any original case. */
  lemma NameRoundTrip(n: Name)
    requires ValidLabels(n.labels) && LowerAll(n.labels) == n.labels
    ensures FromText(Shown(n.labels)).Some? && NameOf(FromText(Shown(n.labels)).value).Equals(n)
  {
    TextRoundTrip(n.labels);
  }

  // ─── Every way to write a name ────────────────────────────────────────────

  /** A byte can be written as itself, unless it is a dot or a backslash; after a
      backslash, unless it is a digit; or as a backslash and three digits. */
  predicate Spells(text: Bytes, b: u8) {
    || (text == [b] && b != 0x2E && b != 0x5C)
    || (text == [0x5C, b] && !(0x30 <= b <= 0x39))
    || (|text| == 4 && text[0] == 0x5C && (forall i :: 1 <= i < 4 ==> 0x30 <= text[i] <= 0x39)
        && b as int == (text[1] as int - 0x30) * 100 + (text[2] as int - 0x30) * 10 + text[3] as int - 0x30)
  }

  predicate SpellsLabel(sp: seq<Bytes>, l: Label) {
    |sp| == |l| && forall i :: 0 <= i < |l| ==> Spells(sp[i], l[i])
  }

  predicate SpellsAll(sps: seq<seq<Bytes>>, ls: seq<Label>) {
    |sps| == |ls| && forall i :: 0 <= i < |ls| ==> SpellsLabel(sps[i], ls[i])
  }

  function Joined(sp: seq<Bytes>): Bytes {
    if sp == [] then [] else sp[0] + Joined(sp[1..])
  }

  /** Labels written out, a dot after each. */
  function Dotted(sps: seq<seq<Bytes>>): Bytes {
    if sps == [] then [] else Joined(sps[0]) + [0x2E] + Dotted(sps[1..])
  }

  lemma SpelledChar(sp: Bytes, b: u8, rest: Bytes)
    requires Spells(sp, b)
    ensures sp != [] && (sp + rest)[0] != DOT && ReadChar(sp + rest) == Char(b, |sp|) && (sp + rest)[|sp|..] == rest
  {
    var t := sp + rest;
    assert forall i :: 0 <= i < |sp| ==> t[i] == sp[i];
  }

  lemma CharRead(sp: Bytes, b: u8, rest: Bytes, labels: seq<Label>, part: Label)
    requires Spells(sp, b) && |part| < MAX_LABEL_LENGTH
    ensures Read(sp + rest, labels, part) == Read(rest, labels, part + [b])
  {
    hide ReadChar, Spells, Finished;
    SpelledChar(sp, b, rest);
  }

  lemma JoinedHead(sp: seq<Bytes>, rest: Bytes)
    ensures Joined(sp) + rest == if sp == [] then rest else sp[0] + (Joined(sp[1..]) + rest)
  {
  }

  lemma {:induction false} LabelRead(sp: seq<Bytes>, l: Label, rest: Bytes, labels: seq<Label>, part: Label)
    requires SpellsLabel(sp, l) && |part| + |l| <= MAX_LABEL_LENGTH
    ensures Read(Joined(sp) + rest, labels, part) == Read(rest, labels, part + l)
    decreases |sp|
  {
    hide Read, Spells, Joined;
    JoinedHead(sp, rest);
    if sp == [] {
      assert part + l == part;
    } else {
      var more := Joined(sp[1..]) + rest;
      CharRead(sp[0], l[0], more, labels, part);
      LabelRead(sp[1..], l[1..], rest, labels, part + [l[0]]);
      assert part + [l[0]] + l[1..] == part + l;
    }
  }

  lemma {:induction false} PrefixValid(ls: seq<Label>, k: nat)
    requires ValidLabels(ls) && k <= |ls|
    ensures ValidLabels(ls[..k])
    decreases |ls| - k
  {
    if k == |ls| {
      assert ls[..k] == ls;
    } else {
      PrefixValid(ls, k + 1);
      assert ls[..k + 1] == ls[..k] + [ls[k]];
      WireSnoc(ls[..k], ls[k]);
      assert forall i :: 0 <= i < k ==> ls[..k][i] == ls[..k + 1][i];
    }
  }

  lemma {:induction false} DottedRead(sps: seq<seq<Bytes>>, ls: seq<Label>, rest: Bytes, labels: seq<Label>)
    requires SpellsAll(sps, ls) && ValidLabels(labels + ls)
    ensures Read(Dotted(sps) + rest, labels, []) == Read(rest, labels + ls, [])
    decreases |ls|
  {
    if ls == [] {
      assert Dotted(sps) + rest == rest && labels + ls == labels;
    } else {
      hide ReadChar, Spells, WireLength;
      var l, more := ls[0], Dotted(sps[1..]) + rest;
      assert Dotted(sps) + rest == Joined(sps[0]) + ([0x2E] + more);
      assert (labels + ls)[|labels|] == l && (labels + ls)[..|labels| + 1] == labels + [l];
      LabelRead(sps[0], l, [0x2E] + more, labels, []);
      assert [] + l == l;
      PrefixValid(labels + ls, |labels| + 1);
      WireSnoc(labels, l);
      DotRead(more, labels, l);
      assert labels + [l] + ls[1..] == labels + ls;
      DottedRead(sps[1..], ls[1..], rest, labels + [l]);
    }
  }

  lemma DotRead(more: Bytes, labels: seq<Label>, l: Label)
    requires l != [] && WireLength(labels) + 1 + |l| <= 255
    ensures Read([0x2E] + more, labels, l) == Read(more, labels + [l], [])
  {
    assert ([0x2E] + more)[1..] == more;
  }

  lemma TextIs(text: Bytes)
    requires text != [] && text != [0x2E]
    ensures FromText(text) == Read(text, [], [])
  {
    hide Read;
  }

  lemma EndRead(labels: seq<Label>, l: Label)
    ensures Read([], labels, []) == Some(labels)
    ensures l != [] && WireLength(labels) + 1 + |l| <= 255 ==> Read([], labels, l) == Some(labels + [l])
  {
    hide WireLength;
  }

  lemma AbsoluteRead(sps: seq<seq<Bytes>>, ls: seq<Label>)
    requires ls != [] && SpellsAll(sps, ls) && ValidLabels(ls)
    ensures FromText(Dotted(sps)) == Some(ls)
  {
    hide Read, FromText, SpellsAll, ValidLabels, Dotted;
    assert Dotted(sps) + [] == Dotted(sps) && [] + ls == ls;
    DottedRead(sps, ls, [], []);
    NotJustDot(sps, ls);
    TextIs(Dotted(sps));
    EndRead(ls, []);
  }

  lemma RelativeRead(sps: seq<seq<Bytes>>, ls: seq<Label>, sp: seq<Bytes>, l: Label)
    requires SpellsAll(sps, ls) && SpellsLabel(sp, l) && ValidLabels(ls + [l])
    ensures FromText(Dotted(sps) + Joined(sp)) == Some(ls + [l])
  {
    PrefixValid(ls + [l], |ls|);
    assert (ls + [l])[..|ls|] == ls && ValidLabel((ls + [l])[|ls|]);
    WireSnoc(ls, l);
    hide Read, FromText, SpellsAll, SpellsLabel, WireLength, Dotted, Joined;
    assert [] + ls == ls && [] + l == l && Joined(sp) + [] == Joined(sp);
    DottedRead(sps, ls, Joined(sp), []);
    LabelRead(sp, l, [], ls, []);
    LastNotDot(sps, ls, sp, l);
    TextIs(Dotted(sps) + Joined(sp));
    EndRead(ls, l);
  }

  /** However a name's bytes are written, and with its last dot or without, it is
      read as that name. */
  lemma AnySpellingRead(sps: seq<seq<Bytes>>, ls: seq<Label>)
    requires ls != [] && SpellsAll(sps, ls) && ValidLabels(ls)
    ensures FromText(Dotted(sps)) == Some(ls)
    ensures FromText(Dotted(sps[..|sps| - 1]) + Joined(sps[|sps| - 1])) == Some(ls)
  {
    hide FromText, SpellsLabel, ValidLabels, Dotted, Joined;
    AbsoluteRead(sps, ls);
    var n := |ls| - 1;
    assert ls == ls[..n] + [ls[n]];
    RelativeRead(sps[..n], ls[..n], sps[n], ls[n]);
  }

  lemma NotJustDot(sps: seq<seq<Bytes>>, ls: seq<Label>)
    requires ls != [] && SpellsAll(sps, ls) && ValidLabels(ls)
    ensures Dotted(sps) != [] && Dotted(sps) != [0x2E]
  {
    assert SpellsLabel(sps[0], ls[0]) && ValidLabel(ls[0]);
    SpelledChar(sps[0][0], ls[0][0], Joined(sps[0][1..]) + [0x2E] + Dotted(sps[1..]));
    assert Dotted(sps) == sps[0][0] + (Joined(sps[0][1..]) + [0x2E] + Dotted(sps[1..]));
    hide Spells, ReadChar;
  }

  lemma LastNotDot(sps: seq<seq<Bytes>>, ls: seq<Label>, sp: seq<Bytes>, l: Label)
    requires SpellsAll(sps, ls) && SpellsLabel(sp, l) && l != [] && (ls != [] ==> ValidLabels(ls))
    ensures Dotted(sps) + Joined(sp) != [] && Dotted(sps) + Joined(sp) != [0x2E]
  {
    SpelledChar(sp[0], l[0], Joined(sp[1..]));
    if ls == [] {
      assert Dotted(sps) + Joined(sp) == Joined(sp);
    } else {
      NotJustDot(sps, ls);
      assert |Dotted(sps) + Joined(sp)| >= 2;
    }
    hide Spells, ReadChar;
  }

  /** Printable bytes are shown as they are, but for the eight that mean something,
      which follow a backslash; all others are shown as three digits. */
  lemma ShownPlainly(b: u8)
    ensures var special := b in {0x22, 0x24, 0x28, 0x29, 0x2E, 0x3B, 0x40, 0x5C};
      ShownByte(b) == if special then [0x5C, b] else if 0x21 <= b <= 0x7E then [b]
                      else [0x5C, 0x30 + b / 100, 0x30 + b / 10 % 10, 0x30 + b % 10]
    ensures Spells(ShownByte(b), b)
  {
    assert b == b / 100 * 100 + b / 10 % 10 * 10 + b % 10;
  }
}
