/** The keys that blocklist rules sort by (core/policy/blocklist_trie.cpp): labels
    from the top of the name down, a length octet before each. Comparing keys
    as bytes is comparing names label by label. */
module TrieKeys {
  import opened DnsTypes

  /** Labels from the top down. */
  type Path = seq<Label>

  function Reversed(ls: seq<Label>): Path {
    if ls == [] then [] else Reversed(ls[1..]) + [ls[0]]
  }

  lemma {:induction false} ReversedAt(ls: seq<Label>)
    ensures |Reversed(ls)| == |ls| && forall i :: 0 <= i < |ls| ==> Reversed(ls)[i] == ls[|ls| - 1 - i]
  {
    if ls == [] {
    } else {
      ReversedAt(ls[1..]);
    }
  }

  predicate LabelsOk(p: Path) {
    forall i :: 0 <= i < |p| ==> ValidLabel(p[i])
  }

  function Flat(p: Path): Bytes
    requires LabelsOk(p)
  {
    if p == [] then [] else [|p[0]|] + p[0] + Flat(p[1..])
  }

  /** The path whose key this is. */
  function Unflat(key: Bytes): Path {
    if key == [] || |key| < 1 + key[0] as int then []
    else [key[1..1 + key[0]]] + Unflat(key[1 + key[0]..])
  }

  predicate KeyOk(key: Bytes) {
    LabelsOk(Unflat(key)) && Flat(Unflat(key)) == key
  }

  lemma {:induction false} UnflatFlat(p: Path)
    requires LabelsOk(p)
    ensures Unflat(Flat(p)) == p
  {
    if p == [] {
    } else {
      var key := Flat(p);
      assert ValidLabel(p[0]);
      assert key[1..1 + key[0]] == p[0] && key[1 + key[0]..] == Flat(p[1..]);
      UnflatFlat(p[1..]);
    }
  }

  lemma FlatOk(p: Path)
    requires LabelsOk(p)
    ensures KeyOk(Flat(p))
  {
    UnflatFlat(p);
  }

  lemma {:induction false} FlatAppend(p: Path, q: Path)
    requires LabelsOk(p) && LabelsOk(q)
    ensures LabelsOk(p + q) && Flat(p + q) == Flat(p) + Flat(q)
  {
    if p == [] {
      assert p + q == q;
    } else {
      FlatAppend(p[1..], q);
      assert (p + q)[1..] == p[1..] + q;
    }
  }

  lemma FlatSnoc(p: Path, l: Label)
    requires LabelsOk(p) && ValidLabel(l)
    ensures LabelsOk(p + [l]) && Flat(p + [l]) == Flat(p) + [|l|] + l
  {
    assert Flat([l]) == [|l|] + l;
    FlatAppend(p, [l]);
  }

  /** What the bytes at a node's offset say of a key below that node. */
  lemma FlatNext(p: Path, r: Path)
    requires LabelsOk(r) && p <= r
    ensures LabelsOk(p) && |Flat(p)| <= |Flat(r)| && Flat(p) == Flat(r)[..|Flat(p)|]
    ensures |Flat(r)| == |Flat(p)| <==> r == p
    ensures r != p ==> |Flat(p)| + 1 + |r[|p|]| <= |Flat(r)| && Flat(r)[|Flat(p)|] == |r[|p|]|
                       && Flat(r)[|Flat(p)| + 1..|Flat(p)| + 1 + |r[|p|]|] == r[|p|]
  {
    var rest := r[|p|..];
    assert p + rest == r;
    FlatAppend(p, rest);
    FlatHead(rest);
    hide Flat;
    if rest == [] {
      assert r == p;
    } else {
      assert rest[0] == r[|p|];
      ConcatNext(Flat(p), Flat(rest), rest[0]);
    }
  }

  lemma ConcatNext(f: Bytes, g: Bytes, l: Label)
    requires |g| >= 1 + |l| && g[0] == |l| && g[1..1 + |l|] == l
    ensures (f + g)[..|f|] == f && (f + g)[|f|] == |l| && (f + g)[|f| + 1..|f| + 1 + |l|] == l
  {
    assert (f + g)[|f| + 1..|f| + 1 + |l|] == g[1..1 + |l|];
  }

  lemma FlatHead(p: Path)
    requires LabelsOk(p)
    ensures p == [] ==> Flat(p) == []
    ensures p != [] ==> |Flat(p)| >= 1 + |p[0]| && Flat(p)[0] == |p[0]| && Flat(p)[1..1 + |p[0]|] == p[0]
  {
  }

  // ─── Orders ───────────────────────────────────────────────────────────────

  /** How strings compare: byte by byte. */
  predicate BytesLess(a: Bytes, b: Bytes) {
    if b == [] then false
    else if a == [] then true
    else if a[0] != b[0] then a[0] < b[0]
    else BytesLess(a[1..], b[1..])
  }

  /** compare_labels below zero: by length, then bytes. */
  predicate LabelLess(a: Label, b: Label) {
    if |a| != |b| then |a| < |b| else BytesLess(a, b)
  }

  predicate PathLess(p: Path, q: Path) {
    if q == [] then false
    else if p == [] then true
    else if p[0] != q[0] then LabelLess(p[0], q[0])
    else PathLess(p[1..], q[1..])
  }

  lemma {:induction false} SameStart(a: Bytes, x: Bytes, y: Bytes)
    ensures BytesLess(a + x, a + y) <==> BytesLess(x, y)
  {
    if a == [] {
      assert a + x == x && a + y == y;
    } else {
      SameStart(a[1..], x, y);
      assert (a + x)[1..] == a[1..] + x && (a + y)[1..] == a[1..] + y;
    }
  }

  lemma {:induction false} DecidedEarly(a: Bytes, b: Bytes, x: Bytes, y: Bytes)
    requires |a| == |b| && a != b
    ensures BytesLess(a + x, b + y) <==> BytesLess(a, b)
  {
    assert a[0] == b[0] ==> a[1..] != b[1..] by {
      assert a == [a[0]] + a[1..] && b == [b[0]] + b[1..];
    }
    if a[0] == b[0] {
      DecidedEarly(a[1..], b[1..], x, y);
      assert (a + x)[1..] == a[1..] + x && (b + y)[1..] == b[1..] + y;
    }
  }

  /** Sorting keys as bytes is sorting names label by label, and siblings in the
      order lookups search them in. */
  lemma {:induction false} FlatOrder(p: Path, q: Path)
    requires LabelsOk(p) && LabelsOk(q)
    ensures BytesLess(Flat(p), Flat(q)) <==> PathLess(p, q)
  {
    if p != [] && q != [] {
      var a, b := p[0], q[0];
      var x, y := Flat(p[1..]), Flat(q[1..]);
      assert Flat(p) == [|a|] + (a + x) && Flat(q) == [|b|] + (b + y);
      if |a| == |b| {
        SameStart([|a|], a + x, b + y);
        if a == b {
          SameStart(a, x, y);
          FlatOrder(p[1..], q[1..]);
        } else {
          DecidedEarly(a, b, x, y);
        }
      }
    }
  }

  lemma {:induction false} BytesTotal(a: Bytes, b: Bytes)
    ensures BytesLess(a, b) || BytesLess(b, a) || a == b
    ensures !(BytesLess(a, b) && BytesLess(b, a)) && !BytesLess(a, a)
  {
    if a == [] {
    } else {
      BytesTotal(a[1..], a[1..]);
    }
    if a != [] && b != [] {
      BytesTotal(a[1..], b[1..]);
      assert a == [a[0]] + a[1..] && b == [b[0]] + b[1..];
    }
  }

  lemma {:induction false} BytesTransitive(a: Bytes, b: Bytes, c: Bytes)
    requires BytesLess(a, b) && BytesLess(b, c)
    ensures BytesLess(a, c)
  {
    if a != [] && b != [] && c != [] && a[0] == b[0] == c[0] { BytesTransitive(a[1..], b[1..], c[1..]); }
  }

  lemma LabelTotal(a: Label, b: Label)
    ensures LabelLess(a, b) || LabelLess(b, a) || a == b
    ensures !(LabelLess(a, b) && LabelLess(b, a)) && !LabelLess(a, a)
  {
    BytesTotal(a, b);
    BytesTotal(a, a);
  }

  lemma LabelTransitive(a: Label, b: Label, c: Label)
    requires LabelLess(a, b) && LabelLess(b, c)
    ensures LabelLess(a, c)
  {
    if |a| == |b| == |c| { BytesTransitive(a, b, c); }
  }

  // ─── Paths below a node ───────────────────────────────────────────────────

  /** Below one node the next label decides, and the node itself comes first. */
  lemma {:induction false} PathsBelow(p: Path, a: Path, b: Path)
    requires p <= a && p <= b && !PathLess(b, a)
    ensures b == p ==> a == p
    ensures a != p && b != p ==> a[|p|] == b[|p|] || LabelLess(a[|p|], b[|p|])
  {
    if p == [] {
      if a != [] && b != [] { LabelTotal(a[0], b[0]); }
    } else {
      PathsBelow(p[1..], a[1..], b[1..]);
      assert a == [a[0]] + a[1..] && b == [b[0]] + b[1..] && p == [p[0]] + p[1..];
    }
  }
}
