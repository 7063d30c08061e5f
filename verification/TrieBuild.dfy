/** Freezing sorted rules into flat arrays, breadth first
    (core/policy/blocklist_trie.cpp, Builder::build). */
module TrieBuild {
  import opened DnsTypes
  import opened TrieKeys
  import opened TrieRules

  datatype Trie = Trie(nodes: seq<Node>, labels: Bytes, sources: seq<string>, ruleCount: nat)

  /** A node to be filled in: the rules below it, and the length of its own
      key, which starts theirs. */
  datatype Work = Work(node: nat, begin: nat, end: nat, offset: nat)

  predicate LabelAt(labels: Bytes, offset: nat, l: Label) {
    offset + |l| <= |labels| && labels[offset..offset + |l|] == l
  }

  predicate LabelIn(labels: Bytes, n: Node, l: Label) {
    n.labelLength == |l| && LabelAt(labels, n.labelOffset, l)
  }

  // ─── What a frozen trie means ─────────────────────────────────────────────

  /** A node's children: next to each other, in the order of their labels. */
  predicate Children(nodes: seq<Node>, labels: Bytes, paths: seq<Path>, k: nat)
    requires |paths| == |nodes| && k < |nodes|
  {
    var first, count := nodes[k].firstChild, nodes[k].childCount;
    && first + count <= |nodes|
    && (forall c :: first <= c < first + count ==>
          |paths[c]| == |paths[k]| + 1 && paths[c][..|paths[k]|] == paths[k] && LabelIn(labels, nodes[c],
              paths[c][|paths[k]|]))
    && (forall c, d :: first <= c < d < first + count ==> LabelLess(paths[c][|paths[k]|], paths[d][|paths[k]|]))
  }

  /** A rule below node `k` is below, or at, one of its children. */
  predicate Leads(nodes: seq<Node>, paths: seq<Path>, k: nat, p: Path)
    requires |paths| == |nodes| && k < |nodes| && nodes[k].firstChild + nodes[k].childCount <= |nodes|
  {
    paths[k] < p ==> exists c :: nodes[k].firstChild <= c < nodes[k].firstChild + nodes[k].childCount && paths[c] <= p
  }

  ghost predicate NodeOk(nodes: seq<Node>, labels: Bytes, paths: seq<Path>, rules: seq<Rule>, k: nat)
    requires |paths| == |nodes| && k < |nodes|
  {
    && LabelsOk(paths[k]) && Children(nodes, labels, paths, k)
    && NodeSays(nodes[k], OfKey(rules, Flat(paths[k])))
    && forall r :: r in rules ==> Leads(nodes, paths, k, r.Path())
  }

  // ─── Runs of rules with a common start ────────────────────────────────────

  ghost predicate InOrder(rules: seq<Rule>) {
    RulesOk(rules) && forall i, j :: 0 <= i < j < |rules| ==> !PathLess(rules[j].Path(), rules[i].Path())
  }

  lemma SortedInOrder(rules: seq<Rule>)
    requires RulesOk(rules) && Sorted(rules)
    ensures InOrder(rules)
  {
    forall i, j | 0 <= i < j < |rules|
      ensures !PathLess(rules[j].Path(), rules[i].Path())
    {
      FlatOrder(rules[j].Path(), rules[i].Path());
    }
  }

  /** The rules at and below a path are one run. */
  ghost predicate RangeOk(rules: seq<Rule>, p: Path, begin: nat, end: nat) {
    begin <= end <= |rules| && forall i :: 0 <= i < |rules| ==> (begin <= i < end <==> p <= rules[i].Path())
  }

  ghost predicate WorkOk(rules: seq<Rule>, w: Work, p: Path) {
    LabelsOk(p) && w.offset == |Flat(p)| && RangeOk(rules, p, w.begin, w.end)
  }

  /** What is read from a key at a node's offset. */
  lemma KeyAt(rules: seq<Rule>, w: Work, p: Path, i: nat)
    requires RulesOk(rules) && WorkOk(rules, w, p) && w.begin <= i < w.end
    ensures |rules[i].key| >= w.offset && (|rules[i].key| == w.offset <==> rules[i].Path() == p)
    ensures rules[i].Path() != p ==>
      && |rules[i].Path()| > |p| && ValidLabel(rules[i].Path()[|p|])
      && w.offset + 1 + |rules[i].Path()[|p|]| <= |rules[i].key| && rules[i].key[w.offset] == |rules[i].Path()[|p|]|
      && rules[i].key[w.offset + 1..w.offset + 1 + |rules[i].Path()[|p|]|] == rules[i].Path()[|p|]
    ensures p <= rules[i].Path()
  {
    FlatNext(p, rules[i].Path());
    assert p < rules[i].Path() || p == rules[i].Path();
    hide Flat, Unflat;
  }

  /** A node's own rules come first in its run. */
  lemma OwnFirst(rules: seq<Rule>, w: Work, p: Path, i: nat, j: nat)
    requires InOrder(rules) && WorkOk(rules, w, p) && w.begin <= i <= j < w.end && rules[i].Path() != p
    ensures rules[j].Path() != p
  {
    if i < j { PathsBelow(p, rules[i].Path(), rules[j].Path()); }
  }

  /** Rules `b` to `e` are those with the path `p`. */
  predicate AllOwn(rules: seq<Rule>, p: Path, b: nat, e: nat) {
    b <= e <= |rules| && forall x :: b <= x < e ==> rules[x].Path() == p
  }

  /** The first `own` rules of the run are the node's own. */
  ghost predicate OwnUpTo(rules: seq<Rule>, w: Work, p: Path, own: nat) {
    w.begin <= own <= w.end <= |rules| && AllOwn(rules, p, w.begin, own) && forall y :: own <= y < w.end ==>
      rules[y].Path() != p
  }

  lemma OfKeyParts(a: seq<Rule>, b: seq<Rule>, c: seq<Rule>, key: Bytes)
    requires OfKey(a, key) == [] && OfKey(b, key) == b && OfKey(c, key) == []
    ensures OfKey(a + b + c, key) == b
  {
    hide OfKey;
    OfKeyConcat(a, b, key);
    OfKeyConcat(a + b, c, key);
  }

  lemma OfKeyRun(rules: seq<Rule>, key: Bytes, b: nat, e: nat)
    requires b <= e <= |rules| && forall x :: 0 <= x < |rules| ==> (b <= x < e <==> rules[x].key == key)
    ensures OfKey(rules, key) == rules[b..e]
  {
    hide OfKey;
    OfKeyNone(rules[..b], key);
    OfKeyAll(rules[b..e], key);
    OfKeyNone(rules[e..], key);
    OfKeyParts(rules[..b], rules[b..e], rules[e..], key);
    assert rules == rules[..b] + rules[b..e] + rules[e..];
  }

  lemma OwnAre(rules: seq<Rule>, w: Work, p: Path, i: nat)
    requires RulesOk(rules) && WorkOk(rules, w, p) && OwnUpTo(rules, w, p, i)
    ensures OfKey(rules, Flat(p)) == rules[w.begin..i]
  {
    UnflatFlat(p);
    hide OfKey, Flat, Unflat;
    forall x | 0 <= x < |rules|
      ensures w.begin <= x < i <==> rules[x].key == Flat(p)
    {
      assert KeyOk(rules[x].key);
      assert rules[x].key == Flat(p) <==> rules[x].Path() == p;
      assert p <= p;
    }
    OfKeyRun(rules, Flat(p), w.begin, i);
  }

  /** A maximal run of equal next labels is all the rules below that label. */
  lemma GroupOk(rules: seq<Rule>, w: Work, p: Path, i: nat, j: nat, l: Label)
    requires InOrder(rules) && WorkOk(rules, w, p) && w.begin <= i < j <= w.end && ValidLabel(l)
    requires forall x :: i <= x < j ==> p + [l] <= rules[x].Path()
    requires forall x :: w.begin <= x < i ==> !(p + [l] <= rules[x].Path())
    requires j < w.end ==> !(p + [l] <= rules[j].Path())
    ensures WorkOk(rules, Work(0, i, j, w.offset + 1 + |l|), p + [l])
  {
    FlatSnoc(p, l);
    hide Flat, Unflat;
    forall x | 0 <= x < |rules| && p + [l] <= rules[x].Path()
      ensures i <= x < j
    {
      assert p == (p + [l])[..|p|] && p <= rules[x].Path();
      if j <= x {
        assert x != j;
        assert rules[i].Path()[|p|] == (p + [l])[|p|] == rules[x].Path()[|p|];
        OwnFirst(rules, w, p, i, j);
        PathsBelow(p, rules[i].Path(), rules[j].Path());
        PathsBelow(p, rules[j].Path(), rules[x].Path());
        LabelTotal(l, rules[j].Path()[|p|]);
      }
    }
  }

  /** Below a node, labels only grow along its run. */
  lemma LabelsGrow(rules: seq<Rule>, w: Work, p: Path, i: nat, j: nat)
    requires InOrder(rules) && WorkOk(rules, w, p) && w.begin <= i < j < w.end
    requires rules[i].Path() != p && rules[j].Path() != p
    ensures |rules[i].Path()| > |p| && |rules[j].Path()| > |p|
    ensures rules[i].Path()[|p|] == rules[j].Path()[|p|] || LabelLess(rules[i].Path()[|p|], rules[j].Path()[|p|])
  {
    KeyAt(rules, w, p, i);
    KeyAt(rules, w, p, j);
    hide Flat, Unflat, KeyOk;
    PathsBelow(p, rules[i].Path(), rules[j].Path());
  }

  // ─── How much is left to do ───────────────────────────────────────────────

  function Rest(rules: seq<Rule>, begin: nat, end: nat, offset: nat): nat
    requires end <= |rules|
    decreases end
  {
    if begin >= end then 0
    else (if |rules[end - 1].key| >= offset then |rules[end - 1].key| - offset else 0) + Rest(rules, begin, end - 1,
        offset)
  }

  function Todo(rules: seq<Rule>, queue: seq<Work>): nat
    requires forall w :: w in queue ==> w.end <= |rules|
  {
    if queue == [] then 0
    else 1 + Rest(rules, queue[0].begin, queue[0].end, queue[0].offset) + Todo(rules, queue[1..])
  }

  lemma {:induction false} TodoConcat(rules: seq<Rule>, a: seq<Work>, b: seq<Work>)
    requires forall w :: w in a + b ==> w.end <= |rules|
    ensures (forall w :: w in a ==> w in a + b) && (forall w :: w in b ==> w in a + b)
    ensures Todo(rules, a + b) == Todo(rules, a) + Todo(rules, b)
  {
    if a == [] {
      assert a + b == b;
    } else {
      assert (a + b)[1..] == a[1..] + b;
      TodoConcat(rules, a[1..], b);
    }
  }

  lemma {:induction false} RestSplits(rules: seq<Rule>, begin: nat, mid: nat, end: nat, offset: nat)
    requires begin <= mid <= end <= |rules|
    ensures Rest(rules, begin, end, offset) == Rest(rules, begin, mid, offset) + Rest(rules, mid, end, offset)
    decreases end
  {
    if mid < end { RestSplits(rules, begin, mid, end - 1, offset); }
  }

  /** Going one label down uses some of every key up. */
  lemma {:induction false} RestShrinks(rules: seq<Rule>, begin: nat, end: nat, offset: nat, deeper: nat)
    requires begin < end <= |rules| && offset < deeper
    requires forall x :: begin <= x < end ==> deeper <= |rules[x].key|
    ensures 1 + Rest(rules, begin, end, deeper) <= Rest(rules, begin, end, offset)
    decreases end
  {
    if begin < end - 1 { RestShrinks(rules, begin, end - 1, offset, deeper); }
  }

  // ─── One node ─────────────────────────────────────────────────────────────

  /** The rules for a node's very name. */
  method OwnRules(rules: seq<Rule>, w: Work, node: Node, ghost p: Path) returns (i: nat, n: Node)
    requires InOrder(rules) && WorkOk(rules, w, p) && NodeSays(node, [])
    ensures OwnUpTo(rules, w, p, i) && NodeSays(n, OfKey(rules, Flat(p))) && SameLabelOf(node, n)
  {
    i, n := w.begin, node;
    assert rules[w.begin..i] == [] && w.end <= |rules| && w.begin <= w.end && AllOwn(rules, p, w.begin, i);
    hide NodeSays, Merge, InOrder, WorkOk, AllOwn, OwnUpTo, OfKey, Flat;
    while i < w.end && |rules[i].key| == w.offset
      invariant w.begin <= i <= w.end && AllOwn(rules, p, w.begin, i)
      invariant NodeSays(n, rules[w.begin..i]) && SameLabelOf(node, n)
    {
      OwnOne(rules, w, p, i, n);
      n := Merge(n, rules[i]);
      i := i + 1;
    }
    OwnEnds(rules, w, p, i);
  }

  predicate SameLabelOf(n: Node, n': Node) {
    n'.labelOffset == n.labelOffset && n'.labelLength == n.labelLength
  }

  lemma OwnOne(rules: seq<Rule>, w: Work, p: Path, i: nat, n: Node)
    requires InOrder(rules) && WorkOk(rules, w, p) && w.begin <= i < w.end && |rules[i].key| == w.offset
    requires AllOwn(rules, p, w.begin, i) && NodeSays(n, rules[w.begin..i])
    ensures AllOwn(rules, p, w.begin, i + 1) && NodeSays(Merge(n, rules[i]), rules[w.begin..i + 1])
    ensures SameLabelOf(n, Merge(n, rules[i]))
  {
    KeyAt(rules, w, p, i);
    hide Flat, Unflat, KeyOk, NodeSays, InOrder, WorkOk, Merge;
    MergeSays(n, rules[w.begin..i], rules[i]);
    MergeLabel(n, rules[i]);
    SliceSnoc(rules, w.begin, i);
  }

  lemma MergeLabel(n: Node, r: Rule)
    ensures SameLabelOf(n, Merge(n, r))
  {
  }

  lemma SliceSnoc(rules: seq<Rule>, b: nat, i: nat)
    requires b <= i < |rules|
    ensures rules[b..i] + [rules[i]] == rules[b..i + 1]
  {
  }

  lemma OwnEnds(rules: seq<Rule>, w: Work, p: Path, i: nat)
    requires InOrder(rules) && WorkOk(rules, w, p) && w.begin <= i <= w.end
    requires (i < w.end ==> |rules[i].key| != w.offset)
    requires AllOwn(rules, p, w.begin, i)
    ensures OwnUpTo(rules, w, p, i) && OfKey(rules, Flat(p)) == rules[w.begin..i]
  {
    hide Flat, Unflat, KeyOk, OfKey;
    forall x | i <= x < w.end
      ensures rules[x].Path() != p
    {
      KeyAt(rules, w, p, i);
      OwnFirst(rules, w, p, i, x);
    }
    OwnAre(rules, w, p, i);
  }

  function Substr(s: Bytes, pos: nat, n: nat): Bytes
    requires pos <= |s|
  {
    s[pos..if pos + n <= |s| then pos + n else |s|]
  }

  /** Comparing that much of two keys is comparing their next labels. */
  lemma SameLabel(rules: seq<Rule>, w: Work, p: Path, i: nat, j: nat)
    requires RulesOk(rules) && WorkOk(rules, w, p) && w.begin <= i < w.end && w.begin <= j < w.end
    requires rules[i].Path() != p
    ensures |rules[i].key| > w.offset && |rules[j].key| >= w.offset && |rules[i].Path()| > |p|
    ensures Substr(rules[j].key, w.offset, 1 + rules[i].key[w.offset] as int)
            == Substr(rules[i].key, w.offset, 1 + rules[i].key[w.offset] as int)
            <==> p + [rules[i].Path()[|p|]] <= rules[j].Path()
  {
    KeyAt(rules, w, p, i);
    KeyAt(rules, w, p, j);
    hide Flat, Unflat, KeyOk, RulesOk, WorkOk;
    var l := rules[i].Path()[|p|];
    LabelBytes(rules[i].key, w.offset, l, l);
    if rules[j].Path() != p {
      LabelBytes(rules[j].key, w.offset, rules[j].Path()[|p|], l);
      PrefixLabel(p, l, rules[j].Path());
    }
  }

  lemma PrefixLabel(p: Path, l: Label, r: Path)
    requires p <= r && |r| > |p|
    ensures p + [l] <= r <==> r[|p|] == l
  {
  }

  /** Enough of a key for a label of length `|l|` tells whether its next is `l`. */
  lemma LabelBytes(key: Bytes, offset: nat, m: Label, l: Label)
    requires offset + 1 + |m| <= |key| && |m| < 0x100 && |l| < 0x100 && key[offset] == |m|
    requires key[offset + 1..offset + 1 + |m|] == m
    ensures Substr(key, offset, 1 + |l|) == [|l|] + l <==> m == l
  {
    var s := Substr(key, offset, 1 + |l|);
    assert s[0] == |m|;
    if |m| == |l| { assert s[1..] == m; }
  }

  method GroupEnd(rules: seq<Rule>, w: Work, i: nat, ghost p: Path) returns (j: nat)
    requires InOrder(rules) && WorkOk(rules, w, p) && w.begin <= i < w.end && rules[i].Path() != p
    requires |rules[i].Path()| > |p|
    ensures i < j <= w.end
    ensures forall x :: i <= x < j ==> p + [rules[i].Path()[|p|]] <= rules[x].Path()
    ensures j < w.end ==> !(p + [rules[i].Path()[|p|]] <= rules[j].Path())
  {
    KeyAt(rules, w, p, i);
    var length := rules[i].key[w.offset] as int;
    SameLabel(rules, w, p, i, i);
    j := i + 1;
    hide Flat, Unflat, KeyOk, InOrder;
    while j < w.end
      invariant i < j <= w.end
      invariant forall x :: i <= x < j ==> p + [rules[i].Path()[|p|]] <= rules[x].Path()
    {
      SameLabel(rules, w, p, i, j) by { assert InOrder(rules); }
      if Substr(rules[j].key, w.offset, 1 + length) != Substr(rules[i].key, w.offset, 1 + length) { break; }
      j := j + 1;
    }
  }

  // ─── Labels stored once ───────────────────────────────────────────────────

  ghost predicate InternOk(labels: Bytes, interned: map<Label, nat>) {
    forall l {:trigger interned[l]} :: l in interned ==> LabelAt(labels, interned[l], l)
  }

  lemma LabelStays(labels: Bytes, more: Bytes, offset: nat, l: Label)
    requires LabelAt(labels, offset, l)
    ensures LabelAt(labels + more, offset, l)
  {
    assert (labels + more)[offset..offset + |l|] == labels[offset..offset + |l|];
  }

  method Intern(
    labels: Bytes, interned: map<Label, nat>, l: Label)
    returns (labels': Bytes, interned': map<Label, nat>, offset: nat)
    requires InternOk(labels, interned)
    ensures labels <= labels' && InternOk(labels', interned') && LabelAt(labels', offset, l)
    ensures l in interned ==> labels' == labels
  {
    if l in interned {
      return labels, interned, interned[l];
    }
    labels', interned', offset := labels + l, interned[l := |labels|], |labels|;
    assert LabelAt(labels', offset, l) by { assert labels'[offset..offset + |l|] == l; }
    forall m | m in interned'
      ensures LabelAt(labels', interned'[m], m)
    {
      if m != l { LabelStays(labels, l, interned[m], m); }
    }
    hide LabelAt;
  }

  // ─── A node's children ────────────────────────────────────────────────────

  /** Node `c` waits, with the work `w` to be done on it. */
  ghost predicate Waiting(rules: seq<Rule>, nodes: seq<Node>, paths: seq<Path>, w: Work, c: nat) {
    c < |nodes| && c < |paths| && w.node == c && WorkOk(rules, w, paths[c]) && NodeSays(nodes[c], [])
  }

  /** Node `c` is a child of the node at `p`. */
  predicate IsChild(nodes: seq<Node>, labels: Bytes, paths: seq<Path>, p: Path, c: nat) {
    && c < |nodes| && c < |paths| && |paths[c]| == |p| + 1 && paths[c][..|p|] == p
    && LabelIn(labels, nodes[c], paths[c][|p|])
  }

  ghost predicate AllChildren(nodes: seq<Node>, labels: Bytes, paths: seq<Path>, p: Path, first: nat) {
    && |nodes| == |paths|
    && forall c {:trigger IsChild(nodes, labels, paths, p, c)} :: first <= c < |nodes| ==>
      IsChild(nodes, labels, paths, p, c)
  }

  ghost predicate AllWaiting(rules: seq<Rule>, nodes: seq<Node>, paths: seq<Path>, works: seq<Work>, first: nat) {
    && |nodes| == |paths| == first + |works|
    && forall x {:trigger works[x]} :: 0 <= x < |works| ==> Waiting(rules, nodes, paths, works[x], first + x)
  }

  predicate Increasing(paths: seq<Path>, first: nat, d: nat) {
    && (forall c :: first <= c < |paths| ==> |paths[c]| > d)
    && forall c, c' :: first <= c < c' < |paths| ==> LabelLess(paths[c][d], paths[c'][d])
  }

  /** The labels still to come are greater. */
  predicate Ahead(rules: seq<Rule>, paths: seq<Path>, first: nat, d: nat, i: nat, end: nat)
    requires end <= |rules| && Increasing(paths, first, d)
  {
    forall c, y :: first <= c < |paths| && i <= y < end ==>
      |rules[y].Path()| > d && LabelLess(paths[c][d], rules[y].Path()[d])
  }

  predicate CoveredBy(paths: seq<Path>, first: nat, p: Path) {
    exists c :: first <= c < |paths| && paths[c] <= p
  }

  predicate Covered(rules: seq<Rule>, paths: seq<Path>, first: nat, begin: nat, i: nat)
    requires i <= |rules|
  {
    forall y :: begin <= y < i ==> CoveredBy(paths, first, rules[y].Path())
  }

  /** The next label is none of those before. */
  lemma NewLabel(rules: seq<Rule>, w: Work, p: Path, own: nat, i: nat, paths: seq<Path>, first: nat, x: nat)
    requires WorkOk(rules, w, p) && w.begin <= own <= i < w.end && w.begin <= x < i
    requires forall y :: w.begin <= y < own ==> rules[y].Path() == p
    requires |rules[i].Path()| > |p| && Increasing(paths, first, |p|) && Ahead(rules, paths, first, |p|, i, w.end)
    requires Covered(rules, paths, first, own, i)
    ensures !(p + [rules[i].Path()[|p|]] <= rules[x].Path())
  {
    hide Flat, Unflat;
    if x >= own {
      assert CoveredBy(paths, first, rules[x].Path());
      var c :| first <= c < |paths| && paths[c] <= rules[x].Path();
      assert rules[x].Path()[|p|] == paths[c][|p|];
      LabelTotal(paths[c][|p|], rules[i].Path()[|p|]);
    }
  }

  lemma NextAhead(rules: seq<Rule>, w: Work, p: Path, own: nat, i: nat, j: nat, paths: seq<Path>, first: nat, l: Label)
    requires InOrder(rules) && WorkOk(rules, w, p) && w.begin <= own <= i < j <= w.end
    requires forall y :: own <= y < w.end ==> rules[y].Path() != p
    requires |rules[i].Path()| > |p| && l == rules[i].Path()[|p|]
    requires Increasing(paths, first, |p|) && Ahead(rules, paths, first, |p|, i, w.end)
    requires RangeOk(rules, p + [l], i, j)
    ensures Increasing(paths + [p + [l]], first, |p|) && Ahead(rules, paths + [p + [l]], first, |p|, j, w.end)
  {
    hide Flat, Unflat, KeyOk;
    forall y | j <= y < w.end
      ensures |rules[y].Path()| > |p| && LabelLess(l, rules[y].Path()[|p|])
    {
      LabelsGrow(rules, w, p, i, y);
      assert p <= rules[y].Path();
      assert !(p + [l] <= rules[y].Path());
    }
    hide RangeOk, WorkOk, InOrder, LabelLess;
  }

  lemma NextCovered(rules: seq<Rule>, paths: seq<Path>, first: nat, own: nat, i: nat, j: nat, p: Path)
    requires own <= i < j <= |rules| && first <= |paths| && Covered(rules, paths, first, own, i)
    requires RangeOk(rules, p, i, j)
    ensures Covered(rules, paths + [p], first, own, j)
  {
    hide Unflat;
    forall y | own <= y < j
      ensures CoveredBy(paths + [p], first, rules[y].Path())
    {
      if y < i {
        assert CoveredBy(paths, first, rules[y].Path());
        var c :| first <= c < |paths| && paths[c] <= rules[y].Path();
        assert (paths + [p])[c] <= rules[y].Path();
      } else {
        assert (paths + [p])[|paths|] <= rules[y].Path();
      }
    }
  }

  lemma NextWaiting(
    rules: seq<Rule>, nodes: seq<Node>, paths: seq<Path>, works: seq<Work>, first: nat, n: Node, p: Path, w: Work)
    requires AllWaiting(rules, nodes, paths, works, first) && w.node == |nodes| && WorkOk(rules, w, p)
    requires NodeSays(n, [])
    ensures AllWaiting(rules, nodes + [n], paths + [p], works + [w], first)
  {
    hide WorkOk, NodeSays;
    forall x | 0 <= x < |works| + 1
      ensures Waiting(rules, nodes + [n], paths + [p], (works + [w])[x], first + x)
    {
      if x < |works| { assert Waiting(rules, nodes, paths, works[x], first + x); }
    }
  }

  lemma NextChild(
    nodes: seq<Node>, labels: Bytes, paths: seq<Path>, p: Path, first: nat, n: Node, l: Label, labels': Bytes)
    requires AllChildren(nodes, labels, paths, p, first) && labels <= labels' && LabelIn(labels', n, l)
    ensures AllChildren(nodes + [n], labels', paths + [p + [l]], p, first)
  {
    forall c | first <= c < |nodes| + 1
      ensures IsChild(nodes + [n], labels', paths + [p + [l]], p, c)
    {
      if c < |nodes| {
        assert IsChild(nodes, labels, paths, p, c);
        LabelStays(labels, labels'[|labels|..], nodes[c].labelOffset, paths[c][|p|]);
        assert labels + labels'[|labels|..] == labels';
      } else {
        assert (p + [l])[..|p|] == p;
      }
    }
  }

  lemma NextTodo(rules: seq<Rule>, works: seq<Work>, own: nat, i: nat, j: nat, offset: nat, w: Work)
    requires (forall x :: x in works ==> x.end <= |rules|) && own <= i < j <= |rules| && w.begin == i && w.end == j
    requires Todo(rules, works) <= Rest(rules, own, i, offset) && offset < w.offset
    requires forall x :: i <= x < j ==> w.offset <= |rules[x].key|
    ensures Todo(rules, works + [w]) <= Rest(rules, own, j, offset)
  {
    TodoConcat(rules, works, [w]);
    RestSplits(rules, own, i, j, offset);
    RestShrinks(rules, i, j, offset, w.offset);
    assert Todo(rules, [w]) == 1 + Rest(rules, w.begin, w.end, w.offset);
  }

  /** The children made so far, of the rules up to `i`. */
  ghost predicate Grouped(
    rules: seq<Rule>, w: Work, p: Path, own: nat, i: nat, nodes: seq<Node>, labels: Bytes, paths: seq<Path>,
    first: nat, children: seq<Work>)
  {
    && |nodes| == |paths| && first <= |paths| && own <= i <= w.end <= |rules|
    && AllChildren(nodes, labels, paths, p, first) && AllWaiting(rules, nodes, paths, children, first)
    && Increasing(paths, first, |p|) && Ahead(rules, paths, first, |p|, i, w.end)
    && Covered(rules, paths, first, own, i)
    && (forall x :: x in children ==> x.end <= |rules|) && Todo(rules, children) <= Rest(rules, own, i, w.offset)
  }

  method AddChildren(rules: seq<Rule>, w: Work, own: nat, nodes0: seq<Node>, labels0: Bytes, interned0: map<Label, nat>,
                     ghost p: Path, ghost paths0: seq<Path>)
    returns (nodes: seq<Node>, labels: Bytes, interned: map<Label, nat>, children: seq<Work>, ghost paths: seq<Path>)
    requires InOrder(rules) && WorkOk(rules, w, p) && OwnUpTo(rules, w, p, own) && InternOk(labels0, interned0)
    requires |paths0| == |nodes0|
    ensures nodes0 <= nodes && paths0 <= paths && labels0 <= labels && InternOk(labels, interned)
    ensures Grouped(rules, w, p, own, w.end, nodes, labels, paths, |nodes0|, children)
  {
    nodes, labels, interned, children, paths := nodes0, labels0, interned0, [], paths0;
    var i := own;
    assert w.end <= |rules| && RulesOk(rules);
    NoChildren(rules, w, nodes, labels, paths, p, own);
    hide Flat, Unflat, KeyOk, InOrder, RulesOk, InternOk, LabelAt, WorkOk, Grouped, NodeSays;
    while i < w.end
      invariant own <= i <= w.end && nodes0 <= nodes && paths0 <= paths && labels0 <= labels
      invariant InternOk(labels, interned)
      invariant Grouped(rules, w, p, own, i, nodes, labels, paths, |nodes0|, children)
    {
      KeyAt(rules, w, p, i);
      var length := rules[i].key[w.offset] as int;
      var l := rules[i].key[w.offset + 1..w.offset + 1 + length];
      var j := GroupEnd(rules, w, i, p);
      var labels', interned', offset := Intern(labels, interned, l);
      var child := Node(offset, length, NO_FLAGS, 0, 0, 0, 0);
      var work := Work(|nodes|, i, j, w.offset + 1 + length);
      EmptySays(offset, length);
      ChildStep(rules, w, p, own, i, j, nodes, labels, paths, |nodes0|, children, child, l, labels', work);
      nodes, labels, interned := nodes + [child], labels', interned';
      children := children + [work];
      paths := paths + [p + [l]];
      i := j;
    }
  }

  lemma NoChildren(rules: seq<Rule>, w: Work, nodes: seq<Node>, labels: Bytes, paths: seq<Path>, p: Path, own: nat)
    requires |nodes| == |paths| && own <= w.end <= |rules|
    ensures Grouped(rules, w, p, own, own, nodes, labels, paths, |nodes|, [])
  {
  }

  lemma EmptySays(offset: nat, length: nat)
    ensures NodeSays(Node(offset, length, NO_FLAGS, 0, 0, 0, 0), [])
  {
  }

  lemma ChildStep(
    rules: seq<Rule>, w: Work, p: Path, own: nat, i: nat, j: nat, nodes: seq<Node>, labels: Bytes, paths: seq<Path>,
    first: nat, children: seq<Work>, child: Node, l: Label, labels': Bytes, work: Work)
    requires InOrder(rules) && WorkOk(rules, w, p) && OwnUpTo(rules, w, p, own) && own <= i < j <= w.end
    requires Grouped(rules, w, p, own, i, nodes, labels, paths, first, children)
    requires |rules[i].Path()| > |p| && l == rules[i].Path()[|p|] && ValidLabel(l)
    requires forall x :: i <= x < j ==> p + [l] <= rules[x].Path()
    requires j < w.end ==> !(p + [l] <= rules[j].Path())
    requires labels <= labels' && LabelIn(labels', child, l) && NodeSays(child, [])
    requires work == Work(|nodes|, i, j, w.offset + 1 + |l|)
    ensures Grouped(rules, w, p, own, j, nodes + [child], labels', paths + [p + [l]], first, children + [work])
  {
    hide Flat, Unflat, KeyOk, LabelLess, AllChildren, AllWaiting, Covered, Ahead, Increasing, LabelIn, NodeSays;
    forall x | w.begin <= x < i
      ensures !(p + [l] <= rules[x].Path())
    {
      NewLabel(rules, w, p, own, i, paths, first, x);
    }
    GroupOk(rules, w, p, i, j, l);
    assert WorkOk(rules, work, p + [l]) && RangeOk(rules, p + [l], i, j);
    forall x | i <= x < j
      ensures work.offset <= |rules[x].key|
    {
      KeyAt(rules, work, p + [l], x);
    }
    hide InOrder, RangeOk, WorkOk;
    NextChild(nodes, labels, paths, p, first, child, l, labels');
    NextWaiting(rules, nodes, paths, children, first, child, p + [l], work);
    NextAhead(rules, w, p, own, i, j, paths, first, l);
    NextCovered(rules, paths, first, own, i, j, p + [l]);
    NextTodo(rules, children, own, i, j, w.offset, work);
  }

  // ─── The whole trie ───────────────────────────────────────────────────────

  predicate Distinct(paths: seq<Path>) {
    forall c, d :: 0 <= c < d < |paths| ==> paths[c] != paths[d]
  }

  /** Every node but the root was made for one already filled in. */
  predicate FromBefore(paths: seq<Path>, done: nat, c: nat)
    requires c < |paths|
  {
    paths[c] != [] && exists k :: 0 <= k < done && k < |paths| && paths[k] == paths[c][..|paths[c]| - 1]
  }

  ghost predicate Finished(rules: seq<Rule>, nodes: seq<Node>, labels: Bytes, paths: seq<Path>, done: nat) {
    && |nodes| == |paths| && done <= |nodes|
    && forall k {:trigger NodeOk(nodes, labels, paths, rules, k)} :: 0 <= k < done ==>
      NodeOk(nodes, labels, paths, rules, k)
  }

  ghost predicate Rooted(paths: seq<Path>, done: nat) {
    && |paths| > 0 && paths[0] == [] && Distinct(paths)
    && forall c {:trigger FromBefore(paths, done, c)} :: 0 < c < |paths| ==> FromBefore(paths, done, c)
  }

  /** Nodes up to `done` are filled in; the queue is the work on the others. */
  ghost predicate Building(
    rules: seq<Rule>, nodes: seq<Node>, labels: Bytes, paths: seq<Path>, queue: seq<Work>, done: nat)
  {
    Finished(rules, nodes, labels, paths, done) && AllWaiting(rules, nodes, paths, queue, done) && Rooted(paths, done)
  }

  /** Nothing done later disturbs a node that is filled in. */
  lemma NodeStays(
    rules: seq<Rule>, nodes: seq<Node>, labels: Bytes, paths: seq<Path>, nodes': seq<Node>, labels': Bytes,
    paths': seq<Path>, k: nat)
    requires |nodes| == |paths| && k < |nodes| && NodeOk(nodes, labels, paths, rules, k)
    requires |nodes'| == |paths'| && paths <= paths' && labels <= labels' && nodes'[k] == nodes[k]
    requires forall c :: 0 <= c < |nodes| ==> SameLabelOf(nodes[c], nodes'[c])
    ensures NodeOk(nodes', labels', paths', rules, k)
  {
    var first, count := nodes[k].firstChild, nodes[k].childCount;
    assert Children(nodes', labels', paths', k) by {
      forall c | first <= c < first + count
        ensures LabelIn(labels', nodes'[c], paths'[c][|paths[k]|])
      {
        LabelStays(labels, labels'[|labels|..], nodes[c].labelOffset, paths[c][|paths[k]|]);
        assert labels + labels'[|labels|..] == labels';
        assert SameLabelOf(nodes[c], nodes'[c]);
      }
      hide LabelIn, LabelLess;
    }
    hide Children, NodeSays, Flat, Unflat;
    forall r | r in rules
      ensures Leads(nodes', paths', k, r.Path())
    {
      LeadsStays(nodes, paths, nodes', paths', k, r.Path());
    }
  }

  lemma LeadsStays(nodes: seq<Node>, paths: seq<Path>, nodes': seq<Node>, paths': seq<Path>, k: nat, p: Path)
    requires |nodes| == |paths| && k < |nodes| && |nodes'| == |paths'| && paths <= paths' && nodes'[k] == nodes[k]
    requires nodes[k].firstChild + nodes[k].childCount <= |nodes| && Leads(nodes, paths, k, p)
    ensures Leads(nodes', paths', k, p)
  {
    if paths[k] < p {
      var c :| nodes[k].firstChild <= c < nodes[k].firstChild + nodes[k].childCount && paths[c] <= p;
      assert paths'[c] <= p;
    }
  }

  /** The node just worked on. */
  lemma NodeFilled(
    rules: seq<Rule>, w: Work, own: nat, nodes: seq<Node>, labels: Bytes, paths: seq<Path>, first: nat,
    children: seq<Work>, k: nat)
    requires RulesOk(rules) && k < first <= |nodes| == |paths| && WorkOk(rules, w, paths[k])
    requires OwnUpTo(rules, w, paths[k], own)
    requires Grouped(rules, w, paths[k], own, w.end, nodes, labels, paths, first, children)
    requires nodes[k].firstChild == first && nodes[k].childCount == |nodes| - first
    requires NodeSays(nodes[k], OfKey(rules, Flat(paths[k])))
    ensures NodeOk(nodes, labels, paths, rules, k)
  {
    hide Flat, Unflat, KeyOk, NodeSays, LabelIn, LabelLess;
    assert Children(nodes, labels, paths, k) by {
      forall c | first <= c < |nodes|
        ensures |paths[c]| == |paths[k]| + 1 && paths[c][..|paths[k]|] == paths[k]
        ensures LabelIn(labels, nodes[c], paths[c][|paths[k]|])
      {
        assert IsChild(nodes, labels, paths, paths[k], c);
      }
    }
    hide Children, AllChildren, AllWaiting, Increasing;
    forall r | r in rules
      ensures Leads(nodes, paths, k, r.Path())
    {
      if paths[k] < r.Path() {
        var y :| 0 <= y < |rules| && rules[y] == r;
        assert own <= y < w.end;
        assert CoveredBy(paths, first, rules[y].Path());
      }
    }
  }

  lemma RootedStep(paths: seq<Path>, done: nat, paths': seq<Path>)
    requires Rooted(paths, done) && done < |paths| && paths <= paths'
    requires Increasing(paths', |paths|, |paths[done]|)
    requires forall c :: |paths| <= c < |paths'| ==>
               |paths'[c]| == |paths[done]| + 1 && paths'[c][..|paths[done]|] == paths[done]
    ensures Rooted(paths', done + 1)
  {
    var p := paths[done];
    forall c, d | 0 <= c < d < |paths'|
      ensures paths'[c] != paths'[d]
    {
      if d >= |paths| {
        if c >= |paths| {
          LabelTotal(paths'[c][|p|], paths'[d][|p|]);
        } else if c > 0 {
          NotThere(paths, done, c, paths'[d]);
        }
      }
    }
    var done' := done + 1;
    forall c | 0 < c < |paths'|
      ensures FromBefore(paths', done', c)
    {
      if c < |paths| {
        assert FromBefore(paths, done, c);
        var k :| 0 <= k < done && k < |paths| && paths[k] == paths[c][..|paths[c]| - 1];
        assert paths'[k] == paths'[c][..|paths'[c]| - 1];
      } else {
        assert paths'[done] == paths'[c][..|paths'[c]| - 1];
      }
    }
  }

  /** A child of the node being worked on was not there before. */
  lemma NotThere(paths: seq<Path>, done: nat, c: nat, p: Path)
    requires Rooted(paths, done) && done < |paths| && 0 < c < |paths|
    requires |p| == |paths[done]| + 1 && p[..|paths[done]|] == paths[done]
    ensures paths[c] != p
  {
    assert FromBefore(paths, done, c);
  }

  lemma WaitingStep(
    rules: seq<Rule>, nodes: seq<Node>, paths: seq<Path>, queue: seq<Work>, done: nat, nodes': seq<Node>,
    paths': seq<Path>, children: seq<Work>)
    requires AllWaiting(rules, nodes, paths, queue, done) && queue != []
    requires |nodes'| == |paths'| && paths <= paths' && |nodes| <= |nodes'|
    requires forall c :: done < c < |nodes| ==> nodes'[c] == nodes[c]
    requires AllWaiting(rules, nodes', paths', children, |nodes|)
    ensures AllWaiting(rules, nodes', paths', queue[1..] + children, done + 1)
  {
    hide WorkOk, NodeSays;
    var q := queue[1..] + children;
    forall x | 0 <= x < |q|
      ensures Waiting(rules, nodes', paths', q[x], done + 1 + x)
    {
      if x < |queue| - 1 {
        assert q[x] == queue[x + 1] && Waiting(rules, nodes, paths, queue[x + 1], done + (x + 1));
      } else {
        var y := x - (|queue| - 1);
        assert q[x] == children[y] && Waiting(rules, nodes', paths', children[y], |nodes| + y);
      }
    }
  }

  /** The node worked on, once its children are known. */
  function Linked(nodes: seq<Node>, k: nat, first: nat, count: nat): seq<Node>
    requires k < |nodes|
  {
    nodes[k := nodes[k].(firstChild := first, childCount := count)]
  }

  lemma BuildStep(rules: seq<Rule>, nodes: seq<Node>, labels: Bytes, paths: seq<Path>, queue: seq<Work>, done: nat,
                  own: nat, n: Node, nodes2: seq<Node>, labels2: Bytes, paths2: seq<Path>, children: seq<Work>)
    requires RulesOk(rules) && Building(rules, nodes, labels, paths, queue, done) && queue != []
    requires queue[0].node == done < |nodes|
    requires OwnUpTo(rules, queue[0], paths[done], own) && NodeSays(n, OfKey(rules, Flat(paths[done])) )
    requires SameLabelOf(nodes[done], n)
    requires nodes[done := n] <= nodes2 && paths <= paths2 && labels <= labels2
    requires Grouped(rules, queue[0], paths[done], own, queue[0].end, nodes2, labels2, paths2, |nodes|, children)
    ensures Building(rules, Linked(nodes2, done, |nodes|, |children|), labels2, paths2, queue[1..] + children, done + 1)
  {
    var w := queue[0];
    var nodes3 := Linked(nodes2, done, |nodes|, |children|);
    assert Waiting(rules, nodes, paths, w, done + 0);
    GroupedLinked(rules, w, paths[done], own, nodes2, labels2, paths2, |nodes|, children, done);
    hide Flat, Unflat, KeyOk, RangeOk, WorkOk, NodeSays, LabelIn, LabelLess, OwnUpTo;
    forall c | 0 <= c < |nodes|
      ensures SameLabelOf(nodes[c], nodes3[c])
    {
    }
    assert Finished(rules, nodes3, labels2, paths2, done + 1) by {
      forall k | 0 <= k < done + 1
        ensures NodeOk(nodes3, labels2, paths2, rules, k)
      {
        if k < done {
          assert NodeOk(nodes, labels, paths, rules, k);
          NodeStays(rules, nodes, labels, paths, nodes3, labels2, paths2, k);
        } else {
          SaysLinked(n, OfKey(rules, Flat(paths[done])), nodes3[done]);
          NodeFilled(rules, w, own, nodes3, labels2, paths2, |nodes|, children, done);
        }
      }
    }
    WaitingStep(rules, nodes, paths, queue, done, nodes3, paths2, children);
    ChildPaths(nodes2, labels2, paths2, paths[done], |nodes|);
    RootedStep(paths, done, paths2);
  }

  lemma ChildPaths(nodes: seq<Node>, labels: Bytes, paths: seq<Path>, p: Path, first: nat)
    requires AllChildren(nodes, labels, paths, p, first)
    ensures forall c :: first <= c < |paths| ==> |paths[c]| == |p| + 1 && paths[c][..|p|] == p
  {
    forall c | first <= c < |paths|
      ensures |paths[c]| == |p| + 1 && paths[c][..|p|] == p
    {
      assert IsChild(nodes, labels, paths, p, c);
    }
  }

  lemma SaysLinked(n: Node, own: seq<Rule>, n': Node)
    requires NodeSays(n, own) && n' == n.(firstChild := n'.firstChild, childCount := n'.childCount)
    ensures NodeSays(n', own)
  {
  }

  lemma GroupedLinked(
    rules: seq<Rule>, w: Work, p: Path, own: nat, nodes: seq<Node>, labels: Bytes, paths: seq<Path>, first: nat,
    children: seq<Work>, k: nat)
    requires Grouped(rules, w, p, own, w.end, nodes, labels, paths, first, children) && k < first
    ensures Grouped(rules, w, p, own, w.end, Linked(nodes, k, first, |children|), labels, paths, first, children)
  {
    var nodes' := Linked(nodes, k, first, |children|);
    hide WorkOk, NodeSays, LabelIn, LabelLess, Increasing, Covered, Todo, Rest, Unflat;
    forall c | first <= c < |nodes|
      ensures IsChild(nodes', labels, paths, p, c)
    {
      assert IsChild(nodes, labels, paths, p, c);
    }
    forall x | 0 <= x < |children|
      ensures Waiting(rules, nodes', paths, children[x], first + x)
    {
      assert Waiting(rules, nodes, paths, children[x], first + x);
    }
  }

  /** A frozen trie records the rules: each node those for its own name, oldest
      first, and each rule's name has a node. */
  ghost predicate TrieOk(t: Trie, paths: seq<Path>, rules: seq<Rule>) {
    && |paths| > 0 && paths[0] == [] && Distinct(paths) && Finished(rules, t.nodes, t.labels, paths, |t.nodes|)
  }

  /** The order of rules for different names does not matter. */
  lemma SortedTrie(t: Trie, paths: seq<Path>, rules: seq<Rule>)
    requires TrieOk(t, paths, StableSort(rules))
    ensures TrieOk(t, paths, rules)
  {
    var sorted := StableSort(rules);
    forall k | 0 <= k < |t.nodes|
      ensures NodeOk(t.nodes, t.labels, paths, rules, k)
    {
      assert NodeOk(t.nodes, t.labels, paths, sorted, k);
      SortKeepsEach(rules, Flat(paths[k]));
      forall r | r in rules
        ensures Leads(t.nodes, paths, k, r.Path())
      {
        SortKeepsEach(rules, r.key);
        assert r in OfKey(rules, r.key);
        assert r in sorted;
      }
      hide StableSort, NodeSays, Children, Leads, Flat, Unflat;
    }
  }

  /** One node of the queue: its own rules, then its children. */
  method FillNode(
    rules: seq<Rule>, nodes: seq<Node>, labels: Bytes, interned: map<Label, nat>, queue: seq<Work>,
    ghost paths: seq<Path>, ghost done: nat)
    returns (nodes': seq<Node>, labels': Bytes, interned': map<Label, nat>, queue': seq<Work>, ghost paths': seq<Path>)
    requires InOrder(rules) && Building(rules, nodes, labels, paths, queue, done) && InternOk(labels, interned)
    requires queue != []
    requires forall x :: x in queue ==> x.end <= |rules|
    ensures Building(rules, nodes', labels', paths', queue', done + 1) && InternOk(labels', interned')
    ensures (forall x :: x in queue' ==> x.end <= |rules|) && Todo(rules, queue') < Todo(rules, queue)
  {
    var w := queue[0];
    Front(rules, nodes, labels, paths, queue, done);
    assert RulesOk(rules);
    hide InOrder, Building, NodeSays, WorkOk, Flat, OfKey, Grouped, Todo, RulesOk, InternOk;
    var own, n := OwnRules(rules, w, nodes[w.node], paths[done]);
    var children;
    nodes', labels', interned', children, paths' := AddChildren(rules, w, own, nodes[w.node := n], labels, interned,
                                                                paths[done], paths);
    BuildStep(rules, nodes, labels, paths, queue, done, own, n, nodes', labels', paths', children);
    LessTodo(rules, queue, paths[done], own, nodes', labels', paths', |nodes|, children);
    nodes' := Linked(nodes', w.node, |nodes|, |children|);
    queue' := queue[1..] + children;
  }

  /** build: sort, then make the nodes breadth first. */
  method Freeze(rules: seq<Rule>, sources: seq<string>) returns (t: Trie, ghost paths: seq<Path>)
    requires RulesOk(rules)
    ensures TrieOk(t, paths, rules) && t.sources == sources
    ensures t.ruleCount == |set r | r in rules :: r.key|
  {
    var sorted := StableSort(rules);
    SortIsStable(rules);
    SortedInOrder(sorted);
    var nodes, labels: Bytes, interned: map<Label, nat> := [Node(0, 0, NO_FLAGS, 0, 0, 0, 0)], [], map[];
    var queue := [Work(0, 0, |sorted|, 0)];
    ghost var done: nat := 0;
    paths := [[]];
    StartsBuilding(sorted, queue[0]);
    assert InternOk(labels, interned);
    hide StableSort, InOrder, Building, InternOk, Todo, TrieOk;
    while queue != []
      invariant Building(sorted, nodes, labels, paths, queue, done) && InternOk(labels, interned)
      invariant forall x :: x in queue ==> x.end <= |sorted|
      decreases Todo(sorted, queue)
    {
      nodes, labels, interned, queue, paths := FillNode(sorted, nodes, labels, interned, queue, paths, done);
      done := done + 1;
    }
    var count := CountRuled(nodes);
    t := Trie(nodes, labels, sources, count);
    Built(sorted, t, paths, done);
    SortedTrie(t, paths, rules);
    RuleCount(t, paths, rules);
  }

  lemma StartsBuilding(rules: seq<Rule>, w: Work)
    requires w == Work(0, 0, |rules|, 0)
    ensures Building(rules, [Node(0, 0, NO_FLAGS, 0, 0, 0, 0)], [], [[]], [w], 0)
  {
    EmptySays(0, 0);
    hide NodeSays;
    assert Flat([]) == [];
    assert WorkOk(rules, w, []);
  }

  lemma Front(rules: seq<Rule>, nodes: seq<Node>, labels: Bytes, paths: seq<Path>, queue: seq<Work>, done: nat)
    requires Building(rules, nodes, labels, paths, queue, done) && queue != []
    ensures queue[0].node == done < |nodes| == |paths| && WorkOk(rules, queue[0], paths[done])
    ensures NodeSays(nodes[done], [])
  {
    assert Waiting(rules, nodes, paths, queue[0], done + 0);
    hide NodeSays, WorkOk;
  }

  lemma LessTodo(
    rules: seq<Rule>, queue: seq<Work>, p: Path, own: nat, nodes: seq<Node>, labels: Bytes, paths: seq<Path>,
    first: nat, children: seq<Work>)
    requires queue != [] && (forall x :: x in queue ==> x.end <= |rules|) && queue[0].begin <= own
    requires Grouped(rules, queue[0], p, own, queue[0].end, nodes, labels, paths, first, children)
    ensures forall x :: x in queue[1..] + children ==> x.end <= |rules|
    ensures Todo(rules, queue[1..] + children) < Todo(rules, queue)
  {
    var w := queue[0];
    TodoConcat(rules, queue[1..], children);
    RestSplits(rules, w.begin, own, w.end, w.offset);
    hide AllChildren, AllWaiting, Increasing, Ahead, Covered;
  }

  lemma Built(rules: seq<Rule>, t: Trie, paths: seq<Path>, done: nat)
    requires Building(rules, t.nodes, t.labels, paths, [], done)
    ensures TrieOk(t, paths, rules)
  {
  }

  // ─── How many domains have a rule ─────────────────────────────────────────

  method CountRuled(nodes: seq<Node>) returns (count: nat)
    ensures count == |Ruled(nodes)|
  {
    count := 0;
    var i := 0;
    while i < |nodes|
      invariant 0 <= i <= |nodes| && count == |Ruled(nodes[..i])|
    {
      RuledSnoc(nodes[..i], nodes[i]);
      assert nodes[..i] + [nodes[i]] == nodes[..i + 1];
      if nodes[i].flags != NO_FLAGS { count := count + 1; }
      i := i + 1;
    }
    assert nodes[..i] == nodes;
  }

  function Ruled(nodes: seq<Node>): set<nat> {
    set k | 0 <= k < |nodes| && nodes[k].flags != NO_FLAGS
  }

  lemma RuledSnoc(nodes: seq<Node>, n: Node)
    ensures |Ruled(nodes + [n])| == |Ruled(nodes)| + if n.flags != NO_FLAGS then 1 else 0
  {
    var all := Ruled(nodes + [n]);
    if n.flags != NO_FLAGS {
      assert all == Ruled(nodes) + {|nodes|};
    } else {
      assert all == Ruled(nodes);
    }
  }

  /** Every rule's name has a node, found going down from any node above it. */
  lemma {:induction false} NodeFor(t: Trie, paths: seq<Path>, rules: seq<Rule>, r: Rule, k: nat) returns (c: nat)
    requires TrieOk(t, paths, rules) && r in rules && k < |t.nodes| && paths[k] <= r.Path()
    ensures c < |t.nodes| && paths[c] == r.Path()
    decreases |r.Path()| - |paths[k]|
  {
    assert NodeOk(t.nodes, t.labels, paths, rules, k);
    if paths[k] == r.Path() {
      c := k;
    } else {
      assert Leads(t.nodes, paths, k, r.Path());
      hide Flat, Unflat, NodeSays, LabelIn, LabelLess;
      var d :| t.nodes[k].firstChild <= d < t.nodes[k].firstChild + t.nodes[k].childCount && paths[d] <= r.Path();
      c := NodeFor(t, paths, rules, r, d);
    }
  }

  lemma {:induction false} SameSize<A, B>(a: set<A>, b: set<B>, f: A -> B)
    requires forall x :: x in a ==> f(x) in b
    requires forall x, y :: x in a && y in a && f(x) == f(y) ==> x == y
    requires forall z :: z in b ==> exists x :: x in a && f(x) == z
    ensures |a| == |b|
    decreases a
  {
    if a != {} {
      var x :| x in a;
      SameSize(a - {x}, b - {f(x)}, f);
    } else {
      assert b == {};
    }
  }

  lemma RuleCount(t: Trie, paths: seq<Path>, rules: seq<Rule>)
    requires TrieOk(t, paths, rules) && RulesOk(rules)
    ensures |Ruled(t.nodes)| == |set r | r in rules :: r.key|
  {
    var keys := set r | r in rules :: r.key;
    var f := (k: nat) => if k < |paths| && LabelsOk(paths[k]) then Flat(paths[k]) else [];
    forall k | 0 <= k < |t.nodes|
      ensures k in Ruled(t.nodes) <==> f(k) in keys
    {
      RuledKey(t, paths, rules, k);
    }
    forall k, d | 0 <= k < |t.nodes| && 0 <= d < |t.nodes| && f(k) == f(d)
      ensures k == d
    {
      assert NodeOk(t.nodes, t.labels, paths, rules, k) && NodeOk(t.nodes, t.labels, paths, rules, d);
      UnflatFlat(paths[k]);
      UnflatFlat(paths[d]);
    }
    forall z | z in keys
      ensures exists k :: k in Ruled(t.nodes) && f(k) == z
    {
      var r :| r in rules && r.key == z;
      var k := NodeFor(t, paths, rules, r, 0);
      assert f(k) == z;
    }
    hide NodeOk, Flat, Unflat;
    SameSize(Ruled(t.nodes), keys, f);
  }

  lemma RuledKey(t: Trie, paths: seq<Path>, rules: seq<Rule>, k: nat)
    requires TrieOk(t, paths, rules) && k < |t.nodes|
    ensures LabelsOk(paths[k]) && (k in Ruled(t.nodes) <==> exists r :: r in rules && r.key == Flat(paths[k]))
  {
    assert NodeOk(t.nodes, t.labels, paths, rules, k);
    var key := Flat(paths[k]);
    var own := OfKey(rules, key);
    hide Flat, Unflat, FirstSource, Children, Leads;
    if k in Ruled(t.nodes) {
      var r :| r in own;
      assert r in rules && r.key == key;
    }
    if r :| r in rules && r.key == key {
      assert r in own && HasRule(own, r.action, r.subtree);
    }
  }
}
