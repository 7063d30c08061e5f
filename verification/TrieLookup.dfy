/** Looking names up in a frozen trie, and the builder that makes one: the answer
    is what trying every rule in turn would give
    (core/policy/blocklist_trie.cpp). */
module TrieLookup {
  import opened DnsTypes
  import opened TrieKeys
  import opened TrieRules
  import opened TrieBuild

  // ─── By trying every rule ─────────────────────────────────────────────────

  /** A rule as it was added. */
  datatype Added = Added(name: seq<Label>, action: ListAction, subtree: bool, source: string)

  predicate Covers(a: Added, q: seq<Label>) {
    if a.subtree then IsSuffix(a.name, q) else a.name == q
  }

  datatype TrieLookupResult = TrieLookupResult(matched: bool, action: ListAction, rule: seq<Label>, source: string)

  const NO_MATCH := TrieLookupResult(false, Block, [], "")

  predicate Matches(added: seq<Added>, q: seq<Label>, action: ListAction) {
    exists a :: a in added && a.action == action && Covers(a, q)
  }

  /** The list names, in the order first mentioned. */
  function Sources(added: seq<Added>): seq<string> {
    if added == [] then []
    else
      var before := Sources(added[..|added| - 1]);
      var s := added[|added| - 1].source;
      if s in before then before else before + [s]
  }

  function IndexOf(sources: seq<string>, s: string): (i: nat)
    requires s in sources
    ensures i < |sources| && sources[i] == s && s !in sources[..i]
  {
    if sources[0] == s then 0
    else
      assert s in sources[1..];
      assert sources[..1 + IndexOf(sources[1..], s)] == [sources[0]] + sources[1..][..IndexOf(sources[1..], s)];
      1 + IndexOf(sources[1..], s)
  }

  /** The first rule added for a domain, of an action. */
  predicate IsFirst(added: seq<Added>, name: seq<Label>, action: ListAction, i: nat) {
    && i < |added| && added[i].name == name && added[i].action == action
    && forall j :: 0 <= j < i ==> !(added[j].name == name && added[j].action == action)
  }

  /** The answer: allow beats block at any depth, the deepest rule is reported,
      and the list it first came from. List numbers have sixteen bits. */
  ghost predicate IsAnswer(added: seq<Added>, q: seq<Label>, res: TrieLookupResult) {
    if !Matches(added, q, Block) && !Matches(added, q, Allow) then res == NO_MATCH
    else
      && res.matched && res.action == (if Matches(added, q, Allow) then Allow else Block)
      && IsDeepest(added, q, res.action, res.rule)
      && exists i :: IsFirst(added, res.rule, res.action, i) && Reported(added, i, res.source)
  }

  /** A rule for `name` covers the query, and none of its kind is deeper. */
  predicate IsDeepest(added: seq<Added>, q: seq<Label>, action: ListAction, name: seq<Label>) {
    && (exists a :: a in added && a.action == action && Covers(a, q) && a.name == name)
    && (forall a :: a in added && a.action == action && Covers(a, q) ==> |a.name| <= |name|)
  }

  ghost predicate Reported(added: seq<Added>, i: nat, source: string)
    requires i < |added|
  {
    var s := Sources(added);
    && (added[i].source in s ==> source == s[IndexOf(s, added[i].source) % 0x1_0000])
    && (|s| <= 0x1_0000 ==> source == added[i].source)
  }

  /** There is only one answer. */
  lemma AnswerUnique(added: seq<Added>, q: seq<Label>, r: TrieLookupResult, r': TrieLookupResult)
    requires IsAnswer(added, q, r) && IsAnswer(added, q, r')
    ensures r == r'
  {
    if Matches(added, q, Block) || Matches(added, q, Allow) {
      var a :| a in added && a.action == r.action && Covers(a, q) && a.name == r.rule;
      var a' :| a' in added && a'.action == r.action && Covers(a', q) && a'.name == r'.rule;
      assert a.name == q[|q| - |a.name|..] && a'.name == q[|q| - |a'.name|..];
      hide Covers, Matches, Sources, IndexOf;
      var i :| IsFirst(added, r.rule, r.action, i) && Reported(added, i, r.source);
      var i' :| IsFirst(added, r.rule, r.action, i') && Reported(added, i', r'.source);
      assert i == i';
      SourcesHave(added, i);
    }
  }

  // ─── Rules as stored ──────────────────────────────────────────────────────

  predicate AddedOk(added: seq<Added>) {
    forall i :: 0 <= i < |added| ==> LabelsOk(added[i].name)
  }

  lemma ReversedOk(ls: seq<Label>)
    requires LabelsOk(ls)
    ensures LabelsOk(Reversed(ls))
  {
    ReversedAt(ls);
  }

  function RuleFor(a: Added, sources: seq<string>): Rule
    requires LabelsOk(a.name) && a.source in sources
  {
    ReversedOk(a.name);
    Rule(Flat(Reversed(a.name)), a.action, a.subtree, IndexOf(sources, a.source) % 0x1_0000)
  }

  lemma {:induction false} SourcesHave(added: seq<Added>, i: nat)
    requires i < |added|
    ensures added[i].source in Sources(added)
  {
    if i < |added| - 1 { SourcesHave(added[..|added| - 1], i); }
  }

  lemma {:induction false} IndexStays(sources: seq<string>, more: seq<string>, s: string)
    requires s in sources
    ensures s in sources + more && IndexOf(sources + more, s) == IndexOf(sources, s)
  {
    if sources[0] != s {
      assert (sources + more)[1..] == sources[1..] + more;
      IndexStays(sources[1..], more, s);
    }
  }

  predicate Stored(rules: seq<Rule>, added: seq<Added>, sources: seq<string>) {
    && |rules| == |added| && AddedOk(added)
    && forall i :: 0 <= i < |added| ==> added[i].source in sources && rules[i] == RuleFor(added[i], sources)
  }

  /** A trie for these rules. */
  ghost predicate TrieFor(t: Trie, added: seq<Added>, rules: seq<Rule>, paths: seq<Path>) {
    Stored(rules, added, t.sources) && t.sources == Sources(added) && TrieOk(t, paths, rules)
  }

  // ─── The builder ──────────────────────────────────────────────────────────

  class Builder {
    var rules: seq<Rule>
    var sources: seq<string>
    ghost var added: seq<Added>

    ghost predicate Valid()
      reads this
    {
      Stored(rules, added, sources) && sources == Sources(added)
    }

    constructor ()
      ensures Valid() && added == []
    {
      rules, sources, added := [], [], [];
    }

    method SourceId(source: string) returns (id: u16)
      modifies this`sources
      ensures sources == if source in old(sources) then old(sources) else old(sources) + [source]
      ensures source in sources && id == IndexOf(sources, source) % 0x1_0000
    {
      var i := 0;
      while i < |sources|
        invariant 0 <= i <= |sources| && sources == old(sources) && source !in sources[..i]
      {
        if sources[i] == source {
          assert IndexOf(sources, source) == i;
          return i % 0x1_0000;
        }
        i := i + 1;
      }
      assert sources[..i] == sources;
      sources := sources + [source];
      assert IndexOf(sources, source) == |sources| - 1;
      return (|sources| - 1) % 0x1_0000;
    }

    method Add(name: seq<Label>, action: ListAction, source: string, subtree: bool)
      requires Valid() && LabelsOk(name)
      modifies this
      ensures Valid() && added == old(added) + [Added(name, action, subtree, source)]
    {
      var key := MakeKey(name);
      var id := SourceId(source);
      rules := rules + [Rule(key, action, subtree, id)];
      added := added + [Added(name, action, subtree, source)];
      StoredSnoc(old(rules), old(added), old(sources), Added(name, action, subtree, source), rules, added, sources);
    }

    /** The trie of all rules added since the last build. */
    method Build() returns (t: Trie)
      requires Valid()
      modifies this
      ensures exists rules0, paths :: TrieFor(t, old(added), rules0, paths)
      ensures t.ruleCount == |set a | a in old(added) :: a.name|
      ensures Valid() && added == []
    {
      ghost var paths;
      StoredOk(rules, added, sources);
      t, paths := Freeze(rules, sources);
      assert TrieFor(t, added, rules, paths);
      CountNames(rules, added, sources);
      rules, sources, added := [], [], [];
    }
  }

  /** The labels in reverse, each after its length. */
  method MakeKey(name: seq<Label>) returns (key: Bytes)
    requires LabelsOk(name)
    ensures LabelsOk(Reversed(name)) && key == Flat(Reversed(name))
  {
    key := [];
    var i := |name|;
    while i > 0
      invariant 0 <= i <= |name| && key == KeyFrom(name, i)
    {
      i := i - 1;
      key := key + [|name[i]|] + name[i];
      KeyStep(name, i);
    }
    KeyWhole(name);
  }

  /** The key of the labels from `i` on, the last first. */
  function KeyFrom(name: seq<Label>, i: nat): Bytes
    requires i <= |name| && LabelsOk(name)
  {
    ReversedOk(name[i..]);
    Flat(Reversed(name[i..]))
  }

  lemma KeyStep(name: seq<Label>, i: nat)
    requires i < |name| && LabelsOk(name)
    ensures KeyFrom(name, i) == KeyFrom(name, i + 1) + [|name[i]|] + name[i]
  {
    assert name[i..][1..] == name[i + 1..];
    ReversedOk(name[i + 1..]);
    FlatSnoc(Reversed(name[i + 1..]), name[i]);
  }

  lemma KeyWhole(name: seq<Label>)
    requires LabelsOk(name)
    ensures LabelsOk(Reversed(name)) && KeyFrom(name, 0) == Flat(Reversed(name))
  {
    assert name[0..] == name;
    ReversedOk(name);
  }

  lemma StoredSnoc(
    rules: seq<Rule>, added: seq<Added>, sources: seq<string>, a: Added, rules': seq<Rule>, added': seq<Added>,
    sources': seq<string>)
    requires Stored(rules, added, sources) && sources == Sources(added) && LabelsOk(a.name)
    requires sources' == (if a.source in sources then sources else sources + [a.source]) && added' == added + [a]
    requires a.source in sources' && rules' == rules + [RuleFor(a, sources')]
    ensures Stored(rules', added', sources') && sources' == Sources(added')
  {
    assert added'[..|added'| - 1] == added;
    forall i | 0 <= i < |added|
      ensures added[i].source in sources' && rules'[i] == RuleFor(added'[i], sources')
    {
      IndexStays(sources, sources'[|sources|..], added[i].source);
      assert sources + sources'[|sources|..] == sources';
    }
    hide Flat, Sources;
  }

  lemma StoredOk(rules: seq<Rule>, added: seq<Added>, sources: seq<string>)
    requires Stored(rules, added, sources)
    ensures RulesOk(rules)
  {
    forall i | 0 <= i < |rules|
      ensures KeyOk(rules[i].key)
    {
      ReversedOk(added[i].name);
      FlatOk(Reversed(added[i].name));
    }
  }

  function KeyOfName(name: seq<Label>): Bytes {
    if LabelsOk(Reversed(name)) then Flat(Reversed(name)) else []
  }

  lemma KeyOfNameInjective(a: seq<Label>, b: seq<Label>)
    requires LabelsOk(a) && LabelsOk(b) && KeyOfName(a) == KeyOfName(b)
    ensures a == b
  {
    ReversedOk(a);
    ReversedOk(b);
    UnflatFlat(Reversed(a));
    UnflatFlat(Reversed(b));
    ReversedInjective(a, b);
  }

  lemma ReversedInjective(a: seq<Label>, b: seq<Label>)
    requires Reversed(a) == Reversed(b)
    ensures a == b
  {
    ReversedAt(a);
    ReversedAt(b);
    forall i | 0 <= i < |a|
      ensures a[i] == b[i]
    {
      assert a[i] == Reversed(a)[|a| - 1 - i] && b[i] == Reversed(b)[|b| - 1 - i];
    }
  }

  lemma CountNames(rules: seq<Rule>, added: seq<Added>, sources: seq<string>)
    requires Stored(rules, added, sources)
    ensures |set r | r in rules :: r.key| == |set a | a in added :: a.name|
  {
    var names := set a | a in added :: a.name;
    var keys := set r | r in rules :: r.key;
    forall i | 0 <= i < |added|
      ensures rules[i].key == KeyOfName(added[i].name)
    {
      ReversedOk(added[i].name);
    }
    forall n | n in names
      ensures KeyOfName(n) in keys && LabelsOk(n)
    {
      var i :| 0 <= i < |added| && added[i].name == n;
      assert rules[i] in rules;
    }
    forall m, n | m in names && n in names && KeyOfName(m) == KeyOfName(n)
      ensures m == n
    {
      KeyOfNameInjective(m, n);
    }
    forall k | k in keys
      ensures exists n :: n in names && KeyOfName(n) == k
    {
      var i :| 0 <= i < |rules| && rules[i].key == k;
      assert added[i] in added && added[i].name in names;
    }
    hide KeyOfName, Flat;
    SameSize(names, keys, KeyOfName);
  }

  // ─── Lookup ───────────────────────────────────────────────────────────────

  function LabelOf(t: Trie, n: Node): Label
    requires n.labelOffset + n.labelLength <= |t.labels|
  {
    t.labels[n.labelOffset..n.labelOffset + n.labelLength]
  }

  /** Children by label, each stored with its own. */
  ghost predicate Ordered(t: Trie, first: nat, count: nat) {
    && first + count <= |t.nodes|
    && (forall c :: first <= c < first + count ==> t.nodes[c].labelOffset + t.nodes[c].labelLength <= |t.labels|)
    && (forall c, d :: first <= c < d < first + count ==> LabelLess(LabelOf(t, t.nodes[c]), LabelOf(t, t.nodes[d])))
  }

  /** std::lower_bound: the first child whose label is not less. */
  method LowerBound(t: Trie, first: nat, count: nat, l: Label) returns (it: nat)
    requires Ordered(t, first, count)
    ensures first <= it <= first + count
    ensures forall c :: first <= c < it ==> LabelLess(LabelOf(t, t.nodes[c]), l)
    ensures forall c :: it <= c < first + count ==> !LabelLess(LabelOf(t, t.nodes[c]), l)
  {
    var lo, hi := first, first + count;
    while lo < hi
      invariant first <= lo <= hi <= first + count
      invariant forall c :: first <= c < lo ==> LabelLess(LabelOf(t, t.nodes[c]), l)
      invariant forall c :: hi <= c < first + count ==> !LabelLess(LabelOf(t, t.nodes[c]), l)
    {
      var mid := (lo + hi) / 2;
      if LabelLess(LabelOf(t, t.nodes[mid]), l) {
        forall c | first <= c < mid
          ensures LabelLess(LabelOf(t, t.nodes[c]), l)
        {
          LabelTransitive(LabelOf(t, t.nodes[c]), LabelOf(t, t.nodes[mid]), l);
        }
        lo := mid + 1;
      } else {
        forall c | mid <= c < first + count
          ensures !LabelLess(LabelOf(t, t.nodes[c]), l)
        {
          if mid < c && LabelLess(LabelOf(t, t.nodes[c]), l) {
            LabelTransitive(LabelOf(t, t.nodes[mid]), LabelOf(t, t.nodes[c]), l);
          }
        }
        hi := mid;
      }
    }
    it := lo;
  }

  method Child(t: Trie, k: nat, l: Label) returns (r: Option<nat>)
    requires k < |t.nodes| && Ordered(t, t.nodes[k].firstChild, t.nodes[k].childCount)
    ensures var n := t.nodes[k];
            if r.Some? then n.firstChild <= r.value < n.firstChild + n.childCount && LabelOf(t, t.nodes[r.value]) == l
            else forall c :: n.firstChild <= c < n.firstChild + n.childCount ==> LabelOf(t, t.nodes[c]) != l
  {
    var n := t.nodes[k];
    var it := LowerBound(t, n.firstChild, n.childCount, l);
    if it != n.firstChild + n.childCount && LabelOf(t, t.nodes[it]) == l {
      return Some(it);
    }
    forall c | n.firstChild <= c < n.firstChild + n.childCount
      ensures LabelOf(t, t.nodes[c]) != l
    {
      LabelTotal(l, l);
      if it < c { LabelTotal(LabelOf(t, t.nodes[it]), l); }
    }
    return None;
  }

  /** The children of a node of a sound trie can be searched, and searching
      misses no rule. */
  lemma ChildrenOrdered(t: Trie, paths: seq<Path>, rules: seq<Rule>, k: nat)
    requires TrieOk(t, paths, rules) && k < |t.nodes|
    ensures Ordered(t, t.nodes[k].firstChild, t.nodes[k].childCount)
    ensures forall c :: t.nodes[k].firstChild <= c < t.nodes[k].firstChild + t.nodes[k].childCount ==>
              paths[c] == paths[k] + [LabelOf(t, t.nodes[c])]
  {
    assert NodeOk(t.nodes, t.labels, paths, rules, k);
    hide NodeSays, Leads, Flat, Unflat, LabelLess;
    var n := t.nodes[k];
    forall c | n.firstChild <= c < n.firstChild + n.childCount
      ensures t.nodes[c].labelOffset + t.nodes[c].labelLength <= |t.labels|
      ensures paths[c] == paths[k] + [LabelOf(t, t.nodes[c])]
    {
      assert paths[c] == paths[c][..|paths[k]|] + [paths[c][|paths[k]|]];
    }
  }

  /** Below a node, a rule leads to the child for its next label. */
  lemma ChildFor(t: Trie, paths: seq<Path>, rules: seq<Rule>, k: nat, l: Label, r: Rule) returns (c: nat)
    requires TrieOk(t, paths, rules) && k < |t.nodes| && r in rules && paths[k] + [l] <= r.Path()
    ensures t.nodes[k].firstChild <= c < t.nodes[k].firstChild + t.nodes[k].childCount && c < |paths|
    ensures paths[c] == paths[k] + [l]
  {
    assert NodeOk(t.nodes, t.labels, paths, rules, k);
    hide NodeSays, Flat, Unflat, LabelIn, LabelLess;
    assert paths[k] < r.Path() && Leads(t.nodes, paths, k, r.Path());
    c :| t.nodes[k].firstChild <= c < t.nodes[k].firstChild + t.nodes[k].childCount && paths[c] <= r.Path();
    assert paths[c] == r.Path()[..|paths[k]| + 1] == paths[k] + [l];
  }

  // A rule at depth `d` of the name: `d` of its labels, from the top.

  predicate Hit(rules: seq<Rule>, q: Path, d: nat, action: ListAction) {
    d <= |q| && exists r :: r in rules && r.action == action && r.Path() == q[..d] && (r.subtree || d == |q|)
  }

  /** What a node at depth `d` of the name says of it. */
  lemma HitAt(t: Trie, paths: seq<Path>, rules: seq<Rule>, k: nat, q: Path, action: ListAction)
    requires TrieOk(t, paths, rules) && RulesOk(rules) && k < |t.nodes| && paths[k] <= q
    ensures LabelsOk(paths[k])
    ensures Hit(rules, q, |paths[k]|, action) <==> t.nodes[k].flags.Covers(action, |paths[k]| == |q|)
    ensures t.nodes[k].Source(action) == FirstSource(OfKey(rules, Flat(paths[k])), action)
  {
    assert NodeOk(t.nodes, t.labels, paths, rules, k);
    var own := OfKey(rules, Flat(paths[k]));
    UnflatFlat(paths[k]);
    assert q[..|paths[k]|] == paths[k];
    hide Flat, Unflat, FirstSource, Children, Leads;
    if r :| r in rules && r.action == action && r.Path() == paths[k] && (r.subtree || |paths[k]| == |q|) {
      assert KeyOk(r.key) && r in own && HasRule(own, action, r.subtree);
    }
    forall subtree | HasRule(own, action, subtree)
      ensures exists r :: r in rules && r.action == action && r.Path() == paths[k] && r.subtree == subtree
    {
      var r :| r in own && r.action == action && r.subtree == subtree;
      assert r in rules && r.Path() == paths[k];
    }
  }

  /** The deepest hit above depth `d`, if any, and its source. */
  ghost predicate Tracks(rules: seq<Rule>, q: Path, d: nat, action: ListAction, found: bool, best: nat, source: u16) {
    && LabelsOk(q)
    && (if found then best < d && Hit(rules, q, best, action) && source == FirstSource(OfKey(rules, Flat(q[..best])),
        action)
        else true)
    && forall e {:trigger Hit(rules, q, e, action)} :: 0 <= e < d && (found ==> best < e) ==> !Hit(rules, q, e, action)
  }

  lemma TrackStep(
    t: Trie, paths: seq<Path>, rules: seq<Rule>, k: nat, q: Path, action: ListAction, found: bool, best: nat,
    source: u16)
    requires TrieOk(t, paths, rules) && RulesOk(rules) && k < |t.nodes| && paths[k] <= q
    requires Tracks(rules, q, |paths[k]|, action, found, best, source)
    ensures if t.nodes[k].flags.Covers(action, |paths[k]| == |q|)
            then Tracks(rules, q, |paths[k]| + 1, action, true, |paths[k]|, t.nodes[k].Source(action))
            else Tracks(rules, q, |paths[k]| + 1, action, found, best, source)
  {
    HitAt(t, paths, rules, k, q, action);
    assert q[..|paths[k]|] == paths[k];
    hide TrieOk, Hit, OfKey, FirstSource, Flat;
  }

  /** Without a child for the next label there is nothing deeper. */
  lemma TrackEnd(
    t: Trie, paths: seq<Path>, rules: seq<Rule>, k: nat, q: Path, action: ListAction, found: bool, best: nat,
    source: u16)
    requires TrieOk(t, paths, rules) && k < |t.nodes| && paths[k] < q
    requires Ordered(t, t.nodes[k].firstChild, t.nodes[k].childCount)
    requires forall c :: t.nodes[k].firstChild <= c < t.nodes[k].firstChild + t.nodes[k].childCount ==>
               LabelOf(t, t.nodes[c]) != q[|paths[k]|]
    requires Tracks(rules, q, |paths[k]| + 1, action, found, best, source)
    ensures Tracks(rules, q, |q| + 1, action, found, best, source)
  {
    var d := |paths[k]|;
    ChildrenOrdered(t, paths, rules, k);
    forall e | d < e <= |q|
      ensures !Hit(rules, q, e, action)
    {
      forall r | r in rules && r.Path() == q[..e]
        ensures false
      {
        assert paths[k] + [q[d]] == q[..d + 1] <= r.Path();
        var c := ChildFor(t, paths, rules, k, q[d], r);
      }
    }
    hide TrieOk, OfKey, FirstSource, Flat;
  }

  // ─── Hits and rules as added ──────────────────────────────────────────────

  lemma ReversedTake(a: seq<Label>, q: seq<Label>, d: nat)
    requires d <= |q|
    ensures |Reversed(q)| == |q| && (Reversed(a) == Reversed(q)[..d] <==> a == q[|q| - d..])
  {
    hide Reversed;
    ReversedAt(a);
    ReversedAt(q);
    var s, p := q[|q| - d..], Reversed(q)[..d];
    if Reversed(a) == p {
      forall i | 0 <= i < d
        ensures a[i] == s[i]
      {
        assert Reversed(a)[d - 1 - i] == a[i] && p[d - 1 - i] == q[|q| - d + i];
      }
    }
    if a == s {
      forall i | 0 <= i < d
        ensures Reversed(a)[i] == p[i]
      {
        assert Reversed(a)[i] == a[d - 1 - i] == q[|q| - 1 - i];
      }
    }
  }

  /** A rule as stored, and as it was added. */
  lemma StoredAt(rules: seq<Rule>, added: seq<Added>, sources: seq<string>, i: nat, q: seq<Label>, d: nat)
    requires Stored(rules, added, sources) && i < |added| && d <= |q|
    ensures rules[i].action == added[i].action && rules[i].subtree == added[i].subtree
    ensures added[i].source in sources && rules[i].source == IndexOf(sources, added[i].source) % 0x1_0000
    ensures |Reversed(q)| == |q| && (rules[i].Path() == Reversed(q)[..d] <==> added[i].name == q[|q| - d..])
    ensures LabelsOk(Reversed(q)[..d]) ==> (rules[i].key == Flat(Reversed(q)[..d]) <==> added[i].name == q[|q| - d..])
  {
    ReversedOk(added[i].name);
    UnflatFlat(Reversed(added[i].name));
    ReversedTake(added[i].name, q, d);
    if LabelsOk(Reversed(q)[..d]) { UnflatFlat(Reversed(q)[..d]); }
    hide Flat, Unflat, Reversed, IndexOf;
  }

  predicate CoversAt(added: seq<Added>, q: seq<Label>, d: nat, action: ListAction) {
    exists a :: a in added && a.action == action && Covers(a, q) && |a.name| == d
  }

  lemma CoversIff(a: Added, q: seq<Label>, d: nat)
    requires d <= |q|
    ensures Covers(a, q) && |a.name| == d <==> a.name == q[|q| - d..] && (a.subtree || d == |q|)
  {
    assert q[0..] == q;
  }

  lemma HitCovers(rules: seq<Rule>, added: seq<Added>, sources: seq<string>, q: seq<Label>, d: nat, action: ListAction)
    requires Stored(rules, added, sources) && d <= |q|
    ensures |Reversed(q)| == |q| && (Hit(rules, Reversed(q), d, action) <==> CoversAt(added, q, d, action))
  {
    ReversedAt(q);
    forall i | 0 <= i < |added|
      ensures rules[i].action == added[i].action && rules[i].subtree == added[i].subtree
      ensures rules[i].Path() == Reversed(q)[..d] <==> added[i].name == q[|q| - d..]
    {
      StoredAt(rules, added, sources, i, q, d);
    }
    assert |rules| == |added|;
    hide Reversed, Flat, Unflat, Stored, Covers;
    if Hit(rules, Reversed(q), d, action) {
      var r :| r in rules && r.action == action && r.Path() == Reversed(q)[..d] && (r.subtree || d == |q|);
      var i :| 0 <= i < |rules| && rules[i] == r;
      CoversIff(added[i], q, d);
      assert added[i] in added && Covers(added[i], q);
    }
    if CoversAt(added, q, d, action) {
      var a :| a in added && a.action == action && Covers(a, q) && |a.name| == d;
      CoversIff(a, q, d);
      var i :| 0 <= i < |added| && added[i] == a;
      assert rules[i] in rules;
    }
  }

  lemma {:induction false} FirstRule(rules: seq<Rule>, key: Bytes, action: ListAction) returns (i: nat)
    requires exists r :: r in rules && r.key == key && r.action == action
    ensures i < |rules| && rules[i].key == key && rules[i].action == action
    ensures forall j :: 0 <= j < i ==> !(rules[j].key == key && rules[j].action == action)
    ensures FirstSource(OfKey(rules, key), action) == rules[i].source
  {
    var init, last := rules[..|rules| - 1], rules[|rules| - 1];
    assert rules == init + [last];
    OfKeySnoc(init, last, key);
    var own := OfKey(init, key);
    FirstSourceSnoc(own, last, action);
    if x :| x in own && x.action == action {
      i := FirstRule(init, key, action);
    } else {
      i := |init|;
      forall j | 0 <= j < i
        ensures !(rules[j].key == key && rules[j].action == action)
      {
        assert rules[j] in init && (rules[j].key == key ==> rules[j] in own);
      }
      assert last.key == key && last.action == action;
      if own == [] { assert own + [last] == [last]; }
    }
    hide OfKey, FirstSource;
  }

  lemma SourceIs(
    rules: seq<Rule>, added: seq<Added>, sources: seq<string>, q: seq<Label>, d: nat, action: ListAction)
    returns (i: nat)
    requires Stored(rules, added, sources) && LabelsOk(q) && d <= |q| && |Reversed(q)| == |q|
    requires LabelsOk(Reversed(q)[..d])
    requires CoversAt(added, q, d, action)
    ensures IsFirst(added, q[|q| - d..], action, i) && added[i].source in sources
    ensures FirstSource(OfKey(rules, Flat(Reversed(q)[..d])), action) == IndexOf(sources, added[i].source) % 0x1_0000
  {
    var key := Flat(Reversed(q)[..d]);
    var name := q[|q| - d..];
    assert |rules| == |added|;
    hide Flat, Reversed, OfKey, FirstSource, Stored, IndexOf;
    forall j | 0 <= j < |added|
      ensures rules[j].key == key <==> added[j].name == name
      ensures rules[j].action == added[j].action
    {
      StoredAt(rules, added, sources, j, q, d);
    }
    var a :| a in added && a.action == action && Covers(a, q) && |a.name| == d;
    var k :| 0 <= k < |added| && added[k] == a;
    assert rules[k] in rules;
    i := FirstRule(rules, key, action);
    StoredAt(rules, added, sources, i, q, d);
  }

  // ─── The answer ───────────────────────────────────────────────────────────

  lemma MatchesAt(added: seq<Added>, q: seq<Label>, action: ListAction)
    ensures Matches(added, q, action) <==> exists d :: 0 <= d <= |q| && CoversAt(added, q, d, action)
  {
    if Matches(added, q, action) {
      var a :| a in added && a.action == action && Covers(a, q);
      assert CoversAt(added, q, |a.name|, action);
    }
  }

  lemma NoAnswer(
    added: seq<Added>, rules: seq<Rule>, sources: seq<string>, q: seq<Label>, b: nat, bs: u16, al: nat, als: u16)
    requires Stored(rules, added, sources) && |Reversed(q)| == |q|
    requires Tracks(rules, Reversed(q), |q| + 1, Block, false, b, bs)
    requires Tracks(rules, Reversed(q), |q| + 1, Allow, false, al, als)
    ensures IsAnswer(added, q, NO_MATCH)
  {
    MatchesAt(added, q, Block);
    MatchesAt(added, q, Allow);
    forall d, action | 0 <= d <= |q|
      ensures !CoversAt(added, q, d, action)
    {
      HitCovers(rules, added, sources, q, d, action);
      assert action == Block || action == Allow;
    }
    hide Stored, Matches, Hit, CoversAt, Reversed;
  }

  /** The last hit of an action on the way down is its longest covering rule. */
  lemma Deepest(
    added: seq<Added>, rules: seq<Rule>, sources: seq<string>, q: seq<Label>, action: ListAction, found: bool, d: nat,
    s: u16)
    requires Stored(rules, added, sources) && |Reversed(q)| == |q| && LabelsOk(q)
    requires Tracks(rules, Reversed(q), |q| + 1, action, found, d, s)
    ensures Matches(added, q, action) <==> found
    ensures found ==> d <= |q| && CoversAt(added, q, d, action) && IsDeepest(added, q, action, q[|q| - d..])
  {
    MatchesAt(added, q, action);
    forall e | 0 <= e <= |q|
      ensures Hit(rules, Reversed(q), e, action) <==> CoversAt(added, q, e, action)
    {
      HitCovers(rules, added, sources, q, e, action);
    }
    hide Hit, Matches, Stored, Flat, Reversed, OfKey, FirstSource, CoversAt;
    if found { DeepestRule(added, q, action, d); }
  }

  lemma DeepestRule(added: seq<Added>, q: seq<Label>, action: ListAction, d: nat)
    requires d <= |q| && CoversAt(added, q, d, action)
    requires forall e {:trigger CoversAt(added, q, e, action)} :: d < e <= |q| ==> !CoversAt(added, q, e, action)
    ensures IsDeepest(added, q, action, q[|q| - d..])
  {
    var a :| a in added && a.action == action && Covers(a, q) && |a.name| == d;
    CoversIff(a, q, d);
    forall b | b in added && b.action == action && Covers(b, q)
      ensures |b.name| <= d
    {
      assert CoversAt(added, q, |b.name|, action);
    }
    hide Covers;
  }

  lemma Answer(
    added: seq<Added>, rules: seq<Rule>, sources: seq<string>, q: seq<Label>, action: ListAction, d: nat, s: u16)
    requires Stored(rules, added, sources) && sources == Sources(added) && |Reversed(q)| == |q| && LabelsOk(q)
    requires Tracks(rules, Reversed(q), |q| + 1, action, true, d, s)
    requires action == Allow || !Matches(added, q, Allow)
    ensures d <= |q| && s < |sources|
    ensures IsAnswer(added, q, TrieLookupResult(true, action, q[|q| - d..], sources[s]))
  {
    Deepest(added, rules, sources, q, action, true, d, s);
    hide Stored, Reversed, Tracks, IsDeepest, CoversAt, Matches, Sources, IsFirst, Reported;
    var i := SourceReported(added, rules, sources, q, action, d, s);
  }

  lemma SourceReported(
    added: seq<Added>, rules: seq<Rule>, sources: seq<string>, q: seq<Label>, action: ListAction, d: nat, s: u16)
    returns (i: nat)
    requires Stored(rules, added, sources) && sources == Sources(added) && |Reversed(q)| == |q| && LabelsOk(q)
    requires d <= |q|
    requires Tracks(rules, Reversed(q), |q| + 1, action, true, d, s) && CoversAt(added, q, d, action)
    ensures s < |sources| && IsFirst(added, q[|q| - d..], action, i) && Reported(added, i, sources[s])
  {
    hide Stored, Flat, Reversed, OfKey, FirstSource, Hit, IndexOf, Sources, CoversAt;
    i := SourceIs(rules, added, sources, q, d, action);
    SixteenBits(IndexOf(sources, added[i].source));
  }

  lemma SixteenBits(i: nat)
    ensures i % 0x1_0000 <= i && (i < 0x1_0000 ==> i % 0x1_0000 == i)
  {
  }

  /** The deepest rule met on the way, of each kind. */
  datatype Seen = Seen(found: bool, depth: nat, source: u16)

  ghost predicate BothTracked(rules: seq<Rule>, q: Path, d: nat, block: Seen, allow: Seen) {
    && Tracks(rules, q, d, Block, block.found, block.depth, block.source)
    && Tracks(rules, q, d, Allow, allow.found, allow.depth, allow.source)
  }

  /** Down the trie, a label of the name at a time. */
  method Walk(t: Trie, q: seq<Label>, ghost rules: seq<Rule>, ghost paths: seq<Path>) returns (block: Seen, allow: Seen)
    requires TrieOk(t, paths, rules) && RulesOk(rules) && LabelsOk(q)
    ensures |Reversed(q)| == |q| && BothTracked(rules, Reversed(q), |q| + 1, block, allow)
  {
    var n := |q|;
    ghost var Q := Reversed(q);
    ReversedAt(q);
    ReversedOk(q);
    block, allow := Seen(false, 0, 0), Seen(false, 0, 0);
    var node: nat, depth: nat := 0, 0;
    assert |paths| == |t.nodes| && paths[0] == Q[..0];
    NothingYet(rules, Q);
    hide TrieOk, Flat, Unflat, RulesOk, Reversed, Ordered, BothTracked, LabelOf;
    while true
      invariant 0 <= depth <= n && node < |t.nodes| && paths[node] == Q[..depth]
      invariant BothTracked(rules, Q, depth, block, allow)
      decreases n - depth
    {
      var wholeName := depth == n;
      BothStep(t, paths, rules, node, Q, block, allow);
      if t.nodes[node].flags.Covers(Block, wholeName) {
        block := Seen(true, depth, t.nodes[node].blockSource);
      }
      if t.nodes[node].flags.Covers(Allow, wholeName) {
        allow := Seen(true, depth, t.nodes[node].allowSource);
      }
      if wholeName { break; }
      ChildrenOrdered(t, paths, rules, node);
      var c := Child(t, node, q[n - 1 - depth]);
      if c.None? {
        BothEnd(t, paths, rules, node, Q, block, allow);
        break;
      }
      assert Q[..depth] + [Q[depth]] == Q[..depth + 1];
      node, depth := c.value, depth + 1;
    }
  }

  /** What a node adds to what was seen above it. */
  function SeenAt(n: Node, action: ListAction, whole: bool, depth: nat, seen: Seen): Seen {
    if n.flags.Covers(action, whole) then Seen(true, depth, n.Source(action)) else seen
  }

  lemma BothStep(t: Trie, paths: seq<Path>, rules: seq<Rule>, k: nat, q: Path, block: Seen, allow: Seen)
    requires TrieOk(t, paths, rules) && RulesOk(rules) && k < |t.nodes| && paths[k] <= q
    requires BothTracked(rules, q, |paths[k]|, block, allow)
    ensures var d, n := |paths[k]|, t.nodes[k];
            BothTracked(rules, q, d + 1, SeenAt(n, Block, d == |q|, d, block), SeenAt(n, Allow, d == |q|, d, allow))
  {
    hide TrieOk, RulesOk, Tracks;
    TrackStep(t, paths, rules, k, q, Block, block.found, block.depth, block.source);
    TrackStep(t, paths, rules, k, q, Allow, allow.found, allow.depth, allow.source);
  }

  lemma BothEnd(t: Trie, paths: seq<Path>, rules: seq<Rule>, k: nat, q: Path, block: Seen, allow: Seen)
    requires TrieOk(t, paths, rules) && k < |t.nodes| && paths[k] < q
    requires Ordered(t, t.nodes[k].firstChild, t.nodes[k].childCount)
    requires forall c :: t.nodes[k].firstChild <= c < t.nodes[k].firstChild + t.nodes[k].childCount ==>
               LabelOf(t, t.nodes[c]) != q[|paths[k]|]
    requires BothTracked(rules, q, |paths[k]| + 1, block, allow)
    ensures BothTracked(rules, q, |q| + 1, block, allow)
  {
    hide TrieOk, Tracks, Ordered;
    TrackEnd(t, paths, rules, k, q, Block, block.found, block.depth, block.source);
    TrackEnd(t, paths, rules, k, q, Allow, allow.found, allow.depth, allow.source);
  }

  lemma NothingYet(rules: seq<Rule>, q: Path)
    requires LabelsOk(q)
    ensures BothTracked(rules, q, 0, Seen(false, 0, 0), Seen(false, 0, 0))
  {
  }

  lemma NoNodes(t: Trie, added: seq<Added>, rules: seq<Rule>, paths: seq<Path>)
    requires t.nodes == [] && (added == [] || TrieFor(t, added, rules, paths))
    ensures added == []
  {
  }

  lemma EmptyAnswer(q: seq<Label>)
    ensures IsAnswer([], q, NO_MATCH)
  {
  }

  method Lookup(t: Trie, q: seq<Label>, ghost added: seq<Added>, ghost rules: seq<Rule>, ghost paths: seq<Path>)
    returns (res: TrieLookupResult)
    requires LabelsOk(q)
    requires (t.nodes == [] && added == []) || TrieFor(t, added, rules, paths)
    ensures IsAnswer(added, q, res)
  {
    hide TrieOk, Stored, Sources, RulesOk, IsAnswer, Reversed, Tracks, IsDeepest, CoversAt, Matches;
    if t.nodes == [] {
      NoNodes(t, added, rules, paths);
      EmptyAnswer(q);
      return NO_MATCH;
    }
    StoredOk(rules, added, t.sources);
    var block, allow := Walk(t, q, rules, paths);
    if !block.found && !allow.found {
      NoAnswer(added, rules, t.sources, q, block.depth, block.source, allow.depth, allow.source);
      return NO_MATCH;
    }
    var action, seen := if allow.found then Allow else Block, if allow.found then allow else block;
    Deepest(added, rules, t.sources, q, Allow, allow.found, allow.depth, allow.source);
    Answer(added, rules, t.sources, q, action, seen.depth, seen.source);
    var rule: seq<Label> := [];
    var i := |q| - seen.depth;
    while i < |q|
      invariant |q| - seen.depth <= i <= |q| && rule == q[|q| - seen.depth..i]
    {
      rule := rule + [q[i]];
      i := i + 1;
    }
    assert rule == q[|q| - seen.depth..];
    res := TrieLookupResult(true, action, rule, t.sources[seen.source]);
  }
}
