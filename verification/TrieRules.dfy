/** Blocklist rules, their stable sort, and what a lookup must answer by trying
    every rule (core/policy/blocklist_trie.cpp). */
module TrieRules {
  import opened DnsTypes
  import opened TrieKeys

  datatype ListAction = Block | Allow

  /** `subtree`: the rule covers everything below its domain too. */
  datatype Rule = Rule(key: Bytes, action: ListAction, subtree: bool, source: u16)
  {
    function Path(): Path {
      Unflat(key)
    }
  }

  predicate RulesOk(rules: seq<Rule>) {
    forall i :: 0 <= i < |rules| ==> KeyOk(rules[i].key)
  }

  /** The rules for one domain, in order. */
  function OfKey(rules: seq<Rule>, key: Bytes): (r: seq<Rule>)
    ensures forall x :: x in r <==> x in rules && x.key == key
  {
    if rules == [] then []
    else
      var rest := OfKey(rules[..|rules| - 1], key);
      if rules[|rules| - 1].key == key then rest + [rules[|rules| - 1]] else rest
  }

  lemma OfKeySnoc(rules: seq<Rule>, r: Rule, key: Bytes)
    ensures OfKey(rules + [r], key) == if r.key == key then OfKey(rules, key) + [r] else OfKey(rules, key)
  {
    assert (rules + [r])[..|rules|] == rules;
  }

  lemma {:induction false} OfKeyConcat(a: seq<Rule>, b: seq<Rule>, key: Bytes)
    ensures OfKey(a + b, key) == OfKey(a, key) + OfKey(b, key)
  {
    if b == [] {
      assert a + b == a;
    } else {
      var r := b[|b| - 1];
      assert b == b[..|b| - 1] + [r] && a + b == a + b[..|b| - 1] + [r];
      OfKeyConcat(a, b[..|b| - 1], key);
      OfKeySnoc(a + b[..|b| - 1], r, key);
    }
  }

  lemma {:induction false} OfKeyNone(rules: seq<Rule>, key: Bytes)
    requires forall i :: 0 <= i < |rules| ==> rules[i].key != key
    ensures OfKey(rules, key) == []
  {
    if rules == [] {
    } else {
      OfKeyNone(rules[..|rules| - 1], key);
    }
  }

  lemma {:induction false} OfKeyAll(rules: seq<Rule>, key: Bytes)
    requires forall i :: 0 <= i < |rules| ==> rules[i].key == key
    ensures OfKey(rules, key) == rules
  {
    if rules == [] {
    } else {
      OfKeyAll(rules[..|rules| - 1], key);
      assert rules == rules[..|rules| - 1] + [rules[|rules| - 1]];
    }
  }

  // ─── Stable sort ──────────────────────────────────────────────────────────

  predicate Sorted(rules: seq<Rule>) {
    forall i, j :: 0 <= i < j < |rules| ==> !BytesLess(rules[j].key, rules[i].key)
  }

  /** A rule put after all those whose keys are not greater. */
  function Insert(s: seq<Rule>, r: Rule): seq<Rule> {
    if s == [] || !BytesLess(r.key, s[|s| - 1].key) then s + [r]
    else Insert(s[..|s| - 1], r) + [s[|s| - 1]]
  }

  function StableSort(rules: seq<Rule>): seq<Rule> {
    if rules == [] then [] else Insert(StableSort(rules[..|rules| - 1]), rules[|rules| - 1])
  }

  lemma {:induction false} InsertKeeps(s: seq<Rule>, r: Rule)
    requires Sorted(s)
    ensures Sorted(Insert(s, r)) && |Insert(s, r)| == |s| + 1
    ensures forall i :: 0 <= i < |Insert(s, r)| ==> Insert(s, r)[i] in s || Insert(s, r)[i] == r
  {
    if s == [] {
    } else {
      var last := s[|s| - 1];
      if BytesLess(r.key, last.key) {
        InsertKeeps(s[..|s| - 1], r);
        BytesTotal(r.key, last.key);
        var t := Insert(s[..|s| - 1], r);
        assert forall i :: 0 <= i < |t| ==> !BytesLess(last.key, t[i].key);
      } else {
        forall i | 0 <= i < |s|
          ensures !BytesLess(r.key, s[i].key)
        {
          if BytesLess(r.key, s[i].key) {
            BytesTotal(s[i].key, last.key);
            if i < |s| - 1 && s[i].key != last.key { BytesTransitive(r.key, s[i].key, last.key); }
          }
        }
      }
    }
  }

  lemma {:induction false} InsertStable(s: seq<Rule>, r: Rule, key: Bytes)
    ensures OfKey(Insert(s, r), key) == OfKey(s + [r], key)
  {
    if s != [] && BytesLess(r.key, s[|s| - 1].key) {
      var init, last := s[..|s| - 1], s[|s| - 1];
      InsertStable(init, r, key);
      BytesTotal(r.key, last.key);
      OfKeySnoc(Insert(init, r), last, key);
      OfKeySnoc(init, r, key);
      OfKeySnoc(s, r, key);
    }
  }

  /** Sorted, and the rules for each domain are those added, in that order. */
  lemma {:induction false} SortIsStable(rules: seq<Rule>)
    ensures Sorted(StableSort(rules)) && |StableSort(rules)| == |rules|
    ensures forall i :: 0 <= i < |rules| ==> StableSort(rules)[i] in rules
  {
    if rules == [] {
    } else {
      SortIsStable(rules[..|rules| - 1]);
      InsertKeeps(StableSort(rules[..|rules| - 1]), rules[|rules| - 1]);
    }
  }

  lemma {:induction false} SortKeepsEach(rules: seq<Rule>, key: Bytes)
    ensures OfKey(StableSort(rules), key) == OfKey(rules, key)
  {
    if rules == [] {
    } else {
      var init, last := rules[..|rules| - 1], rules[|rules| - 1];
      SortKeepsEach(init, key);
      InsertStable(StableSort(init), last, key);
      OfKeySnoc(StableSort(init), last, key);
    }
  }

  // ─── What a node records of its rules ─────────────────────────────────────

  datatype Flags = Flags(blockExact: bool, blockSubtree: bool, allowExact: bool, allowSubtree: bool)
  {
    predicate Any(action: ListAction) {
      if action.Block? then blockExact || blockSubtree else allowExact || allowSubtree
    }

    /** Is there a rule of this kind that covers a name below, or the name itself? */
    predicate Covers(action: ListAction, whole: bool) {
      if action.Block? then blockSubtree || (whole && blockExact) else allowSubtree || (whole && allowExact)
    }
  }

  datatype Node = Node(labelOffset: nat, labelLength: nat, flags: Flags, blockSource: u16, allowSource: u16,
                       firstChild: nat, childCount: nat)
  {
    function Source(action: ListAction): u16 {
      if action.Block? then blockSource else allowSource
    }
  }

  const NO_FLAGS := Flags(false, false, false, false)

  function WithFlag(f: Flags, r: Rule): Flags {
    match r.action
    case Block => if r.subtree then f.(blockSubtree := true) else f.(blockExact := true)
    case Allow => if r.subtree then f.(allowSubtree := true) else f.(allowExact := true)
  }

  /** One of a node's own rules: the first of each action names the source. */
  function Merge(n: Node, r: Rule): Node {
    var n1 := if n.flags.Any(r.action) then n
              else if r.action.Block? then n.(blockSource := r.source) else n.(allowSource := r.source);
    n1.(flags := WithFlag(n.flags, r))
  }

  predicate HasRule(own: seq<Rule>, action: ListAction, subtree: bool) {
    exists r :: r in own && r.action == action && r.subtree == subtree
  }

  function FirstSource(own: seq<Rule>, action: ListAction): u16 {
    if own == [] then 0
    else if own[0].action == action then own[0].source
    else FirstSource(own[1..], action)
  }

  /** What a node says of the rules for its domain, in the order added. */
  predicate NodeSays(n: Node, own: seq<Rule>) {
    && n.flags == Flags(HasRule(own, Block, false), HasRule(own, Block, true), HasRule(own, Allow, false),
                        HasRule(own, Allow, true))
    && n.blockSource == FirstSource(own, Block) && n.allowSource == FirstSource(own, Allow)
  }

  lemma {:induction false} FirstSourceSnoc(own: seq<Rule>, r: Rule, action: ListAction)
    ensures FirstSource(own + [r], action) ==
            if exists x :: x in own && x.action == action then FirstSource(own, action)
            else if r.action == action then r.source else 0
  {
    if own == [] {
      assert own + [r] == [r];
    } else {
      FirstSourceSnoc(own[1..], r, action);
      assert (own + [r])[1..] == own[1..] + [r];
      assert own[0] in own && forall x :: x in own <==> x == own[0] || x in own[1..];
    }
  }

  lemma {:induction false} NoneFirst(own: seq<Rule>, action: ListAction)
    requires forall x :: x in own ==> x.action != action
    ensures FirstSource(own, action) == 0
  {
    if own == [] {
    } else {
      NoneFirst(own[1..], action);
    }
  }

  lemma MergeSays(n: Node, own: seq<Rule>, r: Rule)
    requires NodeSays(n, own)
    ensures NodeSays(Merge(n, r), own + [r])
  {
    FirstSourceSnoc(own, r, Block);
    FirstSourceSnoc(own, r, Allow);
    if !(exists x :: x in own && x.action == Block) { NoneFirst(own, Block); }
    if !(exists x :: x in own && x.action == Allow) { NoneFirst(own, Allow); }
    forall action, subtree
      ensures HasRule(own + [r], action, subtree)
              <==> HasRule(own, action, subtree) || (r.action == action && r.subtree == subtree)
    {
      if HasRule(own, action, subtree) {
        var x :| x in own && x.action == action && x.subtree == subtree;
        assert x in own + [r];
      }
      assert r in own + [r];
    }
    assert (exists x :: x in own && x.action == Block) <==> HasRule(own, Block, false) || HasRule(own, Block, true);
    assert (exists x :: x in own && x.action == Allow) <==> HasRule(own, Allow, false) || HasRule(own, Allow, true);
    hide HasRule, FirstSource;
  }
}
