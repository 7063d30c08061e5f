/** Following the CNAMEs of an answer to find a blocked name behind another
    (core/policy/cname_check.cpp). */
module CnameCheck {
  import opened DnsTypes
  import opened ResolverTask
  import opened ResolverAnswers
  import TrieKeys
  import TrieRules
  import TrieBuild
  import TrieLookup

  predicate IsCname(rr: RR) {
    rr.rtype == TYPE_CNAME && rr.rdata.RDataCNAME?
  }

  /** The first CNAME record of a name. */
  function FindCname(answers: seq<RR>, name: Dom): (r: Option<RR>)
    ensures r.Some? ==> r.value in answers && IsCname(r.value) && r.value.name.labels == name
    ensures r.None? ==> forall x :: x in answers ==> !(IsCname(x) && x.name.labels == name)
  {
    if answers == [] then None
    else if IsCname(answers[0]) && answers[0].name.labels == name then Some(answers[0])
    else FindCname(answers[1..], name)
  }

  function Targets(answers: seq<RR>): set<Dom> {
    set x | x in answers && IsCname(x) :: x.rdata.target.labels
  }

  function Unseen(answers: seq<RR>, chain: seq<Dom>): set<Dom> {
    Targets(answers) - (set d | d in chain)
  }

  function Last(q: Dom, chain: seq<Dom>): Dom {
    if chain == [] then q else chain[|chain| - 1]
  }

  /** The next name on the way, unless it is none or was met before. */
  function Next(q: Dom, answers: seq<RR>, chain: seq<Dom>): Option<Dom> {
    match FindCname(answers, Last(q, chain))
    case None => None
    case Some(rr) =>
      var target := rr.rdata.target.labels;
      if target == q || target in chain then None else Some(target)
  }

  lemma NextUnseen(q: Dom, answers: seq<RR>, chain: seq<Dom>)
    requires Next(q, answers, chain).Some?
    ensures Unseen(answers, chain + [Next(q, answers, chain).value]) < Unseen(answers, chain)
  {
    var t := Next(q, answers, chain).value;
    assert t in Targets(answers) && t in Unseen(answers, chain);
    assert t in chain + [t];
    assert forall d :: d in chain ==> d in chain + [t];
  }

  function Chain(q: Dom, answers: seq<RR>, chain: seq<Dom>): seq<Dom>
    decreases Unseen(answers, chain)
  {
    match Next(q, answers, chain)
    case None => chain
    case Some(t) => NextUnseen(q, answers, chain); Chain(q, answers, chain + [t])
  }

  method CnameChain(q: Dom, answers: seq<RR>) returns (chain: seq<Dom>)
    ensures chain == Chain(q, answers, []) && forall i :: 0 <= i < |chain| ==> chain[i] in Targets(answers)
  {
    chain := [];
    var current := q;
    while true
      invariant current == Last(q, chain) && Chain(q, answers, chain) == Chain(q, answers, [])
      invariant forall i :: 0 <= i < |chain| ==> chain[i] in Targets(answers)
      decreases Unseen(answers, chain)
    {
      var cname := FindCname(answers, current);
      if cname.None? { break; }
      var target := cname.value.rdata.target.labels;
      if target == q || target in chain { break; }
      NextUnseen(q, answers, chain);
      chain := chain + [target];
      current := target;
    }
  }

  // ─── What the chain is ────────────────────────────────────────────────────

  predicate AllDistinct(names: seq<Dom>) {
    forall i, j :: 0 <= i < j < |names| ==> names[i] != names[j]
  }

  /** Each name has a CNAME in the answers that leads to the next. */
  ghost predicate Linked(answers: seq<RR>, names: seq<Dom>) {
    forall i :: 0 <= i < |names| - 1 ==> Leads(answers, names[i], names[i + 1])
  }

  ghost predicate Leads(answers: seq<RR>, a: Dom, b: Dom) {
    exists x :: x in answers && IsCname(x) && x.name.labels == a && x.rdata.target.labels == b
  }

  lemma {:induction false} ChainSound(q: Dom, answers: seq<RR>, chain: seq<Dom>)
    requires AllDistinct([q] + chain) && Linked(answers, [q] + chain)
    ensures chain <= Chain(q, answers, chain)
    ensures AllDistinct([q] + Chain(q, answers, chain)) && Linked(answers, [q] + Chain(q, answers, chain))
    ensures Next(q, answers, Chain(q, answers, chain)) == None
    decreases Unseen(answers, chain)
  {
    match Next(q, answers, chain)
    case None =>
    case Some(t) =>
      NextUnseen(q, answers, chain);
      var names, more := [q] + chain, [q] + (chain + [t]);
      assert more == names + [t] && names[|names| - 1] == Last(q, chain);
      assert Leads(answers, Last(q, chain), t);
      forall i | 0 <= i < |names|
        ensures names[i] != t
      {
        if i > 0 { assert names[i] in chain; }
      }
      assert AllDistinct(more);
      LinkMore(answers, names, t);
      ChainSound(q, answers, chain + [t]);
      hide AllDistinct, Linked;
  }

  lemma LinkMore(answers: seq<RR>, names: seq<Dom>, t: Dom)
    requires Linked(answers, names) && names != [] && Leads(answers, names[|names| - 1], t)
    ensures Linked(answers, names + [t])
  {
    hide Leads;
    var more := names + [t];
    forall i | 0 <= i < |more| - 1
      ensures Leads(answers, more[i], more[i + 1])
    {
      if i < |names| - 1 { assert Leads(answers, names[i], names[i + 1]); }
    }
  }

  /** The chain never repeats a name, follows the answers, and goes as far as they
      lead. */
  lemma WholeChain(q: Dom, answers: seq<RR>)
    ensures var c := Chain(q, answers, []);
      AllDistinct([q] + c) && Linked(answers, [q] + c) && Next(q, answers, c) == None
  {
    assert [q] + [] == [q];
    ChainSound(q, answers, []);
  }

  // ─── Recovering a path ────────────────────────────────────────────────────

  /** The names a path of CNAMEs leads through. */
  function TargetsOf(path: seq<RR>): (ts: seq<Dom>)
    requires forall i :: 0 <= i < |path| ==> path[i].rdata.RDataCNAME?
    ensures |ts| == |path|
  {
    seq(|path|, i requires 0 <= i < |path| => path[i].rdata.target.labels)
  }

  /** The answers hold this path of CNAMEs, and no other CNAMEs of its names. */
  ghost predicate HoldsPath(q: Dom, answers: seq<RR>, path: seq<RR>, end: Dom) {
    && Path(q, path, end)
    && (forall i :: 0 <= i < |path| ==> path[i] in answers)
    && (forall x, i :: x in answers && IsCname(x) && 0 <= i < |path| && x.name.labels == path[i].name.labels
          ==> x.rdata.target.labels == path[i].rdata.target.labels)
    && (forall x :: x in answers && IsCname(x) ==> x.name.labels != end)
  }

  /** The names on a path, from the first to the last. */
  function Names(q: Dom, path: seq<RR>): (ns: seq<Dom>)
    requires forall i :: 0 <= i < |path| ==> path[i].rdata.RDataCNAME?
    ensures |ns| == |path| + 1
  {
    [q] + TargetsOf(path)
  }

  lemma PathAt(q: Dom, path: seq<RR>, end: Dom, i: nat)
    requires Path(q, path, end) && i < |path|
    ensures IsCname(path[i]) && path[i].name.labels == Hop(q, path, i)
  {
    hide Hop;
  }

  lemma PathIs(q: Dom, path: seq<RR>, end: Dom)
    requires Path(q, path, end)
    ensures (forall i :: 0 <= i < |path| ==> path[i].rdata.RDataCNAME?) && end == Hop(q, path, |path|)
  {
    hide Hop;
  }

  lemma HopAt(q: Dom, path: seq<RR>, i: nat)
    requires (forall i :: 0 <= i < |path| ==> path[i].rdata.RDataCNAME?) && i <= |path|
    ensures Names(q, path)[i] == Hop(q, path, i) && Last(q, TargetsOf(path)[..i]) == Names(q, path)[i]
    ensures i < |path| ==> TargetsOf(path)[i] == Names(q, path)[i + 1] == path[i].rdata.target.labels
  {
  }

  lemma OnPath(q: Dom, path: seq<RR>, end: Dom, i: nat)
    requires Path(q, path, end) && i <= |path|
    ensures forall i :: 0 <= i < |path| ==> path[i].rdata.RDataCNAME?
    ensures Names(q, path)[|path|] == end && Last(q, TargetsOf(path)[..i]) == Names(q, path)[i]
    ensures i < |path| ==>
              && IsCname(path[i]) && path[i].name.labels == Names(q, path)[i]
              && path[i].rdata.target.labels == Names(q, path)[i + 1]
    ensures i < |path| ==> TargetsOf(path)[i] == Names(q, path)[i + 1]
  {
    hide Path, Hop, Names, TargetsOf;
    PathIs(q, path, end);
    HopAt(q, path, |path|);
    HopAt(q, path, i);
    if i < |path| { PathAt(q, path, end, i); }
  }

  lemma NextOnPath(q: Dom, answers: seq<RR>, path: seq<RR>, end: Dom, k: nat)
    requires HoldsPath(q, answers, path, end) && k <= |path| && AllDistinct(Names(q, path))
    ensures forall i :: 0 <= i < |path| ==> path[i].rdata.RDataCNAME?
    ensures Next(q, answers, TargetsOf(path)[..k]) == if k < |path| then Some(TargetsOf(path)[k]) else None
  {
    hide Path, Hop, FindCname, TargetsOf, Names;
    OnPath(q, path, end, k);
    var ts, ns := TargetsOf(path), Names(q, path);
    if k < |path| {
      assert path[k] in answers;
      assert FindCname(answers, ns[k]).Some?;
      assert ns[0] == q by { NamesStart(q, path); }
      forall j | 0 <= j < k
        ensures ts[j] != ts[k]
      {
        OnPath(q, path, end, j);
        assert ns[j + 1] != ns[k + 1];
      }
      assert ts[k] !in ts[..k];
    }
  }

  lemma NamesStart(q: Dom, path: seq<RR>)
    requires forall i :: 0 <= i < |path| ==> path[i].rdata.RDataCNAME?
    ensures Names(q, path)[0] == q
  {
  }

  lemma {:induction false} FollowsPath(q: Dom, answers: seq<RR>, path: seq<RR>, end: Dom, k: nat)
    requires HoldsPath(q, answers, path, end) && k <= |path| && AllDistinct(Names(q, path))
    ensures Chain(q, answers, TargetsOf(path)[..k]) == TargetsOf(path)
    decreases |path| - k
  {
    hide HoldsPath, AllDistinct, Next, FindCname;
    NextOnPath(q, answers, path, end, k);
    var ts := TargetsOf(path);
    if k == |path| {
      assert ts[..k] == ts;
    } else {
      assert ts[..k] + [ts[k]] == ts[..k + 1];
      FollowsPath(q, answers, path, end, k + 1);
    }
  }

  /** In whatever order its records come, the path of an answer is recovered. */
  lemma PathRecovered(q: Dom, answers: seq<RR>, path: seq<RR>, end: Dom)
    requires HoldsPath(q, answers, path, end) && AllDistinct(Names(q, path))
    ensures Chain(q, answers, []) == TargetsOf(path)
  {
    assert TargetsOf(path)[..0] == [];
    FollowsPath(q, answers, path, end, 0);
  }

  /** So it is for what the resolver answers, shuffled: a question for anything
      but a CNAME, and names that do not repeat. */
  lemma OutcomeRecovered(cfg: Config, q: Question, o: Outcome, trusted: Facts, k: nat, answers: seq<RR>)
    requires o.Resolved? && AnswersOk(cfg, q, o, trusted, k) && q.qtype != TYPE_CNAME
    requires multiset(answers) == multiset(o.answers)
    requires AllDistinct(Names(q.qname.labels, o.answers[..k]))
    ensures Chain(q.qname.labels, answers, []) == TargetsOf(o.answers[..k])
  {
    var path, rest := o.answers[..k], o.answers[k..];
    var start := q.qname.labels;
    Shuffled(answers, o.answers, path, rest);
    hide Chain, AllDistinct, Names, TargetsOf, Hop;
    OnlyPath(start, answers, path, Hop(start, path, k));
    PathRecovered(start, answers, path, Hop(start, path, k));
  }

  lemma Shuffled(answers: seq<RR>, all: seq<RR>, path: seq<RR>, rest: seq<RR>)
    requires multiset(answers) == multiset(all) && all == path + rest
    ensures forall x :: x in answers <==> x in path || x in rest
  {
    forall x
      ensures x in answers <==> x in all
    {
      assert x in multiset(answers) <==> x in multiset(all);
    }
  }

  lemma OnlyPath(q: Dom, answers: seq<RR>, path: seq<RR>, end: Dom)
    requires Path(q, path, end) && (forall i :: 0 <= i < |path| ==> path[i] in answers)
    requires forall x :: x in answers && IsCname(x) ==> x in path
    requires AllDistinct(Names(q, path))
    ensures HoldsPath(q, answers, path, end)
  {
    hide Names, Hop, Path, TargetsOf;
    PathIs(q, path, end);
    forall x, i | x in answers && IsCname(x) && 0 <= i < |path| && x.name.labels == path[i].name.labels
      ensures x.rdata.target.labels == path[i].rdata.target.labels
    {
      var j :| 0 <= j < |path| && path[j] == x;
      OnPath(q, path, end, i);
      OnPath(q, path, end, j);
    }
    forall x | x in answers && IsCname(x)
      ensures x.name.labels != end
    {
      var j :| 0 <= j < |path| && path[j] == x;
      OnPath(q, path, end, j);
    }
  }

  // ─── Blocked names ────────────────────────────────────────────────────────

  /** A blocked hop: the names up to it, and the rule that blocks it. */
  datatype CloakedName = CloakedName(chain: seq<Dom>, rule: TrieLookup.TrieLookupResult)

  /** The lists block a name: some rule does, and none allows it. */
  predicate Blocked(added: seq<TrieLookup.Added>, name: Dom) {
    TrieLookup.Matches(added, name, TrieRules.Block) && !TrieLookup.Matches(added, name, TrieRules.Allow)
  }

  lemma AnswerBlocks(added: seq<TrieLookup.Added>, name: Dom, r: TrieLookup.TrieLookupResult)
    requires TrieLookup.IsAnswer(added, name, r)
    ensures r.matched && r.action == TrieRules.Block <==> Blocked(added, name)
  {
    hide TrieLookup.Matches, TrieLookup.IsDeepest, TrieLookup.Reported;
  }

  /** The first hop that the lists block, if there is one: a hop that is allowed
      excuses no other. */
  method FindCloaked(
    q: Dom, answers: seq<RR>, trie: TrieBuild.Trie,
    ghost added: seq<TrieLookup.Added>, ghost rules: seq<TrieRules.Rule>, ghost paths: seq<TrieKeys.Path>)
    returns (found: Option<CloakedName>)
    requires forall d :: d in Targets(answers) ==> TrieKeys.LabelsOk(d)
    requires (trie.nodes == [] && added == []) || TrieLookup.TrieFor(trie, added, rules, paths)
    ensures var c := Chain(q, answers, []);
      match found
      case None => forall i :: 0 <= i < |c| ==> !Blocked(added, c[i])
      case Some(CloakedName(names, rule)) =>
        && |names| >= 2 && names <= [q] + c
        && Blocked(added, names[|names| - 1]) && TrieLookup.IsAnswer(added, names[|names| - 1], rule)
        && forall i :: 0 <= i < |names| - 2 ==> !Blocked(added, c[i])
  {
    hide TrieLookup.TrieFor, TrieLookup.IsAnswer, Blocked, TrieKeys.LabelsOk;
    var hasCname := exists i :: 0 <= i < |answers| && answers[i].rtype == TYPE_CNAME;
    if !hasCname {
      assert Next(q, answers, []) == None;
      return None;
    }
    var chain := CnameChain(q, answers);
    var i := 0;
    while i < |chain|
      invariant 0 <= i <= |chain| && forall j :: 0 <= j < i ==> !Blocked(added, chain[j])
    {
      var rule := TrieLookup.Lookup(trie, chain[i], added, rules, paths);
      AnswerBlocks(added, chain[i], rule);
      if rule.matched && rule.action == TrieRules.Block {
        var names := [q] + chain[..i + 1];
        assert names[|names| - 1] == chain[i] && ([q] + chain)[..i + 2] == names;
        return Some(CloakedName(names, rule));
      }
      i := i + 1;
    }
    return None;
  }
}
