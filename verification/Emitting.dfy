/** Writing items one after another, and as many whole groups of them as fit:
    the loops of build_message (core/wire/builder.cpp), for any kind of item. */
module Emitting {
  import opened DnsTypes
  import opened NameWriter

  /** What writing an item at an offset, after some suffixes, produces. */
  type Step<!T> = (nat, Suffixes, T) -> Emission

  function EmitAll<T>(step: Step<T>, off: nat, sfx: Suffixes, items: seq<T>): Emission
    decreases |items|
  {
    if items == [] then Emission([], sfx)
    else
      var e := step(off, sfx, items[0]);
      var rest := EmitAll(step, off + |e.bytes|, e.suffixes, items[1..]);
      Emission(e.bytes + rest.bytes, rest.suffixes)
  }

  lemma {:induction false} EmitAllConcat<T>(step: Step<T>, off: nat, sfx: Suffixes, a: seq<T>, b: seq<T>)
    returns (e: Emission, f: Emission)
    ensures e == EmitAll(step, off, sfx, a) && f == EmitAll(step, off + |e.bytes|, e.suffixes, b)
    ensures EmitAll(step, off, sfx, a + b) == Emission(e.bytes + f.bytes, f.suffixes)
    decreases |a|
  {
    if a == [] {
      assert a + b == b;
      e := Emission([], sfx);
      f := EmitAll(step, off, sfx, b);
      assert [] + f.bytes == f.bytes;
    } else {
      var one := step(off, sfx, a[0]);
      var rest;
      rest, f := EmitAllConcat(step, off + |one.bytes|, one.suffixes, a[1..], b);
      e := Emission(one.bytes + rest.bytes, rest.suffixes);
      assert one.bytes + (rest.bytes + f.bytes) == (one.bytes + rest.bytes) + f.bytes;
      EmitAllCons(step, off, sfx, a[0], a[1..] + b, Emission(rest.bytes + f.bytes, f.suffixes));
      assert [a[0]] + (a[1..] + b) == a + b;
    }
  }

  lemma EmitAllCons<T>(step: Step<T>, off: nat, sfx: Suffixes, x: T, xs: seq<T>, rest: Emission)
    requires var one := step(off, sfx, x); rest == EmitAll(step, off + |one.bytes|, one.suffixes, xs)
    ensures EmitAll(step, off, sfx, [x] + xs) == Emission(step(off, sfx, x).bytes + rest.bytes, rest.suffixes)
  {
    assert ([x] + xs)[1..] == xs;
  }

  lemma EmitAllOne<T>(step: Step<T>, off: nat, sfx: Suffixes, x: T)
    ensures EmitAll(step, off, sfx, [x]) == step(off, sfx, x)
  {
    var e := step(off, sfx, x);
    assert [x][1..] == [];
    assert e.bytes + [] == e.bytes;
  }

  function SizeAfter<T>(step: Step<T>, off: nat, sfx: Suffixes, items: seq<T>): nat {
    off + |EmitAll(step, off, sfx, items).bytes|
  }

  /** How many items from the front of `items` belong with its first one. */
  function RunLength<T>(same: (T, T) -> bool, items: seq<T>): (j: nat)
    requires items != []
    ensures 1 <= j <= |items|
    ensures forall i :: 1 <= i < j ==> same(items[0], items[i])
    ensures j < |items| ==> !same(items[0], items[j])
  {
    RunFrom(same, items, 1)
  }

  function RunFrom<T>(same: (T, T) -> bool, items: seq<T>, j: nat): (r: nat)
    requires 1 <= j <= |items|
    requires forall i :: 1 <= i < j ==> same(items[0], items[i])
    ensures j <= r <= |items|
    ensures forall i :: 1 <= i < r ==> same(items[0], items[i])
    ensures r < |items| ==> !same(items[0], items[r])
    decreases |items| - j
  {
    if j < |items| && same(items[0], items[j]) then RunFrom(same, items, j + 1) else j
  }

  /** How many items are written: whole runs while they fit. */
  function Fit<T>(step: Step<T>, same: (T, T) -> bool, off: nat, sfx: Suffixes, items: seq<T>, limit: nat): (count: nat)
    ensures count <= |items|
    decreases |items|
  {
    if items == [] then 0
    else
      var j := RunLength(same, items);
      var e := EmitAll(step, off, sfx, items[..j]);
      if off + |e.bytes| > limit then 0
      else j + Fit(step, same, off + |e.bytes|, e.suffixes, items[j..], limit)
  }

  ghost predicate Transitive<T(!new)>(same: (T, T) -> bool) {
    forall a, b, c :: same(a, b) && same(b, c) ==> same(a, c)
  }

  /** `k` does not separate two items that belong together. */
  predicate RunBoundary<T>(same: (T, T) -> bool, items: seq<T>, k: nat)
    requires k <= |items|
  {
    0 < k < |items| ==> !same(items[k - 1], items[k])
  }

  /** What is kept fits, ends where a run ends, and is cut only where the next
      whole run would not fit. */
  ghost predicate CutWell<T>(step: Step<T>, same: (T, T) -> bool, off: nat, sfx: Suffixes, items: seq<T>,
                             limit: nat, count: nat)
    requires count <= |items|
  {
    && (off <= limit ==> SizeAfter(step, off, sfx, items[..count]) <= limit)
    && RunBoundary(same, items, count)
    && (count < |items| ==> SizeAfter(step, off, sfx, items[..count + RunLength(same, items[count..])]) > limit)
  }

  lemma {:induction false} FitCutsWell<T(!new)>(
    step: Step<T>, same: (T, T) -> bool, off: nat, sfx: Suffixes, items: seq<T>, limit: nat)
    returns (count: nat)
    requires Transitive(same)
    ensures count == Fit(step, same, off, sfx, items, limit)
    ensures CutWell(step, same, off, sfx, items, limit, count)
    decreases |items|
  {
    if items == [] {
      count := 0;
    } else {
      var j := RunLength(same, items);
      var e := EmitAll(step, off, sfx, items[..j]);
      if off + |e.bytes| > limit {
        count := 0;
        CutWellAtOnce(step, same, off, sfx, items, limit);
      } else {
        var off1 := off + |e.bytes|;
        var k := FitCutsWell(step, same, off1, e.suffixes, items[j..], limit);
        count := j + k;
        FitUnfold(step, same, off, sfx, items, limit, j, e, off1, k);
        CutWellAfterRun(step, same, off, sfx, items, limit, j, e, off1, k);
      }
    }
  }

  lemma FitUnfold<T>(step: Step<T>, same: (T, T) -> bool, off: nat, sfx: Suffixes, items: seq<T>, limit: nat,
                     j: nat, e: Emission, off1: nat, k: nat)
    requires items != [] && j == RunLength(same, items) && e == EmitAll(step, off, sfx, items[..j])
    requires off1 == off + |e.bytes| <= limit && k == Fit(step, same, off1, e.suffixes, items[j..], limit)
    ensures Fit(step, same, off, sfx, items, limit) == j + k
  {
  }

  lemma CutWellAtOnce<T>(step: Step<T>, same: (T, T) -> bool, off: nat, sfx: Suffixes, items: seq<T>, limit: nat)
    requires items != [] && SizeAfter(step, off, sfx, items[..RunLength(same, items)]) > limit
    ensures CutWell(step, same, off, sfx, items, limit, 0)
  {
    assert items[0..] == items && items[..0] == [];
  }

  lemma CutWellAfterRun<T(!new)>(step: Step<T>, same: (T, T) -> bool, off: nat, sfx: Suffixes, items: seq<T>,
                           limit: nat, j: nat, e: Emission, off1: nat, k: nat)
    requires Transitive(same) && items != [] && j == RunLength(same, items) && k <= |items| - j
    requires e == EmitAll(step, off, sfx, items[..j])
    requires off1 == off + |e.bytes| <= limit && CutWell(step, same, off1, e.suffixes, items[j..], limit, k)
    ensures CutWell(step, same, off, sfx, items, limit, j + k)
  {
    var tail := items[j..];
    SizeAfterRun(step, off, sfx, items, j, k);
    BoundaryAfterRun(same, items, j, k);
    if k < |tail| {
      assert tail[k..] == items[j + k..];
      SizeAfterRun(step, off, sfx, items, j, k + RunLength(same, tail[k..]));
    }
  }

  lemma BoundaryAfterRun<T(!new)>(same: (T, T) -> bool, items: seq<T>, j: nat, k: nat)
    requires Transitive(same) && items != [] && j == RunLength(same, items) && k <= |items| - j
    requires RunBoundary(same, items[j..], k)
    ensures RunBoundary(same, items, j + k)
  {
    if k == 0 && 1 < j < |items| {
      assert same(items[0], items[j - 1]) && !same(items[0], items[j]);
    }
  }

  lemma SizeAfterRun<T>(step: Step<T>, off: nat, sfx: Suffixes, items: seq<T>, j: nat, k: nat)
    requires j + k <= |items|
    ensures var e := EmitAll(step, off, sfx, items[..j]);
            SizeAfter(step, off, sfx, items[..j + k]) == SizeAfter(step, off + |e.bytes|, e.suffixes, items[j..][..k])
  {
    assert items[..j + k] == items[..j] + items[j..][..k];
    var _, _ := EmitAllConcat(step, off, sfx, items[..j], items[j..][..k]);
  }

  /** Writing more never takes less room. */
  lemma SizeMonotone<T>(step: Step<T>, off: nat, sfx: Suffixes, items: seq<T>, k: nat)
    requires k <= |items|
    ensures off <= SizeAfter(step, off, sfx, items[..k]) <= SizeAfter(step, off, sfx, items)
  {
    assert items == items[..k] + items[k..];
    var _, _ := EmitAllConcat(step, off, sfx, items[..k], items[k..]);
  }

  /** What fits whole is not cut. */
  lemma FitsUncut<T(!new)>(step: Step<T>, same: (T, T) -> bool, off: nat, sfx: Suffixes, items: seq<T>, limit: nat)
    requires Transitive(same) && SizeAfter(step, off, sfx, items) <= limit
    ensures Fit(step, same, off, sfx, items, limit) == |items|
  {
    var k := FitCutsWell(step, same, off, sfx, items, limit);
    if k < |items| {
      SizeMonotone(step, off, sfx, items, k + RunLength(same, items[k..]));
    }
  }
}
