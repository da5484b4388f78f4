/**
  scripts/expand_qwen3_tts_pruned_vocab.py: extending the reduced-vocabulary token map by a
  given number of rows.
*/
module VocabExpansion {
  import opened Wrappers

  const VOCAB: nat := 151936

  predicate InRange(x: int) {
    0 <= x < VOCAB
  }

  function ToSet(xs: seq<int>): set<int> {
    set x | x in xs
  }

  function Flat(lines: seq<seq<int>>): seq<int> {
    if lines == [] then [] else Flat(lines[..|lines| - 1]) + lines[|lines| - 1]
  }

  /** In-range ids that the base map lacks. */
  function Available(base: seq<int>): set<int> {
    set x | 0 <= x < VOCAB && x !in base
  }

  /** In-range forced and corpus ids that the base map lacks. */
  function Wanted(base: seq<int>, force: seq<int>, corpus: seq<int>): set<int> {
    set x | x in force + corpus && InRange(x) && x !in base
  }

  predicate Distinct(xs: seq<int>) {
    forall i, j :: 0 <= i < j < |xs| ==> xs[i] != xs[j]
  }

  predicate Ascending(xs: seq<int>) {
    forall i, j :: 0 <= i < j < |xs| ==> xs[i] < xs[j]
  }

  /** New ids in order of first occurrence, each once. */
  function Collect(known: set<int>, xs: seq<int>): seq<int> {
    if xs == [] then []
    else
      var x, seen := xs[|xs| - 1], Collect(known, xs[..|xs| - 1]);
      if InRange(x) && x !in known && x !in seen then seen + [x] else seen
  }

  lemma {:induction false} CollectMeaning(known: set<int>, xs: seq<int>)
    ensures Distinct(Collect(known, xs))
    ensures ToSet(Collect(known, xs)) == set x | x in xs && InRange(x) && x !in known
  {
    if xs != [] {
      var n := |xs| - 1;
      CollectMeaning(known, xs[..n]);
      var seen, x := Collect(known, xs[..n]), xs[n];
      assert xs == xs[..n] + [x];
      var all := set y | y in xs && InRange(y) && y !in known;
      var before := set y | y in xs[..n] && InRange(y) && y !in known;
      assert all == before + if InRange(x) && x !in known then {x} else {};
      assert x in seen <==> x in ToSet(seen);
      assert ToSet(seen + [x]) == ToSet(seen) + {x};
    }
  }

  lemma CollectStep(known: set<int>, before: seq<int>, xs: seq<int>, i: nat)
    requires i < |xs|
    ensures Collect(known, before + xs[..i + 1])
            == var seen := Collect(known, before + xs[..i]);
               if InRange(xs[i]) && xs[i] !in known && xs[i] !in seen then seen + [xs[i]] else seen
  {
    assert (before + xs[..i + 1])[..|before| + i] == before + xs[..i];
  }

  lemma {:induction false} DistinctSize(xs: seq<int>)
    requires Distinct(xs)
    ensures |ToSet(xs)| == |xs|
  {
    if xs != [] {
      var n := |xs| - 1;
      DistinctSize(xs[..n]);
      assert xs == xs[..n] + [xs[n]];
      assert ToSet(xs) == ToSet(xs[..n]) + {xs[n]};
    }
  }

  lemma SubsetSize(a: set<int>, b: set<int>)
    requires a <= b
    ensures |a| <= |b|
    ensures |a| == |b| ==> a == b
  {
    assert b == a + (b - a) && |b| == |a| + |b - a|;
  }

  // The two passes

  method CorpusTokenIds(lines: seq<seq<int>>) returns (seen: seq<int>)
    ensures seen == Collect({}, Flat(lines))
  {
    seen := [];
    for i := 0 to |lines|
      invariant seen == Collect({}, Flat(lines[..i]))
    {
      var ids := lines[i];
      assert lines[..i + 1][..i] == lines[..i];
      ghost var before := Flat(lines[..i]);
      assert before + ids[..0] == before;
      for k := 0 to |ids|
        invariant seen == Collect({}, before + ids[..k])
      {
        CollectStep({}, before, ids, k);
        if InRange(ids[k]) && ids[k] !in seen {
          seen := seen + [ids[k]];
        }
      }
      assert ids[..|ids|] == ids;
    }
    assert lines[..|lines|] == lines;
  }

  /** The mutable pair that the nested function `add` closes over. */
  class Additions {
    const base: seq<int>
    var keep: set<int>
    var additions: seq<int>

    ghost predicate Valid()
      reads this
    {
      && keep == ToSet(base) + ToSet(additions)
      && Distinct(additions) && ToSet(additions) <= Available(base)
    }

    constructor (base: seq<int>)
      ensures Valid() && this.base == base && additions == []
    {
      this.base, keep, additions := base, ToSet(base), [];
    }

    method Add(x: int)
      requires Valid()
      modifies this
      ensures Valid()
      ensures additions
              == if InRange(x) && x !in ToSet(base) && x !in old(additions) then old(additions) + [x]
                 else old(additions)
    {
      if InRange(x) && x !in keep {
        keep := keep + {x};
        assert ToSet(additions + [x]) == ToSet(additions) + {x};
        additions := additions + [x];
      }
    }

    method AddAll(xs: seq<int>, ghost earlier: seq<int>)
      requires Valid() && additions == Collect(ToSet(base), earlier)
      modifies this
      ensures Valid() && additions == Collect(ToSet(base), earlier + xs)
    {
      assert earlier + xs[..0] == earlier;
      for i := 0 to |xs|
        invariant Valid() && additions == Collect(ToSet(base), earlier + xs[..i])
      {
        CollectStep(ToSet(base), earlier, xs, i);
        Add(xs[i]);
      }
      assert xs[..|xs|] == xs;
    }

    /** The fill loop: ids in ascending order until there are enough. */
    method FillUp(addRows: int) returns (ghost fill: seq<int>)
      requires Valid()
      modifies this
      ensures Valid() && additions == old(additions) + fill
      ensures Smallest(base, old(additions), fill)
      ensures |old(additions)| >= addRows ==> fill == []
      ensures |additions| < addRows ==> ToSet(additions) == Available(base)
      ensures |old(additions)| <= addRows ==> |additions| <= addRows
    {
      fill := [];
      var x := 0;
      while x < VOCAB && |additions| < addRows
        invariant Valid() && Filling(base, old(additions), additions, fill, x)
        invariant |old(additions)| >= addRows ==> fill == []
        invariant |old(additions)| <= addRows ==> |additions| <= addRows
      {
        ghost var before := additions;
        Add(x);
        FillingNext(base, old(additions), before, fill, x);
        if |additions| > |before| {
          fill := fill + [x];
        }
        x := x + 1;
      }
      assert x == VOCAB ==> ToSet(additions) == Available(base);
    }
  }

  /** The ids below x are settled: those missing were appended in ascending order. */
  ghost predicate Filling(base: seq<int>, chosen: seq<int>, additions: seq<int>, fill: seq<int>, x: int) {
    && 0 <= x <= VOCAB && additions == chosen + fill && Ascending(fill)
    && (forall k :: 0 <= k < |fill| ==> fill[k] < x && fill[k] !in chosen)
    && (forall y :: 0 <= y < x && y in Available(base) ==> y in additions)
  }

  lemma FillingNext(base: seq<int>, chosen: seq<int>, additions: seq<int>, fill: seq<int>, x: int)
    requires Filling(base, chosen, additions, fill, x) && x < VOCAB
    ensures if x !in base && x !in additions then Filling(base, chosen, additions + [x], fill + [x], x + 1)
            else Filling(base, chosen, additions, fill, x + 1)
  {
    if x !in base && x !in additions {
      assert chosen + (fill + [x]) == chosen + fill + [x];
    }
  }

  /** The fill ids are available, in ascending order, and below every id that could have been chosen instead. */
  predicate Smallest(base: seq<int>, chosen: seq<int>, fill: seq<int>) {
    && Ascending(fill)
    && (forall x :: x in fill ==> x in Available(base) && x !in chosen)
    && (forall x, y :: x in fill && y in Available(base) && y !in chosen && y !in fill ==> x < y)
  }

  /** The added rows: the wanted ids in order of first occurrence, then the smallest remaining ids. */
  predicate Expansion(base: seq<int>, force: seq<int>, corpus: seq<int>, addRows: int, added: seq<int>) {
    var first := Collect(ToSet(base), force + corpus);
    && |first| <= |added| == addRows
    && added[..|first|] == first
    && Smallest(base, first, added[|first|..])
  }

  predicate Feasible(base: seq<int>, force: seq<int>, corpus: seq<int>, addRows: int) {
    |Wanted(base, force, corpus)| <= addRows <= |Available(base)|
  }

  lemma CollectedIsWanted(base: seq<int>, force: seq<int>, corpus: seq<int>)
    ensures var first := Collect(ToSet(base), force + corpus);
      Distinct(first) && ToSet(first) == Wanted(base, force, corpus) && |first| == |Wanted(base, force, corpus)|
  {
    CollectMeaning(ToSet(base), force + corpus);
    DistinctSize(Collect(ToSet(base), force + corpus));
  }

  /** The number of rows added before a failure is the error's argument. */
  method BuildExpandedMap(base: seq<int>, lines: seq<seq<int>>, addRows: int, force: seq<int>)
    returns (r: Result<seq<int>, nat>)
    ensures var corpus := Collect({}, Flat(lines));
      && (r.Success? <==> Feasible(base, force, corpus, addRows))
      && (r.Success? ==> base <= r.value && Expansion(base, force, corpus, addRows, r.value[|base|..]))
  {
    var a := new Additions(base);
    a.AddAll(force, []);
    assert [] + force == force;
    var corpus := CorpusTokenIds(lines);
    a.AddAll(corpus, force);
    ghost var first := a.additions;
    CollectedIsWanted(base, force, corpus);
    ghost var fill := a.FillUp(addRows);
    DistinctSize(a.additions);
    SubsetSize(ToSet(a.additions), Available(base));
    if |a.additions| != addRows {
      return Failure(|a.additions|);
    }
    assert a.additions[..|first|] == first && a.additions[|first|..] == fill;
    assert (base + a.additions)[|base|..] == a.additions;
    return Success(base + a.additions);
  }

  // What an expansion is

  /** Exactly add_rows distinct new in-range ids, disjoint from the base map, among them every forced and corpus id. */
  lemma ExpansionMeaning(base: seq<int>, force: seq<int>, corpus: seq<int>, addRows: int, added: seq<int>)
    requires Expansion(base, force, corpus, addRows, added)
    ensures |added| == addRows && Distinct(added)
    ensures forall x :: x in added ==> InRange(x) && x !in base
    ensures forall x :: x in force + corpus && InRange(x) ==> x in base || x in added
    ensures Feasible(base, force, corpus, addRows)
  {
    var first := Collect(ToSet(base), force + corpus);
    CollectedIsWanted(base, force, corpus);
    var n := |first|;
    var fill := added[n..];
    assert added == first + fill;
    forall i, j | 0 <= i < j < |added| ensures added[i] != added[j] {
      if j >= n {
        assert added[j] == fill[j - n] && fill[j - n] in fill;
        if i >= n { assert added[i] == fill[i - n]; }
      }
    }
    forall x | x in added ensures InRange(x) && x !in base {
      assert x in first ==> x in ToSet(first);
    }
    forall x | x in force + corpus && InRange(x) ensures x in base || x in added {
      if x !in base { assert x in ToSet(first); }
    }
    DistinctSize(added);
    SubsetSize(ToSet(added), Available(base));
  }

  /** There is only one expansion. */
  lemma ExpansionUnique(base: seq<int>, force: seq<int>, corpus: seq<int>, addRows: int, a: seq<int>, b: seq<int>)
    requires Expansion(base, force, corpus, addRows, a) && Expansion(base, force, corpus, addRows, b)
    ensures a == b
  {
    var n := |Collect(ToSet(base), force + corpus)|;
    SmallestUnique(base, a[..n], a[n..], b[n..]);
    assert a == a[..n] + a[n..] && b == b[..n] + b[n..];
  }

  lemma {:induction false} SmallestUnique(base: seq<int>, chosen: seq<int>, a: seq<int>, b: seq<int>)
    requires Smallest(base, chosen, a) && Smallest(base, chosen, b) && |a| == |b|
    ensures a == b
  {
    SameIds(base, chosen, a, b);
    AscendingUnique(a, b);
  }

  lemma SameIds(base: seq<int>, chosen: seq<int>, a: seq<int>, b: seq<int>)
    requires Smallest(base, chosen, a) && Smallest(base, chosen, b) && |a| == |b|
    ensures ToSet(a) == ToSet(b)
  {
    AscendingDistinct(a);
    AscendingDistinct(b);
    if x :| x in ToSet(a) && x !in ToSet(b) {
      forall y | y in ToSet(b) ensures y in ToSet(a) {
      }
      SubsetSize(ToSet(b), ToSet(a));
    } else {
      SubsetSize(ToSet(a), ToSet(b));
    }
  }

  lemma AscendingDistinct(a: seq<int>)
    requires Ascending(a)
    ensures |ToSet(a)| == |a|
  {
    DistinctSize(a);
  }

  lemma {:induction false} AscendingUnique(a: seq<int>, b: seq<int>)
    requires Ascending(a) && Ascending(b) && ToSet(a) == ToSet(b) && |a| == |b|
    ensures a == b
  {
    if a != [] {
      var n := |a| - 1;
      LastIsMax(a, b);
      assert a == a[..n] + [a[n]] && b == b[..n] + [b[n]];
      assert ToSet(a[..n]) == ToSet(a) - {a[n]};
      assert ToSet(b[..n]) == ToSet(b) - {b[n]};
      AscendingUnique(a[..n], b[..n]);
    }
  }

  lemma LastIsMax(a: seq<int>, b: seq<int>)
    requires Ascending(a) && Ascending(b) && ToSet(a) == ToSet(b) && |a| == |b| > 0
    ensures a[|a| - 1] == b[|b| - 1]
  {
    var x, y := a[|a| - 1], b[|b| - 1];
    assert x in ToSet(b) && y in ToSet(a);
  }
}
