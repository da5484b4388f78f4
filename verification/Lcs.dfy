/**
  deploy/roundtrip_verify.py, lcs_similarity, and scripts/verify_tts_asr_roundtrip.py,
  _lcs_similarity: the same two-row dynamic program behind two different normalisers.
*/
module Lcs {

  // Common subsequences

  predicate Increasing(p: seq<nat>, bound: nat) {
    (forall k :: 0 <= k < |p| ==> p[k] < bound) && forall k :: 0 < k < |p| ==> p[k - 1] < p[k]
  }

  /** The characters of a at positions p are, in order, those of b at positions q. */
  predicate Common(a: string, b: string, p: seq<nat>, q: seq<nat>) {
    && |p| == |q| && Increasing(p, |a|) && Increasing(q, |b|)
    && forall k :: 0 <= k < |p| ==> a[p[k]] == b[q[k]]
  }

  function Max(x: nat, y: nat): nat {
    if x >= y then x else y
  }

  /** The recurrence that the table follows. */
  function Length(a: string, b: string): nat
    decreases |a| + |b|
  {
    if a == [] || b == [] then 0
    else
      var a', b' := a[..|a| - 1], b[..|b| - 1];
      if a[|a| - 1] == b[|b| - 1] then Length(a', b') + 1
      else Max(Length(a', b), Length(a, b'))
  }

  lemma IncreasingPrefix(p: seq<nat>, bound: nat, tight: nat)
    requires Increasing(p, bound) && |p| > 0 && p[|p| - 1] <= tight
    ensures Increasing(p[..|p| - 1], tight)
  {
    if |p| > 1 { LastIsLargest(p, bound, |p| - 2); }
    forall k | 0 <= k < |p| - 1 ensures p[k] < tight {
      LastIsLargest(p, bound, k);
    }
  }

  lemma {:induction false} LastIsLargest(p: seq<nat>, bound: nat, k: nat)
    requires Increasing(p, bound) && k < |p| - 1
    ensures p[k] < p[|p| - 1]
    decreases |p| - k
  {
    if k + 1 < |p| - 1 { LastIsLargest(p, bound, k + 1); }
    assert p[k] < p[k + 1];
  }

  lemma IncreasingBelow(p: seq<nat>, bound: nat, tight: nat)
    requires Increasing(p, bound) && (|p| > 0 ==> p[|p| - 1] < tight)
    ensures Increasing(p, tight)
  {
    forall k | 0 <= k < |p| ensures p[k] < tight {
      if k < |p| - 1 { LastIsLargest(p, bound, k); }
    }
  }

  lemma IncreasingAppend(p: seq<nat>, bound: nat)
    requires Increasing(p, bound)
    ensures Increasing(p + [bound], bound + 1)
  {
  }

  /** No common subsequence is longer than the recurrence says. */
  lemma {:induction false} NoLonger(a: string, b: string, p: seq<nat>, q: seq<nat>)
    requires Common(a, b, p, q)
    ensures |p| <= Length(a, b)
    decreases |a| + |b|
  {
    if p != [] {
      var n, i, j := |p| - 1, |a| - 1, |b| - 1;
      if a[i] == b[j] {
        IncreasingPrefix(p, |a|, i);
        IncreasingPrefix(q, |b|, j);
        NoLonger(a[..i], b[..j], p[..n], q[..n]);
      } else if p[n] < i {
        IncreasingBelow(p, |a|, i);
        NoLonger(a[..i], b, p, q);
      } else {
        assert a[p[n]] == b[q[n]];
        IncreasingBelow(q, |b|, j);
        NoLonger(a, b[..j], p, q);
      }
    }
  }

  /** Some common subsequence is that long. */
  lemma {:induction false} Attained(a: string, b: string) returns (p: seq<nat>, q: seq<nat>)
    ensures Common(a, b, p, q) && |p| == Length(a, b)
    decreases |a| + |b|
  {
    if a == [] || b == [] {
      p, q := [], [];
    } else {
      var i, j := |a| - 1, |b| - 1;
      if a[i] == b[j] {
        p, q := Attained(a[..i], b[..j]);
        IncreasingAppend(p, i);
        IncreasingAppend(q, j);
        p, q := p + [i], q + [j];
      } else if Length(a[..i], b) >= Length(a, b[..j]) {
        p, q := Attained(a[..i], b);
      } else {
        p, q := Attained(a, b[..j]);
      }
    }
  }

  /** The recurrence is the optimum: n is the length exactly when it is attained and nothing is longer. */
  lemma LengthIsMaximum(a: string, b: string, n: nat)
    ensures n == Length(a, b) <==>
      && (exists p, q :: Common(a, b, p, q) && |p| == n)
      && (forall p, q :: Common(a, b, p, q) ==> |p| <= n)
  {
    var p, q := Attained(a, b);
    forall p', q' | Common(a, b, p', q') ensures |p'| <= Length(a, b) {
      NoLonger(a, b, p', q');
    }
  }

  lemma {:induction false} LengthSymmetric(a: string, b: string)
    ensures Length(a, b) == Length(b, a)
  {
    var p, q := Attained(a, b);
    NoLonger(b, a, q, p);
    var r, s := Attained(b, a);
    NoLonger(a, b, s, r);
  }

  lemma {:induction false} IncreasingAtLeast(p: seq<nat>, bound: nat, k: nat)
    requires Increasing(p, bound) && k < |p|
    ensures k <= p[k] && p[k] + (|p| - k) <= bound
    decreases |p| - k
  {
    if k + 1 < |p| {
      IncreasingAtLeast(p, bound, k + 1);
    }
    if k > 0 {
      AtLeastIndex(p, bound, k);
    }
  }

  lemma {:induction false} AtLeastIndex(p: seq<nat>, bound: nat, k: nat)
    requires Increasing(p, bound) && k < |p|
    ensures k <= p[k]
  {
    if k > 0 { AtLeastIndex(p, bound, k - 1); }
  }

  lemma IncreasingLength(p: seq<nat>, bound: nat)
    requires Increasing(p, bound)
    ensures |p| <= bound
    ensures |p| == bound ==> forall k :: 0 <= k < |p| ==> p[k] == k
  {
    if p != [] { IncreasingAtLeast(p, bound, 0); }
    if |p| == bound {
      forall k | 0 <= k < |p| ensures p[k] == k {
        IncreasingAtLeast(p, bound, k);
      }
    }
  }

  /** The length is at most that of either string, and equals the longer one only for equal strings. */
  lemma {:induction false} LengthBounds(a: string, b: string)
    ensures Length(a, b) <= |a| && Length(a, b) <= |b|
    ensures Length(a, b) == Max(|a|, |b|) <==> a == b
  {
    var p, q := Attained(a, b);
    IncreasingLength(p, |a|);
    IncreasingLength(q, |b|);
    if Length(a, b) == Max(|a|, |b|) {
      forall k | 0 <= k < |a| ensures a[k] == b[k] {
        assert a[p[k]] == b[q[k]];
      }
    }
    if a == b {
      var id := seq(|a|, k => k);
      NoLonger(a, b, id, id);
    }
  }

  // The score

  /** The score of two texts that are already normalised. */
  function Score(a: string, b: string): real {
    if a == [] && b == [] then 1.0
    else if a == [] || b == [] then 0.0
    else Length(a, b) as real / Max(|a|, |b|) as real
  }

  /**
    The score under any normaliser is symmetric, between 0 and 1, and 1 exactly for texts with the same normal
    form.
  */
  lemma ScoreMeaning(normalize: string -> string, s: string, t: string)
    ensures var a, b := normalize(s), normalize(t);
      && Score(a, b) == Score(b, a)
      && 0.0 <= Score(a, b) <= 1.0
      && (Score(a, b) == 1.0 <==> a == b)
  {
    var a, b := normalize(s), normalize(t);
    LengthSymmetric(a, b);
    LengthBounds(a, b);
    if a != [] && b != [] {
      Quotient(Length(a, b), Max(|a|, |b|));
    }
  }

  lemma Quotient(n: nat, d: nat)
    requires n <= d && d > 0
    ensures 0.0 <= n as real / d as real <= 1.0
    ensures n as real / d as real == 1.0 <==> n == d
  {
  }

  // The two-row table

  /** Row of the table for a prefix of the first string. */
  predicate IsRow(row: seq<nat>, a: string, b: string) {
    |row| == |b| + 1 && forall j :: 0 <= j <= |b| ==> row[j] == Length(a, b[..j])
  }

  method NextRow(a: string, i: nat, b: string, prev: array<nat>) returns (cur: array<nat>)
    requires i < |a| && IsRow(prev[..], a[..i], b)
    ensures fresh(cur) && IsRow(cur[..], a[..i + 1], b)
  {
    cur := new nat[|b| + 1](_ => 0);
    for j := 1 to |b| + 1
      invariant forall k :: 0 <= k < j ==> cur[k] == Length(a[..i + 1], b[..k])
    {
      Cell(a, i, b, j);
      assert prev[..][j] == prev[j] && prev[..][j - 1] == prev[j - 1];
      cur[j] := if a[i] == b[j - 1] then prev[j - 1] + 1 else if prev[j] >= cur[j - 1] then prev[j] else cur[j - 1];
    }
  }

  /** The recurrence at one cell. */
  lemma Cell(a: string, i: nat, b: string, j: nat)
    requires i < |a| && 0 < j <= |b|
    ensures Length(a[..i + 1], b[..j])
            == if a[i] == b[j - 1] then Length(a[..i], b[..j - 1]) + 1
               else Max(Length(a[..i], b[..j]), Length(a[..i + 1], b[..j - 1]))
  {
    assert a[..i + 1][..i] == a[..i] && b[..j][..j - 1] == b[..j - 1];
  }

  method Similarity(normalize: string -> string, s: string, t: string) returns (score: real)
    ensures score == Score(normalize(s), normalize(t))
  {
    var a, b := normalize(s), normalize(t);
    if a == [] && b == [] {
      return 1.0;
    }
    if a == [] || b == [] {
      return 0.0;
    }
    var prev := new nat[|b| + 1](_ => 0);
    for i := 0 to |a|
      invariant IsRow(prev[..], a[..i], b)
    {
      prev := NextRow(a, i, b, prev);
    }
    assert a[..|a|] == a && b[..|b|] == b;
    assert prev[..][|b|] == prev[|b|];
    return prev[|b|] as real / Max(|a|, |b|) as real;
  }
}
