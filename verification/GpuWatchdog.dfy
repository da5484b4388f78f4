/** app/core/gpu_watchdog.py, _apply_check_result: hysteresis over GPU probe results. */
module GpuWatchdog {
  import opened Wrappers

  const FAIL_THRESHOLD: nat := 3
  const RECOVER_THRESHOLD: nat := 5

  /** A probe outcome: success, or failure with a reason. */
  datatype Probe = Good | Bad(reason: nat)

  /** The reason is None for "ok". */
  datatype Status = Status(ok: bool, reason: Option<nat>, failures: nat, successes: nat, checks: nat,
                           failuresTotal: nat)

  const INITIAL: Status := Status(true, None, 0, 0, 0, 0)

  function Next(s: Status, p: Probe): Status {
    var t := s.(checks := s.checks + 1);
    match p
    case Good =>
      var u := t.(successes := s.successes + 1, failures := 0);
      if !u.ok && u.successes >= RECOVER_THRESHOLD then u.(ok := true, reason := None) else u
    case Bad(reason) =>
      var u := t.(failuresTotal := s.failuresTotal + 1, failures := s.failures + 1, successes := 0);
      var v := if u.ok && u.failures >= FAIL_THRESHOLD then u.(ok := false) else u;
      if !v.ok then v.(reason := Some(reason)) else v
  }

  function After(probes: seq<Probe>): Status {
    if probes == [] then INITIAL else Next(After(probes[..|probes| - 1]), probes[|probes| - 1])
  }

  class Watchdog {
    var ok: bool
    var reason: Option<nat>
    var consecutiveFailures: nat
    var consecutiveSuccesses: nat
    var checksTotal: nat
    var failuresTotal: nat

    ghost function Abs(): Status
      reads this
    {
      Status(ok, reason, consecutiveFailures, consecutiveSuccesses, checksTotal, failuresTotal)
    }

    constructor ()
      ensures Abs() == INITIAL
    {
      ok, reason, consecutiveFailures, consecutiveSuccesses, checksTotal, failuresTotal := true, None, 0, 0, 0, 0;
    }

    method ApplyCheckResult(p: Probe)
      modifies this
      ensures Abs() == Next(old(Abs()), p)
    {
      checksTotal := checksTotal + 1;
      match p {
        case Good =>
          consecutiveSuccesses, consecutiveFailures := consecutiveSuccesses + 1, 0;
          if !ok && consecutiveSuccesses >= RECOVER_THRESHOLD {
            ok, reason := true, None;
          }
        case Bad(why) =>
          failuresTotal := failuresTotal + 1;
          consecutiveFailures, consecutiveSuccesses := consecutiveFailures + 1, 0;
          if ok && consecutiveFailures >= FAIL_THRESHOLD {
            ok, reason := false, Some(why);
          }
          if !ok {
            reason := Some(why);
          }
      }
    }
  }

  // The history of probes

  /** Probe number n and the k - 1 before it all have the given outcome. */
  predicate RunEndsAt(probes: seq<Probe>, n: nat, k: nat, good: bool) {
    k <= n <= |probes| && forall i :: n - k <= i < n ==> probes[i].Good? == good
  }

  /** The latest time at which k or more probes in a row had the given outcome; zero if there was none. */
  function Latest(probes: seq<Probe>, k: nat, good: bool): (n: nat)
    ensures n <= |probes|
    ensures n > 0 ==> RunEndsAt(probes, n, k, good)
    ensures forall m :: n < m <= |probes| ==> !RunEndsAt(probes, m, k, good)
  {
    if probes == [] then 0
    else if RunEndsAt(probes, |probes|, k, good) then |probes|
    else
      var before := probes[..|probes| - 1];
      var n := Latest(before, k, good);
      assert forall m :: 0 <= m <= |before| ==> RunEndsAt(before, m, k, good) == RunEndsAt(probes, m, k, good);
      n
  }

  /** The counters are the lengths of the current runs. */
  ghost predicate Counters(probes: seq<Probe>, s: Status) {
    && s.failures <= |probes| && s.successes <= |probes|
    && (forall k: nat :: RunEndsAt(probes, |probes|, k, false) <==> k <= s.failures)
    && (forall k: nat :: RunEndsAt(probes, |probes|, k, true) <==> k <= s.successes)
  }

  lemma {:induction false} CountersExact(probes: seq<Probe>)
    ensures Counters(probes, After(probes))
  {
    if probes != [] {
      var n := |probes| - 1;
      CountersExact(probes[..n]);
      forall k: nat, good: bool
        ensures RunEndsAt(probes, |probes|, k, good)
                <==> k <= if good then After(probes).successes else After(probes).failures
      {
        if k > 0 { RunExtends(probes, k, good); }
      }
    }
  }

  lemma RunExtends(probes: seq<Probe>, k: nat, good: bool)
    requires probes != [] && k > 0
    ensures var n := |probes| - 1;
      RunEndsAt(probes, |probes|, k, good) <==> probes[n].Good? == good && RunEndsAt(probes[..n], n, k - 1, good)
  {
  }

  /**
    The watchdog is not-ok exactly when the latest run of 3 failures is more recent than the latest run of 5
    successes.
  */
  lemma {:induction false} HysteresisByHistory(probes: seq<Probe>)
    ensures !After(probes).ok <==> Latest(probes, FAIL_THRESHOLD, false) > Latest(probes, RECOVER_THRESHOLD, true)
  {
    CountersExact(probes);
    if probes != [] {
      HysteresisByHistory(probes[..|probes| - 1]);
      CountersExact(probes[..|probes| - 1]);
    }
  }

  /** While not-ok the reason is that of the latest failure; while ok there is none. */
  lemma {:induction false} ReasonIsLatest(probes: seq<Probe>)
    ensures var s := After(probes);
      if s.ok then s.reason == None
      else exists i :: 0 <= i < |probes| && probes[i].Bad? && s.reason == Some(probes[i].reason)
                       && forall j :: i < j < |probes| ==> probes[j].Good?
  {
    if probes != [] {
      var n := |probes| - 1;
      ReasonIsLatest(probes[..n]);
      var s := After(probes);
      if !s.ok && probes[n].Good? {
        var i :| 0 <= i < n && probes[..n][i].Bad? && s.reason == Some(probes[..n][i].reason)
                 && forall j :: i < j < n ==> probes[..n][j].Good?;
        assert probes[i] == probes[..n][i] && forall j :: i < j < n ==> probes[j] == probes[..n][j];
      }
    }
  }

  /** How often the status went from ok to not-ok. */
  function Flips(probes: seq<Probe>): nat {
    if probes == [] then 0
    else
      var before := probes[..|probes| - 1];
      Flips(before) + if After(before).ok && !After(probes).ok then 1 else 0
  }

  lemma {:induction false} FlipsCost(probes: seq<Probe>)
    ensures var s := After(probes);
      8 * Flips(probes) + (if s.ok then s.failures as int else s.successes as int - 5) <= |probes|
    ensures After(probes).ok ==> After(probes).failures < FAIL_THRESHOLD
    ensures !After(probes).ok ==> After(probes).successes < RECOVER_THRESHOLD
  {
    if probes != [] {
      FlipsCost(probes[..|probes| - 1]);
    }
  }

  /** In n probes there are at most (n + 5) / 8 flips. */
  lemma FlipsBounded(probes: seq<Probe>)
    ensures Flips(probes) <= (|probes| + 5) / 8
  {
    FlipsCost(probes);
  }

  /** Three failures, then k times five successes and three failures. */
  function Worst(k: nat): seq<Probe> {
    if k == 0 then [Bad(0), Bad(0), Bad(0)]
    else Worst(k - 1) + [Good, Good, Good, Good, Good] + [Bad(0), Bad(0), Bad(0)]
  }

  lemma Push(probes: seq<Probe>, p: Probe)
    ensures After(probes + [p]) == Next(After(probes), p)
    ensures Flips(probes + [p]) == Flips(probes) + if After(probes).ok && !After(probes + [p]).ok then 1 else 0
  {
  }

  lemma ThreeFailures(probes: seq<Probe>)
    requires After(probes).ok && After(probes).failures == 0
    ensures var r := probes + [Bad(0), Bad(0), Bad(0)];
      !After(r).ok && After(r).successes == 0 && Flips(r) == Flips(probes) + 1
  {
    Push(probes, Bad(0));
    Push(probes + [Bad(0)], Bad(0));
    Push(probes + [Bad(0)] + [Bad(0)], Bad(0));
    assert probes + [Bad(0)] + [Bad(0)] + [Bad(0)] == probes + [Bad(0), Bad(0), Bad(0)];
  }

  lemma FiveSuccesses(probes: seq<Probe>)
    requires !After(probes).ok && After(probes).successes == 0
    ensures var r := probes + [Good, Good, Good, Good, Good];
      After(r).ok && After(r).failures == 0 && Flips(r) == Flips(probes)
  {
    var r1 := probes + [Good];
    var r2 := r1 + [Good];
    var r3 := r2 + [Good];
    var r4 := r3 + [Good];
    Push(probes, Good);
    Push(r1, Good);
    Push(r2, Good);
    Push(r3, Good);
    Push(r4, Good);
    assert r4 + [Good] == probes + [Good, Good, Good, Good, Good];
  }

  /** The bound is attained for every number of flips. */
  lemma {:induction false} FlipsAttained(k: nat)
    ensures Flips(Worst(k)) == k + 1 == (|Worst(k)| + 5) / 8
    ensures |Worst(k)| == 8 * k + 3 && !After(Worst(k)).ok && After(Worst(k)).successes == 0
  {
    if k == 0 {
      ThreeFailures([]);
      assert [] + [Bad(0), Bad(0), Bad(0)] == Worst(0);
    } else {
      FlipsAttained(k - 1);
      FiveSuccesses(Worst(k - 1));
      ThreeFailures(Worst(k - 1) + [Good, Good, Good, Good, Good]);
    }
  }
}
