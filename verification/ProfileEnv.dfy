/**
  app/core/profile_loader.py, apply_profile: reconciling the process environment with a
  sequence of profiles.
*/
module ProfileEnv {
  import opened Templates
  import opened Wrappers

  type Env = map<Text, Text>

  /** A value of the profile's env block: its text, and whether the JSON value was a string. */
  datatype Setting = Setting(text: Text, isString: bool)

  datatype Profile = Profile(name: Text, modelId: Option<Text>, env: map<Text, Setting>)

  /** One call: the profile the reference resolves to, and the overrides. */
  datatype Call = Call(profile: Profile, overrides: Env)

  /** Keys owned by the operator, keys whose mismatch raises, and the two derived keys. */
  datatype Rules = Rules(operators: set<Text>, critical: set<Text>, nameKey: Text, modelKey: Text)

  datatype State = State(environ: Env, applied: set<Text>, current: Option<Profile>)

  datatype ProfileError = CriticalMismatch(key: Text)

  // At import

  const OPERATOR_PREFIXES: seq<Text> := [
    "OVS_", "LANGUAGE_MODE", "MODEL_DIR", "ASR_", "TTS_", "EDGE_LLM_",
    "QWEN3_", "KOKORO_", "MATCHA_", "RK_", "RKLLM_", "SHERPA_",
    "STREAMING_", "VOCOS_", "HF_", "CUDA_", "TRT_", "NVIDIA_"]

  const CRITICAL_KEYS: set<Text> := {"LANGUAGE_MODE", "ASR_BACKEND", "TTS_BACKEND"}

  /** Keys with an operator prefix and a non-empty value belong to the operator. */
  function Snapshot(environ: Env, prefixes: seq<Text>): set<Text> {
    set k | k in environ && environ[k] != [] && exists i :: 0 <= i < |prefixes| && prefixes[i] <= k
  }

  function ImportRules(environ: Env): Rules {
    Rules(Snapshot(environ, OPERATOR_PREFIXES), CRITICAL_KEYS, "OVS_PROFILE_NAME", "OVS_TTS_MODEL_ID")
  }

  function Imported(environ: Env): State {
    State(environ, {}, None)
  }

  // One call

  /** What `$VAR` refers to: a string of the profile's own block, else the process environment. */
  function Scope(p: Profile, environ: Env): Env {
    environ + map k | k in p.env && p.env[k].isString :: p.env[k].text
  }

  function Expanded(p: Profile, environ: Env): Env {
    map k | k in p.env :: Substitute(p.env[k].text, Scope(p, environ))
  }

  function Derived(r: Rules, p: Profile): Env {
    if p.modelId.Some? then map[r.nameKey := p.name, r.modelKey := p.modelId.value] else map[r.nameKey := p.name]
  }

  /** The values a call asks for. */
  function Merged(r: Rules, c: Call, environ: Env): Env {
    Expanded(c.profile, environ) + Derived(r, c.profile) + c.overrides
  }

  /** The keys a call asks for do not depend on the environment. */
  function CallKeys(r: Rules, c: Call): set<Text> {
    c.profile.env.Keys + Derived(r, c.profile).Keys + c.overrides.Keys
  }

  predicate Mismatch(r: Rules, k: Text, wanted: Env, environ: Env) {
    k in wanted && k in r.operators && k in r.critical && !(k in environ && environ[k] == wanted[k])
  }

  ghost predicate Raises(r: Rules, c: Call, environ: Env) {
    exists k :: Mismatch(r, k, Merged(r, c, environ), environ)
  }

  function Applied(r: Rules, s: State, c: Call): State {
    var wanted := Merged(r, c, s.environ);
    var stale := s.applied - wanted.Keys - r.operators;
    State((s.environ - stale) + (wanted - r.operators), wanted.Keys - r.operators, Some(c.profile))
  }

  lemma SameMismatches(r: Rules, wanted: Env, a: Env, b: Env)
    requires Agree(a, b, r.operators)
    ensures forall k :: Mismatch(r, k, wanted, a) <==> Mismatch(r, k, wanted, b)
  {
  }

  /** The environment while some wanted keys are still to be written. */
  function Partly(before: Env, wanted: Env, todo: set<Text>, operators: set<Text>): (e: Env)
    ensures Agree(before, e, operators)
    ensures todo == {} ==> e == before + (wanted - operators)
  {
    before + (wanted - operators - todo)
  }

  lemma PartlyNext(before: Env, wanted: Env, todo: set<Text>, operators: set<Text>, k: Text)
    requires k in todo && k in wanted
    ensures var e := Partly(before, wanted, todo, operators);
      Partly(before, wanted, todo - {k}, operators) == if k in operators then e else e[k := wanted[k]]
  {
  }

  /** No wanted key that has been looked at is a critical mismatch. */
  ghost predicate NoneMismatch(r: Rules, wanted: Env, environ: Env, todo: set<Text>) {
    forall k :: Mismatch(r, k, wanted, environ) ==> k in todo
  }

  lemma NoneMismatchNext(r: Rules, wanted: Env, environ: Env, todo: set<Text>, k: Text)
    requires NoneMismatch(r, wanted, environ, todo) && !Mismatch(r, k, wanted, environ)
    ensures NoneMismatch(r, wanted, environ, todo - {k})
  {
  }

  lemma RemoveOne(e: Env, todo: set<Text>, keep: set<Text>, k: Text)
    requires k in todo
    ensures (if k in keep then e else e - {k}) - (todo - {k} - keep) == e - (todo - keep)
  {
  }

  // The loader as an object

  class ProfileLoader {
    const rules: Rules
    var environ: Env
    var appliedKeys: set<Text>
    var currentProfile: Option<Profile>

    ghost function Abs(): State
      reads this
    {
      State(environ, appliedKeys, currentProfile)
    }

    constructor (environ: Env)
      ensures Abs() == Imported(environ) && rules == ImportRules(environ)
    {
      this.environ, appliedKeys, currentProfile, rules := environ, {}, None, ImportRules(environ);
    }

    method ExpandBlock(p: Profile) returns (r: Env)
      ensures r == Expanded(p, environ)
    {
      r := map[];
      var todo := p.env.Keys;
      while todo != {}
        invariant todo <= p.env.Keys && r.Keys == p.env.Keys - todo
        invariant forall k :: k in r ==> r[k] == Substitute(p.env[k].text, Scope(p, environ))
      {
        var k :| k in todo;
        r := r[k := Substitute(p.env[k].text, Scope(p, environ))];
        todo := todo - {k};
      }
    }

    method ClearStale(wanted: Env)
      modifies this`environ
      ensures environ == old(environ) - (appliedKeys - wanted.Keys - rules.operators)
    {
      var todo := appliedKeys - wanted.Keys;
      while todo != {}
        invariant todo <= appliedKeys - wanted.Keys
        invariant environ - (todo - rules.operators) == old(environ) - (appliedKeys - wanted.Keys - rules.operators)
        decreases |todo|
      {
        var k :| k in todo;
        RemoveOne(environ, todo, rules.operators, k);
        if k !in rules.operators {
          environ := environ - {k};
        }
        todo := todo - {k};
      }
      assert environ - (todo - rules.operators) == environ;
    }

    /** The write loop; a critical mismatch stops it half way. */
    method WriteValues(wanted: Env) returns (r: Result<(), ProfileError>)
      modifies this`environ
      ensures r.Success? ==> forall k :: !Mismatch(rules, k, wanted, old(environ))
      ensures r.Success? ==> environ == old(environ) + (wanted - rules.operators)
      ensures r.Failure? ==> Mismatch(rules, r.error.key, wanted, old(environ))
      ensures Agree(old(environ), environ, rules.operators)
    {
      var todo := wanted.Keys;
      while todo != {}
        invariant todo <= wanted.Keys && environ == Partly(old(environ), wanted, todo, rules.operators)
        invariant NoneMismatch(rules, wanted, old(environ), todo)
        decreases |todo|
      {
        var k :| k in todo;
        PartlyNext(old(environ), wanted, todo, rules.operators, k);
        if k in rules.operators {
          if k in rules.critical && !(k in environ && environ[k] == wanted[k]) {
            return Failure(CriticalMismatch(k));
          }
        } else {
          environ := environ[k := wanted[k]];
        }
        NoneMismatchNext(rules, wanted, old(environ), todo, k);
        todo := todo - {k};
      }
      return Success(());
    }

    method ApplyProfile(c: Call) returns (r: Result<Profile, ProfileError>)
      modifies this
      ensures r.Failure? <==> Raises(rules, c, old(environ))
      ensures r.Success? ==> Abs() == Applied(rules, old(Abs()), c) && r.value == c.profile
      ensures r.Failure? ==> appliedKeys == old(appliedKeys) && currentProfile == old(currentProfile)
      ensures Agree(old(environ), environ, rules.operators)
    {
      var expanded := ExpandBlock(c.profile);
      var wanted := expanded + Derived(rules, c.profile) + c.overrides;
      ClearStale(wanted);
      SameMismatches(rules, wanted, old(environ), environ);
      var written := WriteValues(wanted);
      if written.Failure? {
        assert Mismatch(rules, written.error.key, Merged(rules, c, old(environ)), old(environ));
        return Failure(written.error);
      }
      appliedKeys := wanted.Keys - rules.operators;
      currentProfile := Some(c.profile);
      return Success(c.profile);
    }
  }

  // Sequences of calls

  /** The state after a sequence of calls that all succeed. */
  function After(r: Rules, s: State, calls: seq<Call>): State
    decreases |calls|
  {
    if calls == [] then s else After(r, Applied(r, s, calls[0]), calls[1..])
  }

  /** No call of the sequence raises. */
  ghost predicate AllSucceed(r: Rules, s: State, calls: seq<Call>)
    decreases |calls|
  {
    calls == [] || (!Raises(r, calls[0], s.environ) && AllSucceed(r, Applied(r, s, calls[0]), calls[1..]))
  }

  function AllKeys(r: Rules, calls: seq<Call>): set<Text> {
    if calls == [] then {} else CallKeys(r, calls[0]) + AllKeys(r, calls[1..])
  }

  /** The environment just before the last call of a sequence. */
  function BeforeLast(r: Rules, s: State, calls: seq<Call>): Env
    requires calls != []
    decreases |calls|
  {
    if |calls| == 1 then s.environ else BeforeLast(r, Applied(r, s, calls[0]), calls[1..])
  }

  lemma MergedKeys(r: Rules, c: Call, environ: Env)
    ensures Merged(r, c, environ).Keys == CallKeys(r, c)
  {
  }

  /**
    What a state owes to the past: outside the keys the past calls named (`touched`) and those
    now applied, it is the environment at import; named keys that are no longer applied are absent.
  */
  predicate Owes(r: Rules, start: Env, s: State, touched: set<Text>) {
    && s.applied <= touched - r.operators && s.applied <= s.environ.Keys
    && Agree(start, s.environ, r.operators)
    && (forall k :: k in s.environ && k in touched && k !in r.operators ==> k in s.applied)
    && (forall k :: k in start && k !in touched ==> k in s.environ && s.environ[k] == start[k])
    && (forall k :: k in s.environ && k !in touched ==> k in start)
  }

  lemma AppliedOwes(r: Rules, start: Env, s: State, touched: set<Text>, c: Call)
    requires Owes(r, start, s, touched)
    ensures Owes(r, start, Applied(r, s, c), touched + CallKeys(r, c))
  {
  }

  /** Only the last call's values and the environment at import matter, and which keys were ever named. */
  function Reconciled(r: Rules, start: Env, touched: set<Text>, wanted: Env): Env {
    (start - (touched - r.operators)) + (wanted - r.operators)
  }

  lemma AppliedReconciles(r: Rules, start: Env, s: State, touched: set<Text>, c: Call)
    requires Owes(r, start, s, touched)
    ensures Applied(r, s, c).environ == Reconciled(r, start, touched + CallKeys(r, c), Merged(r, c, s.environ))
  {
    var wanted := Merged(r, c, s.environ);
    MergedKeys(r, c, s.environ);
    assert Applied(r, s, c).environ == Reconciled(r, start, touched + CallKeys(r, c), wanted) by {
      OwedRest(r, start, s, touched, CallKeys(r, c));
    }
  }

  /** What is left once stale keys and the new call's keys are set aside. */
  lemma OwedRest(r: Rules, start: Env, s: State, touched: set<Text>, keys: set<Text>)
    requires Owes(r, start, s, touched)
    ensures (s.environ - (s.applied - keys - r.operators)) - (keys - r.operators)
            == start - (touched + keys - r.operators)
  {
  }

  /** Outside the named keys, b is a. */
  predicate SameElsewhere(a: Env, b: Env, named: set<Text>) {
    && (forall k :: k in a && k !in named ==> k in b && a[k] == b[k])
    && (forall k :: k in b && k !in named ==> k in a)
  }

  lemma AllKeysOne(r: Rules, calls: seq<Call>)
    requires |calls| == 1
    ensures AllKeys(r, calls) == CallKeys(r, calls[0])
  {
  }

  lemma AfterOne(r: Rules, s: State, calls: seq<Call>)
    requires |calls| == 1
    ensures After(r, s, calls) == Applied(r, s, calls[0])
  {
  }

  /** The environment e after a last call made in `before`, when the calls so far named `named`. */
  predicate Settled(r: Rules, start: Env, before: Env, last: Call, named: set<Text>, e: Env) {
    && e == Reconciled(r, start, named, Merged(r, last, before))
    && Agree(start, before, r.operators) && SameElsewhere(start, before, named)
  }

  /** The last of the calls, made from state s, settles the environment. */
  predicate Reconciles(r: Rules, start: Env, s: State, touched: set<Text>, calls: seq<Call>)
    requires calls != []
  {
    Settled(r, start, BeforeLast(r, s, calls), calls[|calls| - 1], touched + AllKeys(r, calls),
            After(r, s, calls).environ)
  }

  lemma OneReconciles(r: Rules, start: Env, s: State, touched: set<Text>, calls: seq<Call>)
    requires |calls| == 1 && Owes(r, start, s, touched)
    ensures Reconciles(r, start, s, touched, calls)
  {
  }

  lemma MoreReconciles(r: Rules, start: Env, s: State, touched: set<Text>, calls: seq<Call>)
    requires |calls| > 1 && Reconciles(r, start, Applied(r, s, calls[0]), touched + CallKeys(r, calls[0]), calls[1..])
    ensures Reconciles(r, start, s, touched, calls)
  {
    assert touched + CallKeys(r, calls[0]) + AllKeys(r, calls[1..]) == touched + AllKeys(r, calls);
    assert calls[1..][|calls| - 2] == calls[|calls| - 1];
  }

  lemma {:induction false} CallsReconcile(r: Rules, start: Env, s: State, touched: set<Text>, calls: seq<Call>)
    requires calls != [] && Owes(r, start, s, touched)
    ensures Reconciles(r, start, s, touched, calls)
    decreases |calls|
  {
    if |calls| == 1 {
      OneReconciles(r, start, s, touched, calls);
    } else {
      AppliedOwes(r, start, s, touched, calls[0]);
      CallsReconcile(r, start, Applied(r, s, calls[0]), touched + CallKeys(r, calls[0]), calls[1..]);
      MoreReconciles(r, start, s, touched, calls);
    }
  }

  /**
    After any sequence of successful calls: operator keys keep their import values, the last call's other keys
    hold its values, keys only earlier calls named are absent, all other keys are untouched.
  */
  lemma HistoryIndependent(start: Env, r: Rules, calls: seq<Call>, k: Text)
    requires calls != [] && AllSucceed(r, Imported(start), calls)
    ensures var e, last := After(r, Imported(start), calls).environ, calls[|calls| - 1];
      var wanted := Merged(r, last, BeforeLast(r, Imported(start), calls));
      if k in r.operators then Agree(start, e, {k})
      else if k in CallKeys(r, last) then k in wanted && k in e && e[k] == wanted[k]
      else if k in AllKeys(r, calls) then k !in e
      else Agree(start, e, {k})
  {
    var s := Imported(start);
    CallsReconcile(r, start, s, {}, calls);
    MergedKeys(r, calls[|calls| - 1], BeforeLast(r, s, calls));
    assert {} + AllKeys(r, calls) == AllKeys(r, calls);
  }

  /** A key that was declared but empty at import is not the operator's: the last call's value is written. */
  lemma EmptyYieldsToProfile(start: Env, r: Rules, prefixes: seq<Text>, calls: seq<Call>, k: Text)
    requires r.operators == Snapshot(start, prefixes)
    requires calls != [] && AllSucceed(r, Imported(start), calls)
    requires k in start && start[k] == [] && k in CallKeys(r, calls[|calls| - 1])
    ensures var wanted := Merged(r, calls[|calls| - 1], BeforeLast(r, Imported(start), calls));
      var e := After(r, Imported(start), calls).environ;
      k in wanted && k in e && e[k] == wanted[k]
  {
    HistoryIndependent(start, r, calls, k);
  }

  // Returning to a profile

  /** The call's values refer only to the profile's own strings, operator keys, and keys no call named. */
  ghost predicate SelfContained(r: Rules, c: Call, named: set<Text>) {
    forall k, x :: k in c.profile.env && x in Refs(c.profile.env[k].text) ==>
      (x in c.profile.env && c.profile.env[x].isString) || x in r.operators || x !in named
  }

  lemma MergedSame(r: Rules, c: Call, a: Env, b: Env, named: set<Text>)
    requires SelfContained(r, c, named) && Agree(a, b, r.operators) && SameElsewhere(a, b, named)
    ensures Merged(r, c, a) == Merged(r, c, b)
  {
    forall k | k in c.profile.env ensures Expanded(c.profile, a)[k] == Expanded(c.profile, b)[k] {
      forall x | x in Refs(c.profile.env[k].text) ensures Agree(Scope(c.profile, a), Scope(c.profile, b), {x}) {
      }
      assert Agree(Scope(c.profile, a), Scope(c.profile, b), Refs(c.profile.env[k].text)) by {
        forall x | x in Refs(c.profile.env[k].text)
          ensures (x in Scope(c.profile, a) <==> x in Scope(c.profile, b))
                  && (x in Scope(c.profile, a) ==> Scope(c.profile, a)[x] == Scope(c.profile, b)[x])
        {
          assert Agree(Scope(c.profile, a), Scope(c.profile, b), {x}) && x in {x};
        }
      }
      SubstituteAgrees(c.profile.env[k].text, Scope(c.profile, a), Scope(c.profile, b));
    }
    assert Expanded(c.profile, a) == Expanded(c.profile, b);
  }

  /**
    If the last profile is self-contained, it raises at the end of a sequence exactly when it does
    alone. If it does not, the sequence gives the environment of applying it alone exactly when no
    other profile named a non-operator key that was set at import.
  */
  lemma LastCallDecides(start: Env, r: Rules, calls: seq<Call>)
    requires calls != [] && AllSucceed(r, Imported(start), calls[..|calls| - 1])
    requires SelfContained(r, calls[|calls| - 1], AllKeys(r, calls))
    ensures var last := calls[|calls| - 1];
      && (Raises(r, last, BeforeLast(r, Imported(start), calls)) <==> Raises(r, last, start))
      && (!Raises(r, last, start) ==>
            (After(r, Imported(start), calls).environ == Applied(r, Imported(start), last).environ
             <==> AllKeys(r, calls) - CallKeys(r, last) - r.operators !! start.Keys))
  {
    var s, last := Imported(start), calls[|calls| - 1];
    var before := BeforeLast(r, s, calls);
    CallsReconcile(r, start, s, {}, calls);
    assert {} + AllKeys(r, calls) == AllKeys(r, calls);
    MergedSame(r, last, start, before, AllKeys(r, calls));
    SameMismatches(r, Merged(r, last, start), start, before);
    AppliedReconciles(r, start, s, {}, last);
    assert {} + CallKeys(r, last) == CallKeys(r, last);
    LastNamed(r, calls);
    MergedKeys(r, last, start);
    ReconciledSameIff(r, start, AllKeys(r, calls), CallKeys(r, last), Merged(r, last, start));
  }

  lemma {:induction false} LastNamed(r: Rules, calls: seq<Call>)
    requires calls != []
    ensures CallKeys(r, calls[|calls| - 1]) <= AllKeys(r, calls)
  {
    if |calls| > 1 { LastNamed(r, calls[1..]); }
  }

  lemma ReconciledSameIff(r: Rules, start: Env, more: set<Text>, keys: set<Text>, wanted: Env)
    requires keys <= more && wanted.Keys == keys
    ensures Reconciled(r, start, more, wanted) == Reconciled(r, start, keys, wanted)
            <==> more - keys - r.operators !! start.Keys
  {
    var a, b := Reconciled(r, start, more, wanted), Reconciled(r, start, keys, wanted);
    if k :| k in more - keys - r.operators && k in start {
      assert k in b && k !in a;
    } else {
      forall k ensures k in a <==> k in b {
        assert k in more - keys - r.operators ==> k !in start;
      }
      assert a == b;
    }
  }

  lemma {:induction false} AllSucceedLast(r: Rules, s: State, calls: seq<Call>)
    requires calls != [] && AllSucceed(r, s, calls[..|calls| - 1])
    requires !Raises(r, calls[|calls| - 1], BeforeLast(r, s, calls))
    ensures AllSucceed(r, s, calls)
    decreases |calls|
  {
    if |calls| > 1 {
      assert calls[..|calls| - 1][1..] == calls[1..][..|calls| - 2];
      AllSucceedLast(r, Applied(r, s, calls[0]), calls[1..]);
    }
  }

  /** Applying A, then B, then A again. */
  lemma ThereAndBack(start: Env, r: Rules, a: Call, b: Call)
    requires SelfContained(r, a, CallKeys(r, a) + CallKeys(r, b)) && AllSucceed(r, Imported(start), [a, b])
    ensures AllSucceed(r, Imported(start), [a, b, a])
    ensures After(r, Imported(start), [a, b, a]).environ == After(r, Imported(start), [a]).environ
      <==> CallKeys(r, b) - CallKeys(r, a) - r.operators !! start.Keys
  {
    var calls := [a, b, a];
    AllKeysThree(r, a, b);
    assert calls[..2] == [a, b];
    LastCallDecides(start, r, calls);
    AllSucceedLast(r, Imported(start), calls);
    AfterOne(r, Imported(start), [a]);
    assert AllKeys(r, calls) - CallKeys(r, a) - r.operators == CallKeys(r, b) - CallKeys(r, a) - r.operators;
  }

  lemma AllKeysThree(r: Rules, a: Call, b: Call)
    ensures AllKeys(r, [a, b, a]) == CallKeys(r, a) + CallKeys(r, b)
  {
    assert [a, b, a][1..] == [b, a];
    assert [b, a][1..] == [a];
    AllKeysOne(r, [a]);
  }

  // When earlier calls do not matter

  /** What a call writes: the merged values of keys that are not the operator's. */
  function Written(r: Rules, c: Call, environ: Env): Env {
    Merged(r, c, environ) - r.operators
  }

  /** A key of the block whose value is written: not overridden, not derived, not the operator's. */
  predicate FromBlock(r: Rules, c: Call, k: Text) {
    k in c.profile.env && k !in Derived(r, c.profile) && k !in c.overrides && k !in r.operators
  }

  predicate OwnString(c: Call, x: Text) {
    x in c.profile.env && c.profile.env[x].isString
  }

  /** Every value written from the block refers only to the profile's own strings and to operator keys. */
  ghost predicate Independent(r: Rules, c: Call) {
    forall k, x :: FromBlock(r, c, k) && x in Refs(c.profile.env[k].text) ==> OwnString(c, x) || x in r.operators
  }

  lemma IndependentSame(r: Rules, c: Call, a: Env, b: Env)
    requires Independent(r, c) && Agree(a, b, r.operators)
    ensures Written(r, c, a) == Written(r, c, b)
  {
    forall k | FromBlock(r, c, k) ensures Expanded(c.profile, a)[k] == Expanded(c.profile, b)[k] {
      SubstituteAgrees(c.profile.env[k].text, Scope(c.profile, a), Scope(c.profile, b));
    }
  }

  lemma {:induction false} OperatorsKept(r: Rules, start: Env, s: State, calls: seq<Call>)
    requires Agree(start, s.environ, r.operators)
    ensures Agree(start, After(r, s, calls).environ, r.operators)
    decreases |calls|
  {
    if calls != [] {
      OperatorsKept(r, start, Applied(r, s, calls[0]), calls[1..]);
    }
  }

  /** A profile name that no operator-owned name contradicts. */
  function PlainName(r: Rules, start: Env): Text {
    if r.nameKey in start then start[r.nameKey] else []
  }

  /** A call that names no operator key but perhaps the profile name does not raise. */
  lemma PlainSucceeds(r: Rules, start: Env, c: Call, environ: Env)
    requires r.operators <= start.Keys && Agree(start, environ, r.operators)
    requires c.profile.modelId.None? && c.profile.name == PlainName(r, start)
    requires c.profile.env.Keys + c.overrides.Keys !! r.operators
    ensures !Raises(r, c, environ)
  {
  }

  /** A call that sets x to v. */
  function Planting(r: Rules, start: Env, x: Text, v: Text): Call {
    Call(Profile(PlainName(r, start), None, map[]), map[x := v])
  }

  lemma Planted(r: Rules, start: Env, x: Text, v: Text)
    requires r.operators <= start.Keys && x !in r.operators
    ensures var calls := [Planting(r, start, x, v)];
      var e := After(r, Imported(start), calls).environ;
      AllSucceed(r, Imported(start), calls) && x in e && e[x] == v
  {
    var b := Planting(r, start, x, v);
    PlainSucceeds(r, start, b, start);
    AfterOne(r, Imported(start), [b]);
    assert [b][1..] == [];
    assert Merged(r, b, start)[x] == v;
  }

  /** A value that refers to a planted variable is at least as long as what was planted. */
  lemma LongValue(r: Rules, c: Call, environ: Env, k: Text, x: Text)
    requires FromBlock(r, c, k) && x in Refs(c.profile.env[k].text) && !OwnString(c, x) && x in environ
    ensures k in Written(r, c, environ) && |Written(r, c, environ)[k]| >= |environ[x]|
  {
    assert Scope(c.profile, environ)[x] == environ[x];
    SubstituteLong(c.profile.env[k].text, Scope(c.profile, environ), x);
  }

  /**
    A call writes the same values after every sequence of successful calls exactly when the values
    it writes from its block refer only to its own strings and to operator keys.
  */
  lemma WrittenSameIff(start: Env, r: Rules, c: Call)
    requires r.operators <= start.Keys
    ensures (forall calls :: AllSucceed(r, Imported(start), calls) ==>
               Written(r, c, After(r, Imported(start), calls).environ) == Written(r, c, start))
            <==> Independent(r, c)
  {
    if Independent(r, c) {
      forall calls | AllSucceed(r, Imported(start), calls)
        ensures Written(r, c, After(r, Imported(start), calls).environ) == Written(r, c, start)
      {
        OperatorsKept(r, start, Imported(start), calls);
        IndependentSame(r, c, After(r, Imported(start), calls).environ, start);
      }
    } else {
      var k, x :| FromBlock(r, c, k) && x in Refs(c.profile.env[k].text) && !OwnString(c, x) && x !in r.operators;
      var _ := Distinguish(start, r, c, k, x);
    }
  }

  /** Setting x to something longer than what the call writes alone changes what it writes. */
  lemma Distinguish(start: Env, r: Rules, c: Call, k: Text, x: Text) returns (calls: seq<Call>)
    requires r.operators <= start.Keys && x !in r.operators
    requires FromBlock(r, c, k) && x in Refs(c.profile.env[k].text) && !OwnString(c, x)
    ensures AllSucceed(r, Imported(start), calls)
    ensures Written(r, c, After(r, Imported(start), calls).environ) != Written(r, c, start)
  {
    var n := |Written(r, c, start)[k]|;
    var v: Text := seq(n + 1, _ => 'v');
    calls := [Planting(r, start, x, v)];
    Planted(r, start, x, v);
    LongValue(r, c, After(r, Imported(start), calls).environ, k, x);
  }

  /**
    The plainest instance: a value `$x` takes whatever an earlier call set x to, although x itself
    is cleared in the same step. Values are expanded before stale keys are cleared.
  */
  lemma StaleExpansion(start: Env, r: Rules, x: Text, key: Text, v: Text)
    requires r.operators <= start.Keys && x !in r.operators && key !in r.operators
    requires Identifier(x) && x != key && r.nameKey != key && r.nameKey != x
    ensures var a := Call(Profile(PlainName(r, start), None, map[key := Setting(['$'] + x, true)]), map[]);
      var calls := [Planting(r, start, x, v), a];
      var e := After(r, Imported(start), calls).environ;
      !Independent(r, a) && AllSucceed(r, Imported(start), calls) && key in e && e[key] == v && x !in e
  {
    var a := Call(Profile(PlainName(r, start), None, map[key := Setting(['$'] + x, true)]), map[]);
    var b := Planting(r, start, x, v);
    var calls, s := [b, a], Applied(r, Imported(start), b);
    Planted(r, start, x, v);
    AfterOne(r, Imported(start), [b]);
    OperatorsKept(r, start, Imported(start), [b]);
    PlainSucceeds(r, start, a, s.environ);
    assert calls[1..] == [a] && [a][1..] == [] && [b][1..] == [];
    AllKeysTwo(r, b, a);
    HistoryIndependent(start, r, calls, x);
    HistoryIndependent(start, r, calls, key);
    SubstituteNamed(x, [], Scope(a.profile, s.environ));
    assert ['$'] + x + [] == ['$'] + x;
    NamedRef(x);
    assert FromBlock(r, a, key);
  }

  lemma AllKeysTwo(r: Rules, a: Call, b: Call)
    ensures AllKeys(r, [a, b]) == CallKeys(r, a) + CallKeys(r, b)
  {
    assert [a, b][1..] == [b];
    AllKeysOne(r, [b]);
  }
}
