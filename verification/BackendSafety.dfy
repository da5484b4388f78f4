/** Properties of the backend manager over all runs: drain safety, reload outcomes, rollback. */
module BackendSafety {
  import opened BackendLifecycle
  import opened Wrappers

  /** The counter is the number of requests inside acquire. */
  predicate Counted(s: State) {
    s.inflight == |s.holders.Keys|
  }

  /** How phase, reload stage, current instance and module global go together. */
  predicate Staged(s: State) {
    && (s.phase == Ready || s.phase == Draining ==> s.current.Some? && s.cache == s.current)
    && (s.phase == Init || s.phase == Failed ==> s.current.None?)
    && match s.stage
       case NoReload => s.phase == Init || s.phase == Ready || s.phase == Failed
       case Checked(p) => s.phase == Ready && s.current == Some(p.live)
       case Waiting(p) => s.phase == Draining && s.current == Some(p.live)
       case Decided(p, clean) => s.phase == Draining && s.current == Some(p.live) && (clean ==> s.holders == map[])
       case Swapped(p, outcome) =>
         s.phase == Reloading && if outcome == Broken then s.current.None? else s.current.Some? && s.cache == s.current
  }

  /** Every instance but the one in the module global was passed to the unloader. */
  predicate Tracked(s: State) {
    && (forall j :: 0 <= j < s.built ==> j in Unloaded(s) || s.cache == Some(j))
    && (s.cache.Some? ==> s.cache.value < s.built && s.cache.value !in Unloaded(s))
    && (forall u :: u in Unloaded(s) ==> u < s.built)
  }

  predicate BuiltAfterUnloads(s: State) {
    && |s.constructions| == s.built
    && forall k :: 0 <= k < s.built ==>
         s.constructions[k].instance == k && forall j :: 0 <= j < k ==> j in s.constructions[k].unloaded
  }

  predicate CleanUnloads(s: State) {
    forall k :: 0 <= k < |s.unloads| ==> s.unloads[k].clean ==>
      s.unloads[k].holders == {} && s.unloads[k].instance !in s.holders.Values
  }

  predicate Held(s: State) {
    forall b :: b in s.holders.Values ==> b < s.built
  }

  /** A recorded ref is what a reload goes back to; seeding records one at the start. */
  predicate Recorded(s: State) {
    && (s.phase == Init ==> s.lastRef.None?)
    && (s.initialRef.Some? && (s.phase == Ready || s.phase == Draining) ==> s.lastRef.Some?)
    && (s.stage.Checked? || s.stage.Waiting? || s.stage.Decided? ==> s.lastRef.Some? ==> s.stage.plan.back == s.lastRef)
    && (s.stage.Swapped? && s.stage.outcome != Broken && s.initialRef.Some? ==> s.lastRef.Some?)
  }

  /** Every mixture ever left behind has an id below the next one. */
  predicate Numbered(s: State) {
    s.inForce.Mixed? ==> s.inForce.id < s.mixtures
  }

  predicate Sound(s: State) {
    && Counted(s) && Staged(s) && Tracked(s) && BuiltAfterUnloads(s) && CleanUnloads(s) && Held(s)
    && Recorded(s) && Numbered(s)
  }

  // The instances through factory and unloader

  predicate Instances(s: State) {
    Tracked(s) && BuiltAfterUnloads(s) && CleanUnloads(s) && Held(s)
  }

  lemma UnloadedMore(s: State, b: nat, clean: bool)
    ensures Unloaded(Unloading(s, b, clean)) == Unloaded(s) + {b}
  {
    var u := Unloading(s, b, clean).unloads;
    forall x | x in Unloaded(s) + {b} ensures x in Unloaded(Unloading(s, b, clean)) {
      if x in Unloaded(s) {
        var k :| 0 <= k < |s.unloads| && s.unloads[k].instance == x;
        assert u[k].instance == x;
      } else {
        assert u[|s.unloads|].instance == x;
      }
    }
  }

  lemma UnloadKeeps(s: State, b: nat, clean: bool)
    requires Instances(s) && s.cache == Some(b) && (clean ==> s.holders == map[])
    ensures Instances(Unloading(s, b, clean)) && Unloading(s, b, clean).cache.None?
  {
    UnloadedMore(s, b, clean);
  }

  lemma MakeKeeps(s: State)
    requires Instances(s)
    ensures Instances(Make(s)) && Make(s).cache.Some?
    ensures s.cache.None? ==> Make(s).cache == Some(s.built)
  {
  }

  lemma ApplyProfileKeeps(s: State, target: Option<ProfileRef>, answer: Applying)
    requires Instances(s)
    ensures Instances(ApplyProfile(s, target, answer))
  {
    assert Unloaded(ApplyProfile(s, target, answer)) == Unloaded(s);
  }

  lemma SameInstances(s: State, r: State)
    requires Instances(s) && r.cache == s.cache && r.built == s.built && r.unloads == s.unloads
    requires r.constructions == s.constructions && r.holders == s.holders
    ensures Instances(r) && Unloaded(r) == Unloaded(s)
  {
    assert Unloaded(r) == Unloaded(s);
  }

  // The swap

  predicate Goes(p: Plan, a: Answers) {
    (p.target.Some? ==> a.apply.Applies?) && a.make && a.preload
  }

  predicate GoesBack(p: Plan, a: Answers) {
    (p.target.Some? && p.back.Some? ==> a.applyBack.Applies?) && a.makeBack && a.preloadBack
  }

  /** What rolling back from a state with an empty cache leads to. */
  lemma RollBackResult(s: State, p: Plan, a: Answers)
    requires Instances(s) && s.cache.None?
    ensures var r := RollBack(s, p, a);
      && Instances(r) && r.phase == s.phase && r.holders == s.holders && r.inflight == s.inflight
         && r.lastRef == s.lastRef
      && r.initialRef == s.initialRef && r.unloads == s.unloads
      && r.stage == Swapped(p, if GoesBack(p, a) then RolledBack else Broken)
      && (if GoesBack(p, a) then r.current == Some(s.built) && r.cache == r.current else r.current.None?)
  {
    ApplyProfileKeeps(s, p.back, a.applyBack);
    var applied := if p.target.Some? && p.back.Some? then ApplyProfile(s, p.back, a.applyBack) else s;
    MakeKeeps(applied);
    var r := RollBack(s, p, a);
    if r.built == s.built {
      SameInstances(applied, r);
    } else {
      SameInstances(Make(applied), r);
    }
  }

  lemma GoneResult(s: State, p: Plan, clean: bool, a: Answers)
    requires Instances(s) && s.cache == Some(p.live) && (clean ==> s.holders == map[])
    ensures var g := Gone(s, p, clean, a);
      && Instances(g) && g.cache.None? && g.built == s.built && Unloaded(g) == Unloaded(s) + {p.live}
  {
    var halted := s.(phase := Reloading, current := None);
    SameInstances(s, halted);
    UnloadKeeps(halted, p.live, clean);
    UnloadedMore(halted, p.live, clean);
    ApplyProfileKeeps(Unloading(halted, p.live, clean), p.target, a.apply);
    SameInstances(Unloading(halted, p.live, clean), Gone(s, p, clean, a));
  }

  lemma RebuiltResult(g: State, p: Plan, clean: bool, a: Answers)
    requires Instances(g) && g.cache.None? && (clean ==> g.holders == map[])
    ensures var r := Rebuilt(g, p, clean, a);
      && Instances(r) && r.phase == g.phase && r.holders == g.holders && r.inflight == g.inflight
      && r.initialRef == g.initialRef && Unloaded(g) <= Unloaded(r)
      && r.stage == Swapped(p, if Goes(p, a) then Reloaded else if GoesBack(p, a) then RolledBack else Broken)
      && (if r.stage.outcome == Broken then r.current.None?
          else r.current.Some? && r.cache == r.current && r.current.value >= g.built)
      && r.lastRef == if Goes(p, a) && p.target.Some? then p.target else g.lastRef
  {
    var r := Rebuilt(g, p, clean, a);
    if (p.target.Some? && !a.apply.Applies?) || !a.make {
      RollBackResult(g, p, a);
      assert Unloaded(r) == Unloaded(g);
    } else {
      MakeKeeps(g);
      var made := Make(g);
      assert Unloaded(made) == Unloaded(g);
      if a.preload {
        SameInstances(made, r);
      } else {
        UnloadKeeps(made, made.cache.value, clean);
        UnloadedMore(made, made.cache.value, clean);
        RollBackResult(Unloading(made, made.cache.value, clean), p, a);
        assert Unloaded(r) == Unloaded(Unloading(made, made.cache.value, clean));
      }
    }
  }

  /** The swap succeeds, rolls back or breaks, as the answers decide; the live instance is never reused. */
  lemma SwapResult(s: State, p: Plan, clean: bool, a: Answers)
    requires Instances(s) && s.cache == Some(p.live) && (clean ==> s.holders == map[])
    ensures var r := Swapping(s, p, clean, a);
      && Instances(r) && r.phase == Reloading && r.holders == s.holders && r.inflight == s.inflight
      && r.initialRef == s.initialRef
      && r.stage == Swapped(p, if Goes(p, a) then Reloaded else if GoesBack(p, a) then RolledBack else Broken)
      && (if r.stage.outcome == Broken then r.current.None?
          else r.current.Some? && r.cache == r.current && r.current.value >= s.built)
      && p.live in Unloaded(r) && Unloaded(s) <= Unloaded(r)
      && r.lastRef == if Goes(p, a) && p.target.Some? then p.target else s.lastRef
  {
    GoneResult(s, p, clean, a);
    RebuiltResult(Gone(s, p, clean, a), p, clean, a);
  }

  /** The profile in force after a rollback: what the failed reload left, unless there is a ref to go back to. */
  function RolledBackTo(s: State, p: Plan, a: Answers): InForce {
    if p.target.None? then s.inForce
    else if p.back.Some? then Whole(p.back.value)
    else ApplyProfile(s, p.target, a.apply).inForce
  }

  lemma RollBackInForce(s: State, p: Plan, a: Answers)
    ensures var r := RollBack(s, p, a);
      && (Numbered(s) ==> Numbered(r))
      && (GoesBack(p, a) ==> r.inForce == if p.target.Some? && p.back.Some? then Whole(p.back.value) else s.inForce)
  {
  }

  lemma RebuiltInForce(g: State, p: Plan, clean: bool, a: Answers)
    requires g.cache.None?
    ensures var r := Rebuilt(g, p, clean, a);
      && (Numbered(g) ==> Numbered(r))
      && (Goes(p, a) || (GoesBack(p, a) && (p.target.None? || p.back.None?)) ==> r.inForce == g.inForce)
      && (!Goes(p, a) && GoesBack(p, a) && p.target.Some? && p.back.Some? ==> r.inForce == Whole(p.back.value))
  {
    if (p.target.Some? && !a.apply.Applies?) || !a.make {
      RollBackInForce(g, p, a);
    } else if !a.preload {
      RollBackInForce(Unloading(Make(g), Make(g).cache.value, clean), p, a);
    }
  }

  lemma SwapInForce(s: State, p: Plan, clean: bool, a: Answers)
    ensures var r := Swapping(s, p, clean, a);
      && (Numbered(s) ==> Numbered(r))
      && (Goes(p, a) ==> r.inForce == if p.target.Some? then Whole(p.target.value) else s.inForce)
      && (!Goes(p, a) && GoesBack(p, a) ==> r.inForce == RolledBackTo(s, p, a))
  {
    RebuiltInForce(Gone(s, p, clean, a), p, clean, a);
  }

  // Every event keeps the invariant

  lemma BootKeeps(s: State, make: bool, preload: bool)
    requires Sound(s)
    ensures Sound(Booted(s, make, preload))
  {
    var r := Booted(s, make, preload);
    MakeKeeps(s);
    if r.built == s.built { SameInstances(s, r); } else { SameInstances(Make(s), r); }
  }

  /** A request holds the live instance, which has not been passed to the unloader. */
  lemma AcquireKeeps(s: State, request: nat)
    requires Sound(s)
    ensures Sound(Acquired(s, request))
    ensures request in Acquired(s, request).holders && request !in s.holders ==>
              && s.phase == Ready && s.cache == s.current
              && s.current == Some(Acquired(s, request).holders[request]) && s.current.value !in Unloaded(s)
  {
    var r := Acquired(s, request);
    assert Unloaded(r) == Unloaded(s);
    if Serving(s) && request !in s.holders {
      assert r.holders.Keys == s.holders.Keys + {request};
      forall b | b in r.holders.Values ensures b in s.holders.Values || b == s.current.value {
      }
      forall k | 0 <= k < |r.unloads| && r.unloads[k].clean ensures r.unloads[k].instance != s.current.value {
        assert r.unloads[k].instance in Unloaded(s);
      }
    }
  }

  /** The clamp in the release never acts. */
  lemma ReleaseKeeps(s: State, request: nat)
    requires Sound(s)
    ensures Sound(Released(s, request))
    ensures request in s.holders ==> Released(s, request).inflight == s.inflight - 1 >= 0
  {
    var r := Released(s, request);
    assert Unloaded(r) == Unloaded(s);
    if request in s.holders {
      assert r.holders.Keys == s.holders.Keys - {request};
      assert forall b :: b in r.holders.Values ==> b in s.holders.Values;
    }
  }

  lemma StageKeeps(s: State, e: Event)
    requires Sound(s) && (e.Check? || e.BeginDrain? || e.DrainPoll? || e.DrainTimeout? || e.Finish?)
    ensures Sound(Apply(s, e))
  {
    SameInstances(s, Apply(s, e));
  }

  lemma ElsewhereKeeps(s: State, applied: ProfileRef, answer: Applying)
    requires Sound(s)
    ensures Sound(ApplyProfile(s, Some(applied), answer))
  {
    SameInstances(s, ApplyProfile(s, Some(applied), answer));
  }

  lemma SwapKeeps(s: State, a: Answers)
    requires Sound(s)
    ensures Sound(Apply(s, Swap(a)))
  {
    if s.stage.Decided? {
      SwapResult(s, s.stage.plan, s.stage.clean, a);
      SwapInForce(s, s.stage.plan, s.stage.clean, a);
    }
  }

  lemma Step(s: State, e: Event)
    requires Sound(s)
    ensures Sound(Apply(s, e))
  {
    match e
    case Boot(make, preload) => BootKeeps(s, make, preload);
    case Acquire(request) => AcquireKeeps(s, request);
    case Release(request) => ReleaseKeeps(s, request);
    case Swap(a) => SwapKeeps(s, a);
    case Elsewhere(applied, answer) => ElsewhereKeeps(s, applied, answer);
    case _ => StageKeeps(s, e);
  }

  lemma {:induction false} AlwaysSound(c: Startup, events: seq<Event>)
    ensures Sound(After(c, events)) && After(c, events).initialRef == c.initialRef
  {
    if events != [] {
      var before := events[..|events| - 1];
      AlwaysSound(c, before);
      Step(After(c, before), events[|events| - 1]);
      SameRef(After(c, before), events[|events| - 1]);
    }
  }

  /** The seeded ref never changes, and a recorded one is never forgotten. */
  lemma SameRef(s: State, e: Event)
    requires Sound(s)
    ensures Apply(s, e).initialRef == s.initialRef && (s.lastRef.Some? ==> Apply(s, e).lastRef.Some?)
  {
    if e.Swap? && s.stage.Decided? {
      SwapResult(s, s.stage.plan, s.stage.clean, e.a);
    }
  }

  // Main results

  /** In every run the counter equals the requests inside acquire, and a release never needs the clamp. */
  lemma CounterExact(c: Startup, events: seq<Event>, request: nat)
    ensures var s := After(c, events);
      && s.inflight == |s.holders.Keys|
      && (request in s.holders ==> Released(s, request).inflight == s.inflight - 1 >= 0)
  {
    AlwaysSound(c, events);
    ReleaseKeeps(After(c, events), request);
  }

  /**
    A request is let in only in READY, and gets the instance that the manager and the module global both hold
    and nobody unloaded.
  */
  lemma GrantsOnlyReady(c: Startup, events: seq<Event>, request: nat)
    requires var s := After(c, events); request !in s.holders && request in Acquired(s, request).holders
    ensures var s := After(c, events);
      && s.phase == Ready && s.cache == s.current
      && s.current == Some(Acquired(s, request).holders[request]) && s.current.value !in Unloaded(s)
  {
    AlwaysSound(c, events);
    AcquireKeeps(After(c, events), request);
  }

  /** An instance unloaded after a clean drain had no requests then, and no request holds it ever after. */
  lemma CleanDrainSafe(c: Startup, events: seq<Event>, k: nat, request: nat)
    requires var s := After(c, events); k < |s.unloads| && s.unloads[k].clean
    ensures var s := After(c, events);
      && s.unloads[k].holders == {}
      && (request in s.holders ==> s.holders[request] != s.unloads[k].instance)
  {
    AlwaysSound(c, events);
    var s := After(c, events);
    if request in s.holders {
      assert s.holders[request] in s.holders.Values;
    }
  }

  /** Every instance was built only after all earlier ones had been passed to the unloader. */
  lemma OneInstanceAtATime(c: Startup, events: seq<Event>, i: nat, j: nat)
    requires j < i < After(c, events).built
    ensures var c := After(c, events).constructions;
      i < |c| && c[i].instance == i && j in c[i].unloaded
  {
    AlwaysSound(c, events);
  }

  /** In READY the manager and the module global hold the same instance; in FAILED the manager holds none. */
  lemma ReadyIsConsistent(c: Startup, events: seq<Event>)
    ensures var s := After(c, events);
      && (s.phase == Ready ==> s.current.Some? && s.cache == s.current && s.current.value !in Unloaded(s))
      && (s.phase == Failed ==> s.current.None?)
  {
    AlwaysSound(c, events);
  }

  /**
    A reload that passed its checks ends READY with a new instance, on the new or the old profile,
    or FAILED with none, exactly as the answers of the foreign calls decide. Whatever it had before
    or built on the way is unloaded, so a rolled-back instance is neither the old nor the failed one.
  */
  lemma ReloadEnds(c: Startup, events: seq<Event>, a: Answers)
    requires After(c, events).stage.Decided?
    ensures var s := After(c, events);
      var r := Apply(Apply(s, Swap(a)), Finish);
      var p := s.stage.plan;
      && r.stage == NoReload && p.live in Unloaded(r)
      && r.phase == (if Goes(p, a) || GoesBack(p, a) then Ready else Failed)
      && (r.phase == Ready ==>
            && r.current.Some? && r.current.value >= s.built && r.current.value !in Unloaded(r)
            && r.cache == r.current)
      && (r.phase == Failed ==> r.current.None?)
  {
    AlwaysSound(c, events);
    var s := After(c, events);
    SwapResult(s, s.stage.plan, s.stage.clean, a);
    var r := Apply(Apply(s, Swap(a)), Finish);
    SameInstances(Apply(s, Swap(a)), r);
  }

  /**
    Exactly when a rollback leaves in force what was in force when the swap began: always without a
    target, with a ref to go back to when that was in force, and without one when the failed
    application wrote nothing or the failed target was in force already.
  */
  lemma RollbackRestoresIff(c: Startup, events: seq<Event>, a: Answers)
    requires After(c, events).stage.Decided?
    requires var p := After(c, events).stage.plan; !Goes(p, a) && GoesBack(p, a)
    ensures var s := After(c, events);
      var p, r := s.stage.plan, Apply(Apply(s, Swap(a)), Finish);
      && r.phase == Ready && r.lastRef == s.lastRef
      && (r.inForce == s.inForce <==>
            || p.target.None?
            || (p.back.Some? && s.inForce == Whole(p.back.value))
            || (p.back.None? &&
                (a.apply.Refuses? || (a.apply.Applies? && s.inForce == Whole(p.target.value)))))
  {
    AlwaysSound(c, events);
    var s := After(c, events);
    SwapResult(s, s.stage.plan, s.stage.clean, a);
    SwapInForce(s, s.stage.plan, s.stage.clean, a);
  }

  /** A manager with a recorded ref goes back to it, whatever is in force, so that is when it restores. */
  lemma RecordedRollbackRestores(c: Startup, events: seq<Event>, a: Answers)
    requires var s := After(c, events); s.stage.Decided? && s.stage.plan.target.Some? && s.lastRef.Some?
    requires var p := After(c, events).stage.plan; !Goes(p, a) && GoesBack(p, a)
    ensures var s := After(c, events);
      var r := Apply(Apply(s, Swap(a)), Finish);
      && r.phase == Ready && r.lastRef == s.lastRef && r.inForce == Whole(s.lastRef.value)
      && (r.inForce == s.inForce <==> s.inForce == Whole(s.lastRef.value))
  {
    AlwaysSound(c, events);
    var s := After(c, events);
    SwapResult(s, s.stage.plan, s.stage.clean, a);
    SwapInForce(s, s.stage.plan, s.stage.clean, a);
  }

  /** A reload with a target succeeds in this event. */
  predicate Reloads(s: State, e: Event) {
    s.stage.Decided? && e.Swap? && Goes(s.stage.plan, e.a) && s.stage.plan.target.Some?
  }

  /** From the given event on nobody else applies a profile; it is the first or follows a reload of this manager. */
  predicate Undisturbed(c: Startup, events: seq<Event>, since: nat) {
    && since <= |events|
    && (since == 0 || Reloads(After(c, events[..since - 1]), events[since - 1]))
    && forall k :: since <= k < |events| ==> !events[k].Elsewhere?
  }

  /** A serving manager that has recorded a ref has it in force; before the start, the seeded ref is. */
  predicate Current(s: State) {
    && (s.phase == Init && s.initialRef.Some? ==> s.inForce == Whole(s.initialRef.value))
    && (s.phase == Ready || s.phase == Draining || (s.stage.Swapped? && s.stage.outcome != Broken) ==>
          s.lastRef.Some? ==> s.inForce == Whole(s.lastRef.value))
  }

  lemma CurrentStep(s: State, e: Event)
    requires Sound(s) && (Reloads(s, e) || (Current(s) && !e.Elsewhere?))
    ensures Current(Apply(s, e))
  {
    if e.Swap? && s.stage.Decided? {
      SwapResult(s, s.stage.plan, s.stage.clean, e.a);
      SwapInForce(s, s.stage.plan, s.stage.clean, e.a);
    }
  }

  lemma UndisturbedBefore(c: Startup, events: seq<Event>, since: nat)
    requires since < |events| && Undisturbed(c, events, since)
    ensures Undisturbed(c, events[..|events| - 1], since)
  {
    var before := events[..|events| - 1];
    assert since > 0 ==> before[..since - 1] == events[..since - 1];
    forall k | since <= k < |before| ensures !before[k].Elsewhere? {
      assert before[k] == events[k];
    }
  }

  lemma {:induction false} UndisturbedIsCurrent(c: Startup, events: seq<Event>, since: nat)
    requires Undisturbed(c, events, since)
    ensures Current(After(c, events))
  {
    if events != [] {
      var n := |events| - 1;
      AlwaysSound(c, events[..n]);
      if since <= n {
        UndisturbedBefore(c, events, since);
        UndisturbedIsCurrent(c, events[..n], since);
      }
      CurrentStep(After(c, events[..n]), events[n]);
    }
  }

  /**
    While nobody else applies a profile, from the startup or from a successful reload of this
    manager on, a rollback of a manager with a recorded ref restores the profile in force.
  */
  lemma UndisturbedRollbackRestores(c: Startup, events: seq<Event>, since: nat, a: Answers)
    requires Undisturbed(c, events, since)
    requires var s := After(c, events); s.stage.Decided? && (s.lastRef.Some? || s.stage.plan.target.None?)
    requires var p := After(c, events).stage.plan; !Goes(p, a) && GoesBack(p, a)
    ensures var s := After(c, events);
      var r := Apply(Apply(s, Swap(a)), Finish);
      r.phase == Ready && r.inForce == s.inForce && r.lastRef == s.lastRef
  {
    UndisturbedIsCurrent(c, events, since);
    AlwaysSound(c, events);
    RollbackRestoresIff(c, events, a);
  }

  /** A manager has recorded a ref as soon as it was started with one or a reload with a target has succeeded. */
  lemma RefIsRecorded(c: Startup, events: seq<Event>, e: Event)
    ensures var s := After(c, events);
      && (c.initialRef.Some? && (s.phase == Ready || s.phase == Draining) ==> s.lastRef.Some?)
      && (Reloads(s, e) ==> Apply(s, e).lastRef == s.stage.plan.target)
      && (s.lastRef.Some? ==> Apply(s, e).lastRef.Some?)
  {
    AlwaysSound(c, events);
    var s := After(c, events);
    SameRef(s, e);
    if s.stage.Decided? && e.Swap? {
      SwapResult(s, s.stage.plan, s.stage.clean, e.a);
    }
  }

  /** From the first look at the drain counter on, for a manager without requests. */
  function Drained(s: State, target: ProfileRef, fallback: Option<ProfileRef>): State {
    Apply(Apply(Apply(s, Check(Some(target), Checks(true, true, true), fallback)), BeginDrain), DrainPoll)
  }

  /** Without a recorded ref and a usable profile name, the rolled-back instance runs under the failed profile. */
  lemma UnseededRollbackKeepsNewProfile(target: ProfileRef)
    ensures var s := Drained(Apply(Start(Startup(true, None, Nothing)), Boot(true, true)), target, None);
      var r := Apply(Apply(s, Swap(Answers(Applies, true, false, Applies, true, true))), Finish);
      s.inForce == Nothing && r.phase == Ready && r.inForce == Whole(target)
  {
    var s1 := Apply(Start(Startup(true, None, Nothing)), Boot(true, true));
    assert s1.phase == Ready && s1.current == Some(0);
    var s2 := Apply(s1, Check(Some(target), Checks(true, true, true), None));
    assert s2.stage == Checked(Plan(0, Some(target), None));
    var s := Apply(Apply(s2, BeginDrain), DrainPoll);
    assert s.stage == Decided(Plan(0, Some(target), None), true);
  }
}
