/**
  The two backend managers of the process, which share one profile loader (app/main.py,
  init_backend_managers). Each of them runs as a single manager does that sees the other's
  applications of profiles as coming from elsewhere, so what holds of every run of one manager
  holds of both together.
*/
module BackendPair {
  import opened BackendLifecycle
  import opened BackendSafety
  import opened Wrappers

  datatype Kind = Asr | Tts

  datatype Move = Move(kind: Kind, event: Event)

  datatype Pair = Pair(asr: State, tts: State) {
    function Of(kind: Kind): State {
      if kind == Asr then asr else tts
    }
  }

  /** Which module globals are bound at startup; ref and profile in force are the same for both managers. */
  datatype PairStartup = PairStartup(preloaded: Kind -> bool, initialRef: Option<ProfileRef>, unseeded: InForce) {
    function Of(kind: Kind): Startup {
      Startup(preloaded(kind), initialRef, unseeded)
    }
  }

  function Other(kind: Kind): Kind {
    if kind == Asr then Tts else Asr
  }

  /** The manager with the profile in force that another one leaves. */
  function Seeing(s: State, r: State): State {
    s.(inForce := r.inForce, mixtures := r.mixtures)
  }

  function Moved(p: Pair, m: Move): Pair {
    var r := Apply(p.Of(m.kind), m.event);
    if m.kind == Asr then Pair(r, Seeing(p.tts, r)) else Pair(Seeing(p.asr, r), r)
  }

  function Together(c: PairStartup, moves: seq<Move>): Pair {
    if moves == [] then Pair(Start(c.Of(Asr)), Start(c.Of(Tts)))
    else Moved(Together(c, moves[..|moves| - 1]), moves[|moves| - 1])
  }

  // What one manager sees of the other

  /** The applications of profiles in one event, as events of the other manager. */
  function Applications(s: State, e: Event): seq<Event> {
    if e.Elsewhere? then [e]
    else if !e.Swap? || !s.stage.Decided? || s.stage.plan.target.None? then []
    else
      var p := s.stage.plan;
      [Elsewhere(p.target.value, e.a.apply)]
      + if !Goes(p, e.a) && p.back.Some? then [Elsewhere(p.back.value, e.a.applyBack)] else []
  }

  /** A joint run as a run of one of the managers. */
  function View(c: PairStartup, kind: Kind, moves: seq<Move>): seq<Event> {
    if moves == [] then []
    else
      var before, m := moves[..|moves| - 1], moves[|moves| - 1];
      View(c, kind, before)
      + if m.kind == kind then [m.event] else Applications(Together(c, before).Of(m.kind), m.event)
  }

  lemma AfterOneMore(c: Startup, events: seq<Event>, e: Event)
    ensures After(c, events + [e]) == Apply(After(c, events), e)
  {
    assert (events + [e])[..|events|] == events;
  }

  lemma RollBackSeen(g: State, p: Plan, a: Answers, o: State)
    requires o.inForce == g.inForce && o.mixtures == g.mixtures
    ensures Seeing(o, RollBack(g, p, a)) ==
      if p.target.Some? && p.back.Some? then ApplyProfile(o, p.back, a.applyBack) else o
  {
  }

  lemma RebuiltSeen(g: State, p: Plan, clean: bool, a: Answers, o: State)
    requires g.cache.None? && o.inForce == g.inForce && o.mixtures == g.mixtures
    ensures Seeing(o, Rebuilt(g, p, clean, a)) ==
      if p.target.Some? && p.back.Some? && !Goes(p, a) then ApplyProfile(o, p.back, a.applyBack) else o
  {
    if (p.target.Some? && !a.apply.Applies?) || !a.make {
      RollBackSeen(g, p, a, o);
    } else if !a.preload {
      RollBackSeen(Unloading(Make(g), Make(g).cache.value, clean), p, a, o);
    }
  }

  lemma SwapSeen(s: State, p: Plan, clean: bool, a: Answers, o: State)
    requires o.inForce == s.inForce && o.mixtures == s.mixtures
    ensures var o1 := ApplyProfile(o, p.target, a.apply);
      Seeing(o, Swapping(s, p, clean, a)) ==
      if p.target.Some? && p.back.Some? && !Goes(p, a) then ApplyProfile(o1, p.back, a.applyBack) else o1
  {
    var g := Gone(s, p, clean, a);
    var o1 := ApplyProfile(o, p.target, a.apply);
    assert g.cache.None? && o1 == Seeing(o, g);
    RebuiltSeen(g, p, clean, a, o1);
  }

  /** One or two applications, one after the other. */
  lemma AfterApplications(c: Startup, events: seq<Event>, s: State, a: Answers)
    requires s.stage.Decided?
    ensures var p := s.stage.plan;
      var o1 := ApplyProfile(After(c, events), p.target, a.apply);
      After(c, events + Applications(s, Swap(a))) ==
      if p.target.Some? && p.back.Some? && !Goes(p, a) then ApplyProfile(o1, p.back, a.applyBack) else o1
  {
    var p, more := s.stage.plan, Applications(s, Swap(a));
    if p.target.None? {
      assert events + more == events;
    } else {
      var first := Elsewhere(p.target.value, a.apply);
      AfterOneMore(c, events, first);
      if !Goes(p, a) && p.back.Some? {
        var second := Elsewhere(p.back.value, a.applyBack);
        AfterOneMore(c, events + [first], second);
        assert events + more == events + [first] + [second];
      } else {
        assert more == [first];
      }
    }
  }

  lemma NothingElseSeen(s: State, e: Event, o: State)
    requires o.inForce == s.inForce && o.mixtures == s.mixtures && !e.Elsewhere? && !e.Swap?
    ensures Seeing(o, Apply(s, e)) == o
  {
  }

  lemma ApplicationsSeen(c: Startup, events: seq<Event>, s: State, e: Event)
    requires After(c, events).inForce == s.inForce && After(c, events).mixtures == s.mixtures
    ensures After(c, events + Applications(s, e)) == Seeing(After(c, events), Apply(s, e))
  {
    if e.Elsewhere? {
      AfterOneMore(c, events, e);
    } else if e.Swap? && s.stage.Decided? {
      AfterApplications(c, events, s, e.a);
      SwapSeen(s, s.stage.plan, s.stage.clean, e.a, After(c, events));
    } else {
      assert events + Applications(s, e) == events;
      if !e.Swap? {
        NothingElseSeen(s, e, After(c, events));
      }
    }
  }

  lemma OneView(c: PairStartup, kind: Kind, moves: seq<Move>)
    requires moves != []
    requires var before := Together(c, moves[..|moves| - 1]);
      && before.asr.inForce == before.tts.inForce && before.asr.mixtures == before.tts.mixtures
      && before.Of(kind) == After(c.Of(kind), View(c, kind, moves[..|moves| - 1]))
    ensures Together(c, moves).Of(kind) == After(c.Of(kind), View(c, kind, moves))
  {
    var before, m := moves[..|moves| - 1], moves[|moves| - 1];
    var p, seen := Together(c, before), View(c, kind, before);
    if m.kind == kind {
      AfterOneMore(c.Of(kind), seen, m.event);
    } else {
      ApplicationsSeen(c.Of(kind), seen, p.Of(m.kind), m.event);
    }
  }

  /** In every joint run the managers agree on the profile in force, and each is in a run of its own. */
  lemma {:induction false} EachRunsAlone(c: PairStartup, moves: seq<Move>)
    ensures var p := Together(c, moves);
      && p.asr.inForce == p.tts.inForce && p.asr.mixtures == p.tts.mixtures
      && p.asr == After(c.Of(Asr), View(c, Asr, moves))
      && p.tts == After(c.Of(Tts), View(c, Tts, moves))
  {
    if moves != [] {
      EachRunsAlone(c, moves[..|moves| - 1]);
      OneView(c, Asr, moves);
      OneView(c, Tts, moves);
    }
  }

  // Main results

  /** The exact condition of a rollback to restore the profile in force, whatever the other manager does. */
  lemma PairRollbackRestoresIff(c: PairStartup, moves: seq<Move>, kind: Kind, a: Answers)
    requires var s := Together(c, moves).Of(kind);
      s.stage.Decided? && !Goes(s.stage.plan, a) && GoesBack(s.stage.plan, a)
    ensures var s := Together(c, moves).Of(kind);
      var r := Moved(Moved(Together(c, moves), Move(kind, Swap(a))), Move(kind, Finish));
      var p := s.stage.plan;
      && r.Of(kind).phase == Ready && r.Of(Other(kind)).inForce == r.Of(kind).inForce
      && (r.Of(kind).inForce == s.inForce <==>
            || p.target.None?
            || (p.back.Some? && s.inForce == Whole(p.back.value))
            || (p.back.None? && (a.apply.Refuses? || (a.apply.Applies? && s.inForce == Whole(p.target.value)))))
  {
    EachRunsAlone(c, moves);
    RollbackRestoresIff(c.Of(kind), View(c, kind, moves), a);
  }

  /** Check, drain and swap of one manager that serves no requests. */
  function Reload(p: Pair, kind: Kind, target: ProfileRef, fallback: Option<ProfileRef>, a: Answers): Pair {
    var checked := Moved(p, Move(kind, Check(Some(target), Checks(true, true, true), fallback)));
    var drained := Moved(Moved(checked, Move(kind, BeginDrain)), Move(kind, DrainPoll));
    Moved(Moved(drained, Move(kind, Swap(a))), Move(kind, Finish))
  }

  lemma ReloadOfOne(p: Pair, kind: Kind, target: ProfileRef, fallback: Option<ProfileRef>, a: Answers)
    ensures var s := p.Of(kind);
      var r := Apply(Apply(Drained(s, target, fallback), Swap(a)), Finish);
      Reload(p, kind, target, fallback, a).Of(kind) == r
      && Reload(p, kind, target, fallback, a).Of(Other(kind)) == Seeing(p.Of(Other(kind)), r)
  {
  }

  /** A manager at rest that has a backend and a recorded ref, and serves no requests. */
  predicate Quiet(s: State) {
    && s.phase == Ready && s.stage == NoReload && s.inflight == 0 && s.lastRef.Some?
    && s.current.Some? && s.cache == s.current
  }

  lemma QuietDrained(s: State, target: ProfileRef, fallback: Option<ProfileRef>)
    requires Quiet(s)
    ensures Drained(s, target, fallback)
         == s.(phase := Draining, stage := Decided(Plan(s.current.value, Some(target), s.lastRef), true))
  {
    var checked := Apply(s, Check(Some(target), Checks(true, true, true), fallback));
    assert checked == s.(stage := Checked(Plan(s.current.value, Some(target), s.lastRef)));
  }

  lemma QuietReload(s: State, target: ProfileRef, fallback: Option<ProfileRef>, a: Answers)
    requires Quiet(s) && a.apply.Applies? && a.applyBack.Applies? && a.preload && a.makeBack && a.preloadBack
    ensures var r := Apply(Apply(Drained(s, target, fallback), Swap(a)), Finish);
      && Quiet(r)
      && r.lastRef == (if a.make then Some(target) else s.lastRef)
      && r.inForce == Whole(r.lastRef.value)
  {
    QuietDrained(s, target, fallback);
  }

  /**
    Both managers seeded with a; the speech synthesis reloads to b; a later reload of the
    recognition fails and, going back to its own recorded ref, puts a in force instead of b.
  */
  lemma OtherManagersProfileIsLost(a: ProfileRef, b: ProfileRef, target: ProfileRef, fallback: Option<ProfileRef>)
    requires a != b
    ensures var start := Together(PairStartup(_ => true, Some(a), Nothing), []);
      var booted := Moved(Moved(start, Move(Asr, Boot(true, true))), Move(Tts, Boot(true, true)));
      var s := Reload(booted, Tts, b, fallback, Answers(Applies, true, true, Applies, true, true));
      var r := Reload(s, Asr, target, fallback, Answers(Applies, false, true, Applies, true, true));
      && s.tts.phase == s.asr.phase == Ready && s.tts.lastRef == Some(b) && s.asr.inForce == Whole(b)
      && r.tts.phase == r.asr.phase == Ready && r.tts.lastRef == Some(b) && r.asr.inForce == Whole(a)
  {
    var start := Together(PairStartup(_ => true, Some(a), Nothing), []);
    var booted := Moved(Moved(start, Move(Asr, Boot(true, true))), Move(Tts, Boot(true, true)));
    assert Quiet(booted.asr) && Quiet(booted.tts) && booted.asr.lastRef == Some(a);
    var good := Answers(Applies, true, true, Applies, true, true);
    var bad := good.(make := false);
    ReloadOfOne(booted, Tts, b, fallback, good);
    QuietReload(booted.tts, b, fallback, good);
    var s := Reload(booted, Tts, b, fallback, good);
    ReloadOfOne(s, Asr, target, fallback, bad);
    QuietReload(s.asr, target, fallback, bad);
  }
}
