/**
  app/core/asr_session_manager.py over whole runs: any number of callers whose backend calls
  (audio pushes, finalizes, partial polls) are in flight outside the lock while other regions run.
*/
module AsrRuns {
  import opened AsrSession
  import opened Wrappers

  /** What a call saw in its first region: generation, stream, and rebuilds so far. */
  datatype Taken = Taken(generation: nat, stream: Option<nat>, rebuilds: nat)

  /** An accepted final: its generation, the stream its text came from, and the manager's stream and rebuilds then. */
  datatype Accepted = Accepted(generation: nat, from: nat, current: Option<nat>, takenRebuilds: nat, rebuilds: nat)

  datatype Partial = Partial(generation: nat, from: nat)

  datatype Run = Run(
    m: Manager,
    pushes: map<nat, nat>,
    finals: map<nat, Taken>,
    polls: map<nat, Taken>,
    accepted: seq<Accepted>,
    partials: seq<Partial>)

  /** The lock-held regions and the returns of backend calls, tagged with the calls they belong to. */
  datatype Event =
    | Speech(a: Answers)
    | TakeAudio(id: nat, a: Answers)
    | AudioPushed(id: nat)
    | AudioFailed(id: nat, attempt: nat -> bool)
    | TakeFinal(id: nat)
    | FinalReturned(id: nat)
    | FinalFailed(id: nat, attempt: nat -> bool)
    | FinalMalformed(id: nat)
    | TakePartial(id: nat)
    | PartialReturned(id: nat)
    | PartialFailed(id: nat)
    | Cancel
    | MarkError(attempt: nat -> bool)

  const START: Run := Run(FRESH, map[], map[], map[], [], [])

  /** The manager after an event; a call that is not in flight cannot return. */
  function Manage(r: Run, e: Event): (m: Manager)
    requires Shaped(r.m)
    ensures Shaped(m)
  {
    match e
    case Speech(a) => SpeechStart(r.m, a)
    case TakeAudio(_, a) => AudioTake(r.m, a)
    case AudioFailed(id, attempt) => if id in r.pushes then HandleError(r.m, attempt) else r.m
    case TakeFinal(id) => if id in r.finals then r.m else FinalizeTake(r.m)
    case FinalReturned(id) =>
      if id !in r.finals then r.m
      else if r.finals[id].stream.None? then FinalizeEmpty(r.m)
      else FinalizeReturned(r.m, r.finals[id].generation)
    case FinalFailed(id, attempt) =>
      if id in r.finals && r.finals[id].stream.Some? then HandleError(r.m, attempt) else r.m
    case Cancel => InnerCancel(r.m)
    case MarkError(attempt) => HandleError(r.m, attempt)
    case _ => r.m
  }

  function Calls(r: Run, e: Event): Run
    requires Shaped(r.m)
  {
    match e
    case TakeAudio(id, a) =>
      var m := AudioTake(r.m, a);
      if r.m.phase == Active && m.stream.Some? && id !in r.pushes && (r.m.stream.Some? || a.first)
      then r.(pushes := r.pushes[id := m.stream.value]) else r
    case AudioPushed(id) => r.(pushes := r.pushes - {id})
    case AudioFailed(id, _) => r.(pushes := r.pushes - {id})
    case TakeFinal(id) =>
      if r.m.phase == Active && id !in r.finals
      then r.(finals := r.finals[id := Taken(r.m.generation, r.m.stream, r.m.rebuilds)]) else r
    case FinalReturned(id) =>
      var done := r.(finals := r.finals - {id});
      if id in r.finals && r.finals[id].stream.Some? && Accepts(r.m, r.finals[id].generation) then
        var t := r.finals[id];
        done.(accepted := r.accepted + [Accepted(t.generation, t.stream.value, r.m.stream, t.rebuilds, r.m.rebuilds)])
      else done
    case FinalFailed(id, _) => r.(finals := r.finals - {id})
    case FinalMalformed(id) => r.(finals := r.finals - {id})
    case TakePartial(id) =>
      if r.m.phase == Active && r.m.stream.Some? && id !in r.polls
      then r.(polls := r.polls[id := Taken(r.m.generation, r.m.stream, r.m.rebuilds)]) else r
    case PartialReturned(id) =>
      var done := r.(polls := r.polls - {id});
      if id in r.polls && r.polls[id].stream.Some?
      then done.(partials := r.partials + [Partial(r.polls[id].generation, r.polls[id].stream.value)]) else done
    case PartialFailed(id) => r.(polls := r.polls - {id})
    case _ => r
  }

  function Apply(r: Run, e: Event): (r': Run)
    requires Shaped(r.m)
    ensures Shaped(r'.m)
  {
    Calls(r, e).(m := Manage(r, e))
  }

  function After(events: seq<Event>): (r: Run)
    ensures Shaped(r.m)
  {
    if events == [] then START else Apply(After(events[..|events| - 1]), events[|events| - 1])
  }

  // Stream conservation

  /**
    With the lock free the phase is IDLE, ACTIVE or FINALIZING, it is IDLE exactly when there is
    no stream, the stream was made for the current generation, and every stream was closed
    exactly once unless it is the current one.
  */
  predicate Conserved(m: Manager) {
    && Shaped(m) && !m.recovering
    && m.phase in {Idle, Active, Finalizing}
    && (m.phase == Idle <==> m.stream.None?)
    && (m.stream.Some? ==> m.births[m.stream.value] == m.generation)
    && (forall s :: 0 <= s < |m.births| ==> m.closes[s] == if m.stream == Some(s) then 0 else 1)
    && (forall s :: 0 <= s < |m.births| ==> m.births[s] <= m.generation)
  }

  /** What one region may do to the manager. */
  ghost predicate Advances(m: Manager, m': Manager) {
    && Conserved(m) && Conserved(m')
    && m.generation <= m'.generation && m.rebuilds <= m'.rebuilds
    && m.births <= m'.births
    && (forall s :: 0 <= s < |m.births| && m.closes[s] == 1 ==> m'.closes[s] == 1)
    && (m'.rebuilds > m.rebuilds ==> forall s :: 0 <= s < |m.births| ==> m'.closes[s] == 1)
    && (m'.rebuilds == m.rebuilds && m'.generation == m.generation ==> m'.stream == m.stream || m'.stream.None?)
    && (m.phase == Idle && m'.phase != Idle ==> m'.rebuilds > m.rebuilds || m'.generation > m.generation)
    && (m'.phase == Finalizing ==> m.phase != Idle && m' == m.(phase := Finalizing))
  }

  /** Everything closed, no current stream: the state in which a stream may be created. */
  predicate Clear(m: Manager) {
    && Shaped(m) && m.stream.None?
    && (forall s :: 0 <= s < |m.births| ==> m.closes[s] == 1 && m.births[s] <= m.generation)
  }

  lemma CreateConserves(m: Manager)
    requires Clear(m) && !m.recovering
    ensures var m' := Create(m).(phase := Active);
      Conserved(m') && m.births <= m'.births && forall s :: 0 <= s < |m.births| ==> m'.closes[s] == 1
  {
  }

  lemma {:induction false} RebuildConserves(m: Manager, attempt: nat -> bool, i: nat)
    requires Clear(m) && i <= REBUILD_ATTEMPTS
    ensures var m' := RebuildFrom(m, attempt, i).(recovering := false);
      && Conserved(m') && m'.phase != Finalizing && m.births <= m'.births
      && m'.generation == m.generation && m'.rebuilds == m.rebuilds
      && forall s :: 0 <= s < |m.births| ==> m'.closes[s] == 1
    decreases REBUILD_ATTEMPTS - i
  {
    if attempt(i) {
      CreateConserves(m.(recovering := false));
    } else if i < REBUILD_ATTEMPTS {
      RebuildConserves(m, attempt, i + 1);
    }
  }

  lemma CloseClears(m: Manager)
    requires Conserved(m)
    ensures Clear(Close(m, m.stream).(stream := None))
  {
  }

  lemma HandleErrorAdvances(m: Manager, attempt: nat -> bool)
    requires Conserved(m)
    ensures Advances(m, HandleError(m, attempt)) && HandleError(m, attempt).rebuilds == m.rebuilds + 1
  {
    CloseClears(m);
    assert Clear(Broken(m));
    RebuildConserves(Broken(m), attempt, 0);
  }

  lemma CancelAdvances(m: Manager)
    requires Conserved(m)
    ensures Advances(m, InnerCancel(m)) && Clear(InnerCancel(m)) && InnerCancel(m).phase == Idle
  {
    CloseClears(m);
  }

  lemma SpeechAdvances(m: Manager, a: Answers)
    requires Conserved(m)
    ensures Advances(m, SpeechStart(m, a)) && SpeechStart(m, a).generation == m.generation + 1
  {
    CancelAdvances(m);
    var next := Preempted(m);
    assert Clear(next) && next.phase == Idle && Conserved(next);
    if a.first {
      CreateConserves(next);
    } else {
      HandleErrorAdvances(next, a.attempt);
    }
  }

  lemma ManageAdvances(r: Run, e: Event)
    requires Conserved(r.m) && forall id :: id in r.finals ==> r.finals[id].stream.Some?
    ensures Advances(r.m, Manage(r, e))
  {
    match e
    case Speech(a) => SpeechAdvances(r.m, a);
    case TakeAudio(_, a) =>
    case AudioFailed(id, attempt) => HandleErrorAdvances(r.m, attempt);
    case FinalReturned(id) => CancelAdvances(r.m);
    case FinalFailed(id, attempt) => HandleErrorAdvances(r.m, attempt);
    case Cancel => CancelAdvances(r.m);
    case MarkError(attempt) => HandleErrorAdvances(r.m, attempt);
    case _ =>
  }

  // Calls in flight

  /** What a call in flight knows about the stream it holds. */
  predicate InFlight(m: Manager, t: Taken) {
    && Shaped(m)
    && t.generation <= m.generation && t.rebuilds <= m.rebuilds
    && t.stream.Some? && t.stream.value < |m.births| && m.births[t.stream.value] == t.generation
    && (t.rebuilds < m.rebuilds ==> m.closes[t.stream.value] == 1)
    && (t.generation == m.generation && t.rebuilds == m.rebuilds && m.stream.Some? ==> m.stream == t.stream)
  }

  lemma InFlightKept(m: Manager, m': Manager, t: Taken)
    requires Advances(m, m') && InFlight(m, t)
    ensures InFlight(m', t)
  {
  }

  /** The stream a text was read from and the manager's stream when it was accepted. */
  predicate AcceptedOk(m: Manager, x: Accepted) {
    && Shaped(m)
    && x.generation <= m.generation && x.takenRebuilds <= x.rebuilds <= m.rebuilds
    && x.current.Some? && x.current.value < |m.births| && m.births[x.current.value] == x.generation
    && x.from < |m.births| && m.births[x.from] == x.generation
    && (x.current == Some(x.from) <==> x.takenRebuilds == x.rebuilds)
    && (m.phase != Idle && x.generation == m.generation ==> x.rebuilds < m.rebuilds)
  }

  lemma AcceptedKept(m: Manager, m': Manager, x: Accepted)
    requires Advances(m, m') && AcceptedOk(m, x)
    ensures AcceptedOk(m', x)
  {
  }

  predicate PartialOk(m: Manager, p: Partial) {
    p.from < |m.births| && m.births[p.from] == p.generation
  }

  predicate Ordered(a: Accepted, b: Accepted) {
    a.generation <= b.generation && (a.generation == b.generation ==> a.rebuilds < b.rebuilds)
  }

  predicate Sound(r: Run) {
    && Conserved(r.m)
    && (forall id :: id in r.finals ==> InFlight(r.m, r.finals[id]))
    && (forall id :: id in r.polls ==> InFlight(r.m, r.polls[id]))
    && (forall k :: 0 <= k < |r.accepted| ==> AcceptedOk(r.m, r.accepted[k]))
    && (forall i, j :: 0 <= i < j < |r.accepted| ==> Ordered(r.accepted[i], r.accepted[j]))
    && (forall k :: 0 <= k < |r.partials| ==> PartialOk(r.m, r.partials[k]))
  }

  lemma TakenInFlight(m: Manager, m': Manager)
    requires Conserved(m) && m.phase == Active && Advances(m, m')
    ensures InFlight(m', Taken(m.generation, m.stream, m.rebuilds))
  {
  }

  /** An accepted text comes from the manager's stream unless a rebuild replaced it since the call began. */
  lemma AcceptedNow(m: Manager, t: Taken)
    requires Conserved(m) && InFlight(m, t) && Accepts(m, t.generation)
    ensures var m' := FinalizeReturned(m, t.generation);
      AcceptedOk(m', Accepted(t.generation, t.stream.value, m.stream, t.rebuilds, m.rebuilds))
  {
  }

  lemma FinalsKept(r: Run, e: Event)
    requires Sound(r) && Advances(r.m, Manage(r, e))
    ensures var r' := Apply(r, e); forall id :: id in r'.finals ==> InFlight(r'.m, r'.finals[id])
  {
  }

  lemma PollsKept(r: Run, e: Event)
    requires Sound(r) && Advances(r.m, Manage(r, e))
    ensures var r' := Apply(r, e); forall id :: id in r'.polls ==> InFlight(r'.m, r'.polls[id])
  {
    var r' := Apply(r, e);
    forall id | id in r'.polls ensures InFlight(r'.m, r'.polls[id]) {
      if id in r.polls && r'.polls[id] == r.polls[id] {
        InFlightKept(r.m, r'.m, r.polls[id]);
      } else {
        TakenInFlight(r.m, r'.m);
      }
    }
  }

  lemma PartialsKept(r: Run, e: Event)
    requires Sound(r) && Advances(r.m, Manage(r, e))
    ensures var r' := Apply(r, e); forall k :: 0 <= k < |r'.partials| ==> PartialOk(r'.m, r'.partials[k])
  {
    var r' := Apply(r, e);
    forall k | 0 <= k < |r'.partials| ensures PartialOk(r'.m, r'.partials[k]) {
      if k < |r.partials| {
        assert PartialOk(r.m, r.partials[k]);
      } else {
        InFlightKept(r.m, r'.m, r.polls[e.id]);
      }
    }
  }

  /** The event is the return of a finalize in flight that the manager accepts. */
  predicate Accepting(r: Run, e: Event) {
    e.FinalReturned? && e.id in r.finals && r.finals[e.id].stream.Some? && Accepts(r.m, r.finals[e.id].generation)
  }

  function NewlyAccepted(r: Run, e: Event): Accepted
    requires Accepting(r, e)
  {
    var t := r.finals[e.id];
    Accepted(t.generation, t.stream.value, r.m.stream, t.rebuilds, r.m.rebuilds)
  }

  lemma AcceptsForm(r: Run, e: Event)
    requires Shaped(r.m)
    ensures Apply(r, e).accepted == if Accepting(r, e) then r.accepted + [NewlyAccepted(r, e)] else r.accepted
  {
  }

  lemma NewlyAcceptedOk(r: Run, e: Event)
    requires Sound(r) && Accepting(r, e)
    ensures AcceptedOk(Manage(r, e), NewlyAccepted(r, e))
  {
    AcceptedNow(r.m, r.finals[e.id]);
  }

  lemma OldAcceptedOk(r: Run, m': Manager)
    requires Sound(r) && Advances(r.m, m')
    ensures forall k :: 0 <= k < |r.accepted| ==> AcceptedOk(m', r.accepted[k])
  {
    forall k | 0 <= k < |r.accepted| ensures AcceptedOk(m', r.accepted[k]) {
      AcceptedKept(r.m, m', r.accepted[k]);
    }
  }

  lemma AcceptsOrdered(r: Run, e: Event)
    requires Sound(r) && Accepting(r, e)
    ensures forall i :: 0 <= i < |r.accepted| ==> Ordered(r.accepted[i], NewlyAccepted(r, e))
  {
    forall i | 0 <= i < |r.accepted| ensures Ordered(r.accepted[i], NewlyAccepted(r, e)) {
      assert AcceptedOk(r.m, r.accepted[i]);
    }
  }

  lemma AcceptsKept(r: Run, e: Event)
    requires Sound(r) && Advances(r.m, Manage(r, e))
    ensures var r' := Apply(r, e);
      && (forall k :: 0 <= k < |r'.accepted| ==> AcceptedOk(r'.m, r'.accepted[k]))
      && (forall i, j :: 0 <= i < j < |r'.accepted| ==> Ordered(r'.accepted[i], r'.accepted[j]))
  {
    AcceptsForm(r, e);
    OldAcceptedOk(r, Manage(r, e));
    if Accepting(r, e) {
      NewlyAcceptedOk(r, e);
      AcceptsOrdered(r, e);
    }
  }

  lemma Step(r: Run, e: Event)
    requires Sound(r)
    ensures Sound(Apply(r, e)) && Advances(r.m, Apply(r, e).m)
  {
    ManageAdvances(r, e);
    FinalsKept(r, e);
    PollsKept(r, e);
    PartialsKept(r, e);
    AcceptsKept(r, e);
  }

  lemma {:induction false} AlwaysSound(events: seq<Event>)
    ensures Sound(After(events))
  {
    if events != [] {
      AlwaysSound(events[..|events| - 1]);
      Step(After(events[..|events| - 1]), events[|events| - 1]);
    }
  }

  /** In every run, after every event: the stream ledger is conserved. */
  lemma StreamConservation(events: seq<Event>)
    ensures Conserved(After(events).m)
  {
    AlwaysSound(events);
  }

  /** After a cancel every stream ever made has been closed exactly once. */
  lemma CancelClosesAll(events: seq<Event>)
    ensures var m := After(events + [Cancel]).m;
      m.phase == Idle && m.stream.None? && forall s :: 0 <= s < |m.births| ==> m.closes[s] == 1
  {
    assert (events + [Cancel])[..|events|] == events;
    AlwaysSound(events);
    CancelAdvances(After(events).m);
  }

  /** Accepted generations never decrease, and two finals of one generation have a rebuild in between. */
  lemma AcceptedOrder(events: seq<Event>, i: nat, j: nat)
    requires i < j < |After(events).accepted|
    ensures var a := After(events).accepted;
      && a[i].generation <= a[j].generation
      && (a[i].generation == a[j].generation ==> a[i].rebuilds < a[j].rebuilds)
  {
    AlwaysSound(events);
    assert Ordered(After(events).accepted[i], After(events).accepted[j]);
  }

  /** For any number of overlapping finalizes: the text is the current stream's exactly when no rebuild came between. */
  lemma AcceptedIsCurrentIff(events: seq<Event>, k: nat)
    requires k < |After(events).accepted|
    ensures var x, m := After(events).accepted[k], After(events).m;
      && x.from < |m.births| && m.births[x.from] == x.generation
      && (x.current == Some(x.from) <==> x.takenRebuilds == x.rebuilds)
  {
    AlwaysSound(events);
    assert AcceptedOk(After(events).m, After(events).accepted[k]);
  }

  /** Every partial was read from a stream made for the generation it is tagged with. */
  lemma PartialsTagged(events: seq<Event>, k: nat)
    requires k < |After(events).partials|
    ensures var p, m := After(events).partials[k], After(events).m;
      p.from < |m.births| && m.births[p.from] == p.generation
  {
    AlwaysSound(events);
    assert PartialOk(After(events).m, After(events).partials[k]);
  }

  // One finalize at a time

  /** A finalize begins only when none is in flight, as its single caller guarantees. */
  predicate OneFinalize(events: seq<Event>) {
    events == [] ||
    var before, e := events[..|events| - 1], events[|events| - 1];
    OneFinalize(before) && (e.TakeFinal? ==> After(before).finals == map[])
  }

  /** In FINALIZING, the finalize in flight holds the manager's stream and nothing was rebuilt since. */
  predicate Undisturbed(r: Run) {
    && (forall a, b :: a in r.finals && b in r.finals ==> a == b)
    && (r.m.phase == Finalizing ==>
          forall id :: id in r.finals ==> r.finals[id] == Taken(r.m.generation, r.m.stream, r.m.rebuilds))
    && (forall k :: 0 <= k < |r.accepted| ==> r.accepted[k].takenRebuilds == r.accepted[k].rebuilds)
  }

  /** A region that leaves the phase FINALIZING changed nothing, unless it began a finalize. */
  lemma StaysFinalizing(r: Run, e: Event)
    requires Sound(r) && Manage(r, e).phase == Finalizing
    ensures Manage(r, e) == r.m || (e.TakeFinal? && Manage(r, e) == FinalizeTake(r.m))
  {
    Step(r, e);
  }

  lemma FinalsUndisturbed(r: Run, e: Event)
    requires Sound(r) && Undisturbed(r) && (e.TakeFinal? ==> r.finals == map[])
    ensures var r' := Apply(r, e);
      && (forall a, b :: a in r'.finals && b in r'.finals ==> a == b)
      && (r'.m.phase == Finalizing ==>
            forall id :: id in r'.finals ==> r'.finals[id] == Taken(r'.m.generation, r'.m.stream, r'.m.rebuilds))
  {
    if Manage(r, e).phase == Finalizing { StaysFinalizing(r, e); }
  }

  lemma UndisturbedStep(r: Run, e: Event)
    requires Sound(r) && Undisturbed(r) && (e.TakeFinal? ==> r.finals == map[])
    ensures Undisturbed(Apply(r, e))
  {
    FinalsUndisturbed(r, e);
    var r' := Apply(r, e);
    if e.FinalReturned? && |r'.accepted| > |r.accepted| {
      assert r.finals[e.id] == Taken(r.m.generation, r.m.stream, r.m.rebuilds);
    }
  }

  /** With one finalize at a time, every accepted text is the current stream's, made for the returned generation. */
  lemma {:induction false} GenerationSafety(events: seq<Event>)
    requires OneFinalize(events)
    ensures Undisturbed(After(events))
    ensures var a, m := After(events).accepted, After(events).m;
      forall k :: 0 <= k < |a| ==>
        a[k].current == Some(a[k].from) && a[k].from < |m.births| && m.births[a[k].from] == a[k].generation
  {
    if events != [] {
      var before := events[..|events| - 1];
      GenerationSafety(before);
      AlwaysSound(before);
      UndisturbedStep(After(before), events[|events| - 1]);
    }
    AlwaysSound(events);
    var r := After(events);
    forall k | 0 <= k < |r.accepted| ensures r.accepted[k].current == Some(r.accepted[k].from) {
      assert AcceptedOk(r.m, r.accepted[k]);
    }
  }

  // What does happen

  lemma {:induction false} RebuildOutcome(m: Manager, attempt: nat -> bool, i: nat)
    requires Shaped(m) && i <= REBUILD_ATTEMPTS
    ensures var m' := RebuildFrom(m, attempt, i);
      if exists k :: i <= k <= REBUILD_ATTEMPTS && attempt(k)
      then m'.phase == Active && m'.stream == Some(|m.births|) && m'.births == m.births + [m.generation]
      else m'.phase == Idle && m'.stream.None? && m'.births == m.births
    decreases REBUILD_ATTEMPTS - i
  {
    if !attempt(i) && i < REBUILD_ATTEMPTS {
      RebuildOutcome(m, attempt, i + 1);
    }
  }

  predicate Recovers(a: Answers) {
    a.first || exists k :: 0 <= k <= REBUILD_ATTEMPTS && a.attempt(k)
  }

  /**
    A speech start takes the next generation, and ends ACTIVE with a new stream for it exactly
    when the first creation or some attempt of the ladder succeeds; else it ends IDLE.
  */
  predicate SpeechResult(m: Manager, m': Manager, a: Answers) {
    && m'.generation == m.generation + 1
    && if Recovers(a)
       then m'.phase == Active && m'.stream == Some(|m.births|) && m'.births == m.births + [m'.generation]
       else m'.phase == Idle && m'.stream.None? && m'.births == m.births
  }

  lemma SpeechStartResult(m: Manager, a: Answers)
    requires Conserved(m)
    ensures SpeechResult(m, SpeechStart(m, a), a)
  {
    CancelAdvances(m);
    if !a.first {
      RebuildOutcome(Broken(Preempted(m)), a.attempt, 0);
      RebuildGeneration(Broken(Preempted(m)), a.attempt, 0);
    }
  }

  lemma {:induction false} RebuildGeneration(m: Manager, attempt: nat -> bool, i: nat)
    requires Shaped(m) && i <= REBUILD_ATTEMPTS
    ensures RebuildFrom(m, attempt, i).generation == m.generation
    decreases REBUILD_ATTEMPTS - i
  {
    if !attempt(i) && i < REBUILD_ATTEMPTS {
      RebuildGeneration(m, attempt, i + 1);
    }
  }

  /** Every speech start of a run has that result. */
  lemma SpeechOutcome(events: seq<Event>, a: Answers)
    ensures SpeechResult(After(events).m, After(events + [Speech(a)]).m, a)
  {
    assert (events + [Speech(a)])[..|events|] == events;
    AlwaysSound(events);
    SpeechStartResult(After(events).m, a);
  }

  /**
    A finalize that nothing disturbs is accepted, with the text of the stream that was active, and frees the
    session.
  */
  lemma FinalizeAccepted(events: seq<Event>, id: nat)
    requires After(events).m.phase == Active && id !in After(events).finals
    ensures var r := After(events);
      var r' := Apply(Apply(r, TakeFinal(id)), FinalReturned(id));
      && r.m.stream.Some? && r'.m.phase == Idle && r'.finals == r.finals
      && r'.accepted == r.accepted
         + [Accepted(r.m.generation, r.m.stream.value, r.m.stream, r.m.rebuilds, r.m.rebuilds)]
  {
    AlwaysSound(events);
    var r := After(events);
    assert r.finals[id := Taken(r.m.generation, r.m.stream, r.m.rebuilds)] - {id} == r.finals;
  }

  // Where the wider claims fail

  const WORKS: Answers := Answers(true, _ => true)

  /** One stream, one push and one finalize in flight. */
  const FINALIZING_RUN: Run :=
    Run(Manager(Finalizing, Some(0), 1, false, [1], [0], 0), map[0 := 0], map[1 := Taken(1, Some(0), 0)], map[], [], [])

  lemma FinalizingRun()
    ensures Apply(Apply(Apply(START, Speech(WORKS)), TakeAudio(0, WORKS)), TakeFinal(1)) == FINALIZING_RUN
  {
    var r1 := Apply(START, Speech(WORKS));
    assert r1.m == Manager(Active, Some(0), 1, false, [1], [0], 0);
    var r2 := Apply(r1, TakeAudio(0, WORKS));
    assert r2 == r1.(pushes := map[0 := 0]);
  }

  /** The push fails and the ladder makes stream 1. */
  lemma RebuiltDuringFinalize()
    ensures Apply(FINALIZING_RUN, AudioFailed(0, _ => true)).m == Manager(Active, Some(1), 1, false, [1, 1], [1, 0], 1)
  {
  }

  /** Two finalizes that overlap across a rebuild: the accepted text is the closed stream's, not the current one's. */
  lemma OverlappingFinalizes()
    ensures var taken := Apply(Apply(Apply(START, Speech(WORKS)), TakeAudio(0, WORKS)), TakeFinal(1));
      var r := Apply(Apply(Apply(taken, AudioFailed(0, _ => true)), TakeFinal(2)), FinalReturned(1));
      r.accepted == [Accepted(1, 0, Some(1), 0, 1)]
  {
    FinalizingRun();
    RebuiltDuringFinalize();
  }

  lemma AfterPrefix(events: seq<Event>, k: nat)
    requires 0 < k <= |events|
    ensures After(events[..k]) == Apply(After(events[..k - 1]), events[k - 1])
  {
    assert events[..k][..k - 1] == events[..k - 1];
  }

  /** A late audio failure re-enters ACTIVE from IDLE with the old generation. */
  lemma ActiveWithoutNewGeneration()
    ensures var idle := After([Speech(WORKS), TakeAudio(0, WORKS), Cancel]);
      var active := Apply(idle, AudioFailed(0, _ => true));
      idle.m.phase == Idle && active.m.phase == Active && active.m.generation == idle.m.generation
  {
    var e := [Speech(WORKS), TakeAudio(0, WORKS), Cancel];
    assert e[..3] == e;
    AfterPrefix(e, 3);
    AfterPrefix(e, 2);
    AfterPrefix(e, 1);
  }

  /** The event hands an error to the manager, which runs the recovery ladder. */
  predicate ReportsError(r: Run, e: Event) {
    || (e.AudioFailed? && e.id in r.pushes)
    || (e.FinalFailed? && e.id in r.finals && r.finals[e.id].stream.Some?)
    || e.MarkError?
  }

  lemma ErrorResult(m: Manager, attempt: nat -> bool)
    requires Conserved(m)
    ensures HandleError(m, attempt).generation == m.generation
    ensures HandleError(m, attempt).phase == Active <==> exists k :: 0 <= k <= REBUILD_ATTEMPTS && attempt(k)
  {
    RebuildOutcome(Broken(m), attempt, 0);
    RebuildGeneration(Broken(m), attempt, 0);
  }

  /** Only a speech start moves the generation, and always by one. */
  lemma GenerationStep(r: Run, e: Event)
    requires Sound(r)
    ensures Manage(r, e).generation == r.m.generation + if e.Speech? then 1 else 0
  {
    if e.Speech? {
      SpeechStartResult(r.m, e.a);
    } else if ReportsError(r, e) {
      ErrorResult(r.m, e.attempt);
    }
  }

  /** A speech start whose first creation or ladder succeeds, or a reported error whose ladder does. */
  predicate Enters(r: Run, e: Event) {
    || (e.Speech? && Recovers(e.a))
    || (ReportsError(r, e) && exists k :: 0 <= k <= REBUILD_ATTEMPTS && e.attempt(k))
  }

  /**
    Exactly when a region ends in ACTIVE, wherever it starts: it enters ACTIVE, or it was there and
    the manager is unchanged. The generation is then fresh, by one, exactly for a speech start.
  */
  lemma ActiveEntry(events: seq<Event>, e: Event)
    ensures var r := After(events);
      var m' := Apply(r, e).m;
      && (m'.phase == Active <==> Enters(r, e) || (r.m.phase == Active && m' == r.m))
      && m'.generation == r.m.generation + if e.Speech? then 1 else 0
  {
    AlwaysSound(events);
    var r := After(events);
    GenerationStep(r, e);
    if e.Speech? {
      SpeechStartResult(r.m, e.a);
    } else if ReportsError(r, e) {
      ErrorResult(r.m, e.attempt);
    }
  }
}
