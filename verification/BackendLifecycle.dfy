/**
  app/core/backend_manager.py with the cached factories of app/main.py: request gating, drain,
  hot reload and rollback of one backend kind.

  Backend instances are numbered in order of construction. Lock-held regions, and stretches
  between awaits, are the atomic events; success and failure of the foreign calls inside a
  region are parameters of the event.
*/
module BackendLifecycle {
  import opened Wrappers

  datatype Phase = Init | Ready | Draining | Reloading | Failed

  datatype ProfileRef = ProfileRef(path: string)

  /** The profile applied last; none, or the id of the mixture that a broken-off application left behind. */
  datatype InForce = Nothing | Whole(ref: ProfileRef) | Mixed(id: nat)

  /** How apply_profile ends: it returns, raises before its first write, or raises with part of it written. */
  datatype Applying = Applies | Refuses | Breaks

  /**
    At startup: whether the module global already holds an instance, the ref the manager is seeded
    with, and the profile in force when there is no such ref (a seeded ref has been applied).
  */
  datatype Startup = Startup(preloaded: bool, initialRef: Option<ProfileRef>, unseeded: InForce)

  /** Where the one reload in progress stands. */
  datatype Stage =
    | NoReload
    | Checked(plan: Plan)
    | Waiting(plan: Plan)
    | Decided(plan: Plan, clean: bool)
    | Swapped(plan: Plan, outcome: Outcome)

  /** What reload snapshots: the live instance, the ref to load, and the ref to go back to. */
  datatype Plan = Plan(live: nat, target: Option<ProfileRef>, back: Option<ProfileRef>)

  datatype Outcome = Reloaded | RolledBack | Broken

  /** How apply_profile, factory and preloader end, first for the new and then for the old profile. */
  datatype Answers = Answers(
    apply: Applying,
    make: bool,
    preload: bool,
    applyBack: Applying,
    makeBack: bool,
    preloadBack: bool)

  /** An instance passed to the unloader: was the drain clean, and which requests were still inside acquire. */
  datatype Unload = Unload(instance: nat, clean: bool, holders: set<nat>)

  /** A construction: the new instance, and the instances passed to the unloader before it. */
  datatype Construction = Construction(instance: nat, unloaded: set<nat>)

  datatype State = State(
    phase: Phase,
    current: Option<nat>,
    cache: Option<nat>,
    inflight: int,
    holders: map<nat, nat>,
    lastRef: Option<ProfileRef>,
    initialRef: Option<ProfileRef>,
    inForce: InForce,
    mixtures: nat,
    stage: Stage,
    built: nat,
    unloads: seq<Unload>,
    constructions: seq<Construction>)

  datatype RequestError = Unavailable | InProgress | NotReady | NotSupported | InvalidProfile | ArtifactsMissing

  /** Outcomes of the checks before the drain: hot reload supported, profile readable, artifacts present. */
  datatype Checks = Checks(supported: bool, readable: bool, complete: bool)

  /** Elsewhere is an application of a profile by anyone else in the process, as by the other manager's reload. */
  datatype Event =
    | Boot(make: bool, preload: bool)
    | Acquire(request: nat)
    | Release(request: nat)
    | Check(target: Option<ProfileRef>, checks: Checks, fallback: Option<ProfileRef>)
    | BeginDrain
    | DrainPoll
    | DrainTimeout
    | Swap(a: Answers)
    | Finish
    | Elsewhere(applied: ProfileRef, answer: Applying)

  function Unloaded(s: State): set<nat> {
    set k | 0 <= k < |s.unloads| :: s.unloads[k].instance
  }

  // Factory, unloader and profile loader

  /** The cached factory: the module global if bound, else a new instance bound to it. */
  function Make(s: State): (r: State)
  {
    if s.cache.Some? then s
    else s.(cache := Some(s.built), built := s.built + 1,
            constructions := s.constructions + [Construction(s.built, Unloaded(s))])
  }

  /** The unloader clears the global whether or not unload raises. */
  function Unloading(s: State, b: nat, clean: bool): State {
    s.(cache := None, unloads := s.unloads + [Unload(b, clean, s.holders.Keys)])
  }

  /** A broken-off application leaves a mixture unlike any before. */
  function ApplyProfile(s: State, target: Option<ProfileRef>, answer: Applying): State {
    if target.None? then s
    else
      match answer
      case Applies => s.(inForce := Whole(target.value))
      case Refuses => s
      case Breaks => s.(inForce := Mixed(s.mixtures), mixtures := s.mixtures + 1)
  }

  // Regions

  function Booted(s: State, make: bool, preload: bool): State {
    if s.phase != Init then s
    else if !make && s.cache.None? then s.(phase := Failed)
    else
      var m := Make(s);
      if !preload then m.(phase := Failed)
      else m.(phase := Ready, current := m.cache, lastRef := if s.lastRef.None? then s.initialRef else s.lastRef)
  }

  predicate Serving(s: State) {
    s.phase == Ready && s.current.Some?
  }

  function Acquired(s: State, request: nat): State {
    if Serving(s) && request !in s.holders
    then s.(inflight := s.inflight + 1, holders := s.holders[request := s.current.value])
    else s
  }

  /** The finally block of acquire, clamp included. */
  function Released(s: State, request: nat): State {
    if request !in s.holders then s
    else
      var n := s.inflight - 1;
      s.(inflight := if n < 0 then 0 else n, holders := s.holders - {request})
  }

  function CheckReload(s: State, target: Option<ProfileRef>, c: Checks): Option<RequestError> {
    if s.stage != NoReload then Some(InProgress)
    else if !Serving(s) then Some(NotReady)
    else if !c.supported then Some(NotSupported)
    else if target.Some? && !c.readable then Some(InvalidProfile)
    else if target.Some? && !c.complete then Some(ArtifactsMissing)
    else None
  }

  function BeginReload(s: State, target: Option<ProfileRef>, c: Checks, fallback: Option<ProfileRef>): State {
    if CheckReload(s, target, c).Some? then s
    else if s.current.None? then s
    else s.(stage := Checked(Plan(s.current.value, target, if s.lastRef.Some? then s.lastRef else fallback)))
  }

  /** Back to the old profile: the rollback branch, once the failed instance was unloaded. */
  function RollBack(s: State, p: Plan, a: Answers): State {
    var reapply := p.target.Some? && p.back.Some?;
    var applied := if reapply then ApplyProfile(s, p.back, a.applyBack) else s;
    if (reapply && !a.applyBack.Applies?) || (applied.cache.None? && !a.makeBack) then
      applied.(current := None, stage := Swapped(p, Broken))
    else
      var made := Make(applied);
      if !a.preloadBack then made.(current := None, stage := Swapped(p, Broken))
      else made.(current := made.cache, stage := Swapped(p, RolledBack))
  }

  /** The old instance is unloaded and the new profile applied. */
  function Gone(s: State, p: Plan, clean: bool, a: Answers): State {
    ApplyProfile(Unloading(s.(phase := Reloading, current := None), p.live, clean), p.target, a.apply)
  }

  /** Build the new instance, roll back if that fails or the profile could not be applied. */
  function Rebuilt(g: State, p: Plan, clean: bool, a: Answers): State {
    if (p.target.Some? && !a.apply.Applies?) || (g.cache.None? && !a.make) then RollBack(g, p, a)
    else
      var made := Make(g);
      if made.cache.Some? && !a.preload then RollBack(Unloading(made, made.cache.value, clean), p, a)
      else
        made.(current := made.cache, lastRef := if p.target.Some? then p.target else g.lastRef,
              stage := Swapped(p, Reloaded))
  }

  function Swapping(s: State, p: Plan, clean: bool, a: Answers): State {
    Rebuilt(Gone(s, p, clean, a), p, clean, a)
  }

  function Apply(s: State, e: Event): State {
    match e
    case Boot(make, preload) => Booted(s, make, preload)
    case Acquire(request) => Acquired(s, request)
    case Release(request) => Released(s, request)
    case Check(target, c, fallback) => BeginReload(s, target, c, fallback)
    case BeginDrain => if s.stage.Checked? then s.(phase := Draining, stage := Waiting(s.stage.plan)) else s
    case DrainPoll => if s.stage.Waiting? && s.inflight <= 0 then s.(stage := Decided(s.stage.plan, true)) else s
    case DrainTimeout => if s.stage.Waiting? then s.(stage := Decided(s.stage.plan, false)) else s
    case Swap(a) => if s.stage.Decided? then Swapping(s, s.stage.plan, s.stage.clean, a) else s
    case Finish =>
      if s.stage.Swapped?
      then s.(phase := if s.stage.outcome == Broken then Failed else Ready, stage := NoReload)
      else s
    case Elsewhere(applied, answer) => ApplyProfile(s, Some(applied), answer)
  }

  function InForceAt(c: Startup): InForce {
    if c.initialRef.Some? then Whole(c.initialRef.value) else c.unseeded
  }

  function MixturesAt(c: Startup): nat {
    if InForceAt(c).Mixed? then InForceAt(c).id + 1 else 0
  }

  function Start(c: Startup): State {
    State(Init, None, if c.preloaded then Some(0) else None, 0, map[], None, c.initialRef, InForceAt(c), MixturesAt(c),
          NoReload, if c.preloaded then 1 else 0, [], if c.preloaded then [Construction(0, {})] else [])
  }

  function After(c: Startup, events: seq<Event>): State {
    if events == [] then Start(c) else Apply(After(c, events[..|events| - 1]), events[|events| - 1])
  }

  // The manager as an object

  class BackendManager {
    const initialRef: Option<ProfileRef>
    var phase: Phase
    var current: Option<nat>
    var cache: Option<nat>
    var inflightHttp: int
    var lastRef: Option<ProfileRef>
    var stage: Stage
    var built: nat
    ghost var holders: map<nat, nat>
    ghost var inForce: InForce
    ghost var mixtures: nat
    ghost var unloads: seq<Unload>
    ghost var constructions: seq<Construction>

    ghost function Abs(): State
      reads this
    {
      State(phase, current, cache, inflightHttp, holders, lastRef, initialRef, inForce, mixtures, stage, built,
            unloads, constructions)
    }

    constructor (c: Startup)
      ensures Abs() == Start(c)
    {
      phase, current, inflightHttp, holders, lastRef := Init, None, 0, map[], None;
      cache, built := if c.preloaded then Some(0) else None, if c.preloaded then 1 else 0;
      initialRef, inForce, stage, unloads := c.initialRef, InForceAt(c), NoReload, [];
      mixtures, constructions := MixturesAt(c), if c.preloaded then [Construction(0, {})] else [];
    }

    method Factory() returns (b: nat)
      modifies this`cache, this`built, this`constructions
      ensures Abs() == Make(old(Abs())) && cache == Some(b)
    {
      if cache.None? {
        constructions := constructions + [Construction(built, Unloaded(Abs()))];
        cache, built := Some(built), built + 1;
      }
      return cache.value;
    }

    method Unloader(b: nat, ghost clean: bool)
      modifies this`cache, this`unloads
      ensures Abs() == Unloading(old(Abs()), b, clean)
    {
      cache, unloads := None, unloads + [Unload(b, clean, holders.Keys)];
    }

    method LoadProfile(target: Option<ProfileRef>, answer: Applying)
      modifies this`inForce, this`mixtures
      ensures Abs() == ApplyProfile(old(Abs()), target, answer)
    {
      if target.Some? {
        match answer
        case Applies => inForce := Whole(target.value);
        case Refuses =>
        case Breaks => inForce, mixtures := Mixed(mixtures), mixtures + 1;
      }
    }

    method StartBackend(make: bool, preload: bool) returns (ok: bool)
      modifies this
      ensures Abs() == Booted(old(Abs()), make, preload)
      ensures ok ==> phase == Ready
    {
      if phase != Init {
        return false;
      }
      if !make && cache.None? {
        phase := Failed;
        return false;
      }
      var b := Factory();
      if !preload {
        phase := Failed;
        return false;
      }
      current := Some(b);
      if initialRef.Some? && lastRef.None? {
        lastRef := initialRef;
      }
      phase := Ready;
      return true;
    }

    method AcquireBackend(ghost request: nat) returns (r: Result<nat, RequestError>)
      requires request !in holders
      modifies this`inflightHttp, this`holders
      ensures Abs() == Acquired(old(Abs()), request)
      ensures r == if Serving(old(Abs())) then Success(current.value) else Failure(Unavailable)
    {
      if phase != Ready || current.None? {
        return Failure(Unavailable);
      }
      inflightHttp := inflightHttp + 1;
      holders := holders[request := current.value];
      return Success(current.value);
    }

    method ReleaseBackend(ghost request: nat)
      requires request in holders
      modifies this`inflightHttp, this`holders
      ensures Abs() == Released(old(Abs()), request)
    {
      inflightHttp := inflightHttp - 1;
      if inflightHttp <= 0 {
        inflightHttp := if 0 >= inflightHttp then 0 else inflightHttp;
      }
      holders := holders - {request};
    }

    method RequestReload(target: Option<ProfileRef>, c: Checks, fallback: Option<ProfileRef>)
      returns (error: Option<RequestError>)
      modifies this`stage
      ensures Abs() == BeginReload(old(Abs()), target, c, fallback)
      ensures error == CheckReload(old(Abs()), target, c)
    {
      if stage != NoReload {
        return Some(InProgress);
      }
      if phase != Ready || current.None? {
        return Some(NotReady);
      }
      if !c.supported {
        return Some(NotSupported);
      }
      if target.Some? {
        if !c.readable {
          return Some(InvalidProfile);
        }
        if !c.complete {
          return Some(ArtifactsMissing);
        }
      }
      stage := Checked(Plan(current.value, target, if lastRef.Some? then lastRef else fallback));
      return None;
    }

    method StartDrain()
      requires stage.Checked?
      modifies this`phase, this`stage
      ensures Abs() == Apply(old(Abs()), BeginDrain)
    {
      phase, stage := Draining, Waiting(stage.plan);
    }

    /** One look at the counter under the lock. */
    method PollDrain() returns (clean: bool)
      requires stage.Waiting?
      modifies this`stage
      ensures Abs() == Apply(old(Abs()), DrainPoll)
      ensures clean <==> stage.Decided?
    {
      if inflightHttp > 0 {
        return false;
      }
      stage := Decided(stage.plan, true);
      return true;
    }

    method GoBack(p: Plan, a: Answers)
      modifies this
      ensures Abs() == RollBack(old(Abs()), p, a)
    {
      if p.target.Some? && p.back.Some? {
        LoadProfile(p.back, a.applyBack);
        if !a.applyBack.Applies? {
          current, stage := None, Swapped(p, Outcome.Broken);
          return;
        }
      }
      if cache.None? && !a.makeBack {
        current, stage := None, Swapped(p, Outcome.Broken);
        return;
      }
      var restored := Factory();
      if !a.preloadBack {
        current, stage := None, Swapped(p, Outcome.Broken);
        return;
      }
      current, stage := Some(restored), Swapped(p, RolledBack);
    }

    method SwapBackend(a: Answers)
      requires stage.Decided?
      modifies this
      ensures Abs() == Apply(old(Abs()), Swap(a))
    {
      var p, clean := stage.plan, stage.clean;
      phase, current := Reloading, None;
      Unloader(p.live, clean);
      if p.target.Some? {
        LoadProfile(p.target, a.apply);
        if !a.apply.Applies? {
          GoBack(p, a);
          return;
        }
      }
      if cache.None? && !a.make {
        GoBack(p, a);
        return;
      }
      var b := Factory();
      if !a.preload {
        Unloader(b, clean);
        GoBack(p, a);
        return;
      }
      current := Some(b);
      if p.target.Some? {
        lastRef := p.target;
      }
      stage := Swapped(p, Reloaded);
    }

    method FinishReload() returns (outcome: Outcome)
      requires stage.Swapped?
      modifies this`phase, this`stage
      ensures Abs() == Apply(old(Abs()), Finish)
      ensures outcome == old(stage).outcome
    {
      outcome := stage.outcome;
      phase, stage := if outcome == Outcome.Broken then Failed else Ready, NoReload;
    }
  }
}
