/**
  app/core/asr_session_manager.py: the per-utterance session manager of one connection.

  Every method is given as its lock-held regions. What the backend answers inside a region is
  a parameter of the region, so all patterns of success and failure are covered.
*/
module AsrSession {
  import opened Wrappers

  datatype Phase = Idle | Active | Finalizing | Cancelling | ErrorRebuild

  /**
    The manager's fields, with a ledger of the streams the backend ever made: `births[i]` is
    the generation for which stream i was created and `closes[i]` how often it was closed.
    `rebuilds` counts runs of the recovery ladder.
  */
  datatype Manager = Manager(
    phase: Phase,
    stream: Option<nat>,
    generation: nat,
    recovering: bool,
    births: seq<nat>,
    closes: seq<nat>,
    rebuilds: nat)

  const FRESH: Manager := Manager(Idle, None, 0, false, [], [], 0)

  /** Does the first create_stream of a region succeed, and does attempt i of the recovery ladder? */
  datatype Answers = Answers(first: bool, attempt: nat -> bool)

  /** How the backend reacts to cancelling a stream. */
  datatype CancelAnswer = Acked | TimedOut | ProtocolError | OtherError

  datatype Unavailable = Unavailable

  const REBUILD_ATTEMPTS: nat := 3

  predicate Open(m: Manager, s: Option<nat>) {
    s.Some? ==> s.value < |m.closes|
  }

  predicate Shaped(m: Manager) {
    |m.births| == |m.closes| && Open(m, m.stream)
  }

  function Close(m: Manager, s: Option<nat>): Manager
    requires Open(m, s)
  {
    if s.None? then m else m.(closes := m.closes[s.value := m.closes[s.value] + 1])
  }

  function Create(m: Manager): (r: Manager)
    ensures Shaped(m) ==> Shaped(r)
  {
    m.(stream := Some(|m.births|), births := m.births + [m.generation], closes := m.closes + [0])
  }

  /** The recovery ladder from attempt i on: bounded retries, a worker restart, one last attempt. */
  function RebuildFrom(m: Manager, attempt: nat -> bool, i: nat): (r: Manager)
    requires Shaped(m) && i <= REBUILD_ATTEMPTS
    ensures Shaped(r)
    decreases REBUILD_ATTEMPTS - i
  {
    if attempt(i) then Create(m).(phase := Active)
    else if i < REBUILD_ATTEMPTS then RebuildFrom(m, attempt, i + 1)
    else Close(m, m.stream).(stream := None, phase := Idle)
  }

  /** The failed stream is closed and the ladder starts. */
  function Broken(m: Manager): (r: Manager)
    requires Shaped(m)
    ensures Shaped(r)
  {
    Close(m, m.stream).(stream := None, phase := ErrorRebuild, recovering := true, rebuilds := m.rebuilds + 1)
  }

  function HandleError(m: Manager, attempt: nat -> bool): (r: Manager)
    requires Shaped(m)
    ensures Shaped(r)
  {
    if m.recovering then m
    else
      RebuildFrom(Broken(m), attempt, 0).(recovering := false)
  }

  function InnerCancel(m: Manager): (r: Manager)
    requires Shaped(m)
    ensures Shaped(r)
  {
    if m.phase == Idle then m
    else Close(m, m.stream).(stream := None, phase := Idle)
  }

  /** A session still running is cancelled, and the generation advances. */
  function Preempted(m: Manager): (r: Manager)
    requires Shaped(m)
    ensures Shaped(r)
  {
    var free := if m.phase == Active || m.phase == Finalizing then InnerCancel(m) else m;
    free.(generation := free.generation + 1)
  }

  function SpeechStart(m: Manager, a: Answers): (r: Manager)
    requires Shaped(m)
    ensures Shaped(r)
  {
    var next := Preempted(m);
    var made := if a.first then Create(next) else HandleError(next, a.attempt);
    made.(phase := if made.stream.None? then Idle else Active)
  }

  /** First region of accept_audio: outside ACTIVE nothing; a missing stream is made on the spot. */
  function AudioTake(m: Manager, a: Answers): (r: Manager)
    requires Shaped(m)
    ensures Shaped(r)
  {
    if m.phase != Active || m.stream.Some? then m
    else if a.first then Create(m)
    else HandleError(m, a.attempt)
  }

  function FinalizeTake(m: Manager): Manager {
    if m.phase == Active then m.(phase := Finalizing) else m
  }

  /** The region entered when the captured stream was missing. */
  function FinalizeEmpty(m: Manager): Manager {
    m.(phase := Idle)
  }

  predicate Accepts(m: Manager, generation: nat) {
    m.phase == Finalizing && m.generation == generation
  }

  /** Last region of finalize_with_status, for a finalize that ran against `generation`. */
  function FinalizeReturned(m: Manager, generation: nat): (r: Manager)
    requires Shaped(m)
    ensures Shaped(r)
  {
    if Accepts(m, generation) then Close(m, m.stream).(stream := None, phase := Idle) else m
  }

  // The manager as an object

  class ASRSessionManager {
    var phase: Phase
    var stream: Option<nat>
    var generation: nat
    var recovering: bool
    ghost var births: seq<nat>
    ghost var closes: seq<nat>
    ghost var rebuilds: nat
    var created: nat

    /** Stream handles are numbered in order of creation. */
    ghost predicate Valid()
      reads this
    {
      created == |births| && Shaped(Abs())
    }

    ghost function Abs(): Manager
      reads this
    {
      Manager(phase, stream, generation, recovering, births, closes, rebuilds)
    }

    constructor ()
      ensures Valid() && Abs() == FRESH
    {
      phase, stream, generation, recovering, created := Idle, None, 0, false, 0;
      births, closes, rebuilds := [], [], 0;
    }

    method CloseStream(s: Option<nat>)
      requires Valid() && Open(Abs(), s)
      modifies this`closes
      ensures Valid() && Abs() == Close(old(Abs()), s)
    {
      if s.Some? {
        closes := closes[s.value := closes[s.value] + 1];
      }
    }

    method CreateStream()
      requires Valid()
      modifies this
      ensures Valid() && Abs() == Create(old(Abs()))
    {
      stream, births, closes := Some(created), births + [generation], closes + [0];
      created := created + 1;
    }

    method DoRebuildLocked(attempt: nat -> bool) returns (restarted: bool)
      requires Valid()
      modifies this
      ensures Valid() && Abs() == RebuildFrom(old(Abs()), attempt, 0)
      ensures restarted <==> forall i :: 0 <= i < REBUILD_ATTEMPTS ==> !attempt(i)
    {
      restarted := false;
      for i := 0 to REBUILD_ATTEMPTS
        invariant Valid() && Abs() == old(Abs()) && !restarted
        invariant RebuildFrom(old(Abs()), attempt, 0) == RebuildFrom(old(Abs()), attempt, i)
        invariant forall k :: 0 <= k < i ==> !attempt(k)
      {
        if attempt(i) {
          CreateStream();
          phase := Active;
          return;
        }
      }
      restarted := true;
      if attempt(REBUILD_ATTEMPTS) {
        CreateStream();
        phase := Active;
      } else {
        CloseStream(stream);
        stream, phase := None, Idle;
      }
    }

    method HandleErrorLocked(attempt: nat -> bool)
      requires Valid()
      modifies this
      ensures Valid() && Abs() == HandleError(old(Abs()), attempt)
    {
      if recovering {
        return;
      }
      recovering := true;
      CloseStream(stream);
      stream, phase, rebuilds := None, ErrorRebuild, rebuilds + 1;
      assert Abs() == Broken(old(Abs()));
      var _ := DoRebuildLocked(attempt);
      recovering := false;
    }

    method CancelLocked(answer: CancelAnswer) returns (restarted: bool)
      requires Valid()
      modifies this
      ensures Valid() && Abs() == InnerCancel(old(Abs()))
      ensures restarted <==> old(phase) != Idle && old(stream).Some? && (answer == TimedOut || answer == ProtocolError)
    {
      if phase == Idle {
        return false;
      }
      phase := Cancelling;
      var s := stream;
      stream := None;
      if s.None? {
        phase := Idle;
        return false;
      }
      restarted := answer == TimedOut || answer == ProtocolError;
      CloseStream(s);
      phase := Idle;
    }

    method OnSpeechStart(cancel: CancelAnswer, a: Answers) returns (r: Result<nat, Unavailable>)
      requires Valid()
      modifies this
      ensures Valid() && Abs() == SpeechStart(old(Abs()), a)
      ensures r.Success? <==> stream.Some?
      ensures r.Success? ==> r.value == generation
    {
      if phase == Active || phase == Finalizing {
        var _ := CancelLocked(cancel);
      }
      generation := generation + 1;
      ghost var next := Abs();
      assert next == Preempted(old(Abs()));
      if a.first {
        CreateStream();
      } else {
        HandleErrorLocked(a.attempt);
        if stream.None? {
          phase := Idle;
          return Failure(Unavailable);
        }
      }
      phase := Active;
      return Success(generation);
    }

    /** The stream to push the samples at, if any. */
    method AcceptAudioTake(a: Answers) returns (target: Option<nat>)
      requires Valid()
      modifies this
      ensures Valid() && Abs() == AudioTake(old(Abs()), a)
      ensures target.Some? ==> target == stream && old(phase) == Active
    {
      if phase != Active {
        return None;
      }
      if stream.None? {
        if !a.first {
          HandleErrorLocked(a.attempt);
          return None;
        }
        CreateStream();
      }
      return stream;
    }

    method FinalizeBegin() returns (taken: Option<(nat, Option<nat>)>)
      requires Valid()
      modifies this
      ensures Valid() && Abs() == FinalizeTake(old(Abs()))
      ensures taken == if old(phase) == Active then Some((generation, stream)) else None
    {
      if phase != Active {
        return None;
      }
      phase := Finalizing;
      return Some((generation, stream));
    }

    method FinalizeWithoutStream()
      requires Valid()
      modifies this`phase
      ensures Valid() && Abs() == FinalizeEmpty(old(Abs()))
    {
      phase := Idle;
    }

    method FinalizeEnd(g: nat, text: string) returns (r: (nat, string, bool))
      requires Valid()
      modifies this
      ensures Valid() && Abs() == FinalizeReturned(old(Abs()), g)
      ensures r == if Accepts(old(Abs()), g) then (g, text, true) else (g, "", false)
    {
      if phase != Finalizing {
        return (g, "", false);
      }
      if generation != g {
        return (g, "", false);
      }
      CloseStream(stream);
      stream, phase := None, Idle;
      return (g, text, true);
    }

    /** First region of get_partial_for_generation; it changes nothing. */
    method PartialBegin() returns (g: nat, target: Option<nat>)
      ensures g == generation
      ensures target == if phase == Active then stream else None
    {
      g := generation;
      target := if phase == Active then stream else None;
    }
  }
}
