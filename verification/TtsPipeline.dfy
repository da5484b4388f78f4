/**
  app/main.py, the sentence pipeline inside `/tts/stream`: producers synthesize sentences
  ahead of the drain loop, which yields their chunks in sentence order.

  A region between two awaits of the drain loop, a push by a producer thread, and the raising
  of the cancel flag are the atomic events.
*/
module TtsPipeline {

  /** One piece of audio. */
  datatype Pcm = Pcm(samples: seq<int>)

  datatype Item = Chunk(data: Pcm) | End

  /**
    `scripts[i]` is what the backend's generator yields for sentence i before it ends or raises.
    `produced[i]`, `ended[i]` say how far producer i got, `taken` how many chunks of the current
    sentence were yielded, `submissions` which sentences were given to the executor, in order.
  */
  datatype State = State(
    scripts: seq<seq<Pcm>>,
    window: int,
    queues: seq<seq<Item>>,
    produced: seq<nat>,
    ended: seq<bool>,
    submissions: seq<nat>,
    next: nat,
    current: nat,
    firstSeen: bool,
    cancelled: bool,
    done: bool,
    taken: nat,
    out: seq<Pcm>)

  datatype Event = Produce(i: nat) | Stop(i: nat) | Drain | Cancel

  function Min(a: int, b: int): int {
    if a <= b then a else b
  }

  predicate Sized(s: State) {
    && |s.scripts| == |s.queues| == |s.produced| == |s.ended|
    && (!s.done ==> s.current < |s.scripts|)
  }

  /** The state when the drain loop first waits: only sentence 0 is submitted. */
  function Start(scripts: seq<seq<Pcm>>, prefetch: int): (s: State)
    ensures Sized(s)
  {
    var n := |scripts|;
    State(scripts, Min(prefetch, n), seq(n, _ => []), seq(n, _ => 0), seq(n, _ => false),
          if n == 0 then [] else [0], if n == 0 then 0 else 1, 0, false, false, n == 0, 0, [])
  }

  function MaybePrefetch(s: State): (r: State)
    ensures Sized(s) ==> Sized(r)
  {
    if s.next < |s.scripts| && !s.cancelled && s.next - s.current < s.window
    then s.(submissions := s.submissions + [s.next], next := s.next + 1)
    else s
  }

  /** The drain loop takes one item, if there is one. */
  function TakeItem(s: State): (r: State)
    requires Sized(s)
    ensures Sized(r)
  {
    if s.done || s.queues[s.current] == [] then s
    else
      var q := s.queues[s.current];
      var popped := s.(queues := s.queues[s.current := q[1..]]);
      match q[0]
      case Chunk(c) =>
        (if s.firstSeen then popped else MaybePrefetch(popped)).(firstSeen := true, taken := s.taken + 1,
                                                                 out := s.out + [c])
      case End =>
        NextSentence(MaybePrefetch(popped))
  }

  /** The head of the for loop: the next sentence, unless there is none or the flag is set. */
  function NextSentence(s: State): (r: State)
    requires Sized(s)
    ensures Sized(r)
  {
    if s.current + 1 >= |s.scripts| || s.cancelled then s.(done := true)
    else s.(current := s.current + 1, firstSeen := false, taken := 0)
  }

  /**
    A producer that has been submitted and has more to yield may push it; it may do so even after a cancel it
    did not see.
  */
  predicate CanProduce(s: State, i: nat)
    requires Sized(s)
  {
    i < |s.scripts| && i in s.submissions && !s.ended[i] && s.produced[i] < |s.scripts[i]|
  }

  predicate CanStop(s: State, i: nat)
    requires Sized(s)
  {
    i < |s.scripts| && i in s.submissions && !s.ended[i] && (s.produced[i] == |s.scripts[i]| || s.cancelled)
  }

  function Apply(s: State, e: Event): (r: State)
    requires Sized(s)
    ensures Sized(r)
  {
    match e
    case Produce(i) =>
      if CanProduce(s, i) then
        s.(queues := s.queues[i := s.queues[i] + [Chunk(s.scripts[i][s.produced[i]])]],
           produced := s.produced[i := s.produced[i] + 1])
      else s
    case Stop(i) =>
      if CanStop(s, i) then s.(queues := s.queues[i := s.queues[i] + [End]], ended := s.ended[i := true]) else s
    case Drain => TakeItem(s)
    case Cancel => s.(cancelled := true)
  }

  function After(scripts: seq<seq<Pcm>>, prefetch: int, events: seq<Event>): (s: State)
    ensures Sized(s)
  {
    if events == [] then Start(scripts, prefetch)
    else Apply(After(scripts, prefetch, events[..|events| - 1]), events[|events| - 1])
  }

  // The pipeline as code

  class Pipeline {
    const scripts: seq<seq<Pcm>>
    const window: int
    var queues: seq<seq<Item>>
    var produced: seq<nat>
    var ended: seq<bool>
    var submissions: seq<nat>
    var nextToSubmit: nat
    var currentIdx: nat
    var firstChunkSeen: bool
    var cancelFlag: bool
    var done: bool
    ghost var taken: nat
    var out: seq<Pcm>

    ghost function Abs(): State
      reads this
    {
      State(scripts, window, queues, produced, ended, submissions, nextToSubmit, currentIdx, firstChunkSeen,
            cancelFlag, done, taken, out)
    }

    constructor (scripts: seq<seq<Pcm>>, prefetch: int)
      ensures Abs() == Start(scripts, prefetch)
    {
      var n := |scripts|;
      this.scripts, window := scripts, if prefetch < n then prefetch else n;
      queues, produced, ended := seq(n, _ => []), seq(n, _ => 0), seq(n, _ => false);
      submissions, nextToSubmit := if n == 0 then [] else [0], if n == 0 then 0 else 1;
      currentIdx, firstChunkSeen, cancelFlag, done, taken, out := 0, false, false, n == 0, 0, [];
    }

    method Submit(idx: nat)
      modifies this`submissions
      ensures submissions == old(submissions) + [idx]
    {
      submissions := submissions + [idx];
    }

    method TryPrefetch()
      modifies this`submissions, this`nextToSubmit
      ensures Abs() == MaybePrefetch(old(Abs()))
    {
      if nextToSubmit < |scripts| && !cancelFlag && nextToSubmit - currentIdx < window {
        Submit(nextToSubmit);
        nextToSubmit := nextToSubmit + 1;
      }
    }

    /** One item of the drain loop; false when the loop has to wait. */
    method DrainOne() returns (ran: bool)
      requires Sized(Abs())
      modifies this
      ensures Abs() == TakeItem(old(Abs()))
      ensures ran <==> !old(done) && old(queues)[old(currentIdx)] != []
    {
      if done || queues[currentIdx] == [] {
        return false;
      }
      var item := queues[currentIdx][0];
      queues := queues[currentIdx := queues[currentIdx][1..]];
      match item {
        case Chunk(c) =>
          if !firstChunkSeen {
            TryPrefetch();
            firstChunkSeen := true;
          }
          out, taken := out + [c], taken + 1;
        case End =>
          TryPrefetch();
          if currentIdx + 1 >= |scripts| || cancelFlag {
            done := true;
          } else {
            currentIdx, firstChunkSeen, taken := currentIdx + 1, false, 0;
          }
      }
      return true;
    }

    /** A producer thread pushes its next chunk. */
    method Push(i: nat)
      requires Sized(Abs()) && CanProduce(Abs(), i)
      modifies this`queues, this`produced
      ensures Abs() == Apply(old(Abs()), Produce(i))
    {
      queues := queues[i := queues[i] + [Chunk(scripts[i][produced[i]])]];
      produced := produced[i := produced[i] + 1];
    }

    /** The finally block of a producer thread. */
    method Finish(i: nat)
      requires Sized(Abs()) && CanStop(Abs(), i)
      modifies this`queues, this`ended
      ensures Abs() == Apply(old(Abs()), Stop(i))
    {
      queues := queues[i := queues[i] + [End]];
      ended := ended[i := true];
    }

    method Disconnect()
      modifies this`cancelFlag
      ensures Abs() == old(Abs()).(cancelled := true)
    {
      cancelFlag := true;
    }
  }

  // Submission

  function Iota(n: nat): seq<nat> {
    seq(n, i => i)
  }

  function Max(a: int, b: int): int {
    if a >= b then a else b
  }

  /** Each sentence below `next` was submitted exactly once, in order, and the window bounds how far ahead it runs. */
  predicate Submitted(s: State) {
    && Sized(s)
    && s.submissions == Iota(s.next)
    && (|s.scripts| > 0 ==> 1 <= s.next <= |s.scripts|)
    && s.next - s.current <= Max(s.window, 1)
    && s.window <= |s.scripts|
    && (s.done && !s.cancelled ==> s.current + 1 >= |s.scripts|)
  }

  /** The queue the drain loop waits on belongs to a submitted sentence. */
  predicate Served(s: State) {
    !s.done ==> s.current < s.next
  }

  lemma PrefetchSubmitted(s: State)
    requires Submitted(s)
    ensures Submitted(MaybePrefetch(s))
    ensures s.window >= 2 && Served(s) && !s.done && !s.cancelled ==>
              MaybePrefetch(s).next > s.current + 1 || MaybePrefetch(s).next == |s.scripts|
  {
  }

  /** Taking an item leaves the submissions as they are or extends them by the next sentence. */
  lemma DrainSubmitted(s: State)
    requires Submitted(s) && !s.done && s.queues[s.current] != []
    ensures var r := TakeItem(s);
      && Submitted(r) && r.window == s.window && r.scripts == s.scripts
      && (Served(s) && (s.window >= 2 || |s.scripts| <= 1) ==> Served(r))
  {
    PrefetchSubmitted(s.(queues := s.queues[s.current := s.queues[s.current][1..]]));
  }

  lemma ApplySubmitted(s: State, e: Event)
    requires Submitted(s)
    ensures Submitted(Apply(s, e)) && Apply(s, e).window == s.window && Apply(s, e).scripts == s.scripts
    ensures Served(s) && (s.window >= 2 || |s.scripts| <= 1) ==> Served(Apply(s, e))
  {
    match e
    case Produce(i) =>
    case Stop(i) =>
    case Drain => if !s.done && s.queues[s.current] != [] { DrainSubmitted(s); }
    case Cancel =>
  }

  // What is yielded

  function Concat(ss: seq<seq<Pcm>>): seq<Pcm> {
    if ss == [] then [] else Concat(ss[..|ss| - 1]) + ss[|ss| - 1]
  }

  lemma {:induction false} ConcatPrefix(ss: seq<seq<Pcm>>, k: nat)
    requires k < |ss|
    ensures Concat(ss[..k]) + ss[k] == Concat(ss[..k + 1])
    ensures Concat(ss[..k + 1]) <= Concat(ss)
  {
    assert ss[..k + 1][..k] == ss[..k];
    if k + 1 == |ss| {
      assert ss[..k + 1] == ss;
    } else {
      var t := ss[..|ss| - 1];
      ConcatPrefix(t, k);
      assert t[..k + 1] == ss[..k + 1];
    }
  }

  function Items(cs: seq<Pcm>): seq<Item> {
    seq(|cs|, k requires 0 <= k < |cs| => Chunk(cs[k]))
  }

  /** Queue i holds what producer i pushed and the drain loop has not taken. */
  ghost predicate QueueOk(s: State, i: nat)
    requires Sized(s) && i < |s.scripts|
  {
    var from := if i == s.current then s.taken else 0;
    && from <= s.produced[i] <= |s.scripts[i]|
    && s.queues[i] == Items(s.scripts[i][from..s.produced[i]]) + (if s.ended[i] then [End] else [])
    && (s.ended[i] && s.produced[i] < |s.scripts[i]| ==> s.cancelled)
    && (i >= s.next ==> s.produced[i] == 0 && !s.ended[i])
  }

  /** While the loop runs, it has yielded the earlier sentences in full and `taken` chunks of the current one. */
  ghost predicate Yielded(s: State) {
    && Submitted(s)
    && (!s.done ==>
          && (forall i :: s.current <= i < |s.scripts| ==> QueueOk(s, i))
          && s.taken <= |s.scripts[s.current]|
          && s.out == Concat(s.scripts[..s.current]) + s.scripts[s.current][..s.taken])
    && (s.done ==> s.out <= Concat(s.scripts) && (!s.cancelled ==> s.out == Concat(s.scripts)))
  }

  lemma ItemsPush(script: seq<Pcm>, from: nat, to: nat)
    requires from <= to < |script|
    ensures Items(script[from..to]) + [Chunk(script[to])] == Items(script[from..to + 1])
  {
  }

  lemma ProduceKeeps(s: State, i: nat)
    requires Yielded(s) && CanProduce(s, i)
    ensures Yielded(Apply(s, Produce(i)))
  {
    var r := Apply(s, Produce(i));
    ApplySubmitted(s, Produce(i));
    forall k | !s.done && s.current <= k < |s.scripts| ensures QueueOk(r, k) {
      assert QueueOk(s, k);
      if k == i {
        var from := if i == s.current then s.taken else 0;
        ItemsPush(s.scripts[i], from, s.produced[i]);
        assert r.queues[i] == Items(s.scripts[i][from..r.produced[i]]) + [];
      }
    }
  }

  lemma StopKeeps(s: State, i: nat)
    requires Yielded(s) && CanStop(s, i)
    ensures Yielded(Apply(s, Stop(i)))
  {
    var r := Apply(s, Stop(i));
    ApplySubmitted(s, Stop(i));
    forall k | !s.done && s.current <= k < |s.scripts| ensures QueueOk(r, k) {
      assert QueueOk(s, k);
    }
  }

  lemma PartialPrefix(ss: seq<seq<Pcm>>, k: nat, t: nat)
    requires k < |ss| && t <= |ss[k]|
    ensures Concat(ss[..k]) + ss[k][..t] <= Concat(ss[..k + 1]) <= Concat(ss)
  {
    ConcatPrefix(ss, k);
    assert Concat(ss[..k]) + ss[k] == Concat(ss[..k]) + ss[k][..t] + ss[k][t..];
  }

  /** The head of the current queue: the next chunk of the current sentence, or its end. */
  lemma HeadItem(s: State)
    requires Yielded(s) && !s.done && s.queues[s.current] != []
    ensures QueueOk(s, s.current)
    ensures s.queues[s.current][0].Chunk? <==> s.taken < s.produced[s.current]
    ensures s.queues[s.current][0].Chunk? ==>
              && s.queues[s.current][0] == Chunk(s.scripts[s.current][s.taken])
              && s.queues[s.current][1..]
                 == Items(s.scripts[s.current][s.taken + 1..s.produced[s.current]])
                     + (if s.ended[s.current] then [End] else [])
    ensures s.queues[s.current][0].End? ==> s.taken == s.produced[s.current] && s.ended[s.current]
  {
    assert QueueOk(s, s.current);
    var script, p := s.scripts[s.current], s.produced[s.current];
    if s.taken < p {
      assert Items(script[s.taken..p])[1..] == Items(script[s.taken + 1..p]);
    }
  }

  lemma TakeChunkKeeps(s: State)
    requires Yielded(s) && !s.done && s.queues[s.current] != [] && s.queues[s.current][0].Chunk?
    ensures Yielded(TakeItem(s))
  {
    var r := TakeItem(s);
    HeadItem(s);
    ApplySubmitted(s, Drain);
    forall k | s.current <= k < |s.scripts| ensures QueueOk(r, k) {
      assert QueueOk(s, k);
    }
    var script := s.scripts[s.current];
    assert script[..s.taken] + [script[s.taken]] == script[..s.taken + 1];
    assert r.out == Concat(s.scripts[..s.current]) + script[..r.taken];
  }

  lemma TakeEndKeeps(s: State)
    requires Yielded(s) && !s.done && s.queues[s.current] != [] && s.queues[s.current][0].End?
    ensures Yielded(TakeItem(s))
  {
    var r := TakeItem(s);
    HeadItem(s);
    ApplySubmitted(s, Drain);
    var k, script := s.current, s.scripts[s.current];
    PartialPrefix(s.scripts, k, s.taken);
    ConcatPrefix(s.scripts, k);
    if s.taken == |script| {
      assert script[..s.taken] == script;
      assert s.out == Concat(s.scripts[..k + 1]);
    }
    if r.done {
      if k + 1 == |s.scripts| {
        assert s.scripts[..k + 1] == s.scripts;
      }
    } else {
      forall i | r.current <= i < |s.scripts| ensures QueueOk(r, i) {
        assert QueueOk(s, i);
      }
      assert script == s.scripts[k] && r.current == k + 1;
      assert s.scripts[k + 1][..0] == [];
    }
  }

  lemma ApplyYielded(s: State, e: Event)
    requires Yielded(s)
    ensures Yielded(Apply(s, e))
  {
    match e
    case Produce(i) => if CanProduce(s, i) { ProduceKeeps(s, i); }
    case Stop(i) => if CanStop(s, i) { StopKeeps(s, i); }
    case Drain =>
      if !s.done && s.queues[s.current] != [] {
        if s.queues[s.current][0].Chunk? { TakeChunkKeeps(s); } else { TakeEndKeeps(s); }
      }
    case Cancel =>
      forall i | !s.done && s.current <= i < |s.scripts| ensures QueueOk(Apply(s, e), i) {
        assert QueueOk(s, i);
      }
  }

  lemma StartYielded(scripts: seq<seq<Pcm>>, prefetch: int)
    ensures Yielded(Start(scripts, prefetch))
    ensures Served(Start(scripts, prefetch))
  {
    if scripts != [] {
      assert scripts[0][..0] == [] && Concat(scripts[..0]) == [];
      assert Items(scripts[0][0..0]) == [];
      forall i | 0 <= i < |scripts| ensures QueueOk(Start(scripts, prefetch), i) {
        assert Items(scripts[i][0..0]) == [];
      }
    }
  }

  lemma {:induction false} AlwaysYielded(scripts: seq<seq<Pcm>>, prefetch: int, events: seq<Event>)
    ensures var s := After(scripts, prefetch, events);
      && Yielded(s) && s.scripts == scripts && s.window == Min(prefetch, |scripts|)
      && (s.window >= 2 || |scripts| <= 1 ==> Served(s))
  {
    if events == [] {
      StartYielded(scripts, prefetch);
    } else {
      var before := events[..|events| - 1];
      AlwaysYielded(scripts, prefetch, before);
      ApplyYielded(After(scripts, prefetch, before), events[|events| - 1]);
      ApplySubmitted(After(scripts, prefetch, before), events[|events| - 1]);
    }
  }

  // Main results

  /** Each sentence is submitted at most once, in order, and never further ahead than the window. */
  lemma SubmittedOnce(scripts: seq<seq<Pcm>>, prefetch: int, events: seq<Event>)
    ensures var s := After(scripts, prefetch, events);
      && s.submissions == Iota(s.next) && s.next <= |scripts|
      && s.next - s.current <= Max(Min(prefetch, |scripts|), 1)
  {
    AlwaysYielded(scripts, prefetch, events);
  }

  /**
    At every moment the output is a prefix of the sentences' chunks in order; a finished run without a cancel
    has all of them.
  */
  lemma StreamsInOrder(scripts: seq<seq<Pcm>>, prefetch: int, events: seq<Event>)
    ensures var s := After(scripts, prefetch, events);
      && s.out <= Concat(scripts)
      && (s.done && !s.cancelled ==> s.out == Concat(scripts))
  {
    AlwaysYielded(scripts, prefetch, events);
    var s := After(scripts, prefetch, events);
    if !s.done {
      PartialPrefix(scripts, s.current, s.taken);
    }
  }

  /** With a window of at least two, or one sentence, the loop never waits on a sentence that was not submitted. */
  lemma NeverWaitsUnsubmitted(scripts: seq<seq<Pcm>>, prefetch: int, events: seq<Event>)
    requires prefetch >= 2 || |scripts| <= 1
    ensures var s := After(scripts, prefetch, events); !s.done ==> s.current in s.submissions
  {
    AlwaysYielded(scripts, prefetch, events);
    var s := After(scripts, prefetch, events);
    if !s.done {
      assert s.submissions[s.current] == s.current;
    }
  }

  // Progress

  /** No producer can move and the drain loop cannot take anything. */
  ghost predicate Quiescent(s: State)
    requires Sized(s)
  {
    && (forall i: nat :: !CanProduce(s, i))
    && (forall i: nat :: !CanStop(s, i))
    && (!s.done ==> s.queues[s.current] == [])
  }

  /** Windows below two: only sentence 0 is ever submitted. */
  predicate Serial(s: State) {
    Sized(s) && s.window < 2 && |s.scripts| >= 2 && s.next == 1 && s.current <= 1
    && (s.current == 1 ==> !s.done && s.queues[1] == [])
    && (s.done ==> s.cancelled)
  }

  lemma SerialKept(s: State, e: Event)
    requires Yielded(s) && Serial(s)
    ensures Serial(Apply(s, e))
  {
    ApplyYielded(s, e);
    var r := Apply(s, e);
    assert forall i: nat :: i in s.submissions ==> i == 0;
    if !s.done && s.queues[s.current] != [] && e.Drain? {
      assert QueueOk(s, 1);
      assert s.queues[1] == Items(s.scripts[1][0..0]) + [];
    }
  }

  lemma {:induction false} AlwaysSerial(scripts: seq<seq<Pcm>>, prefetch: int, events: seq<Event>)
    requires prefetch < 2 <= |scripts|
    ensures Serial(After(scripts, prefetch, events))
  {
    if events != [] {
      var before := events[..|events| - 1];
      AlwaysSerial(scripts, prefetch, before);
      AlwaysYielded(scripts, prefetch, before);
      SerialKept(After(scripts, prefetch, before), events[|events| - 1]);
    }
  }

  /** A submitted sentence whose queue is empty has a producer that can move. */
  lemma EmptyQueueMoves(s: State, i: nat)
    requires Sized(s) && i < |s.scripts| && QueueOk(s, i) && s.queues[i] == [] && i in s.submissions
    ensures CanProduce(s, i) || CanStop(s, i)
  {
  }

  /**
    A run at rest, cancelled or not, has ended exactly when the window allows two sentences, or there
    is at most one, or the loop never got past the first sentence.
  */
  lemma EndsIff(scripts: seq<seq<Pcm>>, prefetch: int, events: seq<Event>)
    requires Quiescent(After(scripts, prefetch, events))
    ensures var s := After(scripts, prefetch, events);
      && (s.done <==> prefetch >= 2 || |scripts| <= 1 || s.current == 0)
      && (prefetch < 2 <= |scripts| && s.done ==> s.cancelled)
  {
    var s := After(scripts, prefetch, events);
    AlwaysYielded(scripts, prefetch, events);
    if prefetch < 2 <= |scripts| {
      AlwaysSerial(scripts, prefetch, events);
    }
    if !s.done && s.current < s.next {
      assert QueueOk(s, s.current) && s.submissions[s.current] == s.current;
      EmptyQueueMoves(s, s.current);
    }
  }

  /**
    Uncancelled, the stream is complete at rest exactly when the window allows two sentences or there is at
    most one.
  */
  lemma CompletesIff(scripts: seq<seq<Pcm>>, prefetch: int, events: seq<Event>)
    requires var s := After(scripts, prefetch, events); Quiescent(s) && !s.cancelled
    ensures var s := After(scripts, prefetch, events);
      && (s.done <==> prefetch >= 2 || |scripts| <= 1)
      && (s.done ==> s.out == Concat(scripts))
  {
    EndsIff(scripts, prefetch, events);
    StreamsInOrder(scripts, prefetch, events);
    AlwaysYielded(scripts, prefetch, events);
    if prefetch < 2 <= |scripts| {
      AlwaysSerial(scripts, prefetch, events);
    }
  }

  /** A window of one and two sentences without audio: the loop waits for a sentence that is never submitted. */
  lemma WindowOneStuck()
    ensures var s := After([[], []], 1, [Stop(0), Drain]);
      Quiescent(s) && !s.cancelled && !s.done && s.current == 1 && s.submissions == [0]
  {
    var scripts: seq<seq<Pcm>> := [[], []];
    var s0 := State(scripts, 1, [[], []], [0, 0], [false, false], [0], 1, 0, false, false, false, 0, []);
    assert After(scripts, 1, []) == s0;
    AfterPush(scripts, 1, [], Stop(0));
    assert [] + [Stop(0)] == [Stop(0)] && [Stop(0)] + [Drain] == [Stop(0), Drain];
    var s1 := s0.(queues := [[End], []], ended := [true, false]);
    assert s0.submissions[0] == 0 && s0.queues[0] == [] && [] + [End] == [End];
    assert s0.queues[0 := [End]] == s1.queues && s0.ended[0 := true] == s1.ended;
    assert Apply(s0, Stop(0)) == s1;
    AfterPush(scripts, 1, [Stop(0)], Drain);
    var popped := s1.(queues := [[], []]);
    assert s1.queues[0] == [End] && [End][1..] == [];
    assert s1.queues[0 := []] == popped.queues;
    assert Apply(s1, Drain) == popped.(current := 1);
  }

  lemma AfterPush(scripts: seq<seq<Pcm>>, prefetch: int, events: seq<Event>, e: Event)
    ensures After(scripts, prefetch, events + [e]) == Apply(After(scripts, prefetch, events), e)
  {
    assert (events + [e])[..|events|] == events;
  }

  function Sum(xs: seq<nat>): nat {
    if xs == [] then 0 else Sum(xs[..|xs| - 1]) + xs[|xs| - 1]
  }

  lemma {:induction false} SumUpdate(xs: seq<nat>, i: nat, v: nat)
    requires i < |xs|
    ensures Sum(xs[i := v]) + xs[i] == Sum(xs) + v
  {
    var n := |xs| - 1;
    if i < n {
      SumUpdate(xs[..n], i, v);
      assert xs[i := v][..n] == xs[..n][i := v];
    } else {
      assert xs[i := v][..n] == xs[..n];
    }
  }

  /** Pushes still to come count twice, items still to be taken once. */
  function Weight(s: State, i: nat): nat
    requires Bounded(s) && i < |s.scripts|
  {
    2 * (|s.scripts[i]| - s.produced[i] + if s.ended[i] then 0 else 1) + |s.queues[i]|
  }

  function Weights(s: State): seq<nat>
    requires Bounded(s)
  {
    seq(|s.scripts|, i requires 0 <= i < |s.scripts| => Weight(s, i))
  }

  predicate Bounded(s: State) {
    Sized(s) && forall i :: 0 <= i < |s.scripts| ==> s.produced[i] <= |s.scripts[i]|
  }

  ghost predicate Moves(s: State, e: Event)
    requires Sized(s)
  {
    match e
    case Produce(i) => CanProduce(s, i)
    case Stop(i) => CanStop(s, i)
    case Drain => !s.done && s.queues[s.current] != []
    case Cancel => false
  }

  lemma OnlyOneChanges(s: State, r: State, k: nat)
    requires Bounded(s) && Bounded(r) && |s.scripts| == |r.scripts| && k < |s.scripts|
    requires forall i :: 0 <= i < |s.scripts| && i != k ==> Weight(r, i) == Weight(s, i)
    ensures Sum(Weights(r)) + Weight(s, k) == Sum(Weights(s)) + Weight(r, k)
  {
    assert Weights(r) == Weights(s)[k := Weight(r, k)];
    SumUpdate(Weights(s), k, Weight(r, k));
  }

  lemma ProducerUses(s: State, e: Event)
    requires Bounded(s) && (e.Produce? || e.Stop?) && Moves(s, e)
    ensures Bounded(Apply(s, e)) && Sum(Weights(Apply(s, e))) < Sum(Weights(s))
  {
    OnlyOneChanges(s, Apply(s, e), e.i);
  }

  lemma DrainUses(s: State)
    requires Bounded(s) && Moves(s, Drain)
    ensures Bounded(TakeItem(s)) && Sum(Weights(TakeItem(s))) < Sum(Weights(s))
  {
    var r := TakeItem(s);
    assert r.scripts == s.scripts && r.produced == s.produced && r.ended == s.ended;
    assert r.queues == s.queues[s.current := s.queues[s.current][1..]];
    OnlyOneChanges(s, r, s.current);
  }

  lemma MoveUses(s: State, e: Event)
    requires Bounded(s)
    ensures Bounded(Apply(s, e))
    ensures Sum(Weights(Apply(s, e))) + (if Moves(s, e) then 1 else 0) <= Sum(Weights(s))
  {
    if Moves(s, e) {
      if e.Drain? { DrainUses(s); } else { ProducerUses(s, e); }
    } else {
      assert Weights(Apply(s, e)) == Weights(s);
    }
  }

  /** How many events of a run did something. */
  ghost function Effective(scripts: seq<seq<Pcm>>, prefetch: int, events: seq<Event>): nat {
    if events == [] then 0
    else
      var before := events[..|events| - 1];
      Effective(scripts, prefetch, before)
          + if Moves(After(scripts, prefetch, before), events[|events| - 1]) then 1 else 0
  }

  /** Every run comes to rest: only so many events can do anything. */
  lemma {:induction false} RunsComeToRest(scripts: seq<seq<Pcm>>, prefetch: int, events: seq<Event>)
    ensures Bounded(After(scripts, prefetch, events))
    ensures Effective(scripts, prefetch, events)
            + Sum(Weights(After(scripts, prefetch, events))) <= Sum(Weights(Start(scripts, prefetch)))
  {
    if events != [] {
      var before := events[..|events| - 1];
      RunsComeToRest(scripts, prefetch, before);
      MoveUses(After(scripts, prefetch, before), events[|events| - 1]);
    }
  }
}
