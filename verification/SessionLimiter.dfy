/**
  app/core/session_limiter.py with the shadow counter of app/core/metrics.py, which is updated
  outside the limiter's lock.
*/
module SessionLimiter {

  // Lock-held regions

  /** The limiter's count after one admission attempt, and whether it was granted. */
  function Admit(active: int, limit: int): (int, bool) {
    if active >= limit then (active, false) else (active + 1, true)
  }

  /** The limiter's count after one release call, clamp included. */
  function GiveBack(active: int, released: bool): int {
    if released then active else if active > 0 then active - 1 else active
  }

  /** The metric after a decrement, clamp included. */
  function CountDown(shadow: int): int {
    if shadow > 0 then shadow - 1 else shadow
  }

  class Token {
    var released: bool

    constructor ()
      ensures !released
    {
      released := false;
    }
  }

  class Limiter {
    const limit: int
    var active: int

    constructor (limit: int)
      requires limit > 0
      ensures this.limit == limit && active == 0
    {
      this.limit, active := limit, 0;
    }

    method TryAcquire() returns (granted: bool)
      modifies this
      ensures (active, granted) == Admit(old(active), limit)
    {
      if active >= limit {
        return false;
      }
      active := active + 1;
      return true;
    }

    /** The locked part of a release; the metric is told only when it returns true. */
    method Release(token: Token) returns (first: bool)
      modifies this`active, token
      ensures active == GiveBack(old(active), old(token.released)) && token.released && first == !old(token.released)
    {
      if token.released {
        return false;
      }
      token.released := true;
      if active > 0 {
        active := active - 1;
      }
      return true;
    }

    method Available() returns (n: int)
      ensures n == if limit - active > 0 then limit - active else 0
    {
      n := if limit - active > 0 then limit - active else 0;
    }
  }

  class SessionMetric {
    var sessionsActive: int

    method Increment() returns (value: int)
      modifies this
      ensures sessionsActive == old(sessionsActive) + 1 == value
    {
      sessionsActive := sessionsActive + 1;
      return sessionsActive;
    }

    method Decrement() returns (value: int)
      modifies this
      ensures sessionsActive == CountDown(old(sessionsActive)) == value
    {
      if sessionsActive > 0 {
        sessionsActive := sessionsActive - 1;
      }
      return sessionsActive;
    }
  }

  // All interleavings

  /** A token: granted but not yet counted up, handed out, released but not yet counted down, done. */
  datatype Stage = Granted | Live | Released | Done

  datatype State = State(limit: int, active: int, shadow: int, tokens: seq<Stage>)

  datatype Event = TryAcquire | CountUp(t: nat) | Release(t: nat) | CountedDown(t: nat)

  /** A token is handed out after its count-up; any number of releases of it may race. */
  function Apply(s: State, e: Event): State {
    match e
    case TryAcquire =>
      var (active, granted) := Admit(s.active, s.limit);
      s.(active := active, tokens := if granted then s.tokens + [Granted] else s.tokens)
    case CountUp(t) =>
      if t < |s.tokens| && s.tokens[t] == Granted then s.(shadow := s.shadow + 1, tokens := s.tokens[t := Live]) else s
    case Release(t) =>
      if t < |s.tokens| && s.tokens[t] != Granted then
        var released := s.tokens[t] != Live;
        s.(active := GiveBack(s.active, released), tokens := if released then s.tokens else s.tokens[t := Released])
      else s
    case CountedDown(t) =>
      if t < |s.tokens| && s.tokens[t] == Released
      then s.(shadow := CountDown(s.shadow), tokens := s.tokens[t := Done])
      else s
  }

  function After(limit: int, events: seq<Event>): State {
    if events == [] then State(limit, 0, 0, [])
    else Apply(After(limit, events[..|events| - 1]), events[|events| - 1])
  }

  function Count(tokens: seq<Stage>, stages: set<Stage>): nat {
    if tokens == [] then 0
    else Count(tokens[..|tokens| - 1], stages) + if tokens[|tokens| - 1] in stages then 1 else 0
  }

  lemma CountAppend(tokens: seq<Stage>, x: Stage, stages: set<Stage>)
    ensures Count(tokens + [x], stages) == Count(tokens, stages) + if x in stages then 1 else 0
  {
  }

  lemma {:induction false} CountUpdate(tokens: seq<Stage>, t: nat, x: Stage, stages: set<Stage>)
    requires t < |tokens|
    ensures Count(tokens[t := x], stages) + (if tokens[t] in stages then 1 else 0)
            == Count(tokens, stages) + if x in stages then 1 else 0
  {
    var n := |tokens| - 1;
    if t < n {
      CountUpdate(tokens[..n], t, x, stages);
      assert tokens[t := x][..n] == tokens[..n][t := x];
    } else {
      assert tokens[t := x][..n] == tokens[..n];
    }
  }

  lemma {:induction false} CountSplit(tokens: seq<Stage>, a: set<Stage>, b: set<Stage>)
    requires a !! b
    ensures Count(tokens, a + b) == Count(tokens, a) + Count(tokens, b)
  {
    if tokens != [] { CountSplit(tokens[..|tokens| - 1], a, b); }
  }

  lemma {:induction false} CountPositive(tokens: seq<Stage>, t: nat, stages: set<Stage>)
    requires t < |tokens| && tokens[t] in stages
    ensures Count(tokens, stages) > 0
  {
    if t < |tokens| - 1 { CountPositive(tokens[..|tokens| - 1], t, stages); }
  }

  predicate Balanced(s: State) {
    && s.active == Count(s.tokens, {Granted, Live})
    && s.shadow == Count(s.tokens, {Live, Released})
    && s.active <= s.limit
  }

  lemma GrantBalanced(s: State)
    requires Balanced(s)
    ensures Balanced(Apply(s, TryAcquire))
  {
    CountAppend(s.tokens, Granted, {Granted, Live});
    CountAppend(s.tokens, Granted, {Live, Released});
  }

  /** Moving one token changes each count by what the stages say. */
  lemma MoveCounts(tokens: seq<Stage>, t: nat, x: Stage)
    requires t < |tokens|
    ensures Count(tokens[t := x], {Granted, Live}) - Count(tokens, {Granted, Live})
            == (if x == Granted || x == Live then 1 else 0)
               - (if tokens[t] == Granted || tokens[t] == Live then 1 else 0)
    ensures Count(tokens[t := x], {Live, Released}) - Count(tokens, {Live, Released})
            == (if x == Live || x == Released then 1 else 0)
               - (if tokens[t] == Live || tokens[t] == Released then 1 else 0)
  {
    CountUpdate(tokens, t, x, {Granted, Live});
    CountUpdate(tokens, t, x, {Live, Released});
  }

  lemma MoveBalanced(s: State, e: Event)
    requires Balanced(s) && !e.TryAcquire? && e.t < |s.tokens|
    ensures Balanced(Apply(s, e))
  {
    MoveCounts(s.tokens, e.t, if e.CountUp? then Live else if e.Release? then Released else Done);
    if s.tokens[e.t] == Live { CountPositive(s.tokens, e.t, {Granted, Live}); }
    if s.tokens[e.t] == Released { CountPositive(s.tokens, e.t, {Live, Released}); }
  }

  lemma BalancedStep(s: State, e: Event)
    requires Balanced(s)
    ensures Balanced(Apply(s, e)) && Apply(s, e).limit == s.limit
  {
    if e.TryAcquire? {
      GrantBalanced(s);
    } else if e.t < |s.tokens| {
      MoveBalanced(s, e);
    }
  }

  lemma {:induction false} AlwaysBalanced(limit: int, events: seq<Event>)
    requires limit > 0
    ensures Balanced(After(limit, events)) && After(limit, events).limit == limit
  {
    if events != [] {
      AlwaysBalanced(limit, events[..|events| - 1]);
      BalancedStep(After(limit, events[..|events| - 1]), events[|events| - 1]);
    }
  }

  /** Active counts the granted, unreleased tokens and stays within 0 and the limit, whatever releases race. */
  lemma ActiveCountsUnreleased(limit: int, events: seq<Event>)
    requires limit > 0
    ensures var s := After(limit, events);
      s.active == Count(s.tokens, {Granted, Live}) && 0 <= s.active <= limit
  {
    AlwaysBalanced(limit, events);
  }

  /**
    The metric is off by the grants not yet counted up and the releases not yet counted down; with none
    pending it agrees.
  */
  lemma ShadowDiffers(limit: int, events: seq<Event>)
    requires limit > 0
    ensures var s := After(limit, events);
      && s.shadow == s.active - Count(s.tokens, {Granted}) + Count(s.tokens, {Released})
      && (Count(s.tokens, {Granted, Released}) == 0 ==> s.shadow == s.active)
  {
    var s := After(limit, events);
    AlwaysBalanced(limit, events);
    CountSplit(s.tokens, {Granted}, {Live});
    CountSplit(s.tokens, {Live}, {Released});
    CountSplit(s.tokens, {Granted}, {Released});
    assert {Granted} + {Live} == {Granted, Live} && {Live} + {Released} == {Live, Released};
    assert {Granted} + {Released} == {Granted, Released};
  }

  /** Neither clamp ever acts: a first release finds active positive, a count-down finds the metric positive. */
  lemma ClampsNeverAct(limit: int, events: seq<Event>, t: nat)
    requires limit > 0 && t < |After(limit, events).tokens|
    ensures var s := After(limit, events);
      && (s.tokens[t] == Live ==> Apply(s, Event.Release(t)).active == s.active - 1 >= 0)
      && (s.tokens[t] == Released ==> Apply(s, CountedDown(t)).shadow == s.shadow - 1 >= 0)
  {
    var s := After(limit, events);
    AlwaysBalanced(limit, events);
    if s.tokens[t] == Live { CountPositive(s.tokens, t, {Granted, Live}); }
    if s.tokens[t] == Released { CountPositive(s.tokens, t, {Live, Released}); }
  }
}
