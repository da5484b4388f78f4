/** What the trim keeps: whole turns, as many as fit, with intact tool rounds; and what rollback restores. */
module SessionTrim {
  import opened SessionHistory
  import opened Wrappers

  // Turns partition the history

  predicate IsTurn(t: seq<Message>) {
    t != [] && t[0].role == User && forall i :: 0 < i < |t| ==> t[i].role != User
  }

  /** The turns make up s, each starts with its only user message. */
  predicate Partition(turns: seq<seq<Message>>, s: seq<Message>) {
    Flatten(turns) == s && forall k :: 0 <= k < |turns| ==> IsTurn(turns[k])
  }

  /** The grouping partitions a history that starts with a user message. */
  lemma {:induction false} TurnsPartition(h: seq<Message>)
    requires h != [] ==> h[0].role == User
    ensures Partition(Turns(h), h)
  {
    if h != [] {
      var n := 1 + Lead(h[1..]);
      TurnsPartition(h[n..]);
      FirstIsTurn(h);
      assert h == h[..n] + h[n..];
    }
  }

  lemma FirstIsTurn(h: seq<Message>)
    requires h != [] && h[0].role == User
    ensures IsTurn(h[..1 + Lead(h[1..])])
  {
  }

  /** There is only one such partition. */
  lemma {:induction false} PartitionUnique(turns: seq<seq<Message>>, s: seq<Message>)
    requires Partition(turns, s)
    ensures s != [] ==> s[0].role == User
    ensures Turns(s) == turns
  {
    if turns != [] {
      var rest := Flatten(turns[1..]);
      PartitionUnique(turns[1..], rest);
      assert s == turns[0] + rest;
      LeadOfTurn(turns[0], rest);
      assert s[|turns[0]|..] == rest && s[..|turns[0]|] == turns[0];
    }
  }

  lemma {:induction false} LeadIs(s: seq<Message>, n: nat)
    requires n <= |s| && (n < |s| ==> s[n].role == User)
    requires forall i :: 0 <= i < n ==> s[i].role != User
    ensures Lead(s) == n
  {
  }

  lemma LeadOfTurn(t: seq<Message>, rest: seq<Message>)
    requires IsTurn(t) && (rest != [] ==> rest[0].role == User)
    ensures Lead((t + rest)[1..]) == |t| - 1
  {
    var s := (t + rest)[1..];
    forall i | 0 <= i < |t| - 1 ensures s[i].role != User {
      assert s[i] == t[i + 1];
    }
    LeadIs(s, |t| - 1);
  }

  lemma {:induction false} FlattenSuffix(turns: seq<seq<Message>>, d: nat)
    requires d <= |turns|
    ensures |Flatten(turns[d..])| <= |Flatten(turns)|
    ensures Flatten(turns[d..]) == Flatten(turns)[|Flatten(turns)| - |Flatten(turns[d..])|..]
  {
    if d == 0 {
      assert turns[0..] == turns;
    } else {
      DropDrop(turns, 1, d - 1);
      FlattenSuffix(turns[1..], d - 1);
      SuffixOfSuffix(turns[0], Flatten(turns[1..]), Flatten(turns[d..]));
    }
  }

  lemma SuffixOfSuffix<T>(a: seq<T>, b: seq<T>, x: seq<T>)
    requires |x| <= |b| && x == b[|b| - |x|..]
    ensures x == (a + b)[|a + b| - |x|..]
  {
  }

  lemma DropDrop<T>(s: seq<T>, a: nat, b: nat)
    requires a + b <= |s|
    ensures s[a..][b..] == s[a + b..]
  {
  }

  /** Dropping d of the turns of s leaves a suffix of s that starts with a user message and has the other turns. */
  lemma SuffixPartition(turns: seq<seq<Message>>, s: seq<Message>, d: nat)
    requires Partition(turns, s) && d < |turns|
    ensures var kept := Flatten(turns[d..]);
      && |kept| <= |s| && kept == s[|s| - |kept|..]
      && kept != [] && kept[0].role == User && Partition(turns[d..], kept) && Turns(kept) == turns[d..]
  {
    FlattenSuffix(turns, d);
    assert IsTurn(turns[d..][0]);
    PartitionUnique(turns[d..], Flatten(turns[d..]));
  }

  // Token sums

  lemma {:induction false} TokensConcat(c: Counter, a: seq<Message>, b: seq<Message>)
    ensures Tokens(c, a + b) == Tokens(c, a) + Tokens(c, b)
  {
    if a == [] {
      assert a + b == b;
    } else {
      assert (a + b)[1..] == a[1..] + b;
      TokensConcat(c, a[1..], b);
    }
  }

  lemma {:induction false} FlattenTokens(c: Counter, turns: seq<seq<Message>>)
    ensures Tokens(c, Flatten(turns)) == SumTokens(c, turns)
  {
    if turns != [] {
      TokensConcat(c, turns[0], Flatten(turns[1..]));
      FlattenTokens(c, turns[1..]);
    }
  }

  lemma {:induction false} SumAppend(c: Counter, turns: seq<seq<Message>>, last: seq<Message>)
    ensures SumTokens(c, turns + [last]) == SumTokens(c, turns) + Tokens(c, last)
  {
    if turns == [] {
      assert turns + [last] == [last];
    } else {
      assert (turns + [last])[1..] == turns[1..] + [last];
      SumAppend(c, turns[1..], last);
    }
  }

  lemma {:induction false} FlattenAppend(turns: seq<seq<Message>>, last: seq<Message>)
    ensures Flatten(turns + [last]) == Flatten(turns) + last
  {
    if turns == [] {
      assert turns + [last] == [last] && Flatten([last]) == last + [];
    } else {
      assert (turns + [last])[1..] == turns[1..] + [last];
      FlattenAppend(turns[1..], last);
    }
  }

  // The least number of turns

  /** Pinning the last turn and keeping none of the others is the same as keeping one turn. */
  lemma {:induction false} DropPinned(c: Counter, closed: seq<seq<Message>>, last: seq<Message>, total: int,
                                      budget: int)
    ensures DropTurns(c, closed, total, budget, 0) == DropTurns(c, closed + [last], total, budget, 1)
    ensures DropTurns(c, closed, total, budget, 0) <= |closed|
    ensures Flatten(closed[DropTurns(c, closed, total, budget, 0)..]) + last
            == Flatten((closed + [last])[DropTurns(c, closed, total, budget, 0)..])
  {
    var d := DropTurns(c, closed, total, budget, 0);
    assert (closed + [last])[d..] == closed[d..] + [last];
    FlattenAppend(closed[d..], last);
    if closed != [] && total > budget {
      assert (closed + [last])[1..] == closed[1..] + [last];
      DropPinned(c, closed[1..], last, total - Tokens(c, closed[0]), budget);
    }
  }

  /** The turns from number k on exceed the budget. */
  predicate Over(c: Counter, turns: seq<seq<Message>>, k: nat, budget: int)
    requires k <= |turns|
  {
    SumTokens(c, turns[k..]) > budget
  }

  lemma OverShift(c: Counter, turns: seq<seq<Message>>, k: nat, budget: int)
    requires k < |turns|
    ensures Over(c, turns[1..], k, budget) == Over(c, turns, k + 1, budget)
  {
  }

  lemma OverAll(c: Counter, turns: seq<seq<Message>>, budget: int)
    ensures Over(c, turns, 0, budget) <==> SumTokens(c, turns) > budget
  {
  }

  lemma {:induction false} DropLeast(c: Counter, turns: seq<seq<Message>>, budget: int)
    requires turns != []
    ensures var d := DropTurns(c, turns, SumTokens(c, turns), budget, 1);
      && d < |turns|
      && (!Over(c, turns, d, budget) || d == |turns| - 1)
      && forall k :: 0 <= k < d ==> Over(c, turns, k, budget)
  {
    OverAll(c, turns, budget);
    if SumTokens(c, turns) > budget && |turns| > 1 {
      DropLeast(c, turns[1..], budget);
      var d := DropTurns(c, turns, SumTokens(c, turns), budget, 1);
      OverShift(c, turns, d - 1, budget);
      forall k | 0 < k < d ensures Over(c, turns, k, budget) {
        OverShift(c, turns, k - 1, budget);
      }
    }
  }

  /** The history from its first user message. */
  function Dialogue(h: seq<Message>): seq<Message> {
    h[Lead(h)..]
  }

  predicate HasUser(h: seq<Message>) {
    Lead(h) < |h|
  }

  predicate OverBudget(c: Counter, h: seq<Message>, budget: int) {
    Tokens(c, Dialogue(h)) > budget
  }

  lemma DropOverPinned(c: Counter, h: seq<Message>, closed: seq<seq<Message>>, last: seq<Message>, budget: int)
    requires last != []
    ensures var turns := closed + [last];
      var d := DropTurns(c, turns, SumTokens(c, turns), budget, 1);
      DropOver(c, h, closed, last, budget)
      == if SumTokens(c, turns) <= budget then Trimmed(h, false) else Trimmed(Flatten(turns[d..]), d > 0)
  {
    SumAppend(c, closed, last);
    DropPinned(c, closed, last, SumTokens(c, closed + [last]), budget);
  }

  lemma DropOverClosed(c: Counter, h: seq<Message>, turns: seq<seq<Message>>, budget: int)
    ensures var d := DropTurns(c, turns, SumTokens(c, turns), budget, 1);
      DropOver(c, h, turns, [], budget)
      == if SumTokens(c, turns) <= budget then Trimmed(h, false) else Trimmed(Flatten(turns[d..]), d > 0)
  {
  }

  /** Pinned or not, the last turn stays; the result is what remains after dropping the least number of turns. */
  lemma TrimTurnsForm(c: Counter, h: seq<Message>, turns: seq<seq<Message>>, budget: int)
    requires turns != [] && turns[|turns| - 1] != []
    ensures var d := DropTurns(c, turns, SumTokens(c, turns), budget, 1);
      TrimTurns(c, h, turns, budget)
      == if SumTokens(c, turns) <= budget then Trimmed(h, false) else Trimmed(Flatten(turns[d..]), d > 0)
  {
    var n := |turns| - 1;
    if Complete(turns[n]) {
      DropOverClosed(c, h, turns, budget);
    } else {
      DropOverPinned(c, h, turns[..n], turns[n], budget);
      assert turns == turns[..n] + [turns[n]];
    }
  }

  lemma TrimForm(c: Counter, h: seq<Message>, budget: int, turns: seq<seq<Message>>)
    requires HasUser(h) && turns == Turns(Dialogue(h))
    ensures turns != [] && Partition(turns, Dialogue(h)) && Tokens(c, Dialogue(h)) == SumTokens(c, turns)
    ensures var d := DropTurns(c, turns, SumTokens(c, turns), budget, 1);
      Trim(c, h, budget)
      == if SumTokens(c, turns) <= budget then Trimmed(h, false) else Trimmed(Flatten(turns[d..]), d > 0)
  {
    TurnsPartition(Dialogue(h));
    FlattenTokens(c, turns);
    assert IsTurn(turns[|turns| - 1]);
    TrimTurnsForm(c, h, turns, budget);
  }

  lemma SuffixThrough<T>(h: seq<T>, lead: nat, x: seq<T>)
    requires lead <= |h| && |x| <= |h| - lead && x == h[lead..][|h| - lead - |x|..]
    ensures x == h[|h| - |x|..]
  {
  }

  /** kept is the part of h from one of its user messages on. */
  predicate UserSuffix(kept: seq<Message>, h: seq<Message>) {
    kept != [] && |kept| <= |h| && kept == h[|h| - |kept|..] && kept[0].role == User
  }

  lemma TurnsFromUser(turns: seq<seq<Message>>, h: seq<Message>, d: nat)
    requires Partition(turns, Dialogue(h)) && d < |turns|
    ensures UserSuffix(Flatten(turns[d..]), h) && Turns(Flatten(turns[d..])) == turns[d..]
  {
    SuffixPartition(turns, Dialogue(h), d);
    SuffixThrough(h, Lead(h), Flatten(turns[d..]));
  }

  /**
    Over budget, the result is a suffix of the history that starts with a user message, and the
    number of turns dropped is the least that fits the budget or leaves one turn.
  */
  lemma TrimDropsLeast(c: Counter, h: seq<Message>, budget: int, turns: seq<seq<Message>>)
    requires HasUser(h) && OverBudget(c, h, budget) && turns == Turns(Dialogue(h))
    ensures turns != []
    ensures var d, kept := DropTurns(c, turns, SumTokens(c, turns), budget, 1), Trim(c, h, budget).kept;
      && d < |turns| && UserSuffix(kept, h)
      && Turns(kept) == turns[d..] && Tokens(c, kept) == SumTokens(c, turns[d..])
      && (Tokens(c, kept) <= budget || d == |turns| - 1)
      && forall k :: 0 <= k < d ==> Over(c, turns, k, budget)
  {
    TrimForm(c, h, budget, turns);
    var d := DropTurns(c, turns, SumTokens(c, turns), budget, 1);
    DropLeast(c, turns, budget);
    FlattenTokens(c, turns[d..]);
    TurnsFromUser(turns, h, d);
  }

  lemma TrimIsSuffix(c: Counter, h: seq<Message>, budget: int)
    requires HasUser(h)
    ensures var kept := Trim(c, h, budget).kept; kept == h || UserSuffix(kept, h)
  {
    var turns := Turns(Dialogue(h));
    TrimForm(c, h, budget, turns);
    if OverBudget(c, h, budget) {
      TrimDropsLeast(c, h, budget, turns);
    }
  }

  // The fallback

  lemma {:induction false} DropMessagesLeast(c: Counter, h: seq<Message>, budget: int)
    ensures var d := DropMessages(c, h, budget);
      && (Tokens(c, h[d..]) <= budget || d == |h|)
      && forall k :: 0 <= k < d ==> Tokens(c, h[k..]) > budget
  {
    assert h[0..] == h;
    if h != [] && Tokens(c, h) > budget {
      DropMessagesLeast(c, h[1..], budget);
      var d := DropMessages(c, h, budget);
      assert h[1..][d - 1..] == h[d..];
      forall k | 0 < k < d ensures Tokens(c, h[k..]) > budget {
        assert h[1..][k - 1..] == h[k..];
      }
    }
  }

  /** Without user messages the longest suffix that fits is kept. */
  lemma FallbackKeepsLongest(c: Counter, h: seq<Message>, budget: int)
    requires !HasUser(h) && h != []
    ensures var kept := Trim(c, h, budget).kept;
      var d: nat := |h| - |kept|;
      && |kept| <= |h| && kept == h[d..]
      && (budget >= 0 ==> Tokens(c, kept) <= budget)
      && forall k :: 0 <= k < d ==> Tokens(c, h[k..]) > budget
  {
    assert Dialogue(h) == [];
    DropMessagesLeast(c, h, budget);
    assert h[0..] == h && h[|h|..] == [];
  }

  // Budget

  /** The trim meets the budget exactly when the pinned part does: the last turn when over budget, else everything. */
  lemma TrimFitsIff(c: Counter, h: seq<Message>, budget: int, turns: seq<seq<Message>>)
    requires HasUser(h) && turns == Turns(Dialogue(h))
    ensures turns != []
    ensures Tokens(c, Trim(c, h, budget).kept) <= budget <==>
              if OverBudget(c, h, budget) then Tokens(c, turns[|turns| - 1]) <= budget else Tokens(c, h) <= budget
  {
    TrimForm(c, h, budget, turns);
    if OverBudget(c, h, budget) {
      TrimDropsLeast(c, h, budget, turns);
      SuffixLast(c, turns, DropTurns(c, turns, SumTokens(c, turns), budget, 1));
    }
  }

  lemma SuffixLast(c: Counter, turns: seq<seq<Message>>, d: nat)
    requires d < |turns|
    ensures Tokens(c, turns[|turns| - 1]) <= SumTokens(c, turns[d..])
    ensures d == |turns| - 1 ==> SumTokens(c, turns[d..]) == Tokens(c, turns[|turns| - 1])
  {
    LastTurnWithin(c, turns[d..]);
    assert turns[d..][|turns| - d - 1] == turns[|turns| - 1];
  }

  lemma {:induction false} LastTurnWithin(c: Counter, turns: seq<seq<Message>>)
    requires turns != []
    ensures Tokens(c, turns[|turns| - 1]) <= SumTokens(c, turns)
    ensures |turns| == 1 ==> SumTokens(c, turns) == Tokens(c, turns[0])
  {
    if |turns| > 1 { LastTurnWithin(c, turns[1..]); }
  }

  /** A history that starts with a user message fits after trimming exactly when its last turn alone fits. */
  lemma UserFirstFitsIff(c: Counter, h: seq<Message>, budget: int, turns: seq<seq<Message>>)
    requires h != [] && h[0].role == User && turns == Turns(h)
    ensures turns != []
    ensures Tokens(c, Trim(c, h, budget).kept) <= budget <==> Tokens(c, turns[|turns| - 1]) <= budget
  {
    LeadZero(h);
    TrimFitsIff(c, h, budget, turns);
    TrimForm(c, h, budget, turns);
    LastTurnWithin(c, turns);
  }

  /** A leading reply is not counted: here the history is kept and exceeds the budget although its only turn fits. */
  lemma LeadingReplyExceeds(c: Counter)
    ensures var h := [AssistantSays([]), UserSays([])];
      && Trim(c, h, Budget(6)).kept == h && Tokens(c, h) == 8 > Budget(6)
      && Turns(Dialogue(h)) == [[UserSays([])]] && Tokens(c, [UserSays([])]) == 4 <= Budget(6)
  {
    var a, u := AssistantSays([]), UserSays([]);
    var h := [a, u];
    assert h[1..] == [u] && [u][1..] == [] && [u][..1] == [u] && [u][0..] == [u];
    LeadIs(h, 1);
    assert MsgTokens(c, u) == 4 && MsgTokens(c, a) == 4;
    assert Tokens(c, [u]) == MsgTokens(c, u) + Tokens(c, [u][1..]);
    assert Tokens(c, h) == MsgTokens(c, a) + Tokens(c, h[1..]);
    assert Turns([u]) == [[u]] + Turns([]);
    TrimForm(c, h, Budget(6), [[u]]);
    FlattenTokens(c, [[u]]);
  }

  // Idempotence

  lemma LeadZero(h: seq<Message>)
    requires h != [] && h[0].role == User
    ensures Lead(h) == 0 && Dialogue(h) == h && HasUser(h)
  {
  }

  lemma TrimIdempotent(c: Counter, h: seq<Message>, budget: int)
    ensures Trim(c, Trim(c, h, budget).kept, budget) == Trimmed(Trim(c, h, budget).kept, false)
  {
    if HasUser(h) {
      TrimForm(c, h, budget, Turns(Dialogue(h)));
      if OverBudget(c, h, budget) {
        RetrimUsers(c, h, budget, Turns(Dialogue(h)));
      }
    } else if h != [] {
      RetrimFallback(c, h, budget);
    }
  }

  lemma RetrimUsers(c: Counter, h: seq<Message>, budget: int, turns: seq<seq<Message>>)
    requires HasUser(h) && OverBudget(c, h, budget) && turns == Turns(Dialogue(h))
    ensures Trim(c, Trim(c, h, budget).kept, budget) == Trimmed(Trim(c, h, budget).kept, false)
  {
    TrimDropsLeast(c, h, budget, turns);
    var kept := Trim(c, h, budget).kept;
    LeadZero(kept);
    RetrimKept(c, kept, budget, Turns(kept));
  }

  /** What fits, or is a single turn, is not trimmed. */
  lemma RetrimKept(c: Counter, kept: seq<Message>, budget: int, turns: seq<seq<Message>>)
    requires HasUser(kept) && Dialogue(kept) == kept && turns == Turns(kept)
    requires Tokens(c, kept) <= budget || |turns| == 1
    ensures Trim(c, kept, budget) == Trimmed(kept, false)
  {
    TrimForm(c, kept, budget, turns);
    assert turns[0..] == turns;
  }

  lemma RetrimFallback(c: Counter, h: seq<Message>, budget: int)
    requires !HasUser(h) && h != []
    ensures Trim(c, Trim(c, h, budget).kept, budget) == Trimmed(Trim(c, h, budget).kept, false)
  {
    var kept := Trim(c, h, budget).kept;
    FallbackForm(c, h, budget);
    NoUserSuffix(h, DropMessages(c, h, budget));
    if kept != [] {
      NonEmptyFits(c, h, budget);
      WithinBudgetKept(c, kept, budget);
    }
  }

  lemma NoUserSuffix(h: seq<Message>, d: nat)
    requires !HasUser(h) && d <= |h|
    ensures !HasUser(h[d..])
  {
    assert forall i :: 0 <= i < |h[d..]| ==> h[d..][i] == h[d + i];
  }

  lemma WithinBudgetKept(c: Counter, kept: seq<Message>, budget: int)
    requires !HasUser(kept) && kept != [] && Tokens(c, kept) <= budget
    ensures Trim(c, kept, budget) == Trimmed(kept, false)
  {
    assert Dialogue(kept) == [];
  }

  lemma NonEmptyFits(c: Counter, h: seq<Message>, budget: int)
    requires !HasUser(h) && h != [] && Trim(c, h, budget).kept != []
    ensures Tokens(c, Trim(c, h, budget).kept) <= budget
  {
    assert Dialogue(h) == [];
    DropMessagesLeast(c, h, budget);
  }

  // Tool rounds

  predicate Issues(a: Message, t: Message) {
    a.role == Assistant && exists k :: 0 <= k < |a.calls| && t.callId == Some(a.calls[k].id)
  }

  /** Message i has its issuing assistant message at j, in the same turn. */
  predicate AnsweredBy(h: seq<Message>, i: nat, j: nat) {
    j < i < |h| && Issues(h[j], h[i]) && forall k :: j < k < i ==> h[k].role != User
  }

  /** Every tool message follows, in its turn, the assistant message that issued its call. */
  ghost predicate Rounds(h: seq<Message>) {
    forall i :: 0 <= i < |h| && h[i].role == Tool ==> exists j :: AnsweredBy(h, i, j)
  }

  lemma IssuedAfter(h: seq<Message>, cut: nat, i: nat, j: nat)
    requires cut < i < |h| && h[cut].role == User && AnsweredBy(h, i, j)
    ensures cut < j
  {
  }

  lemma SuffixRounds(h: seq<Message>, cut: nat)
    requires Rounds(h) && cut < |h| && h[cut].role == User
    ensures Rounds(h[cut..])
  {
    var s := h[cut..];
    forall i | 0 <= i < |s| && s[i].role == Tool ensures exists j :: AnsweredBy(s, i, j) {
      assert i > 0 && h[cut + i] == s[i];
      var j: nat :| AnsweredBy(h, cut + i, j);
      IssuedAfter(h, cut, cut + i, j);
      assert AnsweredBy(s, i, j - cut);
    }
  }

  /** Trimming a history that has a user message keeps its tool rounds whole. */
  lemma TrimKeepsRounds(c: Counter, h: seq<Message>, budget: int)
    requires HasUser(h) && Rounds(h)
    ensures Rounds(Trim(c, h, budget).kept)
  {
    TrimIsSuffix(c, h, budget);
    KeptRounds(Trim(c, h, budget).kept, h);
  }

  lemma KeptRounds(kept: seq<Message>, h: seq<Message>)
    requires Rounds(h) && (kept == h || UserSuffix(kept, h))
    ensures Rounds(kept)
  {
    if kept != h { SuffixRounds(h, |h| - |kept|); }
  }

  lemma {:induction false} TokensShrink(c: Counter, h: seq<Message>, k: nat, i: nat)
    requires k < i <= |h|
    ensures Tokens(c, h[k..]) > Tokens(c, h[i..])
    decreases i - k
  {
    assert h[k..][1..] == h[k + 1..];
    if k + 1 < i { TokensShrink(c, h, k + 1, i); }
  }

  lemma FallbackForm(c: Counter, h: seq<Message>, budget: int)
    requires !HasUser(h) && h != []
    ensures Trim(c, h, budget).kept == h[DropMessages(c, h, budget)..]
  {
  }

  lemma CutUnique(c: Counter, h: seq<Message>, d: nat, i: nat)
    requires d <= |h| && i < |h| && (Tokens(c, h[d..]) <= Tokens(c, h[i..]) || d == |h|)
    requires forall k :: 0 <= k < d ==> Tokens(c, h[k..]) > Tokens(c, h[i..])
    ensures d == i
  {
    if d < i { TokensShrink(c, h, d, i); }
  }

  /** The fallback can cut anywhere: the budget of a suffix keeps exactly that suffix. */
  lemma FallbackCutsAt(c: Counter, h: seq<Message>, i: nat)
    requires !HasUser(h) && i < |h|
    ensures Trim(c, h, Tokens(c, h[i..])).kept == h[i..]
  {
    var budget := Tokens(c, h[i..]);
    FallbackForm(c, h, budget);
    DropMessagesLeast(c, h, budget);
    CutUnique(c, h, DropMessages(c, h, budget), i);
  }

  lemma OrphanFirst(h: seq<Message>)
    requires h != [] && h[0].role == Tool
    ensures !Rounds(h)
  {
  }

  /** Without user messages, every budget keeps the rounds whole exactly when there are no tool messages. */
  lemma FallbackKeepsRoundsIff(c: Counter, h: seq<Message>)
    requires !HasUser(h) && Rounds(h)
    ensures (forall budget: int :: Rounds(Trim(c, h, budget).kept)) <==> forall i :: 0 <= i < |h| ==> h[i].role != Tool
  {
    if i :| 0 <= i < |h| && h[i].role == Tool {
      FallbackCutsAt(c, h, i);
      var s := h[i..];
      OrphanFirst(s);
      assert !Rounds(Trim(c, h, Tokens(c, h[i..])).kept);
    } else {
      forall budget ensures Rounds(Trim(c, h, budget).kept) {
        if h != [] {
          FallbackKeepsLongest(c, h, budget);
        }
      }
    }
  }

  // Rollback

  /** No operation clears the history or rolls back below the anchor. */
  predicate Undisturbed(h: seq<Message>, ops: seq<Op>, anchor: nat)
    decreases |ops|
  {
    ops == [] ||
    (var op := ops[0];
     && !op.Reset?
     && (op.Rollback? ==> op.anchor >= anchor)
     && (op.AddAssistant? ==> !EchoLoop(h + [AssistantSays(op.text)]))
     && Undisturbed(Apply(h, op), ops[1..], anchor))
  }

  /** The length of the shortest history on the way, start and end included. */
  function LowWater(h: seq<Message>, ops: seq<Op>): nat
    decreases |ops|
  {
    if ops == [] then |h|
    else
      var later := LowWater(Apply(h, ops[0]), ops[1..]);
      if later < |h| then later else |h|
  }

  lemma {:induction false} LowWaterStays(h: seq<Message>, ops: seq<Op>)
    ensures LowWater(h, ops) <= |h| && LowWater(h, ops) <= |Run(h, ops)|
    ensures Run(h, ops)[..LowWater(h, ops)] == h[..LowWater(h, ops)]
    decreases |ops|
  {
    if ops != [] {
      var h1 := Apply(h, ops[0]);
      var low := LowWater(h, ops);
      LowWaterStays(h1, ops[1..]);
      assert h1[..low] == h[..low];
      assert Run(h1, ops[1..])[..low] == h1[..low];
    }
  }

  /**
    Exactly when the rollback restores the recorded history: what was cut off below the anchor has
    since been added again, message by message.
  */
  lemma RollbackRestoresIff(h: seq<Message>, ops: seq<Op>)
    ensures var low, now := LowWater(h, ops), Run(h, ops);
      && low <= |h| && low <= |now|
      && (RolledBack(now, |h|) == h <==> |now| >= |h| && now[low..|h|] == h[low..])
  {
    LowWaterStays(h, ops);
    var low, now := LowWater(h, ops), Run(h, ops);
    if |now| >= |h| {
      assert now[..|h|] == now[..low] + now[low..|h|];
      assert h == h[..low] + h[low..];
    }
  }

  /** The history never fell below the anchor exactly when no operation cleared it or rolled back below. */
  lemma {:induction false} UndisturbedIff(h: seq<Message>, ops: seq<Op>, anchor: nat)
    requires 0 < anchor <= |h|
    ensures Undisturbed(h, ops, anchor) <==> LowWater(h, ops) >= anchor
    decreases |ops|
  {
    if ops != [] {
      var h1 := Apply(h, ops[0]);
      if anchor <= |h1| {
        UndisturbedIff(h1, ops[1..], anchor);
      } else {
        LowWaterStays(h1, ops[1..]);
      }
    }
  }

  /** Rolling back to a recorded length restores the recorded history, tool rounds and all. */
  lemma RollbackRestores(h: seq<Message>, ops: seq<Op>)
    requires Undisturbed(h, ops, |h|)
    ensures RolledBack(Run(h, ops), |h|) == h
    ensures Rounds(h) ==> Rounds(RolledBack(Run(h, ops), |h|))
  {
    LowWaterStays(h, ops);
    if h != [] {
      UndisturbedIff(h, ops, |h|);
      assert h[..|h|] == h;
    }
  }

  /** A clear in between breaks this: the recorded length then cuts other messages, here to an orphan tool result. */
  lemma RollbackAfterClear(q: string, id: string, text: string)
    ensures var h := [UserSays(q)];
      var r := RolledBack(Run(h, [Reset, AddToolResult(id, text)]), |h|);
      Rounds(h) && r != h && !Rounds(r)
  {
    var h, ops := [UserSays(q)], [Reset, AddToolResult(id, text)];
    assert ops[1..] == [AddToolResult(id, text)] && ops[1..][1..] == [];
    assert Run(h, ops) == Run([], ops[1..]) == Run([Appended(AddToolResult(id, text))], []);
    var r := Run(h, ops);
    OrphanFirst(r);
  }
}
