/**
  agent/openvoicestream_agent/session.py: the conversation history of one session and its
  token-aware trim.
*/
module SessionHistory {
  import opened Wrappers

  datatype Role = System | User | Assistant | Tool

  datatype ToolCall = ToolCall(id: string, arguments: string)

  datatype Message = Message(role: Role, content: Option<string>, calls: seq<ToolCall>, callId: Option<string>)

  /** The tokenizer: token counts of a text and of serialized tool calls. */
  datatype Counter = Counter(text: string -> nat, calls: seq<ToolCall> -> nat)

  const OVERHEAD: nat := 4
  const ECHO_WINDOW: nat := 3
  const ECHO_MAX_LEN: nat := 40

  function UserSays(text: string): Message {
    Message(User, Some(text), [], None)
  }

  function AssistantSays(text: string): Message {
    Message(Assistant, Some(text), [], None)
  }

  // Tokens

  function MsgTokens(c: Counter, m: Message): (n: nat)
    ensures n >= OVERHEAD
  {
    (if m.content.Some? && m.content.value != [] then c.text(m.content.value) else 0)
      + (if m.calls != [] then c.calls(m.calls) else 0) + OVERHEAD
  }

  function Tokens(c: Counter, h: seq<Message>): nat {
    if h == [] then 0 else MsgTokens(c, h[0]) + Tokens(c, h[1..])
  }

  /** int(max_tokens * 0.75), truncated toward zero. */
  function Budget(max: int): (b: int)
    ensures max >= 0 ==> b >= 0 && 4 * b <= 3 * max < 4 * b + 4
    ensures max < 0 ==> b <= 0 && 4 * b - 4 < 3 * max <= 4 * b
  {
    if max >= 0 then 3 * max / 4 else -(3 * -max / 4)
  }

  // Turns

  /** Number of leading messages that are not from the user. */
  function Lead(h: seq<Message>): (n: nat)
    ensures n <= |h|
    ensures forall i :: 0 <= i < n ==> h[i].role != User
    ensures n < |h| ==> h[n].role == User
  {
    if h == [] || h[0].role == User then 0 else 1 + Lead(h[1..])
  }

  /** A user message and everything up to the next one, repeatedly. */
  function Turns(h: seq<Message>): seq<seq<Message>>
    requires h != [] ==> h[0].role == User
  {
    if h == [] then []
    else
      var n := 1 + Lead(h[1..]);
      [h[..n]] + Turns(h[n..])
  }

  function Flatten(turns: seq<seq<Message>>): seq<Message> {
    if turns == [] then [] else turns[0] + Flatten(turns[1..])
  }

  function SumTokens(c: Counter, turns: seq<seq<Message>>): nat {
    if turns == [] then 0 else Tokens(c, turns[0]) + SumTokens(c, turns[1..])
  }

  /** A turn that ends in a plain assistant reply. */
  predicate Complete(turn: seq<Message>) {
    turn != [] &&
    var m := turn[|turn| - 1];
    m.role == Assistant && m.content.Some? && m.calls == []
  }

  // The trim

  /** How many turns the loop drops from the front. */
  function DropTurns(c: Counter, turns: seq<seq<Message>>, total: int, budget: int, minKeep: nat): (d: nat)
    ensures d <= |turns|
  {
    if total > budget && |turns| > minKeep then
      1 + DropTurns(c, turns[1..], total - Tokens(c, turns[0]), budget, minKeep)
    else 0
  }

  /** How many messages the fallback loop drops from the front. */
  function DropMessages(c: Counter, h: seq<Message>, budget: int): (d: nat)
    ensures d <= |h|
  {
    if h != [] && Tokens(c, h) > budget then 1 + DropMessages(c, h[1..], budget) else 0
  }

  /** The trimmed history, and whether the cached prefix became invalid. */
  datatype Trimmed = Trimmed(kept: seq<Message>, invalidates: bool)

  function Trim(c: Counter, h: seq<Message>, budget: int): Trimmed {
    var turns := Turns(h[Lead(h)..]);
    if h == [] then Trimmed(h, false)
    else if turns == [] then TrimRaw(c, h, budget)
    else TrimTurns(c, h, turns, budget)
  }

  /** The fallback for a history without user messages. */
  function TrimRaw(c: Counter, h: seq<Message>, budget: int): Trimmed {
    if Tokens(c, h) <= budget then Trimmed(h, false) else Trimmed(h[DropMessages(c, h, budget)..], true)
  }

  /** An incomplete last turn is pinned; closed turns are dropped from the front while over budget. */
  function TrimTurns(c: Counter, h: seq<Message>, turns: seq<seq<Message>>, budget: int): Trimmed
    requires turns != []
  {
    var n := |turns| - 1;
    if Complete(turns[n]) then DropOver(c, h, turns, [], budget) else DropOver(c, h, turns[..n], turns[n], budget)
  }

  function DropOver(c: Counter, h: seq<Message>, closed: seq<seq<Message>>, trailing: seq<Message>,
                    budget: int): Trimmed {
    var total := Tokens(c, trailing) + SumTokens(c, closed);
    if total <= budget then Trimmed(h, false)
    else
      var d := DropTurns(c, closed, total, budget, if trailing != [] then 0 else 1);
      Trimmed(Flatten(closed[d..]) + trailing, d > 0)
  }

  // Echo loops

  /** The assistant's replies in order, tool-call-only messages skipped. */
  function Replies(h: seq<Message>): seq<string> {
    if h == [] then []
    else
      var m := h[|h| - 1];
      Replies(h[..|h| - 1]) + if m.role == Assistant && m.content.Some? then [m.content.value] else []
  }

  /** The last three replies are the same short text. */
  predicate EchoLoop(h: seq<Message>) {
    var r := Replies(h);
    var n := |r|;
    n >= ECHO_WINDOW && |r[n - 3]| <= ECHO_MAX_LEN && r[n - 1] == r[n - 3] && r[n - 2] == r[n - 3]
  }

  // The session as a value: what each operation does to the history

  datatype Op =
    | AddUser(text: string)
    | AddAssistant(text: string)
    | AddToolCalls(content: Option<string>, calls: seq<ToolCall>)
    | AddToolResult(id: string, text: string)
    | Rollback(anchor: int)
    | Reset

  function RolledBack(h: seq<Message>, anchor: int): seq<Message> {
    var a := if anchor < 0 then 0 else anchor;
    if a >= |h| then h else h[..a]
  }

  function Appended(op: Op): Message
    requires !op.Rollback? && !op.Reset?
  {
    match op
    case AddUser(text) => UserSays(text)
    case AddAssistant(text) => AssistantSays(text)
    case AddToolCalls(content, calls) => Message(Assistant, content, calls, None)
    case AddToolResult(id, text) => Message(Tool, Some(text), [], Some(id))
  }

  function Apply(h: seq<Message>, op: Op): seq<Message> {
    match op
    case Rollback(anchor) => RolledBack(h, anchor)
    case Reset => []
    case AddAssistant(text) => if EchoLoop(h + [AssistantSays(text)]) then [] else h + [AssistantSays(text)]
    case _ => h + [Appended(op)]
  }

  function Run(h: seq<Message>, ops: seq<Op>): seq<Message>
    decreases |ops|
  {
    if ops == [] then h else Run(Apply(h, ops[0]), ops[1..])
  }

  // The session as an object

  class Session {
    var history: seq<Message>
    var prefixCacheWarmed: bool
    var graphWarmed: bool
    var prefixCacheDisabled: bool
    const maxInputTokens: Option<int>
    const counter: Counter

    constructor (maxInputTokens: Option<int>, counter: Counter)
      ensures history == [] && !prefixCacheWarmed && !graphWarmed && !prefixCacheDisabled
      ensures this.maxInputTokens == maxInputTokens && this.counter == counter
    {
      history, prefixCacheWarmed, graphWarmed, prefixCacheDisabled := [], false, false, false;
      this.maxInputTokens, this.counter := maxInputTokens, counter;
    }

    method Clear()
      modifies this
      ensures history == [] && !prefixCacheWarmed && !graphWarmed && !prefixCacheDisabled
    {
      history, prefixCacheWarmed, graphWarmed, prefixCacheDisabled := [], false, false, false;
    }

    method AddUserMessage(text: string)
      modifies this`history
      ensures history == Apply(old(history), AddUser(text))
    {
      history := history + [UserSays(text)];
    }

    method AddAssistantMessage(text: string)
      modifies this
      ensures history == Apply(old(history), AddAssistant(text)) && !EchoLoop(history)
      ensures var echo := EchoLoop(old(history) + [AssistantSays(text)]);
        && prefixCacheWarmed == (old(prefixCacheWarmed) && !echo)
        && graphWarmed == (old(graphWarmed) && !echo)
        && prefixCacheDisabled == (old(prefixCacheDisabled) && !echo)
    {
      history := history + [AssistantSays(text)];
      RecoverFromEcho();
    }

    method AddAssistantToolCalls(content: Option<string>, calls: seq<ToolCall>)
      modifies this`history
      ensures history == Apply(old(history), AddToolCalls(content, calls))
    {
      history := history + [Message(Assistant, content, calls, None)];
    }

    method AddToolMessage(id: string, text: string)
      modifies this`history
      ensures history == Apply(old(history), AddToolResult(id, text))
    {
      history := history + [Message(Tool, Some(text), [], Some(id))];
    }

    method RollbackTo(anchor: int) returns (dropped: nat)
      modifies this`history
      ensures history == RolledBack(old(history), anchor) && dropped == |old(history)| - |history|
    {
      var a := if anchor < 0 then 0 else anchor;
      if a >= |history| {
        return 0;
      }
      dropped := |history| - a;
      history := history[..a];
    }

    method CollectReplies() returns (r: seq<string>)
      ensures r == Replies(history)
    {
      r := [];
      for i := 0 to |history|
        invariant r == Replies(history[..i])
      {
        var m := history[i];
        assert history[..i + 1][..i] == history[..i];
        if m.role == Assistant && m.content.Some? {
          r := r + [m.content.value];
        }
      }
      assert history[..|history|] == history;
    }

    method RecoverFromEcho()
      modifies this
      ensures history == if EchoLoop(old(history)) then [] else old(history)
      ensures prefixCacheWarmed == (old(prefixCacheWarmed) && !EchoLoop(old(history)))
      ensures graphWarmed == (old(graphWarmed) && !EchoLoop(old(history)))
      ensures prefixCacheDisabled == (old(prefixCacheDisabled) && !EchoLoop(old(history)))
    {
      if |history| < ECHO_WINDOW {
        RepliesShort(history);
        return;
      }
      var replies := CollectReplies();
      if |replies| < ECHO_WINDOW {
        return;
      }
      var last := replies[|replies| - ECHO_WINDOW..];
      if |last[0]| > ECHO_MAX_LEN || exists k :: 0 <= k < |last| && last[k] != last[0] {
        assert last[1] == replies[|replies| - 2] && last[2] == replies[|replies| - 1];
        return;
      }
      assert last[1] == last[0] && last[2] == last[0];
      Clear();
    }

    /** The prompt: the system message, then the history, trimmed when a token limit is set. */
    method Messages(system: Message) returns (prompt: seq<Message>)
      modifies this`prefixCacheWarmed
      ensures maxInputTokens.None? ==> prompt == [system] + history && prefixCacheWarmed == old(prefixCacheWarmed)
      ensures maxInputTokens.Some? ==>
                var t := Trim(counter, history, Budget(maxInputTokens.value));
                prompt == [system] + t.kept && prefixCacheWarmed == (old(prefixCacheWarmed) && !t.invalidates)
    {
      var base := [system] + history;
      if maxInputTokens.None? {
        return base;
      }
      prompt := TrimToBudget(base, maxInputTokens.value);
    }

    /** The inner loop of the grouping: on to the next user message. */
    method NextUser(rest: seq<Message>, from: nat) returns (i: nat)
      requires from <= |rest|
      ensures i == from + Lead(rest[from..])
    {
      i := from;
      while i < |rest| && rest[i].role != User
        invariant from <= i <= |rest| && Lead(rest[from..]) == i - from + Lead(rest[i..])
      {
        assert rest[i..][1..] == rest[i + 1..];
        i := i + 1;
      }
    }

    /** Skip leading non-user messages, then cut before each user message. */
    method GroupTurns(rest: seq<Message>) returns (turns: seq<seq<Message>>)
      ensures turns == Turns(rest[Lead(rest)..])
    {
      assert rest[0..] == rest;
      var i := NextUser(rest, 0);
      turns := [];
      while i < |rest|
        invariant i <= |rest| && (i < |rest| ==> rest[i].role == User)
        invariant turns + Turns(rest[i..]) == Turns(rest[Lead(rest)..])
      {
        var start := i;
        i := NextUser(rest, start + 1);
        TurnAt(rest, start, i);
        AppendAssoc(turns, rest[start..i], Turns(rest[i..]));
        turns := turns + [rest[start..i]];
      }
    }

    method TrimToBudget(messages: seq<Message>, max: int) returns (r: seq<Message>)
      modifies this`prefixCacheWarmed
      ensures messages == [] ==> r == [] && prefixCacheWarmed == old(prefixCacheWarmed)
      ensures messages != [] ==>
                var t := Trim(counter, messages[1..], Budget(max));
                r == [messages[0]] + t.kept && prefixCacheWarmed == (old(prefixCacheWarmed) && !t.invalidates)
    {
      var budget := Budget(max);
      if messages == [] {
        return messages;
      }
      var system, rest := messages[0], messages[1..];
      if rest == [] {
        return messages;
      }
      var turns := GroupTurns(rest);
      var kept: seq<Message>;
      if turns == [] {
        kept := DropRaw(rest, budget);
      } else {
        kept := DropWhole(rest, turns, budget);
      }
      return [system] + kept;
    }

    method DropWhole(rest: seq<Message>, groups: seq<seq<Message>>, budget: int) returns (r: seq<Message>)
      requires groups != []
      modifies this`prefixCacheWarmed
      ensures var t := TrimTurns(counter, rest, groups, budget);
        r == t.kept && prefixCacheWarmed == (old(prefixCacheWarmed) && !t.invalidates)
    {
      var turns, trailing: seq<Message> := groups, [];
      if !Complete(turns[|turns| - 1]) {
        trailing, turns := turns[|turns| - 1], turns[..|turns| - 1];
      }
      var total: int := Tokens(counter, trailing) + SumTokens(counter, turns);
      if total <= budget {
        return rest;
      }
      var kept := DropOldest(turns, total, budget, if trailing != [] then 0 else 1);
      if |kept| < |turns| {
        prefixCacheWarmed := false;
      }
      return Flatten(kept) + trailing;
    }

    method DropOldest(turns: seq<seq<Message>>, tokens: int, budget: int, minKeep: nat)
      returns (kept: seq<seq<Message>>)
      ensures kept == turns[DropTurns(counter, turns, tokens, budget, minKeep)..]
    {
      kept := turns;
      var total, dropped: nat := tokens, 0;
      while total > budget && |kept| > minKeep
        invariant dropped <= |turns| && kept == turns[dropped..]
        invariant DropTurns(counter, turns, tokens, budget, minKeep)
                  == dropped + DropTurns(counter, kept, total, budget, minKeep)
      {
        total := total - Tokens(counter, kept[0]);
        kept := kept[1..];
        dropped := dropped + 1;
      }
    }

    method DropRaw(rest: seq<Message>, budget: int) returns (kept: seq<Message>)
      modifies this`prefixCacheWarmed
      ensures var t := TrimRaw(counter, rest, budget);
        kept == t.kept && prefixCacheWarmed == (old(prefixCacheWarmed) && !t.invalidates)
    {
      var tokens: int := Tokens(counter, rest);
      if tokens <= budget {
        return rest;
      }
      kept := rest;
      var dropped := 0;
      while kept != [] && tokens > budget
        invariant dropped <= |rest| && kept == rest[dropped..] && tokens == Tokens(counter, kept)
        invariant DropMessages(counter, rest, budget) == dropped + DropMessages(counter, kept, budget)
        decreases |kept|
      {
        tokens := tokens - MsgTokens(counter, kept[0]);
        kept := kept[1..];
        dropped := dropped + 1;
      }
      prefixCacheWarmed := false;
    }
  }

  lemma RepliesShort(h: seq<Message>)
    ensures |Replies(h)| <= |h|
  {
  }

  lemma AppendAssoc<T>(a: seq<T>, x: T, b: seq<T>)
    ensures a + [x] + b == a + ([x] + b)
  {
  }

  lemma TurnAt(rest: seq<Message>, start: nat, end: nat)
    requires start < end <= |rest| && rest[start].role == User
    requires Lead(rest[start + 1..]) == end - start - 1
    ensures end < |rest| ==> rest[end].role == User
    ensures Turns(rest[start..]) == [rest[start..end]] + Turns(rest[end..])
  {
    var h := rest[start..];
    assert h[1..] == rest[start + 1..];
    assert h[..end - start] == rest[start..end] && h[end - start..] == rest[end..];
  }
}
