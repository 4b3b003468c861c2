/**
 * Conversation-history shaping shared by `LangchainAssistant` and `ChatAgent`:
 * the choice between the caller's history and the stored one, the turn-count
 * cut, and the newest-to-oldest token-budget trim.  Token counting (tiktoken)
 * is the parameter `tok`.
 */
module History {
  import opened Wrappers
  import PyStr

  /** `HumanMessage` and `AIMessage` of LangChain. */
  datatype Role = Human | Ai
  datatype Message = Message(role: Role, content: string)

  /** Total tokens of a history, counted message by message. */
  function Tokens(tok: string -> nat, h: seq<Message>): nat {
    if h == [] then 0 else Tokens(tok, h[..|h| - 1]) + tok(h[|h| - 1].content)
  }

  // ---------------------------------------------------------------------------
  // Token-budget trimming
  // ---------------------------------------------------------------------------

  /**
   * The history the trimmer keeps: walking from the newest message back, each
   * message is kept while the running total stays within `budget`; the first
   * message that would overflow ends the walk, and nothing older is kept.
   */
  function Trim(tok: string -> nat, h: seq<Message>, budget: int): (r: seq<Message>)
    ensures |r| <= |h|
    ensures budget < 0 ==> r == []
    decreases |h|
  {
    if h == [] then []
    else
      var last := h[|h| - 1];
      var t := tok(last.content);
      if t > budget then []
      else
        Trim(tok, h[..|h| - 1], budget - t) + [last]
  }

  /** The kept messages are the newest ones, in their original order. */
  lemma {:induction false} TrimSuffix(tok: string -> nat, h: seq<Message>, budget: int)
    ensures Trim(tok, h, budget) == h[|h| - |Trim(tok, h, budget)|..]
    decreases |h|
  {
    var r := Trim(tok, h, budget);
    if h != [] && r != [] {
      var last := h[|h| - 1];
      var h' := h[..|h| - 1];
      var r' := Trim(tok, h', budget - tok(last.content));
      TrimSuffix(tok, h', budget - tok(last.content));
      assert r == r' + [last];
      assert h[|h| - |r|..] == h'[|h'| - |r'|..] + [last];
    }
  }

  /** The kept messages fit the budget. */
  lemma {:induction false} TrimFits(tok: string -> nat, h: seq<Message>, budget: int)
    requires budget >= 0
    ensures Tokens(tok, Trim(tok, h, budget)) <= budget
    decreases |h|
  {
    var r := Trim(tok, h, budget);
    if h != [] && r != [] {
      var last := h[|h| - 1];
      var r' := Trim(tok, h[..|h| - 1], budget - tok(last.content));
      assert r[..|r| - 1] == r';
      TrimFits(tok, h[..|h| - 1], budget - tok(last.content));
    }
  }

  /**
   * The trimmer stops at the first message that would overflow: the newest
   * message it leaves out would have pushed the kept total over the budget.
   */
  lemma {:induction false} TrimStopsAtOverflow(tok: string -> nat, h: seq<Message>, budget: int)
    ensures var r := Trim(tok, h, budget);
      |r| < |h| ==> Tokens(tok, r) + tok(h[|h| - |r| - 1].content) > budget
    decreases |h|
  {
    var r := Trim(tok, h, budget);
    if h != [] && r != [] {
      var last := h[|h| - 1];
      var h' := h[..|h| - 1];
      var r' := Trim(tok, h', budget - tok(last.content));
      assert r[..|r| - 1] == r';
      TrimStopsAtOverflow(tok, h', budget - tok(last.content));
      if |r| < |h| {
        assert h[|h| - |r| - 1] == h'[|h'| - |r'| - 1];
      }
    }
  }

  /** Trimming a trimmed history changes nothing. */
  lemma {:induction false} TrimIdempotent(tok: string -> nat, h: seq<Message>, budget: int)
    ensures Trim(tok, Trim(tok, h, budget), budget) == Trim(tok, h, budget)
    decreases |h|
  {
    var r := Trim(tok, h, budget);
    if h != [] && r != [] {
      var last := h[|h| - 1];
      var r' := Trim(tok, h[..|h| - 1], budget - tok(last.content));
      assert r == r' + [last];
      assert r[..|r| - 1] == r';
      TrimIdempotent(tok, h[..|h| - 1], budget - tok(last.content));
    }
  }

  /** The trimmer keeps nothing exactly when the newest message alone exceeds the budget. */
  lemma TrimEmptyIff(tok: string -> nat, h: seq<Message>, budget: int)
    requires h != []
    ensures Trim(tok, h, budget) == [] <==> tok(h[|h| - 1].content) > budget
  {
  }

  /** One step of the trimmer on the first `i` messages, whose newest costs `t` tokens. */
  lemma TrimStep(tok: string -> nat, h: seq<Message>, i: int, budget: int, t: nat)
    requires 0 < i <= |h| && t == tok(h[i - 1].content)
    ensures t > budget ==> Trim(tok, h[..i], budget) == []
    ensures t <= budget ==> Trim(tok, h[..i], budget) == Trim(tok, h[..i - 1], budget - t) + [h[i - 1]]
  {
    assert h[..i][..i - 1] == h[..i - 1];
  }

  /** Keeping one more message moves it from the untrimmed prefix to the kept suffix. */
  lemma KeepOneMore(tok: string -> nat, h: seq<Message>, i: int, budget: int, t: nat, kept: seq<Message>)
    requires 0 < i <= |h| && t == tok(h[i - 1].content) && t <= budget && kept == h[i..]
    ensures Trim(tok, h[..i], budget) + kept == Trim(tok, h[..i - 1], budget - t) + ([h[i - 1]] + kept)
    ensures [h[i - 1]] + kept == h[i - 1..]
  {
    TrimStep(tok, h, i, budget, t);
    var rest := Trim(tok, h[..i - 1], budget - t);
    assert (rest + [h[i - 1]]) + kept == rest + ([h[i - 1]] + kept);
  }

  /** The loop of `_trim_chat_history_to_max_context_tokens`. */
  method TrimHistory(tok: string -> nat, h: seq<Message>, budget: int) returns (trimmed: seq<Message>)
    ensures trimmed == Trim(tok, h, budget)
  {
    var total := 0;
    trimmed := [];
    var i := |h|;
    assert h[..i] == h;
    while i > 0
      invariant 0 <= i <= |h|
      invariant trimmed == h[i..]
      invariant Trim(tok, h, budget) == Trim(tok, h[..i], budget - total) + trimmed
    {
      var message := h[i - 1];
      var messageTokens := tok(message.content);
      TrimStep(tok, h, i, budget - total, messageTokens);
      if total + messageTokens > budget {
        break;
      }
      KeepOneMore(tok, h, i, budget - total, messageTokens, trimmed);
      trimmed := [message] + trimmed;
      total := total + messageTokens;
      i := i - 1;
    }
  }

  // ---------------------------------------------------------------------------
  // Turn-count cut and the history used for a run
  // ---------------------------------------------------------------------------

  /** `h[-turns * 2:] if turns > 0 else h` */
  function LastTurns(h: seq<Message>, turns: int): (r: seq<Message>)
    ensures turns <= 0 ==> r == h
    ensures turns > 0 ==> |r| == (if 2 * turns < |h| then 2 * turns else |h|)
    ensures r == h[|h| - |r|..]
  {
    if turns > 0 then PyStr.SliceFrom(h, -turns * 2) else h
  }

  /** The history handed to the agent: an empty one as is, otherwise cut to the last turns and trimmed. */
  function Prepare(tok: string -> nat, h: seq<Message>, turns: int, budget: int): seq<Message> {
    if h == [] then h else Trim(tok, LastTurns(h, turns), budget)
  }

  /** The prepared history is a suffix of the given one, within budget and turn limit. */
  lemma PrepareBounds(tok: string -> nat, h: seq<Message>, turns: int, budget: int)
    ensures |Prepare(tok, h, turns, budget)| <= |h|
    ensures Prepare(tok, h, turns, budget) == h[|h| - |Prepare(tok, h, turns, budget)|..]
    ensures budget >= 0 ==> Tokens(tok, Prepare(tok, h, turns, budget)) <= budget
    ensures turns > 0 ==> |Prepare(tok, h, turns, budget)| <= 2 * turns
  {
    if h != [] {
      var l := LastTurns(h, turns);
      TrimSuffix(tok, l, budget);
      SuffixOfSuffix(h, l, Trim(tok, l, budget));
      if budget >= 0 {
        TrimFits(tok, l, budget);
      }
    }
  }

  /** A suffix of a suffix is a suffix. */
  lemma SuffixOfSuffix(h: seq<Message>, l: seq<Message>, r: seq<Message>)
    requires |l| <= |h| && l == h[|h| - |l|..]
    requires |r| <= |l| && r == l[|l| - |r|..]
    ensures r == h[|h| - |r|..]
  {
    assert h[|h| - |r|..] == l[|l| - |r|..];
  }

  /** Preparing twice is preparing once. */
  lemma PrepareIdempotent(tok: string -> nat, h: seq<Message>, turns: int, budget: int)
    ensures Prepare(tok, Prepare(tok, h, turns, budget), turns, budget) == Prepare(tok, h, turns, budget)
  {
    if h != [] {
      var l := LastTurns(h, turns);
      var r := Trim(tok, l, budget);
      if r != [] {
        assert |r| <= |l|;
        assert LastTurns(r, turns) == r;
        TrimIdempotent(tok, l, budget);
      }
    }
  }

  /** `LangchainAssistant`: a falsy argument (`None` or `[]`) falls back to the stored history. */
  function SelectFalsy(arg: Option<seq<Message>>, stored: seq<Message>): (h: seq<Message>)
    ensures arg == None || arg == Some([]) ==> h == stored
    ensures arg.Some? && arg.value != [] ==> h == arg.value
  {
    if arg.Some? && arg.value != [] then arg.value else stored
  }

  /** `ChatAgent`: only `None` falls back to the stored history. */
  function SelectNone(arg: Option<seq<Message>>, stored: seq<Message>): (h: seq<Message>)
    ensures arg == None ==> h == stored
    ensures arg.Some? ==> h == arg.value
  {
    arg.GetOr(stored)
  }

  /** The two classes disagree exactly on an explicit empty history while one is stored. */
  lemma SelectionsDiffer(arg: Option<seq<Message>>, stored: seq<Message>)
    ensures SelectFalsy(arg, stored) != SelectNone(arg, stored) <==> arg == Some([]) && stored != []
  {
  }

  /** What a finished agent run hands back: an object with a `log`, or a result dictionary. */
  datatype AgentOutput = Finish(log: string) | Fields(fields: map<string, string>)

  /** `output.log if hasattr(output, "log") else output.get('output', '')` */
  function OutputText(output: AgentOutput): (s: string)
    ensures output.Finish? ==> s == output.log
    ensures output.Fields? && "output" in output.fields ==> s == output.fields["output"]
    ensures output.Fields? && "output" !in output.fields ==> s == ""
  {
    match output
    case Finish(log) => log
    case Fields(f) => if "output" in f then f["output"] else ""
  }

  // ---------------------------------------------------------------------------
  // Request messages
  // ---------------------------------------------------------------------------

  /** One entry of a chat-completions request's `messages`. */
  datatype ChatMessage = ChatMessage(role: string, content: string)

  /** The history entry a request message becomes: user and assistant messages only. */
  function Turn(m: ChatMessage): seq<Message> {
    if m.role == "user" then [Message(Human, m.content)]
    else if m.role == "assistant" then [Message(Ai, m.content)]
    else []
  }

  /** The user and assistant messages of a request, in order. */
  function ChatTurns(messages: seq<ChatMessage>): (r: seq<Message>)
    ensures |r| <= |messages|
  {
    if messages == [] then [] else ChatTurns(messages[..|messages| - 1]) + Turn(messages[|messages| - 1])
  }

  /** The turns of two parts of a message list are the turns of each part in turn. */
  lemma {:induction false} ChatTurnsAppend(a: seq<ChatMessage>, b: seq<ChatMessage>)
    ensures ChatTurns(a + b) == ChatTurns(a) + ChatTurns(b)
    decreases |b|
  {
    if b == [] {
      assert a + b == a;
    } else {
      var b' := b[..|b| - 1];
      assert (a + b)[..|a + b| - 1] == a + b';
      ChatTurnsAppend(a, b');
    }
  }
}
