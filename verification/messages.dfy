/** The chat-completion requests the handler builds: the opening request of a
    turn (`buildConversationMessages`) and the follow-up request that hands
    tool results back to the model (`generateToolResponse`). */
module Messages {
  import opened Text
  import opened Tools

  datatype Role = System | User | Assistant | ToolRole

  /** An entry of the conversation history. */
  datatype Message = Message(role: Role, content: string)

  /** An entry of a request's `messages` array. */
  datatype RequestMessage =
    | Say(role: Role, content: string)
      /** `{ role: 'assistant', content: null, tool_calls }` */
    | CallTools(calls: seq<PendingCall>)
      /** `{ role: 'tool', content, tool_call_id }` */
    | ToolReply(content: string, toolCallId: string)

  /** `history.slice(-n)` for a positive `n`: the last `n` entries, or all of
      them when there are fewer (their positions are given by `WindowAt`). */
  function Window<T>(h: seq<T>, n: nat): (w: seq<T>)
    requires 0 < n
    ensures |w| == if |h| < n then |h| else n
  {
    if |h| <= n then h else h[|h| - n..]
  }

  lemma WindowAt<T>(h: seq<T>, n: nat, j: nat)
    requires 0 < n && j < |Window(h, n)|
    ensures Window(h, n)[j] == h[|h| - |Window(h, n)| + j]
  {
  }

  /** `.map(m => ({ role: m.role, content: m.content }))` */
  function Relay(h: seq<Message>): (r: seq<RequestMessage>)
    ensures |r| == |h|
    decreases |h|
  {
    if h == [] then [] else Relay(h[..|h| - 1]) + [Say(h[|h| - 1].role, h[|h| - 1].content)]
  }

  /** Each entry is relayed with its role and content, in place. */
  lemma {:induction false} RelayAt(h: seq<Message>, i: nat)
    requires i < |h|
    ensures Relay(h)[i] == Say(h[i].role, h[i].content)
    decreases |h|
  {
    var init := h[..|h| - 1];
    if i < |init| {
      RelayAt(init, i);
      assert Relay(h)[i] == Relay(init)[i];
    }
  }

  // ---------------------------------------------------------------------
  // The opening request

  /** The persona text around the knowledge line, abbreviated: only its
      position in the prompt matters here. */
  const PersonaIntro: string := "You are the Digital Archivist."
  const PersonaRules: string := "Your persona: ... Your rules: ..."

  const KnowledgeHeader: string := "CURRENT KNOWLEDGE: ["
  const Separator: string := ", "

  /** The knowledge state as the prompt shows it. */
  function KnowledgeLine(knowledge: seq<string>): string
  {
    KnowledgeHeader + Join(knowledge, Separator) + "]"
  }

  function SystemPrompt(knowledge: seq<string>): string
  {
    PersonaIntro + "\n" + KnowledgeLine(knowledge) + "\n" + PersonaRules
  }

  /** `item` occurs in `p` starting at offset `at`. */
  predicate InfixAt(p: string, at: nat, item: string)
  {
    at + |item| <= |p| && p[at..at + |item|] == item
  }

  /** The knowledge line sits on the prompt's second line, right after the
      persona introduction. */
  lemma KnowledgeLineInPrompt(knowledge: seq<string>)
    ensures InfixAt(SystemPrompt(knowledge), |PersonaIntro| + 1, KnowledgeLine(knowledge))
  {
    var line := KnowledgeLine(knowledge);
    assert SystemPrompt(knowledge) == (PersonaIntro + "\n") + line + ("\n" + PersonaRules);
  }

  /** The system prompt, the last five history entries in order, then the
      user's message. */
  function BuildConversationMessages(user: string, history: seq<Message>, knowledge: seq<string>)
    : seq<RequestMessage>
  {
    [Say(System, SystemPrompt(knowledge))] + Relay(Window(history, 5)) + [Say(User, user)]
  }

  /** Where each part of the opening request lands: the system prompt first,
      the user's message last, and between them the last five history
      entries (all of them when there are fewer), oldest first. */
  lemma OpeningLayout(user: string, history: seq<Message>, knowledge: seq<string>)
    ensures var r := BuildConversationMessages(user, history, knowledge);
      && |r| == 2 + (if |history| < 5 then |history| else 5)
      && r[0] == Say(System, SystemPrompt(knowledge))
      && r[|r| - 1] == Say(User, user)
      && forall j :: 1 <= j < |r| - 1 ==>
           r[j] == Say(history[|history| - (|r| - 1) + j].role, history[|history| - (|r| - 1) + j].content)
  {
    var first, last := Say(System, SystemPrompt(knowledge)), Say(User, user);
    var r := [first] + Relay(Window(history, 5)) + [last];
    assert r[0] == first && r[|r| - 1] == last;
    forall j | 1 <= j < |r| - 1
      ensures r[j] == Say(history[|history| - (|r| - 1) + j].role, history[|history| - (|r| - 1) + j].content)
    {
      OpeningAt(first, history, last, j);
    }
  }

  lemma OpeningAt(first: RequestMessage, history: seq<Message>, last: RequestMessage, j: nat)
    requires 1 <= j <= |Window(history, 5)|
    ensures var r, k := [first] + Relay(Window(history, 5)) + [last], |history| - |Window(history, 5)| - 1 + j;
      0 <= k < |history| && r[j] == Say(history[k].role, history[k].content)
  {
    var w := Window(history, 5);
    var relayed := Relay(w);
    var r := [first] + relayed + [last];
    assert r[j] == relayed[j - 1];
    RelayAt(w, j - 1);
    WindowAt(history, 5, j - 1);
  }

  /** Every known item appears in the system prompt, inside the knowledge
      line, at an offset fixed by the items before it. */
  lemma PromptListsKnowledge(knowledge: seq<string>, i: nat)
    requires i < |knowledge|
    ensures InfixAt(SystemPrompt(knowledge),
      |PersonaIntro| + 1 + |KnowledgeHeader| + JoinOffset(knowledge, Separator, i), knowledge[i])
  {
    KnowledgeInLine(knowledge, i);
    KnowledgeLineInPrompt(knowledge);
    InfixOfInfix(SystemPrompt(knowledge), |PersonaIntro| + 1, KnowledgeLine(knowledge),
      |KnowledgeHeader| + JoinOffset(knowledge, Separator, i), knowledge[i]);
  }

  /** Every known item appears in the knowledge line, after the header. */
  lemma KnowledgeInLine(knowledge: seq<string>, i: nat)
    requires i < |knowledge|
    ensures InfixAt(KnowledgeLine(knowledge), |KnowledgeHeader| + JoinOffset(knowledge, Separator, i), knowledge[i])
  {
    var joined := Join(knowledge, Separator);
    JoinContains(knowledge, Separator, i);
    InfixInside(KnowledgeHeader, joined, "]", JoinOffset(knowledge, Separator, i), knowledge[i]);
  }

  /** An infix of the middle part is an infix of the whole, shifted by the
      first part. */
  lemma InfixInside(a: string, b: string, c: string, o: nat, item: string)
    requires InfixAt(b, o, item)
    ensures InfixAt(a + b + c, |a| + o, item)
  {
    assert (a + b + c)[|a| + o..|a| + o + |item|] == b[o..o + |item|];
  }

  /** An infix of an infix is an infix, at the sum of the offsets. */
  lemma InfixOfInfix(p: string, lo: nat, line: string, o: nat, item: string)
    requires InfixAt(p, lo, line) && InfixAt(line, o, item)
    ensures InfixAt(p, lo + o, item)
  {
    forall k | 0 <= k < |item|
      ensures p[lo + o..lo + o + |item|][k] == item[k]
    {
      assert p[lo + o + k] == p[lo..lo + |line|][o + k] == line[o..o + |item|][k];
    }
  }

  /** History older than the last five entries never reaches the model. */
  lemma OldHistoryIgnored(user: string, h1: seq<Message>, h2: seq<Message>, knowledge: seq<string>)
    requires 5 <= |h1| && 5 <= |h2| && h1[|h1| - 5..] == h2[|h2| - 5..]
    ensures BuildConversationMessages(user, h1, knowledge) == BuildConversationMessages(user, h2, knowledge)
  {
    assert Window(h1, 5) == Window(h2, 5);
  }

  // ---------------------------------------------------------------------
  // The follow-up request

  const FollowUpInstruction: string := "You are a helpful AI assistant. Respond naturally to the tool results."

  /** `openAiToolCalls[index]?.id || result.id` */
  function ReplyId(calls: seq<PendingCall>, results: seq<ToolCall>, i: nat): string
    requires i < |results|
  {
    if i < |calls| && calls[i].id != "" then calls[i].id else results[i].id
  }

  function Replies(calls: seq<PendingCall>, results: seq<ToolCall>, stringify: Json -> string)
    : (r: seq<RequestMessage>)
    ensures |r| == |results|
    decreases |results|
  {
    if results == [] then []
    else
      var n := |results| - 1;
      Replies(calls, results[..n], stringify) + [ToolReply(stringify(results[n].result), ReplyId(calls, results, n))]
  }

  /** The reply at position `i` carries the `i`-th result and its id. */
  lemma {:induction false} ReplyAt(calls: seq<PendingCall>, results: seq<ToolCall>, stringify: Json -> string, i: nat)
    requires i < |results|
    ensures Replies(calls, results, stringify)[i] == ToolReply(stringify(results[i].result), ReplyId(calls, results, i))
    decreases |results|
  {
    var init := results[..|results| - 1];
    if i < |init| {
      ReplyAt(calls, init, stringify, i);
      assert Replies(calls, results, stringify)[i] == Replies(calls, init, stringify)[i];
      assert init[i] == results[i];
    }
  }

  /** The fixed instruction, the last three history entries, the user's
      message, the assistant's tool calls, then one tool reply per result. */
  function FollowUpMessages(user: string, history: seq<Message>, calls: seq<PendingCall>,
                            results: seq<ToolCall>, stringify: Json -> string)
    : seq<RequestMessage>
  {
    [Say(System, FollowUpInstruction)] + Relay(Window(history, 3)) + [Say(User, user), CallTools(calls)]
      + Replies(calls, results, stringify)
  }

  /** Where the instruction, the history, the user's message and the calls
      land in the follow-up request. */
  lemma FollowUpLayout(user: string, history: seq<Message>, calls: seq<PendingCall>,
                       results: seq<ToolCall>, stringify: Json -> string)
    ensures var r, n := FollowUpMessages(user, history, calls, results, stringify),
                        if |history| < 3 then |history| else 3;
      && |r| == 3 + n + |results|
      && r[0] == Say(System, FollowUpInstruction)
      && (forall j :: 1 <= j <= n ==>
            r[j] == Say(history[|history| - n - 1 + j].role, history[|history| - n - 1 + j].content))
      && r[1 + n] == Say(User, user)
      && r[2 + n] == CallTools(calls)
  {
    var n := |Window(history, 3)|;
    FollowUpEnds(user, history, calls, results, stringify);
    forall j | 1 <= j <= n
      ensures FollowUpMessages(user, history, calls, results, stringify)[j]
           == Say(history[|history| - n - 1 + j].role, history[|history| - n - 1 + j].content)
    {
      FollowUpHistoryAt(user, history, calls, results, stringify, j);
    }
  }

  /** The follow-up request ends with one tool reply per result, in order. */
  lemma FollowUpRepliesLayout(user: string, history: seq<Message>, calls: seq<PendingCall>,
                              results: seq<ToolCall>, stringify: Json -> string)
    ensures var r, n := FollowUpMessages(user, history, calls, results, stringify),
                        if |history| < 3 then |history| else 3;
      && |r| == 3 + n + |results|
      && (forall i :: 0 <= i < |results| ==>
            r[3 + n + i] == ToolReply(stringify(results[i].result), ReplyId(calls, results, i)))
  {
    var n := |Window(history, 3)|;
    FollowUpEnds(user, history, calls, results, stringify);
    forall i | 0 <= i < |results|
      ensures FollowUpMessages(user, history, calls, results, stringify)[3 + n + i]
           == ToolReply(stringify(results[i].result), ReplyId(calls, results, i))
    {
      FollowUpReplyAt(user, history, calls, results, stringify, i);
    }
  }

  lemma FollowUpEnds(user: string, history: seq<Message>, calls: seq<PendingCall>,
                     results: seq<ToolCall>, stringify: Json -> string)
    ensures var r, n := FollowUpMessages(user, history, calls, results, stringify), |Window(history, 3)|;
      && |r| == 3 + n + |results|
      && r[0] == Say(System, FollowUpInstruction)
      && r[1 + n] == Say(User, user)
      && r[2 + n] == CallTools(calls)
  {
    var front := [Say(System, FollowUpInstruction)] + Relay(Window(history, 3)) + [Say(User, user), CallTools(calls)];
    var r := front + Replies(calls, results, stringify);
    var n := |Window(history, 3)|;
    assert r[0] == front[0] && r[1 + n] == front[1 + n] && r[2 + n] == front[2 + n];
  }

  lemma FollowUpHistoryAt(user: string, history: seq<Message>, calls: seq<PendingCall>,
                          results: seq<ToolCall>, stringify: Json -> string, j: nat)
    requires 1 <= j <= |Window(history, 3)|
    ensures var r, k := FollowUpMessages(user, history, calls, results, stringify),
                        |history| - |Window(history, 3)| - 1 + j;
      0 <= k < |history| && r[j] == Say(history[k].role, history[k].content)
  {
    var w := Window(history, 3);
    var relayed := Relay(w);
    var front := [Say(System, FollowUpInstruction)] + relayed + [Say(User, user), CallTools(calls)];
    var r := front + Replies(calls, results, stringify);
    assert r[j] == front[j] == relayed[j - 1];
    RelayAt(w, j - 1);
    WindowAt(history, 3, j - 1);
  }

  lemma FollowUpReplyAt(user: string, history: seq<Message>, calls: seq<PendingCall>,
                        results: seq<ToolCall>, stringify: Json -> string, i: nat)
    requires i < |results|
    ensures var r, n := FollowUpMessages(user, history, calls, results, stringify), |Window(history, 3)|;
      3 + n + i < |r| && r[3 + n + i] == ToolReply(stringify(results[i].result), ReplyId(calls, results, i))
  {
    var front := [Say(System, FollowUpInstruction)] + Relay(Window(history, 3)) + [Say(User, user), CallTools(calls)];
    var replies := Replies(calls, results, stringify);
    var r := front + replies;
    assert r[|front| + i] == replies[i];
    ReplyAt(calls, results, stringify, i);
  }

  /** When the results were produced from the calls, each tool reply answers
      the call at its own position, whatever the calls' ids are. */
  lemma RepliesAnswerCalls(user: string, history: seq<Message>, calls: seq<PendingCall>,
                           parse: Parser, exec: Executor, stringify: Json -> string)
    ensures var results := ExecuteToolCalls(calls, parse, exec);
      var r := FollowUpMessages(user, history, calls, results, stringify);
      && |calls| <= |r|
      && forall i :: 0 <= i < |calls| ==> r[|r| - |calls| + i] == ToolReply(stringify(results[i].result), calls[i].id)
  {
    RepliesMatchIds(user, history, calls, ExecuteToolCalls(calls, parse, exec), stringify);
  }

  /** The same for any results that carry their calls' ids. */
  lemma RepliesMatchIds(user: string, history: seq<Message>, calls: seq<PendingCall>,
                        results: seq<ToolCall>, stringify: Json -> string)
    requires |results| == |calls|
    requires forall i :: 0 <= i < |calls| ==> results[i].id == calls[i].id
    ensures var r := FollowUpMessages(user, history, calls, results, stringify);
      && |calls| <= |r|
      && forall i :: 0 <= i < |calls| ==> r[|r| - |calls| + i] == ToolReply(stringify(results[i].result), calls[i].id)
  {
    var r := FollowUpMessages(user, history, calls, results, stringify);
    FollowUpEnds(user, history, calls, results, stringify);
    forall i | 0 <= i < |calls|
      ensures r[|r| - |calls| + i] == ToolReply(stringify(results[i].result), calls[i].id)
    {
      FollowUpReplyAt(user, history, calls, results, stringify, i);
    }
  }

  /** A reply whose position has no call falls back to the result's id. */
  lemma ReplyIdFallsBack(calls: seq<PendingCall>, results: seq<ToolCall>, i: nat)
    requires i < |results| && (|calls| <= i || calls[i].id == "")
    ensures ReplyId(calls, results, i) == results[i].id
  {
  }
}
