/** One turn of the chat handler: `processMessage` sends the opening request,
    then either consumes a stream (`handleStreamResponse`) or a single
    completion (`handleNonStreamResponse`); both run requested tools and ask
    the model again with their results (`generateToolResponse`). */
module Turn {
  import opened Wrappers
  import opened Text
  import opened Knowledge
  import opened Tools
  import opened Stream
  import opened Messages

  /** `completion.choices[0].message`: its text and its `tool_calls` array,
      either of which may be absent. */
  datatype AssistantMessage = AssistantMessage(content: Option<string>, toolCalls: Option<seq<PendingCall>>)

  /** A chat-completion request: the model, the messages, whether the tool
      definitions are offered (`tools` with `tool_choice: 'auto'`) and
      whether the answer is streamed. */
  datatype Request = Request(model: string, messages: seq<RequestMessage>, offerTools: bool, stream: bool)

  /** The world outside the handler, as functions of what it is given: the
      streamed and the blocking completion endpoints (`choices[0]?.message`
      is `None` when the completion has no message), JSON parsing,
      the tool executor, `JSON.stringify` and `Date.now()`. */
  datatype Env = Env(
    streamed: Request -> seq<Chunk>,
    completed: Request -> Option<AssistantMessage>,
    parse: Parser,
    execute: Executor,
    stringify: Json -> string,
    clock: Clock)

  /** What `processMessage` resolves to. */
  datatype TurnResult = TurnResult(content: string, toolCalls: Option<seq<ToolCall>>, knowledge: seq<string>)

  const Apology: string := "I apologize, but I encountered an issue processing your request."
  const ToolFallback: string := "Tool results processed successfully."

  predicate HasContent(reply: Option<AssistantMessage>)
  {
    reply.Some? && reply.value.content.Some? && reply.value.content.value != ""
  }

  function FollowUpRequest(model: string, user: string, history: seq<Message>, calls: seq<PendingCall>,
                           results: seq<ToolCall>, env: Env): Request
  {
    Request(model, FollowUpMessages(user, history, calls, results, env.stringify), false, false)
  }

  /** `generateToolResponse`: the follow-up completion's text, or the fixed
      fallback when it has none; never empty. */
  function FollowUpAnswer(model: string, user: string, history: seq<Message>, calls: seq<PendingCall>,
                          results: seq<ToolCall>, env: Env): (answer: string)
    ensures answer != ""
    ensures var reply := env.completed(FollowUpRequest(model, user, history, calls, results, env));
      HasContent(reply) ==> answer == reply.value.content.value
    ensures var reply := env.completed(FollowUpRequest(model, user, history, calls, results, env));
      !HasContent(reply) ==> answer == ToolFallback
  {
    var reply := env.completed(FollowUpRequest(model, user, history, calls, results, env));
    if HasContent(reply) then reply.value.content.value else ToolFallback
  }

  // ---------------------------------------------------------------------
  // Specification of a turn

  function OpeningRequest(model: string, user: string, history: seq<Message>, knowledge: seq<string>, stream: bool)
    : Request
  {
    Request(model, BuildConversationMessages(user, history, knowledge), true, stream)
  }

  /** The outcome of a streamed turn, given the chunks that arrived. */
  function StreamOutcome(model: string, chunks: seq<Chunk>, user: string, history: seq<Message>,
                         knowledge: seq<string>, env: Env): TurnResult
  {
    var full := FullText(chunks);
    var slots := Slots(chunks, env.clock);
    var known := MergeKnowledge(full, knowledge);
    if |slots| > 0 then
      var executed := ExecuteToolCalls(slots, env.parse, env.execute);
      TurnResult(FollowUpAnswer(model, user, history, slots, executed, env), Some(executed), known)
    else
      TurnResult(StripKnowledgeTags(full), None, known)
  }

  /** The text of a blocking reply: `responseMessage.content || ''`. */
  function ReplyText(m: AssistantMessage): string
  {
    if m.content.Some? then m.content.value else ""
  }

  /** The outcome of a blocking turn, given `choices[0]?.message`. */
  function BlockingOutcome(model: string, reply: Option<AssistantMessage>, user: string, history: seq<Message>,
                           knowledge: seq<string>, env: Env): TurnResult
  {
    match reply
    case None => TurnResult(Apology, None, knowledge)
    case Some(m) =>
      var text := ReplyText(m);
      var known := MergeKnowledge(text, knowledge);
      if m.toolCalls.None? then TurnResult(StripKnowledgeTags(text), None, known)
      else
        var executed := ExecuteToolCalls(m.toolCalls.value, env.parse, env.execute);
        var answer := FollowUpAnswer(model, user, history, m.toolCalls.value, executed, env);
        TurnResult(StripKnowledgeTags(answer), Some(executed), MergeKnowledge(answer, known))
  }

  function StreamTurn(model: string, user: string, history: seq<Message>, knowledge: seq<string>, env: Env)
    : TurnResult
  {
    StreamOutcome(model, env.streamed(OpeningRequest(model, user, history, knowledge, true)), user, history, knowledge, env)
  }

  /** The arguments of the successive `onChunk` calls of a streamed turn. */
  function StreamEmitted(model: string, user: string, history: seq<Message>, knowledge: seq<string>, env: Env)
    : seq<string>
  {
    Emitted(env.streamed(OpeningRequest(model, user, history, knowledge, true)))
  }

  function BlockingTurn(model: string, user: string, history: seq<Message>, knowledge: seq<string>, env: Env)
    : TurnResult
  {
    BlockingOutcome(model, env.completed(OpeningRequest(model, user, history, knowledge, false)), user, history, knowledge, env)
  }

  // ---------------------------------------------------------------------
  // The handler

  class ChatHandler {
    /** The gateway address and key the client is built with. */
    var baseUrl: string
    var apiKey: string
    var model: string

    constructor(aiGatewayUrl: string, apiKey: string, model: string)
      ensures this.baseUrl == aiGatewayUrl && this.apiKey == apiKey && this.model == model
    {
      this.baseUrl := aiGatewayUrl;
      this.apiKey := apiKey;
      this.model := model;
    }

    /** Later turns use the new model; the client is untouched. */
    method UpdateModel(newModel: string)
      modifies this
      ensures model == newModel
      ensures baseUrl == old(baseUrl) && apiKey == old(apiKey)
    {
      model := newModel;
    }

    /** A turn: streamed when a chunk callback is given, blocking otherwise.
        `emitted` lists the callback's arguments in call order. */
    method ProcessMessage(message: string, history: seq<Message>, knowledge: seq<string>, onChunk: bool, env: Env)
      returns (result: TurnResult, emitted: seq<string>)
      ensures onChunk ==> result == StreamTurn(model, message, history, knowledge, env)
      ensures onChunk ==> emitted == StreamEmitted(model, message, history, knowledge, env)
      ensures !onChunk ==> result == BlockingTurn(model, message, history, knowledge, env) && emitted == []
    {
      var messages := BuildConversationMessages(message, history, knowledge);
      if onChunk {
        var stream := env.streamed(Request(model, messages, true, true));
        result, emitted := HandleStreamResponse(stream, message, history, knowledge, env);
      } else {
        var completion := env.completed(Request(model, messages, true, false));
        result := HandleNonStreamResponse(completion, message, history, knowledge, env);
        emitted := [];
      }
    }

    method HandleStreamResponse(stream: seq<Chunk>, message: string, history: seq<Message>,
                                knowledge: seq<string>, env: Env)
      returns (result: TurnResult, emitted: seq<string>)
      ensures result == StreamOutcome(model, stream, message, history, knowledge, env)
      ensures emitted == Emitted(stream)
    {
      var fullContent, slots;
      fullContent, emitted, slots := Accumulate(stream, env.clock);
      var newKnowledge := ParseKnowledge(fullContent, knowledge);
      var cleanContent := StripKnowledgeTags(fullContent);
      if |slots| > 0 {
        var executedTools := ExecuteToolCalls(slots, env.parse, env.execute);
        var finalResponse := FollowUpAnswer(model, message, history, slots, executedTools, env);
        result := TurnResult(finalResponse, Some(executedTools), newKnowledge);
      } else {
        result := TurnResult(cleanContent, None, newKnowledge);
      }
    }

    method HandleNonStreamResponse(completion: Option<AssistantMessage>, message: string, history: seq<Message>,
                                   knowledge: seq<string>, env: Env)
      returns (result: TurnResult)
      ensures result == BlockingOutcome(model, completion, message, history, knowledge, env)
    {
      if completion.None? {
        return TurnResult(Apology, None, knowledge);
      }
      var responseMessage := completion.value;
      var text := if responseMessage.content.Some? then responseMessage.content.value else "";
      var newKnowledge := ParseKnowledge(text, knowledge);
      var cleanContent := StripKnowledgeTags(text);
      if responseMessage.toolCalls.None? {
        return TurnResult(cleanContent, None, newKnowledge);
      }
      var toolCalls := ExecuteToolCalls(responseMessage.toolCalls.value, env.parse, env.execute);
      var finalResponse := FollowUpAnswer(model, message, history, responseMessage.toolCalls.value, toolCalls, env);
      var finalKnowledge := ParseKnowledge(finalResponse, newKnowledge);
      var finalCleanContent := StripKnowledgeTags(finalResponse);
      result := TurnResult(finalCleanContent, Some(toolCalls), finalKnowledge);
    }
  }

  // ---------------------------------------------------------------------
  // Properties of a turn

  /** Without a message the turn apologises and hands the knowledge back as
      it came, duplicates included. */
  lemma MissingReplyApologises(model: string, user: string, history: seq<Message>, knowledge: seq<string>, env: Env)
    ensures var r := BlockingOutcome(model, None, user, history, knowledge, env);
      r.content == Apology && r.toolCalls.None? && r.knowledge == knowledge
  {
  }

  /** On every other path the returned knowledge is free of duplicates,
      keeps the items already known in their order, and adds exactly the
      trimmed payloads of the text the path scans: the reply, and in the
      blocking tool path the follow-up answer as well. */
  lemma BlockingKnowledge(model: string, m: AssistantMessage, user: string, history: seq<Message>,
                          knowledge: seq<string>, env: Env)
    ensures var r := BlockingOutcome(model, Some(m), user, history, knowledge, env);
      && NoDup(r.knowledge)
      && (NoDup(knowledge) ==> |knowledge| <= |r.knowledge| && r.knowledge[..|knowledge|] == knowledge)
      && (m.toolCalls.None? ==>
            forall x :: x in r.knowledge <==> x in knowledge || x in TrimAll(Payloads(ReplyText(m))))
      && (m.toolCalls.Some? ==>
            var answer := FollowUpAnswer(model, user, history, m.toolCalls.value,
                                         ExecuteToolCalls(m.toolCalls.value, env.parse, env.execute), env);
            forall x :: x in r.knowledge <==>
              x in knowledge || x in TrimAll(Payloads(ReplyText(m))) || x in TrimAll(Payloads(answer)))
  {
    var text := ReplyText(m);
    var known := MergeKnowledge(text, knowledge);
    MergeKnowledgeProperties(text, knowledge);
    if NoDup(knowledge) {
      MergeKeepsDistinctKnowledge(text, knowledge);
    }
    if m.toolCalls.Some? {
      var answer := FollowUpAnswer(model, user, history, m.toolCalls.value,
                                   ExecuteToolCalls(m.toolCalls.value, env.parse, env.execute), env);
      MergeKnowledgeProperties(answer, known);
      MergeKeepsDistinctKnowledge(answer, known);
    }
  }

  /** A streamed turn records the trimmed payloads of the streamed text and
      nothing else, without duplicates, keeping the known items first. */
  lemma StreamKnowledge(model: string, chunks: seq<Chunk>, user: string, history: seq<Message>,
                        knowledge: seq<string>, env: Env)
    ensures var r := StreamOutcome(model, chunks, user, history, knowledge, env);
      && NoDup(r.knowledge)
      && (NoDup(knowledge) ==> |knowledge| <= |r.knowledge| && r.knowledge[..|knowledge|] == knowledge)
      && forall x :: x in r.knowledge <==> x in knowledge || x in TrimAll(Payloads(FullText(chunks)))
  {
    MergeKnowledgeProperties(FullText(chunks), knowledge);
    if NoDup(knowledge) {
      MergeKeepsDistinctKnowledge(FullText(chunks), knowledge);
    }
  }

  /** An empty `tool_calls` array is truthy: the turn still asks the model a
      second time, with no tool replies, and returns that answer. */
  lemma EmptyToolCallsStillFollowUp(model: string, content: Option<string>, user: string, history: seq<Message>,
                                    knowledge: seq<string>, env: Env)
    ensures var r := BlockingOutcome(model, Some(AssistantMessage(content, Some([]))), user, history, knowledge, env);
      && r.toolCalls == Some([])
      && r.content == StripKnowledgeTags(FollowUpAnswer(model, user, history, [], [], env))
  {
    assert ExecuteToolCalls([], env.parse, env.execute) == [];
  }

  /** Without tool calls, a stream and a blocking reply carrying the same
      text give the same turn. */
  lemma StreamAgreesWithBlocking(model: string, chunks: seq<Chunk>, user: string, history: seq<Message>,
                                 knowledge: seq<string>, env: Env)
    requires MaxWidth(chunks) == 0
    ensures StreamOutcome(model, chunks, user, history, knowledge, env)
         == BlockingOutcome(model, Some(AssistantMessage(Some(FullText(chunks)), None)), user, history, knowledge, env)
  {
  }

  /** In a streamed turn with tool calls, each call is executed under the
      id, name and argument text assembled in its slot; the ids are never
      empty. */
  lemma StreamToolCalls(model: string, chunks: seq<Chunk>, user: string, history: seq<Message>,
                        knowledge: seq<string>, env: Env)
    requires 0 < MaxWidth(chunks)
    ensures var r := StreamOutcome(model, chunks, user, history, knowledge, env);
      && r.toolCalls.Some?
      && |r.toolCalls.value| == MaxWidth(chunks)
      && forall i :: 0 <= i < MaxWidth(chunks) ==>
           && r.toolCalls.value[i] == Execute(Slot(chunks, env.clock, i), env.parse, env.execute)
           && r.toolCalls.value[i].id == SlotId(chunks, env.clock, i) != ""
           && r.toolCalls.value[i].name == SlotName(chunks, i)
  {
    var slots := Slots(chunks, env.clock);
    var executed := ExecuteToolCalls(slots, env.parse, env.execute);
    assert StreamOutcome(model, chunks, user, history, knowledge, env).toolCalls == Some(executed);
    forall i | 0 <= i < MaxWidth(chunks)
      ensures executed[i] == Execute(Slot(chunks, env.clock, i), env.parse, env.execute)
      ensures executed[i].id == SlotId(chunks, env.clock, i) != ""
      ensures executed[i].name == SlotName(chunks, i)
    {
      assert slots[i] == Slot(chunks, env.clock, i);
      SlotIdNonEmpty(chunks, env.clock, i);
    }
  }

  /** The two paths treat the follow-up answer differently: a stream returns
      it as it is and never scans it for markers, while a blocking turn
      strips it and records its payloads. */
  lemma FollowUpAnswerTreatment(model: string, chunks: seq<Chunk>, m: AssistantMessage, user: string,
                                history: seq<Message>, knowledge: seq<string>, env: Env)
    requires 0 < MaxWidth(chunks) && m.toolCalls.Some?
    ensures var r := StreamOutcome(model, chunks, user, history, knowledge, env);
      var slots := Slots(chunks, env.clock);
      r.content == FollowUpAnswer(model, user, history, slots, ExecuteToolCalls(slots, env.parse, env.execute), env)
      && r.knowledge == MergeKnowledge(FullText(chunks), knowledge)
    ensures var r := BlockingOutcome(model, Some(m), user, history, knowledge, env);
      var answer := FollowUpAnswer(model, user, history, m.toolCalls.value,
                                   ExecuteToolCalls(m.toolCalls.value, env.parse, env.execute), env);
      r.content == StripKnowledgeTags(answer)
      && r.knowledge == MergeKnowledge(answer, MergeKnowledge(ReplyText(m), knowledge))
  {
  }

  /** A follow-up answer that is only a marker strips to nothing, and its
      trimmed payload is recorded: this is what the blocking turn does with
      the answer (see `FollowUpAnswerTreatment`, which also shows that a
      stream returns the answer as it is). */
  lemma MarkerInFollowUpAnswer(p: string, knowledge: seq<string>)
    requires IsPayload(p)
    ensures StripKnowledgeTags(Open + p + "]") == ""
    ensures Trim(p) in MergeKnowledge(Open + p + "]", knowledge)
  {
    MarkerAlone(p);
    MergeKnowledgeProperties(Open + p + "]", knowledge);
    assert TrimAll([p])[0] == Trim(p);
  }
}
