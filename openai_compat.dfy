/**
 * The OpenAI-compatible chat-completions operation: pick the last system and
 * the last user message, prepend the system prompt, run one exchange with the
 * upstream, and answer with one aggregate completion or with a fixed sequence
 * of stream chunks (role, content, stop) followed by the end sentinel.
 */
module OpenAICompat {
  import opened Wrappers
  import opened TokenCount
  import opened Router

  datatype Role = System | User | Assistant

  datatype Message = Message(role: Role, content: string)

  /**
   * A chat-completions request. Temperature and max_tokens are accepted by the
   * endpoint but never read, so they are not part of the model.
   */
  datatype OpenAIRequest = OpenAIRequest(
    model: string,
    messages: seq<Message>,
    stream: bool,
    metadata: map<string, string>)

  /** The index of the last message with the given role, if any. */
  function LastIndexOf(messages: seq<Message>, role: Role): (k: Option<nat>)
    ensures k.Some? ==>
              && k.value < |messages| && messages[k.value].role == role
              && forall j | k.value < j < |messages| :: messages[j].role != role
    ensures k.None? ==> forall j | 0 <= j < |messages| :: messages[j].role != role
    decreases |messages|
  {
    if messages == [] then None
    else if messages[|messages| - 1].role == role then Some(|messages| - 1)
    else
      var k := LastIndexOf(messages[..|messages| - 1], role);
      assert forall j | 0 <= j < |messages| - 1 :: messages[..|messages| - 1][j] == messages[j];
      k
  }

  /** The content of the last message with the given role, or "" when there is none. */
  function LastContent(messages: seq<Message>, role: Role): string {
    match LastIndexOf(messages, role)
    case Some(k) => messages[k].content
    case None => ""
  }

  /** A message appended at the end wins for its own role and changes nothing for the others. */
  lemma LastContentAppend(messages: seq<Message>, m: Message, role: Role)
    ensures LastContent(messages + [m], role) == if m.role == role then m.content else LastContent(messages, role)
  {
    assert (messages + [m])[..|messages|] == messages;
  }

  /**
   * A message followed only by messages of other roles is the one used for its
   * role, whatever earlier messages of that role said: an empty last user
   * message hides a non-empty earlier one.
   */
  lemma {:induction false} LastMessageWins(a: seq<Message>, m: Message, b: seq<Message>)
    requires forall j | 0 <= j < |b| :: b[j].role != m.role
    ensures LastContent(a + [m] + b, m.role) == m.content
    decreases |b|
  {
    if b == [] {
      assert a + [m] + b == a + [m];
      LastContentAppend(a, m, m.role);
    } else {
      var front := b[..|b| - 1];
      assert a + [m] + b == (a + [m] + front) + [b[|b| - 1]];
      LastContentAppend(a + [m] + front, b[|b| - 1], m.role);
      LastMessageWins(a, m, front);
    }
  }

  /** The message sent upstream: the system prompt, a blank line, then the user message. */
  function Prompt(system: string, user: string): string {
    if system != "" then system + "\n\n" + user else user
  }

  /** A metadata entry, if present. */
  function Get(metadata: map<string, string>, key: string): Option<string> {
    if key in metadata then Some(metadata[key]) else None
  }

  /** The mode named in the metadata, the automatic mode by default. */
  function MetadataMode(metadata: map<string, string>): Option<string> {
    Some(Get(metadata, "model_mode").GetOr(ModeAuto))
  }

  // ---------------------------------------------------------------------------
  // Replies.
  // ---------------------------------------------------------------------------

  datatype Delta = RoleDelta(role: Role) | ContentDelta(content: string) | EmptyDelta

  /** One server-sent event: a chunk (always choice 0) or the `[DONE]` sentinel. */
  datatype StreamEvent = Chunk(model: string, delta: Delta, finishReason: Option<string>) | Done

  /** The aggregate completion (choice 0, role assistant). */
  datatype Completion = Completion(model: string, content: string, finishReason: string, usage: Usage)

  datatype OpenAIReply = CompletionReply(completion: Completion) | EventStream(events: seq<StreamEvent>)

  datatype ErrorDetail = NoUserMessage | Failed(error: ChatError)

  datatype HttpError = HttpError(status: int, detail: ErrorDetail)

  /**
   * A stream a client can follow: it opens with the assistant role, every event
   * before the sentinel is a chunk, only the chunk just before the sentinel
   * carries a finish reason ("stop"), and the sentinel comes last.
   */
  predicate WellFormedStream(events: seq<StreamEvent>) {
    && |events| >= 2
    && events[|events| - 1] == Done
    && (forall i | 0 <= i < |events| - 1 :: events[i].Chunk?)
    && events[0].Chunk? && events[0].delta == RoleDelta(Assistant)
    && events[|events| - 2].Chunk? && events[|events| - 2].finishReason == Some("stop")
    && (forall i | 0 <= i < |events| - 2 :: events[i].Chunk? && events[i].finishReason.None?)
  }

  /** The text a client assembles: the content deltas, in order, up to the sentinel. */
  function ClientText(events: seq<StreamEvent>): string
    decreases |events|
  {
    if events == [] || events[0].Done? then ""
    else (if events[0].delta.ContentDelta? then events[0].delta.content else "") + ClientText(events[1..])
  }

  /** The streamed reply: role chunk, content chunk, stop chunk, then the sentinel. */
  function StreamChunks(model: string, content: string): (events: seq<StreamEvent>)
    ensures |events| == 4 && WellFormedStream(events)
    ensures events[1].delta == ContentDelta(content) && events[2].delta == EmptyDelta
    ensures forall i | 0 <= i < |events| - 1 :: events[i].model == model
    ensures ClientText(events) == content
  {
    var events := [
      Chunk(model, RoleDelta(Assistant), None),
      Chunk(model, ContentDelta(content), None),
      Chunk(model, EmptyDelta, Some("stop")),
      Done
    ];
    assert ClientText(events[3..]) == "";
    assert ClientText(events[2..]) == "" by {
      assert events[2..][1..] == events[3..];
    }
    assert ClientText(events[1..]) == content by {
      assert events[1..][1..] == events[2..];
    }
    events
  }

  /**
   * The chat-completions operation. With no non-empty last user message it
   * answers 400 and sends nothing. Otherwise it sends the prompt built from the
   * last system and last user messages, with the mode, conversation id and parent
   * response id taken from the metadata; a failed exchange answers 500 with its
   * error, a successful one the stream or the aggregate completion.
   */
  method OpenAIChat(counter: TokenCounter, request: OpenAIRequest, upstream: Upstream)
    returns (sent: Option<UpstreamRequest>, reply: Result<OpenAIReply, HttpError>)
    ensures LastContent(request.messages, User) == "" ==>
              sent.None? && reply == Failure(HttpError(400, NoUserMessage))
    ensures LastContent(request.messages, User) != "" ==>
              var prompt := Prompt(LastContent(request.messages, System), LastContent(request.messages, User));
              var mode := MetadataMode(request.metadata);
              var conversationId := Get(request.metadata, "conversation_id");
              var parentResponseId := Get(request.metadata, "parent_response_id");
              var r := ProcessChatRequest(counter, prompt, request.model, mode, conversationId, parentResponseId, upstream);
              && sent == Some(PrepareRequest(prompt, request.model, mode, conversationId, parentResponseId))
              && (r.Failure? ==> reply == Failure(HttpError(500, Failed(r.error))))
              && (r.Success? && request.stream ==>
                    reply == Success(EventStream(StreamChunks(request.model, r.value.response))))
              && (r.Success? && !request.stream ==>
                    reply == Success(CompletionReply(Completion(request.model, r.value.response, "stop", r.value.tokenUsage))))
  {
    var userMessage := "";
    var systemMessage := "";
    for i := 0 to |request.messages|
      invariant systemMessage == LastContent(request.messages[..i], System)
      invariant userMessage == LastContent(request.messages[..i], User)
    {
      var msg := request.messages[i];
      assert request.messages[..i + 1] == request.messages[..i] + [msg];
      LastContentAppend(request.messages[..i], msg, System);
      LastContentAppend(request.messages[..i], msg, User);
      if msg.role == System {
        systemMessage := msg.content;
      } else if msg.role == User {
        userMessage := msg.content;
      }
    }
    assert request.messages[..|request.messages|] == request.messages;

    if userMessage == "" {
      sent := None;
      reply := Failure(HttpError(400, NoUserMessage));
      return;
    }
    if systemMessage != "" {
      userMessage := systemMessage + "\n\n" + userMessage;
    }

    var metadata := request.metadata;
    var mode := MetadataMode(metadata);
    var conversationId := Get(metadata, "conversation_id");
    var parentResponseId := Get(metadata, "parent_response_id");
    sent := Some(PrepareRequest(userMessage, request.model, mode, conversationId, parentResponseId));
    var result := ProcessChatRequest(counter, userMessage, request.model, mode, conversationId, parentResponseId, upstream);
    match result
    case Failure(e) =>
      reply := Failure(HttpError(500, Failed(e)));
    case Success(outcome) =>
      if request.stream {
        reply := Success(EventStream(StreamChunks(request.model, outcome.response)));
      } else {
        reply := Success(CompletionReply(Completion(request.model, outcome.response, "stop", outcome.tokenUsage)));
      }
  }
}
