/**
 * The native chat operation: coerce the model mode, decide between a new
 * conversation and a continuation, build the upstream request, and turn the
 * upstream reply into a result (text, ids, usage) or an error. The HTTP
 * exchange itself is an input: the reply the upstream gave.
 */
module Router {
  import opened Wrappers
  import opened Payloads
  import opened StreamParser
  import opened TokenCount

  /** The model modes the upstream accepts. */
  const ModelModes: seq<string> := [
    "MODEL_MODE_AUTO",
    "MODEL_MODE_FAST",
    "MODEL_MODE_ACCURATE",
    "MODEL_MODE_REASONING"
  ]

  const ModeAuto := "MODEL_MODE_AUTO"

  const BaseUrl := "https://grok.ylsagi.com"

  /** Every conversation resource lives under this prefix. */
  const ConversationsPrefix := BaseUrl + "/rest/app-chat/conversations/"

  const ResponsesSuffix := "/responses"

  /** The longest error-body excerpt kept from a failed upstream call. */
  const ErrorExcerptLimit := 500

  /** Python truthiness of an optional string: present and non-empty. */
  predicate Truthy(o: Option<string>) {
    o.Some? && o.value != ""
  }

  /** An unknown (or absent) mode becomes the automatic mode; a known one is kept. */
  function CoerceModelMode(modelMode: Option<string>): (m: string)
    ensures m in ModelModes
    ensures modelMode.Some? && modelMode.value in ModelModes ==> m == modelMode.value
    ensures !(modelMode.Some? && modelMode.value in ModelModes) ==> m == ModeAuto
  {
    if modelMode.Some? && modelMode.value in ModelModes then modelMode.value else ModeAuto
  }

  /** Which upstream resource a request goes to. */
  datatype Route = NewConversation | Continuation(conversationId: string, parentResponseId: string)

  /**
   * A request continues a conversation exactly when both the conversation id and
   * the parent response id are non-empty; one without the other starts a new one.
   */
  function Classify(conversationId: Option<string>, parentResponseId: Option<string>): (r: Route)
    ensures r.Continuation? <==> Truthy(conversationId) && Truthy(parentResponseId)
    ensures r.Continuation? ==>
              r.conversationId == conversationId.value && r.parentResponseId == parentResponseId.value
  {
    if Truthy(conversationId) && Truthy(parentResponseId) then
      Continuation(conversationId.value, parentResponseId.value)
    else
      NewConversation
  }

  /** The upstream URL of a route. */
  function EndpointUrl(route: Route): string {
    match route
    case NewConversation => ConversationsPrefix + "new"
    case Continuation(conversationId, _) => ConversationsPrefix + conversationId + ResponsesSuffix
  }

  /** Reads the conversation id back out of a continuation URL. */
  function ConversationOfUrl(url: string): Option<string> {
    var p, s := |ConversationsPrefix|, |ResponsesSuffix|;
    if p + s <= |url| && url[..p] == ConversationsPrefix && url[|url| - s..] == ResponsesSuffix
    then Some(url[p..|url| - s])
    else None
  }

  /**
   * The continuation URL carries exactly the request's conversation id, and the
   * new-conversation URL carries none; so the two endpoints never coincide.
   */
  lemma EndpointRoundTrip(route: Route)
    ensures ConversationOfUrl(EndpointUrl(route))
         == if route.Continuation? then Some(route.conversationId) else None
    ensures route.Continuation? ==> EndpointUrl(route) != EndpointUrl(NewConversation)
  {
    var p, s := |ConversationsPrefix|, |ResponsesSuffix|;
    var url := EndpointUrl(route);
    if route.Continuation? {
      var c := route.conversationId;
      assert url[..p] == ConversationsPrefix;
      assert url[|url| - s..] == ResponsesSuffix;
      assert url[p..|url| - s] == c;
    }
    assert |EndpointUrl(NewConversation)| == p + 3;
  }

  /** The body a route calls for. */
  function BuildPayload(route: Route, message: string, model: string, modelMode: string): Payload {
    match route
    case NewConversation => BuildPayloadNew(message, model, modelMode)
    case Continuation(_, parentResponseId) => BuildPayloadContinue(message, parentResponseId, model, modelMode)
  }

  /** What is sent upstream. Headers, cookie and timeout are not modelled. */
  datatype UpstreamRequest = UpstreamRequest(url: string, payload: Payload)

  /**
   * The request sent upstream: the continuation resource and body exactly when
   * both ids are non-empty, the new-conversation ones otherwise; always with the
   * message, the model and a supported mode.
   */
  function PrepareRequest(message: string, model: string, modelMode: Option<string>,
                          conversationId: Option<string>, parentResponseId: Option<string>)
    : (req: UpstreamRequest)
    ensures req.payload.message == message && ModelOf(req.payload) == model
    ensures req.payload.modelMode == CoerceModelMode(modelMode) && Mirrored(req.payload)
    ensures req.payload.ContinuationBody? <==> Truthy(conversationId) && Truthy(parentResponseId)
    ensures req.payload.ContinuationBody? ==>
              && ConversationOfUrl(req.url) == conversationId
              && ParentOf(req.payload) == parentResponseId.value
    ensures req.payload.NewConversationBody? ==>
              req.url == ConversationsPrefix + "new" && ConversationOfUrl(req.url) == None
    ensures req.payload == if Truthy(conversationId) && Truthy(parentResponseId)
                           then BuildPayloadContinue(message, parentResponseId.value, model, CoerceModelMode(modelMode))
                           else BuildPayloadNew(message, model, CoerceModelMode(modelMode))
  {
    var route := Classify(conversationId, parentResponseId);
    EndpointRoundTrip(route);
    UpstreamRequest(EndpointUrl(route), BuildPayload(route, message, model, CoerceModelMode(modelMode)))
  }

  /**
   * The upstream's reply: a timeout, a transport failure that is not a timeout
   * (connection refused, name resolution, TLS), or a status, the body text and
   * the body's lines.
   */
  datatype Upstream = TimedOut | Unreachable | Reply(status: int, body: string, lines: seq<Line>)

  datatype Usage = Usage(promptTokens: nat, completionTokens: nat, totalTokens: nat)

  /** The result of a successful exchange. */
  datatype ChatOutcome = ChatOutcome(
    response: string,
    conversationId: Option<string>,
    responseId: Option<string>,
    isNewConversation: bool,
    modelUsed: string,
    modelModeUsed: string,
    tokenUsage: Usage)

  /** Why an exchange failed. */
  datatype ChatError =
    | MessageRequired
    | RequestTimeout
    | ConnectionFailed
    | UpstreamStatus(status: int, excerpt: string)
    | NoResponseText

  /** At most the first `n` characters of `s`. */
  function Truncate(s: string, n: nat): (t: string)
    ensures t <= s && |t| <= n
    ensures |t| == if |s| <= n then |s| else n
  {
    if |s| <= n then s else s[..n]
  }

  /**
   * One exchange with the upstream. A reply other than 200 fails with the status
   * and at most 500 characters of the body; a 200 reply whose parsed text is
   * empty fails too. Otherwise the result carries the parsed text and response
   * id, the request's conversation id unless this was a new conversation and the
   * stream named a non-empty one, and token usage whose total is the sum of the
   * prompt and completion counts.
   */
  function ProcessChatRequest(counter: TokenCounter, message: string, model: string,
                              modelMode: Option<string>, conversationId: Option<string>,
                              parentResponseId: Option<string>, upstream: Upstream)
    : (r: Result<ChatOutcome, ChatError>)
    ensures upstream.TimedOut? ==> r == Failure(RequestTimeout)
    ensures upstream.Unreachable? ==> r == Failure(ConnectionFailed)
    ensures upstream.Reply? && upstream.status != 200 ==>
              && r.Failure? && r.error.UpstreamStatus? && r.error.status == upstream.status
              && r.error.excerpt <= upstream.body && |r.error.excerpt| <= ErrorExcerptLimit
              && |r.error.excerpt| == (if |upstream.body| <= ErrorExcerptLimit then |upstream.body| else ErrorExcerptLimit)
    ensures upstream.Reply? && upstream.status == 200 && Parse(upstream.lines).text == "" ==>
              r == Failure(NoResponseText)
    ensures r.Success? <==> upstream.Reply? && upstream.status == 200 && Parse(upstream.lines).text != ""
    ensures r.Success? ==>
              var o, p := r.value, Parse(upstream.lines);
              && o.response == p.text && o.responseId == p.responseId
              && o.response != ""
              && (o.isNewConversation <==> !(Truthy(conversationId) && Truthy(parentResponseId)))
              && (o.isNewConversation <==>
                    PrepareRequest(message, model, modelMode, conversationId, parentResponseId).payload.NewConversationBody?)
              && (!o.isNewConversation ==> o.conversationId == conversationId)
              && (o.isNewConversation && Truthy(p.conversationId) ==> o.conversationId == p.conversationId)
              && (o.isNewConversation && !Truthy(p.conversationId) ==> o.conversationId == conversationId)
              && o.modelUsed == model && o.modelModeUsed == CoerceModelMode(modelMode)
              && o.tokenUsage.promptTokens == CountTokens(counter, message)
              && o.tokenUsage.completionTokens == CountTokens(counter, o.response)
              && o.tokenUsage.totalTokens == o.tokenUsage.promptTokens + o.tokenUsage.completionTokens
  {
    var mode := CoerceModelMode(modelMode);
    var inputTokens := CountTokens(counter, message);
    var isNew := Classify(conversationId, parentResponseId).NewConversation?;
    match upstream
    case TimedOut => Failure(RequestTimeout)
    case Unreachable => Failure(ConnectionFailed)
    case Reply(status, body, lines) =>
      if status == 200 then
        var parsed := Parse(lines);
        var resolvedId := if isNew && Truthy(parsed.conversationId) then parsed.conversationId else conversationId;
        if parsed.text == "" then Failure(NoResponseText)
        else
          var outputTokens := CountTokens(counter, parsed.text);
          Success(ChatOutcome(parsed.text, resolvedId, parsed.responseId, isNew, model, mode,
                              Usage(inputTokens, outputTokens, inputTokens + outputTokens)))
      else
        Failure(UpstreamStatus(status, Truncate(body, ErrorExcerptLimit)))
  }

  /** The native chat request. The cookie only reaches a header and is not modelled. */
  datatype ChatRequest = ChatRequest(
    message: string,
    model: string,
    modelMode: Option<string>,
    conversationId: Option<string>,
    parentResponseId: Option<string>)

  /** The native chat reply: success with data, or failure with an error. */
  datatype ChatResponse = ChatResponse(success: bool, data: Option<ChatOutcome>, error: Option<ChatError>)

  /**
   * The native chat operation: an empty message is refused whatever the upstream
   * reply is; otherwise the exchange's result is reported, as data on success and as
   * an error on failure.
   */
  function Chat(counter: TokenCounter, request: ChatRequest, upstream: Upstream): (resp: ChatResponse)
    ensures request.message == "" ==> resp == ChatResponse(false, None, Some(MessageRequired))
    ensures resp.success <==> resp.data.Some?
    ensures resp.success <==> resp.error.None?
    ensures request.message != "" ==>
              var r := ProcessChatRequest(counter, request.message, request.model, request.modelMode,
                                          request.conversationId, request.parentResponseId, upstream);
              && (resp.success <==> r.Success?)
              && (r.Success? ==> resp.data == Some(r.value))
              && (r.Failure? ==> resp.error == Some(r.error))
  {
    if request.message == "" then
      ChatResponse(false, None, Some(MessageRequired))
    else
      match ProcessChatRequest(counter, request.message, request.model, request.modelMode,
                               request.conversationId, request.parentResponseId, upstream)
      case Success(o) => ChatResponse(true, Some(o), None)
      case Failure(e) => ChatResponse(false, None, Some(e))
  }
}
