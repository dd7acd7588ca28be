# Grok Mirror API relay — Dafny model

A model of the core of a small HTTP relay. The relay takes a chat request in
its own "native" format or in the OpenAI chat-completions format and forwards it
to an upstream conversational backend. It classifies the request as a new
conversation or a continuation and builds the matching upstream body. It then
parses the backend's newline-delimited JSON stream into a text, a response id
and a conversation id. It answers with one aggregate result, or, in the OpenAI
format, with a fixed sequence of stream chunks. Token usage is estimated along
the way.

Files:

- `wrappers.dfy` — `Option` and `Result`.
- `token_count.dfy` — the token counter. It uses a sub-word encoder when one is available and falls back to a heuristic: two tokens per CJK ideograph plus one per whitespace-separated word, as Python's `str.split()` splits.
- `payloads.dfy` — the new-conversation body and the continuation body.
- `stream_parser.dfy` — one stream line as a value, the parser as a fold, the parser's loop proved equal to that fold, and the fold's properties.
- `router.dfy` — mode coercion, routing, the upstream request, one exchange with the upstream (`ProcessChatRequest`), and the native chat operation.
- `openai_compat.dfy` — the OpenAI-compatible operation: message extraction, prompt, error mapping, and the stream chunk sequence.

The HTTP exchange is not performed. The model takes the upstream's reply as an
input: a timeout, another transport failure, or a status with the body text and the body's lines, each
line already classified as blank, malformed, or a decoded object.

## Model

| member | source | states |
|---|---|---|
| TokenCount.CountTokens | main.py:66-80 | An empty text counts 0. With a loaded encoder that encodes the text, the count is the encoder's. Without an encoder, or when encoding raises, the count is the heuristic: two per CJK ideograph plus the number of words. |
| TokenCount.WordLength | main.py:79 | The leading word of a text contains no whitespace and is followed by whitespace or the end of the text. |
| TokenCount.SplitWhitespace | main.py:79 | The words are non-empty and whitespace-free, and together they are exactly the text's non-whitespace characters, in order. |
| TokenCount.SimpleCountZeroIffBlank | main.py:77-80 | The heuristic gives 0 if and only if the text is all whitespace. |
| TokenCount.SplitAtSpace | main.py:79 | Splitting a text at a whitespace character gives the words of the left part followed by the words of the right part. |
| TokenCount.SimpleCountAdditive | main.py:77-80 | For two texts joined by a whitespace character, the heuristic count is the sum of their counts. |
| TokenCount.SplitJoinRoundTrip | main.py:79 | Splitting words joined with single spaces gives the same words back. |
| Payloads.BuildPayloadNew | main.py:153-186 | A new-conversation body with the fixed toggles, the message, the model and the mode. `requestModelDetails` repeats the model and the mode. The body is not temporary. |
| Payloads.BuildPayloadContinue | main.py:188-231 | A continuation body with the fixed toggles, the message, the model, the mode and the parent response id. The model and the mode "auto" are repeated in `request_metadata`. The continuation-only fields keep their fixed values: an empty custom personality, and artifacts, file origin, regeneration and skip-cancel all off. |
| StreamParser.Consumed | main.py:247-282 | The lines the parser reads are a prefix of the stream: the whole stream when no line soft-stops, otherwise up to and including the first soft-stopping line. |
| StreamParser.ParseStreamingResponse | main.py:237-318 | The parser's loop computes exactly the fold `Parse` over the lines. |
| StreamParser.RunAppend | main.py:247-306 | Parsing a concatenation reads the second part only when the first part did not soft-stop. |
| StreamParser.BlankLineIsSkipped | main.py:247-249 | A blank line changes nothing, not even the line count. |
| StreamParser.UnusableLineOnlyCounts | main.py:248-306 | A malformed line, or one without `result`, only adds one to the line count when it is read. The lines after it are still read. |
| StreamParser.SoftStopEndsStream | main.py:280-282 | No line after the first soft-stopping line is read. |
| StreamParser.SoftStopLineIgnoresLaterFields | main.py:280-299 | On a soft-stopping line only the nested `response` record is applied. The line's `conversation`, flat token and flat ids are not. |
| StreamParser.MessageReplacesThenFlatTokenAppends | main.py:272-293 | A full message replaces the text, and the same line's flat token is then appended to it. |
| StreamParser.TokensAppend | main.py:264-267 | A line without a full message appends its nested token and then its flat token. |
| StreamParser.RunText | main.py:247-306 | Starting from any accumulator, the text is the backward reference `TextAfter` over the lines read. |
| StreamParser.ParseText | main.py:264-293 | The parsed text is the last full message read plus the tokens read after it, or, without a full message, all tokens read in order. |
| StreamParser.MessageDiscardsEarlierText | main.py:272-275 | A full message discards every token read before it. |
| StreamParser.RunResponseId | main.py:269-299 | Starting from any accumulator, the response id is the last one written by a line that was read, or the starting one. |
| StreamParser.RunConversationId | main.py:284-296 | Starting from any accumulator, the conversation id is the last one written by a line that was read, or the starting one. |
| StreamParser.ParseIds | main.py:269-299 | Both ids are last-writer-wins over the lines read. |
| StreamParser.RunLineCount | main.py:247-249 | The line count grows by the number of non-blank lines read. |
| StreamParser.ParseLineCount | main.py:247-249 | The line count is the number of non-blank lines read, which is all of them when no line soft-stops. |
| StreamParser.TwoTokenLinesExample | main.py:237-318 | Two token lines, the second one carrying the ids, give "Hi there" with response id r1, conversation id c1 and two lines. |
| StreamParser.FullMessageExample | main.py:272-275 | A full message after two tokens leaves exactly the message. |
| Router.CoerceModelMode | main.py:335-337 | The mode used is always supported. A supported mode is kept and any other becomes `MODEL_MODE_AUTO`. |
| Router.Classify | main.py:345-355 | The request is a continuation if and only if both the conversation id and the parent response id are non-empty. The continuation carries those two ids. |
| Router.EndpointRoundTrip | main.py:349-353 | The continuation URL gives back exactly its conversation id, the new-conversation URL gives back none, and the two URLs differ. |
| Router.PrepareRequest | main.py:345-355 | The upstream request carries the message, the model and a coerced mode. It uses the continuation body exactly when both ids are non-empty. Its URL then names the conversation and its parent is the given response id. Otherwise the URL is exactly the `.../conversations/new` resource. The body is exactly the matching builder's body, toggles and fixed fields included. |
| Router.Truncate | main.py:407 | The result is the prefix of length min(length, n): the first n characters (500 for the error excerpt), or the whole text when it is shorter. |
| Router.ProcessChatRequest | main.py:324-408 | A timeout, any other transport failure, a non-200 status with the body's first 500 characters, or an empty parsed text is a failure. Otherwise the result has the parsed text and response id. The conversation id is the request's, except for a new conversation whose stream named a non-empty one. The mode is coerced. The total token count is prompt plus completion. |
| Router.Chat | main.py:445-471 | An empty message is refused whatever the upstream reply is. Otherwise success with data, or failure with the exchange's error. |
| OpenAICompat.LastIndexOf | main.py:513-517 | The index found holds the last message of the role, or no message has the role. |
| OpenAICompat.LastContentAppend | main.py:513-517 | An appended message decides its own role's content and leaves the other roles' content unchanged. |
| OpenAICompat.LastMessageWins | main.py:513-519 | A message followed only by messages of other roles is the one used for its role. An empty last user message hides earlier ones. |
| OpenAICompat.StreamChunks | main.py:541-581 | Exactly four events in this order: the assistant-role delta, the content delta, an empty delta with finish reason "stop", then the sentinel. Only the third has a finish reason. All chunks carry the request's model. A client reassembles exactly the content. |
| OpenAICompat.OpenAIChat | main.py:509-614 | Without a non-empty last user message: 400, and nothing is sent. Otherwise the upstream gets the last system message, a blank line and the last user message, with mode and ids from the metadata. A failed exchange gives 500. A successful one gives the stream or the aggregate completion with its usage. |

## Left out

- HTTP transport, headers, the cookie (default or caller-supplied), the 60 second timeout value, request ids and the fixed statsig header are not modelled. They only reach headers or the network.
- A transport failure other than a timeout (connection refused, name resolution, TLS) is one `Unreachable` reply. It fails the exchange, and the OpenAI-compatible endpoint then answers 500. The kind of failure is not distinguished.
- The upstream's reply is an input. The body text used for the error excerpt and the body's lines are independent inputs, although in reality they are two views of one body.
- UTF-8 decoding and `json.loads` are not modelled. Each line arrives already classified as blank, malformed, or a decoded object.
- An error raised while iterating the body ends the stream in the source. The model's line sequence is whatever was received before that.
- Stream fields are typed as strings and booleans. A value of another JSON type that raises midway through a line is not modelled, so the partial update the source keeps before its `except` is left out. So is an `isSoftStop` value that is truthy without being `true`. A JSON `null` field value is not modelled either: in the source a `null` `responseId` or `conversationId` clears the stored id, and a `null` `message` sets the text to `None`. In the model a present field always carries a string.
- `null` values for the model, mode or metadata entries are not modelled. The metadata is a map of strings.
- Payloads: the keys whose value is always an empty object or an empty list are not fields of the body records.
- TokenCount.CountTokens: the sub-word encoder is foreign code and is a parameter. Its counts are not constrained.
- The error messages ("Error: …", "Request failed with status …") are not modelled as strings. The error cases are a datatype that carries the status and the body excerpt.
- OpenAI replies: chunk ids, timestamps, the `object` field, the JSON serialisation and the `data: …` server-sent-event framing are not modelled. The events are values.
- The static endpoints (service info, health, model list, mode list) and the token-count endpoint are not modelled. They return constants, or call `CountTokens` directly.
- Logging and the web framework setup (CORS, startup) are not modelled.
- A decoded line is a record, with no key order. So the order of keys in the line's JSON text cannot affect the result; the fields are applied in the parser's own fixed order.
- Conversation-id resolution follows the code, `main.py:381-382`: the parser's id replaces the request's only for a new conversation, and only when it is non-empty. On a continuation the request's id is kept even if the stream names another.
- Routing follows the code: an empty conversation id or parent response id counts as absent. This is Python truthiness, not mere presence.
