/**
 * The upstream backend answers with newline-delimited JSON records. This module
 * models one such line as an already-classified value, the fold that turns the
 * sequence of lines into an accumulated result (text, response id, conversation
 * id, count of non-blank lines), the imperative parser loop proved equal to that
 * fold, and the properties of the fold: blank and unusable lines are skipped,
 * tokens are appended, a full message replaces the text, a soft stop ends the
 * stream, and ids are last-writer-wins.
 */
module StreamParser {
  import opened Wrappers

  // ---------------------------------------------------------------------------
  // One upstream line. Every field path of the loosely-typed record is optional.
  // ---------------------------------------------------------------------------

  /** `result.response.modelResponse`: a final, full message and its id. */
  datatype ModelResponse = ModelResponse(message: Option<string>, responseId: Option<string>)

  /** `result.response`: an incremental token, ids, a full message, a soft-stop flag. */
  datatype InnerResponse = InnerResponse(
    token: Option<string>,
    responseId: Option<string>,
    modelResponse: Option<ModelResponse>,
    isSoftStop: Option<bool>)

  /** `result.conversation`. */
  datatype Conversation = Conversation(conversationId: Option<string>)

  /** `result`, with the nested wrappers and the flat fallback fields. */
  datatype ResultRec = ResultRec(
    response: Option<InnerResponse>,
    conversation: Option<Conversation>,
    token: Option<string>,
    conversationId: Option<string>,
    responseId: Option<string>)

  /**
   * A line of the stream: empty, not decodable as UTF-8 JSON, or a decoded
   * object whose `result` key may be absent.
   */
  datatype Line = Blank | Malformed | Obj(result: Option<ResultRec>)

  /** What the parser has accumulated so far. */
  datatype Parsed = Parsed(
    text: string,
    responseId: Option<string>,
    conversationId: Option<string>,
    lineCount: nat)

  const Initial := Parsed("", None, None, 0)

  /** A value written by a later field replaces the current one. */
  function Override<T>(current: Option<T>, written: Option<T>): Option<T> {
    if written.Some? then written else current
  }

  // ---------------------------------------------------------------------------
  // Field paths of a line.
  // ---------------------------------------------------------------------------

  function Record(l: Line): Option<ResultRec> {
    if l.Obj? then l.result else None
  }

  function Inner(l: Line): Option<InnerResponse> {
    match Record(l)
    case Some(r) => r.response
    case None => None
  }

  function ModelResp(l: Line): Option<ModelResponse> {
    match Inner(l)
    case Some(i) => i.modelResponse
    case None => None
  }

  /** `result.response.isSoftStop` is present and true. */
  predicate SoftStop(l: Line) {
    Inner(l).Some? && Inner(l).value.isSoftStop == Some(true)
  }

  /** `result.response.modelResponse.message` is present. */
  predicate HasMessage(l: Line) {
    ModelResp(l).Some? && ModelResp(l).value.message.Some?
  }

  function MessageOf(l: Line): string
    requires HasMessage(l)
  {
    ModelResp(l).value.message.value
  }

  /** `result.response.token`; an absent or empty token contributes nothing. */
  function NestedToken(l: Line): string {
    match Inner(l)
    case Some(i) => i.token.GetOr("")
    case None => ""
  }

  /** The flat `result.token`, read only when the line does not soft-stop. */
  function TrailingToken(l: Line): string {
    match Record(l)
    case Some(r) => if SoftStop(l) then "" else r.token.GetOr("")
    case None => ""
  }

  /**
   * The response id a line leaves behind, writers in the order the record is
   * read: `response.responseId`, `modelResponse.responseId`, then (unless the
   * line soft-stops) `result.responseId`.
   */
  function WrittenResponseId(l: Line): Option<string> {
    var nested := match Inner(l) case Some(i) => i.responseId case None => None;
    var model := match ModelResp(l) case Some(m) => m.responseId case None => None;
    var flat := match Record(l) case Some(r) => r.responseId case None => None;
    Override(Override(nested, model), if SoftStop(l) then None else flat)
  }

  /**
   * The conversation id a line leaves behind: `conversation.conversationId`,
   * then `result.conversationId`; a soft-stopping line writes neither.
   */
  function WrittenConversationId(l: Line): Option<string> {
    match Record(l)
    case None => None
    case Some(r) =>
      if SoftStop(l) then None
      else
        var nested := match r.conversation case Some(c) => c.conversationId case None => None;
        Override(nested, r.conversationId)
  }

  // ---------------------------------------------------------------------------
  // The fold.
  // ---------------------------------------------------------------------------

  /** The text once the nested `response` record has been read: a full message replaces it. */
  function NestedText(text: string, l: Line): string {
    if HasMessage(l) then MessageOf(l) else text + NestedToken(l)
  }

  /** The effect of one line on the accumulated result. */
  function Step(acc: Parsed, l: Line): Parsed {
    if l.Blank? then acc
    else
      Parsed(
        NestedText(acc.text, l) + TrailingToken(l),
        Override(acc.responseId, WrittenResponseId(l)),
        Override(acc.conversationId, WrittenConversationId(l)),
        acc.lineCount + 1)
  }

  /** Folds the lines from `acc` on, stopping after the first soft-stopping line. */
  function Run(acc: Parsed, lines: seq<Line>): Parsed
    decreases |lines|
  {
    if lines == [] then acc
    else if SoftStop(lines[0]) then Step(acc, lines[0])
    else Run(Step(acc, lines[0]), lines[1..])
  }

  /** The result of parsing a whole stream. */
  function Parse(lines: seq<Line>): Parsed {
    Run(Initial, lines)
  }

  /** Some line of the stream soft-stops. */
  predicate Stops(lines: seq<Line>) {
    exists i | 0 <= i < |lines| :: SoftStop(lines[i])
  }

  /** The lines the parser reads: all of them, or up to and including the first soft stop. */
  function Consumed(lines: seq<Line>): (c: seq<Line>)
    ensures c <= lines
    ensures !Stops(lines) ==> c == lines
    ensures Stops(lines) ==> c != [] && SoftStop(c[|c| - 1]) && !Stops(c[..|c| - 1])
    decreases |lines|
  {
    if lines == [] then []
    else if SoftStop(lines[0]) then [lines[0]]
    else
      StopsCons(lines);
      var rest := Consumed(lines[1..]);
      var c := [lines[0]] + rest;
      assert Stops(lines) ==> c[..|c| - 1] == [lines[0]] + rest[..|rest| - 1];
      if Stops(lines) then
        StopsCons(c[..|c| - 1]);
        assert c[..|c| - 1][1..] == rest[..|rest| - 1];
        c
      else c
  }

  lemma StopsCons(lines: seq<Line>)
    requires lines != []
    ensures Stops(lines) <==> SoftStop(lines[0]) || Stops(lines[1..])
  {
    if Stops(lines) && !SoftStop(lines[0]) {
      var i :| 0 <= i < |lines| && SoftStop(lines[i]);
      assert lines[1..][i - 1] == lines[i];
    }
    if Stops(lines[1..]) {
      var j :| 0 <= j < |lines[1..]| && SoftStop(lines[1..][j]);
      assert lines[j + 1] == lines[1..][j];
    }
  }

  // ---------------------------------------------------------------------------
  // The parser as the source writes it: a loop over the lines.
  // ---------------------------------------------------------------------------

  /** Reads the lines in order, updating the four accumulators field by field. */
  method ParseStreamingResponse(lines: seq<Line>) returns (result: Parsed)
    ensures result == Parse(lines)
  {
    var fullResponse: string := "";
    var responseId: Option<string> := None;
    var conversationId: Option<string> := None;
    var lineCount: nat := 0;
    assert lines[0..] == lines;
    for i := 0 to |lines|
      invariant Run(Parsed(fullResponse, responseId, conversationId, lineCount), lines[i..]) == Parse(lines)
    {
      ghost var before := Parsed(fullResponse, responseId, conversationId, lineCount);
      assert lines[i..][0] == lines[i] && lines[i..][1..] == lines[i + 1..];
      var line := lines[i];
      if !line.Blank? {
        lineCount := lineCount + 1;
        if line.Obj? && line.result.Some? {
          var result := line.result.value;
          if result.response.Some? {
            var inner := result.response.value;
            if inner.token.Some? {
              var token := inner.token.value;
              if token != "" {
                fullResponse := fullResponse + token;
              }
            }
            if inner.responseId.Some? {
              responseId := inner.responseId;
            }
            if inner.modelResponse.Some? {
              var modelResp := inner.modelResponse.value;
              if modelResp.message.Some? {
                fullResponse := modelResp.message.value;
              }
              if modelResp.responseId.Some? {
                responseId := modelResp.responseId;
              }
            }
            if inner.isSoftStop.GetOr(false) {
              assert Parsed(fullResponse, responseId, conversationId, lineCount) == Step(before, line);
              break;
            }
          }
          assert fullResponse == NestedText(before.text, line);
          if result.conversation.Some? {
            var conv := result.conversation.value;
            if conv.conversationId.Some? {
              conversationId := conv.conversationId;
            }
          }
          if result.token.Some? {
            var token := result.token.value;
            if token != "" {
              fullResponse := fullResponse + token;
            }
          }
          if result.conversationId.Some? {
            conversationId := result.conversationId;
          }
          if result.responseId.Some? {
            responseId := result.responseId;
          }
        }
      }
      assert Parsed(fullResponse, responseId, conversationId, lineCount) == Step(before, line);
    }
    result := Parsed(fullResponse, responseId, conversationId, lineCount);
  }

  // ---------------------------------------------------------------------------
  // Properties of the fold.
  // ---------------------------------------------------------------------------

  /** Splitting a stream in two: the second part is read only if the first did not soft-stop. */
  lemma {:induction false} RunAppend(acc: Parsed, a: seq<Line>, b: seq<Line>)
    ensures Run(acc, a + b) == if Stops(a) then Run(acc, a) else Run(Run(acc, a), b)
    decreases |a|
  {
    if a == [] {
      assert a + b == b;
    } else {
      StopsCons(a);
      assert (a + b)[0] == a[0] && (a + b)[1..] == a[1..] + b;
      if !SoftStop(a[0]) {
        RunAppend(Step(acc, a[0]), a[1..], b);
      }
    }
  }

  /** Adding one to the starting line count adds one to the final line count, and changes nothing else. */
  lemma {:induction false} RunCountShift(acc: Parsed, lines: seq<Line>)
    ensures var r := Run(acc, lines);
      Run(acc.(lineCount := acc.lineCount + 1), lines) == r.(lineCount := r.lineCount + 1)
    decreases |lines|
  {
    if lines != [] && !SoftStop(lines[0]) {
      RunCountShift(Step(acc, lines[0]), lines[1..]);
    }
  }

  /** A blank line anywhere in the stream changes nothing, not even the line count. */
  lemma BlankLineIsSkipped(a: seq<Line>, b: seq<Line>)
    ensures Parse(a + [Blank] + b) == Parse(a + b)
  {
    assert a + [Blank] + b == a + ([Blank] + b);
    assert ([Blank] + b)[0] == Blank && ([Blank] + b)[1..] == b;
    RunAppend(Initial, a, [Blank] + b);
    RunAppend(Initial, a, b);
  }

  /**
   * A malformed line, or one without a `result` key, only adds one to the line
   * count (if it is read at all); the lines after it are still read.
   */
  lemma UnusableLineOnlyCounts(a: seq<Line>, l: Line, b: seq<Line>)
    requires l.Malformed? || l == Obj(None)
    ensures var p := Parse(a + b);
      Parse(a + [l] + b) == if Stops(a) then p else p.(lineCount := p.lineCount + 1)
  {
    assert a + [l] + b == a + ([l] + b);
    assert ([l] + b)[0] == l && ([l] + b)[1..] == b;
    RunAppend(Initial, a, [l] + b);
    RunAppend(Initial, a, b);
    var x := Run(Initial, a);
    assert Step(x, l) == x.(lineCount := x.lineCount + 1);
    RunCountShift(x, b);
  }

  /** Once a line soft-stops, no later line is read. */
  lemma SoftStopEndsStream(a: seq<Line>, l: Line, b: seq<Line>)
    requires SoftStop(l) && !Stops(a)
    ensures Parse(a + [l] + b) == Parse(a + [l])
  {
    assert a + [l] + b == a + ([l] + b);
    assert ([l] + b)[0] == l;
    RunAppend(Initial, a, [l] + b);
    RunAppend(Initial, a, [l]);
  }

  /**
   * On a soft-stopping line only the nested `response` record is applied: its
   * `conversation`, flat `token`, `conversationId` and `responseId` are not.
   */
  lemma SoftStopLineIgnoresLaterFields(acc: Parsed, r: ResultRec, r': ResultRec)
    requires r'.response == r.response
    requires SoftStop(Obj(Some(r)))
    ensures Step(acc, Obj(Some(r))) == Step(acc, Obj(Some(r')))
    ensures Step(acc, Obj(Some(r))).conversationId == acc.conversationId
  {
  }

  /**
   * A full `modelResponse.message` replaces the text; the flat `result.token`
   * of the same line is then appended to it.
   */
  lemma MessageReplacesThenFlatTokenAppends(acc: Parsed, r: ResultRec)
    requires HasMessage(Obj(Some(r))) && !SoftStop(Obj(Some(r)))
    ensures Step(acc, Obj(Some(r))).text == MessageOf(Obj(Some(r))) + r.token.GetOr("")
  {
  }

  /** Without a full message, a line appends its nested token, then its flat token. */
  lemma TokensAppend(acc: Parsed, r: ResultRec)
    requires !HasMessage(Obj(Some(r))) && !SoftStop(Obj(Some(r)))
    ensures Step(acc, Obj(Some(r))).text == acc.text + NestedToken(Obj(Some(r))) + r.token.GetOr("")
  {
  }

  // Text, read backwards.

  /**
   * The text a sequence of lines leaves when it starts from `start`, read from
   * the end: the last full message with its line's flat token, followed by the
   * tokens of every later line; with no full message, `start` followed by all
   * the tokens.
   */
  function TextAfter(start: string, lines: seq<Line>): string
    decreases |lines|
  {
    if lines == [] then start
    else
      var last := lines[|lines| - 1];
      if HasMessage(last) then MessageOf(last) + TrailingToken(last)
      else TextAfter(start, lines[..|lines| - 1]) + NestedToken(last) + TrailingToken(last)
  }

  lemma {:induction false} TextAfterCons(start: string, l: Line, s: seq<Line>)
    ensures TextAfter(start, [l] + s) == TextAfter(NestedText(start, l) + TrailingToken(l), s)
    decreases |s|
  {
    if s != [] {
      var s' := s[..|s| - 1];
      assert ([l] + s)[..|s|] == [l] + s';
      assert ([l] + s)[|s|] == s[|s| - 1];
      TextAfterCons(start, l, s');
    }
  }

  lemma {:induction false} RunText(acc: Parsed, lines: seq<Line>)
    ensures Run(acc, lines).text == TextAfter(acc.text, Consumed(lines))
    decreases |lines|
  {
    if lines != [] {
      var l := lines[0];
      if SoftStop(l) {
        TextAfterCons(acc.text, l, []);
        assert [l] + [] == [l];
      } else {
        RunText(Step(acc, l), lines[1..]);
        TextAfterCons(acc.text, l, Consumed(lines[1..]));
        assert Consumed(lines) == [l] + Consumed(lines[1..]);
        assert Step(acc, l).text == NestedText(acc.text, l) + TrailingToken(l);
      }
    }
  }

  /**
   * The parsed text is the last full message read (with its own line's flat
   * token) followed by every token read after it; with no full message, the
   * concatenation of all the tokens read.
   */
  lemma ParseText(lines: seq<Line>)
    ensures Parse(lines).text == TextAfter("", Consumed(lines))
  {
    RunText(Initial, lines);
  }

  /** A full message discards every token read before it. */
  lemma MessageDiscardsEarlierText(a: seq<Line>, l: Line, b: seq<Line>)
    requires HasMessage(l) && !Stops(a)
    ensures Parse(a + [l] + b).text == Parse([l] + b).text
  {
    assert a + [l] + b == a + ([l] + b);
    RunAppend(Initial, a, [l] + b);
    var x := Run(Initial, a);
    RunText(x, [l] + b);
    RunText(Initial, [l] + b);
    var c := Consumed([l] + b);
    assert c == [l] + c[1..];
    TextAfterCons(x.text, l, c[1..]);
    TextAfterCons("", l, c[1..]);
  }

  // Ids, read backwards.

  /** The last value that any line writes, or `None` when no line writes one. */
  function LastWritten(lines: seq<Line>, written: Line -> Option<string>): Option<string>
    decreases |lines|
  {
    if lines == [] then None
    else if written(lines[|lines| - 1]).Some? then written(lines[|lines| - 1])
    else LastWritten(lines[..|lines| - 1], written)
  }

  lemma {:induction false} LastWrittenCons(l: Line, s: seq<Line>, written: Line -> Option<string>)
    ensures LastWritten([l] + s, written) == Override(written(l), LastWritten(s, written))
    decreases |s|
  {
    if s != [] {
      assert ([l] + s)[..|s|] == [l] + s[..|s| - 1];
      assert ([l] + s)[|s|] == s[|s| - 1];
      LastWrittenCons(l, s[..|s| - 1], written);
    }
  }

  lemma {:induction false} RunResponseId(acc: Parsed, lines: seq<Line>)
    ensures Run(acc, lines).responseId == Override(acc.responseId, LastWritten(Consumed(lines), WrittenResponseId))
    decreases |lines|
  {
    if lines != [] {
      var l := lines[0];
      if SoftStop(l) {
        LastWrittenCons(l, [], WrittenResponseId);
        assert [l] + [] == [l];
      } else {
        RunResponseId(Step(acc, l), lines[1..]);
        LastWrittenCons(l, Consumed(lines[1..]), WrittenResponseId);
      }
    }
  }

  lemma {:induction false} RunConversationId(acc: Parsed, lines: seq<Line>)
    ensures Run(acc, lines).conversationId
         == Override(acc.conversationId, LastWritten(Consumed(lines), WrittenConversationId))
    decreases |lines|
  {
    if lines != [] {
      var l := lines[0];
      if SoftStop(l) {
        LastWrittenCons(l, [], WrittenConversationId);
        assert [l] + [] == [l];
      } else {
        RunConversationId(Step(acc, l), lines[1..]);
        LastWrittenCons(l, Consumed(lines[1..]), WrittenConversationId);
      }
    }
  }

  /** Ids are last-writer-wins: each is the last one written by a line that was read. */
  lemma ParseIds(lines: seq<Line>)
    ensures Parse(lines).responseId == LastWritten(Consumed(lines), WrittenResponseId)
    ensures Parse(lines).conversationId == LastWritten(Consumed(lines), WrittenConversationId)
  {
    RunResponseId(Initial, lines);
    RunConversationId(Initial, lines);
  }

  // Line count.

  /** The number of non-blank lines. */
  function NonBlankCount(lines: seq<Line>): nat
    decreases |lines|
  {
    if lines == [] then 0
    else (if lines[0].Blank? then 0 else 1) + NonBlankCount(lines[1..])
  }

  lemma {:induction false} RunLineCount(acc: Parsed, lines: seq<Line>)
    ensures Run(acc, lines).lineCount == acc.lineCount + NonBlankCount(Consumed(lines))
    decreases |lines|
  {
    if lines != [] {
      var l := lines[0];
      if SoftStop(l) {
        assert [l][1..] == [];
      } else {
        RunLineCount(Step(acc, l), lines[1..]);
        assert ([l] + Consumed(lines[1..]))[1..] == Consumed(lines[1..]);
      }
    }
  }

  /**
   * The line count is the number of non-blank lines read, malformed ones and
   * ones without `result` included: all of them when no line soft-stops.
   */
  lemma ParseLineCount(lines: seq<Line>)
    ensures Parse(lines).lineCount == NonBlankCount(Consumed(lines))
    ensures !Stops(lines) ==> Parse(lines).lineCount == NonBlankCount(lines)
  {
    RunLineCount(Initial, lines);
  }

  // Worked examples.

  function TokenLine(token: string): Line {
    Obj(Some(ResultRec(Some(InnerResponse(Some(token), None, None, None)), None, None, None, None)))
  }

  /** Two token lines, the second carrying the response and conversation ids. */
  lemma TwoTokenLinesExample()
    ensures Parse([
      TokenLine("Hi"),
      Obj(Some(ResultRec(Some(InnerResponse(Some(" there"), Some("r1"), None, None)),
                         Some(Conversation(Some("c1"))), None, None, None)))
    ]) == Parsed("Hi there", Some("r1"), Some("c1"), 2)
  {
  }

  /** A full message after two tokens leaves exactly the message. */
  lemma FullMessageExample()
    ensures Parse([
      TokenLine("Full "),
      TokenLine("text"),
      Obj(Some(ResultRec(Some(InnerResponse(None, None, Some(ModelResponse(Some("Full corrected text"), None)), None)),
                         None, None, None, None)))
    ]).text == "Full corrected text"
  {
  }
}
