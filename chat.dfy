/**
 * The chat completion endpoint of the back end (`chat.py`): it looks the bot
 * up, picks the language-model service from the bot's model name, and either
 * streams the answer as server-sent events (section 9.2 of the WHATWG HTML
 * Living Standard) or returns it whole.
 */
module Chat {
  import opened Wrappers
  import opened Text
  import opened Json
  import opened BotRecords

  datatype Vendor = OpenAI | Gemini

  /** A language-model service and the model it is built for. */
  datatype LlmService = LlmService(vendor: Vendor, modelName: string)

  /** Lines 25-30: names starting with "gpt" go to OpenAI, every other name, "" included, to Gemini. */
  function SelectLlm(modelName: string): (s: LlmService)
    ensures s.modelName == modelName
    ensures s.vendor == OpenAI <==> StartsWith(modelName, "gpt")
  {
    if StartsWith(modelName, "gpt") then LlmService(OpenAI, modelName) else LlmService(Gemini, modelName)
  }

  /**
   * The HTTP errors of the endpoint. `GenerateRaised` is the whole-answer
   * service raising: the exception leaves the handler, which the framework
   * answers with 500.
   */
  datatype Failure = NotFound | Inactive | GenerateRaised

  function StatusCode(f: Failure): int {
    match f
    case NotFound => 404
    case Inactive => 400
    case GenerateRaised => 500
  }

  /** Lines 44-51: a missing bot is 404, checked before activity; an inactive bot is 400. */
  function CheckBot(rows: map<int, Bot>, botId: int): (r: Result<Bot, Failure>)
    ensures r == Err(NotFound) <==> botId !in rows
    ensures r == Err(Inactive) <==> botId in rows && !rows[botId].isActive
    ensures r.Ok? <==> botId in rows && rows[botId].isActive
    ensures r.Ok? ==> r.value == rows[botId]
  {
    if botId !in rows then Err(NotFound)
    else if !rows[botId].isActive then Err(Inactive)
    else Ok(rows[botId])
  }

  // ---------------------------------------------------------------------------
  // Event-stream framing.

  /** One event-stream record with a single `data` field. */
  function DataEvent(payload: string): string {
    "data: " + payload + "\n\n"
  }

  const DoneEvent := "data: [DONE]\n\n"

  /** The records of a stream, before they are written out. */
  datatype Event = Content(chunk: string) | Done | Failed(message: string)

  /** Lines 66, 67 and 71: the text of each record. */
  function Render(e: Event): string {
    match e
    case Content(chunk) => DataEvent(Object1("content", chunk))
    case Done => DoneEvent
    case Failed(message) => DataEvent(Object1("error", message))
  }

  /**
   * Lines 58-71: every chunk's record in order, then the terminator; a
   * failure of the chunk source ends the stream with one error record
   * instead. `chunks` are the chunks produced before the failure, if any.
   */
  function StreamEvents(chunks: seq<string>, failure: Option<string>): (r: seq<Event>)
    ensures |r| == |chunks| + 1
    ensures forall i :: 0 <= i < |chunks| ==> r[i] == Content(chunks[i])
    ensures r[|chunks|] == if failure.None? then Done else Failed(failure.value)
  {
    if chunks == [] then [if failure.None? then Done else Failed(failure.value)]
    else [Content(chunks[0])] + StreamEvents(chunks[1..], failure)
  }

  /** A record is well framed: the field name, a payload with no line break, then the blank line that ends it. */
  predicate WellFramed(e: string) {
    |e| >= 8 && e[..6] == "data: " && e[|e| - 2..] == "\n\n" &&
    forall i :: 6 <= i < |e| - 2 ==> e[i] != '\n' && e[i] != '\r'
  }

  lemma DataEventFramed(payload: string)
    requires '\n' !in payload && '\r' !in payload
    requires |payload| >= 2
    ensures WellFramed(DataEvent(payload))
  {
    var e := DataEvent(payload);
    assert e[6..|e| - 2] == payload;
    forall i | 6 <= i < |e| - 2 ensures e[i] != '\n' && e[i] != '\r' {
      assert e[i] == payload[i - 6];
    }
  }

  /** Every record is well framed, so each reaches the client as exactly one event. */
  lemma RecordFramed(e: Event)
    ensures WellFramed(Render(e))
  {
    match e
    case Content(chunk) => DataEventFramed(Object1("content", chunk));
    case Done => DataEventFramed("[DONE]");
    case Failed(message) => DataEventFramed(Object1("error", message));
  }

  /** Only the terminator renders as the terminator. */
  lemma DoneIsDistinct(e: Event)
    ensures Render(e) == DoneEvent <==> e == Done
  {
    if !e.Done? {
      assert Render(e)[6] == '{';
    }
  }

  /** The terminator is sent exactly when the source did not fail, and then only as the last record. */
  lemma DoneOnlyAtEnd(chunks: seq<string>, failure: Option<string>)
    ensures Done in StreamEvents(chunks, failure) <==> failure.None?
    ensures StreamEvents(chunks, failure)[|chunks|] == Done <==> failure.None?
  {
  }

  /** The fixed text before and after the escaped value of a one-key record. */
  function RecordPrefix(key: string): string {
    "data: " + "{\"" + key + "\": " + "\""
  }

  const RecordSuffix := "\"" + "}" + "\n\n"

  /** Regrouping the pieces of a record around its payload. */
  lemma Regroup(d: string, h: string, q: string, x: string, c: string, t: string)
    ensures d + (h + (q + x + q) + c) + t == (d + h + q) + x + (q + c + t)
  {
  }

  /** A one-key record is its fixed prefix, the escaped value and its fixed suffix. */
  lemma RecordShape(key: string, value: string)
    requires PlainText(key)
    ensures DataEvent(Object1(key, value)) == RecordPrefix(key) + EscapeString(value) + RecordSuffix
  {
    var h := "{\"" + key + "\": ";
    assert Object1(key, value) == h + ("\"" + EscapeString(value) + "\"") + "}";
    Regroup("data: ", h, "\"", EscapeString(value), "}", "\n\n");
    assert RecordPrefix(key) == "data: " + h + "\"";
  }

  const ContentPrefix := RecordPrefix("content")

  lemma ContentShape(chunk: string)
    ensures Render(Content(chunk)) == ContentPrefix + EscapeString(chunk) + RecordSuffix
  {
    RecordShape("content", chunk);
  }

  /** What a client reads back from a content record: the chunk, or `None` for any other record. */
  function ParseContent(e: string): Option<string> {
    if |e| >= |ContentPrefix| + |RecordSuffix| && e[..|ContentPrefix|] == ContentPrefix
       && e[|e| - |RecordSuffix|..] == RecordSuffix
    then Unescape(e[|ContentPrefix|..|e| - |RecordSuffix|])
    else None
  }

  /** A client gets every chunk back exactly as the model produced it. */
  lemma ContentRoundTrip(chunk: string)
    ensures ParseContent(Render(Content(chunk))) == Some(chunk)
  {
    var body := EscapeString(chunk);
    var e := Render(Content(chunk));
    ContentShape(chunk);
    assert e[..|ContentPrefix|] == ContentPrefix;
    assert e[|e| - |RecordSuffix|..] == RecordSuffix;
    assert e[|ContentPrefix|..|e| - |RecordSuffix|] == body;
    UnescapeEscape(chunk);
  }

  /** The text of a sequence of records, in order. */
  function RenderAll(es: seq<Event>): (r: seq<string>)
    ensures |r| == |es|
  {
    if es == [] then [] else RenderAll(es[..|es| - 1]) + [Render(es[|es| - 1])]
  }

  lemma {:induction false} RenderAllAt(es: seq<Event>, k: nat)
    requires k < |es|
    ensures RenderAll(es)[k] == Render(es[k])
  {
    if k < |es| - 1 {
      RenderAllAt(es[..|es| - 1], k);
    }
  }

  /** Lines 58-71: the generator, writing the stream record by record. */
  method EventGenerator(chunks: seq<string>, failure: Option<string>) returns (records: seq<string>)
    ensures records == RenderAll(StreamEvents(chunks, failure))
  {
    var events := StreamEvents(chunks, failure);
    records := [];
    var i := 0;
    while i < |chunks|
      invariant 0 <= i <= |chunks|
      invariant records == RenderAll(events[..i])
    {
      assert events[..i + 1][..i] == events[..i];
      records := records + [Render(Content(chunks[i]))];
      i := i + 1;
    }
    assert events[..|chunks|] == events[..|events| - 1];
    if failure.Some? {
      records := records + [Render(Failed(failure.value))];
    } else {
      records := records + [Render(Done)];
    }
  }

  // ---------------------------------------------------------------------------
  // The endpoint.

  /** `ChatCompletionRequest`. */
  datatype ChatRequest = ChatRequest(botId: int, message: string, sessionId: Option<int>, stream: bool)

  /** `ChatCompletionResponse`. */
  datatype ChatResponse = ChatResponse(sessionId: int, content: string, botId: int)

  /** Line 90: `request.session_id or 0` — a missing or zero session id is 0. */
  function ResponseSessionId(sessionId: Option<int>): (r: int)
    ensures sessionId.Some? && sessionId.value != 0 ==> r == sessionId.value
    ensures sessionId.None? || sessionId.value == 0 ==> r == 0
  {
    if sessionId.Some? && sessionId.value != 0 then sessionId.value else 0
  }

  /** The falsy-zero rule and the plain default agree: 0 is sent back as 0 either way. */
  lemma SessionIdIsDefault(sessionId: Option<int>)
    ensures ResponseSessionId(sessionId) == sessionId.GetOr(0)
  {
  }

  /** Lines 60-63 and 84-87: the service asked, the user's message and the bot's system prompt. */
  datatype LlmCall = LlmCall(service: LlmService, prompt: string, systemPrompt: string)

  /** What the endpoint sends: an event stream from a service call, or a whole answer. */
  datatype Reply =
    | Streamed(call: LlmCall, mediaType: string, records: seq<string>)
    | Whole(call: LlmCall, response: ChatResponse)

  /**
   * Lines 33-93. The language model is a parameter: in stream mode the chunks
   * it yields (and the failure that cut them short, if any); otherwise its
   * whole answer, `None` when the call raises.
   */
  method ChatCompletions(rows: map<int, Bot>, req: ChatRequest, chunks: seq<string>, failure: Option<string>,
                         answer: Option<string>)
    returns (r: Result<Reply, Failure>)
    ensures CheckBot(rows, req.botId).Err? ==> r == Err(CheckBot(rows, req.botId).error)
    ensures r.Ok? ==> r.value.call == LlmCall(SelectLlm(rows[req.botId].llmModel), req.message, rows[req.botId].systemPrompt)
    ensures CheckBot(rows, req.botId).Ok? && req.stream ==>
      r.Ok? && r.value.Streamed? &&
      r.value.mediaType == "text/event-stream" && r.value.records == RenderAll(StreamEvents(chunks, failure))
    ensures CheckBot(rows, req.botId).Ok? && !req.stream ==>
      if answer.None? then r == Err(GenerateRaised)
      else r.Ok? && r.value.Whole? && r.value.response == ChatResponse(ResponseSessionId(req.sessionId), answer.value, req.botId)
  {
    var checked := CheckBot(rows, req.botId);
    if checked.Err? {
      return Err(checked.error);
    }
    var call := LlmCall(SelectLlm(checked.value.llmModel), req.message, checked.value.systemPrompt);
    if req.stream {
      var records := EventGenerator(chunks, failure);
      return Ok(Streamed(call, "text/event-stream", records));
    }
    if answer.None? {
      return Err(GenerateRaised);
    }
    var sessionId := if req.sessionId.Some? && req.sessionId.value != 0 then req.sessionId.value else 0;
    return Ok(Whole(call, ChatResponse(sessionId, answer.value, req.botId)));
  }
}
