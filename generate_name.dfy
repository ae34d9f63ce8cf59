/**
 * The POST handler of the name-generation route as a decision procedure. The request body,
 * the configured API key, what the chat-completion service answered and what JSON.parse makes
 * of the returned content are inputs; the result is the response together with the outbound
 * request the handler issued, if it issued one.
 */
module GenerateNameRoute {
  import opened Wrappers
  import opened JsValues
  import opened Text

  datatype Response = Response(status: nat, body: Json)

  /** The outbound call: endpoint, HTTP method, the two headers and the JSON body. */
  datatype Outbound = Outbound(url: string, httpMethod: string, authorization: string, contentType: string, body: Json)

  /** What the upstream fetch produced. `payload` is the result of `response.json()`, None when that rejects. */
  datatype Upstream =
    | NetworkError
    | Reply(ok: bool, status: int, payload: Option<Json>)

  /** The chat-completion call the handler issues, given by what varies in it: the context quoted in
      the prompt and the key sent in the Authorization header. ChatCall gives its form on the wire. */
  datatype ChatRequest = ChatRequest(context: string, apiKey: string)

  datatype Handled = Handled(response: Response, call: Option<ChatRequest>)

  const ContextRequired := "Context is required"
  const KeyNotConfigured := "OpenAI API key not configured"
  const GenerationFailed := "Failed to generate name"

  const Endpoint := "https://api.openai.com/v1/chat/completions"
  const ChatModel := "gpt-3.5-turbo"
  const MaxTokens: real := 300.0
  /** The sampling temperature, passed through and otherwise opaque. */
  const Temperature: real := 0.7
  const SystemPersona := "You are an expert in Ghanaian culture and naming traditions. You provide authentic, respectful, and culturally accurate name suggestions."

  /** Pieces of the prompt text: each sentence is kept as short literals whose types record
      the one character the occurrence proofs need to be absent. */
  type QuoteFree = s: string | '"' !in s
  type NoCapitalC = s: string | 'C' !in s

  /** The opening sentence of the prompt. */
  function Instruction(): (s: string)
    ensures '"' !in s
  {
    Instruction1 + Instruction2 + Instruction3 + Instruction4 + Instruction5 + Instruction6
  }

  const Instruction1: QuoteFree := "Based on the following "
  const Instruction2: QuoteFree := "context about a person, "
  const Instruction3: QuoteFree := "generate an authentic "
  const Instruction4: QuoteFree := "Ghanaian name that would be "
  const Instruction5: QuoteFree := "culturally appropriate and "
  const Instruction6: QuoteFree := "meaningful. "

  /** The sentence on naming practices, and the blank line before the context line. */
  function Guidance(): (s: string)
    ensures '"' !in s && |s| > 0 && s[|s| - 1] == '\n'
  {
    Guidance1 + Guidance2 + Guidance3 + Guidance4 + Guidance5
  }

  const Guidance1: QuoteFree := "Consider traditional naming "
  const Guidance2: QuoteFree := "practices including Akan day "
  const Guidance3: QuoteFree := "names, circumstantial names, "
  const Guidance4: QuoteFree := "and names reflecting "
  const Guidance5: QuoteFree := "hopes/attributes.\n\n"

  /** The request for a JSON reply, after the blank line that follows the context line. */
  function ReplyRequest(): (s: string)
    ensures 'C' !in s
  {
    ReplyRequest1 + ReplyRequest2
  }

  const ReplyRequest1: NoCapitalC := "\n\nPlease respond with a JSON "
  const ReplyRequest2: NoCapitalC := "object containing:\n"

  /** The first field of the requested reply. */
  function NameField(): (s: string)
    ensures 'C' !in s
  {
    NameField1 + NameField2 + NameField3
  }

  const NameField1: NoCapitalC := "- \"name\": The Ghanaian name "
  const NameField2: NoCapitalC := "(include pronunciation if "
  const NameField3: NoCapitalC := "helpful)\n"

  /** The second field of the requested reply. */
  function MeaningField(): (s: string)
    ensures 'C' !in s
  {
    MeaningField1 + MeaningField2 + MeaningField3
  }

  const MeaningField1: NoCapitalC := "- \"meaning\": Brief "
  const MeaningField2: NoCapitalC := "meaning/translation of the "
  const MeaningField3: NoCapitalC := "name\n"

  /** The third field of the requested reply, and the blank line after the list. */
  function ExplanationField(): (s: string)
    ensures 'C' !in s
  {
    ExplanationField1 + ExplanationField2 + ExplanationField3 + ExplanationField4 + ExplanationField5
  }

  const ExplanationField1: NoCapitalC := "- \"explanation\": 2-3 "
  const ExplanationField2: NoCapitalC := "sentences explaining how this "
  const ExplanationField3: NoCapitalC := "name connects to their "
  const ExplanationField4: NoCapitalC := "context and why it's "
  const ExplanationField5: NoCapitalC := "appropriate\n\n"

  /** The closing sentence of the prompt. */
  function Closing(): (s: string)
    ensures 'C' !in s
  {
    Closing1 + Closing2 + Closing3 + Closing4 + Closing5
  }

  const Closing1: NoCapitalC := "Focus on authentic Ghanaian "
  const Closing2: NoCapitalC := "naming traditions from "
  const Closing3: NoCapitalC := "cultures like Akan, Ewe, Ga, "
  const Closing4: NoCapitalC := "etc. Be respectful and "
  const Closing5: NoCapitalC := "culturally accurate."

  /** The prompt text before the line that quotes the context: it has no double quote and ends
      with a newline. */
  function Preamble(): (s: string)
    ensures '"' !in s && |s| > 0 && s[|s| - 1] == '\n'
  {
    Instruction() + Guidance()
  }

  /** The prompt text after the line that quotes the context: it has no capital C. */
  function Postscript(): (s: string)
    ensures 'C' !in s
  {
    ReplyRequest() + NameField() + MeaningField() + ExplanationField() + Closing()
  }

  function ErrorBody(message: string): Json
  {
    JObject(map["error" := JString(message)])
  }

  /** The fixed record returned whenever the model's content is unusable: Akosua, born on
      Sunday, with truthy name, meaning and explanation. */
  function Fallback(): (f: Json)
    ensures HasNameFields(f)
    ensures Get(Defined(f), "name") == Defined(JString("Akosua"))
    ensures Get(Defined(f), "meaning") == Defined(JString("Born on Sunday"))
    ensures Get(Defined(f), "explanation") == Defined(JString(FallbackExplanation))
  {
    JObject(map[
      "name" := JString("Akosua"),
      "meaning" := JString("Born on Sunday"),
      "explanation" := JString(FallbackExplanation)
    ])
  }

  const FallbackExplanation := "Based on your context, this traditional Akan day name represents new beginnings and hope, which seems to align with your situation. Akosua is a name given to females born on Sunday, symbolizing brightness and fresh starts."

  /** `!x.name || !x.meaning || !x.explanation` is false, and reading them does not throw. */
  predicate HasNameFields(v: Json)
    ensures HasNameFields(v) ==>
      v.JObject? && "name" in v.fields && "meaning" in v.fields && "explanation" in v.fields
  {
    IsTruthy(Get(Defined(v), "name")) &&
    IsTruthy(Get(Defined(v), "meaning")) &&
    IsTruthy(Get(Defined(v), "explanation"))
  }

  /** `!context || typeof context !== 'string'` is false. */
  predicate ValidContext(context: Access)
    ensures ValidContext(context) <==> IsTruthy(context) && context.value.JString?
  {
    context.Defined? && context.value.JString? && context.value.s != ""
  }

  /** `!apiKey` is false. */
  predicate Configured(apiKey: Option<string>)
    ensures Configured(apiKey) <==> apiKey.Some? && IsTruthy(Defined(JString(apiKey.value)))
  {
    apiKey.Some? && apiKey.value != ""
  }

  /** The line of the prompt that quotes the context. */
  function Needle(context: string): string
  {
    "Context: \"" + context + "\""
  }

  /** The user prompt: the context appears verbatim, inside the one quoted "Context:" line. */
  function Prompt(context: string): (p: string)
    ensures |p| == |Preamble()| + |context| + 11 + |Postscript()|
    ensures Occurrences(Needle(context), p) == {|Preamble()|}
  {
    Quoting(Preamble(), context, Postscript())
  }

  /** The context line placed between two texts; it occurs nowhere else as long as the text before
      it has no double quote and ends with a newline and the text after it has no capital C. */
  function Quoting(before: string, context: string, after: string): (p: string)
    requires '"' !in before && |before| > 0 && before[|before| - 1] == '\n'
    requires 'C' !in after
    ensures |p| == |before| + |context| + 11 + |after|
    ensures OccursAt(context, p, |before| + 10)
    ensures Occurrences(Needle(context), p) == {|before|}
  {
    NeedleOnlyBetween(before, context, after);
    before + Needle(context) + after
  }

  /** Between a text without double quotes that ends in a newline and a text without a capital C,
      the quoted context line occurs only where it was put. */
  lemma {:induction false} NeedleOnlyBetween(before: string, context: string, after: string)
    requires '"' !in before && |before| > 0 && before[|before| - 1] == '\n'
    requires 'C' !in after
    ensures var p := before + Needle(context) + after;
      |p| == |before| + |context| + 11 + |after| &&
      OccursAt(context, p, |before| + 10) &&
      Occurrences(Needle(context), p) == {|before|}
  {
    var n, p := Needle(context), before + Needle(context) + after;
    assert p[|before|..|before| + |n|] == n;
    assert p[|before| + 10..|before| + 10 + |context|] == n[10..10 + |context|];
    assert OccursAt(n, p, |before|);
    forall i: nat | i <= |p| && OccursAt(n, p, i) ensures i == |before| {
      if i < |before| {
        NoNeedleInside(before, context, after, i);
      } else if i > |before| {
        NoNeedleAfter(before, context, after, i);
      }
    }
  }

  /** An occurrence starting inside the text before the context line would put the needle's
      quote in that quote-free text, or that text's final newline inside "Context: ". */
  lemma {:induction false} NoNeedleInside(before: string, context: string, after: string, i: nat)
    requires '"' !in before && |before| > 0 && before[|before| - 1] == '\n'
    requires i < |before|
    ensures !OccursAt(Needle(context), before + Needle(context) + after, i)
  {
    var n, p := Needle(context), before + Needle(context) + after;
    if i + |n| <= |p| {
      if i + 9 < |before| {
        assert p[i + 9] == before[i + 9] != n[9];
        assert p[i..i + |n|][9] != n[9];
      } else {
        var k := |before| - 1 - i;
        assert n[..9] == "Context: ";
        assert n[k] == n[..9][k] != '\n';
        assert p[i..i + |n|][k] == p[|before| - 1] == '\n';
      }
    }
  }

  /** An occurrence starting after the place of the context line would put the needle's last
      capital C after the last capital C of the whole text. */
  lemma {:induction false} NoNeedleAfter(before: string, context: string, after: string, i: nat)
    requires 'C' !in after
    requires i > |before|
    ensures !OccursAt(Needle(context), before + Needle(context) + after, i)
  {
    var n, p := Needle(context), before + Needle(context) + after;
    if i + |n| <= |p| {
      assert n[0] == 'C';
      var m := LastIndexOf(n, 'C');
      var j := i + m;
      if j < |before| + |n| {
        assert p[j] == n[j - |before|] != 'C';
      } else {
        assert p[j] == after[j - |before| - |n|] != 'C';
      }
      assert p[i..i + |n|][m] != n[m];
    }
  }

  /** `body.messages[k]`, read as the service reads the request body. */
  function Message(body: Json, k: nat): Access
  {
    var messages := Get(Defined(body), "messages");
    if messages.Defined? && messages.value.JArray? && k < |messages.value.items|
    then Defined(messages.value.items[k])
    else Undefined
  }

  /** The JSON body of the chat-completion request: the model, the token cap, the temperature,
      and exactly two messages, the system persona and then the user prompt. */
  function ChatBody(prompt: string): (b: Json)
    ensures Get(Defined(b), "model") == Defined(JString("gpt-3.5-turbo"))
    ensures Get(Defined(b), "max_tokens") == Defined(JNumber(300.0))
    ensures Get(Defined(b), "temperature") == Defined(JNumber(Temperature))
    ensures var messages := Get(Defined(b), "messages");
      messages.Defined? && messages.value.JArray? && |messages.value.items| == 2
    ensures Get(Message(b, 0), "role") == Defined(JString("system"))
    ensures Get(Message(b, 0), "content") == Defined(JString(SystemPersona))
    ensures Get(Message(b, 1), "role") == Defined(JString("user"))
    ensures Get(Message(b, 1), "content") == Defined(JString(prompt))
  {
    JObject(map[
      "model" := JString(ChatModel),
      "messages" := JArray([
        JObject(map["role" := JString("system"), "content" := JString(SystemPersona)]),
        JObject(map["role" := JString("user"), "content" := JString(prompt)])
      ]),
      "max_tokens" := JNumber(MaxTokens),
      "temperature" := JNumber(Temperature)
    ])
  }

  /** The Authorization header value for a key. */
  function Bearer(apiKey: string): (h: string)
    ensures |h| == 7 + |apiKey| && h[..7] == "Bearer " && h[7..] == apiKey
  {
    "Bearer " + apiKey
  }

  /** The request the handler sends: a POST of JSON to the chat-completion endpoint, with the key
      after "Bearer " in the Authorization header, and a user message in which the quoted context
      line occurs exactly once. */
  function ChatCall(request: ChatRequest): (c: Outbound)
    ensures c.url == Endpoint && c.httpMethod == "POST" && c.contentType == "application/json"
    ensures |c.authorization| == 7 + |request.apiKey|
    ensures c.authorization[..7] == "Bearer " && c.authorization[7..] == request.apiKey
    ensures var content := Get(Message(c.body, 1), "content");
      content.Defined? && content.value.JString? &&
      Occurrences(Needle(request.context), content.value.s) == {|Preamble()|}
  {
    Outbound(Endpoint, "POST", Bearer(request.apiKey), "application/json", ChatBody(Prompt(request.context)))
  }

  /** `data.choices[0]?.message?.content`: it throws exactly when `data` is null or its `choices`
      is missing or null; with a non-empty `choices` array it reads the first choice. */
  function Content(data: Json): (r: Access)
    ensures r.Throws? <==>
      data == JNull || Get(Defined(data), "choices").Undefined? || Get(Defined(data), "choices") == Defined(JNull)
    ensures var choices := Get(Defined(data), "choices");
      choices.Defined? && choices.value.JArray? && |choices.value.items| > 0 ==>
      r == OptGet(OptGet(Defined(choices.value.items[0]), "message"), "content")
  {
    OptGet(OptGet(First(Get(Defined(data), "choices")), "message"), "content")
  }

  function Failure(): Response
  {
    Response(500, ErrorBody(GenerationFailed))
  }

  /** The part of the handler after the fetch: every failure before parsing is a 500 with a fixed
      message, and everything from parsing on is a 200. */
  function AfterFetch(upstream: Upstream, parse: Json -> Option<Json>): (r: Response)
    ensures r.status == 200 ==> HasNameFields(r.body)
    ensures r.status != 200 ==> r == Failure()
  {
    match upstream
    case NetworkError => Failure()
    case Reply(ok, _, payload) =>
      if !ok || payload.None? then Failure()
      else
        var content := Content(payload.value);
        if !IsTruthy(content) then Failure()
        else
          match parse(content.value)
          case None => Response(200, Fallback())
          case Some(parsed) =>
            if HasNameFields(parsed) then Response(200, parsed) else Response(200, Fallback())
  }

  /**
   * The checks made before the fetch: None when the handler goes on to call the service,
   * otherwise the response it returns at once. An unreadable body and a null body (whose
   * destructuring throws) fall to the outer catch.
   */
  function Screen(request: Option<Json>, apiKey: Option<string>): (r: Option<Response>)
    ensures r.None? <==>
      request.Some? && ValidContext(Get(Defined(request.value), "context")) && Configured(apiKey)
    ensures r.Some? ==>
      r.value == Failure() ||
      r.value == Response(400, ErrorBody(ContextRequired)) ||
      r.value == Response(500, ErrorBody(KeyNotConfigured))
  {
    if request.None? then Some(Failure())
    else
      var context := Get(Defined(request.value), "context");
      if context.Throws? then Some(Failure())
      else if !ValidContext(context) then Some(Response(400, ErrorBody(ContextRequired)))
      else if !Configured(apiKey) then Some(Response(500, ErrorBody(KeyNotConfigured)))
      else None
  }

  /**
   * POST /api/generate-name. `request` is the parsed request body (None when `request.json()`
   * rejects); `apiKey` is OPENAI_API_KEY; `upstream` is what the single fetch produced; `parse`
   * is JSON.parse applied to the returned content.
   */
  function Post(request: Option<Json>, apiKey: Option<string>, upstream: Upstream, parse: Json -> Option<Json>): (h: Handled)
    ensures h.response.status in {200, 400, 500}
    ensures h.response.status == 200 ==> HasNameFields(h.response.body)
    ensures h.response.status == 400 ==> h.response.body == ErrorBody(ContextRequired)
    ensures h.response.status == 500 ==>
      h.response.body == ErrorBody(KeyNotConfigured) || h.response.body == ErrorBody(GenerationFailed)
    ensures h.call.Some? <==>
      request.Some? && ValidContext(Get(Defined(request.value), "context")) && Configured(apiKey)
    ensures h.call.Some? ==>
      h.call.value == ChatRequest(Get(Defined(request.value), "context").value.s, apiKey.value)
    ensures h.call.Some? ==> h.response == AfterFetch(upstream, parse)
    ensures h.call.None? ==> Screen(request, apiKey) == Some(h.response)
  {
    match Screen(request, apiKey)
    case Some(early) => Handled(early, None)
    case None =>
      var context := Get(Defined(request.value), "context");
      Handled(AfterFetch(upstream, parse), Some(ChatRequest(context.value.s, apiKey.value)))
  }

  /** The call the handler issues carries the configured key after "Bearer ", and its user
      message quotes the request's context exactly once. */
  lemma IssuedCall(request: Option<Json>, apiKey: Option<string>, upstream: Upstream, parse: Json -> Option<Json>)
    ensures var h := Post(request, apiKey, upstream, parse);
      h.call.Some? ==>
        var c := ChatCall(h.call.value);
        var content := Get(Message(c.body, 1), "content");
        c.authorization[..7] == "Bearer " && c.authorization[7..] == apiKey.value &&
        content.Defined? && content.value.JString? &&
        Occurrences(Needle(Get(Defined(request.value), "context").value.s), content.value.s) == {|Preamble()|}
  {
  }

  /** A present but missing, empty or non-string context is a 400, whatever the key and the
      upstream would have been, and nothing is sent. */
  lemma ContextCheckedFirst(body: Json, apiKey: Option<string>, upstream: Upstream, parse: Json -> Option<Json>)
    requires body != JNull && !ValidContext(Get(Defined(body), "context"))
    ensures Post(Some(body), apiKey, upstream, parse) == Handled(Response(400, ErrorBody(ContextRequired)), None)
  {
  }

  /** With a valid context and no usable key the handler answers 500 and sends nothing. */
  lemma KeyCheckedBeforeFetch(body: Json, apiKey: Option<string>, upstream: Upstream, parse: Json -> Option<Json>)
    requires ValidContext(Get(Defined(body), "context")) && !Configured(apiKey)
    ensures Post(Some(body), apiKey, upstream, parse) == Handled(Response(500, ErrorBody(KeyNotConfigured)), None)
  {
  }

  /** An unreadable request body is a 500 with the generic message. */
  lemma UnreadableRequest(apiKey: Option<string>, upstream: Upstream, parse: Json -> Option<Json>)
    ensures Post(None, apiKey, upstream, parse) == Handled(Failure(), None)
    ensures Post(Some(JNull), apiKey, upstream, parse) == Handled(Failure(), None)
  {
  }

  /** Once the fetch is made, a network error, a non-ok status, an unreadable reply or a missing
      content is a 500 with the generic message; the upstream status is not passed through. */
  lemma UpstreamFailure(upstream: Upstream, parse: Json -> Option<Json>)
    requires upstream.NetworkError? || !upstream.ok || upstream.payload.None? || !IsTruthy(Content(upstream.payload.value))
    ensures AfterFetch(upstream, parse) == Failure()
  {
  }

  /** A non-ok upstream answer yields the same response whatever its status code. */
  lemma StatusNotPassedThrough(status1: int, status2: int, payload1: Option<Json>, payload2: Option<Json>, parse: Json -> Option<Json>)
    ensures AfterFetch(Reply(false, status1, payload1), parse) == AfterFetch(Reply(false, status2, payload2), parse)
  {
  }

  /** Content that parses to a value with truthy name, meaning and explanation is returned as
      parsed, extra fields included. */
  lemma ParsedContentReturned(data: Json, status: int, parse: Json -> Option<Json>, parsed: Json)
    requires IsTruthy(Content(data)) && parse(Content(data).value) == Some(parsed) && HasNameFields(parsed)
    ensures AfterFetch(Reply(true, status, Some(data)), parse) == Response(200, parsed)
  {
  }

  /** Content that does not parse, or lacks a truthy name, meaning or explanation, is replaced
      by the fixed Akosua record, with status 200. */
  lemma FallbackOnUnusableContent(data: Json, status: int, parse: Json -> Option<Json>)
    requires IsTruthy(Content(data))
    requires parse(Content(data).value).None? || !HasNameFields(parse(Content(data).value).value)
    ensures AfterFetch(Reply(true, status, Some(data)), parse) == Response(200, Fallback())
  {
  }

  /** The handler succeeds exactly when the context is valid, the key is set, the fetch returned
      an ok, readable reply and that reply carries truthy content. */
  lemma SuccessExactly(request: Option<Json>, apiKey: Option<string>, upstream: Upstream, parse: Json -> Option<Json>)
    ensures Post(request, apiKey, upstream, parse).response.status == 200 <==>
      request.Some? && ValidContext(Get(Defined(request.value), "context")) && Configured(apiKey) &&
      upstream.Reply? && upstream.ok && upstream.payload.Some? && IsTruthy(Content(upstream.payload.value))
  {
  }
}
