/** The server's proxy endpoints: `POST /api/openai` and `POST /api/ollama`
    (the request each sends upstream and the answer it gives back), the
    model-list endpoints with the local catalogue, and the validation done by
    `POST /api/tools/ping`. The upstream services are not called: what they
    answer is a parameter. */
module ChatProxy {
  import opened Wrappers
  import opened Text
  import opened JsonValue
  import opened UrlNormalization
  import opened RuntimeSettings

  /** What an upstream HTTP call gave: a `requests` exception (with its text),
      or a response with its status, its body parsed as JSON when it parses,
      and its raw text. */
  datatype Upstream =
    | Unreachable(error: string)
    | Answered(status: int, body: Option<Json>, text: string)

  /** What the server answers: a JSON body, an `HTTPException` (status and
      detail), or an uncaught exception, which FastAPI turns into a plain-text
      500 "Internal Server Error". */
  datatype ApiResponse =
    | Ok(body: Json)
    | HttpError(code: int, detail: string)
    | ServerCrash

  /** One entry of the OpenAI `messages` list. */
  datatype ChatMessage = ChatMessage(role: string, content: string)

  /** The body `chat_openai` posts to the chat completion endpoint, with the
      key it sends in its `Authorization` header. */
  datatype OpenAiRequest = OpenAiRequest(apiKey: string, model: string, messages: seq<ChatMessage>)

  /** The body `chat_ollama` posts to `url` (`stream` is always false). */
  datatype OllamaRequest = OllamaRequest(url: string, model: string, prompt: string)

  const OpenAiChatUrl: string := "https://api.openai.com/v1/chat/completions"
  const DefaultOllamaUrl: string := "http://localhost:11434"

  /** `DEFAULT_OPENAI_MODEL_IDS`. */
  const DefaultOpenAiModelIds: seq<string> :=
    ["gpt-4o-mini", "gpt-4o", "gpt-4.1-mini", "gpt-4.1", "gpt-3.5-turbo", "o3-mini"]

  /** The `messages` list: a `system` entry with the instructions when there
      are any, then the `user` entry with the message. */
  function OpenAiMessages(instructions: string, msg: string): (r: seq<ChatMessage>)
    ensures 1 <= |r| <= 2
    ensures r[|r| - 1] == ChatMessage("user", msg)
    ensures |r| == 2 <==> instructions != ""
    ensures |r| == 2 ==> r[0] == ChatMessage("system", instructions)
  {
    (if instructions != "" then [ChatMessage("system", instructions)] else [])
    + [ChatMessage("user", msg)]
  }

  /** The Ollama prompt: the instructions, a blank line, then the message;
      the message alone without instructions. */
  function OllamaPrompt(instructions: string, msg: string): (r: string)
    ensures EndsWith(r, msg)
    ensures instructions == "" ==> r == msg
    ensures instructions != "" ==> StartsWith(r, instructions + "\n\n") && |r| == |instructions| + 2 + |msg|
  {
    if instructions != "" then
      var r := instructions + "\n\n" + msg;
      assert r[|r| - |msg|..] == msg;
      PrefixOfConcat(instructions + "\n\n", msg);
      r
    else msg
  }

  /** The request `chat_openai` sends for a non-empty message. */
  function OpenAiChatRequest(settings: Settings, msg: string): (q: OpenAiRequest)
    ensures q.apiKey == Get(settings, "openai_key", "")
    ensures q.model == Get(settings, "openai_model", "gpt-4o-mini")
    ensures q.messages == OpenAiMessages(Get(settings, "system_instructions", ""), msg)
  {
    OpenAiRequest(Get(settings, "openai_key", ""), Get(settings, "openai_model", "gpt-4o-mini"),
                  OpenAiMessages(Get(settings, "system_instructions", ""), msg))
  }

  /** The base address `chat_ollama` talks to: the configured `ollama_url`
      (the local default when it is empty), normalised with `http`, without
      trailing slashes. */
  function OllamaBase(settings: Settings): (r: string)
    ensures r == RStrip(NormalizeExternalUrl(if Get(settings, "ollama_url", "") != "" then Get(settings, "ollama_url", "")
                                             else DefaultOllamaUrl, "http"), Only('/'))
  {
    var configured := Get(settings, "ollama_url", "");
    var url := if configured != "" then configured else DefaultOllamaUrl;
    RStrip(NormalizeExternalUrl(url, "http"), Only('/'))
  }

  /** The request `chat_ollama` sends for a non-empty message. */
  function OllamaChatRequest(settings: Settings, msg: string): (q: OllamaRequest)
    ensures q.url == OllamaBase(settings) + "/api/generate"
    ensures q.model == Get(settings, "ollama_model", "llama3.1")
    ensures q.prompt == OllamaPrompt(Get(settings, "system_instructions", ""), msg)
  {
    OllamaRequest(OllamaBase(settings) + "/api/generate", Get(settings, "ollama_model", "llama3.1"),
                  OllamaPrompt(Get(settings, "system_instructions", ""), msg))
  }

  /** `result["choices"][0]["message"]["content"]`; `None` when a step raises. */
  function OpenAiContent(result: Json): (r: Option<Json>)
    ensures r.Some? <==>
      result.JObj? && "choices" in result.fields && result.fields["choices"].JArr?
      && |result.fields["choices"].items| > 0
      && result.fields["choices"].items[0].JObj? && "message" in result.fields["choices"].items[0].fields
      && result.fields["choices"].items[0].fields["message"].JObj?
      && "content" in result.fields["choices"].items[0].fields["message"].fields
  {
    if result.JObj? && "choices" in result.fields then
      var choices := result.fields["choices"];
      if choices.JArr? && |choices.items| > 0 && choices.items[0].JObj? && "message" in choices.items[0].fields then
        var message := choices.items[0].fields["message"];
        if message.JObj? && "content" in message.fields then Some(message.fields["content"]) else None
      else None
    else None
  }

  /** `reply[:60]` for the log line succeeds on strings and lists only. */
  predicate Sliceable(v: Json) {
    v.JStr? || v.JArr?
  }

  /** `chat_openai` for a request whose `message` is `message` (`None` when
      absent), with `upstream` what the OpenAI endpoint answered. */
  function ChatOpenAi(message: Option<string>, upstream: Upstream): (r: ApiResponse)
    ensures message.GetOr("") == "" ==> r == HttpError(400, "Message is required")
    ensures message.GetOr("") != "" && upstream.Unreachable? ==> r == HttpError(500, "Error communicating with OpenAI")
    ensures message.GetOr("") != "" && upstream.Answered? && upstream.status != 200 ==>
      r == HttpError(upstream.status, "OpenAI API error")
    ensures message.GetOr("") != "" && upstream.Answered? && upstream.status == 200
            && (upstream.body.None? || OpenAiContent(upstream.body.value).None?) ==>
      r == HttpError(500, "Error parsing OpenAI response")
    ensures message.GetOr("") != "" && upstream.Answered? && upstream.status == 200
            && upstream.body.Some? && OpenAiContent(upstream.body.value).Some? ==>
      r == if Sliceable(OpenAiContent(upstream.body.value).value)
           then Ok(JObj(map["reply" := OpenAiContent(upstream.body.value).value])) else ServerCrash
    ensures r.Ok? ==> r.body.JObj? && r.body.fields.Keys == {"reply"} && Sliceable(r.body.fields["reply"])
  {
    var msg := message.GetOr("");
    if msg == "" then HttpError(400, "Message is required")
    else match upstream
      case Unreachable(_) => HttpError(500, "Error communicating with OpenAI")
      case Answered(status, body, _) =>
        if status != 200 then HttpError(status, "OpenAI API error")
        else if body.None? || OpenAiContent(body.value).None? then HttpError(500, "Error parsing OpenAI response")
        else
          var reply := OpenAiContent(body.value).value;
          if Sliceable(reply) then Ok(JObj(map["reply" := reply])) else ServerCrash
  }

  /** `chat_ollama` for a request whose `message` is `message`, with
      `upstream` what the Ollama host answered. */
  function ChatOllama(message: Option<string>, upstream: Upstream): (r: ApiResponse)
    ensures message.GetOr("") == "" ==> r == HttpError(400, "Message is required")
    ensures message.GetOr("") != "" && upstream.Unreachable? ==> r == HttpError(500, "Error communicating with Ollama")
    ensures message.GetOr("") != "" && upstream.Answered? && upstream.status != 200 ==>
      r == HttpError(upstream.status, "Ollama API error")
    ensures message.GetOr("") != "" && upstream.Answered? && upstream.status == 200
            && (upstream.body.None? || !upstream.body.value.JObj?) ==>
      r == HttpError(500, "Error parsing Ollama response")
    ensures message.GetOr("") != "" && upstream.Answered? && upstream.status == 200
            && upstream.body.Some? && upstream.body.value.JObj? ==>
      var reply := GetOr(upstream.body.value.fields, "response", JStr(""));
      r == if !PyTruthy(reply) then HttpError(502, "Ollama returned an empty response")
           else if Sliceable(reply) then Ok(JObj(map["reply" := reply])) else ServerCrash
    ensures r.Ok? ==>
      r.body.JObj? && r.body.fields.Keys == {"reply"}
      && Sliceable(r.body.fields["reply"]) && PyTruthy(r.body.fields["reply"])
  {
    var msg := message.GetOr("");
    if msg == "" then HttpError(400, "Message is required")
    else match upstream
      case Unreachable(_) => HttpError(500, "Error communicating with Ollama")
      case Answered(status, body, _) =>
        if status != 200 then HttpError(status, "Ollama API error")
        else if body.None? || !body.value.JObj? then HttpError(500, "Error parsing Ollama response")
        else
          var reply := GetOr(body.value.fields, "response", JStr(""));
          if !PyTruthy(reply) then HttpError(502, "Ollama returned an empty response")
          else if Sliceable(reply) then Ok(JObj(map["reply" := reply]))
          else ServerCrash
  }

  /** The Ollama endpoint never answers with an empty reply; the OpenAI
      endpoint passes an empty one through. */
  lemma OnlyOllamaRejectsEmptyReplies()
    ensures ChatOllama(Some("hi"), Answered(200, Some(JObj(map["response" := JStr("")])), "")) ==
      HttpError(502, "Ollama returned an empty response")
    ensures var choice := JObj(map["message" := JObj(map["content" := JStr("")])]);
      ChatOpenAi(Some("hi"), Answered(200, Some(JObj(map["choices" := JArr([choice])])), "")) ==
      Ok(JObj(map["reply" := JStr("")]))
  {
    var choice := JObj(map["message" := JObj(map["content" := JStr("")])]);
    assert OpenAiContent(JObj(map["choices" := JArr([choice])])) == Some(JStr(""));
  }

  /** `[{"id": model_id} for model_id in ids]`. */
  function ModelEntries(ids: seq<string>): (r: seq<Json>)
    ensures |r| == |ids|
    ensures forall i :: 0 <= i < |ids| ==> r[i] == JObj(map["id" := JStr(ids[i])])
  {
    seq(|ids|, i requires 0 <= i < |ids| => JObj(map["id" := JStr(ids[i])]))
  }

  /** `_fallback_openai_models(reason)`: the local catalogue, marked as such,
      with the reason as its warning. */
  function FallbackOpenAiModels(reason: string): (r: Json)
    ensures r.JObj? && r.fields.Keys == {"data", "source", "warning"}
    ensures r.fields["data"] == JArr(ModelEntries(DefaultOpenAiModelIds))
    ensures r.fields["source"] == JStr("local-cache") && r.fields["warning"] == JStr(reason)
  {
    JObj(map["data" := JArr(ModelEntries(DefaultOpenAiModelIds)),
             "source" := JStr("local-cache"),
             "warning" := JStr(reason)])
  }

  const NoKeyWarning: string := "OpenAI API key is not configured; showing cached models"
  const UnexpectedWarning: string := "Unexpected error while fetching OpenAI models"

  /** `list_openai_models()` with `upstream` what `GET /v1/models` answered:
      the catalogue with a warning when the key is blank or the call fails,
      the upstream list marked `"source": "openai"` otherwise. */
  function ListOpenAiModels(settings: Settings, upstream: Upstream): (r: ApiResponse)
    ensures AllIn(Get(settings, "openai_key", ""), PyWhitespace) ==> r == Ok(FallbackOpenAiModels(NoKeyWarning))
    ensures !AllIn(Get(settings, "openai_key", ""), PyWhitespace) ==>
      (upstream.Unreachable? ==> r == Ok(FallbackOpenAiModels(UnexpectedWarning)))
      && (upstream.Answered? && upstream.status != 200 ==>
            r == Ok(FallbackOpenAiModels("OpenAI API error: Error fetching OpenAI models")))
      && (upstream.Answered? && upstream.status == 200 && upstream.body.Some? && upstream.body.value.JObj? ==>
            r == Ok(JObj(upstream.body.value.fields["source" := JStr("openai")])))
      && (upstream.Answered? && upstream.status == 200 && upstream.body.None? ==>
            r == Ok(FallbackOpenAiModels(UnexpectedWarning)))
      && (upstream.Answered? && upstream.status == 200 && upstream.body.Some? && !upstream.body.value.JObj? ==>
            r == ServerCrash)
    ensures r.Ok? ==> r.body.JObj? && "source" in r.body.fields
  {
    var key := Strip(Get(settings, "openai_key", ""), PyWhitespace);
    StripEmptyIff(Get(settings, "openai_key", ""), PyWhitespace);
    if key == "" then Ok(FallbackOpenAiModels(NoKeyWarning))
    else match upstream
      case Unreachable(_) => Ok(FallbackOpenAiModels(UnexpectedWarning))
      case Answered(status, body, _) =>
        if status != 200 then Ok(FallbackOpenAiModels("OpenAI API error: Error fetching OpenAI models"))
        else if body.None? then Ok(FallbackOpenAiModels(UnexpectedWarning))
        else if body.value.JObj? then Ok(JObj(body.value.fields["source" := JStr("openai")]))
        else ServerCrash
  }

  /** The address `fetch_ollama_models` asks, when `ollama_url` normalises to one. */
  function OllamaTagsUrl(url: string): (r: Option<string>)
    ensures r.None? <==> AllIn(url, PyWhitespace)
    ensures r.Some? ==> EndsWith(r.value, "/api/tags")
    ensures r.Some? ==> r.value == RStrip(NormalizeExternalUrl(url, "http"), Only('/')) + "/api/tags"
  {
    NormalizeBlank(url, "http");
    var normalized := NormalizeExternalUrl(url, "http");
    if normalized == "" then None
    else
      var target := RStrip(normalized, Only('/')) + "/api/tags";
      assert target[|target| - |"/api/tags"|..] == "/api/tags";
      Some(target)
  }

  /** `list_ollama_models()` with `upstream` what `GET /api/tags` answered. */
  function ListOllamaModels(settings: Settings, upstream: Upstream): (r: ApiResponse)
    ensures Get(settings, "ollama_url", "") == "" ==> r == HttpError(400, "OLLAMA_URL is not set")
    ensures Get(settings, "ollama_url", "") != "" && AllIn(Get(settings, "ollama_url", ""), PyWhitespace) ==>
      r == HttpError(400, "OLLAMA_URL is not configured")
    ensures !AllIn(Get(settings, "ollama_url", ""), PyWhitespace) ==>
      (upstream.Unreachable? ==> r == HttpError(502, upstream.error))
      && (upstream.Answered? && upstream.status != 200 ==> r == HttpError(upstream.status, "Error fetching Ollama models"))
      && (upstream.Answered? && upstream.status == 200 ==>
            r == if upstream.body.Some? then Ok(upstream.body.value) else ServerCrash)
  {
    var url := Get(settings, "ollama_url", "");
    if url == "" then HttpError(400, "OLLAMA_URL is not set")
    else if OllamaTagsUrl(url).None? then HttpError(400, "OLLAMA_URL is not configured")
    else match upstream
      case Unreachable(error) => HttpError(502, error)
      case Answered(status, body, _) =>
        if status != 200 then HttpError(status, "Error fetching Ollama models")
        else if body.Some? then Ok(body.value)
        else ServerCrash
  }

  /** The body of `POST /api/tools/ping` (`ApiPingRequest`). */
  datatype PingRequest = PingRequest(url: string, verb: string, timeout: int)

  /** The request the ping endpoint makes once the body is accepted. */
  datatype PingPlan = PingPlan(url: string, verb: string, timeout: int)

  /** `max(1, min(timeout, 30))`. */
  function ClampTimeout(t: int): (r: int)
    ensures 1 <= r <= 30
    ensures 1 <= t <= 30 ==> r == t
    ensures t < 1 ==> r == 1
    ensures t > 30 ==> r == 30
  {
    if t < 1 then 1 else if t > 30 then 30 else t
  }

  /** The prefix of `s` before the first character in `stops`. */
  function UpTo(s: string, stops: set<char>): (r: string)
    ensures StartsWith(s, r)
    ensures forall i :: 0 <= i < |r| ==> r[i] !in stops
    ensures |r| < |s| ==> s[|r|] in stops
  {
    if |s| == 0 || s[0] in stops then ""
    else
      var r := [s[0]] + UpTo(s[1..], stops);
      assert s[..|r|] == [s[0]] + s[1..][..|r| - 1];
      r
  }

  /** The network location `urlparse` reads from an `http://` or `https://`
      address: the text after `//` up to the first `/`, `?` or `#`. */
  function Netloc(u: string): string {
    var rest := if StartsWith(u, "https://") then u[8..] else if StartsWith(u, "http://") then u[7..] else u;
    UpTo(rest, {'/', '?', '#'})
  }

  /** `urlparse` raises `ValueError("Invalid IPv6 URL")` when the network
      location holds one square bracket without the other. */
  predicate UnbalancedBrackets(netloc: string) {
    ('[' in netloc) != (']' in netloc)
  }

  /** The outcome of the checks `ping_http_endpoint` makes before its request:
      a refusal with its detail (a 400), a `ValueError` from `urlparse` (an
      uncaught 500), or the request to make. */
  datatype PingCheck =
    | Refused(detail: string)
    | InvalidUrl
    | Accepted(plan: PingPlan)

  /** The checks of `ping_http_endpoint`, in the order it makes them: a URL,
      one `urlparse` accepts, an `http`/`https` scheme, then the method. */
  function ValidatePing(p: PingRequest): (r: PingCheck)
    ensures r == Refused("URL is required") <==> AllIn(p.url, PyWhitespace)
    ensures r.InvalidUrl? <==>
      !AllIn(p.url, PyWhitespace) && UnbalancedBrackets(Netloc(NormalizeExternalUrl(p.url, "https")))
    ensures !AllIn(p.url, PyWhitespace) && !UnbalancedBrackets(Netloc(NormalizeExternalUrl(p.url, "https")))
            && ToUpper(p.verb) != "GET" && ToUpper(p.verb) != "HEAD" ==>
      r == Refused("Only GET or HEAD methods are supported")
    ensures r.Accepted? ==>
      r.plan.url == NormalizeExternalUrl(p.url, "https")
      && (StartsWith(r.plan.url, "http://") || StartsWith(r.plan.url, "https://"))
      && (r.plan.verb == "GET" || r.plan.verb == "HEAD") && r.plan.verb == ToUpper(p.verb)
      && r.plan.timeout == ClampTimeout(p.timeout)
    ensures !AllIn(p.url, PyWhitespace) && !UnbalancedBrackets(Netloc(NormalizeExternalUrl(p.url, "https")))
            && (ToUpper(p.verb) == "GET" || ToUpper(p.verb) == "HEAD") ==>
      r == Accepted(PingPlan(NormalizeExternalUrl(p.url, "https"), ToUpper(p.verb), ClampTimeout(p.timeout)))
  {
    var normalized := NormalizeExternalUrl(p.url, "https");
    NormalizeBlank(p.url, "https");
    if normalized == "" then Refused("URL is required")
    else if UnbalancedBrackets(Netloc(normalized)) then InvalidUrl
    else
      NormalizeGivesHttpUrl(p.url, "https");
      var verb := ToUpper(p.verb);
      if verb != "GET" && verb != "HEAD" then Refused("Only GET or HEAD methods are supported")
      else Accepted(PingPlan(normalized, verb, ClampTimeout(p.timeout)))
  }

  /** An unclosed IPv6 bracket passes the blank test, is given a scheme, and
      then makes `urlparse` raise before the method is looked at. */
  lemma UnclosedBracketIsInvalid()
    ensures ValidatePing(PingRequest("[::1", "POST", 5)) == InvalidUrl
  {
    var u := "[::1";
    assert !InClass(u[0], PyWhitespace) && !InClass(u[|u| - 1], PyWhitespace);
    StripFixpoint(u, PyWhitespace);
    NormalizeBareHost(u, "https");
    var n := NormalizeExternalUrl(u, "https");
    assert n == "https://[::1";
    assert Netloc(n)[0] == '[';
  }

  /** The first 400 characters of the response text (`response.text[:400]`). */
  function Preview(text: string): (r: string)
    ensures |r| <= 400 && StartsWith(text, r)
    ensures |text| <= 400 ==> r == text
  {
    if |text| <= 400 then text else text[..400]
  }

  /** The JSON report of a ping that reached its target. */
  function PingReport(plan: PingPlan, status: int, text: string): (r: Json)
    ensures r.JObj? && r.fields.Keys == {"status", "url", "method", "status_code", "body_preview"}
    ensures r.fields["status"] == JStr("ok") && r.fields["url"] == JStr(plan.url)
    ensures r.fields["method"] == JStr(plan.verb) && r.fields["status_code"] == JNum(status)
    ensures r.fields["body_preview"] == JStr(Preview(text))
  {
    JObj(map["status" := JStr("ok"), "url" := JStr(plan.url), "method" := JStr(plan.verb),
             "status_code" := JNum(status), "body_preview" := JStr(Preview(text))])
  }

  /** `ping_http_endpoint(payload)` with `upstream` what the target answered:
      the accepted request echoed with the status code and the start of the
      body. Latency and headers are not modelled. */
  function Ping(p: PingRequest, upstream: Upstream): (r: ApiResponse)
    ensures ValidatePing(p).Refused? ==> r == HttpError(400, ValidatePing(p).detail)
    ensures ValidatePing(p).InvalidUrl? ==> r == ServerCrash
    ensures ValidatePing(p).Accepted? && upstream.Unreachable? ==> r == HttpError(502, upstream.error)
    ensures ValidatePing(p).Accepted? && upstream.Answered? ==>
      r == Ok(PingReport(ValidatePing(p).plan, upstream.status, upstream.text))
  {
    match ValidatePing(p)
    case Refused(detail) => HttpError(400, detail)
    case InvalidUrl => ServerCrash
    case Accepted(plan) =>
      match upstream
      case Unreachable(error) => HttpError(502, error)
      case Answered(status, _, text) => Ok(PingReport(plan, status, text))
  }

  /** The text before the first `:` of a string that starts with a scheme
      and `://` is that scheme. */
  lemma SchemeBeforeColon(u: string, scheme: string)
    requires ':' !in scheme
    requires StartsWith(u, scheme + "://")
    ensures Before(u, ':') == scheme
  {
    var k := |scheme|;
    assert u[..k + 3] == scheme + "://";
    assert forall j :: 0 <= j < k ==> u[j] == scheme[j];
    assert u[k] == ':';
    assert u[..k] == scheme;
  }

  /** The scheme check of the ping endpoint never fires: every accepted
      address has the scheme `http` or `https` (urlparse reads the scheme
      before the first `:`). */
  lemma PingSchemeAlwaysHttp(p: PingRequest)
    requires ValidatePing(p).Accepted?
    ensures Before(ValidatePing(p).plan.url, ':') in {"http", "https"}
  {
    HttpSchemeBeforeColon(ValidatePing(p).plan.url);
  }

  /** An `http://` or `https://` address has the scheme `http` or `https`. */
  lemma HttpSchemeBeforeColon(u: string)
    requires StartsWith(u, "http://") || StartsWith(u, "https://")
    ensures Before(u, ':') in {"http", "https"}
  {
    if StartsWith(u, "http://") {
      SchemeBeforeColon(u, "http");
    } else {
      SchemeBeforeColon(u, "https");
    }
  }
}
