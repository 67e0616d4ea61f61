/** The panel talking to the server: how each server answer reaches the
    panel's `fetch(...).then(resp => resp.json())` chains, and what the panel
    then shows for the chat, the model lists and the AI settings. */
module PanelServer {
  import opened Wrappers
  import opened Text
  import opened JsonValue
  import opened RuntimeSettings
  import opened ChatProxy
  import opened AdminSession

  /** The statuses FastAPI's `HTTPException` handler answers without a body:
      informational ones, 204, 205 and 304. */
  predicate Bodyless(code: int) {
    code < 200 || code == 204 || code == 205 || code == 304
  }

  /** A server answer as the panel receives it: a JSON body parses, an
      `HTTPException` arrives as FastAPI's `{"detail": ...}` body (the panel
      never looks at the status) unless its status allows no body, and an
      empty body or a plain-text 500 fails `resp.json()`. */
  function AsFetched(resp: ApiResponse): (o: FetchOutcome)
    ensures o.FetchFailed? <==> resp.ServerCrash? || (resp.HttpError? && Bodyless(resp.code))
    ensures resp.Ok? ==> o == Received(resp.body)
    ensures resp.HttpError? && !Bodyless(resp.code) ==> o == Received(JObj(map["detail" := JStr(resp.detail)]))
  {
    match resp
    case Ok(body) => Received(body)
    case HttpError(code, detail) =>
      if Bodyless(code) then FetchFailed else Received(JObj(map["detail" := JStr(detail)]))
    case ServerCrash => FetchFailed
  }

  /** The endpoint a chat request is posted to. */
  function ServeChat(route: string, message: Option<string>, upstream: Upstream): (r: ApiResponse)
    ensures route == Route(OpenAiEngine) ==> r == ChatOpenAi(message, upstream)
    ensures route == Route(OllamaEngine) ==> r == ChatOllama(message, upstream)
  {
    if route == "/api/openai" then ChatOpenAi(message, upstream) else ChatOllama(message, upstream)
  }

  /** Every server refusal of a chat request with a status that carries a
      body, whatever its detail, shows up as `'No response'`; a bodyless
      refusal and an uncaught server error show `'Error contacting AI'`. */
  lemma ChatFailuresAsShown(resp: ApiResponse)
    ensures resp.HttpError? && !Bodyless(resp.code) ==> ReplyText(AsFetched(resp)) == JStr(NoResponse)
    ensures resp.HttpError? && Bodyless(resp.code) ==> ReplyText(AsFetched(resp)) == JStr(ContactError)
    ensures resp.ServerCrash? ==> ReplyText(AsFetched(resp)) == JStr(ContactError)
  {
    if resp.HttpError? && !Bodyless(resp.code) {
      assert Prop(AsFetched(resp).data, "reply").None?;
    }
  }

  /** An upstream `204 No Content` on a chat request is passed on as a 204
      `HTTPException`, which arrives without a body: the panel shows
      `'Error contacting AI'`, not `'No response'`. */
  lemma NoContentShowsContactError()
    ensures ReplyText(AsFetched(ServeChat(Route(OpenAiEngine), Some("hi"), Answered(204, None, ""))))
         == JStr(ContactError)
  {
    ChatFailuresAsShown(ChatOpenAi(Some("hi"), Answered(204, None, "")));
  }

  /** A message the panel sends is never refused as missing: the panel
      only sends input that is not blank. */
  lemma {:induction false} PanelMessagesAreAccepted(input: string, route: string, upstream: Upstream)
    requires !AllIn(input, JsWhitespace)
    ensures ServeChat(route, Some(input), upstream) != HttpError(400, "Message is required")
  {
    if input == [] {
      assert AllIn(input, JsWhitespace);
    }
  }

  /** An Ollama reply the server passes on is shown exactly as it came. */
  lemma OllamaReplyShown(message: Option<string>, upstream: Upstream)
    requires ChatOllama(message, upstream).Ok?
    ensures ReplyText(AsFetched(ChatOllama(message, upstream))) == ChatOllama(message, upstream).body.fields["reply"]
  {
    var reply := ChatOllama(message, upstream).body.fields["reply"];
    assert JsTruthy(reply);
  }

  /** An OpenAI reply the server passes on is shown when it is truthy in
      JavaScript; an empty string reply is shown as `'No response'`. */
  lemma OpenAiReplyShown(message: Option<string>, upstream: Upstream)
    requires ChatOpenAi(message, upstream).Ok?
    ensures var reply := ChatOpenAi(message, upstream).body.fields["reply"];
      ReplyText(AsFetched(ChatOpenAi(message, upstream))) == if JsTruthy(reply) then reply else JStr(NoResponse)
  {
  }

  /** The ids of the local catalogue, as the OpenAI model dropdown holds them. */
  function CatalogueIds(): (r: seq<Option<Json>>)
    ensures |r| == |DefaultOpenAiModelIds|
    ensures forall i :: 0 <= i < |r| ==> r[i] == Some(JStr(DefaultOpenAiModelIds[i]))
  {
    seq(|DefaultOpenAiModelIds|, i requires 0 <= i < |DefaultOpenAiModelIds| => Some(JStr(DefaultOpenAiModelIds[i])))
  }

  /** Whenever the server falls back to its catalogue (no key, upstream
      failure), the dropdown lists exactly the catalogue's ids, in order. */
  lemma FallbackFillsDropdown(reason: string)
    ensures ModelList(AsFetched(Ok(FallbackOpenAiModels(reason))), "data", "id") == Replace(CatalogueIds())
  {
    var entries := ModelEntries(DefaultOpenAiModelIds);
    assert forall i :: 0 <= i < |entries| ==> entries[i] != JNull;
    assert Pluck(entries, "id") == CatalogueIds();
  }

  /** Without an OpenAI key, the dropdown shows the catalogue. */
  lemma NoKeyShowsCatalogue(settings: Settings, upstream: Upstream)
    requires AllIn(Get(settings, "openai_key", ""), PyWhitespace)
    ensures ModelList(AsFetched(ListOpenAiModels(settings, upstream)), "data", "id") == Replace(CatalogueIds())
  {
    FallbackFillsDropdown(NoKeyWarning);
  }

  /** A refused Ollama list request leaves the dropdown as it was, unless
      the refusal's status carries no body; that and an uncaught server error
      empty it. */
  lemma OllamaListFailures(settings: Settings, upstream: Upstream)
    ensures var resp := ListOllamaModels(settings, upstream);
      resp.HttpError? && !Bodyless(resp.code) ==> ModelList(AsFetched(resp), "models", "name") == Keep
    ensures var resp := ListOllamaModels(settings, upstream);
      resp.ServerCrash? || (resp.HttpError? && Bodyless(resp.code)) ==>
      ModelList(AsFetched(resp), "models", "name") == Replace([])
  {
    var resp := ListOllamaModels(settings, upstream);
    if resp.HttpError? && !Bodyless(resp.code) {
      assert Prop(AsFetched(resp).data, "models").None?;
    }
  }

  /** `GET /api/settings` returns the settings dictionary, so the panel's
      mirror holds each of its six keys' strings, blank when missing. */
  lemma SettingsMirrorOfServer(s: Settings)
    ensures SettingsMirror(Received(StringObject(s))) == Some(map k | k in AiSettingKeys :: JStr(Get(s, k, "")))
  {
    assert StringObject(s) != JNull;
    var mirror := SettingsMirror(Received(StringObject(s))).value;
    var expected := map k | k in AiSettingKeys :: JStr(Get(s, k, ""));
    forall k | k in AiSettingKeys
      ensures mirror[k] == expected[k]
    {
      assert Prop(StringObject(s), k) == if k in s then Some(JStr(s[k])) else None;
    }
    assert mirror.Keys == expected.Keys;
    assert mirror == expected;
  }
}
