/** The admin panel component (admin_panel.js) as a session object: the chat
    conversation and its pending requests, the engine switch, the mirror of
    the server's AI settings, the model lists, and the user and invite
    tables. A send and its reply are two events, so replies may arrive in
    any order. */
module AdminSession {
  import opened Wrappers
  import opened Text
  import opened JsonValue
  import opened UserDirectory

  /** A chat bubble: who wrote it, its text (a server reply is shown as it
      arrives, so it is any truthy JSON value), and its time stamp. */
  datatype Turn = Turn(from: string, text: Json, time: string)

  /** A chat request in flight: its ticket, the endpoint it was posted to,
      and the message it carries. */
  datatype ChatRequest = ChatRequest(ticket: nat, route: string, message: string)

  /** How a `fetch(...).then(resp => resp.json())` chain ends: with the
      parsed body, or rejected (network failure or a body that is not JSON). */
  datatype FetchOutcome = Received(data: Json) | FetchFailed

  /** What a model-list load does to the list it owns. */
  datatype ListUpdate = Keep | Replace(items: seq<Option<Json>>)

  /** An invite as the panel creates it. */
  datatype PanelInvite = PanelInvite(
    id: int, code: string, createdBy: string, uses: int, maxUses: int, expiresAt: string, status: string)

  const OpenAiEngine: string := "openai"
  const OllamaEngine: string := "ollama"
  const NoResponse: string := "No response"
  const ContactError: string := "Error contacting AI"

  /** The six settings the panel keeps. */
  const AiSettingKeys: set<string> :=
    {"openai_key", "openai_model", "ollama_url", "ollama_model", "remote_url", "system_instructions"}

  /** The chat endpoint for an engine: only `'openai'` goes to OpenAI. */
  function Route(engine: string): (r: string)
    ensures r == "/api/openai" <==> engine == OpenAiEngine
    ensures r == "/api/openai" || r == "/api/ollama"
  {
    if engine == OpenAiEngine then "/api/openai" else "/api/ollama"
  }

  /** The engine after the toggle button. */
  function Toggled(engine: string): (r: string)
    ensures r == OpenAiEngine || r == OllamaEngine
    ensures r == OllamaEngine <==> engine == OpenAiEngine
  {
    if engine == OpenAiEngine then OllamaEngine else OpenAiEngine
  }

  /** Toggling twice restores either engine. */
  lemma ToggleTwice(engine: string)
    requires engine == OpenAiEngine || engine == OllamaEngine
    ensures Toggled(Toggled(engine)) == engine
  {
  }

  /** The text of the `ai` turn a completed request appends: the reply when
      it is truthy, `'No response'` when the body has none, and
      `'Error contacting AI'` when the chain rejects (reading `reply` of a
      `null` body rejects too). */
  function ReplyText(outcome: FetchOutcome): (r: Json)
    ensures JsTruthy(r)
    ensures outcome.FetchFailed? || outcome == Received(JNull) ==> r == JStr(ContactError)
    ensures outcome.Received? && Prop(outcome.data, "reply").Some? && JsTruthy(Prop(outcome.data, "reply").value)
            ==> r == Prop(outcome.data, "reply").value
    ensures outcome.Received? && outcome.data != JNull
            && (Prop(outcome.data, "reply").None? || !JsTruthy(Prop(outcome.data, "reply").value))
            ==> r == JStr(NoResponse)
  {
    match outcome
    case FetchFailed => JStr(ContactError)
    case Received(data) =>
      if data == JNull then JStr(ContactError)
      else
        var reply := Prop(data, "reply");
        if reply.Some? && JsTruthy(reply.value) then reply.value else JStr(NoResponse)
  }

  /** `settings.key || ''` for each kept key; `None` when the load fails and
      the settings stay as they were. */
  function SettingsMirror(outcome: FetchOutcome): (r: Option<map<string, Json>>)
    ensures r.None? <==> outcome.FetchFailed? || outcome == Received(JNull)
    ensures r.Some? ==> r.value.Keys == AiSettingKeys
    ensures r.Some? ==> forall k :: k in AiSettingKeys ==>
      if Prop(outcome.data, k).Some? && JsTruthy(Prop(outcome.data, k).value)
      then r.value[k] == Prop(outcome.data, k).value else r.value[k] == JStr("")
  {
    match outcome
    case FetchFailed => None
    case Received(data) =>
      if data == JNull then None
      else Some(map k | k in AiSettingKeys ::
        if Prop(data, k).Some? && JsTruthy(Prop(data, k).value) then Prop(data, k).value else JStr(""))
  }

  /** `items.map(m => m[key])`; `undefined` for an item without the key. */
  function Pluck(items: seq<Json>, key: string): (r: seq<Option<Json>>)
    ensures |r| == |items|
    ensures forall i :: 0 <= i < |items| ==> r[i] == Prop(items[i], key)
  {
    seq(|items|, i requires 0 <= i < |items| => Prop(items[i], key))
  }

  /** A model-list load: `if (data && data[field]) set(data[field].map(m => m[key]))`,
      and `set([])` in the `catch`. A list that is not an array, or holds a
      `null` item, throws inside the handler and lands in the `catch`. */
  function ModelList(outcome: FetchOutcome, field: string, key: string): (r: ListUpdate)
    ensures outcome.FetchFailed? ==> r == Replace([])
    ensures outcome.Received? && (Prop(outcome.data, field).None? || !JsTruthy(Prop(outcome.data, field).value))
            ==> r == Keep
    ensures outcome.Received? && Prop(outcome.data, field).Some? && Prop(outcome.data, field).value.JArr?
            && JNull !in Prop(outcome.data, field).value.items
            ==> r == Replace(Pluck(Prop(outcome.data, field).value.items, key))
    ensures outcome.Received? && Prop(outcome.data, field).Some? && JsTruthy(Prop(outcome.data, field).value)
            && !(Prop(outcome.data, field).value.JArr? && JNull !in Prop(outcome.data, field).value.items)
            ==> r == Replace([])
  {
    match outcome
    case FetchFailed => Replace([])
    case Received(data) =>
      var list := Prop(data, field);
      if !JsTruthy(data) || list.None? || !JsTruthy(list.value) then Keep
      else if list.value.JArr? && JNull !in list.value.items then Replace(Pluck(list.value.items, key))
      else Replace([])
  }

  /** The list the panel holds after an update. */
  function Applied(update: ListUpdate, current: seq<Option<Json>>): seq<Option<Json>> {
    match update
    case Keep => current
    case Replace(items) => items
  }

  /** The invite `handleCreateInvite` appends. */
  function NewPanelInvite(invites: seq<PanelInvite>, suffix: string, handle: string): (v: PanelInvite)
    ensures v.id == |invites| + 1 && v.code == "INV-2024-" + suffix && v.createdBy == handle
    ensures v.uses == 0 && v.maxUses == 5 && v.expiresAt == "2025-12-31" && v.status == "active"
  {
    PanelInvite(|invites| + 1, "INV-2024-" + suffix, handle, 0, 5, "2025-12-31", "active")
  }

  /** Invite ids number the invites from 1. */
  predicate NumberedFromOne(invites: seq<PanelInvite>) {
    forall i :: 0 <= i < |invites| ==> invites[i].id == i + 1
  }

  /** The panel only appends invites, so ids counted from the list length
      stay the numbers 1, 2, ... and never repeat. */
  lemma NewInviteKeepsNumbering(invites: seq<PanelInvite>, suffix: string, handle: string)
    requires NumberedFromOne(invites)
    ensures NumberedFromOne(invites + [NewPanelInvite(invites, suffix, handle)])
    ensures forall i :: 0 <= i < |invites| ==> invites[i].id != NewPanelInvite(invites, suffix, handle).id
  {
  }

  /** The number of turns written by `from`. */
  function CountFrom(turns: seq<Turn>, from: string): (n: nat)
    ensures n <= |turns|
  {
    if turns == [] then 0
    else (if turns[0].from == from then 1 else 0) + CountFrom(turns[1..], from)
  }

  /** The count is zero exactly when no turn is by `from`, and the whole
      length exactly when every turn is. */
  lemma {:induction false} CountFromNoneOrAll(turns: seq<Turn>, from: string)
    ensures CountFrom(turns, from) == 0 <==> forall i :: 0 <= i < |turns| ==> turns[i].from != from
    ensures CountFrom(turns, from) == |turns| <==> forall i :: 0 <= i < |turns| ==> turns[i].from == from
  {
    if turns != [] {
      CountFromNoneOrAll(turns[1..], from);
      assert forall i :: 1 <= i < |turns| ==> turns[i] == turns[1..][i - 1];
    }
  }

  /** Appending a turn adds one to its author's count and nothing to the others'. */
  lemma {:induction false} CountFromAppend(turns: seq<Turn>, t: Turn, from: string)
    ensures CountFrom(turns + [t], from) == CountFrom(turns, from) + (if t.from == from then 1 else 0)
  {
    if turns == [] {
      assert [] + [t] == [t];
    } else {
      assert (turns + [t])[1..] == turns[1..] + [t];
      CountFromAppend(turns[1..], t, from);
    }
  }

  /** The conversation the panel opens with. */
  const InitialChat: seq<Turn> :=
    [Turn("user", JStr("Hello, AI!"), "9:00"), Turn("ai", JStr("Hi there! How can I help today?"), "9:00")]

  /** The AI settings before the first load: every key blank. */
  const EmptyAiSettings: map<string, Json> := map k | k in AiSettingKeys :: JStr("")

  /** The greeting is one answered turn. */
  lemma InitialChatBalanced()
    ensures CountFrom(InitialChat, "user") == 1 && CountFrom(InitialChat, "ai") == 1
  {
  }

  /** The panel's state. `inFlight` holds the tickets of the chat requests
      awaiting their reply and `nextTicket` the next one to issue. */
  class Session {
    var chatMessages: seq<Turn>
    var chatInput: string
    var chatEngine: string
    var aiSettings: map<string, Json>
    var openaiModels: seq<Option<Json>>
    var ollamaModels: seq<Option<Json>>
    var users: seq<PanelUser>
    var invites: seq<PanelInvite>
    var profileHandle: string
    ghost var inFlight: set<nat>
    var nextTicket: nat

    /** The engine is one of the two, every ticket in flight was issued, and
        every `user` turn is answered by one `ai` turn or still in flight:
        no send yields two replies. */
    ghost predicate Valid()
      reads this
    {
      (chatEngine == OpenAiEngine || chatEngine == OllamaEngine)
      && (forall t :: t in inFlight ==> t < nextTicket)
      && CountFrom(chatMessages, "user") == CountFrom(chatMessages, "ai") + |inFlight|
    }

    /** The initial state: a two-turn greeting, the OpenAI engine, empty
        settings and model lists, and the given tables. */
    constructor (users0: seq<PanelUser>, invites0: seq<PanelInvite>, handle: string)
      ensures Valid()
      ensures chatMessages == InitialChat
      ensures chatInput == "" && chatEngine == OpenAiEngine && inFlight == {}
      ensures aiSettings == EmptyAiSettings
      ensures openaiModels == [] && ollamaModels == []
      ensures users == users0 && invites == invites0 && profileHandle == handle
    {
      chatMessages := InitialChat;
      chatInput := "";
      chatEngine := OpenAiEngine;
      aiSettings := EmptyAiSettings;
      openaiModels := [];
      ollamaModels := [];
      users := users0;
      invites := invites0;
      profileHandle := handle;
      inFlight := {};
      nextTicket := 0;
      InitialChatBalanced();
    }

    /** Typing in the chat box. */
    method TypeInput(text: string)
      modifies this
      requires Valid()
      ensures Valid()
      ensures chatInput == text
      ensures chatMessages == old(chatMessages) && chatEngine == old(chatEngine) && inFlight == old(inFlight)
      ensures nextTicket == old(nextTicket) && aiSettings == old(aiSettings)
      ensures openaiModels == old(openaiModels) && ollamaModels == old(ollamaModels)
      ensures users == old(users) && invites == old(invites) && profileHandle == old(profileHandle)
    {
      chatInput := text;
    }

    /** `sendChatMessage()`: nothing happens for blank input; otherwise the
        untrimmed input is appended as a `user` turn, the box is cleared and
        a request is posted to the engine's route. */
    method Send(time: string) returns (request: Option<ChatRequest>)
      modifies this
      requires Valid()
      ensures Valid()
      ensures AllIn(old(chatInput), JsWhitespace) ==> request.None? && unchanged(this)
      ensures !AllIn(old(chatInput), JsWhitespace) ==>
        request == Some(ChatRequest(old(nextTicket), Route(old(chatEngine)), old(chatInput)))
        && chatMessages == old(chatMessages) + [Turn("user", JStr(old(chatInput)), time)]
        && chatInput == "" && inFlight == old(inFlight) + {old(nextTicket)} && nextTicket == old(nextTicket) + 1
        && chatEngine == old(chatEngine) && aiSettings == old(aiSettings)
        && openaiModels == old(openaiModels) && ollamaModels == old(ollamaModels)
        && users == old(users) && invites == old(invites) && profileHandle == old(profileHandle)
    {
      StripEmptyIff(chatInput, JsWhitespace);
      if Strip(chatInput, JsWhitespace) == "" {
        return None;
      }
      var turn := Turn("user", JStr(chatInput), time);
      CountFromAppend(chatMessages, turn, "user");
      CountFromAppend(chatMessages, turn, "ai");
      chatMessages := chatMessages + [turn];
      request := Some(ChatRequest(nextTicket, Route(chatEngine), chatInput));
      chatInput := "";
      inFlight := inFlight + {nextTicket};
      nextTicket := nextTicket + 1;
    }

    /** The request with ticket `ticket` settles: exactly one `ai` turn is
        appended after whatever the conversation holds by then. */
    method Complete(ticket: nat, outcome: FetchOutcome, time: string)
      modifies this
      requires Valid() && ticket in inFlight
      ensures Valid()
      ensures chatMessages == old(chatMessages) + [Turn("ai", ReplyText(outcome), time)]
      ensures inFlight == old(inFlight) - {ticket}
      ensures chatInput == old(chatInput) && chatEngine == old(chatEngine) && nextTicket == old(nextTicket)
      ensures aiSettings == old(aiSettings) && openaiModels == old(openaiModels) && ollamaModels == old(ollamaModels)
      ensures users == old(users) && invites == old(invites) && profileHandle == old(profileHandle)
    {
      var turn := Turn("ai", ReplyText(outcome), time);
      CountFromAppend(chatMessages, turn, "user");
      CountFromAppend(chatMessages, turn, "ai");
      chatMessages := chatMessages + [turn];
      inFlight := inFlight - {ticket};
    }

    /** The engine button. */
    method ToggleEngine()
      modifies this
      requires Valid()
      ensures Valid()
      ensures chatEngine == Toggled(old(chatEngine)) && chatEngine != old(chatEngine)
      ensures chatMessages == old(chatMessages) && chatInput == old(chatInput) && inFlight == old(inFlight)
      ensures nextTicket == old(nextTicket) && aiSettings == old(aiSettings)
      ensures openaiModels == old(openaiModels) && ollamaModels == old(ollamaModels)
      ensures users == old(users) && invites == old(invites) && profileHandle == old(profileHandle)
    {
      chatEngine := Toggled(chatEngine);
    }

    /** The `GET /api/settings` load of the AI section. */
    method LoadAiSettings(outcome: FetchOutcome)
      modifies this
      requires Valid()
      ensures Valid()
      ensures aiSettings == if SettingsMirror(outcome).Some? then SettingsMirror(outcome).value else old(aiSettings)
      ensures chatMessages == old(chatMessages) && chatInput == old(chatInput) && chatEngine == old(chatEngine)
      ensures inFlight == old(inFlight) && nextTicket == old(nextTicket)
      ensures openaiModels == old(openaiModels) && ollamaModels == old(ollamaModels)
      ensures users == old(users) && invites == old(invites) && profileHandle == old(profileHandle)
    {
      var mirror := SettingsMirror(outcome);
      if mirror.Some? {
        aiSettings := mirror.value;
      }
    }

    /** The `GET /api/models/openai` load: `data.data[i].id`. */
    method LoadOpenAiModels(outcome: FetchOutcome)
      modifies this
      requires Valid()
      ensures Valid()
      ensures openaiModels == Applied(ModelList(outcome, "data", "id"), old(openaiModels))
      ensures chatMessages == old(chatMessages) && chatInput == old(chatInput) && chatEngine == old(chatEngine)
      ensures inFlight == old(inFlight) && nextTicket == old(nextTicket) && aiSettings == old(aiSettings)
      ensures ollamaModels == old(ollamaModels)
      ensures users == old(users) && invites == old(invites) && profileHandle == old(profileHandle)
    {
      var update := ModelList(outcome, "data", "id");
      if update.Replace? {
        openaiModels := update.items;
      }
    }

    /** The `GET /api/models/ollama` load: `data.models[i].name`. */
    method LoadOllamaModels(outcome: FetchOutcome)
      modifies this
      requires Valid()
      ensures Valid()
      ensures ollamaModels == Applied(ModelList(outcome, "models", "name"), old(ollamaModels))
      ensures chatMessages == old(chatMessages) && chatInput == old(chatInput) && chatEngine == old(chatEngine)
      ensures inFlight == old(inFlight) && nextTicket == old(nextTicket) && aiSettings == old(aiSettings)
      ensures openaiModels == old(openaiModels)
      ensures users == old(users) && invites == old(invites) && profileHandle == old(profileHandle)
    {
      var update := ModelList(outcome, "models", "name");
      if update.Replace? {
        ollamaModels := update.items;
      }
    }

    /** `handleUserAction(action, user)`; `confirmed` is the answer to the
        delete confirmation. Any other action changes nothing. */
    method HandleUserAction(action: string, userId: int, confirmed: bool)
      modifies this
      requires Valid()
      ensures Valid()
      ensures users == (if action == "delete" then (if confirmed then RemoveById(old(users), userId) else old(users))
                        else if action == "suspend" then SetStatusById(old(users), userId, "suspended")
                        else if action == "activate" then SetStatusById(old(users), userId, "online")
                        else old(users))
      ensures chatMessages == old(chatMessages) && chatInput == old(chatInput) && chatEngine == old(chatEngine)
      ensures inFlight == old(inFlight) && nextTicket == old(nextTicket) && aiSettings == old(aiSettings)
      ensures openaiModels == old(openaiModels) && ollamaModels == old(ollamaModels)
      ensures invites == old(invites) && profileHandle == old(profileHandle)
    {
      if action == "delete" {
        if confirmed {
          users := RemoveById(users, userId);
        }
      } else if action == "suspend" {
        users := SetStatusById(users, userId, "suspended");
      } else if action == "activate" {
        users := SetStatusById(users, userId, "online");
      }
    }

    /** `handleCreateInvite()`; `suffix` stands for the four random
        characters of the invite code. */
    method CreateInvite(suffix: string) returns (invite: PanelInvite)
      modifies this
      requires Valid()
      ensures Valid()
      ensures invite == NewPanelInvite(old(invites), suffix, old(profileHandle))
      ensures invites == old(invites) + [invite]
      ensures chatMessages == old(chatMessages) && chatInput == old(chatInput) && chatEngine == old(chatEngine)
      ensures inFlight == old(inFlight) && nextTicket == old(nextTicket) && aiSettings == old(aiSettings)
      ensures openaiModels == old(openaiModels) && ollamaModels == old(ollamaModels)
      ensures users == old(users) && profileHandle == old(profileHandle)
    {
      invite := NewPanelInvite(invites, suffix, profileHandle);
      invites := invites + [invite];
    }
  }
}
