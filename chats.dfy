/**
 * The `chats` table (`id TEXT PRIMARY KEY, name TEXT, messages TEXT`) and the
 * handlers that read and write it: `save_chat`, `load_chat`,
 * `load_all_chats`, `new_chat`, `get_chat` and the decision logic of
 * `handle_chat`, which relays a transcript to the completion provider.
 */
module Chats {
  import opened Wrappers
  import opened Text
  import Json
  import Http

  /** One row of the table apart from its key: the display name and the transcript. */
  datatype Chat = Chat(name: string, messages: seq<Json.Value>)

  /** The models the relay accepts; the first is the fallback. */
  const ValidModels: seq<string> := ["deepseek-chat", "deepseek-reasoner"]
  const DefaultModel: string := "deepseek-chat"

  /** The body posted to the completion endpoint (the fixed temperature aside). */
  datatype ProviderRequest = ProviderRequest(model: string, messages: seq<Json.Value>)

  /** What the one call to the completion endpoint came to. */
  datatype ProviderOutcome =
    /** `requests.post` or `raise_for_status` raised a RequestException with this text. */
    | RequestFailed(cause: string)
    /** The call succeeded but `response.json()` raised. */
    | NotJson
    /** The call succeeded with this JSON body. */
    | Responded(body: Json.Value)

  /**
   * The fields of the `/api/chat` request body. `chatId` is None when the key
   * is absent or holds `null`, since `data.get` gives Python's None for both.
   * `model` and `messages` are None only when the key is absent; a `null`
   * there is `Some(Json.Null)`, because `data.get` returns it instead of the default.
   */
  datatype ChatRequest = ChatRequest(chatId: Option<string>, model: Option<Json.Value>, messages: Option<Json.Value>)

  /** The name `new_chat` gives when none is supplied: `Chat-` and one more than the row count. */
  function DefaultName(count: nat): (name: string)
    ensures |name| > 5 && name[..5] == "Chat-"
    ensures forall i :: 5 <= i < |name| ==> IsDigit(name[i])
    ensures name[5] != '0'
    ensures ParseNat(name[5..]) == count + 1
  {
    var digits := NatToString(count + 1);
    ParseNatToString(count + 1);
    assert ("Chat-" + digits)[5..] == digits;
    "Chat-" + digits
  }

  /** Different row counts give different default names. */
  lemma DefaultNameInjective(m: nat, n: nat)
    requires DefaultName(m) == DefaultName(n)
    ensures m == n
  {
  }

  /** The model that is sent: the requested one when it is allowed, otherwise the default, never an error. */
  function SelectModel(requested: Option<Json.Value>): (model: string)
    ensures model in ValidModels
    ensures requested.Some? && requested.value.Str? && requested.value.s in ValidModels ==>
      model == requested.value.s
    ensures !(requested.Some? && requested.value.Str? && requested.value.s in ValidModels) ==>
      model == DefaultModel
  {
    match requested
    case Some(Str(m)) => if m in ValidModels then m else DefaultModel
    case _ => DefaultModel
  }

  /** `data.get('messages', [])` as a list; None when it is not one and `existing + messages` would raise. */
  function IncomingMessages(messages: Option<Json.Value>): (r: Option<seq<Json.Value>>)
    ensures messages.None? ==> r == Some([])
    ensures messages.Some? ==> (r.Some? <==> messages.value.Array?)
    ensures messages.Some? && r.Some? ==> r.value == messages.value.items
  {
    match messages
    case None => Some([])
    case Some(Array(items)) => Some(items)
    case Some(_) => None
  }

  /** `not chat_id`: the key is absent or the id is empty. */
  predicate MissingId(chatId: Option<string>)
    ensures !MissingId(chatId) ==> chatId.Some? && |chatId.value| > 0
    ensures chatId.Some? && |chatId.value| > 0 ==> !MissingId(chatId)
  {
    chatId.None? || chatId.value == ""
  }

  /** The JSON object `get_chat` answers with. */
  function ChatObject(id: string, chat: Chat): (v: Json.Value)
    ensures v.Object? && v.fields.Keys == {"id", "name", "messages"}
    ensures ReadChatObject(v) == Some((id, chat))
  {
    Json.Object(map["id" := Json.Str(id), "name" := Json.Str(chat.name),
                    "messages" := Json.Array(chat.messages)])
  }

  /** What a client reads back from a `get_chat` object: the id and the row. */
  function ReadChatObject(v: Json.Value): Option<(string, Chat)> {
    if v.Object? && "id" in v.fields && "name" in v.fields && "messages" in v.fields
       && v.fields["id"].Str? && v.fields["name"].Str? && v.fields["messages"].Array?
    then Some((v.fields["id"].s, Chat(v.fields["name"].s, v.fields["messages"].items)))
    else None
  }

  /** The id-to-name projection of a table. */
  function Names(rows: map<string, Chat>): (names: map<string, string>)
    ensures names.Keys == rows.Keys
    ensures forall id :: id in names ==> names[id] == rows[id].name
  {
    map id | id in rows :: rows[id].name
  }

  /** The persistent `chats` table. Keys are the primary key `id`, so each id holds one row. */
  class ChatTable {
    var rows: map<string, Chat>

    /** A table holding the rows already in the database file. */
    constructor (initial: map<string, Chat>)
      ensures rows == initial
    {
      rows := initial;
    }

    /** `load_chat`: the row under `id`, or None. */
    function LoadChat(id: string): (r: Option<Chat>)
      reads this
      ensures r.None? <==> id !in rows
      ensures r.Some? ==> r.value == rows[id]
    {
      if id in rows then Some(rows[id]) else None
    }

    /** `load_all_chats`: each stored id, once, with its name. */
    function LoadAllChats(): (names: map<string, string>)
      reads this
      ensures names.Keys == rows.Keys
      ensures forall id :: id in names ==> names[id] == rows[id].name
    {
      Names(rows)
    }

    /** `save_chat`: INSERT OR REPLACE of the whole row under `id`. */
    method SaveChat(id: string, name: string, messages: seq<Json.Value>)
      modifies this
      ensures rows == old(rows)[id := Chat(name, messages)]
      ensures LoadChat(id) == Some(Chat(name, messages))
      ensures forall other :: other != id ==> LoadChat(other) == old(LoadChat(other))
      ensures LoadAllChats() == old(LoadAllChats())[id := name]
      ensures GetChat(id) == Http.Ok(ChatObject(id, Chat(name, messages)))
      ensures |rows| == if id in old(rows) then |old(rows)| else |old(rows)| + 1
    {
      rows := rows[id := Chat(name, messages)];
      assert rows.Keys == old(rows).Keys + {id};
    }

    /**
     * `new_chat`. `freshId` stands for the uuid4 the source draws; `name` is
     * the request's `name` key. The reply is `{"chat_id", "name"}`.
     */
    method NewChat(freshId: string, name: Option<string>) returns (response: Http.Response)
      requires freshId !in rows
      modifies this
      ensures var chatName := name.GetOr(DefaultName(|old(rows)|));
        && rows == old(rows)[freshId := Chat(chatName, [])]
        && response == Http.Ok(Json.Object(map["chat_id" := Json.Str(freshId), "name" := Json.Str(chatName)]))
      ensures |rows| == |old(rows)| + 1
      ensures LoadChat(freshId).Some? && LoadChat(freshId).value.messages == []
    {
      var count := |LoadAllChats()|;
      var chatName := name.GetOr(DefaultName(count));
      SaveChat(freshId, chatName, []);
      response := Http.Ok(Json.Object(map["chat_id" := Json.Str(freshId), "name" := Json.Str(chatName)]));
    }

    /** `get_chat`: the whole row with its id, or 404 "Chat not found". */
    function GetChat(id: string): (r: Http.Response)
      reads this
      ensures r == Http.Fail(404, "Chat not found") <==> id !in rows
      ensures id in rows ==> r == Http.Ok(ChatObject(id, rows[id]))
    {
      match LoadChat(id)
      case None => Http.Fail(404, "Chat not found")
      case Some(chat) => Http.Ok(ChatObject(id, chat))
    }

    /**
     * The decision logic of `handle_chat`. `outcome` is what the completion
     * endpoint would answer; `sent` is the request made to it, None when it
     * is not called.
     */
    method HandleChat(request: ChatRequest, outcome: ProviderOutcome)
      returns (response: Http.Response, sent: Option<ProviderRequest>)
      modifies this
      // Error precedence: a missing id is reported before any lookup, an unknown id before any call.
      ensures MissingId(request.chatId) ==>
        response == Http.Fail(400, "Missing chat ID") && sent.None?
      ensures !MissingId(request.chatId) && request.chatId.value !in old(rows) ==>
        response == Http.Fail(404, "Chat not found") && sent.None?
      ensures !MissingId(request.chatId) && request.chatId.value in old(rows) &&
              IncomingMessages(request.messages).None? ==>
        response == Http.InternalError && sent.None?
      // The provider sees the stored transcript followed by the new messages, under an allowed model.
      ensures sent.Some? <==>
        !MissingId(request.chatId) && request.chatId.value in old(rows) && IncomingMessages(request.messages).Some?
      ensures sent.Some? ==> sent.value == ProviderRequest(
        SelectModel(request.model),
        old(rows)[request.chatId.value].messages + IncomingMessages(request.messages).value)
      ensures sent.Some? && outcome.RequestFailed? ==>
        response == Http.Fail(500, "API Error: " + outcome.cause)
      ensures sent.Some? && (outcome.NotJson? || (outcome.Responded? && Json.FirstChoiceMessage(outcome.body).None?)) ==>
        response == Http.InternalError
      // Only a complete round trip touches the table.
      ensures response.Ok? <==>
        sent.Some? && outcome.Responded? && Json.FirstChoiceMessage(outcome.body).Some?
      ensures !response.Ok? ==> rows == old(rows)
      ensures response.Ok? ==>
        && response.body == outcome.body
        && rows == old(rows)[request.chatId.value := Chat(
             old(rows)[request.chatId.value].name,
             sent.value.messages + [Json.FirstChoiceMessage(outcome.body).value])]
      ensures response.Ok? ==>
        GetChat(request.chatId.value) == Http.Ok(ChatObject(request.chatId.value,
          Chat(old(rows)[request.chatId.value].name, sent.value.messages + [Json.FirstChoiceMessage(outcome.body).value])))
    {
      var model := SelectModel(request.model);
      if MissingId(request.chatId) {
        return Http.Fail(400, "Missing chat ID"), None;
      }
      var id := request.chatId.value;
      var stored := LoadChat(id);
      if stored.None? {
        return Http.Fail(404, "Chat not found"), None;
      }
      var chat := stored.value;
      var incoming := IncomingMessages(request.messages);
      if incoming.None? {
        return Http.InternalError, None;
      }
      var allMessages := chat.messages + incoming.value;
      sent := Some(ProviderRequest(model, allMessages));
      match outcome {
        case RequestFailed(cause) =>
          response := Http.Fail(500, "API Error: " + cause);
        case NotJson =>
          response := Http.InternalError;
        case Responded(body) =>
          var reply := Json.FirstChoiceMessage(body);
          if reply.None? {
            response := Http.InternalError;
          } else {
            SaveChat(id, chat.name, allMessages + [reply.value]);
            response := Http.Ok(body);
          }
      }
    }
  }
}
