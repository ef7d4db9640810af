/**
 * TariViewModel: the session state machine between the screens, the LM-Studio
 * client and the message store.
 *
 * Each action runs to completion as one sequential method. What the server and
 * the JSON decoder answer is passed in (an `HttpOutcome`, or a backend function
 * from request to outcome, and a decoder), and so are the clock readings the
 * entities are stamped with. An exception that escapes an action is returned
 * as its outcome.
 */
module ViewModel {
  import opened Wrappers
  import opened Text
  import opened Network
  import opened Data

  /** The screen-facing state; every action replaces it by a copy with some fields changed. */
  datatype UiState = UiState(
    models: seq<string>,
    selectedModel: Option<string>,
    chatHistory: seq<Message>,
    isLoading: bool)

  const InitialUiState: UiState := UiState([], None, [], false)

  /** The model ids the picker may show, with their display labels. */
  const Whitelist: map<string, string> := map[
    "openai/gpt-oss-120b" := "Chat GPT 120b",
    "openai/gpt-oss-20b" := "Chat GPT 20b",
    "llama-4-scout-17b-16e-instruct" := "Llama\U{2011}4 Scout 17b"
  ]

  /**
   * loadDefaultHost: the `host` property of config.properties when it can be
   * read, otherwise the built-in address. `configured` is None when the file
   * is missing, unreadable, or has no `host` key.
   */
  function LoadDefaultHost(configured: Option<string>): (host: string)
    ensures configured.Some? ==> host == configured.value
    ensures configured.None? ==> host == DefaultHost
  {
    match configured
    case Some(h) => h
    case None => DefaultHost
  }

  /** entities.map { Message(it.role, it.content) }: ids and timestamps are dropped, order kept. */
  function ToMessages(rows: seq<MessageEntity>): (ms: seq<Message>)
    ensures |ms| == |rows|
    ensures forall i :: 0 <= i < |rows| ==> ms[i] == Message(rows[i].role, rows[i].content)
  {
    if rows == [] then [] else ToMessages(rows[..|rows| - 1]) + [Message(rows[|rows| - 1].role, rows[|rows| - 1].content)]
  }

  lemma {:induction false} ToMessagesAppend(a: seq<MessageEntity>, b: seq<MessageEntity>)
    ensures ToMessages(a + b) == ToMessages(a) + ToMessages(b)
  {
    var l, r := ToMessages(a + b), ToMessages(a) + ToMessages(b);
    assert |l| == |r|;
    forall i | 0 <= i < |l| ensures l[i] == r[i] {
      if i < |a| {
        assert (a + b)[i] == a[i];
      } else {
        assert (a + b)[i] == b[i - |a|];
      }
    }
  }

  /** The conversation as the store feed delivers it, with ties between timestamps kept in storage order. */
  function PersistedConversation(rows: seq<MessageEntity>): seq<Message> {
    ToMessages(SortByTimestamp(rows))
  }

  /** t is no earlier than the timestamp of any stored row. */
  predicate LaterThanAll(rows: seq<MessageEntity>, t: int) {
    forall i :: 0 <= i < |rows| ==> rows[i].timestamp <= t
  }

  /** Appending a row stamped no earlier than the others appends its turn to the persisted conversation. */
  lemma PersistedAppendLatest(rows: seq<MessageEntity>, e: MessageEntity)
    requires LaterThanAll(rows, e.timestamp)
    ensures PersistedConversation(rows + [e]) == PersistedConversation(rows) + [Message(e.role, e.content)]
  {
    SortAppendLatest(rows, e);
    ToMessagesAppend(SortByTimestamp(rows), [e]);
  }

  /**
   * A send appends its turns to the persisted conversation when they are
   * stamped no earlier than every stored row, in order: the user turn alone if
   * the reply fails, both turns if it arrives.
   */
  lemma SendKeepsSynced(rows: seq<MessageEntity>, userRow: MessageEntity, replyRow: MessageEntity)
    requires LaterThanAll(rows, userRow.timestamp) && userRow.timestamp <= replyRow.timestamp
    ensures PersistedConversation(rows + [userRow])
      == PersistedConversation(rows) + [Message(userRow.role, userRow.content)]
    ensures PersistedConversation(rows + [userRow] + [replyRow])
      == PersistedConversation(rows) + [Message(userRow.role, userRow.content)] + [Message(replyRow.role, replyRow.content)]
  {
    var withUser := rows + [userRow];
    PersistedAppendLatest(rows, userRow);
    forall i | 0 <= i < |withUser| ensures withUser[i].timestamp <= replyRow.timestamp {
      if i < |rows| { assert withUser[i] == rows[i]; }
    }
    PersistedAppendLatest(withUser, replyRow);
  }

  /** How tryConnect ends: onSuccess, onFailure with a message, or an exception it does not catch. */
  datatype ConnectOutcome = Connected | ConnectFailed(message: string) | Uncaught(error: ClientError)

  class TariViewModel {
    var uiState: UiState
    const client: LMStudioClient
    const dao: MessageDao

    /** The store is well formed and the client's host never ends in '/'. */
    ghost predicate Valid()
      reads this, client, dao
    {
      dao.Valid() && (client.host == [] || client.host[|client.host| - 1] != '/')
    }

    /** The in-memory history is what the store feed would deliver for the stored rows. */
    ghost predicate Synced()
      reads this, dao
    {
      uiState.chatHistory == PersistedConversation(dao.rows)
    }

    /** Construction: the default host goes to a new client; the state starts empty. */
    constructor (configured: Option<string>, dao: MessageDao)
      requires dao.Valid()
      ensures this.dao == dao && fresh(client)
      ensures client.host == TrimEnd(LoadDefaultHost(configured), '/')
      ensures uiState == InitialUiState
      ensures Valid()
    {
      uiState := InitialUiState;
      client := new LMStudioClient(LoadDefaultHost(configured));
      this.dao := dao;
    }

    /** The store-feed collector: the history becomes the stored conversation in timestamp order. */
    method OnStoreFeed()
      requires Valid()
      modifies this
      ensures Valid()
      ensures uiState.models == old(uiState.models) && uiState.selectedModel == old(uiState.selectedModel)
      ensures uiState.isLoading == old(uiState.isLoading)
      ensures |uiState.chatHistory| == |dao.rows|
      ensures exists r :: SortedByTimestamp(r) && multiset(r) == multiset(dao.rows) && uiState.chatHistory == ToMessages(r)
      ensures TimestampsDistinct(dao.rows) ==> Synced()
    {
      var entities := dao.GetAll();
      assert |entities| == |multiset(entities)| == |dao.rows|;
      if TimestampsDistinct(dao.rows) {
        var sorted := SortByTimestamp(dao.rows);
        PermutationKeepsDistinct(dao.rows, sorted);
        SortedPermutationUnique(sorted, entities);
      }
      uiState := uiState.(chatHistory := ToMessages(entities));
      assert SortedByTimestamp(entities) && multiset(entities) == multiset(dao.rows)
        && uiState.chatHistory == ToMessages(entities);
    }

    /**
     * tryConnect: the trimmed host is set before the server is asked; a model
     * list replaces `models`; an LMStudioException is reported and leaves the
     * state alone; any other exception (the decoder's) escapes.
     */
    method TryConnect(hostInput: string, outcome: HttpOutcome, decode: string -> Option<ModelsResponse>)
      returns (result: ConnectOutcome)
      requires Valid()
      modifies this, client
      ensures Valid()
      ensures client.host == TrimEnd(hostInput, '/')
      ensures var listed := GetModels(client.host, outcome, decode);
        match listed
        case Success(models) => result == Connected && uiState == old(uiState).(models := models)
        case Failure(LMStudioException(message)) => result == ConnectFailed(message) && uiState == old(uiState)
        case Failure(error) => result == Uncaught(error) && error == SerializationException && uiState == old(uiState)
    {
      client.host := TrimEnd(hostInput, '/');
      var listed := GetModels(client.host, outcome, decode);
      match listed
      case Success(models) =>
        uiState := uiState.(models := models);
        result := Connected;
      case Failure(LMStudioException(message)) =>
        result := ConnectFailed(message);
      case Failure(error) =>
        result := Uncaught(error);
    }

    /** selectModel: records the chosen model and nothing else. */
    method SelectModel(modelId: string)
      requires Valid()
      modifies this
      ensures Valid()
      ensures uiState == old(uiState).(selectedModel := Some(modelId))
    {
      uiState := uiState.(selectedModel := Some(modelId));
    }

    /** clearChat: empties the store, then the history. */
    method ClearChat()
      requires Valid()
      modifies this, dao
      ensures dao.rows == [] && dao.nextId == old(dao.nextId)
      ensures uiState == old(uiState).(chatHistory := [])
      ensures Valid() && Synced()
    {
      dao.ClearAll();
      uiState := uiState.(chatHistory := []);
    }

    /** insertPersisted: stores a turn as a new entity under a fresh id. */
    method InsertPersisted(msg: Message, now: int)
      requires Valid()
      modifies dao
      ensures dao.Contents() == Inserted(old(dao.Contents()), MessageEntity(UnsetId, msg.role, msg.content, now))
      ensures dao.rows == old(dao.rows) + [MessageEntity(old(dao.nextId), msg.role, msg.content, now)]
      ensures dao.nextId == old(dao.nextId) + 1
      ensures Valid()
    {
      dao.Insert(MessageEntity(UnsetId, msg.role, msg.content, now));
    }

    /**
     * sendMessage: stores the user turn, asks the server with the history plus
     * that turn, stores the reply, and publishes the history plus both turns.
     * When generateText fails the exception escapes after the user turn is
     * stored, and the state is not touched. `log` is how the tool-call log
     * step inside generateText ends.
     */
    method SendMessage(text: string, userTime: int, replyTime: int,
                       backend: ChatRequest -> HttpOutcome, decode: string -> Option<ChatResponse>, log: LogOutcome)
      returns (result: Result<(), ClientError>)
      requires Valid()
      modifies this, dao
      ensures Valid()
      ensures dao.nextId == old(dao.nextId) + (if result.Success? then 2 else 1)
      ensures var user := Message("user", text);
        var reply := GenerateText(client.host, old(uiState.chatHistory) + [user], backend, decode, log);
        var userRow := MessageEntity(old(dao.nextId), "user", text, userTime);
        match reply
        case Success(replyText) =>
          && result == Success(())
          && dao.rows == old(dao.rows) + [userRow] + [MessageEntity(old(dao.nextId) + 1, "assistant", replyText, replyTime)]
          && uiState == old(uiState).(chatHistory := old(uiState.chatHistory) + [user] + [Message("assistant", replyText)])
        case Failure(error) =>
          && result == Failure(error)
          && dao.rows == old(dao.rows) + [userRow]
          && uiState == old(uiState)
      ensures old(Synced()) && LaterThanAll(old(dao.rows), userTime) && userTime <= replyTime ==>
        if result.Success? then Synced()
        else PersistedConversation(dao.rows) == uiState.chatHistory + [Message("user", text)]
    {
      var user := Message("user", text);
      InsertPersisted(user, userTime);
      var newHistory := uiState.chatHistory + [user];
      var reply := GenerateText(client.host, newHistory, backend, decode, log);
      ghost var userRow := MessageEntity(old(dao.nextId), "user", text, userTime);
      match reply
      case Failure(error) =>
        result := Failure(error);
        if LaterThanAll(old(dao.rows), userTime) && userTime <= replyTime {
          SendKeepsSynced(old(dao.rows), userRow, userRow);
        }
      case Success(replyText) =>
        var assistant := Message("assistant", replyText);
        InsertPersisted(assistant, replyTime);
        uiState := uiState.(chatHistory := newHistory + [assistant]);
        if LaterThanAll(old(dao.rows), userTime) && userTime <= replyTime {
          SendKeepsSynced(old(dao.rows), userRow, MessageEntity(old(dao.nextId) + 1, "assistant", replyText, replyTime));
        }
        result := Success(());
    }
  }
}
