/**
 * End-to-end sessions against stub servers: connect, pick a model and send,
 * with the server answering text, an HTTP 500, or a bare tool call.
 */
module Scenarios {
  import opened Wrappers
  import opened Text
  import opened Network
  import opened Data
  import opened ViewModel

  const ModelsBody: string := "models"
  const ChatBody: string := "chat"

  /** A models listing with two ids and one entry without an id. */
  function StubModels(body: string): Option<ModelsResponse> {
    if body == ModelsBody then Some(ModelsResponse([ModelInfo(Some("m1")), ModelInfo(None), ModelInfo(Some("m2"))]))
    else None
  }

  /** A server that answers every chat request with one decoded choice. */
  function StubChat(message: AssistantMessage): string -> Option<ChatResponse> {
    body => if body == ChatBody then Some(ChatResponse([Choice(message)])) else None
  }

  function AlwaysOk(request: ChatRequest): HttpOutcome {
    Response(200, Some(ChatBody))
  }

  function AlwaysServerError(request: ChatRequest): HttpOutcome {
    Response(500, Some("boom"))
  }

  lemma StubListingIds()
    ensures ModelIds(StubModels(ModelsBody).value.data) == ["m1", "m2"]
  {
    var data := StubModels(ModelsBody).value.data;
    assert ModelIds(data[2..]) == ["m2"];
    assert ModelIds(data[1..]) == ["m2"];
  }

  /** A reply whose content is "hello". */
  const HelloMessage: AssistantMessage := AssistantMessage("assistant", Some("hello"), None)

  /** A text reply never reaches the log step, so its classification does not depend on it. */
  lemma HelloReply(log: LogOutcome)
    ensures ChoiceReply(ChatResponse([Choice(HelloMessage)]), log) == Success("\nhello")
  {
    assert !IsBlank("hello") by { assert !IsWhitespace("hello"[0]); }
    assert "\n" + "hello" == "\nhello";
  }

  /** A reply with no content and one tool call. */
  const ToolCallMessage: AssistantMessage :=
    AssistantMessage("assistant", None, Some([ToolCall("call-1", "function", FunctionCall("get_files_info", "{}"))]))

  /** A tool-call reply is the empty text once the log is written, and the log step's exception otherwise. */
  lemma ToolCallReply(log: LogOutcome)
    ensures log.LogWritten? ==> ChoiceReply(ChatResponse([Choice(ToolCallMessage)]), log) == Success("")
    ensures log.LogNoZoneRules? ==> ChoiceReply(ChatResponse([Choice(ToolCallMessage)]), log) == Failure(ZoneRulesException)
  {
  }

  /** The stub chat server hands its reply's classification back unchanged unless it is an IOException. */
  lemma StubChatGenerates(host: string, history: seq<Message>, reply: AssistantMessage, log: LogOutcome)
    ensures var r := ChoiceReply(ChatResponse([Choice(reply)]), log);
      !(r.Failure? && r.error.IoException?) ==> GenerateText(host, history, AlwaysOk, StubChat(reply), log) == r
  {
  }

  /** Connecting to "http://h:1234/": the host loses its trailing slash and the listed ids become the models. */
  method ConnectExchange() returns (result: ConnectOutcome, host: string, models: seq<string>)
    ensures result == Connected
    ensures host == "http://h:1234"
    ensures models == ["m1", "m2"]
  {
    var dao := new MessageDao();
    var vm := new TariViewModel(None, dao);
    StubListingIds();
    result := vm.TryConnect("http://h:1234/", Response(200, Some(ModelsBody)), StubModels);
    host, models := vm.client.host, vm.uiState.models;
    assert host == TrimEnd("http://h:1234/", '/');
    assert host == "http://h:1234" by {
      TrimEndUnique("http://h:1234/", '/', "http://h:1234");
    }
  }

  /** Sending "hi" to a server answering "hello": the history holds both turns, the reply after a newline. */
  method TextExchange() returns (history: seq<Message>, stored: seq<MessageEntity>)
    ensures history == [Message("user", "hi"), Message("assistant", "\nhello")]
    ensures stored == [MessageEntity(1, "user", "hi", 1), MessageEntity(2, "assistant", "\nhello", 2)]
  {
    var dao := new MessageDao();
    var vm := new TariViewModel(None, dao);
    HelloReply(LogWritten);
    StubChatGenerates(vm.client.host, vm.uiState.chatHistory + [Message("user", "hi")], HelloMessage, LogWritten);
    assert GenerateText(vm.client.host, [Message("user", "hi")], AlwaysOk, StubChat(HelloMessage), LogWritten)
      == Success("\nhello");
    var sent := vm.SendMessage("hi", 1, 2, AlwaysOk, StubChat(HelloMessage), LogWritten);
    assert sent.Success?;
    history, stored := vm.uiState.chatHistory, dao.rows;
  }

  /** An HTTP 500 with body "boom" fails before any body handler runs. */
  lemma ServerErrorText(host: string, onSuccess: string -> Result<string, ClientError>)
    ensures ExecuteRequest(host, Response(500, Some("boom")), onSuccess)
      == Failure(LMStudioException("Failed request \U{2013} HTTP 500: boom"))
  {
    assert IntToDecimal(500) == "500" by {
      assert NatToDecimal(50) == "50" by { assert NatToDecimal(5) == "5"; }
    }
    assert "Failed request \U{2013} HTTP " + "500" + ": " + "boom" == "Failed request \U{2013} HTTP 500: boom";
  }

  /** A chat server answering HTTP 500 makes generateText fail with that message, whatever it would decode. */
  lemma ServerErrorGenerates(host: string, history: seq<Message>, decode: string -> Option<ChatResponse>, log: LogOutcome)
    ensures GenerateText(host, history, AlwaysServerError, decode, log)
      == Failure(LMStudioException("Failed request \U{2013} HTTP 500: boom"))
  {
    ServerErrorText(host, body => DecodeReply(decode, log, body));
  }

  /** An HTTP 500 on the chat call: only the user turn is stored, the history is unchanged, and the error names the code. */
  method ServerErrorExchange() returns (history: seq<Message>, stored: seq<MessageEntity>, error: ClientError)
    ensures history == []
    ensures stored == [MessageEntity(1, "user", "x", 1)]
    ensures error == LMStudioException("Failed request \U{2013} HTTP 500: boom")
  {
    var dao := new MessageDao();
    var vm := new TariViewModel(None, dao);
    var silent := StubChat(AssistantMessage("assistant", None, None));
    ServerErrorGenerates(vm.client.host, vm.uiState.chatHistory + [Message("user", "x")], silent, LogWritten);
    var sent := vm.SendMessage("x", 1, 2, AlwaysServerError, silent, LogWritten);
    assert sent.Failure?;
    history, stored, error := vm.uiState.chatHistory, dao.rows, sent.error;
  }

  /** A reply with no content and one tool call: the assistant turn is stored with empty text. */
  method ToolCallExchange() returns (history: seq<Message>, stored: seq<MessageEntity>)
    ensures history == [Message("user", "x"), Message("assistant", "")]
    ensures stored == [MessageEntity(1, "user", "x", 1), MessageEntity(2, "assistant", "", 2)]
  {
    var dao := new MessageDao();
    var vm := new TariViewModel(None, dao);
    ToolCallReply(LogWritten);
    StubChatGenerates(vm.client.host, vm.uiState.chatHistory + [Message("user", "x")], ToolCallMessage, LogWritten);
    var sent := vm.SendMessage("x", 1, 2, AlwaysOk, StubChat(ToolCallMessage), LogWritten);
    history, stored := vm.uiState.chatHistory, dao.rows;
  }

  /**
   * The same tool-call reply when today's date cannot be read: the
   * ZoneRulesException escapes sendMessage after the user turn is stored,
   * and the history is unchanged.
   */
  method ToolCallWithoutZoneRulesExchange() returns (history: seq<Message>, stored: seq<MessageEntity>, error: ClientError)
    ensures history == []
    ensures stored == [MessageEntity(1, "user", "x", 1)]
    ensures error == ZoneRulesException
  {
    var dao := new MessageDao();
    var vm := new TariViewModel(None, dao);
    ToolCallReply(LogNoZoneRules);
    StubChatGenerates(vm.client.host, vm.uiState.chatHistory + [Message("user", "x")], ToolCallMessage, LogNoZoneRules);
    var sent := vm.SendMessage("x", 1, 2, AlwaysOk, StubChat(ToolCallMessage), LogNoZoneRules);
    history, stored, error := vm.uiState.chatHistory, dao.rows, sent.error;
  }
}
