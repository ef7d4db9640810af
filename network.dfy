/**
 * LMStudioClient: the client of an OpenAI-compatible LM-Studio server.
 *
 * The HTTP transport is abstract: one call yields an `HttpOutcome` (a status
 * code and a body, if any, or an I/O failure). The chat backend is a function
 * from the request payload to that outcome, so the payload the client sends is
 * part of the model. JSON decoding is a parameter `string -> Option<T>`;
 * `None` is the decoder's SerializationException.
 */
module Network {
  import opened Wrappers
  import opened Text

  // ---------------------------------------------------------------------------
  // Wire data
  // ---------------------------------------------------------------------------

  /** One chat turn as sent to the server and kept in the UI state. */
  datatype Message = Message(role: string, content: string)

  datatype Property = Property(kind: string, description: string)
  datatype Parameters = Parameters(kind: string, properties: seq<(string, Property)>, required: seq<string>)
  datatype FunctionSpec = FunctionSpec(name: string, description: string, parameters: Parameters)
  datatype Tool = Tool(kind: string, spec: FunctionSpec)

  datatype ChatRequest = ChatRequest(model: string, messages: seq<Message>, tools: seq<Tool>, toolChoice: string)

  datatype FunctionCall = FunctionCall(name: string, arguments: string)
  datatype ToolCall = ToolCall(id: string, kind: string, call: FunctionCall)
  datatype AssistantMessage = AssistantMessage(role: string, content: Option<string>, toolCalls: Option<seq<ToolCall>>)
  datatype Choice = Choice(message: AssistantMessage)
  datatype ChatResponse = ChatResponse(choices: seq<Choice>)

  datatype ModelInfo = ModelInfo(id: Option<string>)
  datatype ModelsResponse = ModelsResponse(data: seq<ModelInfo>)

  /** What one HTTP call produced: a response with its status and body (if any), or an IOException. */
  datatype HttpOutcome =
    | Response(code: int, body: Option<string>)
    | IoFailure(detail: Option<string>)

  /**
   * The exceptions a client call or its body handler can raise: the client's
   * own, the JSON decoder's, an IOException from writing the tool-call log,
   * and ThreeTenABP's ZoneRulesException from reading today's date.
   */
  datatype ClientError =
    | LMStudioException(message: string)
    | SerializationException
    | IoException(detail: Option<string>)
    | ZoneRulesException

  /**
   * How the tool-call log step ends: the date-stamped file was written, the
   * write threw an IOException, or today's date could not be read because no
   * time-zone rules were registered with ThreeTenABP.
   */
  datatype LogOutcome = LogWritten | LogIoFailure(detail: Option<string>) | LogNoZoneRules

  // ---------------------------------------------------------------------------
  // Constants
  // ---------------------------------------------------------------------------

  const DefaultHost: string := "http://192.168.178.107:1234"

  /** The model every chat request names, whatever model was selected. */
  const ChatModel: string := "openai/gpt-oss-120b"

  const ToolChoice: string := "auto"

  const SystemPrompt: string :=
    "\n                Du bist ein deutsch sprechender Assistent. Du bist der \n"
    + "                pers\U{F6}nliche Assistent von Nini. Dein Name ist Tari. D\n"
    + "                \n"
    + "                You are not allowed to make any tool calls. Only give message responds to the user.\n"
    + "        "

  const WorkingDirectory: (string, Property) := ("working_directory", Property("string", "The set working directory"))
  const FilePath: (string, Property) := ("file_path", Property("string", "The file name/path"))

  /** The tool declarations sent with every chat request; the client never runs them. */
  const Tools: seq<Tool> := [
    Tool("function", FunctionSpec(
      "get_files_info",
      "Check if file exists and get information about a file like size and directory.",
      Parameters("object", [WorkingDirectory, ("directory=\".\"", Property("string", "The file name/path"))],
                 ["working_directory"]))),
    Tool("function", FunctionSpec(
      "get_file_content",
      "Check if file exists and get content of a file.",
      Parameters("object", [WorkingDirectory, FilePath], ["working_directory", "file_path"]))),
    Tool("function", FunctionSpec(
      "run_python_file",
      "Check if file exists and run python scripts/files.",
      Parameters("object",
                 [WorkingDirectory, FilePath,
                  ("args=[]", Property("list", "Optional Arguments to run together with the script."))],
                 ["working_directory", "file_path"]))),
    Tool("function", FunctionSpec(
      "write_file",
      "Check if file exists and write into existing file or create new one.",
      Parameters("object", [WorkingDirectory, FilePath, ("content", Property("string", "Content of the file"))],
                 ["working_directory", "file_path", "content"])))
  ]

  const EmptyChoicesMessage: string := "LM Studio returned an empty choices array."
  const EmptyResponseMessage: string := "LM Studio returned an empty response."

  // ---------------------------------------------------------------------------
  // The client object: only its host is state
  // ---------------------------------------------------------------------------

  class LMStudioClient {
    /** The server's base URL; the view model overwrites it when connecting. */
    var host: string

    /** Construction normalises the base URL by dropping trailing slashes. */
    constructor (host: string)
      ensures this.host == TrimEnd(host, '/')
      ensures this.host == [] || this.host[|this.host| - 1] != '/'
    {
      this.host := TrimEnd(host, '/');
    }
  }

  // ---------------------------------------------------------------------------
  // executeRequest
  // ---------------------------------------------------------------------------

  /** OkHttp's Response.isSuccessful: a 2xx status (section 15.3 of RFC 9110). */
  predicate IsSuccessful(code: int) {
    200 <= code <= 299
  }

  /** The response has a body and a 2xx status, so executeRequest hands the body on. */
  predicate Delivered(outcome: HttpOutcome) {
    outcome.Response? && outcome.body.Some? && IsSuccessful(outcome.code)
  }

  /** Kotlin's string template renders a null message as "null". */
  function OrNull(detail: Option<string>): string {
    match detail
    case Some(d) => d
    case None => "null"
  }

  /** The exception executeRequest throws in place of an IOException. */
  function NetworkError(host: string, detail: Option<string>): ClientError {
    LMStudioException("Network error while contacting " + host + ": " + OrNull(detail))
  }

  /**
   * executeRequest: a missing body fails first, then a non-2xx status; only a
   * delivered body reaches onSuccess. The whole call, onSuccess included, sits
   * inside `catch (e: IOException)`, so an IOException from the transport or
   * from onSuccess becomes a network error. Every other exception onSuccess
   * throws passes through unchanged.
   */
  function ExecuteRequest<T>(host: string, outcome: HttpOutcome, onSuccess: string -> Result<T, ClientError>)
    : (r: Result<T, ClientError>)
    ensures Delivered(outcome) ==>
      var handled := onSuccess(outcome.body.value);
      if handled.Failure? && handled.error.IoException? then r == Failure(NetworkError(host, handled.error.detail))
      else r == handled
    ensures !Delivered(outcome) ==> r.Failure? && r.error.LMStudioException?
    ensures r.Failure? ==> !r.error.IoException?
  {
    match outcome
    case IoFailure(detail) =>
      Failure(NetworkError(host, detail))
    case Response(code, None) =>
      Failure(LMStudioException("Empty response body from " + host))
    case Response(code, Some(body)) =>
      if !IsSuccessful(code) then
        Failure(LMStudioException("Failed request \U{2013} HTTP " + IntToDecimal(code) + ": " + body))
      else
        match onSuccess(body)
        case Failure(IoException(detail)) => Failure(NetworkError(host, detail))
        case handled => handled
  }

  /** The message executeRequest gives each failure, in the order it checks for them. */
  lemma ExecuteRequestFailures<T>(host: string, outcome: HttpOutcome, onSuccess: string -> Result<T, ClientError>)
    ensures outcome.IoFailure? ==>
      ExecuteRequest(host, outcome, onSuccess)
        == Failure(LMStudioException("Network error while contacting " + host + ": " + OrNull(outcome.detail)))
    ensures outcome.Response? && outcome.body.None? ==>
      ExecuteRequest(host, outcome, onSuccess) == Failure(LMStudioException("Empty response body from " + host))
    ensures outcome.Response? && outcome.body.Some? && !IsSuccessful(outcome.code) ==>
      var message := ExecuteRequest(host, outcome, onSuccess).error.message;
      var prefix := "Failed request \U{2013} HTTP ";
      var code := IntToDecimal(outcome.code);
      && message[..|prefix|] == prefix
      && message[|prefix|..|prefix| + |code|] == code
      && message[|message| - |outcome.body.value|..] == outcome.body.value
  {
  }

  // ---------------------------------------------------------------------------
  // getModels
  // ---------------------------------------------------------------------------

  /** data.mapNotNull { it.id }: the ids that are present, in order. */
  function ModelIds(data: seq<ModelInfo>): (ids: seq<string>)
    ensures |ids| <= |data|
    ensures forall id :: id in ids <==> exists i :: 0 <= i < |data| && data[i].id == Some(id)
  {
    if data == [] then []
    else
      var rest := ModelIds(data[1..]);
      assert forall id :: (exists i :: 0 <= i < |data[1..]| && data[1..][i].id == Some(id))
                          <==> (exists i :: 1 <= i < |data| && data[i].id == Some(id)) by {
        forall id, i | 1 <= i < |data| && data[i].id == Some(id) ensures data[1..][i - 1].id == Some(id) { }
      }
      match data[0].id
      case Some(id) => [id] + rest
      case None => rest
  }

  /** mapNotNull distributes over concatenation. */
  lemma {:induction false} ModelIdsAppend(a: seq<ModelInfo>, b: seq<ModelInfo>)
    ensures ModelIds(a + b) == ModelIds(a) + ModelIds(b)
  {
    if a != [] {
      assert (a + b)[0] == a[0];
      assert (a + b)[1..] == a[1..] + b;
      ModelIdsAppend(a[1..], b);
    } else {
      assert a + b == b;
    }
  }

  /** The number of entries with an id. */
  function CountIds(data: seq<ModelInfo>): nat {
    if data == [] then 0 else (if data[0].id.Some? then 1 else 0) + CountIds(data[1..])
  }

  /** Every present id is kept and nothing is added: one id per entry that has one. */
  lemma {:induction false} ModelIdsCount(data: seq<ModelInfo>)
    ensures |ModelIds(data)| == CountIds(data)
  {
    if data != [] {
      ModelIdsCount(data[1..]);
    }
  }

  /** The body handler of getModels: decode the listing, or fail as the decoder does. */
  function DecodeModels(decode: string -> Option<ModelsResponse>, body: string): (r: Result<seq<string>, ClientError>)
    ensures r.Success? <==> decode(body).Some?
    ensures r.Success? ==> r.value == ModelIds(decode(body).value.data)
    ensures r.Failure? ==> r.error == SerializationException
  {
    match decode(body)
    case None => Failure(SerializationException)
    case Some(response) => Success(ModelIds(response.data))
  }

  /** getModels: the model ids of a delivered, decodable models listing. */
  function GetModels(host: string, outcome: HttpOutcome, decode: string -> Option<ModelsResponse>)
    : (r: Result<seq<string>, ClientError>)
    ensures r.Success? <==> Delivered(outcome) && decode(outcome.body.value).Some?
    ensures r.Success? ==> r.value == ModelIds(decode(outcome.body.value).value.data)
    ensures Delivered(outcome) && decode(outcome.body.value).None? ==> r == Failure(SerializationException)
    ensures !Delivered(outcome) ==> r.Failure? && r.error.LMStudioException?
    ensures r.Failure? ==> r.error.LMStudioException? || r.error == SerializationException
  {
    ExecuteRequest(host, outcome, body => DecodeModels(decode, body))
  }

  // ---------------------------------------------------------------------------
  // setModel
  // ---------------------------------------------------------------------------

  const SwitchFailedPrefix: string := "Failed to switch model: "

  /**
   * setModel: POSTs the model name and ignores the reply; any failure is
   * rethrown with the prefix "Failed to switch model: ".
   */
  function SetModel(host: string, modelName: string, outcome: HttpOutcome): (r: Result<(), ClientError>)
    ensures r.Success? <==> Delivered(outcome)
    ensures r.Failure? ==> r.error.LMStudioException? && SwitchFailedPrefix <= r.error.message
    ensures r.Failure? ==>
      r.error == LMStudioException(SwitchFailedPrefix + ExecuteRequest(host, outcome, (b: string) => Success(())).error.message)
  {
    match ExecuteRequest(host, outcome, (body: string) => Success(()))
    case Success(_) => Success(())
    case Failure(e) => Failure(LMStudioException(SwitchFailedPrefix + e.message))
  }

  // ---------------------------------------------------------------------------
  // generateText
  // ---------------------------------------------------------------------------

  /** The payload of a chat request: the system prompt, then the history untouched. */
  function ChatPayload(history: seq<Message>): (p: ChatRequest)
    ensures |p.messages| == |history| + 1
    ensures p.messages[0] == Message("system", SystemPrompt)
    ensures p.messages[1..] == history
    ensures p.model == ChatModel && p.toolChoice == ToolChoice && p.tools == Tools
  {
    ChatRequest(ChatModel, [Message("system", SystemPrompt)] + history, Tools, ToolChoice)
  }

  /** content is present and not blank. */
  predicate HasText(m: AssistantMessage) {
    m.content.Some? && !IsBlank(m.content.value)
  }

  /** tool_calls is present and not empty. */
  predicate HasToolCalls(m: AssistantMessage) {
    m.toolCalls.Some? && |m.toolCalls.value| > 0
  }

  /** The three shapes a reply can take: text, a tool invocation without text, or neither. */
  datatype ReplyKind = TextReply(text: string) | ToolInvoked | NoReply

  function KindOf(m: AssistantMessage): (k: ReplyKind)
    ensures k.TextReply? <==> HasText(m)
    ensures k.ToolInvoked? <==> !HasText(m) && HasToolCalls(m)
    ensures k.TextReply? ==> Some(k.text) == m.content
  {
    if HasText(m) then TextReply(m.content.value)
    else if HasToolCalls(m) then ToolInvoked
    else NoReply
  }

  /**
   * The classification of a decoded chat response: only the first choice
   * counts; text wins over tool calls and comes back after a newline; tool
   * calls alone give the empty reply once the log step has completed, and the
   * log step's exception otherwise; neither text nor tool calls is an error.
   */
  function ChoiceReply(response: ChatResponse, log: LogOutcome): (r: Result<string, ClientError>)
    ensures |response.choices| == 0 ==> r == Failure(LMStudioException(EmptyChoicesMessage))
    ensures r.Success? <==>
      && |response.choices| > 0
      && (HasText(response.choices[0].message) || (HasToolCalls(response.choices[0].message) && log.LogWritten?))
    ensures r.Success? ==> (r.value == "" <==> !HasText(response.choices[0].message))
  {
    if |response.choices| == 0 then Failure(LMStudioException(EmptyChoicesMessage))
    else
      var message := response.choices[0].message;
      if message.content.Some? && !IsBlank(message.content.value) then Success("\n" + message.content.value)
      else if message.toolCalls.Some? && |message.toolCalls.value| > 0 then
        match log
        case LogWritten => Success("")
        case LogIoFailure(detail) => Failure(IoException(detail))
        case LogNoZoneRules => Failure(ZoneRulesException)
      else Failure(LMStudioException(EmptyResponseMessage))
  }

  /** The classification agrees with the three reply shapes, case by case; only a tool invocation writes the log. */
  lemma ChoiceReplyByKind(response: ChatResponse, log: LogOutcome)
    requires |response.choices| > 0
    ensures match KindOf(response.choices[0].message)
      case TextReply(text) => ChoiceReply(response, log) == Success("\n" + text)
      case ToolInvoked =>
        (match log
         case LogWritten => ChoiceReply(response, log) == Success("")
         case LogIoFailure(detail) => ChoiceReply(response, log) == Failure(IoException(detail))
         case LogNoZoneRules => ChoiceReply(response, log) == Failure(ZoneRulesException))
      case NoReply => ChoiceReply(response, log) == Failure(LMStudioException(EmptyResponseMessage))
  {
  }

  /** Choices after the first are never looked at. */
  lemma ChoiceReplyReadsFirstOnly(a: ChatResponse, b: ChatResponse, log: LogOutcome)
    requires |a.choices| > 0 && |b.choices| > 0 && a.choices[0] == b.choices[0]
    ensures ChoiceReply(a, log) == ChoiceReply(b, log)
  {
  }

  /** The body handler of generateText: decode the response, or fail as the decoder does, then classify it. */
  function DecodeReply(decode: string -> Option<ChatResponse>, log: LogOutcome, body: string): (r: Result<string, ClientError>)
    ensures decode(body).None? ==> r == Failure(SerializationException)
    ensures decode(body).Some? ==> r == ChoiceReply(decode(body).value, log)
  {
    match decode(body)
    case None => Failure(SerializationException)
    case Some(response) => ChoiceReply(response, log)
  }

  /**
   * generateText: sends the chat payload for the history to the backend, then
   * classifies the first choice of a delivered, decodable response. An
   * IOException from the log step is caught by executeRequest.
   */
  function GenerateText(host: string, history: seq<Message>, backend: ChatRequest -> HttpOutcome,
                        decode: string -> Option<ChatResponse>, log: LogOutcome): (r: Result<string, ClientError>)
    ensures var outcome := backend(ChatPayload(history));
      && (!Delivered(outcome) ==> r.Failure? && r.error.LMStudioException?)
      && (Delivered(outcome) && decode(outcome.body.value).None? ==> r == Failure(SerializationException))
      && (Delivered(outcome) && decode(outcome.body.value).Some? ==>
            var reply := ChoiceReply(decode(outcome.body.value).value, log);
            if reply.Failure? && reply.error.IoException? then r == Failure(NetworkError(host, reply.error.detail))
            else r == reply)
    ensures r.Failure? ==> !r.error.IoException?
  {
    ExecuteRequest(host, backend(ChatPayload(history)), body => DecodeReply(decode, log, body))
  }

  /**
   * A reply is produced exactly from a delivered, decodable response whose
   * first choice has text, or tool calls and a log step that completed.
   */
  lemma GenerateTextSuccess(host: string, history: seq<Message>, backend: ChatRequest -> HttpOutcome,
                            decode: string -> Option<ChatResponse>, log: LogOutcome)
    ensures var outcome := backend(ChatPayload(history));
      GenerateText(host, history, backend, decode, log).Success? <==>
        && Delivered(outcome)
        && decode(outcome.body.value).Some?
        && var response := decode(outcome.body.value).value;
        && |response.choices| > 0
        && (KindOf(response.choices[0].message).TextReply?
            || (KindOf(response.choices[0].message).ToolInvoked? && log.LogWritten?))
  {
  }

  /**
   * A tool-call reply whose log step fails: an IOException from the file
   * write comes back as a network error, and a ZoneRulesException from
   * reading the date escapes generateText.
   */
  lemma ToolCallLogFailure(host: string, history: seq<Message>, backend: ChatRequest -> HttpOutcome,
                           decode: string -> Option<ChatResponse>, log: LogOutcome)
    requires var outcome := backend(ChatPayload(history));
      && Delivered(outcome)
      && decode(outcome.body.value).Some?
      && var response := decode(outcome.body.value).value;
      && |response.choices| > 0
      && KindOf(response.choices[0].message).ToolInvoked?
    ensures log.LogIoFailure? ==>
      GenerateText(host, history, backend, decode, log)
        == Failure(LMStudioException("Network error while contacting " + host + ": " + OrNull(log.detail)))
    ensures log.LogNoZoneRules? ==> GenerateText(host, history, backend, decode, log) == Failure(ZoneRulesException)
  {
  }
}
