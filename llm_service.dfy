/** The completion client: turns a chat history into one request to the
    Anthropic messages endpoint and turns the reply into the assistant's text
    or the error that `sendMessageToLLM` throws. The network exchange itself
    is a parameter (`Exchange`): what the transport and the JSON decoder
    report for the request. */
module LLMService {
  import opened Wrappers
  import opened ChatMessages

  const BaseURL := "https://api.anthropic.com/v1/messages"
  const Model := "claude-3-5-sonnet-20241022"
  const SystemPrompt := "You are a helpful and empathetic virtual therapist. Your goal is to provide emotional support and mental health guidance to users. Always respond in a thoughtful, compassionate, and nonjudgmental manner."
  const MaxTokens: nat := 2048
  const Temperature: real := 0.7
  const AnthropicVersion := "2023-06-01"

  // ---------------------------------------------------------------------
  // Formatting the history
  // ---------------------------------------------------------------------

  /** One `{role, content}` entry of the request's `messages` array. */
  datatype FormattedMessage = FormattedMessage(role: string, content: string)

  /** The wire role of a sender: only the exact string "Bot" is the
      assistant; every other sender, not only "User", is the user. */
  function Role(sender: string): (role: string)
    ensures role == "assistant" <==> sender == "Bot"
    ensures role == "assistant" || role == "user"
  {
    if sender == "Bot" then "assistant" else "user"
  }

  /** The closure given to `map`: role from the sender, content untouched. */
  function Format(message: ChatMessage): (f: FormattedMessage)
    ensures f.role == "assistant" <==> message.sender == "Bot"
    ensures f.role == "user" <==> message.sender != "Bot"
    ensures f.content == message.content
  {
    FormattedMessage(Role(message.sender), message.content)
  }

  /** `messages.map { ... }`: one entry per message, in the same order. */
  function FormatMessages(messages: seq<ChatMessage>): (formatted: seq<FormattedMessage>)
    ensures |formatted| == |messages|
    ensures forall i :: 0 <= i < |messages| ==> formatted[i] == Format(messages[i])
  {
    if messages == [] then [] else [Format(messages[0])] + FormatMessages(messages[1..])
  }

  /** Formatting distributes over appending a turn: the request for a longer
      history extends the request for the shorter one by exactly one entry. */
  lemma FormatMessagesAppend(messages: seq<ChatMessage>, m: ChatMessage)
    ensures FormatMessages(messages + [m]) == FormatMessages(messages) + [Format(m)]
  {
  }

  /** Formatting is injective on what the wire sees: two histories with the
      same wire roles and contents give the same request, and conversely. */
  lemma FormatMessagesDeterminedBy(a: seq<ChatMessage>, b: seq<ChatMessage>)
    requires |a| == |b|
    ensures FormatMessages(a) == FormatMessages(b) <==>
      forall i :: 0 <= i < |a| ==>
        a[i].content == b[i].content && (a[i].sender == "Bot" <==> b[i].sender == "Bot")
  {
  }

  // ---------------------------------------------------------------------
  // The request
  // ---------------------------------------------------------------------

  /** The JSON object assigned to `httpBody` (serialisation is not modelled). */
  datatype RequestBody = RequestBody(
    model: string,
    maxTokens: nat,
    messages: seq<FormattedMessage>,
    system: string,
    temperature: real)

  /** The parts of Foundation's `URLRequest` that `sendMessageToLLM` sets. A
      fresh request is a GET with no headers and no body. */
  class URLRequest {
    const url: string
    var httpMethod: string
    var headers: map<string, string>
    var httpBody: Option<RequestBody>

    constructor (url: string)
      ensures this.url == url && httpMethod == "GET" && headers == map[] && httpBody == None
    {
      this.url := url;
      httpMethod := "GET";
      headers := map[];
      httpBody := None;
    }

    /** `setValue(_:forHTTPHeaderField:)`: sets one header, replacing any
        earlier value of that field, and touches nothing else. */
    method SetValue(value: string, field: string)
      modifies this
      ensures headers == old(headers)[field := value]
      ensures httpMethod == old(httpMethod) && httpBody == old(httpBody)
    {
      headers := headers[field := value];
    }
  }

  /** The headers every request carries. */
  function RequestHeaders(apiKey: string): (h: map<string, string>)
    ensures h.Keys == {"Content-Type", "anthropic-version", "x-api-key"}
    ensures h["Content-Type"] == "application/json"
    ensures h["anthropic-version"] == "2023-06-01"
    ensures h["x-api-key"] == apiKey
  {
    map["Content-Type" := "application/json",
        "anthropic-version" := AnthropicVersion,
        "x-api-key" := apiKey]
  }

  /** Builds the request step by step, as the source does: a POST to the
      fixed endpoint with the three headers and a body holding the fixed
      configuration and the formatted history. */
  method ConfigureRequest(messages: seq<ChatMessage>, apiKey: string) returns (request: URLRequest)
    ensures fresh(request)
    ensures request.url == BaseURL && request.httpMethod == "POST"
    ensures request.headers == RequestHeaders(apiKey)
    ensures request.httpBody ==
      Some(RequestBody(Model, MaxTokens, FormatMessages(messages), SystemPrompt, Temperature))
  {
    request := new URLRequest(BaseURL);
    request.httpMethod := "POST";
    request.SetValue("application/json", "Content-Type");
    request.SetValue(AnthropicVersion, "anthropic-version");
    request.SetValue(apiKey, "x-api-key");
    var formattedMessages := FormatMessages(messages);
    var requestBody := RequestBody(Model, MaxTokens, formattedMessages, SystemPrompt, Temperature);
    request.httpBody := Some(requestBody);
  }

  // ---------------------------------------------------------------------
  // The reply
  // ---------------------------------------------------------------------

  /** `MessageContent`: one element of the reply's `content` array; the wire
      field `type` is `contentType` here (`type` is a Dafny keyword). */
  datatype MessageContent = MessageContent(text: string, contentType: string)

  /** `ClaudeResponse`: the decoded reply. */
  datatype ClaudeResponse = ClaudeResponse(id: string, content: seq<MessageContent>, model: string, role: string)

  /** What Swift can throw out of `sendMessageToLLM`: the service's own
      errors, or an error of Foundation's (`URLError` from the transport,
      `DecodingError` from `JSONDecoder`), identified by an opaque detail. */
  datatype Error =
    | ServiceError(kind: LLMServiceError)
    | URLError(detail: string)
    | DecodingError(detail: string)

  /** `LLMServiceError`; `parsingError` wraps whatever error it caught. */
  datatype LLMServiceError =
    | InvalidURL
    | InvalidResponse
    | ParsingError(cause: Error)

  /** The response object the transport returns alongside the data. */
  datatype URLResponse = HTTPURLResponse(statusCode: int) | OtherResponse

  /** What `JSONDecoder().decode(ClaudeResponse.self, from: data)` makes of
      the received bytes. */
  datatype DecodeOutcome = Decoded(response: ClaudeResponse) | DecodeFailed(detail: string)

  /** What `URLSession.shared.data(for:)` does with the request. */
  datatype Exchange =
    | Received(response: URLResponse, body: DecodeOutcome)
    | TransportFailed(detail: string)

  /** The guard on the response: an HTTP response with a status in 200...299. */
  predicate IsSuccess(response: URLResponse) {
    response.HTTPURLResponse? && 200 <= response.statusCode <= 299
  }

  /** The inner `do`/`catch`: decode, take the text of the first content
      element, and rethrow anything that went wrong, the missing content
      included, as `parsingError`. */
  function ParseReply(body: DecodeOutcome): (r: Result<string, Error>)
    ensures r.Success? <==> body.Decoded? && |body.response.content| > 0
    ensures r.Success? ==> r.value == body.response.content[0].text
    ensures body.DecodeFailed? ==> r == Failure(ServiceError(ParsingError(DecodingError(body.detail))))
    ensures body.Decoded? && body.response.content == [] ==>
      r == Failure(ServiceError(ParsingError(ServiceError(InvalidResponse))))
  {
    match body
    case DecodeFailed(detail) =>
      Failure(ServiceError(ParsingError(DecodingError(detail))))
    case Decoded(response) =>
      if |response.content| == 0 then
        Failure(ServiceError(ParsingError(ServiceError(InvalidResponse))))
      else
        Success(response.content[0].text)
  }

  /** The status check and then the parse: a response that is not a 2xx HTTP
      response is `invalidResponse` whatever the body holds, because the
      check comes before any decoding. */
  function ValidateReply(response: URLResponse, body: DecodeOutcome): (r: Result<string, Error>)
    ensures !IsSuccess(response) ==> r == Failure(ServiceError(InvalidResponse))
    ensures IsSuccess(response) ==> r == ParseReply(body)
  {
    if !IsSuccess(response) then Failure(ServiceError(InvalidResponse))
    else ParseReply(body)
  }

  /** The outer `do`/`catch`: a transport failure and the errors of the
      status check and the parse are rethrown unchanged. */
  function ExchangeResult(exchange: Exchange): (r: Result<string, Error>)
    ensures r.Success? <==>
      exchange.Received? && IsSuccess(exchange.response) &&
      exchange.body.Decoded? && |exchange.body.response.content| > 0
    ensures r.Success? ==> r.value == exchange.body.response.content[0].text
    ensures exchange.TransportFailed? ==> r == Failure(URLError(exchange.detail))
    ensures exchange.Received? && !IsSuccess(exchange.response) ==>
      r == Failure(ServiceError(InvalidResponse))
  {
    match exchange
    case TransportFailed(detail) => Failure(URLError(detail))
    case Received(response, body) => ValidateReply(response, body)
  }

  /** A 2xx reply never fails with a bare `invalidResponse`: every failure
      after the status check is wrapped in `parsingError`. */
  lemma SuccessStatusFailuresAreParsingErrors(response: URLResponse, body: DecodeOutcome)
    requires IsSuccess(response)
    ensures ValidateReply(response, body).Failure? ==>
      ValidateReply(response, body).error.ServiceError? &&
      ValidateReply(response, body).error.kind.ParsingError?
    ensures ValidateReply(response, body) != Failure(ServiceError(InvalidResponse))
  {
  }

  /** `sendMessageToLLM`: builds the request, hands it to the transport and
      classifies what comes back. The history is a value and is left as it
      was. */
  method SendMessageToLLM(messages: seq<ChatMessage>, apiKey: string, exchange: Exchange)
    returns (request: URLRequest, reply: Result<string, Error>)
    ensures fresh(request)
    ensures request.url == BaseURL && request.httpMethod == "POST"
    ensures request.headers == RequestHeaders(apiKey)
    ensures request.httpBody ==
      Some(RequestBody(Model, MaxTokens, FormatMessages(messages), SystemPrompt, Temperature))
    ensures reply == ExchangeResult(exchange)
  {
    request := ConfigureRequest(messages, apiKey);
    match exchange
    case TransportFailed(detail) =>
      reply := Failure(URLError(detail));
    case Received(response, body) =>
      if !IsSuccess(response) {
        reply := Failure(ServiceError(InvalidResponse));
      } else {
        reply := ParseReply(body);
      }
  }

  // ---------------------------------------------------------------------
  // Worked exchanges
  // ---------------------------------------------------------------------

  /** A greeting and one user turn become an assistant entry and a user
      entry, in that order, with the texts unchanged. */
  lemma FormatTwoTurns()
    ensures FormatMessages([ChatMessage(0, "Bot", "Hi"), ChatMessage(1, "User", "I'm stressed")]) ==
      [FormattedMessage("assistant", "Hi"), FormattedMessage("user", "I'm stressed")]
  {
  }

  /** A 200 reply whose content holds one text element yields that text; the
      same body under status 500 yields `invalidResponse`; an empty content
      array under status 200 yields `parsingError(invalidResponse)`. */
  lemma ClassifyExampleReplies()
    ensures var body := Decoded(ClaudeResponse("x", [MessageContent("Try deep breathing.", "text")], "m", "assistant"));
      ExchangeResult(Received(HTTPURLResponse(200), body)) == Success("Try deep breathing.") &&
      ExchangeResult(Received(HTTPURLResponse(500), body)) == Failure(ServiceError(InvalidResponse))
    ensures ExchangeResult(Received(HTTPURLResponse(200), Decoded(ClaudeResponse("x", [], "m", "assistant")))) ==
      Failure(ServiceError(ParsingError(ServiceError(InvalidResponse))))
  {
  }
}
