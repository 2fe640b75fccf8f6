/**
 * `DeepSeekService.query` of app/services/llm/deepseek.py without the network:
 * the API-key guard, the chat messages, the JSON payload and headers, and
 * how the outcome of the single POST becomes either the reply text or a
 * Python exception.
 *
 * The POST itself is a parameter `post` from the request to its `Outcome`; the
 * service makes exactly one attempt.
 */
module DeepSeek {
  import opened Wrappers
  import opened Text

  /** The fields `__init__` copies from the settings; they are never changed afterwards. */
  datatype Service = Service(apiKey: string, baseUrl: string, model: string, timeout: int)

  const Temperature: real := 0.7
  const MaxTokens: int := 500
  const CompletionsPath: string := "/chat/completions"
  const BearerPrefix: string := "Bearer "
  const JsonContentType: string := "application/json"

  const KeyNotConfigured: string := "DeepSeek API key not configured"
  const InvalidFormat: string := "Invalid response format from DeepSeek API"
  const TimeoutMessage: string := "DeepSeek API timeout"
  const StatusErrorPrefix: string := "DeepSeek API error: "

  datatype Role = System | User

  /** The `"role"` string a message is sent with. */
  function RoleName(role: Role): (name: string)
    ensures name == "system" || name == "user"
    ensures (name == "system") == (role == System)
  {
    match role
    case System => "system"
    case User => "user"
  }

  /** One `{"role": ..., "content": ...}` entry of `messages`. */
  datatype Message = Message(role: Role, content: string)

  /** The JSON body of the POST. */
  datatype Payload = Payload(model: string, messages: seq<Message>, temperature: real, maxTokens: int)

  /** What is posted: the URL, the headers and the JSON body. */
  datatype HttpRequest = HttpRequest(url: string, headers: map<string, string>, payload: Payload)

  /** The Python exception classes the service raises or lets through. */
  datatype ExceptionKind = ValueError | PlainException | KeyError | Other(name: string)

  /** A raised exception: its class and its message. */
  datatype Failure = Failure(kind: ExceptionKind, message: string)

  /** `data["choices"][i]["message"]`: `None` where a key is missing from the JSON. */
  datatype ChoiceMessage = ChoiceMessage(content: Option<string>)
  datatype Choice = Choice(message: Option<ChoiceMessage>)

  /** The decoded response body; `choices` is `None` when the key is absent. */
  datatype Completion = Completion(choices: Option<seq<Choice>>)

  /**
   * How the POST ended: a response with a status code and its decoded body,
   * an `httpx.TimeoutException`, or any other exception (a connection error,
   * a body that is not JSON), which the service lets through unchanged.
   */
  datatype Outcome = Received(status: int, body: Completion) | TimedOut | Raised(failure: Failure)

  /** Python truthiness of an optional string: `None` and `""` are both false. */
  predicate Truthy(s: Option<string>)
  {
    s.Some? && s.value != []
  }

  /** The message list: the system prompt first when it is truthy, then the user's text. */
  function BuildMessages(text: string, systemPrompt: Option<string>): (ms: seq<Message>)
    ensures |ms| == if Truthy(systemPrompt) then 2 else 1
    ensures ms[|ms| - 1] == Message(User, text)
    ensures Truthy(systemPrompt) ==> ms[0] == Message(System, systemPrompt.value)
    ensures forall i :: 0 <= i < |ms| - 1 ==> ms[i].role == System
  {
    (if Truthy(systemPrompt) then [Message(System, systemPrompt.value)] else []) + [Message(User, text)]
  }

  /** Reads the user's text and the effective system prompt back out of a message list. */
  function SplitMessages(ms: seq<Message>): (Option<string>, string)
    requires |ms| >= 1
  {
    (if |ms| >= 2 && ms[0].role == System then Some(ms[0].content) else None, ms[|ms| - 1].content)
  }

  /** The message list loses nothing but the difference between `None` and an empty prompt. */
  lemma MessagesRoundTrip(text: string, systemPrompt: Option<string>)
    ensures SplitMessages(BuildMessages(text, systemPrompt))
            == (if Truthy(systemPrompt) then systemPrompt else None, text)
  {
  }

  /** The request `query` posts, given a configured key. */
  function BuildRequest(service: Service, text: string, systemPrompt: Option<string>): (req: HttpRequest)
    ensures req.url == service.baseUrl + CompletionsPath
    ensures req.headers == map["Authorization" := BearerPrefix + service.apiKey,
                               "Content-Type" := JsonContentType]
    ensures req.payload.model == service.model && req.payload.messages == BuildMessages(text, systemPrompt)
    ensures req.payload.temperature == 0.7 && req.payload.maxTokens == 500
  {
    HttpRequest(
      service.baseUrl + CompletionsPath,
      map["Authorization" := BearerPrefix + service.apiKey, "Content-Type" := JsonContentType],
      Payload(service.model, BuildMessages(text, systemPrompt), Temperature, MaxTokens))
  }

  /** The key can be read back from the Authorization header. */
  lemma BearerRoundTrip(service: Service, text: string, systemPrompt: Option<string>)
    ensures var auth := BuildRequest(service, text, systemPrompt).headers["Authorization"];
      |auth| >= |BearerPrefix| && auth[..|BearerPrefix|] == BearerPrefix && auth[|BearerPrefix|..] == service.apiKey
  {
  }

  /** The content of the first choice, a `KeyError` when its message or content is missing, a `ValueError` when there is no choice. */
  function ExtractContent(data: Completion): (r: Result<string, Failure>)
    ensures r.Ok? <==> (data.choices.Some? && |data.choices.value| > 0
                        && data.choices.value[0].message.Some?
                        && data.choices.value[0].message.value.content.Some?)
    ensures r.Ok? ==> r.value == data.choices.value[0].message.value.content.value
    ensures (data.choices.None? || data.choices.value == []) ==> r == Err(Failure(ValueError, InvalidFormat))
    ensures data.choices.Some? && data.choices.value != [] && r.Err? ==> r.error.kind == KeyError
    ensures r.Err? && r.error.kind != ValueError ==> r.error.kind == KeyError
  {
    if data.choices.Some? && |data.choices.value| > 0 then
      match data.choices.value[0].message
      case None => Err(Failure(KeyError, "'message'"))
      case Some(m) =>
        match m.content
        case None => Err(Failure(KeyError, "'content'"))
        case Some(c) => Ok(c)
    else
      Err(Failure(ValueError, InvalidFormat))
  }

  /** `httpx.Response.is_success`, which `raise_for_status` requires. */
  predicate IsSuccess(status: int)
  {
    200 <= status <= 299
  }

  /**
   * `query`: no key, no request; otherwise one POST, a status error or a
   * timeout turned into a plain `Exception` with its own message, any other
   * exception passed through, and the reply extracted from a 2xx body.
   */
  function Query(service: Service, text: string, systemPrompt: Option<string>, post: HttpRequest -> Outcome)
    : (r: Result<string, Failure>)
    ensures service.apiKey == [] ==> r == Err(Failure(ValueError, KeyNotConfigured))
    ensures r.Ok? <==>
      && service.apiKey != []
      && post(BuildRequest(service, text, systemPrompt)).Received?
      && IsSuccess(post(BuildRequest(service, text, systemPrompt)).status)
      && ExtractContent(post(BuildRequest(service, text, systemPrompt)).body).Ok?
    ensures r.Ok? ==> r == ExtractContent(post(BuildRequest(service, text, systemPrompt)).body)
    ensures service.apiKey != [] ==>
      var o := post(BuildRequest(service, text, systemPrompt));
      && (o.TimedOut? ==> r == Err(Failure(PlainException, TimeoutMessage)))
      && (o.Received? && !IsSuccess(o.status) ==>
            r == Err(Failure(PlainException, StatusErrorPrefix + IntToDecimal(o.status))))
      && (o.Raised? ==> r == Err(o.failure))
      && (o.Received? && IsSuccess(o.status) ==> r == ExtractContent(o.body))
  {
    if service.apiKey == [] then Err(Failure(ValueError, KeyNotConfigured))
    else
      match post(BuildRequest(service, text, systemPrompt))
      case TimedOut => Err(Failure(PlainException, TimeoutMessage))
      case Raised(failure) => Err(failure)
      case Received(status, body) =>
        if !IsSuccess(status) then Err(Failure(PlainException, StatusErrorPrefix + IntToDecimal(status)))
        else ExtractContent(body)
  }

  /**
   * The class of a failure tells its cause: a `ValueError` is a missing key, a
   * body without choices, or a `ValueError` raised by the client itself; a plain
   * `Exception` is a status error, a timeout, or one the client raised; a
   * `KeyError` is a first choice without message or content, or the client's own.
   */
  lemma FailureCauses(service: Service, text: string, systemPrompt: Option<string>, post: HttpRequest -> Outcome)
    ensures var r := Query(service, text, systemPrompt, post);
      var outcome := post(BuildRequest(service, text, systemPrompt));
      && (r.Err? && r.error.kind == ValueError ==>
            || (service.apiKey == [] && r.error.message == KeyNotConfigured)
            || (outcome.Received? && IsSuccess(outcome.status) && r.error.message == InvalidFormat
                && (outcome.body.choices.None? || outcome.body.choices.value == []))
            || outcome == Raised(r.error))
      && (r.Err? && r.error.kind == PlainException ==>
            || (outcome == TimedOut && r.error.message == TimeoutMessage)
            || (outcome.Received? && !IsSuccess(outcome.status)
                && r.error.message == StatusErrorPrefix + IntToDecimal(outcome.status))
            || outcome == Raised(r.error))
      && (r.Err? && r.error.kind == KeyError ==>
            || (outcome.Received? && IsSuccess(outcome.status) && ExtractContent(outcome.body).Err?)
            || outcome == Raised(r.error))
  {
  }

  /** A status error's message carries the status code, so different codes give different messages. */
  lemma StatusMessagesDistinct(a: int, b: int)
    requires a != b
    ensures StatusErrorPrefix + IntToDecimal(a) != StatusErrorPrefix + IntToDecimal(b)
  {
    if StatusErrorPrefix + IntToDecimal(a) == StatusErrorPrefix + IntToDecimal(b) {
      assert (StatusErrorPrefix + IntToDecimal(a))[|StatusErrorPrefix|..] == IntToDecimal(a);
      assert (StatusErrorPrefix + IntToDecimal(b))[|StatusErrorPrefix|..] == IntToDecimal(b);
      IntToDecimalInjective(a, b);
    }
  }

  /** The stubbed greeting exchange: the reply is the first choice's content, unchanged. */
  lemma GreetingScenario(service: Service, systemPrompt: Option<string>)
    requires service.apiKey != []
    ensures var reply := "Привет! Чем помочь?";
      var stub := (req: HttpRequest) => Received(200, Completion(Some([Choice(Some(ChoiceMessage(Some(reply))))])));
      Query(service, "Привет", systemPrompt, stub) == Ok(reply)
  {
  }
}
