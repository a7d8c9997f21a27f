/** What the three server routes exchange: the request bodies the pages send, the request
    each route makes to the chat-completion service, what that service gives back, and the
    JSON response a route returns. The service and `JSON.parse` are not modelled; they are
    parameters of the routes. */
module Api {
  import opened Wrappers
  import Domain

  /** A chat-completion request: model, system message, user message. */
  datatype ChatRequest = ChatRequest(model: string, system: string, user: string)

  /** Which request a route makes, with the values it fills into its prompt. The messages
      themselves are a function of these (`ApiClassify.ClassifyRequest`,
      `ApiGenerateQuestions.QuestionsRequest`, `ApiGenerate.GenerateRequest`), so the service
      is modelled as a function of the call. */
  datatype ServiceCall =
    | ClassifyCall(projectDescription: string)
    | QuestionsCall(projectDescription: string, category: string)
    | GenerateCall(projectDescription: string, category: string, answers: seq<string>)

  /** The service's answer: the first choice's content (`None` is `null`), or the exception
      the call threw, with its `status` when it has one. */
  datatype Completion =
    | Reply(content: Option<string>)
    | Thrown(status: Option<int>, message: string)

  /** `JSON.parse` as an oracle: the value a text denotes, or the `SyntaxError` it raises. */
  datatype Json<T> = Parsed(value: T) | SyntaxError(message: string)

  /** A route's answer: status 200 with its body, or an error status with `{ error, details }`. */
  datatype Response<T> =
    | Ok(body: T)
    | Failure(status: int, error: string, details: Option<string>)

  /** The request bodies; a field is `None` when it is absent or `null`. */
  datatype ClassifyBody = ClassifyBody(projectDescription: Option<string>, apiKey: Option<string>)

  datatype QuestionsBody = QuestionsBody(projectDescription: Option<string>, category: Option<string>, apiKey: Option<string>)

  datatype GenerateBody = GenerateBody(
    projectDescription: Option<string>,
    category: Option<string>,
    answers: Option<seq<string>>,
    apiKey: Option<string>)

  /** The generation reply as the pages read it: each field may be missing. */
  datatype GenerationData = GenerationData(
    testCases: Option<seq<Domain.TestCase>>,
    testingStrategy: Option<string>,
    riskAreas: Option<seq<string>>)

  /** JavaScript truthiness of an optional string field. */
  predicate Present(s: Option<string>) {
    s.Some? && s.value != ""
  }

  /** `content || fallback`. */
  function ContentOr(content: Option<string>, fallback: string): (s: string)
    ensures Present(content) ==> s == content.value
    ensures !Present(content) ==> s == fallback
  {
    if Present(content) then content.value else fallback
  }

  const UnauthorizedMessage: string := "Unauthorized: Invalid API key"

  /** The shared `catch` block: an exception with status 401 becomes a 401; any other
      becomes a 500 carrying the route's failure text and the exception's message. */
  function FromException<T>(status: Option<int>, message: string, failure: string): (r: Response<T>)
    ensures r.Failure?
    ensures r.status == 401 <==> status == Some(401)
    ensures r.status != 401 ==> r.status == 500 && r.error == failure && r.details == Some(message)
  {
    if status == Some(401) then Failure(401, UnauthorizedMessage, None)
    else Failure(500, failure, Some(message))
  }
}
