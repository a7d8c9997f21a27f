/** app/api/generate-questions/route.ts: ask the service for clarifying questions and keep at
    most ten of them, falling back to a fixed list when the reply is not a JSON array. */
module ApiGenerateQuestions {
  import opened Wrappers
  import opened Api

  /** What the reply parses to: an array (of question strings) or any other JSON value. */
  datatype QuestionsJson = StringArray(items: seq<string>) | NotAnArray

  /** The ten questions used when the reply cannot be read as an array. */
  const FallbackQuestions: seq<string> := [
    "What is the main purpose of this code?",
    "What are the primary inputs?",
    "What are the expected outputs?",
    "What error cases should be tested?",
    "What are the edge cases?",
    "What performance requirements exist?",
    "What security considerations matter?",
    "What dependencies are involved?",
    "What validation rules apply?",
    "What should not be tested?"]

  const QuestionsSystemMessage: string :=
    "You are a QA expert. Generate exactly 10 testing-focused questions. Respond ONLY with a JSON array of strings."

  const QuestionsInstructions: string :=
    "\n\nGenerate 10 questions that are:\n- Specific to this project type\n- Actionable and clear\n"
    + "- Focused on testing requirements\n"
    + "- Cover different aspects (inputs, outputs, errors, edge cases, performance, security, etc.)\n\n"
    + "Format your response as a JSON array of strings, like this:\n"
    + "[\"Question 1?\", \"Question 2?\", \"Question 3?\", ...]\n\n"
    + "Respond ONLY with the JSON array, no additional text or markdown."

  /** The messages the route sends for `QuestionsCall(projectDescription, category)`. */
  function QuestionsRequest(projectDescription: string, category: string): ChatRequest {
    ChatRequest("gpt-4", QuestionsSystemMessage,
      "You are a QA expert. Based on the following project description and category, generate exactly 10 specific, "
      + "actionable questions that a developer should answer to help write comprehensive tests for this project."
      + "\n\nProject Category: " + category + "\nProject Description: " + projectDescription + QuestionsInstructions)
  }

  /** `questions.slice(0, 10)`: the first ten, or all of them when there are fewer. */
  function FirstTen(questions: seq<string>): (r: seq<string>)
    ensures |r| == if |questions| < 10 then |questions| else 10
    ensures r == questions[..|r|]
  {
    if |questions| <= 10 then questions else questions[..10]
  }

  /** The questions read from a reply: an empty reply stands for "[]"; an array is cut to ten;
      anything that does not parse, or parses to a non-array, gives the fallback list. */
  function QuestionsFromReply(content: Option<string>, parse: string -> Json<QuestionsJson>): seq<string> {
    match parse(ContentOr(content, "[]"))
    case Parsed(StringArray(items)) => FirstTen(items)
    case Parsed(NotAnArray) => FallbackQuestions
    case SyntaxError(_) => FallbackQuestions
  }

  /** `POST /api/generate-questions`. */
  function GenerateQuestions(body: QuestionsBody, complete: ServiceCall -> Completion, parse: string -> Json<QuestionsJson>): (r: Response<seq<string>>)
    ensures !Present(body.projectDescription) || !Present(body.category)
      ==> r == Failure(400, "Missing projectDescription or category", None)
    ensures Present(body.projectDescription) && Present(body.category) && !Present(body.apiKey)
      ==> r == Failure(400, "API key required", None)
    ensures r.Ok? ==> |r.body| <= 10
  {
    if !Present(body.projectDescription) || !Present(body.category) then
      Failure(400, "Missing projectDescription or category", None)
    else if !Present(body.apiKey) then Failure(400, "API key required", None)
    else
      match complete(QuestionsCall(body.projectDescription.value, body.category.value))
      case Reply(content) => Ok(QuestionsFromReply(content, parse))
      case Thrown(status, message) => FromException(status, message, "Failed to generate questions")
  }

  /** An array reply yields its first min(10, n) items in order, with no padding. */
  lemma ArrayReplyIsTruncated(content: Option<string>, parse: string -> Json<QuestionsJson>, items: seq<string>)
    requires parse(ContentOr(content, "[]")) == Parsed(StringArray(items))
    ensures var q := QuestionsFromReply(content, parse);
      && (|items| <= 10 ==> q == items)
      && (|items| > 10 ==> q == items[..10])
  {
  }

  /** A reply that does not parse, or parses to something other than an array, yields the
      ten fallback questions in order. */
  lemma UnreadableReplyFallsBack(content: Option<string>, parse: string -> Json<QuestionsJson>)
    requires parse(ContentOr(content, "[]")).SyntaxError? || parse(ContentOr(content, "[]")) == Parsed(NotAnArray)
    ensures QuestionsFromReply(content, parse) == FallbackQuestions
    ensures |QuestionsFromReply(content, parse)| == 10
  {
  }

  /** An empty reply reads as "[]" and yields no questions, not the fallback list. */
  lemma EmptyReplyGivesNoQuestions(content: Option<string>, parse: string -> Json<QuestionsJson>)
    requires !Present(content)
    requires parse("[]") == Parsed(StringArray([]))
    ensures QuestionsFromReply(content, parse) == []
    ensures QuestionsFromReply(content, parse) != FallbackQuestions
  {
  }

  /** Upstream failures: 401 stays 401, anything else is a 500 with details. */
  lemma ServiceFailure(body: QuestionsBody, complete: ServiceCall -> Completion, parse: string -> Json<QuestionsJson>)
    requires Present(body.projectDescription) && Present(body.category) && Present(body.apiKey)
    requires complete(QuestionsCall(body.projectDescription.value, body.category.value)).Thrown?
    ensures var c := complete(QuestionsCall(body.projectDescription.value, body.category.value));
      var r := GenerateQuestions(body, complete, parse);
      && r.Failure?
      && (c.status == Some(401) <==> r.status == 401)
      && (c.status != Some(401) ==> r == Failure(500, "Failed to generate questions", Some(c.message)))
  {
  }
}
