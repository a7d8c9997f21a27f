/** app/api/generate/route.ts: ask the service for test cases and recover a JSON object from
    its reply, first as a whole and then from the first `{` to the last `}`. */
module ApiGenerate {
  import opened Wrappers
  import opened Text
  import opened Api

  /** The answers as the prompt lists them: "1. <first answer>", "2. <second>", ... */
  function NumberedLines(answers: seq<string>): (lines: seq<string>)
    ensures |lines| == |answers|
    ensures forall i :: 0 <= i < |answers| ==> lines[i] == Decimal(i + 1) + ". " + answers[i]
  {
    seq(|answers|, i requires 0 <= i < |answers| => Decimal(i + 1) + ". " + answers[i])
  }

  /** `answers.map((a, i) => `${i + 1}. ${a}`).join("\n")`. */
  function NumberedAnswers(answers: seq<string>): string {
    Join(NumberedLines(answers), "\n")
  }

  /** Splitting the listing at line breaks gives back one numbered line per answer, in order,
      as long as no answer itself spans several lines. */
  lemma NumberedAnswersLines(answers: seq<string>)
    requires |answers| >= 1
    requires forall i :: 0 <= i < |answers| ==> '\n' !in answers[i]
    ensures var lines := Split(NumberedAnswers(answers), '\n');
      |lines| == |answers|
      && forall i :: 0 <= i < |answers| ==> lines[i] == Decimal(i + 1) + ". " + answers[i]
  {
    var lines := NumberedLines(answers);
    forall i | 0 <= i < |lines| ensures '\n' !in lines[i] {
      var d := Decimal(i + 1);
      assert lines[i] == d + ". " + answers[i];
    }
    SplitJoin(lines, '\n');
  }

  const GenerationSystemMessage: string :=
    "You are a QA expert that generates test cases. Always respond with valid JSON only."

  const GenerationInstructions: string :=
    "\n\nGenerate test cases in JSON format with this structure:\n{\n  \"testCases\": [\n    {\n"
    + "      \"testType\": \"unit|integration|feature|performance|manual\",\n"
    + "      \"testName\": \"test name\",\n"
    + "      \"description\": \"what is being tested\",\n"
    + "      \"givenContext\": \"preconditions\",\n"
    + "      \"testSteps\": [\"step 1\", \"step 2\"],\n"
    + "      \"expectedOutcome\": \"what should happen\",\n"
    + "      \"priority\": \"high|medium|low\",\n"
    + "      \"notes\": \"additional notes\"\n    }\n  ],\n"
    + "  \"testingStrategy\": \"overall strategy\",\n"
    + "  \"riskAreas\": [\"risk 1\", \"risk 2\"]\n}\n\n"
    + "Generate 12-15 diverse test cases covering:\n- Unit tests (3-4)\n- Integration tests (2-3)\n"
    + "- Feature/acceptance tests (3-4)\n- Performance tests (1-2)\n- Manual tests (2-3)\n\n"
    + "Respond ONLY with valid JSON, no markdown or extra text."

  function GenerationPrompt(projectDescription: string, category: string, answers: seq<string>): string {
    "You are a QA expert. Generate comprehensive test cases for the following project:\n\nCategory: "
    + category + "\nDescription: " + projectDescription + "\n\nContext from developer:\n"
    + NumberedAnswers(answers) + GenerationInstructions
  }

  /** The prompt carries the numbered answers verbatim. */
  lemma PromptListsAnswers(projectDescription: string, category: string, answers: seq<string>)
    ensures IsInfix(NumberedAnswers(answers), GenerationPrompt(projectDescription, category, answers))
  {
    var head := "You are a QA expert. Generate comprehensive test cases for the following project:\n\nCategory: "
      + category + "\nDescription: " + projectDescription + "\n\nContext from developer:\n";
    assert GenerationPrompt(projectDescription, category, answers) == head + NumberedAnswers(answers) + GenerationInstructions;
    InfixOfConcat(head, NumberedAnswers(answers), GenerationInstructions);
  }

  /** The messages the route sends for `GenerateCall(projectDescription, category, answers)`. */
  function GenerateRequest(projectDescription: string, category: string, answers: seq<string>): ChatRequest {
    ChatRequest("gpt-4", GenerationSystemMessage, GenerationPrompt(projectDescription, category, answers))
  }

  /** The first position at or after `k` holding `c`. */
  function FirstIndexFrom(s: string, c: char, k: nat): (i: Option<nat>)
    requires k <= |s|
    ensures i.Some? ==> k <= i.value < |s| && s[i.value] == c && forall j :: k <= j < i.value ==> s[j] != c
    ensures i.None? ==> forall j :: k <= j < |s| ==> s[j] != c
    decreases |s| - k
  {
    if k == |s| then None else if s[k] == c then Some(k) else FirstIndexFrom(s, c, k + 1)
  }

  /** The last position before `n` holding `c`. */
  function LastIndexBefore(s: string, c: char, n: nat): (i: Option<nat>)
    requires n <= |s|
    ensures i.Some? ==> i.value < n && s[i.value] == c && forall j :: i.value < j < n ==> s[j] != c
    ensures i.None? ==> forall j :: 0 <= j < n ==> s[j] != c
  {
    if n == 0 then None else if s[n - 1] == c then Some(n - 1) else LastIndexBefore(s, c, n - 1)
  }

  /** `content.match(/\{[\s\S]*\}/)`: the greedy match runs from the first `{` to the last `}`
      after it; there is a match exactly when some `{` precedes some `}`. */
  function ExtractJsonObject(s: string): (r: Option<string>)
    ensures r.Some? <==> exists i, j | 0 <= i < j < |s| :: s[i] == '{' && s[j] == '}'
    ensures r.Some? ==> |r.value| >= 2 && r.value[0] == '{' && r.value[|r.value| - 1] == '}'
    ensures r.Some? ==> exists i | 0 <= i <= |s| - |r.value| ::
      InfixAt(r.value, s, i) && '{' !in s[..i] && '}' !in s[i + |r.value|..]
  {
    var first := FirstIndexFrom(s, '{', 0);
    var last := LastIndexBefore(s, '}', |s|);
    if first.Some? && last.Some? && first.value < last.value then
      var i, j := first.value, last.value;
      assert InfixAt(s[i..j + 1], s, i);
      Some(s[i..j + 1])
    else
      None
  }

  /** An object with prose around it that holds no `{` before and no `}` after is recovered
      exactly. */
  lemma ExtractFromWrappedObject(before: string, obj: string, after: string)
    requires |obj| >= 2 && obj[0] == '{' && obj[|obj| - 1] == '}'
    requires '{' !in before && '}' !in after
    ensures ExtractJsonObject(before + obj + after) == Some(obj)
  {
    var s := before + obj + after;
    var i, j := |before|, |before| + |obj| - 1;
    assert s[i] == '{' && s[j] == '}';
    assert forall k :: 0 <= k < i ==> s[k] == before[k];
    assert forall k :: j < k < |s| ==> s[k] == after[k - j - 1];
    assert s[i..j + 1] == obj;
  }

  /** The reply text once the route has read it as an object: the whole reply if it parses,
      else the extracted object if that parses; otherwise the message of the error raised. */
  function ReadReply<T>(content: Option<string>, parse: string -> Json<T>): Json<T> {
    var text := ContentOr(content, "{}");
    match parse(text)
    case Parsed(v) => Parsed(v)
    case SyntaxError(_) =>
      match ExtractJsonObject(text)
      case None => SyntaxError("Invalid JSON response")
      case Some(extracted) => parse(extracted)
  }

  /** `POST /api/generate`: the parsed reply is returned as it is. */
  function Generate<T>(body: GenerateBody, complete: ServiceCall -> Completion, parse: string -> Json<T>): (r: Response<T>)
    ensures !Present(body.projectDescription) || !Present(body.category) || body.answers.None?
      ==> r == Failure(400, "Missing required fields", None)
    ensures Present(body.projectDescription) && Present(body.category) && body.answers.Some? && !Present(body.apiKey)
      ==> r == Failure(400, "API key required", None)
  {
    if !Present(body.projectDescription) || !Present(body.category) || body.answers.None? then
      Failure(400, "Missing required fields", None)
    else if !Present(body.apiKey) then Failure(400, "API key required", None)
    else
      match complete(GenerateCall(body.projectDescription.value, body.category.value, body.answers.value))
      case Reply(content) =>
        (match ReadReply(content, parse)
         case Parsed(v) => Ok(v)
         case SyntaxError(message) => Failure(500, "Test case generation failed", Some(message)))
      case Thrown(status, message) => FromException(status, message, "Test case generation failed")
  }

  /** Once the body is valid: a reply that parses whole is returned unchanged; one that does
      not is retried on its extracted object; with no `{`...`}` in it the route fails with 500;
      an empty reply is read as "{}"; an upstream 401 stays 401. */
  lemma GenerateOutcomes<T>(body: GenerateBody, complete: ServiceCall -> Completion, parse: string -> Json<T>)
    requires Present(body.projectDescription) && Present(body.category) && body.answers.Some? && Present(body.apiKey)
    ensures var c := complete(GenerateCall(body.projectDescription.value, body.category.value, body.answers.value));
      var r := Generate(body, complete, parse);
      && (c.Reply? && parse(ContentOr(c.content, "{}")).Parsed? ==> r == Ok(parse(ContentOr(c.content, "{}")).value))
      && (c.Reply? && !Present(c.content) ==> r == (if parse("{}").Parsed? then Ok(parse("{}").value) else Failure(500, "Test case generation failed", Some(parse("{}").message))))
      && (c.Reply? && parse(ContentOr(c.content, "{}")).SyntaxError? && ExtractJsonObject(ContentOr(c.content, "{}")).None?
          ==> r == Failure(500, "Test case generation failed", Some("Invalid JSON response")))
      && (c.Reply? && parse(ContentOr(c.content, "{}")).SyntaxError? && ExtractJsonObject(ContentOr(c.content, "{}")).Some?
          && parse(ExtractJsonObject(ContentOr(c.content, "{}")).value).Parsed?
          ==> r == Ok(parse(ExtractJsonObject(ContentOr(c.content, "{}")).value).value))
      && (c.Thrown? ==> (r.Failure? && (r.status == 401 <==> c.status == Some(401))))
  {
    var c := complete(GenerateCall(body.projectDescription.value, body.category.value, body.answers.value));
    if c.Reply? && !Present(c.content) {
      assert ContentOr(c.content, "{}") == "{}";
      assert ExtractJsonObject("{}") == Some("{}") by {
        ExtractFromWrappedObject("", "{}", "");
        assert "" + "{}" + "" == "{}";
      }
    }
  }

  /** An empty answers list still passes validation: only a missing one is refused. */
  lemma EmptyAnswersAreAccepted(body: GenerateBody, complete: ServiceCall -> Completion, parse: string -> Json<string>)
    requires Present(body.projectDescription) && Present(body.category) && Present(body.apiKey)
    requires body.answers == Some([])
    ensures Generate(body, complete, parse).Ok? || Generate(body, complete, parse).status != 400
  {
  }
}
