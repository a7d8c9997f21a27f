/** app/api/classify/route.ts: validate the body, ask the service for one label, and
    normalise its reply onto the closed label set. */
module ApiClassify {
  import opened Wrappers
  import opened Text
  import opened Api

  /** The six labels the classifier may answer with. */
  const Categories: seq<string> :=
    ["backend-api", "frontend-component", "database", "library-function", "integration", "data-pipeline"]

  const ClassifierPrompt: string :=
    "You are a project classifier. Classify the given project description into one of these categories: "
    + Join(Categories, ", ") + ". Respond with ONLY the category name, nothing else."

  /** `(content || "other").trim().toLowerCase()`, then "other" unless it is a label. */
  function NormalizeCategory(content: Option<string>): (category: string)
    ensures category in Categories || category == "other"
    ensures Lower(Trim(ContentOr(content, "other"))) in Categories ==> category == Lower(Trim(ContentOr(content, "other")))
    ensures Lower(Trim(ContentOr(content, "other"))) !in Categories ==> category == "other"
  {
    var c := Lower(Trim(ContentOr(content, "other")));
    if c in Categories then c else "other"
  }

  /** An empty or missing reply gives "other". */
  lemma EmptyReplyIsOther(content: Option<string>)
    requires !Present(content)
    ensures NormalizeCategory(content) == "other"
  {
    var other := ContentOr(content, "other");
    LabelsAreFixedPoints(other, "", "");
    assert "" + other + "" == other;
    assert ContentOr(content, "other") == ContentOr(Some("other"), "other");
  }

  /** A label, however it is padded with white space, normalises to itself; in particular
      normalising an output of the route again changes nothing. */
  lemma {:induction false} LabelsAreFixedPoints(name: string, before: string, after: string)
    requires name in Categories || name == "other"
    requires forall i :: 0 <= i < |before| ==> IsSpace(before[i])
    requires forall i :: 0 <= i < |after| ==> IsSpace(after[i])
    ensures NormalizeCategory(Some(before + name + after)) == name
  {
    LabelSpelling(name);
    PaddedTrim(before, name, after);
    assert Lower(name) == name;
  }

  /** Every label is a non-empty word of lower-case letters and dashes. */
  lemma LabelSpelling(name: string)
    requires name in Categories || name == "other"
    ensures name != []
    ensures forall i :: 0 <= i < |name| ==> 'a' <= name[i] <= 'z' || name[i] == '-'
  {
  }

  /** Trimming white space off both ends of a word with no white space at its edges. */
  lemma {:induction false} PaddedTrim(before: string, word: string, after: string)
    requires word != [] && !IsSpace(word[0]) && !IsSpace(word[|word| - 1])
    requires forall i :: 0 <= i < |before| ==> IsSpace(before[i])
    requires forall i :: 0 <= i < |after| ==> IsSpace(after[i])
    ensures Trim(before + word + after) == word
  {
    var s := before + word + after;
    assert s == before + (word + after);
    TrimStartSkips(before, word + after);
    TrimEndSkips(word, after);
    assert Trim(s) == TrimEnd(TrimStart(s));
  }

  lemma {:induction false} TrimStartSkips(spaces: string, rest: string)
    requires forall i :: 0 <= i < |spaces| ==> IsSpace(spaces[i])
    requires rest != [] && !IsSpace(rest[0])
    ensures TrimStart(spaces + rest) == rest
  {
    if spaces != [] {
      assert (spaces + rest)[1..] == spaces[1..] + rest;
      TrimStartSkips(spaces[1..], rest);
    }
  }

  lemma {:induction false} TrimEndSkips(rest: string, spaces: string)
    requires forall i :: 0 <= i < |spaces| ==> IsSpace(spaces[i])
    requires rest != [] && !IsSpace(rest[|rest| - 1])
    ensures TrimEnd(rest + spaces) == rest
  {
    if spaces != [] {
      var s := rest + spaces;
      assert s[..|s| - 1] == rest + spaces[..|spaces| - 1];
      TrimEndSkips(rest, spaces[..|spaces| - 1]);
    } else {
      assert rest + spaces == rest;
    }
  }

  /** The messages the route sends for `ClassifyCall(projectDescription)`. */
  function ClassifyRequest(projectDescription: string): ChatRequest {
    ChatRequest("gpt-4", ClassifierPrompt, projectDescription)
  }

  /** `POST /api/classify`. The service is the parameter `complete`. */
  function Classify(body: ClassifyBody, complete: ServiceCall -> Completion): (r: Response<string>)
    ensures !Present(body.projectDescription) ==> r == Failure(400, "Project description required", None)
    ensures Present(body.projectDescription) && !Present(body.apiKey) ==> r == Failure(400, "API key required", None)
    ensures r.Ok? ==> r.body in Categories || r.body == "other"
  {
    if !Present(body.projectDescription) then Failure(400, "Project description required", None)
    else if !Present(body.apiKey) then Failure(400, "API key required", None)
    else
      match complete(ClassifyCall(body.projectDescription.value))
      case Reply(content) => Ok(NormalizeCategory(content))
      case Thrown(status, message) => FromException(status, message, "Classification failed")
  }

  /** A body that fails validation is answered without consulting the service. */
  lemma ValidationPrecedesService(body: ClassifyBody, c1: ServiceCall -> Completion, c2: ServiceCall -> Completion)
    requires !Present(body.projectDescription) || !Present(body.apiKey)
    ensures Classify(body, c1) == Classify(body, c2)
    ensures Classify(body, c1).Failure? && Classify(body, c1).status == 400
  {
  }

  /** What the route answers once the body is valid: the normalised label for a reply, 401
      for an upstream 401, and 500 for anything else thrown. */
  lemma ClassifyOutcomes(body: ClassifyBody, complete: ServiceCall -> Completion)
    requires Present(body.projectDescription) && Present(body.apiKey)
    ensures var c := complete(ClassifyCall(body.projectDescription.value));
      var r := Classify(body, complete);
      && (c.Reply? ==> r == Ok(NormalizeCategory(c.content)))
      && (c.Thrown? && c.status == Some(401) ==> r == Failure(401, "Unauthorized: Invalid API key", None))
      && (c.Thrown? && c.status != Some(401) ==> r == Failure(500, "Classification failed", Some(c.message)))
  {
  }
}
