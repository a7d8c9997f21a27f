/** app/page.tsx: the start page. It keeps the OpenAI key in localStorage, and on "Next" it
    classifies the description, stores the wizard's state in sessionStorage, and either
    hands over to the questions page (manual context) or generates the test cases at once
    and opens the results page. The two server calls are inputs: the page's view of each
    reply is a parameter of `HandleNext`. */
module Home {
  import opened Wrappers
  import opened Text
  import opened Seqs
  import opened Storage
  import Api
  import Settings
  import Domain
  import AutoContext
  import TestCaseUtils
  import Results

  const KeyPrefix: string := "sk-"

  // ---------------------------------------------------------------------------------------
  // The request payloads.

  function NonEmpty(): string -> bool {
    (s: string) => s != ""
  }

  /** The requirement section, or the empty string (falsy, like the `null` it stands for). */
  function RequirementSection(trimmedRequirements: string): string {
    if trimmedRequirements != "" then "Requirement specification:\n" + trimmedRequirements else ""
  }

  function GlobalSection(trimmedDefaultContext: string): string {
    if trimmedDefaultContext != "" then "Global considerations: " + trimmedDefaultContext else ""
  }

  /** `[input, requirements].filter(Boolean).join("\n\n")`: what the classifier is sent. */
  function ClassificationPayload(input: string, trimmedRequirements: string): string {
    Join(Filter([input, RequirementSection(trimmedRequirements)], NonEmpty()), "\n\n")
  }

  /** The same list with the global considerations as a third part: what the generator is sent. */
  function GenerationPayload(input: string, trimmedRequirements: string, trimmedDefaultContext: string): string {
    Join(Filter([input, RequirementSection(trimmedRequirements), GlobalSection(trimmedDefaultContext)], NonEmpty()), "\n\n")
  }

  /** For a non-empty description the classifier sees the description, followed by the
      requirements only when there are some. */
  lemma ClassificationPayloadSpec(input: string, trimmedRequirements: string)
    requires input != ""
    ensures ClassificationPayload(input, trimmedRequirements)
      == input + (if trimmedRequirements != "" then "\n\n" + RequirementSection(trimmedRequirements) else "")
  {
    var r := RequirementSection(trimmedRequirements);
    FilterOne(input, NonEmpty());
    FilterOne(r, NonEmpty());
    FilterParts(input, r, r, NonEmpty());
    if trimmedRequirements != "" {
      JoinTwo(input, r, "\n\n");
    }
  }

  /** A third part, when it is not empty, lands after the join of the first two. */
  lemma JoinNonEmptySnoc(first: string, second: string, third: string)
    requires first != ""
    ensures Join(Filter([first, second, third], NonEmpty()), "\n\n")
      == Join(Filter([first, second], NonEmpty()), "\n\n") + (if third != "" then "\n\n" + third else "")
  {
    var front := Filter([first, second], NonEmpty());
    FilterOne(first, NonEmpty());
    FilterOne(second, NonEmpty());
    FilterOne(third, NonEmpty());
    FilterParts(first, second, third, NonEmpty());
    if third != "" {
      JoinSnoc(front, third, "\n\n");
    } else {
      assert front + [] == front;
    }
  }

  /** The generator sees exactly what the classifier saw, plus the global considerations
      when the default context is not blank. */
  lemma GenerationPayloadExtends(input: string, trimmedRequirements: string, trimmedDefaultContext: string)
    requires input != ""
    ensures GenerationPayload(input, trimmedRequirements, trimmedDefaultContext)
      == ClassificationPayload(input, trimmedRequirements)
         + (if trimmedDefaultContext != "" then "\n\n" + GlobalSection(trimmedDefaultContext) else "")
  {
    var g := GlobalSection(trimmedDefaultContext);
    assert g != "" <==> trimmedDefaultContext != "";
    JoinNonEmptySnoc(input, RequirementSection(trimmedRequirements), g);
  }

  // ---------------------------------------------------------------------------------------
  // The key.

  /** A key that starts with "sk-" is never blank: the blank check only picks the message. */
  lemma PrefixedKeyIsNotBlank(key: string)
    requires StartsWith(key, KeyPrefix)
    ensures !IsBlank(key)
  {
    assert key[..3] == KeyPrefix;
    assert key[0] == KeyPrefix[0] == 's';
    assert !IsSpace(key[0]);
    BlankIffAllSpace(key);
  }

  /** The key as a request carries it: `localStorage.getItem("openai_api_key")`. */
  function StoredKey(local: Store): Option<string> {
    if ApiKeyKey in local && local[ApiKeyKey].Text? then Some(local[ApiKeyKey].text) else None
  }

  datatype KeyResult = KeyBlank | KeyMalformed | KeySaved

  /** The two checks of `handleSaveApiKey`, in order; `!apiKey.trim()` is read character by
      character, which `AllSpaceIffBlank` shows is the same test. */
  function CheckKey(key: string): KeyResult {
    if AllSpace(key) then KeyBlank
    else if !StartsWith(key, KeyPrefix) then KeyMalformed
    else KeySaved
  }

  /** A key is accepted exactly when it starts with "sk-"; the blank check only decides
      which message a refused key gets. */
  lemma CheckKeySpec(key: string)
    ensures CheckKey(key) == KeySaved <==> StartsWith(key, KeyPrefix)
    ensures CheckKey(key) == KeyBlank <==> IsBlank(key)
  {
    AllSpaceIffBlank(key);
    if StartsWith(key, KeyPrefix) {
      PrefixedKeyIsNotBlank(key);
    }
  }

  // ---------------------------------------------------------------------------------------
  // "Next".

  /** What the page sees of the classification reply: its status and the fields `error` and
      `category` of its body; `ClassifyThrew` is a rejected `fetch` or a body that does not
      parse. */
  datatype ClassifyReply =
    | ClassifyReply(status: int, error: Option<string>, category: Option<string>)
    | ClassifyThrew

  /** The same for the generation reply. */
  datatype GenerateReply =
    | GenerateReply(status: int, error: Option<string>, data: Api.GenerationData)
    | GenerateThrew

  /** `response.ok`. */
  predicate IsOk(status: int) {
    200 <= status <= 299
  }

  /** A request the page sends. */
  datatype Request =
    | Classify(classifyBody: Api.ClassifyBody)
    | Generate(generateBody: Api.GenerateBody)

  datatype NextOutcome =
    | Blocked          // no key saved, or a blank description: nothing is sent
    | KeyRejected      // the classifier answered 401 or "Unauthorized"
    | ClassifyFailed(message: string)
    | ToQuestions      // manual context: on to /questions
    | GenerateFailed(message: string)
    | AllFiltered      // every generated case is of a disabled type
    | ToResults
    | Crashed          // the shared catch block

  /** The session after a successful classification: description, requirements (removed
      when there are none), category, and no current run. */
  function ClassifiedSession(session: Store, input: string, trimmedRequirements: string, category: string): Store {
    var s := session[ProjectDescriptionKey := Text(input)];
    var s := if trimmedRequirements != "" then s[ProjectRequirementsKey := Text(trimmedRequirements)]
             else s - {ProjectRequirementsKey};
    s[CategoryKey := Text(category)] - {CurrentTestIdKey}
  }

  /** The session handed to the questions page in manual mode. */
  function ManualSession(session: Store): Store {
    (session - {AnswersKey})[ManualContextModeKey := Text("true")]
  }

  /** The session handed to the results page. */
  function GeneratedSession(session: Store, autoContext: seq<string>, cases: seq<Domain.TestCase>, data: Api.GenerationData): Store {
    session[AnswersKey := Strings(autoContext)]
           [TestCasesKey := Cases(cases)]
           [TestingStrategyKey := Text(Api.ContentOr(data.testingStrategy, ""))]
           [RiskAreasKey := Strings(data.riskAreas.GetOr([]))]
  }

  /** A session with a generation stored is one the results page reads: the cases are
      there, the sent answers read back, and the auto-save is due exactly when it was
      before, since storing a generation does not touch the current run id. */
  lemma GeneratedSessionFeedsResults(session: Store, sentAnswers: seq<string>, cases: seq<Domain.TestCase>,
                                     data: Api.GenerationData)
    requires cases != []
    ensures var s := GeneratedSession(session, sentAnswers, cases, data);
      && Results.MountReads(s)
      && ReadCases(Get(s, TestCasesKey)) == Some(cases)
      && ReadStrings(Get(s, AnswersKey)) == Some(sentAnswers)
      && (Results.AutoSaveDue(s) <==> Results.AutoSaveDue(session))
  {
  }

  /** The category the page settles on: the classifier's, or "other". */
  function CategoryOf(classify: ClassifyReply): (category: string)
    ensures category != ""
    ensures classify.ClassifyReply? && Api.Present(classify.category) ==> category == classify.category.value
  {
    if classify.ClassifyReply? then Api.ContentOr(classify.category, "other") else "other"
  }

  /** What the page prepares from its inputs before it sends anything: the trimmed
      requirements, the two requests, and the automatic context. */
  datatype Prepared = Prepared(requirements: string, classification: Request, generation: Request, autoContext: seq<string>)

  function Prepare(local: Store, input: string, requirements: string, settings: Settings.Settings, classify: ClassifyReply): Prepared {
    var req, ctx, key := Trim(requirements), Trim(settings.defaultContext), StoredKey(local);
    var category := CategoryOf(classify);
    var autoContext := AutoContext.BuildAutoContext(input, category, Some(req), Some(ctx));
    Prepared(req,
      Classify(Api.ClassifyBody(Some(ClassificationPayload(input, req)), key)),
      Generate(Api.GenerateBody(Some(GenerationPayload(input, req, ctx)), Some(category), Some(autoContext), key)),
      autoContext)
  }

  /** Both requests carry the stored key. The classifier gets the description and the
      trimmed requirements; the generator gets the same text followed by the trimmed default
      context, together with the category and the automatic context, whose first line
      summarises the description. */
  lemma PrepareSpec(local: Store, input: string, requirements: string, settings: Settings.Settings, classify: ClassifyReply)
    requires !AllSpace(input)
    ensures var p := Prepare(local, input, requirements, settings, classify);
      var req, ctx := Trim(requirements), Trim(settings.defaultContext);
      var classification := input + (if req != "" then "\n\n" + RequirementSection(req) else "");
      && p.requirements == req
      && p.classification == Classify(Api.ClassifyBody(Some(classification), StoredKey(local)))
      && p.generation.Generate?
      && p.generation.generateBody.projectDescription
         == Some(classification + (if ctx != "" then "\n\n" + GlobalSection(ctx) else ""))
      && p.generation.generateBody.category == Some(CategoryOf(classify))
      && p.generation.generateBody.apiKey == StoredKey(local)
      && p.autoContext == p.generation.generateBody.answers.value
      && |p.autoContext| == 10
      && p.autoContext[0] == AutoContext.SummaryLine(input)
  {
    assert input != "";
    var req, ctx := Trim(requirements), Trim(settings.defaultContext);
    ClassificationPayloadSpec(input, req);
    GenerationPayloadExtends(input, req, ctx);
    AutoContext.AssembleLayout(AutoContext.SummaryLine(input), AutoContext.InsertedLines(Some(req), Some(ctx)),
      AutoContext.SystemTypeLine(CategoryOf(classify)), AutoContext.FixedLines, AutoContext.HintsFor(CategoryOf(classify)));
  }

  /** What one press of "Next" does: the outcome, the requests sent, the session it leaves,
      and whether it asks for the key input to be shown. */
  datatype NextStep = NextStep(outcome: NextOutcome, sent: seq<Request>, session: Store, showKeyInput: bool)

  /** Whether the classifier's answer means the key was refused. */
  predicate KeyRefused(classify: ClassifyReply)
    requires classify.ClassifyReply?
  {
    classify.status == 401 || (classify.error.Some? && Includes(classify.error.value, "Unauthorized"))
  }

  /** `handleNext` as a function of the session, the page's state, the settings, the two
      replies and what the page prepared (`Prepare`). */
  function Next(session: Store, input: string, apiKeySaved: bool, manual: bool, settings: Settings.Settings,
                classify: ClassifyReply, generate: GenerateReply, prep: Prepared): (step: NextStep)
  {
    if !apiKeySaved || AllSpace(input) then NextStep(Blocked, [], session, !apiKeySaved)
    else
      var first := [prep.classification];
      if classify.ClassifyThrew? then NextStep(Crashed, first, session, false)
      else if KeyRefused(classify) then NextStep(KeyRejected, first, session, true)
      else if !IsOk(classify.status) then
        NextStep(ClassifyFailed("Error: " + Api.ContentOr(classify.error, "Failed to classify project")), first, session, false)
      else
        var classified := ClassifiedSession(session, input, prep.requirements, CategoryOf(classify));
        if manual then NextStep(ToQuestions, first, ManualSession(classified), false)
        else GenerationStep(classified[ManualContextModeKey := Text("false")], settings, generate, prep)
  }

  /** The second half of `handleNext`: both requests have gone out, and the generator's reply
      decides what is stored on top of the classified session `waiting`. */
  function GenerationStep(waiting: Store, settings: Settings.Settings, generate: GenerateReply, prep: Prepared): (step: NextStep)
  {
    var both := [prep.classification, prep.generation];
    if generate.GenerateThrew? then NextStep(Crashed, both, waiting, false)
    else if !IsOk(generate.status) then
      NextStep(GenerateFailed(Api.ContentOr(generate.error, "Failed to generate test cases.")), both, waiting, false)
    else
      var cases := TestCaseUtils.FilterBySettings(generate.data.testCases.GetOr([]), settings);
      if cases == [] then NextStep(AllFiltered, both, waiting, false)
      else NextStep(ToResults, both, GeneratedSession(waiting, prep.autoContext, cases, generate.data), false)
  }

  /** Whatever the generator replies, the session keeps every key the classification wrote. */
  lemma GenerationStepBasics(waiting: Store, settings: Settings.Settings, generate: GenerateReply, prep: Prepared)
    ensures var step := GenerationStep(waiting, settings, generate, prep);
      && step.sent == [prep.classification, prep.generation]
      && Get(step.session, ProjectDescriptionKey) == Get(waiting, ProjectDescriptionKey)
      && Get(step.session, CategoryKey) == Get(waiting, CategoryKey)
      && (ProjectRequirementsKey in step.session <==> ProjectRequirementsKey in waiting)
      && (CurrentTestIdKey in step.session <==> CurrentTestIdKey in waiting)
      && step.outcome != Blocked && step.outcome != ToQuestions && !step.showKeyInput
      && (step.outcome != ToResults ==> step.session == waiting)
      && (step.outcome == AllFiltered ==>
            generate.GenerateReply? && TestCaseUtils.FilterBySettings(generate.data.testCases.GetOr([]), settings) == [])
      && (step.outcome == ToResults ==>
            && generate.GenerateReply?
            && var cases := TestCaseUtils.FilterBySettings(generate.data.testCases.GetOr([]), settings);
               && cases != []
               && step.session == GeneratedSession(waiting, prep.autoContext, cases, generate.data))
  {
  }

  /** The classification writes none of the keys a generation stores. */
  lemma ClassificationKeepsGeneration(session: Store, input: string, trimmedRequirements: string, category: string)
    ensures var waiting := ClassifiedSession(session, input, trimmedRequirements, category)[ManualContextModeKey := Text("false")];
      && Get(waiting, AnswersKey) == Get(session, AnswersKey)
      && Get(waiting, TestCasesKey) == Get(session, TestCasesKey)
      && Get(waiting, TestingStrategyKey) == Get(session, TestingStrategyKey)
      && Get(waiting, RiskAreasKey) == Get(session, RiskAreasKey)
  {
  }

  /** After a classification the auto-save of the results page is due: the description and
      the category are stored and the current run id is gone. */
  lemma ClassificationArmsAutoSave(session: Store, input: string, trimmedRequirements: string, category: string)
    requires input != "" && category != ""
    ensures Results.AutoSaveDue(ClassifiedSession(session, input, trimmedRequirements, category)[ManualContextModeKey := Text("false")])
  {
  }

  /** Nothing is sent and nothing stored without a saved key and a description that is not
      blank; a missing key asks for the key input. */
  lemma NextNeedsKeyAndDescription(session: Store, input: string, apiKeySaved: bool, manual: bool, settings: Settings.Settings,
                                   classify: ClassifyReply, generate: GenerateReply, prep: Prepared)
    ensures var step := Next(session, input, apiKeySaved, manual, settings, classify, generate, prep);
      && (step.outcome == Blocked <==> !apiKeySaved || IsBlank(input))
      && (step.outcome == Blocked ==> step.sent == [] && step.session == session && step.showKeyInput == !apiKeySaved)
      && (step.sent == [] <==> step.outcome == Blocked)
  {
    AllSpaceIffBlank(input);
    if !apiKeySaved || AllSpace(input) {
    } else if classify.ClassifyThrew? || KeyRefused(classify) || !IsOk(classify.status) {
    } else if !manual {
      var classified := ClassifiedSession(session, input, prep.requirements, CategoryOf(classify));
      GenerationStepBasics(classified[ManualContextModeKey := Text("false")], settings, generate, prep);
    }
  }

  /** The classification request goes first; the generation request follows only after a
      successful classification outside manual mode. */
  lemma NextRequests(session: Store, input: string, apiKeySaved: bool, manual: bool, settings: Settings.Settings,
                     classify: ClassifyReply, generate: GenerateReply, prep: Prepared)
    ensures var step := Next(session, input, apiKeySaved, manual, settings, classify, generate, prep);
      && |step.sent| <= 2
      && (step.sent != [] ==> step.sent[0] == prep.classification)
      && (|step.sent| == 2 <==> step.sent != [] && !manual && classify.ClassifyReply? && !KeyRefused(classify) && IsOk(classify.status))
      && (|step.sent| == 2 ==> step.sent[1] == prep.generation)
  {
  }

  /** The key input reappears exactly when there is no key or the classifier refused it,
      and a refusal changes no storage. */
  lemma NextKeyRefusal(session: Store, input: string, apiKeySaved: bool, manual: bool, settings: Settings.Settings,
                       classify: ClassifyReply, generate: GenerateReply, prep: Prepared)
    ensures var step := Next(session, input, apiKeySaved, manual, settings, classify, generate, prep);
      && (step.showKeyInput <==> !apiKeySaved || step.outcome == KeyRejected)
      && (step.outcome == KeyRejected ==> classify.ClassifyReply? && KeyRefused(classify) && step.session == session)
  {
  }

  /** A failed classification leaves the session as it was; from a successful one on, the
      session holds the description and the category ("other" when the classifier gave
      none) and no current run id, whatever the generation does. */
  lemma NextClassifiedState(session: Store, input: string, apiKeySaved: bool, manual: bool, settings: Settings.Settings,
                            classify: ClassifyReply, generate: GenerateReply, prep: Prepared)
    ensures var step := Next(session, input, apiKeySaved, manual, settings, classify, generate, prep);
      && (|step.sent| == 1 && step.outcome != ToQuestions ==> step.session == session)
      && (step.outcome == ToQuestions || |step.sent| == 2 ==>
            && Get(step.session, ProjectDescriptionKey) == Some(Text(input))
            && Get(step.session, CategoryKey) == Some(Text(CategoryOf(classify)))
            && (ProjectRequirementsKey in step.session <==> prep.requirements != "")
            && CurrentTestIdKey !in step.session)
  {
    if !apiKeySaved || AllSpace(input) {
    } else if classify.ClassifyThrew? || KeyRefused(classify) || !IsOk(classify.status) {
    } else {
      var classified := ClassifiedSession(session, input, prep.requirements, CategoryOf(classify));
      if !manual {
        var waiting := classified[ManualContextModeKey := Text("false")];
        GenerationStepBasics(waiting, settings, generate, prep);
      }
    }
  }

  /** Manual mode goes to the questions page with no answers stored and manual mode on;
      it never asks for a generation. */
  lemma NextManualMode(session: Store, input: string, apiKeySaved: bool, manual: bool, settings: Settings.Settings,
                       classify: ClassifyReply, generate: GenerateReply, prep: Prepared)
    ensures var step := Next(session, input, apiKeySaved, manual, settings, classify, generate, prep);
      && (step.outcome == ToQuestions ==>
            && manual && |step.sent| == 1
            && AnswersKey !in step.session
            && Get(step.session, ManualContextModeKey) == Some(Text("true")))
      && (manual ==> |step.sent| <= 1)
  {
  }

  /** When every generated case is filtered out nothing of the generation is stored: no
      answers, cases, strategy or risk areas are written and the page stays. */
  lemma NextAllFilteredStoresNothing(session: Store, input: string, apiKeySaved: bool, manual: bool, settings: Settings.Settings,
                                     classify: ClassifyReply, generate: GenerateReply, prep: Prepared)
    ensures var step := Next(session, input, apiKeySaved, manual, settings, classify, generate, prep);
      step.outcome == AllFiltered ==>
        && generate.GenerateReply?
        && TestCaseUtils.FilterBySettings(generate.data.testCases.GetOr([]), settings) == []
        && Get(step.session, AnswersKey) == Get(session, AnswersKey)
        && Get(step.session, TestCasesKey) == Get(session, TestCasesKey)
        && Get(step.session, TestingStrategyKey) == Get(session, TestingStrategyKey)
        && Get(step.session, RiskAreasKey) == Get(session, RiskAreasKey)
  {
    if !apiKeySaved || AllSpace(input) {
    } else if classify.ClassifyThrew? || KeyRefused(classify) || !IsOk(classify.status) {
    } else if !manual {
      var category := CategoryOf(classify);
      GenerationStepBasics(ClassifiedSession(session, input, prep.requirements, category)[ManualContextModeKey := Text("false")],
        settings, generate, prep);
      ClassificationKeepsGeneration(session, input, prep.requirements, category);
    }
  }

  /** A fresh generation reaches the results page with the filtered cases, which are not
      empty, everything the page reads in place, and the auto-save due: the run is saved
      once on arrival. */
  lemma NextToResults(session: Store, input: string, apiKeySaved: bool, manual: bool, settings: Settings.Settings,
                      classify: ClassifyReply, generate: GenerateReply, prep: Prepared)
    ensures var step := Next(session, input, apiKeySaved, manual, settings, classify, generate, prep);
      step.outcome == ToResults ==>
        && generate.GenerateReply?
        && var cases := TestCaseUtils.FilterBySettings(generate.data.testCases.GetOr([]), settings);
           && cases != []
           && ReadCases(Get(step.session, TestCasesKey)) == Some(cases)
           && Get(step.session, AnswersKey) == Some(Strings(prep.autoContext))
           && Results.MountReads(step.session)
           && Results.AutoSaveDue(step.session)
  {
    if !apiKeySaved || AllSpace(input) {
    } else if classify.ClassifyThrew? || KeyRefused(classify) || !IsOk(classify.status) {
    } else if !manual {
      var classified := ClassifiedSession(session, input, prep.requirements, CategoryOf(classify));
      var waiting := classified[ManualContextModeKey := Text("false")];
      GenerationStepBasics(waiting, settings, generate, prep);
      var step := GenerationStep(waiting, settings, generate, prep);
      if step.outcome == ToResults {
        var cases := TestCaseUtils.FilterBySettings(generate.data.testCases.GetOr([]), settings);
        GeneratedSessionFeedsResults(waiting, prep.autoContext, cases, generate.data);
        ClassificationArmsAutoSave(session, input, prep.requirements, CategoryOf(classify));
      }
    }
  }

  class HomePage {
    var input: string
    var apiKey: string
    var showApiKeyInput: bool
    var loading: bool
    var apiKeySaved: bool
    var needsManualContext: bool
    var requirements: string

    constructor()
      ensures input == "" && apiKey == "" && requirements == ""
      ensures !showApiKeyInput && !loading && !apiKeySaved && !needsManualContext
    {
      input, apiKey, requirements := "", "", "";
      showApiKeyInput, loading, apiKeySaved, needsManualContext := false, false, false, false;
    }

    /** The mount effect: a stored key is loaded and counts as saved. */
    method LoadApiKey(b: Browser)
      modifies this
      ensures Truthy(Get(b.local, ApiKeyKey)) && StoredKey(b.local).Some? ==>
        apiKey == StoredKey(b.local).value && apiKeySaved
      ensures !(Truthy(Get(b.local, ApiKeyKey)) && StoredKey(b.local).Some?) ==>
        apiKey == old(apiKey) && apiKeySaved == old(apiKeySaved)
      ensures input == old(input) && requirements == old(requirements) && showApiKeyInput == old(showApiKeyInput)
      ensures loading == old(loading) && needsManualContext == old(needsManualContext)
    {
      var v := Get(b.local, ApiKeyKey);
      if Truthy(v) && v.value.Text? {
        apiKey := v.value.text;
        apiKeySaved := true;
      }
    }

    /** `handleSaveApiKey`: a blank key and one without the "sk-" prefix are refused with a
        message; any other is stored as typed, untrimmed. */
    method SaveApiKey(b: Browser) returns (result: KeyResult)
      modifies this, b
      ensures result == CheckKey(old(apiKey))
      ensures b.session == old(b.session)
      ensures apiKey == old(apiKey) && input == old(input) && requirements == old(requirements)
      ensures loading == old(loading) && needsManualContext == old(needsManualContext)
      ensures result != KeySaved ==>
        b.local == old(b.local) && apiKeySaved == old(apiKeySaved) && showApiKeyInput == old(showApiKeyInput)
      ensures result == KeySaved ==> b.local == old(b.local)[ApiKeyKey := Text(apiKey)] && apiKeySaved && !showApiKeyInput
    {
      if AllSpace(apiKey) {
        result := KeyBlank;
      } else if !StartsWith(apiKey, KeyPrefix) {
        result := KeyMalformed;
      } else {
        b.local := b.local[ApiKeyKey := Text(apiKey)];
        apiKeySaved, showApiKeyInput := true, false;
        result := KeySaved;
      }
    }

    /** `handleRemoveApiKey`: only a confirmed removal forgets the key. */
    method RemoveApiKey(b: Browser, confirmed: bool)
      modifies this, b
      ensures b.session == old(b.session)
      ensures input == old(input) && requirements == old(requirements) && showApiKeyInput == old(showApiKeyInput)
      ensures loading == old(loading) && needsManualContext == old(needsManualContext)
      ensures !confirmed ==> b.local == old(b.local) && apiKey == old(apiKey) && apiKeySaved == old(apiKeySaved)
      ensures confirmed ==> b.local == old(b.local) - {ApiKeyKey} && StoredKey(b.local) == None
      ensures confirmed ==> apiKey == "" && !apiKeySaved
    {
      if !confirmed {
        return;
      }
      b.local := b.local - {ApiKeyKey};
      apiKey := "";
      apiKeySaved := false;
    }

    /** `handleNext`: see `Next`. The requests and the automatic context are built once, up
        front (`Prepare`); `Proceed` then follows the page through the two replies. */
    method HandleNext(b: Browser, settings: Settings.Settings, classify: ClassifyReply, generate: GenerateReply)
      returns (outcome: NextOutcome, sent: seq<Request>)
      modifies this, b
      ensures var step := Next(old(b.session), old(input), old(apiKeySaved), old(needsManualContext), settings, classify, generate,
                               Prepare(b.local, old(input), old(requirements), settings, classify));
        && outcome == step.outcome && sent == step.sent && b.session == step.session
        && showApiKeyInput == (old(showApiKeyInput) || step.showKeyInput)
        && loading == (if outcome == Blocked then old(loading) else false)
      ensures b.local == old(b.local)
      ensures input == old(input) && apiKey == old(apiKey) && requirements == old(requirements)
      ensures apiKeySaved == old(apiKeySaved) && needsManualContext == old(needsManualContext)
    {
      var prep := Prepare(b.local, input, requirements, settings, classify);
      outcome, sent := Proceed(b, settings, classify, generate, prep);
    }

    /** The body of `handleNext` with the prepared requests given. */
    method Proceed(b: Browser, settings: Settings.Settings, classify: ClassifyReply, generate: GenerateReply, prep: Prepared)
      returns (outcome: NextOutcome, sent: seq<Request>)
      modifies this, b
      ensures var step := Next(old(b.session), old(input), old(apiKeySaved), old(needsManualContext), settings, classify, generate, prep);
        && outcome == step.outcome && sent == step.sent && b.session == step.session
        && showApiKeyInput == (old(showApiKeyInput) || step.showKeyInput)
        && loading == (if outcome == Blocked then old(loading) else false)
      ensures b.local == old(b.local)
      ensures input == old(input) && apiKey == old(apiKey) && requirements == old(requirements)
      ensures apiKeySaved == old(apiKeySaved) && needsManualContext == old(needsManualContext)
    {
      if !apiKeySaved || AllSpace(input) {
        if !apiKeySaved {
          showApiKeyInput := true;
        }
        return Blocked, [];
      }
      loading := true;
      sent := [prep.classification];
      if classify.ClassifyThrew? {
        loading := false;
        return Crashed, sent;
      }
      if KeyRefused(classify) {
        showApiKeyInput := true;
        loading := false;
        return KeyRejected, sent;
      }
      if !IsOk(classify.status) {
        loading := false;
        return ClassifyFailed("Error: " + Api.ContentOr(classify.error, "Failed to classify project")), sent;
      }
      var category := Api.ContentOr(classify.category, "other");
      b.session := b.session[ProjectDescriptionKey := Text(input)];
      if prep.requirements != "" {
        b.session := b.session[ProjectRequirementsKey := Text(prep.requirements)];
      } else {
        b.session := b.session - {ProjectRequirementsKey};
      }
      b.session := b.session[CategoryKey := Text(category)];
      b.session := b.session - {CurrentTestIdKey};
      if needsManualContext {
        b.session := b.session - {AnswersKey};
        b.session := b.session[ManualContextModeKey := Text("true")];
        loading := false;
        return ToQuestions, sent;
      }
      b.session := b.session[ManualContextModeKey := Text("false")];
      outcome, sent := Generation(b, settings, generate, prep);
    }

    /** The generation half of `handleNext`: see `GenerationStep`. */
    method Generation(b: Browser, settings: Settings.Settings, generate: GenerateReply, prep: Prepared)
      returns (outcome: NextOutcome, sent: seq<Request>)
      modifies this, b
      ensures var step := GenerationStep(old(b.session), settings, generate, prep);
        && outcome == step.outcome && sent == step.sent && b.session == step.session
      ensures loading == false && showApiKeyInput == old(showApiKeyInput)
      ensures b.local == old(b.local)
      ensures input == old(input) && apiKey == old(apiKey) && requirements == old(requirements)
      ensures apiKeySaved == old(apiKeySaved) && needsManualContext == old(needsManualContext)
    {
      sent := [prep.classification, prep.generation];
      if generate.GenerateThrew? {
        loading := false;
        return Crashed, sent;
      }
      if !IsOk(generate.status) {
        loading := false;
        return GenerateFailed(Api.ContentOr(generate.error, "Failed to generate test cases.")), sent;
      }
      var filtered := TestCaseUtils.FilterBySettings(generate.data.testCases.GetOr([]), settings);
      if filtered == [] {
        loading := false;
        return AllFiltered, sent;
      }
      b.session := b.session[AnswersKey := Strings(prep.autoContext)];
      b.session := b.session[TestCasesKey := Cases(filtered)];
      b.session := b.session[TestingStrategyKey := Text(Api.ContentOr(generate.data.testingStrategy, ""))];
      b.session := b.session[RiskAreasKey := Strings(generate.data.riskAreas.GetOr([]))];
      loading := false;
      outcome := ToResults;
    }
  }
}
