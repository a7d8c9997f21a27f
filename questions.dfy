/** app/questions/page.tsx: the manual-context step. On mount it reads the description and
    the category from sessionStorage and asks for clarifying questions (falling back to a
    generic list); the user answers them, skips them, or sends the answers, together with the
    requirements and the default context, to the generator. Replies are parameters. */
module Questions {
  import opened Wrappers
  import opened Text
  import opened Storage
  import Api
  import Settings
  import Domain
  import TestCaseUtils
  import Results
  import Home

  // ---------------------------------------------------------------------------------------
  // What the page sends.

  /** `answers.some((a) => !a.trim())`. */
  predicate HasBlankAnswer(answers: seq<string>) {
    exists i | 0 <= i < |answers| :: IsBlank(answers[i])
  }

  const RequirementPrefix: string := "Requirement specification: "

  /** `supplementalContext`: the requirements line, then the default context, each only when
      it is not blank once trimmed. */
  function Supplemental(requirements: string, defaultContext: string): seq<string> {
    (if !IsBlank(requirements) then [RequirementPrefix + Trim(requirements)] else [])
      + (if !IsBlank(defaultContext) then [Trim(defaultContext)] else [])
  }

  /** `[...answers, ...supplementalContext]`. */
  function SentAnswers(answers: seq<string>, requirements: string, defaultContext: string): seq<string> {
    answers + Supplemental(requirements, defaultContext)
  }

  /** The answers go first and unchanged; then comes the requirements line exactly when the
      requirements are not blank, and last the trimmed default context exactly when it is not
      blank. When every answer is filled in, so is every line the generator receives. */
  lemma SentAnswersSpec(answers: seq<string>, requirements: string, defaultContext: string)
    ensures var sent := SentAnswers(answers, requirements, defaultContext);
      var r, c := !IsBlank(requirements), !IsBlank(defaultContext);
      && sent[..|answers|] == answers
      && |sent| == |answers| + (if r then 1 else 0) + (if c then 1 else 0)
      && (r ==> sent[|answers|] == RequirementPrefix + Trim(requirements))
      && (c ==> sent[|sent| - 1] == Trim(defaultContext))
      && (!HasBlankAnswer(answers) ==> !HasBlankAnswer(sent))
  {
    var sent := SentAnswers(answers, requirements, defaultContext);
    var extra := Supplemental(requirements, defaultContext);
    assert sent[..|answers|] == answers;
    if !HasBlankAnswer(answers) {
      SupplementalNotBlank(requirements, defaultContext);
      forall i | 0 <= i < |sent| ensures !IsBlank(sent[i]) {
        if i >= |answers| {
          assert sent[i] == extra[i - |answers|];
        }
      }
    }
  }

  /** Every supplemental line has a character that is not white space. */
  lemma SupplementalNotBlank(requirements: string, defaultContext: string)
    ensures forall j :: 0 <= j < |Supplemental(requirements, defaultContext)| ==> !IsBlank(Supplemental(requirements, defaultContext)[j])
  {
    var extra := Supplemental(requirements, defaultContext);
    forall j | 0 <= j < |extra| ensures !IsBlank(extra[j]) {
      if j == 0 && !IsBlank(requirements) {
        var line := RequirementPrefix + Trim(requirements);
        assert line[0] == 'R';
        BlankIffAllSpace(line);
      } else {
        assert extra[j] == Trim(defaultContext);
        TrimIdempotent(defaultContext);
      }
    }
  }

  // ---------------------------------------------------------------------------------------
  // The replies and what the page makes of them.

  /** The page's view of the questions reply: status, error text and the `questions` field;
      `QuestionsThrew` is a failed `fetch` or a body that is not JSON. */
  datatype QuestionsReply =
    | QuestionsReply(status: int, error: Option<string>, questions: Option<seq<string>>)
    | QuestionsThrew

  /** The questions shown: the route's list (`data.questions || []`) after a successful
      reply, the generic list after anything else. */
  function ShownQuestions(reply: QuestionsReply, genericQuestions: seq<string>): seq<string> {
    if reply.QuestionsReply? && Home.IsOk(reply.status) then reply.questions.GetOr([]) else genericQuestions
  }

  /** `new Array(n).fill("")`. */
  function BlankAnswers(n: nat): (answers: seq<string>)
    ensures |answers| == n
    ensures forall i :: 0 <= i < n ==> answers[i] == ""
  {
    seq(n, _ => "")
  }

  /** What a press of "Generate Tests" ends in. */
  datatype NextOutcome = MissingAnswers | GenerationFailed | AllFiltered | ToResults

  /** What the generator's reply makes of the session once `sentAnswers` have gone out: a
      failure or an empty filtered list leaves it alone; otherwise the four result keys are
      written. */
  function AfterReply(session: Store, sentAnswers: seq<string>, settings: Settings.Settings, reply: Home.GenerateReply)
    : (NextOutcome, Store)
  {
    if reply.GenerateThrew? || !Home.IsOk(reply.status) then (GenerationFailed, session)
    else
      var cases := TestCaseUtils.FilterBySettings(reply.data.testCases.GetOr([]), settings);
      if cases == [] then (AllFiltered, session)
      else (ToResults, Home.GeneratedSession(session, sentAnswers, cases, reply.data))
  }

  /** Only a good reply with some case left after the settings' filter writes anything, and
      then the results page can read what was written, the sent answers included. */
  lemma AfterReplySpec(session: Store, sentAnswers: seq<string>, settings: Settings.Settings, reply: Home.GenerateReply)
    ensures var (outcome, s) := AfterReply(session, sentAnswers, settings, reply);
      && (outcome == GenerationFailed <==> reply.GenerateThrew? || !Home.IsOk(reply.status))
      && (outcome == AllFiltered <==>
            reply.GenerateReply? && Home.IsOk(reply.status)
            && TestCaseUtils.FilterBySettings(reply.data.testCases.GetOr([]), settings) == [])
      && outcome != MissingAnswers
      && (outcome != ToResults ==> s == session)
      && (outcome == ToResults ==>
            && reply.GenerateReply?
            && Results.MountReads(s)
            && ReadCases(Get(s, TestCasesKey)) == Some(TestCaseUtils.FilterBySettings(reply.data.testCases.GetOr([]), settings))
            && ReadStrings(Get(s, AnswersKey)) == Some(sentAnswers)
            && (Results.AutoSaveDue(s) <==> Results.AutoSaveDue(session)))
  {
    var (outcome, s) := AfterReply(session, sentAnswers, settings, reply);
    if outcome == ToResults {
      Home.GeneratedSessionFeedsResults(session, sentAnswers, TestCaseUtils.FilterBySettings(reply.data.testCases.GetOr([]), settings),
                                   reply.data);
    }
  }

  class QuestionsPage {
    var category: string
    var questions: seq<string>
    var answers: seq<string>
    var loading: bool
    var generatingQuestions: bool
    var projectDescription: string
    var projectRequirements: string

    /** Every question has exactly one answer slot. */
    predicate Valid()
      reads this
    {
      |answers| == |questions|
    }

    constructor()
      ensures category == "" && questions == [] && answers == [] && projectDescription == "" && projectRequirements == ""
      ensures loading && !generatingQuestions
      ensures Valid()
    {
      category := "";
      questions := [];
      answers := [];
      loading := true;
      generatingQuestions := false;
      projectDescription := "";
      projectRequirements := "";
    }

    /** The mount effect. Without a description or a category in the session it redirects to
        the start (`sent == None`) and asks nothing; otherwise it asks for questions with the
        stored key and shows the questions it gets, each with an empty answer. The generic
        list of `lib/genericQuestions.json` is the parameter `genericQuestions`. */
    method Mount(b: Browser, reply: QuestionsReply, genericQuestions: seq<string>) returns (sent: Option<Api.QuestionsBody>)
      modifies this
      ensures var s := b.session;
        var cat, proj := TextOr(s, CategoryKey, ""), TextOr(s, ProjectDescriptionKey, "");
        && (cat == "" || proj == "" ==> sent == None && unchanged(this))
        && (cat != "" && proj != "" ==>
              && sent == Some(Api.QuestionsBody(Some(proj), Some(cat), Home.StoredKey(b.local)))
              && category == cat && projectDescription == proj
              && projectRequirements == TextOr(s, ProjectRequirementsKey, "")
              && questions == ShownQuestions(reply, genericQuestions)
              && answers == BlankAnswers(|questions|)
              && Valid() && !loading && !generatingQuestions)
    {
      var savedCategory := TextOr(b.session, CategoryKey, "");
      var savedProject := TextOr(b.session, ProjectDescriptionKey, "");
      var savedRequirements := TextOr(b.session, ProjectRequirementsKey, "");
      if savedCategory == "" || savedProject == "" {
        return None;
      }
      category := savedCategory;
      projectDescription := savedProject;
      projectRequirements := savedRequirements;
      generatingQuestions := true;
      sent := Some(Api.QuestionsBody(Some(savedProject), Some(savedCategory), Home.StoredKey(b.local)));
      if reply.QuestionsReply? && Home.IsOk(reply.status) {
        var generated := reply.questions.GetOr([]);
        questions := generated;
        answers := BlankAnswers(|generated|);
      } else {
        questions := genericQuestions;
        answers := BlankAnswers(|genericQuestions|);
      }
      generatingQuestions := false;
      loading := false;
    }

    /** `handleAnswerChange`: only the answer at `index` changes, to `value`. The page calls it
        only for the index of a question it shows. */
    method HandleAnswerChange(index: nat, value: string)
      requires Valid() && index < |questions|
      modifies this
      ensures |answers| == |old(answers)| && answers[index] == value
      ensures forall j :: 0 <= j < |answers| && j != index ==> answers[j] == old(answers)[j]
      ensures questions == old(questions) && category == old(category) && loading == old(loading)
      ensures projectDescription == old(projectDescription) && projectRequirements == old(projectRequirements)
      ensures generatingQuestions == old(generatingQuestions)
      ensures Valid()
    {
      answers := answers[index := value];
    }

    /** `handleSkip`: the answers are stored as they are, blank ones included, and nothing
        else is written. */
    method HandleSkip(b: Browser)
      modifies b
      ensures b.session == old(b.session)[AnswersKey := Strings(answers)]
      ensures ReadStrings(Get(b.session, AnswersKey)) == Some(answers)
      ensures b.local == old(b.local)
    {
      b.session := b.session[AnswersKey := Strings(answers)];
    }

    /** `handleNext`. With a blank answer nothing is sent and nothing changes. Otherwise one
        generation request goes out, carrying the answers followed by the supplemental
        context; the session is written only when the reply is good and some case survives
        the settings' filter. */
    method HandleNext(b: Browser, settings: Settings.Settings, reply: Home.GenerateReply)
      returns (outcome: NextOutcome, sent: Option<Api.GenerateBody>)
      modifies this, b
      ensures HasBlankAnswer(answers) ==> outcome == MissingAnswers && sent == None && loading == old(loading)
      ensures !HasBlankAnswer(answers) ==>
        && sent == Some(Api.GenerateBody(Some(projectDescription), Some(category),
                          Some(SentAnswers(answers, projectRequirements, settings.defaultContext)), Home.StoredKey(b.local)))
        && !loading
      ensures !HasBlankAnswer(answers) ==>
        (outcome, b.session) == AfterReply(old(b.session), SentAnswers(answers, projectRequirements, settings.defaultContext),
                                           settings, reply)
      ensures HasBlankAnswer(answers) ==> b.session == old(b.session)
      ensures b.local == old(b.local)
      ensures answers == old(answers) && questions == old(questions) && category == old(category)
      ensures projectDescription == old(projectDescription) && projectRequirements == old(projectRequirements)
      ensures generatingQuestions == old(generatingQuestions)
    {
      if HasBlankAnswer(answers) {
        return MissingAnswers, None;
      }
      loading := true;
      outcome, sent := Generate(b, settings, reply);
    }

    /** The part of `handleNext` after the answers are checked: see `AfterReply`. */
    method Generate(b: Browser, settings: Settings.Settings, reply: Home.GenerateReply)
      returns (outcome: NextOutcome, sent: Option<Api.GenerateBody>)
      modifies this, b
      ensures sent == Some(Api.GenerateBody(Some(projectDescription), Some(category),
                             Some(SentAnswers(answers, projectRequirements, settings.defaultContext)), Home.StoredKey(b.local)))
      ensures (outcome, b.session) == AfterReply(old(b.session), SentAnswers(answers, projectRequirements, settings.defaultContext),
                                                 settings, reply)
      ensures !loading && b.local == old(b.local)
      ensures answers == old(answers) && questions == old(questions) && category == old(category)
      ensures projectDescription == old(projectDescription) && projectRequirements == old(projectRequirements)
      ensures generatingQuestions == old(generatingQuestions)
    {
      var all := SentAnswers(answers, projectRequirements, settings.defaultContext);
      sent := Some(Api.GenerateBody(Some(projectDescription), Some(category), Some(all), Home.StoredKey(b.local)));
      outcome := StoreReply(b, all, settings, reply);
      loading := false;
    }
  }

  /** The writes of `handleNext` once the answers `sentAnswers` have gone out: see `AfterReply`. */
  method StoreReply(b: Browser, sentAnswers: seq<string>, settings: Settings.Settings, reply: Home.GenerateReply)
    returns (outcome: NextOutcome)
    modifies b
    ensures (outcome, b.session) == AfterReply(old(b.session), sentAnswers, settings, reply)
    ensures b.local == old(b.local)
  {
    if reply.GenerateThrew? || !Home.IsOk(reply.status) {
      return GenerationFailed;
    }
    var filtered := TestCaseUtils.FilterBySettings(reply.data.testCases.GetOr([]), settings);
    if filtered == [] {
      return AllFiltered;
    }
    b.session := b.session[AnswersKey := Strings(sentAnswers)];
    b.session := b.session[TestCasesKey := Cases(filtered)];
    b.session := b.session[TestingStrategyKey := Text(Api.ContentOr(reply.data.testingStrategy, ""))];
    b.session := b.session[RiskAreasKey := Strings(reply.data.riskAreas.GetOr([]))];
    outcome := ToResults;
  }

  // ---------------------------------------------------------------------------------------
  // How the page connects to its neighbours.

  /** The start page's manual mode leaves a session this page accepts: the description and
      the category read back as the text the start page used, neither is empty, the
      requirements read back trimmed, and no answers are stored. */
  lemma ManualModeHandsOver(session: Store, input: string, apiKeySaved: bool, manual: bool, settings: Settings.Settings,
                            classify: Home.ClassifyReply, generate: Home.GenerateReply, prep: Home.Prepared)
    ensures var step := Home.Next(session, input, apiKeySaved, manual, settings, classify, generate, prep);
      step.outcome == Home.ToQuestions ==>
        && TextOr(step.session, ProjectDescriptionKey, "") == input != ""
        && TextOr(step.session, CategoryKey, "") == Home.CategoryOf(classify) != ""
        && TextOr(step.session, ProjectRequirementsKey, "") == prep.requirements
        && AnswersKey !in step.session
  {
    var step := Home.Next(session, input, apiKeySaved, manual, settings, classify, generate, prep);
    if step.outcome == Home.ToQuestions {
      Home.NextClassifiedState(session, input, apiKeySaved, manual, settings, classify, generate, prep);
      Home.NextManualMode(session, input, apiKeySaved, manual, settings, classify, generate, prep);
      if prep.requirements == "" {
        assert ProjectRequirementsKey !in step.session;
      }
    }
  }
}
