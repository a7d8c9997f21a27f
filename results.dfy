/** app/results/page.tsx: showing the generated test cases, saving the run once per wizard
    pass, and exporting the cases as CSV. */
module Results {
  import opened Wrappers
  import opened Text
  import opened Seqs
  import opened Domain
  import opened Storage
  import Settings
  import TestCaseUtils
  import Boilerplate

  // ---------------------------------------------------------------------------------------
  // CSV export.

  const CsvHeaders: seq<string> := [
    "Test Type", "Priority", "Test Name", "Description", "Given Context",
    "Test Steps", "Expected Outcome", "Notes", "Setup Required", "Teardown Required"]

  /** The first line of the export: the headers, joined by commas without escaping. */
  const HeaderLine: string := Join(CsvHeaders, ",")

  /** The ten cells of a case's row, in header order; steps are joined with " | " and a
      missing optional field is an empty cell. */
  function CsvFields(tc: TestCase): (row: seq<string>)
    ensures |row| == |CsvHeaders|
  {
    [tc.testType, tc.priority, tc.testName, tc.description, tc.givenContext,
     Join(tc.testSteps, " | "), tc.expectedOutcome,
     tc.notes.GetOr(""), tc.setupRequired.GetOr(""), tc.teardownRequired.GetOr("")]
  }

  /** `replace(/"/g, '""')`: every double quote doubled. */
  function DoubleQuotes(s: string): (r: string)
    ensures |r| >= |s|
    ensures forall c :: c in r <==> c in s
  {
    if s == [] then []
    else (if s[0] == '"' then "\"\"" else [s[0]]) + DoubleQuotes(s[1..])
  }

  /** The reading of a quoted field's inside: a pair of double quotes stands for one. */
  function UndoubleQuotes(s: string): string {
    if s == [] then []
    else if |s| >= 2 && s[0] == '"' && s[1] == '"' then "\"" + UndoubleQuotes(s[2..])
    else [s[0]] + UndoubleQuotes(s[1..])
  }

  lemma {:induction false} UndoubleDouble(s: string)
    ensures UndoubleQuotes(DoubleQuotes(s)) == s
  {
    if s != [] {
      var rest := DoubleQuotes(s[1..]);
      UndoubleDouble(s[1..]);
      if s[0] == '"' {
        assert DoubleQuotes(s) == "\"\"" + rest;
        assert ("\"\"" + rest)[2..] == rest;
      } else {
        assert DoubleQuotes(s) == [s[0]] + rest;
        assert ([s[0]] + rest)[1..] == rest;
      }
    }
  }

  predicate NeedsQuoting(cell: string) {
    ',' in cell || '"' in cell
  }

  /** A cell holding a comma or a double quote is wrapped in double quotes with its own
      double quotes doubled; any other cell is written as it is. */
  function EscapeCell(cell: string): (field: string)
    ensures !NeedsQuoting(cell) ==> field == cell
    ensures forall c :: c != ',' && c != '"' ==> (c in field <==> c in cell)
  {
    if NeedsQuoting(cell) then "\"" + DoubleQuotes(cell) + "\"" else cell
  }

  /** How a CSV reader reads one field back. */
  function UnescapeCell(field: string): string {
    if |field| >= 2 && field[0] == '"' && field[|field| - 1] == '"' then UndoubleQuotes(field[1..|field| - 1])
    else field
  }

  /** Every cell survives the escaping. */
  lemma EscapeRoundTrip(cell: string)
    ensures UnescapeCell(EscapeCell(cell)) == cell
  {
    if NeedsQuoting(cell) {
      var field := EscapeCell(cell);
      assert field[1..|field| - 1] == DoubleQuotes(cell);
      UndoubleDouble(cell);
    } else if |cell| >= 1 {
      assert cell[0] in cell;
    }
  }

  /** One line of the export: the escaped cells joined by commas. */
  function CsvLine(cells: seq<string>): string {
    Join(seq(|cells|, i requires 0 <= i < |cells| => EscapeCell(cells[i])), ",")
  }

  /** A row whose cells hold neither commas nor double quotes splits back into its cells. */
  lemma PlainRowSplits(cells: seq<string>)
    requires |cells| >= 1
    requires forall i :: 0 <= i < |cells| ==> !NeedsQuoting(cells[i])
    ensures Split(CsvLine(cells), ',') == cells
  {
    assert seq(|cells|, i requires 0 <= i < |cells| => EscapeCell(cells[i])) == cells;
    SplitJoin(cells, ',');
  }

  function CsvLines(cases: seq<TestCase>): (lines: seq<string>)
    ensures |lines| == |cases|
  {
    seq(|cases|, i requires 0 <= i < |cases| => CsvLine(CsvFields(cases[i])))
  }

  /** `exportToCSV`'s text: the header line, then one line per case, joined by newlines. */
  function ExportCsv(cases: seq<TestCase>): string {
    Join([HeaderLine] + CsvLines(cases), "\n")
  }

  lemma HeaderLineHasNoBreak()
    ensures '\n' !in HeaderLine
  {
    forall i | 0 <= i < |CsvHeaders| ensures '\n' !in CsvHeaders[i] {
    }
    JoinAvoids(CsvHeaders, ",", '\n');
  }

  /** Escaping adds no line break, so a row without one in its cells has none in its line. */
  lemma RowHasNoBreak(cells: seq<string>)
    requires forall k :: 0 <= k < |cells| ==> '\n' !in cells[k]
    ensures '\n' !in CsvLine(cells)
  {
    var escaped := seq(|cells|, k requires 0 <= k < |cells| => EscapeCell(cells[k]));
    forall k | 0 <= k < |escaped| ensures '\n' !in escaped[k] {
      assert '\n' !in cells[k];
    }
    JoinAvoids(escaped, ",", '\n');
  }

  /** When no cell holds a line break, the export splits into the header line followed by
      one line per case, in order. */
  lemma ExportCsvLines(cases: seq<TestCase>)
    requires forall i, k :: 0 <= i < |cases| && 0 <= k < |CsvHeaders| ==> '\n' !in CsvFields(cases[i])[k]
    ensures var lines := Split(ExportCsv(cases), '\n');
      |lines| == |cases| + 1 && lines[0] == HeaderLine
      && forall i :: 0 <= i < |cases| ==> lines[i + 1] == CsvLine(CsvFields(cases[i]))
  {
    var rows := CsvLines(cases);
    HeaderLineHasNoBreak();
    forall i | 0 <= i < |rows| ensures '\n' !in rows[i] {
      RowHasNoBreak(CsvFields(cases[i]));
    }
    LinesSplitBack(HeaderLine, rows);
  }

  /** Lines without line breaks, joined by newlines, split back into themselves. */
  lemma LinesSplitBack(header: string, rows: seq<string>)
    requires '\n' !in header
    requires forall i :: 0 <= i < |rows| ==> '\n' !in rows[i]
    ensures Split(Join([header] + rows, "\n"), '\n') == [header] + rows
  {
    var all := [header] + rows;
    forall j | 0 <= j < |all| ensures '\n' !in all[j] {
      if j > 0 {
        assert all[j] == rows[j - 1];
      }
    }
    SplitJoin(all, '\n');
  }

  // ---------------------------------------------------------------------------------------
  // What the page shows.

  /** The type and priority filters of the table: `None` and "all" show everything. */
  function Shown(testType: Option<string>, priority: string): TestCase -> bool {
    (tc: TestCase) => (testType.None? || tc.testType == testType.value) && (priority == "all" || tc.priority == priority)
  }

  /** `filteredTestCases`. */
  function ViewFilter(cases: seq<TestCase>, testType: Option<string>, priority: string): seq<TestCase> {
    Filter(cases, Shown(testType, priority))
  }

  lemma ViewFilterSpec(cases: seq<TestCase>, testType: Option<string>, priority: string)
    ensures var r := ViewFilter(cases, testType, priority);
      && IsSubsequence(r, cases)
      && (forall tc :: tc in r <==>
            (tc in cases && (testType.None? || tc.testType == testType.value) && (priority == "all" || tc.priority == priority)))
      && (testType.None? && priority == "all" ==> r == cases)
  {
    FilterIsSubsequence(cases, Shown(testType, priority));
    FilterMembers(cases, Shown(testType, priority));
    if testType.None? && priority == "all" {
      FilterKeepsAll(cases, Shown(testType, priority));
    }
  }

  /** `testTypeCount[type]`. */
  function TestTypeCount(cases: seq<TestCase>, t: string): nat {
    |Filter(cases, TestCaseUtils.OfType(t))|
  }

  /** When every case carries one of the five types, the five counts add up to the number
      of cases. */
  lemma {:induction false} CountsCoverAllCases(cases: seq<TestCase>)
    requires forall i :: 0 <= i < |cases| ==> cases[i].testType in TestTypeOptions
    ensures TestTypeCount(cases, "unit") + TestTypeCount(cases, "integration") + TestTypeCount(cases, "feature")
      + TestTypeCount(cases, "performance") + TestTypeCount(cases, "manual") == |cases|
  {
    if cases != [] {
      CountsCoverAllCases(cases[1..]);
      assert cases[0].testType in TestTypeOptions;
    }
  }

  /** `hasBoilerplateOptions`: some framework is left enabled, which is exactly when the
      modal has a framework to offer. */
  predicate HasBoilerplateOptions(flags: Settings.Flags) {
    exists i | 0 <= i < |Settings.BoilerplateOptions| ::
      !(Settings.BoilerplateOptions[i] in flags && flags[Settings.BoilerplateOptions[i]])
  }

  lemma BoilerplateButtonMatchesModal(flags: Settings.Flags)
    ensures HasBoilerplateOptions(flags) <==> Boilerplate.AvailableFrameworks(flags) != []
  {
    Boilerplate.SomeOfferedIffSomeKeyUnflagged(flags);
  }

  datatype Analysis = Analysis(summary: string, riskAreas: seq<string>, testingStrategy: string)

  // ---------------------------------------------------------------------------------------
  // Saving a run.

  /** The index entry that announces a saved run. */
  function EntryFor(id: string, run: SavedRun): (entry: IndexEntry)
    ensures entry.id == id && entry.testCaseCount == |run.testCases|
  {
    IndexEntry(id, run.projectDescription, run.category, run.timestamp, |run.testCases|)
  }

  /** The writes of one save, as a relation between the stores before and after: the record
      under its id, the id as the session's current run, and, when the index reads, the new
      entry in front of it; when it does not, the index is left as it was. */
  predicate SaveEffect(local0: Store, session0: Store, local1: Store, session1: Store, id: string, run: SavedRun) {
    && session1 == session0[CurrentTestIdKey := Text(id)]
    && match ReadIndex(Get(local0, SavedTestsKey))
       case None => local1 == local0[id := Run(run)]
       case Some(entries) => local1 == local0[id := Run(run)][SavedTestsKey := Index([EntryFor(id, run)] + entries)]
  }

  /** After a save, the run can be read back under its id, the index (when it was readable)
      lists it first with its case count, the session remembers it, and no other key of
      either store changed. */
  lemma SaveEffectSpec(local0: Store, session0: Store, local1: Store, session1: Store, now: nat, suffix: string, run: SavedRun)
    requires SaveEffect(local0, session0, local1, session1, RunId(now, suffix), run)
    ensures var id := RunId(now, suffix);
      && Get(local1, id) == Some(Run(run))
      && Get(session1, CurrentTestIdKey) == Some(Text(id))
      && (ReadIndex(Get(local0, SavedTestsKey)).Some? ==>
            ReadIndex(Get(local1, SavedTestsKey)) == Some([EntryFor(id, run)] + ReadIndex(Get(local0, SavedTestsKey)).value))
      && (ReadIndex(Get(local0, SavedTestsKey)).None? ==> Get(local1, SavedTestsKey) == Get(local0, SavedTestsKey))
      && (forall k :: k != id && k != SavedTestsKey ==> Get(local1, k) == Get(local0, k))
      && (forall k :: k != CurrentTestIdKey ==> Get(session1, k) == Get(session0, k))
  {
    RunIdIsNotAFixedKey(now, suffix);
  }

  /** The auto-save condition: a description and a category, and no run saved yet. */
  predicate AutoSaveDue(session: Store) {
    Truthy(Get(session, ProjectDescriptionKey)) && Truthy(Get(session, CategoryKey))
      && !Truthy(Get(session, CurrentTestIdKey))
  }

  /** A save disarms the auto-save: after it, mounting the page again saves nothing. */
  lemma SaveDisarmsAutoSave(local0: Store, session0: Store, local1: Store, session1: Store, now: nat, suffix: string, run: SavedRun)
    requires SaveEffect(local0, session0, local1, session1, RunId(now, suffix), run)
    ensures !AutoSaveDue(session1)
  {
    assert RunId(now, suffix) != "" by {
      assert StartsWith(RunId(now, suffix), "test_");
    }
  }

  /** The writes shared by the automatic and the manual save. `saved` tells whether the
      index was written too. */
  method SaveRun(b: Browser, now: nat, suffix: string, run: SavedRun) returns (saved: bool)
    modifies b
    ensures SaveEffect(old(b.local), old(b.session), b.local, b.session, RunId(now, suffix), run)
    ensures saved <==> ReadIndex(Get(old(b.local), SavedTestsKey)).Some?
  {
    var id := RunId(now, suffix);
    RunIdIsNotAFixedKey(now, suffix);
    b.local := b.local[id := Run(run)];
    b.session := b.session[CurrentTestIdKey := Text(id)];
    var index := ReadIndex(Get(b.local, SavedTestsKey));
    if index.None? {
      return false;
    }
    b.local := b.local[SavedTestsKey := Index([EntryFor(id, run)] + index.value)];
    saved := true;
  }

  /** `saveTestCase`: the stored risk areas are read first; if they do not parse nothing
      is written. */
  method SaveTestCase(b: Browser, projectDescription: string, category: string, cases: seq<TestCase>,
                      testingStrategy: string, riskAreas: Option<Value>, now: nat, suffix: string)
    modifies b
    ensures ReadStrings(riskAreas).None? ==> b.local == old(b.local) && b.session == old(b.session)
    ensures ReadStrings(riskAreas).Some? ==> SaveEffect(old(b.local), old(b.session), b.local, b.session, RunId(now, suffix),
      SavedRun(projectDescription, category, cases, testingStrategy, ReadStrings(riskAreas).value, now))
  {
    var risks := ReadStrings(riskAreas);
    if risks.None? {
      return;
    }
    var _ := SaveRun(b, now, suffix, SavedRun(projectDescription, category, cases, testingStrategy, risks.value, now));
  }

  /** The run the mount effect saves for a session. */
  function AutoSavedRun(session: Store, cases: seq<TestCase>, risks: seq<string>, now: nat): SavedRun {
    SavedRun(TextOr(session, ProjectDescriptionKey, ""), TextOr(session, CategoryKey, ""), cases,
      TextOr(session, TestingStrategyKey, ""), risks, now)
  }

  /** Whether the mount effect gets past reading the session: the cases are there and
      parse, and the risk areas parse if they are there. */
  predicate MountReads(session: Store) {
    Truthy(Get(session, TestCasesKey)) && ReadCases(Get(session, TestCasesKey)).Some?
      && ReadStrings(Get(session, RiskAreasKey)).Some?
  }

  /** Which result the page asks for when the user presses "Save Test". */
  datatype SaveOutcome = AlreadySaved | Saved | SaveFailed

  class ResultsPage {
    var testCases: seq<TestCase>
    var analysis: Option<Analysis>
    /** Whether the page has sent the user back to the start. */
    var redirected: bool

    constructor()
      ensures testCases == [] && analysis == None && !redirected
    {
      testCases := [];
      analysis := None;
      redirected := false;
    }

    /** The mount effect. The clock reading and the random id suffix are inputs. */
    method Mount(b: Browser, settings: Settings.Settings, now: nat, suffix: string)
      modifies this, b
      ensures !MountReads(old(b.session)) ==> redirected && b.local == old(b.local) && b.session == old(b.session)
      ensures !MountReads(old(b.session)) ==> analysis == old(analysis)
      ensures var s := old(b.session);
        !(Truthy(Get(s, TestCasesKey)) && ReadCases(Get(s, TestCasesKey)).Some?) ==> testCases == old(testCases)
      ensures var s := old(b.session);
        Truthy(Get(s, TestCasesKey)) && ReadCases(Get(s, TestCasesKey)).Some?
        ==> testCases == TestCaseUtils.FilterBySettings(ReadCases(Get(s, TestCasesKey)).value, settings)
      ensures var s := old(b.session);
        MountReads(s) ==>
          && redirected == old(redirected)
          && (Truthy(Get(s, TestingStrategyKey)) || Truthy(Get(s, RiskAreasKey))
              ==> analysis == Some(Analysis(TextOr(s, TestingStrategyKey, ""), ReadStrings(Get(s, RiskAreasKey)).value,
                                            TextOr(s, TestingStrategyKey, ""))))
          && (!Truthy(Get(s, TestingStrategyKey)) && !Truthy(Get(s, RiskAreasKey)) ==> analysis == old(analysis))
          && (!AutoSaveDue(s) ==> b.local == old(b.local) && b.session == old(b.session))
          && (AutoSaveDue(s) ==> SaveEffect(old(b.local), s, b.local, b.session, RunId(now, suffix),
                AutoSavedRun(s, testCases, ReadStrings(Get(s, RiskAreasKey)).value, now)))
    {
      var session := b.session;
      var stored := Get(session, TestCasesKey);
      if !Truthy(stored) {
        redirected := true;
        return;
      }
      var parsed := ReadCases(stored);
      if parsed.None? {
        redirected := true;
        return;
      }
      var filtered := TestCaseUtils.FilterBySettings(parsed.value, settings);
      testCases := filtered;
      var strategy := TextOr(session, TestingStrategyKey, "");
      var risks := ReadStrings(Get(session, RiskAreasKey));
      if Truthy(Get(session, TestingStrategyKey)) || Truthy(Get(session, RiskAreasKey)) {
        if risks.None? {
          redirected := true;
          return;
        }
        analysis := Some(Analysis(strategy, risks.value, strategy));
      }
      if AutoSaveDue(session) {
        SaveTestCase(b, TextOr(session, ProjectDescriptionKey, ""), TextOr(session, CategoryKey, ""), filtered,
          strategy, Get(session, RiskAreasKey), now, suffix);
      }
    }

    /** The "Save Test" button: it saves the unfiltered cases from the session under the
        fallbacks "Untitled Project" and "other", unless a run was already saved. */
    method ManualSave(b: Browser, now: nat, suffix: string) returns (outcome: SaveOutcome)
      modifies b
      ensures var s := old(b.session);
        var cases := ReadCases(Get(s, TestCasesKey));
        var risks := ReadStrings(Get(s, RiskAreasKey));
        && (cases.None? || risks.None? ==> outcome == SaveFailed && b.local == old(b.local) && b.session == s)
        && (cases.Some? && risks.Some? && Truthy(Get(s, CurrentTestIdKey))
            ==> outcome == AlreadySaved && b.local == old(b.local) && b.session == s)
        && (cases.Some? && risks.Some? && !Truthy(Get(s, CurrentTestIdKey)) ==>
              && SaveEffect(old(b.local), s, b.local, b.session, RunId(now, suffix),
                   SavedRun(TextOr(s, ProjectDescriptionKey, "Untitled Project"), TextOr(s, CategoryKey, "other"),
                     cases.value, TextOr(s, TestingStrategyKey, ""), risks.value, now))
              && (outcome == Saved <==> ReadIndex(Get(old(b.local), SavedTestsKey)).Some?)
              && outcome != AlreadySaved)
    {
      var session := b.session;
      var cases := ReadCases(Get(session, TestCasesKey));
      var risks := ReadStrings(Get(session, RiskAreasKey));
      if cases.None? || risks.None? {
        return SaveFailed;
      }
      if Truthy(Get(session, CurrentTestIdKey)) {
        return AlreadySaved;
      }
      var run := SavedRun(TextOr(session, ProjectDescriptionKey, "Untitled Project"), TextOr(session, CategoryKey, "other"),
        cases.value, TextOr(session, TestingStrategyKey, ""), risks.value, now);
      var saved := SaveRun(b, now, suffix, run);
      outcome := if saved then Saved else SaveFailed;
    }
  }

  /** Mounting the page twice (the effect runs again when the settings change) saves at
      most once: the second mount writes nothing. */
  method MountTwice(p: ResultsPage, b: Browser, settings: Settings.Settings, now1: nat, suffix1: string, now2: nat, suffix2: string)
    returns (local1: Store, session1: Store)
    modifies p, b
    ensures b.local == local1 && b.session == session1
  {
    p.Mount(b, settings, now1, suffix1);
    local1, session1 := b.local, b.session;
    var s0 := old(b.session);
    if MountReads(s0) && AutoSaveDue(s0) {
      SaveDisarmsAutoSave(old(b.local), s0, local1, session1, now1, suffix1,
        AutoSavedRun(s0, p.testCases, ReadStrings(Get(s0, RiskAreasKey)).value, now1));
    }
    p.Mount(b, settings, now2, suffix2);
  }
}
