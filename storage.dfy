/** The browser's two key-value stores (`localStorage` and `sessionStorage`) and the values
    the wizard keeps in them. Every stored value is a string in the browser; here a value
    records what that string holds: plain text, one of the JSON documents the app writes, or
    a string that `JSON.parse` rejects. */
module Storage {
  import opened Wrappers
  import opened Text
  import Domain
  import Settings

  /** One entry of the saved-runs index under `savedTests`. */
  datatype IndexEntry = IndexEntry(
    id: string,
    projectDescription: string,
    category: string,
    timestamp: int,
    testCaseCount: nat)

  /** The full record of a saved run, stored under its run id. */
  datatype SavedRun = SavedRun(
    projectDescription: string,
    category: string,
    testCases: seq<Domain.TestCase>,
    testingStrategy: string,
    riskAreas: seq<string>,
    timestamp: int)

  datatype Value =
    | Text(text: string)
    | Unparseable
    | Strings(items: seq<string>)
    | Cases(cases: seq<Domain.TestCase>)
    | Index(entries: seq<IndexEntry>)
    | Run(run: SavedRun)
    | Prefs(prefs: Settings.PartialSettings)

  type Store = map<string, Value>

  // localStorage keys
  const ApiKeyKey: string := "openai_api_key"
  const SavedTestsKey: string := "savedTests"
  const ThemeModeKey: string := "themeMode"
  const LegacyThemeKey: string := "theme"

  // sessionStorage keys
  const ProjectDescriptionKey: string := "projectDescription"
  const ProjectRequirementsKey: string := "projectRequirements"
  const CategoryKey: string := "category"
  const CurrentTestIdKey: string := "currentTestId"
  const AnswersKey: string := "answers"
  const ManualContextModeKey: string := "manualContextMode"
  const TestCasesKey: string := "testCases"
  const TestingStrategyKey: string := "testingStrategy"
  const RiskAreasKey: string := "riskAreas"

  /** `getItem(key)`: `None` is `null`. */
  function Get(store: Store, key: string): Option<Value> {
    if key in store then Some(store[key]) else None
  }

  /** A `getItem` result used as a condition: `null` and the empty string are falsy; every
      JSON document the app writes is a non-empty string. */
  predicate Truthy(v: Option<Value>) {
    v.Some? && v.value != Text("")
  }

  /** `getItem(key) || fallback` for a key that holds plain text. */
  function TextOr(store: Store, key: string, fallback: string): (s: string)
    ensures key in store && store[key].Text? && store[key].text != "" ==> s == store[key].text
    ensures !Truthy(Get(store, key)) ==> s == fallback
  {
    if key in store && store[key].Text? && store[key].text != "" then store[key].text else fallback
  }

  /** `JSON.parse(getItem("savedTests") || "[]")` as the array that is then `unshift`ed into:
      no index (or an empty string) reads as the empty list; a string that does not parse,
      or parses to something other than an index, makes the read fail. */
  function ReadIndex(v: Option<Value>): (r: Option<seq<IndexEntry>>)
    ensures !Truthy(v) ==> r == Some([])
    ensures v.Some? && v.value.Index? ==> r == Some(v.value.entries)
  {
    match v
    case None => Some([])
    case Some(Text(s)) => if s == "" then Some([]) else None
    case Some(Index(entries)) => Some(entries)
    case Some(_) => None
  }

  /** `JSON.parse(getItem(key) || "[]")` where the app keeps a list of test cases. */
  function ReadCases(v: Option<Value>): (r: Option<seq<Domain.TestCase>>)
    ensures !Truthy(v) ==> r == Some([])
    ensures v.Some? && v.value.Cases? ==> r == Some(v.value.cases)
  {
    match v
    case None => Some([])
    case Some(Text(s)) => if s == "" then Some([]) else None
    case Some(Cases(cases)) => Some(cases)
    case Some(_) => None
  }

  /** `JSON.parse(getItem(key) || "[]")` where the app keeps a list of strings. */
  function ReadStrings(v: Option<Value>): (r: Option<seq<string>>)
    ensures !Truthy(v) ==> r == Some([])
    ensures v.Some? && v.value.Strings? ==> r == Some(v.value.items)
  {
    match v
    case None => Some([])
    case Some(Text(s)) => if s == "" then Some([]) else None
    case Some(Strings(items)) => Some(items)
    case Some(_) => None
  }

  /** `test_${Date.now()}_${suffix}`: the clock reading and the random suffix are inputs. */
  function RunId(now: nat, suffix: string): (id: string)
    ensures StartsWith(id, "test_")
  {
    "test_" + Decimal(now) + "_" + suffix
  }

  /** A run id never collides with the fixed localStorage keys, so writing a record leaves
      the index, the key and the preferences alone. */
  lemma RunIdIsNotAFixedKey(now: nat, suffix: string)
    ensures RunId(now, suffix) != SavedTestsKey
    ensures RunId(now, suffix) != ApiKeyKey
    ensures RunId(now, suffix) != ThemeModeKey
    ensures RunId(now, suffix) != LegacyThemeKey
    ensures RunId(now, suffix) != Settings.SettingsStorageKey
  {
    var id := RunId(now, suffix);
    assert id[..5] == "test_";
    assert id[0] == 't' && id[1] == 'e' && id[2] == 's';
  }

  /** The two stores of one browser tab. */
  class Browser {
    var local: Store
    var session: Store

    constructor(local: Store, session: Store)
      ensures this.local == local && this.session == session
    {
      this.local := local;
      this.session := session;
    }
  }
}
