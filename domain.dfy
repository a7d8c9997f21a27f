/** The shared vocabulary of the wizard: the five test types (lib/testTypes.ts), the
    project categories with their readable labels (lib/questions.ts), and the test case
    record that the generation service returns. */
module Domain {
  import opened Wrappers

  datatype TestType = Unit | Integration | Feature | Performance | Manual {
    /** The enum's string value, as it appears in test cases and settings keys. */
    function Value(): string {
      match this
      case Unit => "unit"
      case Integration => "integration"
      case Feature => "feature"
      case Performance => "performance"
      case Manual => "manual"
    }
  }

  /** `TEST_TYPE_VALUES`, in declaration order. */
  const TestTypeValues: seq<TestType> := [Unit, Integration, Feature, Performance, Manual]

  /** `testTypeOptions`: the string values in the same order. */
  const TestTypeOptions: seq<string> := ["unit", "integration", "feature", "performance", "manual"]

  /** Reading a test type back from its string value. */
  function ParseTestType(s: string): (t: Option<TestType>)
    ensures t.Some? <==> s in TestTypeOptions
  {
    if s == "unit" then Some(Unit)
    else if s == "integration" then Some(Integration)
    else if s == "feature" then Some(Feature)
    else if s == "performance" then Some(Performance)
    else if s == "manual" then Some(Manual)
    else None
  }

  lemma TestTypeRoundTrip(t: TestType, s: string)
    ensures ParseTestType(t.Value()) == Some(t)
    ensures ParseTestType(s) == Some(t) ==> t.Value() == s
    ensures TestTypeOptions == seq(5, i requires 0 <= i < 5 => TestTypeValues[i].Value())
  {
  }

  /** `categoryDescriptions`: the readable label of each category key. */
  function CategoryDescription(key: string): Option<string> {
    if key == "backend-api" then Some("REST API Endpoint")
    else if key == "frontend-component" then Some("Frontend Component")
    else if key == "database" then Some("Database Operation")
    else if key == "library-function" then Some("Library Function")
    else if key == "integration" then Some("System Integration")
    else if key == "data-pipeline" then Some("Data Pipeline")
    else if key == "other" then Some("Other")
    else None
  }

  /** The keys of `categoryDescriptions`: the six classifier labels and "other". */
  const CategoryKeys: seq<string> :=
    ["backend-api", "frontend-component", "database", "library-function", "integration", "data-pipeline", "other"]

  lemma CategoryTableKeys(key: string)
    ensures CategoryDescription(key).Some? <==> key in CategoryKeys
    ensures CategoryDescription(key).Some? ==> CategoryDescription(key).value != ""
  {
  }

  /** A generated test case. `testType` and `priority` are kept as the strings the service
      sent, since nothing checks them against the enums before they are filtered or shown. */
  datatype TestCase = TestCase(
    testType: string,
    category: string,
    testName: string,
    description: string,
    givenContext: string,
    testSteps: seq<string>,
    expectedOutcome: string,
    notes: Option<string>,
    setupRequired: Option<string>,
    teardownRequired: Option<string>,
    priority: string)
}
