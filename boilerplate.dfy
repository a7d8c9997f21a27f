/** components/BoilerplateModal.tsx: the eight framework templates, which frameworks the
    modal offers, which one it shows, and how many test cases it renders. */
module Boilerplate {
  import opened Wrappers
  import opened Text
  import opened Seqs
  import Domain
  import Settings

  datatype Framework = Vitest | Jest | Pytest | Unittest | JUnit | PHPUnit | RSpec | Mocha {
    /** The framework's key in the registry and in the settings' flag map. */
    function Key(): string {
      match this
      case Vitest => "vitest"
      case Jest => "jest"
      case Pytest => "pytest"
      case Unittest => "unittest"
      case JUnit => "junit"
      case PHPUnit => "phpunit"
      case RSpec => "rspec"
      case Mocha => "mocha"
    }
  }

  /** The registry in declaration order, which is the order the modal lists them. */
  const Registry: seq<Framework> := [Vitest, Jest, Pytest, Unittest, JUnit, PHPUnit, RSpec, Mocha]

  /** Where a framework sits in the registry. */
  function Position(f: Framework): (i: nat)
    ensures i < |Registry| && Registry[i] == f
  {
    match f
    case Vitest => 0
    case Jest => 1
    case Pytest => 2
    case Unittest => 3
    case JUnit => 4
    case PHPUnit => 5
    case RSpec => 6
    case Mocha => 7
  }

  /** The registry holds every framework once, under the keys the settings know, in the
      settings' order. */
  lemma RegistryMatchesSettings()
    ensures |Registry| == |Settings.BoilerplateOptions|
    ensures forall i :: 0 <= i < |Registry| ==> Registry[i].Key() == Settings.BoilerplateOptions[i]
    ensures forall f: Framework :: f in Registry
    ensures forall i, j :: 0 <= i < j < |Registry| ==> Registry[i] != Registry[j]
  {
    forall f: Framework ensures f in Registry {
      assert Registry[Position(f)] == f;
    }
  }

  /** `frameworks[key]`: the framework registered under a key, if any. */
  function FromKey(key: string): (f: Option<Framework>)
    ensures f.Some? <==> key in Settings.BoilerplateOptions
    ensures f.Some? ==> f.value.Key() == key
  {
    if key == "vitest" then Some(Vitest)
    else if key == "jest" then Some(Jest)
    else if key == "pytest" then Some(Pytest)
    else if key == "unittest" then Some(Unittest)
    else if key == "junit" then Some(JUnit)
    else if key == "phpunit" then Some(PHPUnit)
    else if key == "rspec" then Some(RSpec)
    else if key == "mocha" then Some(Mocha)
    else None
  }

  lemma KeyRoundTrip(f: Framework)
    ensures FromKey(f.Key()) == Some(f)
  {
  }

  /** What the modal shows about a framework and the file it offers for download. */
  datatype FrameworkInfo = FrameworkInfo(
    title: string, description: string, filename: string, extension: string, language: string)

  function Info(f: Framework): FrameworkInfo {
    match f
    case Vitest => FrameworkInfo("Vitest",
      "Fast unit test framework built on Vite. Perfect for modern JavaScript and TypeScript projects.",
      "test.test.ts", ".ts", "typescript")
    case Jest => FrameworkInfo("Jest",
      "Widely used JavaScript testing framework with great documentation and extensive ecosystem.",
      "test.test.js", ".js", "javascript")
    case Pytest => FrameworkInfo("Pytest",
      "Popular Python testing framework. Simple syntax and powerful features for test discovery.",
      "test_main.py", ".py", "python")
    case Unittest => FrameworkInfo("Unittest",
      "Python's built-in testing framework. No installation required, part of standard library.",
      "test_main.py", ".py", "python")
    case JUnit => FrameworkInfo("JUnit",
      "Java testing framework. Industry standard for Java development.",
      "MainTest.java", ".java", "java")
    case PHPUnit => FrameworkInfo("PHPUnit",
      "PHP testing framework. Comprehensive assertion library and mocking support.",
      "MainTest.php", ".php", "php")
    case RSpec => FrameworkInfo("RSpec",
      "Ruby testing framework. Behavior-driven development focused.",
      "main_spec.rb", ".rb", "ruby")
    case Mocha => FrameworkInfo("Mocha",
      "Flexible JavaScript test framework. Great for both unit and integration testing.",
      "test.test.js", ".js", "javascript")
  }

  // ---------------------------------------------------------------------------------------
  // The pattern `/\\s+/g` of the name transforms. In a regular-expression literal `\\` is a
  // literal backslash, so the pattern matches a backslash followed by one or more letters
  // `s`; it does not match white space.

  /** `s` without its leading letters `s`. */
  function DropLeadingS(s: string): (r: string)
    ensures |r| <= |s| && r == s[|s| - |r|..]
    ensures r == [] || r[0] != 's'
    ensures forall i :: 0 <= i < |s| - |r| ==> s[i] == 's'
  {
    if s != [] && s[0] == 's' then DropLeadingS(s[1..]) else s
  }

  /** An occurrence of the pattern starts at `i`. */
  predicate RunAt(s: string, i: int) {
    0 <= i && i + 1 < |s| && s[i] == '\\' && s[i + 1] == 's'
  }

  predicate HasRun(s: string) {
    exists i | 0 <= i < |s| :: RunAt(s, i)
  }

  /** `s.replace(/\\s+/g, repl)`: scanning left to right, each backslash followed by a run
      of letters `s` is replaced, run and all, by `repl`. */
  function ReplaceRuns(s: string, repl: string): string
    decreases |s|
  {
    if s == [] then []
    else if RunAt(s, 0) then repl + ReplaceRuns(DropLeadingS(s[1..]), repl)
    else [s[0]] + ReplaceRuns(s[1..], repl)
  }

  /** Text in which the pattern does not occur is left as it is. */
  lemma {:induction false} ReplaceRunsWithoutRun(s: string, repl: string)
    requires !HasRun(s)
    ensures ReplaceRuns(s, repl) == s
  {
    if s != [] {
      assert !RunAt(s, 0);
      assert !HasRun(s[1..]) by {
        forall i | 0 <= i < |s[1..]| ensures !RunAt(s[1..], i) {
          assert !RunAt(s, i + 1);
        }
      }
      ReplaceRunsWithoutRun(s[1..], repl);
    }
  }

  /** A replacement that holds no backslash and does not start with `s` cannot start the
      output with `s` unless the input did. */
  lemma {:induction false} ReplaceRunsHead(s: string, repl: string)
    requires '\\' !in repl && (repl == [] || repl[0] != 's')
    requires s != [] && s[0] != 's'
    ensures ReplaceRuns(s, repl) == [] || ReplaceRuns(s, repl)[0] != 's'
    decreases |s|
  {
    if RunAt(s, 0) && repl == [] {
      var rest := DropLeadingS(s[1..]);
      if rest != [] {
        ReplaceRunsHead(rest, repl);
      }
    }
  }

  /** Two texts free of the pattern stay free of it when joined, unless the first ends with
      a backslash and the second starts with `s`. */
  lemma NoRunInConcat(a: string, b: string)
    requires !HasRun(a) && !HasRun(b)
    requires a == [] || b == [] || !(a[|a| - 1] == '\\' && b[0] == 's')
    ensures !HasRun(a + b)
  {
    var ab := a + b;
    forall i | 0 <= i < |ab| ensures !RunAt(ab, i) {
      if i + 1 < |a| {
        assert !RunAt(a, i);
      } else if i >= |a| && i + 1 < |ab| {
        assert !RunAt(b, i - |a|);
      }
    }
  }

  /** With such a replacement, no occurrence of the pattern is left in the output. */
  lemma {:induction false} ReplaceRunsLeavesNoRun(s: string, repl: string)
    requires '\\' !in repl && (repl == [] || repl[0] != 's')
    ensures !HasRun(ReplaceRuns(s, repl))
    decreases |s|
  {
    if s == [] {
      return;
    }
    if RunAt(s, 0) {
      var t := DropLeadingS(s[1..]);
      ReplaceRunsLeavesNoRun(t, repl);
      assert !HasRun(repl) by {
        forall i | 0 <= i < |repl| ensures !RunAt(repl, i) {
          assert repl[i] != '\\';
        }
      }
      NoRunInConcat(repl, ReplaceRuns(t, repl));
    } else {
      ReplaceRunsLeavesNoRun(s[1..], repl);
      if s[0] == '\\' && |s| > 1 {
        ReplaceRunsHead(s[1..], repl);
      }
      NoRunInConcat([s[0]], ReplaceRuns(s[1..], repl));
    }
  }

  /** The transforms the generators use are idempotent. */
  lemma ReplaceRunsIdempotent(s: string, repl: string)
    requires repl == "" || repl == "_"
    ensures ReplaceRuns(ReplaceRuns(s, repl), repl) == ReplaceRuns(s, repl)
  {
    ReplaceRunsLeavesNoRun(s, repl);
    ReplaceRunsWithoutRun(ReplaceRuns(s, repl), repl);
  }

  // ---------------------------------------------------------------------------------------
  // Test names as each language spells them.

  /** Pytest and unittest: lower-cased, pattern occurrences replaced by `_`. */
  function PythonName(testName: string): string {
    ReplaceRuns(Lower(testName), "_")
  }

  /** JUnit: the first character lower-cased (nothing for an empty name), the pattern
      removed from the rest. */
  function JavaName(testName: string): string {
    if testName == [] then [] else [LowerChar(testName[0])] + ReplaceRuns(testName[1..], "")
  }

  /** PHPUnit: `test` followed by the name with the pattern removed. */
  function PhpName(testName: string): string {
    "test" + ReplaceRuns(testName, "")
  }

  /** A name with no backslash in it keeps all its characters, white space included:
      Python names are only lower-cased, the Java name only has its first letter lowered,
      and the PHP name is the name itself. */
  lemma NamesWithoutBackslash(testName: string)
    requires '\\' !in testName
    ensures PythonName(testName) == Lower(testName)
    ensures testName != [] ==> JavaName(testName) == [LowerChar(testName[0])] + testName[1..]
    ensures PhpName(testName) == "test" + testName
  {
    var lowered := Lower(testName);
    assert !HasRun(lowered) by {
      forall i | 0 <= i < |lowered| ensures !RunAt(lowered, i) {
        assert lowered[i] == LowerChar(testName[i]);
      }
    }
    ReplaceRunsWithoutRun(lowered, "_");
    assert !HasRun(testName) by {
      forall i | 0 <= i < |testName| ensures !RunAt(testName, i) {
        assert testName[i] != '\\';
      }
    }
    ReplaceRunsWithoutRun(testName, "");
    if testName != [] {
      assert !HasRun(testName[1..]) by {
        forall i | 0 <= i < |testName[1..]| ensures !RunAt(testName[1..], i) {
          assert testName[1..][i] == testName[i + 1];
        }
      }
      ReplaceRunsWithoutRun(testName[1..], "");
    }
  }

  /** The pattern does not match white space: "Log in" becomes the Python name "log in",
      space included. */
  lemma WhiteSpaceSurvivesInNames()
    ensures PythonName("Log in") == "log in"
    ensures PhpName("Log in") == "testLog in"
  {
    var name := "Log in";
    assert '\\' !in name;
    NamesWithoutBackslash(name);
    var lowered := Lower(name);
    assert lowered[0] == 'l' && lowered[1] == 'o' && lowered[2] == 'g' && lowered[3] == ' ';
    assert lowered == "log in";
  }

  // ---------------------------------------------------------------------------------------
  // The templates.

  /** One test per case. */
  function Stub(f: Framework, tc: Domain.TestCase): string {
    match f
    case Vitest =>
      "  it('" + tc.testName + "', () => {\n    // " + tc.description + "\n    // " + tc.givenContext
      + "\n    expect(true).toBe(true)\n  })"
    case Jest =>
      "  test('" + tc.testName + "', () => {\n    // " + tc.description + "\n    expect(true).toBe(true)\n  })"
    case Pytest =>
      "def test_" + PythonName(tc.testName) + "():\n    # " + tc.description + "\n    assert True"
    case Unittest =>
      "    def test_" + PythonName(tc.testName) + "(self):\n        \"\"\"" + tc.description
      + "\"\"\"\n        self.assertTrue(True)"
    case JUnit =>
      "    @Test\n    public void " + JavaName(tc.testName) + "() {\n        // " + tc.description
      + "\n        assertTrue(true);\n    }"
    case PHPUnit =>
      "    public function " + PhpName(tc.testName) + "()\n    {\n        // " + tc.description
      + "\n        $this->assertTrue(true);\n    }"
    case RSpec =>
      "  it '" + tc.testName + "' do\n    # " + tc.description + "\n    expect(true).to eq(true)\n  end"
    case Mocha =>
      "  it('" + tc.testName + "', () => {\n    // " + tc.description + "\n    expect(true).to.equal(true)\n  })"
  }

  const VitestHeader: string :=
    "import { describe, it, expect, beforeEach, afterEach } from 'vitest'\n\n" + JestHeader

  const JestHeader: string :=
    "describe('Generated Tests', () => {\n  beforeEach(() => {\n    // Setup: Initialize test data\n  })\n\n"
    + "  afterEach(() => {\n    // Teardown: Clean up test data\n  })\n\n"

  const PytestHeader: string :=
    "import pytest\n\nclass TestGenerated:\n    @pytest.fixture\n    def setup(self):\n"
    + "        # Setup test data\n        yield\n        # Cleanup\n\n"

  const UnittestHeader: string :=
    "import unittest\n\nclass TestGenerated(unittest.TestCase):\n    def setUp(self):\n"
    + "        # Setup test data\n        pass\n\n    def tearDown(self):\n        # Cleanup\n        pass\n\n"

  const JUnitHeader: string :=
    "import org.junit.jupiter.api.BeforeEach;\nimport org.junit.jupiter.api.AfterEach;\n"
    + "import org.junit.jupiter.api.Test;\nimport static org.junit.jupiter.api.Assertions.*;\n\n"
    + "public class GeneratedTests {\n    @BeforeEach\n    void setUp() {\n        // Setup test data\n    }\n\n"
    + "    @AfterEach\n    void tearDown() {\n        // Cleanup\n    }\n\n"

  const PHPUnitHeader: string :=
    "<?php\n\nnamespace Tests;\n\nuse PHPUnit\\Framework\\TestCase;\n\n"
    + "class GeneratedTests extends TestCase\n{\n    protected function setUp(): void\n    {\n"
    + "        // Setup test data\n        parent::setUp();\n    }\n\n"
    + "    protected function tearDown(): void\n    {\n        // Cleanup\n        parent::tearDown();\n    }\n\n"

  const RSpecHeader: string :=
    "describe 'Generated Tests' do\n  before(:each) do\n    # Setup test data\n  end\n\n"
    + "  after(:each) do\n    # Cleanup\n  end\n\n"

  const MochaHeader: string :=
    "const { expect } = require('chai')\n\ndescribe('Generated Tests', () => {\n  beforeEach(() => {\n"
    + "    // Setup test data\n  })\n\n  afterEach(() => {\n    // Cleanup test data\n  })\n\n"

  /** The fixed text before the tests. */
  function Header(f: Framework): string {
    match f
    case Vitest => VitestHeader
    case Jest => JestHeader
    case Pytest => PytestHeader
    case Unittest => UnittestHeader
    case JUnit => JUnitHeader
    case PHPUnit => PHPUnitHeader
    case RSpec => RSpecHeader
    case Mocha => MochaHeader
  }

  /** The fixed text after the tests. */
  function Footer(f: Framework): string {
    match f
    case Vitest => "\n})"
    case Jest => "\n})"
    case Pytest => ""
    case Unittest => "\n\nif __name__ == '__main__':\n    unittest.main()"
    case JUnit => "\n}"
    case PHPUnit => "\n}"
    case RSpec => "\nend"
    case Mocha => "\n})"
  }

  /** `s.slice(0, n)`: a negative end counts from the back. */
  function SliceTo<T>(s: seq<T>, n: int): (r: seq<T>)
    ensures |r| <= |s| && r == s[..|r|]
    ensures 0 <= n ==> |r| == if n < |s| then n else |s|
    ensures n < 0 ==> |r| == if |s| + n < 0 then 0 else |s| + n
  {
    if 0 <= n then (if n < |s| then s[..n] else s)
    else if |s| + n < 0 then [] else s[..|s| + n]
  }

  /** The rendered tests: one per case of the sample, in order. */
  function Stubs(f: Framework, cases: seq<Domain.TestCase>, sampleSize: int): (stubs: seq<string>)
    ensures |stubs| == |SliceTo(cases, sampleSize)|
    ensures forall i :: 0 <= i < |stubs| ==> stubs[i] == Stub(f, cases[i])
  {
    var sample := SliceTo(cases, sampleSize);
    seq(|sample|, i requires 0 <= i < |sample| => Stub(f, sample[i]))
  }

  /** `framework.generateCode(testCases, sampleSize)`. */
  function GenerateCode(f: Framework, cases: seq<Domain.TestCase>, sampleSize: int): string {
    Header(f) + Join(Stubs(f, cases, sampleSize), "\n\n") + Footer(f)
  }

  /** A sample size of n renders min(n, |cases|) tests, from the first cases in order, and
      each of them occurs in the output. */
  lemma {:induction false} GenerateCodeRendersSample(f: Framework, cases: seq<Domain.TestCase>, sampleSize: nat)
    ensures var stubs := Stubs(f, cases, sampleSize);
      |stubs| == (if sampleSize < |cases| then sampleSize else |cases|)
      && forall i :: 0 <= i < |stubs| ==> IsInfix(Stub(f, cases[i]), GenerateCode(f, cases, sampleSize))
  {
    var stubs := Stubs(f, cases, sampleSize);
    var body := Join(stubs, "\n\n");
    forall i | 0 <= i < |stubs| ensures IsInfix(Stub(f, cases[i]), GenerateCode(f, cases, sampleSize)) {
      JoinContainsParts(stubs, "\n\n", i);
      InfixOfConcat(Header(f), body, Footer(f));
      InfixTransitive(stubs[i], body, GenerateCode(f, cases, sampleSize));
    }
  }

  /** Every stub carries its case's description, and the Vitest stub its given context too. */
  lemma StubMentionsCase(f: Framework, tc: Domain.TestCase)
    ensures IsInfix(tc.description, Stub(f, tc))
    ensures f == Vitest ==> IsInfix(tc.givenContext, Stub(f, tc))
  {
    var s := Stub(f, tc);
    match f
    case Vitest =>
      var a := "  it('" + tc.testName + "', () => {\n    // ";
      var b := "\n    // " + tc.givenContext + "\n    expect(true).toBe(true)\n  })";
      assert s == a + tc.description + b;
      InfixOfConcat(a, tc.description, b);
      var c := a + tc.description + "\n    // ";
      var d := "\n    expect(true).toBe(true)\n  })";
      assert s == c + tc.givenContext + d;
      InfixOfConcat(c, tc.givenContext, d);
    case Jest =>
      var a := "  test('" + tc.testName + "', () => {\n    // ";
      var b := "\n    expect(true).toBe(true)\n  })";
      assert s == a + tc.description + b;
      InfixOfConcat(a, tc.description, b);
    case Pytest =>
      var a := "def test_" + PythonName(tc.testName) + "():\n    # ";
      var b := "\n    assert True";
      assert s == a + tc.description + b;
      InfixOfConcat(a, tc.description, b);
    case Unittest =>
      var a := "    def test_" + PythonName(tc.testName) + "(self):\n        \"\"\"";
      var b := "\"\"\"\n        self.assertTrue(True)";
      assert s == a + tc.description + b;
      InfixOfConcat(a, tc.description, b);
    case JUnit =>
      var a := "    @Test\n    public void " + JavaName(tc.testName) + "() {\n        // ";
      var b := "\n        assertTrue(true);\n    }";
      assert s == a + tc.description + b;
      InfixOfConcat(a, tc.description, b);
    case PHPUnit =>
      var a := "    public function " + PhpName(tc.testName) + "()\n    {\n        // ";
      var b := "\n        $this->assertTrue(true);\n    }";
      assert s == a + tc.description + b;
      InfixOfConcat(a, tc.description, b);
    case RSpec =>
      var a := "  it '" + tc.testName + "' do\n    # ";
      var b := "\n    expect(true).to eq(true)\n  end";
      assert s == a + tc.description + b;
      InfixOfConcat(a, tc.description, b);
    case Mocha =>
      var a := "  it('" + tc.testName + "', () => {\n    // ";
      var b := "\n    expect(true).to.equal(true)\n  })";
      assert s == a + tc.description + b;
      InfixOfConcat(a, tc.description, b);
  }

  /** The output names the description of every case in the sample. */
  lemma GenerateCodeMentionsSample(f: Framework, cases: seq<Domain.TestCase>, sampleSize: nat, i: nat)
    requires i < sampleSize && i < |cases|
    ensures IsInfix(cases[i].description, GenerateCode(f, cases, sampleSize))
  {
    GenerateCodeRendersSample(f, cases, sampleSize);
    StubMentionsCase(f, cases[i]);
    InfixTransitive(cases[i].description, Stub(f, cases[i]), GenerateCode(f, cases, sampleSize));
  }

  /** With nothing to render, the output is the header followed by the footer. */
  lemma EmptySampleIsFrame(f: Framework, cases: seq<Domain.TestCase>, sampleSize: int)
    requires cases == [] || sampleSize == 0
    ensures GenerateCode(f, cases, sampleSize) == Header(f) + Footer(f)
  {
    var stubs := Stubs(f, cases, sampleSize);
    assert |stubs| == 0;
    assert Join(stubs, "\n\n") == "";
    var h, t := Header(f), Footer(f);
    assert GenerateCode(f, cases, sampleSize) == h + "" + t;
  }

  /** Two rendered tests are separated by one blank line. */
  lemma TwoCasesLayout(f: Framework, first: Domain.TestCase, second: Domain.TestCase, sampleSize: int)
    requires sampleSize >= 2
    ensures GenerateCode(f, [first, second], sampleSize)
      == Header(f) + Stub(f, first) + "\n\n" + Stub(f, second) + Footer(f)
  {
    var a, b := Stub(f, first), Stub(f, second);
    assert Stubs(f, [first, second], sampleSize) == [a, b];
    JoinTwoBetween(Header(f), a, b, Footer(f), "\n\n");
  }

  /** Cases beyond the sample do not affect the output. */
  lemma OnlySampleMatters(f: Framework, cases: seq<Domain.TestCase>, sampleSize: nat)
    requires sampleSize <= |cases|
    ensures GenerateCode(f, cases, sampleSize) == GenerateCode(f, cases[..sampleSize], sampleSize)
  {
    assert Stubs(f, cases, sampleSize) == Stubs(f, cases[..sampleSize], sampleSize);
  }

  // ---------------------------------------------------------------------------------------
  // The modal.

  /** `desiredSampleSize`: the setting, at least 1, and no more than the number of cases
      (but at least 1 even when there are none). */
  function DesiredSampleSize(setting: int, caseCount: nat): (n: int)
    ensures 1 <= n
    ensures n <= setting || n == 1
    ensures n <= caseCount || n == 1
    ensures n == setting || n == caseCount || n == 1
  {
    var wanted := if setting < 1 then 1 else setting;
    var cap := if caseCount < 1 then 1 else caseCount;
    if wanted < cap then wanted else cap
  }

  /** The modal renders min(setting, |cases|) tests for a setting in [1, 5] (so at least one
      whenever there is a case), and a non-empty list never renders as the bare frame. */
  lemma DesiredSampleRendersSome(f: Framework, cases: seq<Domain.TestCase>, setting: int)
    requires 1 <= setting <= 5
    ensures var n := |Stubs(f, cases, DesiredSampleSize(setting, |cases|))|;
      n == (if setting < |cases| then setting else |cases|)
      && (cases != [] ==> n >= 1)
  {
  }

  /** The framework is offered unless its flag is set. */
  function Offered(disabled: Settings.Flags): Framework -> bool {
    (f: Framework) => !(f.Key() in disabled && disabled[f.Key()])
  }

  /** `availableFrameworks`: the registry, in order, without the disabled frameworks. */
  function AvailableFrameworks(disabled: Settings.Flags): (available: seq<Framework>) {
    Filter(Registry, Offered(disabled))
  }

  lemma AvailableFrameworksSpec(disabled: Settings.Flags)
    ensures var available := AvailableFrameworks(disabled);
      && IsSubsequence(available, Registry)
      && (forall f :: f in available <==> !(f.Key() in disabled && disabled[f.Key()]))
      && ((forall k :: k in disabled ==> !disabled[k]) ==> available == Registry)
  {
    var available := AvailableFrameworks(disabled);
    assert IsSubsequence(available, Registry) by {
      FilterIsSubsequence(Registry, Offered(disabled));
    }
    forall f ensures f in available <==> Offered(disabled)(f) {
      FilterMembers(Registry, Offered(disabled));
      assert Registry[Position(f)] == f;
    }
    if forall k :: k in disabled ==> !disabled[k] {
      FilterKeepsAll(Registry, Offered(disabled));
    }
  }

  /** Some framework is offered exactly when some key of the settings' list is not flagged. */
  lemma SomeOfferedIffSomeKeyUnflagged(disabled: Settings.Flags)
    ensures AvailableFrameworks(disabled) != []
      <==> exists i | 0 <= i < |Settings.BoilerplateOptions| ::
             !(Settings.BoilerplateOptions[i] in disabled && disabled[Settings.BoilerplateOptions[i]])
  {
    RegistryMatchesSettings();
    AvailableFrameworksSpec(disabled);
    var available := AvailableFrameworks(disabled);
    var options := Settings.BoilerplateOptions;
    if i :| 0 <= i < |options| && !(options[i] in disabled && disabled[options[i]]) {
      assert Registry[i].Key() == Settings.BoilerplateOptions[i];
      assert Registry[i] in available;
    }
    if available != [] {
      var f := available[0];
      var j := Position(f);
      assert Settings.BoilerplateOptions[j] == f.Key();
    }
  }

  /** Whether a key names one of the available frameworks. */
  predicate IsAvailableKey(key: string, available: seq<Framework>) {
    exists i | 0 <= i < |available| :: available[i].Key() == key
  }

  /** The selection once the effect has run: nothing when no framework is offered, the
      current one when it is still offered, otherwise the first one offered. */
  function SettledSelection(selected: string, available: seq<Framework>): (r: string)
    ensures available == [] <==> r == ""
    ensures available != [] ==> IsAvailableKey(r, available)
    ensures IsAvailableKey(selected, available) ==> r == selected
  {
    if available == [] then ""
    else if IsAvailableKey(selected, available) then selected
    else available[0].Key()
  }

  /** The effect settles in one step: running it again changes nothing. */
  lemma SettledSelectionIsStable(selected: string, available: seq<Framework>)
    ensures SettledSelection(SettledSelection(selected, available), available)
      == SettledSelection(selected, available)
  {
  }

  /** `generatedCode` for a selection. */
  function CodeFor(selected: string, cases: seq<Domain.TestCase>, setting: int): string {
    match FromKey(selected)
    case None => "No template selected."
    case Some(f) => GenerateCode(f, cases, DesiredSampleSize(setting, |cases|))
  }

  /** Once settled, `generatedCode` is a template exactly when some framework is offered,
      and then the template of an offered framework; with none offered it is the placeholder
      text, which the modal never displays since it shows its "no templates" panel instead. */
  lemma SettledCode(selected: string, available: seq<Framework>, cases: seq<Domain.TestCase>, setting: int)
    ensures var key := SettledSelection(selected, available);
      && (available == [] ==> CodeFor(key, cases, setting) == "No template selected.")
      && (available != [] ==>
            && FromKey(key).Some? && FromKey(key).value in available
            && CodeFor(key, cases, setting) == GenerateCode(FromKey(key).value, cases, DesiredSampleSize(setting, |cases|)))
  {
    var key := SettledSelection(selected, available);
    if available != [] {
      var i :| 0 <= i < |available| && available[i].Key() == key;
      KeyRoundTrip(available[i]);
    }
  }

  class BoilerplateModal {
    /** `selectedFramework`. */
    var selected: string

    constructor()
      ensures selected == "vitest"
    {
      selected := "vitest";
    }

    /** A click on a framework's card. */
    method Select(f: Framework)
      modifies this
      ensures selected == f.Key()
    {
      selected := f.Key();
    }

    /** The selection effect, run against the current flags. */
    method Settle(disabled: Settings.Flags)
      modifies this
      ensures selected == SettledSelection(old(selected), AvailableFrameworks(disabled))
    {
      selected := SettledSelection(selected, AvailableFrameworks(disabled));
    }

    /** `generatedCode`. */
    function Code(cases: seq<Domain.TestCase>, setting: int): string
      reads this
    {
      CodeFor(selected, cases, setting)
    }
  }

  /** With no flag set, the selection effect keeps Vitest. */
  lemma DefaultFlagsKeepVitest(disabled: Settings.Flags)
    requires forall k :: k in disabled ==> !disabled[k]
    ensures SettledSelection("vitest", AvailableFrameworks(disabled)) == "vitest"
  {
    AvailableFrameworksSpec(disabled);
    assert IsAvailableKey("vitest", Registry) by {
      assert Registry[0].Key() == "vitest";
    }
  }

  /** With every framework disabled, the selection effect clears the selection. */
  lemma AllDisabledClearsSelection(disabled: Settings.Flags, selected: string)
    requires forall f: Framework :: f.Key() in disabled && disabled[f.Key()]
    ensures SettledSelection(selected, AvailableFrameworks(disabled)) == ""
  {
    AvailableFrameworksSpec(disabled);
  }

  /** Opening the modal: it starts on Vitest and settles; with the default flags
      `generatedCode` is the Vitest template, and with every framework disabled it is the
      placeholder text (the modal then shows its "no templates" panel, not the code). */
  method OpenModal(disabled: Settings.Flags, cases: seq<Domain.TestCase>, setting: int) returns (code: string)
    ensures (forall k :: k in disabled ==> !disabled[k])
      ==> code == GenerateCode(Vitest, cases, DesiredSampleSize(setting, |cases|))
    ensures (forall f: Framework :: f.Key() in disabled && disabled[f.Key()]) ==> code == "No template selected."
  {
    var modal := new BoilerplateModal();
    modal.Settle(disabled);
    code := modal.Code(cases, setting);
    if forall k :: k in disabled ==> !disabled[k] {
      DefaultFlagsKeepVitest(disabled);
      KeyRoundTrip(Vitest);
    }
    if forall f: Framework :: f.Key() in disabled && disabled[f.Key()] {
      AllDisabledClearsSelection(disabled, "vitest");
    }
  }
}
