/** lib/testCaseUtils.ts: dropping the test cases whose type the settings disable. */
module TestCaseUtils {
  import opened Seqs
  import opened Domain
  import Settings

  /** The keys whose flag is `true` (`Object.entries(...).filter(([, d]) => d)`). */
  function DisabledTypes(flags: Settings.Flags): set<string> {
    set k | k in flags && flags[k]
  }

  function NotDisabled(disabled: set<string>): TestCase -> bool {
    (tc: TestCase) => tc.testType !in disabled
  }

  function IsDisabled(disabled: set<string>): TestCase -> bool {
    (tc: TestCase) => tc.testType in disabled
  }

  function OfType(t: string): TestCase -> bool {
    (tc: TestCase) => tc.testType == t
  }

  /** `filterTestCasesBySettings`: the input itself when nothing is disabled, otherwise the
      cases whose `testType` is not among the disabled types. */
  function FilterBySettings(cases: seq<TestCase>, settings: Settings.Settings): seq<TestCase> {
    var disabled := DisabledTypes(settings.disabledTestTypes);
    if disabled == {} then cases else Filter(cases, NotDisabled(disabled))
  }

  /** Both branches of the filter are one filter: an order-preserving subsequence that keeps a
      case exactly when its type is not disabled; with nothing disabled it is the identity. */
  lemma FilterBySettingsSpec(cases: seq<TestCase>, settings: Settings.Settings)
    ensures var disabled := DisabledTypes(settings.disabledTestTypes);
      var r := FilterBySettings(cases, settings);
      && r == Filter(cases, NotDisabled(disabled))
      && IsSubsequence(r, cases)
      && (forall tc :: tc in r <==> tc in cases && tc.testType !in disabled)
      && (disabled == {} ==> r == cases)
  {
    var disabled := DisabledTypes(settings.disabledTestTypes);
    if disabled == {} {
      FilterKeepsAll(cases, NotDisabled(disabled));
    }
    FilterIsSubsequence(cases, NotDisabled(disabled));
  }

  /** A type whose flag is `false`, or that has no flag, is never filtered out. */
  lemma UnflaggedTypeIsKept(cases: seq<TestCase>, settings: Settings.Settings, i: nat)
    requires i < |cases|
    requires var f := settings.disabledTestTypes; cases[i].testType in f ==> !f[cases[i].testType]
    ensures cases[i] in FilterBySettings(cases, settings)
  {
    FilterBySettingsSpec(cases, settings);
  }

  lemma FilterBySettingsIdempotent(cases: seq<TestCase>, settings: Settings.Settings)
    ensures FilterBySettings(FilterBySettings(cases, settings), settings) == FilterBySettings(cases, settings)
  {
    var disabled := DisabledTypes(settings.disabledTestTypes);
    if disabled != {} {
      FilterIdempotent(cases, NotDisabled(disabled));
    }
  }

  /** The output is shorter than the input by exactly the number of disabled-type cases. */
  lemma FilteredLength(cases: seq<TestCase>, settings: Settings.Settings)
    ensures var disabled := DisabledTypes(settings.disabledTestTypes);
      |FilterBySettings(cases, settings)| == |cases| - |Filter(cases, IsDisabled(disabled))|
  {
    var disabled := DisabledTypes(settings.disabledTestTypes);
    FilterBySettingsSpec(cases, settings);
    FilterComplementLength(cases, NotDisabled(disabled), IsDisabled(disabled));
  }

  /** With a single disabled type `t`, the output loses exactly the cases of type `t`
      (fourteen cases of which three are manual, with manual disabled, leave eleven). */
  lemma SingleDisabledTypeLength(cases: seq<TestCase>, settings: Settings.Settings, t: string)
    requires DisabledTypes(settings.disabledTestTypes) == {t}
    ensures |FilterBySettings(cases, settings)| == |cases| - |Filter(cases, OfType(t))|
  {
    FilterBySettingsSpec(cases, settings);
    FilterComplementLength(cases, NotDisabled({t}), OfType(t));
  }
}
