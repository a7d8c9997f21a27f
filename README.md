# assertify.io wizard — a Dafny model

assertify.io is a Next.js wizard that turns a project description into test cases.

- **Start page.** The user stores an OpenAI key and describes the project. On "Next" the
  description is sent to the classifier route. The wizard's state goes into
  `sessionStorage`. Then either the questions page opens (manual context), or the
  generator is called straight away with ten automatically built context lines and the
  results page opens.
- **Questions page.** It asks the question route for up to ten clarifying questions. If
  that fails it falls back to a generic list. It sends the answers, followed by the
  requirements and the global default context, to the generator.
- **Results page.**
  - It shows the generated cases, filtered by type and priority.
  - It saves the run once into `localStorage` (a record under a fresh run id, plus an
    entry at the front of the `savedTests` index).
  - It exports the cases as CSV and opens the boilerplate modal, which renders sample test
    stubs for eight frameworks.
- **Saved runs.** The saved-runs list on the start page sorts the index newest first. It
  reopens a run into the session or deletes it.
- **Shared state.** The settings provider sanitises and persists the preferences (disabled
  test types and frameworks, sample size, default context). The theme provider cycles
  light / dark / system. The toast provider keeps the visible notifications.
- **Server routes.** Three routes validate their bodies, call the chat-completion service
  and normalise or recover its reply: `/api/classify`, `/api/generate-questions` and
  `/api/generate`.

One Dafny module models each source file, with the same name in the file name:

| File | Module | Source |
|---|---|---|
| `auto_context.dfy` | `AutoContext` | `lib/autoContext.ts` |
| `settings.dfy` | `Settings` | `lib/settings.ts` |
| `test_case_utils.dfy` | `TestCaseUtils` | `lib/testCaseUtils.ts` |
| `domain.dfy` | `Domain` | `lib/testTypes.ts`, `lib/questions.ts` |
| `boilerplate.dfy` | `Boilerplate` | `components/BoilerplateModal.tsx` |
| `results.dfy` | `Results` | `app/results/page.tsx` |
| `saved_tests.dfy` | `SavedTests` | `components/SavedTestsList.tsx` |
| `settings_provider.dfy` | `SettingsProvider` | `components/SettingsProvider.tsx` |
| `theme.dfy` | `Theme` | `components/ThemeProvider.tsx` |
| `toast.dfy` | `Toast` | `components/ToastProvider.tsx` |
| `api_classify.dfy` | `ApiClassify` | `app/api/classify/route.ts` |
| `api_generate_questions.dfy` | `ApiGenerateQuestions` | `app/api/generate-questions/route.ts` |
| `api_generate.dfy` | `ApiGenerate` | `app/api/generate/route.ts` |
| `home.dfy` | `Home` | `app/page.tsx` |
| `questions.dfy` | `Questions` | `app/questions/page.tsx` |

Supporting modules:

- `Wrappers`: `Option`.
- `Text`: the string built-ins the code relies on, such as `trim`, `toLowerCase` and `join`.
- `Seqs`: `Array.prototype.filter` and its laws.
- `Storage`: the two browser stores, as typed maps held by a `Browser` object.
- `Api`: request and response shapes.

Pure code is modelled as functions with lemmas. Code that changes component state or
browser storage is modelled as classes. Their methods are proved against the specification
functions. For example:

- `Home.HomePage.HandleNext` is proved against `Home.Next`.
- `Results.ResultsPage.Mount` is proved against `Results.SaveEffect`.
- `SavedTests.SavedTestsList.LoadSavedTests` sorts an array in place with an insertion sort.
  It is proved to give `SavedTests.NewestFirst` of the index.

The framework stubs transform test names with the pattern `/\\s+/g`. The model follows that
pattern as written: it matches a backslash followed by a run of `s` characters, not white
space. So names keep their spaces (`Boilerplate.WhiteSpaceSurvivesInNames`).

## Model

| member | source | states |
|---|---|---|
| Api.ContentOr | app/api/classify/route.ts:45 | `content \|\| fallback`: a present non-empty reply is kept, a null or empty one gives the fallback |
| Api.FromException | app/api/classify/route.ts:52-63 | the shared catch block always fails; the status is 401 exactly when the exception's status is 401, otherwise 500 with the route's failure text and the exception message as details |
| ApiClassify.NormalizeCategory | app/api/classify/route.ts:45-49 | the output is always one of the six labels or "other"; it is the trimmed, lower-cased reply when that is a label and "other" otherwise |
| ApiClassify.EmptyReplyIsOther | app/api/classify/route.ts:45 | a missing or empty reply normalises to "other" |
| ApiClassify.LabelsAreFixedPoints | app/api/classify/route.ts:45-49 | a label (or "other") padded with white space on either side normalises to itself, so normalising a route output again changes nothing |
| ApiClassify.LabelSpelling | app/api/classify/route.ts:20-27 | every label is a non-empty word of lower-case letters and dashes |
| ApiClassify.PaddedTrim | app/api/classify/route.ts:45 | `trim` removes exactly the white-space padding around a word whose ends are not white space |
| ApiClassify.Classify | app/api/classify/route.ts:4-64 | a missing description gives 400 "Project description required", checked before the key; a missing key then gives 400 "API key required"; a success body is a label or "other" |
| ApiClassify.ValidationPrecedesService | app/api/classify/route.ts:8-14 | a body failing validation is answered 400 whatever the service would have said |
| ApiClassify.ClassifyOutcomes | app/api/classify/route.ts:45-62 | with a valid body: a reply gives the normalised label, an upstream 401 gives 401 "Unauthorized: Invalid API key", any other exception gives 500 "Classification failed" with the message |
| ApiGenerate.NumberedLines | app/api/generate/route.ts:26 | one line per answer, line i being "<i+1>. <answer i>" |
| ApiGenerate.NumberedAnswersLines | app/api/generate/route.ts:26 | splitting the listing at line breaks gives back exactly one numbered line per answer, in order, when no answer contains a line break |
| ApiGenerate.PromptListsAnswers | app/api/generate/route.ts:20-53 | the prompt contains the numbered listing verbatim |
| ApiGenerate.FirstIndexFrom | app/api/generate/route.ts:77 | the first position at or after k holding the character, or none when there is none |
| ApiGenerate.LastIndexBefore | app/api/generate/route.ts:77 | the last position before n holding the character, or none when there is none |
| ApiGenerate.ExtractJsonObject | app/api/generate/route.ts:77-82 | the greedy `/\{[\s\S]*\}/` match: present exactly when some `{` precedes some `}`; it starts with `{`, ends with `}`, and no `{` lies before it and no `}` after it |
| ApiGenerate.ExtractFromWrappedObject | app/api/generate/route.ts:77-79 | an object surrounded by prose with no `{` before and no `}` after is recovered exactly |
| ApiGenerate.Generate | app/api/generate/route.ts:4-98 | a missing description, category or answers list gives 400 "Missing required fields", checked before the key; a missing key then gives 400 "API key required" |
| ApiGenerate.GenerateOutcomes | app/api/generate/route.ts:71-96 | with a valid body: a reply that parses whole is returned unchanged; an empty reply is read as "{}"; an unparsable reply is retried on the extracted object; with nothing to extract the answer is 500 "Test case generation failed" with "Invalid JSON response" as its details; an exception is 401 exactly when upstream said 401 |
| ApiGenerate.EmptyAnswersAreAccepted | app/api/generate/route.ts:8 | an empty answers array is truthy and passes validation; only a missing one is refused |
| ApiGenerateQuestions.FirstTen | app/api/generate-questions/route.ts:69 | `slice(0, 10)`: the first min(10, n) questions, as a prefix of the input |
| ApiGenerateQuestions.GenerateQuestions | app/api/generate-questions/route.ts:4-99 | a missing description or category gives 400, checked before the missing-key 400; a success holds at most ten questions |
| ApiGenerateQuestions.ArrayReplyIsTruncated | app/api/generate-questions/route.ts:64-69 | a reply parsing to an array yields its first min(10, n) items in order, never padded |
| ApiGenerateQuestions.UnreadableReplyFallsBack | app/api/generate-questions/route.ts:70-84 | a reply that does not parse, or parses to a non-array, yields the ten fixed fallback questions |
| ApiGenerateQuestions.EmptyReplyGivesNoQuestions | app/api/generate-questions/route.ts:61-69 | an empty reply is read as "[]" and yields no questions rather than the fallback list |
| ApiGenerateQuestions.ServiceFailure | app/api/generate-questions/route.ts:87-97 | an upstream 401 gives 401; any other exception gives 500 "Failed to generate questions" with the message |
| AutoContext.CategoryHints | lib/autoContext.ts:3-46 | the hint table has an entry exactly for the six labels and "other", each of four hints |
| AutoContext.HintsFor | lib/autoContext.ts:63-80 | the hints of the normalised category: always four lines |
| AutoContext.ContextLine | lib/autoContext.ts:55-60 | an optional line is present exactly when its value is given and not blank, and then is the prefix followed by the trimmed value |
| AutoContext.InsertedLines | lib/autoContext.ts:75 | `[requirementContext, globalContext].filter(Boolean)` holds at most two lines |
| AutoContext.Assemble | lib/autoContext.ts:65-83 | base list with the inserted lines spliced in at index 1, then the hints, cut to ten: always exactly ten entries |
| AutoContext.BuildAutoContext | lib/autoContext.ts:48-84 | the result always has exactly ten entries, and depends only on the four arguments |
| AutoContext.AssembleLayout | lib/autoContext.ts:65-83 | the summary is entry 0, the k inserted lines follow, then "System type", the four fixed lines, and the first 4 - k hints |
| AutoContext.InsertedLinesSpec | lib/autoContext.ts:55-75 | the requirement line and the global line are each present exactly when their value is not blank, the requirement line first and the global line last |
| AutoContext.InsertedLinesOrder | lib/autoContext.ts:55-78 | in the result, "Key requirements: <trimmed>" sits at index 1, "Global considerations: <trimmed>" right after the inserted block's start, and "System type" directly after both |
| AutoContext.AllHintsWithoutExtras | lib/autoContext.ts:65-83 | with nothing inserted, the last four entries are the category's hints verbatim and in order |
| AutoContext.InsertedLinesDisplaceHints | lib/autoContext.ts:74-83 | one inserted line keeps the first three hints, two keep the first two |
| AutoContext.UnknownCategoryIsOther | lib/autoContext.ts:61-63 | a category outside the table reads as "Other" in the system-type line and gives exactly the output of "other" |
| Domain.ParseTestType | lib/testTypes.ts:1-7 | a string reads back as a test type exactly when it is one of the five enum values |
| Domain.TestTypeRoundTrip | lib/testTypes.ts:1-15 | reading back a type's value gives the type, a value that reads back is that type's value, and `testTypeOptions` lists the values in declaration order |
| Domain.CategoryTableKeys | lib/questions.ts:1-9 | the label table has a non-empty label exactly for the six classifier labels and "other" |
| Settings.AllEnabled | lib/settings.ts:39-45 | the `reduce` builds a map holding exactly the given keys, each flagged `false` |
| Settings.ClampSampleSize | lib/settings.ts:65 | the clamp lands in [1, 5], keeps a value already in range, turns anything below 1 into 1 and anything above 5 into 5 |
| Settings.Sanitize | lib/settings.ts:48-68 | a sanitised sample size is always in [1, 5] |
| Settings.SanitizeFields | lib/settings.ts:48-68 | a missing default context becomes "" and a given one is kept; a missing or non-number sample size becomes 5, a given one is clamped; each flag map holds every default key, the given keys override them one by one, and extra given keys are kept |
| Settings.DefaultsEnableEverything | lib/settings.ts:29-46 | the defaults flag all five test types and all eight frameworks `false`, sample five cases and have an empty default context |
| Settings.SanitizeIdempotent | lib/settings.ts:48-68 | sanitising a sanitised value gives it back unchanged |
| Settings.SanitizeDefaults | lib/settings.ts:29-68 | `sanitizeSettings(undefined)` and `sanitizeSettings(defaultSettings)` both equal the defaults |
| Settings.SanitizedIffFixedPoint | lib/settings.ts:48-68 | a value is a fixed point of sanitising exactly when its sample size is in [1, 5] and both maps hold every default key |
| TestCaseUtils.FilterBySettingsSpec | lib/testCaseUtils.ts:8-20 | both branches are one filter: the output is an order-preserving subsequence keeping a case exactly when its type is not flagged `true`, and with nothing flagged it is the input itself |
| TestCaseUtils.UnflaggedTypeIsKept | lib/testCaseUtils.ts:12-14 | a case whose type is flagged `false` or not at all is never dropped |
| TestCaseUtils.FilterBySettingsIdempotent | lib/testCaseUtils.ts:12-20 | filtering twice under the same settings is filtering once |
| TestCaseUtils.FilteredLength | lib/testCaseUtils.ts:20 | the output length is the input length minus the number of cases of a disabled type |
| TestCaseUtils.SingleDisabledTypeLength | lib/testCaseUtils.ts:20 | with one disabled type, exactly the cases of that type are lost |
| Boilerplate.Position | components/BoilerplateModal.tsx:32-101 | every framework has a place in the registry, and the registry holds it there |
| Boilerplate.RegistryMatchesSettings | components/BoilerplateModal.tsx:32-101 | the registry lists every framework exactly once, in the order and under the keys of `boilerplateOptions` |
| Boilerplate.FromKey | components/BoilerplateModal.tsx:356 | `frameworks[key]` finds a framework exactly for the eight keys, and the one found carries that key |
| Boilerplate.KeyRoundTrip | components/BoilerplateModal.tsx:356 | looking up a framework's own key gives that framework back |
| Boilerplate.DropLeadingS | components/BoilerplateModal.tsx:158 | the `s+` part of the pattern: strips the whole leading run of `s`, leaving a suffix that does not start with `s` |
| Boilerplate.ReplaceRunsWithoutRun | components/BoilerplateModal.tsx:158 | text in which the pattern does not occur is left unchanged by the replacement |
| Boilerplate.ReplaceRunsHead | components/BoilerplateModal.tsx:158 | with a replacement that has no backslash and does not start with `s`, an output starts with `s` only if its input did |
| Boilerplate.NoRunInConcat | components/BoilerplateModal.tsx:158 | two texts free of the pattern stay free of it when joined, unless the joint forms a backslash followed by `s` |
| Boilerplate.ReplaceRunsLeavesNoRun | components/BoilerplateModal.tsx:158 | with the replacements the generators use, no occurrence of the pattern is left in the output |
| Boilerplate.ReplaceRunsIdempotent | components/BoilerplateModal.tsx:158 | the `replace(/\\s+/g, "_")` and `replace(/\\s+/g, "")` transforms are idempotent |
| Boilerplate.NamesWithoutBackslash | components/BoilerplateModal.tsx:158 | for a name without a backslash, pytest and unittest only lower-case it, JUnit only lower-cases its first character, and PHPUnit only prefixes `test` |
| Boilerplate.WhiteSpaceSurvivesInNames | components/BoilerplateModal.tsx:158 | the pattern does not match white space: "Log in" becomes "log in" for Python and "testLog in" for PHP |
| Boilerplate.SliceTo | components/BoilerplateModal.tsx:105 | `slice(0, n)` gives a prefix of length min(n, length), a negative n counting from the end |
| Boilerplate.Stubs | components/BoilerplateModal.tsx:104-113 | one rendered test per case of the sample, test i rendering case i |
| Boilerplate.GenerateCodeRendersSample | components/BoilerplateModal.tsx:103-128 | a sample size n renders exactly min(n, cases) tests, from the first cases in order, each of which occurs in the output |
| Boilerplate.StubMentionsCase | components/BoilerplateModal.tsx:107-303 | every rendered test contains its case's description, and the Vitest test also its given context |
| Boilerplate.GenerateCodeMentionsSample | components/BoilerplateModal.tsx:103-320 | the output contains the description of every case within the sample |
| Boilerplate.EmptySampleIsFrame | components/BoilerplateModal.tsx:113-127 | with no case to render, the output is the fixed header directly followed by the fixed footer |
| Boilerplate.TwoCasesLayout | components/BoilerplateModal.tsx:113 | two rendered tests are separated by exactly "\n\n", between header and footer |
| Boilerplate.OnlySampleMatters | components/BoilerplateModal.tsx:105 | cases beyond the sample do not affect the output |
| Boilerplate.DesiredSampleSize | components/BoilerplateModal.tsx:357-360 | the sample size is at least 1, at most the setting and at most the number of cases unless it is 1, and is one of those three values |
| Boilerplate.DesiredSampleRendersSome | components/BoilerplateModal.tsx:357-362 | for a setting in [1, 5] the modal renders min(setting, cases) tests, so at least one whenever there is a case |
| Boilerplate.AvailableFrameworksSpec | components/BoilerplateModal.tsx:338-342 | the available frameworks are the registry in order minus exactly those flagged `true`; with no flag set they are the whole registry |
| Boilerplate.SomeOfferedIffSomeKeyUnflagged | components/BoilerplateModal.tsx:338-381 | some framework is available exactly when some key of `boilerplateOptions` is not flagged |
| Boilerplate.SettledSelection | components/BoilerplateModal.tsx:344-354 | the selection after the effect is "" exactly when nothing is available; otherwise it is an available key, and it is the current selection when that is still available |
| Boilerplate.SettledSelectionIsStable | components/BoilerplateModal.tsx:344-354 | running the effect again on its own result changes nothing |
| Boilerplate.SettledCode | components/BoilerplateModal.tsx:356-363 | once settled, `generatedCode` is the placeholder "No template selected." exactly when nothing is available (the modal then shows its "no templates enabled" panel instead of any code), and otherwise the code of an available framework at the desired sample size |
| Boilerplate.BoilerplateModal.constructor | components/BoilerplateModal.tsx:334 | the selection starts on "vitest" |
| Boilerplate.BoilerplateModal.Select | components/BoilerplateModal.tsx:334 | choosing a framework selects its key |
| Boilerplate.BoilerplateModal.Settle | components/BoilerplateModal.tsx:344-354 | the effect replaces the selection by its settled value for the current flags |
| Boilerplate.DefaultFlagsKeepVitest | components/BoilerplateModal.tsx:334-354 | with no framework flagged, the effect keeps "vitest" |
| Boilerplate.AllDisabledClearsSelection | components/BoilerplateModal.tsx:345-347 | with every framework flagged, the effect clears the selection |
| Boilerplate.OpenModal | components/BoilerplateModal.tsx:334-363 | for a freshly opened modal, `generatedCode` is the Vitest template at the desired sample size under the default flags, and the placeholder "No template selected." when every framework is disabled (a value the modal never displays, since it then shows its "no templates enabled" panel) |
| Results.CsvFields | app/results/page.tsx:186-197 | every row has as many cells as there are headers |
| Results.DoubleQuotes | app/results/page.tsx:206 | doubling quotes never shortens a cell and keeps exactly its set of characters |
| Results.UndoubleDouble | app/results/page.tsx:206 | reading pairs of double quotes as one undoes the doubling |
| Results.EscapeCell | app/results/page.tsx:203-208 | a cell without a comma or double quote is written unchanged, line breaks included; escaping adds or removes no character other than commas and quotes |
| Results.EscapeRoundTrip | app/results/page.tsx:203-208 | every cell is read back exactly from its escaped field: a quoted cell is wrapped in quotes with each quote doubled |
| Results.PlainRowSplits | app/results/page.tsx:201-210 | a row whose cells hold no comma or quote splits at commas back into its cells |
| Results.CsvLines | app/results/page.tsx:201-211 | one line per test case |
| Results.HeaderLineHasNoBreak | app/results/page.tsx:173-200 | the header line holds no line break |
| Results.RowHasNoBreak | app/results/page.tsx:201-211 | escaping adds no line break, so a row without one in its cells has none in its line |
| Results.ExportCsvLines | app/results/page.tsx:172-212 | when no cell holds a line break, the export splits into the ten headers' line followed by one line per case, in order |
| Results.LinesSplitBack | app/results/page.tsx:199-212 | lines without line breaks joined by "\n" split back into exactly those lines |
| Results.ViewFilterSpec | app/results/page.tsx:156-162 | the view keeps a case exactly when its type matches or the type filter is "all", and its priority matches or the priority filter is "all"; it is an order-preserving subsequence, and with both filters on "all" it is the whole list |
| Results.CountsCoverAllCases | app/results/page.tsx:164-170 | when every case has one of the five types, the five per-type counts add up to the number of cases |
| Results.BoilerplateButtonMatchesModal | app/results/page.tsx:66-69 | the page offers the boilerplate button exactly when the modal has a framework to offer |
| Results.EntryFor | app/results/page.tsx:141-147 | the new index entry carries the run's id and its number of test cases |
| Results.SaveEffectSpec | app/results/page.tsx:133-150 | after a save the record reads back under its id, the session's current run id is that id, a readable index gains exactly the new entry in front with the old entries after it in order, an unreadable index is left as it was, and no other key of either store changes |
| Results.SaveDisarmsAutoSave | app/results/page.tsx:97-136 | after a save the auto-save condition no longer holds |
| Results.SaveRun | app/results/page.tsx:133-150 | the shared writes: the record, then the current run id, then the index if it parses; it reports whether the index was written |
| Results.SaveTestCase | app/results/page.tsx:113-154 | risk areas that do not parse make the save write nothing; otherwise the save has the effect above for the run built from its arguments |
| Results.ResultsPage.constructor | app/results/page.tsx:59-60 | the page starts with no cases and no analysis |
| Results.ResultsPage.Mount | app/results/page.tsx:71-111 | missing or unparsable cases send the user back without writing and leave the shown cases as they were; otherwise the cases are filtered by the settings, the analysis is set when a strategy or risk areas are stored, and a run is saved exactly when description and category are present and no run id is |
| Results.ResultsPage.ManualSave | app/results/page.tsx:400-460 | an unparsable session fails without writing; with a run id present nothing is written; otherwise the session's unfiltered cases are saved under the fallbacks "Untitled Project" and "other" |
| Results.MountTwice | app/results/page.tsx:97-111 | a second run of the mount effect (after a settings change) writes nothing: the stores stay as the first run left them |
| SavedTests.Insert | components/SavedTestsList.tsx:37-40 | one insertion step of the newest-first sort adds exactly one entry |
| SavedTests.InsertAdds | components/SavedTestsList.tsx:37-40 | an insertion step adds the entry and loses none (as multisets) |
| SavedTests.NewestFirst | components/SavedTestsList.tsx:37-40 | the sorted list has the length of the input |
| SavedTests.InsertAt | components/SavedTestsList.tsx:37-40 | the entry goes right after the entries at least as new as it |
| SavedTests.InsertKeepsOrder | components/SavedTestsList.tsx:37-40 | inserting into a newest-first list keeps it newest-first |
| SavedTests.NewestFirstSpec | components/SavedTestsList.tsx:36-41 | the sort is a permutation of the index into newest-first order |
| SavedTests.InsertTies | components/SavedTestsList.tsx:37-40 | inserting into a sorted list keeps the entries of each timestamp in order and puts the new one after those sharing its timestamp |
| SavedTests.FirstOlder | components/SavedTestsList.tsx:37-40 | the first position of an entry older than the given time, every entry before it being at least as new |
| SavedTests.NewestFirstIsStable | components/SavedTestsList.tsx:37-40 | the sort is stable: entries with equal timestamps keep their relative order |
| SavedTests.SortNewestFirst | components/SavedTestsList.tsx:37-40 | the in-place sort leaves the array holding the newest-first order of its old contents |
| SavedTests.InsertNext | components/SavedTestsList.tsx:37-40 | one step of the in-place sort: the next entry moves into the sorted prefix, the rest of the array is untouched |
| SavedTests.ShiftNewer | components/SavedTestsList.tsx:37-40 | the entries older than the one being placed move one place back, opening a gap just after those at least as new |
| SavedTests.Reassemble | components/SavedTestsList.tsx:37-40 | the shifted prefix with the entry in the gap is the sorted prefix with the entry inserted |
| SavedTests.ReopenedRunIsNotSavedAgain | components/SavedTestsList.tsx:54-59 | after reopening a run the results page reads its cases and risk areas back as saved and its auto-save does not fire |
| SavedTests.SaveThenReopen | app/results/page.tsx:133-150 | saving a run and reopening it from the list restores the description, cases and risk areas that were saved |
| SavedTests.DeleteUndoesSave | app/results/page.tsx:149 | deleting the entry a save has just put in front gives back the previous index when no older entry has that id |
| SavedTests.DeleteSpec | components/SavedTestsList.tsx:84 | deleting keeps, in order, exactly the entries with another id |
| SavedTests.SavedTestsList.constructor | components/SavedTestsList.tsx:21 | the list starts empty |
| SavedTests.SavedTestsList.LoadSavedTests | components/SavedTestsList.tsx:31-46 | a stored index replaces the list, sorted newest first; an absent, empty or unreadable one leaves the list unchanged |
| SavedTests.SavedTestsList.HandleLoadTest | components/SavedTestsList.tsx:48-67 | a stored record is copied into the six session keys, its id becoming the current run; no record changes nothing; an unreadable value fails without writing; localStorage is untouched |
| SavedTests.SavedTestsList.HandleDeleteTest | components/SavedTestsList.tsx:69-92 | without confirmation nothing changes; with it the record key is removed, the list loses exactly the entries with that id, and the index is rewritten as the new list |
| SettingsProvider.LoadedSettings | components/SettingsProvider.tsx:24-34 | with nothing (or an empty string) stored the state stays as it is; stored settings replace it only after sanitising |
| SettingsProvider.LoadedSettingsSanitized | components/SettingsProvider.tsx:22-34 | whatever is stored, loading keeps the state sanitised |
| SettingsProvider.UpdateKeepsAbsentFields | components/SettingsProvider.tsx:47 | fields an update leaves out keep their previous values |
| SettingsProvider.UpdateReplacesFlagMaps | components/SettingsProvider.tsx:47 | a flag map in an update replaces the previous one wholesale: a default key it lacks goes back to enabled, and the resulting map's keys are exactly the default keys plus its own, for the test-type map and the framework map alike |
| SettingsProvider.SettingsStore.constructor | components/SettingsProvider.tsx:22 | the state starts as the defaults, which are sanitised |
| SettingsProvider.SettingsStore.Load | components/SettingsProvider.tsx:24-34 | the mount effect sets the state to the loaded settings and keeps it sanitised |
| SettingsProvider.SettingsStore.Update | components/SettingsProvider.tsx:44-53 | the new state is the sanitised overlay of the update on the previous state, its sample size is in [1, 5], exactly that value is persisted under `tcg_settings`, and nothing else is written |
| SettingsProvider.PersistedSettingsReload | components/SettingsProvider.tsx:24-49 | what an update persists loads back as the same state |
| Theme.ParseMode | components/ThemeProvider.tsx:41-44 | a stored string is accepted as a mode exactly when it is "light", "dark" or "system", and then it is that mode's name |
| Theme.ModeNameRoundTrip | components/ThemeProvider.tsx:41-68 | the name a toggle stores is accepted back as the same mode |
| Theme.Next | components/ThemeProvider.tsx:63-64 | a toggle always changes the mode |
| Theme.ToggleCycle | components/ThemeProvider.tsx:63-64 | light goes to dark, dark to system, system to light: three toggles return to the start and the two intermediate modes differ |
| Theme.PreferenceMattersOnlyInSystemMode | components/ThemeProvider.tsx:30-34 | dark is applied exactly in dark mode, or in system mode when the OS prefers dark; only system mode depends on the preference |
| Theme.ResolveStoredModePrecedence | components/ThemeProvider.tsx:38-44 | a valid `themeMode` entry wins; the legacy `theme` entry is read only when `themeMode` is absent or empty; an invalid picked value, or none, gives "system" |
| Theme.ThemeLabelCapitalises | components/ThemeProvider.tsx:72-75 | the label is the mode's name with its first letter capitalised: "System", "Dark", "Light" |
| Theme.ThemeProvider.constructor | components/ThemeProvider.tsx:26-28 | the state before mount is system mode, not dark, not mounted |
| Theme.ThemeProvider.Mount | components/ThemeProvider.tsx:36-48 | the mount effect marks the provider mounted, restores the resolved stored mode and applies the dark rule to it |
| Theme.ThemeProvider.OnPreferenceChange | components/ThemeProvider.tsx:50-60 | an OS preference change updates the applied theme only in system mode |
| Theme.ThemeProvider.Toggle | components/ThemeProvider.tsx:62-70 | the toggle advances the mode, writes it under both `themeMode` and `theme` and nothing else, and applies it |
| Theme.ToggleThenRemount | components/ThemeProvider.tsx:36-70 | a toggled mode survives a reload: the next mount restores the mode the toggle chose |
| Toast.RemoveByIdSpec | components/ToastProvider.tsx:39 | removing an id keeps, in order, exactly the toasts with another id |
| Toast.RemoveUnknownIdKeepsList | components/ToastProvider.tsx:33-39 | removing an id no toast carries leaves the list unchanged |
| Toast.AddThenRemove | components/ToastProvider.tsx:39-49 | appending a toast with a fresh id and then removing that id gives back the list |
| Toast.ToastProvider.constructor | components/ToastProvider.tsx:30-31 | no toasts and no timers at the start |
| Toast.ToastProvider.AddToast | components/ToastProvider.tsx:42-58 | an empty message changes nothing; otherwise exactly one toast is appended at the end, its type defaulting to info, and its timer is recorded under its id |
| Toast.ToastProvider.RemoveToast | components/ToastProvider.tsx:33-40 | the timer entry of the id is gone afterwards, no other timer changes, and the list keeps exactly the toasts with another id |
| Toast.AddThenDismiss | components/ToastProvider.tsx:33-58 | a toast added under a fresh id and then dismissed leaves the list and the timer map exactly as they were |
| Home.ClassificationPayloadSpec | app/page.tsx:102-107 | for a non-empty description the classifier's text is the description, followed by a blank line and the requirements section exactly when the trimmed requirements are not empty |
| Home.GenerationPayloadExtends | app/page.tsx:102-115 | the generator's text is the classifier's text followed by a blank line and the global considerations exactly when the trimmed default context is not empty |
| Home.PrefixedKeyIsNotBlank | app/page.tsx:50-55 | a key starting with "sk-" is never blank |
| Home.CheckKeySpec | app/page.tsx:49-61 | a key is accepted exactly when it starts with "sk-"; it is refused as blank exactly when it is blank once trimmed, otherwise as malformed |
| Home.GeneratedSessionFeedsResults | app/page.tsx:200-203 | a stored generation is one the results page reads: the cases and the sent answers read back unchanged, and whether the auto-save is due does not change |
| Home.CategoryOf | app/page.tsx:145 | the category used is never empty: it is the classifier's when present and non-empty, "other" otherwise |
| Home.PrepareSpec | app/page.tsx:100-179 | both requests carry the stored key; the classifier gets the description plus the trimmed requirements, the generator the same text plus the trimmed default context, the category, and the ten-line automatic context that opens with the description's summary |
| Home.GenerationStepBasics | app/page.tsx:170-205 | once both requests are out, the classified keys survive; a failure, a throw or an all-filtered reply stores nothing more; success stores the filtered, non-empty cases with the generation's data |
| Home.ClassificationKeepsGeneration | app/page.tsx:145-168 | the classification writes none of the answers, cases, strategy or risk-areas keys |
| Home.ClassificationArmsAutoSave | app/page.tsx:145-153 | after a classification the description and category are stored and the current run id removed, so the results page's auto-save is due |
| Home.NextNeedsKeyAndDescription | app/page.tsx:91-97 | "Next" is blocked exactly when no key is saved or the description is blank; then nothing is sent or stored, and the key input is shown exactly when the key is missing |
| Home.NextRequests | app/page.tsx:116-179 | at most two requests, classification first; the generation request follows exactly after a good, authorised classification outside manual mode |
| Home.NextKeyRefusal | app/page.tsx:92-135 | the key input is shown exactly when no key is saved or the classifier answered 401 or "Unauthorized"; a refusal stores nothing |
| Home.NextClassifiedState | app/page.tsx:137-153 | a failed classification leaves the session unchanged; after a good one the session holds the description, the category, the requirements exactly when not empty, and no current run id |
| Home.NextManualMode | app/page.tsx:155-160 | in manual mode at most the classification is sent; going to the questions page leaves no stored answers and manual mode "true" |
| Home.NextAllFilteredStoresNothing | app/page.tsx:191-198 | when every generated case is of a disabled type, no answers, cases, strategy or risk areas are written |
| Home.NextToResults | app/page.tsx:191-205 | reaching the results page means the filtered cases are non-empty and stored, the automatic context is stored as the answers, the results page reads the session and the auto-save is due |
| Home.HomePage.constructor | app/page.tsx:15-21 | the page starts with empty input, key and requirements, and every flag off |
| Home.HomePage.LoadApiKey | app/page.tsx:41-47 | a non-empty stored key is loaded and marked saved; otherwise nothing changes |
| Home.HomePage.SaveApiKey | app/page.tsx:49-70 | the result is the key check; only an accepted key is written, untrimmed, under `openai_api_key`, marks the key saved and hides the input; session storage never changes |
| Home.HomePage.RemoveApiKey | app/page.tsx:72-89 | an unconfirmed removal changes nothing; a confirmed one deletes the stored key and clears the key state |
| Home.HomePage.HandleNext | app/page.tsx:91-212 | outcome, requests and session are those of `Next` over the prepared requests; the key input shown only grows; loading is off afterwards unless blocked; local storage is untouched |
| Home.HomePage.Proceed | app/page.tsx:92-168 | the page follows `Next` for given prepared requests: the same outcome, requests and session |
| Home.HomePage.Generation | app/page.tsx:170-205 | the generation half follows `GenerationStep`: the same outcome, requests and session, loading off |
| Questions.SentAnswersSpec | app/questions/page.tsx:98-112 | the answers go first and unchanged, then the requirements line exactly when the requirements are not blank, then the trimmed default context exactly when it is not blank; no blank answer in means no blank line out |
| Questions.BlankAnswers | app/questions/page.tsx:62 | one empty answer per question |
| Questions.AfterReplySpec | app/questions/page.tsx:117-136 | a failed reply or an empty filtered list stores nothing; otherwise the results page reads the stored cases and the sent answers back, and the auto-save is due exactly as before |
| Questions.QuestionsPage.constructor | app/questions/page.tsx:13-19 | no questions or answers, loading on, each question with its answer slot |
| Questions.QuestionsPage.Mount | app/questions/page.tsx:23-75 | without a stored description or category nothing is asked and nothing changes; otherwise the questions request carries both and the stored key, and the page shows the route's questions after a good reply or the generic list after any failure, each with an empty answer |
| Questions.QuestionsPage.HandleAnswerChange | app/questions/page.tsx:77-81 | for the index of a shown question, only the answer at that index changes, to the new value, and every question keeps its answer slot |
| Questions.QuestionsPage.HandleSkip | app/questions/page.tsx:83-86 | the answers, blank ones included, are stored under `answers` and read back unchanged; nothing else is written |
| Questions.QuestionsPage.HandleNext | app/questions/page.tsx:88-145 | with a blank answer nothing is sent and the session is unchanged; otherwise one request carries the answers followed by the supplemental context, and the session becomes what `AfterReply` gives |
| Questions.QuestionsPage.Generate | app/questions/page.tsx:94-145 | the request carries the description, the category, the sent answers and the stored key; the outcome and the session are those of `AfterReply` |
| Questions.StoreReply | app/questions/page.tsx:117-136 | the session after the generator's reply is the one `AfterReply` gives; local storage is untouched |
| Questions.ManualModeHandsOver | app/questions/page.tsx:25-36 | the start page's manual mode leaves a session this page accepts: description and category non-empty and as the start page used them, the trimmed requirements, and no answers |
| Storage.TextOr | app/results/page.tsx:402-408 | `getItem(key) \|\| fallback`: a non-empty stored text is returned, an absent or empty entry gives the fallback |
| Storage.ReadIndex | app/results/page.tsx:138-139 | an absent or empty index reads as the empty list, a stored index as its entries |
| Storage.ReadCases | app/results/page.tsx:402-411 | an absent or empty entry reads as no cases, a stored list as itself |
| Storage.ReadStrings | app/results/page.tsx:407-412 | an absent or empty entry reads as no strings, a stored list as itself |
| Storage.RunId | app/results/page.tsx:121 | a run id starts with "test_" |
| Storage.RunIdIsNotAFixedKey | app/results/page.tsx:121-139 | a run id is never the index, key, theme or settings key, so writing a record under it leaves those entries alone |
| Storage.Browser.constructor | app/results/page.tsx:72-77 | a browser tab holds the given local and session stores |

## Left out

- The chat-completion service and the network are not modelled. Each route takes the service
  as a function from the call it makes (`Api.ServiceCall`) to its completion. The exact
  prompt wording is given by `ApiClassify.ClassifyRequest`,
  `ApiGenerateQuestions.QuestionsRequest` and `ApiGenerate.GenerateRequest`, but the routes
  are stated over the call. Each page takes its view of the reply (status and body fields,
  or a thrown `fetch`) as a parameter.
- `JSON.parse` and `JSON.stringify` are not modelled.
  - The routes take the parser as an oracle (`Api.Json`).
  - Browser storage holds typed values (`Storage.Value`). Writing one of the app's own
    documents and reading it back gives the same value. `Unparseable` stands for a string
    that the parser rejects.
  - A stored value of another shape is read as a failed parse. This includes plain text
    under a JSON key and JSON under a text key.
- Pages do not show their notices. Toasts, router navigation and the confirmation dialog
  are modelled as outcome values and a `confirmed` flag.
- Browser APIs not modelled: `Blob`, object URLs, file download, clipboard access and
  `matchMedia`. The operating system's dark preference is a boolean parameter.
- `exportToJSON` (app/results/page.tsx:222-237) is not modelled, since it is a stringify and
  a download. `formatTestTypeLabel` and the colour pickers are not modelled, since they are
  presentational.
- `setTimeout` and `clearTimeout` are not modelled. Only the toast list and the map from
  toast id to timer handle are modelled. Timer handles are positive inputs.
- Clock and random values are inputs.
  - `Date.now()` and the `Math.random` id suffix are parameters of `Storage.RunId`.
  - Toast ids are parameters.
  - ISO timestamps are integers in milliseconds. So invalid dates, and the `NaN`
    comparisons they would cause in the sort, are not modelled.
  - The engine's `Array.prototype.sort` is modelled as a stable insertion sort.
- Sample size is an integer. `Math.round` on a fractional or `NaN` sample size
  (lib/settings.ts:65) is not modelled. Neither is the progress percentage on the
  questions page.
- `toLowerCase` is modelled on ASCII letters only.
- `lib/genericQuestions.json` is not part of this model. Its list is the parameter
  `genericQuestions` of `Questions.QuestionsPage.Mount`.
- Presentational files are not part of this model:
  - app/layout.tsx;
  - app/settings/page.tsx, whose only logic goes through `updateSettings`, which is modelled;
  - components/ConfirmDialogProvider.tsx;
  - JSX and styling.
- Questions.QuestionsPage.HandleAnswerChange: requires an index of a shown question
  (`index < |questions|`, with one answer slot per question). The page calls it only from a
  question's own input. The array growth that a larger index would cause in JavaScript is
  not modelled.
- SavedTests.SavedTestsList.HandleLoadTest: a stored value that parses but is not a run
  record is treated as a failure that writes nothing. The source would copy its missing
  fields into the session as `undefined`.
- Home.CheckKey: the blank test `!apiKey.trim()` is written as "every character is white
  space". `Text.AllSpaceIffBlank` proves that this is the same test.
- Storage writes always succeed. `setItem` and `removeItem` are map updates, so the `catch`
  paths around them are not modelled. These are the swallowed persist error in
  components/SettingsProvider.tsx:36-42, after which the state has changed but storage has
  not; the "Failed to delete test." path in components/SavedTestsList.tsx:82-91, which can
  leave the record removed and the index stale; and the save failures in
  app/results/page.tsx:151-153 and 453-458.
- Results.SaveRun: one clock reading `now` stands for the three the source makes per save:
  `Date.now()` in the run id, and two `toISOString()` calls, one for the record and one for
  the index entry. So `Results.EntryFor` gives the index entry the record's timestamp. The
  source does not promise that equality, and the newest-first sort reads the entry's
  timestamp.
- AutoContext.UnknownCategoryIsOther: the hint table is a map from the seven category keys.
  An inherited property name of a JavaScript object, such as "constructor", "toString" or
  "__proto__", is therefore treated like any other unknown category and gives the output of
  "other". In the source, `categoryHints[category]` is truthy for such a name, and the
  spread at lib/autoContext.ts:80 throws a `TypeError`. `AutoContext.HintsFor` has the same
  gap.
- SettingsProvider.Overlay: an update field that is present but `undefined`, or a sample
  size that is not a number, is treated as absent, so the previous value is kept. In the
  source, the spread `{...prev, ...updates}` copies such a value, and sanitising then applies
  the default: `""` for the context and 5 for the size. The settings page always passes
  whole settings objects (app/settings/page.tsx:20,25), so it never reaches this case.
- ApiGenerateQuestions.QuestionsFromReply: a reply that parses to an array with items that
  are not strings is not modelled (`ApiGenerateQuestions.QuestionsJson` has no case for it).
  The route would slice and return such an array as it is
  (app/api/generate-questions/route.ts:65-69).
