/** lib/autoContext.ts: the ten context lines sent to the generator when the user does not
    answer the clarifying questions. */
module AutoContext {
  import opened Wrappers
  import opened Text
  import Domain

  /** The rows of `categoryHints`. */
  const BackendApiHints: seq<string> := [
      "Validate all HTTP methods, payload schemas, and authentication flows including success, validation, and authorization failures.",
      "Cover rate limiting, concurrency, idempotency of repeated requests, and graceful handling of upstream/downstream outages.",
      "Ensure error responses follow the contract (status codes + structured error bodies).",
      "Verify integration with the data layer including transaction rollback, pagination, and filtering logic."]

  const FrontendComponentHints: seq<string> := [
      "Exercise UI states: initial, loading, success, empty, and error across desktop and mobile breakpoints.",
      "Validate accessibility (ARIA labels, keyboard navigation, focus rings) and visual contrast in light/dark themes.",
      "Ensure form validation, inline feedback, and disabling/enabling of controls behaves correctly.",
      "Confirm external API interactions are debounced, retried, and surfaced to the user appropriately."]

  const DatabaseHints: seq<string> := [
      "Test CRUD operations with transactional integrity, constraints, and cascading behavior.",
      "Validate indexing, query performance, and plan for long-running analytical workloads.",
      "Exercise migration/rollback scripts and ensure backward compatibility for existing data.",
      "Check backup/restore procedures, failover replicas, and data retention policies."]

  const LibraryFunctionHints: seq<string> := [
      "Cover deterministic outputs, rounding/precision rules, and locale/timezone awareness where applicable.",
      "Test invalid inputs, optional arguments, and default parameter handling.",
      "Verify side effects, asynchronous flows, and integration with caller-supplied callbacks/promises.",
      "Evaluate performance for large payloads and repeated invocations to catch regressions."]

  const IntegrationHints: seq<string> := [
      "Exercise full end-to-end workflows spanning multiple services or queues.",
      "Simulate upstream/downstream failures, retries, timeouts, and circuit breaker scenarios.",
      "Validate data contracts, serialization formats, and schema evolution between systems.",
      "Confirm monitoring/alerting signals fire when integrations degrade or drift."]

  const DataPipelineHints: seq<string> := [
      "Cover ingestion of both happy-path and malformed records, ensuring data quality checks block bad data.",
      "Test scheduling, batching vs. streaming paths, and idempotent reprocessing of historical runs.",
      "Validate transformations, aggregations, and schema evolution as data moves through stages.",
      "Ensure failure recovery, checkpointing, and alerting operate without data loss."]

  const OtherHints: seq<string> := [
      "Exercise core business flows plus negative, edge, and boundary cases.",
      "Validate observability: structured logging, metrics, and tracing for key milestones.",
      "Ensure resiliency to dependency outages, slow responses, and retry storms.",
      "Cover cross-cutting concerns like security, performance, and accessibility relevant to the stack."]

  /** `categoryHints`: four testing hints for each category key. */
  function CategoryHints(category: string): (hints: Option<seq<string>>)
    ensures hints.Some? <==> category in Domain.CategoryKeys
    ensures hints.Some? ==> |hints.value| == 4
  {
    if category == "backend-api" then Some(BackendApiHints)
    else if category == "frontend-component" then Some(FrontendComponentHints)
    else if category == "database" then Some(DatabaseHints)
    else if category == "library-function" then Some(LibraryFunctionHints)
    else if category == "integration" then Some(IntegrationHints)
    else if category == "data-pipeline" then Some(DataPipelineHints)
    else if category == "other" then Some(OtherHints)
    else None
  }

  /** The hints of the normalised category: a key missing from the table reads as "other". */
  function HintsFor(category: string): (hints: seq<string>)
    ensures |hints| == 4
  {
    match CategoryHints(category)
    case Some(hints) => hints
    case None => OtherHints
  }

  /** `categoryDescriptions[category] || categoryDescriptions.other`. */
  function ReadableCategory(category: string): string {
    Domain.CategoryDescription(category).GetOr("Other")
  }

  /** The four category-independent lines of the base list. */
  const FixedLines: seq<string> := [
    "Target outcome: deliver reliable, user-friendly functionality aligned with the described goals.",
    "Assume modern authentication/authorization, data validation, and logging best practices are required.",
    "Consider performance budgets, scalability, and graceful degradation under load spikes.",
    "Plan for operational readiness: monitoring, alerting, and fallback behavior for partial outages."]

  const NoDescription: string := "No additional description provided."

  /** The first line: the trimmed description, or a stock sentence when it is blank. */
  function SummaryLine(description: string): string {
    "Project summary: " + (if IsBlank(description) then NoDescription else Trim(description))
  }

  /** One optional labelled line: present only for a value that is not blank once trimmed. */
  function ContextLine(prefix: string, value: Option<string>): (line: seq<string>)
    ensures |line| == (if value.Some? && !IsBlank(value.value) then 1 else 0)
    ensures |line| == 1 ==> line[0] == prefix + Trim(value.value)
  {
    if value.Some? && !IsBlank(value.value) then [prefix + Trim(value.value)] else []
  }

  /** `[requirementContext, globalContext].filter(Boolean)`. */
  function InsertedLines(requirements: Option<string>, defaultContext: Option<string>): (lines: seq<string>)
    ensures |lines| <= 2
  {
    ContextLine("Key requirements: ", requirements) + ContextLine("Global considerations: ", defaultContext)
  }

  /** The line naming the system type. */
  function SystemTypeLine(category: string): string {
    "System type: " + ReadableCategory(category) + "."
  }

  /** The list `buildAutoContext` assembles from its parts: the summary, the inserted lines
      spliced in at index 1, the system type, the four fixed lines, then the four hints
      appended, and the whole cut to its first ten entries. */
  function Assemble(summary: string, inserted: seq<string>, systemType: string, fixed: seq<string>, hints: seq<string>): (r: seq<string>)
    requires |inserted| <= 2 && |fixed| == 4 && |hints| == 4
    ensures |r| == 10
  {
    ([summary] + inserted + [systemType] + fixed + hints)[..10]
  }

  /** `buildAutoContext`: the list assembled from the description, the two optional values
      and the category's label and hints. */
  function BuildAutoContext(description: string, category: string, requirements: Option<string>, defaultContext: Option<string>): (r: seq<string>)
    ensures |r| == 10
  {
    Assemble(SummaryLine(description), InsertedLines(requirements, defaultContext), SystemTypeLine(category), FixedLines,
      HintsFor(category))
  }

  /** Where each part lands: the summary first, then the k inserted lines, the system type,
      the four fixed lines, and as many hints as still fit, which is 4 - k. */
  lemma AssembleLayout(summary: string, inserted: seq<string>, systemType: string, fixed: seq<string>, hints: seq<string>)
    requires |inserted| <= 2 && |fixed| == 4 && |hints| == 4
    ensures var r := Assemble(summary, inserted, systemType, fixed, hints);
      var k := |inserted|;
      && r[0] == summary
      && r[1..1 + k] == inserted
      && r[1 + k] == systemType
      && r[2 + k..6 + k] == fixed
      && r[6 + k..] == hints[..4 - k]
  {
    var all := [summary] + inserted + [systemType] + fixed + hints;
    var k := |inserted|;
    assert all[1..1 + k] == inserted;
    assert all[2 + k..6 + k] == fixed;
    assert all[6 + k..10] == hints[..4 - k];
  }

  /** The requirement line and the global line, each present exactly when its value is not
      blank, in that order. */
  lemma InsertedLinesSpec(requirements: Option<string>, defaultContext: Option<string>)
    ensures var lines := InsertedLines(requirements, defaultContext);
      var hasReq := requirements.Some? && !IsBlank(requirements.value);
      var hasCtx := defaultContext.Some? && !IsBlank(defaultContext.value);
      && |lines| == (if hasReq then 1 else 0) + (if hasCtx then 1 else 0)
      && (hasReq ==> lines[0] == "Key requirements: " + Trim(requirements.value))
      && (hasCtx ==> lines[|lines| - 1] == "Global considerations: " + Trim(defaultContext.value))
  {
    var req := ContextLine("Key requirements: ", requirements);
    var ctx := ContextLine("Global considerations: ", defaultContext);
    ConcatEnds(req, ctx);
  }

  /** The ends of a concatenation of two lists of at most one line each. */
  lemma ConcatEnds(a: seq<string>, b: seq<string>)
    requires |a| <= 1 && |b| <= 1
    ensures |a + b| == |a| + |b|
    ensures |a| == 1 ==> (a + b)[0] == a[0]
    ensures |b| == 1 ==> (a + b)[|a + b| - 1] == b[0]
  {
  }

  /** In the assembled list the requirement line and the global line sit directly after the
      summary and in that order, each present exactly when its value is not blank, and the
      system type follows them. */
  lemma InsertedLinesOrder(summary: string, requirements: Option<string>, defaultContext: Option<string>, systemType: string,
                           fixed: seq<string>, hints: seq<string>)
    requires |fixed| == 4 && |hints| == 4
    ensures var r := Assemble(summary, InsertedLines(requirements, defaultContext), systemType, fixed, hints);
      var hasReq := requirements.Some? && !IsBlank(requirements.value);
      var hasCtx := defaultContext.Some? && !IsBlank(defaultContext.value);
      var k := (if hasReq then 1 else 0) + (if hasCtx then 1 else 0);
      && (hasReq ==> r[1] == "Key requirements: " + Trim(requirements.value))
      && (hasCtx ==> r[k] == "Global considerations: " + Trim(defaultContext.value))
      && r[k + 1] == systemType
  {
    var inserted := InsertedLines(requirements, defaultContext);
    var r := Assemble(summary, inserted, systemType, fixed, hints);
    var k := |inserted|;
    InsertedLinesSpec(requirements, defaultContext);
    AssembleLayout(summary, inserted, systemType, fixed, hints);
    if k > 0 {
      assert r[1] == r[1..1 + k][0] == inserted[0];
      assert r[k] == r[1..1 + k][k - 1] == inserted[k - 1];
    }
  }

  /** With nothing inserted, the last four lines are the hints, verbatim and in order. */
  lemma AllHintsWithoutExtras(summary: string, systemType: string, fixed: seq<string>, hints: seq<string>)
    requires |fixed| == 4 && |hints| == 4
    ensures Assemble(summary, [], systemType, fixed, hints)[6..] == hints
  {
    AssembleLayout(summary, [], systemType, fixed, hints);
  }

  /** Each inserted line pushes one hint off the end: one line keeps the first three hints,
      two lines keep the first two. */
  lemma InsertedLinesDisplaceHints(summary: string, inserted: seq<string>, systemType: string, fixed: seq<string>,
                                   hints: seq<string>)
    requires |inserted| <= 2 && |fixed| == 4 && |hints| == 4
    ensures var r := Assemble(summary, inserted, systemType, fixed, hints);
      && (|inserted| == 1 ==> r[7..] == hints[..3])
      && (|inserted| == 2 ==> r[8..] == hints[..2])
  {
    AssembleLayout(summary, inserted, systemType, fixed, hints);
  }

  /** A category outside the table is treated as "other": same label, same hints, same output. */
  lemma UnknownCategoryIsOther(description: string, category: string, requirements: Option<string>, defaultContext: Option<string>)
    requires category !in Domain.CategoryKeys
    ensures ReadableCategory(category) == "Other"
    ensures BuildAutoContext(description, category, requirements, defaultContext)
         == BuildAutoContext(description, "other", requirements, defaultContext)
  {
    Domain.CategoryTableKeys(category);
    Domain.CategoryTableKeys("other");
    assert SystemTypeLine(category) == SystemTypeLine("other");
    assert HintsFor(category) == HintsFor("other");
  }
}
