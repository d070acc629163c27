/**
  From a runtime result to the schema a drain may store: internal/knowledge/governance/runtime_agent.py,
  internal/knowledge/governance/service.py, internal/knowledge/governance/validation/pipeline.py,
  internal/knowledge/model/mutation_plan.py and `save_facet_schema` of internal/domain/partition/store.py.

  Everything a runtime can return is modelled: the status, the final summary, and arbitrary steps and
  skill results, with payloads that may be missing, malformed or inconsistent.
 */
module Governance {
  import opened Options
  import opened Projection
  import opened GitRepository
  import opened CaseWorkspace
  import opened PartitionRuns

  const VALIDATE := "governance.validate_candidate"

  datatype RunStatus = Completed | Failed | RequiresReview | Cancelled

  /** A JSON value where a schema is expected: an object is complete or not, and parses as a schema or not. */
  datatype RawSchema = NotAnObject | SchemaObject(complete: bool, parsed: Option<Schema>)

  datatype Outcome = NoChange | Accepted | Review

  /** `metadata.governance_decision`: the outcome text is one of the three literals or nothing known. */
  datatype Payload = Payload(outcome: Option<Outcome>, schema: Option<RawSchema>)

  datatype Step =
    | DecisionStep(payload: Option<Payload>)
    | ActionStep(capabilityId: string, candidate: Option<RawSchema>)
    | OtherStep

  /** `report` is the `passed` entry of the output, or None when the output is not an object. */
  datatype SkillResult = SkillResult(skillId: string, ok: bool, report: Option<bool>)

  datatype RuntimeResult = RuntimeResult(
    status: RunStatus, finalSummary: string, steps: seq<Step>, skillResults: seq<SkillResult>)

  datatype RuntimeDecision = RuntimeDecision(outcome: Outcome, acceptedSchema: Option<Schema>)

  // ----- reading the runtime result

  /** Whether the latest validation passed; None when the skill never reported. */
  function LatestValidation(results: seq<SkillResult>): Option<bool> {
    if results == [] then None else
    var last := results[|results| - 1];
    if last.skillId != VALIDATE then LatestValidation(results[..|results| - 1])
    else Some(last.ok && last.report == Some(true))
  }

  method LatestValidationReport(results: seq<SkillResult>) returns (passed: Option<bool>)
    ensures passed == LatestValidation(results)
    ensures passed.Some? <==> exists r :: r in results && r.skillId == VALIDATE
  {
    var i := |results|;
    assert results[..i] == results;
    while i > 0
      invariant 0 <= i <= |results| && LatestValidation(results[..i]) == LatestValidation(results)
      invariant forall j :: i <= j < |results| ==> results[j].skillId != VALIDATE
    {
      i := i - 1;
      assert results[..i + 1][..i] == results[..i];
      var result := results[i];
      if result.skillId != VALIDATE {
        continue;
      }
      if !result.ok {
        return Some(false);
      }
      return Some(result.report.Some? && result.report.value);
    }
    passed := None;
  }

  function LatestPayload(steps: seq<Step>): Payload {
    if steps == [] then Payload(None, None) else
    var last := steps[|steps| - 1];
    if last.DecisionStep? && last.payload.Some? then last.payload.value else LatestPayload(steps[..|steps| - 1])
  }

  method LatestDecisionPayload(steps: seq<Step>) returns (payload: Payload)
    ensures payload == LatestPayload(steps)
  {
    var i := |steps|;
    assert steps[..i] == steps;
    while i > 0
      invariant 0 <= i <= |steps| && LatestPayload(steps[..i]) == LatestPayload(steps)
    {
      i := i - 1;
      assert steps[..i + 1][..i] == steps[..i];
      if steps[i].DecisionStep? && steps[i].payload.Some? {
        return steps[i].payload.value;
      }
    }
    payload := Payload(None, None);
  }

  /** The schema of an action step which is a validation call with a candidate that parses. */
  function Validated(step: Step): Option<Schema> {
    if step.ActionStep? && step.capabilityId == VALIDATE && step.candidate.Some? && step.candidate.value.SchemaObject?
    then step.candidate.value.parsed else None
  }

  function LatestCandidate(steps: seq<Step>): Option<Schema> {
    if steps == [] then None else
    var candidate := Validated(steps[|steps| - 1]);
    if candidate.Some? then candidate else LatestCandidate(steps[..|steps| - 1])
  }

  predicate Contains(text: string, part: string) {
    part <= text || (text != "" && Contains(text[1..], part))
  }

  /** The run stopped because a budget ran out, not because the candidate was bad. */
  predicate StoppedByBudget(lower: string -> string, result: RuntimeResult) {
    var summary := lower(result.finalSummary);
    && (result.status == Failed || result.status == RequiresReview)
    && (Contains(summary, "skill budget exceeded") || Contains(summary, "action budget exhausted")
      || Contains(summary, "no executable action left"))
  }

  function Recovered(lower: string -> string, result: RuntimeResult): Option<Schema> {
    if StoppedByBudget(lower, result) then LatestCandidate(result.steps) else None
  }

  method RecoverValidatedCandidate(lower: string -> string, result: RuntimeResult) returns (schema: Option<Schema>)
    ensures schema == Recovered(lower, result)
  {
    hide Contains;
    if result.status != Failed && result.status != RequiresReview {
      return None;
    }
    var summary := lower(result.finalSummary);
    if !Contains(summary, "skill budget exceeded") && !Contains(summary, "action budget exhausted")
       && !Contains(summary, "no executable action left") {
      return None;
    }
    var i := |result.steps|;
    assert result.steps[..i] == result.steps;
    while i > 0
      invariant 0 <= i <= |result.steps| && LatestCandidate(result.steps[..i]) == LatestCandidate(result.steps)
    {
      i := i - 1;
      assert result.steps[..i + 1][..i] == result.steps[..i];
      var step := result.steps[i];
      if !step.ActionStep? || step.capabilityId != VALIDATE || step.candidate.None?
          || step.candidate.value.NotAnObject? {
        continue;
      }
      if step.candidate.value.parsed.None? {
        continue;
      }
      return step.candidate.value.parsed;
    }
    schema := None;
  }

  function Parsed(payload: Payload): RuntimeDecision {
    var review := RuntimeDecision(Review, None);
    var isObject := payload.schema.Some? && payload.schema.value.SchemaObject?;
    if payload.outcome == Some(Accepted) && !isObject then review
    else if payload.schema.Some? && !(isObject && payload.schema.value.complete) then review
    else if isObject && payload.schema.value.parsed.None? then review
    else RuntimeDecision(payload.outcome.GetOr(Review), if isObject then payload.schema.value.parsed else None)
  }

  /** `decide`, from the runtime's result on. */
  function Decided(lower: string -> string, result: RuntimeResult): RuntimeDecision {
    var validation := LatestValidation(result.skillResults);
    var recovered := Recovered(lower, result);
    var decision := Parsed(LatestPayload(result.steps));
    if validation == Some(false) then RuntimeDecision(NoChange, None)
    else if validation == Some(true) && recovered.Some? then RuntimeDecision(Accepted, recovered)
    else if result.status != Completed then RuntimeDecision(Review, None)
    else if decision.outcome == Accepted && validation.None? then RuntimeDecision(Review, None)
    else decision
  }

  method Decide(lower: string -> string, result: RuntimeResult) returns (decision: RuntimeDecision)
    ensures decision == Decided(lower, result)
  {
    hide StoppedByBudget, LatestCandidate;
    var passed := LatestValidationReport(result.skillResults);
    if passed.Some? && !passed.value {
      return RuntimeDecision(NoChange, None);
    }
    if passed.Some? {
      var recovered := RecoverValidatedCandidate(lower, result);
      if recovered.Some? {
        return RuntimeDecision(Accepted, recovered);
      }
    }
    if result.status != Completed {
      return RuntimeDecision(Review, None);
    }
    var payload := LatestDecisionPayload(result.steps);
    decision := Parsed(payload);
    if decision.outcome == Accepted && passed.None? {
      return RuntimeDecision(Review, None);
    }
  }

  // ----- the validation pipeline

  /** One deterministic constraint: its verdict on a candidate, or None when it raises. */
  type Plugin = Schema -> Option<bool>

  /** Every plugin returned and passed; a broken plugin fails the pipeline. */
  predicate Passes(plugins: seq<Plugin>, candidate: Schema) {
    forall i :: 0 <= i < |plugins| ==> plugins[i](candidate) == Some(true)
  }

  method ValidateCandidate(plugins: seq<Plugin>, candidate: Schema) returns (passed: bool, results: seq<bool>)
    ensures passed <==> Passes(plugins, candidate)
    ensures |results| == |plugins| && forall i :: 0 <= i < |plugins| ==>
              results[i] == (plugins[i](candidate) == Some(true))
  {
    results := [];
    passed := true;
    for i := 0 to |plugins|
      invariant |results| == i && forall j :: 0 <= j < i ==> results[j] == (plugins[j](candidate) == Some(true))
      invariant passed <==> forall j :: 0 <= j < i ==> plugins[j](candidate) == Some(true)
    {
      var result := plugins[i](candidate);
      results := results + [result.GetOr(false)];
      passed := passed && result.GetOr(false);
    }
  }

  // ----- the governance service

  /** `updatedKeys` counts as a schema change for the plan, but not as a proposal that starts the runtime. */
  datatype Proposal = Proposal(newKeys: seq<string>, updatedKeys: seq<string>, removedKeys: seq<string>)

  /** What preparation found: whether snapshot and indexes fit, whether a proposal plugin failed, and the proposal. */
  datatype Evidence = Evidence(consistent: bool, pluginFailed: bool, proposal: Proposal, refreshCases: seq<string>)

  datatype Verdict = NoChangeVerdict | AcceptedVerdict | RequiresReviewVerdict

  datatype GovernanceResult = GovernanceResult(
    decision: Verdict, acceptedSchema: Option<Schema>, requiresReview: bool, proposal: Proposal,
    refreshCases: seq<string>)

  /** The configuration: the runtime agent and the validation pipeline may be absent. */
  datatype Setup = Setup(hasAgent: bool, pipeline: Option<seq<Plugin>>, lower: string -> string)

  predicate Effective(p: Proposal) {
    p.newKeys != [] || p.removedKeys != []
  }

  function AssessDeterministic(evidence: Evidence, current: Schema): GovernanceResult {
    if !evidence.consistent || evidence.pluginFailed || Effective(evidence.proposal)
    then GovernanceResult(RequiresReviewVerdict, None, true, evidence.proposal, evidence.refreshCases)
    else GovernanceResult(NoChangeVerdict, Some(current), false, evidence.proposal, evidence.refreshCases)
  }

  /** `_final_fit_gate`: without a pipeline nothing passes. */
  predicate Gate(setup: Setup, candidate: Schema) {
    setup.pipeline.Some? && Passes(setup.pipeline.value, candidate)
  }

  function WithDecision(
    setup: Setup, base: GovernanceResult, decision: RuntimeDecision, current: Schema): GovernanceResult {
    if decision.outcome == Accepted && decision.acceptedSchema.Some? then
      if Gate(setup, decision.acceptedSchema.value)
      then base.(decision := AcceptedVerdict, acceptedSchema := decision.acceptedSchema, requiresReview := false)
      else base.(decision := RequiresReviewVerdict, acceptedSchema := None, requiresReview := true)
    else if decision.outcome == NoChange
    then base.(decision := AcceptedVerdict, acceptedSchema := Some(current), requiresReview := false)
    else base.(decision := RequiresReviewVerdict, acceptedSchema := None, requiresReview := true)
  }

  /** `assess_async`; `result` is whatever the runtime returns if it is asked. */
  function Assessed(setup: Setup, evidence: Evidence, current: Schema, result: RuntimeResult): GovernanceResult {
    var base := AssessDeterministic(evidence, current);
    if !setup.hasAgent || !Effective(base.proposal) then base
    else WithDecision(setup, base, Decided(setup.lower, result), current)
  }

  method Assess(setup: Setup, evidence: Evidence, current: Schema, result: RuntimeResult) returns (g: GovernanceResult)
    ensures g == Assessed(setup, evidence, current, result)
  {
    hide Decided, Passes;
    var base := AssessDeterministic(evidence, current);
    if !setup.hasAgent || !Effective(base.proposal) {
      return base;
    }
    var decision := Decide(setup.lower, result);
    if decision.outcome == Accepted && decision.acceptedSchema.Some? {
      var passed := false;
      if setup.pipeline.Some? {
        var allPassed, results := ValidateCandidate(setup.pipeline.value, decision.acceptedSchema.value);
        passed := allPassed;
      }
      return if passed
        then base.(decision := AcceptedVerdict, acceptedSchema := decision.acceptedSchema, requiresReview := false)
             else base.(decision := RequiresReviewVerdict, acceptedSchema := None, requiresReview := true);
    }
    g := WithDecision(setup, base, decision, current);
  }

  // ----- the plan

  /** `_has_schema_change`. */
  predicate HasSchemaChange(p: Proposal) {
    p.newKeys != [] || p.updatedKeys != [] || p.removedKeys != []
  }

  /** The drain goes on to projection and mutation. */
  predicate Proceeds(g: GovernanceResult) {
    (g.decision == AcceptedVerdict || g.decision == NoChangeVerdict) && !g.requiresReview
  }

  /** `from_governance`: the schema of the mutation plan. */
  function PlanSchema(g: GovernanceResult): Option<Schema> {
    if HasSchemaChange(g.proposal) then g.acceptedSchema else None
  }

  // ----- exactly when the stored schema changes

  /** What a drain does to the schema document: nothing unless it proceeds. */
  function SchemaDrained(tree: Tree, g: GovernanceResult, now: int): Tree {
    if Proceeds(g) then SchemaApplied(tree, PlanSchema(g), now) else tree
  }

  /** The latest result of the validation skill is at i. */
  predicate LatestReport(results: seq<SkillResult>, i: int) {
    && 0 <= i < |results| && results[i].skillId == "governance.validate_candidate"
    && forall j :: i < j < |results| ==> results[j].skillId != "governance.validate_candidate"
  }

  /** The latest validation reported this verdict; only an output object with a true `passed` passes. */
  ghost predicate Reported(result: RuntimeResult, passed: bool) {
    exists i :: LatestReport(result.skillResults, i) &&
      (passed <==> result.skillResults[i].ok && result.skillResults[i].report == Some(true))
  }

  /** The latest decision step with a payload is at i. */
  predicate LatestDecision(steps: seq<Step>, i: int) {
    && 0 <= i < |steps| && steps[i].DecisionStep? && steps[i].payload.Some?
    && forall j :: i < j < |steps| ==> !(steps[j].DecisionStep? && steps[j].payload.Some?)
  }

  /** The run's last decision says so, and brings no schema or a complete one that parses. */
  ghost predicate ConcludedNoChange(result: RuntimeResult) {
    exists i :: LatestDecision(result.steps, i) &&
      var payload := result.steps[i].payload.value;
      && payload.outcome == Some(NoChange)
      && (payload.schema.Some? ==>
            payload.schema.value.SchemaObject? && payload.schema.value.complete && payload.schema.value.parsed.Some?)
  }

  ghost predicate ConcludedAccepted(result: RuntimeResult, s: Schema) {
    exists i :: LatestDecision(result.steps, i) &&
      result.steps[i].payload.value == Payload(Some(Accepted), Some(SchemaObject(true, Some(s))))
  }

  /** A call of the validation skill with a candidate that parses. */
  predicate CallsWith(step: Step, s: Schema) {
    && step.ActionStep? && step.capabilityId == "governance.validate_candidate"
    && (step.candidate == Some(SchemaObject(true, Some(s))) || step.candidate == Some(SchemaObject(false, Some(s))))
  }

  /** The latest candidate that parses is the one at i. */
  ghost predicate LatestCall(steps: seq<Step>, i: int, s: Schema) {
    0 <= i < |steps| && CallsWith(steps[i], s) && forall j, other :: i < j < |steps| ==> !CallsWith(steps[j], other)
  }

  /** One of the budget messages occurs in the summary. */
  ghost predicate NamesBudget(summary: string) {
    exists i :: 0 <= i <= |summary| &&
      (|| "skill budget exceeded" <= summary[i..] || "action budget exhausted" <= summary[i..]
       || "no executable action left" <= summary[i..])
  }

  /** The validated candidate a run that stopped on its budget leaves. */
  ghost predicate LeftOver(lower: string -> string, result: RuntimeResult, s: Schema) {
    && (result.status == Failed || result.status == RequiresReview) && NamesBudget(lower(result.finalSummary))
    && exists i :: LatestCall(result.steps, i, s)
  }

  /** The schema the runtime may legitimately hand over: the validated candidate it stopped on, or its final answer. */
  ghost predicate HandedOver(lower: string -> string, result: RuntimeResult, s: Schema) {
    LeftOver(lower, result, s) || (result.status == Completed && ConcludedAccepted(result, s))
  }

  lemma {:induction false} LatestValidationIs(results: seq<SkillResult>)
    ensures LatestValidation(results).Some? ==>
              exists i :: LatestReport(results, i)
                          && LatestValidation(results).value == (results[i].ok && results[i].report == Some(true))
    ensures LatestValidation(results).None? ==> forall i :: !LatestReport(results, i)
  {
    if results != [] {
      var front, last := results[..|results| - 1], results[|results| - 1];
      if last.skillId == VALIDATE {
        assert LatestReport(results, |results| - 1);
      } else {
        LatestValidationIs(front);
        forall i ensures LatestReport(results, i) <==> LatestReport(front, i) {
          assert forall j :: 0 <= j < |front| ==> results[j] == front[j];
        }
      }
    }
  }

  lemma LatestReportUnique(results: seq<SkillResult>, i: int, j: int)
    requires LatestReport(results, i) && LatestReport(results, j)
    ensures i == j
  {
  }

  lemma ReportedIs(result: RuntimeResult, passed: bool)
    ensures Reported(result, passed) <==> LatestValidation(result.skillResults) == Some(passed)
  {
    LatestValidationIs(result.skillResults);
    hide LatestReport;
    if i :| LatestReport(result.skillResults, i) {
      forall j | LatestReport(result.skillResults, j) ensures i == j {
        LatestReportUnique(result.skillResults, i, j);
      }
    }
  }

  lemma {:induction false} LatestPayloadIs(steps: seq<Step>)
    ensures LatestPayload(steps) == Payload(None, None)
              || exists i :: LatestDecision(steps, i) && steps[i].payload == Some(LatestPayload(steps))
    ensures forall i :: LatestDecision(steps, i) ==> steps[i].payload == Some(LatestPayload(steps))
  {
    if steps != [] {
      var front, last := steps[..|steps| - 1], steps[|steps| - 1];
      if last.DecisionStep? && last.payload.Some? {
        assert LatestDecision(steps, |steps| - 1);
      } else {
        LatestPayloadIs(front);
        forall i ensures LatestDecision(steps, i) <==> LatestDecision(front, i) {
          assert forall j :: 0 <= j < |front| ==> steps[j] == front[j];
        }
      }
    }
  }

  lemma ConcludedIs(result: RuntimeResult)
    ensures Parsed(LatestPayload(result.steps)).outcome == NoChange <==> ConcludedNoChange(result)
    ensures forall s :: Parsed(LatestPayload(result.steps)) == RuntimeDecision(Accepted, Some(s)) <==>
              ConcludedAccepted(result, s)
  {
    hide LatestPayload, LatestDecision;
    LatestPayloadIs(result.steps);
  }

  lemma {:induction false} LatestCandidateIs(steps: seq<Step>, s: Schema)
    ensures LatestCandidate(steps) == Some(s) <==> exists i :: LatestCall(steps, i, s)
  {
    if steps != [] {
      var front, last := steps[..|steps| - 1], steps[|steps| - 1];
      assert forall j :: 0 <= j < |front| ==> steps[j] == front[j];
      LatestCandidateIs(front, s);
      ValidatedCalls(last);
      hide Validated, CallsWith;
      if Validated(last).Some? {
        if Validated(last) == Some(s) {
          assert LatestCall(steps, |steps| - 1, s);
        }
      } else {
        forall i ensures LatestCall(steps, i, s) <==> LatestCall(front, i, s) {
        }
      }
    }
  }

  lemma ValidatedCalls(step: Step)
    ensures forall s :: Validated(step) == Some(s) <==> CallsWith(step, s)
  {
  }

  lemma {:induction false} ContainsAt(text: string, part: string)
    ensures Contains(text, part) <==> exists i :: 0 <= i <= |text| && part <= text[i..]
  {
    if part <= text {
      assert text[0..] == text;
    } else if text != "" {
      ContainsAt(text[1..], part);
      assert text[0..] == text;
      forall i | 0 < i <= |text| ensures text[i..] == text[1..][i - 1..] {
      }
      if i :| 0 <= i <= |text[1..]| && part <= text[1..][i..] {
        assert part <= text[i + 1..];
      }
    } else {
      assert forall i :: 0 <= i <= |text| ==> text[i..] == text;
    }
  }

  lemma RecoveredIs(lower: string -> string, result: RuntimeResult, s: Schema)
    ensures Recovered(lower, result) == Some(s) <==> LeftOver(lower, result, s)
  {
    var summary := lower(result.finalSummary);
    LatestCandidateIs(result.steps, s);
    ContainsAt(summary, "skill budget exceeded");
    ContainsAt(summary, "action budget exhausted");
    ContainsAt(summary, "no executable action left");
    hide Contains, LatestCandidate, LatestCall;
  }

  lemma HandedOverIs(lower: string -> string, result: RuntimeResult, s: Schema)
    ensures HandedOver(lower, result, s) <==>
              if Recovered(lower, result).Some? then Recovered(lower, result) == Some(s)
              else
                result.status == Completed
                && Parsed(LatestPayload(result.steps)) == RuntimeDecision(Accepted, Some(s))
  {
    RecoveredIs(lower, result, s);
    ConcludedIs(result);
    hide Contains, LatestCandidate, LatestPayload, Parsed, LeftOver, ConcludedAccepted;
  }

  /**
    The only way to a new schema: an effective proposal, a runtime whose latest validation report passed, and a
    schema handed over by that runtime which the pipeline, run again outside the runtime, passes as well.
   */
  ghost predicate Adopts(setup: Setup, evidence: Evidence, result: RuntimeResult, s: Schema) {
    && setup.hasAgent && (evidence.proposal.newKeys != [] || evidence.proposal.removedKeys != [])
    && Reported(result, true) && HandedOver(setup.lower, result, s)
    && setup.pipeline.Some?
    && forall i :: 0 <= i < |setup.pipeline.value| ==> setup.pipeline.value[i](s) == Some(true)
  }

  /** A drain adopts a schema other than the current one exactly under `Adopts`. */
  lemma AdoptsExactly(setup: Setup, evidence: Evidence, current: Schema, result: RuntimeResult, s: Schema)
    requires s != current
    ensures var g := Assessed(setup, evidence, current, result);
            Proceeds(g) && PlanSchema(g) == Some(s) <==> Adopts(setup, evidence, result, s)
  {
    hide LatestValidation, LatestPayload, Parsed, Contains, LatestCandidate, Reported;
    DecidedAccepted(setup.lower, result, s);
    hide Decided, HandedOver;
  }

  lemma ParsedAccepted(payload: Payload)
    ensures Parsed(payload).outcome == Accepted ==> Parsed(payload).acceptedSchema.Some?
  {
  }

  lemma DecidedAccepted(lower: string -> string, result: RuntimeResult, s: Schema)
    ensures Decided(lower, result).outcome == Accepted ==> Decided(lower, result).acceptedSchema.Some?
    ensures Decided(lower, result) == RuntimeDecision(Accepted, Some(s)) <==>
              Reported(result, true) && HandedOver(lower, result, s)
  {
    hide LatestValidation, LatestPayload, Parsed, Recovered, HandedOver, Reported;
    ParsedAccepted(LatestPayload(result.steps));
    HandedOverIs(lower, result, s);
    ReportedIs(result, true);
    var validation := LatestValidation(result.skillResults);
    if validation.Some? {
      assert validation.value ==> validation == Some(true);
      assert !validation.value ==> validation == Some(false);
    }
  }

  /**
    Main result: a drain goes on exactly in these cases.  Without an agent, or without new or removed keys to decide on,
    the evidence alone decides; otherwise the runtime does, by a failed validation, by a schema handed over after a
    passed one that also passes the pipeline, or by a completed run that concluded no change.  In every other case a
    review is required and nothing is accepted.
   */
  lemma ProceedsExactly(setup: Setup, evidence: Evidence, current: Schema, result: RuntimeResult)
    ensures var g, asked := Assessed(setup, evidence, current, result),
                            setup.hasAgent && (evidence.proposal.newKeys != [] || evidence.proposal.removedKeys != []);
            && g.proposal == evidence.proposal && g.refreshCases == evidence.refreshCases
            && (!asked ==>
                  && (Proceeds(g) <==> evidence.consistent && !evidence.pluginFailed
                                       && evidence.proposal.newKeys == [] && evidence.proposal.removedKeys == [])
                  && (Proceeds(g) ==> g.decision == NoChangeVerdict && g.acceptedSchema == Some(current)))
            && (asked ==>
                  && (Proceeds(g) <==>
                        || Reported(result, false) || (exists s :: Adopts(setup, evidence, result, s))
                        || (result.status == Completed && ConcludedNoChange(result)))
                  && (Proceeds(g) ==> g.decision == AcceptedVerdict && g.acceptedSchema.Some?)
                  && (Reported(result, false) ==> g.acceptedSchema == Some(current))
                  && (forall s :: Adopts(setup, evidence, result, s) ==> g.acceptedSchema == Some(s)))
            && (!Proceeds(g) ==>
                  g.decision == RequiresReviewVerdict && g.requiresReview && g.acceptedSchema == None)
  {
    hide LatestValidation, LatestPayload, Parsed, Recovered, HandedOver, Reported, ConcludedNoChange, Decided;
    if setup.hasAgent && Effective(evidence.proposal) {
      var decision := Decided(setup.lower, result);
      DecidedNoChange(setup.lower, result);
      DecidedAccepted(setup.lower, result, current);
      forall s ensures Adopts(setup, evidence, result, s) <==>
                         decision == RuntimeDecision(Accepted, Some(s)) && Gate(setup, s) {
        DecidedAccepted(setup.lower, result, s);
      }
      hide Adopts;
      if decision.outcome == Accepted {
        var s := decision.acceptedSchema.value;
        assert decision == RuntimeDecision(Accepted, Some(s));
        assert Gate(setup, s) ==> Adopts(setup, evidence, result, s);
      }
    }
  }

  /** A run whose validation failed. */
  function FailedValidation(): RuntimeResult {
    RuntimeResult(Completed, "", [], [SkillResult(VALIDATE, false, None)])
  }

  /**
    Inconsistent evidence or a failed proposal plugin stops the drain whatever the runtime says exactly when the runtime
    is not asked at all: with an agent and keys to decide on, even a failed validation lets the drain go on.
   */
  lemma RejectionStandsIff(setup: Setup, evidence: Evidence, current: Schema)
    requires !evidence.consistent || evidence.pluginFailed
    ensures (forall result :: !Proceeds(Assessed(setup, evidence, current, result))) <==>
              !setup.hasAgent || (evidence.proposal.newKeys == [] && evidence.proposal.removedKeys == [])
    ensures setup.hasAgent && evidence.proposal.newKeys != [] ==>
              Proceeds(Assessed(setup, evidence, current, FailedValidation()))
  {
    var result := FailedValidation();
    assert LatestReport(result.skillResults, 0);
    ProceedsExactly(setup, evidence, current, result);
    forall other ensures !setup.hasAgent || !Effective(evidence.proposal) ==>
                           !Proceeds(Assessed(setup, evidence, current, other)) {
      ProceedsExactly(setup, evidence, current, other);
    }
    hide Assessed, Proceeds;
  }

  lemma DecidedNoChange(lower: string -> string, result: RuntimeResult)
    ensures Decided(lower, result).outcome == NoChange <==>
              || Reported(result, false)
              || (result.status == Completed && ConcludedNoChange(result))
    ensures Reported(result, false) ==> !Reported(result, true)
  {
    hide LatestValidation, LatestPayload, Parsed, LatestCandidate, Contains, Reported, ConcludedNoChange;
    ConcludedIs(result);
    ReportedIs(result, true);
    ReportedIs(result, false);
  }

  /** The run validated one schema and then accepted another. */
  function ValidatedThenAccepted(validated: Schema, accepted: Schema): RuntimeResult {
    RuntimeResult(Completed, "", [
      ActionStep(VALIDATE, Some(SchemaObject(true, Some(validated)))),
      DecisionStep(Some(Payload(Some(Accepted), Some(SchemaObject(true, Some(accepted))))))
    ], [SkillResult(VALIDATE, true, Some(true))])
  }

  /** The passing report need not be about the schema handed over: only the pipeline looks at that one. */
  lemma AnotherSchemaAdopted(setup: Setup, evidence: Evidence, current: Schema, validated: Schema, accepted: Schema)
    requires setup.hasAgent && Effective(evidence.proposal) && Gate(setup, accepted)
    requires accepted != current && accepted != validated
    ensures var result := ValidatedThenAccepted(validated, accepted);
            && LatestCandidate(result.steps) == Some(validated)
            && Proceeds(Assessed(setup, evidence, current, result))
            && PlanSchema(Assessed(setup, evidence, current, result)) == Some(accepted)
  {
    var result := ValidatedThenAccepted(validated, accepted);
    assert result.steps[..1][..0] == [];
    hide Contains, Passes, Assessed;
    AdoptsExactly(setup, evidence, current, result, accepted);
  }

  /** A plan whose schema is the stored one leaves the document, its times included, untouched. */
  lemma SavingTheSameIsInvisible(tree: Tree, schema: Schema, now: int)
    requires SchemaPath in tree && tree[SchemaPath].SchemaFile?
    ensures SchemaSaved(tree, schema, now) == tree <==> SchemaIn(tree) == schema
    ensures SchemaIn(tree) != schema ==>
              SchemaSaved(tree, schema, now) == tree[SchemaPath := SchemaFile(schema, tree[SchemaPath].createdAt, now)]
  {
    if SchemaIn(tree) != schema {
      assert SchemaSaved(tree, schema, now)[SchemaPath] != tree[SchemaPath];
    }
  }

  lemma PlanSchemaFrom(setup: Setup, evidence: Evidence, current: Schema, result: RuntimeResult)
    ensures var g := Assessed(setup, evidence, current, result); Proceeds(g) ==> g.acceptedSchema.Some?
  {
    hide Decided, Passes;
  }

  /**
    Main result: for every runtime result, a drain changes the stored schema document only to a schema adopted as
    above; in every other case the workspace, the document's time of update included, stays as it was.
   */
  lemma SchemaChangesOnlyIfAdopted(setup: Setup, evidence: Evidence, result: RuntimeResult, tree: Tree, now: int)
    requires SchemaPath in tree && tree[SchemaPath].SchemaFile?
    ensures var after := SchemaDrained(tree, Assessed(setup, evidence, SchemaIn(tree), result), now);
            && (after != tree <==> exists s :: s != SchemaIn(tree) && Adopts(setup, evidence, result, s))
            && (forall s :: s != SchemaIn(tree) && Adopts(setup, evidence, result, s) ==>
                  after == tree[SchemaPath := SchemaFile(s, tree[SchemaPath].createdAt, now)])
  {
    var current := SchemaIn(tree);
    var g := Assessed(setup, evidence, current, result);
    PlanSchemaFrom(setup, evidence, current, result);
    hide Assessed, Adopts, SchemaSaved, Proceeds;
    forall s | s != current ensures Proceeds(g) && PlanSchema(g) == Some(s) <==> Adopts(setup, evidence, result, s) {
      AdoptsExactly(setup, evidence, current, result, s);
    }
    if Proceeds(g) && PlanSchema(g).Some? {
      SavingTheSameIsInvisible(tree, PlanSchema(g).value, now);
    }
  }
}
