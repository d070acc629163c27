/**
  The agent runtime: internal/runtime/service.py, internal/runtime/orchestration/runner.py,
  internal/runtime/loop/engine.py, internal/runtime/loop/termination.py, internal/runtime/execution,
  internal/runtime/completion/gate.py, internal/runtime/subrun and internal/runtime/memory/state.py.
 */
module Runtime {
  import opened Options
  import opened Text
  import opened Trace
  import opened RuntimeWorld

  // ----- the persisted files of one run

  datatype Record = Record(
    stepCount: nat, toolCallCount: nat, skillCallCount: nat, maxSteps: int, maxToolCalls: int, maxSkillCalls: int)

  function AtLeast(a: int, b: int): int {
    if a > b then a else b
  }

  datatype Ending = Ending(status: Status, raised: bool)

  /** The run's record in the run repository and its steps in the step repository. */
  class RunFile {
    const runId: string
    var record: Record
    var log: seq<Step>
    /** The saved status of the run, and whether it raised; None while it is running. */
    var ended: Option<Ending>
    /** What the run has asked. */
    ghost var asked: seq<Asked>

    constructor (runId: string, record: Record)
      ensures this.runId == runId && this.record == record && log == [] && ended == None && asked == []
    {
      this.runId := runId;
      this.record := record;
      log := [];
      ended := None;
      asked := [];
    }

    /** `append_step`. */
    method AppendStep(
      stepType: StepType, name: string, inputTurn: Option<TurnRef>, outputTurn: Option<TurnRef>, body: string)
      modifies `log, `record
      ensures log == old(log) + [Step(|old(log)|, stepType, name, inputTurn, outputTurn, body)]
      ensures record == old(record).(stepCount := |log|)
    {
      log := log + [Step(|log|, stepType, name, inputTurn, outputTurn, body)];
      record := record.(stepCount := |log|);
    }

    predicate StepsLeft(n: nat)
      reads this
    {
      record.stepCount + n <= record.maxSteps
    }
  }

  // ----- what a run's files may become

  /** Every executed capability is one the request allows. */
  predicate Allowed(request: Request, step: Step) {
    && (step.stepType == ToolCall ==> step.name in request.allowedTools)
    && (step.stepType == SkillCall ==> step.name in request.allowedSkills)
  }

  /** The counted tool and skill calls are within their limits. */
  predicate CallsWithin(record: Record) {
    record.toolCallCount <= AtLeast(record.maxToolCalls, 0) && record.skillCallCount <= AtLeast(record.maxSkillCalls, 0)
  }

  /**
    What a run started on fresh files keeps: the step count and indices fit the log, and nothing forbidden was executed.
   */
  predicate Tidy(request: Request, record: Record, log: seq<Step>) {
    && record.stepCount == |log| && CallsWithin(record)
    && forall i :: 0 <= i < |log| ==> log[i].index == i && Allowed(request, log[i])
  }

  predicate SameLimits(a: Record, b: Record) {
    a.maxSteps == b.maxSteps && a.maxToolCalls == b.maxToolCalls && a.maxSkillCalls == b.maxSkillCalls
  }

  /** How many more steps a loop may take: one more than the budget says when a reused run was reset. */
  function Fuel(record: Record, log: seq<Step>): nat {
    (if record.maxSteps > |log| then record.maxSteps - |log| else 0) + (if record.stepCount == |log| then 0 else 1)
  }

  /** Steps were appended within the budget, as far as a tidy run is concerned. */
  predicate Advanced(request: Request, record: Record, log: seq<Step>, record': Record, log': seq<Step>) {
    && log <= log' && SameLimits(record, record')
    && (|log'| == |log| ==> record'.stepCount == record.stepCount)
    && (|log'| > |log| ==> record'.stepCount == |log'|)
    && (Tidy(request, record, log) ==> Tidy(request, record', log') && |log'| <= AtLeast(|log|, record.maxSteps))
  }

  lemma AdvancedNot(request: Request, record: Record, log: seq<Step>)
    ensures Advanced(request, record, log, record, log)
  {
  }

  lemma AdvancedTwice(
    request: Request, record: Record, log: seq<Step>, record': Record, log': seq<Step>, record'': Record,
    log'': seq<Step>)
    requires Advanced(request, record, log, record', log') && Advanced(request, record', log', record'', log'')
    ensures Advanced(request, record, log, record'', log'')
  {
    hide Tidy;
  }

  lemma AdvancedStep(request: Request, record: Record, log: seq<Step>, step: Step)
    requires record.stepCount + 1 <= record.maxSteps && step.index == |log| && Allowed(request, step)
    ensures Advanced(request, record, log, record.(stepCount := |log| + 1), log + [step])
  {
  }

  /** A call and its result, counted once. */
  lemma AdvancedCall(request: Request, record: Record, log: seq<Step>, call: Step, result: Step, record': Record)
    requires record.stepCount + 2 <= record.maxSteps && call.index == |log| && result.index == |log| + 1
    requires Allowed(request, call) && Allowed(request, result)
    requires record' == record.(stepCount := |log| + 2, toolCallCount := record'.toolCallCount, skillCallCount :=
              record'.skillCallCount)
    requires CallsWithin(record) ==> CallsWithin(record')
    ensures Advanced(request, record, log, record', log + [call] + [result])
  {
  }

  /** Taking a step uses up fuel, even on files a reused run left behind. */
  lemma StepBurnsFuel(request: Request, record: Record, log: seq<Step>, record': Record, log': seq<Step>)
    requires record.stepCount + 1 <= record.maxSteps && record.stepCount <= |log|
    requires Advanced(request, record, log, record', log') && |log'| > |log|
    ensures Fuel(record', log') < Fuel(record, log)
  {
  }

  /** The log is one the replay understands, and holds `turns` decisions. */
  predicate Traced(runId: string, log: seq<Step>, turns: nat) {
    Recorded(runId, log) && Decisions(log) == turns
  }

  lemma TracedStep(runId: string, log: seq<Step>, turns: nat, step: Step)
    requires Traced(runId, log, turns) && step.stepType != DecisionStep && WrittenIn(runId, turns - 1, step)
    ensures Traced(runId, log + [step], turns)
  {
    RecordedSnoc(runId, log, step);
  }

  lemma TracedDecision(runId: string, log: seq<Step>, turns: nat, step: Step)
    requires Traced(runId, log, turns) && step.stepType == DecisionStep && step.name == DecisionName(runId, turns)
    ensures Traced(runId, log + [step], turns + 1)
  {
    RecordedSnoc(runId, log, step);
  }

  // ----- the run state

  class RunState {
    var turnCount: nat
    var failures: seq<string>
    var observations: seq<string>
    var toolResults: seq<CapabilityResult>
    var skillResults: seq<CapabilityResult>
    var appliedActions: seq<string>

    constructor ()
      ensures turnCount == 0 && failures == [] && observations == [] && skillResults == []
    {
      turnCount := 0;
      failures, observations, toolResults, skillResults, appliedActions := [], [], [], [], [];
    }

    ghost function Collected(): Results
      reads this
    {
      Results(toolResults, skillResults, appliedActions, failures)
    }
  }

  const SUBRUN := "verification_subrun"
  const FEEDBACK := "verification_feedback"

  /** How many verification sub-runs the observations record. */
  function SubRuns(observations: seq<string>): nat {
    if observations == [] then 0
    else SubRuns(observations[..|observations| - 1]) + (if observations[|observations| - 1] == SUBRUN then 1 else 0)
  }

  lemma SubRunsSnoc(observations: seq<string>, kind: string)
    ensures SubRuns(observations + [kind]) == SubRuns(observations) + (if kind == SUBRUN then 1 else 0)
  {
    assert (observations + [kind])[..|observations|] == observations;
  }

  // ----- executing a decision

  /** What a run has collected. */
  datatype Results = Results(
    tools: seq<CapabilityResult>, skills: seq<CapabilityResult>, applied: seq<string>, failures: seq<string>)
  {
    function Add(isTool: bool, action: Action, result: CapabilityResult): Results {
      Results(
        tools + (if isTool then [result] else []), skills + (if isTool then [] else [result]),
        applied + [if action.actionId != "" then action.actionId else Strip(action.capabilityId)],
        failures + (if result.ok then [] else [result.errorMessage]))
    }
  }

  /** How many of the calls went to tools. */
  ghost function Tools(calls: seq<Asked>): nat {
    |set i | 0 <= i < |calls| && calls[i].AskedTool?|
  }

  lemma ToolsSnoc(calls: seq<Asked>, q: Asked)
    ensures Tools(calls + [q]) == Tools(calls) + (if q.AskedTool? then 1 else 0)
    ensures Tools(calls) <= |calls|
  {
    var more := calls + [q];
    var before := set i | 0 <= i < |calls| && calls[i].AskedTool?;
    assert (set i | 0 <= i < |more| && more[i].AskedTool?) == before + (if q.AskedTool? then {|calls|} else {});
    ToolsBound(calls);
  }

  lemma {:induction false} ToolsBound(calls: seq<Asked>)
    ensures Tools(calls) <= |calls|
  {
    if calls != [] {
      var front, q := calls[..|calls| - 1], calls[|calls| - 1];
      ToolsBound(front);
      var before := set i | 0 <= i < |front| && front[i].AskedTool?;
      assert (set i | 0 <= i < |calls| && calls[i].AskedTool?) == before + (if q.AskedTool? then {|front|} else {});
    }
  }

  /** The i-th call's result stands at its place, its action is applied, and its failure is noted. */
  ghost predicate ResultAt(world: World, action: Action, calls: seq<Asked>, i: nat, r0: Results, r: Results)
    requires i < |calls| && Answered(world, calls[i])
  {
    && (calls[i].AskedTool? ==>
          var k := |r0.tools| + Tools(calls[..i]); k < |r.tools| && r.tools[k] == world.tools(calls[i].n).value)
    && (calls[i].AskedSkill? ==>
          var k := |r0.skills| + i - Tools(calls[..i]);
          0 <= k < |r.skills| && r.skills[k] == world.skills(calls[i].n).value)
    && |r0.applied| + i < |r.applied|
    && r.applied[|r0.applied| + i] == (if action.actionId != "" then action.actionId else Strip(action.capabilityId))
  }

  /** The answers to the calls for the first actions have been collected, in order. */
  ghost predicate Collected(world: World, actions: seq<Action>, calls: seq<Asked>, r0: Results, r: Results) {
    && |calls| <= |actions| && (forall i :: 0 <= i < |calls| ==> Answered(world, calls[i]))
    && r0.tools <= r.tools && |r.tools| == |r0.tools| + Tools(calls)
    && r0.skills <= r.skills && |r.skills| == |r0.skills| + |calls| - Tools(calls)
    && r0.applied <= r.applied && |r.applied| == |r0.applied| + |calls|
    && r0.failures <= r.failures && (r.failures != r0.failures <==> SomeFailing(world, calls))
    && forall i :: 0 <= i < |calls| ==> ResultAt(world, actions[i], calls, i, r0, r)
  }

  /** The results with an action's answer. */
  function With(r: Results, action: Action, world: World, q: Asked): Results
    requires Answered(world, q)
  {
    r.Add(q.AskedTool?, action, if q.AskedTool? then world.tools(q.n).value else world.skills(q.n).value)
  }

  lemma CollectedNothing(world: World, actions: seq<Action>, r: Results)
    ensures Collected(world, actions, [], r, r)
  {
    ToolsBound([]);
  }

  lemma CollectedNext(
    world: World, actions: seq<Action>, calls: seq<Asked>, q: Asked, r0: Results, r: Results, r': Results)
    requires Collected(world, actions, calls, r0, r) && |calls| < |actions| && Answered(world, q)
    requires r' == With(r, actions[|calls|], world, q)
    ensures Collected(world, actions, calls + [q], r0, r')
  {
    hide Tools, Strip, Failing;
    var more := calls + [q];
    ToolsSnoc(calls, q);
    assert more[..|calls|] == calls;
    forall i | 0 <= i < |more| ensures ResultAt(world, actions[i], more, i, r0, r') {
      if i < |calls| {
        assert more[..i] == calls[..i];
        assert ResultAt(world, actions[i], calls, i, r0, r);
      }
    }
    SomeFailingSnoc(world, calls, q);
    FailingAnswer(world, q);
  }

  lemma SomeFailingSnoc(world: World, calls: seq<Asked>, q: Asked)
    ensures SomeFailing(world, calls + [q]) <==> SomeFailing(world, calls) || Failing(world, q)
  {
    hide Failing;
    assert forall x :: x in calls + [q] <==> x in calls || x == q;
  }

  lemma FailingAnswer(world: World, q: Asked)
    requires Answered(world, q)
    ensures Failing(world, q) <==> !(if q.AskedTool? then world.tools(q.n).value else world.skills(q.n).value).ok
  {
  }

  /** The three steps of an executed action. */
  predicate ActionLogged(request: Request, action: Action, log: seq<Step>, b: nat) {
    var id := Strip(action.capabilityId);
    var isTool := id in request.allowedTools;
    && b + 3 <= |log|
    && log[b] == Step(b, ActionStep,
         if action.title != "" then action.title else if action.actionId != "" then action.actionId else id,
         action.inputTurn, None, "")
    && log[b + 1] == Step(b + 1, if isTool then ToolCall else SkillCall, id, action.inputTurn, None, "")
    && log[b + 2] == Step(b + 2, if isTool then ToolResult else SkillResult, id, None, None, "")
  }

  class Engine {
    const world: World

    constructor (world: World)
      ensures this.world == world
    {
      this.world := world;
    }

    /** `should_stop`: failures first, then accepted work, then what the decision says. */
    method ShouldStop(file: RunFile, state: RunState, decision: Decision) returns (stop: Option<Status>)
      modifies world, file`asked
      ensures state.failures != [] ==>
                stop == Some(Failed) && file.asked == old(file.asked) && world.clock == old(world.clock)
      ensures state.failures == [] ==>
                && file.asked == old(file.asked) + [AskedAcceptance(old(world.clock))]
                && world.clock == old(world.clock) + 1
                && (stop.Some? ==> EndsWith(world.acceptance(old(world.clock)), decision, stop.value))
                && (stop.None? ==>
                      !world.acceptance(old(world.clock)) && !decision.requiresReview && !decision.shouldStop)
    {
      if state.failures != [] {
        return Some(Failed);
      }
      var now := world.Tick();
      file.asked := file.asked + [AskedAcceptance(now)];
      if world.acceptance(now) {
        return Some(Completed);
      }
      if decision.requiresReview {
        return Some(RequiresReview);
      }
      if decision.shouldStop {
        return Some(Completed);
      }
      stop := None;
    }

    method Ask(file: RunFile, isTool: bool) returns (r: Result<CapabilityResult>)
      modifies file`asked, world
      ensures var now := old(world.clock);
              && world.clock == now + 1
              && file.asked == old(file.asked) + [if isTool then AskedTool(now) else AskedSkill(now)]
              && r == if isTool then world.tools(now) else world.skills(now)
    {
      var now := world.Tick();
      file.asked := file.asked + [if isTool then AskedTool(now) else AskedSkill(now)];
      r := if isTool then world.tools(now) else world.skills(now);
    }

    /** One tool or skill call: two steps and one counted call, or an exception after at most the first step. */
    method Execute(
      file: RunFile, request: Request, isTool: bool, capabilityId: string, inputTurn: Option<TurnRef>, ghost turns: nat)
      returns (r: Result<CapabilityResult>)
      requires capabilityId in (if isTool then request.allowedTools else request.allowedSkills)
      modifies file`log, file`record, file`asked, world
      ensures r.Ok? ==>
                && file.log == old(file.log)
                     + [Step(|old(file.log)|, if isTool then ToolCall else SkillCall,
                          capabilityId, inputTurn, None, "")]
                     + [Step(|old(file.log)| + 1, if isTool then ToolResult else SkillResult,
                          capabilityId, None, None, "")]
                && file.record == old(file.record).(
                     stepCount := |old(file.log)| + 2,
                     toolCallCount := old(file.record.toolCallCount) + (if isTool then 1 else 0),
                     skillCallCount := old(file.record.skillCallCount) + (if isTool then 0 else 1))
      ensures r.Err? ==> file.record == old(file.record).(stepCount := file.record.stepCount)
      ensures old(file.log) <= file.log && !SomeRaised(file.log, |old(file.log)|)
      ensures old(file.asked) <= file.asked && world.clock == old(world.clock) + |file.asked| - |old(file.asked)|
      ensures file.asked != old(file.asked) ==>
                && file.asked ==
                  old(file.asked) + [if isTool then AskedTool(old(world.clock)) else AskedSkill(old(world.clock))]
                && r == if isTool then world.tools(old(world.clock)) else world.skills(old(world.clock))
      ensures file.asked == old(file.asked) ==>
                && r.Err? && file.log == old(file.log)
                && (|| file.record.stepCount + 2 > file.record.maxSteps
                    || (if isTool then file.record.toolCallCount + 1 > file.record.maxToolCalls
                        else file.record.skillCallCount + 1 > file.record.maxSkillCalls))
      ensures Advanced(request, old(file.record), old(file.log), file.record, file.log)
      ensures inputTurn == None && turns > 0 && Traced(file.runId, old(file.log), turns) ==>
                Traced(file.runId, file.log, turns)
    {
      hide Advanced, Traced, CallsWithin, SomeRaised;
      ghost var record0, log0 := file.record, file.log;
      NoErrorLogged(log0);
      ghost var traced := inputTurn == None && turns > 0 && Traced(file.runId, file.log, turns);
      AdvancedNot(request, record0, log0);
      var count := if isTool then file.record.toolCallCount else file.record.skillCallCount;
      var limit := if isTool then file.record.maxToolCalls else file.record.maxSkillCalls;
      if count + 1 > limit {
        return Err("run call budget exceeded");
      }
      if !file.StepsLeft(2) {
        return Err("run step budget exceeded");
      }
      ghost var call := Step(|log0|, if isTool then ToolCall else SkillCall, capabilityId, inputTurn, None, "");
      AdvancedStep(request, record0, log0, call);
      NoErrorNext(log0, log0, call);
      file.AppendStep(if isTool then ToolCall else SkillCall, capabilityId, inputTurn, None, "");
      if traced {
        TracedStep(file.runId, log0, turns, call);
      }
      r := Ask(file, isTool);
      if r.Err? {
        return;
      }
      ghost var result := Step(|log0| + 1, if isTool then ToolResult else SkillResult, capabilityId, None, None, "");
      NoErrorNext(log0, log0 + [call], result);
      file.AppendStep(if isTool then ToolResult else SkillResult, capabilityId, None, None, "");
      if traced {
        TracedStep(file.runId, log0 + [call], turns, result);
      }
      if isTool {
        file.record := file.record.(toolCallCount := file.record.toolCallCount + 1);
      } else {
        file.record := file.record.(skillCallCount := file.record.skillCallCount + 1);
      }
      CountedWithin(record0, isTool, file.record);
      AdvancedCall(request, record0, log0, call, result, file.record);
    }

    /** `validate_action`. */
    method ValidateAction(request: Request, action: Action) returns (r: Result<string>)
      ensures r.Ok? <==> (Strip(action.capabilityId) != "" &&
                          (Strip(action.capabilityId) in request.allowedTools
                            || Strip(action.capabilityId) in request.allowedSkills))
      ensures r.Ok? ==> r.value == Strip(action.capabilityId)
    {
      var capabilityId := Strip(action.capabilityId);
      if capabilityId == "" {
        return Err("runtime action missing capability_id");
      }
      if capabilityId in request.allowedTools || capabilityId in request.allowedSkills {
        return Ok(capabilityId);
      }
      r := Err("runtime capability not allowed");
    }

    /** A capability's answer in the run state. */
    method Collect(state: RunState, action: Action, isTool: bool, capabilityId: string, result: CapabilityResult)
      requires capabilityId == Strip(action.capabilityId)
      modifies state`failures, state`toolResults, state`skillResults, state`appliedActions
      ensures state.Collected() == old(state.Collected()).Add(isTool, action, result)
    {
      if isTool {
        state.toolResults := state.toolResults + [result];
      } else {
        state.skillResults := state.skillResults + [result];
      }
      if !result.ok {
        state.failures := state.failures + [result.errorMessage];
      }
      state.appliedActions := state.appliedActions + [if action.actionId != "" then action.actionId else capabilityId];
    }

    /** One action: its step, its call and its result, or an exception on the way. */
    method ExecuteAction(file: RunFile, request: Request, state: RunState, action: Action, ghost turns: nat)
      returns (r: Result<()>)
      requires file.record.stepCount <= |file.log|
      modifies file`log, file`record, file`asked, world
      modifies state`failures, state`toolResults, state`skillResults, state`appliedActions
      ensures Advanced(request, old(file.record), old(file.log), file.record, file.log)
      ensures action.inputTurn == None && turns > 0 && Traced(file.runId, old(file.log), turns) ==>
                Traced(file.runId, file.log, turns)
      ensures old(file.log) <= file.log && !SomeRaised(file.log, |old(file.log)|)
      ensures old(file.asked) <= file.asked && world.clock == old(world.clock) + |file.asked| - |old(file.asked)|
      ensures file.asked != old(file.asked) ==>
                && |file.asked| == |old(file.asked)| + 1
                && var q := file.asked[|old(file.asked)|];
                   && !q.RanChild? && q.n == old(world.clock) && CallFor(request, action, q)
                   && (r.Ok? <==> Answered(world, q))
      ensures r.Ok? ==>
                && |file.asked| == |old(file.asked)| + 1 && |file.log| == |old(file.log)| + 3
                && ActionLogged(request, action, file.log, |old(file.log)|)
                && var q := file.asked[|old(file.asked)|];
                   Answered(world, q) && state.Collected() == With(old(state.Collected()), action, world, q)
      ensures r.Err? ==> state.Collected() == old(state.Collected())
      ensures r.Err? && file.asked == old(file.asked) ==>
                var id := Strip(action.capabilityId);
                || id == "" || (id !in request.allowedTools && id !in request.allowedSkills) || !file.StepsLeft(2)
                || (if id in request.allowedTools then file.record.toolCallCount + 1 > file.record.maxToolCalls
                    else file.record.skillCallCount + 1 > file.record.maxSkillCalls)
    {
      hide Advanced, Traced, Strip, With, CallFor, Answered, Results.Add;
      ghost var record0, log0, asked0, now, r0 := file.record, file.log, file.asked, world.clock, state.Collected();
      AdvancedNot(request, record0, log0);
      var valid := ValidateAction(request, action);
      if valid.Err? {
        return Err(valid.message);
      }
      if !file.StepsLeft(1) {
        return Err("run step budget exceeded");
      }
      var capabilityId, isTool := valid.value, valid.value in request.allowedTools;
      var name := if action.title != "" then action.title else if action.actionId != "" then action.actionId
        else capabilityId;
      ghost var step := Step(|log0|, ActionStep, name, action.inputTurn, None, "");
      file.AppendStep(ActionStep, name, action.inputTurn, None, "");
      AdvancedStep(request, record0, log0, step);
      if action.inputTurn == None && turns > 0 && Traced(file.runId, log0, turns) {
        TracedStep(file.runId, log0, turns, step);
      }
      ghost var record1, log1 := file.record, file.log;
      var result := Execute(file, request, isTool, capabilityId, action.inputTurn, turns);
      AdvancedTwice(request, record0, log0, record1, log1, file.record, file.log);
      CallAnswered(world, request, action, isTool, now, r0);
      if result.Err? {
        return Err(result.message);
      }
      Collect(state, action, isTool, capabilityId, result.value);
      r := Ok(());
    }

    /**
      `execute_decision`: the first `done` actions have been executed, in order and with their results collected; an Err
      stands for the exception the next one raised.
     */
    method ExecuteDecision(file: RunFile, request: Request, state: RunState, decision: Decision, ghost turns: nat)
      returns (r: Result<()>, ghost done: nat)
      requires file.record.stepCount <= |file.log|
      modifies file`log, file`record, file`asked, world
      modifies state`failures, state`toolResults, state`skillResults, state`appliedActions
      ensures Advanced(request, old(file.record), old(file.log), file.record, file.log)
      ensures PlainActions(decision) && turns > 0 && Traced(file.runId, old(file.log), turns) ==>
                Traced(file.runId, file.log, turns)
      ensures old(file.log) <= file.log && !SomeRaised(file.log, |old(file.log)|)
      ensures old(file.asked) <= file.asked && world.clock == old(world.clock) + |file.asked| - |old(file.asked)|
      ensures done <= |decision.actions| && (r.Ok? <==> done == |decision.actions|)
      ensures var calls := file.asked[|old(file.asked)|..];
              && Consecutive(calls, old(world.clock)) && CallsInOrder(request, decision.actions, calls)
              && done <= |calls| <= done + 1 && (r.Ok? ==> |calls| == done)
              && (|calls| > done ==> !Answered(world, calls[done]))
              && Collected(world, decision.actions, calls[..done], old(state.Collected()), state.Collected())
      ensures forall i :: 0 <= i < done ==>
                ActionLogged(request, decision.actions[i], file.log, |old(file.log)| + 3 * i)
      ensures r.Ok? ==> |file.log| == |old(file.log)| + 3 * done
    {
      hide Advanced, Traced, Strip, Collected, With, CallFor, ActionLogged, Answered, CallsInOrder, Consecutive;
      ghost var record0, log0, asked0, clock0, r0 := file.record, file.log, file.asked, world.clock, state.Collected();
      ghost var traced := PlainActions(decision) && turns > 0 && Traced(file.runId, file.log, turns);
      AdvancedNot(request, record0, log0);
      CollectedNothing(world, decision.actions, r0);
      NoCalls(request, decision.actions, clock0);
      assert file.asked[|asked0|..] == [];
      done := 0;
      for i := 0 to |decision.actions|
        invariant done == i && file.record.stepCount <= |file.log|
        invariant Advanced(request, record0, log0, file.record, file.log)
        invariant traced ==> Traced(file.runId, file.log, turns)
        invariant log0 <= file.log && |file.log| == |log0| + 3 * i && !SomeRaised(file.log, |log0|)
        invariant asked0 <= file.asked && |file.asked| == |asked0| + i && world.clock == clock0 + i
        invariant Consecutive(file.asked[|asked0|..], clock0)
        invariant CallsInOrder(request, decision.actions, file.asked[|asked0|..])
        invariant Collected(world, decision.actions, file.asked[|asked0|..], r0, state.Collected())
        invariant forall j :: 0 <= j < i ==> ActionLogged(request, decision.actions[j], file.log, |log0| + 3 * j)
      {
        ghost var record1, log1, asked1, r1 := file.record, file.log, file.asked, state.Collected();
        r := ExecuteAction(file, request, state, decision.actions[i], turns);
        AdvancedTwice(request, record0, log0, record1, log1, file.record, file.log);
        AdvancedLonger(request, record1, log1, file.record, file.log);
        RaisedLonger(log1, file.log, |log0|);
        LoggedLonger(request, decision.actions, i, log1, file.log, |log0|);
        if file.asked != asked1 {
          ghost var q := file.asked[|asked1|];
          CallsLonger(request, decision.actions, asked1[|asked0|..], q, clock0);
          assert file.asked[|asked0|..] == asked1[|asked0|..] + [q];
          if r.Ok? {
            CollectedNext(world, decision.actions, asked1[|asked0|..], q, r0, r1, state.Collected());
          }
        }
        if r.Err? {
          assert file.asked[|asked0|..][..i] == asked1[|asked0|..];
          return;
        }
        done := i + 1;
      }
      assert file.asked[|asked0|..][..done] == file.asked[|asked0|..];
      r := Ok(());
    }

    /** Planning and recording the decision of a turn; an Err when the planner raises or no step is left. */
    method Decide(file: RunFile, request: Request, state: RunState) returns (r: Result<Decision>)
      requires file.record.stepCount <= |file.log|
      modifies file`log, file`record, file`asked, world, state`turnCount
      ensures Advanced(request, old(file.record), old(file.log), file.record, file.log)
      ensures file.asked == old(file.asked) + [AskedPlanner(old(world.clock))] && world.clock == old(world.clock) + 1
      ensures var answer := world.planner(old(world.clock));
              && state.turnCount == old(state.turnCount) + (if answer.Ok? then 1 else 0)
              && (r.Ok? ==>
                    && answer.Ok? && r.value == answer.value.(decisionId := r.value.decisionId)
                    && r.value.decisionId == (if world.normalizes then DecisionName(file.runId, old(state.turnCount))
                                              else answer.value.decisionId)
                    && file.log == old(file.log) + [Step(|old(file.log)|, DecisionStep,
                         if r.value.decisionId != "" then r.value.decisionId else "decision", None, None, "")])
              && (r.Err? ==>
                    && file.log == old(file.log)
                    && (answer == Err(r.message) || file.record.stepCount + 1 > file.record.maxSteps))
      ensures r.Ok? ==> old(file.record.stepCount) + 1 <= old(file.record.maxSteps) && |file.log| > |old(file.log)|
      ensures file.record.stepCount <= |file.log| && !SomeRaised(file.log, |old(file.log)|)
      ensures world.Plain() && Traced(file.runId, old(file.log), old(state.turnCount)) ==>
                Recorded(file.runId, file.log)
      ensures world.Plain() && Traced(file.runId, old(file.log), old(state.turnCount)) && r.Ok? ==>
                Acting(file.runId, file.log, state.turnCount, r.value)
    {
      hide Advanced, Traced, PlainActions, Recorded, Tidy, DecisionName;
      ghost var record0, log0, turn := file.record, file.log, state.turnCount;
      ghost var traced := world.Plain() && Traced(file.runId, file.log, turn);
      AdvancedNot(request, record0, log0);
      if traced {
        TracedRecorded(file.runId, log0, turn);
      }
      var now := world.Tick();
      file.asked := file.asked + [AskedPlanner(now)];
      var planned := world.planner(now);
      if planned.Err? {
        return Err(planned.message);
      }
      var decision := planned.value.(
        decisionId := if world.normalizes then DecisionName(file.runId, state.turnCount) else planned.value.decisionId);
      state.turnCount := state.turnCount + 1;
      if !file.StepsLeft(1) {
        return Err("run step budget exceeded");
      }
      NamesDiffer(file.runId, turn);
      var name := if decision.decisionId != "" then decision.decisionId else "decision";
      ghost var step := Step(|log0|, DecisionStep, name, None, None, "");
      file.AppendStep(DecisionStep, name, None, None, "");
      AdvancedStep(request, record0, log0, step);
      if traced {
        TracedDecision(file.runId, log0, turn, step);
        TracedRecorded(file.runId, file.log, turn + 1);
        PlainAnswer(world, now, decision);
      }
      r := Ok(decision);
    }

    /** Executing the decision; an exception is recorded, or leaves the loop when no step is left for it. */
    method Act(file: RunFile, request: Request, state: RunState, decision: Decision) returns (r: Result<()>)
      requires file.record.stepCount <= |file.log|
      modifies file`log, file`record, file`asked, world
      modifies state`failures, state`toolResults, state`skillResults, state`appliedActions
      ensures Advanced(request, old(file.record), old(file.log), file.record, file.log)
      ensures file.record.stepCount <= |file.log| && |file.log| >= |old(file.log)|
      ensures Acting(file.runId, old(file.log), state.turnCount, decision) ==>
                Traced(file.runId, file.log, state.turnCount)
      ensures old(file.log) <= file.log
      ensures old(file.asked) <= file.asked && world.clock == old(world.clock) + |file.asked| - |old(file.asked)|
      ensures var calls := file.asked[|old(file.asked)|..];
              && Consecutive(calls, old(world.clock)) && CallsInOrder(request, decision.actions, calls)
              && (state.failures == old(state.failures) ==>
                    |calls| == |decision.actions| && forall q :: q in calls ==>
                      Answered(world, q) && !Failing(world, q))
              && (r.Ok? ==> (state.failures != old(state.failures) <==>
                               SomeFailing(world, calls) || SomeRaised(file.log, |old(file.log)|)))
              && (state.skillResults != [] <==> old(state.skillResults) != [] || SomeSkill(world, calls))
      ensures old(state.failures) <= state.failures
      ensures r.Err? ==> !file.StepsLeft(1)
    {
      hide Advanced, Traced, PlainActions, Recorded, Tidy, DecisionName, CallsInOrder, Collected, Consecutive;
      ghost var record0, log0, turns, asked0 := file.record, file.log, state.turnCount, file.asked;
      ghost var traced := Acting(file.runId, log0, turns, decision);
      ghost var r0, done := state.Collected(), 0;
      var executed;
      executed, done := ExecuteDecision(file, request, state, decision, turns);
      AdvancedLonger(request, record0, log0, file.record, file.log);
      CallsCollected(world, decision.actions, file.asked[|asked0|..], done, r0, state.Collected());
      if executed.Ok? {
        return Ok(());
      }
      state.failures := state.failures + [executed.message];
      if !file.StepsLeft(1) {
        return Err("run step budget exceeded");
      }
      ghost var record1, log1 := file.record, file.log;
      if traced {
        NamesDiffer(file.runId, turns - 1);
      }
      var name := if decision.decisionId != "" then decision.decisionId else "decision_error";
      ghost var error := Step(|log1|, DecisionError, name, None, None, executed.message);
      file.AppendStep(DecisionError, name, None, None, executed.message);
      AdvancedStep(request, record1, log1, error);
      AdvancedTwice(request, record0, log0, record1, log1, file.record, file.log);
      AdvancedLonger(request, record0, log0, file.record, file.log);
      if traced {
        TracedStep(file.runId, log1, turns, error);
      }
      assert file.log[|log1|].stepType == DecisionError;
      r := Ok(());
    }

    /** Executing the decision and testing again whether to stop. */
    method FinishTurn(file: RunFile, request: Request, state: RunState, decision: Decision)
      returns (stopped: Result<Status>, running: bool, ghost calls: seq<Asked>, ghost b: seq<Asked>)
      requires file.record.stepCount <= |file.log|
      modifies file`log, file`record, file`asked, world
      modifies state`failures, state`toolResults, state`skillResults, state`appliedActions
      ensures Advanced(request, old(file.record), old(file.log), file.record, file.log)
      ensures file.record.stepCount <= |file.log| && old(file.log) <= file.log
      ensures Acting(file.runId, old(file.log), state.turnCount, decision) ==>
                Traced(file.runId, file.log, state.turnCount)
      ensures file.asked == old(file.asked) + calls + b && world.clock == old(world.clock) + |calls| + |b|
      ensures Consecutive(calls, old(world.clock)) && CallsInOrder(request, decision.actions, calls)
      ensures stopped.Err? ==> !running && b == [] && !file.StepsLeft(1)
      ensures stopped.Ok? ==>
                && (b == [] <==> state.failures != []) && (b == [] ==> !running && stopped.value == Failed)
                && (state.failures != [] <==> old(state.failures) != [] || SomeFailing(world, calls)
                                              || SomeRaised(file.log, |old(file.log)|))
      ensures b != [] ==>
                && b == [AskedAcceptance(old(world.clock) + |calls|)] && |calls| == |decision.actions|
                && (forall q :: q in calls ==> Answered(world, q) && !Failing(world, q))
                && (!running ==> EndsWith(world.acceptance(b[0].n), decision, stopped.value))
                && (running ==> !world.acceptance(b[0].n) && !decision.requiresReview && !decision.shouldStop)
      ensures state.skillResults != [] <==> old(state.skillResults) != [] || SomeSkill(world, calls)
    {
      hide Advanced, Traced, PlainActions, Recorded, Tidy, DecisionName, CallsInOrder, Consecutive;
      hide EndsWith, Answered, Failing, SomeFailing, SomeSkill;
      ghost var asked0, clock0 := file.asked, world.clock;
      var acted := Act(file, request, state, decision);
      calls, b := file.asked[|asked0|..], [];
      if acted.Err? {
        return Err(acted.message), false, calls, b;
      }
      var stop := ShouldStop(file, state, decision);
      b := if state.failures == [] then [AskedAcceptance(clock0 + |calls|)] else [];
      running, stopped := stop.None?, if stop.Some? then Ok(stop.value) else Ok(Completed);
    }

    /** The rest of a turn whose decision has been recorded. */
    method AfterDecision(
      file: RunFile, request: Request, state: RunState, decision: Decision, ghost asked0: seq<Asked>, ghost clock0: nat)
      returns (running: bool, stopped: Result<Status>)
      requires file.record.stepCount <= |file.log|
      requires file.asked == asked0 + [AskedPlanner(clock0)] && world.clock == clock0 + 1 && world.planner(clock0).Ok?
      requires decision == world.planner(clock0).value.(decisionId := decision.decisionId)
      modifies file`log, file`record, file`asked, world
      modifies state`failures, state`toolResults, state`skillResults, state`appliedActions
      ensures Advanced(request, old(file.record), old(file.log), file.record, file.log)
      ensures file.record.stepCount <= |file.log| && old(file.log) <= file.log
      ensures Acting(file.runId, old(file.log), state.turnCount, decision) ==>
                Traced(file.runId, file.log, state.turnCount)
      ensures asked0 + [AskedPlanner(clock0)] <= file.asked && world.clock == clock0 + |file.asked| - |asked0|
      ensures TurnSays(world, request, file.asked[|asked0|..], clock0, old(state.failures) == [],
                running, stopped, state.failures != [], SomeRaised(file.log, |old(file.log)|))
      ensures !running && stopped.Err? ==> !file.StepsLeft(1)
      ensures state.skillResults != [] <==> old(state.skillResults) != [] || SomeSkill(world, file.asked[|asked0|..])
    {
      hide Advanced, Traced, Acting, CallsInOrder, Consecutive, TurnSays;
      hide EndsWith, Answered, Failing, SomeFailing, SomeSkill;
      ghost var log0, clean := file.log, state.failures == [];
      AdvancedNot(request, file.record, log0);
      ActingTraced(file.runId, log0, state.turnCount, decision);
      var stop := ShouldStop(file, state, decision);
      ghost var a := if clean then [AskedAcceptance(clock0 + 1)] else [];
      if stop.Some? && decision.actions == [] {
        TurnEndedEarly(world, request, clock0, clean, decision, stop.value, !clean);
        AskedSince(asked0, [AskedPlanner(clock0)], a, [], [], file.asked);
        return false, Ok(stop.value);
      }
      ghost var calls, b;
      stopped, running, calls, b := FinishTurn(file, request, state, decision);
      TurnActed(world, request, clock0, clean, decision, calls, b, running, stopped, state.failures != [],
        SomeRaised(file.log, |log0|));
      AskedSince(asked0, [AskedPlanner(clock0)], a, calls, b, file.asked);
    }

    /** One turn of the loop: it goes on, or stops with a status, or raises. */
    method TakeTurn(file: RunFile, request: Request, state: RunState) returns (running: bool, stopped: Result<Status>)
      requires file.record.stepCount <= |file.log|
      modifies file`log, file`record, file`asked, world, state
      ensures Advanced(request, old(file.record), old(file.log), file.record, file.log)
      ensures running || stopped.Ok? ==>
                old(file.record.stepCount) + 1 <= old(file.record.maxSteps) && |file.log| > |old(file.log)|
      ensures file.record.stepCount <= |file.log| && state.observations == old(state.observations)
      ensures world.Plain() && Traced(file.runId, old(file.log), old(state.turnCount)) ==>
                Recorded(file.runId, file.log)
      ensures world.Plain() && Traced(file.runId, old(file.log), old(state.turnCount)) && (running || stopped.Ok?) ==>
                state.turnCount > 0 && Traced(file.runId, file.log, state.turnCount)
      ensures old(file.log) <= file.log && old(file.asked) <= file.asked
      ensures world.clock == old(world.clock) + |file.asked| - |old(file.asked)|
      ensures TurnSays(world, request, file.asked[|old(file.asked)|..], old(world.clock), old(state.failures) == [],
                running, stopped, state.failures != [], SomeRaised(file.log, |old(file.log)|))
      ensures !running && stopped.Err? ==>
                !file.StepsLeft(1) || world.planner(old(world.clock)) == Err(stopped.message)
      ensures file.asked[|old(file.asked)|] == AskedPlanner(old(world.clock))
      ensures state.skillResults != [] <==>
                old(state.skillResults) != [] || SomeSkill(world, file.asked[|old(file.asked)|..])
    {
      hide Advanced, Traced, PlainActions, Recorded, Tidy, DecisionName, CallsInOrder, Consecutive, TurnSays;
      hide EndsWith, Answered, Failing, SomeFailing, SomeSkill;
      ghost var record0, log0, asked0, clock0 := file.record, file.log, file.asked, world.clock;
      ghost var traced, clean := world.Plain() && Traced(file.runId, file.log, state.turnCount), state.failures == [];
      var decided := Decide(file, request, state);
      if decided.Err? {
        TurnUnplanned(world, request, clock0, clean, decided.message, !clean, SomeRaised(file.log, |log0|));
        assert file.asked[|asked0|..] == [AskedPlanner(clock0)] + [] + [] + [];
        return false, Err(decided.message);
      }
      ghost var record1, log1 := file.record, file.log;
      running, stopped := AfterDecision(file, request, state, decided.value, asked0, clock0);
      AdvancedTwice(request, record0, log0, record1, log1, file.record, file.log);
      RaisedLonger(log1, file.log, |log0|);
      if traced {
        TracedRecorded(file.runId, file.log, state.turnCount);
      }
    }

    /**
      `RuntimeLoopEngine.run`: turns until a stop, for any planner.  Only the step budget bounds the loop; an Err
      stands for an exception that leaves it.  `turns` is the transcript of the loop, turn by turn.
     */
    method Run(
      file: RunFile, request: Request, state: RunState) returns (r: Result<Status>, ghost turns: seq<seq<Asked>>)
      requires file.record.stepCount <= |file.log|
      modifies file`log, file`record, file`asked, world, state
      ensures Advanced(request, old(file.record), old(file.log), file.record, file.log)
      ensures r.Ok? ==> old(file.record.stepCount) + 1 <= old(file.record.maxSteps) && |file.log| > |old(file.log)|
      ensures state.observations == old(state.observations)
      ensures world.Plain() && Traced(file.runId, old(file.log), old(state.turnCount)) ==>
                Recorded(file.runId, file.log)
      ensures world.Plain() && Traced(file.runId, old(file.log), old(state.turnCount)) && r.Ok? ==>
                state.turnCount > 0 && Traced(file.runId, file.log, state.turnCount)
      ensures old(file.log) <= file.log && old(file.asked) <= file.asked
      ensures var t := file.asked[|old(file.asked)|..];
              && Consecutive(t, old(world.clock)) && world.clock == old(world.clock) + |t| && t == Flattened(turns)
              && (r.Ok? && old(state.failures) == [] ==> LoopOf(world, request, turns, r.value))
              && (r.Ok? && r.value != Failed ==>
                    && t != [] && t[|t| - 1].AskedAcceptance?
                    && exists k :: LatestPlan(world, t, k) &&
                         var accepted, decision := world.acceptance(t[|t| - 1].n), world.planner(t[k].n).value;
                         if r.value == Completed then accepted || (decision.shouldStop && !decision.requiresReview)
                         else !accepted && decision.requiresReview)
              && (r.Ok? ==> (r.value == Failed <==> state.failures != []))
              && (r.Ok? ==> (state.failures != [] <==>
                    old(state.failures) != [] || SomeFailing(world, t) || SomeRaised(file.log, |old(file.log)|)))
              && (r.Err? ==> (|| file.record.stepCount + 1 > file.record.maxSteps
                              || exists q :: q in t && q.AskedPlanner? && world.planner(q.n) == Err(r.message)))
              && (state.skillResults != [] <==> old(state.skillResults) != [] || SomeSkill(world, t))
    {
      hide Advanced, Traced, PlainActions, Recorded, WentOn, Stopped, Failing, Consecutive, SomeFailing, SomeSkill;
      ghost var record0, log0, asked0, clock0 := file.record, file.log, file.asked, world.clock;
      ghost var traced := world.Plain() && Traced(file.runId, file.log, state.turnCount);
      AdvancedNot(request, record0, log0);
      turns := [];
      TranscriptNothing(world, clock0);
      while true
        invariant Advanced(request, record0, log0, file.record, file.log)
        invariant file.record.stepCount <= |file.log| && log0 <= file.log && asked0 <= file.asked
        invariant (file.record == record0 && file.log == log0)
                  || (|file.log| > |log0| && record0.stepCount + 1 <= record0.maxSteps)
        invariant state.observations == old(state.observations)
        invariant traced ==> Traced(file.runId, file.log, state.turnCount)
        invariant file.asked[|asked0|..] == Flattened(turns) && Consecutive(Flattened(turns), clock0)
        invariant world.clock == clock0 + |file.asked| - |asked0|
        invariant old(state.failures) == [] ==> forall i :: 0 <= i < |turns| ==> WentOn(world, request, turns[i])
        invariant turns == [] ==> state.failures == old(state.failures) && file.log == log0
        invariant turns != [] ==> state.failures == [] && old(state.failures) == []
        invariant turns != [] ==> !SomeFailing(world, Flattened(turns)) && !SomeRaised(file.log, |log0|)
        invariant state.skillResults != [] <==> old(state.skillResults) != [] || SomeSkill(world, Flattened(turns))
        decreases Fuel(file.record, file.log)
      {
        ghost var record1, log1, asked1, clock1 := file.record, file.log, file.asked, world.clock;
        var running, stopped := TakeTurn(file, request, state);
        AdvancedTwice(request, record0, log0, record1, log1, file.record, file.log);
        ghost var t := file.asked[|asked1|..];
        TurnAdded(world, turns, t, clock0, asked0, asked1, file.asked, log0, log1, file.log);
        turns := turns + [t];
        if !running {
          if stopped.Ok? && stopped.value != Failed {
            LoopMeans(world, request, turns, stopped.value, Flattened(turns));
          }
          return stopped, turns;
        }
        StepBurnsFuel(request, record1, log1, file.record, file.log);
      }
    }
  }

  /** What a turn's questions say about how it ended; `clean` when nothing had failed before it. */
  predicate TurnSays(
    world: World, request: Request, t: seq<Asked>, clock: nat, clean: bool, running: bool, stopped: Result<Status>,
    failed: bool, raised: bool) {
    && t != [] && Consecutive(t, clock)
    && (running ==> !failed && (clean ==> WentOn(world, request, t)))
    && (!running && stopped.Ok? ==>
          (stopped.value == Failed <==> failed) && (clean ==> Stopped(world, request, t, stopped.value)))
    && (running || stopped.Ok? ==> (failed <==> !clean || SomeFailing(world, t) || raised))
  }

  /** The questions of a turn are the planner's, the tests for acceptance and the calls. */
  lemma TurnPieces(world: World, clock: nat, a: seq<Asked>, calls: seq<Asked>, b: seq<Asked>)
    requires a == [] || a == [AskedAcceptance(clock + 1)]
    requires Consecutive(calls, clock + 1 + |a|)
    requires b == [] || b == [AskedAcceptance(clock + 1 + |a| + |calls|)]
    ensures var t := [AskedPlanner(clock)] + a + calls + b;
            && Consecutive(t, clock) && (SomeFailing(world, t) <==> SomeFailing(world, calls))
            && (SomeSkill(world, t) <==> SomeSkill(world, calls))
  {
    var before := [AskedPlanner(clock)] + a;
    var t := before + calls + b;
    assert forall q :: q in t <==> q in before || q in calls || q in b;
    assert forall q :: q in before || q in b ==> q.AskedPlanner? || q.AskedAcceptance?;
  }

  lemma TurnUnplanned(
    world: World, request: Request, clock: nat, clean: bool, message: string, failed: bool, raised: bool)
    ensures var t := [AskedPlanner(clock)] + [] + [] + [];
            TurnSays(world, request, t, clock, clean, false, Err(message), failed, raised) && !SomeSkill(world, t)
  {
    TurnPieces(world, clock, [], [], []);
  }

  lemma TurnEndedEarly(
    world: World, request: Request, clock: nat, clean: bool, decision: Decision, status: Status, failed: bool)
    requires world.planner(clock).Ok? && failed == !clean
    requires decision == world.planner(clock).value.(decisionId := decision.decisionId) && decision.actions == []
    requires clean ==> EndsWith(world.acceptance(clock + 1), decision, status)
    requires !clean ==> status == Failed
    ensures var t := [AskedPlanner(clock)] + (if clean then [AskedAcceptance(clock + 1)] else []) + [] + [];
            TurnSays(world, request, t, clock, clean, false, Ok(status), failed, false) && !SomeSkill(world, t)
  {
    TurnPieces(world, clock, if clean then [AskedAcceptance(clock + 1)] else [], [], []);
  }

  /** The decision was executed, and acceptance was tested again unless something had failed. */
  lemma TurnActed(
    world: World, request: Request, clock: nat, clean: bool, decision: Decision, calls: seq<Asked>, b: seq<Asked>,
    running: bool, stopped: Result<Status>, failed: bool, raised: bool)
    requires world.planner(clock).Ok? && decision == world.planner(clock).value.(decisionId := decision.decisionId)
    requires CallsInOrder(request, decision.actions, calls) && Consecutive(calls, clock + if clean then 2 else 1)
    requires clean && decision.actions == [] ==>
              !world.acceptance(clock + 1) && !decision.requiresReview && !decision.shouldStop
    requires stopped.Err? ==> !running && b == []
    requires stopped.Ok? ==>
              (b == [] <==> failed) && (b == [] ==> !running && stopped.value == Failed)
              && (failed <==> !clean || SomeFailing(world, calls) || raised)
    requires b != [] ==>
              && b == [AskedAcceptance(clock + (if clean then 2 else 1) + |calls|)] && |calls| == |decision.actions|
              && (forall q :: q in calls ==> Answered(world, q) && !Failing(world, q))
              && (!running ==> EndsWith(world.acceptance(b[0].n), decision, stopped.value))
              && (running ==> !world.acceptance(b[0].n) && !decision.requiresReview && !decision.shouldStop)
    ensures var t := [AskedPlanner(clock)] + (if clean then [AskedAcceptance(clock + 1)] else []) + calls + b;
            && TurnSays(world, request, t, clock, clean, running, stopped, failed, raised)
            && (SomeSkill(world, t) <==> SomeSkill(world, calls))
  {
    hide Answered, Failing, CallsInOrder, SomeFailing, SomeSkill, Consecutive, Stopped, WentOn;
    TurnPieces(world, clock, if clean then [AskedAcceptance(clock + 1)] else [], calls, b);
    if clean && stopped.Ok? {
      TurnShape(world, request, clock, decision, calls, b, if running then None else Some(stopped.value));
    }
  }

  lemma TurnShape(
    world: World, request: Request, clock: nat, decision: Decision, calls: seq<Asked>, b: seq<Asked>,
    stop: Option<Status>)
    requires world.planner(clock).Ok? && decision == world.planner(clock).value.(decisionId := decision.decisionId)
    requires CallsInOrder(request, decision.actions, calls)
    requires decision.actions == [] ==>
              !world.acceptance(clock + 1) && !decision.requiresReview && !decision.shouldStop
    requires b == [] ==> stop == Some(Failed)
    requires b != [] ==>
              && b == [AskedAcceptance(clock + 2 + |calls|)] && |calls| == |decision.actions|
              && (forall q :: q in calls ==> Answered(world, q) && !Failing(world, q))
              && (stop.Some? ==> EndsWith(world.acceptance(b[0].n), decision, stop.value))
              && (stop.None? ==> !world.acceptance(b[0].n) && !decision.requiresReview && !decision.shouldStop)
    ensures var t := [AskedPlanner(clock)] + [AskedAcceptance(clock + 1)] + calls + b;
            if stop.Some? then Stopped(world, request, t, stop.value) else WentOn(world, request, t)
    ensures b != [] ==> stop != Some(Failed)
  {
    hide Answered, Failing, CallsInOrder;
    var t := [AskedPlanner(clock), AskedAcceptance(clock + 1)] + calls + b;
    assert t == [AskedPlanner(clock)] + [AskedAcceptance(clock + 1)] + calls + b;
    if b == [] {
      assert t[2..] == calls;
    } else {
      assert t[2..|t| - 1] == calls;
      assert forall i :: 2 <= i < |t| - 1 ==> t[i] == calls[i - 2];
    }
  }

  /** The question an action asks, and the results with its answer. */
  lemma CallAnswered(world: World, request: Request, action: Action, isTool: bool, now: nat, r0: Results)
    requires isTool == (Strip(action.capabilityId) in request.allowedTools)
    requires isTool || Strip(action.capabilityId) in request.allowedSkills
    ensures var q := if isTool then AskedTool(now) else AskedSkill(now);
            var answer := if isTool then world.tools(now) else world.skills(now);
            && CallFor(request, action, q) && (Answered(world, q) <==> answer.Ok?)
            && (answer.Ok? ==> With(r0, action, world, q) == r0.Add(isTool, action, answer.value))
  {
    hide Strip;
  }

  lemma RaisedLonger(log: seq<Step>, log': seq<Step>, first: nat)
    requires log <= log' && first <= |log|
    ensures SomeRaised(log', first) <==> SomeRaised(log, first) || SomeRaised(log', |log|)
  {
  }

  lemma LoggedLonger(request: Request, actions: seq<Action>, n: nat, log: seq<Step>, log': seq<Step>, base: nat)
    requires log <= log' && n <= |actions|
    requires forall j :: 0 <= j < n ==> ActionLogged(request, actions[j], log, base + 3 * j)
    ensures forall j :: 0 <= j < n ==> ActionLogged(request, actions[j], log', base + 3 * j)
  {
    hide Strip;
    forall j | 0 <= j < n ensures ActionLogged(request, actions[j], log', base + 3 * j) {
      assert ActionLogged(request, actions[j], log, base + 3 * j);
    }
  }

  lemma NoErrorLogged(log: seq<Step>)
    ensures !SomeRaised(log, |log|)
  {
  }

  lemma NoErrorNext(log0: seq<Step>, log: seq<Step>, step: Step)
    requires log0 <= log && !SomeRaised(log, |log0|) && step.stepType != DecisionError
    ensures !SomeRaised(log + [step], |log0|)
  {
  }

  lemma NoCalls(request: Request, actions: seq<Action>, clock: nat)
    ensures CallsInOrder(request, actions, []) && Consecutive([], clock)
  {
  }

  lemma CallsLonger(request: Request, actions: seq<Action>, calls: seq<Asked>, q: Asked, clock: nat)
    requires CallsInOrder(request, actions, calls) && Consecutive(calls, clock) && |calls| < |actions|
    requires CallFor(request, actions[|calls|], q) && !q.RanChild? && q.n == clock + |calls|
    ensures CallsInOrder(request, actions, calls + [q]) && Consecutive(calls + [q], clock)
  {
    hide CallFor;
  }

  /** What collected results say about all calls, the one that raised included. */
  lemma CallsCollected(
    world: World, actions: seq<Action>, calls: seq<Asked>, done: nat, r0: Results, r: Results)
    requires done <= |calls| <= done + 1 && Collected(world, actions, calls[..done], r0, r)
    requires |calls| > done ==> !Answered(world, calls[done])
    ensures r0.failures <= r.failures && (r.failures != r0.failures <==> SomeFailing(world, calls))
    ensures forall q :: q in calls[..done] ==> Answered(world, q)
    ensures r.skills != [] <==> r0.skills != [] || SomeSkill(world, calls)
  {
    var front := calls[..done];
    assert forall q :: q in front ==> Answered(world, q);
    assert calls == front + calls[done..];
    assert forall q :: q in calls <==> q in front || q in calls[done..];
    assert forall q :: q in calls[done..] ==> !Answered(world, q) && !Failing(world, q);
    SkillsCounted(world, front);
  }

  lemma {:induction false} SkillsCounted(world: World, calls: seq<Asked>)
    requires forall q :: q in calls ==> Answered(world, q)
    ensures |calls| - Tools(calls) > 0 <==> SomeSkill(world, calls)
  {
    if calls == [] {
      ToolsBound(calls);
    } else {
      var front, q := calls[..|calls| - 1], calls[|calls| - 1];
      assert calls == front + [q];
      assert q in calls && forall x :: x in front ==> x in calls;
      hide Tools;
      SkillsCounted(world, front);
      ToolsSnoc(front, q);
    }
  }

  lemma TranscriptNothing(world: World, clock: nat)
    ensures Consecutive([], clock) && !SomeSkill(world, []) && !SomeFailing(world, [])
  {
  }

  lemma TurnAdded(
    world: World, turns: seq<seq<Asked>>, t: seq<Asked>, clock: nat, asked0: seq<Asked>, asked1: seq<Asked>,
    asked2: seq<Asked>, log0: seq<Step>, log1: seq<Step>, log2: seq<Step>)
    requires asked0 <= asked1 <= asked2 && t == asked2[|asked1|..] && asked1[|asked0|..] == Flattened(turns)
    requires log0 <= log1 <= log2
    requires Consecutive(asked1[|asked0|..], clock) && Consecutive(t, clock + |asked1| - |asked0|)
    ensures asked2[|asked0|..] == Flattened(turns + [t]) && Consecutive(Flattened(turns + [t]), clock)
    ensures SomeFailing(world, Flattened(turns + [t])) <==>
              SomeFailing(world, Flattened(turns)) || SomeFailing(world, t)
    ensures SomeSkill(world, Flattened(turns + [t])) <==> SomeSkill(world, Flattened(turns)) || SomeSkill(world, t)
    ensures SomeRaised(log2, |log0|) <==> SomeRaised(log1, |log0|) || SomeRaised(log2, |log1|)
    ensures forall q :: q in t ==> q in Flattened(turns + [t])
  {
    hide Failing;
    assert (turns + [t])[..|turns|] == turns;
    var all := Flattened(turns) + t;
    assert asked2[|asked0|..] == all;
    assert forall q :: q in all <==> q in Flattened(turns) || q in t;
    RaisedLonger(log1, log2, |log0|);
  }

  lemma TracedRecorded(runId: string, log: seq<Step>, turns: nat)
    requires Traced(runId, log, turns)
    ensures Recorded(runId, log)
  {
  }

  lemma AdvancedLonger(request: Request, record: Record, log: seq<Step>, record': Record, log': seq<Step>)
    requires Advanced(request, record, log, record', log') && record.stepCount <= |log|
    ensures |log'| >= |log| && record'.stepCount <= |log'|
  {
    hide Tidy;
  }

  lemma NamesDiffer(runId: string, turn: nat)
    ensures DecisionName(runId, turn) != ""
  {
  }

  lemma ActingTraced(runId: string, log: seq<Step>, turns: nat, decision: Decision)
    ensures Acting(runId, log, turns, decision) ==> turns > 0 && Traced(runId, log, turns)
  {
  }

  lemma PlainAnswer(world: World, n: nat, decision: Decision)
    requires world.Plain() && world.planner(n).Ok? && decision.actions == world.planner(n).value.actions
    ensures PlainActions(decision)
  {
  }

  /** The decision of the latest turn is about to be executed. */
  predicate Acting(runId: string, log: seq<Step>, turns: nat, decision: Decision) {
    && PlainActions(decision) && turns > 0 && decision.decisionId == DecisionName(runId, turns - 1)
    && Traced(runId, log, turns)
  }

  predicate PlainActions(decision: Decision) {
    forall i :: 0 <= i < |decision.actions| ==> decision.actions[i].inputTurn == None
  }

  lemma CountedWithin(record: Record, isTool: bool, record': Record)
    requires if isTool then record.toolCallCount + 1 <= record.maxToolCalls
              else record.skillCallCount + 1 <= record.maxSkillCalls
    requires SameLimits(record, record')
    requires record'.toolCallCount == record.toolCallCount + (if isTool then 1 else 0)
    requires record'.skillCallCount == record.skillCallCount + (if isTool then 0 else 1)
    ensures CallsWithin(record) ==> CallsWithin(record')
  {
  }

  // ----- the completion gate

  datatype GateDecision = Pass | RetryMain | LaunchSubRun(request: Option<SubRunRequest>) | FailRun | ReviewRun

  /** `allow_subrun` in the metadata; `_normalize_request_metadata` has filled it in. */
  predicate Allows(request: Request) {
    request.allowSubrun.GetOr(true)
  }

  /** `_normalize_request_metadata`: only a run at depth 0 may spawn children, unless the metadata says otherwise. */
  function Normalized(request: Request): (r: Request)
    ensures Allows(r) <==>
              request.allowSubrun == Some(true) || (request.allowSubrun == None && request.subrunDepth == 0)
    ensures r.allowSubrun.Some? && r == request.(allowSubrun := r.allowSubrun)
  {
    if request.allowSubrun.Some? then request else request.(allowSubrun := Some(request.subrunDepth == 0))
  }

  // ----- children

  datatype SubRunResult = SubRunResult(status: Status, retryable: bool)

  datatype Launch = Launch(parent: string, request: Request)

  datatype Outcome = Outcome(status: Status, hasSkillResults: bool)

  /** `build_child_request`: whatever the parent asks for, the child may not spawn another one. */
  function ChildRequest(parent: Request, child: SubRunRequest): (r: Request)
    ensures r.allowedTools == child.allowedTools && r.allowedSkills == child.allowedSkills
    ensures r.maxSteps >= 1 && r.maxSteps >= child.maxSteps && r.maxSteps in {1, child.maxSteps}
    ensures r.maxToolCalls >= 0 && r.maxToolCalls >= child.maxToolCalls && r.maxToolCalls in {0, child.maxToolCalls}
    ensures r.maxSkillCalls >= 0 && r.maxSkillCalls >= child.maxSkillCalls
              && r.maxSkillCalls in {0, child.maxSkillCalls}
    ensures r.allowSubrun == Some(false) && r.subrunDepth == parent.subrunDepth + 1
    ensures r.verificationSubrunCount == parent.verificationSubrunCount + 1
  {
    Request(child.allowedTools, child.allowedSkills, AtLeast(1, child.maxSteps), AtLeast(0, child.maxToolCalls),
      AtLeast(0, child.maxSkillCalls),
            3, Some(false), parent.subrunDepth + 1, parent.verificationSubrunCount + 1)
  }

  function Underscored(text: string): (r: string)
    ensures |r| == |text| && forall i :: 0 <= i < |text| ==> r[i] == if text[i] == ' ' then '_' else text[i]
  {
    if text == "" then "" else [if text[0] == ' ' then '_' else text[0]] + Underscored(text[1..])
  }

  function ChildRunId(parentId: string, purpose: string): string {
    parentId + ":subrun:" + (if Strip(purpose) == "" then "subrun" else Underscored(Strip(purpose)))
  }

  lemma ChildIsAnother(parentId: string, purpose: string)
    ensures ChildRunId(parentId, purpose) != parentId
  {
    assert |ChildRunId(parentId, purpose)| > |parentId|;
  }

  function NewRecord(request: Request): Record {
    Record(0, 0, 0, request.maxSteps, request.maxToolCalls, request.maxSkillCalls)
  }

  // ----- what a whole run may leave

  /** The log only grew, and a tidy one stayed within the step budget and `extra` unchecked steps. */
  predicate Grown(request: Request, record: Record, log: seq<Step>, record': Record, log': seq<Step>, extra: nat) {
    && log <= log' && SameLimits(record, record') && record'.stepCount <= |log'|
    && (Tidy(request, record, log) ==>
          Tidy(request, record', log') && |log'| <= AtLeast(|log|, AtLeast(record.maxSteps, 0) + extra))
  }

  lemma GrownBy(request: Request, record: Record, log: seq<Step>, record': Record, log': seq<Step>)
    requires Advanced(request, record, log, record', log') && record.stepCount <= |log|
    ensures Grown(request, record, log, record', log', 2) && record'.stepCount <= |log'|
  {
    hide Tidy;
  }

  lemma TidyAppend(request: Request, record: Record, log: seq<Step>, step: Step)
    requires Tidy(request, record, log) && step.index == |log| && Allowed(request, step)
    ensures Tidy(request, record.(stepCount := |log| + 1), log + [step])
  {
  }

  /** After a loop that ended within the budget, up to two observations are appended unchecked. */
  lemma GrownObserved(
    request: Request, record: Record, log: seq<Step>, record': Record, log': seq<Step>, kinds: seq<Step>,
    record'': Record)
    requires Advanced(request, record, log, record', log') && |log'| > |log| && record.stepCount + 1 <= record.maxSteps
    requires |kinds| <= 2 && forall i :: 0 <= i < |kinds| ==>
              kinds[i].stepType == ObservationStep && kinds[i].index == |log'| + i
    requires record'' == record'.(stepCount := |log'| + |kinds|) && record.stepCount <= |log|
    ensures Grown(request, record, log, record'', log' + kinds, 2)
    ensures Tidy(request, record, log) ==> |log' + kinds| <= AtLeast(record.maxSteps, 0) + 2
    ensures Fuel(record'', log' + kinds) < Fuel(record, log)
  {
    var end := log' + kinds;
    if Tidy(request, record, log) {
      assert forall i :: |log'| <= i < |end| ==> end[i] == kinds[i - |log'|];
    }
  }

  lemma GrownTwice(
    request: Request, record: Record, log: seq<Step>, record': Record, log': seq<Step>, record'': Record,
    log'': seq<Step>)
    requires Grown(request, record, log, record', log', 2) && Grown(request, record', log', record'', log'', 2)
    requires Tidy(request, record, log) ==> |log'| <= AtLeast(record.maxSteps, 0) + 2
    ensures Grown(request, record, log, record'', log'', 2)
  {
    hide Tidy;
  }

  // ----- the service

  /**
    The parent's launches are the children its new questions name, in order, each with a request of its own that may not
    spawn another one.
   */
  ghost predicate NewLaunches(
    before: seq<Launch>, after: seq<Launch>, parent: string, request: Request, t: seq<Asked>) {
    && before <= after && |after| == |before| + |Children(t)|
    && forall i :: 0 <= i < |Children(t)| ==>
      after[|before| + i] == Launch(parent, ChildRequest(request, Children(t)[i]))
  }

  /** What a run has asked, logged and launched so far, and whether a failure or a skill's result has been noted. */
  datatype View = View(asked: seq<Asked>, log: seq<Step>, launches: seq<Launch>, failed: bool, skilled: bool)

  /** A run's questions and log only grew, and its launches are the children they name. */
  ghost predicate Continued(world: World, request: Request, parent: string, v: View, v': View) {
    && v.asked <= v'.asked && v.log <= v'.log
    && NewLaunches(v.launches, v'.launches, parent, request, v'.asked[|v.asked|..])
    && (v'.skilled <==> v.skilled || SomeSkill(world, v'.asked[|v.asked|..]))
    && (|Children(v.asked)| <= AtLeast(0, request.maxSubruns) ==>
      |Children(v'.asked)| <= AtLeast(0, request.maxSubruns))
  }

  /** What an orchestration asked from its start on, and how that made it end. */
  ghost predicate Orchestrated(
    world: World, hasGate: bool, request: Request, v0: View, v': View, rounds: seq<Round>, status: Status) {
    && v0.asked <= v'.asked && v0.log <= v'.log
    && v'.asked[|v0.asked|..] == Questions(rounds)
    && RoundsOf(world, hasGate, request, rounds, |Children(v0.asked)|, status)
    && (v'.failed <==> status == Failed)
    && (SomeFailing(world, v'.asked[|v0.asked|..]) || SomeRaised(v'.log, |v0.log|) <==>
          status == Failed && rounds[|rounds| - 1].gate == [])
  }

  /** From `v1` on an orchestration that had started at `v0` went on to its end. */
  ghost predicate Followed(
    world: World, hasGate: bool, request: Request, parent: string, v0: View, v1: View, v': View, rounds: seq<Round>,
    r: Result<Status>, stepsLeft: bool) {
    && Continued(world, request, parent, v1, v')
    && (r.Ok? ==> Orchestrated(world, hasGate, request, v0, v', rounds, r.value))
    && (r.Err? ==> !stepsLeft || Interrupted(world, v'.asked[|v1.asked|..]))
  }

  /** The round's loop completed without a failure, and the gate has asked only what its questions say. */
  ghost predicate Judging(world: World, hasGate: bool, request: Request, v0: View, round: Round, v: View) {
    && hasGate && v.asked == v0.asked + Flattened(round.turns) + round.gate && v0.log <= v.log && !v.failed
    && LoopOf(world, request, round.turns, Completed) && Children(Flattened(round.turns)) == []
    && !SomeFailing(world, Flattened(round.turns)) && !SomeRaised(v.log, |v0.log|)
    && forall q :: q in round.gate ==> q.AskedVerifier? || q.RanChild? || q.AskedVerification?
  }

  lemma AskedSince(
    before: seq<Asked>, plan: seq<Asked>, a: seq<Asked>, calls: seq<Asked>, b: seq<Asked>, asked: seq<Asked>)
    requires asked == before + plan + a + calls + b
    ensures asked[|before|..] == plan + a + calls + b && before + plan <= asked
  {
  }

  class RuntimeService {
    const engine: Engine
    const world: World
    const hasGate: bool
    var files: map<string, RunFile>
    ghost var launches: seq<Launch>

    ghost predicate Valid()
      reads this, files.Values
    {
      && engine.world == world
      && forall id :: id in files ==> files[id].runId == id && files[id].record.stepCount <= |files[id].log|
    }

    constructor (engine: Engine, hasGate: bool)
      ensures Valid() && files == map[] && launches == [] && this.engine == engine && this.hasGate == hasGate
    {
      this.engine := engine;
      this.world := engine.world;
      this.hasGate := hasGate;
      files := map[];
      launches := [];
    }

    /** A run that may spawn children may write their files too. */
    function Writes(request: Request, file: RunFile): set<RunFile>
      reads this
    {
      if Allows(request) then files.Values else {file}
    }

    ghost function Sees(file: RunFile, state: RunState): View
      reads this, file, state
    {
      View(file.asked, file.log, launches, state.failures != [], state.skillResults != [])
    }

    /** `_record_observation`. */
    method Observe(file: RunFile, state: RunState, kind: string)
      modifies file`log, file`record, state`observations
      ensures state.observations == old(state.observations) + [kind]
      ensures file.log == old(file.log) + [ObservationOf(|old(file.log)|, kind, state.turnCount)]
      ensures file.record == old(file.record).(stepCount := |file.log|)
    {
      state.observations := state.observations + [kind];
      file.AppendStep(ObservationStep, kind, None, Some(Number(AtLeast(state.turnCount - 1, 0))), "");
    }

    /** `RuntimeCompletionGate.evaluate`: the verifier's verdict, held against the sub-runs that are left. */
    method Evaluate(file: RunFile, request: Request, state: RunState) returns (r: Result<GateDecision>)
      modifies file`asked, world
      ensures file.asked == old(file.asked) + [AskedVerifier(old(world.clock))]
      ensures match world.verifier(old(world.clock))
              case Err(message) => r == Err(message)
              case Ok(verdict) =>
                && r.Ok?
                && (verdict == Passed <==> r.value == Pass) && (verdict == Retry <==> r.value == RetryMain)
                && (verdict == Rejected <==> r.value == FailRun)
                && (r.value.LaunchSubRun? <==>
                      && verdict.RunSubRun? && request.allowSubrun != Some(false)
                      && request.verificationSubrunCount < request.maxSubruns
                      && SubRuns(state.observations) < request.maxSubruns)
                && (r.value.LaunchSubRun? ==> verdict == RunSubRun(r.value.request))
    {
      var now := world.Tick();
      file.asked := file.asked + [AskedVerifier(now)];
      var verdict := world.verifier(now);
      if verdict.Err? {
        return Err(verdict.message);
      }
      match verdict.value
      case Passed => r := Ok(Pass);
      case Retry => r := Ok(RetryMain);
      case RunSubRun(child) =>
        var maxSubruns := AtLeast(0, request.maxSubruns);
        if !Allows(request) {
          r := Ok(ReviewRun);
        } else if request.verificationSubrunCount >= maxSubruns || SubRuns(state.observations) >= maxSubruns {
          r := Ok(ReviewRun);
        } else {
          r := Ok(LaunchSubRun(child));
        }
      case Rejected => r := Ok(FailRun);
      case Undecided => r := Ok(ReviewRun);
    }

    /**
      `RuntimeSubRunLauncher.launch` through the same service: the result has the status the child's run was saved with,
      and a child that raises needs review.
     */
    method LaunchChild(
      file: RunFile, request: Request, child: SubRunRequest) returns (result: SubRunResult, hasVerdict: bool)
      requires Valid() && file.runId in files && files[file.runId] == file && Allows(request)
      modifies this, world, files.Values
      ensures Valid() && file.runId in files && files[file.runId] == file
      ensures file.record == old(file.record) && file.log == old(file.log) && file.ended == old(file.ended)
      ensures file.asked == old(file.asked) + [RanChild(child, result.status, hasVerdict)] && !result.retryable
      ensures launches == old(launches) + [Launch(file.runId, ChildRequest(request, child))]
      ensures fresh(files.Values - old(files.Values))
      ensures var childId := ChildRunId(file.runId, child.purpose);
              && childId in files && files[childId].ended.Some?
              && var ending := files[childId].ended.value;
                 && (ending.raised ==> result.status == RequiresReview && !hasVerdict)
                 && (!ending.raised ==>
                       result.status == ending.status && (hasVerdict <==> SomeSkill(world, files[childId].asked)))
      decreases 1, 0
    {
      hide Strip, SomeSkill, NewLaunches, EndedAs, Clean, SomeFailing, SomeRaised, Children;
      var childRequest := ChildRequest(request, child);
      var childId := ChildRunId(file.runId, child.purpose);
      ChildIsAnother(file.runId, child.purpose);
      launches := launches + [Launch(file.runId, childRequest)];
      var executed := ExecuteRequest(childRequest, childId);
      if executed.Ok? {
        result, hasVerdict := SubRunResult(executed.value.status, false), executed.value.hasSkillResults;
      } else {
        result, hasVerdict := SubRunResult(RequiresReview, false), false;
      }
      file.asked := file.asked + [RanChild(child, result.status, hasVerdict)];
    }

    /** `VerificationSubRunResultMapper`: a verdict of a verification child replaces the child's own status. */
    method MapVerification(file: RunFile, child: SubRunRequest, result: SubRunResult, hasVerdict: bool)
      returns (r: Result<SubRunResult>, ghost more: seq<Asked>)
      requires !result.retryable
      modifies file`asked, world
      ensures file.asked == old(file.asked) + more
      ensures if Strip(child.purpose) == "verification" && hasVerdict then
                && more == [AskedVerification(old(world.clock))]
                && match world.verifications(old(world.clock))
                   case Err(message) => r == Err(message)
                   case Ok(None) => r == Ok(result)
                   case Ok(Some(v)) =>
                     && r.Ok? && r.value.status == (if v.passed then Completed else RequiresReview)
                     && (r.value.retryable <==> v.retryable && !v.passed)
              else
                more == [] && r == Ok(result)
    {
      more := [];
      if Strip(child.purpose) != "verification" || !hasVerdict {
        return Ok(result), more;
      }
      var now := world.Tick();
      file.asked := file.asked + [AskedVerification(now)];
      more := [AskedVerification(now)];
      var verification := world.verifications(now);
      if verification.Err? {
        return Err(verification.message), more;
      }
      if verification.value.None? {
        return Ok(result), more;
      }
      var v := verification.value.value;
      r := Ok(SubRunResult(if v.passed then Completed else RequiresReview, v.retryable && !v.passed));
    }

    /** Launching the child and reading what it counts as; an Err stands for an unreadable verdict. */
    method Delegate(file: RunFile, request: Request, state: RunState, child: SubRunRequest)
      returns (r: Result<SubRunResult>, ghost answer: seq<Asked>)
      requires Valid() && file.runId in files && files[file.runId] == file && Allows(request)
      requires |Children(file.asked)| < request.maxSubruns
      modifies this, world, files.Values
      ensures Valid() && file.runId in files && files[file.runId] == file && fresh(files.Values - old(files.Values))
      ensures file.record == old(file.record) && file.log == old(file.log) && file.ended == old(file.ended)
      ensures file.asked == old(file.asked) + answer && answer != [] && answer[0].RanChild? && answer[0].child == child
      ensures forall q :: q in answer[1..] ==> q.AskedVerification?
      ensures r.Ok? ==> CountsAs(world, answer, r.value.status, r.value.retryable)
      ensures r.Err? ==> Interrupted(world, answer)
      ensures Continued(world, request, file.runId, old(Sees(file, state)), Sees(file, state))
      decreases 1, 1, 0
    {
      hide Strip, Continued, CountsAs, Interrupted, Children, ChildRequest, SomeSkill;
      ghost var v := Sees(file, state);
      var launched, hasVerdict := LaunchChild(file, request, child);
      ghost var v1, clock := Sees(file, state), world.clock;
      ghost var more;
      r, more := MapVerification(file, child, launched, hasVerdict);
      answer := [RanChild(child, launched.status, hasVerdict)] + more;
      assert file.asked == v.asked + answer;
      ChildAnswers(world, request, file.runId, v, child, launched, hasVerdict, clock, more, r, Sees(file, state));
    }

    /**
      `RuntimeOrchestrator.run`, which calls itself on retries.  `rounds` is what it asked, round by round; an Err
      stands for an exception.
     */
    method Orchestrate(file: RunFile, request: Request, state: RunState)
      returns (r: Result<Status>, ghost rounds: seq<Round>)
      requires Valid() && file.runId in files && files[file.runId] == file && state.failures == []
      requires SubRuns(state.observations) == |Children(file.asked)|
      modifies this, world, state, Writes(request, file)
      ensures Valid() && file.runId in files && files[file.runId] == file && fresh(files.Values - old(files.Values))
      ensures Grown(request, old(file.record), old(file.log), file.record, file.log, 2) && file.ended == old(file.ended)
      ensures !Allows(request) ==> files == old(files) && launches == old(launches)
      ensures Followed(world, hasGate, request, file.runId, old(Sees(file, state)), old(Sees(file, state)),
                Sees(file, state), rounds, r, file.StepsLeft(1))
      ensures r.Ok? ==> EndedWith(world, hasGate, request, old(Sees(file, state)), Sees(file, state), r.value)
      ensures world.Plain() && Traced(file.runId, old(file.log), old(state.turnCount)) ==>
                Recorded(file.runId, file.log)
      decreases if Allows(request) then 1 else 0, 1, Fuel(file.record, file.log), 1
    {
      hide Grown, Advanced, Traced, Recorded, Tidy, Followed, Allows, Children, SubRuns;
      hide Judging, LoopOf, SomeFailing, SomeSkill, Consecutive, EndedAs, EndedWith, Clean, SomeRaised;
      ghost var record0, log0, v0, clock0 := file.record, file.log, Sees(file, state), world.clock;
      ghost var traced := world.Plain() && Traced(file.runId, file.log, state.turnCount);
      var looped, turns := engine.Run(file, request, state);
      GrownBy(request, record0, log0, file.record, file.log);
      ghost var v1 := Sees(file, state);
      assert v1.asked == v0.asked + Flattened(turns);
      if traced && looped.Ok? {
        TracedRecorded(file.runId, file.log, state.turnCount);
      }
      if looped.Err? || looped.value != Completed || !hasGate {
        rounds := [Round(turns, [])];
        LoopEnded(world, hasGate, request, file.runId, v0, turns, clock0, v1, looped, file.StepsLeft(1));
        r := looped;
      } else {
        LoopJudged(world, request, v0, turns, clock0, v1);
        r, rounds := Conclude(file, request, state, record0, v0, turns);
        LoopFollowed(world, request, file.runId, v0, turns, clock0, v1, Sees(file, state), rounds, r,
          file.StepsLeft(1));
      }
      FollowedEnds(world, hasGate, request, file.runId, v0, Sees(file, state), rounds, r, file.StepsLeft(1));
    }

    /** The completion gate after a loop that completed. */
    method Conclude(
      file: RunFile, request: Request, state: RunState, ghost record0: Record, ghost v0: View,
      ghost turns: seq<seq<Asked>>)
      returns (r: Result<Status>, ghost rounds: seq<Round>)
      requires Valid() && file.runId in files && files[file.runId] == file && state.failures == [] && hasGate
      requires SubRuns(state.observations) == |Children(file.asked)| == |Children(v0.asked)|
      requires Advanced(request, record0, v0.log, file.record, file.log) && |file.log| > |v0.log|
      requires record0.stepCount + 1 <= record0.maxSteps && record0.stepCount <= |v0.log|
      requires Judging(world, true, request, v0, Round(turns, []), Sees(file, state))
      modifies this, world, state, Writes(request, file)
      ensures Valid() && file.runId in files && files[file.runId] == file && fresh(files.Values - old(files.Values))
      ensures Grown(request, record0, v0.log, file.record, file.log, 2) && file.ended == old(file.ended)
      ensures !Allows(request) ==> files == old(files) && launches == old(launches)
      ensures Followed(world, true, request, file.runId, v0, old(Sees(file, state)), Sees(file, state), rounds, r,
                file.StepsLeft(1))
      ensures world.Plain() && old(state.turnCount) > 0 && Traced(file.runId, old(file.log), old(state.turnCount)) ==>
                Recorded(file.runId, file.log)
      decreases if Allows(request) then 1 else 0, 1, Fuel(record0, v0.log), 0, 4
    {
      hide Grown, Advanced, Traced, Recorded, Tidy, Followed, Allows, Judging, Children, SubRuns;
      ghost var v1, clock1, n := Sees(file, state), world.clock, SubRuns(state.observations);
      GrownBy(request, record0, v0.log, file.record, file.log);
      if Traced(file.runId, file.log, state.turnCount) {
        TracedRecorded(file.runId, file.log, state.turnCount);
      }
      var decided := Evaluate(file, request, state);
      ghost var v2, q := Sees(file, state), AskedVerifier(clock1);
      VerifierAsked(world, request, file.runId, v0, turns, v1, q, v2);
      if decided.Ok? {
        r, rounds := Follow(file, request, state, decided.value, record0, v0, Round(turns, [q]));
      } else {
        r, rounds := Err(decided.message), [];
      }
      AskedFollowed(world, request, file.runId, v0, v1, q, v2, Sees(file, state), rounds, r, file.StepsLeft(1));
    }

    /** What the gate's decision leads to. */
    method Follow(
      file: RunFile, request: Request, state: RunState, decision: GateDecision, ghost record0: Record, ghost v0: View,
      ghost round: Round)
      returns (r: Result<Status>, ghost rounds: seq<Round>)
      requires Valid() && file.runId in files && files[file.runId] == file && state.failures == [] && hasGate
      requires SubRuns(state.observations) == |Children(file.asked)| == |Children(v0.asked)|
      requires Advanced(request, record0, v0.log, file.record, file.log) && |file.log| > |v0.log|
      requires record0.stepCount + 1 <= record0.maxSteps && record0.stepCount <= |v0.log|
      requires Judging(world, true, request, v0, round, Sees(file, state))
      requires |round.gate| == 1 && round.gate[0].AskedVerifier? && world.verifier(round.gate[0].n).Ok?
      requires var verdict := world.verifier(round.gate[0].n).value;
              && (verdict == Passed <==> decision == Pass) && (verdict == Retry <==> decision == RetryMain)
              && (verdict == Rejected <==> decision == FailRun)
              && (verdict.RunSubRun? && MayLaunch(request, |Children(v0.asked)|) <==> decision.LaunchSubRun?)
              && (decision.LaunchSubRun? ==> verdict == RunSubRun(decision.request))
      modifies this, world, state, Writes(request, file)
      ensures Valid() && file.runId in files && files[file.runId] == file && fresh(files.Values - old(files.Values))
      ensures Grown(request, record0, v0.log, file.record, file.log, 2) && file.ended == old(file.ended)
      ensures !Allows(request) ==> files == old(files) && launches == old(launches)
      ensures
        || (r == Err("invalid sub-run request") && decision == LaunchSubRun(None)
            && Sees(file, state) == old(Sees(file, state)))
        || Followed(world, true, request, file.runId, v0, old(Sees(file, state)), Sees(file, state), rounds, r,
             file.StepsLeft(1))
      ensures world.Plain() && old(state.turnCount) > 0 && Traced(file.runId, old(file.log), old(state.turnCount)) ==>
                Recorded(file.runId, file.log)
      decreases if Allows(request) then 1 else 0, 1, Fuel(record0, v0.log), 0, 3
    {
      hide Grown, Advanced, Traced, Recorded, Tidy, Followed, Allows, Judging, WentBack, MayLaunch, Children, SubRuns;
      ghost var v1, log1 := Sees(file, state), file.log;
      GrownBy(request, record0, v0.log, file.record, file.log);
      if Traced(file.runId, log1, state.turnCount) {
        TracedRecorded(file.runId, log1, state.turnCount);
      }
      if decision == RetryMain {
        VerdictWentBack(world, request, v0, round, v1);
        AdvancedCount(request, record0, v0.log, file.record, file.log);
        assert log1 + [] == log1;
        r, rounds := RetryMainLoop(file, request, state, record0, file.record, log1, [], v0, round);
      } else if decision.LaunchSubRun? {
        MayLaunchAllows(request, SubRuns(state.observations));
        if decision.request.Some? {
          r, rounds := RunChild(file, request, state, decision.request.value, record0, v0, round);
        } else {
          r, rounds := Err("invalid sub-run request"), [];
        }
      } else {
        var status := if decision.Pass? then Completed else if decision.FailRun? then Failed else RequiresReview;
        if decision.FailRun? {
          state.failures := state.failures + ["runtime completion failed"];
        }
        r, rounds := Ok(status), [round];
        VerdictConcludes(world, request, file.runId, v0, round, v1, Sees(file, state), status);
      }
    }

    /** The main loop once more, after the verifier or a sub-run asked for it. */
    method RetryMainLoop(
      file: RunFile, request: Request, state: RunState, ghost record0: Record, ghost record1: Record,
      ghost log1: seq<Step>, ghost kinds: seq<Step>, ghost v0: View, ghost round: Round)
      returns (r: Result<Status>, ghost rounds: seq<Round>)
      requires Valid() && file.runId in files && files[file.runId] == file && state.failures == [] && hasGate
      requires SubRuns(state.observations) == |Children(file.asked)|
      requires Advanced(request, record0, v0.log, record1, log1) && |log1| > |v0.log|
      requires record0.stepCount + 1 <= record0.maxSteps && record0.stepCount <= |v0.log|
      requires kinds == [] || kinds == [ObservationOf(|log1|, SUBRUN, state.turnCount)]
      requires file.log == log1 + kinds && file.record == record1.(stepCount := |file.log|)
      requires Judging(world, true, request, v0, round, Sees(file, state))
      requires WentBack(world, request, round, |Children(v0.asked)|)
      modifies this, world, state, Writes(request, file)
      ensures Valid() && file.runId in files && files[file.runId] == file && fresh(files.Values - old(files.Values))
      ensures Grown(request, record0, v0.log, file.record, file.log, 2) && file.ended == old(file.ended)
      ensures !Allows(request) ==> files == old(files) && launches == old(launches)
      ensures Followed(world, true, request, file.runId, v0, old(Sees(file, state)), Sees(file, state), rounds, r,
                file.StepsLeft(1))
      ensures world.Plain() && old(state.turnCount) > 0 && Traced(file.runId, log1, old(state.turnCount)) ==>
                Recorded(file.runId, file.log)
      decreases if Allows(request) then 1 else 0, 1, Fuel(record0, v0.log), 0, 0
    {
      hide Grown, Advanced, Traced, Recorded, Tidy, Followed, Allows, Judging, WentBack, Children, SubRuns, Interrupted;
      ghost var turn, v2, log2 := state.turnCount, Sees(file, state), file.log;
      SubRunsSnoc(state.observations, FEEDBACK);
      Observe(file, state, FEEDBACK);
      ghost var step, v3 := ObservationOf(|log2|, FEEDBACK, turn), Sees(file, state);
      ghost var more := kinds + [step];
      assert file.log == log1 + more;
      GrownObserved(request, record0, v0.log, record1, log1, more, file.record);
      TracedObserved(file.runId, log1, turn, more, world.Plain() && turn > 0 && Traced(file.runId, log1, turn));
      ghost var record3, log3 := file.record, file.log;
      ghost var rest;
      r, rest := Orchestrate(file, request, state);
      rounds := [round] + rest;
      GrownTwice(request, record0, v0.log, record3, log3, file.record, file.log);
      WentBackThen(world, request, file.runId, v0, round, v2, step, v3, rest, Sees(file, state), r, file.StepsLeft(1));
    }

    /** The verifier asked for a sub-run, and the gate allows it. */
    method RunChild(
      file: RunFile, request: Request, state: RunState, child: SubRunRequest, ghost record0: Record, ghost v0: View,
      ghost round0: Round)
      returns (r: Result<Status>, ghost rounds: seq<Round>)
      requires Valid() && file.runId in files && files[file.runId] == file && state.failures == [] && hasGate
      requires SubRuns(state.observations) == |Children(file.asked)| == |Children(v0.asked)|
      requires Advanced(request, record0, v0.log, file.record, file.log) && |file.log| > |v0.log|
      requires record0.stepCount + 1 <= record0.maxSteps && record0.stepCount <= |v0.log|
      requires Judging(world, true, request, v0, round0, Sees(file, state))
      requires |round0.gate| == 1 && round0.gate[0].AskedVerifier?
      requires world.verifier(round0.gate[0].n) == Ok(RunSubRun(Some(child)))
      requires MayLaunch(request, |Children(v0.asked)|)
      modifies this, world, state, files.Values
      ensures Valid() && file.runId in files && files[file.runId] == file && fresh(files.Values - old(files.Values))
      ensures Grown(request, record0, v0.log, file.record, file.log, 2) && file.ended == old(file.ended)
      ensures Followed(world, true, request, file.runId, v0, old(Sees(file, state)), Sees(file, state), rounds, r,
                file.StepsLeft(1))
      ensures world.Plain() && old(state.turnCount) > 0 && Traced(file.runId, old(file.log), old(state.turnCount)) ==>
                Recorded(file.runId, file.log)
      decreases 1, 1, Fuel(record0, v0.log), 0, 2
    {
      hide Grown, Advanced, Traced, Recorded, Tidy, Continued, Followed, Judging, Delegated, CountsAs, Children;
      hide SubRuns;
      ghost var v2, log1 := Sees(file, state), file.log;
      GrownBy(request, record0, v0.log, file.record, file.log);
      if Traced(file.runId, log1, state.turnCount) {
        TracedRecorded(file.runId, log1, state.turnCount);
      }
      MayLaunchAllows(request, SubRuns(state.observations));
      var delegated; ghost var answer;
      delegated, answer := Delegate(file, request, state, child);
      ghost var v3, round := Sees(file, state), Round(round0.turns, round0.gate + answer);
      ChildAnswered(world, request, v0, round0, v2, answer, v3);
      if delegated.Ok? {
        r, rounds := AfterSubRun(file, request, state, delegated.value, record0, v0, round);
      } else {
        r, rounds := Err(delegated.message), [];
      }
      ChildFollowed(world, request, file.runId, v0, v2, answer, v3, Sees(file, state), rounds, r, file.StepsLeft(1));
    }

    /** Recording a sub-run's result, and retrying the main loop when it asks for that. */
    method AfterSubRun(
      file: RunFile, request: Request, state: RunState, result: SubRunResult, ghost record0: Record, ghost v0: View,
      ghost round: Round)
      returns (r: Result<Status>, ghost rounds: seq<Round>)
      requires Valid() && file.runId in files && files[file.runId] == file && Allows(request)
      requires SubRuns(state.observations) + 1 == |Children(file.asked)| && state.failures == [] && hasGate
      requires Advanced(request, record0, v0.log, file.record, file.log) && |file.log| > |v0.log|
      requires record0.stepCount + 1 <= record0.maxSteps && record0.stepCount <= |v0.log|
      requires Judging(world, true, request, v0, round, Sees(file, state))
      requires Delegated(world, request, round, |Children(v0.asked)|)
      requires CountsAs(world, round.gate[1..], result.status, result.retryable)
      modifies this, world, state, files.Values
      ensures Valid() && file.runId in files && files[file.runId] == file && fresh(files.Values - old(files.Values))
      ensures Grown(request, record0, v0.log, file.record, file.log, 2) && file.ended == old(file.ended)
      ensures Followed(world, true, request, file.runId, v0, old(Sees(file, state)), Sees(file, state), rounds, r,
                file.StepsLeft(1))
      ensures world.Plain() && old(state.turnCount) > 0 && Traced(file.runId, old(file.log), old(state.turnCount)) ==>
                Recorded(file.runId, file.log)
      decreases 1, 1, Fuel(record0, v0.log), 0, 1
    {
      hide Grown, Advanced, Traced, Recorded, Tidy, Followed, Allows, Delegated, CountsAs, Judging, WentBack;
      hide Children, SubRuns;
      ghost var record1, log1, turn, v3 := file.record, file.log, state.turnCount, Sees(file, state);
      ghost var kinds := [ObservationOf(|log1|, SUBRUN, turn)];
      AdvancedCount(request, record0, v0.log, file.record, file.log);
      SubRunsSnoc(state.observations, SUBRUN);
      Observe(file, state, SUBRUN);
      ghost var v4 := Sees(file, state);
      JudgingStep(world, request, v0, round, v3, kinds[0]);
      if result.status != Completed && result.retryable {
        SubRunWentBack(world, request, round, |Children(v0.asked)|, result.status);
        r, rounds := RetryMainLoop(file, request, state, record0, record1, log1, kinds, v0, round);
      } else {
        GrownObserved(request, record0, v0.log, record1, log1, kinds, file.record);
        TracedObserved(file.runId, log1, turn, kinds, world.Plain() && turn > 0 && Traced(file.runId, log1, turn));
        if result.status == Failed {
          state.failures := state.failures + ["verification sub-run failed"];
        }
        r := Ok(if result.status == Completed then Completed else if result.status == Failed then Failed
          else RequiresReview);
        rounds := [round];
        SubRunConcludes(world, request, file.runId, v0, round, v4, Sees(file, state), result.status, result.retryable);
      }
      StepFollowed(world, request, file.runId, v0, v3, kinds[0], v4, Sees(file, state), rounds, r, file.StepsLeft(1));
    }

    /** `_prepare_request_run`: a new run, or the reused one with its record reset and its old steps. */
    method PrepareRun(request: Request, runId: string) returns (file: RunFile)
      requires Valid()
      modifies this`files, if runId in files then {files[runId]} else {}
      ensures Valid() && runId in files && files[runId] == file
      ensures file.record == Record(0, 0, 0, request.maxSteps, request.maxToolCalls, request.maxSkillCalls)
      ensures file.log == (if runId in old(files) then old(files[runId].log) else []) && file.asked == []
      ensures file.ended == None && files == old(files)[runId := file] && fresh(files.Values - old(files.Values))
    {
      if runId in files {
        file := files[runId];
        file.record := NewRecord(request);
        file.ended, file.asked := None, [];
      } else {
        file := new RunFile(runId, NewRecord(request));
        files := files[runId := file];
      }
    }

    /** The fatal path: one more step, whatever the budget says. */
    method RecordFatal(file: RunFile, ghost request: Request, message: string)
      requires Valid() && file.runId in files && files[file.runId] == file
      modifies file`log, file`record
      ensures Valid()
      ensures file.log ==
                old(file.log) + [Step(|old(file.log)|, DecisionError, FatalName(file.runId), None, None, message)]
      ensures WithinBounds(request, old(file.record), old(file.log))
                && |old(file.log)| <= AtLeast(request.maxSteps, 0) + 2 ==>
                WithinBounds(request, file.record, file.log)
      ensures Recorded(file.runId, old(file.log)) ==> Recorded(file.runId, file.log)
    {
      hide Tidy, WithinBounds, Recorded, FatalName;
      ghost var record1, log1 := file.record, file.log;
      ghost var fatal := Step(|log1|, DecisionError, FatalName(file.runId), None, None, message);
      file.AppendStep(DecisionError, FatalName(file.runId), None, None, message);
      if WithinBounds(request, record1, log1) && |log1| <= AtLeast(request.maxSteps, 0) + 2 {
        BoundsFatal(request, record1, log1, fatal);
      }
      RecordedFatal(file.runId, log1, fatal);
    }

    /** Preparing the files and running the orchestrator on a fresh run state. */
    method OrchestrateRun(request: Request, runId: string)
      returns (file: RunFile, r: Result<Outcome>)
      requires Valid()
      modifies this, world, if Allows(request) then files.Values else if runId in files then {files[runId]} else {}
      ensures Valid() && runId in files && files[runId] == file && fresh(files.Values - old(files.Values))
      ensures runId !in old(files) ==> fresh(file)
      ensures !Allows(request) ==> files == old(files)[runId := file] && launches == old(launches)
      ensures Ran(world, hasGate, request, runId, old(launches), launches, file.asked,
                if runId in old(files) then old(files[runId].log) else [], file.log, r)
      ensures r.Err? ==> !file.StepsLeft(1) || Interrupted(world, file.asked)
      ensures runId !in old(files) ==>
                WithinBounds(request, file.record, file.log) && |file.log| <= AtLeast(request.maxSteps, 0) + 2
      ensures runId !in old(files) && world.Plain() ==> Recorded(runId, file.log)
      decreases if Allows(request) then 1 else 0, 2
    {
      hide Grown, Tidy, Traced, Recorded, WithinBounds, Allows, Followed, Ran, Interrupted, Clean, EndedAs, SomeFailing;
      hide SomeRaised, Children, SubRuns;
      FreshRun(request, runId);
      file := PrepareRun(request, runId);
      ghost var log0 := file.log;
      var state := new RunState();
      ghost var v0 := Sees(file, state);
      assert v0 == View([], if runId in old(files) then old(files[runId].log) else [], old(launches), false, false);
      var orchestrated; ghost var rounds;
      orchestrated, rounds := Orchestrate(file, request, state);
      ghost var v1 := Sees(file, state);
      RunSays(world, hasGate, request, runId, v0, v1, rounds, orchestrated, file.StepsLeft(1));
      if log0 == [] {
        BoundsKept(request, file.record, file.log);
      }
      r := if orchestrated.Ok? then Ok(Outcome(orchestrated.value, state.skillResults != []))
        else Err(orchestrated.message);
    }

    /** `_execute_request`: a failure of the run is recorded as one fatal step and raised again. */
    method ExecuteRequest(request0: Request, runId: string) returns (r: Result<Outcome>)
      requires Valid()
      modifies this, world, if Allows(Normalized(request0)) then files.Values else if runId in files then {files[runId]}
        else {}
      ensures Valid() && runId in files && fresh(files.Values - old(files.Values))
      ensures !Allows(Normalized(request0)) ==> launches == old(launches) && files == old(files)[runId := files[runId]]
      ensures Ran(world, hasGate, Normalized(request0), runId, old(launches), launches, files[runId].asked,
                if runId in old(files) then old(files[runId].log) else [], files[runId].log, r)
      ensures r.Err? ==> files[runId].log != [] && files[runId].log[|files[runId].log| - 1].name == FatalName(runId)
      ensures files[runId].ended == Some(if r.Ok? then Ending(r.value.status, false) else Ending(Failed, true))
      ensures runId !in old(files) ==> WithinBounds(Normalized(request0), files[runId].record, files[runId].log)
      ensures runId !in old(files) && world.Plain() ==> Recorded(runId, files[runId].log)
      decreases if Allows(Normalized(request0)) then 1 else 0, 3
    {
      hide Recorded, WithinBounds, Allows, Interrupted, Ran, FatalName;
      var file: RunFile;
      ghost var launches0, log0 := launches, if runId in files then files[runId].log else [];
      file, r := OrchestrateRun(Normalized(request0), runId);
      if r.Err? {
        RanFatal(world, hasGate, Normalized(request0), runId, launches0, launches, file.asked, log0, file.log, r,
          Step(|file.log|, DecisionError, FatalName(runId), None, None, r.message));
        RecordFatal(file, Normalized(request0), r.message);
      }
      file.ended := Some(if r.Ok? then Ending(r.value.status, false) else Ending(Failed, true));
    }

    /** `run_request`: how a run ended, in terms of the world's answers, its steps and its children. */
    method RunRequest(request0: Request, runId: string) returns (r: Result<Outcome>)
      requires Valid()
      modifies this, world, if Allows(Normalized(request0)) then files.Values else if runId in files then {files[runId]}
        else {}
      ensures Valid() && runId in files && fresh(files.Values - old(files.Values))
      ensures NewLaunches(old(launches), launches, runId, Normalized(request0), files[runId].asked)
      ensures |launches| <= |old(launches)| + AtLeast(0, request0.maxSubruns)
      ensures r.Ok? ==>
                var t, log := files[runId].asked, files[runId].log;
                var first := if runId in old(files) then |old(files[runId].log)| else 0;
                var broken := (exists q :: q in t && Failing(world, q))
                              || exists i :: first <= i < |log| && log[i].stepType == DecisionError;
                && (r.value.hasSkillResults <==> SomeSkill(world, t))
                && EndedAs(world, hasGate, Normalized(request0), t, broken, r.value.status)
                && (r.value.status == Completed ==>
                      && !broken
                      && (forall q :: q in t && q.AskedTool? ==> world.tools(q.n).Ok? && world.tools(q.n).value.ok)
                      && (forall q :: q in t && q.AskedSkill? ==> world.skills(q.n).Ok? && world.skills(q.n).value.ok)
                      && (hasGate ==>
                            LastVerdict(world, t) == Some(Passed) || LastChild(world, t) == Some(Completed)))
                && (r.value.status == Failed <==>
                      broken || LastVerdict(world, t) == Some(Rejected) || LastChild(world, t) == Some(Failed))
      ensures files[runId].ended == Some(if r.Ok? then Ending(r.value.status, false) else Ending(Failed, true))
      ensures runId !in old(files) ==> WithinBounds(Normalized(request0), files[runId].record, files[runId].log)
      ensures runId !in old(files) && world.Plain() ==> Recorded(runId, files[runId].log)
    {
      hide Recorded, WithinBounds, Allows, SomeSkill, Failing, NewLaunches, Ran, EndedAs, LastChild, LastVerdict;
      ghost var launches0, log0 := launches, if runId in files then files[runId].log else [];
      r := ExecuteRequest(request0, runId);
      RanMeans(world, hasGate, Normalized(request0), runId, launches0, launches, files[runId].asked, log0,
        files[runId].log, r);
    }
  }

  /** What a run started on fresh files leaves behind, whatever its planner, tools, skills and verifier did. */
  predicate WithinBounds(request: Request, record: Record, log: seq<Step>) {
    Tidy(request, record, log) && |log| <= AtLeast(request.maxSteps, 0) + 3
  }

  lemma FreshRun(request: Request, runId: string)
    ensures Tidy(request, NewRecord(request), []) && Traced(runId, [], 0) && SubRuns([]) == |Children([])|
  {
  }

  lemma BoundsKept(request: Request, record: Record, log: seq<Step>)
    requires Tidy(request, NewRecord(request), []) && Grown(request, NewRecord(request), [], record, log, 2)
    ensures WithinBounds(request, record, log) && |log| <= AtLeast(request.maxSteps, 0) + 2
  {
    hide Tidy;
  }

  lemma BoundsFatal(request: Request, record: Record, log: seq<Step>, fatal: Step)
    requires WithinBounds(request, record, log) && |log| <= AtLeast(request.maxSteps, 0) + 2
    requires fatal.index == |log| && fatal.stepType == DecisionError
    ensures WithinBounds(request, record.(stepCount := |log| + 1), log + [fatal])
  {
    hide Tidy;
    TidyAppend(request, record, log, fatal);
  }

  lemma RecordedFatal(runId: string, log: seq<Step>, fatal: Step)
    requires fatal.stepType == DecisionError && fatal.name == FatalName(runId)
    ensures Recorded(runId, log) ==> Recorded(runId, log + [fatal])
  {
    RecordedSnoc(runId, log, fatal);
  }

  lemma TracedObserved(runId: string, log: seq<Step>, turns: nat, kinds: seq<Step>, traced: bool)
    requires traced ==> turns > 0 && Traced(runId, log, turns)
    requires |kinds| <= 2 && forall i :: 0 <= i < |kinds| ==> kinds[i] == ObservationOf(|log| + i, kinds[i].name, turns)
    ensures traced ==> Traced(runId, log + kinds, turns) && Recorded(runId, log + kinds)
  {
    if traced {
      hide Traced, Recorded;
      if |kinds| == 0 {
        assert log + kinds == log;
      } else {
        TracedStep(runId, log, turns, kinds[0]);
        if |kinds| == 2 {
          TracedStep(runId, log + [kinds[0]], turns, kinds[1]);
          assert log + kinds == log + [kinds[0]] + [kinds[1]];
        } else {
          assert log + kinds == log + [kinds[0]];
        }
      }
      TracedRecorded(runId, log + kinds, turns);
    }
  }

  // ----- what the questions of a run add up to

  /** Two stretches of questions one after the other. */
  lemma Stretches(a0: seq<Asked>, a1: seq<Asked>, a2: seq<Asked>)
    requires a0 <= a1 <= a2
    ensures a2[|a0|..] == a1[|a0|..] + a2[|a1|..] && a1 == a0 + a1[|a0|..]
    ensures forall q :: q in a2[|a0|..] <==> q in a1[|a0|..] || q in a2[|a1|..]
    ensures Children(a2[|a0|..]) == Children(a1[|a0|..]) + Children(a2[|a1|..])
    ensures Children(a1) == Children(a0) + Children(a1[|a0|..])
  {
    assert a2[|a0|..] == a1[|a0|..] + a2[|a1|..] && a1 == a0 + a1[|a0|..];
    ChildrenAppend(a1[|a0|..], a2[|a1|..]);
    ChildrenAppend(a0, a1[|a0|..]);
  }

  lemma LaunchesTwice(
    n0: seq<Launch>, n1: seq<Launch>, n2: seq<Launch>, parent: string, request: Request, t1: seq<Asked>, t2: seq<Asked>)
    requires NewLaunches(n0, n1, parent, request, t1) && NewLaunches(n1, n2, parent, request, t2)
    ensures NewLaunches(n0, n2, parent, request, t1 + t2)
  {
    ChildrenAppend(t1, t2);
    hide Children, ChildRequest;
    var c1, c2, c := Children(t1), Children(t2), Children(t1 + t2);
    forall i | 0 <= i < |c| ensures n2[|n0| + i] == Launch(parent, ChildRequest(request, c[i])) {
      if i < |c1| {
        assert n2[|n0| + i] == n1[|n0| + i];
      } else {
        assert n2[|n1| + (i - |c1|)] == Launch(parent, ChildRequest(request, c2[i - |c1|]));
      }
    }
  }

  lemma ContinuedTwice(world: World, request: Request, parent: string, v: View, v': View, v'': View)
    requires Continued(world, request, parent, v, v') && Continued(world, request, parent, v', v'')
    ensures Continued(world, request, parent, v, v'')
  {
    hide NewLaunches, Answered, Children;
    Stretches(v.asked, v'.asked, v''.asked);
    LaunchesTwice(v.launches, v'.launches, v''.launches, parent, request, v'.asked[|v.asked|..],
      v''.asked[|v'.asked|..]);
  }

  /** A question of the gate. */
  lemma ContinuedAsk(world: World, request: Request, parent: string, v: View, q: Asked)
    requires !q.RanChild? && !q.AskedSkill?
    ensures Continued(world, request, parent, v, v.(asked := v.asked + [q]))
  {
    assert (v.asked + [q])[|v.asked|..] == [q];
    NoChildren([q]);
    ChildrenAppend(v.asked, [q]);
  }

  lemma ContinuedStep(world: World, request: Request, parent: string, v: View, steps: seq<Step>, failed: bool)
    ensures Continued(world, request, parent, v, v.(log := v.log + steps, failed := failed))
  {
    assert v.asked[|v.asked|..] == [];
  }

  lemma ContinuedChild(world: World, request: Request, parent: string, v: View, q: Asked)
    requires q.RanChild? && |Children(v.asked)| < request.maxSubruns
    ensures Continued(world, request, parent, v,
              v.(asked := v.asked + [q], launches := v.launches + [Launch(parent, ChildRequest(request, q.child))]))
  {
    assert (v.asked + [q])[|v.asked|..] == [q] && [q][..0] == [];
    assert Children([q]) == [q.child];
    ChildrenAppend(v.asked, [q]);
  }

  lemma ContinuedLoop(
    world: World, request: Request, parent: string, v: View, turns: seq<seq<Asked>>, clock: nat, v': View)
    requires Consecutive(Flattened(turns), clock) && v.log <= v'.log && v'.launches == v.launches
    requires v'.asked == v.asked + Flattened(turns)
    requires v'.skilled <==> v.skilled || SomeSkill(world, Flattened(turns))
    ensures Continued(world, request, parent, v, v') && v'.asked[|v.asked|..] == Flattened(turns)
    ensures Children(Flattened(turns)) == [] && Children(v'.asked) == Children(v.asked)
  {
    hide SomeSkill;
    var t := Flattened(turns);
    assert v'.asked[|v.asked|..] == t;
    NoChildren(t);
    ChildrenAppend(v.asked, t);
  }

  /** Something more came before what was followed. */
  lemma FollowedLater(
    world: World, hasGate: bool, request: Request, parent: string, v0: View, v1: View, v2: View, v': View,
    rounds: seq<Round>, r: Result<Status>, stepsLeft: bool)
    requires Continued(world, request, parent, v1, v2)
    requires Followed(world, hasGate, request, parent, v0, v2, v', rounds, r, stepsLeft)
    ensures Followed(world, hasGate, request, parent, v0, v1, v', rounds, r, stepsLeft)
  {
    hide Orchestrated, Interrupted;
    ContinuedTwice(world, request, parent, v1, v2, v');
    ContinuedGrows(world, request, parent, v1, v2);
    ContinuedGrows(world, request, parent, v2, v');
    InterruptedLonger(world, v1.asked, v2.asked, v'.asked);
  }

  lemma ContinuedGrows(world: World, request: Request, parent: string, v: View, v': View)
    requires Continued(world, request, parent, v, v')
    ensures v.asked <= v'.asked && v.log <= v'.log
  {
    hide NewLaunches, SomeSkill, Children;
  }

  lemma InterruptedLonger(world: World, a0: seq<Asked>, a1: seq<Asked>, a2: seq<Asked>)
    requires a0 <= a1 <= a2
    ensures Interrupted(world, a1[|a0|..]) || Interrupted(world, a2[|a1|..]) ==> Interrupted(world, a2[|a0|..])
  {
    Stretches(a0, a1, a2);
  }

  /** The gate is not asked. */
  lemma LoopEnded(
    world: World, hasGate: bool, request: Request, parent: string, v0: View, turns: seq<seq<Asked>>, clock: nat,
    v': View, looped: Result<Status>, stepsLeft: bool)
    requires Consecutive(Flattened(turns), clock) && v0.log <= v'.log && v'.launches == v0.launches
    requires v'.asked == v0.asked + Flattened(turns) && !v0.failed
    requires v'.skilled <==> v0.skilled || SomeSkill(world, Flattened(turns))
    requires looped.Ok? ==> LoopOf(world, request, turns, looped.value)
    requires looped.Ok? ==>
              && (looped.value == Failed <==> v'.failed) && (looped.value == Completed ==> !hasGate)
              && (v'.failed <==> SomeFailing(world, Flattened(turns)) || SomeRaised(v'.log, |v0.log|))
    requires looped.Err? && stepsLeft ==>
              exists q :: q in Flattened(turns) && q.AskedPlanner? && world.planner(q.n) == Err(looped.message)
    ensures Followed(world, hasGate, request, parent, v0, v0, v', [Round(turns, [])], looped, stepsLeft)
  {
    hide LoopOf, SomeFailing, SomeSkill, Consecutive, Continued;
    ContinuedLoop(world, request, parent, v0, turns, clock, v');
    OneRound(Round(turns, []));
  }

  lemma OneRound(round: Round)
    ensures Questions([round]) == Flattened(round.turns) + round.gate
  {
    assert [round][1..] == [];
  }

  lemma LoopJudged(world: World, request: Request, v0: View, turns: seq<seq<Asked>>, clock: nat, v': View)
    requires LoopOf(world, request, turns, Completed) && v0.log <= v'.log && !v'.failed
    requires Consecutive(Flattened(turns), clock) && v'.asked == v0.asked + Flattened(turns)
    requires !SomeFailing(world, Flattened(turns)) && !SomeRaised(v'.log, |v0.log|)
    ensures Judging(world, true, request, v0, Round(turns, []), v')
    ensures |Children(v'.asked)| == |Children(v0.asked)|
  {
    hide LoopOf, SomeFailing, Children;
    assert v0.asked + Flattened(turns) + [] == v'.asked;
    NoChildren(Flattened(turns));
    ChildrenAppend(v0.asked, Flattened(turns));
  }

  lemma LoopFollowed(
    world: World, request: Request, parent: string, v0: View, turns: seq<seq<Asked>>, clock: nat, v1: View, v': View,
    rounds: seq<Round>, r: Result<Status>, stepsLeft: bool)
    requires Consecutive(Flattened(turns), clock) && v0.log <= v1.log && v1.launches == v0.launches
    requires v1.asked == v0.asked + Flattened(turns)
    requires v1.skilled <==> v0.skilled || SomeSkill(world, Flattened(turns))
    requires Followed(world, true, request, parent, v0, v1, v', rounds, r, stepsLeft)
    ensures Followed(world, true, request, parent, v0, v0, v', rounds, r, stepsLeft)
  {
    hide SomeSkill, Consecutive, Continued, Followed;
    ContinuedLoop(world, request, parent, v0, turns, clock, v1);
    FollowedLater(world, true, request, parent, v0, v0, v1, v', rounds, r, stepsLeft);
  }

  /** The gate has asked more. */
  lemma JudgingMore(world: World, request: Request, v0: View, round: Round, v: View, more: seq<Asked>, v': View)
    requires Judging(world, true, request, v0, round, v)
    requires v'.asked == v.asked + more && v'.log == v.log && v'.failed == v.failed
    requires forall q :: q in more ==> q.AskedVerifier? || q.RanChild? || q.AskedVerification?
    ensures Judging(world, true, request, v0, Round(round.turns, round.gate + more), v')
  {
    hide LoopOf, SomeFailing, SomeRaised, Children;
  }

  lemma JudgingStep(world: World, request: Request, v0: View, round: Round, v: View, step: Step)
    requires Judging(world, true, request, v0, round, v) && step.stepType != DecisionError
    ensures Judging(world, true, request, v0, round, v.(log := v.log + [step]))
  {
    hide LoopOf, SomeFailing, Children;
  }

  lemma VerifierAsked(
    world: World, request: Request, parent: string, v0: View, turns: seq<seq<Asked>>, v1: View, q: Asked, v2: View)
    requires Judging(world, true, request, v0, Round(turns, []), v1) && q.AskedVerifier?
    requires v2 == v1.(asked := v1.asked + [q])
    ensures Judging(world, true, request, v0, Round(turns, [q]), v2) && Children(v2.asked) == Children(v1.asked)
  {
    hide Judging, Children;
    JudgingMore(world, request, v0, Round(turns, []), v1, [q], v2);
    assert [] + [q] == [q];
    ChildrenAppend(v1.asked, [q]);
    NoChildren([q]);
  }

  lemma AskedFollowed(
    world: World, request: Request, parent: string, v0: View, v1: View, q: Asked, v2: View, v': View,
    rounds: seq<Round>, r: Result<Status>, stepsLeft: bool)
    requires q.AskedVerifier? && v2 == v1.(asked := v1.asked + [q])
    requires
      || Followed(world, true, request, parent, v0, v2, v', rounds, r, stepsLeft)
      || (r.Err? && v' == v2 && (world.verifier(q.n).Err? || world.verifier(q.n).value == RunSubRun(None)))
    ensures Followed(world, true, request, parent, v0, v1, v', rounds, r, stepsLeft)
  {
    hide Continued, Orchestrated;
    ContinuedAsk(world, request, parent, v1, q);
    if Followed(world, true, request, parent, v0, v2, v', rounds, r, stepsLeft) {
      FollowedLater(world, true, request, parent, v0, v1, v2, v', rounds, r, stepsLeft);
    } else {
      assert v'.asked[|v1.asked|..] == [q];
      assert q in [q];
    }
  }

  lemma GateNeverFails(world: World, t: seq<Asked>, gate: seq<Asked>)
    requires forall q :: q in gate ==> q.AskedVerifier? || q.RanChild? || q.AskedVerification?
    ensures SomeFailing(world, t + gate) <==> SomeFailing(world, t)
  {
    assert forall q :: q in t + gate <==> q in t || q in gate;
  }

  lemma RoundConcludes(
    world: World, request: Request, parent: string, v0: View, round: Round, v: View, v': View, status: Status)
    requires Judging(world, true, request, v0, round, v) && round.gate != []
    requires v' == v.(failed := status == Failed)
    requires Concluded(world, true, request, round, |Children(v0.asked)|, status)
    ensures Followed(world, true, request, parent, v0, v, v', [round], Ok(status), true)
  {
    hide LoopOf, SomeFailing, SomeRaised, Concluded, Children, Continued, Orchestrated;
    RoundOrchestrates(world, request, v0, round, v, v', status);
    assert v.log + [] == v.log;
    ContinuedStep(world, request, parent, v, [], status == Failed);
  }

  lemma RoundsOfOne(world: World, hasGate: bool, request: Request, round: Round, children: nat, status: Status)
    requires Concluded(world, hasGate, request, round, children, status)
    ensures RoundsOf(world, hasGate, request, [round], children, status)
  {
  }

  lemma RoundOrchestrates(
    world: World, request: Request, v0: View, round: Round, v: View, v': View, status: Status)
    requires Judging(world, true, request, v0, round, v) && round.gate != []
    requires v' == v.(failed := status == Failed)
    requires Concluded(world, true, request, round, |Children(v0.asked)|, status)
    ensures Orchestrated(world, true, request, v0, v', [round], status)
  {
    hide LoopOf, SomeFailing, SomeRaised, Concluded, Children, Questions, Flattened, RoundsOf;
    RoundsOfOne(world, true, request, round, |Children(v0.asked)|, status);
    AskedSince(v0.asked, Flattened(round.turns), round.gate, [], [], v.asked);
    assert v.asked[|v0.asked|..] == Flattened(round.turns) + round.gate;
    GateNeverFails(world, Flattened(round.turns), round.gate);
    OneRound(round);
  }

  lemma FollowedAnyway(
    world: World, hasGate: bool, request: Request, parent: string, v0: View, v1: View, v': View, rounds: seq<Round>,
    r: Result<Status>)
    requires r.Ok? && Followed(world, hasGate, request, parent, v0, v1, v', rounds, r, true)
    ensures Followed(world, hasGate, request, parent, v0, v1, v', rounds, r, false)
  {
  }

  lemma VerdictConcludes(
    world: World, request: Request, parent: string, v0: View, round: Round, v: View, v': View, status: Status)
    requires Judging(world, true, request, v0, round, v) && v' == v.(failed := status == Failed)
    requires |round.gate| == 1 && round.gate[0].AskedVerifier? && world.verifier(round.gate[0].n).Ok?
    requires var verdict := world.verifier(round.gate[0].n).value;
            || (verdict == Passed && status == Completed) || (verdict == Rejected && status == Failed)
            || (verdict == Undecided && status == RequiresReview)
            || (verdict.RunSubRun? && !MayLaunch(request, |Children(v0.asked)|) && status == RequiresReview)
    ensures forall stepsLeft ::
              Followed(world, true, request, parent, v0, v, v', [round], Ok(status), stepsLeft)
  {
    hide LoopOf, SomeFailing, SomeRaised, MayLaunch, Followed, Children;
    RoundConcludes(world, request, parent, v0, round, v, v', status);
    FollowedAnyway(world, true, request, parent, v0, v, v', [round], Ok(status));
  }

  lemma SubRunConcludes(
    world: World, request: Request, parent: string, v0: View, round: Round, v: View, v': View, status: Status,
    retryable: bool)
    requires Judging(world, true, request, v0, round, v) && v' == v.(failed := status == Failed)
    requires Delegated(world, request, round, |Children(v0.asked)|)
    requires CountsAs(world, round.gate[1..], status, retryable) && (status == Completed || !retryable)
    ensures forall stepsLeft ::
              Followed(world, true, request, parent, v0, v, v', [round], Ok(status), stepsLeft)
  {
    hide LoopOf, SomeFailing, SomeRaised, MayLaunch, CountsAs, Followed, Children;
    RoundConcludes(world, request, parent, v0, round, v, v', status);
    FollowedAnyway(world, true, request, parent, v0, v, v', [round], Ok(status));
  }

  lemma VerdictWentBack(world: World, request: Request, v0: View, round: Round, v: View)
    requires Judging(world, true, request, v0, round, v)
    requires |round.gate| == 1 && round.gate[0].AskedVerifier? && world.verifier(round.gate[0].n) == Ok(Retry)
    ensures WentBack(world, request, round, |Children(v0.asked)|)
  {
  }

  lemma SubRunWentBack(world: World, request: Request, round: Round, children: nat, status: Status)
    requires Delegated(world, request, round, children) && CountsAs(world, round.gate[1..], status, true)
    requires status != Completed
    ensures WentBack(world, request, round, children)
  {
    hide Delegated, CountsAs;
  }

  lemma StepFollowed(
    world: World, request: Request, parent: string, v0: View, v1: View, step: Step, v2: View, v': View,
    rounds: seq<Round>, r: Result<Status>, stepsLeft: bool)
    requires v2 == v1.(log := v1.log + [step])
    requires Followed(world, true, request, parent, v0, v2, v', rounds, r, stepsLeft)
    ensures Followed(world, true, request, parent, v0, v1, v', rounds, r, stepsLeft)
  {
    hide Continued, Followed;
    ContinuedStep(world, request, parent, v1, [step], v1.failed);
    FollowedLater(world, true, request, parent, v0, v1, v2, v', rounds, r, stepsLeft);
  }

  /** After a round that led to another one, the orchestration went on from the feedback step. */
  lemma WentBackThen(
    world: World, request: Request, parent: string, v0: View, round: Round, v2: View, step: Step, v3: View,
    rest: seq<Round>, v': View, r: Result<Status>, stepsLeft: bool)
    requires Judging(world, true, request, v0, round, v2) && step.stepType != DecisionError
    requires v3 == v2.(log := v2.log + [step]) && WentBack(world, request, round, |Children(v0.asked)|)
    requires Followed(world, true, request, parent, v3, v3, v', rest, r, stepsLeft)
    ensures Followed(world, true, request, parent, v0, v2, v', [round] + rest, r, stepsLeft)
  {
    hide Judging, WentBack, Orchestrated, Continued;
    JudgingStep(world, request, v0, round, v2, step);
    if r.Ok? {
      RoundBefore(world, request, v0, round, v3, rest, v', r.value);
    }
    assert Followed(world, true, request, parent, v0, v3, v', [round] + rest, r, stepsLeft);
    StepFollowed(world, request, parent, v0, v2, step, v3, v', [round] + rest, r, stepsLeft);
  }

  lemma RoundBefore(
    world: World, request: Request, v0: View, round: Round, v: View, rest: seq<Round>, v': View, status: Status)
    requires Judging(world, true, request, v0, round, v) && WentBack(world, request, round, |Children(v0.asked)|)
    requires Orchestrated(world, true, request, v, v', rest, status)
    ensures Orchestrated(world, true, request, v0, v', [round] + rest, status)
  {
    hide LoopOf, SomeFailing, SomeRaised, WentBack, Children, RoundsOf, Questions;
    var t, t' := Flattened(round.turns) + round.gate, v'.asked[|v.asked|..];
    assert v.asked == v0.asked + t && v.asked[|v0.asked|..] == t && v0.asked <= v.asked;
    Stretches(v0.asked, v.asked, v'.asked);
    ChildrenAppend(Flattened(round.turns), round.gate);
    GateNeverFails(world, Flattened(round.turns), round.gate);
    FailingStretches(world, t, t');
    RaisedLonger(v.log, v'.log, |v0.log|);
    RoundsMore(world, request, round, rest, |Children(v0.asked)|, status);
  }

  lemma RoundsMore(world: World, request: Request, round: Round, rest: seq<Round>, children: nat, status: Status)
    requires WentBack(world, request, round, children)
    requires RoundsOf(world, true, request, rest, children + |Children(round.gate)|, status)
    ensures RoundsOf(world, true, request, [round] + rest, children, status)
    ensures Questions([round] + rest) == Flattened(round.turns) + round.gate + Questions(rest)
    ensures rest != [] && ([round] + rest)[|rest|] == rest[|rest| - 1]
  {
    hide WentBack, Concluded, Children;
    assert ([round] + rest)[1..] == rest;
  }

  lemma FailingStretches(world: World, a: seq<Asked>, b: seq<Asked>)
    ensures SomeFailing(world, a + b) <==> SomeFailing(world, a) || SomeFailing(world, b)
  {
    assert forall q :: q in a + b <==> q in a || q in b;
  }

  /** What a child's end and the reading of its verdict add up to. */
  lemma ChildAnswers(
    world: World, request: Request, parent: string, v: View, child: SubRunRequest, launched: SubRunResult,
    hasVerdict: bool, clock: nat, more: seq<Asked>, r: Result<SubRunResult>, v': View)
    requires !launched.retryable && |Children(v.asked)| < request.maxSubruns
    requires v' == v.(asked := v.asked + [RanChild(child, launched.status, hasVerdict)] + more,
                      launches := v.launches + [Launch(parent, ChildRequest(request, child))])
    requires if Strip(child.purpose) == "verification" && hasVerdict then
                && more == [AskedVerification(clock)]
                && match world.verifications(clock)
                   case Err(message) => r == Err(message)
                   case Ok(None) => r == Ok(launched)
                   case Ok(Some(v)) =>
                     && r.Ok? && r.value.status == (if v.passed then Completed else RequiresReview)
                     && (r.value.retryable <==> v.retryable && !v.passed)
              else
                more == [] && r == Ok(launched)
    ensures var answer := [RanChild(child, launched.status, hasVerdict)] + more;
            && (r.Ok? ==> CountsAs(world, answer, r.value.status, r.value.retryable))
            && (r.Err? ==> Interrupted(world, answer)) && answer[1..] == more
    ensures Continued(world, request, parent, v, v')
  {
    hide Strip, Continued, Children, ChildRequest;
    var q := RanChild(child, launched.status, hasVerdict);
    ContinuedChild(world, request, parent, v, q);
    var v1 := v.(asked := v.asked + [q], launches := v.launches + [Launch(parent, ChildRequest(request, child))]);
    if more != [] {
      assert ([q] + more)[1] == more[0];
      ContinuedAsk(world, request, parent, v1, more[0]);
      ContinuedTwice(world, request, parent, v, v1, v');
    } else {
      assert v.asked + [q] + more == v.asked + [q];
    }
  }

  /** The verifier's child has been launched. */
  lemma ChildAnswered(
    world: World, request: Request, v0: View, round: Round, v: View, answer: seq<Asked>, v': View)
    requires Judging(world, true, request, v0, round, v) && MayLaunch(request, |Children(v0.asked)|)
    requires |round.gate| == 1 && round.gate[0].AskedVerifier? && answer != [] && answer[0].RanChild?
    requires world.verifier(round.gate[0].n) == Ok(RunSubRun(Some(answer[0].child)))
    requires forall q :: q in answer[1..] ==> q.AskedVerification?
    requires v'.asked == v.asked + answer && v'.log == v.log && v'.failed == v.failed
    ensures var more := Round(round.turns, round.gate + answer);
            && Judging(world, true, request, v0, more, v')
            && Delegated(world, request, more, |Children(v0.asked)|) && more.gate[1..] == answer
    ensures |Children(v'.asked)| == |Children(v.asked)| + 1
  {
    hide LoopOf, SomeFailing, SomeRaised, Children, MayLaunch;
    var more := Round(round.turns, round.gate + answer);
    assert more.gate[1..] == answer && more.gate[0] == round.gate[0] && more.gate[1] == answer[0];
    assert answer == [answer[0]] + answer[1..];
    JudgingMore(world, request, v0, round, v, answer, v');
    AnswerChildren(v.asked, answer);
  }

  lemma ChildFollowed(
    world: World, request: Request, parent: string, v0: View, v1: View, answer: seq<Asked>, v2: View, v': View,
    rounds: seq<Round>, r: Result<Status>, stepsLeft: bool)
    requires v2.asked == v1.asked + answer && Continued(world, request, parent, v1, v2)
    requires
      || Followed(world, true, request, parent, v0, v2, v', rounds, r, stepsLeft)
      || (r.Err? && v' == v2 && Interrupted(world, answer))
    ensures Followed(world, true, request, parent, v0, v1, v', rounds, r, stepsLeft)
  {
    hide Continued, Orchestrated, Interrupted;
    if Followed(world, true, request, parent, v0, v2, v', rounds, r, stepsLeft) {
      FollowedLater(world, true, request, parent, v0, v1, v2, v', rounds, r, stepsLeft);
    } else {
      assert v'.asked[|v1.asked|..] == answer;
    }
  }

  lemma AnswerChildren(asked: seq<Asked>, answer: seq<Asked>)
    requires answer != [] && answer[0].RanChild? && forall q :: q in answer[1..] ==> q.AskedVerification?
    ensures |Children(asked + answer)| == |Children(asked)| + 1
  {
    ChildrenAppend(asked, answer);
    ChildrenAppend([answer[0]], answer[1..]);
    assert [answer[0]] + answer[1..] == answer;
    NoChildren(answer[1..]);
    assert [answer[0]][..0] == [];
    assert Children([answer[0]]) == [answer[0].child];
  }

  /**
    How an orchestration ended: by its last answers, failed exactly with failures in the state, and completed only with
    every tool and skill answering well.
   */
  ghost predicate EndedWith(
    world: World, hasGate: bool, request: Request, v0: View, v': View, status: Status)
  {
    && v0.asked <= v'.asked && v0.log <= v'.log && (v'.failed <==> status == Failed)
    && (status == Completed ==> Clean(world, v'.asked[|v0.asked|..]))
    && EndedAs(world, hasGate, request, v'.asked,
         SomeFailing(world, v'.asked[|v0.asked|..]) || SomeRaised(v'.log, |v0.log|), status)
  }

  lemma FollowedEnds(
    world: World, hasGate: bool, request: Request, parent: string, v0: View, v': View, rounds: seq<Round>,
    r: Result<Status>, stepsLeft: bool)
    requires Followed(world, hasGate, request, parent, v0, v0, v', rounds, r, stepsLeft)
    ensures r.Ok? ==> EndedWith(world, hasGate, request, v0, v', r.value)
  {
    hide SomeFailing, SomeRaised, Continued, EndedAs, Clean, Children;
    if r.Ok? {
      assert v'.asked == v0.asked + Questions(rounds);
      RoundsEnd(world, hasGate, request, v0.asked, rounds, v'.asked,
        SomeFailing(world, v'.asked[|v0.asked|..]) || SomeRaised(v'.log, |v0.log|), r.value);
      if r.value == Completed {
        AllAnswered(world, hasGate, request, rounds, |Children(v0.asked)|, r.value);
      }
    }
  }

  /** A whole run from fresh questions on. */
  ghost predicate Ran(
    world: World, hasGate: bool, request: Request, parent: string, launches: seq<Launch>, launches': seq<Launch>,
    t: seq<Asked>, log0: seq<Step>, log: seq<Step>, r: Result<Outcome>) {
    && log0 <= log && NewLaunches(launches, launches', parent, request, t)
    && |Children(t)| <= AtLeast(0, request.maxSubruns) && |launches'| <= |launches| + AtLeast(0, request.maxSubruns)
    && (r.Ok? ==>
          && (r.value.hasSkillResults <==> SomeSkill(world, t)) && (r.value.status == Completed ==> Clean(world, t))
          && EndedAs(world, hasGate, request, t, SomeFailing(world, t) || SomeRaised(log, |log0|), r.value.status))
  }

  lemma RanFatal(
    world: World, hasGate: bool, request: Request, parent: string, launches: seq<Launch>, launches': seq<Launch>,
    t: seq<Asked>, log0: seq<Step>, log: seq<Step>, r: Result<Outcome>, fatal: Step)
    requires r.Err? && Ran(world, hasGate, request, parent, launches, launches', t, log0, log, r)
    ensures Ran(world, hasGate, request, parent, launches, launches', t, log0, log + [fatal], r)
  {
  }

  /** The same in terms of the world's answers and the log alone. */
  lemma RanMeans(
    world: World, hasGate: bool, request: Request, parent: string, launches: seq<Launch>, launches': seq<Launch>,
    t: seq<Asked>, log0: seq<Step>, log: seq<Step>, r: Result<Outcome>)
    requires Ran(world, hasGate, request, parent, launches, launches', t, log0, log, r)
    ensures NewLaunches(launches, launches', parent, request, t)
    ensures |launches'| <= |launches| + AtLeast(0, request.maxSubruns)
    ensures r.Ok? ==>
              var broken := (exists q :: q in t && Failing(world, q))
                            || exists i :: |log0| <= i < |log| && log[i].stepType == DecisionError;
              && t != [] && (r.value.hasSkillResults <==> SomeSkill(world, t))
              && EndedAs(world, hasGate, request, t, broken, r.value.status)
              && (r.value.status == Completed ==>
                    && !broken
                    && (forall q :: q in t && q.AskedTool? ==> world.tools(q.n).Ok? && world.tools(q.n).value.ok)
                    && (forall q :: q in t && q.AskedSkill? ==> world.skills(q.n).Ok? && world.skills(q.n).value.ok)
                    && (hasGate ==>
                          LastVerdict(world, t) == Some(Passed) || LastChild(world, t) == Some(Completed)))
              && (r.value.status == Failed <==>
                    broken || LastVerdict(world, t) == Some(Rejected) || LastChild(world, t) == Some(Failed))
  {
    hide NewLaunches, SomeSkill, Failing, MayLaunch, Children;
  }

  lemma RunSays(
    world: World, hasGate: bool, request: Request, parent: string, v0: View, v': View, rounds: seq<Round>,
    r: Result<Status>, stepsLeft: bool)
    requires Followed(world, hasGate, request, parent, v0, v0, v', rounds, r, stepsLeft)
    requires v0.asked == [] && !v0.skilled
    ensures Ran(world, hasGate, request, parent, v0.launches, v'.launches, v'.asked, v0.log, v'.log,
              if r.Ok? then Ok(Outcome(r.value, v'.skilled)) else Err(r.message))
    ensures r.Err? ==> !stepsLeft || Interrupted(world, v'.asked)
  {
    hide SomeFailing, SomeSkill, SomeRaised, Interrupted, EndedAs, Clean, Orchestrated;
    assert v'.asked[0..] == v'.asked;
    FollowedEnds(world, hasGate, request, parent, v0, v', rounds, r, stepsLeft);
  }

  lemma MayLaunchAllows(request: Request, children: nat)
    ensures MayLaunch(request, children) ==> Allows(request) && children < request.maxSubruns
  {
  }

  lemma AdvancedCount(request: Request, record: Record, log: seq<Step>, record': Record, log': seq<Step>)
    requires Advanced(request, record, log, record', log') && |log'| > |log|
    ensures record' == record'.(stepCount := |log'|)
  {
  }

  function ObservationOf(index: nat, kind: string, turnCount: nat): Step {
    Step(index, ObservationStep, kind, None, Some(Number(AtLeast(turnCount - 1, 0))), "")
  }
}
