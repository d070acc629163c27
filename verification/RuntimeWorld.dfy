/**
  The world around the agent runtime, and the transcript of what a run asked it.

  The planner, the tools and skills, the test for accepted work, the verifier and the reading of a child's verdict are
  foreign: each question gets the next answer of an arbitrary sequence, so the results hold for every behaviour they
  can show.  A transcript names every question of a run by the position of its answer.
 */
module RuntimeWorld {
  import opened Options
  import opened Text
  import opened Trace

  // ----- requests and answers

  /** `maxSubruns` is the verification profile's; `allowSubrun` may be missing from the metadata. */
  datatype Request = Request(
    allowedTools: seq<string>, allowedSkills: seq<string>, maxSteps: int, maxToolCalls: int, maxSkillCalls: int,
    maxSubruns: int, allowSubrun: Option<bool>, subrunDepth: int, verificationSubrunCount: int)

  /** `inputTurn` is the `metadata.turn_index` of the inputs, if there is one. */
  datatype Action = Action(actionId: string, title: string, capabilityId: string, inputTurn: Option<TurnRef>)

  datatype Decision = Decision(decisionId: string, actions: seq<Action>, shouldStop: bool, requiresReview: bool)

  datatype CapabilityResult = CapabilityResult(ok: bool, errorMessage: string)

  datatype SubRunRequest = SubRunRequest(
    purpose: string, allowedTools: seq<string>, allowedSkills: seq<string>, maxSteps: int, maxToolCalls: int,
    maxSkillCalls: int)

  /** The verifier's status; a sub-run needs a valid request payload, otherwise the launch raises. */
  datatype Verdict = Passed | Retry | RunSubRun(request: Option<SubRunRequest>) | Rejected | Undecided

  /** What a verification child's latest skill result says, when it says anything. */
  datatype Verification = Verification(passed: bool, retryable: bool)

  datatype Status = Completed | Failed | RequiresReview

  /** The answers of everything outside the runtime, in the order in which they are asked for. */
  class World {
    const planner: nat -> Result<Decision>
    const tools: nat -> Result<CapabilityResult>
    const skills: nat -> Result<CapabilityResult>
    const acceptance: nat -> bool
    const verifier: nat -> Result<Verdict>
    const verifications: nat -> Result<Option<Verification>>
    /** Decisions get their ids from `RuntimeDecisionNormalizer` instead of the planner. */
    const normalizes: bool
    var clock: nat

    constructor (
      planner: nat -> Result<Decision>, tools: nat -> Result<CapabilityResult>, skills: nat -> Result<CapabilityResult>,
      acceptance: nat -> bool, verifier: nat -> Result<Verdict>, verifications: nat -> Result<Option<Verification>>,
      normalizes: bool)
      ensures this.planner == planner && this.tools == tools && this.skills == skills && this.acceptance == acceptance
      ensures this.verifier == verifier && this.verifications == verifications && this.normalizes == normalizes
    {
      this.planner, this.tools, this.skills := planner, tools, skills;
      this.acceptance, this.verifier, this.verifications := acceptance, verifier, verifications;
      this.normalizes := normalizes;
      clock := 0;
    }

    /** Decision ids are normalised and no input carries a turn of its own. */
    ghost predicate Plain() {
      normalizes && forall n, i :: planner(n).Ok? && 0 <= i < |planner(n).value.actions| ==>
        planner(n).value.actions[i].inputTurn == None
    }

    method Tick() returns (now: nat)
      modifies this
      ensures now == old(clock) && clock == now + 1
    {
      now := clock;
      clock := clock + 1;
    }
  }

  // ----- transcripts

  /** One question of a run; `RanChild` is a finished child run with its status. */
  datatype Asked =
    | AskedPlanner(n: nat)
    | AskedAcceptance(n: nat)
    | AskedTool(n: nat)
    | AskedSkill(n: nat)
    | AskedVerifier(n: nat)
    | AskedVerification(n: nat)
    | RanChild(child: SubRunRequest, status: Status, hasVerdict: bool)

  /** The questions got the world's answers from `clock` on, none left out. */
  predicate Consecutive(t: seq<Asked>, clock: nat) {
    forall i :: 0 <= i < |t| ==> !t[i].RanChild? && t[i].n == clock + i
  }

  /** A tool or skill that answered. */
  predicate Answered(world: World, q: Asked) {
    (q.AskedTool? && world.tools(q.n).Ok?) || (q.AskedSkill? && world.skills(q.n).Ok?)
  }

  /** A tool or skill that answered that it failed. */
  predicate Failing(world: World, q: Asked) {
    || (q.AskedTool? && world.tools(q.n).Ok? && !world.tools(q.n).value.ok)
    || (q.AskedSkill? && world.skills(q.n).Ok? && !world.skills(q.n).value.ok)
  }

  predicate SomeFailing(world: World, t: seq<Asked>) {
    exists q :: q in t && Failing(world, q)
  }

  /** A recorded exception while a decision was executed. */
  predicate SomeRaised(log: seq<Step>, first: nat) {
    exists i :: first <= i < |log| && log[i].stepType == DecisionError
  }

  predicate SomeSkill(world: World, t: seq<Asked>) {
    exists q :: q in t && q.AskedSkill? && Answered(world, q)
  }

  /** The tool or skill an action asks for. */
  predicate CallFor(request: Request, action: Action, q: Asked) {
    var id := Strip(action.capabilityId);
    (q.AskedTool? && id in request.allowedTools)
    || (q.AskedSkill? && id !in request.allowedTools && id in request.allowedSkills)
  }

  /** The calls for the first actions, in their order. */
  predicate CallsInOrder(request: Request, actions: seq<Action>, calls: seq<Asked>) {
    |calls| <= |actions| && forall i :: 0 <= i < |calls| ==> CallFor(request, actions[i], calls[i])
  }

  /** The planner answered, and acceptance was tested before anything was executed. */
  predicate Planned(world: World, t: seq<Asked>) {
    |t| >= 2 && t[0].AskedPlanner? && world.planner(t[0].n).Ok? && t[1].AskedAcceptance?
  }

  /** All actions of the turn's decision were executed without a failure, and acceptance was tested again. */
  predicate Executed(world: World, request: Request, t: seq<Asked>) {
    && Planned(world, t)
    && var actions := world.planner(t[0].n).value.actions;
       && |t| == |actions| + 3 && t[|t| - 1].AskedAcceptance?
       && CallsInOrder(request, actions, t[2..|t| - 1])
       && forall i :: 2 <= i < |t| - 1 ==> Answered(world, t[i]) && !Failing(world, t[i])
  }

  /** What a decision and a test for acceptance end a run with. */
  predicate EndsWith(accepted: bool, decision: Decision, status: Status) {
    || (status == Completed && (accepted || (decision.shouldStop && !decision.requiresReview)))
    || (status == RequiresReview && !accepted && decision.requiresReview)
  }

  /** The turn did not end the loop. */
  predicate WentOn(world: World, request: Request, t: seq<Asked>) {
    && Executed(world, request, t)
    && var decision := world.planner(t[0].n).value;
       && !decision.requiresReview && !decision.shouldStop && !world.acceptance(t[|t| - 1].n)
       && (decision.actions == [] ==> !world.acceptance(t[1].n))
  }

  /** The turn ended the loop with this status. */
  predicate Stopped(world: World, request: Request, t: seq<Asked>, status: Status) {
    && Planned(world, t)
    && var decision := world.planner(t[0].n).value;
       || (|t| == 2 && decision.actions == [] && EndsWith(world.acceptance(t[1].n), decision, status))
       || (Executed(world, request, t) && EndsWith(world.acceptance(t[|t| - 1].n), decision, status)
           && (decision.actions == [] ==> !EndsWith(world.acceptance(t[1].n), decision, Completed)
                                          && !EndsWith(world.acceptance(t[1].n), decision, RequiresReview)))
       || (status == Failed && CallsInOrder(request, decision.actions, t[2..]))
  }

  /** A loop over turns: all but the last one went on, and the last one stopped with the status. */
  predicate LoopOf(world: World, request: Request, turns: seq<seq<Asked>>, status: Status) {
    && turns != [] && (forall i :: 0 <= i < |turns| - 1 ==> WentOn(world, request, turns[i]))
    && Stopped(world, request, turns[|turns| - 1], status)
  }

  function Flattened(turns: seq<seq<Asked>>): seq<Asked> {
    if turns == [] then [] else Flattened(turns[..|turns| - 1]) + turns[|turns| - 1]
  }

  /** Something raised: the planner, the verifier or the reading of a verdict, or the verifier's request was invalid. */
  predicate Interrupted(world: World, t: seq<Asked>) {
    exists q :: q in t &&
      (|| (q.AskedPlanner? && world.planner(q.n).Err?)
       || (q.AskedVerifier? && (world.verifier(q.n).Err? || world.verifier(q.n).value == RunSubRun(None)))
       || (q.AskedVerification? && world.verifications(q.n).Err?))
  }

  // ----- rounds

  /** One round of the orchestrator: a loop over turns, and what the completion gate asked after it. */
  datatype Round = Round(turns: seq<seq<Asked>>, gate: seq<Asked>)

  function Questions(rounds: seq<Round>): seq<Asked> {
    if rounds == [] then [] else Flattened(rounds[0].turns) + rounds[0].gate + Questions(rounds[1..])
  }

  /** The children a run has launched, in order. */
  function Children(t: seq<Asked>): seq<SubRunRequest> {
    if t == [] then []
    else Children(t[..|t| - 1]) + (if t[|t| - 1].RanChild? then [t[|t| - 1].child] else [])
  }

  /** A run that has launched so many children may launch another one. */
  predicate MayLaunch(request: Request, children: nat) {
    && request.allowSubrun != Some(false)
    && request.verificationSubrunCount < request.maxSubruns && children < request.maxSubruns
  }

  /** What a child's end counts as: a verification child's verdict, when there is one, replaces its status. */
  predicate CountsAs(world: World, answer: seq<Asked>, status: Status, retryable: bool) {
    && answer != [] && answer[0].RanChild?
    && if Strip(answer[0].child.purpose) == "verification" && answer[0].hasVerdict then
         && |answer| == 2 && answer[1].AskedVerification? && world.verifications(answer[1].n).Ok?
         && match world.verifications(answer[1].n).value {
              case None => status == answer[0].status && !retryable
              case Some(v) =>
                && (v.passed ==> status == Completed && !retryable)
                && (!v.passed ==> status == RequiresReview && retryable == v.retryable)
            }
       else
         |answer| == 1 && status == answer[0].status && !retryable
  }

  /** The loop completed and the verifier gave a verdict. */
  predicate Judged(world: World, request: Request, round: Round) {
    && LoopOf(world, request, round.turns, Completed)
    && round.gate != [] && round.gate[0].AskedVerifier? && world.verifier(round.gate[0].n).Ok?
  }

  /** The verifier asked for a child the gate let it launch, and the child ran. */
  predicate Delegated(world: World, request: Request, round: Round, children: nat) {
    && Judged(world, request, round) && |round.gate| >= 2 && round.gate[1].RanChild?
    && world.verifier(round.gate[0].n).value == RunSubRun(Some(round.gate[1].child)) && MayLaunch(request, children)
  }

  /** The round led to another one: the verifier, or a verification child that may be retried, asked for it. */
  predicate WentBack(world: World, request: Request, round: Round, children: nat) {
    || (Judged(world, request, round) && |round.gate| == 1 && world.verifier(round.gate[0].n).value == Retry)
    || (Delegated(world, request, round, children) && exists status ::
          status != Completed && CountsAs(world, round.gate[1..], status, true))
  }

  /** The round concluded the run with this status. */
  predicate Concluded(
    world: World, hasGate: bool, request: Request, round: Round, children: nat, status: Status) {
    || (round.gate == [] && (status == Completed ==> !hasGate) && LoopOf(world, request, round.turns, status))
    || (hasGate && Judged(world, request, round) && |round.gate| == 1
        && var verdict := world.verifier(round.gate[0].n).value;
           || (verdict == Passed && status == Completed)
           || (verdict == Rejected && status == Failed)
           || (verdict == Undecided && status == RequiresReview)
           || (verdict.RunSubRun? && !MayLaunch(request, children) && status == RequiresReview))
    || (hasGate && Delegated(world, request, round, children) && exists retryable ::
          CountsAs(world, round.gate[1..], status, retryable) && (status == Completed || !retryable))
  }

  /** The rounds of a run that has launched so many children: all but the last one led to another one. */
  predicate RoundsOf(
    world: World, hasGate: bool, request: Request, rounds: seq<Round>, children: nat, status: Status) {
    rounds != [] &&
    if |rounds| == 1 then
      Concluded(world, hasGate, request, rounds[0], children, status)
    else
      && hasGate && WentBack(world, request, rounds[0], children)
      && RoundsOf(world, hasGate, request, rounds[1..], children + |Children(rounds[0].gate)|, status)
  }

  // ----- how a run ended

  /** The latest question to the planner, and its answer. */
  predicate LatestPlan(world: World, t: seq<Asked>, k: int) {
    && 0 <= k < |t| && t[k].AskedPlanner? && world.planner(t[k].n).Ok?
    && forall j :: k < j < |t| ==> !t[j].AskedPlanner?
  }

  /** The verdict the run ended with, if it ended with one. */
  function LastVerdict(world: World, t: seq<Asked>): Option<Verdict> {
    if t == [] || !t[|t| - 1].AskedVerifier? then None
    else match world.verifier(t[|t| - 1].n)
         case Err(_) => None
         case Ok(verdict) => Some(verdict)
  }

  /** The status of the child the run ended with, if it ended with one; nothing ends with one that may be retried. */
  function LastChild(world: World, t: seq<Asked>): Option<Status> {
    if t == [] then None
    else
      var last := t[|t| - 1];
      if last.RanChild? then Some(last.status)
      else if !last.AskedVerification? || |t| == 1 || !t[|t| - 2].RanChild? then None
      else match world.verifications(last.n)
           case Err(_) => None
           case Ok(None) => Some(t[|t| - 2].status)
           case Ok(Some(v)) =>
             if v.passed then Some(Completed) else if v.retryable then None else Some(RequiresReview)
  }

  /** The last answers of a run decide its status; `broken` when a capability failed or an exception was recorded. */
  ghost predicate EndedAs(world: World, hasGate: bool, request: Request, t: seq<Asked>, broken: bool, status: Status) {
    && t != []
    && var last := t[|t| - 1];
       match status
       case Failed =>
         broken || LastVerdict(world, t) == Some(Rejected) || LastChild(world, t) == Some(Failed)
       case Completed =>
         !broken && (|| LastVerdict(world, t) == Some(Passed) || LastChild(world, t) == Some(Completed)
                     || (!hasGate && last.AskedAcceptance?
                         && (|| world.acceptance(last.n)
                             || exists k :: LatestPlan(world, t, k) && world.planner(t[k].n).value.shouldStop
                                            && !world.planner(t[k].n).value.requiresReview)))
       case RequiresReview =>
         !broken && (|| LastVerdict(world, t) == Some(Undecided)
                     || (LastVerdict(world, t).Some? && LastVerdict(world, t).value.RunSubRun?
                         && (|| request.allowSubrun == Some(false)
                             || request.verificationSubrunCount >= request.maxSubruns
                             || |Children(t)| >= request.maxSubruns))
                     || LastChild(world, t) == Some(RequiresReview)
                     || (last.AskedAcceptance? && !world.acceptance(last.n)
                         && exists k :: LatestPlan(world, t, k) && world.planner(t[k].n).value.requiresReview))
  }

  /** Two runs with the same answers cannot end differently. */
  lemma EndedUniquely(
    world: World, hasGate: bool, request: Request, t: seq<Asked>, broken: bool, status: Status, status': Status)
    requires EndedAs(world, hasGate, request, t, broken, status) && EndedAs(world, hasGate, request, t, broken, status')
    ensures status == status'
  {
    hide MayLaunch, Children;
  }

  // ----- the rounds of a run say how it ended

  /** A turn that stopped without a failure ended with a test for acceptance of its only plan. */
  lemma StoppedTurn(world: World, request: Request, t: seq<Asked>, status: Status)
    requires Stopped(world, request, t, status) && status != Failed
    ensures |t| >= 2 && LatestPlan(world, t, 0) && t[|t| - 1].AskedAcceptance?
    ensures EndsWith(world.acceptance(t[|t| - 1].n), world.planner(t[0].n).value, status)
  {
    hide EndsWith, Failing, Answered;
    if |t| > 2 {
      var calls := t[2..|t| - 1];
      assert forall j :: 2 <= j < |t| - 1 ==> t[j] == calls[j - 2];
    }
  }

  lemma TurnCalls(world: World, request: Request, t: seq<Asked>, status: Status)
    requires Stopped(world, request, t, status) || WentOn(world, request, t)
    ensures forall q :: q in t ==> !q.RanChild?
  {
    hide EndsWith, Failing, Answered;
    if Executed(world, request, t) {
      var calls := t[2..|t| - 1];
      assert forall j :: 2 <= j < |t| - 1 ==> t[j] == calls[j - 2];
    } else if |t| > 2 {
      var calls := t[2..];
      assert forall j :: 2 <= j < |t| ==> t[j] == calls[j - 2];
    }
  }

  lemma {:induction false} FlattenedCalls(turns: seq<seq<Asked>>)
    requires forall i :: 0 <= i < |turns| ==> forall q :: q in turns[i] ==> !q.RanChild?
    ensures forall q :: q in Flattened(turns) ==> !q.RanChild?
  {
    if turns != [] {
      FlattenedCalls(turns[..|turns| - 1]);
    }
  }

  /** The questions of a loop name no child. */
  lemma LoopCalls(world: World, request: Request, turns: seq<seq<Asked>>, status: Status)
    requires LoopOf(world, request, turns, status)
    ensures Children(Flattened(turns)) == []
  {
    hide Stopped, WentOn;
    forall i | 0 <= i < |turns| ensures forall q :: q in turns[i] ==> !q.RanChild? {
      TurnCalls(world, request, turns[i], status);
    }
    FlattenedCalls(turns);
    NoChildren(Flattened(turns));
  }

  lemma {:induction false} ChildrenAppend(a: seq<Asked>, b: seq<Asked>)
    ensures Children(a + b) == Children(a) + Children(b)
  {
    if b == [] {
      assert a + b == a;
    } else {
      assert (a + b)[..|a + b| - 1] == a + b[..|b| - 1];
      ChildrenAppend(a, b[..|b| - 1]);
    }
  }

  lemma {:induction false} NoChildren(t: seq<Asked>)
    requires forall q :: q in t ==> !q.RanChild?
    ensures Children(t) == []
  {
    if t != [] {
      NoChildren(t[..|t| - 1]);
    }
  }

  /** A run of one round, and a run of more. */
  lemma SingleRound(world: World, hasGate: bool, request: Request, rounds: seq<Round>, children: nat, status: Status)
    requires RoundsOf(world, hasGate, request, rounds, children, status) && |rounds| == 1
    ensures Questions(rounds) == [] + Flattened(rounds[0].turns) + rounds[0].gate
    ensures Concluded(world, hasGate, request, rounds[0], children + |Children([])|, status)
  {
    hide Concluded, Flattened;
    assert rounds[1..] == [];
  }

  lemma MoreRounds(world: World, hasGate: bool, request: Request, rounds: seq<Round>, children: nat, status: Status)
    requires RoundsOf(world, hasGate, request, rounds, children, status) && |rounds| > 1
    ensures Questions(rounds) == Flattened(rounds[0].turns) + rounds[0].gate + Questions(rounds[1..])
    ensures RoundsOf(world, hasGate, request, rounds[1..], children + |Children(rounds[0].gate)|, status)
    ensures Children(Flattened(rounds[0].turns) + rounds[0].gate) == Children(rounds[0].gate)
    ensures rounds[1..] != [] && rounds[1..][|rounds| - 2] == rounds[|rounds| - 1]
  {
    hide Concluded, WentBack, Children, Flattened;
    FirstChildren(world, request, rounds[0], children);
  }

  /** The last round concluded the run, after the children of the rounds before it. */
  ghost predicate ConcludedLast(
    world: World, hasGate: bool, request: Request, rounds: seq<Round>, children: nat, status: Status,
    before: seq<Asked>)
  {
    rounds != [] &&
    var last := rounds[|rounds| - 1];
    && Questions(rounds) == before + Flattened(last.turns) + last.gate
    && Concluded(world, hasGate, request, last, children + |Children(before)|, status)
  }

  lemma ConcludedOnce(world: World, hasGate: bool, request: Request, rounds: seq<Round>, children: nat, status: Status)
    requires RoundsOf(world, hasGate, request, rounds, children, status) && |rounds| == 1
    ensures ConcludedLast(world, hasGate, request, rounds, children, status, [])
  {
    hide RoundsOf, Questions, Concluded, Children, Flattened;
    SingleRound(world, hasGate, request, rounds, children, status);
  }

  lemma ConcludedLater(
    world: World, hasGate: bool, request: Request, rounds: seq<Round>, children: nat, status: Status, rest: seq<Asked>)
    requires RoundsOf(world, hasGate, request, rounds, children, status) && |rounds| > 1
    requires ConcludedLast(world, hasGate, request, rounds[1..], children + |Children(rounds[0].gate)|, status, rest)
    ensures RoundsOf(world, hasGate, request, rounds[1..], children + |Children(rounds[0].gate)|, status)
    ensures ConcludedLast(world, hasGate, request, rounds, children, status,
              Flattened(rounds[0].turns) + rounds[0].gate + rest)
  {
    hide RoundsOf, Questions, Concluded, Children, Flattened;
    MoreRounds(world, hasGate, request, rounds, children, status);
    var first, last := Flattened(rounds[0].turns) + rounds[0].gate, rounds[|rounds| - 1];
    ChildrenAppend(first, rest);
    Regrouped(first, rest, Flattened(last.turns), last.gate);
  }

  lemma {:induction false} LastRound(
    world: World, hasGate: bool, request: Request, rounds: seq<Round>, children: nat, status: Status)
    returns (before: seq<Asked>)
    requires RoundsOf(world, hasGate, request, rounds, children, status)
    ensures ConcludedLast(world, hasGate, request, rounds, children, status, before)
    decreases |rounds|
  {
    hide Questions, Concluded, WentBack, Children, Flattened, ConcludedLast;
    if |rounds| == 1 {
      ConcludedOnce(world, hasGate, request, rounds, children, status);
      before := [];
    } else {
      var rest := LastRound(world, hasGate, request, rounds[1..], children + |Children(rounds[0].gate)|, status);
      ConcludedLater(world, hasGate, request, rounds, children, status, rest);
      before := Flattened(rounds[0].turns) + rounds[0].gate + rest;
    }
  }

  lemma Regrouped(a: seq<Asked>, b: seq<Asked>, c: seq<Asked>, d: seq<Asked>)
    ensures a + (b + c + d) == (a + b) + c + d
  {
  }

  lemma FirstChildren(world: World, request: Request, round: Round, children: nat)
    requires WentBack(world, request, round, children)
    ensures Children(Flattened(round.turns) + round.gate) == Children(round.gate)
  {
    hide LoopOf, Children, MayLaunch, CountsAs;
    LoopCalls(world, request, round.turns, Completed);
    ChildrenAppend(Flattened(round.turns), round.gate);
  }

  /** The latest plan and the last question of questions that end with a stopped turn. */
  lemma LoopEnds(
    world: World, request: Request, turns: seq<seq<Asked>>, status: Status, before: seq<Asked>, t: seq<Asked>)
    requires LoopOf(world, request, turns, status) && status != Failed && t == before + Flattened(turns)
    ensures t != [] && t[|t| - 1].AskedAcceptance?
    ensures exists k :: LatestPlan(world, t, k)
                        && EndsWith(world.acceptance(t[|t| - 1].n), world.planner(t[k].n).value, status)
  {
    hide Stopped, WentOn, EndsWith;
    var turn := turns[|turns| - 1];
    StoppedTurn(world, request, turn, status);
    var front := before + Flattened(turns[..|turns| - 1]);
    assert t == front + turn;
    assert forall j :: |front| <= j < |t| ==> t[j] == turn[j - |front|];
    assert LatestPlan(world, t, |front|);
  }

  /** A loop that stopped without a failure, by its last answers. */
  lemma LoopMeans(world: World, request: Request, turns: seq<seq<Asked>>, status: Status, t: seq<Asked>)
    requires LoopOf(world, request, turns, status) && status != Failed && t == Flattened(turns)
    ensures t != [] && t[|t| - 1].AskedAcceptance?
    ensures exists k :: LatestPlan(world, t, k) &&
              var accepted, decision := world.acceptance(t[|t| - 1].n), world.planner(t[k].n).value;
              if status == Completed then accepted || (decision.shouldStop && !decision.requiresReview)
              else !accepted && decision.requiresReview
  {
    hide LoopOf, Flattened;
    assert [] + t == t;
    LoopEnds(world, request, turns, status, [], t);
  }

  /** What concluded the last round is what the run's last answers say. */
  lemma RoundsEnd(
    world: World, hasGate: bool, request: Request, prior: seq<Asked>, rounds: seq<Round>, t: seq<Asked>, broken: bool,
    status: Status)
    requires RoundsOf(world, hasGate, request, rounds, |Children(prior)|, status) && t == prior + Questions(rounds)
    requires broken <==> status == Failed && rounds[|rounds| - 1].gate == []
    ensures EndedAs(world, hasGate, request, t, broken, status)
  {
    hide RoundsOf, Questions, LoopOf, MayLaunch, CountsAs, Children, LatestPlan;
    var more := LastRound(world, hasGate, request, rounds, |Children(prior)|, status);
    var before, last := prior + more, rounds[|rounds| - 1];
    ChildrenAppend(prior, more);
    assert t == before + Flattened(last.turns) + last.gate;
    if last.gate == [] {
      assert t == before + Flattened(last.turns);
      if status != Failed {
        LoopEnds(world, request, last.turns, status, before, t);
      } else {
        LoopAsks(world, request, last.turns, status);
      }
    } else {
      GateEnds(world, hasGate, request, before, last, status, t);
    }
  }

  lemma LoopAsks(world: World, request: Request, turns: seq<seq<Asked>>, status: Status)
    requires LoopOf(world, request, turns, status)
    ensures Flattened(turns) != []
  {
    hide WentOn;
  }

  lemma GateEnds(
    world: World, hasGate: bool, request: Request, before: seq<Asked>, round: Round, status: Status, t: seq<Asked>)
    requires Concluded(world, hasGate, request, round, |Children(before)|, status) && round.gate != []
    requires t == before + Flattened(round.turns) + round.gate
    ensures EndedAs(world, hasGate, request, t, false, status)
  {
    hide LoopOf, Children, LatestPlan;
    assert t[|t| - 1] == round.gate[|round.gate| - 1];
    if |round.gate| == 1 {
      LoopCalls(world, request, round.turns, Completed);
      ChildrenAppend(before, Flattened(round.turns));
      ChildrenAppend(before + Flattened(round.turns), round.gate);
      NoChildren(round.gate);
    } else {
      assert t[|t| - 2] == round.gate[|round.gate| - 2];
    }
  }

  /** Every tool and skill answered, and answered that it succeeded. */
  predicate Clean(world: World, t: seq<Asked>) {
    forall q :: q in t ==>
      && (q.AskedTool? ==> world.tools(q.n).Ok? && world.tools(q.n).value.ok)
      && (q.AskedSkill? ==> world.skills(q.n).Ok? && world.skills(q.n).value.ok)
  }

  /** Without a failing capability or a recorded exception, every tool and skill a run asked answered well. */
  lemma {:induction false} AllAnswered(
    world: World, hasGate: bool, request: Request, rounds: seq<Round>, children: nat, status: Status)
    requires RoundsOf(world, hasGate, request, rounds, children, status)
    requires status == Failed ==> rounds[|rounds| - 1].gate != []
    ensures Clean(world, Questions(rounds))
  {
    hide WentBack, Concluded, Children, Flattened;
    RoundAnswered(world, hasGate, request, rounds[0], children, status, |rounds| == 1);
    if |rounds| == 1 {
      assert rounds[1..] == [];
    } else {
      assert rounds[1..][|rounds| - 2] == rounds[|rounds| - 1];
      AllAnswered(world, hasGate, request, rounds[1..], children + |Children(rounds[0].gate)|, status);
    }
  }

  lemma RoundAnswered(
    world: World, hasGate: bool, request: Request, round: Round, children: nat, status: Status, concluded: bool)
    requires if concluded then Concluded(world, hasGate, request, round, children, status)
              else WentBack(world, request, round, children)
    requires concluded && status == Failed ==> round.gate != []
    ensures Clean(world, Flattened(round.turns) + round.gate)
  {
    hide LoopOf, MayLaunch;
    LoopAnswered(world, request, round.turns, if round.gate == [] then status else Completed);
    assert forall q :: q in Flattened(round.turns) + round.gate <==> q in Flattened(round.turns) || q in round.gate;
    forall q | q in round.gate ensures !q.AskedTool? && !q.AskedSkill? {
      var i :| 0 <= i < |round.gate| && round.gate[i] == q;
      assert i == 0 || round.gate[1..][i - 1] == q;
    }
  }

  lemma LoopAnswered(world: World, request: Request, turns: seq<seq<Asked>>, status: Status)
    requires LoopOf(world, request, turns, status) && status != Failed
    ensures Clean(world, Flattened(turns))
  {
    hide Stopped, WentOn;
    forall i | 0 <= i < |turns| ensures Clean(world, turns[i]) {
      TurnAnswered(world, request, turns[i], status);
    }
    FlattenedAnswered(world, turns);
  }

  lemma TurnAnswered(world: World, request: Request, t: seq<Asked>, status: Status)
    requires WentOn(world, request, t) || (Stopped(world, request, t, status) && status != Failed)
    ensures Clean(world, t)
  {
    hide CallsInOrder;
    forall q | q in t ensures Clean(world, [q]) {
      var i :| 0 <= i < |t| && t[i] == q;
      assert 2 <= i < |t| - 1 ==> Answered(world, t[i]) && !Failing(world, t[i]);
    }
    assert forall q :: q in t ==> q in [q];
  }

  lemma {:induction false} FlattenedAnswered(world: World, turns: seq<seq<Asked>>)
    requires forall i :: 0 <= i < |turns| ==> Clean(world, turns[i])
    ensures Clean(world, Flattened(turns))
  {
    if turns != [] {
      FlattenedAnswered(world, turns[..|turns| - 1]);
    }
  }
}
