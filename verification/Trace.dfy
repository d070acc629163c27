/**
  The trace of a runtime run and its replay: internal/runtime/trace/recorder.py.

  Steps carry the two places a turn number can hide in, besides their names: the `metadata.turn_index` of their input
  and of their output.  Artifacts name a turn in their title, or, for a decision, in its metadata or its id.  `lower`
  stands for `str.lower`.
 */
module Trace {
  import opened Options
  import opened Text
  import opened Sorting

  /** `metadata.turn_index` of a payload: an integer, or a text that may be one. */
  datatype TurnRef = Number(n: int) | Digits(text: string)

  datatype StepType =
    | DecisionStep | ActionStep | ToolCall | ToolResult | SkillCall | SkillResult | ObservationStep | DecisionError

  datatype Step = Step(
    index: nat, stepType: StepType, name: string, inputTurn: Option<TurnRef>, outputTurn: Option<TurnRef>, body: string)

  datatype Observation = Observation(kind: string, payload: string)

  datatype Kind = RequestArtifact | DecisionArtifact | PlannerContext | LlmPrompt | LlmResponse

  /** `decisionId` and `metadataTurn` are read from the content of a decision artifact. */
  datatype Artifact = Artifact(kind: Kind, title: string, decisionId: string, metadataTurn: Option<TurnRef>,
    body: string)

  /** The artifact fields of a turn. */
  datatype Attachments = Attachments(
    decision: Option<Artifact>, plannerContext: Option<Artifact>, llmPrompt: Option<Artifact>,
    llmResponse: Option<Artifact>)

  datatype Turn = Turn(
    index: int, decision: Option<Step>, actions: seq<Step>, toolCalls: seq<Step>, toolResults: seq<Step>,
    skillCalls: seq<Step>, skillResults: seq<Step>, observations: seq<Observation>, errors: seq<Step>,
    attachments: Attachments)

  // ----- names

  /** The id `RuntimeDecisionNormalizer` gives the decision of a turn. */
  function DecisionName(runId: string, turn: nat): string {
    runId + ":decision:" + Decimal(turn)
  }

  function FatalName(runId: string): string {
    runId + ":fatal"
  }

  /** `value.rsplit(":", 1)[-1]`. */
  function AfterLastColon(value: string): string {
    if value == "" || value[|value| - 1] == ':' then "" else AfterLastColon(value[..|value| - 1]) + [value[|value| - 1]]
  }

  /** `value.split()[-1]` of a text with a word. */
  function LastWord(value: string): string {
    AfterLastSpace(Strip(value))
  }

  function AfterLastSpace(value: string): string {
    if value == "" || IsSpace(value[|value| - 1]) then ""
    else AfterLastSpace(value[..|value| - 1]) + [value[|value| - 1]]
  }

  predicate IsTitle(lower: string -> string, value: string) {
    "planner context turn " <= lower(value) || "llm prompt turn " <= lower(value)
      || "llm response turn " <= lower(value)
  }

  function ExtractTurn(lower: string -> string, value: string): int {
    if value == "" then -1 else
    var suffix := Strip(AfterLastColon(value));
    if AllDigits(suffix) then ParseDecimal(suffix)
    else if IsTitle(lower, value) then (if AllDigits(LastWord(value)) then ParseDecimal(LastWord(value)) else -1)
    else -1
  }

  lemma {:induction false} AfterLastColonOf(prefix: string, suffix: string)
    requires forall i :: 0 <= i < |suffix| ==> suffix[i] != ':'
    ensures AfterLastColon(prefix + ":" + suffix) == suffix
    decreases |suffix|
  {
    var value := prefix + ":" + suffix;
    if suffix != "" {
      AfterLastColonOf(prefix, suffix[..|suffix| - 1]);
      assert value[..|value| - 1] == prefix + ":" + suffix[..|suffix| - 1];
      assert value[|value| - 1] == suffix[|suffix| - 1];
    }
  }

  lemma DecimalPlain(turn: nat)
    ensures Strip(Decimal(turn)) == Decimal(turn) && forall i :: 0 <= i < |Decimal(turn)| ==> Decimal(turn)[i] != ':'
  {
    var s := Decimal(turn);
    DecimalRoundTrip(turn);
    forall i | 0 <= i < |s| ensures s[i] != ':' && !IsSpace(s[i]) {
      assert s[i] in s && IsDigit(s[i]);
    }
    StripIdentity(s);
  }

  /** The turn of a decision can be read back from its name. */
  lemma DecisionNameRoundTrip(lower: string -> string, runId: string, turn: nat)
    ensures ExtractTurn(lower, DecisionName(runId, turn)) == turn
  {
    DecimalPlain(turn);
    DecimalRoundTrip(turn);
    assert runId + ":decision:" + Decimal(turn) == (runId + ":decision") + ":" + Decimal(turn);
    AfterLastColonOf(runId + ":decision", Decimal(turn));
  }

  lemma FatalNameHasNoTurn(lower: string -> string, runId: string)
    requires !IsTitle(lower, FatalName(runId))
    ensures ExtractTurn(lower, FatalName(runId)) == -1
  {
    AfterLastColonOf(runId, "fatal");
    assert runId + ":fatal" == runId + ":" + "fatal";
    var suffix := "fatal";
    assert suffix[0] == 'f' && suffix[4] == 'l' && IsStripped(suffix);
    StripIdentity(suffix);
    assert suffix[0] in suffix && !IsDigit(suffix[0]);
  }

  // ----- replay

  function RefTurn(ref: Option<TurnRef>): Option<int> {
    match ref
    case None => None
    case Some(Number(n)) => Some(n)
    case Some(Digits(text)) => if AllDigits(text) then Some(ParseDecimal(text)) else None
  }

  /** `_resolve_turn_index_from_step`. */
  function ResolveTurn(lower: string -> string, step: Step): int {
    if step.stepType == DecisionStep || step.stepType == DecisionError then ExtractTurn(lower, step.name)
    else if RefTurn(step.inputTurn).Some? then RefTurn(step.inputTurn).value
    else RefTurn(step.outputTurn).GetOr(-1)
  }

  /** The turns found so far, and the one steps without a turn of their own belong to. */
  datatype Replay = Replay(turns: map<int, Turn>, current: int)

  const NOTHING_ATTACHED := Attachments(None, None, None, None)

  function NewTurn(index: int): Turn {
    Turn(index, None, [], [], [], [], [], [], [], NOTHING_ATTACHED)
  }

  /** The step itself when it is of the given type. */
  function Only(step: Step, stepType: StepType): seq<Step> {
    if step.stepType == stepType then [step] else []
  }

  /** The turn with the step put into the field for its type. */
  function Filed(turn: Turn, step: Step): Turn {
    Turn(
      turn.index, if step.stepType == DecisionStep then Some(step) else turn.decision,
      turn.actions + Only(step, ActionStep), turn.toolCalls + Only(step, ToolCall),
        turn.toolResults + Only(step, ToolResult),
      turn.skillCalls + Only(step, SkillCall), turn.skillResults + Only(step, SkillResult),
      turn.observations + ObservationsOf(Only(step, ObservationStep)), turn.errors + Only(step, DecisionError),
      turn.attachments)
  }

  function ObservationsOf(steps: seq<Step>): seq<Observation> {
    seq(|steps|, i requires 0 <= i < |steps| => Observation(steps[i].name, steps[i].body))
  }

  function Next(lower: string -> string, r: Replay, step: Step): Replay {
    var explicit := ResolveTurn(lower, step);
    var current := if step.stepType == DecisionStep || explicit >= 0 then explicit else r.current;
    if current < 0 then r.(current := current)
    else
      var turn := if current in r.turns then r.turns[current] else NewTurn(current);
      Replay(r.turns[current := Filed(turn, step)], current)
  }

  function Replayed(lower: string -> string, steps: seq<Step>): Replay {
    if steps == [] then Replay(map[], -1) else Next(lower, Replayed(lower, steps[..|steps| - 1]), steps[|steps| - 1])
  }

  /** `_resolve_turn_index_from_artifact`. */
  function ArtifactTurn(lower: string -> string, a: Artifact): int {
    if a.kind == DecisionArtifact then RefTurn(a.metadataTurn).GetOr(ExtractTurn(lower, a.decisionId))
    else ExtractTurn(lower, a.title)
  }

  /** The artifact put into the field for its kind; a later one takes its place. */
  function Attach(x: Attachments, a: Artifact): Attachments {
    match a.kind
    case DecisionArtifact => x.(decision := Some(a))
    case PlannerContext => x.(plannerContext := Some(a))
    case LlmPrompt => x.(llmPrompt := Some(a))
    case LlmResponse => x.(llmResponse := Some(a))
    case RequestArtifact => x
  }

  /** An artifact that resolves to a turn opens it when there is none. */
  function NextArtifact(lower: string -> string, turns: map<int, Turn>, a: Artifact): map<int, Turn> {
    var t := ArtifactTurn(lower, a);
    if t < 0 then turns
    else
      var turn := if t in turns then turns[t] else NewTurn(t);
      turns[t := turn.(attachments := Attach(turn.attachments, a))]
  }

  function Attached(lower: string -> string, turns: map<int, Turn>, artifacts: seq<Artifact>): map<int, Turn> {
    if artifacts == [] then turns
    else NextArtifact(lower, Attached(lower, turns, artifacts[..|artifacts| - 1]), artifacts[|artifacts| - 1])
  }

  predicate IntLe(a: int, b: int) {
    a <= b
  }

  lemma IntLeOrder()
    ensures TotalOrder(IntLe)
  {
  }

  ghost predicate KeysInOrder(keys: seq<int>, s: set<int>) {
    SortedBy(IntLe, keys) && Distinct(keys) && ToSet(keys) == s
  }

  /** The turns listed by ascending number. */
  ghost predicate IsListing(turns: map<int, Turn>, listed: seq<Turn>) {
    exists keys: seq<int> :: KeysInOrder(keys, turns.Keys) && listed == Values(turns, keys)
  }

  function Values(turns: map<int, Turn>, keys: seq<int>): seq<Turn> {
    seq(|keys|, i requires 0 <= i < |keys| => if keys[i] in turns then turns[keys[i]] else NewTurn(keys[i]))
  }

  lemma Listed(turns: map<int, Turn>, keys: seq<int>)
    requires KeysInOrder(keys, turns.Keys)
    ensures IsListing(turns, Values(turns, keys))
  {
  }

  /** The first loop of `_reconstruct_turns`; `keys` are the dictionary's keys in insertion order. */
  method ReplaySteps(lower: string -> string, steps: seq<Step>) returns (turnsByIndex: map<int, Turn>, keys: seq<int>)
    ensures turnsByIndex == Replayed(lower, steps).turns
    ensures Distinct(keys) && ToSet(keys) == turnsByIndex.Keys
  {
    hide ResolveTurn, Filed, IsListing;
    turnsByIndex, keys := map[], [];
    var currentTurnIndex := -1;
    for i := 0 to |steps|
      invariant Replay(turnsByIndex, currentTurnIndex) == Replayed(lower, steps[..i])
      invariant Distinct(keys) && ToSet(keys) == turnsByIndex.Keys
    {
      assert steps[..i + 1][..i] == steps[..i];
      var step := steps[i];
      var explicitTurnIndex := ResolveTurn(lower, step);
      if step.stepType == DecisionStep {
        currentTurnIndex := explicitTurnIndex;
      } else if explicitTurnIndex >= 0 {
        currentTurnIndex := explicitTurnIndex;
      }
      if currentTurnIndex < 0 {
        continue;
      }
      var turn := if currentTurnIndex in turnsByIndex then turnsByIndex[currentTurnIndex]
        else NewTurn(currentTurnIndex);
      if currentTurnIndex !in turnsByIndex {
        keys := NewKey(keys, currentTurnIndex);
      }
      turnsByIndex := turnsByIndex[currentTurnIndex := Filed(turn, step)];
    }
    assert steps[..|steps|] == steps;
  }

  /** `_reconstruct_turns`: the steps, then the artifacts, then the turns by ascending number. */
  method ReconstructTurns(
    lower: string -> string, steps: seq<Step>, artifacts: seq<Artifact>) returns (listed: seq<Turn>)
    ensures IsListing(Attached(lower, Replayed(lower, steps).turns, artifacts), listed)
  {
    hide ArtifactTurn, IsListing, Attach, Replayed;
    var turnsByIndex, keys := ReplaySteps(lower, steps);
    ghost var replayed := turnsByIndex;
    for i := 0 to |artifacts|
      invariant turnsByIndex == Attached(lower, replayed, artifacts[..i])
      invariant Distinct(keys) && ToSet(keys) == turnsByIndex.Keys
    {
      assert artifacts[..i + 1][..i] == artifacts[..i];
      var turnIndex := ArtifactTurn(lower, artifacts[i]);
      if turnIndex < 0 {
        continue;
      }
      var turn := if turnIndex in turnsByIndex then turnsByIndex[turnIndex] else NewTurn(turnIndex);
      if turnIndex !in turnsByIndex {
        keys := NewKey(keys, turnIndex);
      }
      turnsByIndex := turnsByIndex[turnIndex := turn.(attachments := Attach(turn.attachments, artifacts[i]))];
    }
    assert artifacts[..|artifacts|] == artifacts;
    listed := InOrder(turnsByIndex, keys);
  }

  /** `[turns_by_index[key] for key in sorted(turns_by_index)]`. */
  method InOrder(turns: map<int, Turn>, keys: seq<int>) returns (listed: seq<Turn>)
    requires Distinct(keys) && ToSet(keys) == turns.Keys
    ensures IsListing(turns, listed)
  {
    IntLeOrder();
    SortSorted(IntLe, keys);
    SortKeepsDistinct(IntLe, keys);
    listed := Values(turns, Sort(IntLe, keys));
    Listed(turns, Sort(IntLe, keys));
  }

  function NewKey(keys: seq<int>, key: int): (keys': seq<int>)
    requires Distinct(keys) && key !in ToSet(keys)
    ensures Distinct(keys') && ToSet(keys') == ToSet(keys) + {key}
  {
    keys + [key]
  }

  // ----- what the runtime writes

  function Decisions(steps: seq<Step>): nat {
    if steps == [] then 0
    else Decisions(steps[..|steps| - 1]) + (if steps[|steps| - 1].stepType == DecisionStep then 1 else 0)
  }

  /** How the runtime writes a step while turn `turn` is current; before the first decision that is -1. */
  predicate WrittenIn(runId: string, turn: int, step: Step) {
    match step.stepType
    case DecisionStep => turn >= 0 && step.name == DecisionName(runId, turn)
    case DecisionError => step.name == FatalName(runId) || (turn >= 0 && step.name == DecisionName(runId, turn))
    case ObservationStep => turn >= 0 && step.inputTurn == None && step.outputTurn == Some(Number(turn))
    case _ => turn >= 0 && step.inputTurn == None && step.outputTurn == None
  }

  /** Each step was written in the turn of the latest decision up to and including it. */
  predicate Recorded(runId: string, steps: seq<Step>) {
    steps == [] ||
    (Recorded(runId, steps[..|steps| - 1]) && WrittenIn(runId, Decisions(steps) - 1, steps[|steps| - 1]))
  }

  lemma RecordedSnoc(runId: string, steps: seq<Step>, step: Step)
    ensures Decisions(steps + [step]) == Decisions(steps) + (if step.stepType == DecisionStep then 1 else 0)
    ensures Recorded(runId, steps + [step]) <==>
              Recorded(runId, steps) && WrittenIn(runId, Decisions(steps + [step]) - 1, step)
  {
    assert (steps + [step])[..|steps|] == steps;
  }

  // ----- the turns as a direct reading of the log

  /** The steps of one type written in one turn, in order. */
  function StepsIn(steps: seq<Step>, stepType: StepType, turn: int): seq<Step> {
    if steps == [] then [] else
    var before, last := StepsIn(steps[..|steps| - 1], stepType, turn), steps[|steps| - 1];
    if last.stepType == stepType && Decisions(steps) - 1 == turn then before + [last] else before
  }

  function LastStep(steps: seq<Step>): Option<Step> {
    if steps == [] then None else Some(steps[|steps| - 1])
  }

  function TurnOf(steps: seq<Step>, turn: int): Turn {
    Turn(turn, LastStep(StepsIn(steps, DecisionStep, turn)), StepsIn(steps, ActionStep, turn),
      StepsIn(steps, ToolCall, turn),
         StepsIn(steps, ToolResult, turn), StepsIn(steps, SkillCall, turn), StepsIn(steps, SkillResult, turn),
         ObservationsOf(StepsIn(steps, ObservationStep, turn)), StepsIn(steps, DecisionError, turn), NOTHING_ATTACHED)
  }

  lemma StepsInSnoc(steps: seq<Step>, step: Step, stepType: StepType, turn: int)
    ensures StepsIn(steps + [step], stepType, turn) ==
              if step.stepType == stepType && Decisions(steps + [step]) - 1 == turn
              then StepsIn(steps, stepType, turn) + [step]
              else StepsIn(steps, stepType, turn)
  {
    assert (steps + [step])[..|steps|] == steps;
  }

  lemma TurnOfOther(steps: seq<Step>, step: Step, turn: int)
    requires turn != Decisions(steps + [step]) - 1
    ensures TurnOf(steps + [step], turn) == TurnOf(steps, turn)
  {
    forall stepType ensures StepsIn(steps + [step], stepType, turn) == StepsIn(steps, stepType, turn) {
      StepsInSnoc(steps, step, stepType, turn);
    }
    hide StepsIn;
  }

  lemma ObservationsOfBoth(a: seq<Step>, b: seq<Step>)
    ensures ObservationsOf(a + b) == ObservationsOf(a) + ObservationsOf(b)
  {
  }

  lemma LastStepOf(steps: seq<Step>, step: Step)
    ensures LastStep(steps + Only(step, DecisionStep)) == if step.stepType == DecisionStep then Some(step)
              else LastStep(steps)
  {
  }

  lemma StepsInCurrent(steps: seq<Step>, step: Step, stepType: StepType)
    ensures var turn := Decisions(steps + [step]) - 1;
            StepsIn(steps + [step], stepType, turn) == StepsIn(steps, stepType, turn) + Only(step, stepType)
  {
    StepsInSnoc(steps, step, stepType, Decisions(steps + [step]) - 1);
  }

  lemma TurnOfCurrent(steps: seq<Step>, step: Step)
    ensures TurnOf(steps + [step], Decisions(steps + [step]) - 1) ==
              Filed(TurnOf(steps, Decisions(steps + [step]) - 1), step)
  {
    hide StepsIn, ObservationsOf, Decisions, Only, LastStep;
    var turn := Decisions(steps + [step]) - 1;
    LastStepOf(StepsIn(steps, DecisionStep, turn), step);
    StepsInCurrent(steps, step, DecisionStep);
    StepsInCurrent(steps, step, ActionStep);
    StepsInCurrent(steps, step, ToolCall);
    StepsInCurrent(steps, step, ToolResult);
    StepsInCurrent(steps, step, SkillCall);
    StepsInCurrent(steps, step, SkillResult);
    StepsInCurrent(steps, step, ObservationStep);
    StepsInCurrent(steps, step, DecisionError);
    ObservationsOfBoth(StepsIn(steps, ObservationStep, turn), Only(step, ObservationStep));
  }

  lemma {:induction false} NoStepsYet(steps: seq<Step>, stepType: StepType, turn: int)
    requires turn >= Decisions(steps)
    ensures StepsIn(steps, stepType, turn) == []
    decreases |steps|
  {
    if steps != [] {
      NoStepsYet(steps[..|steps| - 1], stepType, turn);
    }
  }

  lemma TurnOfNew(steps: seq<Step>, turn: int)
    requires turn >= Decisions(steps)
    ensures TurnOf(steps, turn) == NewTurn(turn)
  {
    forall stepType ensures StepsIn(steps, stepType, turn) == [] {
      NoStepsYet(steps, stepType, turn);
    }
    hide StepsIn;
  }

  /** The replay so far holds one entry per decision, each a direct reading of its turn. */
  ghost predicate Faithful(steps: seq<Step>, r: Replay) {
    && r.current == Decisions(steps) - 1
    && (forall t :: t in r.turns <==> 0 <= t < Decisions(steps))
    && (forall t :: 0 <= t < Decisions(steps) ==> r.turns[t] == TurnOf(steps, t))
  }

  /** Whatever turn a step names, it is the current one or none. */
  lemma ResolvesToCurrent(lower: string -> string, runId: string, turn: int, step: Step)
    requires WrittenIn(runId, turn, step) && !IsTitle(lower, FatalName(runId))
    ensures ResolveTurn(lower, step) == turn || (ResolveTurn(lower, step) == -1 && step.stepType != DecisionStep)
  {
    if step.stepType == DecisionStep || step.stepType == DecisionError {
      FatalNameHasNoTurn(lower, runId);
      if turn >= 0 {
        DecisionNameRoundTrip(lower, runId, turn);
      }
    }
  }

  lemma FaithfulNext(lower: string -> string, runId: string, steps: seq<Step>, step: Step, r: Replay)
    requires Faithful(steps, r) && WrittenIn(runId, Decisions(steps + [step]) - 1, step)
              && !IsTitle(lower, FatalName(runId))
    ensures Faithful(steps + [step], Next(lower, r, step))
  {
    hide TurnOf, Filed, ResolveTurn, WrittenIn, Decisions;
    var turn := Decisions(steps + [step]) - 1;
    RecordedSnoc(runId, steps, step);
    ResolvesToCurrent(lower, runId, turn, step);
    TurnOfCurrent(steps, step);
    if turn >= Decisions(steps) {
      TurnOfNew(steps, turn);
    }
    forall t | 0 <= t < Decisions(steps + [step]) && t != turn ensures TurnOf(steps + [step], t) == TurnOf(steps, t) {
      TurnOfOther(steps, step, t);
    }
  }

  lemma NothingReplayed()
    ensures Faithful([], Replay(map[], -1))
  {
    assert Decisions([]) == 0;
  }

  lemma {:induction false} ReplayFaithful(lower: string -> string, runId: string, steps: seq<Step>)
    requires Recorded(runId, steps) && !IsTitle(lower, FatalName(runId))
    ensures Faithful(steps, Replayed(lower, steps))
    decreases |steps|
  {
    hide Faithful, Next, WrittenIn, IsTitle, Decisions;
    if steps == [] {
      NothingReplayed();
    } else {
      var front, step := steps[..|steps| - 1], steps[|steps| - 1];
      ReplayFaithful(lower, runId, front);
      RecordedSnoc(runId, front, step);
      assert steps == front + [step];
      FaithfulNext(lower, runId, front, step, Replayed(lower, front));
    }
  }

  // ----- any log at all

  /** A decision sets the turn even when its name gives none; any other step sets it only by giving one. */
  predicate SetsTurn(lower: string -> string, step: Step) {
    step.stepType == DecisionStep || ResolveTurn(lower, step) >= 0
  }

  /** The last step of the log that set the turn set it to this one. */
  ghost predicate Current(lower: string -> string, steps: seq<Step>, turn: int) {
    exists j :: 0 <= j < |steps| && SetsTurn(lower, steps[j]) && ResolveTurn(lower, steps[j]) == turn
      && forall k :: j < k < |steps| ==> !SetsTurn(lower, steps[k])
  }

  /** The steps of one type that were written while the turn was the current one. */
  ghost function StepsWhile(lower: string -> string, steps: seq<Step>, stepType: StepType, turn: int): seq<Step> {
    if steps == [] then [] else
    var before, last := StepsWhile(lower, steps[..|steps| - 1], stepType, turn), steps[|steps| - 1];
    if last.stepType == stepType && Current(lower, steps, turn) then before + [last] else before
  }

  ghost function Reading(lower: string -> string, steps: seq<Step>, turn: int): Turn {
    Turn(turn, LastStep(StepsWhile(lower, steps, DecisionStep, turn)), StepsWhile(lower, steps, ActionStep, turn),
      StepsWhile(lower, steps, ToolCall, turn), StepsWhile(lower, steps, ToolResult, turn),
      StepsWhile(lower, steps, SkillCall, turn), StepsWhile(lower, steps, SkillResult, turn),
      ObservationsOf(StepsWhile(lower, steps, ObservationStep, turn)), StepsWhile(lower, steps, DecisionError, turn),
      NOTHING_ATTACHED)
  }

  /** The log was in the turn when some step of it was written. */
  ghost predicate EverCurrent(lower: string -> string, steps: seq<Step>, turn: int) {
    exists n :: 0 <= n <= |steps| && Current(lower, steps[..n], turn)
  }

  lemma CurrentSnoc(lower: string -> string, steps: seq<Step>, step: Step, turn: int)
    ensures Current(lower, steps + [step], turn) <==>
              if SetsTurn(lower, step) then ResolveTurn(lower, step) == turn else Current(lower, steps, turn)
  {
    hide ResolveTurn, SetsTurn;
    var longer := steps + [step];
    assert longer[|steps|] == step;
    if SetsTurn(lower, step) && ResolveTurn(lower, step) == turn {
      assert SetsTurn(lower, longer[|steps|]);
    }
    if !SetsTurn(lower, step) && Current(lower, steps, turn) {
      var j :| 0 <= j < |steps| && SetsTurn(lower, steps[j]) && ResolveTurn(lower, steps[j]) == turn
        && forall k :: j < k < |steps| ==> !SetsTurn(lower, steps[k]);
      assert longer[j] == steps[j];
    }
    if Current(lower, longer, turn) {
      var j :| 0 <= j < |longer| && SetsTurn(lower, longer[j]) && ResolveTurn(lower, longer[j]) == turn
        && forall k :: j < k < |longer| ==> !SetsTurn(lower, longer[k]);
      assert forall k :: j < k < |steps| ==> longer[k] == steps[k];
    }
  }

  lemma EverCurrentSnoc(lower: string -> string, steps: seq<Step>, step: Step, turn: int)
    ensures EverCurrent(lower, steps + [step], turn) <==>
              EverCurrent(lower, steps, turn) || Current(lower, steps + [step], turn)
  {
    hide Current;
    var longer := steps + [step];
    assert longer[..|longer|] == longer;
    forall n | 0 <= n <= |steps| ensures longer[..n] == steps[..n] {}
  }

  lemma StepsWhileSnoc(lower: string -> string, steps: seq<Step>, step: Step, stepType: StepType, turn: int)
    ensures StepsWhile(lower, steps + [step], stepType, turn) ==
              if Current(lower, steps + [step], turn)
              then StepsWhile(lower, steps, stepType, turn) + Only(step, stepType)
              else StepsWhile(lower, steps, stepType, turn)
  {
    hide Current;
    assert (steps + [step])[..|steps|] == steps;
  }

  lemma ReadingSnoc(lower: string -> string, steps: seq<Step>, step: Step, turn: int)
    ensures Reading(lower, steps + [step], turn) ==
              if Current(lower, steps + [step], turn) then Filed(Reading(lower, steps, turn), step)
              else Reading(lower, steps, turn)
  {
    hide StepsWhile, ObservationsOf, Current, Only, LastStep;
    forall stepType
      ensures StepsWhile(lower, steps + [step], stepType, turn) ==
                if Current(lower, steps + [step], turn)
                then StepsWhile(lower, steps, stepType, turn) + Only(step, stepType)
                else StepsWhile(lower, steps, stepType, turn)
    {
      StepsWhileSnoc(lower, steps, step, stepType, turn);
    }
    LastStepOf(StepsWhile(lower, steps, DecisionStep, turn), step);
    ObservationsOfBoth(StepsWhile(lower, steps, ObservationStep, turn), Only(step, ObservationStep));
  }

  lemma {:induction false} ReadingNothing(lower: string -> string, steps: seq<Step>, turn: int)
    requires !EverCurrent(lower, steps, turn)
    ensures Reading(lower, steps, turn) == NewTurn(turn)
    decreases |steps|
  {
    hide Current, EverCurrent, Filed;
    if steps != [] {
      var front, step := steps[..|steps| - 1], steps[|steps| - 1];
      assert steps == front + [step];
      EverCurrentSnoc(lower, front, step, turn);
      ReadingNothing(lower, front, turn);
      ReadingSnoc(lower, front, step, turn);
    }
  }

  /** A replay of the log so far: its turn, its turns and what they hold. */
  ghost predicate Reads(lower: string -> string, steps: seq<Step>, r: Replay) {
    && (forall t :: t >= 0 ==> (r.current == t <==> Current(lower, steps, t)))
    && (forall t :: t in r.turns <==> t >= 0 && EverCurrent(lower, steps, t))
    && (forall t :: t in r.turns ==> r.turns[t] == Reading(lower, steps, t))
  }

  lemma ReadsNothing(lower: string -> string)
    ensures Reads(lower, [], Replay(map[], -1))
  {
  }

  lemma ReadsNext(lower: string -> string, steps: seq<Step>, step: Step, r: Replay)
    requires Reads(lower, steps, r)
    ensures Reads(lower, steps + [step], Next(lower, r, step))
  {
    hide Current, EverCurrent, Reading, Filed, ResolveTurn;
    var r' := Next(lower, r, step);
    forall t
      ensures t >= 0 ==> (r'.current == t <==> Current(lower, steps + [step], t))
      ensures t in r'.turns <==> t >= 0 && EverCurrent(lower, steps + [step], t)
      ensures t in r'.turns ==> r'.turns[t] == Reading(lower, steps + [step], t)
    {
      CurrentSnoc(lower, steps, step, t);
      EverCurrentSnoc(lower, steps, step, t);
      ReadingSnoc(lower, steps, step, t);
      if t !in r.turns && t >= 0 {
        ReadingNothing(lower, steps, t);
      }
    }
  }

  /**
    Main result, for every log, recorded or not: a replay has a turn exactly for the numbers the log was ever set to,
    and a turn holds, in order, the steps that were written while it was the current one.
   */
  lemma {:induction false} ReplayReads(lower: string -> string, steps: seq<Step>)
    ensures Reads(lower, steps, Replayed(lower, steps))
    decreases |steps|
  {
    hide Reads, Next;
    if steps == [] {
      ReadsNothing(lower);
    } else {
      var front, step := steps[..|steps| - 1], steps[|steps| - 1];
      ReplayReads(lower, front);
      ReadsNext(lower, front, step, Replayed(lower, front));
      assert steps == front + [step];
    }
  }

  /** The number a reference gives: a number itself, or that of a text of digits. */
  ghost predicate Gives(ref: Option<TurnRef>, n: int) {
    || ref == Some(Number(n))
    || exists text :: ref == Some(Digits(text)) && text != "" && (forall c :: c in text ==> IsDigit(c))
         && ParseDecimal(text) == n
  }

  /** The turn a step gives: decisions and errors by their names, others by their input or else by their output. */
  lemma StepGives(lower: string -> string, step: Step, n: int)
    requires n != -1
    ensures ResolveTurn(lower, step) == n <==>
              if step.stepType == DecisionStep || step.stepType == DecisionError then ExtractTurn(lower, step.name) == n
              else
                || Gives(step.inputTurn, n)
                || ((forall m :: !Gives(step.inputTurn, m)) && Gives(step.outputTurn, n))
  {
    hide ExtractTurn, ParseDecimal;
    RefGives(step.inputTurn, n);
    RefGives(step.outputTurn, n);
    if RefTurn(step.inputTurn).Some? {
      RefGives(step.inputTurn, RefTurn(step.inputTurn).value);
    }
    forall m ensures Gives(step.inputTurn, m) <==> RefTurn(step.inputTurn) == Some(m) {
      RefGives(step.inputTurn, m);
    }
  }

  lemma RefGives(ref: Option<TurnRef>, n: int)
    ensures Gives(ref, n) <==> RefTurn(ref) == Some(n)
  {
    hide ParseDecimal, IsDigit;
  }

  // ----- artifacts as a direct reading of their list

  /** The latest artifact of a kind that resolves to a turn. */
  function Latest(lower: string -> string, artifacts: seq<Artifact>, kind: Kind, turn: int): Option<Artifact> {
    if artifacts == [] then None else
    var last := artifacts[|artifacts| - 1];
    if last.kind == kind && ArtifactTurn(lower, last) == turn then Some(last)
    else Latest(lower, artifacts[..|artifacts| - 1], kind, turn)
  }

  function AttachmentsOf(lower: string -> string, artifacts: seq<Artifact>, turn: int): Attachments {
    Attachments(
      Latest(lower, artifacts, DecisionArtifact, turn), Latest(lower, artifacts, PlannerContext, turn),
      Latest(lower, artifacts, LlmPrompt, turn), Latest(lower, artifacts, LlmResponse, turn))
  }

  /** A turn as steps and artifacts tell it. */
  function FullTurn(lower: string -> string, steps: seq<Step>, artifacts: seq<Artifact>, turn: int): Turn {
    TurnOf(steps, turn).(attachments := AttachmentsOf(lower, artifacts, turn))
  }

  /** Some artifact resolves to the turn. */
  predicate Names(lower: string -> string, artifacts: seq<Artifact>, turn: int) {
    exists a :: a in artifacts && ArtifactTurn(lower, a) == turn
  }

  lemma AttachmentsNext(lower: string -> string, artifacts: seq<Artifact>, a: Artifact, turn: int)
    ensures AttachmentsOf(lower, artifacts + [a], turn) ==
              if ArtifactTurn(lower, a) == turn then Attach(AttachmentsOf(lower, artifacts, turn), a)
              else AttachmentsOf(lower, artifacts, turn)
    ensures Names(lower, artifacts + [a], turn) <==> Names(lower, artifacts, turn) || ArtifactTurn(lower, a) == turn
  {
    hide ArtifactTurn;
    assert (artifacts + [a])[..|artifacts|] == artifacts;
    assert forall x :: x in artifacts + [a] <==> x in artifacts || x == a;
  }

  /**
    The turns of the replayed steps, with the artifacts put in: the turns of the decisions and those artifacts name.
   */
  ghost predicate AllTurns(lower: string -> string, steps: seq<Step>, artifacts: seq<Artifact>, turns: map<int, Turn>) {
    && (forall t :: t in turns <==> 0 <= t < Decisions(steps) || (t >= 0 && Names(lower, artifacts, t)))
    && (forall t :: t in turns ==> turns[t] == FullTurn(lower, steps, artifacts, t))
  }

  lemma NoArtifacts(lower: string -> string, steps: seq<Step>, r: Replay)
    requires Faithful(steps, r)
    ensures AllTurns(lower, steps, [], r.turns)
  {
    hide StepsIn, ArtifactTurn;
  }

  lemma AllTurnsNext(
    lower: string -> string, steps: seq<Step>, artifacts: seq<Artifact>, a: Artifact, turns: map<int, Turn>)
    requires AllTurns(lower, steps, artifacts, turns)
    ensures AllTurns(lower, steps, artifacts + [a], NextArtifact(lower, turns, a))
  {
    hide TurnOf, ArtifactTurn, Attach, AttachmentsOf, Names;
    var turn := ArtifactTurn(lower, a);
    forall t
      ensures AttachmentsOf(lower, artifacts + [a], t) ==
                if turn == t then Attach(AttachmentsOf(lower, artifacts, t), a) else AttachmentsOf(lower, artifacts, t)
      ensures Names(lower, artifacts + [a], t) <==> Names(lower, artifacts, t) || turn == t
    {
      AttachmentsNext(lower, artifacts, a, t);
    }
    if turn >= 0 && turn !in turns {
      TurnOfNew(steps, turn);
      Unnamed(lower, artifacts, turn);
    }
  }

  lemma {:induction false} Unnamed(lower: string -> string, artifacts: seq<Artifact>, turn: int)
    requires !Names(lower, artifacts, turn)
    ensures AttachmentsOf(lower, artifacts, turn) == NOTHING_ATTACHED
    decreases |artifacts|
  {
    hide ArtifactTurn;
    if artifacts != [] {
      var front, last := artifacts[..|artifacts| - 1], artifacts[|artifacts| - 1];
      assert artifacts == front + [last];
      assert last in artifacts && ArtifactTurn(lower, last) != turn;
      AttachmentsNext(lower, front, last, turn);
      Unnamed(lower, front, turn);
    }
  }

  lemma {:induction false} ArtifactsAttached(
    lower: string -> string, steps: seq<Step>, artifacts: seq<Artifact>, r: Replay)
    requires Faithful(steps, r)
    ensures AllTurns(lower, steps, artifacts, Attached(lower, r.turns, artifacts))
    decreases |artifacts|
  {
    hide Faithful, AllTurns, NextArtifact;
    if artifacts == [] {
      NoArtifacts(lower, steps, r);
    } else {
      var front, a := artifacts[..|artifacts| - 1], artifacts[|artifacts| - 1];
      ArtifactsAttached(lower, steps, front, r);
      AllTurnsNext(lower, steps, front, a, Attached(lower, r.turns, front));
      assert artifacts == front + [a];
    }
  }

  // ----- the listed turns

  function TurnsOf(lower: string -> string, steps: seq<Step>, artifacts: seq<Artifact>): seq<Turn> {
    seq(Decisions(steps), i requires 0 <= i < Decisions(steps) => FullTurn(lower, steps, artifacts, i))
  }

  /** Keys that start with 0 to n - 1 are listed in that order. */
  lemma {:induction false} KeysStart(keys: seq<int>, s: set<int>, n: nat)
    requires KeysInOrder(keys, s) && (forall t :: t in s ==> t >= 0) && (forall t :: 0 <= t < n ==> t in s)
    ensures n <= |keys| && forall i :: 0 <= i < n ==> keys[i] == i
  {
    if n > 0 {
      KeysStart(keys, s, n - 1);
      assert n - 1 in ToSet(keys);
      var j :| 0 <= j < |keys| && keys[j] == n - 1;
      assert keys[n - 1] in ToSet(keys);
      if n > 1 {
        assert IntLe(keys[n - 2], keys[n - 1]) && keys[n - 2] != keys[n - 1];
      }
      assert n - 1 < j ==> IntLe(keys[n - 1], keys[j]);
    }
  }

  lemma ListingStarts(turns: map<int, Turn>, n: nat, listed: seq<Turn>)
    requires IsListing(turns, listed) && (forall t :: t in turns ==> t >= 0) && (forall t :: 0 <= t < n ==> t in turns)
    ensures n <= |listed| && forall i :: 0 <= i < n ==> listed[i] == turns[i]
    ensures |listed| == n <==> forall t :: t in turns ==> t < n
  {
    hide KeysInOrder;
    var keys: seq<int> :| KeysInOrder(keys, turns.Keys) && listed == Values(turns, keys);
    KeysStart(keys, turns.Keys, n);
    KeysEnd(keys, turns.Keys, n);
  }

  lemma KeysEnd(keys: seq<int>, s: set<int>, n: nat)
    requires KeysInOrder(keys, s) && (forall t :: t in s ==> t >= 0)
    requires n <= |keys| && forall i :: 0 <= i < n ==> keys[i] == i
    ensures |keys| == n <==> forall t :: t in s ==> t < n
  {
    if |keys| == n {
      forall t | t in s ensures t < n {
        assert t in ToSet(keys);
      }
    } else {
      assert keys[n] in ToSet(keys);
      assert n > 0 ==> IntLe(keys[n - 1], keys[n]) && keys[n - 1] != keys[n];
      assert keys[n] in s && keys[n] >= n;
    }
  }

  /**
    Main result: replay undoes recording.  For every log the runtime can write and all artifacts, turn i of the replay
    is what a direct reading of log and artifacts gives for turn i.  The replay consists of these turns, one per
    decision, exactly when no artifact resolves to a turn for which the log has no decision.
   */
  lemma ReplayUndoesRecording(
    lower: string -> string, runId: string, steps: seq<Step>, artifacts: seq<Artifact>, listed: seq<Turn>)
    requires Recorded(runId, steps) && !IsTitle(lower, FatalName(runId))
    requires IsListing(Attached(lower, Replayed(lower, steps).turns, artifacts), listed)
    ensures Decisions(steps) <= |listed| && listed[..Decisions(steps)] == TurnsOf(lower, steps, artifacts)
    ensures listed == TurnsOf(lower, steps, artifacts) <==>
              forall a :: a in artifacts ==> ArtifactTurn(lower, a) < Decisions(steps)
  {
    hide IsListing, Replayed, Recorded, Attached, FullTurn, ArtifactTurn, Faithful, AllTurns, IsTitle, Decisions;
    hide TurnsOf;
    ReplayFaithful(lower, runId, steps);
    ArtifactsAttached(lower, steps, artifacts, Replayed(lower, steps));
    ListedTurns(lower, steps, artifacts, Attached(lower, Replayed(lower, steps).turns, artifacts), listed);
  }

  lemma ListedTurns(
    lower: string -> string, steps: seq<Step>, artifacts: seq<Artifact>, turns: map<int, Turn>, listed: seq<Turn>)
    requires AllTurns(lower, steps, artifacts, turns) && IsListing(turns, listed)
    ensures Decisions(steps) <= |listed| && listed[..Decisions(steps)] == TurnsOf(lower, steps, artifacts)
    ensures listed == TurnsOf(lower, steps, artifacts) <==>
              forall a :: a in artifacts ==> ArtifactTurn(lower, a) < Decisions(steps)
  {
    hide IsListing, FullTurn, ArtifactTurn, Names, Decisions;
    var n := Decisions(steps);
    NoneBeyond(lower, steps, artifacts, turns);
    ListingStarts(turns, n, listed);
    assert listed[..n] == TurnsOf(lower, steps, artifacts);
    assert |listed| == n ==> listed == listed[..n];
  }

  lemma NoneBeyond(lower: string -> string, steps: seq<Step>, artifacts: seq<Artifact>, turns: map<int, Turn>)
    requires AllTurns(lower, steps, artifacts, turns)
    ensures (forall t :: t in turns ==> t < Decisions(steps)) <==>
              forall a :: a in artifacts ==> ArtifactTurn(lower, a) < Decisions(steps)
  {
    hide FullTurn, ArtifactTurn, Decisions;
    if forall t :: t in turns ==> t < Decisions(steps) {
      forall a | a in artifacts ensures ArtifactTurn(lower, a) < Decisions(steps) {
        assert Names(lower, artifacts, ArtifactTurn(lower, a));
      }
    }
  }

  // ----- the replay of any log

  /** The turns of the steps, with the artifacts put in. */
  ghost predicate Completed(
    lower: string -> string, replayed: map<int, Turn>, artifacts: seq<Artifact>, turns: map<int, Turn>)
  {
    && (forall t :: t in replayed ==> t >= 0)
    && (forall t :: t in turns <==> t in replayed || (t >= 0 && Names(lower, artifacts, t)))
    && (forall t :: t in turns ==>
          turns[t] == (if t in replayed then replayed[t] else NewTurn(t)).(
            attachments := AttachmentsOf(lower, artifacts, t)))
  }

  lemma CompletedNothing(lower: string -> string, replayed: map<int, Turn>)
    requires forall t :: t in replayed ==> t >= 0 && replayed[t].attachments == NOTHING_ATTACHED
    ensures Completed(lower, replayed, [], replayed)
  {
    hide ArtifactTurn;
  }

  lemma CompletedNext(
    lower: string -> string, replayed: map<int, Turn>, artifacts: seq<Artifact>, a: Artifact, turns: map<int, Turn>)
    requires Completed(lower, replayed, artifacts, turns)
    ensures Completed(lower, replayed, artifacts + [a], NextArtifact(lower, turns, a))
  {
    hide ArtifactTurn, Attach, AttachmentsOf, Names;
    var turn := ArtifactTurn(lower, a);
    forall t
      ensures AttachmentsOf(lower, artifacts + [a], t) ==
                if turn == t then Attach(AttachmentsOf(lower, artifacts, t), a) else AttachmentsOf(lower, artifacts, t)
      ensures Names(lower, artifacts + [a], t) <==> Names(lower, artifacts, t) || turn == t
    {
      AttachmentsNext(lower, artifacts, a, t);
    }
    var turns' := NextArtifact(lower, turns, a);
    if turn >= 0 && turn !in turns {
      Unnamed(lower, artifacts, turn);
    }
    forall t | t in turns'
      ensures turns'[t] == (if t in replayed then replayed[t] else NewTurn(t)).(
                attachments := AttachmentsOf(lower, artifacts + [a], t))
    {
      if t == turn {
        var before := if t in turns then turns[t] else NewTurn(t);
        assert before.attachments == AttachmentsOf(lower, artifacts, t);
        assert turns'[t] == before.(attachments := Attach(before.attachments, a));
      } else {
        assert turns'[t] == turns[t];
      }
    }
  }

  lemma {:induction false} AttachedCompletes(
    lower: string -> string, replayed: map<int, Turn>, artifacts: seq<Artifact>)
    requires forall t :: t in replayed ==> t >= 0 && replayed[t].attachments == NOTHING_ATTACHED
    ensures Completed(lower, replayed, artifacts, Attached(lower, replayed, artifacts))
    decreases |artifacts|
  {
    hide Completed, NextArtifact;
    if artifacts == [] {
      CompletedNothing(lower, replayed);
    } else {
      var front, a := artifacts[..|artifacts| - 1], artifacts[|artifacts| - 1];
      AttachedCompletes(lower, replayed, front);
      CompletedNext(lower, replayed, front, a, Attached(lower, replayed, front));
      assert artifacts == front + [a];
    }
  }

  lemma ListingIs(turns: map<int, Turn>, listed: seq<Turn>)
    requires IsListing(turns, listed) && forall t :: t in turns ==> turns[t].index == t
    ensures forall i, j :: 0 <= i < j < |listed| ==> listed[i].index < listed[j].index
    ensures forall x :: x in listed <==> x.index in turns && turns[x.index] == x
  {
    var keys: seq<int> :| KeysInOrder(keys, turns.Keys) && listed == Values(turns, keys);
    forall i | 0 <= i < |keys| ensures keys[i] in turns && listed[i] == turns[keys[i]] {
      assert keys[i] in ToSet(keys);
    }
    forall i, j | 0 <= i < j < |listed| ensures listed[i].index < listed[j].index {
      assert IntLe(keys[i], keys[j]) && keys[i] != keys[j];
    }
    forall t | t in turns ensures turns[t] in listed {
      assert t in ToSet(keys);
      var i :| 0 <= i < |keys| && keys[i] == t;
      assert listed[i] == turns[t];
    }
  }

  /** The last artifact of its kind that resolves to the turn, if any. */
  lemma {:induction false} LatestIs(lower: string -> string, artifacts: seq<Artifact>, kind: Kind, turn: int)
    ensures var latest := Latest(lower, artifacts, kind, turn);
            if latest.Some? then
              exists i :: 0 <= i < |artifacts| && artifacts[i] == latest.value
                && artifacts[i].kind == kind && ArtifactTurn(lower, artifacts[i]) == turn
                && forall j :: i < j < |artifacts| ==>
                     !(artifacts[j].kind == kind && ArtifactTurn(lower, artifacts[j]) == turn)
            else forall a :: a in artifacts ==> !(a.kind == kind && ArtifactTurn(lower, a) == turn)
    decreases |artifacts|
  {
    hide ArtifactTurn;
    if artifacts != [] {
      var front, last := artifacts[..|artifacts| - 1], artifacts[|artifacts| - 1];
      assert artifacts == front + [last];
      if !(last.kind == kind && ArtifactTurn(lower, last) == turn) {
        LatestIs(lower, front, kind, turn);
        var latest := Latest(lower, front, kind, turn);
        if latest.Some? {
          var i :| 0 <= i < |front| && front[i] == latest.value
            && front[i].kind == kind && ArtifactTurn(lower, front[i]) == turn
            && forall j :: i < j < |front| ==> !(front[j].kind == kind && ArtifactTurn(lower, front[j]) == turn);
          assert artifacts[i] == front[i];
          assert forall j :: i < j < |artifacts| - 1 ==> artifacts[j] == front[j];
        }
      } else {
        assert artifacts[|front|] == last;
      }
    }
  }

  /**
    Main result, for every log and all artifacts, whoever wrote them: the replay lists, by ascending number, one turn
    for each number the log was ever set to or an artifact resolves to, as steps and artifacts tell it.
   */
  lemma ReplayOfAnyLog(lower: string -> string, steps: seq<Step>, artifacts: seq<Artifact>, listed: seq<Turn>)
    requires IsListing(Attached(lower, Replayed(lower, steps).turns, artifacts), listed)
    ensures forall i, j :: 0 <= i < j < |listed| ==> listed[i].index < listed[j].index
    ensures forall x :: x in listed <==>
              && x.index >= 0 && (EverCurrent(lower, steps, x.index) || Names(lower, artifacts, x.index))
              && x == Reading(lower, steps, x.index).(attachments := AttachmentsOf(lower, artifacts, x.index))
  {
    hide IsListing, Attached, Replayed, EverCurrent, Names, StepsWhile, AttachmentsOf;
    var replayed := Replayed(lower, steps).turns;
    ReplayReads(lower, steps);
    AttachedCompletes(lower, replayed, artifacts);
    forall t | t !in replayed && t >= 0 ensures Reading(lower, steps, t) == NewTurn(t) {
      ReadingNothing(lower, steps, t);
    }
    hide Reading;
    ListingIs(Attached(lower, replayed, artifacts), listed);
  }

  // ----- the number a text gives

  ghost predicate Numeral(s: string, n: int) {
    s != "" && (forall c :: c in s ==> IsDigit(c)) && ParseDecimal(s) == n
  }

  /** What follows the last colon, and the last word, begin at these places. */
  ghost predicate LastPart(value: string, i: nat) {
    && i <= |value| && (i > 0 ==> value[i - 1] == ':') && forall k :: i <= k < |value| ==> value[k] != ':'
  }

  ghost predicate LastWordAt(value: string, i: nat) {
    && i <= |value| && (i > 0 ==> IsSpace(value[i - 1])) && forall k :: i <= k < |value| ==> !IsSpace(value[k])
  }

  lemma {:induction false} LastPartIs(value: string, i: nat)
    requires LastPart(value, i)
    ensures AfterLastColon(value) == value[i..]
  {
    if i < |value| {
      LastPartIs(value[..|value| - 1], i);
      assert value[i..] == value[..|value| - 1][i..] + [value[|value| - 1]];
    }
  }

  lemma {:induction false} LastWordIs(value: string, i: nat)
    requires LastWordAt(value, i)
    ensures AfterLastSpace(value) == value[i..]
  {
    if i < |value| {
      LastWordIs(value[..|value| - 1], i);
      assert value[i..] == value[..|value| - 1][i..] + [value[|value| - 1]];
    }
  }

  lemma {:induction false} LastPartExists(value: string) returns (i: nat)
    ensures LastPart(value, i)
  {
    i := |value|;
    if value != "" && value[|value| - 1] != ':' {
      i := LastPartExists(value[..|value| - 1]);
    }
  }

  lemma {:induction false} LastWordExists(value: string) returns (i: nat)
    ensures LastWordAt(value, i)
  {
    i := |value|;
    if value != "" && !IsSpace(value[|value| - 1]) {
      i := LastWordExists(value[..|value| - 1]);
    }
  }

  /**
    The number a text gives is the one after its last colon, or else, for the titles of planner contexts, prompts and
    responses, that of its last word.
   */
  lemma TextGives(lower: string -> string, value: string, n: nat) returns (i: nat, j: nat)
    ensures LastPart(value, i) && LastWordAt(Strip(value), j)
    ensures ExtractTurn(lower, value) == n <==>
              || Numeral(Strip(value[i..]), n)
              || ((forall m :: !Numeral(Strip(value[i..]), m)) && Numeral(Strip(value)[j..], n)
                  && ("planner context turn " <= lower(value) || "llm prompt turn " <= lower(value)
                      || "llm response turn " <= lower(value)))
  {
    hide ParseDecimal, Strip, IsDigit;
    i := LastPartExists(value);
    j := LastWordExists(Strip(value));
    LastPartIs(value, i);
    LastWordIs(Strip(value), j);
    forall m
      ensures Numeral(Strip(value[i..]), m) <==> AllDigits(Strip(value[i..])) && ParseDecimal(Strip(value[i..])) == m
    {}
    if value == "" {
      StripNothing();
    }
    assert AllDigits(Strip(value[i..])) ==> Numeral(Strip(value[i..]), ParseDecimal(Strip(value[i..])));
  }

  lemma StripNothing()
    ensures Strip("") == ""
  {
  }

  /** The turn of an artifact: a decision's from its metadata or else its id, any other's from the title. */
  lemma ArtifactGives(lower: string -> string, a: Artifact, n: int)
    requires n != -1
    ensures ArtifactTurn(lower, a) == n <==>
              if a.kind != DecisionArtifact then ExtractTurn(lower, a.title) == n
              else
                || Gives(a.metadataTurn, n)
                || ((forall m :: !Gives(a.metadataTurn, m)) && ExtractTurn(lower, a.decisionId) == n)
  {
    hide ExtractTurn, ParseDecimal;
    forall m ensures Gives(a.metadataTurn, m) <==> RefTurn(a.metadataTurn) == Some(m) {
      RefGives(a.metadataTurn, m);
    }
    if RefTurn(a.metadataTurn).Some? {
      RefGives(a.metadataTurn, RefTurn(a.metadataTurn).value);
    }
  }

  // ----- the artifacts the runtime writes

  function TitlePrefix(kind: Kind): string {
    if kind == PlannerContext then "Planner Context Turn" else if kind == LlmPrompt then "LLM Prompt Turn"
    else "LLM Response Turn"
  }

  /** The title the recorder gives an artifact of a turn. */
  function Title(kind: Kind, turn: nat): string {
    TitlePrefix(kind) + " " + Decimal(turn)
  }

  /** How the title begins in lower case. */
  function LowerPrefix(kind: Kind): string {
    if kind == PlannerContext then "planner context turn " else if kind == LlmPrompt then "llm prompt turn "
    else "llm response turn "
  }

  predicate Titled(kind: Kind) {
    kind == PlannerContext || kind == LlmPrompt || kind == LlmResponse
  }

  lemma {:induction false} AfterLastSpaceOf(prefix: string, suffix: string)
    requires forall i :: 0 <= i < |suffix| ==> !IsSpace(suffix[i])
    ensures AfterLastSpace(prefix + " " + suffix) == suffix
    decreases |suffix|
  {
    var value := prefix + " " + suffix;
    if suffix != "" {
      AfterLastSpaceOf(prefix, suffix[..|suffix| - 1]);
      assert value[..|value| - 1] == prefix + " " + suffix[..|suffix| - 1];
      assert value[|value| - 1] == suffix[|suffix| - 1];
    }
  }

  lemma {:induction false} NoColonNoSplit(value: string)
    requires forall i :: 0 <= i < |value| ==> value[i] != ':'
    ensures AfterLastColon(value) == value
  {
    if value != "" {
      NoColonNoSplit(value[..|value| - 1]);
    }
  }

  lemma DecimalDigits(turn: nat)
    ensures Decimal(turn) != "" && forall i :: 0 <= i < |Decimal(turn)| ==> IsDigit(Decimal(turn)[i])
  {
    DecimalRoundTrip(turn);
    forall i | 0 <= i < |Decimal(turn)| ensures IsDigit(Decimal(turn)[i]) {
      assert Decimal(turn)[i] in Decimal(turn);
    }
  }

  lemma TitleShape(kind: Kind, turn: nat)
    requires Titled(kind)
    ensures var title := Title(kind, turn);
            && title != "" && IsStripped(title) && !IsDigit(title[0])
            && forall i :: 0 <= i < |title| ==> title[i] != ':'
  {
    hide Decimal;
    DecimalDigits(turn);
    PrefixPlain(kind);
  }

  lemma PrefixPlain(kind: Kind)
    requires Titled(kind)
    ensures var prefix := TitlePrefix(kind);
            prefix != "" && (prefix[0] == 'P' || prefix[0] == 'L') && forall i :: 0 <= i < |prefix| ==> prefix[i] != ':'
  {
  }

  lemma PrefixTitles(lower: string -> string, kind: Kind, value: string)
    requires Titled(kind) && LowerPrefix(kind) <= lower(value)
    ensures IsTitle(lower, value)
  {
  }

  /** The turn of an artifact is read back from its title. */
  lemma TitleRoundTrip(lower: string -> string, kind: Kind, turn: nat)
    requires Titled(kind) && LowerPrefix(kind) <= lower(Title(kind, turn))
    ensures ExtractTurn(lower, Title(kind, turn)) == turn
  {
    PrefixTitles(lower, kind, Title(kind, turn));
    hide Decimal, TitlePrefix, LowerPrefix, Strip, IsTitle, ParseDecimal, IsDigit, IsSpace;
    var title := Title(kind, turn);
    TitleShape(kind, turn);
    NoColonNoSplit(title);
    StripIdentity(title);
    assert title[0] in title;
    NoDigits(title);
    DecimalSpaceless(turn);
    AfterLastSpaceOf(TitlePrefix(kind), Decimal(turn));
    DecimalRoundTrip(turn);
  }

  lemma NoDigits(s: string)
    requires s != "" && !IsDigit(s[0])
    ensures !AllDigits(s)
  {
    assert s[0] in s;
  }

  lemma DecimalSpaceless(turn: nat)
    ensures forall i :: 0 <= i < |Decimal(turn)| ==> !IsSpace(Decimal(turn)[i])
  {
    hide Decimal;
    DecimalDigits(turn);
  }

  /** Lower-casing keeps the titles recognisable. */
  ghost predicate LowersTitles(lower: string -> string) {
    && (forall kind: Kind, turn: nat :: Titled(kind) ==> LowerPrefix(kind) <= lower(Title(kind, turn)))
    && !IsTitle(lower, REQUEST_TITLE)
  }

  /** `str.lower` of ASCII text. */
  function AsciiLower(s: string): string {
    seq(|s|, i requires 0 <= i < |s| => if 'A' <= s[i] <= 'Z' then s[i] + 32 as char else s[i])
  }

  lemma AsciiLowersTitles()
    ensures LowersTitles(AsciiLower)
  {
    forall kind: Kind, turn: nat | Titled(kind) ensures LowerPrefix(kind) <= AsciiLower(Title(kind, turn)) {
      AsciiLowersTitle(kind, turn);
    }
    assert AsciiLower(REQUEST_TITLE)[0] == 'r';
  }

  lemma AsciiLowersTitle(kind: Kind, turn: nat)
    requires Titled(kind)
    ensures LowerPrefix(kind) <= AsciiLower(Title(kind, turn))
  {
    var prefix := TitlePrefix(kind) + " ";
    AsciiLowersPlanner();
    AsciiLowersPrompt();
    AsciiLowersResponse();
    hide Decimal, AsciiLower;
    AsciiLowerStarts(prefix, Decimal(turn));
    assert Title(kind, turn) == prefix + Decimal(turn);
    assert AsciiLower(prefix) == LowerPrefix(kind);
  }

  lemma AsciiLowerStarts(prefix: string, rest: string)
    ensures AsciiLower(prefix) <= AsciiLower(prefix + rest)
  {
    assert AsciiLower(prefix + rest)[..|prefix|] == AsciiLower(prefix);
  }

  lemma AsciiLowersPlanner()
    ensures AsciiLower("Planner Context Turn" + " ") == "planner context turn "
  {
  }

  lemma AsciiLowersPrompt()
    ensures AsciiLower("LLM Prompt Turn" + " ") == "llm prompt turn "
  {
  }

  lemma AsciiLowersResponse()
    ensures AsciiLower("LLM Response Turn" + " ") == "llm response turn "
  {
  }

  const REQUEST_TITLE := "Runtime Run Request"

  /** How the runtime writes an artifact while `n` decisions are in the log and the model leaves `turn_index` alone. */
  ghost predicate WrittenWith(runId: string, n: nat, a: Artifact) {
    match a.kind
    case RequestArtifact => a.title == REQUEST_TITLE
    case DecisionArtifact =>
      exists t: nat :: t < n && a.decisionId == DecisionName(runId, t) && a.metadataTurn == Some(Number(t))
    case _ => exists t: nat :: t <= n && a.title == Title(a.kind, t)
  }

  lemma WrittenTurn(lower: string -> string, runId: string, n: nat, a: Artifact)
    requires LowersTitles(lower) && WrittenWith(runId, n, a)
    ensures ArtifactTurn(lower, a) <= n
              && (ArtifactTurn(lower, a) == n ==> Titled(a.kind) && a.title == Title(a.kind, n))
  {
    hide ExtractTurn, Title;
    if a.kind == RequestArtifact {
      RequestHasNoTurn(lower);
    } else if a.kind != DecisionArtifact {
      var t: nat :| t <= n && a.title == Title(a.kind, t);
      TitleRoundTrip(lower, a.kind, t);
    }
  }

  lemma RequestHasNoTurn(lower: string -> string)
    requires !IsTitle(lower, REQUEST_TITLE)
    ensures ExtractTurn(lower, REQUEST_TITLE) == -1
  {
    hide Strip, IsTitle;
    NoColonNoSplit(REQUEST_TITLE);
    assert IsStripped(REQUEST_TITLE);
    StripIdentity(REQUEST_TITLE);
    NoDigits(REQUEST_TITLE);
  }

  /**
    Main result: as long as no model answer sets a turn of its own, the replay has one turn per decision, and one more
    exactly when the planner was asked for a turn whose decision was never recorded.
   */
  lemma AtMostOneTurnMore(
    lower: string -> string, runId: string, steps: seq<Step>, artifacts: seq<Artifact>, listed: seq<Turn>)
    requires Recorded(runId, steps) && !IsTitle(lower, FatalName(runId)) && LowersTitles(lower)
    requires forall a :: a in artifacts ==> WrittenWith(runId, Decisions(steps), a)
    requires IsListing(Attached(lower, Replayed(lower, steps).turns, artifacts), listed)
    ensures |listed| == Decisions(steps) +
              if exists a :: a in artifacts && Titled(a.kind) && a.title == Title(a.kind, Decisions(steps)) then 1
              else 0
  {
    ReplayFaithful(lower, runId, steps);
    hide IsListing, Replayed, Recorded, Attached, FullTurn, ArtifactTurn, Faithful, WrittenWith, LowersTitles, Title;
    ArtifactsAttached(lower, steps, artifacts, Replayed(lower, steps));
    var n, turns := Decisions(steps), Attached(lower, Replayed(lower, steps).turns, artifacts);
    forall a | a in artifacts
      ensures ArtifactTurn(lower, a) <= n
                && (ArtifactTurn(lower, a) == n <==> Titled(a.kind) && a.title == Title(a.kind, n))
    {
      WrittenTurn(lower, runId, n, a);
      if Titled(a.kind) && a.title == Title(a.kind, n) {
        TitleTurn(lower, a, n);
      }
    }
    ListingStarts(turns, if Names(lower, artifacts, n) then n + 1 else n, listed);
  }

  lemma TitleTurn(lower: string -> string, a: Artifact, n: nat)
    requires LowersTitles(lower) && Titled(a.kind) && a.title == Title(a.kind, n)
    ensures ArtifactTurn(lower, a) == n
  {
    TitleRoundTrip(lower, a.kind, n);
    hide ExtractTurn, Title;
  }

  // ----- two logs whose replay has more turns than decisions

  function DecisionOf(runId: string, turn: nat): Step {
    Step(0, DecisionStep, DecisionName(runId, turn), None, None, "")
  }

  lemma OneDecision(runId: string)
    ensures Decisions([DecisionOf(runId, 0)]) == 1 && Recorded(runId, [DecisionOf(runId, 0)])
  {
    hide DecisionName;
    var step := DecisionOf(runId, 0);
    assert [] + [step] == [step];
    RecordedSnoc(runId, [], step);
  }

  lemma OneDecisionOneFatal(runId: string)
    ensures var log := [DecisionOf(runId, 0), Step(1, DecisionError, FatalName(runId), None, None, "")];
            Decisions(log) == 1 && Recorded(runId, log)
  {
    hide DecisionName, FatalName, Recorded, Decisions;
    var first, fatal := DecisionOf(runId, 0), Step(1, DecisionError, FatalName(runId), None, None, "");
    OneDecision(runId);
    RecordedSnoc(runId, [first], fatal);
    assert [first] + [fatal] == [first, fatal];
  }

  lemma TitledWritten(runId: string, n: nat, kind: Kind)
    requires Titled(kind)
    ensures WrittenWith(runId, n, Artifact(kind, Title(kind, n), "", None, ""))
  {
    hide Title;
  }

  /** The model call of turn 1 raises: its planner context and prompt open a turn that has no decision. */
  lemma RaisingModelAddsTurn(lower: string -> string, runId: string, listed: seq<Turn>)
    requires LowersTitles(lower) && !IsTitle(lower, FatalName(runId))
    requires var steps := [DecisionOf(runId, 0), Step(1, DecisionError, FatalName(runId), None, None, "")];
             var artifacts := [
               Artifact(PlannerContext, Title(PlannerContext, 1), "", None, ""),
                 Artifact(LlmPrompt, Title(LlmPrompt, 1), "", None, "")];
             IsListing(Attached(lower, Replayed(lower, steps).turns, artifacts), listed)
    ensures |listed| == 2
  {
    var first, fatal := DecisionOf(runId, 0), Step(1, DecisionError, FatalName(runId), None, None, "");
    var context := Artifact(PlannerContext, Title(PlannerContext, 1), "", None, "");
    var prompt := Artifact(LlmPrompt, Title(LlmPrompt, 1), "", None, "");
    hide DecisionName, FatalName, IsListing, Replayed, Attached, Recorded, Title, LowersTitles, IsTitle, Decisions;
    hide WrittenWith;
    OneDecisionOneFatal(runId);
    TitledWritten(runId, 1, PlannerContext);
    TitledWritten(runId, 1, LlmPrompt);
    assert context in [context, prompt];
    AtMostOneTurnMore(lower, runId, [first, fatal], [context, prompt], listed);
  }

  /** A model answer with `metadata.turn_index` 7: the decision's own artifact is replayed as another turn. */
  lemma ModelTurnAddsTurn(lower: string -> string, runId: string, listed: seq<Turn>)
    requires !IsTitle(lower, FatalName(runId))
    requires var artifacts := [Artifact(DecisionArtifact, "d", DecisionName(runId, 0), Some(Number(7)), "")];
             IsListing(Attached(lower, Replayed(lower, [DecisionOf(runId, 0)]).turns, artifacts), listed)
    ensures listed != TurnsOf(lower, [DecisionOf(runId, 0)],
              [Artifact(DecisionArtifact, "d", DecisionName(runId, 0), Some(Number(7)), "")])
  {
    var steps := [DecisionOf(runId, 0)];
    var artifact := Artifact(DecisionArtifact, "d", DecisionName(runId, 0), Some(Number(7)), "");
    OneDecision(runId);
    hide DecisionName, FatalName, IsListing, Replayed, Attached, Recorded, IsTitle, TurnsOf, ExtractTurn;
    assert artifact in [artifact] && ArtifactTurn(lower, artifact) == 7;
    ReplayUndoesRecording(lower, runId, steps, [artifact], listed);
  }

  // ----- every step lands once and in order

  function DecisionsIn(steps: seq<Step>): seq<Step> {
    OfType(steps, DecisionStep)
  }

  function OfType(steps: seq<Step>, stepType: StepType): seq<Step> {
    if steps == [] then [] else
    var before, last := OfType(steps[..|steps| - 1], stepType), steps[|steps| - 1];
    if last.stepType == stepType then before + [last] else before
  }

  /** The steps of one type in turns 0 to n - 1, turn after turn. */
  function Concatenated(steps: seq<Step>, stepType: StepType, n: nat): seq<Step> {
    if n == 0 then [] else Concatenated(steps, stepType, n - 1) + StepsIn(steps, stepType, n - 1)
  }

  lemma {:induction false} ConcatenatedOther(steps: seq<Step>, step: Step, stepType: StepType, n: nat)
    requires n <= Decisions(steps + [step]) - 1
    ensures Concatenated(steps + [step], stepType, n) == Concatenated(steps, stepType, n)
  {
    if n > 0 {
      ConcatenatedOther(steps, step, stepType, n - 1);
      StepsInSnoc(steps, step, stepType, n - 1);
    }
  }

  /**
    Main result: after the first decision no step is lost, doubled or reordered: going through the turns in order
    gives, for every type of step, exactly the log's steps of that type.
   */
  lemma {:induction false} StepsLandOnce(runId: string, steps: seq<Step>, stepType: StepType)
    requires Recorded(runId, steps) && steps != [] && steps[0].stepType == DecisionStep
    ensures Decisions(steps) > 0 && Concatenated(steps, stepType, Decisions(steps)) == OfType(steps, stepType)
    decreases |steps|
  {
    hide Concatenated, OfType, StepsIn, Decisions, WrittenIn;
    var front, step := steps[..|steps| - 1], steps[|steps| - 1];
    assert steps == front + [step];
    RecordedSnoc(runId, front, step);
    OfTypeSnoc(front, step, stepType);
    if front == [] {
      FirstStepLands(step, stepType);
    } else {
      StepsLandOnce(runId, front, stepType);
      StepsAppended(front, step, stepType);
    }
  }

  lemma OfTypeSnoc(steps: seq<Step>, step: Step, stepType: StepType)
    ensures OfType(steps + [step], stepType) ==
              OfType(steps, stepType) + (if step.stepType == stepType then [step] else [])
  {
    assert (steps + [step])[..|steps|] == steps;
  }

  lemma FirstStepLands(step: Step, stepType: StepType)
    requires step.stepType == DecisionStep
    ensures Decisions([step]) == 1 && Concatenated([step], stepType, 1) == OfType([step], stepType)
  {
    assert [] + [step] == [step];
    RecordedSnoc("", [], step);
    StepsInSnoc([], step, stepType, 0);
    OfTypeSnoc([], step, stepType);
    assert Concatenated([step], stepType, 1) == Concatenated([step], stepType, 0) + StepsIn([step], stepType, 0);
  }

  lemma StepsAppended(front: seq<Step>, step: Step, stepType: StepType)
    requires Decisions(front) > 0
    ensures Concatenated(front + [step], stepType, Decisions(front + [step])) ==
              Concatenated(front, stepType, Decisions(front)) + (if step.stepType == stepType then [step] else [])
  {
    var steps := front + [step];
    RecordedSnoc("", front, step);
    var last := Decisions(steps) - 1;
    ConcatenatedOther(front, step, stepType, last);
    StepsInSnoc(front, step, stepType, last);
    if step.stepType == DecisionStep {
      NoStepsYet(front, stepType, last);
    }
  }

  /** Turn i holds the i-th decision, and no other. */
  lemma {:induction false} OneDecisionPerTurn(steps: seq<Step>, turn: nat)
    requires turn < Decisions(steps)
    ensures |StepsIn(steps, DecisionStep, turn)| == 1 && |DecisionsIn(steps)| == Decisions(steps)
    ensures TurnOf(steps, turn).decision == Some(DecisionsIn(steps)[turn])
    decreases |steps|
  {
    var front, step := steps[..|steps| - 1], steps[|steps| - 1];
    assert steps == front + [step];
    RecordedSnoc("", front, step);
    StepsInSnoc(front, step, DecisionStep, turn);
    DecisionsCounted(front);
    DecisionsCounted(steps);
    if turn < Decisions(front) {
      OneDecisionPerTurn(front, turn);
    } else {
      NoStepsYet(front, DecisionStep, turn);
    }
  }

  lemma {:induction false} DecisionsCounted(steps: seq<Step>)
    ensures |DecisionsIn(steps)| == Decisions(steps)
    decreases |steps|
  {
    if steps != [] {
      DecisionsCounted(steps[..|steps| - 1]);
    }
  }
}
