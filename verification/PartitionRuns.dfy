/**
  Runs of creates, updates, deletes and applied mutation plans in one partition, as pure steps:
  internal/domain/case/write_service.py, internal/product/ingest/service.py and
  internal/knowledge/execution/mutation_executor.py.  `WritePath` and `MutationExecution` refine these steps.
 */
module PartitionRuns {
  import opened Options
  import opened Text
  import opened Sorting
  import opened Fields
  import opened Statistics
  import opened Observations
  import opened StatisticsStore
  import opened ProfileIndex
  import opened Projection
  import opened GitRepository
  import opened CaseWorkspace
  import Aggregator
  import R = SupportReader

  /** A partition's name, and the two text functions of Python the code relies on. */
  datatype Config = Config(partition: string, fold: string -> string, lower: string -> string)

  datatype State = State(tree: Tree, statistics: Snapshot)

  datatype MutationPlan = MutationPlan(planId: string, partition: string, acceptedSchema: Option<Schema>,
    changes: seq<Change>)

  /** `now` is the time an operation reads; `body` holds the fields of a case that nothing else depends on. */
  datatype Op =
    | CreateCase(id: string, body: string, profile: seq<Field>, now: int)
    | UpdateCase(id: string, newBody: Option<string>, newProfile: Option<seq<Field>>, now: int)
    | DeleteCase(id: string, now: int)
    | ApplyPlan(plan: MutationPlan, now: int)

  // ----- the documents

  function Drafted(cfg: Config, schema: Schema, id: string, body: string, profile: seq<Field>): Case {
    Case(id, cfg.partition, body, profile, Project(cfg.lower, profile, schema.definitions))
  }

  function Edited(
    cfg: Config, schema: Schema, existing: Case, body: Option<string>, profile: Option<seq<Field>>): Case {
    Drafted(cfg, schema, existing.id, body.GetOr(existing.body), profile.GetOr(existing.profile))
  }

  ghost predicate ChangeApplies(cfg: Config, tree: Tree, change: Change) {
    && CasePath(change.caseId) in tree && tree[CasePath(change.caseId)].CaseFile?
    && change.partition == cfg.partition
    && AsMap(tree[CasePath(change.caseId)].c.facets) == AsMap(change.before)
  }

  /** When an operation goes through; a create has a fresh id, and profiles are validated field sets. */
  ghost predicate Accepts(cfg: Config, tree: Tree, op: Op) {
    match op
    case CreateCase(id, _, profile, _) => CasePath(id) !in tree && IsFieldSet(profile)
    case UpdateCase(id, _, profile, _) => CasePath(id) in tree && (profile.Some? ==> IsFieldSet(profile.value))
    case DeleteCase(id, _) => CasePath(id) in tree
    case ApplyPlan(plan, _) =>
      && plan.planId != "" && plan.partition != "" && plan.partition == cfg.partition
      && forall change :: change in plan.changes ==> ChangeApplies(cfg, tree, change)
  }

  function SchemaApplied(tree: Tree, schema: Option<Schema>, now: int): Tree {
    if schema.Some? then SchemaSaved(tree, schema.value, now) else tree
  }

  /** The case documents rewritten one change at a time. */
  function Upserted(tree: Tree, changes: seq<Change>): Tree {
    if changes == [] then tree else
    var before, change := Upserted(tree, changes[..|changes| - 1]), changes[|changes| - 1];
    var path := CasePath(change.caseId);
    if path in before && before[path].CaseFile? then Stored(before, Changed(before[path].c, change)) else before
  }

  ghost function TreeAfter(cfg: Config, tree: Tree, op: Op): Tree
    requires ValidTree(cfg.partition, tree) && Accepts(cfg, tree, op)
  {
    CasesInAt(cfg.partition, tree);
    match op
    case CreateCase(id, body, profile, now) =>
      Refreshed(cfg.partition, Stored(tree, Drafted(cfg, SchemaIn(tree), id, body, profile)), now)
    case UpdateCase(id, body, profile, now) =>
      Refreshed(cfg.partition, Stored(tree, Edited(cfg, SchemaIn(tree), CasesIn(tree)[id], body, profile)), now)
    case DeleteCase(id, now) => Refreshed(cfg.partition, tree - {CasePath(id)}, now)
    case ApplyPlan(plan, now) =>
      Refreshed(cfg.partition, Upserted(SchemaApplied(tree, plan.acceptedSchema, now), plan.changes), now)
  }

  /** The case collection an operation leaves. */
  ghost function CasesAfter(cfg: Config, tree: Tree, op: Op): map<string, Case>
    requires ValidTree(cfg.partition, tree) && Accepts(cfg, tree, op)
  {
    CasesInAt(cfg.partition, tree);
    var cases := CasesIn(tree);
    match op
    case CreateCase(id, body, profile, _) => cases[id := Drafted(cfg, SchemaIn(tree), id, body, profile)]
    case UpdateCase(id, body, profile, _) => cases[id := Edited(cfg, SchemaIn(tree), cases[id], body, profile)]
    case DeleteCase(id, _) => cases - {id}
    case ApplyPlan(plan, _) => AfterChanges(cases, plan.changes)
  }

  // ----- the paths written

  /** What `commit_case_ingest` commits for a case. */
  function CasePaths(id: string): set<Path> {
    {CasePath(id), FacetIndexPath, SemanticIndexPath}
  }

  /** `planned_paths`: every workspace path a plan may write. */
  function PlannedPaths(plan: MutationPlan): set<Path> {
    (set change | change in plan.changes :: CasePath(change.caseId)) + {FacetIndexPath, SemanticIndexPath}
    + (if plan.acceptedSchema.Some? then {SchemaPath} else {})
  }

  function OpPaths(op: Op): set<Path> {
    match op
    case CreateCase(id, _, _, _) => CasePaths(id)
    case UpdateCase(id, _, _, _) => CasePaths(id)
    case DeleteCase(id, _) => CasePaths(id)
    case ApplyPlan(plan, _) => PlannedPaths(plan)
  }

  lemma {:induction false} UpsertedOutside(tree: Tree, changes: seq<Change>, paths: set<Path>)
    requires forall path :: path in tree && path.CasePath? && tree[path].CaseFile? ==> tree[path].c.id == path.id
    requires forall change :: change in changes ==> CasePath(change.caseId) in paths
    ensures AgreeOutside(tree, Upserted(tree, changes), paths)
    ensures forall path ::
              path in Upserted(tree, changes) && path.CasePath? && Upserted(tree, changes)[path].CaseFile? ==>
              Upserted(tree, changes)[path].c.id == path.id
  {
    if changes != [] {
      var front, change := changes[..|changes| - 1], changes[|changes| - 1];
      assert change in changes;
      UpsertedOutside(tree, front, paths);
      hide Validated;
    }
  }

  lemma StoredOutside(partition: string, tree: Tree, c: Case, now: int)
    ensures AgreeOutside(tree, Refreshed(partition, Stored(tree, c), now), CasePaths(c.id))
  {
    hide ListedIndex;
  }

  lemma RemovedOutside(partition: string, tree: Tree, id: string, now: int)
    ensures AgreeOutside(tree, Refreshed(partition, tree - {CasePath(id)}, now), CasePaths(id))
  {
    hide ListedIndex;
  }

  lemma PlanOutside(partition: string, tree: Tree, plan: MutationPlan, now: int)
    requires ValidTree(partition, tree)
    ensures AgreeOutside(tree, Refreshed(partition,
              Upserted(SchemaApplied(tree, plan.acceptedSchema, now), plan.changes), now), PlannedPaths(plan))
  {
    assert forall change :: change in plan.changes ==> CasePath(change.caseId) in PlannedPaths(plan);
    SchemaAppliedIds(partition, tree, plan.acceptedSchema, now);
    hide ListedIndex, Upserted, ValidTree;
    UpsertedOutside(SchemaApplied(tree, plan.acceptedSchema, now), plan.changes, PlannedPaths(plan));
  }

  /** An operation writes only its own paths. */
  lemma WritesOnlyItsPaths(cfg: Config, tree: Tree, op: Op)
    requires ValidTree(cfg.partition, tree) && Accepts(cfg, tree, op)
    ensures AgreeOutside(tree, TreeAfter(cfg, tree, op), OpPaths(op))
  {
    CasesInAt(cfg.partition, tree);
    hide CasesIn, Refreshed, Stored, ValidCase, IsFieldSet, Project, ChangeApplies, PlannedPaths, CasePaths;
    hide AgreeOutside;
    match op
    case CreateCase(id, body, profile, now) =>
      StoredOutside(cfg.partition, tree, Drafted(cfg, SchemaIn(tree), id, body, profile), now);
    case UpdateCase(id, body, profile, now) =>
      StoredOutside(cfg.partition, tree, Edited(cfg, SchemaIn(tree), CasesIn(tree)[id], body, profile), now);
    case DeleteCase(id, now) => RemovedOutside(cfg.partition, tree, id, now);
    case ApplyPlan(plan, now) => PlanOutside(cfg.partition, tree, plan, now);
  }

  lemma SchemaAppliedIds(partition: string, tree: Tree, schema: Option<Schema>, now: int)
    requires ValidTree(partition, tree)
    ensures var saved := SchemaApplied(tree, schema, now);
            forall path :: path in saved && path.CasePath? && saved[path].CaseFile? ==> saved[path].c.id == path.id
  {
    forall path | path in tree && path.CasePath? ensures tree[path].CaseFile? && tree[path].c.id == path.id {
      assert CaseAt(partition, tree, path.id);
    }
  }

  // ----- the statistics

  /** One `replace_case_observation` after another, each from the case as the previous change left it. */
  ghost function ReplacedAll(
    fold: string -> string, s: Snapshot, cases: map<string, Case>, changes: seq<Change>): Snapshot {
    if changes == [] then s else
    var front, change := changes[..|changes| - 1], changes[|changes| - 1];
    var before, cases' := ReplacedAll(fold, s, cases, front), AfterChanges(cases, front);
    var id := change.caseId;
    if id !in cases' then before
    else Applied(Removed(before, id, EntriesOf(fold, cases'[id])), id, EntriesOf(fold, Changed(cases'[id], change)))
  }

  ghost function StatisticsAfter(cfg: Config, s: State, op: Op): Snapshot
    requires ValidTree(cfg.partition, s.tree) && Accepts(cfg, s.tree, op)
  {
    CasesInAt(cfg.partition, s.tree);
    var cases := CasesIn(s.tree);
    match op
    case CreateCase(id, body, profile, _) =>
      Applied(s.statistics, id, EntriesOf(cfg.fold, Drafted(cfg, SchemaIn(s.tree), id, body, profile)))
    case UpdateCase(id, body, profile, _) =>
      Applied(Removed(s.statistics, id, EntriesOf(cfg.fold, cases[id])), id,
              EntriesOf(cfg.fold, Edited(cfg, SchemaIn(s.tree), cases[id], body, profile)))
    case DeleteCase(id, _) => Removed(s.statistics, id, EntriesOf(cfg.fold, cases[id]))
    case ApplyPlan(plan, _) => ReplacedAll(cfg.fold, s.statistics, cases, plan.changes)
  }

  ghost function After(cfg: Config, s: State, op: Op): State
    requires ValidTree(cfg.partition, s.tree) && Accepts(cfg, s.tree, op)
  {
    State(TreeAfter(cfg, s.tree, op), StatisticsAfter(cfg, s, op))
  }

  // ----- what every operation keeps

  /** The statistics recount the current cases and the indexes are those of the listed cases. */
  ghost predicate Consistent(cfg: Config, s: State) {
    && ValidTree(cfg.partition, s.tree) && IndexesCurrent(cfg.partition, s.tree)
    && IsRecount(s.statistics, cfg.partition, cfg.fold, CasesIn(s.tree))
  }

  lemma DraftedValid(cfg: Config, schema: Schema, id: string, body: string, profile: seq<Field>)
    requires IsFieldSet(profile)
    ensures ValidCase(Drafted(cfg, schema, id, body, profile))
  {
    ResolvedIsFieldSet(cfg.lower, Selected(profile, schema.definitions), schema.definitions);
  }

  lemma EditedValid(cfg: Config, schema: Schema, existing: Case, body: Option<string>, profile: Option<seq<Field>>)
    requires ValidCase(existing) && (profile.Some? ==> IsFieldSet(profile.value))
    ensures ValidCase(Edited(cfg, schema, existing, body, profile))
  {
    DraftedValid(cfg, schema, existing.id, body.GetOr(existing.body), profile.GetOr(existing.profile));
  }

  lemma ChangedValid(c: Case, change: Change)
    requires ValidCase(c)
    ensures ValidCase(Changed(c, change))
  {
    ValidatedIsFieldSet(change.after);
  }

  lemma {:induction false} UpsertedCases(partition: string, tree: Tree, changes: seq<Change>)
    requires ValidTree(partition, tree)
    ensures ValidTree(partition, Upserted(tree, changes))
              && CasesIn(Upserted(tree, changes)) == AfterChanges(CasesIn(tree), changes)
  {
    if changes != [] {
      hide ValidTree, Stored, Changed, ValidCase, CasesIn;
      var front, change := changes[..|changes| - 1], changes[|changes| - 1];
      UpsertedCases(partition, tree, front);
      var before := Upserted(tree, front);
      CasesInAt(partition, before);
      var path := CasePath(change.caseId);
      if path in before {
        var c := before[path].c;
        assert CasesIn(before)[change.caseId] == c;
        ChangedValid(c, change);
        ChangedKeepsName(c, change);
        StoredCases(partition, before, Changed(c, change));
      }
    }
  }

  lemma ChangedKeepsName(c: Case, change: Change)
    ensures Changed(c, change).id == c.id && Changed(c, change).partition == c.partition
  {
  }

  lemma {:induction false} AfterChangesValid(partition: string, cases: map<string, Case>, changes: seq<Change>)
    requires ValidCases(partition, cases)
    ensures ValidCases(partition, AfterChanges(cases, changes))
  {
    if changes != [] {
      hide ValidCase, Changed;
      var front, change := changes[..|changes| - 1], changes[|changes| - 1];
      AfterChangesValid(partition, cases, front);
      var before := AfterChanges(cases, front);
      if change.caseId in before {
        ChangedValid(before[change.caseId], change);
        ChangedKeepsName(before[change.caseId], change);
      }
    }
  }

  /** Replacing observations one change at a time ends in the recount, even when a plan names a case twice. */
  lemma {:induction false} ReplacedAllRecounts(
    partition: string, fold: string -> string, cases: map<string, Case>, changes: seq<Change>)
    requires ValidCases(partition, cases)
    ensures ReplacedAll(fold, Stats(partition, Live(fold, cases)), cases, changes) ==
              Stats(partition, Live(fold, AfterChanges(cases, changes)))
  {
    if changes != [] {
      hide Stats, Live, Applied, Removed, EntriesOf, Changed, ValidCase;
      var front, change := changes[..|changes| - 1], changes[|changes| - 1];
      ReplacedAllRecounts(partition, fold, cases, front);
      AfterChangesValid(partition, cases, front);
      var before := AfterChanges(cases, front);
      if change.caseId in before {
        ChangedKeepsName(before[change.caseId], change);
        ReplaceRecount(partition, fold, before, Changed(before[change.caseId], change));
      }
    }
  }

  lemma StoredRefreshed(partition: string, tree: Tree, c: Case, now: int)
    requires ValidTree(partition, tree) && c.partition == partition && ValidCase(c)
    ensures var after := Refreshed(partition, Stored(tree, c), now);
            ValidTree(partition, after) && IndexesCurrent(partition, after)
              && CasesIn(after) == CasesIn(tree)[c.id := c]
  {
    hide ValidTree, CasesIn, Stored, Refreshed, IndexesCurrent, ValidCase;
    StoredCases(partition, tree, c);
    RefreshedCurrent(partition, Stored(tree, c), now);
  }

  lemma SchemaAppliedValid(partition: string, tree: Tree, schema: Option<Schema>, now: int)
    requires ValidTree(partition, tree)
    ensures ValidTree(partition, SchemaApplied(tree, schema, now))
              && CasesIn(SchemaApplied(tree, schema, now)) == CasesIn(tree)
  {
    if schema.Some? {
      SchemaSavedValid(partition, tree, schema.value, now);
    }
  }

  lemma PlanApplied(partition: string, tree: Tree, plan: MutationPlan, now: int)
    requires ValidTree(partition, tree)
    ensures var after :=
              Refreshed(partition, Upserted(SchemaApplied(tree, plan.acceptedSchema, now), plan.changes), now);
            && ValidTree(partition, after) && IndexesCurrent(partition, after)
            && CasesIn(after) == AfterChanges(CasesIn(tree), plan.changes)
  {
    hide ValidTree, CasesIn, Upserted, Refreshed, IndexesCurrent, SchemaApplied, AfterChanges;
    SchemaAppliedValid(partition, tree, plan.acceptedSchema, now);
    UpsertedCases(partition, SchemaApplied(tree, plan.acceptedSchema, now), plan.changes);
    RefreshedCurrent(partition, Upserted(SchemaApplied(tree, plan.acceptedSchema, now), plan.changes), now);
  }

  /** The documents after an operation: a valid tree with current indexes and exactly the expected cases. */
  lemma TreeAfterCases(cfg: Config, tree: Tree, op: Op)
    requires ValidTree(cfg.partition, tree) && Accepts(cfg, tree, op)
    ensures var after := TreeAfter(cfg, tree, op);
            && ValidTree(cfg.partition, after) && IndexesCurrent(cfg.partition, after)
            && CasesIn(after) == CasesAfter(cfg, tree, op)
  {
    CasesInAt(cfg.partition, tree);
    hide CasesIn, Stored, Refreshed, IndexesCurrent, ValidCase, IsFieldSet, Project, Upserted, SchemaApplied;
    hide AfterChanges, ChangeApplies;
    match op
    case CreateCase(id, body, profile, now) =>
      DraftedValid(cfg, SchemaIn(tree), id, body, profile);
      StoredRefreshed(cfg.partition, tree, Drafted(cfg, SchemaIn(tree), id, body, profile), now);
    case UpdateCase(id, body, profile, now) =>
      var existing := CasesIn(tree)[id];
      EditedValid(cfg, SchemaIn(tree), existing, body, profile);
      StoredRefreshed(cfg.partition, tree, Edited(cfg, SchemaIn(tree), existing, body, profile), now);
    case DeleteCase(id, now) =>
      RemovedCases(cfg.partition, tree, id);
      RefreshedCurrent(cfg.partition, tree - {CasePath(id)}, now);
    case ApplyPlan(plan, now) => PlanApplied(cfg.partition, tree, plan, now);
  }

  lemma StatisticsAfterRecount(cfg: Config, s: State, op: Op)
    requires Consistent(cfg, s) && Accepts(cfg, s.tree, op)
    ensures StatisticsAfter(cfg, s, op) == Stats(cfg.partition, Live(cfg.fold, CasesAfter(cfg, s.tree, op)))
  {
    CasesInAt(cfg.partition, s.tree);
    hide CasesIn, Stats, Live, Applied, Removed, EntriesOf, ValidCase, IsFieldSet, Project, IndexesCurrent;
    hide ChangeApplies;
    var cases := CasesIn(s.tree);
    match op
    case CreateCase(id, body, profile, _) =>
      AppendRecount(cfg.partition, cfg.fold, cases, Drafted(cfg, SchemaIn(s.tree), id, body, profile));
    case UpdateCase(id, body, profile, _) =>
      ReplaceRecount(cfg.partition, cfg.fold, cases, Edited(cfg, SchemaIn(s.tree), cases[id], body, profile));
    case DeleteCase(id, _) => RemoveRecount(cfg.partition, cfg.fold, cases, id);
    case ApplyPlan(plan, _) => ReplacedAllRecounts(cfg.partition, cfg.fold, cases, plan.changes);
  }

  lemma StepKeepsConsistent(cfg: Config, s: State, op: Op)
    requires Consistent(cfg, s) && Accepts(cfg, s.tree, op)
    ensures Consistent(cfg, After(cfg, s, op))
  {
    hide TreeAfter, StatisticsAfter, CasesAfter, ValidTree, IndexesCurrent, CasesIn, Stats, Live;
    TreeAfterCases(cfg, s.tree, op);
    StatisticsAfterRecount(cfg, s, op);
  }

  lemma RefreshedElsewhere(partition: string, tree: Tree, now: int, path: Path)
    requires path != FacetIndexPath && path != SemanticIndexPath
    ensures At(Refreshed(partition, tree, now), path) == At(tree, path)
  {
    hide ListedIndex;
  }

  lemma PlanTree(cfg: Config, tree: Tree, plan: MutationPlan, now: int)
    requires ValidTree(cfg.partition, tree) && Accepts(cfg, tree, ApplyPlan(plan, now))
    ensures TreeAfter(cfg, tree, ApplyPlan(plan, now)) ==
              Refreshed(cfg.partition, Upserted(SchemaApplied(tree, plan.acceptedSchema, now), plan.changes), now)
  {
    hide ValidTree, Accepts, Refreshed, Upserted, SchemaApplied;
  }

  lemma UpsertedSchema(partition: string, tree: Tree, changes: seq<Change>)
    requires forall path :: path in tree && path.CasePath? && tree[path].CaseFile? ==> tree[path].c.id == path.id
    ensures At(Upserted(tree, changes), SchemaPath) == At(tree, SchemaPath)
  {
    hide Upserted;
    UpsertedOutside(tree, changes, set change | change in changes :: CasePath(change.caseId));
  }

  /** The schema document after a plan: that of `save_facet_schema`, and untouched without an accepted schema. */
  lemma PlanSchemaDocument(cfg: Config, tree: Tree, plan: MutationPlan, now: int)
    requires ValidTree(cfg.partition, tree) && Accepts(cfg, tree, ApplyPlan(plan, now))
    ensures At(TreeAfter(cfg, tree, ApplyPlan(plan, now)), SchemaPath) ==
              At(SchemaApplied(tree, plan.acceptedSchema, now), SchemaPath)
  {
    hide ValidTree, Accepts, TreeAfter, Refreshed, Upserted, SchemaApplied, At;
    var saved := SchemaApplied(tree, plan.acceptedSchema, now);
    PlanTree(cfg, tree, plan, now);
    SchemaAppliedIds(cfg.partition, tree, plan.acceptedSchema, now);
    UpsertedSchema(cfg.partition, saved, plan.changes);
    RefreshedElsewhere(cfg.partition, Upserted(saved, plan.changes), now, SchemaPath);
  }

  /**
    Main result: what an applied plan leaves is the base tree with exactly the plan's effects: the changed cases, the
    schema document, indexes rebuilt for the new cases, and nothing else.
   */
  lemma PlanEffects(cfg: Config, tree: Tree, plan: MutationPlan, now: int)
    requires ValidTree(cfg.partition, tree) && Accepts(cfg, tree, ApplyPlan(plan, now))
    ensures var after := TreeAfter(cfg, tree, ApplyPlan(plan, now));
            && AgreeOutside(tree, after, PlannedPaths(plan))
            && CasesIn(after) == AfterChanges(CasesIn(tree), plan.changes)
            && At(after, SchemaPath) == At(SchemaApplied(tree, plan.acceptedSchema, now), SchemaPath)
            && IndexesCurrent(cfg.partition, after) && ValidTree(cfg.partition, after)
  {
    hide TreeAfter, CasesIn, ValidTree, IndexesCurrent, PlannedPaths, AgreeOutside, Accepts, AfterChanges;
    hide SchemaApplied;
    WritesOnlyItsPaths(cfg, tree, ApplyPlan(plan, now));
    TreeAfterCases(cfg, tree, ApplyPlan(plan, now));
    PlanSchemaDocument(cfg, tree, plan, now);
  }

  // ----- runs

  /** Completed operations only: one that is refused raises before it writes. */
  ghost predicate IsRun(cfg: Config, s: State, ops: seq<Op>, s': State)
    decreases |ops|
  {
    if ops == [] then s' == s
    else
      && ValidTree(cfg.partition, s.tree) && Accepts(cfg, s.tree, ops[0])
      && IsRun(cfg, After(cfg, s, ops[0]), ops[1..], s')
  }

  lemma {:induction false} RunKeepsConsistent(cfg: Config, s: State, ops: seq<Op>, s': State)
    requires Consistent(cfg, s) && IsRun(cfg, s, ops, s')
    ensures Consistent(cfg, s')
    decreases |ops|
  {
    if ops != [] {
      hide Consistent, After, Accepts, ValidTree;
      StepKeepsConsistent(cfg, s, ops[0]);
      RunKeepsConsistent(cfg, After(cfg, s, ops[0]), ops[1..], s');
    }
  }

  /** A partition with a facet schema and no cases. */
  ghost predicate Fresh(cfg: Config, s: State) {
    ValidTree(cfg.partition, s.tree) && IndexesCurrent(cfg.partition, s.tree)
    && CasesIn(s.tree) == map[] && s.statistics == EmptySnapshot(cfg.partition)
  }

  lemma FreshConsistent(cfg: Config, s: State)
    requires Fresh(cfg, s)
    ensures Consistent(cfg, s)
  {
    assert Live(cfg.fold, map[]) == map[];
    hide IndexesCurrent, ValidTree, CasesIn, Live;
    Aggregator.EmptyRecount(cfg.partition);
  }

  /**
    Main result: after any run of creates, updates, deletes and applied plans, the incrementally kept statistics equal
    a recount of the current cases.
   */
  lemma StatisticsRecountCases(cfg: Config, s: State, ops: seq<Op>, s': State)
    requires Fresh(cfg, s) && IsRun(cfg, s, ops, s')
    ensures s'.statistics == Stats(cfg.partition, Live(cfg.fold, CasesIn(s'.tree)))
  {
    hide IsRun, Fresh, Stats, Live, CasesIn, ValidTree, IndexesCurrent;
    FreshConsistent(cfg, s);
    RunKeepsConsistent(cfg, s, ops, s');
  }

  // ----- who wrote a case last

  predicate WritesCase(op: Op, id: string) {
    match op
    case CreateCase(created, _, _, _) => created == id
    case UpdateCase(updated, _, _, _) => updated == id
    case DeleteCase(_, _) => false
    case ApplyPlan(plan, _) => exists change :: change in plan.changes && change.caseId == id
  }

  /** Change i is the last one of a plan that names the case. */
  predicate NamesLast(changes: seq<Change>, id: string, i: int) {
    0 <= i < |changes| && changes[i].caseId == id && forall j :: i < j < |changes| ==> changes[j].caseId != id
  }

  /** A create or an update projects the profile under the current schema; a plan brings facets of its own. */
  ghost predicate WrittenBy(cfg: Config, tree: Tree, op: Op, c: Case)
    requires SchemaPath in tree && tree[SchemaPath].SchemaFile?
  {
    && WritesCase(op, c.id)
    && if op.ApplyPlan? then
         && c.id in CasesIn(tree) && c == CasesIn(tree)[c.id].(facets := c.facets)
         && exists i :: NamesLast(op.plan.changes, c.id, i) && c.facets == Validated(op.plan.changes[i].after)
       else
         c.facets == Project(cfg.lower, c.profile, tree[SchemaPath].schema.definitions)
  }

  lemma {:induction false} LastChange(cases: map<string, Case>, changes: seq<Change>, id: string)
    requires id in cases && exists change :: change in changes && change.caseId == id
    ensures AfterChanges(cases, changes).Keys == cases.Keys
    ensures var c := AfterChanges(cases, changes)[id];
            && c == cases[id].(facets := c.facets)
            && exists i :: NamesLast(changes, id, i) && c.facets == Validated(changes[i].after)
  {
    hide Validated;
    var front, last := changes[..|changes| - 1], changes[|changes| - 1];
    assert changes == front + [last];
    AfterChangesKeys(cases, changes);
    AfterChangesKeys(cases, front);
    OtherFields(cases, front, id);
    if last.caseId == id {
      assert NamesLast(changes, id, |changes| - 1);
    } else {
      LastChange(cases, front, id);
      var i :| NamesLast(front, id, i) && AfterChanges(cases, front)[id].facets == Validated(front[i].after);
      assert NamesLast(changes, id, i);
    }
  }

  /** Changes replace nothing but facets, and only those of the cases they name. */
  lemma {:induction false} OtherFields(cases: map<string, Case>, changes: seq<Change>, id: string)
    requires id in cases
    ensures id in AfterChanges(cases, changes)
    ensures var c := AfterChanges(cases, changes)[id]; c == cases[id].(facets := c.facets)
    ensures (forall change :: change in changes ==> change.caseId != id) ==>
              AfterChanges(cases, changes)[id] == cases[id]
  {
    if changes != [] {
      hide Validated;
      var front, last := changes[..|changes| - 1], changes[|changes| - 1];
      assert changes == front + [last];
      OtherFields(cases, front, id);
    }
  }

  /** One operation leaves a case as it was, or wrote it. */
  lemma StepWrites(cfg: Config, tree: Tree, op: Op, id: string)
    requires ValidTree(cfg.partition, tree) && Accepts(cfg, tree, op) && id in CasesIn(TreeAfter(cfg, tree, op))
    ensures SchemaPath in tree && tree[SchemaPath].SchemaFile?
    ensures if WritesCase(op, id) then WrittenBy(cfg, tree, op, CasesIn(TreeAfter(cfg, tree, op))[id])
            else id in CasesIn(tree) && CasesIn(TreeAfter(cfg, tree, op))[id] == CasesIn(tree)[id]
  {
    hide TreeAfter, CasesIn, IndexesCurrent, Project, AfterChanges, ValidCase, IsFieldSet, Validated, ChangeApplies;
    TreeAfterCases(cfg, tree, op);
    CasesInAt(cfg.partition, tree);
    if op.ApplyPlan? {
      AfterChangesKeys(CasesIn(tree), op.plan.changes);
      OtherFields(CasesIn(tree), op.plan.changes, id);
      if WritesCase(op, id) {
        LastChange(CasesIn(tree), op.plan.changes, id);
      }
    }
  }

  /** The last operation of a run that wrote a case, and the state it met; -1 when none did. */
  lemma {:induction false} LastWriter(cfg: Config, s: State, ops: seq<Op>, s': State, id: string)
    returns (k: int, met: State)
    requires ValidTree(cfg.partition, s.tree) && IsRun(cfg, s, ops, s') && id in CasesIn(s'.tree)
    ensures -1 <= k < |ops| && forall j :: k < j < |ops| ==> !WritesCase(ops[j], id)
    ensures k == -1 ==> id in CasesIn(s.tree) && CasesIn(s'.tree)[id] == CasesIn(s.tree)[id]
    ensures k >= 0 ==>
              IsRun(cfg, s, ops[..k], met) && ValidTree(cfg.partition, met.tree) && Accepts(cfg, met.tree, ops[k])
    ensures k >= 0 ==>
              && SchemaPath in met.tree && met.tree[SchemaPath].SchemaFile?
              && WrittenBy(cfg, met.tree, ops[k], CasesIn(s'.tree)[id])
    decreases |ops|
  {
    hide Accepts, ValidTree, WritesCase, WrittenBy, CasesIn, TreeAfter, StatisticsAfter;
    k, met := -1, s;
    if ops != [] {
      AfterValid(cfg, s, ops[0]);
      k, met := LastWriter(cfg, After(cfg, s, ops[0]), ops[1..], s', id);
      assert forall j :: 0 < j < |ops| ==> ops[j] == ops[1..][j - 1];
      if k >= 0 {
        RunBefore(cfg, s, ops, k, met);
        k := k + 1;
      } else {
        StepWrites(cfg, s.tree, ops[0], id);
        if WritesCase(ops[0], id) {
          k, met := 0, s;
          assert ops[..0] == [];
        }
      }
    }
  }

  lemma RunBefore(cfg: Config, s: State, ops: seq<Op>, k: nat, met: State)
    requires ops != [] && k < |ops[1..]| && ValidTree(cfg.partition, s.tree) && Accepts(cfg, s.tree, ops[0])
    requires IsRun(cfg, After(cfg, s, ops[0]), ops[1..][..k], met)
    ensures IsRun(cfg, s, ops[..k + 1], met)
  {
    hide Accepts, ValidTree, After;
    assert ops[..k + 1][1..] == ops[1..][..k] && ops[..k + 1][0] == ops[0];
  }

  lemma AfterValid(cfg: Config, s: State, op: Op)
    requires ValidTree(cfg.partition, s.tree) && Accepts(cfg, s.tree, op)
    ensures ValidTree(cfg.partition, After(cfg, s, op).tree) && After(cfg, s, op).tree == TreeAfter(cfg, s.tree, op)
  {
    hide TreeAfter, ValidTree, Accepts, StatisticsAfter, CasesIn;
    TreeAfterCases(cfg, s.tree, op);
  }

  /** Every change of the plan brings the projection of its case's profile under the schema the plan leaves. */
  ghost predicate PlanProjects(cfg: Config, tree: Tree, plan: MutationPlan)
    requires SchemaPath in tree && tree[SchemaPath].SchemaFile?
  {
    var schema := plan.acceptedSchema.GetOr(tree[SchemaPath].schema);
    forall change :: change in plan.changes && change.caseId in CasesIn(tree) ==>
      change.after == Project(cfg.lower, CasesIn(tree)[change.caseId].profile, schema.definitions)
  }

  /** The schema an operation leaves: only a plan with an accepted one changes it. */
  lemma SchemaLeft(cfg: Config, tree: Tree, op: Op)
    requires ValidTree(cfg.partition, tree) && Accepts(cfg, tree, op)
    ensures var left := TreeAfter(cfg, tree, op);
            && SchemaPath in tree && tree[SchemaPath].SchemaFile? && SchemaPath in left && left[SchemaPath].SchemaFile?
            && left[SchemaPath].schema ==
                 if op.ApplyPlan? then op.plan.acceptedSchema.GetOr(tree[SchemaPath].schema)
                 else tree[SchemaPath].schema
  {
    hide TreeAfter, CasesIn, IndexesCurrent, ValidCase, IsFieldSet, ChangeApplies, PlannedPaths, AfterChanges;
    TreeAfterCases(cfg, tree, op);
    SchemaThere(cfg.partition, tree);
    SchemaThere(cfg.partition, TreeAfter(cfg, tree, op));
    hide ValidTree;
    if op.ApplyPlan? {
      PlanSchemaDocument(cfg, tree, op.plan, op.now);
    } else {
      WritesOnlyItsPaths(cfg, tree, op);
      assert At(TreeAfter(cfg, tree, op), SchemaPath) == At(tree, SchemaPath);
    }
  }

  lemma WrittenProjects(cfg: Config, tree: Tree, op: Op, c: Case)
    requires ValidTree(cfg.partition, tree) && Accepts(cfg, tree, op)
    requires SchemaPath in tree && tree[SchemaPath].SchemaFile? && WrittenBy(cfg, tree, op, c)
    requires op.ApplyPlan? ==> PlanProjects(cfg, tree, op.plan)
    ensures var left := TreeAfter(cfg, tree, op);
            && SchemaPath in left && left[SchemaPath].SchemaFile?
            && c.facets == Project(cfg.lower, c.profile, left[SchemaPath].schema.definitions)
  {
    hide TreeAfter, CasesIn, Project, ValidTree, Accepts, Validated, IsFieldSet;
    SchemaLeft(cfg, tree, op);
    if op.ApplyPlan? {
      var i :| NamesLast(op.plan.changes, c.id, i) && c.facets == Validated(op.plan.changes[i].after);
      assert op.plan.changes[i] in op.plan.changes;
      ProjectionValidated(cfg, c.profile, op.plan.acceptedSchema.GetOr(tree[SchemaPath].schema).definitions);
    }
  }

  lemma ProjectionValidated(cfg: Config, profile: seq<Field>, definitions: seq<Definition>)
    ensures Validated(Project(cfg.lower, profile, definitions)) == Project(cfg.lower, profile, definitions)
  {
    hide Selected, Resolved, IsFieldSet, Validated;
    ResolvedIsFieldSet(cfg.lower, Selected(profile, definitions), definitions);
    FieldSetFixed(Project(cfg.lower, profile, definitions));
  }

  /**
    Main result: after any run, every case was written last by some operation of it, and the facets it holds are the
    projection of its profile under the schema that operation left, provided a plan that wrote it brought projections.
   */
  lemma FacetsProjectProfiles(cfg: Config, s: State, ops: seq<Op>, s': State, id: string)
    returns (k: int, met: State)
    requires Fresh(cfg, s) && IsRun(cfg, s, ops, s') && id in CasesIn(s'.tree)
    ensures 0 <= k < |ops| && WritesCase(ops[k], id) && forall j :: k < j < |ops| ==> !WritesCase(ops[j], id)
    ensures IsRun(cfg, s, ops[..k], met) && ValidTree(cfg.partition, met.tree) && Accepts(cfg, met.tree, ops[k])
    ensures ops[k].ApplyPlan? ==> SchemaPath in met.tree && met.tree[SchemaPath].SchemaFile?
    ensures (ops[k].ApplyPlan? ==> PlanProjects(cfg, met.tree, ops[k].plan)) ==>
              var left, c := After(cfg, met, ops[k]).tree, CasesIn(s'.tree)[id];
              && SchemaPath in left && left[SchemaPath].SchemaFile?
              && c.facets == Project(cfg.lower, c.profile, left[SchemaPath].schema.definitions)
  {
    hide Accepts, TreeAfter, CasesIn, Project, Validated, PlanProjects, IsRun, StatisticsAfter, NamesLast;
    FreshConsistent(cfg, s);
    RunKeepsConsistent(cfg, s, ops, s');
    hide Fresh;
    CasesInAt(cfg.partition, s'.tree);
    hide ValidTree, Stats;
    k, met := LastWriter(cfg, s, ops, s', id);
    if ops[k].ApplyPlan? ==> PlanProjects(cfg, met.tree, ops[k].plan) {
      WrittenProjects(cfg, met.tree, ops[k], CasesIn(s'.tree)[id]);
    }
  }

  ghost function IndexAt(source: Source, tree: Tree): Option<Index> {
    if IndexPath(source) in tree && tree[IndexPath(source)].IndexFile? then Some(tree[IndexPath(source)].index)
    else None
  }

  /**
    Main result: after any run that leaves at most five hundred cases with keys distinct under folding, each index
    document is the recount of the cases, and its entries have the counts and top twelve values of the statistics.
   */
  lemma DerivedViewsAgree(cfg: Config, s: State, ops: seq<Op>, s': State, source: Source)
    requires Fresh(cfg, s) && IsRun(cfg, s, ops, s') && KeepsText(cfg.fold)
    requires |CasesIn(s'.tree)| <= LISTED && DistinctUnderFold(cfg.fold, source, CasesIn(s'.tree))
    requires IndexAt(source, s'.tree).Some?
    ensures IndexAt(source, s'.tree).value == IndexOf(source, CasesIn(s'.tree))
    ensures forall entry :: entry in IndexAt(source, s'.tree).value.keyStats ==>
              EntryAgrees(cfg.fold, source, s'.statistics, entry)
    ensures forall k :: k != "" && StatRef(cfg.fold, source, k) in s'.statistics.keyStats ==>
              exists entry :: entry in IndexAt(source, s'.tree).value.keyStats && cfg.fold(entry.key) == cfg.fold(k)
  {
    hide IsRun, Fresh, Stats, Live, CasesIn, ValidTree, IndexOf, EntryAgrees, StatRef, DistinctUnderFold, Documents;
    hide CasesOf, ValidCase;
    FreshConsistent(cfg, s);
    RunKeepsConsistent(cfg, s, ops, s');
    CasesInAt(cfg.partition, s'.tree);
    ListingComplete(cfg.partition, CasesIn(s'.tree));
    ViewsAgree(cfg.fold, source, cfg.partition, CasesIn(s'.tree));
  }

  // ----- queries after a run

  ghost function CaseObservations(fold: string -> string, cases: map<string, Case>): map<string, Observation> {
    map id | id in cases :: ObservationOf(fold, cases[id])
  }

  lemma ObservedLive(fold: string -> string, cases: map<string, Case>)
    ensures R.LiveEntries(CaseObservations(fold, cases)) == Live(fold, cases)
    ensures R.AllNormal(fold, CaseObservations(fold, cases))
  {
    hide Entries, ObservationOf, NormalObservation;
    forall id | id in cases ensures NormalObservation(fold, ObservationOf(fold, cases[id])) {
      ObservationNormal(fold, cases[id]);
    }
  }

  /** The filter cannot be misled by the encoding of the index keys of these cases. */
  ghost predicate Readable(fold: string -> string, cases: map<string, Case>, f: R.Filter) {
    || R.Unambiguous(fold, f)
    || (R.NoColon(f.key) && forall id :: id in cases ==> R.KeysWithoutColon(ObservationOf(fold, cases[id])))
  }

  lemma ReadableFaithful(fold: string -> string, cases: map<string, Case>, f: R.Filter)
    requires IsField(f.field) && Readable(fold, cases, f)
    ensures R.Faithful(CaseObservations(fold, cases), f)
  {
    hide R.Unambiguous, R.NoColon, R.KeysWithoutColon, ObservationOf, R.Faithful, R.AllNormal;
    ObservedLive(fold, cases);
    if R.Unambiguous(fold, f) {
      R.UnambiguousFaithful(fold, CaseObservations(fold, cases), f);
    } else {
      R.HitsSupport(CaseObservations(fold, cases), f);
    }
  }

  /**
    Main result: after any run of creates, updates, deletes and applied plans, a support query over the incrementally
    kept statistics is a direct filter over the current cases, in both match modes and for every limit.
   */
  lemma QueriesFilterCases(cfg: Config, s: State, ops: seq<Op>, s': State, q: R.Query)
    requires Fresh(cfg, s) && IsRun(cfg, s, ops, s') && R.ValidQuery(q)
    requires forall f :: f in q.filters ==> Readable(cfg.fold, CasesIn(s'.tree), f)
    ensures R.Found(s'.statistics.support, q) ==
              R.Slice(Sorted(R.Matches(CaseObservations(cfg.fold, CasesIn(s'.tree)), q)), q.limit)
  {
    hide Fresh, IsRun, CasesIn, R.Found, R.Slice, R.Matches, Readable, R.Faithful, CaseObservations, Live, SupportIndex;
    StatisticsRecountCases(cfg, s, ops, s');
    var cases := CasesIn(s'.tree);
    ObservedLive(cfg.fold, cases);
    forall f | f in q.filters ensures R.Faithful(CaseObservations(cfg.fold, cases), f) {
      ReadableFaithful(cfg.fold, cases, f);
    }
    R.FaithfulQuery(CaseObservations(cfg.fold, cases), q);
  }

  // ----- when replaced observations go unnoticed

  ghost predicate SameRecount(cfg: Config, cases: map<string, Case>, cases': map<string, Case>) {
    Stats(cfg.partition, Live(cfg.fold, cases)) == Stats(cfg.partition, Live(cfg.fold, cases'))
  }

  /** The same cases with the same normalised facets and profiles. */
  ghost predicate SameObserved(fold: string -> string, cases: map<string, Case>, cases': map<string, Case>) {
    && cases'.Keys == cases.Keys
    && forall id :: id in cases ==> EntriesOf(fold, cases'[id]) == EntriesOf(fold, cases[id])
  }

  lemma SameObservedLive(fold: string -> string, cases: map<string, Case>, cases': map<string, Case>)
    requires cases'.Keys == cases.Keys
    ensures SameObserved(fold, cases, cases') <==> Live(fold, cases) == Live(fold, cases')
  {
    hide EntriesOf;
    if Live(fold, cases) == Live(fold, cases') {
      forall id | id in cases ensures EntriesOf(fold, cases'[id]) == EntriesOf(fold, cases[id]) {
        assert Live(fold, cases)[id] == Live(fold, cases')[id];
      }
    }
  }

  ghost predicate PlainKeys(fold: string -> string, cases: map<string, Case>) {
    forall id :: id in cases ==> R.KeysWithoutColon(ObservationOf(fold, cases[id]))
  }

  lemma SameIndexKeys(partition: string, live: map<string, Mapping>, live': map<string, Mapping>, id: string)
    requires Stats(partition, live) == Stats(partition, live') && id in live && id in live'
    ensures IndexKeys(live[id]) == IndexKeys(live'[id])
  {
    hide IndexKeys, Listed, SupportIndex;
    forall e ensures e in IndexKeys(live[id]) <==> e in IndexKeys(live'[id]) {
      ListedAt(live, e);
      ListedAt(live', e);
      assert id in Supporting(live, e) <==> id in Supporting(live', e);
    }
  }

  /** Main result: when no key holds a colon, two collections of the same cases recount alike only if observed alike. */
  lemma SameRecountIff(cfg: Config, cases: map<string, Case>, cases': map<string, Case>)
    requires cases'.Keys == cases.Keys && PlainKeys(cfg.fold, cases) && PlainKeys(cfg.fold, cases')
    ensures SameRecount(cfg, cases, cases') <==> SameObserved(cfg.fold, cases, cases')
  {
    hide Stats, R.KeysWithoutColon, Entries, ObservationOf;
    SameObservedLive(cfg.fold, cases, cases');
    if SameRecount(cfg, cases, cases') {
      forall id | id in cases ensures EntriesOf(cfg.fold, cases'[id]) == EntriesOf(cfg.fold, cases[id]) {
        SameIndexKeys(cfg.partition, Live(cfg.fold, cases), Live(cfg.fold, cases'), id);
        EntriesNormalised(cfg.fold, cases[id]);
        EntriesNormalised(cfg.fold, cases'[id]);
        R.IndexKeysTellApart(ObservationOf(cfg.fold, cases[id]), ObservationOf(cfg.fold, cases'[id]));
      }
    }
  }

  /** Whatever the keys hold, replacing one case goes unnoticed only if it is observed as before. */
  lemma OneReplacedIff(cfg: Config, cases: map<string, Case>, c: Case)
    requires c.id in cases
    ensures SameRecount(cfg, cases, cases[c.id := c]) <==> EntriesOf(cfg.fold, c) == EntriesOf(cfg.fold, cases[c.id])
  {
    EntriesNormalised(cfg.fold, cases[c.id]);
    EntriesNormalised(cfg.fold, c);
    LiveUpdate(cfg.fold, cases, c.id, c);
    hide Stats, EntriesOf, SortedLists;
    RecountTellsApart(cfg.partition, Live(cfg.fold, cases), c.id, EntriesOf(cfg.fold, c));
  }

  /** One case more or less is always noticed. */
  lemma CountedIff(cfg: Config, cases: map<string, Case>, cases': map<string, Case>)
    requires SameRecount(cfg, cases, cases')
    ensures |cases| == |cases'|
  {
    assert Live(cfg.fold, cases).Keys == cases.Keys && Live(cfg.fold, cases').Keys == cases'.Keys;
    SizeOfKeys(Live(cfg.fold, cases));
    SizeOfKeys(Live(cfg.fold, cases'));
    SizeOfKeys(cases);
    SizeOfKeys(cases');
  }

  lemma {:induction false} AfterChangesKeys(cases: map<string, Case>, changes: seq<Change>)
    ensures AfterChanges(cases, changes).Keys == cases.Keys
  {
    if changes != [] {
      AfterChangesKeys(cases, changes[..|changes| - 1]);
    }
  }

  /**
    Main result: documents rolled back under statistics that already count the first changes of a plan are consistent
    exactly when those changes leave the recount as it was; with keys free of colons, exactly when they leave every
    case's normalised observation as it was; and always when no change was counted.
   */
  lemma RolledBackConsistentIff(cfg: Config, s: State, plan: MutationPlan, k: nat, statistics: Snapshot)
    requires Consistent(cfg, s) && k <= |plan.changes|
    requires IsRecount(statistics, cfg.partition, cfg.fold, AfterChanges(CasesIn(s.tree), plan.changes[..k]))
    ensures var cases, cases' := CasesIn(s.tree), AfterChanges(CasesIn(s.tree), plan.changes[..k]);
            && (Consistent(cfg, State(s.tree, statistics)) <==> SameRecount(cfg, cases, cases'))
            && (PlainKeys(cfg.fold, cases) && PlainKeys(cfg.fold, cases') ==>
                  (SameRecount(cfg, cases, cases') <==> SameObserved(cfg.fold, cases, cases')))
            && (k == 0 ==> SameRecount(cfg, cases, cases'))
  {
    hide Stats, Live, CasesIn, ValidTree, IndexesCurrent, AfterChanges, PlainKeys, SameObserved;
    var cases, cases' := CasesIn(s.tree), AfterChanges(CasesIn(s.tree), plan.changes[..k]);
    AfterChangesKeys(cases, plan.changes[..k]);
    if PlainKeys(cfg.fold, cases) && PlainKeys(cfg.fold, cases') {
      SameRecountIff(cfg, cases, cases');
    }
    if k == 0 {
      NothingChanged(cases, plan.changes);
    }
  }

  lemma NothingChanged(cases: map<string, Case>, changes: seq<Change>)
    ensures AfterChanges(cases, changes[..0]) == cases
  {
  }

  /** A workspace with one case, whose facet a plan moves from one value to another. */
  function RegionCase(cfg: Config, region: string): Case {
    Case("c1", cfg.partition, "", [], [Field("region", [region])])
  }

  function RegionTree(cfg: Config): Tree {
    map[CasePath("c1") := CaseFile(RegionCase(cfg, "eu")), SchemaPath := SchemaFile(Schema([], ""), 0, 0)]
  }

  function RegionPlan(cfg: Config): MutationPlan {
    MutationPlan("m1", cfg.partition, None,
      [Change(cfg.partition, "c1", [Field("region", ["eu"])], [Field("region", ["us"])], ["region"])])
  }

  lemma RegionTreeShape(cfg: Config)
    ensures forall id :: CasePath(id) in RegionTree(cfg) <==> id == "c1"
    ensures FacetIndexPath !in RegionTree(cfg) && SemanticIndexPath !in RegionTree(cfg)
    ensures SchemaPath in RegionTree(cfg) && RegionTree(cfg)[SchemaPath].SchemaFile?
    ensures RegionTree(cfg)[CasePath("c1")] == CaseFile(RegionCase(cfg, "eu"))
  {
    hide RegionCase;
  }

  lemma RegionCaseValid(cfg: Config)
    ensures ValidCase(RegionCase(cfg, "eu"))
  {
    assert IsClean(["eu"]);
  }

  lemma RegionTreeValid(cfg: Config)
    ensures ValidTree(cfg.partition, RegionTree(cfg)) && IndexesCurrent(cfg.partition, RegionTree(cfg))
    ensures CasesIn(RegionTree(cfg)) == map["c1" := RegionCase(cfg, "eu")]
  {
    RegionTreeShape(cfg);
    RegionCaseValid(cfg);
    hide CasesIn, ValidCase, RegionTree, ListedIndex;
    var tree := RegionTree(cfg);
    forall id | CasePath(id) in tree ensures CaseAt(cfg.partition, tree, id) {}
    CasesInAt(cfg.partition, tree);
  }

  lemma RegionChanged(cfg: Config)
    ensures RegionCase(cfg, "us").id == "c1"
    ensures Changed(RegionCase(cfg, "eu"), RegionPlan(cfg).changes[0]) == RegionCase(cfg, "us")
  {
    var d := [Field("region", ["us"])];
    assert IsClean(["us"]) && IsFieldSet(d);
    FieldSetFixed(d);
  }

  lemma RegionAccepted(cfg: Config)
    requires cfg.partition != ""
    ensures Accepts(cfg, RegionTree(cfg), ApplyPlan(RegionPlan(cfg), 1))
  {
    hide AsMap;
  }

  lemma RegionEntries(cfg: Config, region: string)
    requires cfg.fold("region") == "region" && NormalValue(region)
    ensures KeyRef("facet", "region") in EntriesOf(cfg.fold, RegionCase(cfg, region))
    ensures EntriesOf(cfg.fold, RegionCase(cfg, region))[KeyRef("facet", "region")] == [region]
  {
    hide Entries, NormalizedMapping;
    StripIdentity("region");
    NormalAttained(cfg.fold, "region", region);
    EntriesAt(ObservationOf(cfg.fold, RegionCase(cfg, region)), "facet", "region");
  }

  /**
    A plan that fails after its one observation was replaced: the rolled back workspace no longer has its statistics.
   */
  lemma FailedSaveLeavesDrift(cfg: Config, statistics: Snapshot)
    requires cfg.fold("region") == "region" && cfg.partition != ""
    requires IsRecount(statistics, cfg.partition, cfg.fold,
              AfterChanges(CasesIn(RegionTree(cfg)), RegionPlan(cfg).changes))
    ensures Accepts(cfg, RegionTree(cfg), ApplyPlan(RegionPlan(cfg), 1))
    ensures !Consistent(cfg, State(RegionTree(cfg), statistics))
  {
    hide CasesIn, EntriesOf, Stats, Live, ValidTree, IndexesCurrent, RegionCase;
    RegionTreeValid(cfg);
    RegionChanged(cfg);
    var cases, c := CasesIn(RegionTree(cfg)), RegionCase(cfg, "us");
    RegionAccepted(cfg);
    assert RegionPlan(cfg).changes[..0] == [];
    assert AfterChanges(cases, RegionPlan(cfg).changes) == cases["c1" := c];
    RegionEntries(cfg, "eu");
    RegionEntries(cfg, "us");
    OneReplacedIff(cfg, cases, c);
  }
}
