/**
  One knowledge drain: internal/knowledge/workflow/drain_workflow.py.

  `Begin` is the code before the governance call is awaited and `Finish` the code after it; both
  run without another await.  Fresh decision and plan ids, the time, and what the governance
  service returned are parameters.
 */
module Drain {
  import opened Options
  import opened Fields
  import opened Statistics
  import opened Observations
  import opened StatisticsStore
  import opened Projection
  import opened GitRepository
  import opened CaseWorkspace
  import opened PartitionRuns
  import opened WritePath
  import opened MutationExecution
  import D = Decisions
  import P = DrainProtocol
  import G = Governance

  /** What the workflow was configured with. */
  datatype Setup = Setup(hasProjection: bool, hasExecutor: bool)

  datatype WorkflowResult =
    | NeedsReview(decisionId: string)
    | NothingToDo(decisionId: string)
    | Completed(decisionId: string, planId: string, revision: nat, schemaChanged: bool, appliedCaseIds: seq<string>)

  // ----- the plan

  function CaseIdsOf(documents: seq<Case>): seq<string> {
    seq(|documents|, i requires 0 <= i < |documents| => documents[i].id)
  }

  /** An accepted decision targets every listed case, otherwise the refresh scope or the affected cases. */
  ghost function Targets(tree: Tree, g: G.GovernanceResult, affected: seq<string>): seq<string> {
    if g.decision == G.AcceptedVerdict then CaseIdsOf(Documents(CasesIn(tree)))
    else if g.refreshCases != [] then g.refreshCases
    else affected
  }

  ghost function PlanOf(
    cfg: Config, setup: Setup, tree: Tree, g: G.GovernanceResult, affected: seq<string>, planId: string): MutationPlan {
    MutationPlan(planId, cfg.partition, G.PlanSchema(g),
      if setup.hasProjection && g.acceptedSchema.Some?
      then ChangesFor(cfg.lower, cfg.partition, g.acceptedSchema.value, CasesIn(tree), Targets(tree, g, affected))
        else [])
  }

  lemma AsMapSame(c: Case, change: Change)
    requires change.before == c.facets
    ensures AsMap(c.facets) == AsMap(change.before)
  {
  }

  /** A plan made from the current cases is one the executor accepts. */
  lemma PlanFits(
    cfg: Config, setup: Setup, tree: Tree, g: G.GovernanceResult, affected: seq<string>, planId: string, now: int)
    requires ValidTree(cfg.partition, tree) && planId != "" && cfg.partition != ""
    ensures Accepts(cfg, tree, ApplyPlan(PlanOf(cfg, setup, tree, g, affected, planId), now))
  {
    CasesInAt(cfg.partition, tree);
    var plan, targets := PlanOf(cfg, setup, tree, g, affected, planId), Targets(tree, g, affected);
    hide CasesIn, ValidCase, Project, ChangedKeys, Targets, ChangesFor, AsMap;
    forall change | change in plan.changes ensures ChangeApplies(cfg, tree, change) {
      PlanChanges(cfg.lower, cfg.partition, g.acceptedSchema.value, CasesIn(tree), targets, change);
      var id :| id in targets
        && ChangeFor(cfg.lower, cfg.partition, g.acceptedSchema.value, CasesIn(tree), id) == Some(change);
      AsMapSame(CasesIn(tree)[id], change);
    }
  }

  /** The tree a drain that proceeds leaves. */
  ghost function DrainedTree(
    cfg: Config, setup: Setup, tree: Tree, g: G.GovernanceResult, affected: seq<string>, planId: string, now: int): Tree
    requires ValidTree(cfg.partition, tree) && planId != "" && cfg.partition != ""
  {
    PlanFits(cfg, setup, tree, g, affected, planId, now);
    TreeAfter(cfg, tree, ApplyPlan(PlanOf(cfg, setup, tree, g, affected, planId), now))
  }

  /**
    Main result: for every evidence and every runtime result, the schema document a drain commits differs from the
    stored one exactly when the governance adopted another schema, which is then the one stored.
   */
  lemma DrainChangesSchemaOnlyIfAdopted(
    cfg: Config, setup: Setup, gov: G.Setup, evidence: G.Evidence, result: G.RuntimeResult, tree: Tree,
    affected: seq<string>,
    planId: string, now: int)
    requires ValidTree(cfg.partition, tree) && planId != "" && cfg.partition != ""
    requires G.Proceeds(G.Assessed(gov, evidence, SchemaIn(tree), result))
    ensures var after :=
              DrainedTree(cfg, setup, tree, G.Assessed(gov, evidence, SchemaIn(tree), result), affected, planId, now);
            && (At(after, SchemaPath) != At(tree, SchemaPath) <==>
                  exists s :: s != SchemaIn(tree) && G.Adopts(gov, evidence, result, s))
            && (forall s :: s != SchemaIn(tree) && G.Adopts(gov, evidence, result, s) ==>
                  At(after, SchemaPath) == Some(SchemaFile(s, tree[SchemaPath].createdAt, now)))
  {
    var g := G.Assessed(gov, evidence, SchemaIn(tree), result);
    hide G.Assessed, G.Adopts, G.PlanSchema, G.Proceeds, TreeAfter, ValidTree, SchemaSaved, ChangesFor, Targets;
    hide Accepts;
    PlanFits(cfg, setup, tree, g, affected, planId, now);
    PlanSchemaDocument(cfg, tree, PlanOf(cfg, setup, tree, g, affected, planId), now);
    G.SchemaChangesOnlyIfAdopted(gov, evidence, result, tree, now);
    SavesOnlyTheSchema(tree, G.PlanSchema(g), now);
  }

  lemma SavesOnlyTheSchema(tree: Tree, schema: Option<Schema>, now: int)
    requires SchemaPath in tree && tree[SchemaPath].SchemaFile?
    ensures SchemaApplied(tree, schema, now) == tree <==>
              At(SchemaApplied(tree, schema, now), SchemaPath) == At(tree, SchemaPath)
  {
  }

  // ----- which cases a drain projects

  /**
    The cases after a drain: with a projection, the listed cases when governance accepted, otherwise those of the
    refresh scope, otherwise the affected ones, are projected under the accepted schema where they are not already;
    nothing else of any case changes.
   */
  ghost predicate Refreshes(
    cfg: Config, setup: Setup, g: G.GovernanceResult, affected: seq<string>, cases: map<string, Case>,
    cases': map<string, Case>) {
    && cases'.Keys == cases.Keys
    && if !setup.hasProjection || g.acceptedSchema.None? then cases' == cases
       else
         forall id :: id in cases ==>
           var due := if g.decision == G.AcceptedVerdict then cases[id] in Documents(cases)
             else if g.refreshCases != [] then id in g.refreshCases else id in affected;
           var projected := Project(cfg.lower, cases[id].profile, g.acceptedSchema.value.definitions);
           cases'[id] == if due && !Projection.SameValues(cases[id].facets, projected)
             then cases[id].(facets := projected) else cases[id]
  }

  lemma TargetsAre(cfg: Config, tree: Tree, g: G.GovernanceResult, affected: seq<string>, id: string)
    requires ValidTree(cfg.partition, tree) && id in CasesIn(tree)
    ensures id in Targets(tree, g, affected) <==>
              if g.decision == G.AcceptedVerdict then CasesIn(tree)[id] in Documents(CasesIn(tree))
              else if g.refreshCases != [] then id in g.refreshCases else id in affected
  {
    CasesInAt(cfg.partition, tree);
    DocumentsValid(cfg.partition, CasesIn(tree));
    hide CasesIn, Documents, ValidCase, ValidTree;
    var documents := Documents(CasesIn(tree));
    if CasesIn(tree)[id] in documents {
      var i :| 0 <= i < |documents| && documents[i] == CasesIn(tree)[id];
      assert CaseIdsOf(documents)[i] == id;
    }
    if id in CaseIdsOf(documents) {
      var i :| 0 <= i < |documents| && CaseIdsOf(documents)[i] == id;
      assert documents[i] in documents;
    }
  }

  /** The cases named by the changes are the targets whose values differ from their projection. */
  lemma ChangedTargets(cfg: Config, tree: Tree, schema: Schema, targets: seq<string>, id: string)
    requires ValidTree(cfg.partition, tree) && id in CasesIn(tree)
    ensures var c := CasesIn(tree)[id];
            id in ChangeIds(ChangesFor(cfg.lower, cfg.partition, schema, CasesIn(tree), targets)) <==>
              id in targets && !Projection.SameValues(c.facets, Project(cfg.lower, c.profile, schema.definitions))
  {
    CasesInAt(cfg.partition, tree);
    ProjectedUnchanged(cfg.lower, CasesIn(tree)[id], schema);
    hide CasesIn, ValidTree, ValidCase, Project, ChangesFor, Projection.SameValues, ProjectOne, ChangeIds;
    var cases := CasesIn(tree);
    var changes := ChangesFor(cfg.lower, cfg.partition, schema, cases, targets);
    var change := ProjectOne(cfg.lower, cases[id], schema);
    assert ChangeFor(cfg.lower, cfg.partition, schema, cases, id) == change;
    if change.Some? && id in targets {
      PlanChanges(cfg.lower, cfg.partition, schema, cases, targets, change.value);
      ChangeNamed(changes, change.value);
    }
    if id in ChangeIds(changes) {
      var found := NamedChange(changes, id);
      PlanChanges(cfg.lower, cfg.partition, schema, cases, targets, found);
      var from :| from in targets && ChangeFor(cfg.lower, cfg.partition, schema, cases, from) == Some(found);
      ProjectedUnchanged(cfg.lower, cases[from], schema);
    }
  }

  lemma ChangeNamed(changes: seq<Change>, change: Change)
    requires change in changes
    ensures change.caseId in ChangeIds(changes)
  {
    var i :| 0 <= i < |changes| && changes[i] == change;
    assert ChangeIds(changes)[i] == change.caseId;
  }

  lemma NamedChange(changes: seq<Change>, id: string) returns (change: Change)
    requires id in ChangeIds(changes)
    ensures change in changes && change.caseId == id
  {
    var i :| 0 <= i < |changes| && ChangeIds(changes)[i] == id;
    change := changes[i];
  }

  lemma ChangesProject(cfg: Config, tree: Tree, schema: Schema, targets: seq<string>)
    requires ValidTree(cfg.partition, tree)
    ensures var cases, changes :=
              CasesIn(tree), ChangesFor(cfg.lower, cfg.partition, schema, CasesIn(tree), targets);
            Projects(cfg.lower, schema, cases, AfterChanges(cases, changes), ChangeIds(changes))
  {
    CasesInAt(cfg.partition, tree);
    hide CasesIn, ValidTree, ValidCase, Project, ChangesFor, ProjectOne, Projects, AfterChanges;
    var cases := CasesIn(tree);
    var changes := ChangesFor(cfg.lower, cfg.partition, schema, cases, targets);
    forall change | change in changes ensures IsChangeOf(cfg.lower, schema, cases, change) {
      PlanChanges(cfg.lower, cfg.partition, schema, cases, targets, change);
      var id :| id in targets && ChangeFor(cfg.lower, cfg.partition, schema, cases, id) == Some(change);
      ProjectedUnchanged(cfg.lower, cases[id], schema);
    }
    AfterChangesAt(cfg.lower, schema, cases, changes);
  }

  lemma ProjectsDue(cfg: Config, tree: Tree, schema: Schema, targets: seq<string>, id: string)
    requires ValidTree(cfg.partition, tree) && id in CasesIn(tree)
    ensures var cases := CasesIn(tree);
            var projected := Project(cfg.lower, cases[id].profile, schema.definitions);
            var cases' := AfterChanges(cases, ChangesFor(cfg.lower, cfg.partition, schema, cases, targets));
            && cases'.Keys == cases.Keys
            && cases'[id] == if id in targets && !Projection.SameValues(cases[id].facets, projected)
                 then cases[id].(facets := projected) else cases[id]
  {
    hide CasesIn, ValidTree, ChangesFor, Project, Projection.SameValues, AfterChanges, ProjectedCase, ChangeIds;
    ChangesProject(cfg, tree, schema, targets);
    ChangedTargets(cfg, tree, schema, targets, id);
    ProjectedIs(cfg.lower, schema, CasesIn(tree)[id]);
  }

  lemma PlanRefreshes(
    cfg: Config, setup: Setup, tree: Tree, g: G.GovernanceResult, affected: seq<string>, planId: string)
    requires ValidTree(cfg.partition, tree)
    ensures Refreshes(cfg, setup, g, affected, CasesIn(tree),
              AfterChanges(CasesIn(tree), PlanOf(cfg, setup, tree, g, affected, planId).changes))
  {
    hide CasesIn, ValidTree, Targets, ChangesFor, Project, Projection.SameValues, AfterChanges, Documents, G.PlanSchema;
    var cases, targets := CasesIn(tree), Targets(tree, g, affected);
    AfterChangesKeys(cases, PlanOf(cfg, setup, tree, g, affected, planId).changes);
    if setup.hasProjection && g.acceptedSchema.Some? {
      forall id | id in cases
        ensures id in targets <==>
                  if g.decision == G.AcceptedVerdict then cases[id] in Documents(cases)
                  else if g.refreshCases != [] then id in g.refreshCases else id in affected
      {
        TargetsAre(cfg, tree, g, affected, id);
      }
      forall id | id in cases
        ensures var projected := Project(cfg.lower, cases[id].profile, g.acceptedSchema.value.definitions);
                AfterChanges(cases, PlanOf(cfg, setup, tree, g, affected, planId).changes)[id] ==
                  if id in targets && !Projection.SameValues(cases[id].facets, projected)
                  then cases[id].(facets := projected) else cases[id]
      {
        ProjectsDue(cfg, tree, g.acceptedSchema.value, targets, id);
      }
    } else {
      NothingChanged(cases, []);
    }
  }

  /** Up to five hundred cases, an accepted drain leaves every case with the projection of its profile. */
  lemma RefreshesAll(
    cfg: Config, setup: Setup, g: G.GovernanceResult, affected: seq<string>, cases: map<string, Case>,
    cases': map<string, Case>)
    requires ValidCases(cfg.partition, cases) && Refreshes(cfg, setup, g, affected, cases, cases')
    requires setup.hasProjection && g.acceptedSchema.Some? && g.decision == G.AcceptedVerdict && |cases| <= 500
    ensures forall id :: id in cases ==> id in cases' && Projection.SameValues(cases'[id].facets,
              Project(cfg.lower, cases[id].profile, g.acceptedSchema.value.definitions))
  {
    hide Project, Projection.SameValues, Documents, ValidCases;
    DocumentsValid(cfg.partition, cases);
    forall d: seq<Field> ensures Projection.SameValues(d, d) {
      SameItself(d);
    }
  }

  /**
    Main result: a drain projects exactly the cases it owes a projection.  When governance accepted, these are the
    listed ones, so that up to five hundred cases every one of them ends with the projection of its profile.
   */
  lemma DrainSettlesProjection(
    cfg: Config, setup: Setup, tree: Tree, g: G.GovernanceResult, affected: seq<string>, planId: string, now: int)
    requires ValidTree(cfg.partition, tree) && planId != "" && cfg.partition != ""
    ensures var cases, cases' := CasesIn(tree), CasesIn(DrainedTree(cfg, setup, tree, g, affected, planId, now));
            && Refreshes(cfg, setup, g, affected, cases, cases')
            && (setup.hasProjection && g.acceptedSchema.Some? && g.decision == G.AcceptedVerdict && |cases| <= 500 ==>
                  forall id :: id in cases ==> id in cases' && Projection.SameValues(cases'[id].facets,
                    Project(cfg.lower, cases[id].profile, g.acceptedSchema.value.definitions)))
            && (setup.hasProjection && g.acceptedSchema.Some? ==>
                  [] == ChangesFor(
                    cfg.lower, cfg.partition, g.acceptedSchema.value, cases', Targets(tree, g, affected)))
  {
    hide CasesIn, ValidTree, Targets, ChangesFor, TreeAfter, Project, Projection.SameValues, AfterChanges, Accepts;
    hide Refreshes, G.PlanSchema;
    PlanFits(cfg, setup, tree, g, affected, planId, now);
    PlanEffects(cfg, tree, PlanOf(cfg, setup, tree, g, affected, planId), now);
    CasesInAt(cfg.partition, tree);
    PlanRefreshes(cfg, setup, tree, g, affected, planId);
    var cases, cases' := CasesIn(tree), CasesIn(DrainedTree(cfg, setup, tree, g, affected, planId, now));
    if setup.hasProjection && g.acceptedSchema.Some? {
      ProjectionSettles(cfg.lower, cfg.partition, g.acceptedSchema.value, cases, Targets(tree, g, affected));
      if g.decision == G.AcceptedVerdict && |cases| <= 500 {
        RefreshesAll(cfg, setup, g, affected, cases, cases');
      }
    }
  }

  /** What a drain reports: whether a schema was stored, which one is stored now, and which cases changed. */
  lemma DrainReports(
    cfg: Config, setup: Setup, tree: Tree, g: G.GovernanceResult, affected: seq<string>, planId: string, now: int)
    requires ValidTree(cfg.partition, tree) && planId != "" && cfg.partition != ""
    ensures SchemaPath in tree && tree[SchemaPath].SchemaFile?
    ensures var plan, after :=
              PlanOf(cfg, setup, tree, g, affected, planId), DrainedTree(cfg, setup, tree, g, affected, planId, now);
            && (plan.acceptedSchema.Some? <==>
                  g.acceptedSchema.Some?
                  && (g.proposal.newKeys != [] || g.proposal.updatedKeys != [] || g.proposal.removedKeys != []))
            && SchemaPath in after && after[SchemaPath].SchemaFile?
            && SchemaIn(after) == (if plan.acceptedSchema.Some? then g.acceptedSchema.value else SchemaIn(tree))
            && forall id :: id in ChangeIds(plan.changes) <==>
                 id in CasesIn(tree) && id in CasesIn(after) && CasesIn(after)[id] != CasesIn(tree)[id]
  {
    hide CasesIn, ValidTree, Targets, ChangesFor, TreeAfter, Project, Projection.SameValues, AfterChanges, Accepts;
    hide ValidCase, ProjectedCase, Documents, ChangeIds;
    PlanFits(cfg, setup, tree, g, affected, planId, now);
    SchemaLeft(cfg, tree, ApplyPlan(PlanOf(cfg, setup, tree, g, affected, planId), now));
    PlanEffects(cfg, tree, PlanOf(cfg, setup, tree, g, affected, planId), now);
    var cases, targets := CasesIn(tree), Targets(tree, g, affected);
    if setup.hasProjection && g.acceptedSchema.Some? {
      var schema := g.acceptedSchema.value;
      ChangesProject(cfg, tree, schema, targets);
      var changes := ChangesFor(cfg.lower, cfg.partition, schema, cases, targets);
      forall id ensures id in ChangeIds(changes) <==> id in cases && AfterChanges(cases, changes)[id] != cases[id] {
        ChangedCase(cfg, tree, schema, targets, id);
      }
    } else {
      NothingChanged(cases, []);
      NothingNamed();
    }
  }

  lemma NothingNamed()
    ensures ChangeIds([]) == []
  {
  }

  lemma ChangedCase(cfg: Config, tree: Tree, schema: Schema, targets: seq<string>, id: string)
    requires ValidTree(cfg.partition, tree)
    ensures var cases, changes :=
              CasesIn(tree), ChangesFor(cfg.lower, cfg.partition, schema, CasesIn(tree), targets);
            && AfterChanges(cases, changes).Keys == cases.Keys
            && (id in ChangeIds(changes) <==> id in cases && AfterChanges(cases, changes)[id] != cases[id])
  {
    hide CasesIn, ValidTree, ChangesFor, Project, Projection.SameValues, AfterChanges, ProjectedCase, ChangeIds;
    var cases := CasesIn(tree);
    var changes := ChangesFor(cfg.lower, cfg.partition, schema, cases, targets);
    ChangesProject(cfg, tree, schema, targets);
    if id in cases {
      ChangedTargets(cfg, tree, schema, targets, id);
      ProjectedIs(cfg.lower, schema, cases[id]);
      SameItself(cases[id].facets);
    } else {
      ChangedAreCases(cfg, tree, schema, targets, id);
    }
  }

  lemma ChangedAreCases(cfg: Config, tree: Tree, schema: Schema, targets: seq<string>, id: string)
    requires ValidTree(cfg.partition, tree)
    ensures id in ChangeIds(ChangesFor(cfg.lower, cfg.partition, schema, CasesIn(tree), targets)) ==>
              id in CasesIn(tree)
  {
    CasesInAt(cfg.partition, tree);
    hide CasesIn, ValidTree, ValidCase, Project, ChangesFor, ProjectOne;
    var changes := ChangesFor(cfg.lower, cfg.partition, schema, CasesIn(tree), targets);
    if id in ChangeIds(changes) {
      var found := NamedChange(changes, id);
      PlanChanges(cfg.lower, cfg.partition, schema, CasesIn(tree), targets, found);
      var from :| from in targets && ChangeFor(cfg.lower, cfg.partition, schema, CasesIn(tree), from) == Some(found);
      ProjectedUnchanged(cfg.lower, CasesIn(tree)[from], schema);
    }
  }

  lemma ProjectedIs(lower: string -> string, schema: Schema, c: Case)
    ensures ProjectedCase(lower, schema, c) == c.(facets := Project(lower, c.profile, schema.definitions))
  {
  }

  // ----- decisions in an available partition

  function Saved(id: string, partition: string, history: seq<D.Change>): D.Record
    requires history != []
  {
    D.Record(id, partition, history[|history| - 1].target, history)
  }

  const ACCEPTING := [D.Change(None, D.Accepted)]
  const APPLYING := [D.Change(None, D.Accepted), D.Change(Some(D.Accepted), D.Applying)]

  function Ended(status: D.Status): seq<D.Change> {
    APPLYING + [D.Change(Some(D.Applying), status)]
  }

  /** The book with one more record; only a review takes the partition's lock. */
  function Recorded(b: D.Book, id: string, partition: string, history: seq<D.Change>): D.Book
    requires history != []
  {
    D.Book(b.records[id := Saved(id, partition, history)],
      if history[|history| - 1].target == D.RequiresReview then b.locks[partition := id] else b.locks)
  }

  /** In an available partition a fresh decision is always saved, and takes the lock exactly when it needs review. */
  lemma CreatesFreely(b: D.Book, id: string, partition: string, status: D.Status)
    requires D.Available(b, partition) && id !in b.records
    ensures var r := D.Record(id, partition, status, []);
            D.Creatable(b, r) && D.Create(b, r) == Ok(Recorded(b, id, partition, [D.Change(None, status)]))
  {
  }

  /** In an available partition an allowed transition is never rejected and leaves the locks alone. */
  lemma TransitionsFreely(b: D.Book, id: string, partition: string, history: seq<D.Change>, target: D.Status)
    requires D.Available(b, partition) && history != []
    requires id in b.records && b.records[id] == Saved(id, partition, history)
    requires D.Allowed(history[|history| - 1].target, target) && target != D.RequiresReview
    ensures D.Transition(b, id, target) ==
              Ok(Recorded(b, id, partition, history + [D.Change(Some(history[|history| - 1].target), target)]))
  {
  }

  lemma RecordedTwice(b: D.Book, id: string, partition: string, history: seq<D.Change>, history': seq<D.Change>)
    requires history != [] && history' != [] && history[|history| - 1].target != D.RequiresReview
    ensures Recorded(Recorded(b, id, partition, history), id, partition, history') ==
              Recorded(b, id, partition, history')
  {
  }

  lemma RecordedSays(b: D.Book, id: string, partition: string, history: seq<D.Change>)
    requires history != []
    ensures var b' := Recorded(b, id, partition, history);
            && id in b'.records && b'.records == b.records[id := b'.records[id]]
            && b'.records[id].partition == partition && b'.records[id].history == history
            && b'.records[id].status == history[|history| - 1].target
            && b'.locks == if b'.records[id].status == D.RequiresReview then b.locks[partition := id] else b.locks
  {
  }

  // ----- the workflow

  class DrainWorkflow {
    const setup: Setup
    const target: Partition
    const executor: MutationExecutor
    const decisions: D.DecisionService

    ghost predicate Wired()
      reads this
    {
      && executor.target == target && target.cfg.partition != ""
      && (decisions as object) != target.repo && (decisions as object) != target.statistics
      && (decisions.reviewLock as object) != target.repo && (decisions.reviewLock as object) != target.statistics
    }

    constructor (setup: Setup, target: Partition, executor: MutationExecutor, decisions: D.DecisionService)
      requires executor.target == target && target.cfg.partition != ""
      ensures this.setup == setup && this.target == target && this.executor == executor && this.decisions == decisions
      ensures Wired()
    {
      this.setup := setup;
      this.target := target;
      this.executor := executor;
      this.decisions := decisions;
    }

    /** Up to the governance call: a partition in review, or an unclean workspace, stops the drain. */
    method Begin() returns (r: Result<(nat, Schema)>)
      requires target.Ready() && D.Inv(decisions.Contents())
      ensures r.Ok? <==> D.Available(decisions.Contents(), target.cfg.partition) && Clean(target.repo.Contents())
      ensures r.Ok? ==> r.value.0 == |target.repo.history| - 1
      ensures r.Ok? ==> SchemaPath in target.repo.work && target.repo.work[SchemaPath].SchemaFile?
      ensures r.Ok? ==> r.value.1 == SchemaIn(target.repo.work)
    {
      target.ReadyCases();
      var available := decisions.EnsurePartitionAvailable(target.cfg.partition);
      if available.Err? {
        return Err(available.message);
      }
      CleanIffNothingChanged(target.repo.Contents());
      var revision, changed := target.repo.Status();
      if changed != {} {
        return Err("Knowledge governance requires a clean working tree");
      }
      r := Ok((revision, SchemaIn(target.repo.work)));
    }

    method PlanMutation(g: G.GovernanceResult, affected: seq<string>, planId: string) returns (plan: MutationPlan)
      requires ValidTree(target.cfg.partition, target.repo.work)
      ensures plan == PlanOf(target.cfg, setup, target.repo.work, g, affected, planId)
    {
      hide ChangesFor, SettledFor, SkippedFor, Documents, CasesIn;
      var targets: seq<string>;
      if g.decision == G.AcceptedVerdict {
        var documents := ListByPartition(CasesIn(target.repo.work));
        targets := CaseIdsOf(documents);
      } else if g.refreshCases != [] {
        targets := g.refreshCases;
      } else {
        targets := affected;
      }
      var changes: seq<Change> := [];
      if setup.hasProjection && g.acceptedSchema.Some? {
        var projection := PlanProjection(
          target.cfg.lower, target.cfg.partition, g.acceptedSchema.value, CasesIn(target.repo.work), targets);
        changes := projection.changes;
      }
      plan := MutationPlan(planId, target.cfg.partition, G.PlanSchema(g), changes);
    }

    /** The single save of a drain that does not mutate anything. */
    method SaveDecision(decisionId: string, status: D.Status) returns (r: Result<()>)
      requires D.Inv(decisions.Contents()) && decisionId !in decisions.records
      requires D.Available(decisions.Contents(), target.cfg.partition)
      modifies decisions, decisions.reviewLock
      ensures r.Ok? && D.Inv(decisions.Contents())
      ensures decisions.Contents() ==
                Recorded(old(decisions.Contents()), decisionId, target.cfg.partition, [D.Change(None, status)])
    {
      hide D.Inv, Recorded;
      CreatesFreely(decisions.Contents(), decisionId, target.cfg.partition, status);
      r := decisions.CreateRecord(D.Record(decisionId, target.cfg.partition, status, []));
    }

    method AdvanceDecision(decisionId: string, status: D.Status, ghost history: seq<D.Change>) returns (r: Result<()>)
      requires D.Inv(decisions.Contents()) && D.Available(decisions.Contents(), target.cfg.partition) && history != []
      requires decisionId in decisions.records
      requires decisions.records[decisionId] == Saved(decisionId, target.cfg.partition, history)
      requires D.Allowed(history[|history| - 1].target, status) && status != D.RequiresReview
      modifies decisions, decisions.reviewLock
      ensures r.Ok? && D.Inv(decisions.Contents())
      ensures decisions.Contents() == Recorded(old(decisions.Contents()), decisionId, target.cfg.partition,
                history + [D.Change(Some(history[|history| - 1].target), status)])
    {
      hide D.Inv, Recorded;
      TransitionsFreely(decisions.Contents(), decisionId, target.cfg.partition, history, status);
      r := decisions.TransitionRecord(decisionId, status);
    }

    /** From the state before, the plan has been applied and is HEAD, with at most one new revision. */
    ghost predicate Published(r0: Repo<Content>, s0: State, plan: MutationPlan, now: int)
      reads this, target, target.repo, target.statistics
    {
      && StepsTo(target.cfg, s0, ApplyPlan(plan, now), target.Current()) && target.Ready()
      && Clean(target.repo.Contents())
      && (target.repo.history == r0.history || target.repo.history == r0.history + [target.repo.work])
    }

    /**
      HEAD, index and working tree are the ones from before, whichever writes went through.  The statistics, which no
      rollback covers, count the changes whose observations had been replaced, so that the state is consistent exactly
      when those changes leave the recount as it was.
     */
    ghost predicate Undone(
      r0: Repo<Content>, stored0: Option<Snapshot>, plan: MutationPlan, now: int, writes: Outcomes)
      reads this, target, target.repo, target.statistics
    {
      && target.repo.Contents() == r0 && target.Wired()
      && if Clean(r0) && Accepts(target.cfg, r0.work, ApplyPlan(plan, now)) then
           var k := Replaced(plan, writes, |plan.changes|);
           var cases, cases' := CasesIn(r0.work), AfterChanges(CasesIn(r0.work), plan.changes[..k]);
           && target.statistics.Recounts(cases') && (k == 0 ==> target.statistics.stored == stored0)
           && (target.Ready() <==> SameRecount(target.cfg, cases, cases'))
         else target.statistics.stored == stored0
    }

    /** `rollback` with every changed path registered. */
    method RollBack(transaction: MutationTransaction<Content>, ghost r0: Repo<Content>)
      requires transaction.repo == target.repo && !transaction.closed
                && transaction.baseRevision == |target.repo.history| - 1
      requires Clean(r0) && target.repo.history == r0.history && target.repo.index == r0.index
      modifies transaction, target.repo`work
      ensures target.repo.Contents() == r0
    {
      hide ChangedPaths, RolledBack;
      ghost var written := target.repo.Contents();
      var _, changed := target.repo.Status();
      transaction.RegisterPaths(changed);
      RollbackRestores(written, transaction.paths);
      transaction.Rollback();
    }

    /** `commit`, which may fail before it stages anything: what the plan wrote becomes HEAD. */
    method CommitPlan(
      transaction: MutationTransaction<Content>, plan: MutationPlan, updated: set<Path>, write: Outcome,
      ghost r0: Repo<Content>)
      returns (r: Result<nat>)
      requires transaction.repo == target.repo && !transaction.closed && transaction.paths == PlannedPaths(plan)
      requires transaction.baseRevision == |target.repo.history| - 1
      requires Clean(r0) && target.repo.history == r0.history && target.repo.index == r0.index
      requires AgreeOutside(r0.work, target.repo.work, PlannedPaths(plan))
      modifies transaction, target.repo
      ensures r.Ok? <==> write.Completes?
      ensures r.Err? ==> target.repo.Contents() == old(target.repo.Contents()) && !transaction.closed
      ensures r.Ok? ==> target.repo.work == old(target.repo.work) && Clean(target.repo.Contents())
      ensures r.Ok? ==> r.value == |target.repo.history| - 1
      ensures r.Ok? ==> target.repo.history == r0.history || target.repo.history == r0.history + [target.repo.work]
    {
      hide PlannedPaths, AgreeOutside, ChangedPaths, Committed;
      transaction.RegisterPaths(updated);
      if write.Raises? {
        return Err("commit failed");
      }
      WithinPlanned(r0, target.repo.Contents(), plan, transaction.paths);
      var commit := transaction.Commit();
      r := Ok(commit.value.revision);
    }

    /**
      The transaction around applying the plan.  Either HEAD becomes the tree the plan leads to and the tree is clean,
      or the call raises, after any prefix of its writes, and HEAD, index and working tree are what they were.
     */
    method ApplyInTransaction(plan: MutationPlan, now: int, writes: Outcomes) returns (r: Result<(nat, ApplyResult)>)
      requires Wired() && target.Ready() && plan.partition == target.cfg.partition
      modifies target.repo, target.statistics
      ensures r.Ok? <==>
                && old(Clean(target.repo.Contents()))
                && Accepts(target.cfg, old(target.repo.work), ApplyPlan(plan, now))
                && Passes(plan, writes, ApplyWrites(plan) + 1)
      ensures r.Ok? ==> Published(old(target.repo.Contents()), old(target.Current()), plan, now)
      ensures r.Ok? ==> r.value.0 == |target.repo.history| - 1 && r.value.1.updatedCaseIds == ChangeIds(plan.changes)
      ensures r.Err? ==> Undone(old(target.repo.Contents()), old(target.statistics.stored), plan, now, writes)
    {
      hide Consistent, StepsTo, Accepts, ChangedPaths, PlannedPaths, AgreeOutside, ChangeIds, Passes, Replaced, Clean;
      hide TreeAfter, SameRecount, CasesIn, AfterChanges, IsRecount, ValidTree;
      ghost var r0, before := target.repo.Contents(), target.Current();
      ghost var k := Replaced(plan, writes, |plan.changes|);
      CommitPasses(plan, writes);
      var begun := BeginTransaction(target.repo);
      if begun.Err? {
        return Err(begun.message);
      }
      var transaction := begun.value;
      transaction.RegisterPaths(PlannedPaths(plan));
      var applied := executor.Apply(plan, now, writes);
      if applied.Ok? {
        var commit := CommitPlan(transaction, plan, applied.value.updatedPaths, writes(ApplyWrites(plan)), r0);
        if commit.Ok? {
          return Ok((commit.value, applied.value));
        }
      }
      RollBack(transaction, r0);
      if Accepts(target.cfg, r0.work, ApplyPlan(plan, now)) {
        RolledBackConsistentIff(target.cfg, before, plan, k, target.statistics.Current());
      }
      r := Err("mutation plan could not be applied");
    }

    /** Governance lets the drain go on, and there is an executor to apply its plan. */
    predicate Mutates(governance: Option<G.GovernanceResult>) {
      && governance.Some? && !governance.value.requiresReview && governance.value.decision != G.RequiresReviewVerdict
      && setup.hasExecutor
    }

    /** The accepted decision, at once turned into an applying one. */
    method StartApplying(decisionId: string)
      requires D.Inv(decisions.Contents()) && decisionId !in decisions.records
      requires D.Available(decisions.Contents(), target.cfg.partition)
      modifies decisions, decisions.reviewLock
      ensures D.Inv(decisions.Contents())
      ensures decisions.Contents() == Recorded(old(decisions.Contents()), decisionId, target.cfg.partition, APPLYING)
    {
      hide D.Inv;
      ghost var b := decisions.Contents();
      var saved := SaveDecision(decisionId, D.Accepted);
      assert ACCEPTING + [D.Change(Some(D.Accepted), D.Applying)] == APPLYING;
      var applying := AdvanceDecision(decisionId, D.Applying, ACCEPTING);
      RecordedTwice(b, decisionId, target.cfg.partition, ACCEPTING, APPLYING);
    }

    method EndApplying(decisionId: string, status: D.Status, ghost b: D.Book)
      requires D.Inv(decisions.Contents()) && D.Available(b, target.cfg.partition)
      requires decisions.Contents() == Recorded(b, decisionId, target.cfg.partition, APPLYING)
      requires status == D.Applied || status == D.Failed
      modifies decisions, decisions.reviewLock
      ensures D.Inv(decisions.Contents())
      ensures decisions.Contents() == Recorded(b, decisionId, target.cfg.partition, Ended(status))
    {
      hide D.Inv;
      var ended := AdvanceDecision(decisionId, status, APPLYING);
      RecordedTwice(b, decisionId, target.cfg.partition, APPLYING, Ended(status));
    }

    /** From the accepted decision over applying to applied or failed. */
    method Mutate(
      plan: MutationPlan, decisionId: string, now: int, writes: Outcomes) returns (r: Result<(nat, ApplyResult)>)
      requires Wired() && target.Ready() && D.Inv(decisions.Contents()) && plan.partition == target.cfg.partition
      requires decisionId !in decisions.records && D.Available(decisions.Contents(), target.cfg.partition)
      modifies target.repo, target.statistics, decisions, decisions.reviewLock
      ensures D.Inv(decisions.Contents())
      ensures decisions.Contents() == Recorded(old(decisions.Contents()), decisionId, target.cfg.partition,
                Ended(if r.Ok? then D.Applied else D.Failed))
      ensures r.Ok? <==>
                && old(Clean(target.repo.Contents()))
                && Accepts(target.cfg, old(target.repo.work), ApplyPlan(plan, now))
                && Passes(plan, writes, ApplyWrites(plan) + 1)
      ensures r.Ok? ==> Published(old(target.repo.Contents()), old(target.Current()), plan, now)
      ensures r.Ok? ==> r.value.0 == |target.repo.history| - 1 && r.value.1.updatedCaseIds == ChangeIds(plan.changes)
      ensures r.Err? ==> Undone(old(target.repo.Contents()), old(target.statistics.stored), plan, now, writes)
    {
      hide Consistent, D.Inv, D.Chain, Clean, Accepts, ChangeIds, Passes, Published, Undone, Recorded, Ended;
      ghost var b, r0, s0, stored0 :=
        decisions.Contents(), target.repo.Contents(), target.Current(), target.statistics.stored;
      StartApplying(decisionId);
      assert unchanged(target.repo) && unchanged(target.statistics);
      r := ApplyInTransaction(plan, now, writes);
      label Applied:
      EndApplying(decisionId, if r.Ok? then D.Applied else D.Failed, b);
      assert unchanged@Applied(target.repo) && unchanged@Applied(target.statistics);
    }

    /** The single save that ends a drain which does not mutate anything. */
    method Stop(decisionId: string, status: D.Status) returns (r: Result<WorkflowResult>)
      requires D.Inv(decisions.Contents()) && decisionId !in decisions.records
      requires D.Available(decisions.Contents(), target.cfg.partition)
      requires status == D.RequiresReview || status == D.NoChange
      modifies decisions, decisions.reviewLock
      ensures D.Inv(decisions.Contents())
      ensures decisions.Contents() ==
                Recorded(old(decisions.Contents()), decisionId, target.cfg.partition, [D.Change(None, status)])
      ensures r == Ok(if status == D.RequiresReview then NeedsReview(decisionId) else NothingToDo(decisionId))
    {
      hide D.Inv, Recorded;
      var saved := SaveDecision(decisionId, status);
      r := Ok(if status == D.RequiresReview then NeedsReview(decisionId) else NothingToDo(decisionId));
    }

    /** Governance lets the drain go on, and there is an executor to apply its plan. */
    method Proceed(
      g: G.GovernanceResult, affected: seq<string>, decisionId: string, planId: string, now: int, writes: Outcomes)
      returns (r: Result<WorkflowResult>)
      requires Wired() && target.Ready() && D.Inv(decisions.Contents()) && planId != ""
      requires decisionId !in decisions.records && D.Available(decisions.Contents(), target.cfg.partition)
      modifies target.repo, target.statistics, decisions, decisions.reviewLock
      ensures D.Inv(decisions.Contents())
      ensures decisions.Contents() == Recorded(old(decisions.Contents()), decisionId, target.cfg.partition,
                Ended(if r.Ok? then D.Applied else D.Failed))
      ensures ValidTree(target.cfg.partition, old(target.repo.work)) && target.cfg.partition != ""
      ensures var plan := old(PlanOf(target.cfg, setup, target.repo.work, g, affected, planId));
              && (r.Ok? <==> old(Clean(target.repo.Contents())) && Passes(plan, writes, ApplyWrites(plan) + 1))
              && (r.Ok? ==> Published(old(target.repo.Contents()), old(target.Current()), plan, now))
              && (r.Ok? ==>
                    target.repo.work == DrainedTree(target.cfg, setup, old(target.repo.work), g, affected, planId, now))
              && (r.Ok? ==> r.value == Completed(
                    decisionId, planId, |target.repo.history| - 1, plan.acceptedSchema.Some?, ChangeIds(plan.changes)))
              && (r.Err? ==> Undone(old(target.repo.Contents()), old(target.statistics.stored), plan, now, writes))
    {
      hide Consistent, D.Inv, D.Chain, Clean, PlanOf, Accepts, G.PlanSchema, TreeAfter;
      hide Passes, Undone, Recorded, Ended, ChangeIds, ValidTree, StatisticsAfter;
      target.ReadyCases();
      PlanFits(target.cfg, setup, target.repo.work, g, affected, planId, now);
      PlanNames(target.cfg, setup, target.repo.work, g, affected, planId);
      var plan := PlanMutation(g, affected, planId);
      var applied := Mutate(plan, decisionId, now, writes);
      r := if applied.Err? then Err(applied.message)
        else Ok(Completed(decisionId, planId, applied.value.0, plan.acceptedSchema.Some?,
               applied.value.1.updatedCaseIds));
    }

    /**
      From the governance result to the end, in a partition without a review.  None of the drain's own saves and
      transitions is rejected; the plan is applied and committed as a whole, or no document of it remains.
     */
    method Finish(
      governance: Option<G.GovernanceResult>, affected: seq<string>, decisionId: string, planId: string, now: int,
      writes: Outcomes)
      returns (r: Result<WorkflowResult>)
      requires Wired() && target.Ready() && D.Inv(decisions.Contents()) && planId != ""
      requires decisionId !in decisions.records && D.Available(decisions.Contents(), target.cfg.partition)
      modifies target.repo, target.statistics, decisions, decisions.reviewLock
      ensures D.Inv(decisions.Contents())
      ensures r == Ok(NeedsReview(decisionId)) <==>
                || governance.None? || governance.value.requiresReview
                || (governance.value.decision != G.RequiresReviewVerdict && !setup.hasExecutor)
      ensures r == Ok(NothingToDo(decisionId)) <==>
                && governance.Some? && !governance.value.requiresReview
                && governance.value.decision == G.RequiresReviewVerdict
      ensures r.Ok? && !r.value.Completed? ==>
                && (r.value.NeedsReview? || r.value.NothingToDo?) && r.value.decisionId == decisionId
                && target.repo.Contents() == old(target.repo.Contents())
                && target.statistics.stored == old(target.statistics.stored)
      ensures decisionId in decisions.records
                && decisions.records == old(decisions.records)[decisionId := decisions.records[decisionId]]
      ensures var record := decisions.records[decisionId];
              && record.partition == target.cfg.partition
              && record.history == (match r
                   case Ok(NeedsReview(_)) => [D.Change(None, D.RequiresReview)]
                   case Ok(NothingToDo(_)) => [D.Change(None, D.NoChange)]
                   case Ok(Completed(_, _, _, _, _)) => Ended(D.Applied)
                   case Err(_) => Ended(D.Failed))
              && record.status == record.history[|record.history| - 1].target
              && decisions.Contents().locks ==
                   if record.status == D.RequiresReview
                   then old(decisions.Contents().locks)[target.cfg.partition := decisionId]
                   else old(decisions.Contents().locks)
      ensures r.Err? || r.value.Completed? ==>
                && governance.Some?
                && var plan := old(PlanOf(target.cfg, setup, target.repo.work, governance.value, affected, planId));
                   && (r.Ok? <==> old(Clean(target.repo.Contents())) && Passes(plan, writes, ApplyWrites(plan) + 1))
                   && (r.Ok? ==> Published(old(target.repo.Contents()), old(target.Current()), plan, now))
                   && (r.Err? ==> Undone(old(target.repo.Contents()), old(target.statistics.stored), plan, now, writes))
      ensures r.Ok? && r.value.Completed? ==>
                Effected(governance, affected, old(target.repo.work), target.repo.work, r.value)
      ensures r.Ok? && r.value.Completed? ==>
                r.value.decisionId == decisionId && r.value.planId == planId
                  && r.value.revision == |target.repo.history| - 1
    {
      hide Consistent, D.Inv, D.Chain, Clean, PlanOf, Accepts, G.PlanSchema, G.HasSchemaChange, Effected, DrainedTree;
      hide Passes, Published, Undone, Recorded, ChangeIds, ValidTree, CasesIn;
      ghost var b, work := decisions.Contents(), target.repo.work;
      if governance.None? || !G.Proceeds(governance.value) {
        var status := if governance.Some? && !governance.value.requiresReview then D.NoChange else D.RequiresReview;
        r := Stop(decisionId, status);
        RecordedSays(b, decisionId, target.cfg.partition, [D.Change(None, status)]);
      } else if !setup.hasExecutor {
        r := Stop(decisionId, D.RequiresReview);
        RecordedSays(b, decisionId, target.cfg.partition, [D.Change(None, D.RequiresReview)]);
      } else {
        r := Proceed(governance.value, affected, decisionId, planId, now, writes);
        RecordedSays(b, decisionId, target.cfg.partition, Ended(if r.Ok? then D.Applied else D.Failed));
        if r.Ok? {
          ProceedEffects(governance, affected, work, target.repo.work, planId, now, r.value);
        }
      }
    }

    /** What a completed drain did to the cases and the schema, and what it reports of that. */
    ghost predicate Effected(
      governance: Option<G.GovernanceResult>, affected: seq<string>, before: Tree, after: Tree,
      result: WorkflowResult) {
      && governance.Some? && result.Completed?
      && var g, cases, cases' := governance.value, CasesIn(before), CasesIn(after);
         && Refreshes(target.cfg, setup, g, affected, cases, cases')
         && (setup.hasProjection && g.acceptedSchema.Some? && g.decision == G.AcceptedVerdict && |cases| <= 500 ==>
               forall id :: id in cases ==> id in cases' && Projection.SameValues(cases'[id].facets,
                 Project(target.cfg.lower, cases[id].profile, g.acceptedSchema.value.definitions)))
         && (forall id :: id in result.appliedCaseIds <==> id in cases && id in cases' && cases'[id] != cases[id])
         && (result.schemaChanged <==>
               g.acceptedSchema.Some?
               && (g.proposal.newKeys != [] || g.proposal.updatedKeys != [] || g.proposal.removedKeys != []))
         && SchemaPath in before && before[SchemaPath].SchemaFile? && SchemaPath in after
         && after[SchemaPath].SchemaFile?
         && SchemaIn(after) == if result.schemaChanged then g.acceptedSchema.value else SchemaIn(before)
    }

    lemma ProceedEffects(
      governance: Option<G.GovernanceResult>, affected: seq<string>, before: Tree, after: Tree, planId: string,
      now: int,
      result: WorkflowResult)
      requires governance.Some? && ValidTree(target.cfg.partition, before) && planId != "" && target.cfg.partition != ""
      requires after == DrainedTree(target.cfg, setup, before, governance.value, affected, planId, now)
      requires result.Completed?
      requires var plan := PlanOf(target.cfg, setup, before, governance.value, affected, planId);
              result.schemaChanged == plan.acceptedSchema.Some? && result.appliedCaseIds == ChangeIds(plan.changes)
      ensures Effected(governance, affected, before, after, result)
    {
      hide CasesIn, ValidTree, DrainedTree, PlanOf, Refreshes, ChangeIds, Project, Projection.SameValues;
      DrainSettlesProjection(target.cfg, setup, before, governance.value, affected, planId, now);
      DrainReports(target.cfg, setup, before, governance.value, affected, planId, now);
    }
  }

  // ----- the drain as steps of the protocol

  /** The steps lead from one state to the other, each enabled where it is taken. */
  ghost predicate Leads(s: P.State, actions: seq<P.Action>, s': P.State)
    decreases |actions|
  {
    if actions == [] then s' == s
    else P.Enabled(s, actions[0]) && Leads(P.After(s, actions[0]), actions[1..], s')
  }

  function Writes(t: nat, n: nat): seq<P.Action> {
    seq(n, _ => P.WriteFile(t))
  }

  /**
    A drain at work in the protocol meets the precondition of `Finish`, whatever happened while it awaited governance.
   */
  lemma AssessingMayFinish(s: P.State, t: nat)
    requires P.Inv(s) && t in s.drains
    ensures D.Inv(s.book) && D.Available(s.book, P.PartitionOf(s, t))
  {
    hide D.Inv;
    assert P.DrainOk(s, t);
  }

  /** Between taking up a plan and ending it, any number of file writes leave the decisions alone. */
  lemma {:induction false} WritesLead(s: P.State, t: nat, n: nat, last: P.Action) returns (s': P.State)
    requires P.Inv(s) && t in s.drains && s.drains[t].Applying? && last.EndApplying? && last.task == t
    ensures Leads(s, Writes(t, n) + [last], s') && s'.book == P.After(s, last).book && t !in s'.drains
    decreases n
  {
    hide P.Inv, D.Inv;
    var actions := Writes(t, n) + [last];
    if n == 0 {
      assert actions == [last];
      s' := P.After(s, last);
      assert actions[1..] == [];
    } else {
      P.StepKeepsInv(s, P.WriteFile(t));
      s' := WritesLead(P.After(s, P.WriteFile(t)), t, n - 1, last);
      assert actions[0] == P.WriteFile(t) && actions[1..] == Writes(t, n - 1) + [last];
    }
  }

  /** A drain at work on its decision, whose history is known. */
  ghost predicate AtWork(s: P.State, t: nat, p: string, id: string, phase: P.Phase, b: D.Book, history: seq<D.Change>)
    requires history != []
  {
    && P.Inv(s) && t in s.drains && s.drains[t] == phase && P.PartitionOf(s, t) == p
    && s.book == Recorded(b, id, p, history)
  }

  lemma AcceptStep(s: P.State, t: nat, p: string, id: string)
    requires P.Inv(s) && t in s.drains && s.drains[t].Assessing? && id !in s.book.records && P.PartitionOf(s, t) == p
    ensures P.Enabled(s, P.AcceptPlan(t, id))
    ensures AtWork(P.After(s, P.AcceptPlan(t, id)), t, p, id, P.Accepted(id), s.book, ACCEPTING)
  {
    hide P.Inv, D.Inv, D.Create, D.Available;
    AssessingMayFinish(s, t);
    CreatesFreely(s.book, id, p, D.Accepted);
    P.StepKeepsInv(s, P.AcceptPlan(t, id));
  }

  lemma ApplyStep(s: P.State, t: nat, p: string, id: string, b: D.Book)
    requires AtWork(s, t, p, id, P.Accepted(id), b, ACCEPTING)
    ensures P.Enabled(s, P.StartApplying(t))
    ensures AtWork(P.After(s, P.StartApplying(t)), t, p, id, P.Applying(id), b, APPLYING)
  {
    hide P.Inv, D.Inv, D.Transition, D.Available;
    AssessingMayFinish(s, t);
    TransitionsFreely(s.book, id, p, ACCEPTING, D.Applying);
    assert ACCEPTING + [D.Change(Some(D.Accepted), D.Applying)] == APPLYING;
    P.StepKeepsInv(s, P.StartApplying(t));
    RecordedTwice(b, id, p, ACCEPTING, APPLYING);
  }

  lemma EndStep(s: P.State, t: nat, p: string, id: string, ok: bool, b: D.Book)
    requires AtWork(s, t, p, id, P.Applying(id), b, APPLYING)
    ensures P.Enabled(s, P.EndApplying(t, ok))
    ensures P.After(s, P.EndApplying(t, ok)).book == Recorded(b, id, p, Ended(if ok then D.Applied else D.Failed))
  {
    hide P.Inv, D.Inv, D.Transition, D.Available;
    var status := if ok then D.Applied else D.Failed;
    AssessingMayFinish(s, t);
    TransitionsFreely(s.book, id, p, APPLYING, status);
    RecordedTwice(b, id, p, APPLYING, Ended(status));
  }

  lemma LeadsTwo(s: P.State, first: P.Action, second: P.Action, rest: seq<P.Action>, s': P.State)
    requires P.Enabled(s, first) && P.Enabled(P.After(s, first), second)
    requires Leads(P.After(P.After(s, first), second), rest, s')
    ensures Leads(s, [first, second] + rest, s')
  {
    hide P.Enabled, P.After;
    var actions := [first, second] + rest;
    assert actions[1..] == [second] + rest && actions[1..][1..] == rest;
  }

  /**
    Main result: what `Finish` does to the decisions when it applies a plan is what the protocol's steps do: a drain
    that has found its partition available takes up the plan, starts applying, writes files and ends.
   */
  lemma MutationIsProtocol(s: P.State, t: nat, id: string, n: nat, ok: bool) returns (s': P.State)
    requires P.Inv(s) && t in s.drains && s.drains[t].Assessing? && id !in s.book.records
    ensures Leads(s, [P.AcceptPlan(t, id), P.StartApplying(t)] + (Writes(t, n) + [P.EndApplying(t, ok)]), s')
    ensures s'.book == Recorded(s.book, id, P.PartitionOf(s, t), Ended(if ok then D.Applied else D.Failed))
    ensures t !in s'.drains
  {
    hide P.Inv, P.Enabled, P.After, P.PartitionOf, Recorded, Leads;
    var p := P.PartitionOf(s, t);
    AcceptStep(s, t, p, id);
    var s1 := P.After(s, P.AcceptPlan(t, id));
    ApplyStep(s1, t, p, id, s.book);
    var s2 := P.After(s1, P.StartApplying(t));
    EndStep(s2, t, p, id, ok, s.book);
    s' := WritesLead(s2, t, n, P.EndApplying(t, ok));
    LeadsTwo(s, P.AcceptPlan(t, id), P.StartApplying(t), Writes(t, n) + [P.EndApplying(t, ok)], s');
  }

  /** And when it ends with a single save, that is the protocol's `Conclude`. */
  lemma StopIsProtocol(s: P.State, t: nat, id: string, status: D.Status)
    requires P.Inv(s) && t in s.drains && s.drains[t].Assessing? && id !in s.book.records
    requires status == D.RequiresReview || status == D.NoChange
    ensures P.Enabled(s, P.Conclude(t, id, status))
    ensures var s' := P.After(s, P.Conclude(t, id, status));
            s'.book == Recorded(s.book, id, P.PartitionOf(s, t), [D.Change(None, status)]) && t !in s'.drains
  {
    AssessingMayFinish(s, t);
    CreatesFreely(s.book, id, P.PartitionOf(s, t), status);
    hide P.Inv, D.Inv, D.Create;
  }

  lemma PlanNames(cfg: Config, setup: Setup, tree: Tree, g: G.GovernanceResult, affected: seq<string>, planId: string)
    ensures var plan := PlanOf(cfg, setup, tree, g, affected, planId);
            plan.partition == cfg.partition && plan.planId == planId && plan.acceptedSchema == G.PlanSchema(g)
  {
    hide ChangesFor, Targets, G.PlanSchema;
  }

  lemma CommitPasses(plan: MutationPlan, writes: Outcomes)
    ensures Passes(plan, writes, ApplyWrites(plan) + 1) <==>
              Passes(plan, writes, ApplyWrites(plan)) && writes(ApplyWrites(plan)).Completes?
  {
  }

  /** What the plan wrote is covered by the registered paths, so the commit leaves a clean tree. */
  lemma WithinPlanned(r: Repo<Content>, r': Repo<Content>, plan: MutationPlan, paths: set<Path>)
    requires Clean(r) && r'.history == r.history && r'.index == r.index
    requires AgreeOutside(r.work, r'.work, PlannedPaths(plan)) && PlannedPaths(plan) <= paths
    ensures Unstaged(r') && paths != {} && ChangedPaths(r') * paths == ChangedPaths(r')
    ensures if ChangedPaths(r') == {} then Clean(r')
            else Committed(r', ChangedPaths(r')).Ok? && Clean(Committed(r', ChangedPaths(r')).value)
                 && Committed(r', ChangedPaths(r')).value.work == r'.work
                 && Committed(r', ChangedPaths(r')).value.history == r'.history + [r'.work]
  {
    ChangesWithin(r', PlannedPaths(plan));
    assert FacetIndexPath in PlannedPaths(plan);
    hide ChangedPaths, Committed, PlannedPaths, AgreeOutside;
    CleanIffNothingChanged(r');
    if ChangedPaths(r') != {} {
      CommitOverlays(r', paths);
      OverlayIsWork(r', paths);
    }
  }
}
