/**
  Applying an accepted mutation plan to the workspace and the statistics:
  internal/knowledge/execution/mutation_executor.py.

  `writes` gives the outcomes of the writes a call makes, in order: the schema document (0, only for a plan with an
  accepted schema), the case documents (1 to n), the two index documents (n + 1 and n + 2), and one save of the
  statistics snapshot per change (n + 3 to 2n + 2).  A document write that raises may leave anything at its path.
 */
module MutationExecution {
  import opened Options
  import opened Fields
  import opened Statistics
  import opened Observations
  import opened StatisticsStore
  import opened ProfileIndex
  import opened Projection
  import opened GitRepository
  import opened CaseWorkspace
  import opened PartitionRuns
  import opened WritePath

  datatype ApplyResult = ApplyResult(planId: string, updatedCaseIds: seq<string>, updatedPaths: set<Path>)

  // ----- which writes a call gets through

  /** All writes of the plan before the given position go through. */
  predicate Passes(plan: MutationPlan, writes: Outcomes, end: nat) {
    AllComplete(writes, if plan.acceptedSchema.Some? then 0 else 1, end)
  }

  function DocumentWrites(plan: MutationPlan): nat {
    |plan.changes| + 3
  }

  function ApplyWrites(plan: MutationPlan): nat {
    DocumentWrites(plan) + |plan.changes|
  }

  /** How many observations have been replaced when the call ends. */
  function Replaced(plan: MutationPlan, writes: Outcomes, k: nat): (done: nat)
    requires k <= |plan.changes|
    ensures done <= k
  {
    if k == 0 || Passes(plan, writes, DocumentWrites(plan) + k) then k else Replaced(plan, writes, k - 1)
  }

  lemma {:induction false} ReplacedIs(plan: MutationPlan, writes: Outcomes, k: nat, done: nat)
    requires done <= k <= |plan.changes|
    requires done > 0 ==> Passes(plan, writes, DocumentWrites(plan) + done)
    requires done < k ==> !Passes(plan, writes, DocumentWrites(plan) + done + 1)
    ensures Replaced(plan, writes, k) == done
    decreases k
  {
    hide Passes;
    if done < k {
      if Passes(plan, writes, DocumentWrites(plan) + k) {
        PassesLess(plan, writes, DocumentWrites(plan) + done + 1, DocumentWrites(plan) + k);
      }
      ReplacedIs(plan, writes, k - 1, done);
    }
  }

  lemma PassesLess(plan: MutationPlan, writes: Outcomes, end: nat, more: nat)
    requires end <= more && Passes(plan, writes, more)
    ensures Passes(plan, writes, end)
  {
  }

  // ----- what has been written so far

  /** A change's case as the changes before it left it, and as the change leaves it. */
  ghost predicate IsReplacement(cases: map<string, Case>, changes: seq<Change>, j: nat, pair: (Case, Case))
    requires j < |changes|
  {
    var before, id := AfterChanges(cases, changes[..j]), changes[j].caseId;
    id in before && pair == (before[id], Changed(before[id], changes[j]))
  }

  /** The workspace after the schema and the first changes have been written. */
  ghost predicate Written(cfg: Config, tree: Tree, plan: MutationPlan, now: int, n: nat, work: Tree) {
    && n <= |plan.changes|
    && work == Upserted(SchemaApplied(tree, plan.acceptedSchema, now), plan.changes[..n])
    && ValidTree(cfg.partition, work) && CasesIn(work) == AfterChanges(CasesIn(tree), plan.changes[..n])
    && AgreeOutside(tree, work, PlannedPaths(plan))
  }

  lemma SchemaWritten(cfg: Config, tree: Tree, plan: MutationPlan, now: int)
    requires ValidTree(cfg.partition, tree)
    ensures Written(cfg, tree, plan, now, 0, SchemaApplied(tree, plan.acceptedSchema, now))
  {
    hide ValidTree, CasesIn;
    SchemaAppliedValid(cfg.partition, tree, plan.acceptedSchema, now);
    assert plan.changes[..0] == [];
  }

  lemma UpsertedNext(tree: Tree, changes: seq<Change>, n: nat)
    requires n < |changes|
    ensures var before, path := Upserted(tree, changes[..n]), CasePath(changes[n].caseId);
            Upserted(tree, changes[..n + 1]) ==
              if path in before && before[path].CaseFile? then Stored(before, Changed(before[path].c, changes[n]))
              else before
  {
    assert changes[..n + 1][..n] == changes[..n];
  }

  lemma AfterChangesNext(cases: map<string, Case>, changes: seq<Change>, n: nat)
    requires n < |changes|
    ensures var before, id := AfterChanges(cases, changes[..n]), changes[n].caseId;
            AfterChanges(cases, changes[..n + 1]) ==
              if id in before then before[id := Changed(before[id], changes[n])] else before
  {
    assert changes[..n + 1][..n] == changes[..n];
  }

  lemma ChangeWritten(cfg: Config, tree: Tree, plan: MutationPlan, now: int, n: nat, work: Tree)
    requires Written(cfg, tree, plan, now, n, work) && n < |plan.changes| && CasePath(plan.changes[n].caseId) in work
    ensures var c := work[CasePath(plan.changes[n].caseId)];
            && c.CaseFile? && Written(cfg, tree, plan, now, n + 1, Stored(work, Changed(c.c, plan.changes[n])))
            && IsReplacement(CasesIn(tree), plan.changes, n, (c.c, Changed(c.c, plan.changes[n])))
            && ValidCase(c.c) && c.c.id == plan.changes[n].caseId && c.c.partition == cfg.partition
  {
    var change := plan.changes[n];
    CasesInAt(cfg.partition, work);
    assert change in plan.changes && CasePath(change.caseId) in PlannedPaths(plan);
    hide ValidTree, CasesIn, ValidCase, Upserted, AfterChanges, Changed, PlannedPaths;
    var c := CasesIn(work)[change.caseId];
    ChangedValid(c, change);
    ChangedKeepsName(c, change);
    StoredCases(cfg.partition, work, Changed(c, change));
    UpsertedNext(SchemaApplied(tree, plan.acceptedSchema, now), plan.changes, n);
    AfterChangesNext(CasesIn(tree), plan.changes, n);
  }

  /** Writing cases removes none. */
  lemma StillThere(cfg: Config, tree: Tree, plan: MutationPlan, now: int, n: nat, work: Tree, id: string)
    requires ValidTree(cfg.partition, tree) && Written(cfg, tree, plan, now, n, work) && CasePath(id) in tree
    ensures CasePath(id) in work
  {
    CasesInAt(cfg.partition, tree);
    CasesInAt(cfg.partition, work);
    hide CasesIn, AfterChanges, Upserted;
    AfterChangesKeys(CasesIn(tree), plan.changes[..n]);
    assert id in CasesIn(tree);
  }

  lemma WrittenTree(cfg: Config, tree: Tree, plan: MutationPlan, now: int, work: Tree)
    requires Written(cfg, tree, plan, now, |plan.changes|, work)
    ensures work == Upserted(SchemaApplied(tree, plan.acceptedSchema, now), plan.changes)
    ensures ValidTree(cfg.partition, work) && AgreeOutside(tree, work, PlannedPaths(plan))
  {
    assert plan.changes[..|plan.changes|] == plan.changes;
  }

  lemma PlannedDocuments(plan: MutationPlan)
    ensures {FacetIndexPath, SemanticIndexPath} <= PlannedPaths(plan)
    ensures plan.acceptedSchema.Some? ==> SchemaPath in PlannedPaths(plan)
    ensures forall change :: change in plan.changes ==> CasePath(change.caseId) in PlannedPaths(plan)
  {
  }

  lemma TornWithin(tree: Tree, work: Tree, path: Path, left: Option<Content>, paths: set<Path>)
    requires AgreeOutside(tree, work, paths) && path in paths
    ensures AgreeOutside(tree, Torn(work, path, left), paths)
  {
  }

  lemma NothingWritten(tree: Tree, paths: set<Path>)
    ensures AgreeOutside(tree, tree, paths)
  {
  }

  lemma ChangeHasCase(cfg: Config, tree: Tree, changes: seq<Change>)
    requires forall change :: change in changes ==> ChangeApplies(cfg, tree, change)
    ensures forall change :: change in changes ==> CasePath(change.caseId) in tree
  {
  }

  /** Where an accepted plan leads. */
  lemma PlanLeads(cfg: Config, tree: Tree, plan: MutationPlan, now: int)
    requires ValidTree(cfg.partition, tree) && Accepts(cfg, tree, ApplyPlan(plan, now))
    ensures TreeAfter(cfg, tree, ApplyPlan(plan, now)) ==
              Refreshed(cfg.partition, Upserted(SchemaApplied(tree, plan.acceptedSchema, now), plan.changes), now)
    ensures CasesAfter(cfg, tree, ApplyPlan(plan, now)) == AfterChanges(CasesIn(tree), plan.changes)
  {
    hide ValidTree, CasesIn, Refreshed, Upserted, SchemaApplied, AfterChanges, ChangeApplies;
  }

  /** The changes name cases of the partition whose facets are still the ones the plan was made for. */
  ghost predicate StillFits(partition: string, cases: map<string, Case>, changes: seq<Change>) {
    forall change :: change in changes ==>
      && change.partition == partition && change.caseId in cases
      && SameDict(cases[change.caseId].facets, change.before)
  }

  /** When a plan goes through, in terms of the cases and of the writes one by one. */
  lemma AcceptedWhen(cfg: Config, tree: Tree, plan: MutationPlan, now: int)
    requires ValidTree(cfg.partition, tree)
    ensures Accepts(cfg, tree, ApplyPlan(plan, now)) <==>
              && plan.planId != "" && plan.partition != "" && plan.partition == cfg.partition
              && StillFits(cfg.partition, CasesIn(tree), plan.changes)
  {
    CasesInAt(cfg.partition, tree);
    hide CasesIn, AsMap, SameDict, ValidTree, ValidCase;
    forall change | change in plan.changes
      ensures ChangeApplies(cfg, tree, change) <==>
                && change.partition == cfg.partition && change.caseId in CasesIn(tree)
                && SameDict(CasesIn(tree)[change.caseId].facets, change.before)
    {
      var id := change.caseId;
      if CasePath(id) in tree {
        assert id in CasesIn(tree) && tree[CasePath(id)] == CaseFile(CasesIn(tree)[id]);
        AsMapSame(CasesIn(tree)[id].facets, change.before);
      }
    }
  }

  /** Only the facets differ: they are those of the last change that names the case, if any does. */
  ghost predicate Rewritten(before: Case, after: Case, changes: seq<Change>) {
    && after == before.(facets := after.facets)
    && ((exists change :: change in changes && change.caseId == before.id) ==>
          exists i :: NamesLast(changes, before.id, i) && after.facets == Validated(changes[i].after))
    && ((forall change :: change in changes ==> change.caseId != before.id) ==> after == before)
  }

  ghost predicate AllRewritten(cases: map<string, Case>, cases': map<string, Case>, changes: seq<Change>) {
    cases'.Keys == cases.Keys && forall id :: id in cases ==> Rewritten(cases[id], cases'[id], changes)
  }

  lemma ChangesRewrite(partition: string, cases: map<string, Case>, changes: seq<Change>)
    requires ValidCases(partition, cases)
    ensures AllRewritten(cases, AfterChanges(cases, changes), changes)
  {
    hide Validated, AfterChanges, NamesLast;
    AfterChangesKeys(cases, changes);
    forall id | id in cases ensures Rewritten(cases[id], AfterChanges(cases, changes)[id], changes) {
      OtherFields(cases, changes, id);
      if change :| change in changes && change.caseId == id {
        LastChange(cases, changes, id);
      }
    }
  }

  lemma PlannedCases(cfg: Config, tree: Tree, plan: MutationPlan, now: int)
    requires ValidTree(cfg.partition, tree) && Accepts(cfg, tree, ApplyPlan(plan, now))
    ensures AllRewritten(CasesIn(tree), CasesIn(TreeAfter(cfg, tree, ApplyPlan(plan, now))), plan.changes)
  {
    hide ValidTree, CasesIn, TreeAfter, CasesAfter, AfterChanges, AllRewritten, Accepts, ValidCases;
    CasesInAt(cfg.partition, tree);
    TreeAfterCases(cfg, tree, ApplyPlan(plan, now));
    PlanLeads(cfg, tree, plan, now);
    ChangesRewrite(cfg.partition, CasesIn(tree), plan.changes);
  }

  lemma UpdatedPaths(plan: MutationPlan)
    ensures forall path :: path in PlannedPaths(plan) - {FacetIndexPath, SemanticIndexPath} <==>
              || (path == SchemaPath && plan.acceptedSchema.Some?)
              || exists change :: change in plan.changes && path == CasePath(change.caseId)
  {
  }

  lemma PassesWhen(plan: MutationPlan, writes: Outcomes)
    ensures Passes(plan, writes, ApplyWrites(plan)) <==>
              && (plan.acceptedSchema.Some? ==> writes(0).Completes?)
              && forall i :: 1 <= i <= 2 * |plan.changes| + 2 ==> writes(i).Completes?
  {
  }

  class MutationExecutor {
    const target: Partition

    constructor (target: Partition)
      ensures this.target == target
    {
      this.target := target;
    }

    /** `_validate_plan`: every change names a case of the partition whose facets are still the planned ones. */
    method ValidatePlan(plan: MutationPlan) returns (r: Result<()>)
      requires ValidTree(target.cfg.partition, target.repo.work) && plan.partition == target.cfg.partition
      ensures r.Ok? <==> forall change :: change in plan.changes ==> ChangeApplies(target.cfg, target.repo.work, change)
    {
      hide AsMap;
      for i := 0 to |plan.changes|
        invariant forall j :: 0 <= j < i ==> ChangeApplies(target.cfg, target.repo.work, plan.changes[j])
      {
        var change := plan.changes[i];
        assert change in plan.changes;
        var path := CasePath(change.caseId);
        if path !in target.repo.work {
          return Err("case not found while applying mutation plan");
        }
        assert CaseAt(target.cfg.partition, target.repo.work, change.caseId);
        var c := target.repo.work[path].c;
        if c.partition != plan.partition || change.partition != plan.partition {
          return Err("case partition does not match mutation plan");
        }
        if AsMap(c.facets) != AsMap(change.before) {
          return Err("case facets changed since mutation planning");
        }
      }
      r := Ok(());
    }

    /** The schema document, for a plan that has one. */
    method WriteSchema(plan: MutationPlan, now: int, write: Outcome) returns (r: Result<()>)
      requires ValidTree(target.cfg.partition, target.repo.work)
      modifies target.repo`work
      ensures r.Ok? <==> plan.acceptedSchema.None? || write.Completes?
      ensures r.Ok? ==> Written(target.cfg, old(target.repo.work), plan, now, 0, target.repo.work)
      ensures AgreeOutside(old(target.repo.work), target.repo.work, PlannedPaths(plan))
    {
      hide CasesIn, Upserted, AfterChanges, PlannedPaths, ValidTree, Torn;
      SchemaWritten(target.cfg, target.repo.work, plan, now);
      NothingWritten(target.repo.work, PlannedPaths(plan));
      if plan.acceptedSchema.Some? {
        if write.Raises? {
          PlannedDocuments(plan);
          TornWithin(target.repo.work, target.repo.work, SchemaPath, write.left, PlannedPaths(plan));
          target.repo.work := Torn(target.repo.work, SchemaPath, write.left);
          return Err("schema write failed");
        }
        target.repo.work := SchemaSaved(target.repo.work, plan.acceptedSchema.value, now);
      }
      r := Ok(());
    }

    /** The case documents; `replacements` are the observations to replace. */
    method WriteCases(plan: MutationPlan, now: int, writes: Outcomes, ghost tree: Tree)
      returns (r: Result<seq<(Case, Case)>>)
      requires ValidTree(target.cfg.partition, tree)
      requires Written(target.cfg, tree, plan, now, 0, target.repo.work)
      requires forall change :: change in plan.changes ==> CasePath(change.caseId) in tree
      modifies target.repo`work
      ensures r.Ok? <==> AllComplete(writes, 1, |plan.changes| + 1)
      ensures AgreeOutside(tree, target.repo.work, PlannedPaths(plan))
      ensures r.Ok? ==> Written(target.cfg, tree, plan, now, |plan.changes|, target.repo.work)
      ensures r.Ok? ==> |r.value| == |plan.changes|
      ensures r.Ok? ==> forall j :: 0 <= j < |plan.changes| ==>
                IsReplacement(CasesIn(tree), plan.changes, j, r.value[j])
    {
      hide CasesIn, Upserted, AfterChanges, Changed, Stored, IsReplacement, PlannedPaths, ValidTree, ValidCase, Torn;
      var replacements: seq<(Case, Case)> := [];
      for i := 0 to |plan.changes|
        invariant Written(target.cfg, tree, plan, now, i, target.repo.work)
        invariant |replacements| == i && AllComplete(writes, 1, i + 1)
        invariant forall j :: 0 <= j < i ==> IsReplacement(CasesIn(tree), plan.changes, j, replacements[j])
      {
        var change := plan.changes[i];
        assert change in plan.changes;
        StillThere(target.cfg, tree, plan, now, i, target.repo.work, change.caseId);
        ChangeWritten(target.cfg, tree, plan, now, i, target.repo.work);
        var c := target.repo.work[CasePath(change.caseId)].c;
        var updated := Changed(c, change);
        replacements := replacements + [(c, updated)];
        if writes(i + 1).Raises? {
          PlannedDocuments(plan);
          TornWithin(tree, target.repo.work, CasePath(change.caseId), writes(i + 1).left, PlannedPaths(plan));
          target.repo.work := Torn(target.repo.work, CasePath(change.caseId), writes(i + 1).left);
          return Err("case write failed");
        }
        target.repo.work := Stored(target.repo.work, updated);
      }
      r := Ok(replacements);
    }

    /**
      `_refresh_derived_state`, the statistics: `done` replacements have been saved when the method returns, and the
      snapshot is the recount of the cases as the first `done` changes leave them.
     */
    method ReplaceObservations(
      replacements: seq<(Case, Case)>, writes: Outcomes, first: nat, ghost cases: map<string, Case>,
      ghost changes: seq<Change>)
      returns (r: Result<()>, ghost done: nat)
      requires target.statistics.Recounts(cases) && ValidCases(target.statistics.partition, cases)
      requires |replacements| == |changes|
      requires forall j :: 0 <= j < |changes| ==> IsReplacement(cases, changes, j, replacements[j])
      modifies target.statistics
      ensures done <= |changes| && AllComplete(writes, first, first + done)
      ensures if r.Ok? then done == |changes| else done < |changes| && writes(first + done).Raises?
      ensures target.statistics.Recounts(AfterChanges(cases, changes[..done]))
      ensures done == 0 ==> target.statistics.stored == old(target.statistics.stored)
    {
      hide IsRecount, Changed, AfterChanges, ValidCase;
      NothingChanged(cases, changes);
      done := 0;
      for j := 0 to |replacements|
        invariant done == j && AllComplete(writes, first, first + j)
        invariant target.statistics.Recounts(AfterChanges(cases, changes[..j]))
        invariant j == 0 ==> target.statistics.stored == old(target.statistics.stored)
      {
        var before, after := replacements[j].0, replacements[j].1;
        assert IsReplacement(cases, changes, j, replacements[j]);
        AfterChangesValid(target.statistics.partition, cases, changes[..j]);
        ChangedKeepsName(before, changes[j]);
        AfterChangesNext(cases, changes, j);
        r := target.statistics.ReplaceCaseObservation(
          before, after, writes(first + j).Completes?, AfterChanges(cases, changes[..j]));
        if r.Err? {
          return;
        }
        done := j + 1;
      }
      r := Ok(());
    }

    /** The schema, case and index documents: all of them, or any prefix with the next one left in any state. */
    method WriteDocuments(plan: MutationPlan, now: int, writes: Outcomes) returns (r: Result<seq<(Case, Case)>>)
      requires target.Ready() && Accepts(target.cfg, target.repo.work, ApplyPlan(plan, now))
      modifies target.repo`work
      ensures r.Ok? <==> Passes(plan, writes, DocumentWrites(plan))
      ensures AgreeOutside(old(target.repo.work), target.repo.work, PlannedPaths(plan))
      ensures r.Ok? ==> ValidTree(target.cfg.partition, old(target.repo.work))
      ensures r.Ok? ==> target.repo.work == TreeAfter(target.cfg, old(target.repo.work), ApplyPlan(plan, now))
      ensures r.Ok? ==> |r.value| == |plan.changes|
      ensures r.Ok? ==> forall j :: 0 <= j < |plan.changes| ==>
                IsReplacement(CasesIn(old(target.repo.work)), plan.changes, j, r.value[j])
    {
      hide Consistent, IsRecount, CasesIn, ValidTree, Upserted, SchemaApplied, IsReplacement, PlannedPaths, Written;
      hide AgreeOutside, ChangeApplies, Refreshed, TreeAfter, CasesAfter, AfterChanges;
      ghost var tree := target.repo.work;
      ConsistentTree(target.cfg, target.Current());
      PlanLeads(target.cfg, tree, plan, now);
      PlannedDocuments(plan);
      ChangeHasCase(target.cfg, tree, plan.changes);
      var schema := WriteSchema(plan, now, writes(0));
      if schema.Err? {
        return Err(schema.message);
      }
      r := WriteCases(plan, now, writes, tree);
      if r.Err? {
        return;
      }
      WrittenTree(target.cfg, tree, plan, now, target.repo.work);
      ghost var work := target.repo.work;
      var refreshed := target.RefreshIndexes(now, writes, |plan.changes| + 1);
      OutsideTogether(tree, work, target.repo.work, PlannedPaths(plan), {FacetIndexPath, SemanticIndexPath});
      if refreshed.Err? {
        r := Err(refreshed.message);
      }
    }

    /** After `done` replacements. */
    twostate predicate Reached(plan: MutationPlan, now: int, done: nat)
      reads this, target, target.repo, target.statistics
    {
      && ValidTree(target.cfg.partition, old(target.repo.work))
      && Accepts(target.cfg, old(target.repo.work), ApplyPlan(plan, now)) && done <= |plan.changes|
      && target.statistics.Recounts(AfterChanges(CasesIn(old(target.repo.work)), plan.changes[..done]))
      && if done == 0 then target.statistics.stored == old(target.statistics.stored)
         else target.repo.work == TreeAfter(target.cfg, old(target.repo.work), ApplyPlan(plan, now))
    }

    /** The writes of a plan that fits: any prefix of them. */
    method WriteAll(plan: MutationPlan, now: int, writes: Outcomes) returns (r: Result<()>)
      requires target.Ready() && Accepts(target.cfg, target.repo.work, ApplyPlan(plan, now))
      modifies target.repo`work, target.statistics
      ensures r.Ok? <==> Passes(plan, writes, ApplyWrites(plan))
      ensures Reached(plan, now, Replaced(plan, writes, |plan.changes|))
      ensures r.Ok? ==> ValidTree(target.cfg.partition, old(target.repo.work)) && target.Wired()
      ensures r.Ok? ==> target.repo.work == TreeAfter(target.cfg, old(target.repo.work), ApplyPlan(plan, now))
      ensures r.Ok? ==> target.statistics.Recounts(AfterChanges(CasesIn(old(target.repo.work)), plan.changes))
      ensures AgreeOutside(old(target.repo.work), target.repo.work, PlannedPaths(plan))
    {
      hide Consistent, IsRecount, CasesIn, ValidTree, IsReplacement, PlannedPaths, AgreeOutside, StepsTo, ValidCases;
      hide Accepts, TreeAfter, CasesAfter, AfterChanges, StatisticsAfter, Passes, Replaced;
      ghost var before := target.Current();
      ConsistentTree(target.cfg, before);
      NothingChanged(CasesIn(before.tree), plan.changes);
      assert target.statistics.Recounts(CasesIn(before.tree));
      var written := WriteDocuments(plan, now, writes);
      assert unchanged(target.statistics);
      if written.Err? {
        NotReplaced(plan, writes);
        return Err(written.message);
      }
      label Documents:
      ghost var done;
      r, done := ReplaceObservations(
        written.value, writes, DocumentWrites(plan), CasesIn(before.tree), plan.changes);
      assert unchanged@Documents(target.repo);
      SomeReplaced(plan, writes, done, r.Ok?);
      assert plan.changes[..|plan.changes|] == plan.changes;
    }

    /**
      Applies the plan or raises.  A plan that does not fit is refused before any write.  Otherwise the call raises
      after any prefix of its writes: only planned paths differ, the statistics count exactly the changes whose
      observations were replaced, and none is replaced before all documents are where the plan leads.
     */
    method Apply(plan: MutationPlan, now: int, writes: Outcomes) returns (r: Result<ApplyResult>)
      requires target.Ready() && (plan.partition == "" || plan.partition == target.cfg.partition)
      modifies target.repo`work, target.statistics
      ensures r.Ok? <==>
                Accepts(target.cfg, old(target.repo.work), ApplyPlan(plan, now))
                  && Passes(plan, writes, ApplyWrites(plan))
      ensures r.Ok? <==>
                && plan.planId != "" && plan.partition != "" && plan.partition == target.cfg.partition
                && StillFits(target.cfg.partition, old(CasesIn(target.repo.work)), plan.changes)
                && (plan.acceptedSchema.Some? ==> writes(0).Completes?)
                && forall i :: 1 <= i <= 2 * |plan.changes| + 2 ==> writes(i).Completes?
      ensures r.Ok? ==> r.value == ApplyResult(
                plan.planId, ChangeIds(plan.changes), PlannedPaths(plan) - {FacetIndexPath, SemanticIndexPath})
      ensures r.Ok? ==> forall path :: path in r.value.updatedPaths <==>
                || (path == SchemaPath && plan.acceptedSchema.Some?)
                || exists change :: change in plan.changes && path == CasePath(change.caseId)
      ensures r.Ok? ==> AllRewritten(old(CasesIn(target.repo.work)), CasesIn(target.repo.work), plan.changes)
      ensures r.Ok? ==>
                StepsTo(target.cfg, old(target.Current()), ApplyPlan(plan, now), target.Current()) && target.Ready()
      ensures !Accepts(target.cfg, old(target.repo.work), ApplyPlan(plan, now)) ==>
                target.repo.work == old(target.repo.work) && target.statistics.stored == old(target.statistics.stored)
      ensures Accepts(target.cfg, old(target.repo.work), ApplyPlan(plan, now)) ==>
                Reached(plan, now, Replaced(plan, writes, |plan.changes|))
      ensures AgreeOutside(old(target.repo.work), target.repo.work, PlannedPaths(plan))
    {
      hide Consistent, ValidTree, PlannedPaths, AgreeOutside, StepsTo, ChangeApplies, Passes, Replaced;
      hide CasesIn, AfterChanges, TreeAfter, CasesAfter, IsRecount;
      ghost var before := target.Current();
      NothingWritten(target.repo.work, PlannedPaths(plan));
      ConsistentTree(target.cfg, target.Current());
      AcceptedWhen(target.cfg, target.repo.work, plan, now);
      PassesWhen(plan, writes);
      if plan.planId == "" {
        return Err("mutation plan requires plan_id");
      }
      if plan.partition == "" {
        return Err("mutation plan requires partition");
      }
      var validated := ValidatePlan(plan);
      if validated.Err? {
        return Err(validated.message);
      }
      var written := WriteAll(plan, now, writes);
      if written.Err? {
        return Err(written.message);
      }
      PlanLeads(target.cfg, before.tree, plan, now);
      Stepped(target.cfg, before, ApplyPlan(plan, now), target.Current());
      PlannedCases(target.cfg, before.tree, plan, now);
      UpdatedPaths(plan);
      r := Ok(ApplyResult(plan.planId, ChangeIds(plan.changes),
        PlannedPaths(plan) - {FacetIndexPath, SemanticIndexPath}));
    }
  }

  lemma NotReplaced(plan: MutationPlan, writes: Outcomes)
    requires !Passes(plan, writes, DocumentWrites(plan))
    ensures Replaced(plan, writes, |plan.changes|) == 0 && !Passes(plan, writes, ApplyWrites(plan))
  {
    ReplacedIs(plan, writes, |plan.changes|, 0);
  }

  lemma SomeReplaced(plan: MutationPlan, writes: Outcomes, done: nat, all: bool)
    requires Passes(plan, writes, DocumentWrites(plan)) && done <= |plan.changes|
    requires AllComplete(writes, DocumentWrites(plan), DocumentWrites(plan) + done)
    requires if all then done == |plan.changes|
              else done < |plan.changes| && writes(DocumentWrites(plan) + done).Raises?
    ensures Replaced(plan, writes, |plan.changes|) == done && (all <==> Passes(plan, writes, ApplyWrites(plan)))
  {
    ReplacedIs(plan, writes, |plan.changes|, done);
  }
}
