/**
  The online write path for cases: internal/domain/case/write_service.py and the create step of
  internal/product/ingest/service.py, over one partition's workspace and statistics.

  `writes` gives the outcomes of a call's writes: the case document (0), the two index documents (1 and 2), the
  statistics snapshot (3), and the commit (4), which can fail before it stages anything.  Nothing is rolled back here.
 */
module WritePath {
  import opened Options
  import opened Fields
  import opened Statistics
  import opened Observations
  import opened StatisticsStore
  import opened ProfileIndex
  import opened Projection
  import opened GitRepository
  import opened CaseWorkspace
  import opened PartitionRuns

  ghost predicate StepsTo(cfg: Config, s: State, op: Op, s': State) {
    && ValidTree(cfg.partition, s.tree) && Accepts(cfg, s.tree, op)
    && s'.tree == TreeAfter(cfg, s.tree, op) && s'.statistics == StatisticsAfter(cfg, s, op)
  }

  /** The workspace holds the case under its id. */
  predicate Holds(tree: Tree, id: string, c: Case) {
    CasePath(id) in tree && tree[CasePath(id)] == CaseFile(c)
  }

  // ----- what a step leads to

  lemma OwnPaths(op: Op)
    requires !op.ApplyPlan?
    ensures OpPaths(op) == CasePaths(op.id) && CasePath(op.id) in OpPaths(op)
    ensures {FacetIndexPath, SemanticIndexPath} <= OpPaths(op)
  {
  }

  lemma StoredHolds(partition: string, tree: Tree, c: Case, now: int)
    ensures Holds(Refreshed(partition, Stored(tree, c), now), c.id, c)
  {
    hide ListedIndex;
  }

  lemma ConsistentTree(cfg: Config, s: State)
    requires Consistent(cfg, s)
    ensures ValidTree(cfg.partition, s.tree) && ValidCases(cfg.partition, CasesIn(s.tree))
    ensures forall id :: id in CasesIn(s.tree) <==> CasePath(id) in s.tree
    ensures forall id :: id in CasesIn(s.tree) ==> s.tree[CasePath(id)] == CaseFile(CasesIn(s.tree)[id])
    ensures IsRecount(s.statistics, cfg.partition, cfg.fold, CasesIn(s.tree))
  {
    CasesInAt(cfg.partition, s.tree);
  }

  lemma StepRecounts(cfg: Config, s: State, op: Op)
    requires Consistent(cfg, s) && ValidTree(cfg.partition, s.tree) && Accepts(cfg, s.tree, op)
    ensures IsRecount(StatisticsAfter(cfg, s, op), cfg.partition, cfg.fold, CasesAfter(cfg, s.tree, op))
  {
    hide Consistent, ValidTree, Accepts, StatisticsAfter, CasesAfter, Stats, Live;
    StatisticsAfterRecount(cfg, s, op);
  }

  /** Documents and statistics that are where a step leads have taken it. */
  lemma Stepped(cfg: Config, s: State, op: Op, s': State)
    requires Consistent(cfg, s) && ValidTree(cfg.partition, s.tree) && Accepts(cfg, s.tree, op)
    requires s'.tree == TreeAfter(cfg, s.tree, op)
    requires IsRecount(s'.statistics, cfg.partition, cfg.fold, CasesAfter(cfg, s.tree, op))
    ensures StepsTo(cfg, s, op, s') && Consistent(cfg, s')
  {
    hide Consistent, ValidTree, Accepts, StatisticsAfter, CasesAfter, TreeAfter, IsRecount;
    StepRecounts(cfg, s, op);
    RecountUnique(s'.statistics, StatisticsAfter(cfg, s, op), cfg.partition, cfg.fold, CasesAfter(cfg, s.tree, op));
    StepKeepsConsistent(cfg, s, op);
  }

  lemma StoredWithin(tree: Tree, c: Case, paths: set<Path>)
    requires CasePath(c.id) in paths
    ensures AgreeOutside(tree, Stored(tree, c), paths)
  {
  }

  lemma CreateLeads(cfg: Config, tree: Tree, id: string, body: string, profile: seq<Field>, now: int)
    requires ValidTree(cfg.partition, tree) && Accepts(cfg, tree, CreateCase(id, body, profile, now))
    ensures var c, op := Drafted(cfg, SchemaIn(tree), id, body, profile), CreateCase(id, body, profile, now);
            && TreeAfter(cfg, tree, op) == Refreshed(cfg.partition, Stored(tree, c), now)
            && CasesAfter(cfg, tree, op) == CasesIn(tree)[id := c] == CasesIn(TreeAfter(cfg, tree, op))
            && c == Case(id, cfg.partition, body, profile, Project(cfg.lower, profile, SchemaIn(tree).definitions))
            && ValidTree(cfg.partition, Stored(tree, c)) && AgreeOutside(tree, Stored(tree, c), OpPaths(op))
  {
    hide CasesIn, ValidTree, ValidCase, Project, Refreshed, IsFieldSet, Stored, AgreeOutside;
    SchemaThere(cfg.partition, tree);
    TreeAfterCases(cfg, tree, CreateCase(id, body, profile, now));
    var c := Drafted(cfg, SchemaIn(tree), id, body, profile);
    DraftedValid(cfg, SchemaIn(tree), id, body, profile);
    StoredCases(cfg.partition, tree, c);
    StoredWithin(tree, c, OpPaths(CreateCase(id, body, profile, now)));
  }

  lemma UpdateLeads(
    cfg: Config, tree: Tree, existing: Case, body: Option<string>, profile: Option<seq<Field>>, now: int)
    requires ValidTree(cfg.partition, tree) && Accepts(cfg, tree, UpdateCase(existing.id, body, profile, now))
    requires Holds(tree, existing.id, existing)
    ensures var c, op :=
              Edited(cfg, SchemaIn(tree), existing, body, profile), UpdateCase(existing.id, body, profile, now);
            && TreeAfter(cfg, tree, op) == Refreshed(cfg.partition, Stored(tree, c), now)
            && CasesAfter(cfg, tree, op) == CasesIn(tree)[c.id := c] == CasesIn(TreeAfter(cfg, tree, op))
            && c == Case(existing.id, cfg.partition, body.GetOr(existing.body), profile.GetOr(existing.profile),
                         Project(cfg.lower, profile.GetOr(existing.profile), SchemaIn(tree).definitions))
            && ValidTree(cfg.partition, Stored(tree, c)) && AgreeOutside(tree, Stored(tree, c), OpPaths(op))
  {
    hide CasesIn, ValidTree, ValidCase, Project, Refreshed, IsFieldSet, Stored, AgreeOutside;
    SchemaThere(cfg.partition, tree);
    TreeAfterCases(cfg, tree, UpdateCase(existing.id, body, profile, now));
    var c := Edited(cfg, SchemaIn(tree), existing, body, profile);
    CasesInAt(cfg.partition, tree);
    EditedValid(cfg, SchemaIn(tree), existing, body, profile);
    StoredCases(cfg.partition, tree, c);
    StoredWithin(tree, c, OpPaths(UpdateCase(existing.id, body, profile, now)));
  }

  lemma DeleteLeads(cfg: Config, tree: Tree, id: string, now: int)
    requires ValidTree(cfg.partition, tree) && Accepts(cfg, tree, DeleteCase(id, now))
    ensures var op, rest := DeleteCase(id, now), tree - {CasePath(id)};
            && TreeAfter(cfg, tree, op) == Refreshed(cfg.partition, rest, now)
            && CasesAfter(cfg, tree, op) == CasesIn(tree) - {id} == CasesIn(TreeAfter(cfg, tree, op))
            && ValidTree(cfg.partition, rest) && AgreeOutside(tree, rest, OpPaths(op))
  {
    hide CasesIn, ValidTree, Refreshed;
    RemovedCases(cfg.partition, tree, id);
    TreeAfterCases(cfg, tree, DeleteCase(id, now));
  }

  lemma IndexesWritten(cfg: Config, tree: Tree, op: Op)
    requires ValidTree(cfg.partition, tree) && Accepts(cfg, tree, op)
    ensures FacetIndexPath in TreeAfter(cfg, tree, op) && SemanticIndexPath in TreeAfter(cfg, tree, op)
    ensures op.CreateCase? ==> CasePath(op.id) in TreeAfter(cfg, tree, op)
    ensures op.UpdateCase? || op.DeleteCase? ==> CasePath(op.id) in tree
  {
    CasesInAt(cfg.partition, tree);
    hide CasesIn, ListedIndex, Project, Upserted, SchemaApplied, ValidTree;
  }

  lemma CaseKnown(cfg: Config, tree: Tree, op: Op)
    requires ValidTree(cfg.partition, tree) && Accepts(cfg, tree, op) && !op.ApplyPlan?
    ensures CasePaths(op.id) <= tree.Keys + TreeAfter(cfg, tree, op).Keys
  {
    hide TreeAfter, ValidTree, Accepts;
    IndexesWritten(cfg, tree, op);
  }

  /** After a clean start and one case operation, committing the operation's paths makes HEAD the new working tree. */
  lemma OperationCommits(cfg: Config, r: Repo<Content>, r': Repo<Content>, op: Op)
    requires Clean(r) && ValidTree(cfg.partition, r.work) && Accepts(cfg, r.work, op) && !op.ApplyPlan?
    requires r'.history == r.history && r'.index == r.index && r'.work == TreeAfter(cfg, r.work, op)
    ensures OpPaths(op) == CasePaths(op.id) && Committed(r', CasePaths(op.id)) == Ok(Published(r'))
  {
    hide TreeAfter, ValidTree, Accepts, Committed, ChangedPaths, AgreeOutside, CasePaths, OpPaths, Published;
    OwnPaths(op);
    CaseKnown(cfg, r.work, op);
    WritesOnlyItsPaths(cfg, r.work, op);
    ChangesWithin(r', CasePaths(op.id));
    CommitCovers(r', CasePaths(op.id));
  }

  /**
    Main result: when an operation's documents are written but its statistics are not, the state is consistent exactly
    after an update that leaves the case's normalised facets and profile as they were.
   */
  lemma UnsavedConsistentIff(cfg: Config, s: State, op: Op)
    requires Consistent(cfg, s) && ValidTree(cfg.partition, s.tree) && Accepts(cfg, s.tree, op) && !op.ApplyPlan?
    ensures Consistent(cfg, State(TreeAfter(cfg, s.tree, op), s.statistics)) <==>
              && op.UpdateCase? && op.id in CasesIn(s.tree) && op.id in CasesAfter(cfg, s.tree, op)
              && EntriesOf(cfg.fold, CasesAfter(cfg, s.tree, op)[op.id]) == EntriesOf(cfg.fold, CasesIn(s.tree)[op.id])
  {
    ConsistentTree(cfg, s);
    TreeAfterCases(cfg, s.tree, op);
    hide Stats, Live, CasesIn, ValidTree, TreeAfter, IndexesCurrent, EntriesOf, Project, ValidCase, IsFieldSet;
    var cases := CasesIn(s.tree);
    match op
    case CreateCase(id, body, profile, _) => MoreCases(cfg, cases, Drafted(cfg, SchemaIn(s.tree), id, body, profile));
    case UpdateCase(id, body, profile, _) =>
      OneReplacedIff(cfg, cases, Edited(cfg, SchemaIn(s.tree), cases[id], body, profile));
    case DeleteCase(id, _) => FewerCases(cfg, cases, id);
  }

  lemma MoreCases(cfg: Config, cases: map<string, Case>, c: Case)
    requires c.id !in cases
    ensures !SameRecount(cfg, cases, cases[c.id := c])
  {
    assert |cases[c.id := c]| == |cases| + 1;
    if SameRecount(cfg, cases, cases[c.id := c]) {
      CountedIff(cfg, cases, cases[c.id := c]);
    }
  }

  lemma FewerCases(cfg: Config, cases: map<string, Case>, id: string)
    requires id in cases
    ensures !SameRecount(cfg, cases, cases - {id})
  {
    assert (cases - {id})[id := cases[id]] == cases;
    if SameRecount(cfg, cases, cases - {id}) {
      CountedIff(cfg, cases, cases - {id});
    }
  }

  // ----- the objects

  predicate DocumentsWritten(writes: Outcomes) {
    writes(0).Completes? && writes(1).Completes? && writes(2).Completes?
  }

  predicate StatisticsSaved(writes: Outcomes) {
    DocumentsWritten(writes) && writes(3).Completes?
  }

  class Partition {
    const cfg: Config
    const repo: Workspace<Content>
    const statistics: StatisticsWriter

    ghost function Current(): State
      reads this, repo, statistics
    {
      State(repo.work, statistics.Current())
    }

    ghost predicate Wired()
      reads this, repo
    {
      && GitRepository.Valid(repo.Contents()) && (repo as object) != statistics
      && statistics.partition == cfg.partition && statistics.fold == cfg.fold
    }

    /** Whether or not the workspace is clean, the derived state fits the cases. */
    ghost predicate Ready()
      reads this, repo, statistics
    {
      Wired() && Consistent(cfg, Current())
    }

    constructor (cfg: Config, repo: Workspace<Content>, statistics: StatisticsWriter)
      requires GitRepository.Valid(repo.Contents()) && (repo as object) != statistics
      requires statistics.partition == cfg.partition && statistics.fold == cfg.fold
      requires Fresh(cfg, State(repo.work, statistics.Current()))
      ensures this.cfg == cfg && this.repo == repo && this.statistics == statistics && Ready()
    {
      FreshConsistent(cfg, State(repo.work, statistics.Current()));
      this.cfg := cfg;
      this.repo := repo;
      this.statistics := statistics;
    }

    method RefreshIndex(source: Source, documents: seq<Case>, now: int, write: Outcome) returns (r: Result<()>)
      requires DistinctIds(documents) && forall c :: c in documents ==> ValidCase(c)
      modifies repo`work
      ensures r.Ok? <==> write.Completes?
      ensures r.Ok? ==> repo.work == old(repo.work)[IndexPath(source) :=
                IndexFile(IndexOf(source, CasesOf(cfg.partition, documents)),
                  CreatedAt(old(repo.work), IndexPath(source), now), now)]
      ensures r.Err? ==> repo.work == Torn(old(repo.work), IndexPath(source), write.left)
    {
      hide IndexOf, ValidCase, CasesOf, DistinctIds;
      var index := BuildIndex(source, cfg.partition, documents);
      if write.Raises? {
        repo.work := Torn(repo.work, IndexPath(source), write.left);
        return Err("index write failed");
      }
      repo.work := repo.work[IndexPath(source) := IndexFile(index, CreatedAt(repo.work, IndexPath(source), now), now)];
      r := Ok(());
    }

    /** Both index documents, from one listing of the case documents. */
    method RefreshIndexes(now: int, writes: Outcomes, first: nat) returns (r: Result<()>)
      requires ValidTree(cfg.partition, repo.work)
      modifies repo`work
      ensures r.Ok? <==> writes(first).Completes? && writes(first + 1).Completes?
      ensures r.Ok? ==> repo.work == Refreshed(cfg.partition, old(repo.work), now)
      ensures AgreeOutside(old(repo.work), repo.work, {FacetIndexPath, SemanticIndexPath})
    {
      hide IndexOf, Documents, ValidCase, CasesIn, CasesOf, DistinctIds;
      CasesInAt(cfg.partition, repo.work);
      DocumentsValid(cfg.partition, CasesIn(repo.work));
      var documents := ListByPartition(CasesIn(repo.work));
      r := RefreshIndex(FacetSource, documents, now, writes(first));
      if r.Ok? {
        r := RefreshIndex(SemanticSource, documents, now, writes(first + 1));
      }
    }

    /** `_commit_case`: may fail before it stages anything. */
    method CommitCase(id: string, write: Outcome) returns (r: Result<()>)
      requires GitRepository.Valid(repo.Contents())
      requires Committed(repo.Contents(), CasePaths(id)) == Ok(Published(repo.Contents()))
      modifies repo
      ensures r.Ok? <==> write.Completes?
      ensures repo.Contents() == if r.Ok? then Published(old(repo.Contents())) else old(repo.Contents())
    {
      hide Committed, CasePaths, Published;
      if write.Raises? {
        return Err("commit failed");
      }
      var commit := repo.Commit(CasePaths(id));
      r := Ok(());
    }

    /** The operation went through: the state is the one the pure step gives, in at most one new clean revision. */
    twostate predicate Performed(op: Op)
      reads this, repo, statistics
    {
      && StepsTo(cfg, old(Current()), op, Current()) && Ready() && Clean(repo.Contents())
      && (repo.history == old(repo.history) || repo.history == old(repo.history) + [repo.work])
    }

    /**
      The operation raised after some of its writes.  HEAD and index are as they were, no other path was written, the
      statistics were saved only after all documents, and nothing but the commit can be missing once they are.
     */
    twostate predicate Interrupted(op: Op, writes: Outcomes)
      reads this, repo, statistics
    {
      && ValidTree(cfg.partition, old(repo.work)) && Accepts(cfg, old(repo.work), op)
      && repo.history == old(repo.history) && repo.index == old(repo.index)
      && AgreeOutside(old(repo.work), repo.work, OpPaths(op))
      && (DocumentsWritten(writes) ==> repo.work == TreeAfter(cfg, old(repo.work), op))
      && if StatisticsSaved(writes) then StepsTo(cfg, old(Current()), op, Current()) && Ready()
         else statistics.stored == old(statistics.stored)
    }

    lemma ReadyCases()
      requires Ready()
      ensures ValidTree(cfg.partition, repo.work) && ValidCases(cfg.partition, CasesIn(repo.work))
      ensures forall id :: id in CasesIn(repo.work) <==> CasePath(id) in repo.work
      ensures forall id :: id in CasesIn(repo.work) ==> repo.work[CasePath(id)] == CaseFile(CasesIn(repo.work)[id])
      ensures statistics.Recounts(CasesIn(repo.work))
    {
      ConsistentTree(cfg, Current());
    }

    /** `_execute_case_input`: refused, without any write, when the workspace is not clean. */
    method CreateNew(
      id: string, body: string, profile: seq<Field>, now: int, writes: Outcomes) returns (r: Result<Case>)
      requires Ready() && Accepts(cfg, repo.work, CreateCase(id, body, profile, now))
      modifies repo, statistics
      ensures r.Ok? <==>
                && old(Clean(repo.Contents()))
                && writes(0).Completes? && writes(1).Completes? && writes(2).Completes? && writes(3).Completes?
                && writes(4).Completes?
      ensures !old(Clean(repo.Contents())) ==>
                repo.Contents() == old(repo.Contents()) && statistics.stored == old(statistics.stored)
      ensures old(Clean(repo.Contents())) && r.Err? ==> Interrupted(CreateCase(id, body, profile, now), writes)
      ensures r.Ok? ==> Performed(CreateCase(id, body, profile, now)) && Holds(repo.work, id, r.value)
      ensures SchemaPath in old(repo.work) && old(repo.work)[SchemaPath].SchemaFile?
      ensures var projected := Project(cfg.lower, profile, SchemaIn(old(repo.work)).definitions);
              var c := Case(id, cfg.partition, body, profile, projected);
              && (r.Ok? ==> r.value == c)
              && (old(Clean(repo.Contents())) && DocumentsWritten(writes) ==>
                    CasesIn(repo.work) == old(CasesIn(repo.work))[id := c])
    {
      hide Consistent, Refreshed, CasesAfter, TreeAfter, StatisticsAfter, IsRecount, CasesIn, Project, IsFieldSet;
      hide AgreeOutside, CasePaths, Committed, ChangedPaths, Clean, StepsTo, ValidTree, Torn;
      ghost var before, r0, op := Current(), repo.Contents(), CreateCase(id, body, profile, now);
      ReadyCases();
      SchemaThere(cfg.partition, repo.work);
      CleanIffNothingChanged(r0);
      var _, changed := repo.Status();
      if changed != {} {
        return Err("workspace Git repository has uncommitted changes");
      }
      var facets := ProjectFromSemanticProfile(cfg.lower, profile, SchemaIn(repo.work).definitions);
      var c := Case(id, cfg.partition, body, profile, facets);
      CreateLeads(cfg, repo.work, id, body, profile, now);
      OwnPaths(op);
      if writes(0).Raises? {
        TornOutside(repo.work, CasePath(id), writes(0).left, OpPaths(op));
        repo.work := Torn(repo.work, CasePath(id), writes(0).left);
        return Err("case write failed");
      }
      repo.work := Stored(repo.work, c);
      ghost var stored := repo.work;
      var refreshed := RefreshIndexes(now, writes, 1);
      OutsideTogether(before.tree, stored, repo.work, OpPaths(op), {FacetIndexPath, SemanticIndexPath});
      if refreshed.Err? {
        return Err(refreshed.message);
      }
      label Written:
      var appended := statistics.AppendCaseObservation(c, writes(3).Completes?, CasesIn(before.tree));
      assert unchanged@Written(repo);
      if appended.Err? {
        return Err(appended.message);
      }
      Stepped(cfg, before, op, Current());
      OperationCommits(cfg, r0, repo.Contents(), op);
      PublishedClean(repo.Contents());
      StoredHolds(cfg.partition, before.tree, c, now);
      var commit := CommitCase(id, writes(4));
      r := if commit.Err? then Err(commit.message) else Ok(c);
    }

    /** `update_case`: facets are always projected again from the profile, whatever the caller changed. */
    method UpdateExisting(
      id: string, body: Option<string>, profile: Option<seq<Field>>, now: int,
      writes: Outcomes) returns (r: Result<(Case, Case)>)
      requires Ready() && (profile.Some? ==> IsFieldSet(profile.value))
      modifies repo, statistics
      ensures r.Ok? <==>
                && old(CasePath(id) in repo.work && Clean(repo.Contents()))
                && writes(0).Completes? && writes(1).Completes? && writes(2).Completes? && writes(3).Completes?
                && writes(4).Completes?
      ensures !old(CasePath(id) in repo.work && Clean(repo.Contents())) ==>
                repo.Contents() == old(repo.Contents()) && statistics.stored == old(statistics.stored)
      ensures old(CasePath(id) in repo.work && Clean(repo.Contents())) && r.Err? ==>
                Interrupted(UpdateCase(id, body, profile, now), writes)
      ensures r.Ok? ==> Performed(UpdateCase(id, body, profile, now))
      ensures r.Ok? ==> Holds(old(repo.work), id, r.value.0) && Holds(repo.work, id, r.value.1)
      ensures SchemaPath in old(repo.work) && old(repo.work)[SchemaPath].SchemaFile?
      ensures old(CasePath(id) in repo.work && Clean(repo.Contents())) ==>
                && id in old(CasesIn(repo.work))
                && var existing := old(CasesIn(repo.work))[id];
                   var next := profile.GetOr(existing.profile);
                   var projected := Project(cfg.lower, next, SchemaIn(old(repo.work)).definitions);
                   var c := Case(id, cfg.partition, body.GetOr(existing.body), next, projected);
                   && (r.Ok? ==> r.value == (existing, c))
                   && (DocumentsWritten(writes) ==> CasesIn(repo.work) == old(CasesIn(repo.work))[id := c])
    {
      hide Consistent, Refreshed, CasesAfter, TreeAfter, StatisticsAfter, IsRecount, CasesIn, Project, IsFieldSet;
      hide AgreeOutside, CasePaths, Committed, ChangedPaths, Clean, StepsTo, ValidTree, ValidCase, Torn;
      ghost var before, r0, op := Current(), repo.Contents(), UpdateCase(id, body, profile, now);
      ReadyCases();
      SchemaThere(cfg.partition, repo.work);
      if CasePath(id) !in repo.work {
        return Err("case not found");
      }
      CleanIffNothingChanged(r0);
      var _, changed := repo.Status();
      if changed != {} {
        return Err("workspace Git repository has uncommitted changes");
      }
      var existing := repo.work[CasePath(id)].c;
      var nextProfile := profile.GetOr(existing.profile);
      var facets := ProjectFromSemanticProfile(cfg.lower, nextProfile, SchemaIn(repo.work).definitions);
      var updated := existing.(body := body.GetOr(existing.body), profile := nextProfile, facets := facets);
      UpdateLeads(cfg, repo.work, existing, body, profile, now);
      OwnPaths(op);
      if writes(0).Raises? {
        TornOutside(repo.work, CasePath(id), writes(0).left, OpPaths(op));
        repo.work := Torn(repo.work, CasePath(id), writes(0).left);
        return Err("case write failed");
      }
      repo.work := Stored(repo.work, updated);
      ghost var stored := repo.work;
      var refreshed := RefreshIndexes(now, writes, 1);
      OutsideTogether(before.tree, stored, repo.work, OpPaths(op), {FacetIndexPath, SemanticIndexPath});
      if refreshed.Err? {
        return Err(refreshed.message);
      }
      label Written:
      var replaced := statistics.ReplaceCaseObservation(existing, updated, writes(3).Completes?, CasesIn(before.tree));
      assert unchanged@Written(repo);
      if replaced.Err? {
        return Err(replaced.message);
      }
      Stepped(cfg, before, op, Current());
      OperationCommits(cfg, r0, repo.Contents(), op);
      PublishedClean(repo.Contents());
      StoredHolds(cfg.partition, before.tree, updated, now);
      var commit := CommitCase(id, writes(4));
      r := if commit.Err? then Err(commit.message) else Ok((existing, updated));
    }

    /** `delete_case`. */
    method DeleteExisting(id: string, now: int, writes: Outcomes) returns (r: Result<Case>)
      requires Ready()
      modifies repo, statistics
      ensures r.Ok? <==>
                && old(CasePath(id) in repo.work && Clean(repo.Contents()))
                && writes(0).Completes? && writes(1).Completes? && writes(2).Completes? && writes(3).Completes?
                && writes(4).Completes?
      ensures !old(CasePath(id) in repo.work && Clean(repo.Contents())) ==>
                repo.Contents() == old(repo.Contents()) && statistics.stored == old(statistics.stored)
      ensures old(CasePath(id) in repo.work && Clean(repo.Contents())) && r.Err? ==>
                Interrupted(DeleteCase(id, now), writes)
      ensures r.Ok? ==> Performed(DeleteCase(id, now)) && Holds(old(repo.work), id, r.value)
      ensures old(CasePath(id) in repo.work && Clean(repo.Contents())) && DocumentsWritten(writes) ==>
                CasesIn(repo.work) == old(CasesIn(repo.work)) - {id}
    {
      hide Consistent, Refreshed, CasesAfter, TreeAfter, StatisticsAfter, IsRecount, CasesIn;
      hide AgreeOutside, CasePaths, Committed, ChangedPaths, Clean, StepsTo, ValidTree, ValidCase, Torn, Removed;
      hide EntriesOf;
      ghost var before, r0, op := Current(), repo.Contents(), DeleteCase(id, now);
      ReadyCases();
      if CasePath(id) !in repo.work {
        return Err("case not found");
      }
      CleanIffNothingChanged(r0);
      var _, changed := repo.Status();
      if changed != {} {
        return Err("workspace Git repository has uncommitted changes");
      }
      var existing := repo.work[CasePath(id)].c;
      DeleteLeads(cfg, repo.work, id, now);
      OwnPaths(op);
      if writes(0).Raises? {
        TornOutside(repo.work, CasePath(id), writes(0).left, OpPaths(op));
        repo.work := Torn(repo.work, CasePath(id), writes(0).left);
        return Err("case could not be deleted");
      }
      repo.work := repo.work - {CasePath(id)};
      ghost var rest := repo.work;
      var refreshed := RefreshIndexes(now, writes, 1);
      OutsideTogether(before.tree, rest, repo.work, OpPaths(op), {FacetIndexPath, SemanticIndexPath});
      if refreshed.Err? {
        return Err(refreshed.message);
      }
      statistics.CountedStored(CasesIn(before.tree));
      label Written:
      var removed := statistics.RemoveObservation(existing, writes(3).Completes?, CasesIn(before.tree));
      assert unchanged@Written(repo);
      if removed.Err? {
        return Err(removed.message);
      }
      Stepped(cfg, before, op, Current());
      OperationCommits(cfg, r0, repo.Contents(), op);
      PublishedClean(repo.Contents());
      var commit := CommitCase(id, writes(4));
      r := if commit.Err? then Err(commit.message) else Ok(existing);
    }
  }
}
