/**
  A partition's Git workspace and the mutation transaction over it:
  internal/infrastructure/version_control/git/repository.py and internal/versioning/commit_coordinator.py.

  A repository is three maps from path to content: the tree of HEAD (the last of the commits), the
  index and the working tree.  A revision is a position in the list of commits.
 */
module GitRepository {
  import opened Options

  /** A path of the workspace; `CasePath(id)` is `cases/<id>.json`. */
  datatype Path = CasePath(id: string) | FacetIndexPath | SemanticIndexPath | SchemaPath | OtherPath(name: string)

  datatype Repo<T> = Repo(history: seq<map<Path, T>>, index: map<Path, T>, work: map<Path, T>)

  ghost predicate Valid<T>(r: Repo<T>) {
    r.history != []
  }

  function At<T>(tree: map<Path, T>, p: Path): Option<T> {
    if p in tree then Some(tree[p]) else None
  }

  function Head<T>(r: Repo<T>): map<Path, T>
    requires Valid(r)
  {
    r.history[|r.history| - 1]
  }

  /** What `git status --porcelain --untracked-files=all` lists. */
  function ChangedPaths<T(==)>(r: Repo<T>): set<Path>
    requires Valid(r)
  {
    set p | p in Head(r).Keys + r.index.Keys + r.work.Keys
      && (At(Head(r), p) != At(r.index, p) || At(r.index, p) != At(r.work, p))
  }

  ghost predicate Clean<T>(r: Repo<T>) {
    Valid(r) && r.index == Head(r) && r.work == Head(r)
  }

  lemma CleanIffNothingChanged<T>(r: Repo<T>)
    requires Valid(r)
    ensures Clean(r) <==> ChangedPaths(r) == {}
  {
    if ChangedPaths(r) == {} {
      forall p ensures At(Head(r), p) == At(r.index, p) && At(r.index, p) == At(r.work, p) {
        assert p !in ChangedPaths(r);
      }
      SameTree(Head(r), r.index);
      SameTree(r.index, r.work);
    }
  }

  lemma SameTree<T>(a: map<Path, T>, b: map<Path, T>)
    requires forall p :: At(a, p) == At(b, p)
    ensures a == b
  {
    forall p ensures p in a <==> p in b {
      assert At(a, p) == At(b, p);
    }
    forall p | p in a ensures a[p] == b[p] {
      assert At(a, p) == At(b, p);
    }
  }

  // ----- the commands

  /** `over` at the given paths, `base` elsewhere. */
  function Overlay<T>(base: map<Path, T>, over: map<Path, T>, paths: set<Path>): map<Path, T> {
    map p | p in base.Keys + over.Keys && (if p in paths then p in over else p in base) ::
      if p in paths then over[p] else base[p]
  }

  lemma OverlayAt<T>(base: map<Path, T>, over: map<Path, T>, paths: set<Path>, p: Path)
    ensures At(Overlay(base, over, paths), p) == if p in paths then At(over, p) else At(base, p)
  {
  }

  /**
    `git add`, `git diff --cached --quiet` and `git commit`; a path unknown to Git stops it before anything is staged.
   */
  function Committed<T(==)>(r: Repo<T>, paths: set<Path>): Result<Repo<T>>
    requires Valid(r)
  {
    if paths == {} then Err("version-control commit requires at least one path")
    else if !(paths <= r.index.Keys + r.work.Keys) then Err("pathspec did not match any files")
    else
      var staged := Overlay(r.index, r.work, paths);
      Ok(Repo(if staged == Head(r) then r.history else r.history + [staged], staged, r.work))
  }

  /** `git restore --source revision` of the paths which that revision has: only the working tree changes. */
  function Restored<T>(r: Repo<T>, revision: nat, paths: set<Path>): Repo<T>
    requires revision < |r.history|
  {
    r.(work := Overlay(r.work, r.history[revision], paths * r.history[revision].Keys))
  }

  /** `git clean -f`: files the index does not have are removed. */
  function Discarded<T>(r: Repo<T>, paths: set<Path>): Repo<T> {
    r.(work := map p | p in r.work && !(p in paths && p !in r.index) :: r.work[p])
  }

  function RolledBack<T>(r: Repo<T>, revision: nat, paths: set<Path>): Repo<T>
    requires revision < |r.history|
  {
    Restored(Discarded(r, paths), revision, paths)
  }

  // ----- what a transaction guarantees

  /** The repository a clean one becomes when only its working tree is written. */
  ghost predicate Unstaged<T>(r: Repo<T>) {
    Valid(r) && r.index == Head(r)
  }

  lemma RolledBackAt<T>(r: Repo<T>, paths: set<Path>, p: Path)
    requires Unstaged(r)
    ensures At(RolledBack(r, |r.history| - 1, paths).work, p) == if p in paths then At(Head(r), p) else At(r.work, p)
  {
  }

  /**
    Main result: before anything is staged, rolling back restores the base revision exactly when every changed path
    has been registered.
   */
  lemma RollbackRestores<T>(r: Repo<T>, paths: set<Path>)
    requires Unstaged(r)
    ensures var r' := RolledBack(r, |r.history| - 1, paths);
            && r'.history == r.history && r'.index == r.index
            && (Clean(r') <==> ChangedPaths(r) <= paths)
  {
    var r' := RolledBack(r, |r.history| - 1, paths);
    forall p ensures At(r'.work, p) == At(Head(r), p) <==> (p in ChangedPaths(r) ==> p in paths) {
      RolledBackAt(r, paths, p);
    }
    hide RolledBack, ChangedPaths;
    if ChangedPaths(r) <= paths {
      SameTree(r'.work, Head(r));
    } else {
      var p :| p in ChangedPaths(r) && p !in paths;
      assert At(r'.work, p) != At(Head(r), p);
    }
  }

  /**
    Main result: committing registered changes makes HEAD the base tree overlaid with the working tree at the
    registered paths, and leaves a clean tree exactly when every changed path has been registered.
   */
  lemma CommitOverlays<T>(r: Repo<T>, paths: set<Path>)
    requires Unstaged(r) && ChangedPaths(r) * paths != {}
    ensures Committed(r, ChangedPaths(r) * paths).Ok?
    ensures var r' := Committed(r, ChangedPaths(r) * paths).value;
            && Valid(r') && r'.work == r.work && r'.index == Head(r')
            && |r'.history| == |r.history| + 1 && r'.history[..|r.history|] == r.history
            && Head(r') == Overlay(Head(r), r.work, paths)
            && (Clean(r') <==> ChangedPaths(r) <= paths)
  {
    var registered := ChangedPaths(r) * paths;
    var staged := Overlay(r.index, r.work, registered);
    forall p ensures At(staged, p) == At(Overlay(Head(r), r.work, paths), p) {
      OverlayAt(r.index, r.work, registered, p);
      OverlayAt(Head(r), r.work, paths, p);
    }
    SameTree(staged, Overlay(Head(r), r.work, paths));
    var q :| q in registered;
    OverlayAt(r.index, r.work, registered, q);
    assert At(staged, q) != At(Head(r), q);
    OverlayIsWork(r, paths);
  }

  lemma OverlayIsWork<T>(r: Repo<T>, paths: set<Path>)
    requires Unstaged(r)
    ensures Overlay(Head(r), r.work, paths) == r.work <==> ChangedPaths(r) <= paths
  {
    var over := Overlay(Head(r), r.work, paths);
    forall p ensures At(over, p) == At(r.work, p) <==> (p in ChangedPaths(r) ==> p in paths) {
      OverlayAt(Head(r), r.work, paths, p);
    }
    hide Overlay, ChangedPaths;
    if ChangedPaths(r) <= paths {
      SameTree(over, r.work);
    } else {
      var p :| p in ChangedPaths(r) && p !in paths;
      assert At(over, p) != At(r.work, p);
    }
  }

  /** A commit of paths that cover every change leaves a clean tree, with or without a new revision. */
  lemma CommitCovers<T>(r: Repo<T>, paths: set<Path>)
    requires Unstaged(r) && ChangedPaths(r) <= paths && paths != {} && paths <= r.index.Keys + r.work.Keys
    ensures Committed(r, paths) == Ok(Published(r))
  {
    OverlayIsWork(r, paths);
  }

  /** The working tree as HEAD: with one more revision, unless it was HEAD already. */
  function Published<T(==)>(r: Repo<T>): Repo<T>
    requires Valid(r)
  {
    Repo(if r.work == Head(r) then r.history else r.history + [r.work], r.work, r.work)
  }

  lemma PublishedClean<T>(r: Repo<T>)
    requires Valid(r)
    ensures Clean(Published(r)) && Published(r).work == r.work
  {
  }

  /** Two trees agree outside the given paths. */
  ghost predicate AgreeOutside<T>(a: map<Path, T>, b: map<Path, T>, paths: set<Path>) {
    forall p :: p !in paths ==> At(a, p) == At(b, p)
  }

  lemma OutsideTogether<T>(a: map<Path, T>, b: map<Path, T>, c: map<Path, T>, paths: set<Path>, more: set<Path>)
    requires AgreeOutside(a, b, paths) && AgreeOutside(b, c, more) && more <= paths
    ensures AgreeOutside(a, c, paths)
  {
  }

  lemma ChangesWithin<T>(r: Repo<T>, paths: set<Path>)
    requires Unstaged(r)
    ensures ChangedPaths(r) <= paths <==> AgreeOutside(Head(r), r.work, paths)
  {
    forall p ensures p in ChangedPaths(r) <==> At(Head(r), p) != At(r.work, p) {}
  }

  /** What a write that raises may leave: a file is rewritten in place, so anything, or nothing, at its path. */
  function Torn<T>(tree: map<Path, T>, path: Path, left: Option<T>): map<Path, T> {
    if left.Some? then tree[path := left.value] else tree - {path}
  }

  /** A rollback does not reach a changed path that was never registered. */
  lemma UnregisteredStays()
    ensures var base := map[SchemaPath := "old"];
            var r := Repo([base], base, map[SchemaPath := "new"]);
            var r' := RolledBack(r, 0, {FacetIndexPath, SemanticIndexPath});
            Unstaged(r) && !Clean(r') && r'.work[SchemaPath] == "new"
  {
    var base: map<Path, string> := map[SchemaPath := "old"];
    var r := Repo([base], base, map[SchemaPath := "new"]);
    RolledBackAt(r, {FacetIndexPath, SemanticIndexPath}, SchemaPath);
    assert SchemaPath in RolledBack(r, 0, {FacetIndexPath, SemanticIndexPath}).work;
  }

  // ----- the objects

  datatype VersionCommit = VersionCommit(revision: nat, paths: set<Path>)

  class Workspace<T(==, !new)> {
    var history: seq<map<Path, T>>
    var index: map<Path, T>
    var work: map<Path, T>

    ghost function Contents(): Repo<T>
      reads this
    {
      Repo(history, index, work)
    }

    /** `GitRepository.status`: the current revision and the changed paths. */
    method Status() returns (revision: nat, changed: set<Path>)
      requires Valid(Contents())
      ensures revision == |history| - 1 && changed == ChangedPaths(Contents())
    {
      revision := |history| - 1;
      var head := history[revision];
      changed := set p
        | p in head.Keys + index.Keys + work.Keys && (At(head, p) != At(index, p) || At(index, p) != At(work, p));
    }

    method Commit(paths: set<Path>) returns (r: Result<VersionCommit>)
      requires Valid(Contents())
      modifies this
      ensures r.Ok? <==> Committed(old(Contents()), paths).Ok?
      ensures r.Err? ==> r.message == Committed(old(Contents()), paths).message && Contents() == old(Contents())
      ensures r.Ok? <==> paths != {} && forall p :: p in paths ==> p in old(index) || p in old(work)
      ensures r.Ok? ==> forall p :: At(index, p) == if p in paths then At(old(work), p) else At(old(index), p)
      ensures r.Ok? ==> history == if index == old(Head(Contents())) then old(history) else old(history) + [index]
      ensures work == old(work)
      ensures r.Ok? ==> Contents() == Committed(old(Contents()), paths).value
      ensures r.Ok? ==> r.value == VersionCommit(|history| - 1, if history == old(history) then {} else paths)
    {
      if paths == {} {
        return Err("version-control commit requires at least one path");
      }
      if !(paths <= index.Keys + work.Keys) {
        return Err("pathspec did not match any files");
      }
      index := Overlay(index, work, paths);
      if index == history[|history| - 1] {
        return Ok(VersionCommit(|history| - 1, {}));
      }
      history := history + [index];
      r := Ok(VersionCommit(|history| - 1, paths));
    }

    method Restore(revision: nat, paths: set<Path>)
      requires revision < |history|
      modifies this`work
      ensures Contents() == Restored(old(Contents()), revision, paths)
      ensures forall p :: At(work, p) ==
                if p in paths && p in history[revision] then At(history[revision], p) else At(old(work), p)
    {
      var tracked := set p | p in paths && p in history[revision];
      assert tracked == paths * history[revision].Keys;
      work := Overlay(work, history[revision], tracked);
    }

    method DiscardUntracked(paths: set<Path>)
      modifies this`work
      ensures Contents() == Discarded(old(Contents()), paths)
      ensures forall p :: At(work, p) == if p in paths && p !in index then None else At(old(work), p)
    {
      work := map p | p in work && !(p in paths && p !in index) :: work[p];
    }
  }

  class MutationTransaction<T(==, !new)> {
    const repo: Workspace<T>
    const baseRevision: nat
    var paths: set<Path>
    var closed: bool

    /** A transaction can only begin on a clean workspace; see `BeginTransaction`. */
    constructor (repo: Workspace<T>, baseRevision: nat)
      ensures this.repo == repo && this.baseRevision == baseRevision && paths == {} && !closed
    {
      this.repo := repo;
      this.baseRevision := baseRevision;
      paths := {};
      closed := false;
    }

    method RegisterPaths(more: set<Path>)
      modifies this`paths
      ensures paths == old(paths) + more
    {
      paths := paths + more;
    }

    /** Commits the registered changes, or closes without a commit when there are none. */
    method Commit() returns (r: Result<VersionCommit>)
      requires Valid(repo.Contents())
      modifies this`closed, repo
      ensures old(closed) ==> r.Err? && repo.Contents() == old(repo.Contents()) && closed
      ensures !old(closed) && old(Unstaged(repo.Contents())) ==>
                var r0 := old(repo.Contents());
                var registered := if paths == {} then ChangedPaths(r0) else ChangedPaths(r0) * paths;
                && r.Ok? && closed
                && (if registered == {} then r.value == VersionCommit(baseRevision, {}) && repo.Contents() == r0
                    else
                      && r.value == VersionCommit(|r0.history|, registered)
                      && Committed(r0, registered) == Ok(repo.Contents()))
    {
      if closed {
        return Err("version mutation transaction is already closed");
      }
      ghost var r0 := repo.Contents();
      var _, changed := repo.Status();
      var registered := changed;
      if paths != {} {
        registered := changed * paths;
      }
      if registered == {} {
        closed := true;
        return Ok(VersionCommit(baseRevision, {}));
      }
      ghost var unstaged := Unstaged(r0);
      if unstaged {
        assert registered == ChangedPaths(r0) * registered;
        CommitOverlays(r0, registered);
      }
      r := repo.Commit(registered);
      if r.Err? {
        return;
      }
      closed := true;
    }

    /** Restores the registered paths to the base revision. */
    method Rollback()
      requires baseRevision < |repo.history|
      modifies this`closed, repo`work
      ensures closed
      ensures repo.Contents() == if old(closed) then old(repo.Contents())
                else RolledBack(old(repo.Contents()), baseRevision, paths)
      ensures old(closed) ==> repo.work == old(repo.work)
      ensures !old(closed) ==>
                forall p :: At(repo.work, p) ==
                  if p in paths && p in repo.history[baseRevision] then At(repo.history[baseRevision], p)
                  else if p in paths && p !in repo.index then None
                  else At(old(repo.work), p)
    {
      if closed {
        return;
      }
      ghost var r0 := repo.Contents();
      if paths != {} {
        repo.DiscardUntracked(paths);
        repo.Restore(baseRevision, paths);
      } else {
        NothingRolledBack(r0, baseRevision);
      }
      closed := true;
    }
  }

  lemma NothingRolledBack<T>(r: Repo<T>, revision: nat)
    requires revision < |r.history|
    ensures RolledBack(r, revision, {}) == r
  {
  }

  /** `begin_transaction`: refused unless the workspace is clean. */
  method BeginTransaction<T(==, !new)>(repo: Workspace<T>) returns (r: Result<MutationTransaction<T>>)
    requires Valid(repo.Contents())
    ensures r.Ok? <==> Clean(repo.Contents())
    ensures r.Ok? ==> fresh(r.value) && r.value.repo == repo && r.value.baseRevision == |repo.history| - 1
    ensures r.Ok? ==> r.value.paths == {} && !r.value.closed
  {
    CleanIffNothingChanged(repo.Contents());
    var revision, changed := repo.Status();
    if changed != {} {
      return Err("versioned workspace must be clean before mutation");
    }
    var transaction := new MutationTransaction(repo, revision);
    r := Ok(transaction);
  }
}
