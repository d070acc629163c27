/**
  The documents of one partition's workspace and the indexes derived from them:
  internal/infrastructure/persistence/local/repositories.py and internal/domain/partition/store.py.
 */
module CaseWorkspace {
  import opened Options
  import opened Text
  import opened Sorting
  import opened Fields
  import opened Observations
  import opened StatisticsStore
  import opened ProfileIndex
  import opened Projection
  import opened GitRepository

  datatype Content =
    | CaseFile(c: Case)
    | IndexFile(index: Index, createdAt: int, updatedAt: int)
    | SchemaFile(schema: Schema, createdAt: int, updatedAt: int)
    | Blob(text: string)

  type Tree = map<Path, Content>

  /** What becomes of one write: a document write that raises may leave anything at its path. */
  datatype Outcome = Completes | Raises(left: Option<Content>)

  /** The outcomes of a call's writes, by position. */
  type Outcomes = nat -> Outcome

  predicate AllComplete(writes: Outcomes, first: nat, end: nat) {
    forall i :: first <= i < end ==> writes(i).Completes?
  }

  lemma TornOutside(tree: Tree, path: Path, left: Option<Content>, paths: set<Path>)
    requires path in paths
    ensures AgreeOutside(tree, Torn(tree, path, left), paths)
  {
  }

  // ----- the case collection

  function CaseIds(tree: Tree): set<string> {
    set p | p in tree && p.CasePath? && tree[p].CaseFile? :: p.id
  }

  function CasesIn(tree: Tree): map<string, Case> {
    map id | id in CaseIds(tree) :: tree[CasePath(id)].c
  }

  /** Every case document lies under its own id, in its own partition; every partition has a facet schema. */
  ghost predicate ValidTree(partition: string, tree: Tree) {
    && (forall id :: CasePath(id) in tree ==> CaseAt(partition, tree, id))
    && SchemaPath in tree && tree[SchemaPath].SchemaFile?
    && (FacetIndexPath in tree ==> tree[FacetIndexPath].IndexFile?)
    && (SemanticIndexPath in tree ==> tree[SemanticIndexPath].IndexFile?)
  }

  ghost predicate CaseAt(partition: string, tree: Tree, id: string)
    requires CasePath(id) in tree
  {
    var content := tree[CasePath(id)];
    content.CaseFile? && content.c.id == id && content.c.partition == partition && ValidCase(content.c)
  }

  lemma SchemaThere(partition: string, tree: Tree)
    requires ValidTree(partition, tree)
    ensures SchemaPath in tree && tree[SchemaPath].SchemaFile?
  {
  }

  /** A case collection of one partition. */
  ghost predicate ValidCases(partition: string, cases: map<string, Case>) {
    forall id :: id in cases ==> cases[id].id == id && cases[id].partition == partition && ValidCase(cases[id])
  }

  lemma CasesInAt(partition: string, tree: Tree)
    requires ValidTree(partition, tree)
    ensures forall id :: id in CasesIn(tree) <==> CasePath(id) in tree
    ensures forall id :: id in CasesIn(tree) ==> tree[CasePath(id)] == CaseFile(CasesIn(tree)[id])
    ensures ValidCases(partition, CasesIn(tree))
  {
    forall id ensures id in CaseIds(tree) <==> CasePath(id) in tree {
      if CasePath(id) in tree {
        assert CaseAt(partition, tree, id) && CasePath(id).CasePath?;
      }
    }
    forall id | id in CasesIn(tree) ensures CaseAt(partition, tree, id) {}
  }

  function Stored(tree: Tree, c: Case): Tree {
    tree[CasePath(c.id) := CaseFile(c)]
  }

  lemma StoredCases(partition: string, tree: Tree, c: Case)
    requires ValidTree(partition, tree) && c.partition == partition && ValidCase(c)
    ensures ValidTree(partition, Stored(tree, c)) && CasesIn(Stored(tree, c)) == CasesIn(tree)[c.id := c]
  {
    hide ValidCase;
    var stored := Stored(tree, c);
    forall id | CasePath(id) in stored ensures CaseAt(partition, stored, id) {
      assert id != c.id ==> CaseAt(partition, tree, id);
    }
    CasesInAt(partition, tree);
    CasesInAt(partition, stored);
    hide CasesIn, ValidTree;
    forall id | id in CasesIn(stored) ensures CasesIn(stored)[id] == CasesIn(tree)[c.id := c][id] {
      assert stored[CasePath(id)] == CaseFile(CasesIn(stored)[id]);
    }
  }

  lemma RemovedCases(partition: string, tree: Tree, id: string)
    requires ValidTree(partition, tree)
    ensures ValidTree(partition, tree - {CasePath(id)}) && CasesIn(tree - {CasePath(id)}) == CasesIn(tree) - {id}
  {
    hide ValidCase;
    var rest := tree - {CasePath(id)};
    forall x | CasePath(x) in rest ensures CaseAt(partition, rest, x) {
      assert CaseAt(partition, tree, x);
    }
    CasesInAt(partition, tree);
    CasesInAt(partition, rest);
    hide CasesIn, ValidTree;
    forall x | x in CasesIn(rest) ensures CasesIn(rest)[x] == CasesIn(tree)[x] {
      assert rest[CasePath(x)] == tree[CasePath(x)];
    }
  }

  // ----- listing

  const LISTED := 500

  function FileName(id: string): string {
    id + ".json"
  }

  function FileNames(ids: set<string>): set<string> {
    set id | id in ids :: FileName(id)
  }

  function IdOf(name: string): string {
    if |name| >= 5 then name[..|name| - 5] else ""
  }

  function CasesNamed(cases: map<string, Case>, names: seq<string>): seq<Case>
    requires forall name :: name in names ==> IdOf(name) in cases
  {
    seq(|names|, i requires 0 <= i < |names| => assert names[i] in names; cases[IdOf(names[i])])
  }

  lemma NamedIds(ids: set<string>)
    ensures forall name :: name in FileNames(ids) ==> IdOf(name) in ids && name == FileName(IdOf(name))
    ensures forall id :: id in ids ==> FileName(id) in FileNames(ids) && IdOf(FileName(id)) == id
  {
    forall id ensures IdOf(FileName(id)) == id {}
  }

  function FirstNames(names: seq<string>): seq<string> {
    if |names| > LISTED then names[..LISTED] else names
  }

  /** `list_by_partition`: the first five hundred case documents by file name. */
  ghost function Documents(cases: map<string, Case>): seq<Case> {
    NamedIds(cases.Keys);
    SortedToSet(FileNames(cases.Keys));
    var names := FirstNames(Sorted(FileNames(cases.Keys)));
    assert forall name :: name in names ==> name in ToSet(Sorted(FileNames(cases.Keys)));
    CasesNamed(cases, names)
  }

  /** The names a listing goes through belong to cases. */
  ghost predicate Listing(cases: map<string, Case>, names: seq<string>) {
    forall name :: name in names ==> IdOf(name) in cases
  }

  lemma DocumentsNamed(cases: map<string, Case>)
    ensures var names := FirstNames(Sorted(FileNames(cases.Keys)));
            Listing(cases, names) && Documents(cases) == CasesNamed(cases, names)
  {
    NamedIds(cases.Keys);
    SortedToSet(FileNames(cases.Keys));
    assert forall name :: name in FirstNames(Sorted(FileNames(cases.Keys))) ==>
      name in ToSet(Sorted(FileNames(cases.Keys)));
  }

  method ListByPartition(cases: map<string, Case>) returns (documents: seq<Case>)
    ensures documents == Documents(cases)
  {
    hide Documents, FileNames, IdOf, SortedListing;
    DocumentsNamed(cases);
    var names := SortedList(FileNames(cases.Keys));
    var listed := FirstNames(names);
    documents := [];
    for i := 0 to |listed|
      invariant Listing(cases, listed[..i]) && documents == CasesNamed(cases, listed[..i])
    {
      assert listed[i] in listed && listed[..i + 1] == listed[..i] + [listed[i]];
      documents := documents + [cases[IdOf(listed[i])]];
    }
    assert listed[..|listed|] == listed;
  }

  lemma DocumentsValid(partition: string, cases: map<string, Case>)
    requires ValidCases(partition, cases)
    ensures DistinctIds(Documents(cases)) && forall c :: c in Documents(cases) ==>
              c.id in cases && cases[c.id] == c && ValidCase(c)
    ensures |cases| <= LISTED ==> forall id :: id in cases ==> cases[id] in Documents(cases)
  {
    hide ValidCase, Sorted, FileName, FileNames, IdOf;
    var names, documents := Sorted(FileNames(cases.Keys)), Documents(cases);
    NamedIds(cases.Keys);
    SortedToSet(FileNames(cases.Keys));
    var listed := FirstNames(names);
    forall i | 0 <= i < |listed|
      ensures listed[i] in FileNames(cases.Keys) && documents[i] == cases[IdOf(listed[i])]
                && listed[i] == FileName(documents[i].id)
    {
      assert listed[i] in ToSet(names);
    }
    if |cases| <= LISTED {
      FileNamesSize(cases.Keys);
      forall id | id in cases ensures cases[id] in documents {
        assert FileName(id) in ToSet(names);
        var i :| 0 <= i < |names| && names[i] == FileName(id);
        assert documents[i] == cases[id];
      }
    }
  }

  /** The listing goes by file name, and what it leaves out comes after the first five hundred. */
  lemma ListedFirst(partition: string, cases: map<string, Case>)
    requires ValidCases(partition, cases)
    ensures var documents := Documents(cases);
            && |documents| == (if |cases| <= 500 then |cases| else 500)
            && (forall i, j :: 0 <= i < j < |documents| ==>
                  StringLe(documents[i].id + ".json", documents[j].id + ".json"))
            && forall id :: id in cases && cases[id] !in documents ==>
                 forall c :: c in documents ==> StringLe(c.id + ".json", id + ".json")
  {
    hide ValidCase, Sorted, FileNames, IdOf, StringLe, Documents;
    var names, documents := Sorted(FileNames(cases.Keys)), Documents(cases);
    NamedIds(cases.Keys);
    DocumentsNamed(cases);
    FileNamesSize(cases.Keys);
    var listed := FirstNames(names);
    forall i | 0 <= i < |names| ensures names[i] in FileNames(cases.Keys) && IdOf(names[i]) in cases
                                          && names[i] == FileName(IdOf(names[i])) {
      assert names[i] in ToSet(names);
    }
    assert forall i :: 0 <= i < |listed| ==> listed[i] == names[i];
    assert forall i :: 0 <= i < |listed| ==>
      documents[i] == cases[IdOf(listed[i])] && listed[i] == documents[i].id + ".json" && documents[i] in documents;
    forall id | id in cases && cases[id] !in documents
      ensures forall c :: c in documents ==> StringLe(c.id + ".json", id + ".json")
    {
      assert FileName(id) in ToSet(names);
      var k :| 0 <= k < |names| && names[k] == FileName(id);
      assert IdOf(names[k]) == id;
    }
  }

  lemma {:induction false} FileNamesSize(ids: set<string>)
    ensures |FileNames(ids)| == |ids|
  {
    if ids == {} {
      assert FileNames(ids) == {};
    } else {
      var id :| id in ids;
      FileNamesSize(ids - {id});
      NamedIds(ids);
      hide FileName, IdOf;
      assert FileNames(ids) == FileNames(ids - {id}) + {FileName(id)};
      assert FileName(id) !in FileNames(ids - {id}) by {
        NamedIds(ids - {id});
      }
    }
  }

  lemma {:induction false} CasesOfAt(partition: string, documents: seq<Case>, c: Case)
    requires DistinctIds(documents) && c in documents && c.partition == partition
    ensures c.id in CasesOf(partition, documents) && CasesOf(partition, documents)[c.id] == c
  {
    var front, last := documents[..|documents| - 1], documents[|documents| - 1];
    assert documents == front + [last];
    if c != last {
      CasesOfAt(partition, front, c);
      var i :| 0 <= i < |front| && front[i] == c;
      assert documents[i] == c && documents[|documents| - 1] == last;
    }
  }

  /** With at most five hundred cases the listing is complete. */
  lemma ListingComplete(partition: string, cases: map<string, Case>)
    requires ValidCases(partition, cases) && |cases| <= LISTED
    ensures CasesOf(partition, Documents(cases)) == cases
  {
    hide ValidCase, Documents, DistinctIds, CasesOf;
    var documents := Documents(cases);
    DocumentsValid(partition, cases);
    CasesOfMembers(partition, documents);
    forall id | id in cases
      ensures id in CasesOf(partition, documents) && CasesOf(partition, documents)[id] == cases[id]
    {
      CasesOfAt(partition, documents, cases[id]);
    }
  }

  // ----- the derived indexes

  /** The index of the listed documents. */
  ghost function ListedIndex(source: Source, partition: string, tree: Tree): Index {
    IndexOf(source, CasesOf(partition, Documents(CasesIn(tree))))
  }

  function IndexPath(source: Source): Path {
    if source.FacetSource? then FacetIndexPath else SemanticIndexPath
  }

  function CreatedAt(tree: Tree, path: Path, now: int): int {
    if path in tree && tree[path].IndexFile? then tree[path].createdAt else now
  }

  /** `refresh_facet_index` and `refresh_semantic_index` after a change of the case collection. */
  ghost function Refreshed(partition: string, tree: Tree, now: int): Tree {
    tree[FacetIndexPath :=
      IndexFile(ListedIndex(FacetSource, partition, tree), CreatedAt(tree, FacetIndexPath, now), now)]
        [SemanticIndexPath :=
          IndexFile(ListedIndex(SemanticSource, partition, tree), CreatedAt(tree, SemanticIndexPath, now), now)]
  }

  /** Each index document present is the index of the current cases. */
  ghost predicate IndexesCurrent(partition: string, tree: Tree) {
    && (FacetIndexPath in tree && tree[FacetIndexPath].IndexFile? ==>
          tree[FacetIndexPath].index == ListedIndex(FacetSource, partition, tree))
    && (SemanticIndexPath in tree && tree[SemanticIndexPath].IndexFile? ==>
          tree[SemanticIndexPath].index == ListedIndex(SemanticSource, partition, tree))
  }

  lemma SameCases(partition: string, tree: Tree, tree': Tree)
    requires ValidTree(partition, tree) && ValidTree(partition, tree')
    requires forall id :: At(tree, CasePath(id)) == At(tree', CasePath(id))
    ensures CasesIn(tree') == CasesIn(tree)
  {
    CasesInAt(partition, tree);
    CasesInAt(partition, tree');
    hide CasesIn, ValidTree;
    forall id ensures id in CasesIn(tree) <==> id in CasesIn(tree') {
      assert At(tree, CasePath(id)) == At(tree', CasePath(id));
    }
    forall id | id in CasesIn(tree) ensures CasesIn(tree)[id] == CasesIn(tree')[id] {
      assert At(tree, CasePath(id)) == At(tree', CasePath(id));
    }
  }

  lemma RefreshedCurrent(partition: string, tree: Tree, now: int)
    requires ValidTree(partition, tree)
    ensures ValidTree(partition, Refreshed(partition, tree, now))
              && CasesIn(Refreshed(partition, tree, now)) == CasesIn(tree)
    ensures IndexesCurrent(partition, Refreshed(partition, tree, now))
    ensures forall path :: path == FacetIndexPath || path == SemanticIndexPath ==>
              && path in Refreshed(partition, tree, now) && Refreshed(partition, tree, now)[path].IndexFile?
              && Refreshed(partition, tree, now)[path].updatedAt == now
              && Refreshed(partition, tree, now)[path].createdAt == if path in tree then tree[path].createdAt else now
  {
    hide ListedIndex, CasesIn, ValidCase;
    var refreshed := Refreshed(partition, tree, now);
    forall id | CasePath(id) in refreshed ensures CaseAt(partition, refreshed, id) {
      assert CaseAt(partition, tree, id);
    }
    SameCases(partition, tree, refreshed);
    SameListedIndex(partition, tree, refreshed);
  }

  lemma SameListedIndex(partition: string, tree: Tree, tree': Tree)
    requires CasesIn(tree') == CasesIn(tree)
    ensures ListedIndex(FacetSource, partition, tree') == ListedIndex(FacetSource, partition, tree)
    ensures ListedIndex(SemanticSource, partition, tree') == ListedIndex(SemanticSource, partition, tree)
  {
    hide CasesIn, Documents, IndexOf, CasesOf;
  }

  // ----- the schema document

  function SchemaIn(tree: Tree): Schema
    requires SchemaPath in tree && tree[SchemaPath].SchemaFile?
  {
    tree[SchemaPath].schema
  }

  /** `save_facet_schema`: an equal schema leaves the document, and its time of update, untouched. */
  function SchemaSaved(tree: Tree, schema: Schema, now: int): Tree {
    if SchemaPath in tree && tree[SchemaPath].SchemaFile? then
      if tree[SchemaPath].schema == schema then tree
      else tree[SchemaPath := SchemaFile(schema, tree[SchemaPath].createdAt, now)]
    else tree[SchemaPath := SchemaFile(schema, now, now)]
  }

  lemma SchemaSavedValid(partition: string, tree: Tree, schema: Schema, now: int)
    requires ValidTree(partition, tree)
    ensures ValidTree(partition, SchemaSaved(tree, schema, now))
              && CasesIn(SchemaSaved(tree, schema, now)) == CasesIn(tree)
    ensures SchemaIn(SchemaSaved(tree, schema, now)) == schema
    ensures var saved := SchemaSaved(tree, schema, now)[SchemaPath];
            && saved.createdAt == tree[SchemaPath].createdAt
            && saved.updatedAt == if schema == SchemaIn(tree) then tree[SchemaPath].updatedAt else now
  {
    var saved := SchemaSaved(tree, schema, now);
    forall id | CasePath(id) in saved ensures CaseAt(partition, saved, id) {
      assert CaseAt(partition, tree, id);
    }
    SameCases(partition, tree, saved);
  }
}
