/**
  The materialised facet and semantic indexes: internal/domain/partition/profile_builder.py.

  Both indexes are rebuilt from the case documents, while the partition statistics are kept
  incrementally.  The results say what an index holds, and when the two views agree.
 */
module ProfileIndex {
  import opened Options
  import opened Text
  import opened Sorting
  import opened Fields
  import opened Statistics
  import opened Observations
  import opened StatisticsStore
  import Aggregator

  datatype ValueStat = ValueStat(value: string, count: nat)

  datatype KeyStat = KeyStat(key: string, count: nat, samples: seq<ValueStat>)

  datatype Index = Index(keyStats: seq<KeyStat>, caseCount: nat, keyCount: nat)

  const SAMPLES := 12

  /** Which of a case's two dictionaries an index is about. */
  datatype Source = FacetSource | SemanticSource

  function DictOf(c: Case, source: Source): seq<Field> {
    if source.FacetSource? then c.facets else c.profile
  }

  // ----- ranking

  /** Descending count, then ascending value. */
  predicate RankLe(a: ValueStat, b: ValueStat) {
    a.count > b.count || (a.count == b.count && StringLe(a.value, b.value))
  }

  lemma RankLeOrder()
    ensures TotalOrder(RankLe)
  {
    StringLeOrder();
  }

  function StatsOf(m: map<string, nat>): set<ValueStat> {
    set v | v in m :: ValueStat(v, m[v])
  }

  lemma StatsOfIn(m: map<string, nat>)
    ensures forall x :: x in StatsOf(m) <==> x.value in m && m[x.value] == x.count
  {
    forall x: ValueStat | x.value in m && m[x.value] == x.count ensures x in StatsOf(m) {
      assert x == ValueStat(x.value, m[x.value]);
    }
  }

  lemma StatsOfNext(m: map<string, nat>, todo: set<string>, v: string)
    requires v in todo && todo <= m.Keys
    ensures StatsOf(m - (todo - {v})) == StatsOf(m - todo) + {ValueStat(v, m[v])}
  {
    StatsOfIn(m - (todo - {v}));
    StatsOfIn(m - todo);
  }

  ghost predicate IsRanking(r: seq<ValueStat>, m: map<string, nat>) {
    SortedBy(RankLe, r) && Distinct(r) && ToSet(r) == StatsOf(m)
  }

  /** `sorted(m.items(), key=lambda item: (-item[1], item[0]))`. */
  ghost function Ranked(m: map<string, nat>): (r: seq<ValueStat>)
    ensures IsRanking(r, m)
  {
    RankLeOrder();
    SortSorted(RankLe, Listing(StatsOf(m)));
    SortKeepsDistinct(RankLe, Listing(StatsOf(m)));
    Sort(RankLe, Listing(StatsOf(m)))
  }

  lemma RankingUnique(r: seq<ValueStat>, r': seq<ValueStat>, m: map<string, nat>)
    requires IsRanking(r, m) && IsRanking(r', m)
    ensures r == r'
  {
    RankLeOrder();
    forall x ensures multiset(r)[x] == multiset(r')[x] {
      DistinctMultiset(r, x);
      DistinctMultiset(r', x);
      assert x in ToSet(r) <==> x in ToSet(r');
    }
    SortedUnique(RankLe, r, r');
  }

  method Rank(m: map<string, nat>) returns (r: seq<ValueStat>)
    ensures r == Ranked(m)
  {
    RankLeOrder();
    r := [];
    var todo := m.Keys;
    while todo != {}
      invariant todo <= m.Keys && IsRanking(r, m - todo)
    {
      var v :| v in todo;
      var item := ValueStat(v, m[v]);
      StatsOfIn(m - todo);
      StatsOfNext(m, todo, v);
      assert item !in ToSet(r);
      InsertSorted(RankLe, item, r);
      InsertKeepsDistinct(RankLe, item, r);
      todo := todo - {v};
      r := Insert(RankLe, item, r);
    }
    assert m - {} == m;
    RankingUnique(r, Ranked(m), m);
  }

  function Top(r: seq<ValueStat>): seq<ValueStat> {
    if |r| > SAMPLES then r[..SAMPLES] else r
  }

  /** The first twelve of a ranking: counted values, and none left out ranks before one taken. */
  lemma TopTwelve(m: map<string, nat>)
    ensures var top := Top(Ranked(m));
            && |top| == (if |m| > SAMPLES then SAMPLES else |m|)
            && SortedBy(RankLe, top) && Distinct(top)
            && (forall x :: x in top ==> x.value in m && m[x.value] == x.count)
            && (forall x, v :: x in top && v in m && ValueStat(v, m[v]) !in top ==> RankLe(x, ValueStat(v, m[v])))
  {
    var r, top := Ranked(m), Top(Ranked(m));
    RankedLength(m);
    StatsOfIn(m);
    forall x | x in top ensures x in StatsOf(m) {
      assert x in ToSet(r);
    }
    forall x, y | x in top && y in StatsOf(m) && y !in top ensures RankLe(x, y) {
      hide RankLe;
      assert y in ToSet(r);
      RestAfterTop(r, x, y);
    }
  }

  lemma RestAfterTop(r: seq<ValueStat>, x: ValueStat, y: ValueStat)
    requires SortedBy(RankLe, r) && x in Top(r) && y in r && y !in Top(r)
    ensures RankLe(x, y)
  {
    hide RankLe;
    var i :| 0 <= i < |Top(r)| && Top(r)[i] == x;
    var j :| 0 <= j < |r| && r[j] == y;
    assert r == Top(r) + r[|Top(r)|..];
  }

  lemma RankedLength(m: map<string, nat>)
    ensures |Ranked(m)| == |m|
  {
    DistinctLength(Ranked(m));
    StatsOfSize(m, m.Keys);
    assert (set v | v in m.Keys :: ValueStat(v, m[v])) == StatsOf(m);
  }

  lemma {:induction false} DistinctLength<T(!new)>(xs: seq<T>)
    requires Distinct(xs)
    ensures |ToSet(xs)| == |xs|
  {
    if xs != [] {
      DistinctLength(xs[1..]);
      assert ToSet(xs) == ToSet(xs[1..]) + {xs[0]};
    }
  }

  lemma {:induction false} StatsOfSize(m: map<string, nat>, keys: set<string>)
    requires keys <= m.Keys
    ensures |set v | v in keys :: ValueStat(v, m[v])| == |keys|
  {
    if keys == {} {
      assert (set v | v in keys :: ValueStat(v, m[v])) == {};
    } else {
      var k :| k in keys;
      StatsOfSize(m, keys - {k});
      assert (set v | v in keys :: ValueStat(v, m[v])) ==
        (set v | v in keys - {k} :: ValueStat(v, m[v])) + {ValueStat(k, m[k])};
    }
  }

  // ----- the reference

  /** The keys of a dictionary that have values. */
  function Plain(d: seq<Field>): Mapping {
    if d == [] then map[] else
    var before, f := Plain(d[..|d| - 1]), d[|d| - 1];
    if f.values == [] then before else before[f.key := f.values]
  }

  function PlainLive(source: Source, cases: map<string, Case>): map<string, Mapping> {
    map id | id in cases :: Plain(DictOf(cases[id], source))
  }

  ghost function KeyStatsOf(
    keyCounts: map<string, nat>, valueCounts: map<string, map<string, nat>>, ranked: seq<ValueStat>): seq<KeyStat> {
    seq(|ranked|, i requires 0 <= i < |ranked| =>
      KeyStat(ranked[i].value, ranked[i].count, Top(Ranked(Inner(valueCounts, ranked[i].value)))))
  }

  /** The index a direct recount over the cases gives. */
  ghost function IndexOf(source: Source, cases: map<string, Case>): Index {
    var live := PlainLive(source, cases);
    var keyStats := KeyStatsOf(KeyCounts(live), ValueCounts(live), Ranked(KeyCounts(live)));
    Index(keyStats, |cases|, |KeyCounts(live)|)
  }

  lemma {:induction false} PlainAt(d: seq<Field>)
    requires IsDict(d)
    ensures forall k :: k in Plain(d) <==> exists f :: f in d && f.key == k && f.values != []
    ensures forall f :: f in d && f.values != [] ==> Plain(d)[f.key] == f.values
  {
    if d != [] {
      var front, f := d[..|d| - 1], d[|d| - 1];
      PlainAt(front);
      assert d == front + [f];
      assert forall i :: 0 <= i < |front| ==> front[i] == d[i];
      assert forall g :: g in front ==> g.key != f.key;
    }
  }

  lemma PlainNormalised(d: seq<Field>)
    requires IsFieldSet(d)
    ensures Normalised(Plain(d))
  {
    PlainAt(d);
  }

  lemma PlainLiveNormalised(source: Source, cases: map<string, Case>)
    requires forall id :: id in cases ==> ValidCase(cases[id])
    ensures AllNormalised(PlainLive(source, cases))
  {
    forall id | id in cases ensures Normalised(PlainLive(source, cases)[id]) {
      PlainNormalised(DictOf(cases[id], source));
    }
  }

  // ----- the builders

  function StripAll(values: seq<string>): seq<string> {
    if values == [] then [] else
    var before, v := StripAll(values[..|values| - 1]), Strip(values[|values| - 1]);
    if v == "" then before else before + [v]
  }

  lemma {:induction false} StripAllClean(values: seq<string>)
    requires IsClean(values)
    ensures StripAll(values) == values
  {
    if values != [] {
      var front, last := values[..|values| - 1], values[|values| - 1];
      StripAllClean(front);
      StripIdentity(last);
      assert values == front + [last];
    }
  }

  method StripValues(raw: seq<string>) returns (values: seq<string>)
    ensures values == StripAll(raw)
  {
    values := [];
    for i := 0 to |raw|
      invariant values == StripAll(raw[..i])
    {
      assert raw[..i + 1][..i] == raw[..i];
      var value := Strip(raw[i]);
      if value != "" {
        values := values + [value];
      }
    }
    assert raw[..|raw|] == raw;
  }

  method CountValues(counts0: map<string, nat>, values: seq<string>) returns (counts: map<string, nat>)
    ensures counts == AddCounts(counts0, values)
  {
    hide AddCounts;
    counts := counts0;
    Aggregator.ApplyNothing(counts0, map[], "", "");
    for i := 0 to |values|
      invariant counts == AddCounts(counts0, values[..i])
    {
      assert values[..i + 1] == values[..i] + [values[i]];
      Aggregator.AddCountsStep(counts0, values[..i], values[i]);
      counts := Aggregator.Increment(counts, values[i]);
    }
    assert values[..|values|] == values;
  }

  lemma CountEntry(
    keyCounts: map<string, nat>, valueCounts: map<string, map<string, nat>>, done: Mapping, key: string,
    values: seq<string>)
    requires key !in done
    ensures AddKeys(keyCounts, done[key := values]) == Aggregator.Increment(AddKeys(keyCounts, done), key)
    ensures AddValues(valueCounts, done[key := values]) ==
              AddValues(valueCounts, done)[key := AddCounts(Inner(AddValues(valueCounts, done), key), values)]
  {
    hide AddKeys, AddValues, AddCounts, Inner, Aggregator.Increment;
    var one: Mapping := map[key := values];
    assert done + one == done[key := values];
    Aggregator.AddKeysCompose(keyCounts, done, one);
    Aggregator.AddKeysOne(AddKeys(keyCounts, done), key, values);
    Aggregator.AddValuesCompose(valueCounts, done, one);
    Aggregator.AddValuesOne(AddValues(valueCounts, done), key, values);
  }

  lemma CountNothing(keyCounts: map<string, nat>, valueCounts: map<string, map<string, nat>>)
    ensures AddKeys(keyCounts, map[]) == keyCounts && AddValues(valueCounts, map[]) == valueCounts
  {
  }

  lemma PlainSnoc(d: seq<Field>, i: nat)
    requires IsFieldSet(d) && i < |d|
    ensures Plain(d[..i + 1]) == if d[i].values == [] then Plain(d[..i]) else Plain(d[..i])[d[i].key := d[i].values]
    ensures d[i].key !in Plain(d[..i])
    ensures Strip(d[i].key) == d[i].key && d[i].key != "" && StripAll(d[i].values) == d[i].values
  {
    assert d[i] in d;
    StripIdentity(d[i].key);
    StripAllClean(d[i].values);
    assert d[..i + 1][..i] == d[..i];
    PlainAt(d[..i]);
  }

  /** One document's keys and values counted in. */
  method CountDocument(d: seq<Field>, keyCounts0: map<string, nat>, valueCounts0: map<string, map<string, nat>>)
    returns (keyCounts: map<string, nat>, valueCounts: map<string, map<string, nat>>)
    requires IsFieldSet(d)
    ensures keyCounts == AddKeys(keyCounts0, Plain(d)) && valueCounts == AddValues(valueCounts0, Plain(d))
  {
    hide AddKeys, AddValues, AddCounts, Strip, StripAll, IsFieldSet, Plain;
    keyCounts, valueCounts := keyCounts0, valueCounts0;
    CountNothing(keyCounts0, valueCounts0);
    PlainEmpty();
    for i := 0 to |d|
      invariant keyCounts == AddKeys(keyCounts0, Plain(d[..i]))
      invariant valueCounts == AddValues(valueCounts0, Plain(d[..i]))
    {
      PlainSnoc(d, i);
      var normalizedKey := Strip(d[i].key);
      var values := StripValues(d[i].values);
      if normalizedKey == "" || values == [] {
        continue;
      }
      CountEntry(keyCounts0, valueCounts0, Plain(d[..i]), normalizedKey, values);
      keyCounts := Aggregator.Increment(keyCounts, normalizedKey);
      var counts := CountValues(Inner(valueCounts, normalizedKey), values);
      valueCounts := valueCounts[normalizedKey := counts];
    }
    assert d[..|d|] == d;
  }

  lemma PlainEmpty()
    ensures Plain([]) == map[]
  {
  }

  lemma PlainLiveUpdate(source: Source, cases: map<string, Case>, c: Case)
    requires ValidCase(c) && forall id :: id in cases ==> ValidCase(cases[id])
    ensures PlainLive(source, cases[c.id := c]) == PlainLive(source, cases)[c.id := Plain(DictOf(c, source))]
    ensures AllNormalised(PlainLive(source, cases)) && Normalised(Plain(DictOf(c, source)))
  {
    PlainLiveNormalised(source, cases);
    PlainNormalised(DictOf(c, source));
    hide Plain;
  }

  lemma CountCase(source: Source, cases: map<string, Case>, c: Case)
    requires c.id !in cases && ValidCase(c) && forall id :: id in cases ==> ValidCase(cases[id])
    ensures var live, live' := PlainLive(source, cases), PlainLive(source, cases[c.id := c]);
            && AddKeys(KeyCounts(live), Plain(DictOf(c, source))) == KeyCounts(live')
            && AddValues(ValueCounts(live), Plain(DictOf(c, source))) == ValueCounts(live')
  {
    assert PlainLive(source, cases).Keys == cases.Keys;
    hide Plain, PlainLive, AddKeys, AddValues, KeyCounts, ValueCounts, ValidCase, Normalised, AllNormalised;
    PlainLiveUpdate(source, cases, c);
    CountSource(PlainLive(source, cases), c.id, Plain(DictOf(c, source)));
  }

  lemma CountSource(live: map<string, Mapping>, id: string, entries: Mapping)
    requires id !in live && AllNormalised(live) && Normalised(entries)
    ensures AddKeys(KeyCounts(live), entries) == KeyCounts(live[id := entries])
    ensures AddValues(ValueCounts(live), entries) == ValueCounts(live[id := entries])
  {
    ReferenceWellFormed("", live);
    ReferenceWellFormed("", live[id := entries]);
    AddKeysCounts(live, id, entries);
    AddValuesCounts(live, id, entries);
  }

  lemma CasesOfStep(partition: string, documents: seq<Case>, i: nat)
    requires i < |documents| && DistinctIds(documents) && forall c :: c in documents ==> ValidCase(c)
    ensures var cases, c := CasesOf(partition, documents[..i]), documents[i];
            && CasesOf(partition, documents[..i + 1]) == (if c.partition == partition then cases[c.id := c] else cases)
            && c.id !in cases && ValidCase(c) && forall id :: id in cases ==> ValidCase(cases[id])
  {
    assert documents[..i + 1][..i] == documents[..i];
    CasesOfMembers(partition, documents[..i]);
    var cases := CasesOf(partition, documents[..i]);
    forall id | id in cases ensures cases[id] in documents && id != documents[i].id {
      var j :| 0 <= j < i && documents[..i][j] == cases[id];
      assert documents[j] == cases[id];
    }
  }

  lemma {:induction false} CasesOfMembers(partition: string, documents: seq<Case>)
    ensures forall id :: id in CasesOf(partition, documents) ==>
              CasesOf(partition, documents)[id] in documents && CasesOf(partition, documents)[id].id == id
              && CasesOf(partition, documents)[id].partition == partition
  {
    if documents != [] {
      CasesOfMembers(partition, documents[..|documents| - 1]);
    }
  }

  lemma KeyStatsNone(keyCounts: map<string, nat>, valueCounts: map<string, map<string, nat>>)
    ensures KeyStatsOf(keyCounts, valueCounts, []) == []
  {
  }

  lemma KeyStatsSnoc(
    keyCounts: map<string, nat>, valueCounts: map<string, map<string, nat>>, ranked: seq<ValueStat>, i: nat)
    requires i < |ranked|
    ensures KeyStatsOf(keyCounts, valueCounts, ranked[..i + 1]) == KeyStatsOf(keyCounts, valueCounts, ranked[..i]) +
              [KeyStat(ranked[i].value, ranked[i].count, Top(Ranked(Inner(valueCounts, ranked[i].value))))]
  {
    hide Ranked, Top, Inner;
  }

  method BuildKeyStats(
    keyCounts: map<string, nat>, valueCounts: map<string, map<string, nat>>) returns (keyStats: seq<KeyStat>)
    ensures keyStats == KeyStatsOf(keyCounts, valueCounts, Ranked(keyCounts))
  {
    hide KeyStatsOf, Top, Inner, IsRanking;
    var ranked := Rank(keyCounts);
    keyStats := [];
    KeyStatsNone(keyCounts, valueCounts);
    for i := 0 to |ranked|
      invariant keyStats == KeyStatsOf(keyCounts, valueCounts, ranked[..i])
    {
      KeyStatsSnoc(keyCounts, valueCounts, ranked, i);
      var samples := Rank(Inner(valueCounts, ranked[i].value));
      keyStats := keyStats + [KeyStat(ranked[i].value, ranked[i].count, Top(samples))];
    }
    assert ranked[..|ranked|] == ranked;
  }

  /**
    `build_facet_index_document` and `build_semantic_index_document`, which differ only in the dictionary they read.
   */
  method BuildIndex(source: Source, partition: string, documents: seq<Case>) returns (index: Index)
    requires DistinctIds(documents) && forall c :: c in documents ==> ValidCase(c)
    ensures index == IndexOf(source, CasesOf(partition, documents))
  {
    hide KeyCounts, ValueCounts, AddKeys, AddValues, PlainLive, CasesOf, ValidCase, KeyStatsOf, DistinctIds, Plain;
    var keyCounts: map<string, nat>, valueCounts: map<string, map<string, nat>>, caseCount := map[], map[], 0;
    NothingCounted(source, partition);
    for i := 0 to |documents|
      invariant var cases := CasesOf(partition, documents[..i]);
                && keyCounts == KeyCounts(PlainLive(source, cases))
                && valueCounts == ValueCounts(PlainLive(source, cases))
                && caseCount == |cases|
    {
      CasesOfStep(partition, documents, i);
      if documents[i].partition != partition {
        continue;
      }
      CountCase(source, CasesOf(partition, documents[..i]), documents[i]);
      ValidDict(documents[i], source);
      keyCounts, valueCounts := CountDocument(DictOf(documents[i], source), keyCounts, valueCounts);
      caseCount := caseCount + 1;
    }
    assert documents[..|documents|] == documents;
    var keyStats := BuildKeyStats(keyCounts, valueCounts);
    index := Index(keyStats, caseCount, |keyCounts|);
  }

  lemma ValidDict(c: Case, source: Source)
    requires ValidCase(c)
    ensures IsFieldSet(DictOf(c, source))
  {
  }

  lemma NothingCounted(source: Source, partition: string)
    ensures CasesOf(partition, []) == map[]
    ensures KeyCounts(PlainLive(source, map[])) == map[] && ValueCounts(PlainLive(source, map[])) == map[]
  {
    assert PlainLive(source, map[]) == map[];
    Aggregator.EmptyRecount(partition);
  }

  // ----- the two views

  /** The one fact used about `str.casefold`: it makes no text empty. */
  ghost predicate KeepsText(fold: string -> string) {
    forall k :: fold(k) == "" <==> k == ""
  }

  function FieldName(source: Source): string {
    if source.FacetSource? then "facet" else "semantic_profile"
  }

  /** The key reference under which the statistics count a key. */
  function StatRef(fold: string -> string, source: Source, k: string): string {
    KeyRef(FieldName(source), fold(k))
  }

  /** Some key of the dictionary that has values is spelled like `k`. */
  ghost predicate Spelled(fold: string -> string, d: seq<Field>, k: string) {
    exists k' :: k' in Plain(d) && fold(k') == fold(k)
  }

  ghost predicate OnlySpelling(fold: string -> string, d: seq<Field>, k: string) {
    forall k' :: k' in Plain(d) && fold(k') == fold(k) ==> k' == k
  }

  lemma ItemsClean(values: seq<string>)
    requires IsClean(values)
    ensures Items(values) == ToSet(values)
  {
    forall v | v in values ensures Strip(v) == v {
      StripIdentity(v);
    }
    forall x ensures x in Items(values) <==> x in values {
      if x in values {
        assert Strip(x) == x;
      }
    }
  }

  lemma FrontIsFieldSet(d: seq<Field>)
    requires IsFieldSet(d) && d != []
    ensures var front, f := d[..|d| - 1], d[|d| - 1];
            && IsFieldSet(front) && f.key != "" && Strip(f.key) == f.key && Items(f.values) == ToSet(f.values)
            && (f.values == [] <==> Items(f.values) == {})
            && Plain(d) == (if f.values == [] then Plain(front) else Plain(front)[f.key := f.values])
            && f.key !in Plain(front)
  {
    FieldSetParts(d);
    hide IsFieldSet, Plain, Strip, Items;
    var f := d[|d| - 1];
    ItemsClean(f.values);
    assert f.values != [] ==> f.values[0] in ToSet(f.values);
    PlainSnoc(d, |d| - 1);
    assert d[..|d|] == d;
  }

  lemma FieldSetParts(d: seq<Field>)
    requires IsFieldSet(d) && d != []
    ensures IsFieldSet(d[..|d| - 1]) && IsClean(d[|d| - 1].values)
  {
    var front := d[..|d| - 1];
    assert d[|d| - 1] in d;
    assert forall i :: 0 <= i < |front| ==> front[i] == d[i];
    assert forall g :: g in front ==> g in d;
  }

  lemma {:induction false} NormalizedSpelled(fold: string -> string, d: seq<Field>, k: string)
    requires IsFieldSet(d) && KeepsText(fold) && k != ""
    ensures fold(k) in NormalizedMapping(fold, d) <==> Spelled(fold, d, k)
    ensures OnlySpelling(fold, d, k) && k in Plain(d) ==>
              fold(k) in NormalizedMapping(fold, d) && NormalizedMapping(fold, d)[fold(k)] == Sorted(ToSet(Plain(d)[k]))
  {
    if d != [] {
      FrontIsFieldSet(d);
      var front, f := d[..|d| - 1], d[|d| - 1];
      NormalizedSpelled(fold, front, k);
      hide Plain, Items, Sorted, Strip, IsFieldSet;
      assert f.values != [] && fold(f.key) == fold(k) ==> f.key in Plain(d);
      assert forall k' :: k' in Plain(front) ==> k' in Plain(d);
    }
  }

  /** A source of the statistics has a key of the field exactly when its dictionary has a spelling of it. */
  lemma EntriesSpelled(fold: string -> string, source: Source, c: Case, k: string)
    requires ValidCase(c) && KeepsText(fold) && k != ""
    ensures StatRef(fold, source, k) in EntriesOf(fold, c) <==> Spelled(fold, DictOf(c, source), k)
    ensures OnlySpelling(fold, DictOf(c, source), k) && k in Plain(DictOf(c, source)) ==>
              StatRef(fold, source, k) in EntriesOf(fold, c)
              && ToSet(EntriesOf(fold, c)[StatRef(fold, source, k)]) == ToSet(Plain(DictOf(c, source))[k])
  {
    hide Entries, NormalizedMapping, Plain, Spelled, OnlySpelling;
    EntriesAt(ObservationOf(fold, c), FieldName(source), fold(k));
    NormalizedSpelled(fold, DictOf(c, source), k);
  }

  lemma StatHaving(fold: string -> string, source: Source, cases: map<string, Case>, k: string)
    requires KeepsText(fold) && k != "" && forall id :: id in cases ==> ValidCase(cases[id])
    ensures Having(Live(fold, cases), StatRef(fold, source, k)) == set id
              | id in cases && Spelled(fold, DictOf(cases[id], source), k)
    ensures Having(PlainLive(source, cases), k) == set id | id in cases && k in Plain(DictOf(cases[id], source))
    ensures Having(PlainLive(source, cases), k) <= Having(Live(fold, cases), StatRef(fold, source, k))
  {
    hide Plain, EntriesOf, StatRef, ValidCase;
    forall id | id in cases
      ensures StatRef(fold, source, k) in EntriesOf(fold, cases[id]) <==> Spelled(fold, DictOf(cases[id], source), k)
    {
      EntriesSpelled(fold, source, cases[id], k);
    }
  }

  lemma SubsetSize<T>(a: set<T>, b: set<T>)
    requires a <= b
    ensures |a| == |b| <==> a == b
  {
    assert b == a + (b - a);
  }

  /**
    Main result: an index's count of a key equals the statistic of the key's folded form exactly when every case
    with some spelling of the key has the key itself.
   */
  lemma KeyCountsAgree(fold: string -> string, source: Source, partition: string, cases: map<string, Case>, k: string)
    requires KeepsText(fold) && k != "" && forall id :: id in cases ==> ValidCase(cases[id])
    ensures Count(KeyCounts(PlainLive(source, cases)), k) <=
              Count(Stats(partition, Live(fold, cases)).keyStats, StatRef(fold, source, k))
    ensures Count(KeyCounts(PlainLive(source, cases)), k) ==
              Count(Stats(partition, Live(fold, cases)).keyStats, StatRef(fold, source, k)) <==>
              forall id :: id in cases && Spelled(fold, DictOf(cases[id], source), k) ==>
                k in Plain(DictOf(cases[id], source))
  {
    hide Spelled, Plain, StatRef, PlainLive, Live, KeyCounts, Having;
    StatHaving(fold, source, cases, k);
    var inIndex, inStats := Having(PlainLive(source, cases), k), Having(Live(fold, cases), StatRef(fold, source, k));
    CountsAt(PlainLive(source, cases), k, "");
    CountsAt(Live(fold, cases), StatRef(fold, source, k), "");
    SubsetSize(inIndex, inStats);
    assert inIndex + (inStats - inIndex) == inStats;
    if forall id :: id in cases && Spelled(fold, DictOf(cases[id], source), k) ==>
        k in Plain(DictOf(cases[id], source)) {
      assert inIndex == inStats;
    } else {
      var id :| id in cases && Spelled(fold, DictOf(cases[id], source), k) && k !in Plain(DictOf(cases[id], source));
      assert id in inStats && id !in inIndex;
    }
  }

  function Tagged(id: string, key: string): Case {
    Case(id, "p", "", [], [Field(key, ["x"])])
  }

  lemma TaggedPlain(id: string, key: string)
    requires key != "" && IsStripped(key)
    ensures ValidCase(Tagged(id, key)) && Plain(DictOf(Tagged(id, key), FacetSource)) == map[key := ["x"]]
  {
    var d := [Field(key, ["x"])];
    assert IsClean(["x"]) && IsFieldSet(d);
    FrontIsFieldSet(d);
    assert d[..0] == [] && Plain([]) == map[];
  }

  /** One case spells the key "OS", another "os": the index counts two keys once, the statistics one key twice. */
  lemma TwoSpellingsDisagree(fold: string -> string)
    requires KeepsText(fold) && fold("OS") == fold("os")
    ensures var cases := map["c1" := Tagged("c1", "OS"), "c2" := Tagged("c2", "os")];
            Count(KeyCounts(PlainLive(FacetSource, cases)), "OS") <
              Count(Stats("p", Live(fold, cases)).keyStats, StatRef(fold, FacetSource, "OS"))
  {
    var cases := map["c1" := Tagged("c1", "OS"), "c2" := Tagged("c2", "os")];
    TaggedPlain("c1", "OS");
    TaggedPlain("c2", "os");
    hide ValidCase, Plain, PlainLive, Live, KeyCounts, StatRef, Tagged;
    assert "os" in Plain(DictOf(cases["c2"], FacetSource)) && "OS" !in Plain(DictOf(cases["c2"], FacetSource));
    assert Spelled(fold, DictOf(cases["c2"], FacetSource), "OS");
    KeyCountsAgree(fold, FacetSource, "p", cases, "OS");
  }

  /** No two different keys with values, in the same or different cases, fold to the same text. */
  ghost predicate DistinctUnderFold(fold: string -> string, source: Source, cases: map<string, Case>) {
    forall id, id', k, k' ::
      (id in cases && id' in cases && k in Plain(DictOf(cases[id], source)) && k' in Plain(DictOf(cases[id'], source))
       && fold(k) == fold(k')) ==> k == k'
  }

  lemma ValuesAgree(fold: string -> string, source: Source, cases: map<string, Case>, k: string)
    requires KeepsText(fold) && k != "" && forall id :: id in cases ==> ValidCase(cases[id])
    requires forall id :: id in cases ==> OnlySpelling(fold, DictOf(cases[id], source), k)
    ensures ValueCountsAt(PlainLive(source, cases), k) == ValueCountsAt(Live(fold, cases), StatRef(fold, source, k))
  {
    hide Plain, EntriesOf, StatRef, OnlySpelling, ValidCase;
    var live, plain, ref := Live(fold, cases), PlainLive(source, cases), StatRef(fold, source, k);
    forall id | id in cases
      ensures ref in live[id] <==> k in plain[id]
      ensures k in plain[id] ==> ToSet(live[id][ref]) == ToSet(plain[id][k])
    {
      EntriesSpelled(fold, source, cases[id], k);
      SpelledOnly(fold, DictOf(cases[id], source), k);
    }
    forall v ensures HavingValue(live, ref, v) == HavingValue(plain, k, v) {
      assert forall id :: id in cases && k in plain[id] ==> (v in ToSet(live[id][ref]) <==> v in ToSet(plain[id][k]));
    }
    SameValueCounts(live, ref, plain, k);
  }

  lemma SpelledOnly(fold: string -> string, d: seq<Field>, k: string)
    requires OnlySpelling(fold, d, k)
    ensures Spelled(fold, d, k) <==> k in Plain(d)
  {
  }

  lemma SameValueCounts(live: map<string, Mapping>, r: string, live': map<string, Mapping>, r': string)
    requires forall v :: HavingValue(live, r, v) == HavingValue(live', r', v)
    ensures ValueCountsAt(live, r) == ValueCountsAt(live', r')
  {
    forall v ensures v in ValuesAt(live, r) <==> v in ValuesAt(live', r') {
      RecordedAt(live, r, v, "");
      RecordedAt(live', r', v, "");
      assert HavingValue(live, r, v) == HavingValue(live', r', v);
    }
    forall v | v in ValuesAt(live, r) ensures ValueCountsAt(live, r)[v] == ValueCountsAt(live', r')[v] {
      assert HavingValue(live, r, v) == HavingValue(live', r', v);
    }
  }

  /** An index entry agrees with the statistics of its folded key: same count, and the true top twelve of its values. */
  ghost predicate EntryAgrees(fold: string -> string, source: Source, s: Snapshot, entry: KeyStat) {
    var ref := StatRef(fold, source, entry.key);
    && Count(s.keyStats, ref) == entry.count > 0
    && entry.samples == Top(Ranked(Inner(s.valueStats, ref)))
  }

  lemma KeyStatsIn(
    keyCounts: map<string, nat>, valueCounts: map<string, map<string, nat>>, ranked: seq<ValueStat>, entry: KeyStat)
    ensures entry in KeyStatsOf(keyCounts, valueCounts, ranked) <==>
              ValueStat(entry.key, entry.count) in ranked && entry.samples == Top(Ranked(Inner(valueCounts, entry.key)))
  {
    hide Ranked, Top, Inner;
    var entries := KeyStatsOf(keyCounts, valueCounts, ranked);
    if entry in entries {
      var i :| 0 <= i < |ranked| && entry == entries[i];
      assert ranked[i] in ranked;
    }
    if ValueStat(entry.key, entry.count) in ranked && entry.samples == Top(Ranked(Inner(valueCounts, entry.key))) {
      var i :| 0 <= i < |ranked| && ranked[i] == ValueStat(entry.key, entry.count);
      assert entries[i] == entry;
    }
  }

  lemma RankedIn(m: map<string, nat>, x: ValueStat)
    ensures x in Ranked(m) <==> x.value in m && m[x.value] == x.count
  {
    StatsOfIn(m);
    assert x in Ranked(m) <==> x in ToSet(Ranked(m));
  }

  lemma IndexEntry(source: Source, cases: map<string, Case>, entry: KeyStat)
    ensures entry in IndexOf(source, cases).keyStats <==>
              && entry.key in KeyCounts(PlainLive(source, cases))
              && entry.count == KeyCounts(PlainLive(source, cases))[entry.key]
              && entry.samples == Top(Ranked(ValueCountsAt(PlainLive(source, cases), entry.key)))
  {
    var live := PlainLive(source, cases);
    assert entry.key in KeyCounts(live) ==> Inner(ValueCounts(live), entry.key) == ValueCountsAt(live, entry.key);
    hide PlainLive, Top, KeyStatsOf, Ranked, ValueCountsAt, KeyCounts, ValueCounts, Inner;
    KeyStatsIn(KeyCounts(live), ValueCounts(live), Ranked(KeyCounts(live)), entry);
    RankedIn(KeyCounts(live), ValueStat(entry.key, entry.count));
  }

  lemma CountedKey(source: Source, cases: map<string, Case>, k: string)
    requires forall id :: id in cases ==> ValidCase(cases[id])
    ensures k in KeyCounts(PlainLive(source, cases)) <==>
              exists id :: id in cases && k in Plain(DictOf(cases[id], source))
    ensures k in KeyCounts(PlainLive(source, cases)) ==> k != "" && KeyCounts(PlainLive(source, cases))[k] > 0
  {
    var live := PlainLive(source, cases);
    RecordedAt(live, k, "", "");
    if k in KeyRefs(live) {
      var id :| id in live && k in live[id];
      PlainAt(DictOf(cases[id], source));
      assert id in cases && k in Plain(DictOf(cases[id], source));
    }
    if id :| id in cases && k in Plain(DictOf(cases[id], source)) {
      assert id in live && k in live[id];
    }
  }

  lemma EntryAgreement(
    fold: string -> string, source: Source, partition: string, cases: map<string, Case>, entry: KeyStat)
    requires KeepsText(fold) && (forall id :: id in cases ==> ValidCase(cases[id]))
              && DistinctUnderFold(fold, source, cases)
    requires entry in IndexOf(source, cases).keyStats
    ensures EntryAgrees(fold, source, Stats(partition, Live(fold, cases)), entry)
  {
    var k := entry.key;
    hide IndexOf, Live, PlainLive, KeyCounts, StatRef, Top, Ranked, ValueCountsAt, ValidCase, Plain;
    IndexEntry(source, cases, entry);
    CountedKey(source, cases, k);
    forall id | id in cases ensures OnlySpelling(fold, DictOf(cases[id], source), k) {}
    forall id | id in cases && Spelled(fold, DictOf(cases[id], source), k)
      ensures k in Plain(DictOf(cases[id], source))
    {
      SpelledOnly(fold, DictOf(cases[id], source), k);
    }
    KeyCountsAgree(fold, source, partition, cases, k);
    ValuesAgree(fold, source, cases, k);
    StatsInner(partition, Live(fold, cases), StatRef(fold, source, k));
  }

  lemma StatsInner(partition: string, live: map<string, Mapping>, r: string)
    ensures Count(Stats(partition, live).keyStats, r) > 0 ==>
              Inner(Stats(partition, live).valueStats, r) == ValueCountsAt(live, r)
  {
  }

  /**
    Main result: when keys are distinct under folding, every index entry has the count and the top twelve values
    that the statistics give for its folded key, and every key the statistics count has an index entry.
   */
  lemma ViewsAgree(fold: string -> string, source: Source, partition: string, cases: map<string, Case>)
    requires KeepsText(fold) && (forall id :: id in cases ==> ValidCase(cases[id]))
              && DistinctUnderFold(fold, source, cases)
    ensures forall entry :: entry in IndexOf(source, cases).keyStats ==>
              EntryAgrees(fold, source, Stats(partition, Live(fold, cases)), entry)
    ensures forall k :: k != "" && StatRef(fold, source, k) in Stats(partition, Live(fold, cases)).keyStats ==>
              exists entry :: entry in IndexOf(source, cases).keyStats && fold(entry.key) == fold(k)
  {
    hide IndexOf, EntryAgrees, StatRef, PlainLive, Live, Plain;
    forall entry | entry in IndexOf(source, cases).keyStats
      ensures EntryAgrees(fold, source, Stats(partition, Live(fold, cases)), entry)
    {
      EntryAgreement(fold, source, partition, cases, entry);
    }
    forall k | k != "" && StatRef(fold, source, k) in Stats(partition, Live(fold, cases)).keyStats
      ensures exists entry :: entry in IndexOf(source, cases).keyStats && fold(entry.key) == fold(k)
    {
      StatIndexed(fold, source, partition, cases, k);
    }
  }

  lemma StatIndexed(fold: string -> string, source: Source, partition: string, cases: map<string, Case>, k: string)
    requires KeepsText(fold) && (forall id :: id in cases ==> ValidCase(cases[id]))
    requires k != "" && StatRef(fold, source, k) in Stats(partition, Live(fold, cases)).keyStats
    ensures exists entry :: entry in IndexOf(source, cases).keyStats && fold(entry.key) == fold(k)
  {
    var live, ref := Live(fold, cases), StatRef(fold, source, k);
    RecordedAt(live, ref, "", "");
    assert ref in KeyRefs(live) && |Having(live, ref)| > 0;
    hide IndexOf, StatRef, PlainLive, Live, Plain, Top, Ranked, ValueCountsAt, KeyCounts, ValidCase, Having;
    StatHaving(fold, source, cases, k);
    assert Having(live, ref) != {};
    var id :| id in Having(live, ref);
    var k' :| k' in Plain(DictOf(cases[id], source)) && fold(k') == fold(k);
    CountedKey(source, cases, k');
    var plain := PlainLive(source, cases);
    var entry := KeyStat(k', KeyCounts(plain)[k'], Top(Ranked(ValueCountsAt(plain, k'))));
    IndexEntry(source, cases, entry);
  }
}
