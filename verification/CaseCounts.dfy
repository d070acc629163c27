/**
  What the statistics, the support queries and the indexes of a partition say after a run, in terms of its case
  documents alone: internal/knowledge/statistics/aggregator.py, internal/knowledge/statistics/reader.py and
  internal/domain/partition/profile_builder.py.
 */
module CaseCounts {
  import opened Options
  import opened Text
  import opened Sorting
  import opened Fields
  import opened Statistics
  import opened Observations
  import opened StatisticsStore
  import opened ProfileIndex
  import opened Projection
  import opened GitRepository
  import opened CaseWorkspace
  import opened PartitionRuns
  import R = SupportReader

  // ----- what one case contributes

  /** The dictionary of a case the statistics count under a field name; cases have no facts. */
  function DictNamed(c: Case, field: string): seq<Field> {
    if field == "facet" then c.facets else if field == "semantic_profile" then c.profile else []
  }

  lemma FieldNamed(fold: string -> string, c: Case, field: string)
    requires IsField(field)
    ensures FieldOf(ObservationOf(fold, c), field) == NormalizedMapping(fold, DictNamed(c, field))
  {
  }

  lemma CaseEntries(fold: string -> string, c: Case, field: string, key: string, v: string)
    requires IsField(field)
    ensures var entries, d := EntriesOf(fold, c), DictNamed(c, field);
            && (KeyRef(field, key) in entries <==> ListsKey(fold, d, key))
            && (KeyRef(field, key) in entries ==> (v in entries[KeyRef(field, key)] <==> ListsValue(fold, d, key, v)))
            && (ListsValue(fold, d, key, v) ==> ListsKey(fold, d, key))
  {
    hide Entries, NormalizedMapping, ListsKey, ListsValue;
    EntriesAt(ObservationOf(fold, c), field, key);
    FieldNamed(fold, c, field);
    NormalizedAt(fold, DictNamed(c, field), key, v);
  }

  /** A case is listed under the texts that join field, key and value of what it holds. */
  ghost predicate ListedUnder(fold: string -> string, c: Case, e: string) {
    exists field, key, v ::
      IsField(field) && ListsValue(fold, DictNamed(c, field), key, v) && e == field + ":" + key + ":" + v
  }

  lemma CaseListed(fold: string -> string, c: Case, e: string)
    ensures e in IndexKeys(EntriesOf(fold, c)) <==> ListedUnder(fold, c, e)
  {
    hide Entries, ListsValue, ListsKey;
    if e in IndexKeys(EntriesOf(fold, c)) {
      var field, key, v := R.IndexKeyOrigin(ObservationOf(fold, c), e);
      EntriesAt(ObservationOf(fold, c), field, key);
      CaseEntries(fold, c, field, key, v);
    }
    if field, key, v :|
        IsField(field) && ListsValue(fold, DictNamed(c, field), key, v) && e == field + ":" + key + ":" + v {
      CaseEntries(fold, c, field, key, v);
      assert e == IndexKey(KeyRef(field, key), v);
    }
  }

  // ----- the statistics of a run

  /** How many cases list a key, and how many list a value under it. */
  ghost predicate CountsAll(fold: string -> string, s: Snapshot, cases: map<string, Case>) {
    && (forall field, key :: IsField(field) ==>
          Count(s.keyStats, field + ":" + key)
            == |set id | id in cases && ListsKey(fold, DictNamed(cases[id], field), key)|)
    && forall field, key, v :: IsField(field) ==>
         Count(Inner(s.valueStats, field + ":" + key), v)
           == |set id | id in cases && ListsValue(fold, DictNamed(cases[id], field), key, v)|
  }

  /** Which cases are listed under a text. */
  ghost predicate ListsAll(fold: string -> string, s: Snapshot, cases: map<string, Case>) {
    forall e, id :: id in Listed(s.support, e) <==> id in cases && ListedUnder(fold, cases[id], e)
  }

  /** Nothing but keys of the fields is counted. */
  ghost predicate CountsOnlyKeys(s: Snapshot) {
    forall r :: r in s.keyStats || r in s.valueStats ==> exists field, key :: IsField(field) && r == field + ":" + key
  }

  /** The counts and lists of a snapshot are those of the cases, without empty entries and with sorted lists. */
  ghost predicate Counts(fold: string -> string, s: Snapshot, cases: map<string, Case>) {
    && s.caseCount == |cases| && CountsAll(fold, s, cases) && ListsAll(fold, s, cases) && CountsOnlyKeys(s)
    && WellFormed(s)
  }

  lemma LiveHaving(fold: string -> string, cases: map<string, Case>, field: string, key: string, v: string)
    requires IsField(field)
    ensures Having(Live(fold, cases), KeyRef(field, key))
              == set id | id in cases && ListsKey(fold, DictNamed(cases[id], field), key)
    ensures HavingValue(Live(fold, cases), KeyRef(field, key), v)
              == set id | id in cases && ListsValue(fold, DictNamed(cases[id], field), key, v)
  {
    hide EntriesOf, ListsKey, ListsValue, KeyRef;
    forall id | id in cases
      ensures var entries, d := EntriesOf(fold, cases[id]), DictNamed(cases[id], field);
              && (KeyRef(field, key) in entries <==> ListsKey(fold, d, key))
              && (KeyRef(field, key) in entries && v in entries[KeyRef(field, key)] <==> ListsValue(fold, d, key, v))
    {
      CaseEntries(fold, cases[id], field, key, v);
    }
  }

  lemma KeyCounted(
    partition: string, fold: string -> string, cases: map<string, Case>, field: string, key: string, v: string)
    requires IsField(field)
    ensures var s := Stats(partition, Live(fold, cases));
            && Count(s.keyStats, field + ":" + key)
                 == |set id | id in cases && ListsKey(fold, DictNamed(cases[id], field), key)|
            && Count(Inner(s.valueStats, field + ":" + key), v)
                 == |set id | id in cases && ListsValue(fold, DictNamed(cases[id], field), key, v)|
  {
    hide ListsKey, ListsValue, Live, Having, HavingValue, KeyCounts, ValueCounts, SupportIndex;
    LiveHaving(fold, cases, field, key, v);
    CountsAt(Live(fold, cases), KeyRef(field, key), v);
  }

  lemma SupportListed(partition: string, fold: string -> string, cases: map<string, Case>, e: string, id: string)
    ensures id in Listed(Stats(partition, Live(fold, cases)).support, e) <==>
              id in cases && ListedUnder(fold, cases[id], e)
  {
    hide ListedUnder, EntriesOf, IndexKeys, SupportIndex, Listed, KeyCounts, ValueCounts;
    ListedAt(Live(fold, cases), e);
    if id in cases {
      CaseListed(fold, cases[id], e);
    }
  }

  lemma RefOrigin(partition: string, fold: string -> string, cases: map<string, Case>, r: string)
    requires r in KeyRefs(Live(fold, cases))
    ensures exists field, key :: IsField(field) && r == field + ":" + key
  {
    hide Entries, FieldOf;
    var id :| id in cases && r in EntriesOf(fold, cases[id]);
    EntryOrigin(ObservationOf(fold, cases[id]), r);
    var field, key :| IsField(field) && key in FieldOf(ObservationOf(fold, cases[id]), field)
      && r == KeyRef(field, key);
    assert r == field + ":" + key;
  }

  lemma RecountCountsAll(partition: string, fold: string -> string, cases: map<string, Case>)
    ensures CountsAll(fold, Stats(partition, Live(fold, cases)), cases)
  {
    hide ListsKey, ListsValue, Stats, Count, Inner, Live;
    forall field, key | IsField(field)
      ensures Count(Stats(partition, Live(fold, cases)).keyStats, field + ":" + key)
                == |set id | id in cases && ListsKey(fold, DictNamed(cases[id], field), key)|
    {
      KeyCounted(partition, fold, cases, field, key, "");
    }
    forall field, key, v | IsField(field)
      ensures Count(Inner(Stats(partition, Live(fold, cases)).valueStats, field + ":" + key), v)
                == |set id | id in cases && ListsValue(fold, DictNamed(cases[id], field), key, v)|
    {
      KeyCounted(partition, fold, cases, field, key, v);
    }
  }

  lemma RecountListsAll(partition: string, fold: string -> string, cases: map<string, Case>)
    ensures ListsAll(fold, Stats(partition, Live(fold, cases)), cases)
  {
    hide ListedUnder, Stats, Listed, Live;
    forall e, id
      ensures id in Listed(Stats(partition, Live(fold, cases)).support, e) <==>
                id in cases && ListedUnder(fold, cases[id], e)
    {
      SupportListed(partition, fold, cases, e, id);
    }
  }

  lemma RecountCountsOnlyKeys(partition: string, fold: string -> string, cases: map<string, Case>)
    ensures CountsOnlyKeys(Stats(partition, Live(fold, cases)))
  {
    hide Live, SupportIndex, ValueCountsAt, Having;
    forall r | r in KeyRefs(Live(fold, cases)) ensures exists field, key :: IsField(field) && r == field + ":" + key {
      RefOrigin(partition, fold, cases, r);
    }
  }

  lemma RecountSize(partition: string, fold: string -> string, cases: map<string, Case>)
    ensures Stats(partition, Live(fold, cases)).caseCount == |cases|
  {
    hide EntriesOf, KeyCounts, ValueCounts, SupportIndex;
    var live := Live(fold, cases);
    assert live.Keys == cases.Keys;
    SizeOfKeys(live);
    SizeOfKeys(cases);
  }

  lemma RecountCounts(partition: string, fold: string -> string, cases: map<string, Case>)
    ensures Counts(fold, Stats(partition, Live(fold, cases)), cases)
  {
    hide Stats, Live, CountsAll, ListsAll, CountsOnlyKeys, WellFormed;
    RecountSize(partition, fold, cases);
    RecountCountsAll(partition, fold, cases);
    RecountListsAll(partition, fold, cases);
    RecountCountsOnlyKeys(partition, fold, cases);
    LiveNormalised(fold, cases);
    ReferenceWellFormed(partition, Live(fold, cases));
  }

  /**
    Main result: after any run of creates, updates, deletes and applied plans, the incrementally kept statistics count,
    for each field, how many cases list a key and how many list a value under it, and the support index lists under
    each text exactly the cases that hold a field, key and value which join to it.
   */
  lemma StatisticsCountCases(cfg: Config, s: State, ops: seq<Op>, s': State)
    requires Fresh(cfg, s) && IsRun(cfg, s, ops, s')
    ensures s'.statistics.partition == cfg.partition && Counts(cfg.fold, s'.statistics, CasesIn(s'.tree))
  {
    hide Fresh, IsRun, CasesIn, Live, Counts;
    StatisticsRecountCases(cfg, s, ops, s');
    RecountCounts(cfg.partition, cfg.fold, CasesIn(s'.tree));
    StatsPartition(cfg.partition, Live(cfg.fold, CasesIn(s'.tree)));
  }

  // ----- queries after a run

  /** The case has one of the filter's values under its key. */
  ghost predicate HasOneOf(fold: string -> string, c: Case, f: R.Filter) {
    exists v :: v in f.values && ListsValue(fold, DictNamed(c, f.field), f.key, v)
  }

  /** The case answers the query: all of its filters, or some, and there is one. */
  ghost predicate Answers(fold: string -> string, c: Case, q: R.Query) {
    && q.filters != []
    && if q.matchAll then forall f :: f in q.filters ==> HasOneOf(fold, c, f)
       else exists f :: f in q.filters && HasOneOf(fold, c, f)
  }

  lemma SupportsIs(fold: string -> string, c: Case, f: R.Filter)
    requires IsField(f.field)
    ensures R.Supports(ObservationOf(fold, c), f) <==> HasOneOf(fold, c, f)
  {
    hide ListsValue, ListsKey, NormalizedMapping;
    FieldNamed(fold, c, f.field);
    forall v
      ensures f.key in NormalizedMapping(fold, DictNamed(c, f.field))
                && v in NormalizedMapping(fold, DictNamed(c, f.field))[f.key] <==>
                  ListsValue(fold, DictNamed(c, f.field), f.key, v)
    {
      NormalizedAt(fold, DictNamed(c, f.field), f.key, v);
    }
  }

  lemma MatchingIs(fold: string -> string, c: Case, q: R.Query)
    requires R.ValidQuery(q)
    ensures R.Matching(ObservationOf(fold, c), q) <==> Answers(fold, c, q)
  {
    hide R.Supports, HasOneOf, ObservationOf;
    forall f | f in q.filters ensures R.Supports(ObservationOf(fold, c), f) <==> HasOneOf(fold, c, f) {
      SupportsIs(fold, c, f);
    }
  }

  /**
    Main result: after any run, a support query no filter of which can be misled returns the first ids, in ascending
    order, of exactly the cases that answer it.
   */
  lemma QueriesAnswerCases(cfg: Config, s: State, ops: seq<Op>, s': State, q: R.Query)
    requires Fresh(cfg, s) && IsRun(cfg, s, ops, s') && R.ValidQuery(q)
    requires forall f :: f in q.filters ==> Readable(cfg.fold, CasesIn(s'.tree), f)
    ensures var cases := CasesIn(s'.tree);
            var answers := set id | id in cases && Answers(cfg.fold, cases[id], q);
            R.Limited(R.Found(s'.statistics.support, q), answers, q.limit)
  {
    hide Fresh, IsRun, CasesIn, R.Found, R.Slice, Readable, Answers, R.Matching, R.Limited, ObservationOf;
    QueriesFilterCases(cfg, s, ops, s', q);
    var cases := CasesIn(s'.tree);
    forall id | id in cases
      ensures R.Matching(ObservationOf(cfg.fold, cases[id]), q) <==> Answers(cfg.fold, cases[id], q)
    {
      MatchingIs(cfg.fold, cases[id], q);
    }
    assert R.Matches(CaseObservations(cfg.fold, cases), q) == set id | id in cases && Answers(cfg.fold, cases[id], q);
    var answers := set id | id in cases && Answers(cfg.fold, cases[id], q);
    R.SliceLimits(answers, q.limit);
  }

  // ----- the indexes

  /** The dictionary has the key with some value, or with this one. */
  ghost predicate HoldsKey(d: seq<Field>, key: string) {
    exists f :: f in d && f.key == key && f.values != []
  }

  ghost predicate HoldsValue(d: seq<Field>, key: string, v: string) {
    exists f :: f in d && f.key == key && v in f.values
  }

  /** The dictionary an index is about. */
  function Indexed(c: Case, source: Source): seq<Field> {
    if source == FacetSource then c.facets else c.profile
  }

  /** Higher counts first, ties by ascending text. */
  predicate Before(count: nat, text: string, count': nat, text': string) {
    count > count' || (count == count' && StringLe(text, text'))
  }

  /** At most twelve values of the key, each with how many cases have it, and none left out goes before one taken. */
  ghost predicate Samples(samples: seq<ValueStat>, source: Source, cases: map<string, Case>, key: string) {
    && (forall x :: x in samples ==>
          && (exists id :: id in cases && HoldsValue(Indexed(cases[id], source), key, x.value))
          && x.count == |set id | id in cases && HoldsValue(Indexed(cases[id], source), key, x.value)|)
    && (forall i, j :: 0 <= i < j < |samples| ==>
          samples[i] != samples[j] && Before(samples[i].count, samples[i].value, samples[j].count, samples[j].value))
    && |samples| <= 12
    && forall v, id :: id in cases && HoldsValue(Indexed(cases[id], source), key, v) ==>
         var n := |set id | id in cases && HoldsValue(Indexed(cases[id], source), key, v)|;
         || ValueStat(v, n) in samples
         || (|samples| == 12 && forall x :: x in samples ==> Before(x.count, x.value, n, v))
  }

  /** An index document in terms of the cases. */
  ghost predicate Indexes(index: Index, source: Source, cases: map<string, Case>) {
    && index.caseCount == |cases| && index.keyCount == |index.keyStats|
    && (forall i, j :: 0 <= i < j < |index.keyStats| ==>
          && index.keyStats[i].key != index.keyStats[j].key
          && Before(index.keyStats[i].count, index.keyStats[i].key, index.keyStats[j].count, index.keyStats[j].key))
    && (forall entry :: entry in index.keyStats ==>
          && (exists id :: id in cases && HoldsKey(Indexed(cases[id], source), entry.key))
          && entry.count == |set id | id in cases && HoldsKey(Indexed(cases[id], source), entry.key)|
          && Samples(entry.samples, source, cases, entry.key))
    && forall key, id :: id in cases && HoldsKey(Indexed(cases[id], source), key) ==>
         exists entry :: entry in index.keyStats && entry.key == key
  }

  lemma DictHas(c: Case, source: Source, key: string, v: string)
    requires ValidCase(c)
    ensures var plain := Plain(DictOf(c, source));
            && (key in plain <==> HoldsKey(Indexed(c, source), key))
            && (key in plain && v in plain[key] <==> HoldsValue(Indexed(c, source), key, v))
  {
    PlainAt(DictOf(c, source));
    hide Plain;
    var d := DictOf(c, source);
    if f :| f in d && f.key == key && v in f.values {
      assert f.values != [];
    }
  }

  lemma PlainHaving(source: Source, cases: map<string, Case>, key: string, v: string)
    requires forall id :: id in cases ==> ValidCase(cases[id])
    ensures Having(PlainLive(source, cases), key) == set id | id in cases && HoldsKey(Indexed(cases[id], source), key)
    ensures HavingValue(PlainLive(source, cases), key, v)
              == set id | id in cases && HoldsValue(Indexed(cases[id], source), key, v)
  {
    hide Plain, HoldsKey, HoldsValue, ValidCase;
    forall id | id in cases
      ensures var plain := Plain(DictOf(cases[id], source));
              && (key in plain <==> HoldsKey(Indexed(cases[id], source), key))
              && (key in plain && v in plain[key] <==> HoldsValue(Indexed(cases[id], source), key, v))
    {
      DictHas(cases[id], source, key, v);
    }
  }

  lemma RankBefore(a: ValueStat, b: ValueStat)
    ensures RankLe(a, b) <==> Before(a.count, a.value, b.count, b.value)
  {
  }

  /** The count of a value: recorded exactly when some case has it. */
  lemma ValueCounted(source: Source, cases: map<string, Case>, key: string, v: string)
    requires forall id :: id in cases ==> ValidCase(cases[id])
    ensures var m := ValueCountsAt(PlainLive(source, cases), key);
            && (v in m <==> exists id :: id in cases && HoldsValue(Indexed(cases[id], source), key, v))
            && (v in m ==> m[v] == |set id | id in cases && HoldsValue(Indexed(cases[id], source), key, v)|)
  {
    hide PlainLive, HoldsKey, HoldsValue, Having, HavingValue;
    PlainHaving(source, cases, key, v);
    RecordedAt(PlainLive(source, cases), key, v, "");
    var ids := set id | id in cases && HoldsValue(Indexed(cases[id], source), key, v);
    SomeCase(ids);
    if |ids| > 0 {
      var id :| id in ids;
      assert id in cases && HoldsValue(Indexed(cases[id], source), key, v);
    }
    if id :| id in cases && HoldsValue(Indexed(cases[id], source), key, v) {
      assert id in ids;
    }
    assert v in ValuesAt(PlainLive(source, cases), key) <==> v in ValueCountsAt(PlainLive(source, cases), key);
  }

  lemma SomeCase(ids: set<string>)
    ensures |ids| > 0 <==> exists id :: id in ids
  {
    if |ids| > 0 {
      var id :| id in ids;
    }
  }

  lemma SamplesAre(source: Source, cases: map<string, Case>, key: string)
    requires forall id :: id in cases ==> ValidCase(cases[id])
    ensures Samples(Top(Ranked(ValueCountsAt(PlainLive(source, cases), key))), source, cases, key)
  {
    hide PlainLive, ValueCountsAt, HoldsValue, RankLe, Before, Ranked, Top, ValidCase;
    var m := ValueCountsAt(PlainLive(source, cases), key);
    var top := Top(Ranked(m));
    TopTwelve(m);
    forall v
      ensures v in m <==> exists id :: id in cases && HoldsValue(Indexed(cases[id], source), key, v)
      ensures v in m ==> m[v] == |set id | id in cases && HoldsValue(Indexed(cases[id], source), key, v)|
    {
      ValueCounted(source, cases, key, v);
    }
    forall a: ValueStat, b: ValueStat | RankLe(a, b) ensures Before(a.count, a.value, b.count, b.value) {
      RankBefore(a, b);
    }
    TopShape(source, cases, key, m, top);
  }

  lemma TopShape(source: Source, cases: map<string, Case>, key: string, m: map<string, nat>, top: seq<ValueStat>)
    requires forall v :: v in m <==> exists id :: id in cases && HoldsValue(Indexed(cases[id], source), key, v)
    requires forall v :: v in m ==> m[v] == |set id | id in cases && HoldsValue(Indexed(cases[id], source), key, v)|
    requires |top| == (if |m| > SAMPLES then SAMPLES else |m|) && SortedBy(RankLe, top) && Distinct(top)
    requires forall x :: x in top ==> x.value in m && m[x.value] == x.count
    requires forall x, v :: x in top && v in m && ValueStat(v, m[v]) !in top ==> RankLe(x, ValueStat(v, m[v]))
    requires forall a: ValueStat, b: ValueStat :: RankLe(a, b) ==> Before(a.count, a.value, b.count, b.value)
    ensures Samples(top, source, cases, key)
  {
    hide HoldsValue, RankLe, Before;
    forall v, id | id in cases && HoldsValue(Indexed(cases[id], source), key, v)
      ensures var n := |set i | i in cases && HoldsValue(Indexed(cases[i], source), key, v)|;
              || ValueStat(v, n) in top
              || (|top| == 12 && forall x :: x in top ==> Before(x.count, x.value, n, v))
    {
      assert v in m;
      if ValueStat(v, m[v]) !in top && |m| <= SAMPLES {
        AllTaken(m, top, v);
      }
    }
  }

  /** A list of as many different counted values as there are holds them all. */
  lemma AllTaken(m: map<string, nat>, top: seq<ValueStat>, v: string)
    requires Distinct(top) && |top| == |m| && v in m
    requires forall x :: x in top ==> x.value in m && m[x.value] == x.count
    ensures ValueStat(v, m[v]) in top
  {
    var values := seq(|top|, i requires 0 <= i < |top| => top[i].value);
    forall i, j | 0 <= i < j < |top| ensures values[i] != values[j] {
      assert top[i] in top && top[j] in top;
    }
    DistinctLength(values);
    forall w | w in ToSet(values) ensures w in m {
      var i :| 0 <= i < |values| && values[i] == w;
      assert top[i] in top;
    }
    SizeOfKeys(m);
    SubsetSize(ToSet(values), m.Keys);
    assert v in ToSet(values);
    var i :| 0 <= i < |values| && values[i] == v;
    assert top[i] in top;
  }

  lemma EntryIs(source: Source, cases: map<string, Case>, entry: KeyStat)
    requires forall id :: id in cases ==> ValidCase(cases[id])
    requires entry in IndexOf(source, cases).keyStats
    ensures exists id :: id in cases && HoldsKey(Indexed(cases[id], source), entry.key)
    ensures entry.count == |set id | id in cases && HoldsKey(Indexed(cases[id], source), entry.key)|
    ensures Samples(entry.samples, source, cases, entry.key)
  {
    hide IndexOf, PlainLive, HoldsKey, HoldsValue, Having, Samples, Top, Ranked, ValueCountsAt;
    IndexEntry(source, cases, entry);
    PlainHaving(source, cases, entry.key, "");
    RecordedAt(PlainLive(source, cases), entry.key, "", "");
    SomeCase(set id | id in cases && HoldsKey(Indexed(cases[id], source), entry.key));
    SamplesAre(source, cases, entry.key);
  }

  lemma KeyIndexed(source: Source, cases: map<string, Case>, key: string)
    requires forall id :: id in cases ==> ValidCase(cases[id])
    requires exists id :: id in cases && HoldsKey(Indexed(cases[id], source), key)
    ensures exists entry :: entry in IndexOf(source, cases).keyStats && entry.key == key
  {
    hide IndexOf, PlainLive, HoldsKey, HoldsValue, Having, Top, Ranked, ValueCountsAt;
    var live := PlainLive(source, cases);
    PlainHaving(source, cases, key, "");
    RecordedAt(live, key, "", "");
    var ids := set id | id in cases && HoldsKey(Indexed(cases[id], source), key);
    SomeCase(ids);
    var id :| id in cases && HoldsKey(Indexed(cases[id], source), key);
    assert id in ids;
    assert key in KeyRefs(live);
    assert key in KeyCounts(live);
    IndexEntry(source, cases, KeyStat(key, KeyCounts(live)[key], Top(Ranked(ValueCountsAt(live, key)))));
  }

  lemma IndexShape(source: Source, cases: map<string, Case>)
    ensures var index := IndexOf(source, cases);
            && index.caseCount == |cases| && index.keyCount == |index.keyStats|
            && forall i, j :: 0 <= i < j < |index.keyStats| ==>
                 && index.keyStats[i].key != index.keyStats[j].key
                 && Before(index.keyStats[i].count, index.keyStats[i].key,
                      index.keyStats[j].count, index.keyStats[j].key)
  {
    hide PlainLive, KeyCounts, ValueCounts, Top, Inner, Before, RankLe;
    var counts := KeyCounts(PlainLive(source, cases));
    var ranked := Ranked(counts);
    RankedLength(counts);
    forall i, j | 0 <= i < j < |ranked|
      ensures ranked[i].value != ranked[j].value
      ensures Before(ranked[i].count, ranked[i].value, ranked[j].count, ranked[j].value)
    {
      RankedIn(counts, ranked[i]);
      RankedIn(counts, ranked[j]);
      RankBefore(ranked[i], ranked[j]);
      assert ranked[i] in ranked && ranked[j] in ranked;
      assert ranked[i] != ranked[j];
    }
  }

  /** Main result: what an index document built from the cases says. */
  lemma IndexCounts(source: Source, cases: map<string, Case>)
    requires forall id :: id in cases ==> ValidCase(cases[id])
    ensures Indexes(IndexOf(source, cases), source, cases)
  {
    hide IndexOf, HoldsKey, Samples, Before, ValidCase;
    IndexShape(source, cases);
    forall entry | entry in IndexOf(source, cases).keyStats
      ensures && (exists id :: id in cases && HoldsKey(Indexed(cases[id], source), entry.key))
              && entry.count == |set id | id in cases && HoldsKey(Indexed(cases[id], source), entry.key)|
              && Samples(entry.samples, source, cases, entry.key)
    {
      EntryIs(source, cases, entry);
    }
    forall key, id | id in cases && HoldsKey(Indexed(cases[id], source), key)
      ensures exists entry :: entry in IndexOf(source, cases).keyStats && entry.key == key
    {
      KeyIndexed(source, cases, key);
    }
  }

  /** Main result: after any run that leaves at most five hundred cases, each index document present counts them. */
  lemma IndexesCountCases(cfg: Config, s: State, ops: seq<Op>, s': State, source: Source)
    requires Fresh(cfg, s) && IsRun(cfg, s, ops, s') && |CasesIn(s'.tree)| <= 500 && IndexAt(source, s'.tree).Some?
    ensures Indexes(IndexAt(source, s'.tree).value, source, CasesIn(s'.tree))
  {
    hide IsRun, Fresh, Stats, Live, CasesIn, ValidTree, IndexOf, Documents, CasesOf, ValidCase, Indexes;
    FreshConsistent(cfg, s);
    RunKeepsConsistent(cfg, s, ops, s');
    CasesInAt(cfg.partition, s'.tree);
    ListingComplete(cfg.partition, CasesIn(s'.tree));
    IndexCounts(source, CasesIn(s'.tree));
  }
}
