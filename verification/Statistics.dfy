/**
  Partition statistics: internal/knowledge/statistics/aggregator.py.

  `Stats(partition, live)` is the reference: what a direct recount over the live
  observations gives.  `Applied` and `Removed` say in closed form what one
  incremental update does to an arbitrary snapshot.  The results connect the two.
 */
module Statistics {
  import opened Options
  import opened Sorting

  /** A Python dictionary from key to list of values, where the order of the keys does not matter. */
  type Mapping = map<string, seq<string>>

  datatype Observation = Observation(
    partition: string, sourceId: string, facets: Mapping, semanticProfile: Mapping, facts: Mapping)

  datatype Snapshot = Snapshot(
    partition: string, caseCount: nat, keyStats: map<string, nat>, valueStats: map<string, map<string, nat>>,
    support: map<string, seq<string>>)

  function EmptySnapshot(partition: string): Snapshot {
    Snapshot(partition, 0, map[], map[], map[])
  }

  // ----- string encodings

  function KeyRef(field: string, key: string): string {
    field + ":" + key
  }

  function IndexKey(keyRef: string, value: string): string {
    keyRef + ":" + value
  }

  predicate IsField(field: string) {
    field == "facet" || field == "semantic_profile" || field == "fact"
  }

  /** The three field names are told apart by their text before the first colon. */
  lemma KeyRefInjective(field: string, key: string, field': string, key': string)
    requires IsField(field) && IsField(field') && KeyRef(field, key) == KeyRef(field', key')
    ensures field == field' && key == key'
  {
    var r := KeyRef(field, key);
    assert r[3] == KeyRef(field', key')[3];
    assert r[0] == KeyRef(field', key')[0];
    assert key == r[|field| + 1..] && key' == r[|field'| + 1..];
  }

  function Refs(field: string, keys: set<string>): set<string> {
    set k | k in keys :: KeyRef(field, k)
  }

  function KeyPart(field: string, r: string): string {
    if |r| > |field| then r[|field| + 1..] else ""
  }

  lemma KeyPartOf(field: string, key: string)
    ensures KeyPart(field, KeyRef(field, key)) == key
  {
  }

  /** A field's mapping with its keys replaced by their key references. */
  function Tag(field: string, m: Mapping): (tagged: Mapping)
    ensures tagged.Keys == Refs(field, m.Keys)
    ensures forall k :: k in m ==> KeyRef(field, k) in tagged && tagged[KeyRef(field, k)] == m[k]
  {
    assert forall k :: k in m ==> KeyPart(field, KeyRef(field, k)) == k by {
      forall k | k in m ensures KeyPart(field, KeyRef(field, k)) == k { KeyPartOf(field, k); }
    }
    map r | r in Refs(field, m.Keys) :: m[KeyPart(field, r)]
  }

  /** All of an observation's values by key reference. */
  function Entries(o: Observation): Mapping {
    Tag("facet", o.facets) + Tag("semantic_profile", o.semanticProfile) + Tag("fact", o.facts)
  }

  function FieldOf(o: Observation, field: string): Mapping
    requires IsField(field)
  {
    if field == "facet" then o.facets else if field == "semantic_profile" then o.semanticProfile else o.facts
  }

  lemma TagAt(field: string, m: Mapping, field': string, key: string)
    requires IsField(field) && IsField(field')
    ensures KeyRef(field', key) in Tag(field, m) <==> field == field' && key in m
  {
    if KeyRef(field', key) in Tag(field, m) {
      var k :| k in m && KeyRef(field', key) == KeyRef(field, k);
      KeyRefInjective(field, k, field', key);
    }
  }

  lemma EntriesAt(o: Observation, field: string, key: string)
    requires IsField(field)
    ensures KeyRef(field, key) in Entries(o) <==> key in FieldOf(o, field)
    ensures key in FieldOf(o, field) ==> Entries(o)[KeyRef(field, key)] == FieldOf(o, field)[key]
  {
    TagAt("facet", o.facets, field, key);
    TagAt("semantic_profile", o.semanticProfile, field, key);
    TagAt("fact", o.facts, field, key);
  }

  function IndexKeys(entries: Mapping): set<string> {
    set r, v | r in entries && v in entries[r] :: IndexKey(r, v)
  }

  // ----- one incremental update, in closed form

  function Count(m: map<string, nat>, key: string): nat {
    if key in m then m[key] else 0
  }

  function Inner(m: map<string, map<string, nat>>, r: string): map<string, nat> {
    if r in m then m[r] else map[]
  }

  function Listed(m: map<string, seq<string>>, e: string): set<string> {
    if e in m then ToSet(m[e]) else {}
  }

  function AddKeys(m: map<string, nat>, entries: Mapping): map<string, nat> {
    map r | r in m.Keys + entries.Keys :: Count(m, r) + (if r in entries then 1 else 0)
  }

  function AddCounts(m: map<string, nat>, values: seq<string>): map<string, nat> {
    map v | v in m.Keys + ToSet(values) :: Count(m, v) + multiset(values)[v]
  }

  function AddValues(m: map<string, map<string, nat>>, entries: Mapping): map<string, map<string, nat>> {
    map r | r in m.Keys + entries.Keys :: if r in entries then AddCounts(Inner(m, r), entries[r]) else m[r]
  }

  ghost function AddSupport(m: map<string, seq<string>>, keys: set<string>, id: string): map<string, seq<string>> {
    map e | e in m.Keys + keys :: if e in keys then Sorted(Listed(m, e) + {id}) else m[e]
  }

  /** One source's entries added to a snapshot. */
  ghost function Applied(s: Snapshot, id: string, entries: Mapping): Snapshot {
    Snapshot(
      s.partition, s.caseCount + 1, AddKeys(s.keyStats, entries), AddValues(s.valueStats, entries),
      AddSupport(s.support, IndexKeys(entries), id))
  }

  function SubKeys(m: map<string, nat>, entries: Mapping): map<string, nat> {
    map r | r in m && (r in entries ==> m[r] > 1) :: m[r] - (if r in entries then 1 else 0)
  }

  function SubCounts(m: map<string, nat>, values: seq<string>): map<string, nat> {
    map v | v in m && (v in values ==> m[v] > multiset(values)[v]) :: m[v] - multiset(values)[v]
  }

  function SubValues(m: map<string, map<string, nat>>, entries: Mapping): map<string, map<string, nat>> {
    map r | r in m && (r in entries ==> SubCounts(m[r], entries[r]) != map[]) ::
      if r in entries then SubCounts(m[r], entries[r]) else m[r]
  }

  ghost function SubSupport(m: map<string, seq<string>>, keys: set<string>, id: string): map<string, seq<string>> {
    map e | e in m && (e in keys ==> ToSet(m[e]) - {id} != {}) ::
      if e in keys then Sorted(ToSet(m[e]) - {id}) else m[e]
  }

  /** One source's entries taken out of a snapshot. */
  ghost function Removed(s: Snapshot, id: string, entries: Mapping): Snapshot {
    Snapshot(
      s.partition, if s.caseCount > 0 then s.caseCount - 1 else 0, SubKeys(s.keyStats, entries),
      SubValues(s.valueStats, entries), SubSupport(s.support, IndexKeys(entries), id))
  }

  // ----- the reference

  /** What the normaliser guarantees: every listed key has values, without repetition. */
  ghost predicate Normalised(entries: Mapping) {
    forall r :: r in entries ==> entries[r] != [] && Distinct(entries[r])
  }

  function Having(live: map<string, Mapping>, r: string): set<string> {
    set id | id in live && r in live[id]
  }

  function HavingValue(live: map<string, Mapping>, r: string, v: string): set<string> {
    set id | id in live && r in live[id] && v in live[id][r]
  }

  function Supporting(live: map<string, Mapping>, e: string): set<string> {
    set id | id in live && e in IndexKeys(live[id])
  }

  function KeyRefs(live: map<string, Mapping>): set<string> {
    set id, r | id in live && r in live[id] :: r
  }

  function ValuesAt(live: map<string, Mapping>, r: string): set<string> {
    set id, v | id in live && r in live[id] && v in live[id][r] :: v
  }

  function AllIndexKeys(live: map<string, Mapping>): set<string> {
    set id, e | id in live && e in IndexKeys(live[id]) :: e
  }

  function KeyCounts(live: map<string, Mapping>): map<string, nat> {
    map r | r in KeyRefs(live) :: |Having(live, r)|
  }

  function ValueCountsAt(live: map<string, Mapping>, r: string): map<string, nat> {
    map v | v in ValuesAt(live, r) :: |HavingValue(live, r, v)|
  }

  function ValueCounts(live: map<string, Mapping>): map<string, map<string, nat>> {
    map r | r in KeyRefs(live) :: ValueCountsAt(live, r)
  }

  ghost function SupportIndex(live: map<string, Mapping>): map<string, seq<string>> {
    map e | e in AllIndexKeys(live) :: Sorted(Supporting(live, e))
  }

  /**
    Direct recount over the live sources (source id to entries): how many have a key, how many have a value under
    it, and which of them support an index key.
   */
  ghost function Stats(partition: string, live: map<string, Mapping>): Snapshot {
    Snapshot(partition, |live|, KeyCounts(live), ValueCounts(live), SupportIndex(live))
  }

  /** A key, value or index key is recorded exactly when some live source has it. */
  lemma RecordedAt(live: map<string, Mapping>, r: string, v: string, e: string)
    ensures r in KeyRefs(live) <==> |Having(live, r)| > 0
    ensures v in ValuesAt(live, r) <==> |HavingValue(live, r, v)| > 0
    ensures e in AllIndexKeys(live) <==> Supporting(live, e) != {}
  {
    if r in KeyRefs(live) {
      var id :| id in live && r in live[id];
      assert id in Having(live, r);
    } else {
      assert Having(live, r) == {};
    }
    if v in ValuesAt(live, r) {
      var id :| id in live && r in live[id] && v in live[id][r];
      assert id in HavingValue(live, r, v);
    } else {
      assert HavingValue(live, r, v) == {};
    }
    if e in AllIndexKeys(live) {
      var id :| id in live && e in IndexKeys(live[id]);
      assert id in Supporting(live, e);
    }
  }

  lemma CountsAt(live: map<string, Mapping>, r: string, v: string)
    ensures Count(KeyCounts(live), r) == |Having(live, r)|
    ensures Count(Inner(ValueCounts(live), r), v) == |HavingValue(live, r, v)|
  {
    RecordedAt(live, r, v, "");
    if r !in KeyRefs(live) {
      assert HavingValue(live, r, v) == {};
    }
  }

  /** Two count maps with the same positive counts are the same map. */
  ghost predicate Positive(m: map<string, nat>) {
    forall k :: k in m ==> m[k] > 0
  }

  lemma SameCounts(m: map<string, nat>, m': map<string, nat>)
    requires Positive(m) && Positive(m') && forall k :: Count(m, k) == Count(m', k)
    ensures m == m'
  {
    forall k ensures k in m <==> k in m' {
      assert Count(m, k) == Count(m', k);
    }
    forall k | k in m ensures m[k] == m'[k] {
      assert Count(m, k) == Count(m', k);
    }
  }

  ghost predicate NoneEmpty(m: map<string, map<string, nat>>) {
    forall r :: r in m ==> m[r] != map[] && Positive(m[r])
  }

  lemma SameValues(m: map<string, map<string, nat>>, m': map<string, map<string, nat>>)
    requires NoneEmpty(m) && NoneEmpty(m')
    requires forall r, v :: Count(Inner(m, r), v) == Count(Inner(m', r), v)
    ensures m == m'
  {
    forall r ensures Inner(m, r) == Inner(m', r) {
      SameCounts(Inner(m, r), Inner(m', r));
    }
    forall r ensures r in m <==> r in m' {
      assert Inner(m, r) == Inner(m', r);
    }
    forall r | r in m ensures m[r] == m'[r] {
      assert Inner(m, r) == Inner(m', r);
    }
  }

  ghost predicate SortedLists(m: map<string, seq<string>>) {
    forall e :: e in m ==> m[e] != [] && SortedListing(m[e], ToSet(m[e]))
  }

  lemma SameLists(m: map<string, seq<string>>, m': map<string, seq<string>>)
    requires SortedLists(m) && SortedLists(m') && forall e :: Listed(m, e) == Listed(m', e)
    ensures m == m'
  {
    forall e ensures e in m <==> e in m' {
      assert Listed(m, e) == Listed(m', e);
      assert e in m ==> m[e][0] in ToSet(m[e]);
      assert e in m' ==> m'[e][0] in ToSet(m'[e]);
    }
    forall e | e in m ensures m[e] == m'[e] {
      assert Listed(m, e) == Listed(m', e);
      SortedListingUnique(m[e], m'[e], ToSet(m[e]));
    }
  }

  /** Positive counts, no empty inner map, and sorted non-empty support lists. */
  ghost predicate WellFormed(s: Snapshot) {
    Positive(s.keyStats) && NoneEmpty(s.valueStats) && SortedLists(s.support)
  }

  lemma KeyCountsPositive(live: map<string, Mapping>)
    ensures Positive(KeyCounts(live))
  {
    forall r | r in KeyCounts(live) ensures KeyCounts(live)[r] > 0 {
      RecordedAt(live, r, "", "");
    }
  }

  lemma ValueCountsPositive(live: map<string, Mapping>, r: string)
    ensures Positive(ValueCountsAt(live, r))
  {
    forall v | v in ValuesAt(live, r) ensures |HavingValue(live, r, v)| > 0 {
      RecordedAt(live, r, v, "");
    }
  }

  // ----- adding a source

  lemma HavingAdded(live: map<string, Mapping>, id: string, entries: Mapping, r: string)
    requires id !in live
    ensures id !in Having(live, r)
    ensures Having(live[id := entries], r) == if r in entries then Having(live, r) + {id} else Having(live, r)
  {
  }

  lemma HavingValueAdded(live: map<string, Mapping>, id: string, entries: Mapping, r: string, v: string)
    requires id !in live
    ensures id !in HavingValue(live, r, v)
    ensures HavingValue(live[id := entries], r, v) ==
              if r in entries && v in entries[r] then HavingValue(live, r, v) + {id} else HavingValue(live, r, v)
  {
  }

  lemma HavingAdd(live: map<string, Mapping>, id: string, entries: Mapping, r: string, v: string)
    requires id !in live
    ensures |Having(live[id := entries], r)| == |Having(live, r)| + (if r in entries then 1 else 0)
    ensures |HavingValue(live[id := entries], r, v)| ==
              |HavingValue(live, r, v)| + (if r in entries && v in entries[r] then 1 else 0)
  {
    hide Having, HavingValue;
    HavingAdded(live, id, entries, r);
    HavingValueAdded(live, id, entries, r, v);
  }

  lemma AddKeysCounts(live: map<string, Mapping>, id: string, entries: Mapping)
    requires id !in live
    ensures AddKeys(KeyCounts(live), entries) == KeyCounts(live[id := entries])
  {
    KeyCountsPositive(live);
    KeyCountsPositive(live[id := entries]);
    forall r ensures Count(AddKeys(KeyCounts(live), entries), r) == Count(KeyCounts(live[id := entries]), r) {
      CountsAt(live, r, "");
      CountsAt(live[id := entries], r, "");
      HavingAdd(live, id, entries, r, "");
    }
    SameCounts(AddKeys(KeyCounts(live), entries), KeyCounts(live[id := entries]));
  }

  lemma AddCountsAt(m: map<string, nat>, values: seq<string>, v: string)
    requires Distinct(values)
    ensures Count(AddCounts(m, values), v) == Count(m, v) + (if v in values then 1 else 0)
  {
    DistinctMultiset(values, v);
  }

  lemma ReferenceWellFormed(partition: string, live: map<string, Mapping>)
    requires forall id :: id in live ==> Normalised(live[id])
    ensures WellFormed(Stats(partition, live))
  {
    KeyCountsPositive(live);
    forall r | r in KeyRefs(live) ensures ValueCountsAt(live, r) != map[] && Positive(ValueCountsAt(live, r)) {
      ValueCountsPositive(live, r);
      var id :| id in live && r in live[id];
      var v := live[id][r][0];
      assert v in live[id][r] && v in ValuesAt(live, r) && v in ValueCountsAt(live, r);
    }
    forall e | e in AllIndexKeys(live) ensures Sorted(Supporting(live, e)) != [] {
      RecordedAt(live, "", "", e);
    }
  }

  lemma AddValuesCounts(live: map<string, Mapping>, id: string, entries: Mapping)
    requires id !in live && Normalised(entries) && NoneEmpty(ValueCounts(live))
              && NoneEmpty(ValueCounts(live[id := entries]))
    ensures AddValues(ValueCounts(live), entries) == ValueCounts(live[id := entries])
  {
    var added := AddValues(ValueCounts(live), entries);
    AddValuesNoneEmpty(ValueCounts(live), entries);
    forall r, v ensures Count(Inner(added, r), v) == Count(Inner(ValueCounts(live[id := entries]), r), v) {
      CountsAt(live, r, v);
      CountsAt(live[id := entries], r, v);
      HavingAdd(live, id, entries, r, v);
      AddValuesAt(ValueCounts(live), entries, r, v);
    }
    SameValues(added, ValueCounts(live[id := entries]));
  }

  lemma AddValuesAt(m: map<string, map<string, nat>>, entries: Mapping, r: string, v: string)
    requires Normalised(entries)
    ensures Count(Inner(AddValues(m, entries), r), v) ==
              Count(Inner(m, r), v) + (if r in entries && v in entries[r] then 1 else 0)
  {
    if r in entries {
      AddCountsAt(Inner(m, r), entries[r], v);
    }
  }

  lemma AddValuesNoneEmpty(m: map<string, map<string, nat>>, entries: Mapping)
    requires NoneEmpty(m) && Normalised(entries)
    ensures NoneEmpty(AddValues(m, entries))
  {
    forall r | r in entries
      ensures AddCounts(Inner(m, r), entries[r]) != map[] && Positive(AddCounts(Inner(m, r), entries[r]))
    {
      assert entries[r][0] in AddCounts(Inner(m, r), entries[r]);
    }
  }

  lemma AddSupportAt(m: map<string, seq<string>>, keys: set<string>, id: string, e: string)
    ensures Listed(AddSupport(m, keys, id), e) == if e in keys then Listed(m, e) + {id} else Listed(m, e)
  {
  }

  lemma AddSupportSorted(m: map<string, seq<string>>, keys: set<string>, id: string)
    requires SortedLists(m)
    ensures SortedLists(AddSupport(m, keys, id))
  {
    forall e | e in keys ensures Sorted(Listed(m, e) + {id}) != [] {
      assert id in ToSet(Sorted(Listed(m, e) + {id}));
    }
  }

  lemma AddSupportIndex(live: map<string, Mapping>, id: string, entries: Mapping)
    requires id !in live
    ensures AddSupport(SupportIndex(live), IndexKeys(entries), id) == SupportIndex(live[id := entries])
  {
    hide AddSupport, SupportIndex, IndexKeys, SortedLists, Listed;
    var live', keys := live[id := entries], IndexKeys(entries);
    SupportIndexSorted(live);
    SupportIndexSorted(live');
    AddSupportSorted(SupportIndex(live), keys, id);
    forall e ensures Listed(AddSupport(SupportIndex(live), keys, id), e) == Listed(SupportIndex(live'), e) {
      assert Supporting(live', e) == if e in keys then Supporting(live, e) + {id} else Supporting(live, e);
      AddSupportAt(SupportIndex(live), keys, id, e);
      ListedAt(live, e);
      ListedAt(live', e);
    }
    SameLists(AddSupport(SupportIndex(live), keys, id), SupportIndex(live'));
  }

  lemma ListedAt(live: map<string, Mapping>, e: string)
    ensures Listed(SupportIndex(live), e) == Supporting(live, e)
  {
    RecordedAt(live, "", "", e);
  }

  lemma SupportIndexSorted(live: map<string, Mapping>)
    ensures SortedLists(SupportIndex(live))
  {
    forall e | e in AllIndexKeys(live) ensures Sorted(Supporting(live, e)) != [] {
      RecordedAt(live, "", "", e);
    }
  }

  // ----- removing a source

  lemma HavingRemove(live: map<string, Mapping>, id: string, r: string, v: string)
    requires id in live
    ensures |Having(live - {id}, r)| == |Having(live, r)| - (if r in live[id] then 1 else 0)
    ensures |HavingValue(live - {id}, r, v)| ==
              |HavingValue(live, r, v)| - (if r in live[id] && v in live[id][r] then 1 else 0)
  {
    assert (live - {id})[id := live[id]] == live;
    HavingAdd(live - {id}, id, live[id], r, v);
  }

  lemma SubKeysAt(m: map<string, nat>, entries: Mapping, r: string)
    requires Positive(m)
    ensures Positive(SubKeys(m, entries))
    ensures Count(SubKeys(m, entries), r) == if r in entries && r in m then m[r] - 1 else Count(m, r)
  {
  }

  lemma SubValuesAt(m: map<string, map<string, nat>>, entries: Mapping, r: string, v: string)
    requires Normalised(entries) && NoneEmpty(m)
    ensures Count(Inner(SubValues(m, entries), r), v) ==
              if r in entries && v in entries[r] && Count(Inner(m, r), v) > 0 then Count(Inner(m, r), v) - 1
              else Count(Inner(m, r), v)
  {
    if r in entries {
      DistinctMultiset(entries[r], v);
      assert Count(SubCounts(Inner(m, r), entries[r]), v) ==
        if v in entries[r] && v in Inner(m, r) then Inner(m, r)[v] - 1 else Count(Inner(m, r), v);
    }
  }

  lemma SubValuesNoneEmpty(m: map<string, map<string, nat>>, entries: Mapping)
    requires NoneEmpty(m)
    ensures NoneEmpty(SubValues(m, entries))
  {
  }

  lemma SubSupportAt(m: map<string, seq<string>>, keys: set<string>, id: string, e: string)
    ensures Listed(SubSupport(m, keys, id), e) == if e in keys then Listed(m, e) - {id} else Listed(m, e)
  {
  }

  lemma SubSupportSorted(m: map<string, seq<string>>, keys: set<string>, id: string)
    requires SortedLists(m)
    ensures SortedLists(SubSupport(m, keys, id))
  {
    forall e | e in SubSupport(m, keys, id) && e in keys ensures Sorted(ToSet(m[e]) - {id}) != [] {
      assert ToSet(Sorted(ToSet(m[e]) - {id})) != {};
    }
  }

  lemma SubKeysCounts(live: map<string, Mapping>, id: string)
    requires id in live
    ensures SubKeys(KeyCounts(live), live[id]) == KeyCounts(live - {id})
  {
    KeyCountsPositive(live);
    KeyCountsPositive(live - {id});
    forall r ensures Count(SubKeys(KeyCounts(live), live[id]), r) == Count(KeyCounts(live - {id}), r) {
      CountsAt(live, r, "");
      CountsAt(live - {id}, r, "");
      HavingRemove(live, id, r, "");
      SubKeysAt(KeyCounts(live), live[id], r);
    }
    SameCounts(SubKeys(KeyCounts(live), live[id]), KeyCounts(live - {id}));
  }

  lemma SubValuesCounts(live: map<string, Mapping>, id: string)
    requires id in live && Normalised(live[id]) && NoneEmpty(ValueCounts(live)) && NoneEmpty(ValueCounts(live - {id}))
    ensures SubValues(ValueCounts(live), live[id]) == ValueCounts(live - {id})
  {
    SubValuesNoneEmpty(ValueCounts(live), live[id]);
    forall r, v
      ensures Count(Inner(SubValues(ValueCounts(live), live[id]), r), v) == Count(Inner(ValueCounts(live - {id}), r), v)
    {
      CountsAt(live, r, v);
      CountsAt(live - {id}, r, v);
      HavingRemove(live, id, r, v);
      SubValuesAt(ValueCounts(live), live[id], r, v);
    }
    SameValues(SubValues(ValueCounts(live), live[id]), ValueCounts(live - {id}));
  }

  lemma SubSupportIndex(live: map<string, Mapping>, id: string)
    requires id in live
    ensures SubSupport(SupportIndex(live), IndexKeys(live[id]), id) == SupportIndex(live - {id})
  {
    hide SubSupport, SupportIndex, IndexKeys, SortedLists, Listed;
    var live', keys := live - {id}, IndexKeys(live[id]);
    SupportIndexSorted(live);
    SupportIndexSorted(live');
    SubSupportSorted(SupportIndex(live), keys, id);
    forall e ensures Listed(SubSupport(SupportIndex(live), keys, id), e) == Listed(SupportIndex(live'), e) {
      assert Supporting(live', e) == if e in keys then Supporting(live, e) - {id} else Supporting(live, e);
      SubSupportAt(SupportIndex(live), keys, id, e);
      ListedAt(live, e);
      ListedAt(live', e);
    }
    SameLists(SubSupport(SupportIndex(live), keys, id), SupportIndex(live'));
  }

  // ----- the main results

  /**
    Replacing one live source's entries leaves the recount as it was only when the entries are the same: the value
    counts alone tell two entries of one source apart.
   */
  lemma RecountTellsApart(partition: string, live: map<string, Mapping>, id: string, entries: Mapping)
    requires id in live && SortedLists(live[id]) && SortedLists(entries)
    ensures Stats(partition, live[id := entries]) == Stats(partition, live) <==> entries == live[id]
  {
    var live' := live[id := entries];
    assert entries == live[id] ==> live' == live;
    if Stats(partition, live') == Stats(partition, live) {
      forall r ensures Listed(entries, r) == Listed(live[id], r) {
        forall v ensures v in Listed(entries, r) <==> v in Listed(live[id], r) {
          SameValueCounts(partition, live, id, entries, r, v);
        }
      }
      SameLists(entries, live[id]);
    }
  }

  lemma SameValueCounts(
    partition: string, live: map<string, Mapping>, id: string, entries: Mapping, r: string, v: string)
    requires id in live && Stats(partition, live[id := entries]) == Stats(partition, live)
    ensures v in Listed(entries, r) <==> v in Listed(live[id], r)
  {
    var live' := live[id := entries];
    assert live' - {id} == live - {id};
    CountsAt(live, r, v);
    CountsAt(live', r, v);
    HavingRemove(live, id, r, v);
    HavingRemove(live', id, r, v);
  }

  ghost predicate AllNormalised(live: map<string, Mapping>) {
    forall id :: id in live ==> Normalised(live[id])
  }

  /** Main result: applying the observation of a new source to a recount gives the recount with that source. */
  lemma ApplyIsRecount(partition: string, live: map<string, Mapping>, id: string, entries: Mapping)
    requires id !in live && Normalised(entries) && AllNormalised(live)
    ensures Applied(Stats(partition, live), id, entries) == Stats(partition, live[id := entries])
  {
    ReferenceWellFormed(partition, live);
    ReferenceWellFormed(partition, live[id := entries]);
    AddKeysCounts(live, id, entries);
    AddValuesCounts(live, id, entries);
    AddSupportIndex(live, id, entries);
  }

  /** Main result: removing a live source's own entries gives the recount without it. */
  lemma RemoveIsRecount(partition: string, live: map<string, Mapping>, id: string)
    requires id in live && AllNormalised(live)
    ensures Removed(Stats(partition, live), id, live[id]) == Stats(partition, live - {id})
  {
    ReferenceWellFormed(partition, live);
    ReferenceWellFormed(partition, live - {id});
    SubKeysCounts(live, id);
    SubValuesCounts(live, id);
    SubSupportIndex(live, id);
    assert live == (live - {id})[id := live[id]];
  }

  /** Main result: replacing a live source's entries gives the recount with the new ones. */
  lemma ReplaceIsRecount(partition: string, live: map<string, Mapping>, id: string, entries: Mapping)
    requires id in live && Normalised(entries) && AllNormalised(live)
    ensures Applied(Removed(Stats(partition, live), id, live[id]), id, entries) == Stats(partition, live[id := entries])
  {
    hide Stats, Applied, Removed, Normalised;
    RemoveIsRecount(partition, live, id);
    ApplyIsRecount(partition, live - {id}, id, entries);
    assert (live - {id})[id := entries] == live[id := entries];
  }

  lemma ApplyKeepsWellFormed(s: Snapshot, id: string, entries: Mapping)
    requires WellFormed(s) && Normalised(entries)
    ensures WellFormed(Applied(s, id, entries))
  {
    AddValuesNoneEmpty(s.valueStats, entries);
    AddSupportSorted(s.support, IndexKeys(entries), id);
  }

  lemma RemoveKeepsWellFormed(s: Snapshot, id: string, entries: Mapping)
    requires WellFormed(s)
    ensures WellFormed(Removed(s, id, entries))
  {
    SubKeysAt(s.keyStats, entries, "");
    SubValuesNoneEmpty(s.valueStats, entries);
    SubSupportSorted(s.support, IndexKeys(entries), id);
  }

  /** The source already supports one of these index keys. */
  predicate AlreadySupports(support: map<string, seq<string>>, keys: set<string>, id: string) {
    exists e :: e in keys && e in support && id in support[e]
  }

  /**
    Main result: on a well-formed snapshot, removing an observation just applied restores the snapshot exactly when
    its source was not already supporting one of its index keys.
   */
  lemma RemoveUndoesApply(s: Snapshot, id: string, entries: Mapping)
    requires WellFormed(s) && Normalised(entries)
    ensures Removed(Applied(s, id, entries), id, entries) == s <==> !AlreadySupports(s.support, IndexKeys(entries), id)
  {
    KeysRestored(s.keyStats, entries);
    ValuesRestored(s.valueStats, entries);
    SupportRestored(s.support, IndexKeys(entries), id);
  }

  /** A source applied twice: removing one of the two observations takes its support away altogether. */
  lemma AppliedTwiceNotRestored(partition: string)
    ensures var entries: Mapping := map["facet:region" := ["eu"]];
            var once := Applied(EmptySnapshot(partition), "c1", entries);
            WellFormed(once) && Removed(Applied(once, "c1", entries), "c1", entries) != once
  {
    var entries: Mapping := map["facet:region" := ["eu"]];
    var empty, e := EmptySnapshot(partition), IndexKey("facet:region", "eu");
    var once := Applied(empty, "c1", entries);
    ApplyKeepsWellFormed(empty, "c1", entries);
    assert "eu" in entries["facet:region"] && e in IndexKeys(entries);
    AddSupportAt(empty.support, IndexKeys(entries), "c1", e);
    assert e in once.support && "c1" in once.support[e];
    RemoveUndoesApply(once, "c1", entries);
  }

  lemma KeysRestored(m: map<string, nat>, entries: Mapping)
    requires Positive(m)
    ensures SubKeys(AddKeys(m, entries), entries) == m
  {
    var added := AddKeys(m, entries);
    forall r ensures Count(SubKeys(added, entries), r) == Count(m, r) {
      SubKeysAt(added, entries, r);
    }
    SameCounts(SubKeys(added, entries), m);
  }

  lemma ValuesRestored(m: map<string, map<string, nat>>, entries: Mapping)
    requires NoneEmpty(m) && Normalised(entries)
    ensures SubValues(AddValues(m, entries), entries) == m
  {
    var added := AddValues(m, entries);
    AddValuesNoneEmpty(m, entries);
    SubValuesNoneEmpty(added, entries);
    forall r, v ensures Count(Inner(SubValues(added, entries), r), v) == Count(Inner(m, r), v) {
      AddValuesAt(m, entries, r, v);
      SubValuesAt(added, entries, r, v);
    }
    SameValues(SubValues(added, entries), m);
  }

  lemma SupportRestoredAt(m: map<string, seq<string>>, keys: set<string>, id: string, e: string)
    ensures Listed(SubSupport(AddSupport(m, keys, id), keys, id), e) == if e in keys then Listed(m, e) - {id}
              else Listed(m, e)
  {
    AddSupportAt(m, keys, id, e);
    SubSupportAt(AddSupport(m, keys, id), keys, id, e);
  }

  lemma SupportRestored(m: map<string, seq<string>>, keys: set<string>, id: string)
    requires SortedLists(m)
    ensures SubSupport(AddSupport(m, keys, id), keys, id) == m <==> !AlreadySupports(m, keys, id)
  {
    var restored := SubSupport(AddSupport(m, keys, id), keys, id);
    if e :| e in keys && e in m && id in m[e] {
      SupportRestoredAt(m, keys, id, e);
      assert id in Listed(m, e) && id !in Listed(restored, e);
    } else {
      AddSupportSorted(m, keys, id);
      SubSupportSorted(AddSupport(m, keys, id), keys, id);
      forall e ensures Listed(restored, e) == Listed(m, e) {
        SupportRestoredAt(m, keys, id, e);
      }
      SameLists(restored, m);
    }
  }
}
