/**
  The loops of internal/knowledge/statistics/aggregator.py, proved against the
  closed forms of module Statistics.  Dictionaries are traversed in an arbitrary
  order; the result does not depend on it.
 */
module Aggregator {
  import opened Options
  import opened Sorting
  import opened Statistics

  // ----- updates with separate entries compose

  lemma AddKeysCompose(m: map<string, nat>, a: Mapping, b: Mapping)
    requires a.Keys !! b.Keys
    ensures AddKeys(AddKeys(m, a), b) == AddKeys(m, a + b)
  {
  }

  lemma AddValuesInner(m: map<string, map<string, nat>>, entries: Mapping, r: string)
    ensures r in AddValues(m, entries) <==> r in m || r in entries
    ensures Inner(AddValues(m, entries), r) == if r in entries then AddCounts(Inner(m, r), entries[r]) else Inner(m, r)
  {
  }

  lemma SameInner(m: map<string, map<string, nat>>, m': map<string, map<string, nat>>)
    requires m.Keys == m'.Keys && forall r :: r in m ==> Inner(m, r) == Inner(m', r)
    ensures m == m'
  {
    forall r | r in m ensures m[r] == m'[r] {
      assert Inner(m, r) == Inner(m', r);
    }
  }

  lemma AddValuesCompose(m: map<string, map<string, nat>>, a: Mapping, b: Mapping)
    requires a.Keys !! b.Keys
    ensures AddValues(AddValues(m, a), b) == AddValues(m, a + b)
  {
    hide AddCounts;
    var added := AddValues(m, a);
    forall r ensures Inner(AddValues(added, b), r) == Inner(AddValues(m, a + b), r) {
      AddValuesInner(m, a, r);
      AddValuesInner(added, b, r);
      AddValuesInner(m, a + b, r);
    }
    assert AddValues(added, b).Keys == m.Keys + a.Keys + b.Keys;
    SameInner(AddValues(added, b), AddValues(m, a + b));
  }

  lemma SubKeysCompose(m: map<string, nat>, a: Mapping, b: Mapping)
    requires a.Keys !! b.Keys
    ensures SubKeys(SubKeys(m, a), b) == SubKeys(m, a + b)
  {
  }

  lemma SubValuesCompose(m: map<string, map<string, nat>>, a: Mapping, b: Mapping)
    requires a.Keys !! b.Keys
    ensures SubValues(SubValues(m, a), b) == SubValues(m, a + b)
  {
  }

  lemma AddSupportCompose(m: map<string, seq<string>>, a: set<string>, b: set<string>, id: string)
    ensures AddSupport(AddSupport(m, a, id), b, id) == AddSupport(m, a + b, id)
  {
    hide AddSupport;
    var twice, both := AddSupport(AddSupport(m, a, id), b, id), AddSupport(m, a + b, id);
    forall e ensures (e in twice <==> e in both) && (e in both ==> twice[e] == both[e]) {
      AddSupportTwice(m, a, b, id, e);
    }
  }

  lemma AddSupportEntry(m: map<string, seq<string>>, keys: set<string>, id: string, e: string)
    ensures var m' := AddSupport(m, keys, id);
            && (e in m' <==> e in m || e in keys)
            && (e in m' ==> m'[e] == if e in keys then Sorted(Listed(m, e) + {id}) else m[e])
  {
    hide Sorted, Listed;
  }

  lemma AddSupportTwice(m: map<string, seq<string>>, a: set<string>, b: set<string>, id: string, e: string)
    ensures var twice, both := AddSupport(AddSupport(m, a, id), b, id), AddSupport(m, a + b, id);
            (e in twice <==> e in both) && (e in both ==> twice[e] == both[e])
  {
    hide AddSupport, Sorted, Listed;
    AddSupportAt(m, a, id, e);
    AddSupportEntry(m, a, id, e);
    AddSupportEntry(m, a + b, id, e);
    AddSupportEntry(AddSupport(m, a, id), b, id, e);
    assert Listed(m, e) + {id} + {id} == Listed(m, e) + {id};
  }

  lemma SubSupportCompose(m: map<string, seq<string>>, a: set<string>, b: set<string>, id: string)
    ensures SubSupport(SubSupport(m, a, id), b, id) == SubSupport(m, a + b, id)
  {
    hide SubSupport;
    var twice, both := SubSupport(SubSupport(m, a, id), b, id), SubSupport(m, a + b, id);
    forall e ensures (e in twice <==> e in both) && (e in both ==> twice[e] == both[e]) {
      SubSupportTwice(m, a, b, id, e);
    }
  }

  lemma SubSupportEntry(m: map<string, seq<string>>, keys: set<string>, id: string, e: string)
    ensures var m' := SubSupport(m, keys, id);
            && (e in m' <==> e in m && (e in keys ==> ToSet(m[e]) - {id} != {}))
            && (e in m' ==> m'[e] == if e in keys then Sorted(ToSet(m[e]) - {id}) else m[e])
  {
    hide Sorted, ToSet;
  }

  lemma SubSupportTwice(m: map<string, seq<string>>, a: set<string>, b: set<string>, id: string, e: string)
    ensures var twice, both := SubSupport(SubSupport(m, a, id), b, id), SubSupport(m, a + b, id);
            (e in twice <==> e in both) && (e in both ==> twice[e] == both[e])
  {
    hide SubSupport, Sorted, ToSet;
    SubSupportEntry(m, a, id, e);
    SubSupportEntry(m, a + b, id, e);
    SubSupportEntry(SubSupport(m, a, id), b, id, e);
    if e in m {
      SortedToSet(ToSet(m[e]) - {id});
      assert ToSet(m[e]) - {id} - {id} == ToSet(m[e]) - {id};
    }
  }

  lemma IndexKeysUnion(a: Mapping, b: Mapping)
    requires a.Keys !! b.Keys
    ensures IndexKeys(a + b) == IndexKeys(a) + IndexKeys(b)
  {
    var c := a + b;
    forall r | r in a ensures c[r] == a[r] {}
    forall r | r in b ensures c[r] == b[r] {}
  }

  // ----- one value

  function Increment(m: map<string, nat>, key: string): map<string, nat> {
    m[key := Count(m, key) + 1]
  }

  lemma CountSnoc(values: seq<string>, v: string, w: string)
    ensures multiset(values + [v])[w] == multiset(values)[w] + (if w == v then 1 else 0)
    ensures w in values + [v] <==> w in values || w == v
    ensures w in values <==> multiset(values)[w] > 0
  {
    assert w in values <==> w in multiset(values);
  }

  lemma AddCountsStep(m: map<string, nat>, values: seq<string>, v: string)
    ensures AddCounts(m, values + [v]) == Increment(AddCounts(m, values), v)
  {
    var next, step := AddCounts(m, values + [v]), Increment(AddCounts(m, values), v);
    forall w ensures (w in next <==> w in step) && (w in next ==> next[w] == step[w]) {
      CountSnoc(values, v, w);
    }
  }

  function Decrement(m: map<string, nat>, key: string): map<string, nat> {
    if Count(m, key) > 1 then m[key := m[key] - 1] else m - {key}
  }

  lemma SubCountsStep(m: map<string, nat>, values: seq<string>, v: string)
    ensures SubCounts(m, values + [v]) == Decrement(SubCounts(m, values), v)
  {
    var next, step := SubCounts(m, values + [v]), Decrement(SubCounts(m, values), v);
    forall w ensures (w in next <==> w in step) && (w in next ==> next[w] == step[w]) {
      CountSnoc(values, v, w);
    }
  }

  lemma AddKeysOne(m: map<string, nat>, r: string, values: seq<string>)
    ensures AddKeys(m, map[r := values]) == Increment(m, r)
  {
  }

  lemma AddValuesOne(m: map<string, map<string, nat>>, r: string, values: seq<string>)
    ensures AddValues(m, map[r := values]) == m[r := AddCounts(Inner(m, r), values)]
  {
  }

  lemma SubKeysOne(m: map<string, nat>, r: string, values: seq<string>)
    ensures SubKeys(m, map[r := values]) == Decrement(m, r)
  {
  }

  lemma SubValuesOne(m: map<string, map<string, nat>>, r: string, values: seq<string>)
    ensures SubValues(m, map[r := values]) ==
              if SubCounts(Inner(m, r), values) == map[] then m - {r} else m[r := SubCounts(Inner(m, r), values)]
  {
  }

  lemma AddSupportOne(m: map<string, seq<string>>, e: string, id: string)
    ensures AddSupport(m, {e}, id) == m[e := Sorted(Listed(m, e) + {id})]
  {
  }

  lemma SubSupportOne(m: map<string, seq<string>>, e: string, id: string)
    ensures SubSupport(m, {e}, id) ==
              if Listed(m, e) - {id} == {} then m - {e} else m[e := Sorted(Listed(m, e) - {id})]
  {
    hide Sorted, ToSet;
  }

  function IndexKeysOf(r: string, values: seq<string>): set<string> {
    set v | v in values :: IndexKey(r, v)
  }

  lemma IndexKeysOfSnoc(r: string, values: seq<string>, v: string)
    ensures IndexKeysOf(r, values + [v]) == IndexKeysOf(r, values) + {IndexKey(r, v)}
  {
    assert forall w :: w in values + [v] <==> w in values || w == v;
  }

  lemma IndexKeysOne(r: string, values: seq<string>)
    ensures IndexKeys(map[r := values]) == IndexKeysOf(r, values)
  {
    var one: Mapping := map[r := values];
    assert one[r] == values;
  }

  lemma AddSupportStep(m: map<string, seq<string>>, r: string, values: seq<string>, v: string, id: string)
    ensures AddSupport(AddSupport(m, IndexKeysOf(r, values), id), {IndexKey(r, v)}, id) ==
              AddSupport(m, IndexKeysOf(r, values + [v]), id)
  {
    IndexKeysOfSnoc(r, values, v);
    AddSupportCompose(m, IndexKeysOf(r, values), {IndexKey(r, v)}, id);
  }

  lemma SubSupportStep(m: map<string, seq<string>>, r: string, values: seq<string>, v: string, id: string)
    ensures SubSupport(SubSupport(m, IndexKeysOf(r, values), id), {IndexKey(r, v)}, id) ==
              SubSupport(m, IndexKeysOf(r, values + [v]), id)
  {
    IndexKeysOfSnoc(r, values, v);
    SubSupportCompose(m, IndexKeysOf(r, values), {IndexKey(r, v)}, id);
  }

  lemma ApplyNothing(counts: map<string, nat>, support: map<string, seq<string>>, r: string, id: string)
    ensures AddCounts(counts, []) == counts && AddSupport(support, IndexKeysOf(r, []), id) == support
  {
  }

  lemma RemoveNothing(counts: map<string, nat>, support: map<string, seq<string>>, r: string, id: string)
    ensures SubCounts(counts, []) == counts && SubSupport(support, IndexKeysOf(r, []), id) == support
  {
  }

  // ----- the loops

  method AddSource(
    support: map<string, seq<string>>, indexKey: string, id: string) returns (updated: map<string, seq<string>>)
    ensures updated == AddSupport(support, {indexKey}, id)
  {
    AddSupportOne(support, indexKey, id);
    var ids := Listed(support, indexKey) + {id};
    var sorted := SortedList(ids);
    updated := support[indexKey := sorted];
  }

  method DiscardSource(support: map<string, seq<string>>, indexKey: string, id: string)
    returns (updated: map<string, seq<string>>)
    ensures updated == SubSupport(support, {indexKey}, id)
  {
    SubSupportOne(support, indexKey, id);
    var ids := Listed(support, indexKey) - {id};
    if ids != {} {
      var sorted := SortedList(ids);
      updated := support[indexKey := sorted];
    } else {
      updated := support - {indexKey};
    }
  }

  /** The inner loop of `apply`: the values of one key. */
  method ApplyValues(
    counts0: map<string, nat>, support0: map<string, seq<string>>, keyRef: string, values: seq<string>, id: string)
    returns (counts: map<string, nat>, support: map<string, seq<string>>)
    ensures counts == AddCounts(counts0, values)
    ensures support == AddSupport(support0, IndexKeysOf(keyRef, values), id)
  {
    hide AddCounts, AddSupport, IndexKeysOf, Increment, IndexKey;
    counts, support := counts0, support0;
    ApplyNothing(counts0, support0, keyRef, id);
    for i := 0 to |values|
      invariant counts == AddCounts(counts0, values[..i])
      invariant support == AddSupport(support0, IndexKeysOf(keyRef, values[..i]), id)
    {
      assert values[..i + 1] == values[..i] + [values[i]];
      AddCountsStep(counts0, values[..i], values[i]);
      AddSupportStep(support0, keyRef, values[..i], values[i], id);
      counts := Increment(counts, values[i]);
      support := AddSource(support, IndexKey(keyRef, values[i]), id);
    }
    assert values[..|values|] == values;
  }

  /** The inner loop of `remove`. */
  method RemoveValues(
    counts0: map<string, nat>, support0: map<string, seq<string>>, keyRef: string, values: seq<string>, id: string)
    returns (counts: map<string, nat>, support: map<string, seq<string>>)
    ensures counts == SubCounts(counts0, values)
    ensures support == SubSupport(support0, IndexKeysOf(keyRef, values), id)
  {
    hide SubCounts, SubSupport, IndexKeysOf, Decrement, IndexKey;
    counts, support := counts0, support0;
    RemoveNothing(counts0, support0, keyRef, id);
    for i := 0 to |values|
      invariant counts == SubCounts(counts0, values[..i])
      invariant support == SubSupport(support0, IndexKeysOf(keyRef, values[..i]), id)
    {
      assert values[..i + 1] == values[..i] + [values[i]];
      SubCountsStep(counts0, values[..i], values[i]);
      SubSupportStep(support0, keyRef, values[..i], values[i], id);
      counts := Decrement(counts, values[i]);
      support := DiscardSource(support, IndexKey(keyRef, values[i]), id);
    }
    assert values[..|values|] == values;
  }

  /** The part of a mapping whose keys have been visited. */
  function Visited(m: Mapping, todo: set<string>): Mapping {
    map k | k in m && k !in todo :: m[k]
  }

  /** `tagged` is `m` under key references. */
  ghost predicate IsTag(field: string, m: Mapping, tagged: Mapping) {
    tagged.Keys == Refs(field, m.Keys) && forall k :: k in m ==> tagged[KeyRef(field, k)] == m[k]
  }

  lemma IsTagUnique(field: string, m: Mapping, t: Mapping, t': Mapping)
    requires IsTag(field, m, t) && IsTag(field, m, t')
    ensures t == t'
  {
    forall r | r in t ensures t[r] == t'[r] {
      var k :| k in m && r == KeyRef(field, k);
    }
  }

  lemma TagIsTag(field: string, m: Mapping)
    requires IsField(field)
    ensures IsTag(field, m, Tag(field, m))
  {
  }

  lemma RefsSnoc(field: string, keys: set<string>, key: string)
    requires IsField(field) && key !in keys
    ensures Refs(field, keys + {key}) == Refs(field, keys) + {KeyRef(field, key)}
    ensures KeyRef(field, key) !in Refs(field, keys)
  {
    if KeyRef(field, key) in Refs(field, keys) {
      var k :| k in keys && KeyRef(field, k) == KeyRef(field, key);
      KeyRefInjective(field, k, field, key);
    }
  }

  /** Visiting one more key adds its tagged entry. */
  lemma VisitKey(field: string, m: Mapping, todo: set<string>, key: string, tagged: Mapping)
    requires IsField(field) && key in todo && todo <= m.Keys && IsTag(field, Visited(m, todo), tagged)
    ensures IsTag(field, Visited(m, todo - {key}), tagged + map[KeyRef(field, key) := m[key]])
    ensures KeyRef(field, key) !in tagged && KeyRef(field, key) in Refs(field, m.Keys)
  {
    var before := Visited(m, todo);
    assert Visited(m, todo - {key}).Keys == before.Keys + {key};
    RefsSnoc(field, before.Keys, key);
    forall k | k in before ensures KeyRef(field, k) != KeyRef(field, key) {
      assert KeyRef(field, k) in Refs(field, before.Keys);
    }
  }

  ghost function VisitNext(
    done: Mapping, field: string, m: Mapping, todo: set<string>, key: string, tagged: Mapping): (next: Mapping)
    requires IsField(field) && key in todo && todo <= m.Keys && IsTag(field, Visited(m, todo), tagged)
    requires done.Keys !! Refs(field, m.Keys)
    ensures IsTag(field, Visited(m, todo - {key}), next) && KeyRef(field, key) !in done + tagged
    ensures done + tagged + map[KeyRef(field, key) := m[key]] == done + next
  {
    hide IsTag, Visited, KeyRef, Refs;
    VisitKey(field, m, todo, key, tagged);
    EntryJoins(done, tagged, KeyRef(field, key), m[key]);
    tagged + map[KeyRef(field, key) := m[key]]
  }

  lemma EntryJoins(done: Mapping, tagged: Mapping, r: string, values: seq<string>)
    requires r !in done && r !in tagged
    ensures r !in done + tagged && done + tagged + map[r := values] == done + (tagged + map[r := values])
  {
  }

  /** The three fields have separate entries. */
  lemma FieldsSeparate(o: Observation)
    ensures Refs("facet", o.facets.Keys) !! Refs("semantic_profile", o.semanticProfile.Keys)
    ensures Refs("fact", o.facts.Keys) !! Refs("facet", o.facets.Keys)
              + Refs("semantic_profile", o.semanticProfile.Keys)
  {
    RefsSeparate("facet", o.facets.Keys, "semantic_profile", o.semanticProfile.Keys);
    RefsSeparate("facet", o.facets.Keys, "fact", o.facts.Keys);
    RefsSeparate("semantic_profile", o.semanticProfile.Keys, "fact", o.facts.Keys);
  }

  lemma RefsSeparate(f: string, keys: set<string>, f': string, keys': set<string>)
    requires IsField(f) && IsField(f') && f != f'
    ensures Refs(f, keys) !! Refs(f', keys')
  {
    forall r | r in Refs(f, keys) ensures r !in Refs(f', keys') {
      var k :| k in keys && r == KeyRef(f, k);
      forall k' | k' in keys' ensures r != KeyRef(f', k') {
        if r == KeyRef(f', k') { KeyRefInjective(f, k, f', k'); }
      }
    }
  }

  /** Adding one more tagged key to what has been applied. */
  lemma ApplyEntry(s: Snapshot, done: Mapping, r: string, values: seq<string>, id: string)
    requires r !in done
    ensures var one: Mapping := map[r := values];
            && AddKeys(s.keyStats, done + one) == AddKeys(AddKeys(s.keyStats, done), one)
            && AddValues(s.valueStats, done + one) == AddValues(AddValues(s.valueStats, done), one)
            && AddSupport(s.support, IndexKeys(done + one), id) ==
                 AddSupport(AddSupport(s.support, IndexKeys(done), id), IndexKeysOf(r, values), id)
  {
    var one: Mapping := map[r := values];
    AddKeysCompose(s.keyStats, done, one);
    AddValuesCompose(s.valueStats, done, one);
    IndexKeysUnion(done, one);
    IndexKeysOne(r, values);
    AddSupportCompose(s.support, IndexKeys(done), IndexKeysOf(r, values), id);
  }

  lemma RemoveEntry(s: Snapshot, done: Mapping, r: string, values: seq<string>, id: string)
    requires r !in done
    ensures var one: Mapping := map[r := values];
            && SubKeys(s.keyStats, done + one) == SubKeys(SubKeys(s.keyStats, done), one)
            && SubValues(s.valueStats, done + one) == SubValues(SubValues(s.valueStats, done), one)
            && SubSupport(s.support, IndexKeys(done + one), id) ==
                 SubSupport(SubSupport(s.support, IndexKeys(done), id), IndexKeysOf(r, values), id)
  {
    var one: Mapping := map[r := values];
    SubKeysCompose(s.keyStats, done, one);
    SubValuesCompose(s.valueStats, done, one);
    IndexKeysUnion(done, one);
    IndexKeysOne(r, values);
    SubSupportCompose(s.support, IndexKeys(done), IndexKeysOf(r, values), id);
  }

  /** What the loops have done to the three dictionaries once the entries `done` are applied. */
  ghost predicate AppliedTo(s: Snapshot, data: Snapshot, done: Mapping, id: string) {
    && data.keyStats == AddKeys(s.keyStats, done)
    && data.valueStats == AddValues(s.valueStats, done)
    && data.support == AddSupport(s.support, IndexKeys(done), id)
  }

  ghost predicate RemovedFrom(s: Snapshot, data: Snapshot, done: Mapping, id: string) {
    && data.keyStats == SubKeys(s.keyStats, done)
    && data.valueStats == SubValues(s.valueStats, done)
    && data.support == SubSupport(s.support, IndexKeys(done), id)
  }

  method ApplyKey(
    ghost s: Snapshot, data0: Snapshot, ghost done: Mapping, keyRef: string, values: seq<string>, id: string)
    returns (data: Snapshot)
    requires AppliedTo(s, data0, done, id) && keyRef !in done
    ensures AppliedTo(s, data, done + map[keyRef := values], id)
    ensures data.partition == data0.partition && data.caseCount == data0.caseCount
  {
    ApplyEntry(s, done, keyRef, values, id);
    AddKeysOne(data0.keyStats, keyRef, values);
    AddValuesOne(data0.valueStats, keyRef, values);
    var counts, support := ApplyValues(Inner(data0.valueStats, keyRef), data0.support, keyRef, values, id);
    data := Snapshot(
      data0.partition, data0.caseCount, Increment(data0.keyStats, keyRef),
      data0.valueStats[keyRef := counts], support);
  }

  method RemoveKey(
    ghost s: Snapshot, data0: Snapshot, ghost done: Mapping, keyRef: string, values: seq<string>, id: string)
    returns (data: Snapshot)
    requires RemovedFrom(s, data0, done, id) && keyRef !in done
    ensures RemovedFrom(s, data, done + map[keyRef := values], id)
    ensures data.partition == data0.partition && data.caseCount == data0.caseCount
  {
    RemoveEntry(s, done, keyRef, values, id);
    SubKeysOne(data0.keyStats, keyRef, values);
    SubValuesOne(data0.valueStats, keyRef, values);
    var counts, support := RemoveValues(Inner(data0.valueStats, keyRef), data0.support, keyRef, values, id);
    var valueStats := if counts == map[] then data0.valueStats - {keyRef} else data0.valueStats[keyRef := counts];
    data := Snapshot(data0.partition, data0.caseCount, Decrement(data0.keyStats, keyRef), valueStats, support);
  }

  /** The loop over the keys of one field, in an arbitrary order. */
  method ApplyField(
    ghost s: Snapshot, data0: Snapshot, ghost done: Mapping, field: string, mapping: Mapping, id: string)
    returns (data: Snapshot, ghost tagged: Mapping)
    requires AppliedTo(s, data0, done, id) && IsField(field) && done.Keys !! Refs(field, mapping.Keys)
    ensures IsTag(field, mapping, tagged) && AppliedTo(s, data, done + tagged, id)
    ensures data.partition == data0.partition && data.caseCount == data0.caseCount
  {
    hide AppliedTo;
    data := data0;
    var todo := mapping.Keys;
    tagged := map[];
    assert Visited(mapping, todo) == map[] && done + tagged == done;
    while todo != {}
      invariant todo <= mapping.Keys && IsTag(field, Visited(mapping, todo), tagged)
      invariant AppliedTo(s, data, done + tagged, id)
      invariant data.partition == data0.partition && data.caseCount == data0.caseCount
    {
      var key :| key in todo;
      ghost var next := VisitNext(done, field, mapping, todo, key, tagged);
      data := ApplyKey(s, data, done + tagged, KeyRef(field, key), mapping[key], id);
      tagged := next;
      todo := todo - {key};
    }
    assert Visited(mapping, todo) == mapping;
  }

  method RemoveField(
    ghost s: Snapshot, data0: Snapshot, ghost done: Mapping, field: string, mapping: Mapping, id: string)
    returns (data: Snapshot, ghost tagged: Mapping)
    requires RemovedFrom(s, data0, done, id) && IsField(field) && done.Keys !! Refs(field, mapping.Keys)
    ensures IsTag(field, mapping, tagged) && RemovedFrom(s, data, done + tagged, id)
    ensures data.partition == data0.partition && data.caseCount == data0.caseCount
  {
    hide RemovedFrom;
    data := data0;
    var todo := mapping.Keys;
    tagged := map[];
    assert Visited(mapping, todo) == map[] && done + tagged == done;
    while todo != {}
      invariant todo <= mapping.Keys && IsTag(field, Visited(mapping, todo), tagged)
      invariant RemovedFrom(s, data, done + tagged, id)
      invariant data.partition == data0.partition && data.caseCount == data0.caseCount
    {
      var key :| key in todo;
      ghost var next := VisitNext(done, field, mapping, todo, key, tagged);
      data := RemoveKey(s, data, done + tagged, KeyRef(field, key), mapping[key], id);
      tagged := next;
      todo := todo - {key};
    }
    assert Visited(mapping, todo) == mapping;
  }

  lemma TagsAreEntries(o: Observation, facets: Mapping, profile: Mapping, facts: Mapping)
    requires IsTag("facet", o.facets, facets) && IsTag("semantic_profile", o.semanticProfile, profile)
    requires IsTag("fact", o.facts, facts)
    ensures map[] + facets + profile + facts == Entries(o)
  {
    hide Tag, IsTag;
    TagIsTag("facet", o.facets);
    TagIsTag("semantic_profile", o.semanticProfile);
    TagIsTag("fact", o.facts);
    IsTagUnique("facet", o.facets, facets, Tag("facet", o.facets));
    IsTagUnique("semantic_profile", o.semanticProfile, profile, Tag("semantic_profile", o.semanticProfile));
    IsTagUnique("fact", o.facts, facts, Tag("fact", o.facts));
    assert map[] + facets == facets;
  }

  /** `apply`: one observation on top of an optional snapshot, field after field. */
  method Apply(snapshot: Option<Snapshot>, o: Observation) returns (r: Result<Snapshot>)
    ensures r.Ok? <==> snapshot.GetOr(EmptySnapshot(o.partition)).partition == o.partition
    ensures r.Ok? ==> r.value == Applied(snapshot.GetOr(EmptySnapshot(o.partition)), o.sourceId, Entries(o))
  {
    var current := snapshot.GetOr(EmptySnapshot(o.partition));
    if current.partition != o.partition {
      return Err("observation partition does not match statistics snapshot");
    }
    var data := current.(caseCount := current.caseCount + 1);
    NothingApplied(current, o.sourceId);
    FieldsSeparate(o);
    ghost var facets, profile, facts;
    data, facets := ApplyField(current, data, map[], "facet", o.facets, o.sourceId);
    data, profile := ApplyField(current, data, map[] + facets, "semantic_profile", o.semanticProfile, o.sourceId);
    data, facts := ApplyField(current, data, map[] + facets + profile, "fact", o.facts, o.sourceId);
    TagsAreEntries(o, facets, profile, facts);
    r := Ok(data);
  }

  /** `remove`: one observation taken out of a snapshot. */
  method Remove(snapshot: Snapshot, o: Observation) returns (data: Snapshot)
    ensures data == Removed(snapshot, o.sourceId, Entries(o))
  {
    data := snapshot.(caseCount := if snapshot.caseCount > 0 then snapshot.caseCount - 1 else 0);
    NothingRemoved(snapshot, o.sourceId);
    FieldsSeparate(o);
    ghost var facets, profile, facts;
    data, facets := RemoveField(snapshot, data, map[], "facet", o.facets, o.sourceId);
    data, profile := RemoveField(snapshot, data, map[] + facets, "semantic_profile", o.semanticProfile, o.sourceId);
    data, facts := RemoveField(snapshot, data, map[] + facets + profile, "fact", o.facts, o.sourceId);
    TagsAreEntries(o, facets, profile, facts);
  }

  lemma NothingApplied(s: Snapshot, id: string)
    ensures AppliedTo(s, s, map[], id)
  {
  }

  lemma NothingRemoved(s: Snapshot, id: string)
    ensures RemovedFrom(s, s, map[], id)
  {
  }

  method Replace(snapshot: Snapshot, old_: Observation, new_: Observation) returns (r: Result<Snapshot>)
    ensures r.Ok? <==> snapshot.partition == new_.partition
    ensures r.Ok? ==>
              r.value == Applied(Removed(snapshot, old_.sourceId, Entries(old_)), new_.sourceId, Entries(new_))
  {
    var removed := Remove(snapshot, old_);
    r := Apply(Some(removed), new_);
  }

  // ----- rebuilding

  /** The entries of the listed observations of one partition, by source. */
  function LiveOf(partition: string, observations: seq<Observation>): map<string, Mapping> {
    if observations == [] then map[] else
    var before, o := LiveOf(partition, observations[..|observations| - 1]), observations[|observations| - 1];
    if o.partition == partition then before[o.sourceId := Entries(o)] else before
  }

  predicate DistinctSources(partition: string, observations: seq<Observation>) {
    forall i, j :: 0 <= i < j < |observations|
      && observations[i].partition == partition && observations[j].partition == partition
      ==> observations[i].sourceId != observations[j].sourceId
  }

  lemma {:induction false} LiveOfSources(partition: string, observations: seq<Observation>, id: string)
    ensures id in LiveOf(partition, observations) ==>
              exists o :: o in observations && o.partition == partition && o.sourceId == id
                && LiveOf(partition, observations)[id] == Entries(o)
  {
    if observations != [] {
      LiveOfSources(partition, observations[..|observations| - 1], id);
    }
  }

  lemma EmptyRecount(partition: string)
    ensures Stats(partition, map[]) == EmptySnapshot(partition)
  {
    assert KeyRefs(map[]) == {} && AllIndexKeys(map[]) == {};
  }

  ghost predicate AllNormalisedIn(observations: seq<Observation>) {
    forall i :: 0 <= i < |observations| ==> Normalised(Entries(observations[i]))
  }

  /**
    `build`: None for no observation of the partition, and otherwise the recount over the listed observations,
    whatever their order.
   */
  method Build(partition: string, observations: seq<Observation>) returns (snapshot: Option<Snapshot>)
    requires DistinctSources(partition, observations) && AllNormalisedIn(observations)
    ensures snapshot.None? <==> LiveOf(partition, observations) == map[]
    ensures snapshot.GetOr(EmptySnapshot(partition)) == Stats(partition, LiveOf(partition, observations))
  {
    snapshot := None;
    EmptyRecount(partition);
    for i := 0 to |observations|
      invariant snapshot.None? <==> LiveOf(partition, observations[..i]) == map[]
      invariant snapshot.GetOr(EmptySnapshot(partition)) == Stats(partition, LiveOf(partition, observations[..i]))
    {
      var o := observations[i];
      BuildStep(partition, observations, i);
      if o.partition == partition {
        var r := Apply(snapshot, o);
        assert r.Ok?;
        snapshot := Some(r.value);
      }
    }
    assert observations[..|observations|] == observations;
  }

  lemma BuildStep(partition: string, observations: seq<Observation>, i: nat)
    requires i < |observations| && DistinctSources(partition, observations) && AllNormalisedIn(observations)
    ensures var live, live', o :=
              LiveOf(partition, observations[..i]), LiveOf(partition, observations[..i + 1]), observations[i];
            if o.partition == partition
            then o.sourceId in live'
              && Applied(Stats(partition, live), o.sourceId, Entries(o)) == Stats(partition, live')
            else live' == live
  {
    hide Stats, Applied, Entries;
    var live, o := LiveOf(partition, observations[..i]), observations[i];
    assert observations[..i + 1][..i] == observations[..i];
    if o.partition == partition {
      forall id | id in live ensures Normalised(live[id]) && id != o.sourceId {
        LiveOfSources(partition, observations[..i], id);
      }
      ApplyIsRecount(partition, live, o.sourceId, Entries(o));
    }
  }
}
