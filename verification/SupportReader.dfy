/**
  Support queries over a partition's statistics: internal/knowledge/statistics/reader.py.

  The support index joins field, key and value with colons.  The results say what the index
  holds after any run of updates, when a query over it is a direct filter over the observations,
  and exactly which queries can never be misled by the encoding.
 */
module SupportReader {
  import opened Options
  import opened Text
  import opened Sorting
  import opened Fields
  import opened Statistics
  import opened Observations
  import Aggregator

  datatype Filter = Filter(field: string, key: string, values: seq<string>)

  datatype Query = Query(filters: seq<Filter>, matchAll: bool, limit: Option<int>)

  predicate ValidQuery(q: Query) {
    forall f :: f in q.filters ==> IsField(f.field)
  }

  // ----- what the reader returns

  /** The sources listed for a filter: those of its index keys, one per value. */
  function Hits(support: map<string, seq<string>>, f: Filter): set<string> {
    set c, id | c in f.values && id in Listed(support, IndexKey(KeyRef(f.field, f.key), c)) :: id
  }

  function AnyHits(support: map<string, seq<string>>, filters: seq<Filter>): set<string> {
    set f, id | f in filters && id in Hits(support, f) :: id
  }

  function AllHits(support: map<string, seq<string>>, filters: seq<Filter>): set<string> {
    set id | id in AnyHits(support, filters) && forall f :: f in filters ==> id in Hits(support, f)
  }

  /** A Python slice `xs[:limit]`; a negative limit counts from the end. */
  function Slice(xs: seq<string>, limit: Option<int>): seq<string> {
    match limit
    case None => xs
    case Some(n) =>
      if n >= 0 then (if n < |xs| then xs[..n] else xs)
      else if |xs| + n > 0 then xs[..|xs| + n] else []
  }

  ghost function Found(support: map<string, seq<string>>, q: Query): seq<string> {
    Slice(Sorted(if q.matchAll then AllHits(support, q.filters) else AnyHits(support, q.filters)), q.limit)
  }

  /** A sorted prefix of a set: all of it without a limit, so many first ones, or all but so many last ones. */
  ghost predicate Limited(r: seq<string>, found: set<string>, limit: Option<int>) {
    exists all :: SortedListing(all, found) && r <= all
      && |r| == match limit
           case None => |all|
           case Some(n) => if n >= 0 then (if n < |all| then n else |all|) else if |all| + n > 0 then |all| + n else 0
  }

  lemma SliceLimits(found: set<string>, limit: Option<int>)
    ensures Limited(Slice(Sorted(found), limit), found, limit)
  {
    hide SortedListing, Sorted;
    var all := Sorted(found);
    assert SortedListing(all, found) && Slice(all, limit) <= all;
  }

  /** The index lists the source under the filter's field and key with one of its values. */
  ghost predicate ListedWith(support: map<string, seq<string>>, f: Filter, id: string) {
    exists c :: c in f.values && f.field + ":" + f.key + ":" + c in support
      && id in support[f.field + ":" + f.key + ":" + c]
  }

  /** The sources listed for all of the filters, or for some; none without filters. */
  ghost predicate ListsFor(support: map<string, seq<string>>, q: Query, id: string) {
    && q.filters != []
    && if q.matchAll then forall f :: f in q.filters ==> ListedWith(support, f, id)
       else exists f :: f in q.filters && ListedWith(support, f, id)
  }

  lemma HitsAre(support: map<string, seq<string>>, f: Filter, id: string)
    ensures id in Hits(support, f) <==> ListedWith(support, f, id)
  {
    if ListedWith(support, f, id) {
      var c :| c in f.values && f.field + ":" + f.key + ":" + c in support
        && id in support[f.field + ":" + f.key + ":" + c];
      assert id in Listed(support, IndexKey(KeyRef(f.field, f.key), c));
    }
  }

  lemma FoundIs(support: map<string, seq<string>>, q: Query) returns (found: set<string>)
    ensures forall id :: id in found <==> ListsFor(support, q, id)
    ensures Limited(Found(support, q), found, q.limit)
  {
    hide Hits, ListedWith, Slice, Limited, Sorted;
    found := if q.matchAll then AllHits(support, q.filters) else AnyHits(support, q.filters);
    forall f, id ensures id in Hits(support, f) <==> ListedWith(support, f, id) {
      HitsAre(support, f, id);
    }
    forall id ensures id in found <==> ListsFor(support, q, id) {
      if q.filters != [] {
        assert q.filters[0] in q.filters;
      }
    }
    SliceLimits(found, q.limit);
  }

  lemma NothingListed(q: Query)
    ensures forall id :: !ListsFor(map[], q, id)
  {
    if q.filters != [] {
      assert q.filters[0] in q.filters;
    }
  }

  method CollectHits(support: map<string, seq<string>>, f: Filter) returns (hits: set<string>)
    ensures hits == Hits(support, f)
  {
    var keyRef := KeyRef(f.field, f.key);
    hits := {};
    for i := 0 to |f.values|
      invariant hits == Hits(support, f.(values := f.values[..i]))
    {
      var indexKey := IndexKey(keyRef, f.values[i]);
      var listed := if indexKey in support then support[indexKey] else [];
      assert forall c :: c in f.values[..i + 1] <==> c in f.values[..i] || c == f.values[i];
      assert ToSet(listed) == Listed(support, indexKey);
      hits := hits + ToSet(listed);
    }
    assert f.values[..|f.values|] == f.values;
  }

  /** `result[: query.limit]`, when there is a limit. */
  method Truncate(xs: seq<string>, limit: Option<int>) returns (r: seq<string>)
    ensures r == Slice(xs, limit)
  {
    if limit.None? {
      return xs;
    }
    var n := limit.value;
    var bound := if n >= 0 then n else |xs| + n;
    r := if bound >= |xs| then xs else if bound > 0 then xs[..bound] else [];
  }

  lemma NothingFound(support: map<string, seq<string>>, q: Query)
    requires support == map[] || q.filters == []
    ensures Found(support, q) == []
  {
    assert AnyHits(support, q.filters) == {} by {
      assert forall f :: f in q.filters ==> Hits(support, f) == {};
    }
    assert AllHits(support, q.filters) == {};
    SortedToSet({});
  }

  method FindSupportingCases(snapshot: Option<Snapshot>, q: Query) returns (result: seq<string>)
    ensures result == Found(if snapshot.Some? then snapshot.value.support else map[], q)
    ensures exists found :: Limited(result, found, q.limit)
              && forall id :: id in found <==> snapshot.Some? && ListsFor(snapshot.value.support, q, id)
  {
    hide AnyHits, AllHits, Hits, Slice, Sorted, ListsFor, Limited;
    ghost var found := FoundIs(if snapshot.Some? then snapshot.value.support else map[], q);
    NothingListed(q);
    if snapshot.None? || q.filters == [] {
      NothingFound(if snapshot.Some? then snapshot.value.support else map[], q);
      return [];
    }
    ghost var support := snapshot.value.support;
    var matched: set<string> := {};
    var common: set<string> := {};
    NoHits(support);
    for i := 0 to |q.filters|
      invariant matched == AnyHits(support, q.filters[..i])
      invariant common == AllHits(support, q.filters[..i])
    {
      var hits := CollectHits(snapshot.value.support, q.filters[i]);
      CommonSnoc(support, q.filters[..i], q.filters[i]);
      assert q.filters[..i + 1] == q.filters[..i] + [q.filters[i]];
      matched := matched + hits;
      common := if i == 0 then hits else common * hits;
    }
    assert q.filters[..|q.filters|] == q.filters;
    result := SortedList(if q.matchAll then common else matched);
    result := Truncate(result, q.limit);
  }

  lemma NoHits(support: map<string, seq<string>>)
    ensures AnyHits(support, []) == {} && AllHits(support, []) == {}
  {
  }

  lemma CommonSnoc(support: map<string, seq<string>>, filters: seq<Filter>, f: Filter)
    ensures AnyHits(support, filters + [f]) == AnyHits(support, filters) + Hits(support, f)
    ensures AllHits(support, filters + [f]) ==
              if filters == [] then Hits(support, f) else AllHits(support, filters) * Hits(support, f)
  {
    hide Hits;
    assert forall g :: g in filters + [f] <==> g in filters || g == f;
    var hits := AllHits(support, filters + [f]);
    forall id ensures id in hits <==> id in Hits(support, f) && (filters != [] ==> id in AllHits(support, filters)) {
      if filters != [] {
        assert filters[0] in filters;
      }
    }
  }

  // ----- the direct filter

  /** The observation has one of the filter's values under its key. */
  predicate Supports(o: Observation, f: Filter)
    requires IsField(f.field)
  {
    f.key in FieldOf(o, f.field) && exists c :: c in f.values && c in FieldOf(o, f.field)[f.key]
  }

  predicate Matching(o: Observation, q: Query)
    requires ValidQuery(q)
  {
    && q.filters != []
    && if q.matchAll then forall f :: f in q.filters ==>
      Supports(o, f) else exists f :: f in q.filters && Supports(o, f)
  }

  function Matches(observations: map<string, Observation>, q: Query): set<string>
    requires ValidQuery(q)
  {
    set id | id in observations && Matching(observations[id], q)
  }

  function LiveEntries(observations: map<string, Observation>): map<string, Mapping> {
    map id | id in observations :: Entries(observations[id])
  }

  predicate NoColon(s: string) {
    forall i :: 0 <= i < |s| ==> s[i] != ':'
  }

  ghost predicate KeysWithoutColon(o: Observation) {
    forall field, key :: IsField(field) && key in FieldOf(o, field) ==> NoColon(key)
  }

  // ----- the encoding

  /** The observation is listed under one of the filter's index keys. */
  ghost predicate ListedFor(o: Observation, f: Filter) {
    exists c :: c in f.values && IndexKey(KeyRef(f.field, f.key), c) in IndexKeys(Entries(o))
  }

  lemma IndexKeySplit(field: string, key: string, v: string)
    ensures IndexKey(KeyRef(field, key), v) == KeyRef(field, key + ":" + v)
  {
    assert field + ":" + key + ":" + v == field + ":" + (key + ":" + v);
  }

  lemma SplitAt(k: string, v: string, n: nat)
    requires n == |k|
    ensures (k + ":" + v)[n] == ':' && (k + ":" + v)[..n] == k && (k + ":" + v)[n + 1..] == v
  {
  }

  /** Two splits at a colon agree when neither key, or neither half of one split, holds another. */
  lemma SplitUnique(k: string, v: string, k': string, v': string)
    requires NoColon(k) && (NoColon(k') || NoColon(v)) && k + ":" + v == k' + ":" + v'
    ensures k == k' && v == v'
  {
    SplitAt(k, v, |k|);
    SplitAt(k', v', |k'|);
  }

  /** An index key of the observation comes from one of its fields. */
  lemma IndexKeyOrigin(o: Observation, e: string) returns (field: string, key: string, v: string)
    requires e in IndexKeys(Entries(o))
    ensures IsField(field) && key in FieldOf(o, field) && v in FieldOf(o, field)[key]
              && e == IndexKey(KeyRef(field, key), v)
  {
    var r, w :| r in Entries(o) && w in Entries(o)[r] && e == IndexKey(r, w);
    EntryOrigin(o, r);
    field, key :| IsField(field) && key in FieldOf(o, field) && r == KeyRef(field, key)
      && Entries(o)[r] == FieldOf(o, field)[key];
    v := w;
  }

  lemma SupportsListed(o: Observation, f: Filter)
    requires IsField(f.field) && Supports(o, f)
    ensures ListedFor(o, f)
  {
    EntriesAt(o, f.field, f.key);
    var c :| c in f.values && c in FieldOf(o, f.field)[f.key];
    assert IndexKey(KeyRef(f.field, f.key), c) in IndexKeys(Entries(o));
  }

  lemma ListedSupports(o: Observation, f: Filter)
    requires IsField(f.field) && ListedFor(o, f) && NoColon(f.key)
    requires KeysWithoutColon(o) || forall c :: c in f.values ==> NoColon(c)
    ensures Supports(o, f)
  {
    var c :| c in f.values && IndexKey(KeyRef(f.field, f.key), c) in IndexKeys(Entries(o));
    var field, key, v := IndexKeyOrigin(o, IndexKey(KeyRef(f.field, f.key), c));
    IndexKeySplit(field, key, v);
    IndexKeySplit(f.field, f.key, c);
    hide Entries, KeyRef, IndexKey, NoColon, IndexKeys;
    KeyRefInjective(field, key + ":" + v, f.field, f.key + ":" + c);
    SplitUnique(f.key, c, key, v);
  }

  // ----- when a query is a direct filter

  lemma HitsListed(observations: map<string, Observation>, f: Filter)
    ensures Hits(SupportIndex(LiveEntries(observations)), f) == set id
              | id in observations && ListedFor(observations[id], f)
  {
    var live := LiveEntries(observations);
    hide IndexKeys, Entries, KeyRef, IndexKey, SupportIndex, Listed;
    forall c, id
      ensures id in Listed(SupportIndex(live), IndexKey(KeyRef(f.field, f.key), c)) <==>
                id in observations && IndexKey(KeyRef(f.field, f.key), c) in IndexKeys(Entries(observations[id]))
    {
      ListedAt(live, IndexKey(KeyRef(f.field, f.key), c));
    }
    forall id ensures id in Hits(SupportIndex(live), f) <==> id in observations && ListedFor(observations[id], f) {}
  }

  ghost predicate Faithful(observations: map<string, Observation>, f: Filter)
    requires IsField(f.field)
  {
    Hits(SupportIndex(LiveEntries(observations)), f) == set id | id in observations && Supports(observations[id], f)
  }

  lemma HitsSupport(observations: map<string, Observation>, f: Filter)
    requires IsField(f.field) && NoColon(f.key)
    requires (forall id :: id in observations ==> KeysWithoutColon(observations[id])) || forall c :: c in f.values ==>
              NoColon(c)
    ensures Faithful(observations, f)
  {
    HitsListed(observations, f);
    hide Hits, SupportIndex, Supports, ListedFor, KeysWithoutColon, NoColon;
    forall id | id in observations ensures ListedFor(observations[id], f) <==> Supports(observations[id], f) {
      if Supports(observations[id], f) {
        SupportsListed(observations[id], f);
      } else if ListedFor(observations[id], f) {
        ListedSupports(observations[id], f);
      }
    }
  }

  /** A query all of whose filters are answered right is a direct filter over the live observations. */
  lemma FaithfulQuery(observations: map<string, Observation>, q: Query)
    requires ValidQuery(q) && forall f :: f in q.filters ==> Faithful(observations, f)
    ensures Found(SupportIndex(LiveEntries(observations)), q) == Slice(Sorted(Matches(observations, q)), q.limit)
  {
    var support := SupportIndex(LiveEntries(observations));
    hide Hits, SupportIndex, Supports, Slice, Faithful;
    var found := if q.matchAll then AllHits(support, q.filters) else AnyHits(support, q.filters);
    forall id ensures id in found <==> id in Matches(observations, q) {
      HitsMatch(observations, q, id);
    }
    assert found == Matches(observations, q);
  }

  /** Main result: when no key holds a colon, a support query is a direct filter over the live observations. */
  lemma FoundIsDirectFilter(observations: map<string, Observation>, q: Query)
    requires ValidQuery(q) && forall f :: f in q.filters ==> NoColon(f.key)
    requires forall id :: id in observations ==> KeysWithoutColon(observations[id])
    ensures Found(SupportIndex(LiveEntries(observations)), q) == Slice(Sorted(Matches(observations, q)), q.limit)
  {
    hide Hits, SupportIndex, Supports, KeysWithoutColon, Slice, Faithful;
    forall f | f in q.filters ensures Faithful(observations, f) {
      HitsSupport(observations, f);
    }
    FaithfulQuery(observations, q);
  }

  lemma HitsMatch(observations: map<string, Observation>, q: Query, id: string)
    requires ValidQuery(q) && forall f :: f in q.filters ==> Faithful(observations, f)
    ensures var support := SupportIndex(LiveEntries(observations));
            id in (if q.matchAll then AllHits(support, q.filters) else AnyHits(support, q.filters)) <==>
              id in Matches(observations, q)
  {
    hide Hits, SupportIndex, Supports;
    var support := SupportIndex(LiveEntries(observations));
    forall f | f in q.filters
      ensures id in Hits(support, f) <==> id in observations && Supports(observations[id], f)
    {
      assert Faithful(observations, f);
    }
    if q.filters != [] {
      assert q.filters[0] in q.filters;
    }
  }

  // ----- which filters can never be misled

  /** What the text splits into at one of its colons could be a normalised key and a normalised value. */
  ghost predicate NormalSplit(fold: string -> string, s: string, n: nat)
    requires n < |s|
  {
    s[n] == ':' && NormalKey(fold, s[..n]) && NormalValue(s[n + 1..])
  }

  function Joined(f: Filter, c: string): string {
    f.key + ":" + c
  }

  /** None of the filter's key and value texts has another such split than the filter's own. */
  ghost predicate Unambiguous(fold: string -> string, f: Filter) {
    forall c, n: nat :: c in f.values && n < |Joined(f, c)| && n != |f.key| ==> !NormalSplit(fold, Joined(f, c), n)
  }

  ghost predicate AllNormal(fold: string -> string, observations: map<string, Observation>) {
    forall id :: id in observations ==> NormalObservation(fold, observations[id])
  }

  ghost predicate AlwaysFaithful(fold: string -> string, f: Filter)
    requires IsField(f.field)
  {
    forall observations: map<string, Observation> :: AllNormal(fold, observations) ==> Faithful(observations, f)
  }

  lemma NormalHas(fold: string -> string, o: Observation, field: string, key: string, v: string)
    requires NormalObservation(fold, o) && IsField(field) && key in FieldOf(o, field) && v in FieldOf(o, field)[key]
    ensures NormalKey(fold, key) && NormalValue(v)
  {
    hide NormalKey, NormalValue, SortedListing;
    assert NormalMapping(fold, FieldOf(o, field));
    assert NormalEntry(fold, key, FieldOf(o, field)[key]);
  }

  /** A source listed for an unambiguous filter supports it. */
  lemma UnambiguousListed(fold: string -> string, o: Observation, f: Filter)
    requires IsField(f.field) && NormalObservation(fold, o) && Unambiguous(fold, f) && ListedFor(o, f)
    ensures Supports(o, f)
  {
    var c :| c in f.values && IndexKey(KeyRef(f.field, f.key), c) in IndexKeys(Entries(o));
    var field, key, v := IndexKeyOrigin(o, IndexKey(KeyRef(f.field, f.key), c));
    IndexKeySplit(field, key, v);
    IndexKeySplit(f.field, f.key, c);
    hide Entries, KeyRef, IndexKey, IndexKeys, NormalKey, NormalValue;
    KeyRefInjective(field, key + ":" + v, f.field, f.key + ":" + c);
    NormalHas(fold, o, field, key, v);
    SplitAt(key, v, |key|);
    SplitAt(f.key, c, |f.key|);
    assert |key| != |f.key| ==> NormalSplit(fold, Joined(f, c), |key|);
  }

  lemma UnambiguousFaithful(fold: string -> string, observations: map<string, Observation>, f: Filter)
    requires IsField(f.field) && AllNormal(fold, observations) && Unambiguous(fold, f)
    ensures Faithful(observations, f)
  {
    HitsListed(observations, f);
    hide Hits, SupportIndex, Supports, ListedFor, Unambiguous, NormalObservation;
    forall id | id in observations ensures ListedFor(observations[id], f) <==> Supports(observations[id], f) {
      if Supports(observations[id], f) {
        SupportsListed(observations[id], f);
      } else if ListedFor(observations[id], f) {
        UnambiguousListed(fold, observations[id], f);
      }
    }
  }

  /** One value under one key of one field. */
  function Holding(field: string, key: string, v: string): Observation
    requires IsField(field)
  {
    var m: Mapping := map[key := [v]];
    Observation("p", "x", if field == "facet" then m else map[], if field == "semantic_profile" then m else map[],
                if field == "fact" then m else map[])
  }

  lemma HoldingAt(field: string, key: string, v: string)
    requires IsField(field)
    ensures FieldOf(Holding(field, key, v), field) == map[key := [v]]
    ensures IndexKey(KeyRef(field, key), v) in IndexKeys(Entries(Holding(field, key, v)))
  {
    var o := Holding(field, key, v);
    assert FieldOf(o, field) == map[key := [v]];
    hide Entries, KeyRef, IndexKey, FieldOf, Holding;
    EntriesAt(o, field, key);
    assert v in Entries(o)[KeyRef(field, key)];
  }

  lemma HoldingNormal(fold: string -> string, field: string, key: string, v: string)
    requires IsField(field) && NormalKey(fold, key) && NormalValue(v)
    ensures NormalObservation(fold, Holding(field, key, v))
  {
    hide NormalKey, NormalValue;
    assert NormalEntry(fold, key, [v]);
  }

  /** An observation under another key whose index key is the filter's. */
  lemma Misleading(f: Filter, c: string, key: string, v: string)
    requires IsField(f.field) && c in f.values && key != f.key && key + ":" + v == f.key + ":" + c
    ensures !Faithful(map["x" := Holding(f.field, key, v)], f)
  {
    hide Entries, KeyRef, IndexKey, IndexKeys, FieldOf, Holding, Hits, SupportIndex, LiveEntries;
    var o := Holding(f.field, key, v);
    var observations := map["x" := o];
    HitsListed(observations, f);
    HoldingAt(f.field, key, v);
    IndexKeySplit(f.field, key, v);
    IndexKeySplit(f.field, f.key, c);
    assert ListedFor(o, f) && !Supports(o, f);
    assert "x" in observations && observations["x"] == o;
    assert "x" in Hits(SupportIndex(LiveEntries(observations)), f);
    assert "x" !in (set id | id in observations && Supports(observations[id], f));
  }

  lemma SplitMisleads(fold: string -> string, f: Filter, c: string, n: nat)
    requires IsField(f.field) && c in f.values && n < |Joined(f, c)| && n != |f.key|
              && NormalSplit(fold, Joined(f, c), n)
    ensures !AlwaysFaithful(fold, f)
  {
    hide NormalKey, NormalValue, Holding, NormalObservation, Faithful;
    var s := Joined(f, c);
    var key, v := s[..n], s[n + 1..];
    assert s == key + ":" + v;
    HoldingNormal(fold, f.field, key, v);
    Misleading(f, c, key, v);
    assert AllNormal(fold, map["x" := Holding(f.field, key, v)]);
  }

  /**
    Main result: a filter's answer is right for every set of normalised observations exactly when no other colon of
    key, colon, value splits that text into a normalised key and a normalised value.
   */
  lemma AlwaysFaithfulIff(fold: string -> string, f: Filter)
    requires IsField(f.field)
    ensures AlwaysFaithful(fold, f) <==> Unambiguous(fold, f)
  {
    hide Faithful, AllNormal, NormalSplit, Joined;
    if Unambiguous(fold, f) {
      forall observations: map<string, Observation> | AllNormal(fold, observations) ensures Faithful(observations, f) {
        UnambiguousFaithful(fold, observations, f);
      }
    } else {
      var c, n: nat :| c in f.values && n < |Joined(f, c)| && n != |f.key| && NormalSplit(fold, Joined(f, c), n);
      SplitMisleads(fold, f, c, n);
    }
  }

  /** The normalised facet "a:b" with value "c" is found by a query for the facet "a" with value "b:c". */
  lemma ColonMisleads(fold: string -> string, partition: string)
    requires fold("a:b") == "a:b"
    ensures var c := Case("x", partition, "", [], [Field("a:b", ["c"])]);
            !Faithful(map["x" := ObservationOf(fold, c)], Filter("facet", "a", ["b:c"]))
  {
    hide Entries, IndexKeys, Hits, SupportIndex, LiveEntries, NormalizedMapping;
    var f, c := Filter("facet", "a", ["b:c"]), Case("x", partition, "", [], [Field("a:b", ["c"])]);
    var o := ObservationOf(fold, c);
    var observations := map["x" := o];
    StripIdentity("a:b");
    NormalAttained(fold, "a:b", "c");
    EntriesAt(o, "facet", "a:b");
    assert "c" in Entries(o)[KeyRef("facet", "a:b")];
    assert IndexKey(KeyRef("facet", "a:b"), "c") in IndexKeys(Entries(o)) by {
      assert Entries(o)[KeyRef("facet", "a:b")] == ["c"];
      IndexKeyIn(Entries(o), KeyRef("facet", "a:b"), "c");
    }
    assert IndexKey(KeyRef("facet", "a:b"), "c") == IndexKey(KeyRef("facet", "a"), "b:c");
    assert "b:c" in f.values && ListedFor(o, f) && !Supports(o, f);
    HitsListed(observations, f);
    assert "x" in observations && observations["x"] == o;
    assert "x" in Hits(SupportIndex(LiveEntries(observations)), f);
    assert "x" !in (set id | id in observations && Supports(observations[id], f));
  }

  lemma IndexKeyIn(entries: Mapping, r: string, v: string)
    requires r in entries && v in entries[r]
    ensures IndexKey(r, v) in IndexKeys(entries)
  {
  }

  /** A blank after the other colon keeps the value "b: c" of key "a" unambiguous. */
  lemma SpacedValueUnambiguous(fold: string -> string)
    ensures Unambiguous(fold, Filter("facet", "a", ["b: c"]))
  {
    var f := Filter("facet", "a", ["b: c"]);
    forall c, n: nat | c in f.values && n < |Joined(f, c)| && n != |f.key| ensures !NormalSplit(fold, Joined(f, c), n) {
      assert Joined(f, c) == "a:b: c";
      assert n == 3 ==> Joined(f, c)[4..][0] == ' ';
    }
  }

  // ----- what the recount says about its sources

  /** When no key holds a colon, the index keys alone tell two observations apart. */
  lemma IndexKeysTellApart(o: Observation, o': Observation)
    requires KeysWithoutColon(o) && KeysWithoutColon(o') && SortedLists(Entries(o)) && SortedLists(Entries(o'))
    requires IndexKeys(Entries(o)) == IndexKeys(Entries(o'))
    ensures Entries(o) == Entries(o')
  {
    hide Entries, KeyRef, IndexKey, IndexKeys, KeysWithoutColon, SortedLists;
    forall r ensures Listed(Entries(o), r) == Listed(Entries(o'), r) {
      forall v ensures v in Listed(Entries(o), r) <==> v in Listed(Entries(o'), r) {
        if v in Listed(Entries(o), r) {
          EntryKept(o, o', r, v);
        }
        if v in Listed(Entries(o'), r) {
          EntryKept(o', o, r, v);
        }
      }
    }
    SameLists(Entries(o), Entries(o'));
  }

  lemma EntryKept(o: Observation, o': Observation, r: string, v: string)
    requires KeysWithoutColon(o) && KeysWithoutColon(o') && IndexKeys(Entries(o)) == IndexKeys(Entries(o'))
    requires v in Listed(Entries(o), r)
    ensures v in Listed(Entries(o'), r)
  {
    hide Entries, KeyRef, IndexKey, IndexKeys, NoColon;
    EntryOrigin(o, r);
    var field, key :| IsField(field) && key in FieldOf(o, field) && r == KeyRef(field, key)
      && Entries(o)[r] == FieldOf(o, field)[key];
    IndexKeyIn(Entries(o), r, v);
    var field', key', v' := IndexKeyOrigin(o', IndexKey(r, v));
    IndexKeySplit(field, key, v);
    IndexKeySplit(field', key', v');
    KeyRefInjective(field, key + ":" + v, field', key' + ":" + v');
    SplitUnique(key, v, key', v');
    EntriesAt(o', field', key');
  }

  // ----- runs of updates

  datatype Update = ApplyObservation(o: Observation) | RemoveSource(id: string) | ReplaceObservation(o: Observation)

  ghost predicate Legal(observations: map<string, Observation>, u: Update) {
    match u
    case ApplyObservation(o) => o.sourceId !in observations && Normalised(Entries(o))
    case RemoveSource(id) => id in observations
    case ReplaceObservation(o) => o.sourceId in observations && Normalised(Entries(o))
  }

  function Live(observations: map<string, Observation>, u: Update): map<string, Observation> {
    match u
    case ApplyObservation(o) => observations[o.sourceId := o]
    case RemoveSource(id) => observations - {id}
    case ReplaceObservation(o) => observations[o.sourceId := o]
  }

  /** The aggregator's update, given the live observations it is called with. */
  ghost function Updated(s: Snapshot, observations: map<string, Observation>, u: Update): Snapshot
    requires Legal(observations, u)
  {
    match u
    case ApplyObservation(o) => Applied(s, o.sourceId, Entries(o))
    case RemoveSource(id) => Removed(s, id, Entries(observations[id]))
    case ReplaceObservation(o) =>
      Applied(Removed(s, o.sourceId, Entries(observations[o.sourceId])), o.sourceId, Entries(o))
  }

  ghost predicate IsRun(
    s: Snapshot, observations: map<string, Observation>, updates: seq<Update>, s': Snapshot,
    observations': map<string, Observation>)
    decreases |updates|
  {
    if updates == [] then s' == s && observations' == observations
    else
      && Legal(observations, updates[0])
      && IsRun(Updated(s, observations, updates[0]), Live(observations, updates[0]), updates[1..], s', observations')
  }

  lemma UpdateRecounts(partition: string, observations: map<string, Observation>, u: Update)
    requires AllNormalised(LiveEntries(observations)) && Legal(observations, u)
    ensures AllNormalised(LiveEntries(Live(observations, u)))
    ensures Updated(Stats(partition, LiveEntries(observations)), observations, u) ==
              Stats(partition, LiveEntries(Live(observations, u)))
  {
    hide Stats, Applied, Removed, Entries, Normalised;
    var live := LiveEntries(observations);
    match u
    case ApplyObservation(o) =>
      ApplyIsRecount(partition, live, o.sourceId, Entries(o));
      assert LiveEntries(Live(observations, u)) == live[o.sourceId := Entries(o)];
    case RemoveSource(id) =>
      RemoveIsRecount(partition, live, id);
      assert LiveEntries(Live(observations, u)) == live - {id};
    case ReplaceObservation(o) =>
      ReplaceIsRecount(partition, live, o.sourceId, Entries(o));
      assert LiveEntries(Live(observations, u)) == live[o.sourceId := Entries(o)];
  }

  lemma {:induction false} RunRecounts(
    partition: string, observations: map<string, Observation>, updates: seq<Update>, s: Snapshot,
    observations': map<string, Observation>)
    requires AllNormalised(LiveEntries(observations))
    requires IsRun(Stats(partition, LiveEntries(observations)), observations, updates, s, observations')
    ensures s == Stats(partition, LiveEntries(observations')) && AllNormalised(LiveEntries(observations'))
    decreases |updates|
  {
    if updates != [] {
      hide Stats, Updated, Legal, Live, AllNormalised;
      UpdateRecounts(partition, observations, updates[0]);
      RunRecounts(partition, Live(observations, updates[0]), updates[1..], s, observations');
    }
  }

  lemma SupportOf(partition: string, live: map<string, Mapping>, e: string)
    requires AllNormalised(live)
    ensures WellFormed(Stats(partition, live)) && Listed(Stats(partition, live).support, e) == Supporting(live, e)
    ensures e in Stats(partition, live).support ==>
              Stats(partition, live).support[e] != []
                && SortedListing(Stats(partition, live).support[e], Supporting(live, e))
  {
    ReferenceWellFormed(partition, live);
    ListedAt(live, e);
  }

  /**
    Main result: after any run of updates the snapshot is well formed, and every support entry is the sorted set of
    live sources with a field, key and value that encode to it.
   */
  lemma SupportAfterRun(
    partition: string, updates: seq<Update>, s: Snapshot, observations: map<string, Observation>, e: string)
    requires IsRun(EmptySnapshot(partition), map[], updates, s, observations)
    ensures WellFormed(s)
    ensures Listed(s.support, e) == Supporting(LiveEntries(observations), e)
    ensures e in s.support ==>
              s.support[e] != [] && SortedListing(s.support[e], Supporting(LiveEntries(observations), e))
  {
    assert LiveEntries(map[]) == map[];
    hide Stats, IsRun, LiveEntries, Listed, Supporting, SortedListing, WellFormed;
    Aggregator.EmptyRecount(partition);
    RunRecounts(partition, map[], updates, s, observations);
    SupportOf(partition, LiveEntries(observations), e);
  }
}
