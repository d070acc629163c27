/**
  Case documents and the normalisation of their observations:
  internal/knowledge/statistics/normalizer.py and the `_observation` helpers.
  `fold` stands for `str.casefold`; nothing is assumed about it.
 */
module Observations {
  import opened Options
  import opened Text
  import opened Sorting
  import opened Fields
  import opened Statistics

  /** `body` stands for the title, source text, summary and metadata, which no derived state depends on. */
  datatype Case = Case(id: string, partition: string, body: string, profile: seq<Field>, facets: seq<Field>)

  predicate ValidCase(c: Case) {
    IsFieldSet(c.profile) && IsFieldSet(c.facets)
  }

  ghost function NormalizedMapping(fold: string -> string, d: seq<Field>): Mapping {
    if d == [] then map[] else
    var before, f := NormalizedMapping(fold, d[..|d| - 1]), d[|d| - 1];
    var key, values := fold(Strip(f.key)), Items(f.values);
    if key == "" || values == {} then before else before[key := Sorted(values)]
  }

  method NormalizeMapping(fold: string -> string, d: seq<Field>) returns (normalized: Mapping)
    ensures normalized == NormalizedMapping(fold, d)
  {
    hide Strip, Items, SortedListing;
    normalized := map[];
    for i := 0 to |d|
      invariant normalized == NormalizedMapping(fold, d[..i])
    {
      assert d[..i + 1][..i] == d[..i];
      var key := fold(Strip(d[i].key));
      if key == "" {
        continue;
      }
      SortedToSet(Items(d[i].values));
      var uniqueValues := SortedList(Items(d[i].values));
      if uniqueValues != [] {
        normalized := normalized[key := uniqueValues];
      }
    }
    assert d[..|d|] == d;
  }

  /** Some spelling of the key has a value that is not blank. */
  ghost predicate ListsKey(fold: string -> string, d: seq<Field>, key: string) {
    key != "" && exists i :: 0 <= i < |d| && fold(Strip(d[i].key)) == key && !AllBlank(d[i].values)
  }

  /** The value stands under the key: of its spellings, the last one that has values has it. */
  ghost predicate ListsValue(fold: string -> string, d: seq<Field>, key: string, v: string) {
    && key != ""
    && exists i :: 0 <= i < |d| && fold(Strip(d[i].key)) == key && Reads(d[i].values, v)
         && forall j :: i < j < |d| && fold(Strip(d[j].key)) == key ==> AllBlank(d[j].values)
  }

  lemma ListsSnoc(fold: string -> string, d: seq<Field>, f: Field, key: string, v: string)
    ensures ListsKey(fold, d + [f], key) <==>
              ListsKey(fold, d, key) || (key != "" && fold(Strip(f.key)) == key && !AllBlank(f.values))
    ensures ListsValue(fold, d + [f], key, v) <==>
              if key != "" && fold(Strip(f.key)) == key && !AllBlank(f.values) then Reads(f.values, v)
              else ListsValue(fold, d, key, v)
  {
    hide Reads, AllBlank, Strip;
    BlankReads(f.values, v);
    var more := d + [f];
    assert more[|d|] == f && forall i :: 0 <= i < |d| ==> more[i] == d[i];
    if ListsValue(fold, d, key, v) && !(fold(Strip(f.key)) == key && !AllBlank(f.values)) {
      var i :| 0 <= i < |d| && fold(Strip(d[i].key)) == key && Reads(d[i].values, v)
        && forall j :: i < j < |d| && fold(Strip(d[j].key)) == key ==> AllBlank(d[j].values);
      assert more[i] == d[i];
    }
  }

  lemma NothingListed(fold: string -> string, key: string, v: string)
    ensures !ListsKey(fold, [], key) && !ListsValue(fold, [], key, v)
  {
  }

  /** The normalised dictionary lists exactly the keys that have a value, each with exactly the values under it. */
  lemma {:induction false} NormalizedAt(fold: string -> string, d: seq<Field>, key: string, v: string)
    ensures key in NormalizedMapping(fold, d) <==> ListsKey(fold, d, key)
    ensures key in NormalizedMapping(fold, d) ==>
              (v in NormalizedMapping(fold, d)[key] <==> ListsValue(fold, d, key, v))
    ensures ListsValue(fold, d, key, v) ==> ListsKey(fold, d, key)
  {
    hide Strip, Items, ListsKey, ListsValue, Reads, AllBlank, Sorted;
    if d == [] {
      NothingListed(fold, key, v);
    } else {
      var front, f := d[..|d| - 1], d[|d| - 1];
      assert d == front + [f];
      NormalizedAt(fold, front, key, v);
      ListsSnoc(fold, front, f, key, v);
      BlankItems(f.values);
      ReadsItems(f.values, v);
      if Items(f.values) != {} {
        SortedNonEmpty(Items(f.values));
      }
    }
  }

  /** What the normaliser makes a key of: a text stripped and folded, which must not be empty. */
  ghost predicate NormalKey(fold: string -> string, key: string) {
    key != "" && exists raw: string :: key == fold(Strip(raw))
  }

  predicate NormalValue(v: string) {
    v != "" && IsStripped(v)
  }

  /** What the normaliser makes of a dictionary: normal keys over sorted non-empty lists of normal values. */
  ghost predicate NormalMapping(fold: string -> string, m: Mapping) {
    forall k :: k in m ==> NormalEntry(fold, k, m[k])
  }

  ghost predicate NormalEntry(fold: string -> string, key: string, values: seq<string>) {
    && NormalKey(fold, key)
    && values != [] && SortedListing(values, ToSet(values)) && forall v :: v in values ==> NormalValue(v)
  }

  lemma NormalMappingSorted(fold: string -> string, m: Mapping)
    requires NormalMapping(fold, m)
    ensures SortedLists(m)
  {
    hide SortedListing;
    forall k | k in m ensures m[k] != [] && SortedListing(m[k], ToSet(m[k])) {
      assert NormalEntry(fold, k, m[k]);
    }
  }

  lemma SortedNonEmpty(s: set<string>)
    requires s != {}
    ensures Sorted(s) != [] && SortedListing(Sorted(s), ToSet(Sorted(s))) && forall v :: v in Sorted(s) <==> v in s
  {
    assert ToSet(Sorted(s)) == s;
    assert forall v :: v in Sorted(s) <==> v in ToSet(Sorted(s));
  }

  lemma ItemsNormal(xs: seq<string>)
    ensures forall v :: v in Items(xs) ==> NormalValue(v)
  {
    forall v | v in Items(xs) ensures NormalValue(v) {
      var x :| x in xs && Strip(x) != "" && v == Strip(x);
      StripStripped(x);
    }
  }

  lemma NormalUpdate(fold: string -> string, m: Mapping, key: string, values: seq<string>)
    requires NormalMapping(fold, m) && NormalEntry(fold, key, values)
    ensures NormalMapping(fold, m[key := values])
  {
    hide NormalEntry;
  }

  lemma SortedEntry(fold: string -> string, key: string, values: set<string>)
    requires NormalKey(fold, key) && values != {} && forall v :: v in values ==> NormalValue(v)
    ensures NormalEntry(fold, key, Sorted(values))
  {
    SortedNonEmpty(values);
    hide Sorted, SortedListing, NormalKey, NormalValue;
  }

  lemma NormalNothing(fold: string -> string)
    ensures NormalMapping(fold, map[])
  {
  }

  lemma {:induction false} NormalizedMappingNormal(fold: string -> string, d: seq<Field>)
    ensures NormalMapping(fold, NormalizedMapping(fold, d))
    decreases |d|
  {
    hide NormalMapping, NormalEntry, NormalKey, NormalValue, Items, Strip, Sorted;
    if d == [] {
      NormalNothing(fold);
    } else {
      var f := d[|d| - 1];
      var key := fold(Strip(f.key));
      NormalizedMappingNormal(fold, d[..|d| - 1]);
      if key != "" && Items(f.values) != {} {
        FoldedNormal(fold, f.key);
        ItemsNormal(f.values);
        SortedEntry(fold, key, Items(f.values));
        NormalUpdate(fold, NormalizedMapping(fold, d[..|d| - 1]), key, Sorted(Items(f.values)));
      }
    }
  }

  lemma FoldedNormal(fold: string -> string, raw: string)
    requires fold(Strip(raw)) != ""
    ensures NormalKey(fold, fold(Strip(raw)))
  {
  }

  /** Every normal key and value can come out of the normaliser. */
  lemma NormalAttained(fold: string -> string, raw: string, v: string)
    requires fold(Strip(raw)) != "" && NormalValue(v)
    ensures NormalizedMapping(fold, [Field(raw, [v])]) == map[fold(Strip(raw)) := [v]]
  {
    var d := [Field(raw, [v])];
    StripIdentity(v);
    assert Items([v]) == {v} by {
      assert v in [v];
    }
    SortedListingUnique(Sorted({v}), [v], {v});
    assert d[..|d| - 1] == [] && NormalizedMapping(fold, []) == map[];
  }

  /** The normalised observation of a case. */
  ghost function ObservationOf(fold: string -> string, c: Case): Observation {
    Observation(c.partition, c.id, NormalizedMapping(fold, c.facets), NormalizedMapping(fold, c.profile), map[])
  }

  ghost function EntriesOf(fold: string -> string, c: Case): Mapping {
    Entries(ObservationOf(fold, c))
  }

  /** The normalised observations: what the writer hands to the aggregator. */
  ghost predicate NormalObservation(fold: string -> string, o: Observation) {
    NormalMapping(fold, o.facets) && NormalMapping(fold, o.semanticProfile) && NormalMapping(fold, o.facts)
  }

  /** The index only ever holds folded non-empty keys over sorted stripped non-blank values. */
  lemma ObservationNormal(fold: string -> string, c: Case)
    ensures NormalObservation(fold, ObservationOf(fold, c))
  {
    NormalizedMappingNormal(fold, c.facets);
    NormalizedMappingNormal(fold, c.profile);
    NormalNothing(fold);
  }

  lemma TagSorted(field: string, m: Mapping)
    requires SortedLists(m)
    ensures SortedLists(Tag(field, m))
  {
    hide SortedListing;
    forall r | r in Tag(field, m)
      ensures Tag(field, m)[r] != [] && SortedListing(Tag(field, m)[r], ToSet(Tag(field, m)[r]))
    {
      var k :| k in m && r == KeyRef(field, k);
      assert Tag(field, m)[r] == m[k];
    }
  }

  lemma UnionSorted(a: Mapping, b: Mapping, c: Mapping)
    requires SortedLists(a) && SortedLists(b) && SortedLists(c)
    ensures SortedLists(a + b + c)
  {
    hide SortedListing;
  }

  lemma EntriesSorted(o: Observation)
    requires SortedLists(o.facets) && SortedLists(o.semanticProfile) && SortedLists(o.facts)
    ensures SortedLists(Entries(o))
  {
    TagSorted("facet", o.facets);
    TagSorted("semantic_profile", o.semanticProfile);
    TagSorted("fact", o.facts);
    UnionSorted(Tag("facet", o.facets), Tag("semantic_profile", o.semanticProfile), Tag("fact", o.facts));
    hide Tag, SortedLists;
  }

  lemma SortedNormalised(entries: Mapping)
    requires SortedLists(entries)
    ensures Normalised(entries)
  {
  }

  lemma EntriesNormalised(fold: string -> string, c: Case)
    ensures SortedLists(EntriesOf(fold, c)) && Normalised(EntriesOf(fold, c))
  {
    ObservationNormal(fold, c);
    hide Entries, NormalMapping, SortedLists, NormalizedMapping;
    NormalMappingSorted(fold, ObservationOf(fold, c).facets);
    NormalMappingSorted(fold, ObservationOf(fold, c).semanticProfile);
    NormalMappingSorted(fold, ObservationOf(fold, c).facts);
    EntriesSorted(ObservationOf(fold, c));
    SortedNormalised(EntriesOf(fold, c));
  }

  /** The field whose tagged mapping an entry comes from; later fields win. */
  function FieldOfEntry(o: Observation, r: string): string {
    if r in Tag("fact", o.facts) then "fact" else if r in Tag("semantic_profile", o.semanticProfile)
    then "semantic_profile" else "facet"
  }

  lemma EntryField(o: Observation, r: string)
    requires r in Entries(o)
    ensures IsField(FieldOfEntry(o, r)) && r in Refs(FieldOfEntry(o, r), FieldOf(o, FieldOfEntry(o, r)).Keys)
  {
  }

  /** Every entry is a key of some field. */
  lemma EntryOrigin(o: Observation, r: string)
    requires r in Entries(o)
    ensures exists field, key :: IsField(field) && key in FieldOf(o, field) && r == KeyRef(field, key)
              && Entries(o)[r] == FieldOf(o, field)[key]
  {
    hide Entries, KeyRef, IsField, FieldOf, FieldOfEntry;
    EntryField(o, r);
    var field := FieldOfEntry(o, r);
    var key :| key in FieldOf(o, field) && r == KeyRef(field, key);
    EntriesAt(o, field, key);
  }

  method NormalizeCase(fold: string -> string, c: Case) returns (o: Observation)
    ensures o == ObservationOf(fold, c)
  {
    var facets := NormalizeMapping(fold, c.facets);
    var profile := NormalizeMapping(fold, c.profile);
    o := Observation(c.partition, c.id, facets, profile, map[]);
  }
}
