/**
  Lists of strings and insertion-ordered dictionaries from key to list of values,
  as internal/models/common.py, internal/models/semantic_fields.py and
  internal/knowledge/batch/working_set_builder.py clean and merge them.
 */
module Fields {
  import opened Text
  import opened Sorting

  /** One entry of an insertion-ordered Python dictionary from key to values. */
  datatype Field = Field(key: string, values: seq<string>)

  // ----- list merging

  function MergeStringLists(existing: seq<string>, incoming: seq<string>): seq<string> {
    if incoming == [] then existing else
    var merged := MergeStringLists(existing, incoming[..|incoming| - 1]);
    var normalized := Strip(incoming[|incoming| - 1]);
    if normalized != "" && normalized !in merged then merged + [normalized] else merged
  }

  /** The non-blank items of a list, stripped. */
  function Items(xs: seq<string>): set<string> {
    set x | x in xs && Strip(x) != "" :: Strip(x)
  }

  lemma ItemsSnoc(xs: seq<string>, x: string)
    ensures Items(xs + [x]) == Items(xs) + (if Strip(x) == "" then {} else {Strip(x)})
    ensures ToSet(xs + [x]) == ToSet(xs) + {x}
  {
    forall y ensures y in Items(xs + [x]) <==> y in Items(xs) || (Strip(x) != "" && y == Strip(x)) {
      if y in Items(xs + [x]) {
        var z :| z in xs + [x] && Strip(z) != "" && y == Strip(z);
        assert z in xs || z == x;
      }
      assert x in xs + [x];
    }
  }

  lemma MergeSnoc(existing: seq<string>, incoming: seq<string>, x: string)
    ensures var merged := MergeStringLists(existing, incoming);
            MergeStringLists(existing, incoming + [x]) == if Strip(x) != "" && Strip(x) !in merged
              then merged + [Strip(x)] else merged
  {
    assert (incoming + [x])[..|incoming|] == incoming;
  }

  lemma MergeKeepsItem(existing: seq<string>, incoming: seq<string>, x: string)
    requires Items(MergeStringLists(existing, incoming)) == Items(existing) + Items(incoming)
    requires ToSet(MergeStringLists(existing, incoming)) == ToSet(existing) + Items(incoming)
    ensures Items(MergeStringLists(existing, incoming + [x])) == Items(existing) + Items(incoming + [x])
    ensures ToSet(MergeStringLists(existing, incoming + [x])) == ToSet(existing) + Items(incoming + [x])
  {
    hide Items, Strip, MergeStringLists;
    var merged := MergeStringLists(existing, incoming);
    MergeSnoc(existing, incoming, x);
    ItemsSnoc(incoming, x);
    ItemsSnoc(merged, Strip(x));
    StripIdempotent(x);
    if Strip(x) in merged {
      ItemIn(merged, Strip(x));
    }
  }

  lemma ItemIn(xs: seq<string>, x: string)
    requires x in xs && Strip(x) == x
    ensures x in ToSet(xs) && (x != "" ==> x in Items(xs))
  {
  }

  lemma {:induction false} MergeKeepsItems(existing: seq<string>, incoming: seq<string>)
    ensures Items(MergeStringLists(existing, incoming)) == Items(existing) + Items(incoming)
    ensures ToSet(MergeStringLists(existing, incoming)) == ToSet(existing) + Items(incoming)
    decreases |incoming|
  {
    hide Items, Strip, MergeStringLists, ToSet;
    if incoming == [] {
      MergeNothing(existing);
    } else {
      var front, last := incoming[..|incoming| - 1], incoming[|incoming| - 1];
      MergeKeepsItems(existing, front);
      MergeKeepsItem(existing, front, last);
      assert incoming == front + [last];
    }
  }

  lemma MergeNothing(existing: seq<string>)
    ensures MergeStringLists(existing, []) == existing && Items([]) == {}
  {
  }

  /** New items come after the existing ones, in the order in which the incoming list first names them. */
  lemma {:induction false} MergeInOrder(existing: seq<string>, incoming: seq<string>, i: int)
    requires |existing| <= i < |MergeStringLists(existing, incoming)|
    ensures existing <= MergeStringLists(existing, incoming)
    ensures exists p :: 0 <= p < |incoming| && Strip(incoming[p]) == MergeStringLists(existing, incoming)[i]
              && ToSet(MergeStringLists(existing, incoming)[..i]) == ToSet(existing) + Items(incoming[..p])
    decreases |incoming|
  {
    hide Strip, Items, ToSet;
    var front, merged := incoming[..|incoming| - 1], MergeStringLists(existing, incoming);
    MergeExtends(existing, incoming);
    var before := MergeStringLists(existing, front);
    if i < |before| {
      MergeInOrder(existing, front, i);
      var p :| 0 <= p < |front| && Strip(front[p]) == before[i]
        && ToSet(before[..i]) == ToSet(existing) + Items(front[..p]);
      assert incoming[p] == front[p] && incoming[..p] == front[..p] && merged[..i] == before[..i];
    } else {
      MergeKeepsItems(existing, front);
      assert merged[..i] == before;
      assert Strip(incoming[|incoming| - 1]) == merged[i];
    }
  }

  lemma {:induction false} MergeExtends(existing: seq<string>, incoming: seq<string>)
    ensures existing <= MergeStringLists(existing, incoming)
    decreases |incoming|
  {
    if incoming != [] {
      hide Strip;
      MergeExtends(existing, incoming[..|incoming| - 1]);
    }
  }

  method MergeLists(existing: seq<string>, incoming: seq<string>) returns (merged: seq<string>)
    ensures merged == MergeStringLists(existing, incoming)
  {
    merged := existing;
    for i := 0 to |incoming|
      invariant merged == MergeStringLists(existing, incoming[..i])
    {
      assert incoming[..i + 1][..i] == incoming[..i];
      var normalized := Strip(incoming[i]);
      if normalized != "" && normalized !in merged {
        merged := merged + [normalized];
      }
    }
    assert incoming[..|incoming|] == incoming;
  }

  // ----- dictionaries

  function Lookup(d: seq<Field>, key: string): seq<string> {
    if d == [] then [] else if d[0].key == key then d[0].values else Lookup(d[1..], key)
  }

  /** Dictionary assignment: an existing key keeps its place, a new one goes last. */
  function Put(d: seq<Field>, key: string, values: seq<string>): seq<Field> {
    if d == [] then [Field(key, values)]
    else if d[0].key == key then [Field(key, values)] + d[1..]
    else [d[0]] + Put(d[1..], key, values)
  }

  predicate IsDict(d: seq<Field>) {
    forall i, j :: 0 <= i < j < |d| ==> d[i].key != d[j].key
  }

  lemma {:induction false} PutAt(d: seq<Field>, key: string, values: seq<string>)
    requires IsDict(d)
    ensures IsDict(Put(d, key, values))
    ensures forall f :: f in Put(d, key, values) <==> f == Field(key, values) || (f in d && f.key != key)
  {
    if d != [] && d[0].key != key {
      PutAt(d[1..], key, values);
      var rest := Put(d[1..], key, values);
      assert d == [d[0]] + d[1..];
      assert forall f :: f in rest ==> f.key != d[0].key;
      assert forall i :: 0 <= i < |rest| ==> rest[i] in rest;
    } else if d != [] {
      assert d == [d[0]] + d[1..];
    }
  }

  lemma {:induction false} LookupIn(d: seq<Field>, key: string)
    requires IsDict(d)
    ensures forall f :: f in d && f.key == key ==> f.values == Lookup(d, key)
    ensures Lookup(d, key) != [] ==> Field(key, Lookup(d, key)) in d
  {
    if d != [] {
      LookupIn(d[1..], key);
      assert d == [d[0]] + d[1..];
    }
  }

  lemma {:induction false} LookupPut(d: seq<Field>, key: string, values: seq<string>, key': string)
    ensures Lookup(Put(d, key, values), key') == if key' == key then values else Lookup(d, key')
  {
    if d != [] && d[0].key != key {
      LookupPut(d[1..], key, values, key');
    }
  }

  // ----- validated field sets

  /** `normalize_string_list`: stripped, without blanks and repetitions, in order. */
  function Cleaned(values: seq<string>): seq<string> {
    MergeStringLists([], values)
  }

  predicate IsClean(values: seq<string>) {
    Distinct(values) && forall v :: v in values ==> v != "" && IsStripped(v)
  }

  lemma {:induction false} MergeClean(existing: seq<string>, incoming: seq<string>)
    requires IsClean(existing)
    ensures IsClean(MergeStringLists(existing, incoming))
  {
    if incoming != [] {
      MergeClean(existing, incoming[..|incoming| - 1]);
      StripStripped(incoming[|incoming| - 1]);
    }
  }

  lemma {:induction false} CleanFixed(values: seq<string>)
    requires IsClean(values)
    ensures Cleaned(values) == values
  {
    if values != [] {
      var front, last := values[..|values| - 1], values[|values| - 1];
      CleanFixed(front);
      StripIdentity(last);
      assert values == front + [last];
    }
  }

  // ----- values without their surrounding blanks

  /** Some value of the list reads so without its surrounding blanks. */
  predicate Reads(values: seq<string>, v: string) {
    v != "" && exists i :: 0 <= i < |values| && Strip(values[i]) == v
  }

  predicate AllBlank(values: seq<string>) {
    forall i :: 0 <= i < |values| ==> Strip(values[i]) == ""
  }

  lemma BlankItems(values: seq<string>)
    ensures AllBlank(values) <==> Items(values) == {}
  {
    if i :| 0 <= i < |values| && Strip(values[i]) != "" {
      assert Strip(values[i]) in Items(values);
    }
  }

  lemma ReadsItems(values: seq<string>, v: string)
    ensures v in Items(values) <==> Reads(values, v)
    ensures MergeStringLists([], values) == [] <==> AllBlank(values)
    ensures Items(MergeStringLists([], values)) == Items(values)
  {
    MergeKeepsItems([], values);
    MergeClean([], values);
    var merged := MergeStringLists([], values);
    if merged != [] {
      assert merged[0] in ToSet(merged);
    } else {
      assert ToSet(merged) == {};
      BlankItems(values);
    }
  }

  lemma ReadsNothing(v: string)
    ensures !Reads([], v)
  {
  }

  lemma BlankReads(values: seq<string>, v: string)
    ensures AllBlank(values) ==> !Reads(values, v)
  {
  }

  /** What `SemanticFieldSet` guarantees of a validated value: stripped distinct keys over clean lists. */
  predicate IsFieldSet(d: seq<Field>) {
    IsDict(d) && forall f :: f in d ==> f.key != "" && IsStripped(f.key) && IsClean(f.values)
  }

  /** `normalize_semantic_field_values`. */
  function Validated(raw: seq<Field>): seq<Field> {
    if raw == [] then [] else
    var before, f := Validated(raw[..|raw| - 1]), raw[|raw| - 1];
    if Strip(f.key) == "" then before else Put(before, Strip(f.key), Cleaned(f.values))
  }

  lemma {:induction false} ValidatedIsFieldSet(raw: seq<Field>)
    ensures IsFieldSet(Validated(raw))
  {
    if raw != [] {
      var front, f := raw[..|raw| - 1], raw[|raw| - 1];
      ValidatedIsFieldSet(front);
      PutAt(Validated(front), Strip(f.key), Cleaned(f.values));
      StripStripped(f.key);
      MergeClean([], f.values);
    }
  }

  /** Under each key stand the cleaned values of the last raw entry whose stripped key it is. */
  lemma {:induction false} ValidatedAt(raw: seq<Field>, key: string, i: int)
    requires 0 <= i < |raw| && key != "" && Strip(raw[i].key) == key
    requires forall j :: i < j < |raw| ==> Strip(raw[j].key) != key
    ensures Field(key, Cleaned(raw[i].values)) in Validated(raw)
  {
    hide Strip, Cleaned, IsClean, IsStripped;
    var front, f := raw[..|raw| - 1], raw[|raw| - 1];
    ValidatedIsFieldSet(front);
    if Strip(f.key) != "" {
      PutAt(Validated(front), Strip(f.key), Cleaned(f.values));
    }
    if i < |front| {
      ValidatedAt(front, key, i);
    }
  }

  lemma {:induction false} ValidatedKeys(raw: seq<Field>, f: Field)
    requires f in Validated(raw)
    ensures f.key != "" && exists i :: 0 <= i < |raw| && Strip(raw[i].key) == f.key
  {
    hide Strip, Cleaned, IsClean, IsStripped;
    var front, last := raw[..|raw| - 1], raw[|raw| - 1];
    ValidatedIsFieldSet(front);
    if Strip(last.key) != "" {
      PutAt(Validated(front), Strip(last.key), Cleaned(last.values));
    }
    if f in Validated(front) {
      ValidatedKeys(front, f);
      var i :| 0 <= i < |front| && Strip(front[i].key) == f.key;
      assert raw[i] == front[i];
    }
  }

  lemma {:induction false} FieldSetFixed(d: seq<Field>)
    requires IsFieldSet(d)
    ensures Validated(d) == d
  {
    if d != [] {
      var front, f := d[..|d| - 1], d[|d| - 1];
      assert d == front + [f];
      FieldSetFixed(front);
      StripIdentity(f.key);
      CleanFixed(f.values);
      PutNew(front, f.key, f.values);
    }
  }

  lemma {:induction false} PutNew(d: seq<Field>, key: string, values: seq<string>)
    requires forall f :: f in d ==> f.key != key
    ensures Put(d, key, values) == d + [Field(key, values)]
  {
    if d != [] {
      PutNew(d[1..], key, values);
      assert d == [d[0]] + d[1..];
    }
  }

  /** The dictionary as a mapping, where the order of the keys no longer matters. */
  function AsMap(d: seq<Field>): map<string, seq<string>> {
    map k | k in (set f | f in d :: f.key) :: Lookup(d, k)
  }

  ghost predicate HasKey(d: seq<Field>, k: string) {
    exists f :: f in d && f.key == k
  }

  /** The dictionaries have the same keys with the same values. */
  ghost predicate SameDict(a: seq<Field>, b: seq<Field>) {
    forall k :: (HasKey(a, k) <==> HasKey(b, k)) && Lookup(a, k) == Lookup(b, k)
  }

  lemma AsMapAt(d: seq<Field>, k: string)
    ensures k in AsMap(d) <==> HasKey(d, k)
    ensures k in AsMap(d) ==> AsMap(d)[k] == Lookup(d, k)
    ensures k !in AsMap(d) ==> Lookup(d, k) == []
  {
    if k !in AsMap(d) {
      forall f | f in d ensures f.key != k {
        assert f.key in AsMap(d);
      }
      LookupAbsent(d, k);
    }
  }

  lemma LookupAbsent(d: seq<Field>, k: string)
    requires forall f :: f in d ==> f.key != k
    ensures Lookup(d, k) == []
  {
  }

  lemma AsMapSame(a: seq<Field>, b: seq<Field>)
    ensures AsMap(a) == AsMap(b) <==> SameDict(a, b)
  {
    hide AsMap, Lookup, HasKey;
    forall k
      ensures k in AsMap(a) <==> HasKey(a, k)
      ensures k in AsMap(b) <==> HasKey(b, k)
      ensures k in AsMap(a) ==> AsMap(a)[k] == Lookup(a, k)
      ensures k in AsMap(b) ==> AsMap(b)[k] == Lookup(b, k)
      ensures k !in AsMap(a) ==> Lookup(a, k) == []
      ensures k !in AsMap(b) ==> Lookup(b, k) == []
    {
      AsMapAt(a, k);
      AsMapAt(b, k);
    }
  }
}
