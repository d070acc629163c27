/**
  Projection of a case's semantic profile onto the partition's facet schema:
  internal/domain/case/facet_resolver.py, internal/knowledge/projection/case_facet_projector.py and
  internal/knowledge/projection/service.py.  `lower` stands for `str.lower`; nothing is assumed about it.
 */
module Projection {
  import opened Options
  import opened Text
  import opened Sorting
  import opened Fields
  import opened Observations

  /** `info` stands for the display name, description and examples, which no derived state depends on. */
  datatype Definition = Definition(key: string, info: string, enabled: bool)

  datatype Schema = Schema(definitions: seq<Definition>, metadata: string)

  predicate Usable(d: Definition) {
    d.enabled && Strip(d.key) != ""
  }

  // ----- the resolver

  /** The profile's values for each usable key, in schema order. */
  function Selected(profile: seq<Field>, definitions: seq<Definition>): seq<Field> {
    if definitions == [] then [] else
    var before, d := Selected(profile, definitions[..|definitions| - 1]), definitions[|definitions| - 1];
    if Usable(d) then Put(before, d.key, Lookup(profile, d.key)) else before
  }

  /** `definition_map.get(name)`: of the usable definitions with one lower-case name the last wins. */
  function DefinitionFor(lower: string -> string, definitions: seq<Definition>, name: string): Option<Definition> {
    if definitions == [] then None else
    var d := definitions[|definitions| - 1];
    if Usable(d) && lower(Strip(d.key)) == name then Some(d)
    else DefinitionFor(lower, definitions[..|definitions| - 1], name)
  }

  function Resolved(lower: string -> string, facets: seq<Field>, definitions: seq<Definition>): seq<Field> {
    if facets == [] then [] else
    var before, f := Resolved(lower, facets[..|facets| - 1], definitions), facets[|facets| - 1];
    var d := DefinitionFor(lower, definitions, lower(Strip(f.key)));
    if d.None? || Cleaned(f.values) == [] then before else Put(before, Strip(d.value.key), Cleaned(f.values))
  }

  function Project(lower: string -> string, profile: seq<Field>, definitions: seq<Definition>): seq<Field> {
    Resolved(lower, Selected(profile, definitions), definitions)
  }

  method FindDefinition(
    lower: string -> string, definitions: seq<Definition>) returns (definitionMap: map<string, Definition>)
    ensures forall name :: DefinitionFor(lower, definitions, name) ==
              if name in definitionMap then Some(definitionMap[name]) else None
  {
    hide Strip;
    definitionMap := map[];
    for i := 0 to |definitions|
      invariant forall name :: DefinitionFor(lower, definitions[..i], name) ==
                  if name in definitionMap then Some(definitionMap[name]) else None
    {
      assert definitions[..i + 1][..i] == definitions[..i];
      if definitions[i].enabled && Strip(definitions[i].key) != "" {
        definitionMap := definitionMap[lower(Strip(definitions[i].key)) := definitions[i]];
      }
    }
    assert definitions[..|definitions|] == definitions;
  }

  method NormalizeFacets(
    lower: string -> string, facets: seq<Field>, definitions: seq<Definition>) returns (resolved: seq<Field>)
    ensures resolved == Resolved(lower, facets, definitions)
  {
    hide Strip, DefinitionFor, MergeStringLists;
    var definitionMap := FindDefinition(lower, definitions);
    resolved := [];
    for i := 0 to |facets|
      invariant resolved == Resolved(lower, facets[..i], definitions)
    {
      assert facets[..i + 1][..i] == facets[..i];
      var normalizedKey := lower(Strip(facets[i].key));
      if normalizedKey !in definitionMap {
        continue;
      }
      var key := Strip(definitionMap[normalizedKey].key);
      var values := MergeLists([], facets[i].values);
      if values != [] {
        resolved := Put(resolved, key, values);
      }
    }
    assert facets[..|facets|] == facets;
  }

  method ProjectFromSemanticProfile(lower: string -> string, profile: seq<Field>, definitions: seq<Definition>)
    returns (facets: seq<Field>)
    ensures facets == Project(lower, profile, definitions)
    ensures IsFieldSet(facets) && Validated(facets) == facets
  {
    var selected: seq<Field> := [];
    for i := 0 to |definitions|
      invariant selected == Selected(profile, definitions[..i])
    {
      assert definitions[..i + 1][..i] == definitions[..i];
      if definitions[i].enabled && Strip(definitions[i].key) != "" {
        selected := Put(selected, definitions[i].key, Lookup(profile, definitions[i].key));
      }
    }
    assert definitions[..|definitions|] == definitions;
    facets := NormalizeFacets(lower, selected, definitions);
    ResolvedIsFieldSet(lower, selected, definitions);
    FieldSetFixed(facets);
  }

  lemma {:induction false} DefinitionUsable(lower: string -> string, definitions: seq<Definition>, name: string)
    ensures var d := DefinitionFor(lower, definitions, name);
            d.Some? ==> d.value in definitions && Usable(d.value) && lower(Strip(d.value.key)) == name
    ensures forall d :: d in definitions && Usable(d) && lower(Strip(d.key)) == name ==>
              DefinitionFor(lower, definitions, name).Some?
  {
    if definitions != [] {
      var front, last := definitions[..|definitions| - 1], definitions[|definitions| - 1];
      hide Strip, Usable;
      DefinitionUsable(lower, front, name);
      assert definitions == front + [last];
    }
  }

  /** Of the usable definitions with one lower-case name, the last one is found. */
  lemma {:induction false} LastDefinition(lower: string -> string, definitions: seq<Definition>, name: string)
    ensures DefinitionFor(lower, definitions, name).Some? ==>
              exists i :: 0 <= i < |definitions| && DefinitionFor(lower, definitions, name) == Some(definitions[i])
                && definitions[i].enabled && Strip(definitions[i].key) != "" && lower(Strip(definitions[i].key)) == name
                && forall j :: i < j < |definitions| && definitions[j].enabled && Strip(definitions[j].key) != "" ==>
                     lower(Strip(definitions[j].key)) != name
    ensures DefinitionFor(lower, definitions, name).None? ==>
              forall d :: d in definitions && d.enabled && Strip(d.key) != "" ==> lower(Strip(d.key)) != name
  {
    if definitions != [] {
      hide Strip;
      var front, last := definitions[..|definitions| - 1], definitions[|definitions| - 1];
      assert definitions == front + [last];
      LastDefinition(lower, front, name);
      if Usable(last) && lower(Strip(last.key)) == name {
        assert definitions[|definitions| - 1] == last;
      } else if DefinitionFor(lower, front, name).Some? {
        var i :| 0 <= i < |front| && DefinitionFor(lower, front, name) == Some(front[i])
          && Usable(front[i]) && lower(Strip(front[i].key)) == name
          && forall j :: i < j < |front| && Usable(front[j]) ==> lower(Strip(front[j].key)) != name;
        assert definitions[i] == front[i];
        assert forall j :: i < j < |definitions| - 1 ==> definitions[j] == front[j];
      }
    }
  }

  /** The name the facet goes under, if its key belongs to a usable definition. */
  function NameOf(lower: string -> string, definitions: seq<Definition>, f: Field): Option<string> {
    var d := DefinitionFor(lower, definitions, lower(Strip(f.key)));
    if d.Some? then Some(Strip(d.value.key)) else None
  }

  /** The facet is the last one under the name that has values at all, and they are these. */
  ghost predicate LastGiving(
    lower: string -> string, facets: seq<Field>, definitions: seq<Definition>, key: string, values: seq<string>, i: nat)
  {
    && i < |facets| && NameOf(lower, definitions, facets[i]) == Some(key) && values == Cleaned(facets[i].values)
    && forall j :: i < j < |facets| && NameOf(lower, definitions, facets[j]) == Some(key) ==>
         Cleaned(facets[j].values) == []
  }

  lemma LastGivingSnoc(
    lower: string -> string, front: seq<Field>, f: Field, definitions: seq<Definition>, key: string,
    values: seq<string>, i: nat)
    requires LastGiving(lower, front, definitions, key, values, i)
    requires NameOf(lower, definitions, f) == Some(key) ==> Cleaned(f.values) == []
    ensures LastGiving(lower, front + [f], definitions, key, values, i)
  {
    hide NameOf, Cleaned;
  }

  lemma LastGivingEnd(lower: string -> string, front: seq<Field>, f: Field, definitions: seq<Definition>, key: string)
    requires NameOf(lower, definitions, f) == Some(key)
    ensures LastGiving(lower, front + [f], definitions, key, Cleaned(f.values), |front|)
  {
  }

  /** Under each name stand the cleaned values of the last facet that goes under it and has any. */
  lemma {:induction false} ResolvedAt(
    lower: string -> string, facets: seq<Field>, definitions: seq<Definition>, key: string)
    ensures var values := Lookup(Resolved(lower, facets, definitions), key);
            values != [] ==> exists i: nat :: LastGiving(lower, facets, definitions, key, values, i)
    ensures Lookup(Resolved(lower, facets, definitions), key) == [] ==>
              forall f :: f in facets && NameOf(lower, definitions, f) == Some(key) ==> Cleaned(f.values) == []
  {
    if facets != [] {
      hide Strip, DefinitionFor, Cleaned, LastGiving;
      var front, f := facets[..|facets| - 1], facets[|facets| - 1];
      assert facets == front + [f];
      var before, after := Resolved(lower, front, definitions), Resolved(lower, facets, definitions);
      ResolvedAt(lower, front, definitions, key);
      var name := NameOf(lower, definitions, f);
      if name.Some? {
        LookupPut(before, name.value, Cleaned(f.values), key);
      }
      if name == Some(key) && Cleaned(f.values) != [] {
        LastGivingEnd(lower, front, f, definitions, key);
      } else {
        assert Lookup(after, key) == Lookup(before, key);
        if i: nat :| LastGiving(lower, front, definitions, key, Lookup(before, key), i) {
          LastGivingSnoc(lower, front, f, definitions, key, Lookup(before, key), i);
        }
      }
    }
  }

  lemma {:induction false} ResolvedIsFieldSet(lower: string -> string, facets: seq<Field>, definitions: seq<Definition>)
    ensures IsFieldSet(Resolved(lower, facets, definitions))
  {
    if facets != [] {
      var front, f := facets[..|facets| - 1], facets[|facets| - 1];
      ResolvedIsFieldSet(lower, front, definitions);
      DefinitionUsable(lower, definitions, lower(Strip(f.key)));
      var d := DefinitionFor(lower, definitions, lower(Strip(f.key)));
      MergeClean([], f.values);
      if d.Some? {
        StripStripped(d.value.key);
        PutAt(Resolved(lower, front, definitions), Strip(d.value.key), Cleaned(f.values));
      }
      hide Strip, DefinitionFor, MergeStringLists, IsClean, IsStripped;
    }
  }

  // ----- when the projection is the restriction of the profile to the enabled keys

  predicate EnabledKey(definitions: seq<Definition>, key: string) {
    exists d :: d in definitions && Usable(d) && d.key == key
  }

  ghost predicate IsRestriction(facets: seq<Field>, profile: seq<Field>, definitions: seq<Definition>) {
    forall key :: Lookup(facets, key) == if EnabledKey(definitions, key) then Lookup(profile, key) else []
  }

  ghost predicate AlwaysRestricts(lower: string -> string, definitions: seq<Definition>) {
    forall profile :: IsFieldSet(profile) ==> IsRestriction(Project(lower, profile, definitions), profile, definitions)
  }

  /** A usable key without surrounding blanks is the name its lower-case form resolves to. */
  predicate NamesItself(lower: string -> string, definitions: seq<Definition>, key: string) {
    var d := DefinitionFor(lower, definitions, lower(Strip(key)));
    d.Some? && Strip(d.value.key) == key
  }

  predicate Coherent(lower: string -> string, definitions: seq<Definition>) {
    forall d :: d in definitions && Usable(d) && IsStripped(d.key) ==> NamesItself(lower, definitions, d.key)
  }

  lemma {:induction false} SelectedAt(profile: seq<Field>, definitions: seq<Definition>)
    ensures IsDict(Selected(profile, definitions))
    ensures forall f :: f in Selected(profile, definitions) ==>
              EnabledKey(definitions, f.key) && f.values == Lookup(profile, f.key)
    ensures forall d :: d in definitions && Usable(d) ==>
              Field(d.key, Lookup(profile, d.key)) in Selected(profile, definitions)
  {
    if definitions != [] {
      var front, last := definitions[..|definitions| - 1], definitions[|definitions| - 1];
      SelectedAt(profile, front);
      hide Usable, IsDict, Lookup;
      assert definitions == front + [last];
      assert forall key :: EnabledKey(front, key) ==> EnabledKey(definitions, key);
      if Usable(last) {
        assert EnabledKey(definitions, last.key);
        PutAt(Selected(profile, front), last.key, Lookup(profile, last.key));
      }
    }
  }

  lemma SelectedLookup(profile: seq<Field>, definitions: seq<Definition>, key: string)
    ensures Lookup(Selected(profile, definitions), key) == if EnabledKey(definitions, key) then Lookup(profile, key)
              else []
  {
    var selected := Selected(profile, definitions);
    hide Usable, IsDict, Selected;
    SelectedAt(profile, definitions);
    LookupIn(selected, key);
    if EnabledKey(definitions, key) {
      var d :| d in definitions && Usable(d) && d.key == key;
      assert Field(key, Lookup(profile, key)) in selected;
    } else if Lookup(selected, key) != [] {
      assert Field(key, Lookup(selected, key)) in selected;
      assert false;
    }
  }

  lemma {:induction false} LookupSnoc(d: seq<Field>, f: Field, key: string)
    requires IsDict(d + [f])
    ensures Lookup(d + [f], key) == if f.key == key then f.values else Lookup(d, key)
    ensures IsDict(d)
  {
    assert forall i :: 0 <= i < |d| ==> (d + [f])[i] == d[i];
    if d != [] {
      assert (d + [f])[1..] == d[1..] + [f];
      assert (d + [f])[0].key != (d + [f])[|d|].key;
      LookupSnoc(d[1..], f, key);
    }
  }

  lemma {:induction false} ResolvedLookup(
    lower: string -> string, facets: seq<Field>, definitions: seq<Definition>, key: string)
    requires IsDict(facets) && forall f :: f in facets ==> IsClean(f.values)
    requires forall f :: f in facets && f.values != [] ==> NamesItself(lower, definitions, f.key)
    ensures Lookup(Resolved(lower, facets, definitions), key) == Lookup(facets, key)
  {
    if facets != [] {
      var front, f := facets[..|facets| - 1], facets[|facets| - 1];
      assert facets == front + [f] && f in facets;
      assert forall g :: g in front ==> g in facets;
      hide IsDict, IsClean, Strip, DefinitionFor, MergeStringLists;
      LookupSnoc(front, f, key);
      ResolvedLookup(lower, front, definitions, key);
      CleanFixed(f.values);
      LookupPut(Resolved(lower, front, definitions), f.key, f.values, key);
      FrontLacks(front, f);
      ResolvedLookup(lower, front, definitions, f.key);
    }
  }

  lemma FrontLacks(d: seq<Field>, f: Field)
    requires IsDict(d + [f])
    ensures Lookup(d, f.key) == []
  {
    LookupIn(d, f.key) by {
      assert forall i :: 0 <= i < |d| ==> (d + [f])[i] == d[i];
    }
    forall g | g in d ensures g.key != f.key {
      var i :| 0 <= i < |d| && d[i] == g;
      assert (d + [f])[i].key != (d + [f])[|d|].key;
    }
  }

  lemma CoherentRestricts(lower: string -> string, profile: seq<Field>, definitions: seq<Definition>)
    requires Coherent(lower, definitions) && IsFieldSet(profile)
    ensures IsRestriction(Project(lower, profile, definitions), profile, definitions)
  {
    var selected := Selected(profile, definitions);
    SelectedAt(profile, definitions);
    forall f | f in selected
      ensures IsClean(f.values) && (f.values != [] ==> NamesItself(lower, definitions, f.key))
    {
      LookupIn(profile, f.key);
      if f.values != [] {
        assert Field(f.key, f.values) in profile;
        var d :| d in definitions && Usable(d) && d.key == f.key;
      }
    }
    hide Selected, Resolved, IsClean, NamesItself, IsDict, EnabledKey;
    forall key
      ensures Lookup(Project(lower, profile, definitions), key) == if EnabledKey(definitions, key)
                then Lookup(profile, key) else []
    {
      ResolvedLookup(lower, selected, definitions, key);
      SelectedLookup(profile, definitions, key);
    }
  }

  /** A profile with one key resolves to nothing but that key's resolved name. */
  lemma {:induction false} ResolvedOne(
    lower: string -> string, facets: seq<Field>, definitions: seq<Definition>, key: string)
    requires !NamesItself(lower, definitions, key)
    requires forall f :: f in facets ==> f.values == [] || f.key == key
    ensures Lookup(Resolved(lower, facets, definitions), key) == []
  {
    if facets != [] {
      var front, f := facets[..|facets| - 1], facets[|facets| - 1];
      ResolvedOne(lower, front, definitions, key);
      assert f in facets;
      assert Cleaned([]) == [];
      var d := DefinitionFor(lower, definitions, lower(Strip(f.key)));
      if d.Some? {
        LookupPut(Resolved(lower, front, definitions), Strip(d.value.key), Cleaned(f.values), key);
      }
    }
  }

  lemma LookupOne(key: string, values: seq<string>, key': string)
    ensures Lookup([Field(key, values)], key') == if key' == key then values else []
  {
    assert [Field(key, values)][1..] == [];
  }

  lemma IncoherentFails(lower: string -> string, definitions: seq<Definition>, d: Definition)
    requires d in definitions && Usable(d) && IsStripped(d.key) && !NamesItself(lower, definitions, d.key)
    ensures !AlwaysRestricts(lower, definitions)
  {
    var profile := [Field(d.key, ["v"])];
    StripIdentity(d.key);
    assert IsClean(["v"]) && IsFieldSet(profile);
    SelectedAt(profile, definitions);
    forall f | f in Selected(profile, definitions) ensures f.values == [] || f.key == d.key {
      LookupOne(d.key, ["v"], f.key);
    }
    LookupOne(d.key, ["v"], d.key);
    ResolvedOne(lower, Selected(profile, definitions), definitions, d.key);
    assert EnabledKey(definitions, d.key) && Lookup(profile, d.key) == ["v"];
    assert !IsRestriction(Project(lower, profile, definitions), profile, definitions);
  }

  /**
    Main result: projecting keeps exactly the profile's values under the enabled keys, for every validated profile,
    exactly when every enabled key names itself: no other enabled definition takes over its lower-case form.
   */
  lemma RestrictsIffCoherent(lower: string -> string, definitions: seq<Definition>)
    ensures AlwaysRestricts(lower, definitions) <==> Coherent(lower, definitions)
  {
    hide NamesItself, IsRestriction, Project, IsFieldSet, Usable, IsStripped;
    if Coherent(lower, definitions) {
      forall profile | IsFieldSet(profile)
        ensures IsRestriction(Project(lower, profile, definitions), profile, definitions)
      {
        CoherentRestricts(lower, profile, definitions);
      }
    } else {
      var d :| d in definitions && Usable(d) && IsStripped(d.key) && !NamesItself(lower, definitions, d.key);
      IncoherentFails(lower, definitions, d);
    }
  }

  /** With "Region" and "region" enabled, the values of "Region" end up under "region". */
  lemma SecondSpellingTakesOver(lower: string -> string)
    requires lower("Region") == lower("region")
    ensures var definitions := [Definition("Region", "", true), Definition("region", "", true)];
            Project(lower, [Field("Region", ["eu"])], definitions) == [Field("region", ["eu"])]
  {
    var first, second := Definition("Region", "", true), Definition("region", "", true);
    var definitions, profile := [first, second], [Field("Region", ["eu"])];
    StripIdentity("Region");
    StripIdentity("region");
    assert IsClean(["eu"]);
    CleanFixed(["eu"]);
    hide Strip, MergeStringLists;
    assert definitions[..1] == [first] && [first][..0] == [];
    assert Selected(profile, [first]) == [Field("Region", ["eu"])];
    var selected := [Field("Region", ["eu"]), Field("region", [])];
    LookupOne("Region", ["eu"], "region");
    assert Selected(profile, definitions) == selected;
    assert DefinitionFor(lower, definitions, lower("region")) == Some(second);
    assert selected[..1] == [Field("Region", ["eu"])] && selected[..1][..0] == [];
    assert Resolved(lower, selected[..1], definitions) == [Field("region", ["eu"])];
    assert Cleaned([]) == [];
  }

  // ----- planning

  datatype Change = Change(partition: string, caseId: string, before: seq<Field>, after: seq<Field>,
    changedKeys: seq<string>)

  datatype Plan = Plan(partition: string, targets: seq<string>, changes: seq<Change>, settled: seq<string>,
    skipped: seq<string>)

  function KeysOf(d: seq<Field>): set<string> {
    set f | f in d :: f.key
  }

  function ChangedKeys(before: seq<Field>, after: seq<Field>): set<string> {
    set k | k in KeysOf(before) + KeysOf(after) && Lookup(before, k) != Lookup(after, k)
  }

  ghost function ProjectOne(lower: string -> string, c: Case, schema: Schema): Option<Change> {
    var after := Project(lower, c.profile, schema.definitions);
    if ChangedKeys(c.facets, after) == {} then None
    else Some(Change(c.partition, c.id, c.facets, after, Sorted(ChangedKeys(c.facets, after))))
  }

  predicate IsTarget(partition: string, cases: map<string, Case>, id: string) {
    id in cases && cases[id].partition == partition
  }

  /** The changes of one target: none when it is skipped or already projected. */
  ghost function ChangeFor(
    lower: string -> string, partition: string, schema: Schema, cases: map<string, Case>, id: string): Option<Change> {
    if IsTarget(partition, cases, id) then ProjectOne(lower, cases[id], schema) else None
  }

  ghost function ChangesFor(
    lower: string -> string, partition: string, schema: Schema, cases: map<string, Case>, ids: seq<string>)
    : seq<Change>
  {
    if ids == [] then [] else
    var before, change := ChangesFor(lower, partition, schema, cases, ids[..|ids| - 1]),
      ChangeFor(lower, partition, schema, cases, ids[|ids| - 1]);
    if change.Some? then before + [change.value] else before
  }

  ghost function SettledFor(
    lower: string -> string, partition: string, schema: Schema, cases: map<string, Case>, ids: seq<string>)
    : seq<string>
  {
    if ids == [] then [] else
    var before, id := SettledFor(lower, partition, schema, cases, ids[..|ids| - 1]), ids[|ids| - 1];
    if IsTarget(partition, cases, id) && ChangeFor(lower, partition, schema, cases, id).None? then before + [id]
    else before
  }

  function SkippedFor(partition: string, cases: map<string, Case>, ids: seq<string>): seq<string> {
    if ids == [] then [] else
    var before, id := SkippedFor(partition, cases, ids[..|ids| - 1]), ids[|ids| - 1];
    if IsTarget(partition, cases, id) then before else before + [id]
  }

  ghost function Planned(
    lower: string -> string, partition: string, schema: Schema, cases: map<string, Case>, ids: seq<string>): Plan {
    Plan(partition, ids, ChangesFor(lower, partition, schema, cases, ids),
      SettledFor(lower, partition, schema, cases, ids),
         SkippedFor(partition, cases, ids))
  }

  method ProjectCase(lower: string -> string, c: Case, schema: Schema) returns (change: Option<Change>)
    ensures change == ProjectOne(lower, c, schema)
  {
    hide Project, IsFieldSet, IsDict;
    var after := ProjectFromSemanticProfile(lower, c.profile, schema.definitions);
    var changedKeys := SortedList(ChangedKeys(c.facets, after));
    SortedToSet(ChangedKeys(c.facets, after));
    change := if changedKeys == [] then None else Some(Change(c.partition, c.id, c.facets, after, changedKeys));
  }

  method PlanProjection(
    lower: string -> string, partition: string, schema: Schema, cases: map<string, Case>, ids: seq<string>)
    returns (plan: Plan)
    ensures plan == Planned(lower, partition, schema, cases, ids)
  {
    hide ProjectOne;
    var changes: seq<Change> := [];
    var settled, skipped: seq<string> := [], [];
    for i := 0 to |ids|
      invariant changes == ChangesFor(lower, partition, schema, cases, ids[..i])
      invariant settled == SettledFor(lower, partition, schema, cases, ids[..i])
      invariant skipped == SkippedFor(partition, cases, ids[..i])
    {
      assert ids[..i + 1][..i] == ids[..i];
      if ids[i] !in cases || cases[ids[i]].partition != partition {
        skipped := skipped + [ids[i]];
        continue;
      }
      var change := ProjectCase(lower, cases[ids[i]], schema);
      if change.None? {
        settled := settled + [ids[i]];
      } else {
        changes := changes + [change.value];
      }
    }
    assert ids[..|ids|] == ids;
    plan := Plan(partition, ids, changes, settled, skipped);
  }

  function ChangeIds(changes: seq<Change>): seq<string> {
    seq(|changes|, i requires 0 <= i < |changes| => changes[i].caseId)
  }

  lemma ChangeIdsSnoc(changes: seq<Change>, change: Change)
    ensures ChangeIds(changes + [change]) == ChangeIds(changes) + [change.caseId]
  {
  }

  predicate Keyed(cases: map<string, Case>) {
    forall id :: id in cases ==> cases[id].id == id
  }

  /** The three lists together hold the targets, with repetitions. */
  ghost predicate Splits(ids: seq<string>, a: seq<string>, b: seq<string>, c: seq<string>) {
    multiset(ids) == multiset(a) + multiset(b) + multiset(c)
  }

  lemma SplitsSnoc(ids: seq<string>, a: seq<string>, b: seq<string>, c: seq<string>, id: string)
    requires Splits(ids, a, b, c)
    ensures Splits(ids + [id], a + [id], b, c) && Splits(ids + [id], a, b + [id], c)
              && Splits(ids + [id], a, b, c + [id])
  {
  }

  lemma {:induction false} TargetsSplit(
    lower: string -> string, partition: string, schema: Schema, cases: map<string, Case>, ids: seq<string>)
    requires Keyed(cases)
    ensures Splits(ids, ChangeIds(ChangesFor(lower, partition, schema, cases, ids)),
              SettledFor(lower, partition, schema, cases, ids),
                   SkippedFor(partition, cases, ids))
    decreases |ids|
  {
    if ids == [] {
      assert ChangeIds([]) == [];
    } else {
      var front, id := ids[..|ids| - 1], ids[|ids| - 1];
      TargetsSplit(lower, partition, schema, cases, front);
      var changes, change :=
        ChangesFor(lower, partition, schema, cases, front), ChangeFor(lower, partition, schema, cases, id);
      assert change.Some? ==> change.value.caseId == id;
      hide Splits, ChangeIds, ChangeFor;
      SplitsSnoc(front, ChangeIds(changes), SettledFor(lower, partition, schema, cases, front),
        SkippedFor(partition, cases, front), id);
      if change.Some? {
        ChangeIdsSnoc(changes, change.value);
      }
      assert ids == front + [id];
    }
  }

  lemma {:induction false} TargetsSkipped(partition: string, cases: map<string, Case>, ids: seq<string>)
    ensures forall id :: id in SkippedFor(partition, cases, ids) <==> id in ids && !IsTarget(partition, cases, id)
    decreases |ids|
  {
    if ids != [] {
      hide IsTarget;
      var front, last := ids[..|ids| - 1], ids[|ids| - 1];
      TargetsSkipped(partition, cases, front);
      assert ids == front + [last];
    }
  }

  /**
    Main result: a plan splits its targets, repetitions included, into changed, unchanged and skipped ones, and skips
    exactly those without a case in the partition.
   */
  lemma PlanSplitsTargets(
    lower: string -> string, partition: string, schema: Schema, cases: map<string, Case>, ids: seq<string>)
    requires Keyed(cases)
    ensures var plan := Planned(lower, partition, schema, cases, ids);
            && Splits(ids, ChangeIds(plan.changes), plan.settled, plan.skipped)
            && forall id :: id in plan.skipped <==> id in ids && (id !in cases || cases[id].partition != partition)
  {
    TargetsSplit(lower, partition, schema, cases, ids);
    TargetsSkipped(partition, cases, ids);
  }

  /** The changes of a plan are the changed projections of its targets. */
  lemma {:induction false} PlanChanges(
    lower: string -> string, partition: string, schema: Schema, cases: map<string, Case>, ids: seq<string>,
    change: Change)
    ensures change in ChangesFor(lower, partition, schema, cases, ids) <==>
              exists id :: id in ids && ChangeFor(lower, partition, schema, cases, id) == Some(change)
    decreases |ids|
  {
    if ids != [] {
      hide ChangeFor;
      var front, last := ids[..|ids| - 1], ids[|ids| - 1];
      PlanChanges(lower, partition, schema, cases, front, change);
      assert ids == front + [last];
      assert forall id :: id in ids <==> id in front || id == last;
    }
  }

  /** The case a change's target becomes: its facets are replaced by the validated projection. */
  function Changed(c: Case, change: Change): Case {
    c.(facets := Validated(change.after))
  }

  /** The case collection after the changes have been applied in order. */
  function AfterChanges(cases: map<string, Case>, changes: seq<Change>): map<string, Case> {
    if changes == [] then cases else
    var before, change := AfterChanges(cases, changes[..|changes| - 1]), changes[|changes| - 1];
    if change.caseId in before then before[change.caseId := Changed(before[change.caseId], change)] else before
  }

  ghost predicate IsChangeOf(lower: string -> string, schema: Schema, cases: map<string, Case>, change: Change) {
    change.caseId in cases && ProjectOne(lower, cases[change.caseId], schema) == Some(change)
  }

  lemma ChangedProjects(lower: string -> string, schema: Schema, c: Case, change: Change)
    requires ProjectOne(lower, c, schema) == Some(change)
    ensures forall facets ::
              Changed(c.(facets := facets), change) == c.(facets := Project(lower, c.profile, schema.definitions))
  {
    ResolvedIsFieldSet(lower, Selected(c.profile, schema.definitions), schema.definitions);
    FieldSetFixed(change.after);
  }

  ghost function ProjectedCase(lower: string -> string, schema: Schema, c: Case): Case {
    c.(facets := Project(lower, c.profile, schema.definitions))
  }

  /** Exactly the named cases are projected. */
  ghost predicate Projects(
    lower: string -> string, schema: Schema, cases: map<string, Case>, cases': map<string, Case>, ids: seq<string>) {
    && cases'.Keys == cases.Keys
    && forall id :: id in cases ==>
      cases'[id] == if id in ids then ProjectedCase(lower, schema, cases[id]) else cases[id]
  }

  lemma AfterChangesSnoc(cases: map<string, Case>, changes: seq<Change>, change: Change)
    ensures var before := AfterChanges(cases, changes);
            AfterChanges(cases, changes + [change]) ==
              if change.caseId in before then before[change.caseId := Changed(before[change.caseId], change)]
              else before
  {
    assert (changes + [change])[..|changes|] == changes;
  }

  lemma ProjectsUpdate(
    lower: string -> string, schema: Schema, cases: map<string, Case>, cases': map<string, Case>, ids: seq<string>,
    id: string)
    requires Projects(lower, schema, cases, cases', ids) && id in cases
    ensures Projects(lower, schema, cases, cases'[id := ProjectedCase(lower, schema, cases[id])], ids + [id])
    ensures cases'[id] == cases[id].(facets := cases'[id].facets)
  {
    assert forall x :: x in ids + [id] <==> x in ids || x == id;
    hide Project;
  }

  lemma ProjectsSnoc(
    lower: string -> string, schema: Schema, cases: map<string, Case>, changes: seq<Change>, change: Change)
    requires Projects(lower, schema, cases, AfterChanges(cases, changes), ChangeIds(changes))
              && IsChangeOf(lower, schema, cases, change)
    ensures Projects(lower, schema, cases, AfterChanges(cases, changes + [change]), ChangeIds(changes + [change]))
  {
    assert AfterChanges(cases, changes).Keys == cases.Keys;
    hide Project, ProjectOne, Changed, AfterChanges, ChangeIds, Projects;
    ChangedProjects(lower, schema, cases[change.caseId], change);
    AfterChangesSnoc(cases, changes, change);
    ChangeIdsSnoc(changes, change);
    ProjectsUpdate(lower, schema, cases, AfterChanges(cases, changes), ChangeIds(changes), change.caseId);
  }

  lemma ProjectsNone(lower: string -> string, schema: Schema, cases: map<string, Case>, changes: seq<Change>)
    ensures Projects(lower, schema, cases, AfterChanges(cases, changes[..0]), ChangeIds(changes[..0]))
  {
    assert ChangeIds(changes[..0]) == [];
  }

  lemma ProjectsNext(lower: string -> string, schema: Schema, cases: map<string, Case>, changes: seq<Change>, n: nat)
    requires n < |changes| && IsChangeOf(lower, schema, cases, changes[n])
    requires Projects(lower, schema, cases, AfterChanges(cases, changes[..n]), ChangeIds(changes[..n]))
    ensures Projects(lower, schema, cases, AfterChanges(cases, changes[..n + 1]), ChangeIds(changes[..n + 1]))
  {
    hide Projects, IsChangeOf, AfterChanges, ChangeIds;
    ProjectsSnoc(lower, schema, cases, changes[..n], changes[n]);
    assert changes[..n + 1] == changes[..n] + [changes[n]];
  }

  lemma {:induction false} FirstChanges(
    lower: string -> string, schema: Schema, cases: map<string, Case>, changes: seq<Change>, n: nat)
    requires n <= |changes| && forall i :: 0 <= i < |changes| ==> IsChangeOf(lower, schema, cases, changes[i])
    ensures Projects(lower, schema, cases, AfterChanges(cases, changes[..n]), ChangeIds(changes[..n]))
    decreases n
  {
    hide Projects, IsChangeOf, AfterChanges, ChangeIds;
    if n == 0 {
      ProjectsNone(lower, schema, cases, changes);
    } else {
      FirstChanges(lower, schema, cases, changes, n - 1);
      ProjectsNext(lower, schema, cases, changes, n - 1);
    }
  }

  /** Applying changes projects exactly the named cases and touches no others. */
  lemma AfterChangesAt(lower: string -> string, schema: Schema, cases: map<string, Case>, changes: seq<Change>)
    requires forall change :: change in changes ==> IsChangeOf(lower, schema, cases, change)
    ensures Projects(lower, schema, cases, AfterChanges(cases, changes), ChangeIds(changes))
  {
    hide Projects, IsChangeOf, AfterChanges, ChangeIds;
    FirstChanges(lower, schema, cases, changes, |changes|);
    assert changes[..|changes|] == changes;
  }

  /** Two dictionaries look alike to `get(key, [])`. */
  ghost predicate SameValues(a: seq<Field>, b: seq<Field>) {
    forall k :: Lookup(a, k) == Lookup(b, k)
  }

  lemma {:induction false} LookupKeys(d: seq<Field>, k: string)
    requires k !in KeysOf(d)
    ensures Lookup(d, k) == []
  {
    if d != [] {
      assert d == [d[0]] + d[1..] && d[0].key in KeysOf(d);
      assert forall f :: f in d[1..] ==> f in d;
      LookupKeys(d[1..], k);
    }
  }

  lemma ChangedKeysAt(before: seq<Field>, after: seq<Field>, k: string)
    ensures k in ChangedKeys(before, after) <==> Lookup(before, k) != Lookup(after, k)
  {
    if k !in KeysOf(before) + KeysOf(after) {
      LookupKeys(before, k);
      LookupKeys(after, k);
    }
  }

  lemma NoChangedKeys(before: seq<Field>, after: seq<Field>)
    ensures ChangedKeys(before, after) == {} <==> SameValues(before, after)
  {
    hide ChangedKeys, Lookup;
    forall k ensures k in ChangedKeys(before, after) <==> Lookup(before, k) != Lookup(after, k) {
      ChangedKeysAt(before, after, k);
    }
  }

  /** The change proposed for a case: the facets before and after, and the sorted keys whose values differ. */
  lemma ProjectedUnchanged(lower: string -> string, c: Case, schema: Schema)
    ensures ProjectOne(lower, c, schema).None? <==> SameValues(c.facets, Project(lower, c.profile, schema.definitions))
    ensures ProjectOne(lower, ProjectedCase(lower, schema, c), schema).None?
    ensures ProjectOne(lower, c, schema).Some? ==>
              var change := ProjectOne(lower, c, schema).value;
              && change.partition == c.partition && change.caseId == c.id && change.before == c.facets
              && change.after == Project(lower, c.profile, schema.definitions)
              && SortedBy(StringLe, change.changedKeys) && Distinct(change.changedKeys)
              && forall k :: k in change.changedKeys <==> Lookup(change.before, k) != Lookup(change.after, k)
  {
    hide Project, ChangedKeys, Sorted, Lookup, SameValues;
    var after := Project(lower, c.profile, schema.definitions);
    NoChangedKeys(c.facets, after);
    NoChangedKeys(after, after);
    SameItself(after);
    forall k ensures k in ChangedKeys(c.facets, after) <==> Lookup(c.facets, k) != Lookup(after, k) {
      ChangedKeysAt(c.facets, after, k);
    }
    SortedToSet(ChangedKeys(c.facets, after));
  }

  lemma SameItself(d: seq<Field>)
    ensures SameValues(d, d)
  {
  }

  lemma {:induction false} NothingToChange(
    lower: string -> string, partition: string, schema: Schema, cases: map<string, Case>, ids: seq<string>)
    requires forall id :: id in ids ==> ChangeFor(lower, partition, schema, cases, id).None?
    ensures ChangesFor(lower, partition, schema, cases, ids) == []
    decreases |ids|
  {
    if ids != [] {
      hide ChangeFor;
      NothingToChange(lower, partition, schema, cases, ids[..|ids| - 1]);
    }
  }

  /**
    Main result: projection reaches a fixpoint.  After a plan has been applied, planning again under the same schema
    changes nothing, and the facets of every target in the partition are the projection of its profile.
   */
  lemma ProjectionSettles(
    lower: string -> string, partition: string, schema: Schema, cases: map<string, Case>, ids: seq<string>)
    requires Keyed(cases)
    ensures var cases' := AfterChanges(cases, Planned(lower, partition, schema, cases, ids).changes);
            && cases'.Keys == cases.Keys
            && Planned(lower, partition, schema, cases', ids).changes == []
            && forall id :: id in ids && id in cases && cases[id].partition == partition ==>
                 cases'[id].profile == cases[id].profile
                 && SameValues(cases'[id].facets, Project(lower, cases[id].profile, schema.definitions))
  {
    var changes := ChangesFor(lower, partition, schema, cases, ids);
    hide ChangesFor, Project, ChangedKeys, Sorted, SameValues, AfterChanges;
    forall change
      ensures change in changes <==>
                exists id :: id in ids && ChangeFor(lower, partition, schema, cases, id) == Some(change)
    {
      PlanChanges(lower, partition, schema, cases, ids, change);
    }
    forall change | change in changes ensures IsChangeOf(lower, schema, cases, change) {}
    AfterChangesAt(lower, schema, cases, changes);
    var cases' := AfterChanges(cases, changes);
    forall id | id in ids && IsTarget(partition, cases, id)
      ensures cases'[id].partition == partition && cases'[id].profile == cases[id].profile
      ensures ProjectOne(lower, cases'[id], schema).None?
      ensures SameValues(cases'[id].facets, Project(lower, cases[id].profile, schema.definitions))
    {
      SettledCase(lower, partition, schema, cases, ids, changes, id);
    }
    NothingToChange(lower, partition, schema, cases', ids);
  }

  lemma SettledCase(
    lower: string -> string, partition: string, schema: Schema, cases: map<string, Case>, ids: seq<string>,
    changes: seq<Change>, id: string)
    requires Keyed(cases) && id in ids && IsTarget(partition, cases, id)
    requires forall change :: change in changes <==>
              exists i :: i in ids && ChangeFor(lower, partition, schema, cases, i) == Some(change)
    ensures var c := if id in ChangeIds(changes) then ProjectedCase(lower, schema, cases[id]) else cases[id];
            ProjectOne(lower, c, schema).None?
              && SameValues(c.facets, Project(lower, cases[id].profile, schema.definitions))
  {
    ProjectedUnchanged(lower, cases[id], schema);
    ProjectedUnchanged(lower, ProjectedCase(lower, schema, cases[id]), schema);
    hide Project, ChangedKeys, Sorted, SameValues;
    var change := ProjectOne(lower, cases[id], schema);
    if change.Some? {
      assert ChangeFor(lower, partition, schema, cases, id) == change;
      assert change.value in changes && change.value.caseId == id;
      var i :| 0 <= i < |changes| && changes[i] == change.value;
      assert ChangeIds(changes)[i] == id;
    }
  }
}
