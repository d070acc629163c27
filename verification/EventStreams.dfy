/**
  Collapsing the event stream of one resource: `_collapse_events` and the merge helpers of
  internal/knowledge/batch/working_set_builder.py.  The results say that collapsing loses nothing
  the groups report, and exactly which streams still have collapsible neighbours afterwards.
 */
module EventStreams {
  import opened Options
  import opened Text
  import opened Sorting
  import opened Fields

  /** The change kinds the builder tells apart. */
  datatype Kind = Create | Update | Delete | Other(name: string)

  function ParseKind(kind: string): Kind {
    if kind == "create" then Create else if kind == "update" then Update else if kind == "delete" then Delete
    else Other(kind)
  }

  datatype NormalizedEvent = NormalizedEvent(
    eventId: string, eventType: string, partition: string, resourceType: string, resourceId: string,
    changeKind: Kind, occurredAt: Option<nat>, changedFields: seq<string>, fieldChanges: map<string, string>,
    relatedRefs: seq<string>, observedFacets: seq<Field>, priority: int)

  // ----- facet dictionaries

  /** The (key, value) pairs of a facet dictionary. */
  function Pairs(d: seq<Field>): set<(string, string)> {
    set i, v | 0 <= i < |d| && v in Items(d[i].values) :: (d[i].key, v)
  }

  function MergeFacets(left: seq<Field>, right: seq<Field>): seq<Field> {
    if right == [] then left else
    var merged := MergeFacets(left, right[..|right| - 1]);
    var f := right[|right| - 1];
    Put(merged, f.key, MergeStringLists(Lookup(merged, f.key), f.values))
  }

  lemma PairsIn(d: seq<Field>, key: string, v: string)
    ensures (key, v) in Pairs(d) <==> exists f :: f in d && f.key == key && v in Items(f.values)
  {
    if (key, v) in Pairs(d) {
      var i :| 0 <= i < |d| && v in Items(d[i].values) && d[i].key == key;
      assert d[i] in d;
    }
  }

  lemma PairsLookup(d: seq<Field>, key: string, v: string)
    requires IsDict(d)
    ensures (key, v) in Pairs(d) <==> v in Items(Lookup(d, key))
  {
    hide Pairs, IsDict;
    PairsIn(d, key, v);
    LookupIn(d, key);
  }

  lemma PutItems(d: seq<Field>, key: string, values: seq<string>, merged: seq<string>)
    requires IsDict(d) && Items(merged) == Items(Lookup(d, key)) + Items(values)
    ensures IsDict(Put(d, key, merged))
    ensures Pairs(Put(d, key, merged)) == Pairs(d) + Pairs([Field(key, values)])
  {
    var e := Put(d, key, merged);
    PutAt(d, key, merged);
    LookupIn(d, key);
    forall k, v ensures (k, v) in Pairs(e) <==> (k, v) in Pairs(d) || (k, v) in Pairs([Field(key, values)]) {
      PairsIn(e, k, v);
      PairsIn(d, k, v);
      PairsIn([Field(key, values)], k, v);
      if k == key {
        assert Field(key, merged) in e;
        assert Field(key, values) in [Field(key, values)];
        assert v in Items(merged) <==> v in Items(Lookup(d, key)) || v in Items(values);
        assert v in Items(Lookup(d, key)) ==> Field(key, Lookup(d, key)) in d;
      }
    }
  }

  lemma MergeFacetsSnoc(left: seq<Field>, right: seq<Field>, f: Field)
    ensures var merged := MergeFacets(left, right);
            MergeFacets(left, right + [f]) == Put(merged, f.key, MergeStringLists(Lookup(merged, f.key), f.values))
  {
    assert (right + [f])[..|right|] == right;
  }

  lemma MergeFacetsPair(left: seq<Field>, right: seq<Field>, f: Field)
    requires IsDict(MergeFacets(left, right)) && Pairs(MergeFacets(left, right)) == Pairs(left) + Pairs(right)
    ensures IsDict(MergeFacets(left, right + [f]))
              && Pairs(MergeFacets(left, right + [f])) == Pairs(left) + Pairs(right + [f])
  {
    hide Pairs, Items, Put, Lookup, MergeStringLists, IsDict, MergeFacets;
    var merged := MergeFacets(left, right);
    MergeFacetsSnoc(left, right, f);
    MergeKeepsItems(Lookup(merged, f.key), f.values);
    PutItems(merged, f.key, f.values, MergeStringLists(Lookup(merged, f.key), f.values));
    PairsSnoc(right, f);
    assert Field(f.key, f.values) == f;
  }

  lemma {:induction false} MergeFacetsPairs(left: seq<Field>, right: seq<Field>)
    requires IsDict(left)
    ensures IsDict(MergeFacets(left, right))
    ensures Pairs(MergeFacets(left, right)) == Pairs(left) + Pairs(right)
    decreases |right|
  {
    hide Pairs, IsDict, MergeFacets;
    if right == [] {
      MergeFacetsNothing(left);
    } else {
      var front, f := right[..|right| - 1], right[|right| - 1];
      MergeFacetsPairs(left, front);
      MergeFacetsPair(left, front, f);
      assert front + [f] == right;
    }
  }

  lemma MergeFacetsNothing(left: seq<Field>)
    ensures MergeFacets(left, []) == left && Pairs([]) == {}
  {
  }

  lemma PairsSnoc(d: seq<Field>, f: Field)
    ensures Pairs(d + [f]) == Pairs(d) + Pairs([f])
  {
    forall k, v ensures (k, v) in Pairs(d + [f]) <==> (k, v) in Pairs(d) || (k, v) in Pairs([f]) {
      PairsIn(d + [f], k, v);
      PairsIn(d, k, v);
      PairsIn([f], k, v);
      assert forall g :: g in d + [f] <==> g in d || g in [f];
    }
  }

  method MergeObservedFacets(left: seq<Field>, right: seq<Field>) returns (merged: seq<Field>)
    ensures merged == MergeFacets(left, right)
  {
    merged := left;
    for i := 0 to |right|
      invariant merged == MergeFacets(left, right[..i])
    {
      assert right[..i + 1][..i] == right[..i];
      var values := MergeLists(Lookup(merged, right[i].key), right[i].values);
      merged := Put(merged, right[i].key, values);
    }
    assert right[..|right|] == right;
  }

  // ----- collapsing the events of one resource

  predicate IsOpen(e: NormalizedEvent) {
    e.changeKind == Create || e.changeKind == Update
  }

  predicate Absorbs(previous: NormalizedEvent, e: NormalizedEvent) {
    IsOpen(previous) && (e.changeKind == Update || e.changeKind == Delete)
  }

  function Combine(previous: NormalizedEvent, e: NormalizedEvent): NormalizedEvent {
    previous.(
      eventId := e.eventId,
      eventType := e.eventType,
      changeKind := if e.changeKind == Delete then e.changeKind else previous.changeKind,
      occurredAt := e.occurredAt,
      changedFields := MergeStringLists(previous.changedFields, e.changedFields),
      fieldChanges := previous.fieldChanges + e.fieldChanges,
      relatedRefs := MergeStringLists(previous.relatedRefs, e.relatedRefs),
      observedFacets := MergeFacets(previous.observedFacets, e.observedFacets),
      priority := if e.priority < previous.priority then e.priority else previous.priority)
  }

  function Push(collapsed: seq<NormalizedEvent>, e: NormalizedEvent): seq<NormalizedEvent> {
    var n := |collapsed|;
    if n > 0 && Absorbs(collapsed[n - 1], e) then collapsed[..n - 1] + [Combine(collapsed[n - 1], e)]
    else collapsed + [e]
  }

  function Collapse(events: seq<NormalizedEvent>): seq<NormalizedEvent> {
    if events == [] then [] else Push(Collapse(events[..|events| - 1]), events[|events| - 1])
  }

  lemma CollapseSnoc(events: seq<NormalizedEvent>, e: NormalizedEvent)
    ensures Collapse(events + [e]) == Push(Collapse(events), e)
  {
    assert (events + [e])[..|events|] == events;
  }

  lemma CollapseShort(events: seq<NormalizedEvent>)
    requires |events| <= 1
    ensures Collapse(events) == events
  {
    if |events| == 1 {
      assert events[..0] == [];
      assert Collapse(events) == Push([], events[0]);
    }
  }

  method CombineEvents(previous: NormalizedEvent, e: NormalizedEvent) returns (combined: NormalizedEvent)
    ensures combined == Combine(previous, e)
  {
    var fields := MergeLists(previous.changedFields, e.changedFields);
    var refs := MergeLists(previous.relatedRefs, e.relatedRefs);
    var facets := MergeObservedFacets(previous.observedFacets, e.observedFacets);
    combined := previous.(
      eventId := e.eventId,
      eventType := e.eventType,
      changeKind := if e.changeKind == Delete then e.changeKind else previous.changeKind,
      occurredAt := e.occurredAt,
      changedFields := fields,
      fieldChanges := previous.fieldChanges + e.fieldChanges,
      relatedRefs := refs,
      observedFacets := facets,
      priority := if e.priority < previous.priority then e.priority else previous.priority);
  }

  method CollapseEvents(events: seq<NormalizedEvent>) returns (collapsed: seq<NormalizedEvent>)
    ensures collapsed == Collapse(events)
  {
    if |events| <= 1 {
      CollapseShort(events);
      return events;
    }
    collapsed := [];
    for i := 0 to |events|
      invariant collapsed == Collapse(events[..i])
    {
      hide Combine, Absorbs, Collapse;
      var e := events[i];
      CollapseSnoc(events[..i], e);
      assert events[..i + 1] == events[..i] + [e];
      if |collapsed| == 0 {
        collapsed := collapsed + [e];
        continue;
      }
      var n := |collapsed| - 1;
      if Absorbs(collapsed[n], e) {
        var combined := CombineEvents(collapsed[n], e);
        collapsed := collapsed[..n] + [combined];
        continue;
      }
      collapsed := collapsed + [e];
    }
    assert events[..|events|] == events;
  }

  // ----- what collapsing conserves

  /** The sort key of an event: a missing time counts as `datetime.min`. */
  function Time(e: NormalizedEvent): nat {
    e.occurredAt.GetOr(0)
  }

  function FieldsOf(e: NormalizedEvent): set<string> {
    Items(e.changedFields)
  }

  function RefsOf(e: NormalizedEvent): set<string> {
    Items(e.relatedRefs)
  }

  function PairsOf(e: NormalizedEvent): set<(string, string)> {
    Pairs(e.observedFacets)
  }

  /** Everything `f` reports about some event of the stream. */
  function Union<T>(f: NormalizedEvent -> set<T>, events: seq<NormalizedEvent>): set<T> {
    set i, x | 0 <= i < |events| && x in f(events[i]) :: x
  }

  function Min(a: int, b: int): int {
    if a < b then a else b
  }

  function MinPriority(events: seq<NormalizedEvent>): int {
    if events == [] then 100
    else if |events| == 1 then events[0].priority
    else Min(MinPriority(events[..|events| - 1]), events[|events| - 1].priority)
  }

  /** `max` of the recorded times, None if no event has one. */
  function LatestAt(events: seq<NormalizedEvent>): Option<nat> {
    if events == [] then None else
    var before, last := LatestAt(events[..|events| - 1]), events[|events| - 1].occurredAt;
    if last.None? then before
    else if before.Some? && before.value > last.value then before
    else last
  }

  predicate Chronological(events: seq<NormalizedEvent>) {
    forall i, j :: 0 <= i < j < |events| ==> Time(events[i]) <= Time(events[j])
  }

  predicate WellFormed(events: seq<NormalizedEvent>) {
    forall i :: 0 <= i < |events| ==> IsDict(events[i].observedFacets)
  }

  lemma UnionSnoc<T>(f: NormalizedEvent -> set<T>, events: seq<NormalizedEvent>, e: NormalizedEvent)
    ensures Union(f, events + [e]) == Union(f, events) + f(e)
  {
    var es := events + [e];
    assert es[|events|] == e && forall i :: 0 <= i < |events| ==> es[i] == events[i];
  }

  lemma CombineUnions(previous: NormalizedEvent, e: NormalizedEvent)
    requires IsDict(previous.observedFacets)
    ensures FieldsOf(Combine(previous, e)) == FieldsOf(previous) + FieldsOf(e)
    ensures RefsOf(Combine(previous, e)) == RefsOf(previous) + RefsOf(e)
    ensures PairsOf(Combine(previous, e)) == PairsOf(previous) + PairsOf(e)
    ensures IsDict(Combine(previous, e).observedFacets)
  {
    MergeKeepsItems(previous.changedFields, e.changedFields);
    MergeKeepsItems(previous.relatedRefs, e.relatedRefs);
    MergeFacetsPairs(previous.observedFacets, e.observedFacets);
  }

  lemma PushUnion<T>(f: NormalizedEvent -> set<T>, collapsed: seq<NormalizedEvent>, e: NormalizedEvent)
    requires collapsed != [] && Absorbs(collapsed[|collapsed| - 1], e) ==>
               f(Combine(collapsed[|collapsed| - 1], e)) == f(collapsed[|collapsed| - 1]) + f(e)
    ensures Union(f, Push(collapsed, e)) == Union(f, collapsed) + f(e)
  {
    hide Union, Combine, Absorbs;
    UnionSnoc(f, collapsed, e);
    var n := |collapsed|;
    if n > 0 && Absorbs(collapsed[n - 1], e) {
      UnionSnoc(f, collapsed[..n - 1], Combine(collapsed[n - 1], e));
      UnionSnoc(f, collapsed[..n - 1], collapsed[n - 1]);
      assert collapsed == collapsed[..n - 1] + [collapsed[n - 1]];
    }
  }

  lemma PushWellFormed(collapsed: seq<NormalizedEvent>, e: NormalizedEvent)
    requires WellFormed(collapsed) && IsDict(e.observedFacets)
    ensures WellFormed(Push(collapsed, e))
  {
    if collapsed != [] {
      CombineUnions(collapsed[|collapsed| - 1], e);
    }
  }

  /** Main result: collapsing loses no changed field, related reference or observed facet value. */
  lemma {:induction false} CollapseConservesSets(events: seq<NormalizedEvent>)
    requires WellFormed(events)
    ensures WellFormed(Collapse(events))
    ensures Union(FieldsOf, Collapse(events)) == Union(FieldsOf, events)
    ensures Union(RefsOf, Collapse(events)) == Union(RefsOf, events)
    ensures Union(PairsOf, Collapse(events)) == Union(PairsOf, events)
  {
    if events != [] {
      hide Collapse, Push, Combine, Absorbs, FieldsOf, RefsOf, PairsOf, Union;
      var front, e := events[..|events| - 1], events[|events| - 1];
      assert events == front + [e];
      CollapseConservesSets(front);
      CollapseSnoc(front, e);
      var collapsed := Collapse(front);
      PushWellFormed(collapsed, e);
      if collapsed != [] {
        CombineUnions(collapsed[|collapsed| - 1], e);
      }
      PushUnion(FieldsOf, collapsed, e);
      PushUnion(RefsOf, collapsed, e);
      PushUnion(PairsOf, collapsed, e);
      UnionSnoc(FieldsOf, front, e);
      UnionSnoc(RefsOf, front, e);
      UnionSnoc(PairsOf, front, e);
    }
  }

  lemma SnocBounds(events: seq<NormalizedEvent>, e: NormalizedEvent)
    ensures MinPriority(events + [e]) == if events == [] then e.priority else Min(MinPriority(events), e.priority)
    ensures LatestAt(events + [e]).GetOr(0) ==
              if LatestAt(events).GetOr(0) > Time(e) then LatestAt(events).GetOr(0) else Time(e)
  {
    assert (events + [e])[..|events|] == events;
  }

  lemma {:induction false} LatestBelow(events: seq<NormalizedEvent>, t: nat)
    requires forall i :: 0 <= i < |events| ==> Time(events[i]) <= t
    ensures LatestAt(events).GetOr(0) <= t
  {
    if events != [] {
      LatestBelow(events[..|events| - 1], t);
    }
  }

  /** Main result: collapsing a sorted stream keeps its minimum priority and its latest time. */
  lemma {:induction false} CollapseConservesBounds(events: seq<NormalizedEvent>)
    requires Chronological(events)
    ensures MinPriority(Collapse(events)) == MinPriority(events)
    ensures LatestAt(Collapse(events)).GetOr(0) == LatestAt(events).GetOr(0)
  {
    if events != [] {
      var front, e := events[..|events| - 1], events[|events| - 1];
      assert events == front + [e];
      hide Collapse, Push, LatestAt, MinPriority;
      CollapseConservesBounds(front);
      LatestBelow(front, Time(e));
      SnocBounds(front, e);
      CollapseSnoc(front, e);
      PushBounds(Collapse(front), e);
    }
  }

  lemma PushBounds(collapsed: seq<NormalizedEvent>, e: NormalizedEvent)
    requires LatestAt(collapsed).GetOr(0) <= Time(e)
    ensures MinPriority(Push(collapsed, e)) ==
              if collapsed == [] then e.priority else Min(MinPriority(collapsed), e.priority)
    ensures LatestAt(Push(collapsed, e)).GetOr(0) == Time(e)
  {
    hide MinPriority, LatestAt, MergeStringLists, MergeFacets;
    SnocBounds(collapsed, e);
    if collapsed != [] && Absorbs(collapsed[|collapsed| - 1], e) {
      var init, last := collapsed[..|collapsed| - 1], collapsed[|collapsed| - 1];
      assert collapsed == init + [last];
      SnocBounds(init, Combine(last, e));
      SnocBounds(init, last);
    }
  }

  // ----- exactly when a collapsed stream is fully collapsed

  predicate Collapsible(events: seq<NormalizedEvent>) {
    exists i :: 0 <= i < |events| - 1 && Absorbs(events[i], events[i + 1])
  }

  /** Position `i` holds a create or update, `i + 1` a create, and only updates follow up to `j`. */
  predicate Recreated(events: seq<NormalizedEvent>, i: int, j: int) {
    && 0 <= i && i + 2 <= j <= |events|
    && IsOpen(events[i])
    && events[i + 1].changeKind == Create
    && forall k :: i + 2 <= k < j ==> events[k].changeKind == Update
  }

  /** The stream re-creates a live resource and then deletes it. */
  ghost predicate RecreatedThenDeleted(events: seq<NormalizedEvent>) {
    exists i, j :: Recreated(events, i, j) && j < |events| && events[j].changeKind == Delete
  }

  ghost predicate EndsRecreated(events: seq<NormalizedEvent>) {
    exists i :: Recreated(events, i, |events|)
  }

  predicate LastPairRecreated(c: seq<NormalizedEvent>) {
    |c| >= 2 && IsOpen(c[|c| - 2]) && c[|c| - 1].changeKind == Create
  }

  /** What the collapsed list remembers of the raw stream. */
  ghost predicate Tracks(events: seq<NormalizedEvent>, c: seq<NormalizedEvent>) {
    && |c| <= |events|
    && (events == [] <==> c == [])
    && (events != [] ==>
          var raw, last := events[|events| - 1], c[|c| - 1];
          (IsOpen(raw) <==> IsOpen(last)) && (!IsOpen(raw) ==> raw.changeKind == last.changeKind))
    && (EndsRecreated(events) <==> LastPairRecreated(c))
    && (|c| >= 2 && IsOpen(c[|c| - 2]) && IsOpen(c[|c| - 1]) ==> c[|c| - 1].changeKind == Create)
    && (RecreatedThenDeleted(events) <==> Collapsible(c))
  }

  lemma RecreatedPrefix(events: seq<NormalizedEvent>, e: NormalizedEvent, i: int, j: int)
    requires j <= |events|
    ensures Recreated(events + [e], i, j) <==> Recreated(events, i, j)
  {
    assert forall k :: 0 <= k < j ==> (events + [e])[k] == events[k];
  }

  lemma EndsRecreatedSnoc(events: seq<NormalizedEvent>, e: NormalizedEvent)
    ensures EndsRecreated(events + [e]) <==>
              || (EndsRecreated(events) && e.changeKind == Update)
              || (events != [] && IsOpen(events[|events| - 1]) && e.changeKind == Create)
  {
    var es := events + [e];
    var n := |events|;
    forall i ensures Recreated(es, i, n + 1) <==>
        (Recreated(events, i, n) && e.changeKind == Update) ||
        (i == n - 1 && i >= 0 && IsOpen(events[i]) && e.changeKind == Create)
    {
      RecreatedPrefix(events, e, i, n);
      assert Recreated(es, i, n + 1) && i + 2 <= n ==> Recreated(es, i, n) && es[n].changeKind == Update;
    }
    assert n > 0 && IsOpen(events[n - 1]) && e.changeKind == Create ==> Recreated(es, n - 1, n + 1);
  }

  lemma RecreatedThenDeletedSnoc(events: seq<NormalizedEvent>, e: NormalizedEvent)
    ensures RecreatedThenDeleted(events + [e]) <==>
              RecreatedThenDeleted(events) || (EndsRecreated(events) && e.changeKind == Delete)
  {
    var es := events + [e];
    var n := |events|;
    forall i, j | j <= n ensures Recreated(es, i, j) <==> Recreated(events, i, j) {
      RecreatedPrefix(events, e, i, j);
    }
    assert es[n] == e && forall j :: 0 <= j < n ==> es[j] == events[j];
    if EndsRecreated(events) && e.changeKind == Delete {
      var i :| Recreated(events, i, n);
      assert Recreated(es, i, n);
    }
    if RecreatedThenDeleted(events) {
      var i, j :| Recreated(events, i, j) && j < n && events[j].changeKind == Delete;
      assert Recreated(es, i, j);
    }
  }

  lemma CollapsibleSnoc(c: seq<NormalizedEvent>, e: NormalizedEvent)
    ensures Collapsible(c + [e]) <==> Collapsible(c) || (c != [] && Absorbs(c[|c| - 1], e))
  {
    var d := c + [e];
    if Collapsible(c) {
      var i :| 0 <= i < |c| - 1 && Absorbs(c[i], c[i + 1]);
      assert Absorbs(d[i], d[i + 1]);
    }
    if c != [] && Absorbs(c[|c| - 1], e) {
      assert Absorbs(d[|c| - 1], d[|c| - 1 + 1]);
    }
  }

  lemma TracksAbsorb(
    events: seq<NormalizedEvent>, init: seq<NormalizedEvent>, last: NormalizedEvent, e: NormalizedEvent,
    combined: NormalizedEvent)
    requires Tracks(events, init + [last]) && Absorbs(last, e)
    requires combined.changeKind == if e.changeKind == Delete then Delete else last.changeKind
    ensures Tracks(events + [e], init + [combined])
  {
    hide EndsRecreated, RecreatedThenDeleted, Collapsible;
    EndsRecreatedSnoc(events, e);
    RecreatedThenDeletedSnoc(events, e);
    CollapsibleSnoc(init, last);
    CollapsibleSnoc(init, combined);
  }

  lemma TracksAppend(events: seq<NormalizedEvent>, c: seq<NormalizedEvent>, e: NormalizedEvent)
    requires Tracks(events, c) && (c != [] ==> !Absorbs(c[|c| - 1], e))
    ensures Tracks(events + [e], c + [e])
  {
    hide EndsRecreated, RecreatedThenDeleted, Collapsible;
    EndsRecreatedSnoc(events, e);
    RecreatedThenDeletedSnoc(events, e);
    CollapsibleSnoc(c, e);
    var d := c + [e];
    assert c != [] ==> d[|d| - 2] == c[|c| - 1];
  }

  lemma {:induction false} CollapseTracks(events: seq<NormalizedEvent>)
    ensures Tracks(events, Collapse(events))
  {
    if events != [] {
      var front, e := events[..|events| - 1], events[|events| - 1];
      assert events == front + [e];
      CollapseTracks(front);
      var c := Collapse(front);
      if c != [] && Absorbs(c[|c| - 1], e) {
        assert c == c[..|c| - 1] + [c[|c| - 1]];
        TracksAbsorb(front, c[..|c| - 1], c[|c| - 1], e, Combine(c[|c| - 1], e));
      } else {
        TracksAppend(front, c, e);
      }
    }
  }

  /** Collapsing shortens a list exactly when it has collapsible neighbours, and otherwise changes nothing. */
  lemma {:induction false} CollapseShortens(c: seq<NormalizedEvent>)
    ensures if Collapsible(c) then |Collapse(c)| < |c| else Collapse(c) == c
  {
    if c != [] {
      var front, e := c[..|c| - 1], c[|c| - 1];
      assert c == front + [e];
      hide Collapse, Collapsible, EndsRecreated, RecreatedThenDeleted, Combine;
      CollapseShortens(front);
      CollapseSnoc(front, e);
      CollapsibleSnoc(front, e);
      CollapseTracks(front);
    }
  }

  /**
    Main result: the collapsed stream still has collapsible neighbours exactly when the raw stream re-creates a
    live resource and later deletes it; otherwise, and only otherwise, collapsing again changes nothing.
   */
  lemma CollapseSettles(events: seq<NormalizedEvent>)
    ensures Collapsible(Collapse(events)) <==> RecreatedThenDeleted(events)
    ensures Collapse(Collapse(events)) == Collapse(events) <==> !RecreatedThenDeleted(events)
  {
    CollapseTracks(events);
    CollapseShortens(Collapse(events));
  }

  // ----- which events become one

  /** Event i joins the one before it. */
  predicate Joined(events: seq<NormalizedEvent>, i: int)
    requires 0 < i < |events|
  {
    && (events[i - 1].changeKind == Create || events[i - 1].changeKind == Update)
    && (events[i].changeKind == Update || events[i].changeKind == Delete)
  }

  /** The stream is cut exactly where an event does not join the one before it. */
  ghost predicate Segments(events: seq<NormalizedEvent>, cuts: seq<nat>) {
    && cuts != [] && cuts[0] == 0 && cuts[|cuts| - 1] == |events|
    && (forall j, k :: 0 <= j < k < |cuts| ==> cuts[j] < cuts[k] <= |events|)
    && forall i :: 0 < i < |events| ==> (i in cuts <==> !Joined(events, i))
  }

  /** Event j is the last one of the segment that gives the field a value. */
  predicate GivesLast(segment: seq<NormalizedEvent>, x: string, j: int) {
    && 0 <= j < |segment| && x in segment[j].fieldChanges
    && forall i :: j < i < |segment| ==> x !in segment[i].fieldChanges
  }

  /** Each field has the value the last event that changes it gives it. */
  ghost predicate LastChanges(changes: map<string, string>, segment: seq<NormalizedEvent>) {
    && (forall x :: x in changes ==> exists j :: GivesLast(segment, x, j))
    && forall x, j :: GivesLast(segment, x, j) ==> x in changes && changes[x] == segment[j].fieldChanges[x]
  }

  /** A collapsed event: the id, type and time of the last one, the kind of the first unless it ends in a delete. */
  ghost predicate StandsFor(c: NormalizedEvent, segment: seq<NormalizedEvent>)
    requires segment != []
  {
    var first, last := segment[0], segment[|segment| - 1];
    && c.eventId == last.eventId && c.eventType == last.eventType && c.occurredAt == last.occurredAt
    && c.partition == first.partition && c.resourceType == first.resourceType && c.resourceId == first.resourceId
    && c.changeKind == (if last.changeKind == Delete then Delete else first.changeKind)
    && Items(c.changedFields) == Union(FieldsOf, segment) && Items(c.relatedRefs) == Union(RefsOf, segment)
    && Pairs(c.observedFacets) == Union(PairsOf, segment) && LastChanges(c.fieldChanges, segment)
    && (forall e :: e in segment ==> c.priority <= e.priority) && exists e :: e in segment && c.priority == e.priority
  }

  lemma UnionOne<T>(f: NormalizedEvent -> set<T>, e: NormalizedEvent)
    ensures Union(f, [e]) == f(e)
  {
    UnionSnoc(f, [], e);
    assert [] + [e] == [e];
  }

  lemma StandsAlone(e: NormalizedEvent)
    ensures StandsFor(e, [e])
  {
    hide Items, Pairs, Union;
    UnionOne(FieldsOf, e);
    UnionOne(RefsOf, e);
    UnionOne(PairsOf, e);
    assert e in [e];
    ChangesAlone(e);
  }

  lemma ChangesAlone(e: NormalizedEvent)
    ensures LastChanges(e.fieldChanges, [e])
  {
    forall x | x in e.fieldChanges ensures GivesLast([e], x, 0) {}
  }

  lemma CombineStands(c: NormalizedEvent, segment: seq<NormalizedEvent>, e: NormalizedEvent)
    requires segment != [] && StandsFor(c, segment) && Absorbs(c, e) && IsDict(c.observedFacets)
    ensures StandsFor(Combine(c, e), segment + [e])
  {
    CombineUnions(c, e);
    UnionSnoc(FieldsOf, segment, e);
    UnionSnoc(RefsOf, segment, e);
    UnionSnoc(PairsOf, segment, e);
    CombineChanges(c.fieldChanges, segment, e);
    CombinePriority(c, segment, e);
    hide Union, FieldsOf, RefsOf, PairsOf, LastChanges, MergeStringLists, MergeFacets, Items, Pairs, IsDict;
  }

  lemma CombinePriority(c: NormalizedEvent, segment: seq<NormalizedEvent>, e: NormalizedEvent)
    requires forall x :: x in segment ==> c.priority <= x.priority
    requires exists x :: x in segment && c.priority == x.priority
    ensures forall x :: x in segment + [e] ==> Combine(c, e).priority <= x.priority
    ensures exists x :: x in segment + [e] && Combine(c, e).priority == x.priority
  {
    var x :| x in segment && c.priority == x.priority;
    assert x in segment + [e] && e in segment + [e];
  }

  lemma GivesLastSnoc(segment: seq<NormalizedEvent>, e: NormalizedEvent, x: string, j: int)
    ensures GivesLast(segment + [e], x, j) <==>
              if x in e.fieldChanges then j == |segment| else GivesLast(segment, x, j)
  {
    var more := segment + [e];
    assert more[|segment|] == e && forall i :: 0 <= i < |segment| ==> more[i] == segment[i];
  }

  lemma CombineChanges(changes: map<string, string>, segment: seq<NormalizedEvent>, e: NormalizedEvent)
    requires LastChanges(changes, segment)
    ensures LastChanges(changes + e.fieldChanges, segment + [e])
  {
    var more, after := segment + [e], changes + e.fieldChanges;
    forall x | x in after ensures exists j :: GivesLast(more, x, j) {
      ChangeGiven(changes, segment, e, x);
    }
    forall x, j | GivesLast(more, x, j) ensures x in after && after[x] == more[j].fieldChanges[x] {
      GivesLastSnoc(segment, e, x, j);
    }
  }

  lemma ChangeGiven(changes: map<string, string>, segment: seq<NormalizedEvent>, e: NormalizedEvent, x: string)
    requires LastChanges(changes, segment) && x in changes + e.fieldChanges
    ensures exists j :: GivesLast(segment + [e], x, j)
  {
    hide GivesLast;
    if x in e.fieldChanges {
      GivesLastSnoc(segment, e, x, |segment|);
    } else {
      var j :| GivesLast(segment, x, j);
      GivesLastSnoc(segment, e, x, j);
    }
  }

  /** The last collapsed event absorbs the next event exactly when that one joins the event before it. */
  lemma LastOpen(events: seq<NormalizedEvent>, cuts: seq<nat>, c: NormalizedEvent)
    requires events != [] && Segments(events, cuts) && |cuts| >= 2
    requires StandsFor(c, events[cuts[|cuts| - 2]..])
    ensures IsOpen(c) <==> IsOpen(events[|events| - 1])
  {
    hide Union, LastChanges, Items, Pairs;
    var start := cuts[|cuts| - 2];
    if start < |events| - 1 {
      forall i | start < i < |events| ensures Joined(events, i) {
        NotACut(cuts, i);
      }
      assert Joined(events, |events| - 1) && Joined(events, start + 1);
    }
  }

  lemma NotACut(cuts: seq<nat>, i: int)
    requires |cuts| >= 2 && forall j, k :: 0 <= j < k < |cuts| ==> cuts[j] < cuts[k]
    requires cuts[|cuts| - 2] < i < cuts[|cuts| - 1]
    ensures i !in cuts
  {
  }

  lemma CutLonger(events: seq<NormalizedEvent>, cuts: seq<nat>, e: NormalizedEvent, joins: bool)
    requires events != [] && Segments(events, cuts) && |cuts| >= 2
    requires joins <==> Joined(events + [e], |events|)
    ensures Segments(events + [e], (if joins then cuts[..|cuts| - 1] else cuts) + [|events| + 1])
  {
    hide Joined;
    var kept := if joins then cuts[..|cuts| - 1] else cuts;
    var more, cuts' := events + [e], kept + [|events| + 1];
    CutIn(events, cuts, joins);
    forall i | 0 < i < |more| ensures i in cuts' <==> !Joined(more, i) {
      assert i in cuts' <==> i in kept;
      if i < |events| {
        JoinedBefore(events, e, i);
      }
    }
  }

  lemma JoinedBefore(events: seq<NormalizedEvent>, e: NormalizedEvent, i: int)
    requires 0 < i < |events|
    ensures Joined(events + [e], i) <==> Joined(events, i)
  {
  }

  lemma CutIn(events: seq<NormalizedEvent>, cuts: seq<nat>, joins: bool)
    requires events != [] && |cuts| >= 2 && cuts[|cuts| - 1] == |events|
    requires forall j, k :: 0 <= j < k < |cuts| ==> cuts[j] < cuts[k] <= |events|
    ensures var kept := if joins then cuts[..|cuts| - 1] else cuts;
            && (forall i :: 0 < i < |events| ==> (i in kept <==> i in cuts)) && (|events| in kept <==> !joins)
  {
    assert cuts == cuts[..|cuts| - 1] + [|events|];
  }

  /** Each collapsed event stands for its segment. */
  ghost predicate StandForAll(c: seq<NormalizedEvent>, events: seq<NormalizedEvent>, cuts: seq<nat>) {
    && |cuts| == |c| + 1 && (forall k :: 0 <= k < |cuts| ==> cuts[k] <= |events|)
    && forall k :: 0 <= k < |c| ==> cuts[k] < cuts[k + 1] && StandsFor(c[k], events[cuts[k]..cuts[k + 1]])
  }

  lemma SegmentExtended(
    init: seq<NormalizedEvent>, c: NormalizedEvent, front: seq<NormalizedEvent>, cuts: seq<nat>, e: NormalizedEvent)
    requires StandForAll(init + [c], front, cuts) && cuts[|cuts| - 1] == |front|
    requires Absorbs(c, e) && IsDict(c.observedFacets)
    ensures StandForAll(init + [Combine(c, e)], front + [e], cuts[..|cuts| - 1] + [|front| + 1])
  {
    hide Combine, StandsFor, Absorbs, IsDict;
    var n, events, cuts' := |init|, front + [e], cuts[..|cuts| - 1] + [|front| + 1];
    var c0, c' := init + [c], init + [Combine(c, e)];
    forall k | 0 <= k <= n ensures cuts'[k] < cuts'[k + 1] && StandsFor(c'[k], events[cuts'[k]..cuts'[k + 1]]) {
      assert StandsFor(c0[k], front[cuts[k]..cuts[k + 1]]);
      if k == n {
        CombineStands(c, front[cuts[n]..cuts[n + 1]], e);
        assert events[cuts'[k]..cuts'[k + 1]] == front[cuts[k]..cuts[k + 1]] + [e];
      } else {
        assert events[cuts'[k]..cuts'[k + 1]] == front[cuts[k]..cuts[k + 1]];
      }
    }
  }

  lemma SegmentStarted(c: seq<NormalizedEvent>, front: seq<NormalizedEvent>, cuts: seq<nat>, e: NormalizedEvent)
    requires StandForAll(c, front, cuts) && cuts[|cuts| - 1] == |front|
    ensures StandForAll(c + [e], front + [e], cuts + [|front| + 1])
  {
    hide StandsFor;
    var n, events, cuts', c' := |c|, front + [e], cuts + [|front| + 1], c + [e];
    forall k | 0 <= k <= n ensures cuts'[k] < cuts'[k + 1] && StandsFor(c'[k], events[cuts'[k]..cuts'[k + 1]]) {
      if k == n {
        StandsAlone(e);
        assert events[cuts'[k]..cuts'[k + 1]] == [e];
      } else {
        assert events[cuts'[k]..cuts'[k + 1]] == front[cuts[k]..cuts[k + 1]];
      }
    }
  }

  /**
    Main result: collapsing cuts the stream exactly where an event does not join the one before it, and leaves one event
    for each segment, which stands for its events.
   */
  lemma {:induction false} CollapseSegments(events: seq<NormalizedEvent>) returns (cuts: seq<nat>)
    requires WellFormed(events)
    ensures Segments(events, cuts) && StandForAll(Collapse(events), events, cuts)
  {
    hide Combine, StandsFor, Absorbs;
    cuts := [0];
    if events != [] {
      var front, e := events[..|events| - 1], events[|events| - 1];
      assert events == front + [e];
      CollapseConservesSets(front);
      CollapseSnoc(front, e);
      if front == [] {
        cuts := [0, 1];
        StandsAlone(e);
        assert events[0..1] == [e] && Collapse(events) == [e];
      } else {
        cuts := CollapseSegments(front);
        cuts := SegmentAdded(front, cuts, Collapse(front), e);
      }
    }
  }

  lemma SegmentAdded(front: seq<NormalizedEvent>, cuts: seq<nat>, c: seq<NormalizedEvent>, e: NormalizedEvent)
    returns (cuts': seq<nat>)
    requires front != [] && Segments(front, cuts) && WellFormed(c) && StandForAll(c, front, cuts)
    ensures Segments(front + [e], cuts') && StandForAll(Push(c, e), front + [e], cuts')
  {
    var n := |c|;
    assert n > 0 && front[cuts[n - 1]..cuts[n]] == front[cuts[n - 1]..];
    hide Combine, StandsFor, Absorbs, IsDict;
    LastOpen(front, cuts, c[n - 1]);
    JoinsAbsorbed(front, c[n - 1], e);
    CutLonger(front, cuts, e, Absorbs(c[n - 1], e));
    hide Segments, StandForAll;
    assert c == c[..n - 1] + [c[n - 1]];
    if Absorbs(c[n - 1], e) {
      SegmentExtended(c[..n - 1], c[n - 1], front, cuts, e);
      cuts' := cuts[..|cuts| - 1] + [|front| + 1];
    } else {
      SegmentStarted(c, front, cuts, e);
      cuts' := cuts + [|front| + 1];
    }
  }

  lemma JoinsAbsorbed(front: seq<NormalizedEvent>, c: NormalizedEvent, e: NormalizedEvent)
    requires front != [] && (IsOpen(c) <==> IsOpen(front[|front| - 1]))
    ensures Absorbs(c, e) <==> Joined(front + [e], |front|)
  {
  }

  lemma PushOnto(init: seq<NormalizedEvent>, last: NormalizedEvent, e: NormalizedEvent)
    ensures Push(init + [last], e) == if Absorbs(last, e) then init + [Combine(last, e)] else init + [last, e]
  {
    hide Absorbs, Combine;
    var collapsed := init + [last];
    assert collapsed[..|collapsed| - 1] == init && collapsed + [e] == init + [last, e];
  }

  lemma CombinedKind(previous: NormalizedEvent, e: NormalizedEvent)
    requires e.changeKind == Delete
    ensures Combine(previous, e).changeKind == Delete
  {
  }

  lemma CollapsePair(a: NormalizedEvent, b: NormalizedEvent)
    ensures Collapse([a, b]) == if Absorbs(a, b) then [Combine(a, b)] else [a, b]
  {
    hide Collapse, Push, Absorbs, Combine;
    CollapseShort([a]);
    CollapseSnoc([a], b);
    assert [a] + [b] == [a, b] && [] + [a] == [a];
    PushOnto([], a, b);
  }

  /** Created, created again and deleted: two events are left, which collapsing again makes one. */
  lemma RecreatedStreamNotSettled(e: NormalizedEvent)
    ensures var create, delete := e.(changeKind := Create), e.(changeKind := Delete);
            var once := Collapse([create, create, delete]);
            |once| == 2 && |Collapse(once)| == 1
  {
    hide Collapse, Push, Combine;
    var create, delete := e.(changeKind := Create), e.(changeKind := Delete);
    CollapsePair(create, create);
    CollapseSnoc([create, create], delete);
    assert [create] + [create] == [create, create] && [create, create] + [delete] == [create, create, delete];
    PushOnto([create], create, delete);
    CombinedKind(create, delete);
    assert [create] + [Combine(create, delete)] == [create, Combine(create, delete)];
    CollapsePair(create, Combine(create, delete));
  }

  /** A create stands only first or after a delete. */
  predicate LifecycleLegal(events: seq<NormalizedEvent>) {
    forall i :: 0 < i < |events| && events[i].changeKind == Create ==> events[i - 1].changeKind == Delete
  }

  lemma LegalStreamsSettle(events: seq<NormalizedEvent>)
    requires LifecycleLegal(events)
    ensures !Collapsible(Collapse(events)) && Collapse(Collapse(events)) == Collapse(events)
  {
    CollapseSettles(events);
    forall i | 0 <= i < |events| - 1 ensures events[i + 1].changeKind == Create ==> !IsOpen(events[i]) {
      var next := i + 1;
      assert events[next].changeKind == Create ==> events[next - 1].changeKind == Delete;
    }
  }
}
