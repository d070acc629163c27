/**
  Batch working sets: internal/knowledge/batch/working_set_builder.py.

  A batch of events is sorted, normalised, grouped by resource, and each group summarises the
  collapsed stream of its resource.  The order in which the events arrive does not matter, and
  every group reports exactly what the batch says about its resource.
 */
module WorkingSet {
  import opened Options
  import opened Text
  import opened Sorting
  import opened Fields
  import opened EventStreams

  /** A persisted backlog event. `occurredAt` counts from `datetime.min`. */
  datatype Event = Event(
    eventId: string, eventType: string, partition: string, resourceType: string, resourceId: string,
    occurredAt: Option<nat>, changeKind: string, changedFields: seq<string>, fieldChanges: map<string, string>,
    relatedTargets: seq<string>, observedFacets: seq<Field>)

  datatype Batch = Batch(batchId: string, partition: string, trigger: string, events: seq<Event>)

  datatype Resource = Resource(partition: string, resourceType: string, resourceId: string)

  datatype Group = Group(
    groupId: string, resource: Resource, eventIds: seq<string>, changedFields: seq<string>, relatedRefs: seq<string>,
    latestEventAt: Option<nat>, priority: int, isCancelledOut: bool, observedFacets: seq<Field>)

  datatype BatchWorkingSet = BatchWorkingSet(
    batchId: string, partition: string, trigger: string, groups: seq<Group>,
    affectedCaseIds: seq<string>, observedFacetKeys: seq<string>)

  // ----- normalising one event

  function NormalizeFacets(facets: seq<Field>): seq<Field> {
    if facets == [] then [] else
    var normalized := NormalizeFacets(facets[..|facets| - 1]);
    var f := facets[|facets| - 1];
    var values := MergeStringLists([], f.values);
    if Strip(f.key) == "" || values == [] then normalized else Put(normalized, Strip(f.key), values)
  }

  lemma {:induction false} NormalizeFacetsIsDict(facets: seq<Field>)
    ensures IsDict(NormalizeFacets(facets))
  {
    if facets != [] {
      var front, f := facets[..|facets| - 1], facets[|facets| - 1];
      NormalizeFacetsIsDict(front);
      PutAt(NormalizeFacets(front), Strip(f.key), MergeStringLists([], f.values));
    }
  }

  function Priority(resourceType: string, changeKind: Kind): int {
    if resourceType == "partition" then 10
    else if changeKind == Delete then 20
    else if changeKind == Create then 30
    else 50
  }

  function Normalize(e: Event): NormalizedEvent {
    NormalizedEvent(
      e.eventId, e.eventType, e.partition, e.resourceType, e.resourceId, ParseKind(Strip(e.changeKind)), e.occurredAt,
      e.changedFields, e.fieldChanges, MergeStringLists([], e.relatedTargets), NormalizeFacets(e.observedFacets),
      Priority(e.resourceType, ParseKind(Strip(e.changeKind))))
  }

  function EventTime(e: Event): nat {
    e.occurredAt.GetOr(0)
  }

  /** Ascending time, then event id. */
  predicate EventLe(a: Event, b: Event) {
    EventTime(a) < EventTime(b) || (EventTime(a) == EventTime(b) && StringLe(a.eventId, b.eventId))
  }

  lemma EventLeOrder()
    ensures Preorder(EventLe)
  {
    StringLeOrder();
  }

  function NormalizeAll(events: seq<Event>): seq<NormalizedEvent> {
    seq(|events|, i requires 0 <= i < |events| => Normalize(events[i]))
  }

  function Signals(batch: Batch): seq<NormalizedEvent> {
    NormalizeAll(Sort(EventLe, batch.events))
  }

  /** The stream that reaches the grouping step is chronological whatever order the batch had. */
  lemma SignalsSorted(batch: Batch)
    ensures Chronological(Signals(batch)) && WellFormed(Signals(batch))
  {
    EventLeOrder();
    SortSorted(EventLe, batch.events);
    var sorted := Sort(EventLe, batch.events);
    forall i | 0 <= i < |sorted| ensures IsDict(Signals(batch)[i].observedFacets) {
      NormalizeFacetsIsDict(sorted[i].observedFacets);
    }
  }

  // ----- grouping by resource

  datatype Stream = Stream(resource: Resource, events: seq<NormalizedEvent>)

  function ResourceOf(e: NormalizedEvent): Resource {
    Resource(e.partition, e.resourceType, e.resourceId)
  }

  /** `grouped[resource].append(e)` on an insertion-ordered default dictionary. */
  function AddTo(grouped: seq<Stream>, e: NormalizedEvent): seq<Stream> {
    if grouped == [] then [Stream(ResourceOf(e), [e])]
    else if grouped[0].resource == ResourceOf(e) then [Stream(ResourceOf(e), grouped[0].events + [e])] + grouped[1..]
    else [grouped[0]] + AddTo(grouped[1..], e)
  }

  function Grouped(events: seq<NormalizedEvent>): seq<Stream> {
    if events == [] then [] else AddTo(Grouped(events[..|events| - 1]), events[|events| - 1])
  }

  /** The events of one resource, in order. */
  function EventsOf(r: Resource, events: seq<NormalizedEvent>): seq<NormalizedEvent> {
    if events == [] then [] else
    var before := EventsOf(r, events[..|events| - 1]);
    if ResourceOf(events[|events| - 1]) == r then before + [events[|events| - 1]] else before
  }

  predicate OnePerResource(grouped: seq<Stream>) {
    forall i, j :: 0 <= i < j < |grouped| ==> grouped[i].resource != grouped[j].resource
  }

  /** The events filed under a resource: those of its first stream. */
  function At(grouped: seq<Stream>, r: Resource): seq<NormalizedEvent> {
    if grouped == [] then [] else if grouped[0].resource == r then grouped[0].events else At(grouped[1..], r)
  }

  predicate NoneEmpty(grouped: seq<Stream>) {
    forall s :: s in grouped ==> s.events != []
  }

  lemma {:induction false} AddToAt(grouped: seq<Stream>, e: NormalizedEvent, r: Resource)
    ensures At(AddTo(grouped, e), r) == At(grouped, r) + (if ResourceOf(e) == r then [e] else [])
  {
    if grouped != [] && grouped[0].resource != ResourceOf(e) {
      AddToAt(grouped[1..], e, r);
    }
  }

  lemma {:induction false} AddToResources(grouped: seq<Stream>, e: NormalizedEvent)
    ensures forall s :: s in AddTo(grouped, e) ==>
              s.resource == ResourceOf(e) || exists t :: t in grouped && t.resource == s.resource
  {
    if grouped != [] {
      assert grouped == [grouped[0]] + grouped[1..];
      AddToResources(grouped[1..], e);
    }
  }

  lemma {:induction false} AddToShape(grouped: seq<Stream>, e: NormalizedEvent)
    requires OnePerResource(grouped) && NoneEmpty(grouped)
    ensures OnePerResource(AddTo(grouped, e)) && NoneEmpty(AddTo(grouped, e))
  {
    if grouped != [] {
      assert grouped == [grouped[0]] + grouped[1..];
      var rest := AddTo(grouped[1..], e);
      AddToShape(grouped[1..], e);
      if grouped[0].resource != ResourceOf(e) {
        AddToResources(grouped[1..], e);
        ConsShape(grouped[0], rest);
      } else {
        ConsShape(Stream(ResourceOf(e), grouped[0].events + [e]), grouped[1..]);
      }
    }
  }

  lemma ConsShape(s: Stream, rest: seq<Stream>)
    requires OnePerResource(rest) && NoneEmpty(rest) && s.events != [] && forall t :: t in rest ==>
              t.resource != s.resource
    ensures OnePerResource([s] + rest) && NoneEmpty([s] + rest)
  {
    assert forall i :: 0 <= i < |rest| ==> rest[i] in rest;
  }

  lemma {:induction false} StreamsAt(grouped: seq<Stream>)
    requires OnePerResource(grouped) && NoneEmpty(grouped)
    ensures forall s :: s in grouped <==> s.events == At(grouped, s.resource) && s.events != []
  {
    if grouped != [] {
      assert grouped == [grouped[0]] + grouped[1..];
      StreamsAt(grouped[1..]);
      assert forall s :: s in grouped[1..] ==> s.resource != grouped[0].resource;
    }
  }

  lemma {:induction false} GroupedAt(events: seq<NormalizedEvent>)
    ensures OnePerResource(Grouped(events)) && NoneEmpty(Grouped(events))
    ensures forall r :: At(Grouped(events), r) == EventsOf(r, events)
  {
    if events != [] {
      var front, e := events[..|events| - 1], events[|events| - 1];
      hide OnePerResource, NoneEmpty, AddTo;
      GroupedAt(front);
      AddToShape(Grouped(front), e);
      forall r ensures At(Grouped(events), r) == EventsOf(r, events) {
        AddToAt(Grouped(front), e, r);
      }
    }
  }

  /** Grouping partitions the stream: one group per resource, holding exactly its events in order. */
  lemma GroupedPartitions(events: seq<NormalizedEvent>)
    ensures OnePerResource(Grouped(events))
    ensures forall s :: s in Grouped(events) <==> s.events == EventsOf(s.resource, events) && s.events != []
  {
    GroupedAt(events);
    StreamsAt(Grouped(events));
  }

  lemma {:induction false} EventsOfMembers(r: Resource, events: seq<NormalizedEvent>)
    ensures forall e :: e in EventsOf(r, events) <==> e in events && ResourceOf(e) == r
  {
    if events != [] {
      var front, last := events[..|events| - 1], events[|events| - 1];
      assert events == front + [last];
      EventsOfMembers(r, front);
    }
  }

  predicate NotAfter(events: seq<NormalizedEvent>, t: nat) {
    forall e :: e in events ==> Time(e) <= t
  }

  lemma ChronologicalSnoc(events: seq<NormalizedEvent>, e: NormalizedEvent)
    ensures Chronological(events + [e]) <==> Chronological(events) && NotAfter(events, Time(e))
  {
    var es := events + [e];
    assert forall i :: 0 <= i < |events| ==> es[i] == events[i] && events[i] in events;
    if Chronological(es) {
      forall x | x in events ensures Time(x) <= Time(e) {
        var i :| 0 <= i < |events| && events[i] == x;
        assert Time(es[i]) <= Time(es[|events|]);
      }
    }
  }

  lemma {:induction false} EventsOfKeepsOrder(r: Resource, events: seq<NormalizedEvent>)
    requires Chronological(events) && WellFormed(events)
    ensures Chronological(EventsOf(r, events)) && WellFormed(EventsOf(r, events))
  {
    if events != [] {
      var front, last := events[..|events| - 1], events[|events| - 1];
      assert events == front + [last];
      ChronologicalSnoc(front, last);
      EventsOfKeepsOrder(r, front);
      EventsOfMembers(r, front);
      ChronologicalSnoc(EventsOf(r, front), last);
    }
  }

  // ----- one group

  function MergedFields(events: seq<NormalizedEvent>): seq<string> {
    if events == [] then [] else
    MergeStringLists(MergedFields(events[..|events| - 1]), events[|events| - 1].changedFields)
  }

  function MergedRefs(events: seq<NormalizedEvent>): seq<string> {
    if events == [] then [] else
    MergeStringLists(MergedRefs(events[..|events| - 1]), events[|events| - 1].relatedRefs)
  }

  /** Appends the values not yet present, as they are. */
  function AppendNew(existing: seq<string>, incoming: seq<string>): seq<string> {
    if incoming == [] then existing else
    var merged := AppendNew(existing, incoming[..|incoming| - 1]);
    if incoming[|incoming| - 1] in merged then merged else merged + [incoming[|incoming| - 1]]
  }

  function AppendFacets(left: seq<Field>, right: seq<Field>): seq<Field> {
    if right == [] then left else
    var merged := AppendFacets(left, right[..|right| - 1]);
    var f := right[|right| - 1];
    Put(merged, f.key, AppendNew(Lookup(merged, f.key), f.values))
  }

  function MergedFacets(events: seq<NormalizedEvent>): seq<Field> {
    if events == [] then [] else
    AppendFacets(MergedFacets(events[..|events| - 1]), events[|events| - 1].observedFacets)
  }

  predicate HasKind(events: seq<NormalizedEvent>, kind: Kind) {
    exists i :: 0 <= i < |events| && events[i].changeKind == kind
  }

  function GroupId(r: Resource): string {
    r.partition + ":" + r.resourceType + ":" + r.resourceId
  }

  function EventIds(events: seq<NormalizedEvent>): seq<string> {
    seq(|events|, i requires 0 <= i < |events| => events[i].eventId)
  }

  function GroupOf(s: Stream): Group {
    var events := Collapse(s.events);
    Group(
      GroupId(s.resource), s.resource, EventIds(events), MergedFields(events), MergedRefs(events),
      LatestAt(events), MinPriority(events),
      HasKind(s.events, Create) && HasKind(s.events, Delete) && !HasKind(s.events, Update),
      MergedFacets(events))
  }

  lemma {:induction false} AppendNewItems(existing: seq<string>, incoming: seq<string>)
    ensures Items(AppendNew(existing, incoming)) == Items(existing) + Items(incoming)
  {
    if incoming != [] {
      var front, last := incoming[..|incoming| - 1], incoming[|incoming| - 1];
      AppendNewItems(existing, front);
      assert incoming == front + [last];
      ItemsSnoc(front, last);
      var merged := AppendNew(existing, front);
      ItemsSnoc(merged, last);
    }
  }

  lemma AppendFacetsSnoc(left: seq<Field>, right: seq<Field>, f: Field)
    ensures var merged := AppendFacets(left, right);
            AppendFacets(left, right + [f]) == Put(merged, f.key, AppendNew(Lookup(merged, f.key), f.values))
  {
    assert (right + [f])[..|right|] == right;
  }

  lemma AppendFacetsPair(left: seq<Field>, right: seq<Field>, f: Field)
    requires IsDict(AppendFacets(left, right)) && Pairs(AppendFacets(left, right)) == Pairs(left) + Pairs(right)
    ensures IsDict(AppendFacets(left, right + [f]))
              && Pairs(AppendFacets(left, right + [f])) == Pairs(left) + Pairs(right + [f])
  {
    hide Pairs, Items, Put, Lookup, AppendNew, IsDict, AppendFacets;
    var merged := AppendFacets(left, right);
    AppendFacetsSnoc(left, right, f);
    AppendNewItems(Lookup(merged, f.key), f.values);
    PutItems(merged, f.key, f.values, AppendNew(Lookup(merged, f.key), f.values));
    PairsSnoc(right, f);
    assert Field(f.key, f.values) == f;
  }

  lemma {:induction false} AppendFacetsPairs(left: seq<Field>, right: seq<Field>)
    requires IsDict(left)
    ensures IsDict(AppendFacets(left, right))
    ensures Pairs(AppendFacets(left, right)) == Pairs(left) + Pairs(right)
    decreases |right|
  {
    hide Pairs, IsDict, AppendFacets;
    if right == [] {
      AppendFacetsNothing(left);
    } else {
      var front, f := right[..|right| - 1], right[|right| - 1];
      AppendFacetsPairs(left, front);
      AppendFacetsPair(left, front, f);
      assert front + [f] == right;
    }
  }

  lemma AppendFacetsNothing(left: seq<Field>)
    ensures AppendFacets(left, []) == left && Pairs([]) == {}
  {
  }

  lemma {:induction false} MergedFieldsItems(events: seq<NormalizedEvent>)
    ensures Items(MergedFields(events)) == Union(FieldsOf, events)
  {
    if events != [] {
      hide Items, Union, MergeStringLists;
      var front, e := events[..|events| - 1], events[|events| - 1];
      MergedFieldsItems(front);
      MergeKeepsItems(MergedFields(front), e.changedFields);
      UnionSnoc(FieldsOf, front, e);
      assert events == front + [e];
    }
  }

  lemma {:induction false} MergedRefsItems(events: seq<NormalizedEvent>)
    ensures Items(MergedRefs(events)) == Union(RefsOf, events)
  {
    if events != [] {
      hide Items, Union, MergeStringLists;
      var front, e := events[..|events| - 1], events[|events| - 1];
      MergedRefsItems(front);
      MergeKeepsItems(MergedRefs(front), e.relatedRefs);
      UnionSnoc(RefsOf, front, e);
      assert events == front + [e];
    }
  }

  lemma {:induction false} MergedFacetPairs(events: seq<NormalizedEvent>)
    ensures IsDict(MergedFacets(events)) && Pairs(MergedFacets(events)) == Union(PairsOf, events)
  {
    if events != [] {
      hide Pairs, Union, AppendFacets, IsDict;
      var front, e := events[..|events| - 1], events[|events| - 1];
      MergedFacetPairs(front);
      AppendFacetsPairs(MergedFacets(front), e.observedFacets);
      UnionSnoc(PairsOf, front, e);
      assert events == front + [e];
    }
  }

  /** What a group reports about the events of its resource. */
  ghost predicate Summarises(g: Group, events: seq<NormalizedEvent>) {
    && Items(g.changedFields) == Union(FieldsOf, events)
    && Items(g.relatedRefs) == Union(RefsOf, events)
    && Pairs(g.observedFacets) == Union(PairsOf, events)
    && g.priority == MinPriority(events)
    && g.latestEventAt.GetOr(0) == LatestAt(events).GetOr(0)
    && (g.isCancelledOut <==> HasKind(events, Create) && HasKind(events, Delete) && !HasKind(events, Update))
  }

  lemma GroupSummarises(s: Stream)
    requires Chronological(s.events) && WellFormed(s.events)
    ensures Summarises(GroupOf(s), s.events)
  {
    CollapseConservesSets(s.events);
    CollapseConservesBounds(s.events);
    MergedFieldsItems(Collapse(s.events));
    MergedRefsItems(Collapse(s.events));
    MergedFacetPairs(Collapse(s.events));
  }

  // ----- the working set

  /** Ascending priority, then latest time, then group id. */
  predicate GroupLe(a: Group, b: Group) {
    var ta, tb := a.latestEventAt.GetOr(0), b.latestEventAt.GetOr(0);
    a.priority < b.priority ||
    (a.priority == b.priority && (ta < tb || (ta == tb && StringLe(a.groupId, b.groupId))))
  }

  lemma GroupLeOrder()
    ensures Preorder(GroupLe)
  {
    StringLeOrder();
  }

  function GroupsOf(grouped: seq<Stream>): seq<Group> {
    seq(|grouped|, i requires 0 <= i < |grouped| => GroupOf(grouped[i]))
  }

  function AffectedCases(groups: seq<Group>): seq<string> {
    if groups == [] then [] else
    var before, g := AffectedCases(groups[..|groups| - 1]), groups[|groups| - 1];
    if g.resource.resourceType == "case" && g.resource.resourceId !in before
    then before + [g.resource.resourceId] else before
  }

  function FacetKeys(facets: seq<Field>): seq<string> {
    seq(|facets|, i requires 0 <= i < |facets| => facets[i].key)
  }

  function ObservedKeys(groups: seq<Group>): seq<string> {
    if groups == [] then [] else
    AppendNew(ObservedKeys(groups[..|groups| - 1]), FacetKeys(groups[|groups| - 1].observedFacets))
  }

  function WorkingSetOf(batch: Batch): BatchWorkingSet {
    var groups := Sort(GroupLe, GroupsOf(Grouped(Signals(batch))));
    BatchWorkingSet(batch.batchId, batch.partition, batch.trigger, groups, AffectedCases(groups), ObservedKeys(groups))
  }

  predicate DistinctEventIds(events: seq<Event>) {
    forall i, j :: 0 <= i < j < |events| ==> events[i].eventId != events[j].eventId
  }

  lemma SortedAlike(events: seq<Event>, events': seq<Event>)
    requires multiset(events') == multiset(events) && DistinctEventIds(events)
    ensures Sort(EventLe, events') == Sort(EventLe, events)
  {
    EventLeOrder();
    SortSorted(EventLe, events);
    SortSorted(EventLe, events');
    NoTiedEvents(events, Sort(EventLe, events));
    SortedUnique(EventLe, Sort(EventLe, events), Sort(EventLe, events'));
  }

  /** Events with the same time and id are the same event. */
  lemma NoTiedEvents(events: seq<Event>, sorted: seq<Event>)
    requires multiset(sorted) == multiset(events) && DistinctEventIds(events)
    ensures NoTies(EventLe, sorted)
  {
    StringLeOrder();
    forall x, y | x in sorted && y in sorted && EventLe(x, y) && EventLe(y, x) ensures x == y {
      assert x in multiset(events) && y in multiset(events);
      assert x.eventId == y.eventId;
    }
  }

  /** Main result: the order in which a batch lists its events does not matter. */
  lemma OrderInsensitive(batch: Batch, events: seq<Event>)
    requires multiset(events) == multiset(batch.events) && DistinctEventIds(batch.events)
    ensures WorkingSetOf(batch.(events := events)) == WorkingSetOf(batch)
  {
    hide Sort, NormalizeAll, DistinctEventIds, Grouped, GroupsOf, AffectedCases, ObservedKeys;
    SortedAlike(batch.events, events);
  }

  lemma GroupsSnoc(grouped: seq<Stream>, s: Stream)
    ensures GroupsOf(grouped + [s]) == GroupsOf(grouped) + [GroupOf(s)]
  {
    hide GroupOf;
  }

  lemma GroupsOfIn(grouped: seq<Stream>, g: Group)
    ensures g in GroupsOf(grouped) <==> exists s :: s in grouped && g == GroupOf(s)
  {
    hide GroupOf;
    var groups := GroupsOf(grouped);
    if g in groups {
      var i :| 0 <= i < |grouped| && g == groups[i];
      assert grouped[i] in grouped;
    }
    if s :| s in grouped && g == GroupOf(s) {
      var i :| 0 <= i < |grouped| && grouped[i] == s;
      assert groups[i] == g;
    }
  }

  lemma GroupsFromStreams(grouped: seq<Stream>)
    ensures forall g :: g in Sort(GroupLe, GroupsOf(grouped)) <==> exists s :: s in grouped && g == GroupOf(s)
  {
    hide GroupOf, GroupsOf, Sort, GroupLe;
    GroupLeOrder();
    SortSorted(GroupLe, GroupsOf(grouped));
    var groups := GroupsOf(grouped);
    forall g ensures g in Sort(GroupLe, groups) <==> exists s :: s in grouped && g == GroupOf(s) {
      GroupsOfIn(grouped, g);
      assert g in multiset(Sort(GroupLe, groups)) <==> g in multiset(groups);
    }
  }

  lemma GroupComplete(batch: Batch, g: Group)
    requires g in WorkingSetOf(batch).groups
    ensures EventsOf(g.resource, Signals(batch)) != [] && Summarises(g, EventsOf(g.resource, Signals(batch)))
  {
    hide Signals, EventsOf, Summarises, Sort, Collapse;
    var signals := Signals(batch);
    SignalsSorted(batch);
    GroupedPartitions(signals);
    GroupsFromStreams(Grouped(signals));
    var s :| s in Grouped(signals) && g == GroupOf(s);
    EventsOfKeepsOrder(g.resource, signals);
    GroupSummarises(s);
  }

  lemma EventGrouped(batch: Batch, e: Event)
    requires e in batch.events
    ensures exists g :: g in WorkingSetOf(batch).groups && g.resource == ResourceOf(Normalize(e))
  {
    var signals, r := Signals(batch), ResourceOf(Normalize(e));
    EventSignalled(batch, e);
    EventsOfMembers(r, signals);
    assert Normalize(e) in EventsOf(r, signals);
    hide Signals, EventsOf, Sort, Collapse, Normalize;
    GroupedPartitions(signals);
    GroupsFromStreams(Grouped(signals));
    var s := Stream(r, EventsOf(r, signals));
    assert s in Grouped(signals);
    assert GroupOf(s) in WorkingSetOf(batch).groups && GroupOf(s).resource == r;
  }

  lemma EventSignalled(batch: Batch, e: Event)
    requires e in batch.events
    ensures Normalize(e) in Signals(batch)
  {
    EventLeOrder();
    SortSorted(EventLe, batch.events);
    var sorted := Sort(EventLe, batch.events);
    assert e in multiset(sorted);
    var i :| 0 <= i < |sorted| && sorted[i] == e;
    assert Signals(batch)[i] == Normalize(e);
  }

  /** Main result: every group reports exactly what the batch says about its resource, and no resource is lost. */
  lemma WorkingSetComplete(batch: Batch)
    ensures forall g :: g in WorkingSetOf(batch).groups ==>
              var events := EventsOf(g.resource, Signals(batch));
              events != [] && Summarises(g, events)
    ensures forall e :: e in batch.events ==>
              exists g :: g in WorkingSetOf(batch).groups && g.resource == ResourceOf(Normalize(e))
  {
    hide WorkingSetOf, Signals, EventsOf, Summarises, Normalize, ResourceOf;
    forall g | g in WorkingSetOf(batch).groups
      ensures EventsOf(g.resource, Signals(batch)) != [] && Summarises(g, EventsOf(g.resource, Signals(batch)))
    {
      GroupComplete(batch, g);
    }
    forall e | e in batch.events
      ensures exists g :: g in WorkingSetOf(batch).groups && g.resource == ResourceOf(Normalize(e))
    {
      EventGrouped(batch, e);
    }
  }

  // ----- the working set in terms of the batch

  predicate IsAbout(r: Resource, e: Event) {
    e.partition == r.partition && e.resourceType == r.resourceType && e.resourceId == r.resourceId
  }

  /** An event of the batch about the resource. */
  predicate Concerns(batch: Batch, r: Resource, e: Event) {
    e in batch.events && IsAbout(r, e)
  }

  /** The entry under the key that the others of the same event cannot replace names the value. */
  ghost predicate Observes(facets: seq<Field>, key: string, v: string) {
    && key != ""
    && exists i :: 0 <= i < |facets| && Strip(facets[i].key) == key && Reads(facets[i].values, v)
         && forall j :: i < j < |facets| && Strip(facets[j].key) == key ==> AllBlank(facets[j].values)
  }

  lemma {:induction false} NormalizedObserves(facets: seq<Field>, key: string, v: string)
    ensures (key, v) in Pairs(NormalizeFacets(facets)) <==> Observes(facets, key, v)
  {
    hide Pairs, Items, Strip, MergeStringLists, IsDict, Reads, AllBlank;
    NormalizeFacetsIsDict(facets);
    PairsLookup(NormalizeFacets(facets), key, v);
    if facets == [] {
      ReadsItems([], v);
      ReadsNothing(v);
    } else {
      var front, f := facets[..|facets| - 1], facets[|facets| - 1];
      assert facets == front + [f];
      NormalizeFacetsIsDict(front);
      PairsLookup(NormalizeFacets(front), key, v);
      NormalizedObserves(front, key, v);
      LookupPut(NormalizeFacets(front), Strip(f.key), MergeStringLists([], f.values), key);
      ReadsItems(f.values, v);
      BlankReads(f.values, v);
      ObservesSnoc(front, f, key, v);
    }
  }

  lemma ObservesSnoc(facets: seq<Field>, f: Field, key: string, v: string)
    ensures Observes(facets + [f], key, v) <==>
              if key != "" && Strip(f.key) == key && !AllBlank(f.values) then Reads(f.values, v)
              else Observes(facets, key, v)
  {
    hide Reads, AllBlank, Strip;
    BlankReads(f.values, v);
    var more := facets + [f];
    assert more[|facets|] == f && forall i :: 0 <= i < |facets| ==> more[i] == facets[i];
    if Observes(facets, key, v) && !(Strip(f.key) == key && !AllBlank(f.values)) {
      var i :| 0 <= i < |facets| && Strip(facets[i].key) == key && Reads(facets[i].values, v)
        && forall j :: i < j < |facets| && Strip(facets[j].key) == key ==> AllBlank(facets[j].values);
      assert more[i] == facets[i];
    }
  }

  /** The stream of a resource consists of the normalised events about it. */
  lemma StreamMembers(batch: Batch, r: Resource)
    ensures forall e :: Concerns(batch, r, e) ==> Normalize(e) in EventsOf(r, Signals(batch))
    ensures forall n :: n in EventsOf(r, Signals(batch)) ==> exists e :: Concerns(batch, r, e) && Normalize(e) == n
  {
    EventsOfMembers(r, Signals(batch));
    forall e | Concerns(batch, r, e) ensures Normalize(e) in EventsOf(r, Signals(batch)) {
      EventSignalled(batch, e);
    }
    forall n | n in EventsOf(r, Signals(batch)) ensures exists e :: Concerns(batch, r, e) && Normalize(e) == n {
      var e := SignalFrom(batch, n);
      assert Concerns(batch, r, e);
    }
  }

  lemma SignalFrom(batch: Batch, n: NormalizedEvent) returns (e: Event)
    requires n in Signals(batch)
    ensures e in batch.events && Normalize(e) == n
  {
    EventLeOrder();
    SortSorted(EventLe, batch.events);
    var sorted := Sort(EventLe, batch.events);
    var i :| 0 <= i < |Signals(batch)| && Signals(batch)[i] == n;
    e := sorted[i];
    assert e in multiset(sorted);
  }

  /** What the normalised form of an event says about it. */
  lemma NormalizedSays(e: Event)
    ensures var n := Normalize(e);
            && n.eventId == e.eventId && n.eventType == e.eventType && n.occurredAt == e.occurredAt
            && n.changedFields == e.changedFields && n.fieldChanges == e.fieldChanges
            && (n.changeKind == Create <==> Strip(e.changeKind) == "create")
            && (n.changeKind == Update <==> Strip(e.changeKind) == "update")
            && (n.changeKind == Delete <==> Strip(e.changeKind) == "delete")
            && n.priority == (if e.resourceType == "partition" then 10 else if Strip(e.changeKind) == "delete" then 20
                 else if Strip(e.changeKind) == "create" then 30 else 50)
            && (forall x :: x in FieldsOf(n) <==> Reads(e.changedFields, x))
            && (forall x :: x in RefsOf(n) <==> Reads(e.relatedTargets, x))
            && forall key, v :: (key, v) in PairsOf(n) <==> Observes(e.observedFacets, key, v)
  {
    hide Strip, Reads, Observes, MergeStringLists, NormalizeFacets, Items, Pairs;
    forall x ensures x in Items(e.changedFields) <==> Reads(e.changedFields, x) {
      ReadsItems(e.changedFields, x);
    }
    forall x ensures x in Items(MergeStringLists([], e.relatedTargets)) <==> Reads(e.relatedTargets, x) {
      ReadsItems(e.relatedTargets, x);
    }
    forall key, v
      ensures (key, v) in Pairs(NormalizeFacets(e.observedFacets)) <==> Observes(e.observedFacets, key, v)
    {
      NormalizedObserves(e.observedFacets, key, v);
    }
  }

  lemma {:induction false} MinPriorityIs(events: seq<NormalizedEvent>)
    requires events != []
    ensures forall e :: e in events ==> MinPriority(events) <= e.priority
    ensures exists e :: e in events && MinPriority(events) == e.priority
  {
    hide MinPriority;
    var front, last := events[..|events| - 1], events[|events| - 1];
    assert events == front + [last];
    SnocBounds(front, last);
    var least := last;
    if front != [] {
      MinPriorityIs(front);
      var e :| e in front && MinPriority(front) == e.priority;
      least := if e.priority < last.priority then e else last;
    }
    assert least in events && MinPriority(events) == least.priority;
    forall e | e in events ensures MinPriority(events) <= e.priority {
      assert e in front || e == last;
    }
  }

  lemma {:induction false} LatestIs(events: seq<NormalizedEvent>)
    requires events != []
    ensures forall e :: e in events ==> Time(e) <= LatestAt(events).GetOr(0)
    ensures exists e :: e in events && Time(e) == LatestAt(events).GetOr(0)
  {
    hide LatestAt;
    var front, last := events[..|events| - 1], events[|events| - 1];
    assert events == front + [last] && last in events;
    SnocBounds(front, last);
    if front == [] {
      NoLatest();
    } else {
      LatestIs(front);
      var e :| e in front && Time(e) == LatestAt(front).GetOr(0);
      assert e in events;
    }
  }

  lemma NoLatest()
    ensures LatestAt([]) == None
  {
  }

  lemma {:induction false} MergedClean(events: seq<NormalizedEvent>)
    ensures IsClean(MergedFields(events)) && IsClean(MergedRefs(events))
  {
    if events != [] {
      hide IsClean;
      MergedClean(events[..|events| - 1]);
      MergeClean(MergedFields(events[..|events| - 1]), events[|events| - 1].changedFields);
      MergeClean(MergedRefs(events[..|events| - 1]), events[|events| - 1].relatedRefs);
    } else {
      assert IsClean([]);
    }
  }

  lemma CleanItems(values: seq<string>)
    requires IsClean(values)
    ensures forall x :: x in values <==> x in Items(values)
  {
    forall x | x in values ensures Strip(x) == x {
      StripIdentity(x);
    }
  }

  lemma UnionMembers<T>(f: NormalizedEvent -> set<T>, events: seq<NormalizedEvent>)
    ensures forall x :: x in Union(f, events) <==> exists e :: e in events && x in f(e)
  {
    forall x ensures x in Union(f, events) <==> exists e :: e in events && x in f(e) {
      if e :| e in events && x in f(e) {
        var i :| 0 <= i < |events| && events[i] == e;
      }
      if x in Union(f, events) {
        var i :| 0 <= i < |events| && x in f(events[i]);
        assert events[i] in events;
      }
    }
  }

  /** A group and the normalised events of its resource. */
  lemma GroupFrom(batch: Batch, g: Group)
    requires g in WorkingSetOf(batch).groups
    ensures var events := EventsOf(g.resource, Signals(batch));
            && events != [] && Chronological(events) && WellFormed(events) && g == GroupOf(Stream(g.resource, events))
            && Summarises(g, events)
  {
    hide Signals, EventsOf, Summarises, Sort, Collapse;
    var signals := Signals(batch);
    SignalsSorted(batch);
    GroupedPartitions(signals);
    GroupsFromStreams(Grouped(signals));
    var s :| s in Grouped(signals) && g == GroupOf(s);
    EventsOfKeepsOrder(g.resource, signals);
    GroupSummarises(s);
    assert s == Stream(g.resource, EventsOf(g.resource, signals));
  }

  lemma GroupNames(batch: Batch, g: Group)
    requires g in WorkingSetOf(batch).groups
    ensures g.groupId == g.resource.partition + ":" + g.resource.resourceType + ":" + g.resource.resourceId
    ensures exists e :: Concerns(batch, g.resource, e)
    ensures IsClean(g.changedFields) && IsClean(g.relatedRefs) && IsDict(g.observedFacets)
  {
    hide Signals, EventsOf, Summarises, Sort, Collapse, Normalize, IsClean, WorkingSetOf, MergedFields, MergedRefs;
    hide MergedFacets, IsDict, MinPriority, LatestAt, EventIds;
    var events := EventsOf(g.resource, Signals(batch));
    GroupFrom(batch, g);
    StreamMembers(batch, g.resource);
    assert events[0] in events;
    MergedClean(Collapse(events));
    MergedFacetPairs(Collapse(events));
  }

  lemma GroupSets(batch: Batch, g: Group)
    requires g in WorkingSetOf(batch).groups
    ensures forall x :: x in g.changedFields <==>
              exists e :: Concerns(batch, g.resource, e) && Reads(e.changedFields, x)
    ensures forall x :: x in g.relatedRefs <==> exists e :: Concerns(batch, g.resource, e) && Reads(e.relatedTargets, x)
    ensures forall key, v :: (key, v) in Pairs(g.observedFacets) <==>
              exists e :: Concerns(batch, g.resource, e) && Observes(e.observedFacets, key, v)
  {
    hide Signals, EventsOf, Sort, Collapse, Normalize, IsClean, WorkingSetOf, GroupOf, MinPriority, LatestAt;
    hide Reads, Observes, FieldsOf, RefsOf, PairsOf, Union, Items, Pairs, Concerns;
    var events := EventsOf(g.resource, Signals(batch));
    GroupFrom(batch, g);
    GroupNames(batch, g);
    CleanItems(g.changedFields);
    CleanItems(g.relatedRefs);
    StreamMembers(batch, g.resource);
    UnionMembers(FieldsOf, events);
    UnionMembers(RefsOf, events);
    UnionMembers(PairsOf, events);
    forall e: Event ensures forall x :: x in FieldsOf(Normalize(e)) <==> Reads(e.changedFields, x) {
      NormalizedSays(e);
    }
    forall e: Event ensures forall x :: x in RefsOf(Normalize(e)) <==> Reads(e.relatedTargets, x) {
      NormalizedSays(e);
    }
    forall e: Event
      ensures forall key, v :: (key, v) in PairsOf(Normalize(e)) <==> Observes(e.observedFacets, key, v)
    {
      NormalizedSays(e);
    }
  }

  lemma KindsAre(batch: Batch, r: Resource, kind: Kind, text: string)
    requires (kind == Create && text == "create") || (kind == Update && text == "update")
              || (kind == Delete && text == "delete")
    ensures HasKind(EventsOf(r, Signals(batch)), kind) <==>
              exists e :: Concerns(batch, r, e) && Strip(e.changeKind) == text
  {
    hide Signals, EventsOf, Normalize, Strip, Concerns;
    var events := EventsOf(r, Signals(batch));
    StreamMembers(batch, r);
    if HasKind(events, kind) {
      var i :| 0 <= i < |events| && events[i].changeKind == kind;
      assert events[i] in events;
      var e :| Concerns(batch, r, e) && Normalize(e) == events[i];
      NormalizedSays(e);
    }
    if e :| Concerns(batch, r, e) && Strip(e.changeKind) == text {
      NormalizedSays(e);
      var i :| 0 <= i < |events| && events[i] == Normalize(e);
    }
  }

  lemma GroupBounds(batch: Batch, g: Group)
    requires g in WorkingSetOf(batch).groups
    ensures g.priority ==
              if g.resource.resourceType == "partition" then 10
              else if exists e :: Concerns(batch, g.resource, e) && Strip(e.changeKind) == "delete" then 20
              else if exists e :: Concerns(batch, g.resource, e) && Strip(e.changeKind) == "create" then 30 else 50
    ensures forall e :: Concerns(batch, g.resource, e) ==> e.occurredAt.GetOr(0) <= g.latestEventAt.GetOr(0)
    ensures exists e :: Concerns(batch, g.resource, e) && e.occurredAt.GetOr(0) == g.latestEventAt.GetOr(0)
  {
    hide Signals, EventsOf, Sort, Collapse, Normalize, WorkingSetOf, GroupOf, MinPriority, LatestAt, Strip;
    hide Reads, Observes, FieldsOf, RefsOf, PairsOf, Union, Items, Pairs;
    var events := EventsOf(g.resource, Signals(batch));
    GroupFrom(batch, g);
    StreamMembers(batch, g.resource);
    MinPriorityIs(events);
    LatestIs(events);
    forall e: Event ensures Normalize(e).occurredAt == e.occurredAt {
      NormalizedSays(e);
    }
    forall e: Event
      ensures Normalize(e).priority == if e.resourceType == "partition" then 10
                else if Strip(e.changeKind) == "delete" then 20 else if Strip(e.changeKind) == "create" then 30 else 50
    {
      NormalizedSays(e);
    }
  }

  /** Main result: what a group reports, in terms of the events of the batch about its resource. */
  lemma GroupReports(batch: Batch, g: Group)
    requires g in WorkingSetOf(batch).groups
    ensures exists e :: Concerns(batch, g.resource, e)
    ensures g.groupId == g.resource.partition + ":" + g.resource.resourceType + ":" + g.resource.resourceId
    ensures forall x :: x in g.changedFields <==>
              exists e :: Concerns(batch, g.resource, e) && Reads(e.changedFields, x)
    ensures forall x :: x in g.relatedRefs <==> exists e :: Concerns(batch, g.resource, e) && Reads(e.relatedTargets, x)
    ensures forall key, v :: (key, v) in Pairs(g.observedFacets) <==>
              exists e :: Concerns(batch, g.resource, e) && Observes(e.observedFacets, key, v)
    ensures g.priority ==
              if g.resource.resourceType == "partition" then 10
              else if exists e :: Concerns(batch, g.resource, e) && Strip(e.changeKind) == "delete" then 20
              else if exists e :: Concerns(batch, g.resource, e) && Strip(e.changeKind) == "create" then 30 else 50
    ensures g.isCancelledOut <==>
              && (exists e :: Concerns(batch, g.resource, e) && Strip(e.changeKind) == "create")
              && (exists e :: Concerns(batch, g.resource, e) && Strip(e.changeKind) == "delete")
              && !exists e :: Concerns(batch, g.resource, e) && Strip(e.changeKind) == "update"
    ensures forall e :: Concerns(batch, g.resource, e) ==> e.occurredAt.GetOr(0) <= g.latestEventAt.GetOr(0)
    ensures exists e :: Concerns(batch, g.resource, e) && e.occurredAt.GetOr(0) == g.latestEventAt.GetOr(0)
  {
    hide WorkingSetOf, Signals, EventsOf, Strip, Reads, Observes, Pairs, Concerns, Collapse, MinPriority, LatestAt;
    hide GroupOf, HasKind, Union, Items;
    GroupNames(batch, g);
    GroupSets(batch, g);
    GroupBounds(batch, g);
    GroupFrom(batch, g);
    KindsAre(batch, g.resource, Create, "create");
    KindsAre(batch, g.resource, Update, "update");
    KindsAre(batch, g.resource, Delete, "delete");
  }

  // ----- the events a group keeps

  function About(events: seq<Event>, r: Resource): seq<Event> {
    if events == [] then [] else
    About(events[..|events| - 1], r) + (if IsAbout(r, events[|events| - 1]) then [events[|events| - 1]] else [])
  }

  lemma {:induction false} AboutStream(events: seq<Event>, r: Resource)
    ensures EventsOf(r, NormalizeAll(events)) == NormalizeAll(About(events, r))
  {
    if events != [] {
      hide Normalize;
      var front, e := events[..|events| - 1], events[|events| - 1];
      AboutStream(front, r);
      NormalizedResource(e);
      assert NormalizeAll(events)[..|events| - 1] == NormalizeAll(front);
    }
  }

  lemma NormalizedResource(e: Event)
    ensures ResourceOf(Normalize(e)) == Resource(e.partition, e.resourceType, e.resourceId)
  {
    hide Strip, MergeStringLists, NormalizeFacets;
  }

  lemma {:induction false} AboutIs(events: seq<Event>, r: Resource, e: Event)
    ensures multiset(About(events, r))[e] == if IsAbout(r, e) then multiset(events)[e] else 0
  {
    if events != [] {
      var front, last := events[..|events| - 1], events[|events| - 1];
      assert events == front + [last];
      AboutIs(front, r, e);
    }
  }

  lemma {:induction false} AboutSorted(events: seq<Event>, r: Resource)
    requires SortedBy(EventLe, events)
    ensures SortedBy(EventLe, About(events, r))
    ensures forall e :: e in About(events, r) ==> e in events
  {
    if events != [] {
      hide EventLe;
      var front, last := events[..|events| - 1], events[|events| - 1];
      assert events == front + [last];
      AboutSorted(front, r);
      forall i | 0 <= i < |About(front, r)| ensures EventLe(About(front, r)[i], last) {
        assert About(front, r)[i] in front;
        var j :| 0 <= j < |front| && front[j] == About(front, r)[i];
        assert events[j] == front[j];
      }
    }
  }

  /** An update or a delete joins the create or update right before it. */
  predicate Follows(before: Event, e: Event) {
    && (Strip(before.changeKind) == "create" || Strip(before.changeKind) == "update")
    && (Strip(e.changeKind) == "update" || Strip(e.changeKind) == "delete")
  }

  /** Stretch k is not empty, and its last event has the id. */
  predicate EndsStretch(raw: seq<Event>, cuts: seq<nat>, k: nat, id: string) {
    k < |cuts| - 1 && cuts[k] < cuts[k + 1] <= |raw| && raw[cuts[k + 1] - 1].eventId == id
  }

  /**
    Main result: the events of a resource in chronological order, ties by id, are cut wherever one does not follow the
    one before it, and the group names the last event of each stretch.
   */
  lemma GroupEventIds(batch: Batch, g: Group) returns (raw: seq<Event>, cuts: seq<nat>)
    requires g in WorkingSetOf(batch).groups
    ensures forall e :: multiset(raw)[e] == if IsAbout(g.resource, e) then multiset(batch.events)[e] else 0
    ensures forall i, j :: 0 <= i < j < |raw| ==>
              || raw[i].occurredAt.GetOr(0) < raw[j].occurredAt.GetOr(0)
              || (raw[i].occurredAt.GetOr(0) == raw[j].occurredAt.GetOr(0)
                  && StringLe(raw[i].eventId, raw[j].eventId))
    ensures |cuts| == |g.eventIds| + 1 && cuts[0] == 0 && cuts[|cuts| - 1] == |raw|
    ensures forall i :: 0 < i < |raw| ==> (i in cuts <==> !Follows(raw[i - 1], raw[i]))
    ensures forall k :: 0 <= k < |g.eventIds| ==> EndsStretch(raw, cuts, k, g.eventIds[k])
  {
    hide Sort, Collapse, Normalize, Strip, EventLe, WorkingSetOf, Signals;
    EventLeOrder();
    SortSorted(EventLe, batch.events);
    var sorted := Sort(EventLe, batch.events);
    raw := About(sorted, g.resource);
    forall e ensures multiset(raw)[e] == if IsAbout(g.resource, e) then multiset(batch.events)[e] else 0 {
      AboutIs(sorted, g.resource, e);
    }
    AboutSorted(sorted, g.resource);
    forall i, j | 0 <= i < j < |raw|
      ensures || raw[i].occurredAt.GetOr(0) < raw[j].occurredAt.GetOr(0)
              || (raw[i].occurredAt.GetOr(0) == raw[j].occurredAt.GetOr(0)
                  && StringLe(raw[i].eventId, raw[j].eventId))
    {
      EventLeSays(raw[i], raw[j]);
    }
    cuts := StreamCuts(batch, g, raw);
  }

  lemma EventLeSays(a: Event, b: Event)
    requires EventLe(a, b)
    ensures || a.occurredAt.GetOr(0) < b.occurredAt.GetOr(0)
            || (a.occurredAt.GetOr(0) == b.occurredAt.GetOr(0) && StringLe(a.eventId, b.eventId))
  {
  }

  lemma SignalsAre(batch: Batch)
    ensures Signals(batch) == NormalizeAll(Sort(EventLe, batch.events))
  {
  }

  lemma StreamCuts(batch: Batch, g: Group, raw: seq<Event>) returns (cuts: seq<nat>)
    requires g in WorkingSetOf(batch).groups && raw == About(Sort(EventLe, batch.events), g.resource)
    ensures |cuts| == |g.eventIds| + 1 && cuts[0] == 0 && cuts[|cuts| - 1] == |raw|
    ensures forall i :: 0 < i < |raw| ==> (i in cuts <==> !Follows(raw[i - 1], raw[i]))
    ensures forall k :: 0 <= k < |g.eventIds| ==> EndsStretch(raw, cuts, k, g.eventIds[k])
  {
    hide Sort, Collapse, Normalize, Strip, EventLe, WorkingSetOf, Signals, Summarises, MergedFields, MergedRefs;
    hide MergedFacets, LatestAt, MinPriority, About, StandForAll, EventIds;
    SignalsAre(batch);
    AboutStream(Sort(EventLe, batch.events), g.resource);
    GroupFrom(batch, g);
    var events := NormalizeAll(raw);
    cuts := CollapseSegments(events);
    SegmentIds(raw, Collapse(events), cuts);
    forall i | 0 < i < |raw| ensures i in cuts <==> !Follows(raw[i - 1], raw[i]) {
      JoinedFollows(raw, i);
    }
  }

  lemma SegmentIds(raw: seq<Event>, c: seq<NormalizedEvent>, cuts: seq<nat>)
    requires StandForAll(c, NormalizeAll(raw), cuts)
    ensures |cuts| == |EventIds(c)| + 1
    ensures forall k :: 0 <= k < |EventIds(c)| ==> EndsStretch(raw, cuts, k, EventIds(c)[k])
  {
    hide StandsFor, Normalize;
    forall k | 0 <= k < |EventIds(c)| ensures EndsStretch(raw, cuts, k, EventIds(c)[k]) {
      LastId(c[k], raw, cuts[k], cuts[k + 1]);
    }
  }

  lemma LastId(c: NormalizedEvent, raw: seq<Event>, first: nat, end: nat)
    requires first < end <= |raw| && StandsFor(c, NormalizeAll(raw)[first..end])
    ensures c.eventId == raw[end - 1].eventId
  {
    hide Strip, Union, Items, Pairs, LastChanges, MergeStringLists, NormalizeFacets;
    var segment := NormalizeAll(raw)[first..end];
    assert segment[|segment| - 1] == Normalize(raw[end - 1]);
  }

  lemma JoinedFollows(raw: seq<Event>, i: int)
    requires 0 < i < |raw|
    ensures Joined(NormalizeAll(raw), i) <==> Follows(raw[i - 1], raw[i])
  {
    hide Strip, Normalize;
    NormalizedSays(raw[i - 1]);
    NormalizedSays(raw[i]);
  }

  // ----- the batch as a whole

  lemma {:induction false} AffectedAre(groups: seq<Group>)
    ensures Distinct(AffectedCases(groups))
    ensures forall id :: id in AffectedCases(groups) <==>
              exists g :: g in groups && g.resource.resourceType == "case" && g.resource.resourceId == id
  {
    if groups != [] {
      var front, last := groups[..|groups| - 1], groups[|groups| - 1];
      assert groups == front + [last];
      AffectedAre(front);
      assert forall g :: g in groups <==> g in front || g == last;
    }
  }

  /** The first group of the case with the id is at a. */
  predicate FirstCase(groups: seq<Group>, id: string, a: int) {
    && 0 <= a < |groups| && groups[a].resource.resourceType == "case" && groups[a].resource.resourceId == id
    && forall b :: 0 <= b < a ==> !(groups[b].resource.resourceType == "case" && groups[b].resource.resourceId == id)
  }

  /** Affected cases are listed in the order of their first groups. */
  lemma {:induction false} AffectedInOrder(groups: seq<Group>, i: int, j: int, a: int, b: int)
    requires 0 <= i < j < |AffectedCases(groups)|
    requires FirstCase(groups, AffectedCases(groups)[i], a) && FirstCase(groups, AffectedCases(groups)[j], b)
    ensures a < b
  {
    var front, last := groups[..|groups| - 1], groups[|groups| - 1];
    assert groups == front + [last];
    AffectedAre(front);
    var before, after := AffectedCases(front), AffectedCases(groups);
    if j < |before| {
      FirstBefore(front, last, before[i], a);
      FirstBefore(front, last, before[j], b);
      AffectedInOrder(front, i, j, a, b);
    } else {
      FirstBefore(front, last, before[i], a);
      assert b == |front|;
    }
  }

  lemma FirstBefore(groups: seq<Group>, last: Group, id: string, a: int)
    requires id in AffectedCases(groups) && FirstCase(groups + [last], id, a)
    ensures FirstCase(groups, id, a)
  {
    AffectedAre(groups);
    var g :| g in groups && g.resource.resourceType == "case" && g.resource.resourceId == id;
    var k :| 0 <= k < |groups| && groups[k] == g;
    assert (groups + [last])[k] == g;
    assert forall b :: 0 <= b < |groups| ==> (groups + [last])[b] == groups[b];
  }

  lemma {:induction false} AppendNewIs(existing: seq<string>, incoming: seq<string>)
    requires Distinct(existing)
    ensures Distinct(AppendNew(existing, incoming))
    ensures forall x :: x in AppendNew(existing, incoming) <==> x in existing || x in incoming
  {
    if incoming != [] {
      var front, last := incoming[..|incoming| - 1], incoming[|incoming| - 1];
      assert incoming == front + [last];
      AppendNewIs(existing, front);
    }
  }

  lemma {:induction false} ObservedAre(groups: seq<Group>)
    ensures Distinct(ObservedKeys(groups))
    ensures forall k :: k in ObservedKeys(groups) <==>
              exists g :: g in groups && exists f :: f in g.observedFacets && f.key == k
  {
    if groups != [] {
      hide AppendNew, Distinct;
      var front, last := groups[..|groups| - 1], groups[|groups| - 1];
      assert groups == front + [last];
      ObservedAre(front);
      AppendNewIs(ObservedKeys(front), FacetKeys(last.observedFacets));
      FacetKeysAre(last.observedFacets);
      assert forall g :: g in groups <==> g in front || g == last;
    } else {
      assert Distinct<string>([]);
    }
  }

  lemma FacetKeysAre(facets: seq<Field>)
    ensures forall k :: k in FacetKeys(facets) <==> exists f :: f in facets && f.key == k
  {
    forall k ensures k in FacetKeys(facets) <==> exists f :: f in facets && f.key == k {
      if k in FacetKeys(facets) {
        var i :| 0 <= i < |facets| && FacetKeys(facets)[i] == k;
        assert facets[i] in facets;
      }
      if f :| f in facets && f.key == k {
        var i :| 0 <= i < |facets| && facets[i] == f;
        assert FacetKeys(facets)[i] == k;
      }
    }
  }

  /** Main result: the working set in terms of the batch. */
  lemma WorkingSetReports(batch: Batch)
    ensures var ws := WorkingSetOf(batch);
            && ws.batchId == batch.batchId && ws.partition == batch.partition && ws.trigger == batch.trigger
            && (forall i, j :: 0 <= i < j < |ws.groups| ==> InOrder(ws.groups[i], ws.groups[j]))
            && (forall e :: e in batch.events ==> exists g :: g in ws.groups && IsAbout(g.resource, e))
            && Distinct(ws.affectedCaseIds) && Distinct(ws.observedFacetKeys)
            && (forall id :: id in ws.affectedCaseIds <==>
                  exists e :: e in batch.events && e.resourceType == "case" && e.resourceId == id)
            && (forall k :: k in ws.observedFacetKeys <==>
                  exists e, v :: e in batch.events && Observes(e.observedFacets, k, v))
            && (forall i, j, a, b ::
                  0 <= i < j < |ws.affectedCaseIds| && FirstCase(ws.groups, ws.affectedCaseIds[i], a)
                  && FirstCase(ws.groups, ws.affectedCaseIds[j], b) ==>
                    a < b)
  {
    hide WorkingSetOf, Signals, Concerns, Observes, Distinct, FirstCase, InOrder;
    GroupsOrdered(batch);
    AffectedReport(batch);
    ObservedReport(batch);
    forall e | e in batch.events ensures exists g :: g in WorkingSetOf(batch).groups && IsAbout(g.resource, e) {
      GroupAbout(batch, e);
    }
  }

  /** Ascending priority, then latest time, then group id; no resource has two groups. */
  predicate InOrder(a: Group, b: Group) {
    && a.resource != b.resource
    && (|| a.priority < b.priority
        || (a.priority == b.priority
            && (|| a.latestEventAt.GetOr(0) < b.latestEventAt.GetOr(0)
                || (a.latestEventAt.GetOr(0) == b.latestEventAt.GetOr(0) && StringLe(a.groupId, b.groupId)))))
  }

  lemma GroupAbout(batch: Batch, e: Event)
    requires e in batch.events
    ensures exists g :: g in WorkingSetOf(batch).groups && IsAbout(g.resource, e)
  {
    hide WorkingSetOf, Normalize;
    EventGrouped(batch, e);
    NormalizedResource(e);
  }

  lemma GroupsOrdered(batch: Batch)
    ensures var ws := WorkingSetOf(batch);
            && ws.batchId == batch.batchId && ws.partition == batch.partition && ws.trigger == batch.trigger
            && forall i, j :: 0 <= i < j < |ws.groups| ==> InOrder(ws.groups[i], ws.groups[j])
  {
    hide Signals, GroupsOf, AffectedCases, ObservedKeys, Sort, Grouped, Distinct;
    var groups := GroupsOf(Grouped(Signals(batch)));
    GroupedPartitions(Signals(batch));
    GroupLeOrder();
    SortSorted(GroupLe, groups);
    OneGroupEach(Grouped(Signals(batch)));
    PermutedDistinct(groups, Sort(GroupLe, groups));
  }

  predicate OneGroupPerResource(groups: seq<Group>) {
    forall i, j :: 0 <= i < j < |groups| ==> groups[i].resource != groups[j].resource
  }

  lemma OneGroupEach(grouped: seq<Stream>)
    requires OnePerResource(grouped)
    ensures OneGroupPerResource(GroupsOf(grouped))
  {
  }

  lemma PermutedDistinct(groups: seq<Group>, sorted: seq<Group>)
    requires OneGroupPerResource(groups) && multiset(sorted) == multiset(groups)
    ensures OneGroupPerResource(sorted)
  {
    forall i, j | 0 <= i < j < |sorted| ensures sorted[i].resource != sorted[j].resource {
      var x, y := sorted[i], sorted[j];
      assert x in multiset(sorted) && y in multiset(sorted);
      var a :| 0 <= a < |groups| && groups[a] == x;
      var b :| 0 <= b < |groups| && groups[b] == y;
      if a == b {
        TwiceIn(sorted, i, j);
        OnceIn(groups, a);
      }
    }
  }

  lemma TwiceIn(groups: seq<Group>, i: int, j: int)
    requires 0 <= i < j < |groups| && groups[i] == groups[j]
    ensures multiset(groups)[groups[i]] >= 2
  {
    assert groups == groups[..j] + [groups[j]] + groups[j + 1..];
    assert groups[..j][i] == groups[i];
    assert groups[i] in multiset(groups[..j]);
  }

  lemma OnceIn(groups: seq<Group>, a: int)
    requires OneGroupPerResource(groups) && 0 <= a < |groups|
    ensures multiset(groups)[groups[a]] == 1
  {
    var before, after := groups[..a], groups[a + 1..];
    assert groups == before + [groups[a]] + after;
    assert groups[a] !in before && groups[a] !in after;
  }

  lemma WorkingSetParts(batch: Batch)
    ensures var ws := WorkingSetOf(batch);
            ws.affectedCaseIds == AffectedCases(ws.groups) && ws.observedFacetKeys == ObservedKeys(ws.groups)
  {
    hide Signals, Sort, GroupsOf, Grouped, AffectedCases, ObservedKeys;
  }

  lemma AffectedReport(batch: Batch)
    ensures var ws := WorkingSetOf(batch);
            && Distinct(ws.affectedCaseIds)
            && (forall id :: id in ws.affectedCaseIds <==>
                  exists e :: e in batch.events && e.resourceType == "case" && e.resourceId == id)
            && (forall i, j, a, b ::
                  0 <= i < j < |ws.affectedCaseIds| && FirstCase(ws.groups, ws.affectedCaseIds[i], a)
                  && FirstCase(ws.groups, ws.affectedCaseIds[j], b) ==>
                    a < b)
  {
    hide WorkingSetOf, Signals, AffectedCases, Distinct, FirstCase;
    var groups := WorkingSetOf(batch).groups;
    WorkingSetParts(batch);
    AffectedAre(groups);
    forall g | g in groups ensures exists e :: Concerns(batch, g.resource, e) {
      GroupNames(batch, g);
    }
    forall e | e in batch.events ensures exists g :: g in groups && IsAbout(g.resource, e) {
      GroupAbout(batch, e);
    }
    forall i, j, a, b | 0 <= i < j < |AffectedCases(groups)| && FirstCase(groups, AffectedCases(groups)[i], a)
                        && FirstCase(groups, AffectedCases(groups)[j], b)
      ensures a < b
    {
      AffectedInOrder(groups, i, j, a, b);
    }
  }

  lemma ObservedReport(batch: Batch)
    ensures var ws := WorkingSetOf(batch);
            && Distinct(ws.observedFacetKeys)
            && forall k :: k in ws.observedFacetKeys <==>
                 exists e, v :: e in batch.events && Observes(e.observedFacets, k, v)
  {
    hide WorkingSetOf, Signals, ObservedKeys, Distinct, Observes;
    var groups := WorkingSetOf(batch).groups;
    WorkingSetParts(batch);
    ObservedAre(groups);
    forall k ensures k in ObservedKeys(groups) <==>
                       exists e, v :: e in batch.events && Observes(e.observedFacets, k, v) {
      ObservedKey(batch, k);
    }
  }

  lemma ObservedKey(batch: Batch, k: string)
    ensures (exists g :: g in WorkingSetOf(batch).groups && exists f :: f in g.observedFacets && f.key == k) <==>
              exists e, v :: e in batch.events && Observes(e.observedFacets, k, v)
  {
    hide WorkingSetOf, Signals, Observes;
    var groups := WorkingSetOf(batch).groups;
    if g :| g in groups && exists f :: f in g.observedFacets && f.key == k {
      var f :| f in g.observedFacets && f.key == k;
      var v := GroupValue(batch, g, f);
      GroupSets(batch, g);
      assert (k, v) in Pairs(g.observedFacets);
    }
    if e, v :| e in batch.events && Observes(e.observedFacets, k, v) {
      GroupAbout(batch, e);
      var g :| g in groups && IsAbout(g.resource, e);
      GroupSets(batch, g);
      assert Concerns(batch, g.resource, e);
      PairsIn(g.observedFacets, k, v);
    }
  }

  /** A group lists no facet key without a value. */
  lemma GroupValue(batch: Batch, g: Group, f: Field) returns (v: string)
    requires g in WorkingSetOf(batch).groups && f in g.observedFacets
    ensures (f.key, v) in Pairs(g.observedFacets)
  {
    hide WorkingSetOf, Signals, MergedFacets, Collapse, Summarises, EventsOf, MergedFields, MergedRefs, LatestAt;
    hide Valued;
    GroupFrom(batch, g);
    var events := EventsOf(g.resource, Signals(batch));
    StreamMembers(batch, g.resource);
    forall n | n in events ensures Valued(n.observedFacets) {
      var e :| Concerns(batch, g.resource, e) && Normalize(e) == n;
      NormalizedValued(e.observedFacets);
    }
    CollapseValued(events);
    MergedValued(Collapse(events));
    v := ValuedPair(g.observedFacets, f);
  }

  /** Every key has a value that is not blank. */
  predicate Valued(facets: seq<Field>) {
    IsDict(facets) && forall f :: f in facets ==> Items(f.values) != {}
  }

  lemma ValuedPair(facets: seq<Field>, f: Field) returns (v: string)
    requires Valued(facets) && f in facets
    ensures (f.key, v) in Pairs(facets)
  {
    hide Items;
    v :| v in Items(f.values);
    PairsIn(facets, f.key, v);
  }

  lemma PutValued(facets: seq<Field>, key: string, values: seq<string>)
    requires Valued(facets) && Items(values) != {}
    ensures Valued(Put(facets, key, values))
  {
    hide Items;
    PutAt(facets, key, values);
  }

  lemma {:induction false} NormalizedValued(facets: seq<Field>)
    ensures Valued(NormalizeFacets(facets))
  {
    if facets != [] {
      hide Strip, Items, MergeStringLists, Valued, AllBlank;
      var front, f := facets[..|facets| - 1], facets[|facets| - 1];
      NormalizedValued(front);
      ReadsItems(f.values, "");
      BlankItems(f.values);
      if Strip(f.key) != "" && MergeStringLists([], f.values) != [] {
        PutValued(NormalizeFacets(front), Strip(f.key), MergeStringLists([], f.values));
      }
    }
  }

  lemma {:induction false} MergeFacetsValued(left: seq<Field>, right: seq<Field>)
    requires Valued(left) && Valued(right)
    ensures Valued(MergeFacets(left, right)) && Valued(AppendFacets(left, right))
    decreases |right|
  {
    if right != [] {
      hide Items, MergeStringLists, AppendNew, IsDict;
      var front, f := right[..|right| - 1], right[|right| - 1];
      assert f in right && forall g :: g in front ==> g in right;
      FrontIsDict(right);
      MergeFacetsValued(left, front);
      var merged, appended := MergeFacets(left, front), AppendFacets(left, front);
      MergeKeepsItems(Lookup(merged, f.key), f.values);
      AppendNewItems(Lookup(appended, f.key), f.values);
      PutValued(merged, f.key, MergeStringLists(Lookup(merged, f.key), f.values));
      PutValued(appended, f.key, AppendNew(Lookup(appended, f.key), f.values));
    }
  }

  lemma FrontIsDict(d: seq<Field>)
    requires d != [] && IsDict(d)
    ensures IsDict(d[..|d| - 1])
  {
  }

  lemma {:induction false} CollapseValued(events: seq<NormalizedEvent>)
    requires forall e :: e in events ==> Valued(e.observedFacets)
    ensures forall e :: e in Collapse(events) ==> Valued(e.observedFacets)
  {
    if events != [] {
      hide Valued, MergeFacets, MergeStringLists;
      var front, last := events[..|events| - 1], events[|events| - 1];
      assert events == front + [last] && last in events;
      CollapseValued(front);
      var c := Collapse(front);
      if c != [] {
        assert c[|c| - 1] in c;
        MergeFacetsValued(c[|c| - 1].observedFacets, last.observedFacets);
      }
      forall e | e in Collapse(events) ensures Valued(e.observedFacets) {
        assert e in c || e == last || (c != [] && e == Combine(c[|c| - 1], last));
      }
    }
  }

  lemma {:induction false} MergedValued(events: seq<NormalizedEvent>)
    requires forall e :: e in events ==> Valued(e.observedFacets)
    ensures Valued(MergedFacets(events))
  {
    if events != [] {
      hide Valued, AppendFacets;
      var front, last := events[..|events| - 1], events[|events| - 1];
      assert events == front + [last] && last in events;
      MergedValued(front);
      MergeFacetsValued(MergedFacets(front), last.observedFacets);
    } else {
      NothingValued();
    }
  }

  lemma NothingValued()
    ensures Valued([])
  {
  }

  // ----- the builder

  method NormalizeObservedFacets(facets: seq<Field>) returns (normalized: seq<Field>)
    ensures normalized == NormalizeFacets(facets)
  {
    normalized := [];
    for i := 0 to |facets|
      invariant normalized == NormalizeFacets(facets[..i])
    {
      assert facets[..i + 1][..i] == facets[..i];
      var key := Strip(facets[i].key);
      var values := MergeLists([], facets[i].values);
      if key == "" {
        continue;
      }
      if values != [] {
        normalized := Put(normalized, key, values);
      }
    }
    assert facets[..|facets|] == facets;
  }

  method ExtractEventSignals(batch: Batch) returns (normalizedEvents: seq<NormalizedEvent>)
    ensures normalizedEvents == Signals(batch)
  {
    hide Sort, MergeStringLists, NormalizeFacets, Strip, ParseKind;
    var sorted := Sort(EventLe, batch.events);
    normalizedEvents := [];
    for i := 0 to |sorted|
      invariant normalizedEvents == NormalizeAll(sorted[..i])
    {
      var e := sorted[i];
      var kind := ParseKind(Strip(e.changeKind));
      var refs := MergeLists([], e.relatedTargets);
      var facets := NormalizeObservedFacets(e.observedFacets);
      normalizedEvents := normalizedEvents + [NormalizedEvent(
        e.eventId, e.eventType, e.partition, e.resourceType, e.resourceId, kind, e.occurredAt, e.changedFields,
        e.fieldChanges, refs, facets, Priority(e.resourceType, kind))];
    }
    assert sorted[..|sorted|] == sorted;
  }

  method AppendValues(existing: seq<string>, values: seq<string>) returns (merged: seq<string>)
    ensures merged == AppendNew(existing, values)
  {
    merged := existing;
    for i := 0 to |values|
      invariant merged == AppendNew(existing, values[..i])
    {
      assert values[..i + 1][..i] == values[..i];
      if values[i] !in merged {
        merged := merged + [values[i]];
      }
    }
    assert values[..|values|] == values;
  }

  method SummariseStream(s: Stream) returns (group: Group)
    ensures group == GroupOf(s)
  {
    hide Collapse, MergeStringLists, Put, Lookup, AppendNew, LatestAt, MinPriority, HasKind;
    var events := CollapseEvents(s.events);
    var changedFields, relatedRefs: seq<string> := [], [];
    var observedFacets: seq<Field> := [];
    for i := 0 to |events|
      invariant changedFields == MergedFields(events[..i])
      invariant relatedRefs == MergedRefs(events[..i])
      invariant observedFacets == MergedFacets(events[..i])
    {
      assert events[..i + 1][..i] == events[..i];
      changedFields := MergeLists(changedFields, events[i].changedFields);
      relatedRefs := MergeLists(relatedRefs, events[i].relatedRefs);
      var facets := events[i].observedFacets;
      ghost var before := observedFacets;
      for j := 0 to |facets|
        invariant observedFacets == AppendFacets(before, facets[..j])
      {
        assert facets[..j + 1][..j] == facets[..j];
        var merged := AppendValues(Lookup(observedFacets, facets[j].key), facets[j].values);
        observedFacets := Put(observedFacets, facets[j].key, merged);
      }
      assert facets[..|facets|] == facets;
    }
    assert events[..|events|] == events;
    group := Group(
      GroupId(s.resource), s.resource, EventIds(events), changedFields, relatedRefs, LatestAt(events),
      MinPriority(events),
      HasKind(s.events, Create) && HasKind(s.events, Delete) && !HasKind(s.events, Update),
      observedFacets);
  }

  method BuildResourceGroups(grouped: seq<Stream>) returns (groups: seq<Group>)
    ensures groups == GroupsOf(grouped)
  {
    hide GroupOf;
    groups := [];
    for i := 0 to |grouped|
      invariant groups == GroupsOf(grouped[..i])
    {
      var group := SummariseStream(grouped[i]);
      GroupsSnoc(grouped[..i], grouped[i]);
      assert grouped[..i + 1] == grouped[..i] + [grouped[i]];
      groups := groups + [group];
    }
    assert grouped[..|grouped|] == grouped;
  }

  method Build(batch: Batch) returns (workingSet: BatchWorkingSet)
    ensures workingSet == WorkingSetOf(batch)
    ensures forall id :: id in workingSet.affectedCaseIds <==>
              exists e :: e in batch.events && e.resourceType == "case" && e.resourceId == id
    ensures forall k :: k in workingSet.observedFacetKeys <==>
              exists e, v :: e in batch.events && Observes(e.observedFacets, k, v)
    ensures forall e :: e in batch.events ==> exists g :: g in workingSet.groups && IsAbout(g.resource, e)
    ensures forall i, j :: 0 <= i < j < |workingSet.groups| ==> InOrder(workingSet.groups[i], workingSet.groups[j])
  {
    hide Signals, AddTo, GroupsOf, Sort, FacetKeys, AppendNew, Observes, InOrder;
    var normalizedEvents := ExtractEventSignals(batch);
    var grouped: seq<Stream> := [];
    for i := 0 to |normalizedEvents|
      invariant grouped == Grouped(normalizedEvents[..i])
    {
      assert normalizedEvents[..i + 1][..i] == normalizedEvents[..i];
      grouped := AddTo(grouped, normalizedEvents[i]);
    }
    assert normalizedEvents[..|normalizedEvents|] == normalizedEvents;
    var unsorted := BuildResourceGroups(grouped);
    var groups := Sort(GroupLe, unsorted);
    var affected, observed: seq<string> := [], [];
    for i := 0 to |groups|
      invariant affected == AffectedCases(groups[..i])
      invariant observed == ObservedKeys(groups[..i])
    {
      assert groups[..i + 1][..i] == groups[..i];
      var g := groups[i];
      if g.resource.resourceType == "case" && g.resource.resourceId !in affected {
        affected := affected + [g.resource.resourceId];
      }
      observed := AppendValues(observed, FacetKeys(g.observedFacets));
    }
    assert groups[..|groups|] == groups;
    workingSet := BatchWorkingSet(batch.batchId, batch.partition, batch.trigger, groups, affected, observed);
    WorkingSetReports(batch);
  }
}
