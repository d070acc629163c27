/**
  The statistics writer and reader over one partition's stored snapshot:
  internal/knowledge/statistics/writer.py and internal/knowledge/statistics/reader.py.
  The store's lock makes each method one atomic step.
 */
module StatisticsStore {
  import opened Options
  import opened Sorting
  import opened Statistics
  import opened Observations
  import Aggregator

  /** The live sources of a set of cases. */
  ghost function Live(fold: string -> string, cases: map<string, Case>): map<string, Mapping> {
    map id | id in cases :: EntriesOf(fold, cases[id])
  }

  lemma LiveNormalised(fold: string -> string, cases: map<string, Case>)
    ensures AllNormalised(Live(fold, cases))
  {
    forall id | id in cases ensures Normalised(Live(fold, cases)[id]) {
      EntriesNormalised(fold, cases[id]);
    }
  }

  lemma LiveUpdate(fold: string -> string, cases: map<string, Case>, id: string, c: Case)
    ensures Live(fold, cases[id := c]) == Live(fold, cases)[id := EntriesOf(fold, c)]
    ensures Live(fold, cases - {id}) == Live(fold, cases) - {id}
  {
    hide EntriesOf;
  }

  lemma AppendRecount(partition: string, fold: string -> string, cases: map<string, Case>, c: Case)
    requires c.id !in cases
    ensures Applied(Stats(partition, Live(fold, cases)), c.id, EntriesOf(fold, c)) ==
              Stats(partition, Live(fold, cases[c.id := c]))
  {
    LiveNormalised(fold, cases);
    EntriesNormalised(fold, c);
    LiveUpdate(fold, cases, c.id, c);
    ApplyIsRecount(partition, Live(fold, cases), c.id, EntriesOf(fold, c));
  }

  lemma RemoveRecount(partition: string, fold: string -> string, cases: map<string, Case>, id: string)
    requires id in cases
    ensures Removed(Stats(partition, Live(fold, cases)), id, EntriesOf(fold, cases[id])) ==
              Stats(partition, Live(fold, cases - {id}))
  {
    LiveNormalised(fold, cases);
    LiveUpdate(fold, cases, id, cases[id]);
    RemoveIsRecount(partition, Live(fold, cases), id);
  }

  lemma ReplaceRecount(partition: string, fold: string -> string, cases: map<string, Case>, c: Case)
    requires c.id in cases
    ensures Applied(Removed(Stats(partition, Live(fold, cases)), c.id, EntriesOf(fold, cases[c.id])), c.id,
              EntriesOf(fold, c)) ==
              Stats(partition, Live(fold, cases[c.id := c]))
  {
    hide Stats, Applied, Removed, EntriesOf, Live;
    RemoveRecount(partition, fold, cases, c.id);
    AppendRecount(partition, fold, cases - {c.id}, c);
    assert (cases - {c.id})[c.id := c] == cases[c.id := c];
  }

  /** The recount after a replacement, as the aggregator computes it from the recount before. */
  ghost function ReplacedRecount(
    partition: string, fold: string -> string, cases: map<string, Case>, before: Case, after: Case): (s: Snapshot)
    requires before.id in cases && cases[before.id] == before && after.id == before.id
    ensures s == Stats(partition, Live(fold, cases[after.id := after]))
    ensures var current, o, o' :=
              Stats(partition, Live(fold, cases)), ObservationOf(fold, before), ObservationOf(fold, after);
            current.partition == partition
              && s == Applied(Removed(current, before.id, Entries(o)), after.id, Entries(o'))
  {
    ReplaceRecount(partition, fold, cases, after);
    StatsPartition(partition, Live(fold, cases));
    Stats(partition, Live(fold, cases[after.id := after]))
  }

  lemma StatsPartition(partition: string, live: map<string, Mapping>)
    ensures Stats(partition, live).partition == partition
  {
  }

  // ----- rebuilding

  predicate DistinctIds(documents: seq<Case>) {
    forall i, j :: 0 <= i < j < |documents| ==> documents[i].id != documents[j].id
  }

  /** The listed documents of one partition, by id. */
  function CasesOf(partition: string, documents: seq<Case>): map<string, Case> {
    if documents == [] then map[] else
    var before, c := CasesOf(partition, documents[..|documents| - 1]), documents[|documents| - 1];
    if c.partition == partition then before[c.id := c] else before
  }

  ghost function ObservationsOf(fold: string -> string, documents: seq<Case>): seq<Observation> {
    seq(|documents|, i requires 0 <= i < |documents| => ObservationOf(fold, documents[i]))
  }

  lemma ObservationsNormalised(partition: string, fold: string -> string, documents: seq<Case>)
    requires DistinctIds(documents)
    ensures Aggregator.DistinctSources(partition, ObservationsOf(fold, documents))
    ensures Aggregator.AllNormalisedIn(ObservationsOf(fold, documents))
  {
    var os := ObservationsOf(fold, documents);
    hide NormalizedMapping, Normalised, Entries;
    forall i | 0 <= i < |os| ensures os[i].sourceId == documents[i].id && Normalised(Entries(os[i])) {
      EntriesNormalised(fold, documents[i]);
    }
  }

  lemma {:induction false} ObservationsLive(partition: string, fold: string -> string, documents: seq<Case>)
    ensures Aggregator.LiveOf(partition, ObservationsOf(fold, documents)) == Live(fold, CasesOf(partition, documents))
  {
    if documents == [] {
      assert CasesOf(partition, documents) == map[];
    } else {
      var front, c := documents[..|documents| - 1], documents[|documents| - 1];
      ObservationsLive(partition, fold, front);
      var os := ObservationsOf(fold, documents);
      assert os[..|os| - 1] == ObservationsOf(fold, front);
      hide Entries, NormalizedMapping;
      LiveUpdate(fold, CasesOf(partition, front), c.id, c);
    }
  }

  /** The snapshot is what a recount of the cases gives. */
  ghost predicate IsRecount(s: Snapshot, partition: string, fold: string -> string, cases: map<string, Case>) {
    s == Stats(partition, Live(fold, cases))
  }

  lemma RecountUnique(s: Snapshot, s': Snapshot, partition: string, fold: string -> string, cases: map<string, Case>)
    requires IsRecount(s, partition, fold, cases) && IsRecount(s', partition, fold, cases)
    ensures s == s'
  {
  }

  lemma SizeOfKeys<T>(m: map<string, T>)
    ensures |m| == |m.Keys|
  {
  }

  const SAVE_FAILED := "statistics snapshot could not be saved"

  /**
    The writer over the stored snapshot.  A save replaces the document through a temporary file, so one that raises
    (`saves` is false) leaves it as it was.
   */
  class StatisticsWriter {
    const partition: string
    const fold: string -> string
    /** The persisted snapshot document, if one has ever been saved. */
    var stored: Option<Snapshot>

    /** An absent document counts as the empty snapshot. */
    ghost function Current(): Snapshot
      reads this
    {
      stored.GetOr(EmptySnapshot(partition))
    }

    ghost predicate Recounts(cases: map<string, Case>)
      reads this
    {
      IsRecount(Current(), partition, fold, cases)
    }

    constructor (partition: string, fold: string -> string)
      ensures this.partition == partition && this.fold == fold && stored == None
      ensures Recounts(map[])
    {
      this.partition := partition;
      this.fold := fold;
      stored := None;
      new;
      Aggregator.EmptyRecount(partition);
      assert Live(fold, map[]) == map[];
    }

    /** A new case is counted, when the save goes through. */
    method AppendCaseObservation(c: Case, saves: bool, ghost cases: map<string, Case>) returns (r: Result<()>)
      requires c.partition == partition && c.id !in cases && Recounts(cases)
      modifies this
      ensures r.Ok? <==> saves
      ensures r.Ok? ==> Recounts(cases[c.id := c])
      ensures r.Err? ==> stored == old(stored)
    {
      StatsPartition(partition, Live(fold, cases));
      hide Stats, Applied, Entries;
      var o := NormalizeCase(fold, c);
      var applied := Aggregator.Apply(stored, o);
      assert applied.Ok?;
      if !saves {
        return Err(SAVE_FAILED);
      }
      stored := Some(applied.value);
      AppendRecount(partition, fold, cases, c);
      r := Ok(());
    }

    /** A live case is counted as its replacement; observations of two partitions are refused. */
    method ReplaceCaseObservation(before: Case, after: Case, saves: bool, ghost cases: map<string, Case>)
      returns (r: Result<()>)
      requires after.partition == partition && after.id == before.id
      requires before.id in cases && cases[before.id] == before && Recounts(cases)
      modifies this
      ensures r.Ok? <==> before.partition == after.partition && saves
      ensures r.Ok? ==> Recounts(cases[after.id := after])
      ensures r.Err? ==> stored == old(stored)
    {
      hide Stats, Applied, Removed, Entries, Live, NormalizedMapping;
      if before.partition != after.partition {
        return Err("replacement observations must belong to the same partition");
      }
      ghost var recount := ReplacedRecount(partition, fold, cases, before, after);
      var current := stored.GetOr(EmptySnapshot(partition));
      var oldObservation := NormalizeCase(fold, before);
      var newObservation := NormalizeCase(fold, after);
      var updated := Aggregator.Replace(current, oldObservation, newObservation);
      assert updated == Ok(recount);
      if !saves {
        return Err(SAVE_FAILED);
      }
      stored := Some(updated.value);
      assert Current() == recount;
      return Ok(());
    }

    /** A snapshot that counts cases has been saved. */
    lemma CountedStored(cases: map<string, Case>)
      requires Recounts(cases)
      ensures stored == None ==> cases == map[]
    {
      assert Live(fold, cases).Keys == cases.Keys;
      SizeOfKeys(Live(fold, cases));
      SizeOfKeys(cases);
    }

    /** A live case is no longer counted; an absent snapshot stays absent. */
    method RemoveObservation(c: Case, saves: bool, ghost cases: map<string, Case>) returns (r: Result<()>)
      requires c.partition == partition
      modifies this
      ensures r.Ok? <==> old(stored) == None || saves
      ensures r.Err? || old(stored) == None ==> stored == old(stored)
      ensures r.Ok? && old(stored).Some? ==> stored == Some(Removed(old(stored).value, c.id, EntriesOf(fold, c)))
      ensures r.Ok? && old(stored).Some? && old(Recounts(cases)) && c.id in cases && cases[c.id] == c ==>
                Recounts(cases - {c.id})
    {
      if c.id in cases {
        RemoveRecount(partition, fold, cases, c.id);
      }
      hide Stats, Removed, Entries, Live;
      if stored == None {
        return Ok(());
      }
      var o := NormalizeCase(fold, c);
      var updated := Aggregator.Remove(stored.value, o);
      if !saves {
        return Err(SAVE_FAILED);
      }
      stored := Some(updated);
      r := Ok(());
    }

    /** The snapshot recomputed from the listed documents; without any of the partition there is none to save. */
    method RebuildPartitionStatistics(documents: seq<Case>, saves: bool) returns (r: Result<()>)
      requires DistinctIds(documents)
      modifies this
      ensures r.Ok? <==> saves && exists c :: c in documents && c.partition == partition
      ensures r.Ok? ==> Recounts(CasesOf(partition, documents))
      ensures r.Err? ==> stored == old(stored)
    {
      hide Stats, Entries, CasesOf, Live, NormalizedMapping, DistinctIds;
      var normalized: seq<Observation> := [];
      for i := 0 to |documents|
        invariant normalized == ObservationsOf(fold, documents[..i]) && stored == old(stored)
      {
        var o := NormalizeCase(fold, documents[i]);
        normalized := normalized + [o];
      }
      assert documents[..|documents|] == documents;
      ObservationsNormalised(partition, fold, documents);
      ObservationsLive(partition, fold, documents);
      LiveEmpty(fold, CasesOf(partition, documents));
      CasesOfNone(partition, documents);
      var snapshot := Aggregator.Build(partition, normalized);
      if snapshot.None? {
        return Err("no statistics to save");
      }
      if !saves {
        return Err(SAVE_FAILED);
      }
      stored := snapshot;
      r := Ok(());
    }
  }

  lemma LiveEmpty(fold: string -> string, cases: map<string, Case>)
    ensures Live(fold, cases) == map[] <==> cases == map[]
  {
    assert Live(fold, cases).Keys == cases.Keys;
  }

  lemma {:induction false} CasesOfNone(partition: string, documents: seq<Case>)
    ensures CasesOf(partition, documents) == map[] <==> forall c :: c in documents ==> c.partition != partition
  {
    if documents != [] {
      var front, c := documents[..|documents| - 1], documents[|documents| - 1];
      assert documents == front + [c];
      CasesOfNone(partition, front);
      if c.partition == partition {
        assert c.id in CasesOf(partition, documents);
      }
    }
  }
}
