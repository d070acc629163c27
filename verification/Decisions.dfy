/**
  Review decisions and the partition review lock:
  internal/knowledge/decision/service.py and internal/knowledge/decision/review_lock.py.
 */
module Decisions {
  import opened Options

  datatype Status =
    | NoChange | RequiresReview | Accepted | Approved | Applying | Applied
    | Discarded | RetryRequested | Stale | RolledBack | Failed | PartitionDeleted

  /** One entry of a decision's status history; the first entry has no source status. */
  datatype Change = Change(source: Option<Status>, target: Status)

  datatype Record = Record(id: string, partition: string, status: Status, history: seq<Change>)

  /** The decision repository together with the lock directory: partition to owning decision. */
  datatype Book = Book(records: map<string, Record>, locks: map<string, string>)

  const EMPTY := Book(map[], map[])

  predicate Allowed(current: Status, target: Status) {
    match current
    case Accepted => target == Applying || target == Stale || target == Failed
    case Applying => target == Applied || target == Failed || target == RolledBack
    case RequiresReview => target == Accepted || target == Approved || target == Discarded || target == RetryRequested
      || target == Stale || target == PartitionDeleted
    case Approved => target == Applying || target == Stale || target == Failed
    case Applied => target == RolledBack || target == Failed
    case _ => false
  }

  predicate Releases(target: Status) {
    || target == NoChange || target == Approved || target == Discarded || target == RetryRequested || target == Stale
    || target == Applied || target == Failed || target == RolledBack || target == PartitionDeleted
  }

  // ----- the lock directory

  function Acquire(locks: map<string, string>, partition: string, id: string): Result<map<string, string>> {
    if partition in locks && locks[partition] != id then Err("partition already has a review decision")
    else Ok(locks[partition := id])
  }

  function Release(locks: map<string, string>, partition: string, id: string): Result<map<string, string>> {
    if partition !in locks then Ok(locks)
    else if locks[partition] != id then Err("review lock belongs to another decision")
    else Ok(locks - {partition})
  }

  // ----- the decision service

  function WithHistory(r: Record): Record {
    if r.history == [] then r.(history := [Change(None, r.status)]) else r
  }

  function Create(b: Book, r: Record): Result<Book> {
    var locks := if r.status == RequiresReview then Acquire(b.locks, r.partition, r.id) else Ok(b.locks);
    if locks.Err? then Err(locks.message) else Ok(Book(b.records[r.id := WithHistory(r)], locks.value))
  }

  function Transition(b: Book, id: string, target: Status): Result<Book> {
    if id !in b.records then Err("decision not found")
    else
      var current := b.records[id];
      if !Allowed(current.status, target) then Err("invalid decision transition")
      else
        var updated := current.(status := target, history := current.history + [Change(Some(current.status), target)]);
        var locks :=
          if target == RequiresReview then Acquire(b.locks, current.partition, id)
          else if Releases(target) then Release(b.locks, current.partition, id)
          else Ok(b.locks);
        if locks.Err? then Err(locks.message) else Ok(Book(b.records[id := updated], locks.value))
  }

  predicate Available(b: Book, partition: string) {
    partition !in b.locks
  }

  // ----- what every run keeps

  /** An unbroken chain of allowed steps that ends at `status`. */
  predicate Chain(history: seq<Change>, status: Status) {
    && history != [] && history[|history| - 1].target == status
    && history[0].source.None?
    && forall i :: 0 < i < |history| ==>
         history[i].source == Some(history[i - 1].target) && Allowed(history[i - 1].target, history[i].target)
  }

  predicate HoldsLock(s: Status) {
    s == RequiresReview || s == Accepted || s == Applying
  }

  predicate RecordOk(b: Book, id: string)
    requires id in b.records
  {
    var r := b.records[id];
    && r.id == id && Chain(r.history, r.status)
    && (r.status == RequiresReview ==> r.partition in b.locks && b.locks[r.partition] == id)
  }

  predicate LockOk(b: Book, p: string)
    requires p in b.locks
  {
    var owner := b.locks[p];
    owner in b.records && b.records[owner].partition == p && HoldsLock(b.records[owner].status)
  }

  ghost predicate Inv(b: Book) {
    && (forall id :: id in b.records ==> RecordOk(b, id))
    && (forall p :: p in b.locks ==> LockOk(b, p))
  }

  /** A record may be created under a fresh id, with no history or with a chain of its own. */
  predicate Creatable(b: Book, r: Record) {
    r.id !in b.records && (r.history == [] || Chain(r.history, r.status))
  }

  lemma CreateKeepsInv(b: Book, r: Record)
    requires Inv(b) && Creatable(b, r) && Create(b, r).Ok?
    ensures Inv(Create(b, r).value)
  {
    var b' := Create(b, r).value;
    forall p | p in b'.locks ensures LockOk(b', p) {
      assert p in b.locks ==> LockOk(b, p);
    }
    forall id | id in b'.records ensures RecordOk(b', id) {
      assert id != r.id ==> RecordOk(b, id);
    }
  }

  lemma ChainExtends(history: seq<Change>, status: Status, target: Status)
    requires Chain(history, status) && Allowed(status, target)
    ensures Chain(history + [Change(Some(status), target)], target)
  {
    var extended := history + [Change(Some(status), target)];
    assert forall i :: 0 <= i < |history| ==> extended[i] == history[i];
  }

  lemma TransitionKeepsRecord(b: Book, id: string, target: Status, other: string)
    requires Inv(b) && Transition(b, id, target).Ok? && other in b.records
    ensures RecordOk(Transition(b, id, target).value, other)
  {
    var current := b.records[id];
    assert RecordOk(b, id) && RecordOk(b, other);
    ChainExtends(current.history, current.status, target);
  }

  lemma TransitionKeepsLock(b: Book, id: string, target: Status, p: string)
    requires Inv(b) && Transition(b, id, target).Ok? && p in Transition(b, id, target).value.locks
    ensures LockOk(Transition(b, id, target).value, p)
  {
    hide Chain;
    assert p in b.locks ==> LockOk(b, p);
  }

  lemma TransitionKeepsInv(b: Book, id: string, target: Status)
    requires Inv(b) && Transition(b, id, target).Ok?
    ensures Inv(Transition(b, id, target).value)
  {
    var b' := Transition(b, id, target).value;
    forall other | other in b'.records ensures RecordOk(b', other) {
      TransitionKeepsRecord(b, id, target, other);
    }
    forall p | p in b'.locks ensures LockOk(b', p) {
      TransitionKeepsLock(b, id, target, p);
    }
  }

  // ----- runs

  datatype Op = CreateOp(record: Record) | TransitionOp(id: string, target: Status)

  predicate Legal(b: Book, op: Op) {
    op.CreateOp? ==> Creatable(b, op.record)
  }

  /** A call that raises leaves the repository and the lock directory as they were. */
  function Perform(b: Book, op: Op): Book {
    var r := match op
      case CreateOp(record) => Create(b, record)
      case TransitionOp(id, target) => Transition(b, id, target);
    if r.Ok? then r.value else b
  }

  ghost predicate Reaches(b: Book, ops: seq<Op>, b': Book)
    decreases |ops|
  {
    if ops == [] then b' == b else Legal(b, ops[0]) && Reaches(Perform(b, ops[0]), ops[1..], b')
  }

  lemma PerformKeepsInv(b: Book, op: Op)
    requires Inv(b) && Legal(b, op)
    ensures Inv(Perform(b, op))
  {
    match op
    case CreateOp(record) => if Create(b, record).Ok? { CreateKeepsInv(b, record); }
    case TransitionOp(id, target) => if Transition(b, id, target).Ok? { TransitionKeepsInv(b, id, target); }
  }

  lemma {:induction false} RunKeepsInv(b: Book, ops: seq<Op>, b': Book)
    requires Inv(b) && Reaches(b, ops, b')
    ensures Inv(b')
    decreases |ops|
  {
    if ops != [] {
      PerformKeepsInv(b, ops[0]);
      RunKeepsInv(Perform(b, ops[0]), ops[1..], b');
    }
  }

  /** Main result: over every run, a decision in review owns its partition's lock, so there is at most one. */
  lemma ReviewOwnsLock(ops: seq<Op>, b: Book, id: string, id': string)
    requires Reaches(EMPTY, ops, b) && id in b.records && b.records[id].status == RequiresReview
    ensures b.records[id].partition in b.locks && b.locks[b.records[id].partition] == id
    ensures (id' in b.records && b.records[id'].status == RequiresReview
              && b.records[id'].partition == b.records[id].partition) ==> id' == id
  {
    RunKeepsInv(EMPTY, ops, b);
  }

  /** Main result: over every run, the owner of a held lock is in review, accepted or applying. */
  lemma LockOwnerActive(ops: seq<Op>, b: Book, p: string)
    requires Reaches(EMPTY, ops, b) && p in b.locks
    ensures b.locks[p] in b.records && b.records[b.locks[p]].partition == p && HoldsLock(b.records[b.locks[p]].status)
  {
    RunKeepsInv(EMPTY, ops, b);
  }

  function Rank(s: Status): nat {
    match s
    case RequiresReview => 4
    case Accepted => 3
    case Approved => 3
    case Applying => 2
    case Applied => 1
    case _ => 0
  }

  lemma {:induction false} ChainDescends(history: seq<Change>, status: Status, n: nat)
    requires Chain(history, status) && n < |history|
    ensures Rank(history[n].target) + n <= Rank(history[0].target)
  {
    if n > 0 {
      ChainDescends(history, status, n - 1);
      assert Allowed(history[n - 1].target, history[n].target);
    }
  }

  /** Main result: a decision goes through at most four transitions, each lowering its rank. */
  lemma AtMostFourTransitions(ops: seq<Op>, b: Book, id: string)
    requires Reaches(EMPTY, ops, b) && id in b.records
    ensures Chain(b.records[id].history, b.records[id].status)
    ensures |b.records[id].history| - 1 <= 4 - Rank(b.records[id].status)
  {
    RunKeepsInv(EMPTY, ops, b);
    var history := b.records[id].history;
    ChainDescends(history, b.records[id].status, |history| - 1);
  }

  /**
    Under the invariant, a transition is rejected exactly for a missing record, a forbidden step, or another owner's
    lock.
   */
  lemma TransitionAccepted(b: Book, id: string, target: Status)
    requires Inv(b) && id in b.records && Allowed(b.records[id].status, target)
    ensures Transition(b, id, target).Ok? <==>
              (Releases(target) && b.records[id].partition in b.locks ==> b.locks[b.records[id].partition] == id)
    ensures b.records[id].status == RequiresReview ==> Transition(b, id, target).Ok?
  {
  }

  // ----- which histories there are, and when the lock is held

  /** The steps of a decision's life. */
  const STEPS: set<(Status, Status)> := {
    (RequiresReview, Accepted), (RequiresReview, Approved), (RequiresReview, Discarded),
    (RequiresReview, RetryRequested), (RequiresReview, Stale), (RequiresReview, PartitionDeleted),
    (Accepted, Applying), (Accepted, Stale), (Accepted, Failed),
    (Approved, Applying), (Approved, Stale), (Approved, Failed),
    (Applying, Applied), (Applying, Failed), (Applying, RolledBack),
    (Applied, RolledBack), (Applied, Failed)
  }

  lemma AllowedSteps(current: Status, target: Status)
    ensures Allowed(current, target) <==> (current, target) in STEPS
  {
    match current
    case Accepted => assert Allowed(current, target) <==> (Accepted, target) in STEPS;
    case Approved => assert Allowed(current, target) <==> (Approved, target) in STEPS;
    case Applying => assert Allowed(current, target) <==> (Applying, target) in STEPS;
    case Applied => assert Allowed(current, target) <==> (Applied, target) in STEPS;
    case RequiresReview => assert Allowed(current, target) <==> (RequiresReview, target) in STEPS;
    case _ => assert (current, target) !in STEPS;
  }

  function Statuses(history: seq<Change>): seq<Status> {
    seq(|history|, i requires 0 <= i < |history| => history[i].target)
  }

  predicate Lifecycle(statuses: seq<Status>) {
    statuses != [] && forall i :: 0 < i < |statuses| ==> (statuses[i - 1], statuses[i]) in STEPS
  }

  ghost predicate Realised(id: string, statuses: seq<Status>) {
    exists ops, b :: Reaches(EMPTY, ops, b) && id in b.records && Statuses(b.records[id].history) == statuses
  }

  lemma {:induction false} ReachesSnoc(b: Book, ops: seq<Op>, b': Book, op: Op)
    requires Reaches(b, ops, b') && Legal(b', op)
    ensures Reaches(b, ops + [op], Perform(b', op))
    decreases |ops|
  {
    hide Perform, Legal;
    if ops == [] {
      assert ops + [op] == [op] && [op][1..] == [];
      assert Reaches(Perform(b, op), [], Perform(b, op));
    } else {
      ReachesSnoc(Perform(b, ops[0]), ops[1..], b', op);
      assert (ops + [op])[0] == ops[0] && (ops + [op])[1..] == ops[1..] + [op];
    }
  }

  /** A book with one decision only, which alone may hold the lock of its partition. */
  predicate Alone(b: Book, id: string, statuses: seq<Status>) {
    && b.records.Keys == {id} && statuses != [] && b.records[id].partition == "" && b.records[id].id == id
    && b.records[id].status == statuses[|statuses| - 1] && Statuses(b.records[id].history) == statuses
    && forall p :: p in b.locks ==> p == "" && b.locks[p] == id
  }

  lemma AloneCreated(id: string, status: Status)
    ensures Alone(Perform(EMPTY, CreateOp(Record(id, "", status, []))), id, [status])
  {
  }

  lemma AloneMoved(b: Book, id: string, statuses: seq<Status>, target: Status)
    requires Alone(b, id, statuses) && Allowed(statuses[|statuses| - 1], target)
    ensures Alone(Perform(b, TransitionOp(id, target)), id, statuses + [target])
  {
  }

  lemma {:induction false} Realise(id: string, statuses: seq<Status>) returns (ops: seq<Op>, b: Book)
    requires Lifecycle(statuses)
    ensures Reaches(EMPTY, ops, b) && Alone(b, id, statuses)
  {
    hide Alone, Perform, STEPS;
    var front, last := statuses[..|statuses| - 1], statuses[|statuses| - 1];
    assert statuses == front + [last];
    if front == [] {
      AloneCreated(id, last);
      ReachesSnoc(EMPTY, [], EMPTY, CreateOp(Record(id, "", last, [])));
      ops, b := [] + [CreateOp(Record(id, "", last, []))], Perform(EMPTY, CreateOp(Record(id, "", last, [])));
    } else {
      assert forall i :: 0 <= i < |front| ==> front[i] == statuses[i];
      ops, b := Realise(id, front);
      AllowedSteps(front[|front| - 1], last);
      AloneMoved(b, id, front, last);
      ReachesSnoc(EMPTY, ops, b, TransitionOp(id, last));
      ops, b := ops + [TransitionOp(id, last)], Perform(b, TransitionOp(id, last));
    }
  }

  /** Main result: a decision can go through a sequence of statuses in some run exactly if each follows by a step. */
  lemma LifecyclesRealised(id: string, statuses: seq<Status>)
    ensures Realised(id, statuses) <==> Lifecycle(statuses)
  {
    hide STEPS;
    if ops, b :| Reaches(EMPTY, ops, b) && id in b.records && Statuses(b.records[id].history) == statuses {
      RunKeepsInv(EMPTY, ops, b);
      var history := b.records[id].history;
      assert RecordOk(b, id);
      forall i | 0 < i < |statuses| ensures (statuses[i - 1], statuses[i]) in STEPS {
        AllowedSteps(history[i - 1].target, history[i].target);
      }
    }
    if Lifecycle(statuses) {
      var ops, b := Realise(id, statuses);
    }
  }

  /** The decision was in review and has since gone no further than being accepted and applied. */
  predicate SinceReview(history: seq<Change>) {
    exists i :: 0 <= i < |history| && history[i].target == RequiresReview
      && forall j :: i < j < |history| ==> history[j].target == Accepted || history[j].target == Applying
  }

  lemma SinceReviewSnoc(history: seq<Change>, change: Change)
    ensures SinceReview(history + [change]) <==>
              change.target == RequiresReview
              || ((change.target == Accepted || change.target == Applying) && SinceReview(history))
  {
    var longer := history + [change];
    if change.target == RequiresReview {
      assert longer[|history|].target == RequiresReview;
    } else if (change.target == Accepted || change.target == Applying) && SinceReview(history) {
      var i :| 0 <= i < |history| && history[i].target == RequiresReview
        && forall j :: i < j < |history| ==> history[j].target == Accepted || history[j].target == Applying;
      assert longer[i].target == RequiresReview;
    }
    if SinceReview(longer) && change.target != RequiresReview {
      var i :| 0 <= i < |longer| && longer[i].target == RequiresReview
        && forall j :: i < j < |longer| ==> longer[j].target == Accepted || longer[j].target == Applying;
      assert i < |history| && longer[|history|] == change;
      assert forall j :: i < j < |history| ==> longer[j] == history[j];
    }
  }

  predicate Locks(b: Book, id: string)
    requires id in b.records
  {
    b.records[id].partition in b.locks && b.locks[b.records[id].partition] == id
  }

  ghost predicate LockedSinceReview(b: Book) {
    forall id :: id in b.records ==> (Locks(b, id) <==> SinceReview(b.records[id].history))
  }

  lemma PerformKeepsLocked(b: Book, op: Op)
    requires Inv(b) && LockedSinceReview(b) && Legal(b, op) && (op.CreateOp? ==> op.record.history == [])
    ensures LockedSinceReview(Perform(b, op))
  {
    var b' := Perform(b, op);
    hide SinceReview;
    if op.CreateOp? && Create(b, op.record).Ok? {
      SinceReviewSnoc([], Change(None, op.record.status));
      assert [] + [Change(None, op.record.status)] == [Change(None, op.record.status)];
      NeverInReview();
      forall id | id in b'.records ensures Locks(b', id) <==> SinceReview(b'.records[id].history) {
        CreatedLocks(b, op.record, id);
      }
    } else if op.TransitionOp? && Transition(b, op.id, op.target).Ok? {
      SinceReviewSnoc(b.records[op.id].history, Change(Some(b.records[op.id].status), op.target));
      forall id | id in b'.records ensures Locks(b', id) <==> SinceReview(b'.records[id].history) {
        MovedLocks(b, op.id, op.target, id);
      }
    }
  }

  lemma NeverInReview()
    ensures !SinceReview([])
  {
  }

  lemma CreatedLocks(b: Book, r: Record, id: string)
    requires Inv(b) && r.id !in b.records && Create(b, r).Ok? && id in Create(b, r).value.records
    ensures id in b.records ==> (Locks(Create(b, r).value, id) <==> Locks(b, id))
    ensures id == r.id ==> (Locks(Create(b, r).value, id) <==> r.status == RequiresReview)
  {
    hide Chain;
    assert id in b.records ==> RecordOk(b, id);
    assert r.partition in b.locks ==> LockOk(b, r.partition);
  }

  lemma MovedLocks(b: Book, moved: string, target: Status, id: string)
    requires Inv(b) && Transition(b, moved, target).Ok? && id in b.records
    ensures var b' := Transition(b, moved, target).value;
            Locks(b', id) <==> if id != moved then Locks(b, id)
              else target == RequiresReview || ((target == Accepted || target == Applying) && Locks(b, id))
  {
    hide Chain;
    assert RecordOk(b, id) && RecordOk(b, moved);
  }

  lemma {:induction false} RunKeepsLocked(b: Book, ops: seq<Op>, b': Book)
    requires Inv(b) && LockedSinceReview(b) && Reaches(b, ops, b')
    requires forall op :: op in ops && op.CreateOp? ==> op.record.history == []
    ensures LockedSinceReview(b')
    decreases |ops|
  {
    hide Inv, LockedSinceReview, Perform;
    if ops != [] {
      PerformKeepsInv(b, ops[0]);
      PerformKeepsLocked(b, ops[0]);
      RunKeepsLocked(Perform(b, ops[0]), ops[1..], b');
    }
  }

  /**
    Main result, over every run in which decisions are created without a history: a decision holds the lock of its
    partition exactly from being in review until it leaves review, acceptance and application.
   */
  lemma LockHeldSinceReview(ops: seq<Op>, b: Book, id: string)
    requires Reaches(EMPTY, ops, b) && id in b.records
    requires forall op :: op in ops && op.CreateOp? ==> op.record.history == []
    ensures (b.records[id].partition in b.locks && b.locks[b.records[id].partition] == id) <==>
              SinceReview(b.records[id].history)
  {
    RunKeepsLocked(EMPTY, ops, b);
  }

  /** The step exists, and the lock it would free is not another decision's. */
  predicate Movable(b: Book, id: string, target: Status) {
    && id in b.records && (b.records[id].status, target) in STEPS
    && var p := b.records[id].partition;
       target == Accepted || target == Applying || p !in b.locks || b.locks[p] == id
  }

  /** A transition that goes through appends to the history and frees the lock, unless it leads on from a review. */
  predicate Moved(b: Book, id: string, target: Status, b': Book)
    requires id in b.records
  {
    var current := b.records[id];
    var change := Change(Some(current.status), target);
    && b'.records == b.records[id := current.(status := target, history := current.history + [change])]
    && b'.locks == if target == Accepted || target == Applying then b.locks else b.locks - {current.partition}
  }

  lemma TransitionIs(b: Book, id: string, target: Status)
    ensures Transition(b, id, target).Ok? <==> Movable(b, id, target)
    ensures Movable(b, id, target) ==>
              Transition(b, id, target).Ok? && Moved(b, id, target, Transition(b, id, target).value)
  {
    hide STEPS;
    if id in b.records {
      AllowedSteps(b.records[id].status, target);
    }
  }

  // ----- the objects

  class PartitionReviewLock {
    var locks: map<string, string>

    constructor ()
      ensures locks == map[]
    {
      locks := map[];
    }

    method AcquireLock(partition: string, decisionId: string) returns (r: Result<()>)
      modifies this
      ensures r.Ok? <==> Acquire(old(locks), partition, decisionId).Ok?
      ensures locks == if r.Ok? then Acquire(old(locks), partition, decisionId).value else old(locks)
      ensures r.Err? ==> r.message == Acquire(old(locks), partition, decisionId).message
      ensures r.Ok? <==> partition in old(locks) ==> old(locks)[partition] == decisionId
      ensures r.Ok? ==> locks == old(locks)[partition := decisionId]
    {
      if partition in locks && locks[partition] != decisionId {
        return Err("partition already has a review decision");
      }
      locks := locks[partition := decisionId];
      r := Ok(());
    }

    method ReleaseLock(partition: string, decisionId: string) returns (r: Result<()>)
      modifies this
      ensures r.Ok? <==> Release(old(locks), partition, decisionId).Ok?
      ensures locks == if r.Ok? then Release(old(locks), partition, decisionId).value else old(locks)
      ensures r.Err? ==> r.message == Release(old(locks), partition, decisionId).message
      ensures r.Ok? <==> partition in old(locks) ==> old(locks)[partition] == decisionId
      ensures r.Ok? ==> locks == old(locks) - {partition}
    {
      if partition !in locks {
        return Ok(());
      }
      if locks[partition] != decisionId {
        return Err("review lock belongs to another decision");
      }
      locks := locks - {partition};
      r := Ok(());
    }
  }

  class DecisionService {
    const reviewLock: PartitionReviewLock
    var records: map<string, Record>

    ghost function Contents(): Book
      reads this, reviewLock
    {
      Book(records, reviewLock.locks)
    }

    constructor (reviewLock: PartitionReviewLock)
      requires reviewLock.locks == map[]
      ensures this.reviewLock == reviewLock && Contents() == EMPTY && Inv(Contents())
    {
      this.reviewLock := reviewLock;
      records := map[];
    }

    method EnsurePartitionAvailable(partition: string) returns (r: Result<()>)
      ensures r.Ok? <==> Available(Contents(), partition)
    {
      r := if partition in reviewLock.locks then Err("partition already has a review decision") else Ok(());
    }

    method CreateRecord(record: Record) returns (r: Result<()>)
      requires Inv(Contents()) && Creatable(Contents(), record)
      modifies this, reviewLock
      ensures r.Ok? <==> Create(old(Contents()), record).Ok?
      ensures r.Ok? <==> record.status == RequiresReview && record.partition in old(reviewLock.locks) ==>
                old(reviewLock.locks)[record.partition] == record.id
      ensures r.Ok? ==>
                var history := if record.history == [] then [Change(None, record.status)] else record.history;
                && records == old(records)[record.id := record.(history := history)]
                && reviewLock.locks == if record.status == RequiresReview
                     then old(reviewLock.locks)[record.partition := record.id] else old(reviewLock.locks)
      ensures r.Err? ==> Contents() == old(Contents())
      ensures Contents() == Perform(old(Contents()), CreateOp(record)) && Inv(Contents())
    {
      PerformKeepsInv(Contents(), CreateOp(record));
      if record.status == RequiresReview {
        r := reviewLock.AcquireLock(record.partition, record.id);
        if r.Err? {
          return;
        }
      }
      var saved := record;
      if record.history == [] {
        saved := record.(history := [Change(None, record.status)]);
      }
      records := records[saved.id := saved];
      r := Ok(());
    }

    method TransitionRecord(decisionId: string, status: Status) returns (r: Result<()>)
      requires Inv(Contents())
      modifies this, reviewLock
      ensures r.Ok? <==> Transition(old(Contents()), decisionId, status).Ok?
      ensures r.Ok? <==> Movable(old(Contents()), decisionId, status)
      ensures r.Ok? ==> Moved(old(Contents()), decisionId, status, Contents())
      ensures r.Err? ==> Contents() == old(Contents())
      ensures Contents() == Perform(old(Contents()), TransitionOp(decisionId, status)) && Inv(Contents())
    {
      PerformKeepsInv(Contents(), TransitionOp(decisionId, status));
      TransitionIs(Contents(), decisionId, status);
      hide STEPS, Inv, Allowed, Releases, Movable, Moved;
      if decisionId !in records {
        return Err("decision not found");
      }
      var current := records[decisionId];
      if !Allowed(current.status, status) {
        return Err("invalid decision transition");
      }
      var updated := current.(
        status := status,
        history := current.history + [Change(Some(current.status), status)]);
      r := Ok(());
      if status == RequiresReview {
        r := reviewLock.AcquireLock(current.partition, decisionId);
      } else if Releases(status) {
        r := reviewLock.ReleaseLock(current.partition, decisionId);
      }
      if r.Err? {
        return;
      }
      records := records[decisionId := updated];
    }
  }
}
