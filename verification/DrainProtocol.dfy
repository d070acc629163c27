/**
  Drains, review actions and the task queue together: internal/knowledge/workflow/drain_workflow.py,
  internal/knowledge/decision/service.py, internal/api/routes_knowledge.py and internal/backlog/tasks/queue.py.

  A drain runs inside the handler of a task.  Its steps are taken one at a time, and between any two
  of them the queue may move on in any partition and reviewers may act on any decision.
 */
module DrainProtocol {
  import opened Options
  import D = Decisions
  import Q = TaskQueue

  /** How far a drain has come that found its partition available. */
  datatype Phase = Assessing | Accepted(id: string) | Applying(id: string)

  /**
    `rejected` is set when a create or transition of a drain raises, `unsafe` when a drain creates a decision or
    writes files in a partition while a decision there is in review.
   */
  datatype State = State(queue: Q.State, book: D.Book, drains: map<nat, Phase>, rejected: bool, unsafe: bool)

  datatype ReviewAction = Approve | Discard | Retry

  datatype Action =
    | QueueStep(a: Q.Action)
    | StartDrain(task: nat)
    | AbandonDrain(task: nat)
    | Conclude(task: nat, id: string, status: D.Status)
    | AcceptPlan(task: nat, id: string)
    | StartApplying(task: nat)
    | WriteFile(task: nat)
    | EndApplying(task: nat, ok: bool)
    | Review(id: string, action: ReviewAction)

  const INITIAL := State(Q.INITIAL, D.EMPTY, map[], false, false)

  function PartitionOf(s: State, task: nat): string {
    if task < |s.queue.tasks| then s.queue.tasks[task].partition else ""
  }

  predicate Running(s: State, task: nat) {
    task < |s.queue.tasks| && s.queue.tasks[task].status == Q.Running
  }

  predicate InReview(b: D.Book, p: string) {
    exists id :: id in b.records && b.records[id].partition == p && b.records[id].status == D.RequiresReview
  }

  /** A handler returns only when its drain is over; decision ids are fresh. */
  predicate Enabled(s: State, a: Action) {
    match a
    case QueueStep(q) =>
      Q.Enabled(s.queue, q) && (q.HandlerReturns? ==> s.queue.live[q.worker].phase.task !in s.drains)
    case StartDrain(t) => Running(s, t) && t !in s.drains
    case AbandonDrain(t) => t in s.drains && s.drains[t].Assessing?
    case Conclude(t, id, status) =>
      t in s.drains && s.drains[t].Assessing? && id !in s.book.records
        && (status == D.RequiresReview || status == D.NoChange)
    case AcceptPlan(t, id) => t in s.drains && s.drains[t].Assessing? && id !in s.book.records
    case StartApplying(t) => t in s.drains && s.drains[t].Accepted?
    case WriteFile(t) => t in s.drains && s.drains[t].Applying?
    case EndApplying(t, _) => t in s.drains && s.drains[t].Applying?
    case Review(_, _) => true
  }

  /** A drain's call on the decision service: a rejected one ends the drain. */
  function Called(s: State, t: nat, r: Result<D.Book>, next: Option<Phase>): State {
    var drains := if r.Ok? && next.Some? then s.drains[t := next.value] else s.drains - {t};
    s.(book := if r.Ok? then r.value else s.book, drains := drains, rejected := s.rejected || r.Err?)
  }

  function Guarded(s: State, t: nat): State {
    s.(unsafe := s.unsafe || InReview(s.book, PartitionOf(s, t)))
  }

  function ReviewStatus(action: ReviewAction): D.Status {
    match action
    case Approve => D.Approved
    case Discard => D.Discarded
    case Retry => D.RetryRequested
  }

  /** The review route: only a decision in review is acted on. */
  function Reviewed(b: D.Book, id: string, action: ReviewAction): D.Book {
    if id in b.records && b.records[id].status == D.RequiresReview
    then D.Perform(b, D.TransitionOp(id, ReviewStatus(action))) else b
  }

  function After(s: State, a: Action): State
    requires Enabled(s, a)
  {
    match a
    case QueueStep(q) => s.(queue := Q.After(s.queue, q))
    case StartDrain(t) =>
      if D.Available(s.book, PartitionOf(s, t)) then s.(drains := s.drains[t := Assessing]) else s
    case AbandonDrain(t) => s.(drains := s.drains - {t})
    case Conclude(t, id, status) =>
      Called(Guarded(s, t), t, D.Create(s.book, D.Record(id, PartitionOf(s, t), status, [])), None)
    case AcceptPlan(t, id) =>
      Called(Guarded(s, t), t, D.Create(s.book, D.Record(id, PartitionOf(s, t), D.Accepted, [])), Some(Accepted(id)))
    case StartApplying(t) =>
      Called(s, t, D.Transition(s.book, s.drains[t].id, D.Applying), Some(Applying(s.drains[t].id)))
    case WriteFile(t) => Guarded(s, t)
    case EndApplying(t, ok) =>
      Called(s, t, D.Transition(s.book, s.drains[t].id, if ok then D.Applied else D.Failed), None)
    case Review(id, action) => s.(book := Reviewed(s.book, id, action))
  }

  // ----- the invariant

  /** A drain's task is running, its partition has no review, and its own decision is where the drain left it. */
  predicate DrainOk(s: State, t: nat)
    requires t in s.drains
  {
    && Running(s, t)
    && D.Available(s.book, PartitionOf(s, t))
    && DecisionOk(s.book, PartitionOf(s, t), s.drains[t])
  }

  predicate DecisionOk(b: D.Book, p: string, phase: Phase) {
    match phase
    case Assessing => true
    case Accepted(id) => id in b.records && b.records[id].partition == p && b.records[id].status == D.Accepted
    case Applying(id) => id in b.records && b.records[id].partition == p && b.records[id].status == D.Applying
  }

  ghost predicate Inv(s: State) {
    && Q.Inv(s.queue) && D.Inv(s.book)
    && (forall t :: t in s.drains ==> DrainOk(s, t))
    && !s.rejected && !s.unsafe
  }

  /** The queue lets only one task run per partition, so two drains never share one. */
  lemma OneDrainPerPartition(s: State, t: nat, u: nat)
    requires Inv(s) && t in s.drains && Running(s, u) && PartitionOf(s, t) == PartitionOf(s, u)
    ensures t == u
  {
    assert DrainOk(s, t);
    assert Q.StatusAt(s.queue, t) && Q.StatusAt(s.queue, u);
    assert Q.Handled(s.queue, t) && Q.Handled(s.queue, u);
  }

  lemma NoReviewWhenAvailable(b: D.Book, p: string)
    requires D.Inv(b) && D.Available(b, p)
    ensures !InReview(b, p)
  {
    forall id | id in b.records && b.records[id].partition == p ensures b.records[id].status != D.RequiresReview {
      assert D.RecordOk(b, id);
    }
  }

  /** Only one record and the lock of one partition may differ. */
  predicate TouchesOnly(b: D.Book, b': D.Book, id: string, p: string) {
    && (forall x :: x in b.records && x != id ==> x in b'.records && b'.records[x] == b.records[x])
    && (forall q :: q != p && q in b'.locks ==> q in b.locks)
  }

  /** In an available partition, a create is accepted and touches only its own partition and record. */
  lemma CreateAccepted(b: D.Book, id: string, p: string, status: D.Status)
    requires D.Inv(b) && D.Available(b, p) && id !in b.records
    ensures var r := D.Create(b, D.Record(id, p, status, []));
            && r.Ok? && D.Inv(r.value) && TouchesOnly(b, r.value, id, p)
            && id in r.value.records && r.value.records[id].partition == p && r.value.records[id].status == status
            && (status != D.RequiresReview ==> r.value.locks == b.locks)
  {
    D.CreateKeepsInv(b, D.Record(id, p, status, []));
    hide D.Inv, D.Chain;
  }

  /** In an available partition, an allowed transition is accepted and touches only its record. */
  lemma TransitionAccepted(b: D.Book, id: string, target: D.Status)
    requires D.Inv(b) && id in b.records && D.Available(b, b.records[id].partition)
    requires D.Allowed(b.records[id].status, target) && target != D.RequiresReview
    ensures var r := D.Transition(b, id, target);
            && r.Ok? && D.Inv(r.value) && r.value.locks == b.locks
            && TouchesOnly(b, r.value, id, b.records[id].partition)
            && id in r.value.records && r.value.records[id].partition == b.records[id].partition
            && r.value.records[id].status == target
  {
    TransitionFree(b, id, target);
    D.TransitionKeepsInv(b, id, target);
    hide D.Inv, D.Chain;
  }

  lemma TransitionFree(b: D.Book, id: string, target: D.Status)
    requires id in b.records && D.Available(b, b.records[id].partition)
    requires D.Allowed(b.records[id].status, target) && target != D.RequiresReview
    ensures D.Transition(b, id, target).Ok?
  {
  }

  /** What one drain does to its own decision and partition leaves every other drain as it was. */
  lemma OthersUndisturbed(s: State, t: nat, b': D.Book, id: string, u: nat)
    requires Inv(s) && t in s.drains && u in s.drains && u != t
    requires TouchesOnly(s.book, b', id, PartitionOf(s, t))
    requires id in s.book.records ==> s.book.records[id].partition == PartitionOf(s, t)
    ensures D.Available(b', PartitionOf(s, u)) && DecisionOk(b', PartitionOf(s, u), s.drains[u]) && Running(s, u)
  {
    assert DrainOk(s, u);
    if PartitionOf(s, u) == PartitionOf(s, t) {
      OneDrainPerPartition(s, t, u);
    }
    hide Inv;
  }

  /**
    A review action on a decision in review always goes through: it changes that record only, and frees exactly the
    partition whose lock the decision held.  Any other review action changes nothing.
   */
  lemma ReviewTouches(b: D.Book, id: string, action: ReviewAction)
    requires D.Inv(b)
    ensures var b' := Reviewed(b, id, action);
            && D.Inv(b')
            && if id in b.records && b.records[id].status == D.RequiresReview then
                 var p := b.records[id].partition;
                 && p in b.locks && b.locks[p] == id && b'.locks == b.locks - {p}
                 && id in b'.records && b'.records == b.records[id := b'.records[id]]
                 && b'.records[id].partition == p
                 && (action == Approve ==> b'.records[id].status == D.Approved)
                 && (action == Discard ==> b'.records[id].status == D.Discarded)
                 && (action == Retry ==> b'.records[id].status == D.RetryRequested)
               else b' == b
  {
    D.PerformKeepsInv(b, D.TransitionOp(id, ReviewStatus(action)));
    if id in b.records {
      assert D.RecordOk(b, id);
    }
    hide D.Inv, D.Chain;
  }

  // ----- every step keeps the invariant

  lemma QueueKeepsInv(s: State, q: Q.Action)
    requires Inv(s) && Enabled(s, QueueStep(q))
    ensures Inv(After(s, QueueStep(q)))
  {
    Q.StepKeepsInv(s.queue, q);
    forall t | t in s.drains ensures DrainOk(After(s, QueueStep(q)), t) {
      assert DrainOk(s, t);
      StillRunning(s, q, t);
    }
    hide D.Inv, Q.Inv;
  }

  lemma StillRunning(s: State, q: Q.Action, t: nat)
    requires Inv(s) && Enabled(s, QueueStep(q)) && t in s.drains
    ensures Running(After(s, QueueStep(q)), t) && PartitionOf(After(s, QueueStep(q)), t) == PartitionOf(s, t)
  {
    assert DrainOk(s, t) && Q.StatusAt(s.queue, t) && Q.Handled(s.queue, t);
    hide D.Inv;
    if q.Loop? && s.queue.queues[s.queue.live[q.worker].partition] != [] {
      Q.StartsInOrder(s.queue, q.worker);
    }
  }

  lemma StartKeepsInv(s: State, t: nat)
    requires Inv(s) && Enabled(s, StartDrain(t))
    ensures Inv(After(s, StartDrain(t)))
  {
    hide Q.Inv, D.Inv;
    forall u | u in After(s, StartDrain(t)).drains ensures DrainOk(After(s, StartDrain(t)), u) {
      assert u != t ==> DrainOk(s, u);
    }
  }

  lemma CreateKeepsInv(s: State, t: nat, id: string, status: D.Status, next: Option<Phase>)
    requires Inv(s) && t in s.drains && s.drains[t].Assessing? && id !in s.book.records
    requires (status == D.RequiresReview && next == None) || (status == D.NoChange && next == None)
          || (status == D.Accepted && next == Some(Accepted(id)))
    ensures Inv(Called(Guarded(s, t), t, D.Create(s.book, D.Record(id, PartitionOf(s, t), status, [])), next))
  {
    hide Q.Inv, D.Inv, D.Create, InReview, TouchesOnly;
    var p := PartitionOf(s, t);
    assert DrainOk(s, t);
    CreateAccepted(s.book, id, p, status);
    NoReviewWhenAvailable(s.book, p);
    var b' := D.Create(s.book, D.Record(id, p, status, [])).value;
    forall u | u in s.drains && u != t
      ensures D.Available(b', PartitionOf(s, u)) && DecisionOk(b', PartitionOf(s, u), s.drains[u]) && Running(s, u)
    {
      OthersUndisturbed(s, t, b', id, u);
    }
  }

  lemma TransitionKeepsInv(s: State, t: nat, target: D.Status, next: Option<Phase>)
    requires Inv(s) && t in s.drains && !s.drains[t].Assessing?
    requires (s.drains[t].Accepted? && target == D.Applying && next == Some(Applying(s.drains[t].id)))
          || (s.drains[t].Applying? && (target == D.Applied || target == D.Failed) && next == None)
    ensures Inv(Called(s, t, D.Transition(s.book, s.drains[t].id, target), next))
  {
    hide Q.Inv, D.Inv, D.Transition, InReview, TouchesOnly;
    var id := s.drains[t].id;
    assert DrainOk(s, t);
    TransitionAccepted(s.book, id, target);
    var b' := D.Transition(s.book, id, target).value;
    forall u | u in s.drains && u != t
      ensures D.Available(b', PartitionOf(s, u)) && DecisionOk(b', PartitionOf(s, u), s.drains[u]) && Running(s, u)
    {
      OthersUndisturbed(s, t, b', id, u);
    }
  }

  lemma ReviewKeepsInv(s: State, id: string, action: ReviewAction)
    requires Inv(s)
    ensures Inv(After(s, Review(id, action)))
  {
    hide Q.Inv, D.Inv, Reviewed;
    ReviewTouches(s.book, id, action);
    var s' := After(s, Review(id, action));
    forall t | t in s.drains ensures DrainOk(s', t) {
      assert DrainOk(s, t);
    }
  }

  lemma WriteKeepsInv(s: State, t: nat)
    requires Inv(s) && t in s.drains
    ensures Inv(Guarded(s, t))
  {
    assert DrainOk(s, t);
    NoReviewWhenAvailable(s.book, PartitionOf(s, t));
    hide Q.Inv, D.Inv;
    forall u | u in s.drains ensures DrainOk(Guarded(s, t), u) {
      assert DrainOk(s, u);
    }
  }

  lemma AbandonKeepsInv(s: State, t: nat)
    requires Inv(s) && t in s.drains
    ensures Inv(s.(drains := s.drains - {t}))
  {
    hide Q.Inv, D.Inv;
    forall u | u in s.drains - {t} ensures DrainOk(s.(drains := s.drains - {t}), u) {
      assert DrainOk(s, u);
    }
  }

  lemma StepKeepsInv(s: State, a: Action)
    requires Inv(s) && Enabled(s, a)
    ensures Inv(After(s, a))
  {
    hide Inv, Called, Guarded, Q.Enabled, Q.After, Reviewed, D.Create, D.Transition;
    match a
    case QueueStep(q) => QueueKeepsInv(s, q);
    case StartDrain(t) => StartKeepsInv(s, t);
    case AbandonDrain(t) => AbandonKeepsInv(s, t);
    case Conclude(t, id, status) => CreateKeepsInv(s, t, id, status, None);
    case AcceptPlan(t, id) => CreateKeepsInv(s, t, id, D.Accepted, Some(Accepted(id)));
    case StartApplying(t) => TransitionKeepsInv(s, t, D.Applying, Some(Applying(s.drains[t].id)));
    case WriteFile(t) => WriteKeepsInv(s, t);
    case EndApplying(t, ok) => TransitionKeepsInv(s, t, if ok then D.Applied else D.Failed, None);
    case Review(id, action) => ReviewKeepsInv(s, id, action);
  }

  // ----- runs

  ghost predicate IsRun(actions: seq<Action>, states: seq<State>) {
    && |states| == |actions| + 1 && states[0] == INITIAL
    && forall i :: 0 <= i < |actions| ==>
      Enabled(states[i], actions[i]) && states[i + 1] == After(states[i], actions[i])
  }

  lemma InitialInv()
    ensures Inv(INITIAL)
  {
  }

  lemma {:induction false} RunKeepsInv(actions: seq<Action>, states: seq<State>, n: nat)
    requires IsRun(actions, states) && n <= |actions|
    ensures Inv(states[n])
  {
    hide Inv, After, Enabled;
    if n == 0 {
      InitialInv();
    } else {
      RunKeepsInv(actions, states, n - 1);
      StepKeepsInv(states[n - 1], actions[n - 1]);
    }
  }

  /**
    Main result, over every interleaving: no create or transition of a drain that found its partition available is
    ever rejected, no drain creates a decision or writes files in a partition with a decision in review, and no two
    drains are at work in one partition.
   */
  lemma DrainsUndisturbed(actions: seq<Action>, states: seq<State>, n: nat)
    requires IsRun(actions, states) && n <= |actions|
    ensures !states[n].rejected && !states[n].unsafe
    ensures forall t, u ::
              (t in states[n].drains && u in states[n].drains
               && PartitionOf(states[n], t) == PartitionOf(states[n], u)) ==> t == u
    ensures forall t :: t in states[n].drains ==> !InReview(states[n].book, PartitionOf(states[n], t))
  {
    RunKeepsInv(actions, states, n);
    var s := states[n];
    hide IsRun;
    forall t | t in s.drains ensures !InReview(s.book, PartitionOf(s, t)) {
      assert DrainOk(s, t);
      NoReviewWhenAvailable(s.book, PartitionOf(s, t));
    }
    forall t, u | t in s.drains && u in s.drains && PartitionOf(s, t) == PartitionOf(s, u) ensures t == u {
      assert DrainOk(s, u);
      OneDrainPerPartition(s, t, u);
    }
  }

  // ----- what each step does

  /** A decision is recorded in a partition where none is in review, with the lock if it needs a review. */
  ghost predicate Decided(s: State, t: nat, id: string, status: D.Status, s': State) {
    var p := PartitionOf(s, t);
    && !InReview(s.book, p) && id !in s.book.records && p !in s.book.locks
    && s'.book.records == s.book.records[id := D.Record(id, p, status, [D.Change(None, status)])]
    && s'.book.locks == if status == D.RequiresReview then s.book.locks[p := id] else s.book.locks
  }

  /** The drain's own decision goes on by one step; the locks stay. */
  ghost predicate MovesOn(s: State, t: nat, id: string, from: D.Status, target: D.Status, s': State) {
    && id in s.book.records && s.book.records[id].partition == PartitionOf(s, t) && s.book.records[id].status == from
    && s'.book.locks == s.book.locks
    && s'.book.records == s.book.records[id := s.book.records[id].(
         status := target, history := s.book.records[id].history + [D.Change(Some(from), target)])]
  }

  /** Review actions and steps of the queue leave the drains alone, and every call of a drain takes effect. */
  ghost predicate TakesEffect(s: State, a: Action, s': State) {
    && (a.QueueStep? || s'.queue == s.queue)
    && match a
    case QueueStep(q) => s'.book == s.book && s'.drains == s.drains
    case StartDrain(t) =>
      && s'.book == s.book && Running(s, t) && t !in s.drains
      && s'.drains == if PartitionOf(s, t) in s.book.locks then s.drains else s.drains[t := Assessing]
    case AbandonDrain(t) => s'.book == s.book && s'.drains == s.drains - {t}
    case Conclude(t, id, status) => Decided(s, t, id, status, s') && s'.drains == s.drains - {t}
    case AcceptPlan(t, id) => Decided(s, t, id, D.Accepted, s') && s'.drains == s.drains[t := Accepted(id)]
    case StartApplying(t) =>
      && t in s.drains && s.drains[t].Accepted? && MovesOn(s, t, s.drains[t].id, D.Accepted, D.Applying, s')
      && s'.drains == s.drains[t := Applying(s.drains[t].id)]
    case WriteFile(t) => s'.book == s.book && s'.drains == s.drains && !InReview(s.book, PartitionOf(s, t))
    case EndApplying(t, ok) =>
      && t in s.drains && s.drains[t].Applying?
      && MovesOn(s, t, s.drains[t].id, D.Applying, if ok then D.Applied else D.Failed, s')
      && s'.drains == s.drains - {t}
    case Review(id, action) =>
      && s'.drains == s.drains
      && (!(id in s.book.records && s.book.records[id].status == D.RequiresReview) ==> s'.book == s.book)
  }

  lemma CreateTakesEffect(s: State, t: nat, id: string, status: D.Status, next: Option<Phase>)
    requires Inv(s) && t in s.drains && id !in s.book.records
    ensures var s' := Called(Guarded(s, t), t, D.Create(s.book, D.Record(id, PartitionOf(s, t), status, [])), next);
            && Decided(s, t, id, status, s')
            && s'.drains == if next.Some? then s.drains[t := next.value] else s.drains - {t}
  {
    assert DrainOk(s, t);
    NoReviewWhenAvailable(s.book, PartitionOf(s, t));
    hide InReview, D.Inv, Q.Inv;
  }

  lemma MoveTakesEffect(s: State, t: nat, target: D.Status, next: Option<Phase>)
    requires Inv(s) && t in s.drains && !s.drains[t].Assessing? && target != D.RequiresReview
    requires D.Allowed(if s.drains[t].Accepted? then D.Accepted else D.Applying, target)
    ensures var s' := Called(s, t, D.Transition(s.book, s.drains[t].id, target), next);
            && MovesOn(s, t, s.drains[t].id, if s.drains[t].Accepted? then D.Accepted else D.Applying, target, s')
            && s'.drains == if next.Some? then s.drains[t := next.value] else s.drains - {t}
  {
    assert DrainOk(s, t);
    hide D.Inv, Q.Inv;
  }

  /** Main result, over every interleaving: each step of each drain takes effect in full. */
  lemma StepsTakeEffect(actions: seq<Action>, states: seq<State>, n: nat)
    requires IsRun(actions, states) && n < |actions|
    ensures TakesEffect(states[n], actions[n], states[n + 1])
  {
    RunKeepsInv(actions, states, n);
    var s := states[n];
    hide IsRun, Inv, Called, Decided, MovesOn, D.Create, D.Transition, Q.Enabled, Q.After, InReview, PartitionOf;
    match actions[n]
    case Conclude(t, id, status) => CreateTakesEffect(s, t, id, status, None);
    case AcceptPlan(t, id) => CreateTakesEffect(s, t, id, D.Accepted, Some(Accepted(id)));
    case StartApplying(t) => MoveTakesEffect(s, t, D.Applying, Some(Applying(s.drains[t].id)));
    case EndApplying(t, ok) => MoveTakesEffect(s, t, if ok then D.Applied else D.Failed, None);
    case WriteFile(t) => DrainsUndisturbed(actions, states, n);
    case _ =>
  }
}
