/**
  The per-partition FIFO scheduler: internal/backlog/tasks/queue.py.

  Coroutines are modelled as workers that are either at the head of their loop or
  awaiting a handler.  Each step below is the code between two awaits or a part of
  it, so every interleaving the event loop can produce is a sequence of steps.
  A task's number is its position in the order of `enqueue` calls.
 */
module TaskQueue {
  import opened Options

  datatype Status = Pending | Running | Completed | Failed

  datatype Task = Task(partition: string, status: Status, attempts: nat) {
    predicate Finished() {
      status == Completed || status == Failed
    }
  }

  datatype Phase = AtLoop | Awaiting(task: nat)

  datatype Worker = Worker(partition: string, phase: Phase)

  /** A pending `wait_idle`: the worker it awaits and how many tasks had been enqueued when it was called. */
  datatype Waiter = Waiter(partition: string, worker: Option<nat>, enqueued: nat)

  datatype State = State(
    queues: map<string, seq<nat>>, workers: map<string, nat>, tasks: seq<Task>,
    live: map<nat, Worker>, spawned: nat, waiters: set<Waiter>)

  datatype Action =
    | Enqueue(partition: string)
    | Loop(worker: nat)
    | HandlerReturns(worker: nat, ok: bool)
    | WaitIdle(partition: string)

  const INITIAL := State(map[], map[], [], map[], 0, {})

  predicate Enabled(s: State, a: Action) {
    match a
    case Enqueue(_) => true
    case Loop(w) =>
      && w in s.live && s.live[w].phase.AtLoop? && s.live[w].partition in s.queues
      && forall t :: t in s.queues[s.live[w].partition] ==> t < |s.tasks|
    case HandlerReturns(w, _) => w in s.live && s.live[w].phase.Awaiting? && s.live[w].phase.task < |s.tasks|
    case WaitIdle(_) => true
  }

  function QueueOf(s: State, p: string): seq<nat> {
    if p in s.queues then s.queues[p] else []
  }

  function AfterEnqueue(s: State, p: string): State {
    var s' := s.(
      tasks := s.tasks + [Task(p, Pending, 0)],
      queues := s.queues[p := QueueOf(s, p) + [|s.tasks|]]);
    if p in s.workers && s.workers[p] in s.live then s' else
    s'.(workers := s.workers[p := s.spawned],
        live := s.live[s.spawned := Worker(p, AtLoop)],
        spawned := s.spawned + 1)
  }

  function AfterLoop(s: State, w: nat): State
    requires Enabled(s, Loop(w))
  {
    var p := s.live[w].partition;
    var queue := s.queues[p];
    if queue == [] then
      s.(queues := s.queues - {p}, workers := s.workers - {p}, live := s.live - {w})
    else
      assert queue[0] in queue;
      var task := s.tasks[queue[0]];
      s.(queues := s.queues[p := queue[1..]],
         tasks := s.tasks[queue[0] := task.(status := Running, attempts := task.attempts + 1)],
         live := s.live[w := Worker(p, Awaiting(queue[0]))])
  }

  function AfterReturn(s: State, w: nat, ok: bool): State
    requires Enabled(s, HandlerReturns(w, ok))
  {
    var t := s.live[w].phase.task;
    s.(tasks := s.tasks[t := s.tasks[t].(status := if ok then Completed else Failed)],
       live := s.live[w := s.live[w].(phase := AtLoop)])
  }

  function AfterWait(s: State, p: string): State {
    s.(waiters := s.waiters + {Waiter(p, if p in s.workers then Some(s.workers[p]) else None, |s.tasks|)})
  }

  function After(s: State, a: Action): State
    requires Enabled(s, a)
  {
    match a
    case Enqueue(p) => AfterEnqueue(s, p)
    case Loop(w) => AfterLoop(s, w)
    case HandlerReturns(w, ok) => AfterReturn(s, w, ok)
    case WaitIdle(p) => AfterWait(s, p)
  }

  // ----- the invariant

  /** A partition has at most one live worker, the registered one, and exactly when it has a queue. */
  ghost predicate OneWorker(s: State) {
    && (forall w :: w in s.live ==>
      w < s.spawned && s.live[w].partition in s.workers && s.workers[s.live[w].partition] == w)
    && (forall p :: p in s.workers ==> s.workers[p] in s.live && s.live[s.workers[p]].partition == p)
    && s.queues.Keys == s.workers.Keys
  }

  predicate Queued(s: State, t: nat) {
    t < |s.tasks| && t in QueueOf(s, s.tasks[t].partition)
  }

  predicate Handled(s: State, t: nat) {
    && t < |s.tasks| && s.tasks[t].partition in s.workers
    && s.workers[s.tasks[t].partition] in s.live
    && s.live[s.workers[s.tasks[t].partition]].phase == Awaiting(t)
  }

  /** A task is pending exactly while it is queued, and running exactly while its partition's worker awaits it. */
  ghost predicate StatusMatches(s: State) {
    && (forall t: nat :: t < |s.tasks| ==> StatusAt(s, t))
    && Indexed(s)
  }

  predicate StatusAt(s: State, t: nat)
    requires t < |s.tasks|
  {
    && (s.tasks[t].status == Pending <==> Queued(s, t))
    && (s.tasks[t].status == Running <==> Handled(s, t))
  }

  /** Queue entries and awaited tasks are tasks of the partition they are filed under. */
  ghost predicate Indexed(s: State) {
    && (forall p, i :: p in s.queues && 0 <= i < |s.queues[p]| ==>
          s.queues[p][i] < |s.tasks| && s.tasks[s.queues[p][i]].partition == p)
    && (forall w :: w in s.live && s.live[w].phase.Awaiting? ==>
          s.live[w].phase.task < |s.tasks| && s.tasks[s.live[w].phase.task].partition == s.live[w].partition)
  }

  /** Queues are in enqueue order, and whatever has started was enqueued before whatever waits. */
  ghost predicate Fifo(s: State) {
    && (forall p :: p in s.queues ==> Ascending(s.queues[p]))
    && (forall t: nat, u: nat :: t < |s.tasks| && u < |s.tasks| && s.tasks[t].partition == s.tasks[u].partition ==>
          && (s.tasks[t].status != Pending && s.tasks[u].status == Pending ==> t < u)
          && (s.tasks[t].Finished() && s.tasks[u].status == Running ==> t < u))
  }

  predicate Ascending(queue: seq<nat>) {
    forall i, j :: 0 <= i < j < |queue| ==> queue[i] < queue[j]
  }

  predicate AllFinished(s: State, p: string, n: nat) {
    forall t: nat :: t < n && t < |s.tasks| && s.tasks[t].partition == p ==> s.tasks[t].Finished()
  }

  predicate MayReturn(s: State, w: Waiter) {
    w.worker.None? || w.worker.value !in s.live
  }

  /** When `wait_idle` may return, every task enqueued before the call has completed or failed. */
  ghost predicate WaitersSound(s: State) {
    forall w :: w in s.waiters ==>
      && w.enqueued <= |s.tasks|
      && (MayReturn(s, w) ==> AllFinished(s, w.partition, w.enqueued))
      && (w.worker.Some? ==> w.worker.value < s.spawned)
      && (w.worker.Some? && w.worker.value in s.live ==> s.live[w.worker.value].partition == w.partition)
  }

  ghost predicate Inv(s: State) {
    OneWorker(s) && StatusMatches(s) && Fifo(s) && WaitersSound(s)
  }

  /** An idle partition has nothing left to do. */
  lemma IdleFinished(s: State, p: string)
    requires OneWorker(s) && StatusMatches(s) && p !in s.workers
    ensures AllFinished(s, p, |s.tasks|)
  {
    forall t: nat | t < |s.tasks| && s.tasks[t].partition == p ensures s.tasks[t].Finished() {
      assert StatusAt(s, t) && !Queued(s, t) && !Handled(s, t);
    }
  }

  /** No step is ever blocked by the dictionaries: a live worker can always take its next one. */
  lemma WorkersCanStep(s: State, w: nat)
    requires Inv(s) && w in s.live
    ensures s.live[w].phase.AtLoop? ==> Enabled(s, Loop(w))
    ensures s.live[w].phase.Awaiting? ==> forall ok :: Enabled(s, HandlerReturns(w, ok))
  {
    var queue := s.queues[s.live[w].partition];
    assert forall i :: 0 <= i < |queue| ==> queue[i] < |s.tasks|;
  }

  lemma EnqueueKeepsWorker(s: State, p: string)
    requires OneWorker(s) && Indexed(s)
    ensures OneWorker(AfterEnqueue(s, p)) && Indexed(AfterEnqueue(s, p))
  {
    EnqueueKeepsOneWorker(s, p);
    EnqueueKeepsIndexed(s, p);
  }

  lemma EnqueueKeepsOneWorker(s: State, p: string)
    requires OneWorker(s)
    ensures OneWorker(AfterEnqueue(s, p))
  {
  }

  lemma EnqueueKeepsIndexed(s: State, p: string)
    requires OneWorker(s) && Indexed(s)
    ensures Indexed(AfterEnqueue(s, p))
  {
    var s' := AfterEnqueue(s, p);
    assert s'.queues[p] == QueueOf(s, p) + [|s.tasks|];
  }

  lemma EnqueueKeepsStatusAt(s: State, p: string, t: nat)
    requires OneWorker(s) && StatusMatches(s) && t < |s.tasks|
    ensures StatusAt(AfterEnqueue(s, p), t)
  {
    var s' := AfterEnqueue(s, p);
    assert StatusAt(s, t);
    assert s'.tasks[t] == s.tasks[t];
    assert Queued(s', t) <==> Queued(s, t);
    assert Handled(s', t) <==> Handled(s, t);
  }

  lemma EnqueueKeepsStatus(s: State, p: string)
    requires OneWorker(s) && StatusMatches(s)
    ensures OneWorker(AfterEnqueue(s, p)) && StatusMatches(AfterEnqueue(s, p))
  {
    EnqueueKeepsWorker(s, p);
    forall t: nat | t < |s.tasks| ensures StatusAt(AfterEnqueue(s, p), t) {
      EnqueueKeepsStatusAt(s, p, t);
    }
    NewTaskQueued(s, p);
  }

  lemma NewTaskQueued(s: State, p: string)
    requires OneWorker(s) && Indexed(s)
    ensures StatusAt(AfterEnqueue(s, p), |s.tasks|)
  {
    var s' := AfterEnqueue(s, p);
    var n := |s.tasks|;
    assert s'.tasks[n] == Task(p, Pending, 0) && s'.queues[p][|QueueOf(s, p)|] == n;
  }

  lemma EnqueueKeepsFifo(s: State, p: string)
    requires Indexed(s) && Fifo(s)
    ensures Fifo(AfterEnqueue(s, p))
  {
    var s' := AfterEnqueue(s, p);
    assert Ascending(s'.queues[p]) by {
      assert forall i :: 0 <= i < |QueueOf(s, p)| ==> QueueOf(s, p)[i] < |s.tasks|;
    }
    assert forall q :: q in s'.queues && q != p ==> s'.queues[q] == s.queues[q];
  }

  lemma EnqueueKeepsWaiters(s: State, p: string)
    requires Inv(s)
    ensures WaitersSound(AfterEnqueue(s, p))
  {
    if p !in s.workers {
      IdleFinished(s, p);
    }
  }

  lemma EnqueueKeepsInv(s: State, p: string)
    requires Inv(s)
    ensures Inv(AfterEnqueue(s, p))
  {
    EnqueueKeepsStatus(s, p);
    EnqueueKeepsFifo(s, p);
    EnqueueKeepsWaiters(s, p);
  }

  /** An empty queue at the head of the loop: the worker removes its entries and ends. */
  lemma LoopEndKeepsInv(s: State, w: nat)
    requires Inv(s) && Enabled(s, Loop(w)) && s.queues[s.live[w].partition] == []
    ensures Inv(AfterLoop(s, w))
  {
    var s' := AfterLoop(s, w);
    var p := s.live[w].partition;
    forall t: nat | t < |s.tasks| ensures StatusAt(s', t) {
      assert StatusAt(s, t) && (Queued(s', t) <==> Queued(s, t)) && (Handled(s', t) <==> Handled(s, t));
    }
    forall t: nat | t < |s.tasks| && s.tasks[t].partition == p ensures s.tasks[t].Finished() {
      assert StatusAt(s, t) && !Queued(s, t) && !Handled(s, t);
    }
  }

  lemma LoopStartKeepsWorker(s: State, w: nat)
    requires OneWorker(s) && Indexed(s) && Enabled(s, Loop(w)) && s.queues[s.live[w].partition] != []
    ensures OneWorker(AfterLoop(s, w)) && Indexed(AfterLoop(s, w))
  {
  }

  lemma LoopStartKeepsStatusAt(s: State, w: nat, t: nat)
    requires Inv(s) && Enabled(s, Loop(w)) && s.queues[s.live[w].partition] != [] && t < |s.tasks|
    ensures StatusAt(AfterLoop(s, w), t)
  {
    var s' := AfterLoop(s, w);
    var queue := s.queues[s.live[w].partition];
    var head := queue[0];
    assert queue == [head] + queue[1..];
    assert forall i :: 0 < i < |queue| ==> queue[i] != head;
    assert StatusAt(s, t);
    assert t != head ==> (Queued(s', t) <==> Queued(s, t));
    assert t != head ==> (Handled(s', t) <==> Handled(s, t));
  }

  /** The task a worker starts was enqueued after every started task and before every other waiting one. */
  lemma StartsInOrder(s: State, w: nat)
    requires Inv(s) && Enabled(s, Loop(w)) && s.queues[s.live[w].partition] != []
    ensures var p, head := s.live[w].partition, s.queues[s.live[w].partition][0];
            && head < |s.tasks| && s.tasks[head].partition == p && s.tasks[head].status == Pending
            && AllFinished(s, p, head)
            && forall t: nat :: head < t < |s.tasks| && s.tasks[t].partition == p ==> s.tasks[t].status == Pending
  {
    var p, queue := s.live[w].partition, s.queues[s.live[w].partition];
    var head := queue[0];
    assert StatusAt(s, head) && Queued(s, head);
    forall t: nat | t < head && s.tasks[t].partition == p ensures s.tasks[t].Finished() {
      assert StatusAt(s, t) && !Queued(s, t) && !Handled(s, t);
    }
    forall t: nat | head < t < |s.tasks| && s.tasks[t].partition == p ensures s.tasks[t].status == Pending {
      assert StatusAt(s, t);
    }
  }

  lemma LoopStartKeepsFifo(s: State, w: nat)
    requires Inv(s) && Enabled(s, Loop(w)) && s.queues[s.live[w].partition] != []
    ensures Fifo(AfterLoop(s, w))
  {
    StartsInOrder(s, w);
  }

  lemma LoopStartKeepsWaiters(s: State, w: nat)
    requires Inv(s) && Enabled(s, Loop(w)) && s.queues[s.live[w].partition] != []
    ensures WaitersSound(AfterLoop(s, w))
  {
    StartsInOrder(s, w);
  }

  lemma LoopStartKeepsInv(s: State, w: nat)
    requires Inv(s) && Enabled(s, Loop(w)) && s.queues[s.live[w].partition] != []
    ensures Inv(AfterLoop(s, w))
  {
    LoopStartKeepsWorker(s, w);
    forall t: nat | t < |s.tasks| ensures StatusAt(AfterLoop(s, w), t) {
      LoopStartKeepsStatusAt(s, w, t);
    }
    LoopStartKeepsFifo(s, w);
    LoopStartKeepsWaiters(s, w);
  }

  lemma ReturnKeepsInv(s: State, w: nat, ok: bool)
    requires Inv(s) && Enabled(s, HandlerReturns(w, ok))
    ensures Inv(AfterReturn(s, w, ok))
  {
    hide Ascending;
    var s' := AfterReturn(s, w, ok);
    var done := s.live[w].phase.task;
    assert StatusAt(s, done) && Handled(s, done);
    forall u: nat | u < |s.tasks| && s.tasks[u].partition == s.tasks[done].partition && u != done
      ensures s.tasks[u].status != Running
    {
      assert StatusAt(s, u);
    }
    forall t: nat | t < |s.tasks|
      ensures StatusAt(s', t)
    {
      assert StatusAt(s, t);
      assert Queued(s', t) <==> Queued(s, t);
      assert t != done ==> (Handled(s', t) <==> Handled(s, t));
    }
  }

  lemma WaitKeepsInv(s: State, p: string)
    requires Inv(s)
    ensures Inv(AfterWait(s, p))
  {
    if p !in s.workers {
      IdleFinished(s, p);
    }
    var s' := AfterWait(s, p);
    forall t: nat | t < |s.tasks|
      ensures StatusAt(s', t)
    {
      assert StatusAt(s, t);
      assert Queued(s', t) <==> Queued(s, t);
      assert Handled(s', t) <==> Handled(s, t);
    }
  }

  lemma StepKeepsInv(s: State, a: Action)
    requires Inv(s) && Enabled(s, a)
    ensures Inv(After(s, a))
  {
    match a
    case Enqueue(p) => EnqueueKeepsInv(s, p);
    case Loop(w) =>
      if s.queues[s.live[w].partition] == [] {
        LoopEndKeepsInv(s, w);
      } else {
        LoopStartKeepsInv(s, w);
      }
    case HandlerReturns(w, ok) => ReturnKeepsInv(s, w, ok);
    case WaitIdle(p) => WaitKeepsInv(s, p);
  }

  // ----- runs

  /** `states` is what the scheduler went through while performing `actions`. */
  ghost predicate IsRun(actions: seq<Action>, states: seq<State>) {
    && |states| == |actions| + 1 && states[0] == INITIAL
    && forall i :: 0 <= i < |actions| ==>
      Enabled(states[i], actions[i]) && states[i + 1] == After(states[i], actions[i])
  }

  lemma {:induction false} RunKeepsInv(actions: seq<Action>, states: seq<State>, n: nat)
    requires IsRun(actions, states) && n <= |actions|
    ensures Inv(states[n])
  {
    if n > 0 {
      RunKeepsInv(actions, states, n - 1);
      StepKeepsInv(states[n - 1], actions[n - 1]);
    }
  }

  predicate RunsIn(s: State, t: nat, p: string) {
    t < |s.tasks| && s.tasks[t].partition == p && s.tasks[t].status == Running
  }

  /** Main result, over every interleaving: one worker and one running task per partition, and no lost work. */
  lemma Serialised(actions: seq<Action>, states: seq<State>, n: nat)
    requires IsRun(actions, states) && n <= |actions|
    ensures var s := states[n];
            && (forall v, w :: v in s.live && w in s.live && s.live[v].partition == s.live[w].partition ==> v == w)
            && (forall t: nat, u: nat, p :: RunsIn(s, t, p) && RunsIn(s, u, p) ==> t == u)
            && (forall t: nat :: t < |s.tasks| && s.tasks[t].status == Pending ==>
                  s.tasks[t].partition in s.workers && s.workers[s.tasks[t].partition] in s.live)
  {
    RunKeepsInv(actions, states, n);
    var s := states[n];
    forall t: nat | t < |s.tasks|
      ensures s.tasks[t].status == Running ==> Handled(s, t)
      ensures s.tasks[t].status == Pending ==> Queued(s, t)
    {
      assert StatusAt(s, t);
    }
  }

  /** Main result: `wait_idle` returns only when every task enqueued in its partition before the call has finished. */
  lemma WaitIdleSound(actions: seq<Action>, states: seq<State>, call: nat, n: nat, p: string)
    requires IsRun(actions, states) && call < n <= |actions| && actions[call] == WaitIdle(p)
    requires var s := states[call]; MayReturn(states[n],
              Waiter(p, if p in s.workers then Some(s.workers[p]) else None, |s.tasks|))
    ensures AllFinished(states[n], p, |states[call].tasks|)
  {
    var s := states[call];
    var waiter := Waiter(p, if p in s.workers then Some(s.workers[p]) else None, |s.tasks|);
    WaiterRemembered(actions, states, call + 1, n, waiter);
    RunKeepsInv(actions, states, n);
  }

  lemma {:induction false} WaiterRemembered(actions: seq<Action>, states: seq<State>, m: nat, n: nat, waiter: Waiter)
    requires IsRun(actions, states) && m <= n <= |actions| && waiter in states[m].waiters
    ensures waiter in states[n].waiters
  {
    if m < n {
      WaiterRemembered(actions, states, m, n - 1, waiter);
    }
  }

  /** Main result: tasks of one partition start in the order in which they were enqueued. */
  lemma {:induction false} StartOrder(actions: seq<Action>, states: seq<State>, n: nat, t: nat, u: nat)
    requires IsRun(actions, states) && n <= |actions| && t < u < |states[n].tasks|
    requires states[n].tasks[t].partition == states[n].tasks[u].partition && states[n].tasks[u].status != Pending
    ensures states[n].tasks[t].Finished()
  {
    RunKeepsInv(actions, states, n);
    var s := states[n];
    assert StatusAt(s, t) && StatusAt(s, u);
  }

  lemma NextIsFree(s: State)
    requires Inv(s)
    ensures s.spawned !in s.live
  {
  }

  /** No task is attempted twice. */
  lemma {:induction false} AttemptedOnce(actions: seq<Action>, states: seq<State>, n: nat, t: nat)
    requires IsRun(actions, states) && n <= |actions| && t < |states[n].tasks|
    ensures states[n].tasks[t].attempts == if states[n].tasks[t].status == Pending then 0 else 1
  {
    if n > 0 {
      RunKeepsInv(actions, states, n - 1);
      var s, a := states[n - 1], actions[n - 1];
      assert states[n] == After(s, a);
      if t < |s.tasks| {
        AttemptedOnce(actions, states, n - 1, t);
        assert StatusAt(s, t);
        if a.Loop? && s.queues[s.live[a.worker].partition] != [] {
          StartsInOrder(s, a.worker);
        }
        if a.HandlerReturns? {
          assert StatusAt(s, s.live[a.worker].phase.task) && Handled(s, s.live[a.worker].phase.task);
        }
      }
    }
  }

  /**
    Main result: a finished task was finished by the return of its own handler, completed if that returned and failed if
    it raised, and it stays so.
   */
  lemma {:induction false} FinishedBy(actions: seq<Action>, states: seq<State>, n: nat, t: nat)
    returns (k: nat, w: nat, ok: bool)
    requires IsRun(actions, states) && n <= |actions| && t < |states[n].tasks| && states[n].tasks[t].Finished()
    ensures k < n && actions[k] == HandlerReturns(w, ok)
    ensures w in states[k].live && states[k].live[w].phase == Awaiting(t)
    ensures states[n].tasks[t].status == if ok then Completed else Failed
    ensures forall m :: k < m <= n ==> t < |states[m].tasks| && states[m].tasks[t] == states[n].tasks[t]
  {
    hide Inv, After, Enabled;
    RunKeepsInv(actions, states, n - 1);
    var s, a := states[n - 1], actions[n - 1];
    assert Enabled(s, a) && states[n] == After(s, a);
    StepFinishes(s, a, t);
    if a.HandlerReturns? && a.worker in s.live && s.live[a.worker].phase == Awaiting(t) {
      k, w, ok := n - 1, a.worker, a.ok;
    } else {
      k, w, ok := FinishedBy(actions, states, n - 1, t);
    }
  }

  /** Only the return of its own handler finishes a task. */
  lemma StepFinishes(s: State, a: Action, t: nat)
    requires Inv(s) && Enabled(s, a) && t < |After(s, a).tasks| && After(s, a).tasks[t].Finished()
    ensures t < |s.tasks|
    ensures if a.HandlerReturns? && a.worker in s.live && s.live[a.worker].phase == Awaiting(t)
            then After(s, a).tasks[t].status == (if a.ok then Completed else Failed)
            else s.tasks[t] == After(s, a).tasks[t]
  {
    if t < |s.tasks| {
      assert StatusAt(s, t);
    }
    if a.Loop? && s.queues[s.live[a.worker].partition] != [] {
      StartsInOrder(s, a.worker);
    }
  }

  ghost function LoopStep(s: State, w: nat): (next: State)
    requires Inv(s) && w in s.live && s.live[w].phase.AtLoop?
    ensures Enabled(s, Loop(w)) && next == AfterLoop(s, w) && Inv(next)
    ensures var queue := s.queues[s.live[w].partition]; queue != [] ==> queue[0] < |s.tasks|
  {
    WorkersCanStep(s, w);
    StepKeepsInv(s, Loop(w));
    var queue := s.queues[s.live[w].partition];
    assert queue != [] ==> queue[0] in queue;
    AfterLoop(s, w)
  }

  // ----- the scheduler object

  class PartitionTaskQueue {
    var queues: map<string, seq<nat>>
    var workers: map<string, nat>
    var tasks: seq<Task>
    /** The coroutines the event loop still runs; `done()` of a worker is absence from this map. */
    var live: map<nat, Worker>
    var spawned: nat
    ghost var waiters: set<Waiter>

    ghost function Abstract(): State
      reads this
    {
      State(queues, workers, tasks, live, spawned, waiters)
    }

    constructor ()
      ensures Abstract() == INITIAL && Inv(Abstract())
    {
      queues, workers, tasks, live, spawned, waiters := map[], map[], [], map[], 0, {};
    }

    method EnqueueTask(partition: string) returns (task: nat)
      requires Inv(Abstract())
      modifies this
      ensures Abstract() == After(old(Abstract()), Enqueue(partition)) && Inv(Abstract())
      ensures task == old(|tasks|) && tasks == old(tasks) + [Task(partition, Pending, 0)]
      ensures partition in queues && queues[partition] ==
                (if partition in old(queues) then old(queues[partition]) else []) + [task]
      ensures queues == old(queues)[partition := queues[partition]]
      ensures partition in workers && workers[partition] in live
      ensures forall w :: w in old(live) ==> w in live && live[w] == old(live)[w]
    {
      NextIsFree(Abstract());
      hide Inv;
      EnqueueKeepsInv(Abstract(), partition);
      task := |tasks|;
      tasks := tasks + [Task(partition, Pending, 0)];
      var queue := if partition in queues then queues[partition] else [];
      queues := queues[partition := queue + [task]];
      if partition !in workers || workers[partition] !in live {
        live := live[spawned := Worker(partition, AtLoop)];
        workers := workers[partition := spawned];
        spawned := spawned + 1;
      }
    }

    /** From the head of the loop of `_drain` to the await of the next handler, or to the end of the coroutine. */
    method DrainStep(w: nat)
      requires Inv(Abstract()) && w in live && live[w].phase.AtLoop?
      modifies this
      ensures old(Enabled(Abstract(), Loop(w)))
      ensures Abstract() == After(old(Abstract()), Loop(w)) && Inv(Abstract())
      ensures var partition, queue := old(live[w].partition), old(queues[live[w].partition]);
              if queue == [] then
                && queues == old(queues) - {partition} && workers == old(workers) - {partition}
                && live == old(live) - {w} && tasks == old(tasks)
              else
                && queues == old(queues)[partition := queue[1..]] && workers == old(workers)
                && queue[0] < |old(tasks)| && live == old(live)[w := Worker(partition, Awaiting(queue[0]))]
                && var task := old(tasks)[queue[0]];
                   tasks == old(tasks)[queue[0] := Task(task.partition, Running, task.attempts + 1)]
    {
      hide Inv;
      ghost var next := LoopStep(Abstract(), w);
      var partition := live[w].partition;
      var queue := queues[partition];
      if queue != [] {
        var task := queue[0];
        queues := queues[partition := queue[1..]];
        tasks := tasks[task := tasks[task].(status := Running, attempts := tasks[task].attempts + 1)];
        live := live[w := Worker(partition, Awaiting(task))];
      } else {
        queues := queues - {partition};
        workers := workers - {partition};
        live := live - {w};
      }
      assert Abstract() == next;
    }

    /** The awaited handler returned (`ok`) or raised an `Exception`. */
    method HandlerReturned(w: nat, ok: bool)
      requires Inv(Abstract()) && w in live && live[w].phase.Awaiting?
      modifies this
      ensures old(Enabled(Abstract(), HandlerReturns(w, ok)))
      ensures Abstract() == After(old(Abstract()), HandlerReturns(w, ok)) && Inv(Abstract())
      ensures var t := old(live[w].phase.task);
              && t < |old(tasks)|
              && tasks == old(tasks)[t := old(tasks)[t].(status := if ok then Completed else Failed)]
              && live == old(live)[w := Worker(old(live[w].partition), AtLoop)]
              && queues == old(queues) && workers == old(workers)
    {
      WorkersCanStep(Abstract(), w);
      StepKeepsInv(Abstract(), HandlerReturns(w, ok));
      var task := live[w].phase.task;
      tasks := tasks[task := tasks[task].(status := if ok then Completed else Failed)];
      live := live[w := Worker(live[w].partition, AtLoop)];
    }

    /** The first half of `wait_idle`: the worker to await, if any. */
    method StartWaitIdle(partition: string) returns (worker: Option<nat>)
      requires Inv(Abstract())
      modifies this
      ensures Abstract() == After(old(Abstract()), WaitIdle(partition)) && Inv(Abstract())
      ensures worker == if partition in workers then Some(workers[partition]) else None
      ensures waiters == old(waiters) + {Waiter(partition, worker, |tasks|)}
      ensures queues == old(queues) && workers == old(workers) && tasks == old(tasks) && live == old(live)
      ensures worker.None? ==> AllFinished(Abstract(), partition, |tasks|)
    {
      WaitKeepsInv(Abstract(), partition);
      worker := if partition in workers then Some(workers[partition]) else None;
      waiters := waiters + {Waiter(partition, worker, |tasks|)};
    }
  }
}
