/** The worker pool's records and rules (src/worker/worker-pool.ts), as functions on values.
    Thread, turn, worker and directory names are opaque, so they are numbers here; worker
    numbers are handed out in increasing order, so the order of numbers is the insertion
    order in which the source's Map is scanned. */
module Pools {
  import opened Common

  type ThreadId = nat
  type TurnId = nat
  type WorkerId = nat
  type Directory = nat

  datatype WorkerState = Starting | Idle | Assigned | Running | Crashed | Stopped

  /** A worker object with what the pool's WeakMap and WeakSets record about it.  The last
      two fields are history: how often it was reserved for assignment, and every thread it
      was ever bound to. */
  datatype Worker = Worker(
    cwd: Directory,
    state: WorkerState,
    thread: Option<ThreadId>,
    activeTurn: Option<TurnId>,
    aborting: Option<TurnId>,
    lastUsed: nat,
    commands: nat,
    reservations: nat,
    claimed: bool,
    retiring: bool,
    assignments: nat,
    boundTo: set<ThreadId>)

  datatype Options = Options(minWorkers: nat, maxWorkers: nat, reuseAcrossThreads: bool)

  /** `workers` holds every worker object ever made, `members` those in the pool's map.
      `attempts` counts the recoveries scheduled since the delay was last reset. */
  datatype Pool = Pool(
    options: Options,
    workers: map<WorkerId, Worker>,
    members: set<WorkerId>,
    nextWorker: WorkerId,
    stopped: bool,
    timer: bool,
    delay: nat,
    attempts: nat)

  predicate Available(x: Worker) {
    x.state != Crashed && x.state != Stopped
  }

  predicate Quiescent(x: Worker) {
    && (x.state == Idle || x.state == Assigned)
    && x.activeTurn == None && x.aborting == None && !x.retiring
    && x.reservations == 0 && x.commands == 0
  }

  /** `persisted` is what the session catalog answers for the reclaim predicate. */
  predicate Reclaimable(x: Worker, persisted: set<ThreadId>) {
    Quiescent(x) && (x.thread.Some? ==> x.thread.value in persisted)
  }

  predicate WellFormed(p: Pool) {
    && p.members <= p.workers.Keys
    && (forall w <- p.workers :: w < p.nextWorker)
    && |p.members| <= p.options.maxWorkers
  }

  function Target(o: Options): nat {
    Min(o.minWorkers, o.maxWorkers)
  }

  // ---------------------------------------------------------------- looking up a thread

  predicate Serves(p: Pool, w: WorkerId, thread: ThreadId) {
    && w in p.members && w in p.workers
    && p.workers[w].thread == Some(thread)
    && !p.workers[w].retiring
    && Available(p.workers[w])
  }

  /** The first worker from number `from` on that serves the thread. */
  function FindFrom(p: Pool, thread: ThreadId, from: WorkerId): (r: Option<WorkerId>)
    ensures r.Some? ==> from <= r.value && Serves(p, r.value, thread)
                        && forall v: WorkerId :: from <= v < r.value ==> !Serves(p, v, thread)
    ensures r == None ==> forall v: WorkerId :: from <= v < p.nextWorker ==> !Serves(p, v, thread)
    decreases p.nextWorker - from
  {
    if from >= p.nextWorker then None
    else if Serves(p, from, thread) then Some(from)
    else FindFrom(p, thread, from + 1)
  }

  function Find(p: Pool, thread: ThreadId): (r: Option<WorkerId>)
    ensures r.Some? ==> Serves(p, r.value, thread)
    ensures WellFormed(p) && r == None ==> forall v: WorkerId :: !Serves(p, v, thread)
  {
    FindFrom(p, thread, 0)
  }

  // ---------------------------------------------------------------- reservations

  predicate CanRetain(p: Pool, w: WorkerId) {
    !p.stopped && w in p.members && w in p.workers && !p.workers[w].retiring && Available(p.workers[w])
  }

  function Retained(x: Worker): Worker {
    x.(reservations := x.reservations + 1)
  }

  /** Reserving for assignment also detaches the previous thread. */
  function Reserved(x: Worker): Worker {
    x.(reservations := x.reservations + 1, claimed := true, thread := None, assignments := x.assignments + 1)
  }

  function Released(x: Worker, now: nat): Worker {
    var remaining := if x.reservations > 0 then x.reservations - 1 else 0;
    if !Available(x) || x.retiring then x.(reservations := remaining)
    else if remaining > 0 || x.activeTurn.Some? then x.(reservations := remaining, lastUsed := now)
    else x.(reservations := remaining, lastUsed := now, state := if x.thread.Some? then Assigned else Idle)
  }

  /** Retiring marks the worker and stops its process. */
  function Retired(x: Worker): Worker {
    x.(retiring := true, state := Stopped)
  }

  /** What the event handler writes when an agent run begins or settles, whatever the state was:
      a settled run ends the abort of this very turn. */
  function Reported(x: Worker, settled: bool): Worker {
    if !settled then x.(state := Running)
    else x.(state := Assigned, aborting := if x.activeTurn.Some? && x.aborting == x.activeTurn then None else x.aborting)
  }

  function Bound(x: Worker, thread: ThreadId): Worker {
    x.(thread := Some(thread), boundTo := x.boundTo + {thread})
  }

  // ---------------------------------------------------------------- choosing a worker

  datatype Choice = Reuse(w: WorkerId) | Evict(w: WorkerId) | Spawn | Full

  /** May this worker be reused for a new assignment in `cwd`? */
  predicate Eligible(p: Pool, persisted: set<ThreadId>, cwd: Directory, w: WorkerId) {
    && w in p.members && w in p.workers
    && Reclaimable(p.workers[w], persisted)
    && (p.options.reuseAcrossThreads || !p.workers[w].claimed)
    && p.workers[w].cwd == cwd
  }

  predicate Evictable(p: Pool, persisted: set<ThreadId>, w: WorkerId) {
    w in p.members && w in p.workers && Reclaimable(p.workers[w], persisted)
  }

  /** The whole selection rule: the first eligible worker is reused; without one, a pool
      below its limit spawns; a full pool evicts the least recently used reclaimable
      worker (the first of equals); and only without any is it out of capacity. */
  ghost predicate Chooses(p: Pool, persisted: set<ThreadId>, cwd: Directory, choice: Choice) {
    match choice
    case Reuse(w) =>
      Eligible(p, persisted, cwd, w) && forall v: WorkerId :: v < w ==> !Eligible(p, persisted, cwd, v)
    case Evict(w) =>
      && (forall v: WorkerId :: !Eligible(p, persisted, cwd, v))
      && |p.members| >= p.options.maxWorkers
      && Evictable(p, persisted, w)
      && forall v: WorkerId :: Evictable(p, persisted, v) ==>
           p.workers[w].lastUsed < p.workers[v].lastUsed || (p.workers[w].lastUsed == p.workers[v].lastUsed && w <= v)
    case Spawn =>
      (forall v: WorkerId :: !Eligible(p, persisted, cwd, v)) && |p.members| < p.options.maxWorkers
    case Full =>
      && (forall v: WorkerId :: !Eligible(p, persisted, cwd, v))
      && |p.members| >= p.options.maxWorkers
      && (forall v: WorkerId :: !Evictable(p, persisted, v))
  }

  /** The rule leaves no freedom. */
  lemma ChoiceIsUnique(p: Pool, persisted: set<ThreadId>, cwd: Directory, a: Choice, b: Choice)
    requires Chooses(p, persisted, cwd, a) && Chooses(p, persisted, cwd, b)
    ensures a == b
  {
  }

  /** What the rule says of each worker `v`: at rest in the directory it is reused, unless an older
      one is; at rest at all it keeps a full pool from being out of capacity, and only the one that
      was used least recently is evicted. */
  lemma ChoiceMeans(p: Pool, persisted: set<ThreadId>, cwd: Directory, choice: Choice, v: WorkerId)
    requires Chooses(p, persisted, cwd, choice) && v in p.members && v in p.workers
    ensures var x := p.workers[v];
      var atRest := && (x.state == Idle || x.state == Assigned)
                    && x.activeTurn == None && x.aborting == None && !x.retiring
                    && x.reservations == 0 && x.commands == 0
                    && (x.thread.Some? ==> x.thread.value in persisted);
      var fits := x.cwd == cwd && (p.options.reuseAcrossThreads || !x.claimed);
      && (atRest && fits ==> choice.Reuse? && choice.w <= v)
      && (choice == Reuse(v) ==> atRest && fits)
      && (choice == Evict(v) ==> atRest)
      && (atRest && choice.Evict? ==>
            && choice.w in p.workers
            && (p.workers[choice.w].lastUsed < x.lastUsed || (p.workers[choice.w].lastUsed == x.lastUsed && choice.w <= v)))
      && (atRest ==> choice != Full)
    ensures choice.Spawn? ==> |p.members| < p.options.maxWorkers
    ensures choice.Evict? || choice.Full? ==> |p.members| >= p.options.maxWorkers
  {
    assert Eligible(p, persisted, cwd, v) ==> choice.Reuse? && choice.w <= v;
    assert Evictable(p, persisted, v) ==> choice != Full;
  }

  /** Nor is it ever stuck. */
  lemma ChoiceExists(p: Pool, persisted: set<ThreadId>, cwd: Directory) returns (choice: Choice)
    requires WellFormed(p)
    ensures Chooses(p, persisted, cwd, choice)
  {
    var w: WorkerId := 0;
    while w < p.nextWorker && !Eligible(p, persisted, cwd, w)
      invariant w <= p.nextWorker && forall v: WorkerId :: v < w ==> !Eligible(p, persisted, cwd, v)
    {
      w := w + 1;
    }
    if w < p.nextWorker {
      return Reuse(w);
    }
    choice := if |p.members| < p.options.maxWorkers then Spawn else Full;
    w := 0;
    while choice != Spawn && w < p.nextWorker
      invariant w <= p.nextWorker && (choice == Spawn || choice == Full || (choice.Evict? && choice.w < w))
      invariant choice == Spawn <==> |p.members| < p.options.maxWorkers
      invariant choice == Full ==> forall v: WorkerId :: v < w ==> !Evictable(p, persisted, v)
      invariant choice.Evict? ==> Evictable(p, persisted, choice.w) && forall v: WorkerId :: v < w && Evictable(p, persisted, v) ==>
        p.workers[choice.w].lastUsed < p.workers[v].lastUsed
        || (p.workers[choice.w].lastUsed == p.workers[v].lastUsed && choice.w <= v)
    {
      if Evictable(p, persisted, w) && (choice == Full || p.workers[w].lastUsed < p.workers[choice.w].lastUsed) {
        choice := Evict(w);
      }
      w := w + 1;
    }
  }

  // ---------------------------------------------------------------- keeping the minimum

  const FIRST_DELAY: nat := 1_000
  const LAST_DELAY: nat := 30_000

  /** The delay before recovery number `k` (from 0) since the last reset. */
  function Backoff(k: nat): nat {
    Min(FIRST_DELAY * Power2(k), LAST_DELAY)
  }

  function Power2(k: nat): (r: nat)
    ensures r >= 1
  {
    if k == 0 then 1 else 2 * Power2(k - 1)
  }

  function ScheduleRecovery(p: Pool): Pool {
    if p.stopped || p.timer || |p.members| >= Target(p.options) then p
    else p.(timer := true, delay := Min(p.delay * 2, LAST_DELAY), attempts := p.attempts + 1)
  }
}
