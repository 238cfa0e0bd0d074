/** The pool object (src/worker/worker-pool.ts): its methods change its fields in place and are
    specified by the functions on values that the step machine is made of. */
module WorkerPools {
  import opened Common
  import opened Pools

  class WorkerPool {
    const options: Options
    var workers: map<WorkerId, Worker>
    var members: set<WorkerId>
    var nextWorker: WorkerId
    var stopped: bool
    var timer: bool
    var delay: nat
    ghost var attempts: nat

    /** The value this object stands for. */
    ghost function Model(): Pool
      reads this
    {
      Pool(options, workers, members, nextWorker, stopped, timer, delay, attempts)
    }

    ghost predicate Valid()
      reads this
    {
      WellFormed(Model())
    }

    constructor (options: Options)
      ensures Valid() && Model() == Pool(options, map[], {}, 1, false, false, FIRST_DELAY, 0)
    {
      this.options := options;
      workers, members, nextWorker := map[], {}, 1;
      stopped, timer, delay, attempts := false, false, FIRST_DELAY, 0;
    }

    // -------------------------------------------------------------- lookup

    /** Scans the workers in the order they were added. */
    method FindByThread(thread: ThreadId) returns (found: Option<WorkerId>)
      requires Valid()
      ensures found == Find(Model(), thread)
      ensures found.Some? ==>
        && found.value in members && found.value in workers
        && workers[found.value].thread == Some(thread) && !workers[found.value].retiring
        && workers[found.value].state != Crashed && workers[found.value].state != Stopped
      ensures found == None ==> forall v <- members | v in workers && workers[v].thread == Some(thread) ::
        workers[v].retiring || workers[v].state == Crashed || workers[v].state == Stopped
    {
      var w := 0;
      while w < nextWorker
        invariant 0 <= w <= nextWorker
        invariant Find(Model(), thread) == FindFrom(Model(), thread, w)
      {
        if w in members && workers[w].thread == Some(thread) && !workers[w].retiring && Available(workers[w]) {
          return Some(w);
        }
        w := w + 1;
      }
      assert forall v <- members :: !Serves(Model(), v, thread);
      return None;
    }

    // -------------------------------------------------------------- reservations

    method Retain(w: WorkerId) returns (done: Result<(), Error>)
      requires Valid() && w in workers
      modifies this`workers
      ensures done == if CanRetain(old(Model()), w) then Ok(()) else Err(WorkerCrashed)
      ensures done.Ok? <==> !stopped && w in members && !old(workers)[w].retiring
                            && old(workers)[w].state != Crashed && old(workers)[w].state != Stopped
      ensures workers == if done.Ok? then old(workers)[w := Retained(old(workers)[w])] else old(workers)
      ensures workers[w].reservations == old(workers)[w].reservations + if done.Ok? then 1 else 0
      ensures Valid()
    {
      var x := workers[w];
      if stopped || w !in members || x.retiring || !Available(x) {
        return Err(WorkerCrashed);
      }
      workers := workers[w := x.(reservations := x.reservations + 1)];
      return Ok(());
    }

    method Release(w: WorkerId, now: nat)
      requires Valid() && w in workers
      modifies this`workers
      ensures workers == old(workers)[w := Released(old(workers)[w], now)]
      ensures var x, y := old(workers)[w], workers[w];
        var inUse := x.state != Crashed && x.state != Stopped && !x.retiring;
        && y.reservations == (if x.reservations > 0 then x.reservations - 1 else 0)
        && y.lastUsed == (if inUse then now else x.lastUsed)
        && y.state == (if inUse && y.reservations == 0 && x.activeTurn == None
                       then if x.thread.Some? then Assigned else Idle
                       else x.state)
        && y == x.(reservations := y.reservations, lastUsed := y.lastUsed, state := y.state)
      ensures Valid()
    {
      var x := workers[w];
      x := x.(reservations := if x.reservations > 0 then x.reservations - 1 else 0);
      if Available(x) && !x.retiring {
        x := x.(lastUsed := now);
        if x.reservations == 0 && x.activeTurn == None {
          x := x.(state := if x.thread.Some? then Assigned else Idle);
        }
      }
      workers := workers[w := x];
    }

    /** The agent_settled branch of the event handler.  An abort of this very turn is over; and
        lookup finds a worker of the pool from now on even if it had been given up. */
    method Settle(w: WorkerId)
      requires Valid() && w in workers
      modifies this`workers
      ensures workers == old(workers)[w := Reported(old(workers)[w], true)]
      ensures workers[w].state == Assigned && workers[w].activeTurn == old(workers)[w].activeTurn
      ensures workers[w].aborting == if old(workers)[w].activeTurn.Some? && old(workers)[w].aborting == old(workers)[w].activeTurn
                                     then None else old(workers)[w].aborting
      ensures w in members && !workers[w].retiring && workers[w].thread.Some? ==> Serves(Model(), w, workers[w].thread.value)
      ensures Valid()
    {
      var x := workers[w];
      x := x.(state := Assigned);
      if x.activeTurn.Some? && x.aborting == x.activeTurn {
        x := x.(aborting := None);
      }
      workers := workers[w := x];
    }

    method Bind(w: WorkerId, thread: ThreadId)
      requires Valid() && w in workers
      modifies this`workers
      ensures workers == old(workers)[w := Bound(old(workers)[w], thread)]
      ensures Valid()
    {
      var x := workers[w];
      workers := workers[w := x.(thread := Some(thread), boundTo := x.boundTo + {thread})];
    }

    /** The worker carries the thread, which lookup then finds on it, and runs the turn. */
    method Begin(w: WorkerId, thread: ThreadId, turn: TurnId, running: bool)
      requires Valid() && w in workers
      modifies this`workers
      ensures var x := Bound(old(workers)[w], thread).(activeTurn := Some(turn));
        workers == old(workers)[w := if running then x.(state := Running) else x]
      ensures CanRetain(old(Model()), w) ==> Serves(Model(), w, thread)
      ensures Valid()
    {
      var x := workers[w];
      x := x.(thread := Some(thread), boundTo := x.boundTo + {thread});
      x := x.(activeTurn := Some(turn));
      if running {
        x := x.(state := Running);
      }
      workers := workers[w := x];
    }

    /** Reserves a worker and detaches its previous thread before anything else can run. */
    method ReserveForAssignment(w: WorkerId) returns (done: Result<(), Error>)
      requires Valid() && w in workers
      modifies this`workers
      ensures done == if CanRetain(old(Model()), w) then Ok(()) else Err(WorkerCrashed)
      ensures done.Ok? <==> !stopped && w in members && !old(workers)[w].retiring
                            && old(workers)[w].state != Crashed && old(workers)[w].state != Stopped
      ensures workers == if done.Ok? then old(workers)[w := Reserved(old(workers)[w])] else old(workers)
      ensures done.Ok? ==> workers[w].reservations == old(workers)[w].reservations + 1 && workers[w].claimed
                           && workers[w].thread == None && workers[w].assignments == old(workers)[w].assignments + 1
      ensures Valid()
    {
      done := Retain(w);
      if done.Ok? {
        var x := workers[w];
        workers := workers[w := x.(claimed := true, thread := None, assignments := x.assignments + 1)];
        assert workers == old(workers)[w := Reserved(old(workers)[w])];
      }
    }

    // -------------------------------------------------------------- choosing a worker

    /** The first candidate in the requested directory, if any. */
    method FirstEligible(persisted: set<ThreadId>, cwd: Directory) returns (found: Option<WorkerId>)
      requires Valid()
      ensures found.Some? ==>
        Eligible(Model(), persisted, cwd, found.value)
        && forall v: WorkerId :: v < found.value ==> !Eligible(Model(), persisted, cwd, v)
      ensures found == None ==> forall v: WorkerId :: !Eligible(Model(), persisted, cwd, v)
    {
      var w: WorkerId := 0;
      while w < nextWorker
        invariant w <= nextWorker
        invariant forall v: WorkerId :: v < w ==> !Eligible(Model(), persisted, cwd, v)
      {
        if w in members && Reclaimable(workers[w], persisted) && (options.reuseAcrossThreads || !workers[w].claimed)
           && workers[w].cwd == cwd {
          return Some(w);
        }
        w := w + 1;
      }
      return None;
    }

    /** The least recently used worker that can be given up; the oldest of equals. */
    method Victim(persisted: set<ThreadId>) returns (found: Option<WorkerId>)
      requires Valid()
      ensures found == None ==> forall v: WorkerId :: !Evictable(Model(), persisted, v)
      ensures found.Some? ==> Evictable(Model(), persisted, found.value)
      ensures found.Some? ==> forall v: WorkerId :: Evictable(Model(), persisted, v) ==>
        workers[found.value].lastUsed < workers[v].lastUsed
        || (workers[found.value].lastUsed == workers[v].lastUsed && found.value <= v)
    {
      found := None;
      var w: WorkerId := 0;
      while w < nextWorker
        invariant w <= nextWorker
        invariant found == None ==> forall v: WorkerId :: v < w ==> !Evictable(Model(), persisted, v)
        invariant found.Some? ==> found.value < w && Evictable(Model(), persisted, found.value)
        invariant found.Some? ==> forall v: WorkerId :: v < w && Evictable(Model(), persisted, v) ==>
          v == found.value || Before(workers[found.value], found.value, workers[v], v)
      {
        if w in members && Reclaimable(workers[w], persisted) {
          if found == None || workers[w].lastUsed < workers[found.value].lastUsed {
            found := Some(w);
          }
        }
        w := w + 1;
      }
    }

    /** What selectWorker decides before it starts to change anything. */
    method Select(persisted: set<ThreadId>, cwd: Directory) returns (choice: Choice)
      requires Valid()
      ensures Chooses(Model(), persisted, cwd, choice)
      ensures choice.Full? ==> |members| >= options.maxWorkers
      ensures choice.Spawn? ==> |members| < options.maxWorkers
    {
      var idle := FirstEligible(persisted, cwd);
      if idle.Some? {
        return Reuse(idle.value);
      }
      if |members| >= options.maxWorkers {
        var victim := Victim(persisted);
        if victim == None {
          return Full;
        }
        return Evict(victim.value);
      }
      return Spawn;
    }

    /** The workers that have been idle for `ttl`, least recently used first.  None without a
        time to live, or once the pool is stopped. */
    method ReapCandidates(persisted: set<ThreadId>, now: nat, ttl: nat) returns (candidates: seq<WorkerId>)
      requires Valid()
      ensures forall w: WorkerId :: w in candidates <==>
        !stopped && ttl != 0 && Evictable(Model(), persisted, w) && now - workers[w].lastUsed >= ttl
      ensures Sorted(candidates, workers)
      ensures forall i, j :: 0 <= i < j < |candidates| ==>
        workers[candidates[i]].lastUsed < workers[candidates[j]].lastUsed
        || (workers[candidates[i]].lastUsed == workers[candidates[j]].lastUsed && candidates[i] < candidates[j])
    {
      candidates := [];
      if stopped || ttl == 0 {
        return;
      }
      var w: WorkerId := 0;
      while w < nextWorker
        invariant w <= nextWorker
        invariant forall v: WorkerId :: v in candidates <==>
          v < w && Evictable(Model(), persisted, v) && now - workers[v].lastUsed >= ttl
        invariant Sorted(candidates, workers)
      {
        if w in members && Reclaimable(workers[w], persisted) && now - workers[w].lastUsed >= ttl {
          candidates := Inserted(candidates, w, workers);
        }
        w := w + 1;
      }
    }

    // -------------------------------------------------------------- keeping the minimum

    /** The exit handler's first half: the worker is gone from the pool. */
    method Crash(w: WorkerId)
      requires Valid() && w in workers
      modifies this`workers, this`members
      ensures Model() == old(Model()).(workers := old(workers)[w := old(workers)[w].(state := Crashed, activeTurn := None)],
                                       members := old(members) - {w})
      ensures forall v, k :: Serves(Model(), v, k) <==> v != w && Serves(old(Model()), v, k)
      ensures Valid()
    {
      workers := workers[w := workers[w].(state := Crashed, activeTurn := None)];
      members := members - {w};
    }

    /** The exit handler's second half: a worker that ran for long enough resets the delay. */
    method Recover(longLived: bool)
      requires Valid() && delay == Backoff(attempts)
      modifies this`timer, this`delay, this`attempts
      ensures Model() == ScheduleRecovery(if longLived then old(Model()).(delay := FIRST_DELAY, attempts := 0) else old(Model()))
      ensures Valid() && delay == Backoff(attempts)
    {
      if longLived {
        ResetRecoveryDelay();
      }
      var _ := ScheduleMinimumRecovery();
    }

    method ResetRecoveryDelay()
      requires Valid()
      modifies this`delay, this`attempts
      ensures Model() == old(Model()).(delay := FIRST_DELAY, attempts := 0)
      ensures Valid() && delay == Backoff(attempts)
    {
      delay, attempts := FIRST_DELAY, 0;
      assert Backoff(0) == FIRST_DELAY;
    }

    /** Arms the recovery timer with the current delay, and doubles the delay for the next time. */
    method ScheduleMinimumRecovery() returns (armed: Option<nat>)
      requires Valid() && delay == Backoff(attempts)
      modifies this`timer, this`delay, this`attempts
      ensures Model() == ScheduleRecovery(old(Model()))
      ensures armed.Some? <==>
                !old(stopped) && !old(timer) && |members| < options.minWorkers && |members| < options.maxWorkers
      ensures timer == (old(timer) || armed.Some?)
      ensures armed.Some? ==> armed.value == Min(1_000 * Power2(old(attempts)), 30_000) && timer
      ensures Valid() && delay == Backoff(attempts)
    {
      if stopped || timer || |members| >= Target(options) {
        return None;
      }
      armed := Some(delay);
      timer := true;
      delay := Min(delay * 2, LAST_DELAY);
      attempts := attempts + 1;
    }
  }

  /** Used less recently, or added earlier when used at the same time. */
  predicate Before(x: Worker, w: WorkerId, y: Worker, v: WorkerId) {
    x.lastUsed < y.lastUsed || (x.lastUsed == y.lastUsed && w < v)
  }

  /** Least recently used first; workers used at the same time stay in the order they were added. */
  predicate Sorted(list: seq<WorkerId>, workers: map<WorkerId, Worker>) {
    && (forall w <- list :: w in workers)
    && forall i, j :: 0 <= i < j < |list| ==> Before(workers[list[i]], list[i], workers[list[j]], list[j])
  }

  /** A newer worker goes behind all that were used no later. */
  function Inserted(list: seq<WorkerId>, w: WorkerId, workers: map<WorkerId, Worker>): (r: seq<WorkerId>)
    requires Sorted(list, workers) && w in workers && forall v <- list :: v < w
    ensures Sorted(r, workers)
    ensures forall v :: v in r <==> v in list || v == w
  {
    if list == [] || workers[list[|list| - 1]].lastUsed <= workers[w].lastUsed then
      AppendedLast(list, w, workers);
      list + [w]
    else
      var n := |list| - 1;
      assert forall v <- list[..n] :: v in list;
      var front := Inserted(list[..n], w, workers);
      InsertedLast(list, w, front, workers);
      front + [list[n]]
  }

  lemma AppendedLast(list: seq<WorkerId>, w: WorkerId, workers: map<WorkerId, Worker>)
    requires Sorted(list, workers) && w in workers && forall v <- list :: v < w
    requires list != [] ==> workers[list[|list| - 1]].lastUsed <= workers[w].lastUsed
    ensures Sorted(list + [w], workers)
  {
    forall i | 0 <= i < |list| ensures Before(workers[list[i]], list[i], workers[w], w) {
      assert list[i] in list && (i < |list| - 1 ==> Before(workers[list[i]], list[i], workers[list[|list| - 1]], list[|list| - 1]));
    }
  }

  lemma InsertedLast(list: seq<WorkerId>, w: WorkerId, front: seq<WorkerId>, workers: map<WorkerId, Worker>)
    requires list != [] && Sorted(list, workers) && Sorted(front, workers) && w in workers
    requires workers[w].lastUsed < workers[list[|list| - 1]].lastUsed
    requires forall v :: v in front <==> v in list[..|list| - 1] || v == w
    ensures Sorted(front + [list[|list| - 1]], workers)
    ensures forall v :: v in front + [list[|list| - 1]] <==> v in list || v == w
  {
    var n := |list| - 1;
    var last, r := list[n], front + [list[n]];
    assert list == list[..n] + [last];
    forall i | 0 <= i < |front| ensures Before(workers[r[i]], r[i], workers[last], last) {
      assert r[i] == front[i] && front[i] in front;
      if front[i] != w {
        var j :| 0 <= j < n && list[..n][j] == front[i];
        assert list[j] == front[i];
      }
    }
  }
}
