/** What an acquisition ends in: which worker it delivers, and exactly when it is refused. */
module SchedulerOutcomes {
  import opened Common
  import opened Pools
  import opened Scheduler
  import opened SchedulerInv
  import opened SchedulerMoves
  import opened SchedulerSteps
  import opened SchedulerResults

  /** A live worker in the directory the operation asked for, carrying exactly the thread it asked
      for (none for a new one), and reserved once. */
  predicate Fits(p: Purpose, cwd: Directory, x: Worker) {
    && x.state != Crashed && x.state != Stopped
    && x.cwd == cwd && x.thread == ThreadOf(p) && x.reservations == 1
  }

  ghost predicate DeliversTo(s: State, t: State, op: OpId) {
    Waits(s, op) && op in t.ops && t.ops[op].Holding? ==>
      && t.ops[op].worker in t.pool.workers && Fits(s.ops[op].purpose, s.ops[op].cwd, Get(t, t.ops[op].worker))
      && (s.ops[op].purpose.ForMutation? ==> Get(t, t.ops[op].worker).state == Running)
  }

  /** A worker goes to the operation; others keep waiting. */
  lemma GrantFits(s: State, u: State, op: OpId, w: WorkerId, o: OpId)
    requires op in u.ops && w in u.pool.workers && (o in s.ops && o in u.ops && o != op ==> u.ops[o] == s.ops[o])
    requires Waits(s, op) && u.ops[op] == s.ops[op] && Fits(s.ops[op].purpose, s.ops[op].cwd, Get(u, w))
    ensures DeliversTo(s, Unlocked(Granted(u, op, w)), o) && DeliversTo(s, Granted(u, op, w), o)
  {
    GrantedFields(u, op, w);
    assert Fits(s.ops[op].purpose, s.ops[op].cwd, GrantedWorker(s.ops[op].purpose, Get(u, w)));
    hide Granted, Fits, GrantedWorker;
  }

  /** Nobody is granted anything. */
  lemma NoGrant(s: State, t: State, o: OpId)
    requires forall k <- t.ops :: k in s.ops && t.ops[k] == s.ops[k]
    ensures DeliversTo(s, t, o)
  {
  }

  lemma SelectsDeliver(s: State, op: OpId, choice: Choice, now: nat, o: OpId)
    requires Core(s) && s.lock == Free && Waits(s, op) && Chooses(s.pool, s.persisted, s.ops[op].cwd, choice)
    ensures DeliversTo(s, Selects(s, op, choice, now), o)
  {
    if choice.Reuse? && !s.pool.stopped && ThreadOf(s.ops[op].purpose) == None {
      var w := choice.w;
      var u := Put(s, w, Reserved(Get(s, w)).(state := Assigned));
      hide Core, Chooses;
      GrantFits(s, u, op, w, o);
    } else {
      hide Core, Chooses;
      SelectsNoGrant(s, op, choice, now);
      hide Selects;
      NoGrant(s, Selects(s, op, choice, now), o);
    }
  }

  lemma SelectsNoGrant(s: State, op: OpId, choice: Choice, now: nat)
    requires Waits(s, op) && (choice.Reuse? || choice.Evict? ==> choice.w in s.pool.workers)
    requires choice.Reuse? ==> s.pool.stopped || ThreadOf(s.ops[op].purpose).Some?
    ensures forall k <- Selects(s, op, choice, now).ops :: k in s.ops && Selects(s, op, choice, now).ops[k] == s.ops[k]
  {
    hide Reserved, ScheduleRecovery;
  }

  lemma AcquiredDelivers(s: State, op: OpId, choice: Choice, now: nat, o: OpId)
    requires Core(s) && Enabled(s, Acquires(op, choice, now))
    ensures DeliversTo(s, Acquired(s, op, choice, now), o)
  {
    var thread := ThreadOf(s.ops[op].purpose);
    if !s.pool.stopped && (thread == None || Find(s.pool, thread.value) == None) {
      SelectsDeliver(s, op, choice, now, o);
    } else if !s.pool.stopped {
      ReassignedDelivers(s, op, Find(s.pool, thread.value).value, o);
    } else {
      hide Core, Chooses;
      NoGrant(s, Refused(s, op), o);
    }
  }

  lemma ReassignedDelivers(s: State, op: OpId, w: WorkerId, o: OpId)
    requires Waits(s, op) && ThreadOf(s.ops[op].purpose).Some? && Serves(s.pool, w, ThreadOf(s.ops[op].purpose).value)
    ensures DeliversTo(s, Reassigned(s, op, w), o)
  {
    if Quiescent(Get(s, w)) && Get(s, w).cwd == s.ops[op].cwd {
      GrantFits(s, Put(s, w, Retained(Get(s, w))), op, w, o);
    } else {
      NoGrant(s, Reassigned(s, op, w), o);
    }
  }

  lemma StartDelivers(s: State, ok: bool, now: nat, o: OpId)
    requires Core(s) && Enabled(s, StartReturns(ok, now))
    ensures DeliversTo(s, StartReturned(s, ok, now), o)
  {
    var w, job := s.lock.worker, s.lock.job;
    assert w in s.pool.workers && (job.Selecting? ==> job.op in s.ops);
    if ok && !s.pool.stopped && job.Selecting? {
      assert Rooted(s, job.op, w) && Get(s, w).reservations == 1 && Get(s, w).thread == None;
      hide Core, Shape, DeliversTo, Proceeds;
      StartedDelivers(s, job.op, w, o);
    } else {
      StartKeepsOps(s, ok, now);
      hide Core, Shape, DeliversTo, StartReturned;
      NoGrant(s, StartReturned(s, ok, now), o);
    }
  }

  lemma StartedDelivers(s: State, op: OpId, w: WorkerId, o: OpId)
    requires Rooted(s, op, w) && Get(s, w).reservations == 1 && Get(s, w).thread == None
    ensures DeliversTo(s, Proceeds(Put(s, w, Get(s, w).(state := Assigned)), op, w), o)
  {
    var u := Put(s, w, Get(s, w).(state := Assigned));
    if ThreadOf(s.ops[op].purpose) == None {
      GrantFits(s, u, op, w, o);
    } else {
      NoGrant(s, Proceeds(u, op, w), o);
    }
  }

  lemma StartKeepsOps(s: State, ok: bool, now: nat)
    requires Shape(s) && s.lock.Spawning? && (!ok || s.pool.stopped || s.lock.job.Maintaining?)
    ensures StartReturned(s, ok, now).ops == s.ops
  {
  }

  lemma SwitchDelivers(s: State, ok: bool, now: nat, o: OpId)
    requires Core(s) && Enabled(s, SwitchReturns(ok, now))
    ensures DeliversTo(s, SwitchReturned(s, ok, now), o)
  {
    var w, op := s.lock.worker, s.lock.op;
    assert Rooted(s, op, w) && Get(s, w).reservations == 1 && ThreadOf(s.ops[op].purpose).Some?;
    hide Core;
    if ok {
      GrantFits(s, Put(s, w, Bound(Get(s, w), ThreadOf(s.ops[op].purpose).value)), op, w, o);
    } else {
      NoGrant(s, SwitchReturned(s, ok, now), o);
    }
  }

  lemma StopDelivers(s: State, choice: Choice, now: nat, o: OpId)
    requires Core(s) && Enabled(s, StopReturns(choice, now))
    ensures DeliversTo(s, StopReturned(s, choice, now), o)
  {
    var u, next := Unlocked(Leaves(s, s.lock.worker)), s.lock.next;
    StoppedLeaves(s);
    assert next.Reaping? || Waits(u, next.op);
    hide Core, Shape, Chooses, Continued;
    ContinuedDelivers(u, next, choice, now, o);
  }

  lemma ContinuedDelivers(s: State, next: Next, choice: Choice, now: nat, o: OpId)
    requires Core(s) && s.lock == Free && (next.Reaping? || Waits(s, next.op))
    requires next.ToReplace? ==> Chooses(s.pool, s.persisted, s.ops[next.op].cwd, choice)
    ensures DeliversTo(s, Continued(s, next, choice, now), o)
  {
    match next
    case ToReplace(op) =>
      ScheduledKeeps(s);
      ScheduledChooses(s, s.ops[op].cwd, choice, op);
      hide Core;
      SelectsDeliver(Scheduled(s), op, choice, now, o);
    case Reaping(rest) =>
      hide Core;
      ReapsSameOps(s, rest);
      NoGrant(s, Reaps(s, rest), o);
    case ToSpawn(op) =>
      hide Core;
      RefusedGrantsNobody(s, op, o);
      NoGrant(s, SpawnBegins(s, s.ops[op].cwd, Selecting(op), now), o);
    case SwitchFailed(op) =>
      hide Core;
      RefusedGrantsNobody(s, op, o);
  }

  lemma RefusedGrantsNobody(s: State, op: OpId, o: OpId)
    requires op in s.ops
    ensures DeliversTo(s, Refused(Scheduled(s), op), o)
  {
    assert Scheduled(s).ops == s.ops;
    hide Scheduled, DeliversTo;
    NoGrant(s, Refused(Scheduled(s), op), o);
  }

  lemma {:induction false} ReapsSameOps(s: State, candidates: seq<WorkerId>)
    ensures Reaps(s, candidates).ops == s.ops
  {
    if candidates != [] {
      ReapsSameOps(s, candidates[1..]);
    }
    hide Reclaimable;
  }

  lemma LifecycleDelivers(s: State, step: Step, op: OpId)
    requires Core(s) && Enabled(s, step)
    requires step.Acquires? || step.StartReturns? || step.SwitchReturns? || step.StopReturns?
    ensures DeliversTo(s, Moved(s, step), op)
  {
    match step
    case Acquires(o, choice, now) => AcquiredDelivers(s, o, choice, now, op);
    case StartReturns(ok, now) => StartDelivers(s, ok, now, op);
    case SwitchReturns(ok, now) => SwitchDelivers(s, ok, now, op);
    case StopReturns(choice, now) => StopDelivers(s, choice, now, op);
    assert Shape(s);
    hide Core, Shape, Enabled, DeliversTo, Acquired, StartReturned, SwitchReturned, StopReturned;
  }

  /** Whatever lifecycle step grants an operation its worker: it is available, rooted at the
      requested directory, carries no thread for a new one and the requested thread for a
      session, and has exactly one reservation. */
  lemma AcquisitionDelivers(s: State, step: Step, op: OpId)
    requires Reachable(s) && Shape(s) && Enabled(s, step)
    requires step.Acquires? || step.StartReturns? || step.SwitchReturns? || step.StopReturns?
    ensures DeliversTo(s, Apply(s, step), op)
  {
    ReachableIsCore(s);
    LifecycleDelivers(s, step, op);
    hide Core, Shape, Enabled, Reachable, DeliversTo, Moved;
  }

  /** Does the step select a worker for the operation, at once or after the worker that made way
      for it has stopped? */
  ghost predicate SelectsFor(s: State, step: Step, op: OpId) {
    match step
    case Acquires(o, _, _) =>
      o == op && op in s.ops && (ThreadOf(s.ops[op].purpose) == None || Find(s.pool, ThreadOf(s.ops[op].purpose).value) == None)
    case StopReturns(_, _) => s.lock.Retiring? && (s.lock.next == ToSpawn(op) || s.lock.next == ToReplace(op))
    case _ => false
  }

  /** Nothing can be reused, evicted or started. */
  ghost predicate OutOfCapacity(s: State, cwd: Directory) {
    && |s.pool.members| >= s.pool.options.maxWorkers
    && (forall w: WorkerId :: !Eligible(s.pool, s.persisted, cwd, w))
    && (forall w: WorkerId :: !Evictable(s.pool, s.persisted, w))
  }

  /** Selection in a running pool is refused exactly when the pool is full, no worker can be reused
      and none can be evicted; never once a worker has been evicted or replaced for it. */
  lemma CapacityExactly(s: State, step: Step, op: OpId)
    requires Reachable(s) && Shape(s) && Enabled(s, step) && SelectsFor(s, step, op) && !s.pool.stopped
    ensures op !in Apply(s, step).ops <==> step.Acquires? && OutOfCapacity(s, s.ops[op].cwd)
  {
    ReachableIsCore(s);
    assert Rest(s) && Waits(s, op);
    hide Reachable, Core, Find;
    if step.Acquires? {
      SelectsExactly(s, op, step.choice, step.now);
      hide Selects, Chooses, OutOfCapacity, Shape, Rest;
    } else {
      hide Chooses, Selects, OutOfCapacity;
      RoomIsMade(s, op, step.choice, step.now);
      hide Shape, Rest, StopReturned;
    }
  }

  lemma SelectsExactly(s: State, op: OpId, choice: Choice, now: nat)
    requires Waits(s, op) && !s.pool.stopped && Chooses(s.pool, s.persisted, s.ops[op].cwd, choice)
    ensures op !in Selects(s, op, choice, now).ops <==> OutOfCapacity(s, s.ops[op].cwd)
    ensures op !in Selects(s, op, choice, now).ops <==> choice == Full
  {
    if choice.Reuse? {
      ProceedsKeepsOp(Put(s, choice.w, Reserved(Get(s, choice.w)).(state := Assigned)), op, choice.w);
    }
    assert op in SpawnBegins(s, s.ops[op].cwd, Selecting(op), now).ops;
    hide Eligible, Evictable, Proceeds, SpawnBegins;
  }

  lemma ProceedsKeepsOp(s: State, op: OpId, w: WorkerId)
    requires op in s.ops && w in s.pool.workers
    ensures op in Proceeds(s, op, w).ops
  {
  }

  /** The worker that has stopped leaves a place, and nobody else takes it. */
  lemma RoomIsMade(s: State, op: OpId, choice: Choice, now: nat)
    requires Shape(s) && LockOk(s) && Enabled(s, StopReturns(choice, now)) && SelectsFor(s, StopReturns(choice, now), op)
    requires !s.pool.stopped
    ensures op in StopReturned(s, choice, now).ops
  {
    var u := Unlocked(Leaves(s, s.lock.worker));
    assert Waits(u, op) && |u.pool.members| < u.pool.options.maxWorkers;
    assert s.lock.next.ToReplace? ==> Chooses(u.pool, u.persisted, u.ops[op].cwd, choice);
    hide Shape, LockOk, Chooses, Selects, Enabled, Leaves;
    RoomIsTaken(u, s.lock.next, op, choice, now);
  }

  lemma RoomIsTaken(s: State, next: Next, op: OpId, choice: Choice, now: nat)
    requires (next == ToSpawn(op) || next == ToReplace(op)) && Waits(s, op) && !s.pool.stopped
    requires |s.pool.members| < s.pool.options.maxWorkers
    requires next.ToReplace? ==> Chooses(s.pool, s.persisted, s.ops[op].cwd, choice)
    requires next.ToReplace? && (choice.Reuse? || choice.Evict?) ==> choice.w in s.pool.workers
    ensures op in Continued(s, next, choice, now).ops
  {
    if next.ToReplace? {
      ScheduledChooses(s, s.ops[op].cwd, choice, op);
      RoomIsUsed(Scheduled(s), op, choice, now);
    }
    hide Chooses, Selects, ScheduleRecovery;
  }

  lemma RoomIsUsed(s: State, op: OpId, choice: Choice, now: nat)
    requires Waits(s, op) && !s.pool.stopped && Chooses(s.pool, s.persisted, s.ops[op].cwd, choice)
    requires |s.pool.members| < s.pool.options.maxWorkers
    ensures op in Selects(s, op, choice, now).ops
  {
    SelectsExactly(s, op, choice, now);
    hide Selects;
  }

  /** Acquiring a session whose thread is found at a worker: busy unless it is quiescent; otherwise
      the same worker in its directory, or its replacement, or capacity when it is not saved. */
  lemma AssignedExactly(s: State, op: OpId, choice: Choice, now: nat, w: WorkerId)
    requires Shape(s) && Enabled(s, Acquires(op, choice, now)) && !s.pool.stopped
    requires ThreadOf(s.ops[op].purpose).Some? && Find(s.pool, ThreadOf(s.ops[op].purpose).value) == Some(w)
    ensures var t, x := Acquired(s, op, choice, now), Get(s, w);
      && (op !in t.ops <==> !Quiescent(x) || (x.cwd != s.ops[op].cwd && !Reclaimable(x, s.persisted)))
      && (op in t.ops && t.ops[op] == Holding(s.ops[op].purpose, w, false) <==> Quiescent(x) && x.cwd == s.ops[op].cwd)
      && (t.lock == Retiring(w, ToReplace(op)) <==> Reclaimable(x, s.persisted) && x.cwd != s.ops[op].cwd)
  {
    assert s.lock == Free && Waits(s, op);
    hide Chooses, Shape, Find, FindFrom, Serves, Reassigned, Enabled;
    ReassignedExactly(s, op, w);
  }

  lemma ReassignedExactly(s: State, op: OpId, w: WorkerId)
    requires Waits(s, op) && w in s.pool.workers && s.lock == Free
    ensures var t, x := Reassigned(s, op, w), Get(s, w);
      && (op !in t.ops <==> !Quiescent(x) || (x.cwd != s.ops[op].cwd && !Reclaimable(x, s.persisted)))
      && (op in t.ops && t.ops[op] == Holding(s.ops[op].purpose, w, false) <==> Quiescent(x) && x.cwd == s.ops[op].cwd)
      && (t.lock == Retiring(w, ToReplace(op)) <==> Reclaimable(x, s.persisted) && x.cwd != s.ops[op].cwd)
  {
    GrantedHolds(s, op, w);
    hide Granted, Quiescent;
  }

  /** Using a thread's worker directly: reads always share it; sends and mutations get it only in
      the session's directory, and are busy exactly when it works on something there. */
  lemma RetainedExactly(s: State, op: OpId, w: WorkerId)
    requires Waits(s, op) && !s.pool.stopped
    requires ThreadOf(s.ops[op].purpose).Some? && Find(s.pool, ThreadOf(s.ops[op].purpose).value) == Some(w)
    ensures var t, x, p := RetainedFor(s, op), Get(s, w), s.ops[op].purpose;
      var works := x.activeTurn.Some? || x.state == Running;
      && (op !in t.ops <==> !p.ForRead? && x.cwd == s.ops[op].cwd && works)
      && (op in t.ops && t.ops[op].Waiting? <==> !p.ForRead? && x.cwd != s.ops[op].cwd)
      && (op in t.ops && t.ops[op].Holding? ==>
            && w in t.pool.workers && t.ops[op] == Holding(p, w, false)
            && Get(t, w) == x.(reservations := x.reservations + 1, state := if p.ForMutation? then Running else x.state))
  {
    assert w in s.pool.workers;
    hide Find, FindFrom, Serves;
    GrantedHolds(s, op, w);
    hide Granted;
  }

  lemma GrantedHolds(s: State, op: OpId, w: WorkerId)
    requires op in s.ops && w in s.pool.workers
    ensures var t := Granted(Put(s, w, Retained(Get(s, w))), op, w);
      && op in t.ops && t.ops[op] == Holding(s.ops[op].purpose, w, false) && t.lock == s.lock
      && w in t.pool.workers
      && Get(t, w) == Get(s, w).(reservations := Get(s, w).reservations + 1,
                                 state := if s.ops[op].purpose.ForMutation? then Running else Get(s, w).state)
  {
  }
}
