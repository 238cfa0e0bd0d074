/** What the scheduler guarantees in every reachable state and across every step. */
module SchedulerResults {
  import opened Common
  import opened Pools
  import opened Scheduler
  import opened SchedulerInv
  import opened SchedulerTurns
  import opened SchedulerSteps
  import opened SchedulerProgress
  import opened SchedulerRuns

  ghost predicate Reachable(s: State) {
    exists options: Options, steps: seq<Step> :: Runs(Initial(options), steps, s)
  }

  lemma {:induction false} RunsProgress(s: State, steps: seq<Step>, t: State)
    requires Progress(s) && Runs(s, steps, t)
    ensures Progress(t)
    decreases |steps|
  {
    if steps != [] {
      StepProgress(s, steps[0]);
      hide Progress, Enabled, Apply;
      RunsProgress(Apply(s, steps[0]), steps[1..], t);
    }
  }

  lemma ReachableIsCore(s: State)
    requires Reachable(s)
    ensures Core(s) && Progress(s)
  {
    var options: Options, steps: seq<Step> :| Runs(Initial(options), steps, s);
    InitialCore(options);
    InitialProgress(options);
    hide Core, Progress;
    RunsKeep(Initial(options), steps, s);
    RunsProgress(Initial(options), steps, s);
  }

  // ---------------------------------------------------------------- reservations

  /** A worker is reserved at least as often as there is somebody to give it back; and one in use
      exactly as often, as long as no late report has brought back a worker with reservations lost. */
  lemma ReservationsAreHolders(s: State, w: WorkerId)
    requires Reachable(s) && w in s.pool.workers
    ensures var holders := |set o | o in s.ops && s.ops[o].Holding? && s.ops[o].worker == w|
                           + |set t | t in s.turns && s.turns[t].worker == Some(w)|
                           + if InHand(s.lock) == Some(w) then 1 else 0;
      && holders <= Get(s, w).reservations
      && (!s.leaky && w in s.pool.members && Available(Get(s, w)) ==> Get(s, w).reservations == holders)
  {
    ReachableIsCore(s);
    assert Balanced(Get(s, w), w in s.pool.members, !s.leaky, Holders(s, w));
    assert OpsOn(s.ops, w) == set o | o in s.ops && s.ops[o].Holding? && s.ops[o].worker == w;
    assert TurnsOn(s.turns, w) == set t | t in s.turns && s.turns[t].worker == Some(w);
  }

  /** Whoever gives a worker back had a reservation to give: the clamp at zero is idle. */
  lemma EveryReleaseIsOwed(s: State, op: OpId)
    requires Reachable(s)
    ensures Holds(s, op) ==> Get(s, s.ops[op].worker).reservations >= 1
    ensures s.lock.Switching? ==> s.lock.worker in s.pool.workers && Get(s, s.lock.worker).reservations == 1
  {
    ReachableIsCore(s);
    if Holds(s, op) {
      HoldingIsCounted(s, op);
    }
  }

  // ---------------------------------------------------------------- one writer

  /** The single writer of a thread: a worker of the pool that carries it, is not being given up and
      has neither crashed nor been stopped. */
  lemma OneWriter(s: State, a: WorkerId, b: WorkerId, thread: ThreadId)
    requires Reachable(s) && !s.stray && a in s.pool.workers && b in s.pool.workers
    requires forall w <- {a, b} ::
               && w in s.pool.members && Get(s, w).thread == Some(thread) && !Get(s, w).retiring
               && Get(s, w).state != Crashed && Get(s, w).state != Stopped
    ensures a == b
  {
    ReachableIsCore(s);
    assert Serves(s.pool, a, thread) && Serves(s.pool, b, thread);
  }

  /** The running turn's worker, while it is available, is the one lookup finds; it knows the turn. */
  lemma RunningTurnIsFound(s: State, thread: ThreadId)
    requires Reachable(s) && thread in s.turns && s.turns[thread].worker.Some?
    requires s.turns[thread].worker.value in s.pool.workers
    requires var x := Get(s, s.turns[thread].worker.value); x.state != Crashed && x.state != Stopped
    ensures !s.stray ==> Find(s.pool, thread) == s.turns[thread].worker
    ensures Get(s, s.turns[thread].worker.value).activeTurn == Some(s.turns[thread].turn)
  {
    ReachableIsCore(s);
    if !s.stray {
      ActiveIsFound(s, thread);
    }
    var w := s.turns[thread].worker.value;
    assert TurnOk(thread, s.turns[thread], s.pool);
    HolderCounts(s, w);
    assert Balanced(Get(s, w), w in s.pool.members, !s.leaky, Holders(s, w));
  }

  // ---------------------------------------------------------------- turns and mutations

  lemma TurnsExcludeMutations(s: State, thread: ThreadId)
    requires Reachable(s)
    ensures !(thread in s.turns && thread in s.mutations)
    ensures forall a <- s.ops, b <- s.ops ::
              Claims(s.ops[a].purpose) == Some(thread) && Claims(s.ops[b].purpose) == Some(thread) ==> a == b
  {
    ReachableIsCore(s);
  }

  // ---------------------------------------------------------------- minimum and maximum

  lemma SizeIsBounded(s: State)
    requires Reachable(s)
    ensures |s.pool.members| <= s.pool.options.maxWorkers
  {
    ReachableIsCore(s);
  }

  /** With nothing of the pool's lifecycle going on, a started pool has its minimum, or as many
      workers as it may have, or a recovery timer; after shutdown it is empty. */
  lemma MinimumIsRecovered(s: State)
    requires Reachable(s)
    ensures s.started && !s.pool.stopped && s.lock == Free && s.maintains == 0 ==>
              || |s.pool.members| >= s.pool.options.minWorkers || |s.pool.members| >= s.pool.options.maxWorkers
              || s.pool.timer
    ensures s.drained ==> s.pool.members == {} && !s.pool.timer
  {
    ReachableIsCore(s);
    hide Core, Backoff;
  }

  /** The timer is armed with the delay of its rank since the last reset. */
  lemma RecoveryDelays(s: State)
    requires Reachable(s)
    ensures s.pool.delay == Min(1_000 * Power2(s.pool.attempts), 30_000)
  {
    ReachableIsCore(s);
  }

  /** Without reuse across threads, a worker is assigned at most once and sees one thread. */
  lemma WorkersAreDedicated(s: State, w: WorkerId)
    requires Reachable(s) && !s.pool.options.reuseAcrossThreads && w in s.pool.workers
    ensures Get(s, w).assignments <= 1 && |Get(s, w).boundTo| <= 1
  {
    ReachableIsCore(s);
    assert Recorded(s.pool.options, Get(s, w));
  }

  // ---------------------------------------------------------------- protection

  /** What a step may be to a worker: the failure of the session switch it is going through, the
      publication of the fork or clone that holds it, the admission of the turn that holds it. */
  datatype Reason = Reason(switchFails: bool, forks: bool, admits: bool)

  const NO_REASON := Reason(false, false, false)

  predicate Concerns(s: State, op: OpId, w: WorkerId) {
    Holds(s, op) && s.ops[op].worker == w
  }

  function ReasonOf(s: State, step: Step, w: WorkerId): Reason {
    match step
    case SwitchReturns(ok, _) => Reason(!ok && s.lock.Switching? && s.lock.worker == w, false, false)
    case Publishes(op, _) => Reason(false, Concerns(s, op, w), false)
    case MutationEnds(op, bound, _) => Reason(false, Concerns(s, op, w) && bound.Some?, false)
    case StartSucceeds(op, _, _) => Reason(false, false, Concerns(s, op, w))
    case SendSucceeds(op) => Reason(false, false, Concerns(s, op, w))
    case _ => NO_REASON
  }

  /** What may happen to a worker's retirement, thread and turn in one step. */
  predicate Spared(x: Worker, y: Worker, persisted: set<ThreadId>, reason: Reason) {
    && (x.retiring ==> y.retiring)
    && (y.retiring && !x.retiring ==> Reclaimable(x, persisted) || reason.switchFails)
    && (x.thread.Some? && y.thread == None ==> Reclaimable(x, persisted))
    && (x.thread.Some? && y.thread.Some? && y.thread != x.thread ==> reason.forks)
    && (y.activeTurn.Some? && y.activeTurn != x.activeTurn ==> reason.admits)
  }

  ghost predicate SparesAll(s: State, t: State) {
    && (forall w <- s.pool.workers :: w in t.pool.workers && Spared(Get(s, w), Get(t, w), s.persisted, NO_REASON))
    && (forall w <- t.pool.workers :: w in s.pool.workers || Get(t, w).activeTurn == None)
  }

  lemma CalmSpares(s: State, t: State)
    requires Gentle(s.pool.workers, t.pool.workers, {})
    ensures SparesAll(s, t)
  {
    hide Reclaimable;
  }

  lemma GentleTwice(a: map<WorkerId, Worker>, b: map<WorkerId, Worker>, c: map<WorkerId, Worker>)
    requires Gentle(a, b, {}) && Gentle(b, c, {})
    ensures Gentle(a, c, {})
  {
  }

  /** One worker record changes. */
  lemma PutSpares(s: State, t: State, w: WorkerId)
    requires w in s.pool.workers && w in t.pool.workers && t.pool.workers == s.pool.workers[w := Get(t, w)]
    requires Spared(Get(s, w), Get(t, w), s.persisted, NO_REASON)
    ensures SparesAll(s, t)
  {
    hide Reclaimable;
  }

  lemma SelectsSpares(s: State, op: OpId, choice: Choice, now: nat)
    requires Waits(s, op) && WellFormed(s.pool) && Chooses(s.pool, s.persisted, s.ops[op].cwd, choice)
    ensures SparesAll(s, Selects(s, op, choice, now))
  {
    match choice
    case Reuse(w) =>
      hide SparesAll;
      if s.pool.stopped {
        RefusedIsCalm(s, op);
        CalmSpares(s, Refused(s, op));
      } else {
        ReuseSpares(s, op, w);
      }
    case Evict(w) =>
      hide SparesAll;
      PutSpares(s, RetireBegins(s, w, ToSpawn(op)), w);
    case Spawn =>
      hide SparesAll;
      RefusedSpares(s, op);
      SpawnSpares(s, s.ops[op].cwd, Selecting(op), now);
    case Full =>
      hide SparesAll;
      RefusedIsCalm(s, op);
      CalmSpares(s, Refused(s, op));
  }

  lemma RefusedSpares(s: State, op: OpId)
    requires op in s.ops
    ensures SparesAll(s, Refused(Scheduled(s), op)) && SparesAll(s, Refused(s, op))
  {
  }

  lemma SpawnSpares(s: State, cwd: Directory, job: Job, now: nat)
    requires WellFormed(s.pool)
    ensures SparesAll(s, SpawnBegins(s, cwd, job, now))
  {
    hide Reclaimable;
  }

  lemma ReuseSpares(s: State, op: OpId, w: WorkerId)
    requires Waits(s, op) && Eligible(s.pool, s.persisted, s.ops[op].cwd, w)
    ensures SparesAll(s, Proceeds(Put(s, w, Reserved(Get(s, w)).(state := Assigned)), op, w))
  {
    var t := Proceeds(Put(s, w, Reserved(Get(s, w)).(state := Assigned)), op, w);
    assert t.pool.workers == s.pool.workers[w := Get(t, w)];
    hide Reclaimable;
    PutSpares(s, t, w);
  }

  lemma {:induction false} ReapsSpares(s: State, candidates: seq<WorkerId>)
    ensures SparesAll(s, Reaps(s, candidates))
  {
    if candidates == [] || |s.pool.members| <= s.pool.options.minWorkers {
    } else {
      var w := candidates[0];
      if w in s.pool.workers && Reclaimable(Get(s, w), s.persisted) {
        PutSpares(s, RetireBegins(s, w, Reaping(candidates[1..])), w);
      } else {
        ReapsSpares(s, candidates[1..]);
      }
    }
  }

  /** A worker is marked retiring, or loses its thread, only at an instant when nothing holds
      it: no reservation, no running or aborting turn, no pending command and no unsaved
      thread; the one exception is a worker whose own session switch failed.  It changes from one
      thread to another only by the publication of the fork or clone that holds it, and gets a
      turn only by the admission of the operation that holds it. */
  lemma WorkersAreProtected(s: State, step: Step, w: WorkerId)
    requires Reachable(s) && Shape(s) && Enabled(s, step) && w in s.pool.workers
    ensures w in Apply(s, step).pool.workers
    ensures Spared(Get(s, w), Get(Apply(s, step), w), s.persisted, ReasonOf(s, step, w))
  {
    ReachableIsCore(s);
    hide Reachable, Core, Shape, Enabled, Apply, Reclaimable;
    StepSpares(s, step, w);
  }

  lemma StepSpares(s: State, step: Step, w: WorkerId)
    requires Core(s) && Enabled(s, step) && w in s.pool.workers
    ensures w in Apply(s, step).pool.workers
    ensures Spared(Get(s, w), Get(Apply(s, step), w), s.persisted, ReasonOf(s, step, w))
  {
    if InService(step) {
      ServedSpares(s, step, w);
    } else if step.SwitchReturns? {
      HandIsUnbound(s);
      hide Core;
      SwitchSpares(s, step.ok, step.now, w);
      hide Spared, SwitchReturned;
    } else {
      hide Core;
      MovedSpares(s, step);
      hide Spared, Enabled, Moved;
    }
  }

  lemma ServedSpares(s: State, step: Step, w: WorkerId)
    requires Core(s) && Enabled(s, step) && InService(step) && w in s.pool.workers
    ensures w in Apply(s, step).pool.workers
    ensures Spared(Get(s, w), Get(Apply(s, step), w), s.persisted, ReasonOf(s, step, w))
  {
    assert Shape(s);
    hide Core, Shape, Enabled, Apply, Users, Spared, ReasonOf, Gentle;
    ServedIsCalm(s, step);
    if w in Users(s, step) {
      UserSpared(s, step, w);
    } else {
      GentleSpared(s.pool.workers, Apply(s, step).pool.workers, Users(s, step), w, s.persisted, ReasonOf(s, step, w));
    }
  }

  lemma GentleSpared(a: map<WorkerId, Worker>, b: map<WorkerId, Worker>, busy: set<WorkerId>, w: WorkerId,
                     persisted: set<ThreadId>, reason: Reason)
    requires Gentle(a, b, busy) && w in a && w !in busy
    ensures w in b && Spared(a[w], b[w], persisted, reason)
  {
    hide Reclaimable;
  }

  /** What the service writes into the record of the worker it uses. */
  lemma UserSpared(s: State, step: Step, w: WorkerId)
    requires Core(s) && Enabled(s, step) && InService(step) && w in Users(s, step)
    ensures w in Apply(s, step).pool.workers
    ensures Spared(Get(s, w), Get(Apply(s, step), w), s.persisted, ReasonOf(s, step, w))
  {
    var op := step.op;
    UserIsBound(s, op);
    hide Core, Unheard, Spared;
    match step
    case StartSucceeds(_, thread, prompted) => StartedSpared(s, op, thread, prompted);
    case StartFails(_, bound, now) => StartFailedSpared(s, op, bound, now);
    case SendSucceeds(_) => SentSpared(s, op);
    case Publishes(_, thread) => PublishedSpared(s, op, thread);
    case MutationEnds(_, bound, now) => MutatedSpared(s, op, bound, now);
  }

  lemma UserIsBound(s: State, op: OpId)
    requires OpsOk(s) && Holds(s, op)
    ensures s.ops[op].purpose.ForStart? ==> Get(s, s.ops[op].worker).thread == None
    ensures s.ops[op].purpose.ForSend? ==> Get(s, s.ops[op].worker).thread == Some(s.ops[op].purpose.thread)
  {
    assert OpOk(s.ops[op], s.turns, s.mutations, s.pool.workers);
  }

  lemma StartedSpared(s: State, op: OpId, thread: ThreadId, prompted: bool)
    requires Holds(s, op) && Get(s, s.ops[op].worker).thread == None
    ensures var w, t := s.ops[op].worker, StartSucceeded(s, op, thread, prompted);
      w in t.pool.workers && Spared(Get(s, w), Get(t, w), s.persisted, Reason(false, false, true))
  {
  }

  lemma StartFailedSpared(s: State, op: OpId, bound: Option<ThreadId>, now: nat)
    requires Holds(s, op) && Get(s, s.ops[op].worker).thread == None
    ensures var w, t := s.ops[op].worker, StartFailed(s, op, bound, now);
      w in t.pool.workers && Spared(Get(s, w), Get(t, w), s.persisted, NO_REASON)
  {
  }

  lemma SentSpared(s: State, op: OpId)
    requires Holds(s, op) && s.ops[op].purpose.ForSend?
    requires Get(s, s.ops[op].worker).thread == Some(s.ops[op].purpose.thread)
    ensures var w, t := s.ops[op].worker, SendSucceeded(s, op);
      w in t.pool.workers && Spared(Get(s, w), Get(t, w), s.persisted, Reason(false, false, true))
  {
  }

  lemma PublishedSpared(s: State, op: OpId, thread: ThreadId)
    requires Holds(s, op)
    ensures var w, t := s.ops[op].worker, Published(s, op, thread);
      w in t.pool.workers && Spared(Get(s, w), Get(t, w), s.persisted, Reason(false, true, false))
  {
  }

  lemma MutatedSpared(s: State, op: OpId, bound: Option<ThreadId>, now: nat)
    requires Holds(s, op) && s.ops[op].purpose.ForMutation?
    ensures var w, t := s.ops[op].worker, MutationEnded(s, op, bound, now);
      w in t.pool.workers && Spared(Get(s, w), Get(t, w), s.persisted, Reason(false, bound.Some?, false))
  {
  }

  lemma HandIsUnbound(s: State)
    requires LockOk(s) && s.lock.Switching?
    ensures s.lock.worker in s.pool.workers && Get(s, s.lock.worker).thread == None
  {
  }

  lemma SwitchSpares(s: State, ok: bool, now: nat, w: WorkerId)
    requires Shape(s) && s.lock.Switching? && w in s.pool.workers
    requires Get(s, s.lock.worker).thread == None
    ensures w in SwitchReturned(s, ok, now).pool.workers
    ensures Spared(Get(s, w), Get(SwitchReturned(s, ok, now), w), s.persisted, Reason(!ok && s.lock.worker == w, false, false))
  {
    var v, op := s.lock.worker, s.lock.op;
    assert v in s.pool.workers && op in s.ops;
    SwitchSuccessSpares(s, v, op, ThreadOf(s.ops[op].purpose).value, w);
    SwitchFailureSpares(s, v, op, now, w);
    hide Shape, Refused, Spared, Granted, Released;
  }

  lemma SwitchSuccessSpares(s: State, v: WorkerId, op: OpId, thread: ThreadId, w: WorkerId)
    requires v in s.pool.workers && w in s.pool.workers && op in s.ops && Get(s, v).thread == None
    ensures var t := Unlocked(Granted(Put(s, v, Bound(Get(s, v), thread)), op, v));
      w in t.pool.workers && Spared(Get(s, w), Get(t, w), s.persisted, NO_REASON)
  {
    hide Reclaimable;
  }

  lemma SwitchFailureSpares(s: State, v: WorkerId, op: OpId, now: nat, w: WorkerId)
    requires v in s.pool.workers && w in s.pool.workers && op in s.ops
    ensures var t := Unlocked(Put(s, v, Released(Get(s, v), now)));
      && w in Refused(t, op).pool.workers && w in RetireBegins(t, v, SwitchFailed(op)).pool.workers
      && Spared(Get(s, w), Get(Refused(t, op), w), s.persisted, Reason(v == w, false, false))
      && Spared(Get(s, w), Get(RetireBegins(t, v, SwitchFailed(op)), w), s.persisted, Reason(v == w, false, false))
  {
    hide Reclaimable;
  }

  lemma ExitedIsGentle(s: State, w: WorkerId, longLived: bool)
    requires w in s.pool.workers
    ensures Gentle(s.pool.workers, Exited(s, w, longLived).pool.workers, {})
  {
    DepartedIsGentle(s, w);
    hide Departed, Gentle;
  }

  lemma DepartedIsGentle(s: State, w: WorkerId)
    requires w in s.pool.workers
    ensures Gentle(s.pool.workers, Departed(s, w).pool.workers, {})
  {
    hide Settles, Gentle, ScheduleRecovery;
    var x := Get(s, w);
    var gone := Leaves(Put(s, w, x.(state := Crashed, activeTurn := None)), w);
    PutIsGentle(s.pool.workers, w, x.(state := Crashed, activeTurn := None), {});
    if x.thread.Some? && x.activeTurn.Some? {
      SettlesIsCalm(gone, x.thread.value, x.activeTurn.value);
      GentleTwice(s.pool.workers, gone.pool.workers, Settles(gone, x.thread.value, x.activeTurn.value).pool.workers);
    }
  }

  lemma StopReturnedSpares(s: State, choice: Choice, now: nat)
    requires Shape(s) && Enabled(s, StopReturns(choice, now))
    ensures SparesAll(s, StopReturned(s, choice, now))
  {
    var t, next := Unlocked(Leaves(s, s.lock.worker)), s.lock.next;
    assert WellFormed(t.pool) && (next.Reaping? || Waits(t, next.op));
    hide Shape, SparesAll, Chooses, WellFormed, Continued;
    ContinuedSpares(t, next, choice, now);
    SameWorkersSpare(s, t, StopReturned(s, choice, now));
  }

  lemma ContinuedSpares(s: State, next: Next, choice: Choice, now: nat)
    requires WellFormed(s.pool) && (next.Reaping? || Waits(s, next.op))
    requires next.ToReplace? ==> Chooses(s.pool, s.persisted, s.ops[next.op].cwd, choice)
    ensures SparesAll(s, Continued(s, next, choice, now))
  {
    match next
    case ToSpawn(op) =>
      RefusedSpares(s, op);
      SpawnSpares(s, s.ops[op].cwd, Selecting(op), now);
      hide SparesAll, Refused, SpawnBegins, WellFormed;
    case ToReplace(op) =>
      ScheduledChooses(s, s.ops[op].cwd, choice, op);
      SelectsSpares(Scheduled(s), op, choice, now);
      hide SparesAll, Chooses, Selects;
      SameWorkersSpare(s, Scheduled(s), Selects(Scheduled(s), op, choice, now));
    case SwitchFailed(op) =>
      RefusedSpares(s, op);
      hide SparesAll, Refused;
    case Reaping(rest) =>
      ReapsSpares(s, rest);
      hide SparesAll, Reaps;
  }

  lemma SameWorkersSpare(s: State, u: State, t: State)
    requires u.pool.workers == s.pool.workers && u.persisted == s.persisted && SparesAll(u, t)
    ensures SparesAll(s, t)
  {
    hide Spared;
  }

  lemma AcquiredSpares(s: State, op: OpId, choice: Choice, now: nat)
    requires Shape(s) && Enabled(s, Acquires(op, choice, now))
    ensures SparesAll(s, Acquired(s, op, choice, now))
  {
    var thread := ThreadOf(s.ops[op].purpose);
    assert WellFormed(s.pool) && (choice.Reuse? || choice.Evict? ==> choice.w in s.pool.workers);
    hide SparesAll, Chooses, Shape, Selects, Refused, WellFormed, Reassigned;
    if s.pool.stopped {
      RefusedSpares(s, op);
    } else if thread.Some? && Find(s.pool, thread.value).Some? {
      ReassignedSpares(s, op, Find(s.pool, thread.value).value);
    } else {
      SelectsSpares(s, op, choice, now);
    }
  }

  lemma ReassignedSpares(s: State, op: OpId, w: WorkerId)
    requires Waits(s, op) && w in s.pool.workers
    ensures SparesAll(s, Reassigned(s, op, w))
  {
    RefusedSpares(s, op);
    GrantedIsCalm(s, op, w);
    CalmSpares(s, Granted(Put(s, w, Retained(Get(s, w))), op, w));
    if Reclaimable(Get(s, w), s.persisted) {
      PutSpares(s, RetireBegins(s, w, ToReplace(op)), w);
    }
    hide SparesAll, Refused, Granted, RetireBegins, Put, Quiescent, Reclaimable;
  }

  lemma StartReturnedIsGentle(s: State, ok: bool, now: nat)
    requires Shape(s) && s.lock.Spawning?
    ensures Gentle(s.pool.workers, StartReturned(s, ok, now).pool.workers, {})
  {
    var w, job := s.lock.worker, s.lock.job;
    assert w in s.pool.workers && (job.Selecting? ==> job.op in s.ops) && s.pool.nextWorker !in s.pool.workers;
    hide Shape, Proceeds, Maintains, Gentle;
    if ok && !s.pool.stopped && job.Selecting? {
      ProceedsIsGentle(s, w, job.op);
    } else if ok && !s.pool.stopped {
      PrewarmedIsGentle(s, w, job.first, now);
    } else {
      FailedStartIsGentle(s, w, if ok then Stopped else Get(s, w).state);
    }
  }

  lemma FailedStartIsGentle(s: State, w: WorkerId, state: WorkerState)
    requires w in s.pool.workers
    ensures Gentle(s.pool.workers, Leaves(Put(s, w, Get(s, w).(state := state)), w).pool.workers, {})
  {
    hide Gentle;
    PutIsGentle(s.pool.workers, w, Get(s, w).(state := state), {});
  }

  lemma PrewarmedIsGentle(s: State, w: WorkerId, first: bool, now: nat)
    requires w in s.pool.workers && s.pool.nextWorker !in s.pool.workers
    ensures Gentle(s.pool.workers, Maintains(Unlocked(Put(s, w, Get(s, w).(state := Idle))), first, now).pool.workers, {})
  {
    var u := Unlocked(Put(s, w, Get(s, w).(state := Idle)));
    MaintainsIsGentle(u, first, now);
    hide Gentle, Maintains;
    PutIsGentle(s.pool.workers, w, Get(s, w).(state := Idle), {});
    GentleTwice(s.pool.workers, u.pool.workers, Maintains(u, first, now).pool.workers);
  }

  lemma MaintainsIsGentle(s: State, first: bool, now: nat)
    requires s.pool.nextWorker !in s.pool.workers
    ensures Gentle(s.pool.workers, Maintains(s, first, now).pool.workers, {})
  {
    hide Target;
    var u := SpawnBegins(s, 0, Maintaining(first), now);
    assert u.pool.workers == s.pool.workers[s.pool.nextWorker := NewWorker(0, false, now)];
    hide SpawnBegins;
  }

  lemma ProceedsIsGentle(s: State, w: WorkerId, op: OpId)
    requires w in s.pool.workers && op in s.ops
    ensures Gentle(s.pool.workers, Proceeds(Put(s, w, Get(s, w).(state := Assigned)), op, w).pool.workers, {})
  {
    var y := Get(s, w).(state := Assigned);
    hide Gentle, Granted;
    if ThreadOf(s.ops[op].purpose).Some? {
      PutIsGentle(s.pool.workers, w, y, {});
    } else {
      GrantedIsGentle(s, w, op, y);
    }
  }

  lemma GrantedIsGentle(s: State, w: WorkerId, op: OpId, y: Worker)
    requires w in s.pool.workers && op in s.ops && y == Get(s, w).(state := Assigned)
    ensures Gentle(s.pool.workers, Granted(Put(s, w, y), op, w).pool.workers, {})
  {
    var z := GrantedWorker(s.ops[op].purpose, y);
    GrantedFields(Put(s, w, y), op, w);
    assert s.pool.workers[w := y][w := z] == s.pool.workers[w := z];
    hide Gentle, Granted;
    PutIsGentle(s.pool.workers, w, z, {});
  }

  lemma MovedSpares(s: State, step: Step)
    requires Shape(s) && Enabled(s, step) && !InService(step) && !step.SwitchReturns?
    ensures SparesAll(s, Moved(s, step))
  {
    var t := Moved(s, step);
    match step
    case AgentStarts(w) =>
      AgentEventIsCalm(s, w, false);
      CalmSpares(s, t);
    case AgentSettles(w) =>
      AgentEventIsCalm(s, w, true);
      CalmSpares(s, t);
    case Exits(w, longLived) =>
      ExitedIsGentle(s, w, longLived);
      CalmSpares(s, t);
    case StartReturns(ok, now) =>
      StartReturnedIsGentle(s, ok, now);
      CalmSpares(s, t);
    case StopReturns(choice, now) => StopReturnedSpares(s, choice, now);
    case Acquires(op, choice, now) => AcquiredSpares(s, op, choice, now);
    case ReapBegins(candidates) => ReapsSpares(s, candidates);
    case _ =>
      OthersAreGentle(s, step);
      CalmSpares(s, t);
  }

  lemma OthersAreGentle(s: State, step: Step)
    requires Shape(s) && Enabled(s, step) && !InService(step) && !step.SwitchReturns?
    requires !step.AgentStarts? && !step.AgentSettles? && !step.Exits? && !step.StartReturns? && !step.StopReturns?
    requires !step.Acquires? && !step.ReapBegins?
    ensures Gentle(s.pool.workers, Moved(s, step).pool.workers, {})
  {
    if step.CommandBegins? || step.CommandEnds? || step.TimesOut? {
      CommandsAreGentle(s, step);
      hide Moved, Gentle;
    } else if step.MaintainBegins? {
      var u := if s.starting then s.(starting := false) else s.(maintains := s.maintains - 1);
      MaintainsIsGentle(u, s.starting, step.now);
      hide Maintains, Gentle;
    } else if step.StopBegins? {
      AllStoppedIsGentle(s);
      hide AllStopped, Gentle;
    } else {
      hide Gentle;
      SameIsGentle(s.pool.workers);
    }
  }

  lemma CommandsAreGentle(s: State, step: Step)
    requires Shape(s) && Enabled(s, step) && (step.CommandBegins? || step.CommandEnds? || step.TimesOut?)
    ensures Gentle(s.pool.workers, Moved(s, step).pool.workers, {})
  {
    var t := Moved(s, step);
    assert t == Put(s, step.w, Get(t, step.w));
    hide Moved, Gentle;
    PutIsGentle(s.pool.workers, step.w, Get(t, step.w), {});
  }

  lemma AllStoppedIsGentle(s: State)
    requires s.pool.members <= s.pool.workers.Keys
    ensures Gentle(s.pool.workers, AllStopped(s).pool.workers, {})
  {
  }

  /** A retiring worker has no reservation, and never gets one again. */
  lemma RetiringIsUnreserved(s: State, w: WorkerId)
    requires Reachable(s) && w in s.pool.workers && Get(s, w).retiring
    ensures Get(s, w).reservations == 0
  {
    ReachableIsCore(s);
    assert Balanced(Get(s, w), w in s.pool.members, !s.leaky, Holders(s, w));
  }
}
