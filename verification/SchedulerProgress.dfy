/** The pool keeps its minimum size: once it has started, it is never short of workers
    without a recovery on the way, and once it has stopped it stays empty. */
module SchedulerProgress {
  import opened Common
  import opened Pools
  import opened Scheduler

  predicate Short(p: Pool) {
    |p.members| < Target(p.options)
  }

  /** Somebody is going to look after a pool that is too small: a pending timer, a recovery
      that waits for or holds the mutex, or the error handler of a failed start. */
  predicate Attended(s: State) {
    || s.pool.timer || s.maintains > 0 || s.lock.Disposing?
    || (s.lock.Spawning? && s.lock.job.Maintaining?)
  }

  /** The pool's first fill ends in `started`, and only once. */
  predicate Phases(s: State) {
    && (s.starting ==> !s.started)
    && ((s.lock.Spawning? || s.lock.Disposing?) && s.lock.job == Maintaining(true) ==> !s.started && !s.starting)
  }

  predicate Halts(s: State) {
    && (s.pool.stopped ==> !s.pool.timer)
    && (s.drained ==> s.pool.stopped && s.pool.members == {})
    && (s.lock == Stopping ==> s.pool.stopped)
  }

  predicate Progress(s: State) {
    && (s.started && !s.pool.stopped && Short(s.pool) ==> Attended(s))
    && Phases(s)
    && Halts(s)
    && s.pool.delay == Backoff(s.pool.attempts)
  }

  // ---------------------------------------------------------------- steps that do not matter

  /** A worker keeps its thread, and its turn until it forgets it. */
  predicate Attached(x: Worker, y: Worker) {
    (x.thread.Some? ==> y.thread == x.thread) && (y.activeTurn == x.activeTurn || y.activeTurn == None)
  }

  /** No worker is marked retiring and none loses its thread; only the busy ones can get another
      thread or a turn. */
  predicate Gentle(a: map<WorkerId, Worker>, b: map<WorkerId, Worker>, busy: set<WorkerId>) {
    && (forall w <- a ::
          w in b && b[w].retiring == a[w].retiring && (a[w].thread.Some? ==> b[w].thread.Some?)
          && (w in busy || Attached(a[w], b[w])))
    && (forall w <- b :: w in a || b[w].activeTurn == None)
  }

  /** Only worker records and service state change, and workers keep their threads. */
  predicate Calm(s: State, t: State, busy: set<WorkerId>) {
    && t.pool == s.pool.(workers := t.pool.workers)
    && t.lock == s.lock && t.maintains == s.maintains
    && t.starting == s.starting && t.started == s.started && t.drained == s.drained
    && Gentle(s.pool.workers, t.pool.workers, busy)
  }

  lemma SameIsGentle(a: map<WorkerId, Worker>)
    ensures Gentle(a, a, {})
  {
  }

  lemma PutIsGentle(a: map<WorkerId, Worker>, w: WorkerId, y: Worker, busy: set<WorkerId>)
    requires w in a && y.retiring == a[w].retiring && (a[w].thread.Some? ==> y.thread.Some?)
    requires w in busy || Attached(a[w], y)
    ensures Gentle(a, a[w := y], busy)
  {
  }

  lemma CalmProgress(s: State, t: State, busy: set<WorkerId>)
    requires Progress(s) && Calm(s, t, busy)
    ensures Progress(t)
  {
  }

  lemma SettlesIsCalm(s: State, thread: ThreadId, turn: TurnId)
    ensures Calm(s, Settles(s, thread, turn), {})
  {
    var t := Settles(s, thread, turn);
    SettlesPuts(s, thread, turn);
    SameIsGentle(s.pool.workers);
    forall w <- s.pool.workers ensures Gentle(s.pool.workers, s.pool.workers[w := Get(s, w).(activeTurn := None)], {}) {
      PutIsGentle(s.pool.workers, w, Get(s, w).(activeTurn := None), {});
    }
    hide Settles, Gentle;
  }

  lemma SettlesPuts(s: State, thread: ThreadId, turn: TurnId)
    ensures var t := Settles(s, thread, turn);
      && t == s.(turns := t.turns, ended := t.ended, ops := t.ops, nextOp := t.nextOp, pool := t.pool)
      && (t.pool == s.pool || exists w <- s.pool.workers ::
                                t.pool == s.pool.(workers := s.pool.workers[w := Get(s, w).(activeTurn := None)]))
    ensures var t := Settles(s, thread, turn); forall o <- s.ops :: o == s.nextOp || (o in t.ops && t.ops[o] == s.ops[o])
  {
    hide Find;
    if Find(s.pool, thread).Some? {
      var w := Find(s.pool, thread).value;
      assert Put(s, w, Get(s, w).(activeTurn := None)).pool == s.pool.(workers := s.pool.workers[w := Get(s, w).(activeTurn := None)]);
    }
  }

  lemma RequestedIsCalm(s: State, purpose: Purpose, cwd: Directory)
    ensures Calm(s, Requested(s, purpose, cwd), {})
  {
    hide Denied;
  }

  lemma RefusedIsCalm(s: State, op: OpId)
    requires op in s.ops
    ensures Calm(s, Refused(s, op), {})
  {
  }

  lemma GrantedPuts(s: State, op: OpId, w: WorkerId, x: Worker)
    requires op in s.ops && w in s.pool.workers
    ensures var t, y := Granted(Put(s, w, x), op, w), if s.ops[op].purpose.ForMutation? then x.(state := Running) else x;
      t == Put(s, w, y).(ops := t.ops)
  {
    assert s.pool.workers[w := x][w := x.(state := Running)] == s.pool.workers[w := x.(state := Running)];
  }

  lemma GrantedIsCalm(s: State, op: OpId, w: WorkerId)
    requires op in s.ops && w in s.pool.workers
    ensures Calm(s, Granted(Put(s, w, Retained(Get(s, w))), op, w), {})
  {
    var x := Retained(Get(s, w));
    var y := if s.ops[op].purpose.ForMutation? then x.(state := Running) else x;
    PutIsGentle(s.pool.workers, w, y, {});
    hide Gentle, Retained, Attached;
    GrantedPuts(s, op, w, x);
    hide Granted;
  }

  lemma RetainedForIsCalm(s: State, op: OpId)
    requires Waits(s, op) && ThreadOf(s.ops[op].purpose).Some?
    ensures Calm(s, RetainedFor(s, op), {})
  {
    hide Refused, Granted;
    RefusedIsCalm(s, op);
    match Find(s.pool, ThreadOf(s.ops[op].purpose).value)
    case None =>
    case Some(w) => GrantedIsCalm(s, op, w);
  }

  lemma GivesBackIsCalm(s: State, op: OpId, now: nat)
    requires Holds(s, op)
    ensures Calm(s, GivesBack(s, op, now), {})
    ensures Calm(s, GivesBack(Unclaimed(s, s.ops[op].purpose), op, now), {})
  {
    var w := s.ops[op].worker;
    hide Gentle;
    PutIsGentle(s.pool.workers, w, Released(Get(s, w), now), {});
  }

  /** The worker whose thread or turn the service is writing. */
  function Users(s: State, step: Step): set<WorkerId> {
    match step
    case StartSucceeds(op, _, _) => UserOf(s, op)
    case StartFails(op, _, _) => UserOf(s, op)
    case SendSucceeds(op) => UserOf(s, op)
    case Publishes(op, _) => UserOf(s, op)
    case MutationEnds(op, _, _) => UserOf(s, op)
    case _ => {}
  }

  function UserOf(s: State, op: OpId): set<WorkerId> {
    if Holds(s, op) then {s.ops[op].worker} else {}
  }

  lemma RequestsAreCalm(s: State, step: Step)
    requires Shape(s) && Enabled(s, step) && (step.Requests? || step.Retains? || step.SendSucceeds?)
    ensures Calm(s, Apply(s, step), Users(s, step))
  {
    hide Shape, Requested, RetainedFor;
    match step
    case Requests(purpose, cwd) => RequestedIsCalm(s, purpose, cwd);
    case Retains(op) => RetainedForIsCalm(s, op);
    case SendSucceeds(op) =>
  }

  lemma StartsAreCalm(s: State, step: Step)
    requires Shape(s) && Enabled(s, step) && (step.StartSucceeds? || step.StartFails? || step.Publishes?)
    ensures Calm(s, Apply(s, step), Users(s, step))
  {
    var w := s.ops[step.op].worker;
    assert Moves(s, Apply(s, step), w);
    hide Shape, Unheard, Apply, Enabled, Gentle;
    PutIsGentle(s.pool.workers, w, Get(Apply(s, step), w), {w});
  }

  /** The service writes one worker's record and its own books. */
  predicate Moves(s: State, t: State, w: WorkerId) {
    && w in s.pool.workers && w in t.pool.workers
    && t.pool == s.pool.(workers := s.pool.workers[w := t.pool.workers[w]])
    && t.lock == s.lock && t.maintains == s.maintains
    && t.starting == s.starting && t.started == s.started && t.drained == s.drained
    && Get(t, w).retiring == Get(s, w).retiring && (Get(s, w).thread.Some? ==> Get(t, w).thread.Some?)
  }

  lemma EndsAreCalm(s: State, step: Step)
    requires Shape(s) && Enabled(s, step) && (step.SendFails? || step.MutationEnds? || step.Finishes?)
    ensures Calm(s, Apply(s, step), Users(s, step))
  {
    hide Shape, Unheard, GivesBack, Calm, MutationEnded;
    match step
    case SendFails(op, now) => GivesBackIsCalm(s, op, now);
    case MutationEnds(op, bound, now) => MutationEndedIsCalm(s, op, bound, now);
    case Finishes(op, now) => GivesBackIsCalm(s, op, now);
  }

  lemma MutationEndedIsCalm(s: State, op: OpId, bound: Option<ThreadId>, now: nat)
    requires Holds(s, op) && s.ops[op].purpose.ForMutation?
    ensures Calm(s, MutationEnded(s, op, bound, now), {s.ops[op].worker})
  {
    var w := s.ops[op].worker;
    var x := if bound.Some? then Bound(Get(s, w), bound.value) else Get(s, w);
    MutationEndedPuts(s, op, bound, now);
    PutIsGentle(s.pool.workers, w, Released(x, now), {w});
    hide Gentle, MutationEnded, Released;
  }

  lemma MutationEndedPuts(s: State, op: OpId, bound: Option<ThreadId>, now: nat)
    requires Holds(s, op) && s.ops[op].purpose.ForMutation?
    ensures var t, w := MutationEnded(s, op, bound, now), s.ops[op].worker;
      var x := if bound.Some? then Bound(Get(s, w), bound.value) else Get(s, w);
      t == Put(s, w, Released(x, now)).(ops := t.ops, turns := t.turns, mutations := t.mutations)
  {
    var w := s.ops[op].worker;
    var x := if bound.Some? then Bound(Get(s, w), bound.value) else Get(s, w);
    assert s.pool.workers[w := x][w := Released(x, now)] == s.pool.workers[w := Released(x, now)];
    hide Bound, Released;
  }

  lemma EventsAreCalm(s: State, step: Step)
    requires Shape(s) && Enabled(s, step) && (step.TerminalEvent? || step.AbortBegins? || step.AbortEnds?)
    ensures Calm(s, Apply(s, step), Users(s, step))
  {
    hide Settles, Gentle;
    match step
    case TerminalEvent(thread, turn) => SettlesIsCalm(s, thread, turn);
    case AbortBegins(thread) =>
      var w := s.turns[thread].worker.value;
      PutIsGentle(s.pool.workers, w, Get(s, w).(aborting := Some(s.turns[thread].turn)), {});
    case AbortEnds(w, turn) =>
      SameIsGentle(s.pool.workers);
      PutIsGentle(s.pool.workers, w, Get(s, w).(aborting := None), {});
  }

  lemma ServedIsCalm(s: State, step: Step)
    requires Shape(s) && Enabled(s, step) && InService(step)
    ensures Calm(s, Apply(s, step), Users(s, step))
  {
    hide Shape, Enabled, Apply, Calm, Users;
    if step.Requests? || step.Retains? || step.SendSucceeds? {
      RequestsAreCalm(s, step);
    } else if step.StartSucceeds? || step.StartFails? || step.Publishes? {
      StartsAreCalm(s, step);
    } else if step.SendFails? || step.MutationEnds? || step.Finishes? {
      EndsAreCalm(s, step);
    } else {
      EventsAreCalm(s, step);
    }
  }

  // ---------------------------------------------------------------- building blocks

  lemma BackoffDoubles(k: nat)
    ensures Backoff(k + 1) == Min(Backoff(k) * 2, LAST_DELAY)
    ensures Backoff(0) == FIRST_DELAY
  {
  }

  /** Progress, except that the pool may have become short just now. */
  predicate Ready(s: State) {
    Phases(s) && Halts(s) && s.pool.delay == Backoff(s.pool.attempts)
  }

  /** After scheduling a recovery nothing is missing. */
  lemma ScheduledProgress(s: State)
    requires Ready(s)
    ensures Progress(Scheduled(s))
  {
    BackoffDoubles(s.pool.attempts);
    hide Backoff;
  }

  lemma MaintainsProgress(s: State, first: bool, now: nat)
    requires Ready(s) && s.lock == Free && (first ==> !s.started && !s.starting)
    ensures Progress(Maintains(s, first, now))
  {
    hide Backoff;
  }

  lemma SpawnProgress(s: State, cwd: Directory, op: OpId, now: nat)
    requires Progress(s) && !s.pool.stopped && s.lock == Free && WellFormed(s.pool)
    ensures Progress(SpawnBegins(s, cwd, Selecting(op), now))
  {
    hide Backoff;
    assert s.pool.nextWorker !in s.pool.members;
  }

  lemma SelectsProgress(s: State, op: OpId, choice: Choice, now: nat)
    requires Progress(s) && s.lock == Free && WellFormed(s.pool) && Waits(s, op)
    requires choice.Reuse? || choice.Evict? ==> choice.w in s.pool.workers
    ensures Progress(Selects(s, op, choice, now))
  {
    hide Backoff, WellFormed, SpawnBegins;
    if choice.Spawn? {
      if s.pool.stopped {
        ScheduledProgress(s);
        CalmProgress(Scheduled(s), Refused(Scheduled(s), op), {});
      } else {
        SpawnProgress(s, s.ops[op].cwd, op, now);
      }
    }
  }

  lemma {:induction false} ReapsProgress(s: State, candidates: seq<WorkerId>)
    requires Ready(s) && s.lock == Free
    ensures Progress(Reaps(s, candidates))
  {
    hide Backoff, Reclaimable;
    if candidates == [] || |s.pool.members| <= s.pool.options.minWorkers {
      ScheduledProgress(s);
    } else if !(candidates[0] in s.pool.workers && Reclaimable(Get(s, candidates[0]), s.persisted)) {
      ReapsProgress(s, candidates[1..]);
    }
  }

  // ---------------------------------------------------------------- every step, every run

  lemma ExitedProgress(s: State, w: WorkerId, longLived: bool)
    requires Progress(s) && w in s.pool.workers
    ensures Progress(Exited(s, w, longLived))
  {
    hide Departed, Backoff;
    var t := Departed(s, w);
    DepartedIsReady(s, w);
    BackoffDoubles(0);
    ScheduledProgress(if longLived then t.(pool := t.pool.(delay := FIRST_DELAY, attempts := 0)) else t);
  }

  lemma DepartedIsReady(s: State, w: WorkerId)
    requires Progress(s) && w in s.pool.workers
    ensures Ready(Departed(s, w))
  {
    hide Settles, Backoff, Gentle;
    var x := Get(s, w);
    if x.thread.Some? && x.activeTurn.Some? {
      SettlesIsCalm(Leaves(Put(s, w, x.(state := Crashed, activeTurn := None)), w), x.thread.value, x.activeTurn.value);
    }
  }

  lemma StopReturnedProgress(s: State, choice: Choice, now: nat)
    requires Shape(s) && Progress(s) && Enabled(s, StopReturns(choice, now))
    ensures Progress(StopReturned(s, choice, now))
  {
    var t, next := Unlocked(Leaves(s, s.lock.worker)), s.lock.next;
    assert Ready(t) && WellFormed(t.pool) && WellFormed(s.pool) && (next.Reaping? || Waits(t, next.op));
    assert next.ToReplace? && (choice.Reuse? || choice.Evict?) ==> choice.w in t.pool.workers;
    hide Shape, Progress, Ready, WellFormed, Chooses, Continued;
    if next.ToSpawn? && !s.pool.stopped && |t.pool.members| < s.pool.options.maxWorkers {
      ReplacedProgress(s, next.op, now);
      SpawnsNext(t, next.op, choice, now);
    } else {
      ContinuedProgress(t, next, choice, now);
    }
  }

  lemma SpawnsNext(s: State, op: OpId, choice: Choice, now: nat)
    requires Waits(s, op) && !s.pool.stopped && |s.pool.members| < s.pool.options.maxWorkers
    ensures Continued(s, ToSpawn(op), choice, now) == SpawnBegins(s, s.ops[op].cwd, Selecting(op), now)
  {
  }

  lemma ContinuedProgress(s: State, next: Next, choice: Choice, now: nat)
    requires Ready(s) && WellFormed(s.pool) && s.lock == Free && (next.Reaping? || Waits(s, next.op))
    requires next.ToReplace? && (choice.Reuse? || choice.Evict?) ==> choice.w in s.pool.workers
    requires next.ToSpawn? ==> s.pool.stopped || |s.pool.members| >= s.pool.options.maxWorkers
    ensures Progress(Continued(s, next, choice, now))
  {
    hide Ready, Progress;
    ScheduledProgress(s);
    match next
    case ToSpawn(op) => CalmProgress(Scheduled(s), Refused(Scheduled(s), op), {});
    case ToReplace(op) => SelectsProgress(Scheduled(s), op, choice, now);
    case SwitchFailed(op) => CalmProgress(Scheduled(s), Refused(Scheduled(s), op), {});
    case Reaping(rest) => ReapsProgress(s, rest);
  }

  /** The evicted worker's place is taken by the new one. */
  lemma ReplacedProgress(s: State, op: OpId, now: nat)
    requires Progress(s) && WellFormed(s.pool) && s.lock.Retiring? && !s.pool.stopped && op in s.ops && s.ops[op].Waiting?
    ensures Progress(SpawnBegins(Unlocked(Leaves(s, s.lock.worker)), s.ops[op].cwd, Selecting(op), now))
  {
    hide Backoff;
    assert s.pool.nextWorker !in s.pool.members;
  }

  lemma StartReturnedProgress(s: State, ok: bool, now: nat)
    requires Shape(s) && Progress(s) && s.lock.Spawning?
    ensures Progress(StartReturned(s, ok, now))
  {
    var w, job := s.lock.worker, s.lock.job;
    assert w in s.pool.workers && (job.Selecting? ==> job.op in s.ops);
    hide Backoff, Maintains, Shape, Proceeds;
    if ok && !s.pool.stopped {
      match job
      case Maintaining(first) => MaintainsProgress(Unlocked(Put(s, w, Get(s, w).(state := Idle))), first, now);
      case Selecting(op) => ProceedsProgress(s, op, w);
    }
  }

  /** The mutex goes on with an operation, or is free; the pool stays as it is. */
  predicate GoesOn(s: State, t: State) {
    && t.pool == s.pool.(workers := t.pool.workers) && t.maintains == s.maintains
    && t.starting == s.starting && t.started == s.started && t.drained == s.drained
    && (t.lock == Free || t.lock.Switching? || t.lock.Retiring?)
  }

  lemma GoesOnProgress(s: State, t: State)
    requires Progress(s) && GoesOn(s, t)
    requires s.lock.Switching? || (s.lock.Spawning? && s.lock.job.Selecting?)
    ensures Progress(t)
  {
    hide Backoff;
  }

  lemma ProceedsProgress(s: State, op: OpId, w: WorkerId)
    requires Progress(s) && s.lock == Spawning(w, Selecting(op)) && op in s.ops && w in s.pool.workers
    ensures Progress(Proceeds(Put(s, w, Get(s, w).(state := Assigned)), op, w))
  {
    GoesOnProgress(s, Proceeds(Put(s, w, Get(s, w).(state := Assigned)), op, w));
    hide Progress;
  }

  lemma DisposedProgress(s: State)
    requires Shape(s) && Progress(s) && s.lock.Disposing?
    ensures Progress(Disposed(s))
  {
    hide Shape, Backoff, ScheduleRecovery;
    ScheduledProgress(Unlocked(s));
  }

  lemma AcquiredProgress(s: State, op: OpId, choice: Choice, now: nat)
    requires Shape(s) && Progress(s) && Enabled(s, Acquires(op, choice, now))
    ensures Progress(Acquired(s, op, choice, now))
  {
    assert WellFormed(s.pool) && (choice.Reuse? || choice.Evict? ==> choice.w in s.pool.workers);
    hide Progress, Chooses, Quiescent, Reclaimable, Selects, Shape, WellFormed, Calm, Refused;
    var thread := ThreadOf(s.ops[op].purpose);
    RefusedIsCalm(s, op);
    CalmProgress(s, Refused(s, op), {});
    if !s.pool.stopped && (thread == None || Find(s.pool, thread.value) == None) {
      SelectsProgress(s, op, choice, now);
    } else if !s.pool.stopped {
      AssignedProgress(s, op, Find(s.pool, thread.value).value);
    }
  }

  lemma AssignedProgress(s: State, op: OpId, w: WorkerId)
    requires Progress(s) && op in s.ops && w in s.pool.workers && s.lock == Free
    ensures Progress(Granted(Put(s, w, Retained(Get(s, w))), op, w))
    ensures Progress(RetireBegins(s, w, ToReplace(op)))
  {
    hide Backoff;
  }

  lemma SwitchReturnedProgress(s: State, ok: bool, now: nat)
    requires Shape(s) && Progress(s) && s.lock.Switching?
    ensures Progress(SwitchReturned(s, ok, now))
  {
    var w, op := s.lock.worker, s.lock.op;
    assert w in s.pool.workers && op in s.ops;
    if ok {
      SwitchedGoesOn(s, op, w, ThreadOf(s.ops[op].purpose).value);
    } else {
      SwitchFailedGoesOn(s, op, w, now);
    }
    hide Progress, Released, Shape, GoesOn, Granted, Refused;
    GoesOnProgress(s, SwitchReturned(s, ok, now));
  }

  lemma SwitchedGoesOn(s: State, op: OpId, w: WorkerId, thread: ThreadId)
    requires op in s.ops && w in s.pool.workers
    ensures GoesOn(s, Unlocked(Granted(Put(s, w, Bound(Get(s, w), thread)), op, w)))
  {
    hide Bound;
  }

  lemma SwitchFailedGoesOn(s: State, op: OpId, w: WorkerId, now: nat)
    requires op in s.ops && w in s.pool.workers
    ensures var t := Unlocked(Put(s, w, Released(Get(s, w), now)));
      GoesOn(s, RetireBegins(t, w, SwitchFailed(op))) && GoesOn(s, Refused(t, op))
  {
    hide Released;
  }

  /** Whatever happens next, progress is still guaranteed. */
  lemma StepProgress(s: State, step: Step)
    requires Shape(s) && Progress(s) && Enabled(s, step)
    ensures Progress(Apply(s, step))
  {
    if InService(step) {
      ServedIsCalm(s, step);
      hide Shape, Enabled, Apply, Calm, Users;
      CalmProgress(s, Apply(s, step), Users(s, step));
    } else {
      MovedProgress(s, step);
    }
  }

  lemma AgentEventIsCalm(s: State, w: WorkerId, settled: bool)
    requires w in s.pool.workers
    ensures Calm(s, AgentEvent(s, w, settled), {})
  {
    var x, t := Get(s, w), Put(Marked(s, w), w, Reported(Get(s, w), settled));
    assert Calm(s, t, {});
    if settled && x.thread.Some? && x.activeTurn.Some? {
      SettlesIsCalm(t, x.thread.value, x.activeTurn.value);
    }
    hide Settles, Marked, Reported;
  }

  lemma MovedProgress(s: State, step: Step)
    requires Shape(s) && Progress(s) && Enabled(s, step) && !InService(step)
    ensures Progress(Moved(s, step))
  {
    hide Backoff, AgentEvent, StartReturned, Disposed, StopReturned, Acquired, SwitchReturned, Exited, Reaps, Chooses, Maintains;
    match step
    case AgentStarts(w) => AgentEventIsCalm(s, w, false);
    case AgentSettles(w) => AgentEventIsCalm(s, w, true);
    case Exits(w, longLived) => ExitedProgress(s, w, longLived);
    case MaintainBegins(now) =>
      MaintainsProgress(if s.starting then s.(starting := false) else s.(maintains := s.maintains - 1), s.starting, now);
    case StartReturns(ok, now) => StartReturnedProgress(s, ok, now);
    case DisposeReturns => DisposedProgress(s);
    case StopReturns(choice, now) => StopReturnedProgress(s, choice, now);
    case Acquires(op, choice, now) => AcquiredProgress(s, op, choice, now);
    case SwitchReturns(ok, now) => SwitchReturnedProgress(s, ok, now);
    case ReapBegins(candidates) => ReapsProgress(s, candidates);
    case _ =>
  }

  lemma InitialProgress(options: Options)
    ensures Progress(Initial(options))
  {
    BackoffDoubles(0);
    hide Backoff;
  }
}
