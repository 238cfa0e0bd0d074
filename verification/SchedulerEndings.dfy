/** Who ends a turn: only its own terminal event, or its own failed admission. */
module SchedulerEndings {
  import opened Common
  import opened Pools
  import opened Scheduler
  import opened SchedulerInv
  import opened SchedulerRuns
  import opened SchedulerResults

  /** Is this a terminal event of exactly this turn, published or from the turn's worker? */
  predicate IsItsEnd(s: State, step: Step, thread: ThreadId, turn: TurnId) {
    match step
    case TerminalEvent(k, u) => k == thread && u == turn
    case AgentSettles(w) => w in s.pool.workers && Get(s, w).thread == Some(thread) && Get(s, w).activeTurn == Some(turn)
    case Exits(w, _) => w in s.pool.workers && Get(s, w).thread == Some(thread) && Get(s, w).activeTurn == Some(turn)
    case _ => false
  }

  /** The turn is still there, and if it was admitted on the same worker. */
  predicate Kept(s: State, t: State, thread: ThreadId)
    requires thread in s.turns
  {
    && thread in t.turns && t.turns[thread].turn == s.turns[thread].turn
    && (s.turns[thread].worker.Some? ==> t.turns[thread] == s.turns[thread])
  }

  /** Turns are lost only with the operation that had reserved them and failed. */
  ghost predicate LosesWith(s: State, t: State, op: OpId) {
    && t.ended == s.ended && t.stray == s.stray && t.leaky == s.leaky
    && forall k <- s.turns :: Kept(s, t, k) || Fails(s, t, op, k, s.turns[k].turn)
  }

  predicate SameBooks(s: State, t: State) {
    t.turns == s.turns && t.ended == s.ended && t.stray == s.stray && t.leaky == s.leaky
  }

  ghost predicate KeepsAll(s: State, t: State) {
    t.ended == s.ended && t.stray == s.stray && t.leaky == s.leaky && forall k <- s.turns :: Kept(s, t, k)
  }

  lemma SameBooksLose(s: State, t: State, op: OpId)
    requires SameBooks(s, t)
    ensures LosesWith(s, t, op)
  {
  }

  predicate Fails(s: State, t: State, op: OpId, thread: ThreadId, turn: TurnId) {
    op in s.ops && op !in t.ops && s.ops[op].purpose == ForSend(thread, turn)
  }

  lemma RefusedLoses(s: State, op: OpId)
    requires OpsOk(s) && op in s.ops
    ensures LosesWith(s, Refused(s, op), op) && LosesWith(s, Refused(Scheduled(s), op), op)
  {
    assert OpOk(s.ops[op], s.turns, s.mutations, s.pool.workers);
  }

  lemma SettlesLoses(s: State, thread: ThreadId, turn: TurnId)
    ensures forall k <- s.turns ::
              Kept(s, Settles(s, thread, turn), k)
              || (k == thread && turn == s.turns[k].turn && s.turns[k].worker.Some? && turn in Settles(s, thread, turn).ended)
  {
    hide Find;
  }

  lemma SettlesEnds(s: State, thread: ThreadId, turn: TurnId)
    ensures var t := Settles(s, thread, turn);
      s.ended <= t.ended && t.stray == s.stray && t.leaky == s.leaky
  {
    hide Find;
  }

  lemma SelectsLoses(s: State, op: OpId, choice: Choice, now: nat)
    requires OpsOk(s) && Waits(s, op) && (choice.Reuse? || choice.Evict? ==> choice.w in s.pool.workers)
    ensures LosesWith(s, Selects(s, op, choice, now), op)
  {
    RefusedLoses(s, op);
    SameBooksLose(s, SpawnBegins(s, s.ops[op].cwd, Selecting(op), now), op);
    if choice.Reuse? {
      ReuseKeepsBooks(s, op, choice.w);
    }
    if choice.Evict? {
      SameBooksLose(s, RetireBegins(s, choice.w, ToSpawn(op)), op);
    }
    hide OpsOk, Refused, ScheduleRecovery, LosesWith, Proceeds, SpawnBegins, RetireBegins;
  }

  lemma ReuseKeepsBooks(s: State, op: OpId, w: WorkerId)
    requires op in s.ops && w in s.pool.workers
    ensures LosesWith(s, Proceeds(Put(s, w, Reserved(Get(s, w)).(state := Assigned)), op, w), op)
  {
    SameBooksLose(s, Proceeds(Put(s, w, Reserved(Get(s, w)).(state := Assigned)), op, w), op);
    hide LosesWith;
  }

  lemma {:induction false} ReapsLoses(s: State, candidates: seq<WorkerId>)
    ensures SameBooks(s, Reaps(s, candidates))
  {
    if candidates != [] {
      ReapsLoses(s, candidates[1..]);
    }
    hide Reclaimable;
  }

  lemma SameSituation(s: State, u: State, t: State, op: OpId)
    requires LosesWith(u, t, op) && SameBooks(s, u) && u.ops == s.ops
    ensures LosesWith(s, t, op)
  {
  }

  lemma ContinuedLoses(s: State, next: Next, choice: Choice, now: nat)
    requires OpsOk(s) && (next.Reaping? || Waits(s, next.op))
    requires next.ToReplace? && (choice.Reuse? || choice.Evict?) ==> choice.w in s.pool.workers
    ensures next.Reaping? ==> SameBooks(s, Continued(s, next, choice, now))
    ensures !next.Reaping? ==> LosesWith(s, Continued(s, next, choice, now), next.op)
  {
    var u := Scheduled(s);
    assert OpsOk(u);
    match next
    case ToSpawn(op) =>
      RefusedLoses(s, op);
      hide OpsOk, Refused, ScheduleRecovery;
    case ToReplace(op) =>
      SelectsLoses(u, op, choice, now);
      hide OpsOk, LosesWith, Selects;
      SameSituation(s, u, Selects(u, op, choice, now), op);
    case SwitchFailed(op) => RefusedLoses(s, op);
    case Reaping(rest) => ReapsLoses(s, rest);
  }

  /** The operation a step of the pool can make fail. */
  function Victim(s: State, step: Step): OpId {
    if step.Acquires? then step.op
    else if Client(s.lock).Some? then Client(s.lock).value
    else 0
  }

  lemma StopReturnedLoses(s: State, choice: Choice, now: nat)
    requires Core(s) && Enabled(s, StopReturns(choice, now))
    ensures LosesWith(s, StopReturned(s, choice, now), Victim(s, StopReturns(choice, now)))
  {
    var u, next := Unlocked(Leaves(s, s.lock.worker)), s.lock.next;
    assert OpsOk(u) && (next.Reaping? || Waits(u, next.op));
    assert next.ToReplace? && (choice.Reuse? || choice.Evict?) ==> choice.w in u.pool.workers;
    hide Core, OpsOk, Continued, Enabled, Shape;
    ContinuedLoses(u, next, choice, now);
  }

  lemma AcquiredLoses(s: State, op: OpId, choice: Choice, now: nat)
    requires Core(s) && Enabled(s, Acquires(op, choice, now))
    ensures LosesWith(s, Acquired(s, op, choice, now), op)
  {
    var thread := ThreadOf(s.ops[op].purpose);
    assert OpsOk(s) && (choice.Reuse? || choice.Evict? ==> choice.w in s.pool.workers);
    hide Core, LosesWith, Refused, Selects, Chooses, Shape, Reassigned, OpsOk;
    if s.pool.stopped {
      RefusedLoses(s, op);
    } else if thread.Some? && Find(s.pool, thread.value).Some? {
      ReassignedLoses(s, op, Find(s.pool, thread.value).value);
    } else {
      SelectsLoses(s, op, choice, now);
    }
  }

  lemma ReassignedLoses(s: State, op: OpId, w: WorkerId)
    requires OpsOk(s) && Waits(s, op) && w in s.pool.workers
    ensures LosesWith(s, Reassigned(s, op, w), op)
  {
    RefusedLoses(s, op);
    AssignedLoses(s, op, w);
    hide OpsOk, LosesWith, Refused, Granted, RetireBegins, Put, Quiescent, Reclaimable;
  }

  lemma AssignedLoses(s: State, op: OpId, w: WorkerId)
    requires op in s.ops && w in s.pool.workers
    ensures LosesWith(s, Granted(Put(s, w, Retained(Get(s, w))), op, w), op)
    ensures LosesWith(s, RetireBegins(s, w, ToReplace(op)), op)
  {
  }

  lemma DisposedLoses(s: State)
    requires Core(s) && s.lock.Disposing?
    ensures LosesWith(s, Disposed(s), Victim(s, DisposeReturns))
  {
    var u := Unlocked(s);
    assert OpsOk(u) && (s.lock.job.Selecting? ==> s.lock.job.op in u.ops);
    hide Core, OpsOk, Shape;
    if s.lock.job.Selecting? {
      RefusedLoses(u, s.lock.job.op);
    }
  }

  lemma SwitchReturnedLoses(s: State, ok: bool, now: nat)
    requires Core(s) && s.lock.Switching?
    ensures LosesWith(s, SwitchReturned(s, ok, now), s.lock.op)
  {
    var w, op := s.lock.worker, s.lock.op;
    assert OpsOk(s) && w in s.pool.workers && op in s.ops;
    hide Core, OpsOk, LosesWith, SameBooks;
    if ok {
      SwitchedKeepsBooks(s, op, w, ThreadOf(s.ops[op].purpose).value);
      SameBooksLose(s, SwitchReturned(s, true, now), op);
    } else {
      SwitchFailedLoses(s, op, w, now);
    }
  }

  lemma SwitchedKeepsBooks(s: State, op: OpId, w: WorkerId, thread: ThreadId)
    requires op in s.ops && w in s.pool.workers
    ensures SameBooks(s, Unlocked(Granted(Put(s, w, Bound(Get(s, w), thread)), op, w)))
  {
    hide Bound;
  }

  lemma SwitchFailedLoses(s: State, op: OpId, w: WorkerId, now: nat)
    requires OpsOk(s) && op in s.ops && w in s.pool.workers
    ensures var t := Unlocked(Put(s, w, Released(Get(s, w), now)));
      LosesWith(s, Refused(t, op), op) && LosesWith(s, RetireBegins(t, w, SwitchFailed(op)), op)
  {
    RefusedLoses(s, op);
    var t := Unlocked(Put(s, w, Released(Get(s, w), now)));
    SameBooksLose(s, RetireBegins(t, w, SwitchFailed(op)), op);
    hide Released, OpsOk;
  }

  lemma StartReturnedLoses(s: State, ok: bool, now: nat)
    requires Shape(s) && s.lock.Spawning?
    ensures SameBooks(s, StartReturned(s, ok, now))
  {
    var w, job := s.lock.worker, s.lock.job;
    assert w in s.pool.workers && (job.Selecting? ==> job.op in s.ops);
    hide Shape, Proceeds, Maintains, SameBooks;
    if ok && !s.pool.stopped {
      match job
      case Selecting(op) => ProceedsKeepsBooks(s, op, w);
      case Maintaining(first) => PrewarmedKeepsBooks(s, w, first, now);
    } else {
      FailedStartKeepsBooks(s, w, if ok then Stopped else Get(s, w).state, job);
    }
  }

  lemma FailedStartKeepsBooks(s: State, w: WorkerId, state: WorkerState, job: Job)
    requires w in s.pool.workers
    ensures SameBooks(s, Leaves(Put(s, w, Get(s, w).(state := state)), w).(lock := Disposing(job)))
  {
  }

  lemma PrewarmedKeepsBooks(s: State, w: WorkerId, first: bool, now: nat)
    requires w in s.pool.workers
    ensures SameBooks(s, Maintains(Unlocked(Put(s, w, Get(s, w).(state := Idle))), first, now))
  {
    MaintainsKeepsBooks(Unlocked(Put(s, w, Get(s, w).(state := Idle))), first, now);
    hide Maintains;
  }

  lemma MaintainsKeepsBooks(s: State, first: bool, now: nat)
    ensures SameBooks(s, Maintains(s, first, now))
  {
    hide Target, NewWorker;
  }

  lemma ProceedsKeepsBooks(s: State, op: OpId, w: WorkerId)
    requires op in s.ops && w in s.pool.workers
    ensures SameBooks(s, Proceeds(Put(s, w, Get(s, w).(state := Assigned)), op, w))
  {
  }

  lemma AgentEventLoses(s: State, w: WorkerId, settled: bool, thread: ThreadId)
    requires w in s.pool.workers && thread in s.turns && !Kept(s, AgentEvent(s, w, settled), thread)
    ensures settled && Get(s, w).thread == Some(thread) && Get(s, w).activeTurn == Some(s.turns[thread].turn)
    ensures s.turns[thread].worker.Some? && s.turns[thread].turn in AgentEvent(s, w, settled).ended
  {
    var x := Get(s, w);
    if settled && x.thread.Some? && x.activeTurn.Some? {
      SettlesLoses(Put(Marked(s, w), w, Reported(x, true)), x.thread.value, x.activeTurn.value);
    }
    hide Settles, LeaseSafe, CountSafe;
  }

  lemma ExitedLoses(s: State, w: WorkerId, longLived: bool, thread: ThreadId)
    requires w in s.pool.workers && thread in s.turns && !Kept(s, Exited(s, w, longLived), thread)
    ensures Get(s, w).thread == Some(thread) && Get(s, w).activeTurn == Some(s.turns[thread].turn)
    ensures s.turns[thread].worker.Some? && s.turns[thread].turn in Exited(s, w, longLived).ended
  {
    var x := Get(s, w);
    if x.thread.Some? && x.activeTurn.Some? {
      SettlesLoses(Leaves(Put(s, w, x.(state := Crashed, activeTurn := None)), w), x.thread.value, x.activeTurn.value);
    }
    hide Settles;
  }

  lemma QuietKeepsBooks(s: State, step: Step)
    requires Shape(s) && Enabled(s, step)
    requires step.CommandBegins? || step.CommandEnds? || step.TimesOut? || step.Saves? || step.Vanishes? || step.TimerFires?
             || step.MaintainBegins? || step.StopRequested? || step.StopBegins? || step.StopEnds?
    ensures SameBooks(s, Moved(s, step))
  {
    hide Chooses, Maintains;
    if step.MaintainBegins? {
      MaintainsKeepsBooks(if s.starting then s.(starting := false) else s.(maintains := s.maintains - 1), s.starting, step.now);
    }
  }

  /** The steps of the pool, reports from workers apart. */
  lemma MovedLoses(s: State, step: Step)
    requires Core(s) && Enabled(s, step) && !InService(step) && !step.AgentStarts? && !step.AgentSettles? && !step.Exits?
    ensures LosesWith(s, Moved(s, step), Victim(s, step))
  {
    assert Shape(s);
    hide Core, Shape, Chooses, StartReturned, Disposed, StopReturned, Acquired, SwitchReturned, Reaps;
    match step
    case StartReturns(ok, now) => StartReturnedLoses(s, ok, now);
    case DisposeReturns => DisposedLoses(s);
    case StopReturns(choice, now) => StopReturnedLoses(s, choice, now);
    case Acquires(op, choice, now) => AcquiredLoses(s, op, choice, now);
    case SwitchReturns(ok, now) => SwitchReturnedLoses(s, ok, now);
    case ReapBegins(candidates) => ReapsLoses(s, candidates);
    case _ => QuietKeepsBooks(s, step);
  }

  lemma RequestedLoses(s: State, purpose: Purpose, cwd: Directory)
    ensures KeepsAll(s, Requested(s, purpose, cwd))
  {
  }

  lemma RetainedForLoses(s: State, op: OpId)
    requires OpsOk(s) && Waits(s, op) && ThreadOf(s.ops[op].purpose).Some?
    ensures LosesWith(s, RetainedFor(s, op), op)
  {
    RefusedLoses(s, op);
    if Find(s.pool, ThreadOf(s.ops[op].purpose).value).Some? {
      AssignedLoses(s, op, Find(s.pool, ThreadOf(s.ops[op].purpose).value).value);
    }
    hide OpsOk, Refused, Granted, Put, RetireBegins;
  }

  lemma StartSucceededLoses(s: State, op: OpId, thread: ThreadId, prompted: bool)
    requires Holds(s, op) && thread !in s.turns
    ensures KeepsAll(s, StartSucceeded(s, op, thread, prompted))
  {
  }

  lemma SendLoses(s: State, op: OpId, now: nat)
    requires OpsOk(s) && Holds(s, op) && s.ops[op].purpose.ForSend?
    ensures KeepsAll(s, SendSucceeded(s, op))
    ensures LosesWith(s, GivesBack(Unclaimed(s, s.ops[op].purpose), op, now), op)
  {
    assert OpOk(s.ops[op], s.turns, s.mutations, s.pool.workers);
    hide OpsOk, Released;
  }

  /** Starts, mutations, reads and cleanups end without touching the turns. */
  lemma EndsKeepTurns(s: State, op: OpId, bound: Option<ThreadId>, now: nat)
    requires Holds(s, op)
    ensures SameBooks(s, GivesBack(s, op, now)) && SameBooks(s, StartFailed(s, op, bound, now))
    ensures s.ops[op].purpose.ForMutation? ==> SameBooks(s, MutationEnded(s, op, bound, now))
  {
    hide Released;
  }

  lemma AdmissionLoses(s: State, step: Step)
    requires Core(s) && Enabled(s, step)
    requires step.Requests? || step.Retains? || step.StartSucceeds? || step.SendSucceeds? || step.SendFails?
    ensures LosesWith(s, Served(s, step), Actor(step))
  {
    assert Shape(s);
    hide Core, Shape, Requested, RetainedFor, StartSucceeded, SendSucceeded, GivesBack;
    match step
    case Requests(purpose, cwd) => RequestedLoses(s, purpose, cwd);
    case Retains(op) => RetainedForLoses(s, op);
    case StartSucceeds(op, thread, prompted) => StartSucceededLoses(s, op, thread, prompted);
    case SendSucceeds(op) => SendLoses(s, op, 0);
    case SendFails(op, now) => SendLoses(s, op, now);
  }

  lemma OthersKeepTurns(s: State, step: Step)
    requires Shape(s) && Enabled(s, step)
    requires step.StartFails? || step.Publishes? || step.MutationEnds? || step.Finishes? || step.AbortBegins? || step.AbortEnds?
    ensures SameBooks(s, Served(s, step))
  {
    hide Shape, Unheard, StartFailed, MutationEnded, GivesBack, SameBooks;
    match step
    case StartFails(op, bound, now) => EndsKeepTurns(s, op, bound, now);
    case MutationEnds(op, bound, now) => EndsKeepTurns(s, op, bound, now);
    case Finishes(op, now) => EndsKeepTurns(s, op, None, now);
    case _ => WritesKeepTurns(s, step);
  }

  lemma WritesKeepTurns(s: State, step: Step)
    requires Shape(s) && Enabled(s, step) && (step.Publishes? || step.AbortBegins? || step.AbortEnds?)
    ensures SameBooks(s, Served(s, step))
  {
    hide Shape, Unheard;
  }

  lemma ServedLoses(s: State, step: Step)
    requires Core(s) && Enabled(s, step) && InService(step) && !step.TerminalEvent?
    ensures LosesWith(s, Served(s, step), Actor(step))
  {
    assert Shape(s);
    hide Core, Shape, Enabled, Served, Actor;
    if step.Requests? || step.Retains? || step.StartSucceeds? || step.SendSucceeds? || step.SendFails? {
      AdmissionLoses(s, step);
    } else {
      OthersKeepTurns(s, step);
    }
  }

  function Actor(step: Step): OpId {
    match step
    case Retains(op) => op
    case StartSucceeds(op, _, _) => op
    case StartFails(op, _, _) => op
    case SendSucceeds(op) => op
    case SendFails(op, _) => op
    case Publishes(op, _) => op
    case MutationEnds(op, _, _) => op
    case Finishes(op, _) => op
    case _ => 0
  }

  /** What failed had reserved the turn and was not yet admitted. */
  lemma FailureWasReserved(s: State, t: State, op: OpId, thread: ThreadId)
    requires OpsOk(s) && LosesWith(s, t, op) && thread in s.turns && !Kept(s, t, thread)
    ensures s.turns[thread].worker == None && Fails(s, t, op, thread, s.turns[thread].turn)
  {
    assert Fails(s, t, op, thread, s.turns[thread].turn);
    assert OpOk(s.ops[op], s.turns, s.mutations, s.pool.workers);
  }

  /** Steps that report nothing from a worker and publish no terminal event. */
  lemma OnlyFailureLoses(s: State, step: Step, thread: ThreadId, op: OpId)
    requires Core(s) && Enabled(s, step) && !Ends(step)
    requires thread in s.turns && !Kept(s, Apply(s, step), thread)
    requires op == if InService(step) then Actor(step) else Victim(s, step)
    ensures s.turns[thread].worker == None && Fails(s, Apply(s, step), op, thread, s.turns[thread].turn)
  {
    assert Shape(s) && OpsOk(s);
    hide Core, Shape, Enabled, Served, Moved, LosesWith, OpsOk, Kept, Fails;
    if InService(step) {
      ServedLoses(s, step);
    } else {
      MovedLoses(s, step);
    }
    FailureWasReserved(s, Apply(s, step), op, thread);
  }

  /** Could the step be a terminal event? */
  predicate Ends(step: Step) {
    step.TerminalEvent? || step.AgentStarts? || step.AgentSettles? || step.Exits?
  }

  lemma ReportLoses(s: State, step: Step, thread: ThreadId)
    requires Shape(s) && Enabled(s, step) && Ends(step) && thread in s.turns && !Kept(s, Apply(s, step), thread)
    ensures IsItsEnd(s, step, thread, s.turns[thread].turn) && s.turns[thread].worker.Some?
    ensures s.turns[thread].turn in Apply(s, step).ended
  {
    hide Shape, Settles, AgentEvent, Exited;
    match step
    case TerminalEvent(k, turn) => SettlesLoses(s, k, turn);
    case AgentStarts(w) => AgentEventLoses(s, w, false, thread);
    case AgentSettles(w) => AgentEventLoses(s, w, true, thread);
    case Exits(w, longLived) => ExitedLoses(s, w, longLived, thread);
  }

  /** A turn leaves the books only through a terminal event of its own, once admitted, or
      with the failure of the request that reserved it; never through anybody else's. */
  lemma TurnEndsByItself(s: State, step: Step, thread: ThreadId)
    requires Reachable(s) && Shape(s) && Enabled(s, step) && thread in s.turns && !Kept(s, Apply(s, step), thread)
    ensures (IsItsEnd(s, step, thread, s.turns[thread].turn) && s.turns[thread].worker.Some?
             && s.turns[thread].turn in Apply(s, step).ended)
            || (s.turns[thread].worker == None && exists op :: Fails(s, Apply(s, step), op, thread, s.turns[thread].turn))
  {
    hide Reachable, Core, Shape, Enabled, Apply, Kept, Fails, IsItsEnd;
    ReachableIsCore(s);
    if Ends(step) {
      ReportLoses(s, step, thread);
    } else {
      OnlyFailureLoses(s, step, thread, if InService(step) then Actor(step) else Victim(s, step));
    }
  }

  // ---------------------------------------------------------------- ended for good

  lemma AgentEventEnds(s: State, w: WorkerId, settled: bool)
    requires w in s.pool.workers
    ensures s.ended <= AgentEvent(s, w, settled).ended
  {
    var x := Get(s, w);
    if settled && x.thread.Some? && x.activeTurn.Some? {
      SettlesEnds(Put(Marked(s, w), w, Reported(x, true)), x.thread.value, x.activeTurn.value);
    }
    hide Settles, LeaseSafe, CountSafe;
  }

  lemma ExitedEnds(s: State, w: WorkerId, longLived: bool)
    requires w in s.pool.workers
    ensures s.ended <= Exited(s, w, longLived).ended
  {
    var x := Get(s, w);
    if x.thread.Some? && x.activeTurn.Some? {
      SettlesEnds(Leaves(Put(s, w, x.(state := Crashed, activeTurn := None)), w), x.thread.value, x.activeTurn.value);
    }
    hide Settles;
  }

  lemma ReportEnds(s: State, step: Step)
    requires Shape(s) && Enabled(s, step) && Ends(step)
    ensures s.ended <= Apply(s, step).ended
  {
    hide Shape, Settles, AgentEvent, Exited;
    match step
    case TerminalEvent(thread, turn) => SettlesEnds(s, thread, turn);
    case AgentStarts(w) => AgentEventEnds(s, w, false);
    case AgentSettles(w) => AgentEventEnds(s, w, true);
    case Exits(w, longLived) => ExitedEnds(s, w, longLived);
  }

  lemma EndedGrows(s: State, step: Step)
    requires Core(s) && Enabled(s, step)
    ensures s.ended <= Apply(s, step).ended
  {
    assert Shape(s);
    hide Core, Shape, Enabled, Apply;
    if Ends(step) {
      ReportEnds(s, step);
    } else {
      OthersKeepEnded(s, step);
    }
  }

  lemma OthersKeepEnded(s: State, step: Step)
    requires Core(s) && Enabled(s, step) && !Ends(step)
    ensures var t := Apply(s, step);
      t.ended == s.ended && t.stray == s.stray && t.leaky == s.leaky
  {
    assert Shape(s);
    hide Core, Shape, Enabled, Served, Moved;
    if InService(step) {
      ServedLoses(s, step);
    } else {
      MovedLoses(s, step);
    }
  }

  /** A turn settles once: whatever happens afterwards, it is never running again, and every
      further terminal event that names it, duplicate, late or stale, changes nothing. */
  lemma {:induction false} EndedForGood(s: State, steps: seq<Step>, t: State, turn: TurnId)
    requires Core(s) && Runs(s, steps, t) && turn in s.ended
    ensures turn in t.ended && forall k <- t.turns :: t.turns[k].turn != turn
    ensures forall k: ThreadId :: Settles(t, k, turn) == t
    decreases |steps|
  {
    if steps != [] {
      EndedGrows(s, steps[0]);
      StepKeeps(s, steps[0]);
      hide Core, Enabled, Apply, Settles;
      EndedForGood(Apply(s, steps[0]), steps[1..], t, turn);
    } else {
      assert TurnNames(t.turns, t.ended, t.nextTurn);
    }
  }
}
