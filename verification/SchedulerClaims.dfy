/** No thread stays locked: whatever reserves a thread, a turn that is not admitted yet or a
    mutation, belongs to an outstanding operation that will give it up. */
module SchedulerClaims {
  import opened Common
  import opened Pools
  import opened Scheduler
  import opened SchedulerInv
  import opened SchedulerRuns
  import opened SchedulerResults
  import opened SchedulerOutcomes
  import opened SchedulerEffects

  /** The send that has reserved this turn. */
  ghost predicate Sends(s: State, thread: ThreadId, turn: TurnId) {
    exists o: OpId :: o in s.ops && s.ops[o].purpose == ForSend(thread, turn)
  }

  ghost predicate Mutates(s: State, thread: ThreadId) {
    exists o: OpId :: o in s.ops && s.ops[o].purpose.ForMutation? && s.ops[o].purpose.thread == thread
  }

  ghost predicate Owned(s: State) {
    && (forall k <- s.turns | s.turns[k].worker == None :: Sends(s, k, s.turns[k].turn))
    && (forall k <- s.mutations :: Mutates(s, k))
  }

  /** Every operation but `op` goes on for the same purpose. */
  predicate GoOn(s: State, t: State, op: Option<OpId>) {
    forall o <- s.ops :: op == Some(o) || (o in t.ops && t.ops[o].purpose == s.ops[o].purpose)
  }

  /** The claims stay as they are, or one operation ends with what it had claimed. */
  predicate Orderly(s: State, t: State, op: OpId) {
    || (t.turns == s.turns && t.mutations == s.mutations && GoOn(s, t, None))
    || (op in s.ops && t.turns == Unclaimed(s, s.ops[op].purpose).turns
        && t.mutations == Unclaimed(s, s.ops[op].purpose).mutations && GoOn(s, t, Some(op)))
  }

  lemma OrderlyKeeps(s: State, t: State, op: OpId)
    requires Owned(s) && Orderly(s, t, op)
    ensures Owned(t)
  {
    forall k <- t.turns | t.turns[k].worker == None ensures Sends(t, k, t.turns[k].turn) {
      assert Sends(s, k, s.turns[k].turn);
      var o: OpId :| o in s.ops && s.ops[o].purpose == ForSend(k, s.turns[k].turn);
      assert o in t.ops && t.ops[o].purpose == s.ops[o].purpose;
    }
    forall k <- t.mutations ensures Mutates(t, k) {
      assert Mutates(s, k);
      var o: OpId :| o in s.ops && s.ops[o].purpose.ForMutation? && s.ops[o].purpose.thread == k;
      assert o in t.ops && t.ops[o].purpose == s.ops[o].purpose;
    }
  }

  // ---------------------------------------------------------------- the pool's steps

  lemma RefusedIsOrderly(s: State, op: OpId)
    requires op in s.ops
    ensures Orderly(s, Refused(s, op), op) && Orderly(s, Refused(Scheduled(s), op), op)
  {
  }

  lemma GrantedIsOrderly(s: State, op: OpId, w: WorkerId, y: Worker)
    requires op in s.ops && w in s.pool.workers
    ensures Orderly(s, Granted(Put(s, w, y), op, w), op) && Orderly(s, Unlocked(Granted(Put(s, w, y), op, w)), op)
  {
    GrantedFields(Put(s, w, y), op, w);
    hide Granted;
    assert Granted(Put(s, w, y), op, w).mutations == s.mutations by {
      GrantedMutations(Put(s, w, y), op, w);
    }
  }

  lemma GrantedMutations(s: State, op: OpId, w: WorkerId)
    requires op in s.ops && w in s.pool.workers
    ensures Granted(s, op, w).mutations == s.mutations
  {
  }

  lemma ProceedsIsOrderly(s: State, op: OpId, w: WorkerId, y: Worker)
    requires op in s.ops && w in s.pool.workers
    ensures Orderly(s, Proceeds(Put(s, w, y), op, w), op)
  {
    GrantedIsOrderly(s, op, w, y);
    hide Granted;
  }

  lemma SelectsIsOrderly(s: State, op: OpId, choice: Choice, now: nat)
    requires Waits(s, op) && (choice.Reuse? || choice.Evict? ==> choice.w in s.pool.workers)
    ensures Orderly(s, Selects(s, op, choice, now), op)
  {
    RefusedIsOrderly(s, op);
    if choice.Reuse? {
      ProceedsIsOrderly(s, op, choice.w, Reserved(Get(s, choice.w)).(state := Assigned));
    }
    hide Refused, Proceeds, ScheduleRecovery;
  }

  lemma {:induction false} ReapsIsOrderly(s: State, candidates: seq<WorkerId>, op: OpId)
    ensures Orderly(s, Reaps(s, candidates), op)
  {
    if candidates != [] {
      ReapsIsOrderly(s, candidates[1..], op);
    }
    hide Reclaimable;
  }

  lemma SameClaims(s: State, u: State, t: State, op: OpId)
    requires u.turns == s.turns && u.mutations == s.mutations && u.ops == s.ops && Orderly(u, t, op)
    ensures Orderly(s, t, op)
  {
  }

  lemma ContinuedIsOrderly(s: State, next: Next, choice: Choice, now: nat, op: OpId)
    requires next.Reaping? || (Waits(s, next.op) && op == next.op)
    requires next.ToReplace? && (choice.Reuse? || choice.Evict?) ==> choice.w in s.pool.workers
    ensures Orderly(s, Continued(s, next, choice, now), op)
  {
    match next
    case ToSpawn(o) =>
      RefusedIsOrderly(s, o);
      hide Refused;
    case ToReplace(o) =>
      SelectsIsOrderly(Scheduled(s), o, choice, now);
      hide Selects, Orderly;
      SameClaims(s, Scheduled(s), Selects(Scheduled(s), o, choice, now), o);
    case SwitchFailed(o) =>
      RefusedIsOrderly(s, o);
      hide Refused, Orderly;
    case Reaping(rest) =>
      ReapsIsOrderly(s, rest, op);
      hide Orderly, Reaps;
  }

  lemma StopReturnedIsOrderly(s: State, choice: Choice, now: nat)
    requires Shape(s) && Enabled(s, StopReturns(choice, now))
    ensures Orderly(s, StopReturned(s, choice, now), if Client(s.lock).Some? then Client(s.lock).value else 0)
  {
    var u, next := Unlocked(Leaves(s, s.lock.worker)), s.lock.next;
    var op := if Client(s.lock).Some? then Client(s.lock).value else 0;
    assert next.Reaping? || (Waits(u, next.op) && next.op == op);
    assert next.ToReplace? && (choice.Reuse? || choice.Evict?) ==> choice.w in u.pool.workers;
    hide Shape, Enabled, Continued, Orderly;
    ContinuedIsOrderly(u, next, choice, now, op);
    SameClaims(s, u, Continued(u, next, choice, now), op);
  }

  lemma AcquiredIsOrderly(s: State, op: OpId, choice: Choice, now: nat)
    requires Waits(s, op) && (choice.Reuse? || choice.Evict? ==> choice.w in s.pool.workers)
    ensures Orderly(s, Acquired(s, op, choice, now), op)
  {
    var thread := ThreadOf(s.ops[op].purpose);
    RefusedIsOrderly(s, op);
    SelectsIsOrderly(s, op, choice, now);
    if thread.Some? && Find(s.pool, thread.value).Some? {
      ReassignedIsOrderly(s, op, Find(s.pool, thread.value).value);
    }
    hide Refused, Selects, Reassigned, Orderly;
  }

  lemma ReassignedIsOrderly(s: State, op: OpId, w: WorkerId)
    requires Waits(s, op) && w in s.pool.workers
    ensures Orderly(s, Reassigned(s, op, w), op)
  {
    RefusedIsOrderly(s, op);
    GrantedIsOrderly(s, op, w, Retained(Get(s, w)));
    hide Refused, Granted, Quiescent, Reclaimable;
  }

  lemma UnchangedIsOrderly(s: State, t: State, op: OpId)
    requires t.turns == s.turns && t.mutations == s.mutations && t.ops == s.ops
    ensures Orderly(s, t, op)
  {
  }

  lemma StartReturnedIsOrderly(s: State, ok: bool, now: nat)
    requires Shape(s) && s.lock.Spawning?
    ensures Orderly(s, StartReturned(s, ok, now), if s.lock.job.Selecting? then s.lock.job.op else 0)
  {
    var w, job := s.lock.worker, s.lock.job;
    assert w in s.pool.workers && (job.Selecting? ==> job.op in s.ops);
    if ok && !s.pool.stopped && job.Selecting? {
      hide Shape, Proceeds, Orderly;
      ProceedsIsOrderly(s, job.op, w, Get(s, w).(state := Assigned));
    } else {
      OtherStartsClaim(s, ok, now);
      hide Shape, Orderly, StartReturned;
      UnchangedIsOrderly(s, StartReturned(s, ok, now), if job.Selecting? then job.op else 0);
    }
  }

  lemma OtherStartsClaim(s: State, ok: bool, now: nat)
    requires Shape(s) && s.lock.Spawning? && (!ok || s.pool.stopped || s.lock.job.Maintaining?)
    ensures var t := StartReturned(s, ok, now); t.turns == s.turns && t.mutations == s.mutations && t.ops == s.ops
  {
    if ok && !s.pool.stopped {
      MaintainsIsOrderly(Unlocked(Put(s, s.lock.worker, Get(s, s.lock.worker).(state := Idle))), s.lock.job.first, now);
    }
    hide Shape, Maintains;
  }

  lemma MaintainsIsOrderly(s: State, first: bool, now: nat)
    ensures var t := Maintains(s, first, now); t.turns == s.turns && t.mutations == s.mutations && t.ops == s.ops
  {
  }

  lemma DisposedIsOrderly(s: State)
    requires Shape(s) && s.lock.Disposing?
    ensures Orderly(s, Disposed(s), if s.lock.job.Selecting? then s.lock.job.op else 0)
  {
    var u := Unlocked(s);
    assert s.lock.job.Selecting? ==> s.lock.job.op in u.ops;
    hide Shape, ScheduleRecovery, Orderly;
    if s.lock.job.Selecting? {
      RefusedIsOrderly(u, s.lock.job.op);
      hide Refused;
      SameClaims(s, u, Disposed(s), s.lock.job.op);
    } else {
      UnchangedIsOrderly(s, Disposed(s), 0);
    }
  }

  lemma SwitchReturnedIsOrderly(s: State, ok: bool, now: nat)
    requires Shape(s) && s.lock.Switching?
    ensures Orderly(s, SwitchReturned(s, ok, now), s.lock.op)
  {
    var w, op := s.lock.worker, s.lock.op;
    assert op in s.ops && ThreadOf(s.ops[op].purpose).Some?;
    hide Shape;
    if ok {
      GrantedIsOrderly(s, op, w, Bound(Get(s, w), ThreadOf(s.ops[op].purpose).value));
      hide Granted;
    } else {
      RefusedIsOrderly(Unlocked(Put(s, w, Released(Get(s, w), now))), op);
      hide Refused, Released;
    }
  }

  lemma ReportIsOrderly(s: State, step: Step)
    requires Shape(s) && Enabled(s, step) && Owned(s) && (step.AgentStarts? || step.AgentSettles? || step.Exits? || step.TerminalEvent?)
    ensures Owned(Apply(s, step))
  {
    assert forall o <- s.ops :: o < s.nextOp;
    hide Shape, Owned, Settles, LeaseSafe, CountSafe, ScheduleRecovery;
    match step
    case AgentStarts(w) => SameOwned(s, Apply(s, step));
    case AgentSettles(w) =>
      var u, x := Put(Marked(s, w), w, Reported(Get(s, w), true)), Get(s, w);
      SameOwned(s, u);
      if x.thread.Some? && x.activeTurn.Some? {
        SettlesOwned(u, x.thread.value, x.activeTurn.value);
      }
    case Exits(w, longLived) =>
      var x := Get(s, w);
      var u := Leaves(Put(s, w, x.(state := Crashed, activeTurn := None)), w);
      SameOwned(s, u);
      if x.thread.Some? && x.activeTurn.Some? {
        SettlesOwned(u, x.thread.value, x.activeTurn.value);
      }
      SameOwned(Departed(s, w), Apply(s, step));
    case TerminalEvent(thread, turn) => SettlesOwned(s, thread, turn);
  }

  lemma SameOwned(s: State, t: State)
    requires Owned(s) && t.turns == s.turns && t.mutations == s.mutations && t.ops == s.ops
    ensures Owned(t)
  {
    OrderlyKeeps(s, t, 0);
    hide Owned;
  }

  lemma SettlesOwned(s: State, thread: ThreadId, turn: TurnId)
    requires Owned(s) && (forall o <- s.ops :: o < s.nextOp)
    ensures Owned(Settles(s, thread, turn))
  {
    SettlesBooks(s, thread, turn);
    hide Owned, Settles;
    FewerTurns(s, Settles(s, thread, turn));
  }

  lemma SettlesBooks(s: State, thread: ThreadId, turn: TurnId)
    requires forall o <- s.ops :: o < s.nextOp
    ensures var t := Settles(s, thread, turn);
      && t.mutations == s.mutations && GoOn(s, t, None)
      && forall k <- t.turns :: k in s.turns && t.turns[k] == s.turns[k]
  {
    SettlesMutations(s, thread, turn);
    TerminalEventMeans(s, thread, turn);
    hide Find, Settles;
  }

  lemma SettlesMutations(s: State, thread: ThreadId, turn: TurnId)
    ensures Settles(s, thread, turn).mutations == s.mutations
  {
    hide Find;
  }

  /** Turns end, nothing else. */
  lemma FewerTurns(s: State, t: State)
    requires Owned(s) && t.mutations == s.mutations && GoOn(s, t, None)
    requires forall k <- t.turns :: k in s.turns && t.turns[k] == s.turns[k]
    ensures Owned(t)
  {
    forall k <- t.turns | t.turns[k].worker == None ensures Sends(t, k, t.turns[k].turn) {
      assert Sends(s, k, s.turns[k].turn);
      var o: OpId :| o in s.ops && s.ops[o].purpose == ForSend(k, s.turns[k].turn);
      assert o in t.ops;
    }
    forall k <- t.mutations ensures Mutates(t, k) {
      assert Mutates(s, k);
      var o: OpId :| o in s.ops && s.ops[o].purpose.ForMutation? && s.ops[o].purpose.thread == k;
      assert o in t.ops;
    }
  }

  // ---------------------------------------------------------------- the service's steps

  lemma RequestedOwned(s: State, purpose: Purpose, cwd: Directory)
    requires Owned(s) && (forall o <- s.ops :: o < s.nextOp) && !purpose.ForCleanup?
    ensures Owned(Requested(s, purpose, cwd))
  {
    var t := Requested(s, purpose, cwd);
    RequestsExactly(s, purpose, cwd);
    hide Requested, Find;
    forall k <- t.turns | t.turns[k].worker == None ensures Sends(t, k, t.turns[k].turn) {
      if purpose.ForSend? && k == purpose.thread && t != s {
        assert s.nextOp in t.ops && t.ops[s.nextOp].purpose == ForSend(k, t.turns[k].turn);
      } else {
        assert Sends(s, k, s.turns[k].turn);
        var o: OpId :| o in s.ops && s.ops[o].purpose == ForSend(k, s.turns[k].turn);
        assert o in t.ops;
      }
    }
    forall k <- t.mutations ensures Mutates(t, k) {
      if k !in s.mutations {
        assert s.nextOp in t.ops && t.ops[s.nextOp].purpose == purpose;
      } else {
        assert Mutates(s, k);
        var o: OpId :| o in s.ops && s.ops[o].purpose.ForMutation? && s.ops[o].purpose.thread == k;
        assert o in t.ops;
      }
    }
  }

  lemma RetainedForIsOrderly(s: State, op: OpId)
    requires Waits(s, op) && ThreadOf(s.ops[op].purpose).Some?
    ensures Orderly(s, RetainedFor(s, op), op)
  {
    RefusedIsOrderly(s, op);
    if Find(s.pool, ThreadOf(s.ops[op].purpose).value).Some? {
      var w := Find(s.pool, ThreadOf(s.ops[op].purpose).value).value;
      GrantedIsOrderly(s, op, w, Retained(Get(s, w)));
    }
    hide Refused, Granted;
  }

  /** An operation whose turn is admitted ends; the turn has a worker from now on. */
  lemma AdmittedOwned(s: State, t: State, op: OpId, thread: ThreadId)
    requires Owned(s) && op in s.ops && GoOn(s, t, Some(op)) && t.mutations == s.mutations
    requires thread in t.turns && t.turns == s.turns[thread := t.turns[thread]] && t.turns[thread].worker.Some?
    requires s.ops[op].purpose.ForStart? || (s.ops[op].purpose.ForSend? && s.ops[op].purpose.thread == thread)
    ensures Owned(t)
  {
    forall k <- t.turns | t.turns[k].worker == None ensures Sends(t, k, t.turns[k].turn) {
      assert Sends(s, k, s.turns[k].turn);
      var o: OpId :| o in s.ops && s.ops[o].purpose == ForSend(k, s.turns[k].turn);
      assert o in t.ops;
    }
    forall k <- t.mutations ensures Mutates(t, k) {
      assert Mutates(s, k);
      var o: OpId :| o in s.ops && s.ops[o].purpose.ForMutation? && s.ops[o].purpose.thread == k;
      assert o in t.ops;
    }
  }

  lemma AdmissionOwned(s: State, step: Step)
    requires Shape(s) && Enabled(s, step) && Owned(s)
    requires step.Requests? || step.Retains? || step.StartSucceeds? || step.SendSucceeds?
    ensures Owned(Apply(s, step))
  {
    assert forall o <- s.ops :: o < s.nextOp;
    hide Shape, Owned, Unheard, Requested, RetainedFor, Bound;
    match step
    case Requests(purpose, cwd) => RequestedOwned(s, purpose, cwd);
    case Retains(op) =>
      RetainedForIsOrderly(s, op);
      OrderlyKeeps(s, RetainedFor(s, op), op);
    case StartSucceeds(op, thread, _) => AdmittedOwned(s, Apply(s, step), op, thread);
    case SendSucceeds(op) => AdmittedOwned(s, Apply(s, step), op, s.ops[op].purpose.thread);
  }

  lemma GivesBackIsOrderly(s: State, t: State, op: OpId, now: nat)
    requires Holds(t, op) && op in s.ops && t.ops == s.ops
    requires t.turns == Unclaimed(s, s.ops[op].purpose).turns && t.mutations == Unclaimed(s, s.ops[op].purpose).mutations
    ensures Orderly(s, GivesBack(t, op, now), op)
  {
    hide Released;
  }

  lemma EndsAreOrderly(s: State, op: OpId, bound: Option<ThreadId>, now: nat)
    requires Holds(s, op)
    ensures Orderly(s, GivesBack(Unclaimed(s, s.ops[op].purpose), op, now), op)
    ensures !s.ops[op].purpose.ForSend? && !s.ops[op].purpose.ForMutation? ==>
              Orderly(s, GivesBack(s, op, now), op) && Orderly(s, StartFailed(s, op, bound, now), op)
    ensures s.ops[op].purpose.ForMutation? ==> Orderly(s, MutationEnded(s, op, bound, now), op)
  {
    var w := s.ops[op].worker;
    var x := if bound.Some? then Bound(Get(s, w), bound.value) else Get(s, w);
    hide Bound, GivesBack, Orderly;
    GivesBackIsOrderly(s, Unclaimed(s, s.ops[op].purpose), op, now);
    if s.ops[op].purpose.ForMutation? {
      GivesBackIsOrderly(s, Unclaimed(if bound.Some? then Put(s, w, x) else s, s.ops[op].purpose), op, now);
    } else if !s.ops[op].purpose.ForSend? {
      GivesBackIsOrderly(s, s, op, now);
      GivesBackIsOrderly(s, Put(s, w, x.(activeTurn := None)), op, now);
    }
  }

  lemma EndingOwned(s: State, step: Step)
    requires Shape(s) && Enabled(s, step) && Owned(s)
    requires step.StartFails? || step.SendFails? || step.MutationEnds? || step.Finishes?
    ensures Owned(Apply(s, step))
  {
    hide Shape, Owned, Unheard, GivesBack, StartFailed, MutationEnded, Orderly, Unclaimed;
    EndsAreOrderly(s, step.op, if step.StartFails? || step.MutationEnds? then step.bound else None, step.now);
    OrderlyKeeps(s, Apply(s, step), step.op);
  }

  // ---------------------------------------------------------------- every step, every run

  lemma StartingOwned(s: State, step: Step)
    requires Shape(s) && Enabled(s, step) && Owned(s)
    requires step.MaintainBegins? || step.StartReturns? || step.DisposeReturns? || step.ReapBegins?
    ensures Owned(Apply(s, step))
  {
    hide Shape, Owned, Orderly, Maintains, StartReturned, Disposed, Reaps;
    match step
    case MaintainBegins(now) =>
      MaintainsIsOrderly(if s.starting then s.(starting := false) else s.(maintains := s.maintains - 1), s.starting, now);
      SameOwned(s, MaintainBegun(s, now));
    case StartReturns(ok, now) =>
      StartReturnedIsOrderly(s, ok, now);
      OrderlyKeeps(s, StartReturned(s, ok, now), if s.lock.job.Selecting? then s.lock.job.op else 0);
    case DisposeReturns =>
      DisposedIsOrderly(s);
      OrderlyKeeps(s, Disposed(s), if s.lock.job.Selecting? then s.lock.job.op else 0);
    case ReapBegins(candidates) =>
      ReapsIsOrderly(s, candidates, 0);
      OrderlyKeeps(s, Reaps(s, candidates), 0);
  }

  lemma ReplacingOwned(s: State, step: Step)
    requires Shape(s) && Enabled(s, step) && Owned(s) && (step.StopReturns? || step.SwitchReturns?)
    ensures Owned(Apply(s, step))
  {
    hide Shape, Owned, Orderly, StopReturned, SwitchReturned;
    match step
    case StopReturns(choice, now) =>
      StopReturnedIsOrderly(s, choice, now);
      OrderlyKeeps(s, StopReturned(s, choice, now), if Client(s.lock).Some? then Client(s.lock).value else 0);
    case SwitchReturns(ok, now) =>
      SwitchReturnedIsOrderly(s, ok, now);
      OrderlyKeeps(s, SwitchReturned(s, ok, now), s.lock.op);
  }

  lemma AcquiresOwned(s: State, op: OpId, choice: Choice, now: nat)
    requires Shape(s) && Enabled(s, Acquires(op, choice, now)) && Owned(s)
    ensures Owned(Apply(s, Acquires(op, choice, now)))
  {
    hide Shape, Owned, Orderly, Acquired, Find;
    AcquiredIsOrderly(s, op, choice, now);
    OrderlyKeeps(s, Acquired(s, op, choice, now), op);
  }

  /** Publications and aborts write a worker's record. */
  lemma RecordsOwned(s: State, step: Step)
    requires Shape(s) && Enabled(s, step) && Owned(s) && (step.Publishes? || step.AbortBegins? || step.AbortEnds?)
    ensures Owned(Apply(s, step))
  {
    var t := Apply(s, step);
    hide Shape, Owned, Unheard, Bound;
    assert t.turns == s.turns && t.mutations == s.mutations && GoOn(s, t, None);
    hide Apply, Enabled;
    OrderlyKeeps(s, t, 0);
  }

  lemma CommandsOwned(s: State, step: Step)
    requires Shape(s) && Enabled(s, step) && Owned(s) && (step.CommandBegins? || step.CommandEnds? || step.TimesOut?)
    ensures Owned(Apply(s, step))
  {
    var t := Apply(s, step);
    assert t.turns == s.turns && t.mutations == s.mutations && t.ops == s.ops;
    hide Shape, Enabled, Apply, Owned;
    SameOwned(s, t);
  }

  /** Timers, the catalog and shutdown do not touch the books. */
  lemma OthersOwned(s: State, step: Step)
    requires Shape(s) && Enabled(s, step) && Owned(s)
    requires step.Saves? || step.Vanishes? || step.TimerFires? || step.StopRequested? || step.StopBegins? || step.StopEnds?
    ensures Owned(Apply(s, step))
  {
    var t := Apply(s, step);
    assert t.turns == s.turns && t.mutations == s.mutations && t.ops == s.ops;
    hide Shape, Enabled, Apply, Owned;
    SameOwned(s, t);
  }

  lemma StepOwned(s: State, step: Step)
    requires Shape(s) && Enabled(s, step) && Owned(s)
    ensures Owned(Apply(s, step))
  {
    hide Shape, Enabled, Apply, Owned;
    if step.AgentStarts? || step.AgentSettles? || step.Exits? || step.TerminalEvent? {
      ReportIsOrderly(s, step);
    } else if step.Requests? || step.Retains? || step.StartSucceeds? || step.SendSucceeds? {
      AdmissionOwned(s, step);
    } else if step.StartFails? || step.SendFails? || step.MutationEnds? || step.Finishes? {
      EndingOwned(s, step);
    } else if step.MaintainBegins? || step.StartReturns? || step.DisposeReturns? || step.ReapBegins? {
      StartingOwned(s, step);
    } else if step.StopReturns? || step.SwitchReturns? {
      ReplacingOwned(s, step);
    } else if step.Acquires? {
      AcquiresOwned(s, step.op, step.choice, step.now);
    } else if step.Saves? || step.Vanishes? || step.TimerFires? || step.StopRequested? || step.StopBegins? || step.StopEnds? {
      OthersOwned(s, step);
    } else if step.CommandBegins? || step.CommandEnds? || step.TimesOut? {
      CommandsOwned(s, step);
    } else {
      RecordsOwned(s, step);
    }
  }

  lemma {:induction false} RunsOwned(s: State, steps: seq<Step>, t: State)
    requires Owned(s) && Runs(s, steps, t)
    ensures Owned(t)
    decreases |steps|
  {
    if steps != [] {
      StepOwned(s, steps[0]);
      hide Owned, Enabled, Apply;
      RunsOwned(Apply(s, steps[0]), steps[1..], t);
    }
  }

  /** In every reachable state a thread is locked exactly as long as somebody works on it: a turn that
      has no worker yet has its send, a mutated thread has its mutation, and the other way round. */
  lemma ClaimsAreOwned(s: State, thread: ThreadId)
    requires Reachable(s)
    ensures thread in s.mutations <==> exists o :: o in s.ops && s.ops[o].purpose.ForMutation? && s.ops[o].purpose.thread == thread
    ensures thread in s.turns && s.turns[thread].worker == None <==>
              exists o :: o in s.ops && s.ops[o].purpose.ForSend? && s.ops[o].purpose.thread == thread
    ensures forall o <- s.ops :: s.ops[o].purpose.ForSend? && s.ops[o].purpose.thread == thread ==>
              thread in s.turns && s.turns[thread] == Active(s.ops[o].purpose.turn, None)
  {
    var options: Options, steps: seq<Step> :| Runs(Initial(options), steps, s);
    RunsOwned(Initial(options), steps, s);
    ReachableIsCore(s);
    assert forall o <- s.ops :: OpOk(s.ops[o], s.turns, s.mutations, s.pool.workers);
    if thread in s.mutations {
      assert Mutates(s, thread);
    }
    if thread in s.turns && s.turns[thread].worker == None {
      assert Sends(s, thread, s.turns[thread].turn);
    }
    hide Core, Runs;
  }
}
