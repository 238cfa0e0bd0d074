/** Every single step of the scheduler keeps its invariant. */
module SchedulerSteps {
  import opened Common
  import opened Pools
  import opened Scheduler
  import opened SchedulerInv
  import opened SchedulerMoves
  import opened SchedulerTurns

  // ---------------------------------------------------------------- workers

  /** Another life state, command count or mark; nothing anyone relies on. */
  predicate Restates(x: Worker, y: Worker) {
    && y == x.(state := y.state, commands := y.commands, lastUsed := y.lastUsed, aborting := y.aborting)
    && (Available(y) ==> Available(x))
    && (y.state == x.state || !Available(y) || (x.state != Starting && y.state != Starting))
  }

  lemma RestateKeeps(s: State, w: WorkerId, y: Worker)
    requires Core(s) && w in s.pool.workers && Restates(Get(s, w), y)
    ensures Core(Put(s, w, y))
  {
    var x := Get(s, w);
    assert Balanced(x, w in s.pool.members, !s.leaky, Holders(s, w));
    assert Balanced(y, w in s.pool.members, !s.leaky, Holders(s, w));
    TurnIsKnown(s, w);
    assert KnowsTurn(s, w, y);
    assert s.lock.Spawning? && Handles(s.lock, w) ==> x.state == Starting || !Available(x);
    hide Rest, Conserved, Balanced, Holders, KnowsTurn;
    TweakKeeps(s, w, y);
  }

  /** Noting that a report endangers something leaves less to keep. */
  lemma MarkedKeeps(s: State, w: WorkerId)
    requires Core(s) && w in s.pool.workers
    ensures Core(Marked(s, w))
  {
    var t := Marked(s, w);
    MarkedRest(s, w);
    assert forall v :: Holders(t, v) == Holders(s, v);
    hide Rest, Holders, LeaseSafe, CountSafe;
    forall v <- t.pool.workers ensures Balanced(t.pool.workers[v], v in t.pool.members, !t.leaky, Holders(t, v)) {
      assert Balanced(s.pool.workers[v], v in s.pool.members, !s.leaky, Holders(s, v));
    }
  }

  lemma MarkedRest(s: State, w: WorkerId)
    requires Rest(s) && w in s.pool.workers
    ensures Rest(Marked(s, w))
  {
    var t := Marked(s, w);
    assert t == s.(stray := t.stray, leaky := t.leaky) && (s.stray ==> t.stray) && (t.stray ==> t.leaky);
    hide LeaseSafe, CountSafe, Marked, TurnsOk, OpOk, TurnNames;
    FlaggedParts(s, t);
    FlaggedLease(s, t);
    hide Shape, Leased, LockOk, Exclusive, History;
  }

  lemma FlaggedParts(s: State, t: State)
    requires Shape(s) && LockOk(s) && Exclusive(s) && t == s.(stray := t.stray, leaky := t.leaky)
    ensures Shape(t) && LockOk(t) && Exclusive(t)
  {
  }

  lemma FlaggedLease(s: State, t: State)
    requires Leased(s) && t == s.(stray := t.stray, leaky := t.leaky) && (s.stray ==> t.stray)
    ensures Leased(t)
  {
    assert Heads(t) == Heads(s);
    hide Heads, Serves;
  }

  /** A worker that was unavailable is in use again. */
  predicate Revived(x: Worker, y: Worker) {
    && y == x.(state := y.state, aborting := y.aborting)
    && !Available(x) && Available(y) && y.state != Starting
  }

  /** A late report takes nothing from anybody, as far as it was safe. */
  lemma RevivedKeeps(s: State, w: WorkerId, y: Worker)
    requires Core(s) && w in s.pool.workers && w in s.pool.members && !Handles(s.lock, w)
    requires Revived(Get(s, w), y) && (!s.stray ==> LeaseSafe(s, w)) && (!s.leaky ==> CountSafe(s, w))
    ensures Core(Put(s, w, y))
  {
    assert Balanced(Get(s, w), true, !s.leaky, Holders(s, w));
    assert Balanced(y, true, !s.leaky, Holders(s, w));
    hide Rest, Conserved, Balanced, Holders, LeaseSafe, CountSafe;
    RevivedRest(s, w, y);
    ConservedTweak(s, w, y);
  }

  lemma RevivedRest(s: State, w: WorkerId, y: Worker)
    requires Rest(s) && w in s.pool.workers && !Handles(s.lock, w)
    requires Revived(Get(s, w), y) && (!s.stray ==> LeaseSafe(s, w))
    ensures Rest(Put(s, w, y))
  {
    hide Shape, Leased, TurnsOk, OpsOk, History, TurnNames, Exclusive, LockOk, LeaseSafe;
    var t := Put(s, w, y);
    ShapePut(s, w, y);
    RevivedLease(s, w, y);
    TurnIsKnown(s, w);
    TurnsPut(s, w, y);
    OpsPut(s, t, w);
    RecordOf(s.pool, w);
    HistoryPut(s.pool, t.pool, w);
    RevivedLock(s, w, y);
    ExclusiveSame(s, t);
  }

  lemma RevivedLease(s: State, w: WorkerId, y: Worker)
    requires Leased(s) && w in s.pool.workers && !Handles(s.lock, w)
    requires Revived(Get(s, w), y) && (!s.stray ==> LeaseSafe(s, w))
    ensures Leased(Put(s, w, y))
  {
    var q := Put(s, w, y).pool;
    assert Heads(Put(s, w, y)) == Heads(s);
    assert forall v: WorkerId, k: ThreadId :: Serves(q, v, k) ==>
      if v == w then Get(s, w).thread == Some(k) && !Get(s, w).retiring else Serves(s.pool, v, k);
    hide Serves, Heads;
  }

  lemma RevivedLock(s: State, w: WorkerId, y: Worker)
    requires LockOk(s) && w in s.pool.workers && !Handles(s.lock, w) && Revived(Get(s, w), y)
    ensures LockOk(Put(s, w, y))
  {
  }

  lemma ReportedKeeps(s: State, w: WorkerId, settled: bool)
    requires Core(s) && Reports(s, w)
    ensures Core(Put(Marked(s, w), w, Reported(Get(s, w), settled)))
  {
    var m, y := Marked(s, w), Reported(Get(s, w), settled);
    MarkedKeeps(s, w);
    MarkedIsSafe(s, w);
    hide Core, Marked, LeaseSafe, CountSafe;
    if Available(Get(s, w)) {
      RestateKeeps(m, w, y);
    } else {
      RevivedKeeps(m, w, y);
    }
  }

  lemma MarkedIsSafe(s: State, w: WorkerId)
    requires w in s.pool.workers
    ensures var m := Marked(s, w);
      && m.pool == s.pool && m.lock == s.lock && (!m.stray ==> LeaseSafe(m, w)) && (!m.leaky ==> CountSafe(m, w))
  {
    var m := Marked(s, w);
    assert Heads(m) == Heads(s) && Holders(m, w) == Holders(s, w);
    hide Serves, Heads, Holders;
  }

  /** A run begins or settles on a worker, in time or late. */
  lemma AgentEventKeeps(s: State, w: WorkerId, settled: bool)
    requires Core(s) && Reports(s, w)
    ensures Core(AgentEvent(s, w, settled))
  {
    hide Core, Settles, Marked;
    ReportedKeeps(s, w, settled);
    var x := Get(s, w);
    if settled && x.thread.Some? && x.activeTurn.Some? {
      SettlesKeeps(Put(Marked(s, w), w, Reported(x, true)), x.thread.value, x.activeTurn.value);
    }
  }

  /** Recovery timers and delays are nobody's business here. */
  lemma DelayKeeps(s: State, pool: Pool)
    requires Core(s) && pool == s.pool.(timer := pool.timer, delay := pool.delay, attempts := pool.attempts)
    ensures Core(s.(pool := pool))
  {
    hide Rest, Conserved;
    IrrelevantKeeps(s, s.(pool := pool));
  }

  lemma ScheduledKeeps(s: State)
    requires Core(s)
    ensures Core(Scheduled(s))
  {
    hide Core;
    DelayKeeps(s, ScheduleRecovery(s.pool));
  }

  lemma ExitedKeeps(s: State, w: WorkerId, longLived: bool)
    requires Core(s) && w in s.pool.workers
    ensures Core(Exited(s, w, longLived))
  {
    hide Core, Departed, ScheduleRecovery;
    var t := Departed(s, w);
    DepartedKeeps(s, w);
    if longLived {
      DelayKeeps(t, t.pool.(delay := FIRST_DELAY, attempts := 0));
      ScheduledKeeps(t.(pool := t.pool.(delay := FIRST_DELAY, attempts := 0)));
    } else {
      ScheduledKeeps(t);
    }
  }

  lemma DepartedKeeps(s: State, w: WorkerId)
    requires Core(s) && w in s.pool.workers
    ensures Core(Departed(s, w))
  {
    hide Core, Settles;
    var x := Get(s, w);
    CrashKeeps(s, w);
    if x.thread.Some? && x.activeTurn.Some? {
      SettlesKeeps(Leaves(Put(s, w, x.(state := Crashed, activeTurn := None)), w), x.thread.value, x.activeTurn.value);
    }
  }

  // ---------------------------------------------------------------- the lifecycle mutex

  lemma MaintainsKeeps(s: State, first: bool, now: nat)
    requires Core(s) && s.lock == Free
    ensures Core(Maintains(s, first, now))
  {
    hide Rest, Conserved, SpawnBegins;
    if !s.pool.stopped && !s.pool.timer && |s.pool.members| < Target(s.pool.options) {
      SpawnKeeps(s, 0, Maintaining(first), now);
    } else {
      IrrelevantKeeps(s, s.(started := s.started || first));
    }
  }

  lemma MaintainBegunKeeps(s: State, now: nat)
    requires Core(s) && s.lock == Free && (s.starting || s.maintains > 0)
    ensures Core(MaintainBegun(s, now))
  {
    hide Rest, Conserved, Maintains;
    if s.starting {
      IrrelevantKeeps(s, s.(starting := false));
      MaintainsKeeps(s.(starting := false), true, now);
    } else {
      IrrelevantKeeps(s, s.(maintains := s.maintains - 1));
      MaintainsKeeps(s.(maintains := s.maintains - 1), false, now);
    }
  }

  lemma StartReturnedKeeps(s: State, ok: bool, now: nat)
    requires Core(s) && s.lock.Spawning? && (ok ==> Get(s, s.lock.worker).state == Starting)
    ensures Core(StartReturned(s, ok, now))
  {
    var w, job := s.lock.worker, s.lock.job;
    if !ok || s.pool.stopped {
      hide Core;
      FailStartKeeps(s, Get(s, w).(state := if ok then Stopped else Get(s, w).state));
    } else if job.Maintaining? {
      PrewarmedKeeps(s, now);
    } else {
      hide Core;
      if ThreadOf(s.ops[job.op].purpose).Some? {
        SwitchBeginsKeeps(s);
      } else {
        StartHandsOver(s);
      }
    }
  }

  lemma PrewarmedKeeps(s: State, now: nat)
    requires Core(s) && s.lock.Spawning? && s.lock.job.Maintaining? && Get(s, s.lock.worker).state == Starting
    ensures var u := Unlocked(Put(s, s.lock.worker, Get(s, s.lock.worker).(state := Idle)));
      Core(Maintains(u, s.lock.job.first, now))
  {
    var w := s.lock.worker;
    assert Balanced(Get(s, w), w in s.pool.members, !s.leaky, Holders(s, w));
    HandIsAlone(s);
    assert KnowsTurn(s, w, Get(s, w).(state := Idle));
    hide Rest, Conserved, Maintains, Holders;
    UnlockKeeps(s);
    assert Holders(Unlocked(s), w) == Holders(s, w) by {
      SameHolders(s, Unlocked(s), w);
    }
    TweakKeeps(Unlocked(s), w, Get(s, w).(state := Idle));
    MaintainsKeeps(Put(Unlocked(s), w, Get(s, w).(state := Idle)), s.lock.job.first, now);
  }

  lemma SameHolders(s: State, t: State, w: WorkerId)
    requires t.ops == s.ops && t.turns == s.turns && InHand(t.lock) == InHand(s.lock)
    ensures Holders(t, w) == Holders(s, w)
  {
  }

  lemma DisposedKeeps(s: State)
    requires Core(s) && s.lock.Disposing?
    ensures Core(Disposed(s))
  {
    UnlockKeeps(s);
    hide Core, ScheduleRecovery;
    ScheduledKeeps(Unlocked(s));
    if s.lock.job.Selecting? {
      RefusedKeeps(Scheduled(Unlocked(s)), s.lock.job.op);
    }
  }

  /** Selection, from the free mutex on. */
  lemma SelectsKeeps(s: State, op: OpId, choice: Choice, now: nat)
    requires Core(s) && s.lock == Free && Waits(s, op) && TargetFree(s, op)
    requires Chooses(s.pool, s.persisted, s.ops[op].cwd, choice)
    ensures Core(Selects(s, op, choice, now))
  {
    match choice
    case Reuse(w) =>
      if s.pool.stopped {
        RefusedKeeps(s, op);
      } else {
        ReuseKeeps(s, op, w);
      }
    case Evict(w) =>
      hide Core;
      RetireKeeps(s, w, ToSpawn(op));
    case Spawn =>
      hide Core;
      if s.pool.stopped {
        ScheduledKeeps(s);
        RefusedKeeps(Scheduled(s), op);
      } else {
        SpawnKeeps(s, s.ops[op].cwd, Selecting(op), now);
      }
    case Full => RefusedKeeps(s, op);
  }

  /** Reusing a worker is taking it in hand and starting it, in one go. */
  lemma ReuseKeeps(s: State, op: OpId, w: WorkerId)
    requires Core(s) && !s.pool.stopped && s.lock == Free && Waits(s, op) && TargetFree(s, op)
    requires Eligible(s.pool, s.persisted, s.ops[op].cwd, w)
    ensures Core(Proceeds(Put(s, w, Reserved(Get(s, w)).(state := Assigned)), op, w))
  {
    hide Core, TargetFree;
    TakeKeeps(s, w, op);
    TakenFacts(s, w, op);
    ReuseForm(s, op, w);
    hide Proceeds, ProceedsFrom, TakenInHand, Put, Reserved;
    StartProceeds(TakenInHand(s, w, op), op, w);
  }

  /** The worker in hand is ready for the operation it was started for. */
  ghost function ProceedsFrom(s: State, op: OpId, w: WorkerId): State
    requires op in s.ops && w in s.pool.workers
  {
    var y := Get(s, w).(state := Assigned);
    if ThreadOf(s.ops[op].purpose).Some? then Put(s, w, y).(lock := Switching(w, op))
    else Unlocked(Granted(Put(s, w, y), op, w))
  }

  lemma StartProceeds(s: State, op: OpId, w: WorkerId)
    requires Core(s) && s.lock == Spawning(w, Selecting(op)) && !s.pool.stopped
    requires w in s.pool.workers && Get(s, w).state == Starting && op in s.ops
    ensures Core(ProceedsFrom(s, op, w))
  {
    hide Core;
    if ThreadOf(s.ops[op].purpose).Some? {
      SwitchBeginsKeeps(s);
    } else {
      StartHandsOver(s);
    }
  }

  lemma TakenFacts(s: State, w: WorkerId, op: OpId)
    requires w in s.pool.workers
    ensures var t := TakenInHand(s, w, op);
      && t.lock == Spawning(w, Selecting(op)) && w in t.pool.workers && Get(t, w).state == Starting
      && t.ops == s.ops && t.pool.stopped == s.pool.stopped
  {
  }

  lemma ReuseForm(s: State, op: OpId, w: WorkerId)
    requires op in s.ops && w in s.pool.workers
    ensures w in TakenInHand(s, w, op).pool.workers && op in TakenInHand(s, w, op).ops
    ensures Proceeds(Put(s, w, Reserved(Get(s, w)).(state := Assigned)), op, w) == ProceedsFrom(TakenInHand(s, w, op), op, w)
  {
    TakenForm(s, w, op);
    GrantedRelock(Put(s, w, Reserved(Get(s, w)).(state := Assigned)), op, w, Spawning(w, Selecting(op)));
    hide Put, Granted, TakenInHand, Reserved;
  }

  lemma TakenForm(s: State, w: WorkerId, op: OpId)
    requires w in s.pool.workers
    ensures var t, y := TakenInHand(s, w, op), Reserved(Get(s, w)).(state := Assigned);
      && w in t.pool.workers && Get(t, w).(state := Assigned) == y && t.ops == s.ops
      && Put(t, w, y) == Put(s, w, y).(lock := Spawning(w, Selecting(op)))
  {
    var t, y := TakenInHand(s, w, op), Reserved(Get(s, w)).(state := Assigned);
    assert t.pool.workers[w := y] == s.pool.workers[w := y];
  }

  lemma GrantedRelock(s: State, op: OpId, w: WorkerId, lock: Lock)
    requires op in s.ops && w in s.pool.workers
    ensures Unlocked(Granted(s.(lock := lock), op, w)) == Unlocked(Granted(s, op, w))
  {
    var ops := s.ops[op := Holding(s.ops[op].purpose, w, false)];
    assert s.(lock := lock).(ops := ops) == s.(ops := ops).(lock := lock);
    if s.ops[op].purpose.ForMutation? {
      var y := Get(s, w).(state := Running);
      assert Granted(s, op, w) == Put(s.(ops := ops), w, y);
      assert Granted(s.(lock := lock), op, w) == Put(s.(ops := ops).(lock := lock), w, y);
      hide Granted;
    }
  }

  lemma StopReturnedKeeps(s: State, choice: Choice, now: nat)
    requires Core(s) && Enabled(s, StopReturns(choice, now))
    ensures Core(StopReturned(s, choice, now))
  {
    var t := Unlocked(Leaves(s, s.lock.worker));
    StoppedLeaves(s);
    assert Client(s.lock).Some? ==> Waits(t, Client(s.lock).value);
    hide Core, Chooses, TargetFree, Shape, Continued;
    ContinuedKeeps(t, s.lock.next, choice, now);
  }

  /** The retired worker has stopped and leaves. */
  lemma StoppedLeaves(s: State)
    requires Core(s) && s.lock.Retiring?
    ensures Core(Unlocked(Leaves(s, s.lock.worker)))
    ensures s.lock.next.ToSpawn? || s.lock.next.ToReplace? ==> TargetFree(Unlocked(Leaves(s, s.lock.worker)), s.lock.next.op)
  {
    if s.lock.next.ToSpawn? || s.lock.next.ToReplace? {
      LeavesTarget(s);
    }
    LeavesKeeps(s, s.lock.worker);
    hide Rest, Conserved, TargetFree;
    UnlockKeeps(Leaves(s, s.lock.worker));
  }

  lemma LeavesTarget(s: State)
    requires Shape(s) && Leased(s) && s.lock.Retiring? && (s.lock.next.ToSpawn? || s.lock.next.ToReplace?)
    ensures TargetFree(Unlocked(Leaves(s, s.lock.worker)), s.lock.next.op)
  {
    assert ServesLess(s.pool, Leaves(s, s.lock.worker).pool);
    hide Serves;
  }

  lemma ContinuedKeeps(s: State, next: Next, choice: Choice, now: nat)
    requires Core(s) && s.lock == Free && (next.Reaping? || Waits(s, next.op))
    requires next.ToSpawn? || next.ToReplace? ==> TargetFree(s, next.op)
    requires next.ToReplace? ==> Chooses(s.pool, s.persisted, s.ops[next.op].cwd, choice)
    ensures Core(Continued(s, next, choice, now))
  {
    ScheduledKeeps(s);
    match next
    case ToSpawn(op) =>
      hide Core;
      if s.pool.stopped || |s.pool.members| >= s.pool.options.maxWorkers {
        RefusedKeeps(Scheduled(s), op);
      } else {
        SpawnKeeps(s, s.ops[op].cwd, Selecting(op), now);
      }
    case ToReplace(op) =>
      hide Core;
      ScheduledChooses(s, s.ops[op].cwd, choice, op);
      SelectsKeeps(Scheduled(s), op, choice, now);
    case SwitchFailed(op) =>
      hide Core;
      RefusedKeeps(Scheduled(s), op);
    case Reaping(rest) =>
      hide Core;
      ReapsKeeps(s, rest);
  }

  lemma ScheduledChooses(s: State, cwd: Directory, choice: Choice, op: OpId)
    ensures Chooses(s.pool, s.persisted, cwd, choice) ==> Chooses(Scheduled(s).pool, s.persisted, cwd, choice)
    ensures TargetFree(s, op) ==> TargetFree(Scheduled(s), op)
  {
    var p, q := s.pool, Scheduled(s).pool;
    assert forall v :: Eligible(q, s.persisted, cwd, v) == Eligible(p, s.persisted, cwd, v);
    assert forall v :: Evictable(q, s.persisted, v) == Evictable(p, s.persisted, v);
    assert forall v, k :: Serves(q, v, k) == Serves(p, v, k);
    hide Eligible, Evictable, Serves;
  }

  lemma {:induction false} ReapsKeeps(s: State, candidates: seq<WorkerId>)
    requires Core(s) && s.lock == Free
    ensures Core(Reaps(s, candidates))
  {
    hide Core;
    if candidates == [] || |s.pool.members| <= s.pool.options.minWorkers {
      ScheduledKeeps(s);
    } else {
      var w := candidates[0];
      if w in s.pool.workers && Reclaimable(Get(s, w), s.persisted) {
        RetireKeeps(s, w, Reaping(candidates[1..]));
      } else {
        ReapsKeeps(s, candidates[1..]);
      }
    }
  }

  lemma AcquiredKeeps(s: State, op: OpId, choice: Choice, now: nat)
    requires Core(s) && s.lock == Free && Waits(s, op) && Chooses(s.pool, s.persisted, s.ops[op].cwd, choice)
    ensures Core(Acquired(s, op, choice, now))
  {
    var thread := ThreadOf(s.ops[op].purpose);
    if s.pool.stopped {
      RefusedKeeps(s, op);
    } else if thread == None || Find(s.pool, thread.value) == None {
      assert TargetFree(s, op);
      SelectsKeeps(s, op, choice, now);
    } else {
      var w := Find(s.pool, thread.value).value;
      assert RetireTarget(s, w, ToReplace(op));
      assert OpOk(s.ops[op], s.turns, s.mutations, s.pool.workers);
      hide Core, Chooses, RetireTarget;
      if !Quiescent(Get(s, w)) || (Get(s, w).cwd != s.ops[op].cwd && !Reclaimable(Get(s, w), s.persisted)) {
        RefusedKeeps(s, op);
      } else if Get(s, w).cwd == s.ops[op].cwd {
        RetainKeeps(s, op, w);
      } else {
        RetireKeeps(s, w, ToReplace(op));
      }
    }
  }

  lemma SwitchReturnedKeeps(s: State, ok: bool, now: nat)
    requires Core(s) && s.lock.Switching? && (ok ==> Available(Get(s, s.lock.worker)))
    ensures Core(SwitchReturned(s, ok, now))
  {
    var w, op := s.lock.worker, s.lock.op;
    assert Waits(s, op);
    hide Core;
    if ok {
      SwitchHandsOver(s);
    } else {
      SwitchFailedKeeps(s, now);
      var t := Unlocked(Put(s, w, Released(Get(s, w), now)));
      if Available(Get(t, w)) {
        RetireKeeps(t, w, SwitchFailed(op));
      } else {
        RefusedKeeps(t, op);
      }
    }
  }
}
