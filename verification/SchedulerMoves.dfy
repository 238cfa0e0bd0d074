/** The larger moves of the scheduler keep its invariant: reserving, starting, retiring and
    switching workers, and beginning and ending turns. */
module SchedulerMoves {
  import opened Common
  import opened Pools
  import opened Scheduler
  import opened SchedulerInv

  // ---------------------------------------------------------------- the mutex takes a worker

  /** A quiescent worker is reserved for the operation, as if it were being started. */
  function TakenInHand(s: State, w: WorkerId, op: OpId): State
    requires w in s.pool.workers
  {
    Put(s, w, Reserved(Get(s, w)).(state := Starting)).(lock := Spawning(w, Selecting(op)))
  }

  lemma TakeKeeps(s: State, w: WorkerId, op: OpId)
    requires Core(s) && s.lock == Free && Waits(s, op) && TargetFree(s, op)
    requires Evictable(s.pool, s.persisted, w)
    requires (s.pool.options.reuseAcrossThreads || !Get(s, w).claimed) && Rooted(s, op, w)
    ensures Core(TakenInHand(s, w, op))
  {
    Unheld(s, w);
    hide Rest, Conserved;
    TakeRest(s, w, op);
    TakeConserved(s, w, op);
  }

  /** Nobody holds a worker without reservations. */
  lemma Unheld(s: State, w: WorkerId)
    requires Core(s) && w in s.pool.workers && Get(s, w).reservations == 0
    ensures Holders(s, w) == 0
    ensures forall o <- s.ops :: !On(s.ops[o], w)
    ensures forall t <- s.turns :: !Names(s.turns[t], w)
    ensures InHand(s.lock) != Some(w)
  {
    assert Balanced(Get(s, w), w in s.pool.members, !s.leaky, Holders(s, w));
    HolderCounts(s, w);
  }

  lemma TakeConserved(s: State, w: WorkerId, op: OpId)
    requires Conserved(s) && s.lock == Free && Evictable(s.pool, s.persisted, w) && Holders(s, w) == 0
    ensures Conserved(TakenInHand(s, w, op))
  {
    var t := TakenInHand(s, w, op);
    assert Balanced(Get(s, w), true, !s.leaky, 0);
    assert forall v :: Holders(t, v) == Holders(s, v) + One(v == w);
    hide Holders;
    ConservedOne(s, t, w, Get(t, w));
  }

  lemma TakeRest(s: State, w: WorkerId, op: OpId)
    requires Rest(s) && s.lock == Free && Waits(s, op) && TargetFree(s, op)
    requires Evictable(s.pool, s.persisted, w)
    requires (s.pool.options.reuseAcrossThreads || !Get(s, w).claimed) && Rooted(s, op, w)
    requires forall o <- s.ops :: !On(s.ops[o], w)
    requires forall t <- s.turns :: !Names(s.turns[t], w)
    ensures Rest(TakenInHand(s, w, op))
  {
    hide Shape, Leased, TurnsOk, OpsOk, History, TurnNames, Exclusive, LockOk, Serves;
    var t := TakenInHand(s, w, op);
    TakeLease(s, w, op);
    TakeShape(s, w, op);
    UnheldTurns(s, t, w);
    UnheldOps(s, t, w);
    RecordOf(s.pool, w);
    HistoryPut(s.pool, t.pool, w);
    ExclusiveSame(s, t);
    TakeLock(s, w, op);
  }

  lemma TakeLease(s: State, w: WorkerId, op: OpId)
    requires Leased(s) && w in s.pool.workers && TargetFree(s, op)
    ensures Leased(TakenInHand(s, w, op))
  {
    assert ServesLess(s.pool, TakenInHand(s, w, op).pool);
    hide Serves;
  }

  lemma TakeShape(s: State, w: WorkerId, op: OpId)
    requires Shape(s) && w in s.pool.workers && Waits(s, op)
    ensures Shape(TakenInHand(s, w, op))
  {
  }

  lemma TakeLock(s: State, w: WorkerId, op: OpId)
    requires w in s.pool.workers && !Get(s, w).retiring && Get(s, w).reservations == 0 && Rooted(s, op, w)
    ensures LockOk(TakenInHand(s, w, op))
  {
  }

  /** Whatever happens to a worker that nobody holds, turns and operations do not mind. */
  lemma UnheldTurns(s: State, t: State, w: WorkerId)
    requires TurnsOk(s.turns, s.pool) && forall k <- s.turns :: !Names(s.turns[k], w)
    requires w in t.pool.workers && t.pool.workers == s.pool.workers[w := t.pool.workers[w]]
    requires t.pool.members <= s.pool.members + {w} && t.turns == s.turns
    ensures TurnsOk(t.turns, t.pool)
  {
    assert forall k <- s.turns :: TurnOk(k, s.turns[k], s.pool);
  }

  lemma UnheldOps(s: State, t: State, w: WorkerId)
    requires OpsOk(s) && forall o <- s.ops :: !On(s.ops[o], w)
    requires w in t.pool.workers && t.pool.workers == s.pool.workers[w := t.pool.workers[w]]
    requires t.ops == s.ops && t.turns == s.turns && t.mutations == s.mutations
    ensures OpsOk(t)
  {
    forall o <- t.ops ensures OpOk(t.ops[o], t.turns, t.mutations, t.pool.workers) {
      assert OpOk(s.ops[o], s.turns, s.mutations, s.pool.workers);
    }
  }

  // ---------------------------------------------------------------- starting a worker

  lemma SpawnKeeps(s: State, cwd: Directory, job: Job, now: nat)
    requires Core(s) && s.lock == Free && |s.pool.members| < s.pool.options.maxWorkers
    requires job.Selecting? ==> Waits(s, job.op) && s.ops[job.op].cwd == cwd && TargetFree(s, job.op)
    ensures Core(SpawnBegins(s, cwd, job, now))
  {
    hide Rest, Conserved;
    SpawnConserved(s, cwd, job, now);
    SpawnRest(s, cwd, job, now);
  }

  lemma SpawnHolders(s: State, cwd: Directory, job: Job, now: nat)
    requires Shape(s) && s.lock == Free
    ensures s.pool.nextWorker !in s.pool.workers && Holders(s, s.pool.nextWorker) == 0
    ensures forall v: WorkerId ::
              Holders(SpawnBegins(s, cwd, job, now), v) == Holders(s, v) + One(v == s.pool.nextWorker && job.Selecting?)
  {
    var w := s.pool.nextWorker;
    assert OpsOn(s.ops, w) == {} && TurnsOn(s.turns, w) == {};
  }

  lemma SpawnConserved(s: State, cwd: Directory, job: Job, now: nat)
    requires Core(s) && s.lock == Free
    ensures Conserved(SpawnBegins(s, cwd, job, now))
  {
    var t, w := SpawnBegins(s, cwd, job, now), s.pool.nextWorker;
    SpawnHolders(s, cwd, job, now);
    hide Rest, Holders;
    assert Balanced(Get(t, w), true, !t.leaky, Holders(t, w));
    hide Balanced;
    forall v <- t.pool.workers ensures Balanced(t.pool.workers[v], v in t.pool.members, !t.leaky, Holders(t, v)) {
      if v != w {
        assert t.pool.workers[v] == s.pool.workers[v] && (v in t.pool.members <==> v in s.pool.members);
      }
    }
  }

  lemma SpawnRest(s: State, cwd: Directory, job: Job, now: nat)
    requires Rest(s) && s.lock == Free && |s.pool.members| < s.pool.options.maxWorkers
    requires job.Selecting? ==> Waits(s, job.op) && s.ops[job.op].cwd == cwd && TargetFree(s, job.op)
    ensures Rest(SpawnBegins(s, cwd, job, now))
  {
    var t, w := SpawnBegins(s, cwd, job, now), s.pool.nextWorker;
    SpawnFields(s, cwd, job, now);
    hide SpawnBegins, Shape, Leased, TurnsOk, OpsOk, History, TurnNames, Exclusive, LockOk, Serves, ServesLess, TargetFree,
         Waits, Recorded;
    SpawnShape(s, cwd, job, now);
    SpawnLease(s, cwd, job, now);
    SpawnLock(s, cwd, job, now);
    UnheldTurns(s, t, w);
    UnheldOps(s, t, w);
    HistoryPut(s.pool, t.pool, w);
    ExclusiveSame(s, t);
  }

  lemma SpawnFields(s: State, cwd: Directory, job: Job, now: nat)
    ensures var t, w := SpawnBegins(s, cwd, job, now), s.pool.nextWorker;
      && w in t.pool.workers && t.pool.workers == s.pool.workers[w := Get(t, w)] && Recorded(t.pool.options, Get(t, w))
      && t.pool.options == s.pool.options && t.ended == s.ended && t.nextTurn == s.nextTurn
      && t.turns == s.turns && t.ops == s.ops && t.mutations == s.mutations && t.stray == s.stray && t.leaky == s.leaky
      && t.pool.members == s.pool.members + {w}
  {
  }

  lemma SpawnLease(s: State, cwd: Directory, job: Job, now: nat)
    requires Leased(s) && s.pool.nextWorker !in s.pool.workers && (job.Selecting? ==> TargetFree(s, job.op))
    ensures Leased(SpawnBegins(s, cwd, job, now))
  {
    assert ServesLess(s.pool, SpawnBegins(s, cwd, job, now).pool);
    hide Serves;
  }

  lemma SpawnShape(s: State, cwd: Directory, job: Job, now: nat)
    requires Shape(s) && |s.pool.members| < s.pool.options.maxWorkers
    requires job.Selecting? ==> Waits(s, job.op)
    ensures Shape(SpawnBegins(s, cwd, job, now))
    ensures forall o <- s.ops :: !On(s.ops[o], s.pool.nextWorker)
    ensures forall t <- s.turns :: !Names(s.turns[t], s.pool.nextWorker)
    ensures s.pool.nextWorker !in s.pool.workers
  {
  }

  lemma SpawnLock(s: State, cwd: Directory, job: Job, now: nat)
    requires job.Selecting? ==> Waits(s, job.op) && s.ops[job.op].cwd == cwd
    ensures LockOk(SpawnBegins(s, cwd, job, now))
  {
  }

  /** The start failed: the worker leaves and the mutex waits for it to stop. */
  lemma FailStartKeeps(s: State, y: Worker)
    requires Core(s) && s.lock.Spawning?
    requires y == Get(s, s.lock.worker).(state := y.state) && (y.state == Stopped || y.state == Get(s, s.lock.worker).state)
    ensures Core(Leaves(Put(s, s.lock.worker, y), s.lock.worker).(lock := Disposing(s.lock.job)))
  {
    HandIsAlone(s);
    hide Conserved, Rest;
    FailStartConserved(s, y);
    FailStartRest(s, y);
  }

  lemma FailStartConserved(s: State, y: Worker)
    requires Conserved(s) && s.lock.Spawning? && s.lock.worker in s.pool.workers
    requires y == Get(s, s.lock.worker).(state := y.state)
    requires forall o <- s.ops :: !On(s.ops[o], s.lock.worker)
    requires forall t <- s.turns :: !Names(s.turns[t], s.lock.worker)
    ensures Conserved(Leaves(Put(s, s.lock.worker, y), s.lock.worker).(lock := Disposing(s.lock.job)))
  {
    var w := s.lock.worker;
    assert Balanced(Get(s, w), w in s.pool.members, !s.leaky, Holders(s, w));
    var t := Leaves(Put(s, w, y), w).(lock := Disposing(s.lock.job));
    assert OpsOn(t.ops, w) == {} && TurnsOn(t.turns, w) == {};
    assert forall v :: v != w ==> Holders(t, v) == Holders(s, v);
    assert Holders(t, w) == 0;
    hide Conserved, Holders;
    ConservedPut(s, t, w);
  }

  lemma FailStartRest(s: State, y: Worker)
    requires Rest(s) && s.lock.Spawning?
    requires y == Get(s, s.lock.worker).(state := y.state) && (y.state == Stopped || y.state == Get(s, s.lock.worker).state)
    requires forall t <- s.turns :: !Names(s.turns[t], s.lock.worker)
    ensures Rest(Leaves(Put(s, s.lock.worker, y), s.lock.worker).(lock := Disposing(s.lock.job)))
  {
    var w := s.lock.worker;
    var d := s.(lock := Disposing(s.lock.job));
    assert Shape(d) && LockOk(d);
    assert KnowsTurn(d, w, y);
    hide Rest, Shape, LockOk, KnowsTurn;
    RelockRest(s, d.lock);
    TweakRest(d, w, y);
    LeavesRest(Put(d, w, y), w);
  }

  /** The start succeeded for an operation on an existing session: its switch begins. */
  lemma SwitchBeginsKeeps(s: State)
    requires Core(s) && s.lock.Spawning? && s.lock.job.Selecting? && Get(s, s.lock.worker).state == Starting
    requires ThreadOf(s.ops[s.lock.job.op].purpose).Some? && !s.pool.stopped
    ensures var w, op := s.lock.worker, s.lock.job.op;
      Core(Put(s, w, Get(s, w).(state := Assigned)).(lock := Switching(w, op)))
  {
    var w, op := s.lock.worker, s.lock.job.op;
    HandIsAlone(s);
    var d := s.(lock := Switching(w, op));
    SwitchBeginsRest(s);
    assert forall v :: Holders(d, v) == Holders(s, v);
    assert KnowsTurn(d, w, Get(s, w).(state := Assigned));
    hide Rest, Conserved, Holders, KnowsTurn;
    ConservedSame(s, d);
    SwitchBeginsBalance(d, w);
    TweakKeeps(d, w, Get(s, w).(state := Assigned));
  }

  lemma SwitchBeginsBalance(s: State, w: WorkerId)
    requires Conserved(s) && w in s.pool.workers && Get(s, w).state == Starting
    ensures Balanced(Get(s, w).(state := Assigned), w in s.pool.members, !s.leaky, Holders(s, w))
  {
    assert Balanced(Get(s, w), w in s.pool.members, !s.leaky, Holders(s, w));
    hide Holders;
  }

  lemma SwitchBeginsRest(s: State)
    requires Rest(s) && s.lock.Spawning? && s.lock.job.Selecting? && Get(s, s.lock.worker).state == Starting
    requires ThreadOf(s.ops[s.lock.job.op].purpose).Some? && !s.pool.stopped
    ensures Rest(s.(lock := Switching(s.lock.worker, s.lock.job.op)))
  {
    var d := s.(lock := Switching(s.lock.worker, s.lock.job.op));
    assert Shape(d) && LockOk(d);
    hide Rest, Shape, LockOk;
    RelockRest(s, d.lock);
  }

  /** The start succeeded for an operation that needs no session. */
  lemma StartHandsOver(s: State)
    requires Core(s) && s.lock.Spawning? && s.lock.job.Selecting? && Get(s, s.lock.worker).state == Starting
    requires ThreadOf(s.ops[s.lock.job.op].purpose) == None
    ensures var w, op := s.lock.worker, s.lock.job.op;
      Core(Unlocked(Granted(Put(s, w, Get(s, w).(state := Assigned)), op, w)))
  {
    var w, op := s.lock.worker, s.lock.job.op;
    var y := Get(s, w).(state := Assigned);
    HandIsAlone(s);
    UnlockRest(s);
    assert Suits(s.ops[op].purpose, y);
    assert Waits(s, op);
    hide Rest, Conserved, Suits;
    TweakRest(Unlocked(s), w, y);
    HandOver(s, w, op, y);
  }

  // ---------------------------------------------------------------- switching sessions

  lemma SwitchHandsOver(s: State)
    requires Core(s) && s.lock.Switching? && Available(Get(s, s.lock.worker))
    ensures var w, op := s.lock.worker, s.lock.op;
      var thread := ThreadOf(s.ops[op].purpose).value;
      Core(Unlocked(Granted(Put(s, w, Bound(Get(s, w), thread)), op, w)))
  {
    var w, op := s.lock.worker, s.lock.op;
    var thread := ThreadOf(s.ops[op].purpose).value;
    var y := Bound(Get(s, w), thread);
    HandIsAlone(s);
    UnlockRest(s);
    assert Waits(s, op) && OpOk(s.ops[op], s.turns, s.mutations, s.pool.workers);
    assert Suits(s.ops[op].purpose, y);
    HandIsBindable(s);
    hide Rest, Conserved, Suits, Bindable;
    BindRest(Unlocked(s), w, thread);
    HandOver(s, w, op, y);
  }

  lemma HandIsBindable(s: State)
    requires Rest(s) && s.lock.Switching? && Available(Get(s, s.lock.worker))
    requires forall o <- s.ops :: !On(s.ops[o], s.lock.worker)
    requires forall t <- s.turns :: !Names(s.turns[t], s.lock.worker)
    ensures Bindable(Unlocked(s), s.lock.worker, ThreadOf(s.ops[s.lock.op].purpose).value)
  {
    assert Heads(s) == ThreadOf(s.ops[s.lock.op].purpose);
    assert forall v, k :: Serves(Unlocked(s).pool, v, k) == Serves(s.pool, v, k);
    hide Serves, TurnsOk, OpsOk, TurnNames, Exclusive;
  }

  lemma SwitchingFacts(s: State)
    requires Core(s) && s.lock.Switching?
    ensures s.lock.worker in s.pool.workers
    ensures var w, x := s.lock.worker, Get(s, s.lock.worker);
      && x.reservations == 1 && x.thread == None && !x.retiring && (Available(x) ==> w in s.pool.members)
  {
    assert Balanced(Get(s, s.lock.worker), s.lock.worker in s.pool.members, !s.leaky, Holders(s, s.lock.worker));
  }

  /** A failed switch gives the reservation back. */
  lemma SwitchFailedKeeps(s: State, now: nat)
    requires Core(s) && s.lock.Switching?
    ensures s.lock.worker in s.pool.workers
    ensures var w := s.lock.worker; var x := Released(Get(s, w), now);
      && Core(Unlocked(Put(s, w, x))) && x.reservations == 0 && Get(s, w).reservations == 1
      && (Available(x) ==> w in s.pool.members)
  {
    hide Conserved, Rest, Holders;
    SwitchingFacts(s);
    HandIsAlone(s);
    var w := s.lock.worker;
    var x := Released(Get(s, w), now);
    UnlockRest(s);
    SwitchFailedConserved(s, w, x);
    TweakRest(Unlocked(s), w, x);
  }

  lemma SwitchFailedConserved(s: State, w: WorkerId, x: Worker)
    requires Conserved(s) && InHand(s.lock) == Some(w) && w in s.pool.workers && x.reservations == 0
    requires forall o <- s.ops :: !On(s.ops[o], w)
    requires forall t <- s.turns :: !Names(s.turns[t], w)
    requires Balanced(x, w in s.pool.members, !s.leaky, 0)
    ensures Conserved(Unlocked(Put(s, w, x)))
  {
    var t := Unlocked(Put(s, w, x));
    assert OpsOn(t.ops, w) == {} && TurnsOn(t.turns, w) == {};
    assert forall v :: v != w ==> Holders(t, v) == Holders(s, v);
    assert Holders(t, w) == 0;
    hide Holders, Balanced;
    ConservedOne(s, t, w, x);
  }

  // ---------------------------------------------------------------- retiring a worker

  predicate Continues(s: State, next: Next) {
    match next
    case ToSpawn(op) => Waits(s, op)
    case ToReplace(op) => Waits(s, op)
    case SwitchFailed(op) => Waits(s, op)
    case Reaping(_) => true
  }

  /** Nobody but the worker itself serves the thread that is to be handed out in its place. */
  ghost predicate RetireTarget(s: State, w: WorkerId, next: Next) {
    next.ToSpawn? || next.ToReplace? ==>
      && w in s.pool.members && next.op in s.ops
      && (!s.stray && !s.pool.stopped && ThreadOf(s.ops[next.op].purpose).Some? ==>
            forall v :: v != w ==> !Serves(s.pool, v, ThreadOf(s.ops[next.op].purpose).value))
  }

  lemma RetireKeeps(s: State, w: WorkerId, next: Next)
    requires Core(s) && s.lock == Free && w in s.pool.workers && Get(s, w).reservations == 0
    requires Continues(s, next) && RetireTarget(s, w, next)
    ensures Core(RetireBegins(s, w, next))
  {
    Unheld(s, w);
    hide Rest, Conserved;
    RetireConserved(s, w, next);
    RetireRest(s, w, next);
  }

  lemma RetireConserved(s: State, w: WorkerId, next: Next)
    requires Conserved(s) && s.lock == Free && w in s.pool.workers && Get(s, w).reservations == 0 && Holders(s, w) == 0
    ensures Conserved(RetireBegins(s, w, next))
  {
    var t := RetireBegins(s, w, next);
    assert forall v :: Holders(t, v) == Holders(s, v);
    hide Holders;
    ConservedOne(s, t, w, Get(t, w));
  }

  lemma RetireRest(s: State, w: WorkerId, next: Next)
    requires Rest(s) && s.lock == Free && w in s.pool.workers
    requires Continues(s, next) && RetireTarget(s, w, next)
    requires forall o <- s.ops :: !On(s.ops[o], w)
    requires forall t <- s.turns :: !Names(s.turns[t], w)
    ensures Rest(RetireBegins(s, w, next))
  {
    RetireLock(s, w, next);
    hide Shape, Leased, TurnsOk, OpsOk, History, TurnNames, Exclusive, LockOk, Serves, RetireTarget, Continues;
    var t := RetireBegins(s, w, next);
    RetireLease(s, w, next);
    RetireShape(s, w, next);
    UnheldTurns(s, t, w);
    UnheldOps(s, t, w);
    RecordOf(s.pool, w);
    HistoryPut(s.pool, t.pool, w);
    ExclusiveSame(s, t);
  }

  lemma RetireLease(s: State, w: WorkerId, next: Next)
    requires Leased(s) && w in s.pool.workers && RetireTarget(s, w, next)
    ensures Leased(RetireBegins(s, w, next))
  {
    RetireServes(s, w, next);
    hide Serves;
  }

  lemma RetireServes(s: State, w: WorkerId, next: Next)
    requires w in s.pool.workers
    ensures forall v: WorkerId, k: ThreadId :: Serves(RetireBegins(s, w, next).pool, v, k) ==> Serves(s.pool, v, k) && v != w
  {
    var q := RetireBegins(s, w, next).pool;
    assert q.members == s.pool.members && q.workers == s.pool.workers[w := Retired(Get(s, w))];
    hide RetireBegins, Put;
  }

  lemma RetireShape(s: State, w: WorkerId, next: Next)
    requires Shape(s) && w in s.pool.workers && Continues(s, next)
    ensures Shape(RetireBegins(s, w, next))
  {
  }

  lemma RetireLock(s: State, w: WorkerId, next: Next)
    requires w in s.pool.workers && RetireTarget(s, w, next) && |s.pool.members| <= s.pool.options.maxWorkers
    ensures LockOk(RetireBegins(s, w, next))
  {
    hide Serves;
  }
}
