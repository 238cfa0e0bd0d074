/** Turns and mutations beginning and ending keep the scheduler's invariant. */
module SchedulerTurns {
  import opened Common
  import opened Pools
  import opened Scheduler
  import opened SchedulerInv
  import opened SchedulerMoves

  // ---------------------------------------------------------------- requests

  lemma RequestedKeeps(s: State, purpose: Purpose, cwd: Directory)
    requires Core(s) && !purpose.ForCleanup?
    ensures Core(Requested(s, purpose, cwd))
  {
    assert Shape(s);
    hide Rest, Conserved, Shape;
    RequestedHolders(s, purpose, cwd);
    ConservedSame(s, Requested(s, purpose, cwd));
    RequestedRest(s, purpose, cwd);
  }

  /** The operation a request adds, if it is not refused at once. */
  function Newcomer(s: State, purpose: Purpose, cwd: Directory): Op {
    Waiting(if purpose.ForSend? then ForSend(purpose.thread, s.nextTurn) else purpose, cwd)
  }

  lemma RequestedHolders(s: State, purpose: Purpose, cwd: Directory)
    requires Shape(s)
    ensures forall v :: Holders(Requested(s, purpose, cwd), v) == Holders(s, v)
  {
    assert s.nextOp !in s.ops;
    hide Shape, OpsOn, TurnsOn, Resumable;
    if !Denied(s, purpose) {
      OpsOnPut(s.ops, s.nextOp, Newcomer(s, purpose, cwd));
      if purpose.ForSend? {
        TurnsOnPut(s.turns, purpose.thread, Active(s.nextTurn, None));
      }
    }
  }

  lemma RequestedRest(s: State, purpose: Purpose, cwd: Directory)
    requires Rest(s) && !purpose.ForCleanup?
    ensures Rest(Requested(s, purpose, cwd))
  {
    hide Shape, Leased, TurnsOk, OpsOk, History, TurnNames, Exclusive, LockOk, Serves, Heads, ServesLess, Denied;
    RequestedShape(s, purpose, cwd);
    LeaseFrame(s, Requested(s, purpose, cwd));
    RequestedTurns(s, purpose, cwd);
    RequestedOps(s, purpose, cwd);
    RequestedLock(s, purpose, cwd);
  }

  lemma RequestedShape(s: State, purpose: Purpose, cwd: Directory)
    requires Shape(s)
    ensures Shape(Requested(s, purpose, cwd)) && s.nextOp !in s.ops
    ensures ServesLess(s.pool, Requested(s, purpose, cwd).pool) && Heads(Requested(s, purpose, cwd)) == Heads(s)
  {
    RequestedAims(s, purpose, cwd);
    hide Denied, Serves, WellFormed, Heads;
  }

  lemma RequestedAims(s: State, purpose: Purpose, cwd: Directory)
    requires Shape(s)
    ensures Heads(Requested(s, purpose, cwd)) == Heads(s)
  {
    hide Denied, WellFormed;
  }

  lemma RequestedTurns(s: State, purpose: Purpose, cwd: Directory)
    requires TurnsOk(s.turns, s.pool) && TurnNames(s.turns, s.ended, s.nextTurn)
    ensures var t := Requested(s, purpose, cwd); TurnsOk(t.turns, t.pool) && TurnNames(t.turns, t.ended, t.nextTurn)
  {
    if purpose.ForSend? && !Denied(s, purpose) {
      ReservedTurns(s, purpose.thread);
    }
    hide TurnsOk, TurnNames, Resumable;
  }

  /** Reserving a turn takes the next turn name and no worker. */
  lemma ReservedTurns(s: State, thread: ThreadId)
    requires TurnsOk(s.turns, s.pool) && TurnNames(s.turns, s.ended, s.nextTurn)
    ensures thread !in s.turns ==>
              TurnsOk(s.turns[thread := Active(s.nextTurn, None)], s.pool)
    ensures thread !in s.turns ==>
              TurnNames(s.turns[thread := Active(s.nextTurn, None)], s.ended, s.nextTurn + 1)
  {
    assert TurnOk(thread, Active(s.nextTurn, None), s.pool);
    hide TurnOk;
  }

  lemma RequestedOps(s: State, purpose: Purpose, cwd: Directory)
    requires OpsOk(s) && Exclusive(s) && s.nextOp !in s.ops && !purpose.ForCleanup?
    ensures OpsOk(Requested(s, purpose, cwd)) && Exclusive(Requested(s, purpose, cwd))
  {
    if !Denied(s, purpose) {
      NewcomerFits(s, purpose, cwd);
      RequestedOthers(s, purpose, cwd);
      hide OpOk, Requested, Newcomer, Denied;
    }
  }

  lemma NewcomerFits(s: State, purpose: Purpose, cwd: Directory)
    requires !Denied(s, purpose) && !purpose.ForCleanup? && s.turns.Keys !! s.mutations
    ensures var t, x := Requested(s, purpose, cwd), Newcomer(s, purpose, cwd);
      && t.ops == s.ops[s.nextOp := x] && OpOk(x, t.turns, t.mutations, t.pool.workers) && t.turns.Keys !! t.mutations
      && (Claims(x.purpose).Some? ==> Claims(x.purpose).value !in s.turns && Claims(x.purpose).value !in s.mutations)
  {
    assert Claims(purpose).Some? ==> Claims(purpose).value !in s.turns && Claims(purpose).value !in s.mutations by {
      hide Resumable;
    }
    hide Denied;
    if purpose.ForSend? || purpose.ForMutation? {
      assert Claims(Newcomer(s, purpose, cwd).purpose) == Claims(purpose);
    }
  }

  lemma RequestedOthers(s: State, purpose: Purpose, cwd: Directory)
    requires OpsOk(s)
    ensures var t := Requested(s, purpose, cwd);
      forall o <- s.ops :: Reserves(s, s.ops[o]) && OpOk(s.ops[o], t.turns, t.mutations, t.pool.workers)
  {
    var t := Requested(s, purpose, cwd);
    forall o <- s.ops ensures Reserves(s, s.ops[o]) && OpOk(s.ops[o], t.turns, t.mutations, t.pool.workers) {
      assert OpOk(s.ops[o], s.turns, s.mutations, s.pool.workers);
    }
  }

  /** What an operation has reserved shows in the service's maps. */
  predicate Reserves(s: State, op: Op) {
    Claims(op.purpose).Some? ==> Claims(op.purpose).value in s.turns || Claims(op.purpose).value in s.mutations
  }

  lemma RequestedLock(s: State, purpose: Purpose, cwd: Directory)
    requires LockOk(s) && s.nextOp !in s.ops
    ensures LockOk(Requested(s, purpose, cwd))
  {
    hide Serves;
  }

  // ---------------------------------------------------------------- turns begin

  /** An operation that expects nothing more becomes the thread's running turn. */
  function TurnBegins(s: State, op: OpId, thread: ThreadId, turn: TurnId, y: Worker): State
    requires Holds(s, op)
  {
    var w := s.ops[op].worker;
    Put(s, w, y).(ops := s.ops - {op}, turns := s.turns[thread := Active(turn, Some(w))])
  }

  ghost predicate CanBegin(s: State, op: OpId, thread: ThreadId, turn: TurnId, y: Worker) {
    && Holds(s, op) && s.ops[op].purpose.ForModels?
    && var x := Get(s, s.ops[op].worker);
    && x.thread == Some(thread) && Available(x) && Available(y)
    && y == x.(activeTurn := Some(turn), state := y.state) && (y.state == Starting ==> x.state == Starting)
    && thread !in s.turns && thread !in s.mutations
    && turn < s.nextTurn && turn !in s.ended
    && (forall k <- s.turns :: s.turns[k].turn != turn && !Names(s.turns[k], s.ops[op].worker))
  }

  lemma TurnBeginsKeeps(s: State, op: OpId, thread: ThreadId, turn: TurnId, y: Worker)
    requires Core(s) && CanBegin(s, op, thread, turn, y)
    ensures Core(TurnBegins(s, op, thread, turn, y))
  {
    HoldingIsCounted(s, op);
    var w := s.ops[op].worker;
    assert KnowsTurn(s, w, y);
    hide Rest, Conserved, Balanced, Holders, KnowsTurn;
    TurnBeginsConserved(s, op, thread, turn, y);
    TweakRest(s, w, y);
    DropRest(Put(s, w, y), op);
    AddTurnRest(Put(s, w, y).(ops := s.ops - {op}), thread, turn, w);
  }

  lemma TurnBeginsConserved(s: State, op: OpId, thread: ThreadId, turn: TurnId, y: Worker)
    requires Conserved(s) && CanBegin(s, op, thread, turn, y)
    ensures Conserved(TurnBegins(s, op, thread, turn, y))
  {
    var w, t := s.ops[op].worker, TurnBegins(s, op, thread, turn, y);
    OpsOnDrop(s.ops, op);
    TurnsOnPut(s.turns, thread, Active(turn, Some(w)));
    assert forall v :: Holders(t, v) == Holders(s, v);
    hide Holders;
    assert Balanced(Get(s, w), w in s.pool.members, !s.leaky, Holders(s, w));
    assert Balanced(y, w in s.pool.members, !s.leaky, Holders(t, w));
    hide CanBegin, Balanced;
    ConservedOne(s, t, w, y);
  }

  lemma AddTurnRest(s: State, thread: ThreadId, turn: TurnId, w: WorkerId)
    requires Rest(s) && w in s.pool.workers && thread !in s.turns && thread !in s.mutations
    requires Get(s, w).thread == Some(thread) && Get(s, w).activeTurn == Some(turn)
    requires turn < s.nextTurn && turn !in s.ended && forall k <- s.turns :: s.turns[k].turn != turn
    ensures Rest(s.(turns := s.turns[thread := Active(turn, Some(w))]))
  {
    var t := s.(turns := s.turns[thread := Active(turn, Some(w))]);
    SameLease(s, t);
    hide Leased, OpsOk, History, Exclusive, LockOk, Serves, WellFormed;
    AddTurnOps(s, thread, turn, w);
    AddTurnLock(s, thread, turn, w);
  }

  lemma SameLease(s: State, t: State)
    requires Leased(s) && t.pool == s.pool && t.lock == s.lock && t.ops == s.ops && t.stray == s.stray
    ensures Leased(t)
  {
    hide Serves;
  }

  lemma AddTurnOps(s: State, thread: ThreadId, turn: TurnId, w: WorkerId)
    requires OpsOk(s) && Exclusive(s) && thread !in s.turns && thread !in s.mutations
    ensures var t := s.(turns := s.turns[thread := Active(turn, Some(w))]); OpsOk(t) && Exclusive(t)
  {
    var t := s.(turns := s.turns[thread := Active(turn, Some(w))]);
    forall o <- t.ops ensures OpOk(t.ops[o], t.turns, t.mutations, t.pool.workers) {
      assert OpOk(s.ops[o], s.turns, s.mutations, s.pool.workers);
    }
  }

  lemma AddTurnLock(s: State, thread: ThreadId, turn: TurnId, w: WorkerId)
    requires LockOk(s)
    ensures LockOk(s.(turns := s.turns[thread := Active(turn, Some(w))]))
  {
    hide Serves;
  }

  // ---------------------------------------------------------------- turns end

  /** A running turn whose worker is available is looked up at exactly that worker. */
  lemma ActiveIsFound(s: State, thread: ThreadId)
    requires Core(s) && !s.stray && thread in s.turns && s.turns[thread].worker.Some?
    requires Available(Get(s, s.turns[thread].worker.value))
    ensures Find(s.pool, thread) == s.turns[thread].worker
    ensures s.turns[thread].worker.value in s.pool.members
  {
    var w := s.turns[thread].worker.value;
    assert TurnOk(thread, s.turns[thread], s.pool);
    HolderCounts(s, w);
    assert Balanced(Get(s, w), w in s.pool.members, !s.leaky, Holders(s, w));
    assert Serves(s.pool, w, thread);
    var r := Find(s.pool, thread);
    assert Serves(s.pool, r.value, thread);
  }

  /** No other turn runs on the worker of a running turn. */
  lemma TurnIsAlone(s: State, thread: ThreadId)
    requires TurnsOk(s.turns, s.pool) && thread in s.turns && s.turns[thread].worker.Some?
    ensures forall k <- s.turns :: k != thread ==> !Names(s.turns[k], s.turns[thread].worker.value)
  {
    assert forall k <- s.turns :: TurnOk(k, s.turns[k], s.pool);
  }

  /** Whatever terminal event arrives, on time, late or twice. */
  lemma SettlesKeeps(s: State, thread: ThreadId, turn: TurnId)
    requires Core(s)
    ensures Core(Settles(s, thread, turn))
  {
    if Settles(s, thread, turn) != s {
      var w := s.turns[thread].worker.value;
      assert TurnOk(thread, s.turns[thread], s.pool);
      assert s.stray ==> s.leaky;
      if Available(Get(s, w)) && !s.stray {
        ActiveIsFound(s, thread);
      }
      hide Core, Settles, Find;
      if Find(s.pool, thread) == Some(w) {
        SettledKeeps(s, thread, turn, w);
      } else {
        UnsettledKeeps(s, thread, turn, w);
      }
    }
  }

  lemma SettledKeeps(s: State, thread: ThreadId, turn: TurnId, w: WorkerId)
    requires Core(s) && thread in s.turns && s.turns[thread] == Active(turn, Some(w))
    requires Find(s.pool, thread) == Some(w) && !s.pool.stopped
    ensures Core(Settles(s, thread, turn))
  {
    hide Rest, Conserved, Find, FindFrom, Settles, Serves;
    SettledRest(s, thread, turn, w);
    SettledConserved(s, thread, turn, w);
  }

  lemma SettledRest(s: State, thread: ThreadId, turn: TurnId, w: WorkerId)
    requires Rest(s) && thread in s.turns && s.turns[thread] == Active(turn, Some(w))
    requires Find(s.pool, thread) == Some(w) && !s.pool.stopped
    ensures Rest(Settles(s, thread, turn))
  {
    TurnIsAlone(s, thread);
    assert Serves(s.pool, w, thread);
    hide Rest, Find, FindFrom, CleanupBegins;
    EndTurnRest(s, thread);
    var u := TurnEnded(s, thread);
    TweakUnturned(u, w);
    CleanupRest(Put(u, w, Get(u, w).(activeTurn := None)), thread, w);
  }

  lemma UnsettledKeeps(s: State, thread: ThreadId, turn: TurnId, w: WorkerId)
    requires Core(s) && thread in s.turns && s.turns[thread] == Active(turn, Some(w))
    requires w in s.pool.workers && (!Available(Get(s, w)) || s.leaky) && Find(s.pool, thread) != Some(w)
    ensures Core(Settles(s, thread, turn))
  {
    hide Rest, Conserved, Find, FindFrom;
    EndTurnRest(s, thread);
    UnsettledConserved(s, thread, turn, w);
  }

  lemma EndTurnRest(s: State, thread: ThreadId)
    requires Rest(s) && thread in s.turns && s.turns[thread].worker.Some?
    ensures Rest(TurnEnded(s, thread))
  {
    var t := TurnEnded(s, thread);
    SameLease(s, t);
    hide Leased, OpsOk, History, Exclusive, LockOk, Serves, WellFormed, TurnOk;
    EndTurnOps(s, thread);
    EndTurnLock(s, t);
  }

  lemma EndTurnOps(s: State, thread: ThreadId)
    requires OpsOk(s) && Exclusive(s) && thread in s.turns && s.turns[thread].worker.Some?
    ensures var t := TurnEnded(s, thread); OpsOk(t) && Exclusive(t)
  {
    var t := TurnEnded(s, thread);
    forall o <- t.ops ensures OpOk(t.ops[o], t.turns, t.mutations, t.pool.workers) {
      assert OpOk(s.ops[o], s.turns, s.mutations, s.pool.workers);
    }
  }

  lemma EndTurnLock(s: State, t: State)
    requires LockOk(s) && t.pool == s.pool && t.ops == s.ops && t.lock == s.lock
    ensures LockOk(t)
  {
    hide Serves;
  }

  lemma TweakUnturned(s: State, w: WorkerId)
    requires Rest(s) && w in s.pool.workers && forall k <- s.turns :: !Names(s.turns[k], w)
    requires Get(s, w).thread.Some?
    ensures Rest(Put(s, w, Get(s, w).(activeTurn := None)))
  {
    assert !Handles(s.lock, w);
    assert KnowsTurn(s, w, Get(s, w).(activeTurn := None));
    hide Rest, KnowsTurn;
    TweakRest(s, w, Get(s, w).(activeTurn := None));
  }

  /** The cleanup of a settled turn holds its worker from then on. */
  lemma CleanupRest(s: State, thread: ThreadId, w: WorkerId)
    requires Rest(s) && w in s.pool.workers
    ensures Rest(CleanupBegins(s, thread, w))
  {
    CleanupShape(s, thread, w);
    hide Shape, Leased, TurnsOk, OpsOk, History, Exclusive, LockOk, Serves, TurnNames, Heads, ServesLess;
    LeaseFrame(s, CleanupBegins(s, thread, w));
    CleanupOps(s, thread, w);
    CleanupLock(s, thread, w);
  }

  lemma CleanupShape(s: State, thread: ThreadId, w: WorkerId)
    requires Shape(s) && w in s.pool.workers
    ensures var t := CleanupBegins(s, thread, w);
      Shape(t) && Heads(t) == Heads(s) && ServesLess(s.pool, t.pool)
  {
  }

  lemma CleanupOps(s: State, thread: ThreadId, w: WorkerId)
    requires OpsOk(s) && Exclusive(s) && w in s.pool.workers
    ensures var t := CleanupBegins(s, thread, w);
      OpsOk(t) && Exclusive(t)
  {
    var t := CleanupBegins(s, thread, w);
    forall o <- t.ops ensures OpOk(t.ops[o], t.turns, t.mutations, t.pool.workers) {
      if o != s.nextOp {
        assert OpOk(s.ops[o], s.turns, s.mutations, s.pool.workers);
      }
    }
  }

  lemma CleanupLock(s: State, thread: ThreadId, w: WorkerId)
    requires LockOk(s) && Shape(s)
    ensures LockOk(CleanupBegins(s, thread, w))
  {
    hide Serves, WellFormed;
  }

  lemma SettledConserved(s: State, thread: ThreadId, turn: TurnId, w: WorkerId)
    requires Core(s) && thread in s.turns && s.turns[thread] == Active(turn, Some(w))
    requires Find(s.pool, thread) == Some(w) && !s.pool.stopped
    ensures Conserved(Settles(s, thread, turn))
  {
    assert s.nextOp !in s.ops && Balanced(Get(s, w), w in s.pool.members, !s.leaky, Holders(s, w));
    TurnlessBalance(Get(s, w), w in s.pool.members, !s.leaky, Holders(s, w));
    hide Rest, Conserved, Balanced, Holders, Find, FindFrom;
    var t := Settles(s, thread, turn);
    HoldersHandedOn(s, t, thread, w);
    ConservedOne(s, t, w, Get(t, w));
  }

  /** The turn's reservation passes to its cleanup. */
  lemma HoldersHandedOn(s: State, t: State, thread: ThreadId, w: WorkerId)
    requires thread in s.turns && Names(s.turns[thread], w) && s.nextOp !in s.ops
    requires t.turns == s.turns - {thread} && t.lock == s.lock
    requires t.ops == s.ops[s.nextOp := Holding(ForCleanup(thread), w, false)]
    ensures forall v :: Holders(t, v) == Holders(s, v)
  {
    OpsOnPut(s.ops, s.nextOp, Holding(ForCleanup(thread), w, false));
    TurnsOnDrop(s.turns, thread);
  }

  lemma TurnlessBalance(x: Worker, member: bool, exact: bool, holders: nat)
    requires Balanced(x, member, exact, holders)
    ensures Balanced(x.(activeTurn := None), member, exact, holders)
  {
  }

  /** A turn whose worker is gone, or not found, ends without giving anything back. */
  lemma UnsettledConserved(s: State, thread: ThreadId, turn: TurnId, w: WorkerId)
    requires Core(s) && thread in s.turns && s.turns[thread] == Active(turn, Some(w))
    requires !Available(Get(s, w)) || s.leaky
    ensures Conserved(TurnEnded(s, thread))
  {
    var t := TurnEnded(s, thread);
    TurnsOnDrop(s.turns, thread);
    assert forall v :: Holders(t, v) == Holders(s, v) - One(v == w);
    assert Balanced(Get(s, w), w in s.pool.members, !s.leaky, Holders(s, w));
    hide Holders;
    assert Balanced(Get(s, w), w in s.pool.members, !s.leaky, Holders(t, w));
    hide Balanced;
    assert s.pool.workers == s.pool.workers[w := Get(s, w)];
    ConservedOne(s, t, w, Get(s, w));
  }

  // ---------------------------------------------------------------- crashes and shutdown

  lemma DiesKeeps(s: State, w: WorkerId)
    requires Core(s) && w in s.pool.workers
    ensures Core(Put(s, w, Get(s, w).(state := Crashed)))
  {
    var y := Get(s, w).(state := Crashed);
    assert Balanced(Get(s, w), w in s.pool.members, !s.leaky, Holders(s, w));
    assert Balanced(y, w in s.pool.members, !s.leaky, Holders(s, w));
    TurnIsKnown(s, w);
    assert KnowsTurn(s, w, y);
    hide Rest, Conserved, Balanced, Holders, KnowsTurn;
    TweakKeeps(s, w, y);
  }

  lemma LostKeeps(s: State, w: WorkerId)
    requires Core(s) && w in s.pool.workers
    ensures Core(Leaves(Put(s, w, Get(s, w).(state := Crashed)), w))
  {
    hide Core;
    DiesKeeps(s, w);
    LeavesKeeps(Put(s, w, Get(s, w).(state := Crashed)), w);
  }

  lemma CrashKeeps(s: State, w: WorkerId)
    requires Core(s) && w in s.pool.workers
    ensures Core(Leaves(Put(s, w, Get(s, w).(state := Crashed, activeTurn := None)), w))
  {
    hide Core;
    LostKeeps(s, w);
    GoneForgets(Leaves(Put(s, w, Get(s, w).(state := Crashed)), w), w);
    CrashForm(s, w);
  }

  lemma CrashForm(s: State, w: WorkerId)
    requires w in s.pool.workers
    ensures var t, y := Leaves(Put(s, w, Get(s, w).(state := Crashed)), w), Get(s, w).(state := Crashed, activeTurn := None);
      Put(t, w, y) == Leaves(Put(s, w, y), w)
  {
    var x, y := Get(s, w).(state := Crashed), Get(s, w).(state := Crashed, activeTurn := None);
    assert s.pool.workers[w := x][w := y] == s.pool.workers[w := y];
  }

  /** A worker outside the pool need not know its turn any longer. */
  lemma GoneForgets(s: State, w: WorkerId)
    requires Core(s) && w in s.pool.workers && w !in s.pool.members
    ensures Core(Put(s, w, Get(s, w).(activeTurn := None)))
  {
    var y := Get(s, w).(activeTurn := None);
    assert Balanced(Get(s, w), w in s.pool.members, !s.leaky, Holders(s, w));
    TurnlessBalance(Get(s, w), w in s.pool.members, !s.leaky, Holders(s, w));
    assert KnowsTurn(s, w, y);
    assert s.lock.Spawning? && Handles(s.lock, w) ==> y.state == Starting || !Available(y);
    hide Rest, Conserved, Balanced, Holders, KnowsTurn;
    TweakKeeps(s, w, y);
  }

  /** Every worker of the pool is stopped at once. */
  lemma AllStoppedKeeps(s: State)
    requires Core(s) && s.lock == Free
    ensures Core(AllStopped(s))
  {
    hide Rest, Conserved;
    AllStoppedConserved(s);
    AllStoppedRest(s);
  }

  lemma AllStoppedConserved(s: State)
    requires Core(s) && s.lock == Free
    ensures Conserved(AllStopped(s))
  {
    var t := AllStopped(s);
    assert forall v :: Holders(t, v) == Holders(s, v);
    hide Holders, Rest;
    forall v <- t.pool.workers ensures Balanced(t.pool.workers[v], v in t.pool.members, !t.leaky, Holders(t, v)) {
      assert Balanced(s.pool.workers[v], v in s.pool.members, !s.leaky, Holders(s, v));
    }
  }

  lemma AllStoppedRest(s: State)
    requires Rest(s) && s.lock == Free
    ensures Rest(AllStopped(s))
  {
    var t := AllStopped(s);
    assert ServesLess(s.pool, t.pool);
    LeaseFrame(s, t);
    hide Leased, Serves, ServesLess;
    forall o <- t.ops ensures OpOk(t.ops[o], t.turns, t.mutations, t.pool.workers) {
      assert OpOk(s.ops[o], s.turns, s.mutations, s.pool.workers);
    }
    forall k <- t.turns ensures TurnOk(k, t.turns[k], t.pool) {
      assert TurnOk(k, s.turns[k], s.pool);
    }
  }

  /** Once everything has stopped the pool is emptied. */
  lemma EmptiedKeeps(s: State)
    requires Core(s) && s.lock == Stopping
    requires forall w <- s.pool.members :: w in s.pool.workers && !Available(Get(s, w))
    ensures Core(s.(pool := s.pool.(members := {}), lock := Free, drained := true))
  {
    var t := s.(pool := s.pool.(members := {}), lock := Free, drained := true);
    assert forall v :: Holders(t, v) == Holders(s, v);
    assert ServesLess(s.pool, t.pool);
    LeaseFrame(s, t);
    hide Holders, Serves, ServesLess, Leased, TurnNames, Exclusive, Recorded;
    assert OpsOk(t) by {
      hide OpOk;
    }
    forall k <- t.turns ensures TurnOk(k, t.turns[k], t.pool) {
      assert TurnOk(k, s.turns[k], s.pool);
    }
    forall v <- t.pool.workers ensures Balanced(t.pool.workers[v], v in t.pool.members, !t.leaky, Holders(t, v)) {
      assert Balanced(s.pool.workers[v], v in s.pool.members, !s.leaky, Holders(s, v));
    }
  }
}
