/** What every step of the scheduler keeps: reservations are accounted for, one worker
    serves a thread, active turns and mutations exclude each other. */
module SchedulerInv {
  import opened Common
  import opened Pools
  import opened Scheduler

  // ---------------------------------------------------------------- outstanding holders

  function One(b: bool): int {
    if b then 1 else 0
  }

  lemma OpsOnPut(ops: map<OpId, Op>, o: OpId, x: Op)
    ensures forall w :: |OpsOn(ops[o := x], w)| == |OpsOn(ops, w)| - One(o in ops && On(ops[o], w)) + One(On(x, w))
  {
    forall w
      ensures |OpsOn(ops[o := x], w)| == |OpsOn(ops, w)| - One(o in ops && On(ops[o], w)) + One(On(x, w))
    {
      var rest := OpsOn(ops, w) - {o};
      assert OpsOn(ops[o := x], w) == if On(x, w) then rest + {o} else rest;
      assert OpsOn(ops, w) == if o in ops && On(ops[o], w) then rest + {o} else rest;
    }
  }

  lemma OpsOnDrop(ops: map<OpId, Op>, o: OpId)
    requires o in ops
    ensures forall w :: |OpsOn(ops - {o}, w)| == |OpsOn(ops, w)| - One(On(ops[o], w))
  {
    forall w ensures |OpsOn(ops - {o}, w)| == |OpsOn(ops, w)| - One(On(ops[o], w)) {
      var rest := OpsOn(ops, w) - {o};
      assert OpsOn(ops - {o}, w) == rest;
      assert OpsOn(ops, w) == if On(ops[o], w) then rest + {o} else rest;
    }
  }

  lemma TurnsOnPut(turns: map<ThreadId, Active>, t: ThreadId, x: Active)
    ensures forall w ::
      |TurnsOn(turns[t := x], w)| == |TurnsOn(turns, w)| - One(t in turns && Names(turns[t], w)) + One(Names(x, w))
  {
    forall w
      ensures |TurnsOn(turns[t := x], w)| == |TurnsOn(turns, w)| - One(t in turns && Names(turns[t], w)) + One(Names(x, w))
    {
      var rest := TurnsOn(turns, w) - {t};
      assert TurnsOn(turns[t := x], w) == if Names(x, w) then rest + {t} else rest;
      assert TurnsOn(turns, w) == if t in turns && Names(turns[t], w) then rest + {t} else rest;
    }
  }

  lemma TurnsOnDrop(turns: map<ThreadId, Active>, t: ThreadId)
    requires t in turns
    ensures forall w :: |TurnsOn(turns - {t}, w)| == |TurnsOn(turns, w)| - One(Names(turns[t], w))
  {
    forall w ensures |TurnsOn(turns - {t}, w)| == |TurnsOn(turns, w)| - One(Names(turns[t], w)) {
      var rest := TurnsOn(turns, w) - {t};
      assert TurnsOn(turns - {t}, w) == rest;
      assert TurnsOn(turns, w) == if Names(turns[t], w) then rest + {t} else rest;
    }
  }

  /** What rewriting one operation and passing the mutex on do to the counts. */
  lemma HoldersOp(s: State, t: State, op: OpId)
    requires op in t.ops && t.ops == s.ops[op := t.ops[op]] && t.turns == s.turns
    ensures forall v: WorkerId :: Holders(t, v) == Holders(s, v)
              - One(op in s.ops && On(s.ops[op], v)) + One(On(t.ops[op], v))
              - One(InHand(s.lock) == Some(v)) + One(InHand(t.lock) == Some(v))
  {
    OpsOnPut(s.ops, op, t.ops[op]);
  }

  /** Someone who holds a worker is counted. */
  lemma HolderCounts(s: State, w: WorkerId)
    ensures forall o <- s.ops :: On(s.ops[o], w) ==> Holders(s, w) >= 1
    ensures forall t <- s.turns :: Names(s.turns[t], w) ==> Holders(s, w) >= 1
  {
    assert forall o <- s.ops :: On(s.ops[o], w) ==> o in OpsOn(s.ops, w);
    assert forall t <- s.turns :: Names(s.turns[t], w) ==> t in TurnsOn(s.turns, w);
  }

  // ---------------------------------------------------------------- the invariant

  /** The reservation count of one worker against its outstanding holders. */
  predicate Balanced(x: Worker, member: bool, exact: bool, holders: nat) {
    && holders <= x.reservations
    && (exact && member && Available(x) ==> x.reservations == holders)
    && (holders > 0 && Available(x) ==> member && !x.retiring)
    && (x.retiring ==> x.reservations == 0)
    && (member && x.thread == None ==> x.reservations <= 1)
  }

  ghost predicate Conserved(s: State) {
    forall w <- s.pool.workers :: Balanced(s.pool.workers[w], w in s.pool.members, !s.leaky, Holders(s, w))
  }

  /** At most one worker serves a thread. */
  ghost predicate Lease(p: Pool) {
    forall a, b, t :: Serves(p, a, t) && Serves(p, b, t) ==> a == b
  }

  /** A running turn's worker carries its thread and, until it leaves the pool, knows the turn. */
  predicate TurnOk(t: ThreadId, active: Active, p: Pool) {
    active.worker.Some? ==>
      && active.worker.value in p.workers
      && p.workers[active.worker.value].thread == Some(t)
      && (active.worker.value in p.members ==> p.workers[active.worker.value].activeTurn == Some(active.turn))
  }

  ghost predicate TurnsOk(turns: map<ThreadId, Active>, p: Pool) {
    forall t <- turns :: TurnOk(t, turns[t], p)
  }

  /** Turn names are new, distinct, and never those of an ended turn. */
  ghost predicate TurnNames(turns: map<ThreadId, Active>, ended: set<TurnId>, next: TurnId) {
    && (forall t <- turns :: turns[t].turn < next && turns[t].turn !in ended)
    && (forall t <- turns, u <- turns :: turns[t].turn == turns[u].turn ==> t == u)
    && (forall e <- ended :: e < next)
  }

  /** An operation's thread is reserved for it, and its worker is bound as it expects. */
  predicate OpOk(op: Op, turns: map<ThreadId, Active>, mutations: set<ThreadId>, workers: map<WorkerId, Worker>) {
    && (op.Holding? ==> op.worker in workers)
    && (op.purpose.ForCleanup? ==> op.Holding?)
    && match op.purpose
       case ForStart => op.Holding? ==> workers[op.worker].thread == None && workers[op.worker].claimed
       case ForModels => true
       case ForSend(thread, turn) =>
         && thread in turns && turns[thread] == Active(turn, None)
         && (op.Holding? ==> workers[op.worker].thread == Some(thread))
       case ForMutation(thread, forks) =>
         && thread in mutations
         && (op.Holding? && !op.published ==> workers[op.worker].thread == Some(thread))
         && (op.Holding? && op.published ==> workers[op.worker].thread.Some?)
       case ForRead(_) => true
       case ForCleanup(_) => true
  }

  ghost predicate OpsOk(s: State) {
    forall o <- s.ops :: OpOk(s.ops[o], s.turns, s.mutations, s.pool.workers)
  }

  /** The thread an operation has reserved for itself. */
  function Claims(p: Purpose): Option<ThreadId> {
    match p
    case ForSend(thread, _) => Some(thread)
    case ForMutation(thread, _) => Some(thread)
    case _ => None
  }

  /** No two operations reserve the same thread, and a send's thread is not being mutated. */
  ghost predicate Exclusive(s: State) {
    && s.turns.Keys !! s.mutations
    && (forall a <- s.ops, b <- s.ops ::
          Claims(s.ops[a].purpose).Some? && Claims(s.ops[a].purpose) == Claims(s.ops[b].purpose) ==> a == b)
  }

  ghost predicate Unserved(p: Pool, thread: Option<ThreadId>) {
    thread.Some? ==> forall w: WorkerId :: !Serves(p, w, thread.value)
  }

  /** No two workers serve a thread, and none serves the thread the mutex is about to hand out:
      unless a late report has broken this. */
  ghost predicate Leased(s: State) {
    !s.stray ==> Lease(s.pool) && Unserved(s.pool, Heads(s))
  }

  /** The operation may go on to get a worker: no worker serves its thread. */
  ghost predicate TargetFree(s: State, op: OpId) {
    op in s.ops && (!s.stray && !s.pool.stopped ==> Unserved(s.pool, ThreadOf(s.ops[op].purpose)))
  }

  /** The worker runs in the directory the operation asked for. */
  predicate Rooted(s: State, op: OpId, w: WorkerId) {
    op in s.ops && s.ops[op].Waiting? && w in s.pool.workers && Get(s, w).cwd == s.ops[op].cwd
  }

  /** The mutex is preparing this worker. */
  predicate Handles(lock: Lock, w: WorkerId) {
    (lock.Spawning? || lock.Switching?) && lock.worker == w
  }

  ghost predicate LockOk(s: State) {
    match s.lock
    case Spawning(w, job) =>
      && w in s.pool.workers
      && Get(s, w).thread == None && !Get(s, w).retiring
      && (Get(s, w).state == Starting || !Available(Get(s, w)))
      && Get(s, w).reservations == (if job.Selecting? then 1 else 0)
      && (job.Selecting? ==> Get(s, w).claimed && Rooted(s, job.op, w))
    case Switching(w, op) =>
      && w in s.pool.workers && Get(s, w).thread == None && Get(s, w).reservations == 1
      && Get(s, w).claimed && !Get(s, w).retiring && Rooted(s, op, w)
    case Retiring(w, next) =>
      && w in s.pool.workers && Get(s, w).retiring
      && (next.ToSpawn? || next.ToReplace? ==> |s.pool.members - {w}| < s.pool.options.maxWorkers)
    case _ => true
  }

  /** Without reuse across threads a worker is reserved for assignment at most once, and
      was never bound to a thread other than the one it carries. */
  predicate Dedicated(x: Worker) {
    && x.assignments == (if x.claimed then 1 else 0)
    && x.boundTo == (if x.thread.Some? then {x.thread.value} else {})
    && (x.thread.Some? ==> x.claimed)
  }

  predicate Recorded(options: Options, x: Worker) {
    && (x.thread.Some? ==> x.thread.value in x.boundTo)
    && (!options.reuseAcrossThreads ==> Dedicated(x))
  }

  ghost predicate History(p: Pool) {
    forall w <- p.workers :: Recorded(p.options, p.workers[w])
  }

  /** Everything but the counts. */
  ghost predicate Rest(s: State) {
    && Shape(s)
    && Leased(s)
    && TurnsOk(s.turns, s.pool)
    && TurnNames(s.turns, s.ended, s.nextTurn)
    && OpsOk(s)
    && Exclusive(s)
    && LockOk(s)
    && History(s.pool)
    && (s.stray ==> s.leaky)
  }

  ghost predicate Core(s: State) {
    Rest(s) && Conserved(s)
  }

  // ---------------------------------------------------------------- frames

  /** Fewer workers serving keeps the lease and every free target. */
  ghost predicate ServesLess(p: Pool, q: Pool) {
    forall w, t :: Serves(q, w, t) ==> Serves(p, w, t)
  }

  lemma LeaseFrame(s: State, t: State)
    requires Leased(s) && ServesLess(s.pool, t.pool) && t.stray == s.stray
    requires Heads(t) == Heads(s) || Heads(t) == None
    ensures Leased(t)
  {
    hide Serves, Heads;
  }

  lemma ConservedPut(s: State, t: State, w: WorkerId)
    requires Conserved(s) && w in t.pool.workers && t.leaky == s.leaky
    requires t.pool.workers.Keys == s.pool.workers.Keys + {w}
    requires forall v <- s.pool.workers | v != w ::
               && t.pool.workers[v] == s.pool.workers[v]
               && (v in t.pool.members <==> v in s.pool.members)
               && Holders(t, v) == Holders(s, v)
    requires Balanced(t.pool.workers[w], w in t.pool.members, !t.leaky, Holders(t, w))
    ensures Conserved(t)
  {
    hide Balanced, Holders;
  }

  lemma ConservedOne(s: State, t: State, w: WorkerId, y: Worker)
    requires Conserved(s) && w in s.pool.workers && t.leaky == s.leaky
    requires t.pool.workers == s.pool.workers[w := y] && t.pool.members == s.pool.members
    requires forall v: WorkerId :: v != w ==> Holders(t, v) == Holders(s, v)
    requires Balanced(y, w in s.pool.members, !s.leaky, Holders(t, w))
    ensures Conserved(t)
  {
    hide Balanced, Holders;
  }

  /** One worker changes but stays bound to its thread. */
  predicate SameBinding(x: Worker, y: Worker) {
    y.thread == x.thread && (x.claimed ==> y.claimed)
  }

  /** A record of the worker that knows the turn it is named by, as long as it is in the pool. */
  ghost predicate KnowsTurn(s: State, w: WorkerId, y: Worker) {
    forall t <- s.turns :: Names(s.turns[t], w) && w in s.pool.members ==> y.activeTurn == Some(s.turns[t].turn)
  }

  lemma TurnIsKnown(s: State, w: WorkerId)
    requires TurnsOk(s.turns, s.pool) && w in s.pool.workers
    ensures KnowsTurn(s, w, Get(s, w))
  {
    assert forall t <- s.turns :: TurnOk(t, s.turns[t], s.pool);
  }

  lemma TurnsPut(s: State, w: WorkerId, y: Worker)
    requires TurnsOk(s.turns, s.pool) && w in s.pool.workers && SameBinding(Get(s, w), y) && KnowsTurn(s, w, y)
    ensures TurnsOk(s.turns, Put(s, w, y).pool)
  {
    assert forall t <- s.turns :: TurnOk(t, s.turns[t], s.pool);
  }

  lemma OpsPut(s: State, t: State, w: WorkerId)
    requires OpsOk(s) && w in s.pool.workers && w in t.pool.workers
    requires t.pool.workers == s.pool.workers[w := t.pool.workers[w]]
    requires SameBinding(s.pool.workers[w], t.pool.workers[w])
    requires t.ops == s.ops && t.turns == s.turns && t.mutations == s.mutations
    ensures OpsOk(t)
  {
    forall o <- t.ops ensures OpOk(t.ops[o], t.turns, t.mutations, t.pool.workers) {
      assert OpOk(s.ops[o], s.turns, s.mutations, s.pool.workers);
    }
  }

  lemma HistoryPut(p: Pool, q: Pool, w: WorkerId)
    requires History(p) && q.options == p.options && w in q.workers
    requires q.workers.Keys == p.workers.Keys + {w} && forall v <- p.workers | v != w :: q.workers[v] == p.workers[v]
    requires Recorded(q.options, q.workers[w])
    ensures History(q)
  {
    hide Recorded;
  }

  // ---------------------------------------------------------------- what keeps it: workers

  /** Same binding and history; never back from the dead. */
  predicate Tweaks(x: Worker, y: Worker) {
    && y.thread == x.thread && y.claimed == x.claimed && y.retiring == x.retiring && y.cwd == x.cwd
    && y.assignments == x.assignments && y.boundTo == x.boundTo
    && (Available(y) ==> Available(x)) && (y.state == Starting ==> x.state == Starting)
  }

  lemma TweakServes(s: State, w: WorkerId, y: Worker)
    requires w in s.pool.workers && Tweaks(Get(s, w), y)
    ensures ServesLess(s.pool, Put(s, w, y).pool)
    ensures Heads(Put(s, w, y)) == Heads(s) || Heads(Put(s, w, y)) == None
  {
  }

  lemma ShapePut(s: State, w: WorkerId, y: Worker)
    requires Shape(s) && w in s.pool.workers
    ensures Shape(Put(s, w, y))
  {
    hide Works, InHand;
  }

  lemma ConservedTweak(s: State, w: WorkerId, y: Worker)
    requires Conserved(s) && w in s.pool.workers && Balanced(y, w in s.pool.members, !s.leaky, Holders(s, w))
    ensures Conserved(Put(s, w, y))
  {
    hide Balanced;
    var t := Put(s, w, y);
    assert forall v :: Holders(t, v) == Holders(s, v);
    ConservedPut(s, t, w);
  }

  lemma TweakRest(s: State, w: WorkerId, y: Worker)
    requires Rest(s) && w in s.pool.workers && Tweaks(Get(s, w), y) && KnowsTurn(s, w, y)
    requires Handles(s.lock, w) ==>
               y.reservations == Get(s, w).reservations && (s.lock.Spawning? ==> y.state == Starting || !Available(y))
    ensures Rest(Put(s, w, y))
  {
    hide Shape, Leased, TurnsOk, OpsOk, History, TurnNames, Exclusive, LockOk, Serves, ServesLess, Heads;
    var t := Put(s, w, y);
    ShapePut(s, w, y);
    TweakServes(s, w, y);
    LeaseFrame(s, t);
    TurnsPut(s, w, y);
    OpsPut(s, t, w);
    RecordOf(s.pool, w);
    HistoryPut(s.pool, t.pool, w);
    LockTweak(s, t, w);
    ExclusiveSame(s, t);
  }

  lemma TweakKeeps(s: State, w: WorkerId, y: Worker)
    requires Core(s) && w in s.pool.workers && Tweaks(Get(s, w), y) && KnowsTurn(s, w, y)
    requires Balanced(y, w in s.pool.members, !s.leaky, Holders(s, w))
    requires Handles(s.lock, w) ==>
               y.reservations == Get(s, w).reservations && (s.lock.Spawning? ==> y.state == Starting || !Available(y))
    ensures Core(Put(s, w, y))
  {
    hide Rest, Conserved, Balanced, Holders;
    TweakRest(s, w, y);
    ConservedTweak(s, w, y);
  }

  lemma RecordOf(p: Pool, w: WorkerId)
    requires History(p) && w in p.workers
    ensures Recorded(p.options, p.workers[w])
  {
  }

  lemma ExclusiveSame(s: State, t: State)
    requires Exclusive(s) && t.ops == s.ops && t.turns == s.turns && t.mutations == s.mutations
    ensures Exclusive(t)
  {
  }

  lemma LockTweak(s: State, t: State, w: WorkerId)
    requires LockOk(s) && w in s.pool.workers && w in t.pool.workers && t.lock == s.lock && t.ops == s.ops
    requires t.pool.workers == s.pool.workers[w := t.pool.workers[w]] && t.pool.members == s.pool.members
    requires Tweaks(Get(s, w), Get(t, w)) && t.pool.options == s.pool.options
    requires Handles(s.lock, w) ==>
               && Get(t, w).reservations == Get(s, w).reservations
               && (s.lock.Spawning? ==> Get(t, w).state == Starting || !Available(Get(t, w)))
    ensures LockOk(t)
  {
    hide Serves;
  }

  /** Timers, counters and the catalog's answers do not matter here. */
  lemma IrrelevantKeeps(s: State, t: State)
    requires Core(s) && Resembles(s, t)
    ensures Core(t)
  {
    assert forall v :: Holders(t, v) == Holders(s, v);
    ConservedSame(s, t);
    hide Conserved, Rest;
    IrrelevantRest(s, t);
  }

  predicate Resembles(s: State, t: State) {
    && t.pool.workers == s.pool.workers && t.pool.members == s.pool.members
    && t.pool.nextWorker == s.pool.nextWorker && t.pool.options == s.pool.options
    && t.lock == s.lock && t.turns == s.turns && t.mutations == s.mutations && t.ops == s.ops
    && t.nextOp == s.nextOp && t.nextTurn == s.nextTurn && t.ended == s.ended
    && t.stray == s.stray && t.leaky == s.leaky && (s.pool.stopped ==> t.pool.stopped)
  }

  lemma IrrelevantRest(s: State, t: State)
    requires Rest(s) && Resembles(s, t)
    ensures Rest(t)
  {
    hide Shape, Leased, TurnsOk, OpsOk, History, TurnNames, Exclusive, LockOk, Serves, ServesLess, Heads;
    IrrelevantLease(s, t);
    IrrelevantParts(s, t);
    IrrelevantTurns(s, t);
    ExclusiveSame(s, t);
  }

  lemma IrrelevantLease(s: State, t: State)
    requires Leased(s) && Resembles(s, t)
    ensures Leased(t)
  {
    assert ServesLess(s.pool, t.pool);
    assert Heads(t) == Heads(s) || Heads(t) == None;
    LeaseFrame(s, t);
  }

  lemma IrrelevantTurns(s: State, t: State)
    requires TurnsOk(s.turns, s.pool) && OpsOk(s) && History(s.pool) && Resembles(s, t)
    ensures TurnsOk(t.turns, t.pool) && OpsOk(t) && History(t.pool)
  {
    hide OpOk, Recorded;
  }

  lemma IrrelevantParts(s: State, t: State)
    requires Shape(s) && LockOk(s) && Resembles(s, t)
    ensures Shape(t) && LockOk(t)
  {
  }

  /** The mutex passes on, without a reserved worker on either side. */
  lemma UnlockKeeps(s: State)
    requires Core(s) && InHand(s.lock) == None
    ensures Core(Unlocked(s))
  {
    hide Rest, Conserved;
    assert forall v :: Holders(Unlocked(s), v) == Holders(s, v);
    ConservedSame(s, Unlocked(s));
    UnlockRest(s);
  }

  lemma UnlockRest(s: State)
    requires Rest(s)
    ensures Rest(Unlocked(s))
  {
    assert Shape(Unlocked(s));
    RelockRest(s, Free);
  }

  /** Only the mutex moves on. */
  lemma RelockRest(s: State, lock: Lock)
    requires Rest(s) && Shape(s.(lock := lock)) && LockOk(s.(lock := lock))
    requires Heads(s.(lock := lock)) == Heads(s) || Heads(s.(lock := lock)) == None
    ensures Rest(s.(lock := lock))
  {
    hide Shape, Leased, TurnsOk, TurnNames, OpOk, Exclusive, LockOk, History, Heads;
    var t := s.(lock := lock);
    LeaseFrame(s, t);
    ExclusiveSame(s, t);
  }

  /** A worker that is dead or retiring may leave the pool. */
  lemma LeavesKeeps(s: State, w: WorkerId)
    requires Core(s) && w in s.pool.workers && (!Available(Get(s, w)) || Get(s, w).retiring)
    ensures Core(Leaves(s, w))
  {
    hide Rest, Conserved;
    LeavesRest(s, w);
    LeavesConserved(s, w);
  }

  lemma LeavesRest(s: State, w: WorkerId)
    requires Rest(s)
    ensures Rest(Leaves(s, w))
  {
    LeavesTurns(s, w);
    hide Shape, Leased, TurnsOk, OpsOk, History, TurnNames, Exclusive, LockOk, Serves, ServesLess, Heads;
    var t := Leaves(s, w);
    LeavesParts(s, w);
    LeaseFrame(s, t);
    LeavesLock(s, w);
    LeavesOps(s, w);
    ExclusiveSame(s, t);
  }

  lemma LeavesParts(s: State, w: WorkerId)
    requires Shape(s)
    ensures ServesLess(s.pool, Leaves(s, w).pool) && Shape(Leaves(s, w)) && Heads(Leaves(s, w)) == Heads(s)
  {
    hide Works, InHand;
  }

  lemma LeavesTurns(s: State, w: WorkerId)
    requires TurnsOk(s.turns, s.pool)
    ensures TurnsOk(s.turns, Leaves(s, w).pool)
  {
    assert forall t <- s.turns :: TurnOk(t, s.turns[t], s.pool);
  }

  lemma LeavesLock(s: State, w: WorkerId)
    requires LockOk(s)
    ensures LockOk(Leaves(s, w))
  {
    if s.lock.Retiring? {
      FewerAre(s.pool.members - {w} - {s.lock.worker}, s.pool.members - {s.lock.worker});
    }
  }

  lemma FewerAre(a: set<WorkerId>, b: set<WorkerId>)
    requires a <= b
    ensures |a| <= |b|
  {
    if a != {} {
      var x :| x in a;
      FewerAre(a - {x}, b - {x});
    }
  }

  lemma LeavesConserved(s: State, w: WorkerId)
    requires Conserved(s) && w in s.pool.workers && (!Available(Get(s, w)) || Get(s, w).retiring)
    ensures Conserved(Leaves(s, w))
  {
    var t := Leaves(s, w);
    assert forall v :: Holders(t, v) == Holders(s, v);
    hide Holders;
    assert Balanced(Get(s, w), w in s.pool.members, !s.leaky, Holders(s, w));
    ConservedPut(s, t, w);
  }

  lemma LeavesOps(s: State, w: WorkerId)
    requires OpsOk(s) && History(s.pool)
    ensures OpsOk(Leaves(s, w)) && History(Leaves(s, w).pool)
  {
    hide OpOk, Recorded;
  }

  // ---------------------------------------------------------------- operations come and go

  lemma ConservedSame(s: State, t: State)
    requires Conserved(s) && t.pool.workers == s.pool.workers && t.pool.members == s.pool.members && t.leaky == s.leaky
    requires forall v :: Holders(t, v) == Holders(s, v)
    ensures Conserved(t)
  {
    hide Holders, Balanced;
  }

  /** An operation gives up what it had reserved, and from then on expects nothing. */
  function Disowned(s: State, op: OpId): State
    requires op in s.ops
  {
    Unclaimed(s, s.ops[op].purpose).(ops := s.ops[op := s.ops[op].(purpose := ForModels)])
  }

  lemma DisownKeeps(s: State, op: OpId)
    requires Core(s) && op in s.ops && !Works(s.lock, op)
    ensures Core(Disowned(s, op))
  {
    assert OpsOk(s);
    hide Rest, Conserved, OpsOk;
    DisownHolders(s, op);
    ConservedSame(s, Disowned(s, op));
    DisownRest(s, op);
  }

  lemma DisownRest(s: State, op: OpId)
    requires Rest(s) && op in s.ops && !Works(s.lock, op)
    ensures Rest(Disowned(s, op))
  {
    hide Shape, Leased, TurnsOk, OpsOk, History, TurnNames, Exclusive, LockOk, Serves, ServesLess, Heads, Works;
    DisownShape(s, op);
    LeaseFrame(s, Disowned(s, op));
    DisownTurns(s, op);
    DisownOps(s, op);
    DisownLock(s, op);
  }

  lemma DisownShape(s: State, op: OpId)
    requires Shape(s) && op in s.ops && !Works(s.lock, op)
    ensures Shape(Disowned(s, op)) && Heads(Disowned(s, op)) == Heads(s)
    ensures ServesLess(s.pool, Disowned(s, op).pool)
  {
  }

  lemma DisownHolders(s: State, op: OpId)
    requires OpsOk(s) && op in s.ops
    ensures forall v :: Holders(Disowned(s, op), v) == Holders(s, v)
  {
    var p, t := s.ops[op].purpose, Disowned(s, op);
    assert OpOk(s.ops[op], s.turns, s.mutations, s.pool.workers);
    assert t.turns == if p.ForSend? then s.turns - {p.thread} else s.turns;
    OpsOnPut(s.ops, op, s.ops[op].(purpose := ForModels));
    hide OpsOk, OpsOn, TurnsOn, Disowned;
    if p.ForSend? {
      TurnsOnDrop(s.turns, p.thread);
    }
  }

  lemma DisownTurns(s: State, op: OpId)
    requires TurnsOk(s.turns, s.pool) && TurnNames(s.turns, s.ended, s.nextTurn) && op in s.ops
    ensures var t := Disowned(s, op); TurnsOk(t.turns, t.pool) && TurnNames(t.turns, t.ended, t.nextTurn)
  {
    hide TurnOk;
  }

  lemma DisownOps(s: State, op: OpId)
    requires OpsOk(s) && Exclusive(s) && op in s.ops
    ensures OpsOk(Disowned(s, op)) && Exclusive(Disowned(s, op))
  {
    var t := Disowned(s, op);
    forall o <- t.ops ensures OpOk(t.ops[o], t.turns, t.mutations, t.pool.workers) {
      assert OpOk(s.ops[o], s.turns, s.mutations, s.pool.workers);
      assert o != op && Claims(s.ops[o].purpose).Some? ==> Claims(s.ops[o].purpose) != Claims(s.ops[op].purpose);
    }
  }

  lemma DisownLock(s: State, op: OpId)
    requires LockOk(s) && op in s.ops && !Works(s.lock, op)
    ensures LockOk(Disowned(s, op))
  {
    hide Serves;
  }

  /** An operation with nothing reserved disappears. */
  lemma DropRest(s: State, op: OpId)
    requires Rest(s) && op in s.ops && !Works(s.lock, op) && s.ops[op].purpose.ForModels?
    ensures Rest(s.(ops := s.ops - {op}))
  {
    var t := s.(ops := s.ops - {op});
    DropShape(s, op);
    hide Shape, Leased, TurnsOk, OpsOk, History, TurnNames, Exclusive, LockOk, Serves, ServesLess, Heads, Works;
    LeaseFrame(s, t);
    DropOps(s, op);
    DropLock(s, op);
  }

  lemma DropShape(s: State, op: OpId)
    requires Shape(s) && op in s.ops && !Works(s.lock, op)
    ensures var t := s.(ops := s.ops - {op}); Shape(t) && Heads(t) == Heads(s) && ServesLess(s.pool, t.pool)
  {
  }

  lemma DropOps(s: State, op: OpId)
    requires OpsOk(s) && Exclusive(s) && op in s.ops
    ensures OpsOk(s.(ops := s.ops - {op})) && Exclusive(s.(ops := s.ops - {op}))
  {
    hide OpOk;
  }

  lemma DropLock(s: State, op: OpId)
    requires LockOk(s) && op in s.ops && !Works(s.lock, op)
    ensures LockOk(s.(ops := s.ops - {op}))
  {
    hide Serves;
  }

  lemma RefusedKeeps(s: State, op: OpId)
    requires Core(s) && Waits(s, op) && !Works(s.lock, op)
    ensures Core(Refused(s, op))
  {
    hide Rest, Conserved;
    var d := Disowned(s, op);
    DisownKeeps(s, op);
    DropRest(d, op);
    OpsOnDrop(d.ops, op);
    ConservedSame(d, d.(ops := d.ops - {op}));
    assert d.ops - {op} == s.ops - {op};
  }

  // ---------------------------------------------------------------- giving back

  /** A reservation is returned together with the operation that held it. */
  lemma GivesBackKeeps(s: State, op: OpId, now: nat)
    requires Core(s) && Holds(s, op) && s.ops[op].purpose.ForModels?
    ensures Core(GivesBack(s, op, now)) && Get(s, s.ops[op].worker).reservations >= 1
  {
    hide Rest, Conserved, Balanced, Holders;
    var w := s.ops[op].worker;
    var y := Released(Get(s, w), now);
    HoldingIsCounted(s, op);
    ReleasedBalance(Get(s, w), w in s.pool.members, !s.leaky, Holders(s, w), now);
    GivesBackConserved(s, op, now);
    GivesBackRest(s, op, now);
  }

  lemma HoldingIsCounted(s: State, op: OpId)
    requires Core(s) && Holds(s, op)
    ensures var w := s.ops[op].worker; Holders(s, w) >= 1 && Balanced(Get(s, w), w in s.pool.members, !s.leaky, Holders(s, w))
    ensures !Works(s.lock, op) && !Handles(s.lock, s.ops[op].worker)
  {
    HolderCounts(s, s.ops[op].worker);
    if s.lock.Spawning? || s.lock.Switching? {
      HandIsAlone(s);
    }
    hide Balanced, Holders;
  }

  /** Nobody else holds the worker the mutex is preparing. */
  lemma HandIsAlone(s: State)
    requires Core(s) && (s.lock.Spawning? || s.lock.Switching?)
    ensures forall o <- s.ops :: !On(s.ops[o], s.lock.worker)
    ensures forall t <- s.turns :: !Names(s.turns[t], s.lock.worker)
  {
    var w := s.lock.worker;
    assert Balanced(Get(s, w), w in s.pool.members, !s.leaky, Holders(s, w));
    assert |OpsOn(s.ops, w)| == 0 && |TurnsOn(s.turns, w)| == 0;
    assert forall o <- s.ops :: On(s.ops[o], w) ==> o in OpsOn(s.ops, w);
    assert forall t <- s.turns :: Names(s.turns[t], w) ==> t in TurnsOn(s.turns, w);
  }

  lemma ReleasedBalance(x: Worker, member: bool, exact: bool, h: nat, now: nat)
    requires Balanced(x, member, exact, h) && h >= 1
    ensures Balanced(Released(x, now), member, exact, h - 1) && Tweaks(x, Released(x, now)) && x.reservations >= 1
    ensures Released(x, now).state == Starting ==> x.state == Starting
  {
  }

  lemma GivesBackConserved(s: State, op: OpId, now: nat)
    requires Conserved(s) && Holds(s, op) && Holders(s, s.ops[op].worker) >= 1
    requires Balanced(Released(Get(s, s.ops[op].worker), now), s.ops[op].worker in s.pool.members, !s.leaky, Holders(s, s.ops[op].worker) - 1)
    ensures Conserved(GivesBack(s, op, now))
  {
    OpsOnDrop(s.ops, op);
    hide Balanced, Released;
    ConservedPut(s, GivesBack(s, op, now), s.ops[op].worker);
  }

  lemma GivesBackRest(s: State, op: OpId, now: nat)
    requires Rest(s) && Holds(s, op) && s.ops[op].purpose.ForModels? && !Works(s.lock, op)
    requires Tweaks(Get(s, s.ops[op].worker), Released(Get(s, s.ops[op].worker), now))
    requires !Handles(s.lock, s.ops[op].worker)
    ensures Rest(GivesBack(s, op, now))
  {
    var w := s.ops[op].worker;
    var y := Released(Get(s, w), now);
    TurnIsKnown(s, w);
    assert KnowsTurn(s, w, y);
    hide Rest, Released, KnowsTurn;
    TweakRest(s, w, y);
    DropRest(Put(s, w, y), op);
  }

  // ---------------------------------------------------------------- getting a worker

  /** Writing an operation without changing its purpose. */
  lemma PutOpRest(s: State, op: OpId, x: Op)
    requires Rest(s) && op in s.ops && !Works(s.lock, op) && x.purpose == s.ops[op].purpose
    requires OpOk(x, s.turns, s.mutations, s.pool.workers)
    ensures Rest(s.(ops := s.ops[op := x]))
  {
    PutOpShape(s, op, x);
    hide Shape, Leased, TurnsOk, History, TurnNames, LockOk, OpsOk, Exclusive, Serves, ServesLess, Heads, OpOk, Works;
    var t := s.(ops := s.ops[op := x]);
    LeaseFrame(s, t);
    PutOpOps(s, op, x);
    PutOpLock(s, op, x);
  }

  lemma PutOpShape(s: State, op: OpId, x: Op)
    requires Shape(s) && op in s.ops && !Works(s.lock, op)
    requires OpOk(x, s.turns, s.mutations, s.pool.workers) && x.purpose == s.ops[op].purpose
    ensures var t := s.(ops := s.ops[op := x]); Shape(t) && Heads(t) == Heads(s) && ServesLess(s.pool, t.pool)
  {
  }

  lemma PutOpOps(s: State, op: OpId, x: Op)
    requires OpsOk(s) && Exclusive(s) && op in s.ops && x.purpose == s.ops[op].purpose
    requires OpOk(x, s.turns, s.mutations, s.pool.workers)
    ensures OpsOk(s.(ops := s.ops[op := x])) && Exclusive(s.(ops := s.ops[op := x]))
  {
    hide OpOk;
  }

  lemma PutOpLock(s: State, op: OpId, x: Op)
    requires LockOk(s) && op in s.ops && !Works(s.lock, op) && x.purpose == s.ops[op].purpose
    ensures LockOk(s.(ops := s.ops[op := x]))
  {
    hide Serves;
  }

  /** The worker an operation has been granted, and what it then expects of it. */
  function GrantedWorker(p: Purpose, x: Worker): Worker {
    if p.ForMutation? then x.(state := Running) else x
  }

  predicate Suits(p: Purpose, x: Worker) {
    match p
    case ForStart => x.thread == None && x.claimed
    case ForModels => true
    case ForSend(thread, _) => x.thread == Some(thread)
    case ForMutation(thread, _) => x.thread == Some(thread)
    case ForRead(_) => true
    case ForCleanup(_) => true
  }

  lemma GrantRest(s: State, op: OpId, w: WorkerId)
    requires Rest(s) && Waits(s, op) && !Works(s.lock, op) && w in s.pool.workers && !Handles(s.lock, w)
    requires Available(Get(s, w)) && Suits(s.ops[op].purpose, Get(s, w))
    ensures Rest(Granted(s, op, w))
  {
    var p := s.ops[op].purpose;
    assert OpOk(s.ops[op], s.turns, s.mutations, s.pool.workers);
    assert OpOk(Holding(p, w, false), s.turns, s.mutations, s.pool.workers);
    TurnIsKnown(s, w);
    var t := s.(ops := s.ops[op := Holding(p, w, false)]);
    assert KnowsTurn(t, w, Get(s, w).(state := Running));
    hide Rest, OpOk, Suits, KnowsTurn;
    PutOpRest(s, op, Holding(p, w, false));
    if p.ForMutation? {
      TweakRest(t, w, Get(s, w).(state := Running));
    }
  }

  /** A worker that serves the operation's thread gets one more reservation. */
  lemma RetainKeeps(s: State, op: OpId, w: WorkerId)
    requires Core(s) && Waits(s, op) && !Works(s.lock, op)
    requires ThreadOf(s.ops[op].purpose).Some? && Serves(s.pool, w, ThreadOf(s.ops[op].purpose).value)
    requires !s.ops[op].purpose.ForCleanup?
    ensures Core(Granted(Put(s, w, Retained(Get(s, w))), op, w))
  {
    var x := Get(s, w);
    var t := Put(s, w, Retained(x));
    assert Balanced(x, true, !s.leaky, Holders(s, w));
    assert Balanced(GrantedWorker(s.ops[op].purpose, Retained(x)), true, !s.leaky, Holders(s, w) + 1);
    assert !Handles(s.lock, w);
    TurnIsKnown(s, w);
    assert KnowsTurn(s, w, Retained(x));
    hide Rest, Conserved, Balanced, Holders, KnowsTurn;
    TweakRest(s, w, Retained(x));
    GrantRest(t, op, w);
    RetainConserved(s, op, w);
  }

  lemma GrantedFields(s: State, op: OpId, w: WorkerId)
    requires op in s.ops && w in s.pool.workers
    ensures var t, p := Granted(s, op, w), s.ops[op].purpose;
      && t.ops == s.ops[op := Holding(p, w, false)] && t.turns == s.turns && t.lock == s.lock && t.leaky == s.leaky
      && t.pool == s.pool.(workers := s.pool.workers[w := GrantedWorker(p, Get(s, w))])
  {
    assert s.pool.workers[w := Get(s, w)] == s.pool.workers;
  }

  lemma ConservedGrant(s: State, t: State, op: OpId, w: WorkerId, y: Worker)
    requires Conserved(s) && w in s.pool.workers && Waits(s, op) && t.leaky == s.leaky
    requires t.pool.workers == s.pool.workers[w := y] && t.pool.members == s.pool.members
    requires op in t.ops && t.ops == s.ops[op := t.ops[op]] && t.turns == s.turns && On(t.ops[op], w)
    requires t.lock == s.lock || (InHand(s.lock) == Some(w) && t.lock == Free)
    requires Balanced(y, w in s.pool.members, !s.leaky, Holders(s, w) + 1 - One(InHand(s.lock) == Some(w) && t.lock == Free))
    ensures Conserved(t)
  {
    HoldersOp(s, t, op);
    hide Holders, Balanced;
    ConservedOne(s, t, w, y);
  }

  lemma RetainConserved(s: State, op: OpId, w: WorkerId)
    requires Conserved(s) && Waits(s, op) && w in s.pool.workers
    requires Balanced(GrantedWorker(s.ops[op].purpose, Retained(Get(s, w))), w in s.pool.members, !s.leaky, Holders(s, w) + 1)
    ensures Conserved(Granted(Put(s, w, Retained(Get(s, w))), op, w))
  {
    var r := Put(s, w, Retained(Get(s, w)));
    GrantedFields(r, op, w);
    hide Granted, Balanced;
    var y := GrantedWorker(s.ops[op].purpose, Retained(Get(s, w)));
    assert r.pool.workers[w := y] == s.pool.workers[w := y];
    ConservedGrant(s, Granted(r, op, w), op, w, y);
  }

  /** The reserved worker is handed to the operation the mutex works for. */
  lemma HandOver(s: State, w: WorkerId, op: OpId, y: Worker)
    requires Core(s) && InHand(s.lock) == Some(w) && Works(s.lock, op) && w in s.pool.workers
    requires Available(y) && Available(Get(s, w)) && y.reservations == Get(s, w).reservations
    requires y.retiring == Get(s, w).retiring
    requires Rest(Put(Unlocked(s), w, y)) && Waits(s, op) && Suits(s.ops[op].purpose, y)
    ensures Core(Unlocked(Granted(Put(s, w, y), op, w)))
  {
    assert Balanced(Get(s, w), w in s.pool.members, !s.leaky, Holders(s, w));
    assert Balanced(GrantedWorker(s.ops[op].purpose, y), w in s.pool.members, !s.leaky, Holders(s, w)) by {
      assert Holders(s, w) >= 1;
      assert Get(s, w).reservations == 1;
    }
    hide Rest, Conserved, Balanced, Holders, Suits;
    GrantRest(Put(Unlocked(s), w, y), op, w);
    HandOverConserved(s, w, op, y);
  }

  lemma HandOverConserved(s: State, w: WorkerId, op: OpId, y: Worker)
    requires Conserved(s) && InHand(s.lock) == Some(w) && Waits(s, op) && w in s.pool.workers
    requires Balanced(GrantedWorker(s.ops[op].purpose, y), w in s.pool.members, !s.leaky, Holders(s, w))
    ensures Conserved(Unlocked(Granted(Put(s, w, y), op, w)))
  {
    var r := Put(s, w, y);
    GrantedFields(r, op, w);
    hide Granted, Balanced;
    var z := GrantedWorker(s.ops[op].purpose, y);
    assert r.pool.workers[w := z] == s.pool.workers[w := z];
    ConservedGrant(s, Unlocked(Granted(r, op, w)), op, w, z);
  }

  // ---------------------------------------------------------------- binding a thread

  /** The operation does not mind what thread its worker carries. */
  predicate Indifferent(op: Op) {
    op.purpose.ForModels? || op.purpose.ForRead? || op.purpose.ForCleanup? || (op.purpose.ForMutation? && op.Holding? && op.published)
  }

  /** Nobody serves the thread or is about to. */
  ghost predicate Clear(s: State, thread: ThreadId) {
    !s.stray ==> Unserved(s.pool, Some(thread)) && Heads(s) != Some(thread)
  }

  ghost predicate Bindable(s: State, w: WorkerId, thread: ThreadId) {
    && w in s.pool.workers && !Handles(s.lock, w)
    && Clear(s, thread)
    && (forall k <- s.turns :: !Names(s.turns[k], w))
    && (forall o <- s.ops :: On(s.ops[o], w) ==> Indifferent(s.ops[o]))
    && (!s.pool.options.reuseAcrossThreads ==> Get(s, w).thread == None && Get(s, w).claimed)
  }

  lemma BindRest(s: State, w: WorkerId, thread: ThreadId)
    requires Rest(s) && Bindable(s, w, thread)
    ensures Rest(Put(s, w, Bound(Get(s, w), thread)))
  {
    hide Shape, Leased, TurnsOk, OpsOk, History, TurnNames, Exclusive, LockOk, Serves;
    var t := Put(s, w, Bound(Get(s, w), thread));
    ShapePut(s, w, Get(t, w));
    BindLease(s, w, thread);
    BindTurns(s, w, thread);
    BindOps(s, w, thread);
    RecordOf(s.pool, w);
    HistoryPut(s.pool, t.pool, w);
    BindLock(s, w, thread);
    ExclusiveSame(s, t);
  }

  lemma BindLease(s: State, w: WorkerId, thread: ThreadId)
    requires Leased(s) && Bindable(s, w, thread)
    ensures Leased(Put(s, w, Bound(Get(s, w), thread)))
  {
    var u := Put(s, w, Bound(Get(s, w), thread));
    assert forall v, k :: Serves(u.pool, v, k) ==> if v == w then k == thread else Serves(s.pool, v, k);
    assert Heads(u) == Heads(s);
    hide Serves, Heads;
  }

  lemma BindTurns(s: State, w: WorkerId, thread: ThreadId)
    requires TurnsOk(s.turns, s.pool) && Bindable(s, w, thread)
    ensures TurnsOk(s.turns, Put(s, w, Bound(Get(s, w), thread)).pool)
  {
    assert forall t <- s.turns :: TurnOk(t, s.turns[t], s.pool);
  }

  lemma BindOps(s: State, w: WorkerId, thread: ThreadId)
    requires OpsOk(s) && Bindable(s, w, thread)
    ensures OpsOk(Put(s, w, Bound(Get(s, w), thread)))
  {
    var t := Put(s, w, Bound(Get(s, w), thread));
    forall o <- t.ops ensures OpOk(t.ops[o], t.turns, t.mutations, t.pool.workers) {
      assert OpOk(s.ops[o], s.turns, s.mutations, s.pool.workers);
      assert On(s.ops[o], w) ==> Indifferent(s.ops[o]);
    }
  }

  lemma BindLock(s: State, w: WorkerId, thread: ThreadId)
    requires Shape(s) && LockOk(s) && Bindable(s, w, thread)
    ensures LockOk(Put(s, w, Bound(Get(s, w), thread)))
  {
    hide Serves, Heads, WellFormed;
  }

  lemma BindKeeps(s: State, w: WorkerId, thread: ThreadId)
    requires Core(s) && Bindable(s, w, thread)
    ensures Core(Put(s, w, Bound(Get(s, w), thread)))
  {
    assert Balanced(Get(s, w), w in s.pool.members, !s.leaky, Holders(s, w));
    assert Balanced(Bound(Get(s, w), thread), w in s.pool.members, !s.leaky, Holders(s, w));
    hide Rest, Conserved, Balanced, Holders, Bindable;
    BindRest(s, w, thread);
    ConservedTweak(s, w, Bound(Get(s, w), thread));
  }
}
