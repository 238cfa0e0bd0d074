/** The service object (src/service/pi-threads-service.ts) over the pool object: the pieces of
    its methods that run between two awaits, with the fields they change in place.  Each one
    is exactly one step of the step machine, so the invariant of the machine holds of the
    objects after any sequence of calls. */
module Services {
  import opened Common
  import opened Events
  import opened Pools
  import opened WorkerPools
  import opened Scheduler
  import opened SchedulerInv
  import opened SchedulerTurns
  import opened SchedulerSteps
  import opened SchedulerRuns

  class PiThreadsService {
    const pool: WorkerPool
    var activeTurns: map<ThreadId, Active>
    var sessionMutations: set<ThreadId>
    var nextTurn: TurnId
    /** Where every outstanding operation and the lifecycle mutex stand, and history. */
    ghost var outline: State

    ghost function Model(): State
      reads this, pool
    {
      outline.(pool := pool.Model(), turns := activeTurns, mutations := sessionMutations, nextTurn := nextTurn)
    }

    ghost predicate Valid()
      reads this, pool
    {
      Core(Model()) && WellFormed(pool.Model()) && pool.delay == Backoff(pool.attempts)
    }

    constructor (options: Options)
      ensures Valid() && fresh(pool) && Model() == Initial(options)
    {
      pool := new WorkerPool(options);
      activeTurns, sessionMutations, nextTurn := map[], {}, 0;
      outline := Initial(options);
      new;
      InitialCore(options);
      assert Backoff(0) == FIRST_DELAY;
    }

    /** threadSend claims its thread, or is refused at once: `saved` is what the catalog says. */
    method ReserveTurn(thread: ThreadId, saved: bool, ghost cwd: Directory) returns (turn: Result<TurnId, Error>)
      requires Valid() && (saved <==> thread in Model().persisted)
      modifies this
      ensures Valid()
      ensures Model() == Requested(old(Model()), ForSend(thread, 0), cwd)
      ensures turn == if Find(old(pool.Model()), thread) == None && !saved then Err(NotFound)
                      else if thread in old(activeTurns) || thread in old(sessionMutations) then Err(Busy)
                      else Ok(old(nextTurn))
      ensures turn.Ok? ==> thread in activeTurns && activeTurns[thread] == Active(turn.value, None)
    {
      RequestedKeeps(Model(), ForSend(thread, 0), cwd);
      hide Core, Requested, Find, Backoff, WellFormed;
      turn := RecordTurn(thread, saved, cwd);
    }

    method RecordTurn(thread: ThreadId, saved: bool, ghost cwd: Directory) returns (turn: Result<TurnId, Error>)
      requires Sane() && (saved <==> thread in Model().persisted)
      modifies this`activeTurns, this`nextTurn, this`outline
      ensures Sane()
      ensures Model() == Requested(old(Model()), ForSend(thread, 0), cwd)
      ensures turn == if Find(old(pool.Model()), thread) == None && !saved then Err(NotFound)
                      else if thread in old(activeTurns) || thread in old(sessionMutations) then Err(Busy)
                      else Ok(old(nextTurn))
      ensures turn.Ok? ==> thread in activeTurns && activeTurns[thread] == Active(turn.value, None)
    {
      SendRequestedForm(Model(), thread, cwd);
      var found := pool.FindByThread(thread);
      hide Find, WellFormed, Backoff, Requested;
      if found == None && !saved {
        return Err(NotFound);
      }
      if thread in activeTurns || thread in sessionMutations {
        return Err(Busy);
      }
      turn := Ok(nextTurn);
      activeTurns := activeTurns[thread := Active(nextTurn, None)];
      nextTurn := nextTurn + 1;
      outline := outline.(ops := outline.ops[outline.nextOp := Waiting(ForSend(thread, turn.value), cwd)],
                          nextOp := outline.nextOp + 1);
    }

    /** A mutation claims its thread, or is refused at once. */
    method BeginMutation(thread: ThreadId, forks: bool, saved: bool, ghost cwd: Directory) returns (done: Result<(), Error>)
      requires Valid() && (saved <==> thread in Model().persisted)
      modifies this
      ensures Valid()
      ensures Model() == Requested(old(Model()), ForMutation(thread, forks), cwd)
      ensures done == if thread in old(activeTurns) || thread in old(sessionMutations) then Err(Busy)
                      else if Find(old(pool.Model()), thread) == None && !saved then Err(NotFound)
                      else Ok(())
    {
      RequestedKeeps(Model(), ForMutation(thread, forks), cwd);
      hide Core, Requested, Find, Backoff, WellFormed;
      done := ClaimMutation(thread, forks, saved, cwd);
    }

    method ClaimMutation(thread: ThreadId, forks: bool, saved: bool, ghost cwd: Directory) returns (done: Result<(), Error>)
      requires Sane() && (saved <==> thread in Model().persisted)
      modifies this`sessionMutations, this`outline
      ensures Sane()
      ensures Model() == Requested(old(Model()), ForMutation(thread, forks), cwd)
      ensures done == if thread in old(activeTurns) || thread in old(sessionMutations) then Err(Busy)
                      else if Find(old(pool.Model()), thread) == None && !saved then Err(NotFound)
                      else Ok(())
    {
      MutationRequestedForm(Model(), thread, forks, cwd);
      hide Requested;
      if thread in activeTurns || thread in sessionMutations {
        return Err(Busy);
      }
      var found := pool.FindByThread(thread);
      hide Find, WellFormed, Backoff;
      if found == None && !saved {
        return Err(NotFound);
      }
      sessionMutations := sessionMutations + {thread};
      outline := outline.(ops := outline.ops[outline.nextOp := Waiting(ForMutation(thread, forks), cwd)],
                          nextOp := outline.nextOp + 1);
      return Ok(());
    }

    /** The worker of a send has its settings; the turn is admitted. */
    method AdmitTurn(ghost op: OpId, thread: ThreadId, turn: TurnId, w: WorkerId)
      requires Valid() && Answered(Model(), op)
      requires Model().ops[op] == Holding(ForSend(thread, turn), w, false)
      modifies this, pool
      ensures Valid() && Model() == SendSucceeded(old(Model()), op)
      ensures !Model().stray ==> Find(pool.Model(), thread) == Some(w)
    {
      SendSucceededKeeps(Model(), op);
      ghost var was := Model();
      hide Core;
      var x := pool.workers[w];
      pool.workers := pool.workers[w := x.(activeTurn := Some(turn), thread := Some(thread), state := Running,
                                           boundTo := x.boundTo + {thread})];
      activeTurns := activeTurns[thread := Active(turn, Some(w))];
      outline := outline.(ops := outline.ops - {op});
      assert Model() == SendSucceeded(was, op);
      if !Model().stray {
        ActiveIsFound(Model(), thread);
      }
    }

    /** The parts of `Valid` that the pool object keeps by itself. */
    ghost predicate Sane()
      reads this, pool
    {
      WellFormed(pool.Model()) && pool.delay == Backoff(pool.attempts)
    }

    /** A started thread's session is known: its turn is admitted under the next turn name. */
    method AdmitStart(ghost op: OpId, thread: ThreadId, w: WorkerId, prompted: bool) returns (turn: TurnId)
      requires Valid() && Answered(Model(), op) && Unheard(Model(), thread)
      requires Model().ops[op] == Holding(ForStart, w, false)
      modifies this, pool`workers
      ensures Valid() && Model() == StartSucceeded(old(Model()), op, thread, prompted) && turn == old(nextTurn)
    {
      StartSucceededKeeps(Model(), op, thread, prompted);
      hide Core, Unheard;
      turn := RecordStart(op, thread, w, prompted);
    }

    method RecordStart(ghost op: OpId, thread: ThreadId, w: WorkerId, prompted: bool) returns (turn: TurnId)
      requires Sane() && Holds(Model(), op) && Model().ops[op] == Holding(ForStart, w, false)
      modifies this, pool`workers
      ensures Sane() && Model() == StartSucceeded(old(Model()), op, thread, prompted) && turn == old(nextTurn)
    {
      turn := nextTurn;
      nextTurn := nextTurn + 1;
      pool.Begin(w, thread, turn, prompted);
      activeTurns := activeTurns[thread := Active(turn, Some(w))];
      outline := outline.(ops := outline.ops - {op});
    }

    /** A mutation ends, having changed its worker's session to `bound` or not. */
    method EndMutation(ghost op: OpId, w: WorkerId, bound: Option<ThreadId>, now: nat, thread: ThreadId, ghost forks: bool)
      requires Valid() && Holds(Model(), op) && (bound.Some? ==> Forks(Model(), op, bound.value))
      requires Model().ops[op].purpose == ForMutation(thread, forks) && Model().ops[op].worker == w
      modifies this, pool`workers
      ensures Valid() && Model() == MutationEnded(old(Model()), op, bound, now)
    {
      MutationEndedKeeps(Model(), op, bound, now);
      hide Core, Forks;
      RecordMutation(op, w, bound, now, thread, forks);
    }

    method RecordMutation(ghost op: OpId, w: WorkerId, bound: Option<ThreadId>, now: nat, thread: ThreadId, ghost forks: bool)
      requires Sane() && Holds(Model(), op)
      requires Model().ops[op].purpose == ForMutation(thread, forks) && Model().ops[op].worker == w
      modifies this, pool`workers
      ensures Sane() && Model() == MutationEnded(old(Model()), op, bound, now)
    {
      sessionMutations := sessionMutations - {thread};
      outline := outline.(ops := outline.ops - {op});
      if bound.Some? {
        pool.Bind(w, bound.value);
      }
      pool.Release(w, now);
    }

    /** The service's own listener: a terminal event of a running turn ends it and, when its
        worker is still the one found for the thread, leaves the worker to the turn's cleanup. */
    method HandleTerminal(thread: ThreadId, turn: TurnId) returns (cleanup: Option<WorkerId>)
      requires Valid()
      modifies this, pool`workers
      ensures Valid() && Model() == Settles(old(Model()), thread, turn)
      ensures cleanup.Some? <==> Model().nextOp > old(Model().nextOp)
    {
      ghost var s := Model();
      SettlesKeeps(s, thread, turn);
      assert WellFormed(Settles(s, thread, turn).pool);
      hide Core, Find, WellFormed, Backoff;
      cleanup := None;
      if !pool.stopped && thread in activeTurns && activeTurns[thread].worker.Some? && activeTurns[thread].turn == turn {
        cleanup := EndTurn(thread);
      }
      hide TurnEnded, CleanupBegins;
      assert Model() == Settles(s, thread, turn);
    }

    method EndTurn(thread: ThreadId) returns (cleanup: Option<WorkerId>)
      requires WellFormed(pool.Model()) && thread in activeTurns && activeTurns[thread].worker.Some?
      modifies this, pool`workers
      ensures cleanup == if Find(old(pool.Model()), thread) == old(activeTurns)[thread].worker then old(activeTurns)[thread].worker else None
      ensures var t := TurnEnded(old(Model()), thread);
        && (cleanup == None ==> Model() == t)
        && (cleanup.Some? ==> cleanup.value in t.pool.workers)
        && (cleanup.Some? ==>
              Model() == CleanupBegins(Put(t, cleanup.value, Get(t, cleanup.value).(activeTurn := None)), thread, cleanup.value))
    {
      var active := activeTurns[thread];
      var found := pool.FindByThread(thread);
      activeTurns := activeTurns - {thread};
      outline := outline.(ended := outline.ended + {active.turn});
      cleanup := None;
      if found == active.worker {
        cleanup := found;
        var w := found.value;
        pool.workers := pool.workers[w := pool.workers[w].(activeTurn := None)];
        outline := outline.(ops := outline.ops[outline.nextOp := Holding(ForCleanup(thread), w, false)],
                            nextOp := outline.nextOp + 1);
      }
    }

    /** A request ends and gives its worker back. */
    method Finish(ghost op: OpId, w: WorkerId, now: nat)
      requires Valid() && op in Model().ops && Model().ops[op].Holding? && Model().ops[op].worker == w
      requires w in pool.workers && (Model().ops[op].purpose.ForRead? || Model().ops[op].purpose.ForModels?
                                     || Model().ops[op].purpose.ForCleanup?)
      modifies this, pool
      ensures Valid() && Model() == GivesBack(old(Model()), op, now)
      ensures pool.workers[w].reservations == old(pool.workers[w].reservations) - 1
    {
      EndsKeeps(Model(), op, now);
      assert Unclaimed(Model(), Model().ops[op].purpose) == Model();
      hide Core;
      GiveBack(op, w, now);
    }

    method GiveBack(ghost op: OpId, w: WorkerId, now: nat)
      requires Sane() && Holds(Model(), op) && Model().ops[op].worker == w
      modifies this`outline, pool`workers
      ensures Sane() && Model() == GivesBack(old(Model()), op, now)
      ensures activeTurns == old(activeTurns) && pool.workers[w] == Released(old(pool.workers[w]), now)
    {
      pool.Release(w, now);
      outline := outline.(ops := outline.ops - {op});
    }

    /** A send that could not be admitted gives up its turn and its worker. */
    method FailSend(ghost op: OpId, thread: ThreadId, ghost turn: TurnId, w: WorkerId, now: nat)
      requires Valid() && Holds(Model(), op) && Model().ops[op] == Holding(ForSend(thread, turn), w, false)
      modifies this, pool
      ensures Valid() && Model() == GivesBack(Unclaimed(old(Model()), ForSend(thread, turn)), op, now)
      ensures thread !in activeTurns
    {
      ghost var was := Model();
      EndsKeeps(was, op, now);
      hide Core;
      activeTurns := activeTurns - {thread};
      assert Model() == Unclaimed(was, ForSend(thread, turn));
      hide GivesBack, Unclaimed;
      GiveBack(op, w, now);
    }

    /** A worker reports that an agent run began: the handler writes its state at once, also when
        the pool has given the worker up. */
    method RunBegan(w: WorkerId)
      requires Valid() && Reports(Model(), w)
      modifies this`outline, pool`workers
      ensures Valid() && Model() == AgentEvent(old(Model()), w, false)
    {
      AgentEventKeeps(Model(), w, false);
      hide Core, Marked, Backoff, Reported, LeaseSafe, CountSafe;
      RecordRun(w);
    }

    method RecordRun(w: WorkerId)
      requires Sane() && w in pool.workers
      modifies this`outline, pool`workers
      ensures Sane() && Model() == Put(Marked(old(Model()), w), w, Reported(old(pool.workers[w]), false))
    {
      ghost var m := Marked(Model(), w);
      MarkedFields(Model(), w);
      hide Marked, Backoff;
      outline := outline.(stray := m.stray, leaky := m.leaky);
      pool.workers := pool.workers[w := pool.workers[w].(state := Running)];
    }

    /** A worker reports that its run has settled: the verdict on its turn is published at once,
        and the service's listener ends the turn. */
    method RunSettled(w: WorkerId) returns (ended: Option<TurnId>)
      requires Valid() && Reports(Model(), w)
      modifies this, pool`workers
      ensures Valid() && Model() == AgentEvent(old(Model()), w, true)
      ensures ended == old(pool.workers[w].activeTurn)
    {
      ghost var s := Model();
      var thread := pool.workers[w].thread;
      ended := pool.workers[w].activeTurn;
      ReportedKeeps(s, w, true);
      hide Core, Backoff, Settles, Marked;
      MarkedFields(s, w);
      outline := outline.(stray := Marked(s, w).stray, leaky := Marked(s, w).leaky);
      pool.Settle(w);
      ghost var t := Put(Marked(s, w), w, Reported(Get(s, w), true));
      assert Model() == t;
      if thread.Some? && ended.Some? {
        var _ := HandleTerminal(thread.value, ended.value);
      }
    }

    /** A worker's process has exited: it leaves the pool, the turn it was running fails, and
        the minimum is restored later. */
    method WorkerExited(w: WorkerId, longLived: bool) returns (failed: Option<TurnId>)
      requires Valid() && w in pool.workers
      modifies this, pool
      ensures Valid() && Model() == Exited(old(Model()), w, longLived)
      ensures failed == old(pool.workers[w].activeTurn)
    {
      ghost var s := Model();
      ExitedKeeps(s, w, longLived);
      hide Core, Backoff, Settles;
      failed := pool.workers[w].activeTurn;
      Depart(w);
      pool.Recover(longLived);
      hide ScheduleRecovery, Departed;
      DepartedForm(s, w, longLived);
    }

    method Depart(w: WorkerId)
      requires Valid() && w in pool.workers
      modifies this, pool`workers, pool`members
      ensures Valid() && Model() == Departed(old(Model()), w)
    {
      ghost var s := Model();
      CrashKeeps(s, w);
      hide Core, Backoff, Settles;
      var thread, turn := pool.workers[w].thread, pool.workers[w].activeTurn;
      pool.Crash(w);
      ghost var gone := Leaves(Put(s, w, Get(s, w).(state := Crashed, activeTurn := None)), w);
      assert Model() == gone;
      if thread.Some? && turn.Some? {
        var _ := HandleTerminal(thread.value, turn.value);
      }
    }
  }

  lemma MarkedFields(s: State, w: WorkerId)
    requires w in s.pool.workers
    ensures Marked(s, w) == s.(stray := Marked(s, w).stray, leaky := Marked(s, w).leaky)
  {
    hide LeaseSafe, CountSafe;
  }

  lemma DepartedForm(s: State, w: WorkerId, longLived: bool)
    requires w in s.pool.workers
    ensures var t := Departed(s, w);
      Exited(s, w, longLived) ==
      t.(pool := ScheduleRecovery(if longLived then t.pool.(delay := FIRST_DELAY, attempts := 0) else t.pool))
  {
    hide Settles, ScheduleRecovery;
  }

  lemma SendRequestedForm(s: State, thread: ThreadId, cwd: Directory)
    ensures Requested(s, ForSend(thread, 0), cwd) ==
      if (Find(s.pool, thread) == None && thread !in s.persisted) || thread in s.turns || thread in s.mutations then s
      else s.(turns := s.turns[thread := Active(s.nextTurn, None)], nextTurn := s.nextTurn + 1,
              ops := s.ops[s.nextOp := Waiting(ForSend(thread, s.nextTurn), cwd)], nextOp := s.nextOp + 1)
  {
    hide Find;
  }

  lemma MutationRequestedForm(s: State, thread: ThreadId, forks: bool, cwd: Directory)
    ensures Requested(s, ForMutation(thread, forks), cwd) ==
      if thread in s.turns || thread in s.mutations || (Find(s.pool, thread) == None && thread !in s.persisted) then s
      else s.(mutations := s.mutations + {thread},
              ops := s.ops[s.nextOp := Waiting(ForMutation(thread, forks), cwd)], nextOp := s.nextOp + 1)
  {
    hide Find;
  }
}
