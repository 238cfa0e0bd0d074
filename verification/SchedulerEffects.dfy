/** What single steps of the scheduler do, said on the fields of the records they write. */
module SchedulerEffects {
  import opened Common
  import opened Pools
  import opened Scheduler
  import opened SchedulerInv
  import opened SchedulerMoves
  import opened SchedulerProgress
  import opened SchedulerResults
  import opened SchedulerOutcomes

  // ---------------------------------------------------------------- giving a worker back

  /** The step ends the operation, which gives its worker back at time `now`. */
  predicate GivesUp(step: Step, op: OpId, now: nat) {
    match step
    case Finishes(o, n) => o == op && n == now
    case SendFails(o, n) => o == op && n == now
    case StartFails(o, _, n) => o == op && n == now
    case MutationEnds(o, _, n) => o == op && n == now
    case _ => false
  }

  /** A worker that is given back has one reservation less.  If it is in use, the time is noted; with
      nobody left and no turn it counts as idle or assigned again, whatever it was marked as, and
      without an abort or a command in progress it is free to be reused, evicted or reaped. */
  lemma WorkerIsFreed(s: State, step: Step, op: OpId, now: nat)
    requires Reachable(s) && Shape(s) && Enabled(s, step) && GivesUp(step, op, now)
    ensures op in s.ops && s.ops[op].Holding? && s.ops[op].worker in s.pool.workers
    ensures s.ops[op].worker in Apply(s, step).pool.workers
    ensures var w, t := s.ops[op].worker, Apply(s, step);
      var x, y := Get(s, w), Get(t, w);
      var inUse := x.state != Crashed && x.state != Stopped && !x.retiring;
      && op !in t.ops && x.reservations >= 1 && y.reservations == x.reservations - 1
      && y.retiring == x.retiring && y.commands == x.commands && y.aborting == x.aborting && y.cwd == x.cwd
      && (inUse ==> y.lastUsed == now)
      && (inUse && y.reservations == 0 && y.activeTurn == None ==> y.state == if y.thread.Some? then Assigned else Idle)
      && (inUse && y.reservations == 0 && y.activeTurn == None && y.aborting == None && y.commands == 0 ==>
            Quiescent(y) && (w in t.pool.members && (y.thread.Some? ==> y.thread.value in t.persisted) ==> Evictable(t.pool, t.persisted, w)))
      && (!inUse ==> y.state == x.state && y.lastUsed == x.lastUsed)
  {
    EveryReleaseIsOwed(s, op);
    GivenBack(s, step, op, now);
    hide Reachable, Shape, Enabled, Apply, GivesUp;
    var x := Get(s, s.ops[op].worker);
    ReleasedMeans(AsLeft(step, x), now);
    hide Released, Bound;
  }

  /** The worker's record as the operation leaves it. */
  function AsLeft(step: Step, x: Worker): Worker {
    match step
    case StartFails(_, bound, _) => (if bound.Some? then Bound(x, bound.value) else x).(activeTurn := None)
    case MutationEnds(_, bound, _) => if bound.Some? then Bound(x, bound.value) else x
    case _ => x
  }

  lemma GivenBack(s: State, step: Step, op: OpId, now: nat)
    requires Shape(s) && Enabled(s, step) && GivesUp(step, op, now)
    ensures Holds(s, op)
    ensures var w, t := s.ops[op].worker, Apply(s, step);
      && op !in t.ops && t.pool.members == s.pool.members && t.persisted == s.persisted
      && w in t.pool.workers && Get(t, w) == Released(AsLeft(step, Get(s, w)), now)
  {
    GivesIt(s, step, op, now);
    hide Shape, Enabled, Apply, GivesUp;
    LeavingMeans(s, step, op);
    GivesBackMeans(Leaving(s, step, op), op, now);
    hide Leaving, GivesBack, Released, AsLeft;
  }

  /** The state in which the reservation is given back. */
  function Leaving(s: State, step: Step, op: OpId): State
    requires Holds(s, op)
  {
    var w, p := s.ops[op].worker, s.ops[op].purpose;
    match step
    case SendFails(_, _) => Unclaimed(s, p)
    case StartFails(_, _, _) => Put(s, w, AsLeft(step, Get(s, w)))
    case MutationEnds(_, bound, _) => Unclaimed(if bound.Some? then Put(s, w, AsLeft(step, Get(s, w))) else s, p)
    case _ => s
  }

  lemma LeavingMeans(s: State, step: Step, op: OpId)
    requires Holds(s, op) && (step.Finishes? || step.SendFails? || step.StartFails? || step.MutationEnds?)
    ensures var u, w := Leaving(s, step, op), s.ops[op].worker;
      && u.ops == s.ops && u.pool.members == s.pool.members && u.persisted == s.persisted
      && w in u.pool.workers && Get(u, w) == AsLeft(step, Get(s, w))
  {
    hide Bound;
    var w, y := s.ops[op].worker, AsLeft(step, Get(s, s.ops[op].worker));
    assert Get(Put(s, w, y), w) == y && (step.Finishes? || step.SendFails? ==> y == Get(s, w));
    hide AsLeft;
  }

  lemma GivesIt(s: State, step: Step, op: OpId, now: nat)
    requires Shape(s) && Enabled(s, step) && GivesUp(step, op, now)
    ensures Holds(s, op) && (step.Finishes? || step.SendFails? || step.StartFails? || step.MutationEnds?)
    ensures Holds(Leaving(s, step, op), op) && Apply(s, step) == GivesBack(Leaving(s, step, op), op, now)
  {
    hide Shape, Unheard, Released, Bound, GivesBack;
  }

  lemma GivesBackMeans(s: State, op: OpId, now: nat)
    requires Holds(s, op)
    ensures var w, t := s.ops[op].worker, GivesBack(s, op, now);
      && op !in t.ops && t.pool.members == s.pool.members && t.persisted == s.persisted
      && t.pool.workers == s.pool.workers[w := Released(Get(s, w), now)]
  {
    hide Released;
  }

  lemma ReleasedMeans(x: Worker, now: nat)
    ensures var y := Released(x, now);
      var inUse := x.state != Crashed && x.state != Stopped && !x.retiring;
      && y.reservations == (if x.reservations > 0 then x.reservations - 1 else 0)
      && y.lastUsed == (if inUse then now else x.lastUsed)
      && y.state == (if inUse && y.reservations == 0 && x.activeTurn == None
                     then if x.thread.Some? then Assigned else Idle
                     else x.state)
      && y == x.(reservations := y.reservations, lastUsed := y.lastUsed, state := y.state)
  {
  }

  /** The thread of a freed worker can be used at once: the next send or mutation in its directory
      is granted this worker. */
  lemma FreedWorkerIsGranted(s: State, step: Step, op: OpId, now: nat, next: OpId)
    requires Reachable(s) && Shape(s) && Enabled(s, step) && GivesUp(step, op, now)
    requires op in s.ops && s.ops[op].Holding? && s.ops[op].worker in s.pool.workers
    requires var x := Get(s, s.ops[op].worker); x.state != Crashed && x.state != Stopped && !x.retiring
    requires var t, w := Apply(s, step), s.ops[op].worker;
      && w in t.pool.workers && Get(t, w).reservations == 0 && Get(t, w).activeTurn == None && !t.pool.stopped
      && next in t.ops && t.ops[next].Waiting? && t.ops[next].cwd == Get(t, w).cwd
      && ThreadOf(t.ops[next].purpose).Some? && Find(t.pool, ThreadOf(t.ops[next].purpose).value) == Some(w)
    ensures var t := Apply(s, step);
      && next in RetainedFor(t, next).ops
      && RetainedFor(t, next).ops[next] == Holding(t.ops[next].purpose, s.ops[op].worker, false)
  {
    WorkerIsFreed(s, step, op, now);
    var t := Apply(s, step);
    hide Reachable, Shape, Enabled, Apply, Find, GivesUp, Quiescent, Evictable, RetainedFor, Granted;
    FreeIsGranted(t, next, s.ops[op].worker);
  }

  lemma FreeIsGranted(s: State, op: OpId, w: WorkerId)
    requires Waits(s, op) && !s.pool.stopped
    requires ThreadOf(s.ops[op].purpose).Some? && Find(s.pool, ThreadOf(s.ops[op].purpose).value) == Some(w)
    requires s.ops[op].cwd == Get(s, w).cwd && Get(s, w).activeTurn == None && Get(s, w).state != Running
    ensures op in RetainedFor(s, op).ops && RetainedFor(s, op).ops[op] == Holding(s.ops[op].purpose, w, false)
  {
    RetainedExactly(s, op, w);
    GrantedHolds(s, op, w);
    hide Find, RetainedFor, Granted;
  }

  // ---------------------------------------------------------------- who may be taken

  /** Whichever step marks a worker retiring or takes its thread away finds it doing nothing, and its
      thread saved.  The one exception is a worker whose own session switch has failed. */
  lemma OnlyIdleWorkersAreTaken(s: State, step: Step, w: WorkerId)
    requires Reachable(s) && Shape(s) && Enabled(s, step) && w in s.pool.workers
    ensures w in Apply(s, step).pool.workers
    ensures var x, y := Get(s, w), Get(Apply(s, step), w);
      var fails := step.SwitchReturns? && !step.ok && s.lock.Switching? && s.lock.worker == w;
      (y.retiring && !x.retiring && !fails) || (x.thread.Some? && y.thread == None) ==>
        && (x.state == Idle || x.state == Assigned) && !x.retiring
        && x.activeTurn == None && x.aborting == None && x.reservations == 0 && x.commands == 0
        && (x.thread.Some? ==> x.thread.value in s.persisted)
  {
    WorkersAreProtected(s, step, w);
    hide Reachable, Shape, Enabled, Apply;
  }

  // ---------------------------------------------------------------- requests

  /** A request is taken up exactly if its thread can be resumed (a worker carries it or the catalog
      has saved it) and, to write to it, nobody has a turn or a mutation there; otherwise nothing
      happens.  One that is taken up has claimed its thread. */
  lemma RequestsExactly(s: State, purpose: Purpose, cwd: Directory)
    requires !purpose.ForCleanup?
    ensures var t, thread := Requested(s, purpose, cwd), ThreadOf(purpose);
      var known := thread.Some? ==> Find(s.pool, thread.value).Some? || thread.value in s.persisted;
      var writes := purpose.ForSend? || purpose.ForMutation?;
      var taken := known && (writes ==> thread.value !in s.turns && thread.value !in s.mutations);
      && (!taken ==> t == s)
      && (taken ==>
            && s.nextOp in t.ops && t.ops == s.ops[s.nextOp := t.ops[s.nextOp]] && t.nextOp == s.nextOp + 1
            && t.ops[s.nextOp] == Waiting(if purpose.ForSend? then ForSend(purpose.thread, s.nextTurn) else purpose, cwd)
            && t.turns == (if purpose.ForSend? then s.turns[purpose.thread := Active(s.nextTurn, None)] else s.turns)
            && t.mutations == (if purpose.ForMutation? then s.mutations + {purpose.thread} else s.mutations)
            && t.nextTurn == (if purpose.ForSend? then s.nextTurn + 1 else s.nextTurn)
            && t.pool == s.pool && t.lock == s.lock && t.ended == s.ended)
  {
    hide Find;
  }

  // ---------------------------------------------------------------- admission

  /** An admitted send has a running turn: the worker and the service's map name each other. */
  lemma SendIsAdmitted(s: State, op: OpId)
    requires Holds(s, op) && s.ops[op].purpose.ForSend?
    ensures s.ops[op].worker in SendSucceeded(s, op).pool.workers
    ensures var t, w, p := SendSucceeded(s, op), s.ops[op].worker, s.ops[op].purpose;
      var x, y := Get(s, w), Get(t, w);
      && op !in t.ops && t.turns == s.turns[p.thread := Active(p.turn, Some(w))]
      && y.thread == Some(p.thread) && y.activeTurn == Some(p.turn) && y.state == Running
      && y.reservations == x.reservations && y.retiring == x.retiring && y.cwd == x.cwd && y.aborting == x.aborting
  {
  }

  /** So has a start, on a thread the daemon learns of just now and under a new turn name; the worker
      is running exactly if it was given a prompt. */
  lemma StartIsAdmitted(s: State, op: OpId, thread: ThreadId, prompted: bool)
    requires Holds(s, op)
    ensures s.ops[op].worker in StartSucceeded(s, op, thread, prompted).pool.workers
    ensures var t, w := StartSucceeded(s, op, thread, prompted), s.ops[op].worker;
      var x, y := Get(s, w), Get(t, w);
      && op !in t.ops && t.turns == s.turns[thread := Active(s.nextTurn, Some(w))] && t.nextTurn == s.nextTurn + 1
      && y.thread == Some(thread) && y.activeTurn == Some(s.nextTurn)
      && y.state == (if prompted then Running else x.state)
      && y.reservations == x.reservations && y.retiring == x.retiring && y.cwd == x.cwd && y.aborting == x.aborting
  {
  }

  /** A mutation that ends leaves its thread to others, and its worker with the forked or cloned
      thread if there is one. */
  lemma MutationLeavesThread(s: State, op: OpId, bound: Option<ThreadId>, now: nat)
    requires Holds(s, op) && s.ops[op].purpose.ForMutation?
    ensures s.ops[op].worker in MutationEnded(s, op, bound, now).pool.workers
    ensures var t, w := MutationEnded(s, op, bound, now), s.ops[op].worker;
      && op !in t.ops && t.mutations == s.mutations - {s.ops[op].purpose.thread} && t.turns == s.turns
      && Get(t, w).thread == (if bound.Some? then bound else Get(s, w).thread)
  {
  }

  // ---------------------------------------------------------------- the end of a turn

  /** A terminal event of the running turn, and no other, takes the turn off the books; its worker
      forgets it and passes to the turn's cleanup exactly if it is the one found for the thread. */
  lemma TerminalEventMeans(s: State, thread: ThreadId, turn: TurnId)
    ensures var t := Settles(s, thread, turn);
      var mine := !s.pool.stopped && thread in s.turns && s.turns[thread].turn == turn && s.turns[thread].worker.Some?;
      && (!mine ==> t == s)
      && (mine ==> thread !in t.turns && t.turns == s.turns - {thread} && t.ended == s.ended + {turn})
      && (mine && Find(s.pool, thread) != s.turns[thread].worker ==> t.pool == s.pool && t.ops == s.ops)
      && (mine && Find(s.pool, thread) == s.turns[thread].worker ==>
            var w := s.turns[thread].worker.value;
            && w in s.pool.workers && t.pool.workers == s.pool.workers[w := Get(s, w).(activeTurn := None)]
            && t.ops == s.ops[s.nextOp := Holding(ForCleanup(thread), w, false)])
  {
    hide FindFrom;
  }

  /** When a run settles or the process exits, the turn that was running there has ended. */
  lemma ReportEndsTurn(s: State, w: WorkerId, thread: ThreadId, longLived: bool)
    requires w in s.pool.workers && thread in s.turns && s.turns[thread].worker == Some(w) && !s.pool.stopped
    requires Get(s, w).thread == Some(thread) && Get(s, w).activeTurn == Some(s.turns[thread].turn)
    ensures thread !in AgentEvent(s, w, true).turns && s.turns[thread].turn in AgentEvent(s, w, true).ended
    ensures thread !in Exited(s, w, longLived).turns && s.turns[thread].turn in Exited(s, w, longLived).ended
  {
    var x := Get(s, w);
    TerminalEventMeans(Put(Marked(s, w), w, Reported(x, true)), thread, s.turns[thread].turn);
    TerminalEventMeans(Leaves(Put(s, w, x.(state := Crashed, activeTurn := None)), w), thread, s.turns[thread].turn);
    hide Settles, LeaseSafe, CountSafe, ScheduleRecovery, Find;
  }

  /** A report moves the worker to running or back to assigned, whatever it was before; a run that
      settles ends the abort of its own turn, and the service's reaction takes the turn from the worker. */
  lemma ReportMeans(s: State, w: WorkerId, settled: bool)
    requires w in s.pool.workers
    ensures w in AgentEvent(s, w, settled).pool.workers
    ensures var x, y := Get(s, w), Get(AgentEvent(s, w, settled), w);
      && y.state == (if settled then Assigned else Running)
      && y.thread == x.thread && y.reservations == x.reservations && y.commands == x.commands && y.retiring == x.retiring
      && y.aborting == (if settled && x.activeTurn.Some? && x.aborting == x.activeTurn then None else x.aborting)
      && (y.activeTurn == x.activeTurn || (settled && y.activeTurn == None))
  {
    var x := Get(s, w);
    var t := Put(Marked(s, w), w, Reported(x, settled));
    ReportedMeans(x, settled);
    hide Reported, Marked;
    if settled && x.thread.Some? && x.activeTurn.Some? {
      TerminalEventMeans(t, x.thread.value, x.activeTurn.value);
    }
    hide Settles, Find;
  }

  lemma ReportedMeans(x: Worker, settled: bool)
    ensures var y := Reported(x, settled);
      && y.state == (if settled then Assigned else Running)
      && y.aborting == (if settled && x.activeTurn.Some? && x.aborting == x.activeTurn then None else x.aborting)
      && y == x.(state := y.state, aborting := y.aborting)
  {
  }

  /** A worker whose process has exited is gone: not in the pool, crashed and without a turn.  One
      that had run for a minute starts the back-off again. */
  lemma ExitMeans(s: State, w: WorkerId, longLived: bool)
    requires w in s.pool.workers
    ensures w in Exited(s, w, longLived).pool.workers
    ensures var t := Exited(s, w, longLived);
      && w !in t.pool.members && t.pool.members == s.pool.members - {w}
      && Get(t, w).state == Crashed && Get(t, w).activeTurn == None
      && (t.pool.timer <==> s.pool.timer || (!s.pool.stopped && |s.pool.members - {w}| < s.pool.options.minWorkers
                                             && |s.pool.members - {w}| < s.pool.options.maxWorkers))
      && (t.pool.attempts == (if longLived then 0 else s.pool.attempts) + if t.pool.timer && !s.pool.timer then 1 else 0)
  {
    DepartureMeans(s, w);
    var t := Departed(s, w);
    RecoveryMeans(if longLived then t.pool.(delay := FIRST_DELAY, attempts := 0) else t.pool);
    hide Departed, ScheduleRecovery;
  }

  lemma DepartureMeans(s: State, w: WorkerId)
    requires w in s.pool.workers
    ensures w in Departed(s, w).pool.workers
    ensures var t := Departed(s, w);
      && t.pool == s.pool.(workers := t.pool.workers, members := s.pool.members - {w})
      && Get(t, w).state == Crashed && Get(t, w).activeTurn == None
  {
    var x := Get(s, w);
    var gone := Leaves(Put(s, w, x.(state := Crashed, activeTurn := None)), w);
    if x.thread.Some? && x.activeTurn.Some? {
      TerminalEventMeans(gone, x.thread.value, x.activeTurn.value);
      SettlesIsCalm(gone, x.thread.value, x.activeTurn.value);
    }
    hide Settles, Find, Gentle;
  }

  lemma RecoveryMeans(p: Pool)
    ensures var q := ScheduleRecovery(p);
      && (q.timer <==> p.timer || (!p.stopped && |p.members| < p.options.minWorkers && |p.members| < p.options.maxWorkers))
      && q.attempts == p.attempts + (if q.timer && !p.timer then 1 else 0)
      && q.members == p.members && q.workers == p.workers
  {
  }

  // ---------------------------------------------------------------- aborting

  /** The worker knows which turn is being aborted ... */
  lemma AbortIsMarked(s: State, thread: ThreadId)
    requires Shape(s) && Enabled(s, AbortBegins(thread))
    ensures var t, w := Apply(s, AbortBegins(thread)), s.turns[thread].worker.value;
      && w in s.pool.workers && t.turns == s.turns
      && t.pool.workers == s.pool.workers[w := Get(s, w).(aborting := Some(s.turns[thread].turn))]
  {
    assert s.turns[thread].worker.value in s.pool.workers;
    hide Shape;
  }

  /** ... until that abort, and no other, has ended. */
  lemma AbortIsForgotten(s: State, w: WorkerId, turn: TurnId)
    requires Shape(s) && w in s.pool.workers
    ensures var t, x := Apply(s, AbortEnds(w, turn)), Get(s, w);
      t.pool.workers == s.pool.workers[w := if x.aborting == Some(turn) then x.(aborting := None) else x]
  {
    hide Shape;
  }

  // ---------------------------------------------------------------- the lifecycle

  /** A recovery starts a worker exactly if the pool is running, waits for no timer and is smaller than
      both bounds; the same again once that worker is there. */
  lemma MinimumIsFilled(s: State, first: bool, now: nat)
    requires s.lock == Free
    ensures var t := Maintains(s, first, now);
      && (t.lock.Spawning? <==> !s.pool.stopped && !s.pool.timer
                                && |s.pool.members| < s.pool.options.minWorkers && |s.pool.members| < s.pool.options.maxWorkers)
      && (t.lock.Spawning? ==>
            && t.lock == Spawning(s.pool.nextWorker, Maintaining(first)) && t.lock.worker in t.pool.workers
            && t.pool.members == s.pool.members + {t.lock.worker}
            && Get(t, t.lock.worker).state == Starting && Get(t, t.lock.worker).reservations == 0
            && Get(t, t.lock.worker).thread == None && !Get(t, t.lock.worker).claimed)
      && (!t.lock.Spawning? ==> t.pool == s.pool && t.lock == Free && (first ==> t.started))
  {
  }

  /** A reaper retires the first candidate that is still at rest, exactly if there is one and the pool
      is above its minimum; otherwise it only looks after the minimum. */
  lemma ReapsExactly(s: State, candidates: seq<WorkerId>)
    requires !s.lock.Retiring?
    ensures var t := Reaps(s, candidates);
      && (t.lock.Retiring? <==>
            |s.pool.members| > s.pool.options.minWorkers
            && exists i :: 0 <= i < |candidates| && candidates[i] in s.pool.workers && Reclaimable(Get(s, candidates[i]), s.persisted))
      && (t.lock.Retiring? ==>
            exists i :: 0 <= i < |candidates| && candidates[i] in s.pool.workers
              && Reclaimable(Get(s, candidates[i]), s.persisted)
              && t == RetireBegins(s, candidates[i], Reaping(candidates[i + 1..]))
              && forall j :: 0 <= j < i ==> !(candidates[j] in s.pool.workers && Reclaimable(Get(s, candidates[j]), s.persisted)))
      && (!t.lock.Retiring? ==> t == Scheduled(s))
  {
    assert Scheduled(s).lock == s.lock;
    var i := FirstReaped(s, candidates);
    hide Reclaimable, Scheduled, Reaps;
  }

  /** The first candidate that is still free, or the number of candidates. */
  lemma {:induction false} FirstReaped(s: State, candidates: seq<WorkerId>) returns (i: nat)
    ensures i <= |candidates|
    ensures forall j :: 0 <= j < i ==> !(candidates[j] in s.pool.workers && Reclaimable(Get(s, candidates[j]), s.persisted))
    ensures i < |candidates| ==> candidates[i] in s.pool.workers && Reclaimable(Get(s, candidates[i]), s.persisted)
    ensures Reaps(s, candidates) == if i == |candidates| || |s.pool.members| <= s.pool.options.minWorkers then Scheduled(s)
                                    else RetireBegins(s, candidates[i], Reaping(candidates[i + 1..]))
  {
    hide Reclaimable, Scheduled, RetireBegins;
    if candidates == [] || (candidates[0] in s.pool.workers && Reclaimable(Get(s, candidates[0]), s.persisted)) {
      i := 0;
    } else {
      var k := FirstReaped(s, candidates[1..]);
      i := k + 1;
      assert i < |candidates| ==> candidates[i + 1..] == candidates[1..][k + 1..];
    }
  }

  /** A worker that is given up is marked so, is told to stop and is found by nobody; when it has
      stopped it is no longer in the pool. */
  lemma RetirementMeans(s: State, w: WorkerId, next: Next, choice: Choice, now: nat)
    requires w in s.pool.workers
    ensures w in RetireBegins(s, w, next).pool.workers
    ensures var t := RetireBegins(s, w, next);
      && Get(t, w).retiring && Get(t, w).state == Stopped && Get(t, w).reservations == Get(s, w).reservations
      && t.lock == Retiring(w, next) && t.ops == s.ops && t.turns == s.turns
      && forall k: ThreadId :: Find(t.pool, k) != Some(w)
  {
    var q := RetireBegins(s, w, next).pool;
    assert forall k: ThreadId :: !Serves(q, w, k);
    hide FindFrom;
  }

  /** After a failed switch nobody holds the worker.  If it still lives it is retired before the
      operation is refused; otherwise the operation is refused at once. */
  lemma FailedSwitchMeans(s: State, now: nat)
    requires Core(s) && s.lock.Switching?
    ensures s.lock.worker in SwitchReturned(s, false, now).pool.workers
    ensures var t, w, op := SwitchReturned(s, false, now), s.lock.worker, s.lock.op;
      var x, y := Get(s, w), Get(t, w);
      && y.reservations == 0 && y.thread == None
      && (x.state != Crashed && x.state != Stopped ==>
            t.lock == Retiring(w, SwitchFailed(op)) && y.retiring && y.state == Stopped && op in t.ops && t.ops[op].Waiting?)
      && (x.state == Crashed || x.state == Stopped ==> t.lock == Free && y.retiring == x.retiring && op !in t.ops)
  {
    SwitchingFacts(s);
    var w := s.lock.worker;
    var x := Released(Get(s, w), now);
    ReleasedMeans(Get(s, w), now);
    assert Shape(s) && Waits(s, s.lock.op);
    hide Core, Shape, Released;
    assert SwitchReturned(s, false, now)
        == if Available(x) then RetireBegins(Unlocked(Put(s, w, x)), w, SwitchFailed(s.lock.op)) else Refused(Unlocked(Put(s, w, x)), s.lock.op);
    hide SwitchReturned;
  }

  /** Shutting down stops every worker; none is found any more, whatever carries it. */
  lemma StopMeans(s: State)
    requires WellFormed(s.pool)
    ensures var t := AllStopped(s);
      && t.lock == Stopping && t.pool.members == s.pool.members
      && (forall w <- s.pool.members :: w in t.pool.workers && Get(t, w).state == Stopped)
      && forall k: ThreadId :: Find(t.pool, k) == None
  {
    var q := AllStopped(s).pool;
    assert forall w: WorkerId, k: ThreadId :: !Serves(q, w, k);
    forall k: ThreadId ensures Find(q, k) == None {
      if Find(q, k).Some? {
        assert false;
      }
    }
    hide FindFrom;
  }

  // ---------------------------------------------------------------- commands and timers

  /** A command counts on its own worker for as long as it runs, and its end is a use of the worker;
      one that times out makes the worker a crashed one. */
  lemma CommandsMean(s: State, w: WorkerId, now: nat)
    requires Shape(s) && w in s.pool.workers
    ensures var x := Get(s, w);
      && Apply(s, CommandBegins(w)).pool.workers == s.pool.workers[w := x.(commands := x.commands + 1)]
      && (x.commands > 0 ==> Apply(s, CommandEnds(w, now)).pool.workers
                              == s.pool.workers[w := x.(commands := x.commands - 1, lastUsed := now)])
      && (x.state != Starting && x.commands > 0 ==> Apply(s, TimesOut(w)).pool.workers == s.pool.workers[w := x.(state := Crashed)])
  {
  }

  /** The timer clears itself and asks for one check of the pool's size; shutting down clears it and
      asks for nothing. */
  lemma TimersMean(s: State)
    requires Shape(s)
    ensures var t := Apply(s, StopRequested);
      && t.pool.stopped && !t.pool.timer && t.maintains == s.maintains
      && t.pool.members == s.pool.members && t.pool.workers == s.pool.workers
    ensures s.pool.timer ==> var t := Apply(s, TimerFires);
      && !t.pool.timer && t.maintains == s.maintains + 1 && t.pool.stopped == s.pool.stopped
      && t.pool.members == s.pool.members && t.pool.workers == s.pool.workers && t.pool.attempts == s.pool.attempts
  {
  }
}
