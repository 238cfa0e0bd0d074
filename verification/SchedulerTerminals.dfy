/** Terminal events of workers: which turn they name, and when that turn has ended before. */
module SchedulerTerminals {
  import opened Common
  import opened Pools
  import opened Scheduler
  import opened SchedulerInv
  import opened SchedulerProgress
  import opened SchedulerTurns
  import opened SchedulerRuns
  import opened SchedulerResults
  import opened SchedulerEndings

  // ---------------------------------------------------------------- whose turn a worker knows

  /** The turn a worker knows is running on it, or has ended. */
  ghost predicate Traced(s: State, w: WorkerId)
    requires w in s.pool.workers
  {
    var turn := Get(s, w).activeTurn;
    turn.Some? ==> turn.value in s.ended || exists k <- s.turns :: s.turns[k] == Active(turn.value, Some(w))
  }

  ghost predicate Marks(s: State) {
    forall w <- s.pool.workers :: Traced(s, w)
  }

  /** A worker that enters the pool knows no turn. */
  lemma NewcomersAreBlank(s: State, step: Step, w: WorkerId)
    requires Core(s) && Enabled(s, step) && w in Apply(s, step).pool.workers
    ensures w in s.pool.workers || Get(Apply(s, step), w).activeTurn == None
  {
    assert Shape(s);
    hide Core, Shape, Enabled;
    if InService(step) {
      ServedIsCalm(s, step);
      hide Apply, Users;
    } else if step.SwitchReturns? {
      SwitchAddsNobody(s, step.ok, step.now);
      hide SwitchReturned;
    } else {
      MovedSpares(s, step);
      hide Moved, Spared;
    }
  }

  lemma SwitchAddsNobody(s: State, ok: bool, now: nat)
    requires Shape(s) && s.lock.Switching?
    ensures SwitchReturned(s, ok, now).pool.workers.Keys == s.pool.workers.Keys
  {
    var w, op := s.lock.worker, s.lock.op;
    assert w in s.pool.workers && op in s.ops;
    hide Shape, Granted, Refused, RetireBegins;
    if ok {
      GrantedKeys(Put(s, w, Bound(Get(s, w), ThreadOf(s.ops[op].purpose).value)), op, w);
    } else {
      var t := Unlocked(Put(s, w, Released(Get(s, w), now)));
      RefusedKeys(t, op);
      RetireKeys(t, w, SwitchFailed(op));
    }
    hide Released, Bound;
  }

  lemma RetireKeys(s: State, w: WorkerId, next: Next)
    requires w in s.pool.workers
    ensures RetireBegins(s, w, next).pool.workers.Keys == s.pool.workers.Keys
  {
  }

  lemma GrantedKeys(s: State, op: OpId, w: WorkerId)
    requires op in s.ops && w in s.pool.workers
    ensures Granted(s, op, w).pool.workers.Keys == s.pool.workers.Keys
  {
    GrantedFields(s, op, w);
    hide Granted, GrantedWorker;
  }

  lemma RefusedKeys(s: State, op: OpId)
    requires op in s.ops
    ensures Refused(s, op).pool == s.pool
  {
  }

  /** The operation is admitted: its worker knows the turn that now runs on it. */
  lemma AdmittedIsTraced(s: State, step: Step, w: WorkerId)
    requires Core(s) && Enabled(s, step) && w in s.pool.workers && ReasonOf(s, step, w).admits
    ensures w in Apply(s, step).pool.workers && Get(Apply(s, step), w).activeTurn.Some?
    ensures exists k <- Apply(s, step).turns ::
              Apply(s, step).turns[k] == Active(Get(Apply(s, step), w).activeTurn.value, Some(w))
  {
    var t := Apply(s, step);
    var k := if step.StartSucceeds? then step.thread else s.ops[step.op].purpose.thread;
    assert k in t.turns && t.turns[k] == Active(Get(t, w).activeTurn.value, Some(w));
  }

  /** An admitted turn that goes has ended. */
  lemma GoneIsEnded(s: State, step: Step, thread: ThreadId)
    requires Core(s) && Enabled(s, step) && thread in s.turns && s.turns[thread].worker.Some?
    requires !Kept(s, Apply(s, step), thread)
    ensures Ends(step) && IsItsEnd(s, step, thread, s.turns[thread].turn) && s.turns[thread].turn in Apply(s, step).ended
  {
    assert Shape(s);
    hide Core, Shape, Enabled, Apply, Kept, Fails, IsItsEnd;
    if Ends(step) {
      ReportLoses(s, step, thread);
    } else {
      OnlyFailureLoses(s, step, thread, if InService(step) then Actor(step) else Victim(s, step));
    }
  }

  lemma TracedKeeps(s: State, step: Step, w: WorkerId)
    requires Core(s) && Marks(s) && Enabled(s, step) && w in Apply(s, step).pool.workers
    ensures Traced(Apply(s, step), w)
  {
    NewcomersAreBlank(s, step, w);
    if w in s.pool.workers {
      var t, turn := Apply(s, step), Get(s, w).activeTurn;
      assert Traced(s, w);
      hide Core, Enabled, Apply, Reclaimable, ReasonOf, Marks;
      StepSpares(s, step, w);
      if ReasonOf(s, step, w).admits {
        AdmittedIsTraced(s, step, w);
      } else if turn.Some? {
        StillTraced(s, step, w);
      }
    }
  }

  lemma StillTraced(s: State, step: Step, w: WorkerId)
    requires Core(s) && Enabled(s, step) && w in s.pool.workers && Get(s, w).activeTurn.Some? && Traced(s, w)
    ensures var t, turn := Apply(s, step), Get(s, w).activeTurn.value;
      turn in t.ended || exists k <- t.turns :: t.turns[k] == Active(turn, Some(w))
  {
    var t, turn := Apply(s, step), Get(s, w).activeTurn.value;
    hide Core, Enabled, Apply, IsItsEnd;
    EndedGrows(s, step);
    if turn !in s.ended {
      var k :| k in s.turns && s.turns[k] == Active(turn, Some(w));
      if !Kept(s, t, k) {
        GoneIsEnded(s, step, k);
      }
    }
  }

  lemma MarksKeep(s: State, step: Step)
    requires Core(s) && Marks(s) && Enabled(s, step)
    ensures Marks(Apply(s, step))
  {
    var t := Apply(s, step);
    hide Core, Enabled, Apply, Traced;
    forall w <- t.pool.workers ensures Traced(t, w) {
      TracedKeeps(s, step, w);
    }
  }

  lemma {:induction false} RunsMark(s: State, steps: seq<Step>, t: State)
    requires Core(s) && Marks(s) && Runs(s, steps, t)
    ensures Marks(t)
    decreases |steps|
  {
    if steps != [] {
      StepKeeps(s, steps[0]);
      MarksKeep(s, steps[0]);
      hide Core, Enabled, Apply, Marks;
      RunsMark(Apply(s, steps[0]), steps[1..], t);
    }
  }

  lemma ReachableIsMarked(s: State)
    requires Reachable(s)
    ensures Marks(s)
  {
    var options: Options, steps: seq<Step> :| Runs(Initial(options), steps, s);
    InitialCore(options);
    hide Core;
    RunsMark(Initial(options), steps, s);
  }

  // ---------------------------------------------------------------- a second terminal event

  /** Two workers never trace the same running turn. */
  lemma TraceIsUnique(s: State, w: WorkerId, v: WorkerId, turn: TurnId, thread: ThreadId)
    requires Core(s) && Marks(s) && v in s.pool.workers && Get(s, v).activeTurn == Some(turn)
    requires thread in s.turns && s.turns[thread] == Active(turn, Some(w))
    ensures v == w && Get(s, w).thread == Some(thread)
  {
    assert Traced(s, v) && TurnNames(s.turns, s.ended, s.nextTurn);
    assert TurnOk(thread, s.turns[thread], s.pool);
    hide Conserved, Shape, Leased, OpsOk, Exclusive, LockOk, History;
  }

  /** The report of a settled run and the exit handler publish a terminal event for the turn their
      worker knows.  In a running service it ends that turn if it is the first to do so; and it is
      not exactly when the turn is among those that have ended: then it changes no turn. */
  lemma AnnouncesAgainIff(s: State, step: Step, w: WorkerId)
    requires Reachable(s) && Shape(s) && Enabled(s, step) && !s.pool.stopped
    requires w in s.pool.workers && Get(s, w).activeTurn.Some?
    requires step == AgentSettles(w) || step == Exits(w, true) || step == Exits(w, false)
    ensures var t, turn := Apply(s, step), Get(s, w).activeTurn.value;
      && turn in t.ended
      && (turn in s.ended <==> t.turns == s.turns && t.ended == s.ended)
      && (turn in s.ended <==> forall k <- s.turns :: s.turns[k].turn != turn)
  {
    ReachableIsCore(s);
    ReachableIsMarked(s);
    assert Traced(s, w);
    TracedEnds(s, w);
    hide Core, Marks, Traced, Reachable, Enabled, Shape;
    WorkerAnnounces(s, step, w);
    hide Apply;
  }

  /** The running turn that the worker traces, if it is still running. */
  predicate RunsOn(s: State, w: WorkerId)
    requires w in s.pool.workers && Get(s, w).activeTurn.Some?
  {
    && Get(s, w).thread.Some? && Get(s, w).thread.value in s.turns
    && s.turns[Get(s, w).thread.value] == Active(Get(s, w).activeTurn.value, Some(w))
  }

  lemma WorkerAnnounces(s: State, step: Step, w: WorkerId)
    requires Shape(s) && Enabled(s, step) && !s.pool.stopped && w in s.pool.workers && Get(s, w).activeTurn.Some?
    requires step == AgentSettles(w) || step == Exits(w, true) || step == Exits(w, false)
    requires RunsOn(s, w) || forall k <- s.turns :: s.turns[k].turn != Get(s, w).activeTurn.value
    ensures var t, turn := Apply(s, step), Get(s, w).activeTurn.value;
      if RunsOn(s, w) then turn in t.ended else t.turns == s.turns && t.ended == s.ended
  {
    hide Shape, AgentEvent, Exited;
    match step
    case AgentSettles(_) => SettledAnnounces(s, w);
    case Exits(_, longLived) => ExitAnnounces(s, w, longLived);
  }

  lemma SettledAnnounces(s: State, w: WorkerId)
    requires !s.pool.stopped && w in s.pool.workers && Get(s, w).activeTurn.Some?
    requires RunsOn(s, w) || forall k <- s.turns :: s.turns[k].turn != Get(s, w).activeTurn.value
    ensures var t, turn := AgentEvent(s, w, true), Get(s, w).activeTurn.value;
      if RunsOn(s, w) then turn in t.ended else t.turns == s.turns && t.ended == s.ended
  {
    var x, t := Get(s, w), Put(Marked(s, w), w, Reported(Get(s, w), true));
    assert t.turns == s.turns && t.ended == s.ended && t.pool.stopped == s.pool.stopped;
    hide Settles, Marked, Reported, Put;
    if x.thread.Some? {
      SettlesBooks(t, x.thread.value, x.activeTurn.value);
    }
  }

  lemma ExitAnnounces(s: State, w: WorkerId, longLived: bool)
    requires !s.pool.stopped && w in s.pool.workers && Get(s, w).activeTurn.Some?
    requires RunsOn(s, w) || forall k <- s.turns :: s.turns[k].turn != Get(s, w).activeTurn.value
    ensures var t, turn := Exited(s, w, longLived), Get(s, w).activeTurn.value;
      if RunsOn(s, w) then turn in t.ended else t.turns == s.turns && t.ended == s.ended
  {
    DepartedAnnounces(s, w);
    hide Departed, ScheduleRecovery, RunsOn;
  }

  lemma DepartedAnnounces(s: State, w: WorkerId)
    requires !s.pool.stopped && w in s.pool.workers && Get(s, w).activeTurn.Some?
    requires RunsOn(s, w) || forall k <- s.turns :: s.turns[k].turn != Get(s, w).activeTurn.value
    ensures var t, turn := Departed(s, w), Get(s, w).activeTurn.value;
      if RunsOn(s, w) then turn in t.ended else t.turns == s.turns && t.ended == s.ended
  {
    var x := Get(s, w);
    var t := Leaves(Put(s, w, x.(state := Crashed, activeTurn := None)), w);
    assert t.turns == s.turns && t.ended == s.ended && t.pool.stopped == s.pool.stopped;
    hide Settles, Leaves, Put;
    if x.thread.Some? {
      SettlesBooks(t, x.thread.value, x.activeTurn.value);
    }
  }

  lemma SettlesBooks(s: State, thread: ThreadId, turn: TurnId)
    requires !s.pool.stopped
    ensures var t := Settles(s, thread, turn);
      if thread in s.turns && s.turns[thread].turn == turn && s.turns[thread].worker.Some? then turn in t.ended
      else t.turns == s.turns && t.ended == s.ended
  {
    hide Find;
  }

  lemma TracedEnds(s: State, w: WorkerId)
    requires Core(s) && w in s.pool.workers && Get(s, w).activeTurn.Some? && Traced(s, w)
    ensures var turn := Get(s, w).activeTurn.value;
      if turn in s.ended then forall k <- s.turns :: s.turns[k].turn != turn else RunsOn(s, w)
  {
    var turn := Get(s, w).activeTurn.value;
    assert TurnNames(s.turns, s.ended, s.nextTurn);
    if turn !in s.ended {
      var k :| k in s.turns && s.turns[k] == Active(turn, Some(w));
      assert TurnOk(k, s.turns[k], s.pool);
    }
    hide Conserved, Shape, Leased, OpsOk, Exclusive, LockOk, History;
  }

  /** The worker knows a turn that has ended. */
  predicate Stale(s: State, w: WorkerId) {
    w in s.pool.workers && Get(s, w).activeTurn.Some? && Get(s, w).activeTurn.value in s.ended
  }

  /** Where the service looks for the worker of a turn that ends in this step. */
  ghost function Searched(s: State, step: Step): Pool {
    if step.AgentSettles? && step.w in s.pool.workers then s.pool.(workers := s.pool.workers[step.w := Reported(Get(s, step.w), true)])
    else s.pool
  }

  /** An admitted turn that has ended is not running. */
  lemma EndedIsOver(s: State, thread: ThreadId)
    requires Core(s) && thread in s.turns
    ensures s.turns[thread].turn !in s.ended
  {
    assert TurnNames(s.turns, s.ended, s.nextTurn);
  }

  lemma AdmittedIsFresh(s: State, step: Step, w: WorkerId)
    requires Core(s) && Enabled(s, step) && w in s.pool.workers && ReasonOf(s, step, w).admits
    ensures !Stale(Apply(s, step), w)
  {
    var t := Apply(s, step);
    hide Core, Enabled, Apply, ReasonOf;
    AdmittedIsTraced(s, step, w);
    StepKeeps(s, step);
    var k :| k in t.turns && t.turns[k] == Active(Get(t, w).activeTurn.value, Some(w));
    EndedIsOver(t, k);
  }

  lemma NewlyStaleRan(s: State, step: Step, w: WorkerId)
    requires Core(s) && Marks(s) && Enabled(s, step) && Stale(Apply(s, step), w) && !Stale(s, w)
    ensures w in s.pool.workers && Get(s, w).activeTurn.Some? && RunsOn(s, w)
    ensures Get(Apply(s, step), w).activeTurn == Get(s, w).activeTurn
    ensures Ends(step) && IsItsEnd(s, step, Get(s, w).thread.value, Get(s, w).activeTurn.value)
  {
    var t := Apply(s, step);
    NewcomersAreBlank(s, step, w);
    StepKeeps(s, step);
    assert Traced(s, w);
    hide Core, Marks, Traced, Enabled, Apply, Reclaimable, ReasonOf, IsItsEnd;
    StepSpares(s, step, w);
    if ReasonOf(s, step, w).admits {
      AdmittedIsFresh(s, step, w);
    } else {
      TracedEnds(s, w);
      var k := Get(s, w).thread.value;
      if Kept(s, t, k) {
        EndedIsOver(t, k);
      } else {
        GoneIsEnded(s, step, k);
      }
    }
  }

  /** An event that finds the turn's worker makes it forget the turn. */
  lemma FoundForgets(s: State, thread: ThreadId, turn: TurnId, w: WorkerId)
    requires thread in s.turns && s.turns[thread] == Active(turn, Some(w)) && !s.pool.stopped
    requires Find(s.pool, thread) == Some(w)
    ensures w in Settles(s, thread, turn).pool.workers && Get(Settles(s, thread, turn), w).activeTurn == None
  {
    hide Find;
  }

  lemma StoppedIgnores(s: State, thread: ThreadId, turn: TurnId)
    ensures s.pool.stopped ==> Settles(s, thread, turn) == s
  {
  }

  lemma ExitForgets(s: State, w: WorkerId, longLived: bool)
    requires w in s.pool.workers
    ensures w in Exited(s, w, longLived).pool.workers && Get(Exited(s, w, longLived), w).activeTurn == None
  {
    DepartedForgets(s, w);
    hide Departed, ScheduleRecovery;
  }

  lemma DepartedForgets(s: State, w: WorkerId)
    requires w in s.pool.workers
    ensures w in Departed(s, w).pool.workers && Get(Departed(s, w), w).activeTurn == None
  {
    var x := Get(s, w);
    var gone := Leaves(Put(s, w, x.(state := Crashed, activeTurn := None)), w);
    assert w in gone.pool.workers && Get(gone, w).activeTurn == None;
    hide Settles, Leaves, Put, Gentle;
    if x.thread.Some? && x.activeTurn.Some? {
      SettlesIsCalm(gone, x.thread.value, x.activeTurn.value);
      GentleForgets(gone.pool.workers, Settles(gone, x.thread.value, x.activeTurn.value).pool.workers, w);
    }
  }

  lemma GentleForgets(a: map<WorkerId, Worker>, b: map<WorkerId, Worker>, w: WorkerId)
    requires Gentle(a, b, {}) && w in a && a[w].activeTurn == None
    ensures w in b && b[w].activeTurn == None
  {
  }

  lemma NewlyStale(s: State, step: Step, w: WorkerId)
    requires Core(s) && Marks(s) && Enabled(s, step) && Stale(Apply(s, step), w) && !Stale(s, w)
    ensures StaleStep(s, step, w)
  {
    hide Core, Marks, Settles, Find, AgentEvent, Exited;
    NewlyStaleRan(s, step, w);
    var k, turn := Get(s, w).thread.value, Get(s, w).activeTurn.value;
    match step
    case TerminalEvent(_, _) =>
      PublishedStale(s, k, turn, w);
    case AgentSettles(v) =>
      TraceIsUnique(s, w, v, turn, k);
      ReportedStale(s, w);
    case Exits(v, longLived) =>
      TraceIsUnique(s, w, v, turn, k);
      ExitForgets(s, w, longLived);
  }

  lemma PublishedStale(s: State, thread: ThreadId, turn: TurnId, w: WorkerId)
    requires Core(s) && thread in s.turns && s.turns[thread] == Active(turn, Some(w))
    requires turn in Settles(s, thread, turn).ended && w in Settles(s, thread, turn).pool.workers
    requires Get(Settles(s, thread, turn), w).activeTurn == Some(turn)
    ensures Find(s.pool, thread) != Some(w) && (!s.stray ==> !Available(Get(s, w)))
  {
    EndedIsOver(s, thread);
    StoppedIgnores(s, thread, turn);
    if Find(s.pool, thread) == Some(w) && !s.pool.stopped {
      FoundForgets(s, thread, turn, w);
    }
    if !s.stray && Available(Get(s, w)) {
      ActiveIsFound(s, thread);
    }
    hide Core, Settles, Find;
  }

  lemma ReportedStale(s: State, w: WorkerId)
    requires Core(s) && Reports(s, w) && Get(s, w).activeTurn.Some? && RunsOn(s, w)
    requires Stale(AgentEvent(s, w, true), w)
    ensures Find(Searched(s, AgentSettles(w)), Get(s, w).thread.value) != Some(w)
    ensures !s.stray ==> !Available(Get(s, w))
  {
    var t, k, turn := Put(Marked(s, w), w, Reported(Get(s, w), true)), Get(s, w).thread.value, Get(s, w).activeTurn.value;
    EndedIsOver(s, k);
    ReportedForm(s, w);
    hide Core, Settles, Find, Marked, Reported, Put, Searched;
    StoppedIgnores(t, k, turn);
    if Find(t.pool, k) == Some(w) && !t.pool.stopped {
      FoundForgets(t, k, turn, w);
    }
    if !s.stray && Available(Get(s, w)) {
      ActiveIsFound(s, k);
      ReportedLookup(s, w, k);
    }
  }

  lemma ReportedForm(s: State, w: WorkerId)
    requires w in s.pool.workers
    ensures var t := Put(Marked(s, w), w, Reported(Get(s, w), true));
      && t.pool == Searched(s, AgentSettles(w)) && t.turns == s.turns && t.ended == s.ended && t.pool.stopped == s.pool.stopped
      && w in t.pool.workers && Get(t, w).activeTurn == Get(s, w).activeTurn
  {
    hide LeaseSafe, CountSafe;
  }

  /** A report in time changes nothing for lookup. */
  lemma ReportedLookup(s: State, w: WorkerId, thread: ThreadId)
    requires Core(s) && w in s.pool.workers && Available(Get(s, w))
    ensures Find(Searched(s, AgentSettles(w)), thread) == Find(s.pool, thread)
  {
    var q := Searched(s, AgentSettles(w));
    assert WellFormed(s.pool) && WellFormed(q);
    assert forall v: WorkerId :: Serves(s.pool, v, thread) == Serves(q, v, thread);
    hide Core, Find, Serves, WellFormed, Searched;
    SameLookup(s.pool, q, thread);
  }

  /** Lookup depends on nothing but who serves the thread. */
  lemma SameLookup(p: Pool, q: Pool, thread: ThreadId)
    requires WellFormed(p) && WellFormed(q) && forall v: WorkerId :: Serves(p, v, thread) == Serves(q, v, thread)
    ensures Find(p, thread) == Find(q, thread)
  {
    hide Serves;
  }

  /** How that comes about: a terminal event of the worker's running turn, published by the service
      or by the worker's own report, ends it while the lookup by its thread does not give the
      worker.  With one writer for each thread the worker had timed out or stopped. */
  lemma StaleArises(s: State, step: Step, w: WorkerId)
    requires Reachable(s) && Shape(s) && Enabled(s, step) && Stale(Apply(s, step), w)
    ensures Stale(s, w) || StaleStep(s, step, w)
  {
    ReachableIsCore(s);
    ReachableIsMarked(s);
    hide Reachable, Core, Marks, Shape, Enabled, Apply, StaleStep;
    if !Stale(s, w) {
      NewlyStale(s, step, w);
    }
  }

  ghost predicate StaleStep(s: State, step: Step, w: WorkerId) {
    && w in s.pool.workers && Get(s, w).activeTurn.Some? && RunsOn(s, w)
    && (step == TerminalEvent(Get(s, w).thread.value, Get(s, w).activeTurn.value) || step == AgentSettles(w))
    && Find(Searched(s, step), Get(s, w).thread.value) != Some(w)
    && (!s.stray ==> !Available(Get(s, w)))
  }
}
