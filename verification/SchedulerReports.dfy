/** Reports from workers that the pool no longer considers alive: exactly when they endanger the
    single writer of a thread or the count of a worker's reservations. */
module SchedulerReports {
  import opened Common
  import opened Pools
  import opened Scheduler
  import opened SchedulerInv
  import opened SchedulerMoves
  import opened SchedulerTurns
  import opened SchedulerSteps
  import opened SchedulerRuns
  import opened SchedulerResults
  import opened SchedulerEndings
  import opened SchedulerTerminals
  import SchedulerProgress

  // ---------------------------------------------------------------- runs with harmless reports

  predicate Reporter(step: Step) {
    step.AgentStarts? || step.AgentSettles?
  }

  /** A step whose report, if it is one, leaves every thread with one writer and, if asked for,
      every worker in use with its reservations. */
  ghost predicate Harmless(s: State, step: Step, counted: bool) {
    Reporter(step) && step.w in s.pool.workers ==> LeaseSafe(s, step.w) && (counted ==> CountSafe(s, step.w))
  }

  ghost predicate SafelyRuns(s: State, steps: seq<Step>, t: State, counted: bool)
    decreases |steps|
  {
    if steps == [] then s == t
    else
      Shape(s) && Enabled(s, steps[0]) && Harmless(s, steps[0], counted)
      && SafelyRuns(Apply(s, steps[0]), steps[1..], t, counted)
  }

  /** The history flags change with reports only. */
  lemma FlagsMeanReports(s: State, step: Step)
    requires Core(s) && Enabled(s, step)
    ensures Apply(s, step).stray == (s.stray || !Harmless(s, step, false))
    ensures Apply(s, step).leaky == (s.leaky || !Harmless(s, step, true))
  {
    assert Shape(s);
    hide Core, Shape, LeaseSafe, CountSafe, Enabled, Apply;
    if Reporter(step) {
      ReporterFlags(s, step);
    } else if Ends(step) {
      EndFlags(s, step);
    } else {
      OthersKeepEnded(s, step);
    }
  }

  lemma ReporterFlags(s: State, step: Step)
    requires Shape(s) && Enabled(s, step) && Reporter(step)
    ensures Apply(s, step).stray == (s.stray || !Harmless(s, step, false))
    ensures Apply(s, step).leaky == (s.leaky || !Harmless(s, step, true))
  {
    assert step.w in s.pool.workers && Apply(s, step) == AgentEvent(s, step.w, step.AgentSettles?);
    hide Shape, LeaseSafe, CountSafe, Enabled, AgentEvent, Apply;
    ReportFlags(s, step.w, step.AgentSettles?);
  }

  lemma ReportFlags(s: State, w: WorkerId, settled: bool)
    requires w in s.pool.workers
    ensures var t := AgentEvent(s, w, settled);
      && t.stray == (s.stray || !LeaseSafe(s, w)) && t.leaky == (s.leaky || !LeaseSafe(s, w) || !CountSafe(s, w))
  {
    var x := Get(s, w);
    if settled && x.thread.Some? && x.activeTurn.Some? {
      SettlesEnds(Put(Marked(s, w), w, Reported(x, true)), x.thread.value, x.activeTurn.value);
    }
    hide Settles, LeaseSafe, CountSafe, Reported;
  }

  lemma EndFlags(s: State, step: Step)
    requires Shape(s) && Enabled(s, step) && (step.TerminalEvent? || step.Exits?)
    ensures var t := Apply(s, step); t.stray == s.stray && t.leaky == s.leaky
  {
    hide Shape, Settles, Departed, ScheduleRecovery;
    match step
    case TerminalEvent(thread, turn) => SettlesEnds(s, thread, turn);
    case Exits(w, _) => DepartedFlags(s, w);
  }

  lemma DepartedFlags(s: State, w: WorkerId)
    requires w in s.pool.workers
    ensures var t := Departed(s, w); t.stray == s.stray && t.leaky == s.leaky
  {
    var x := Get(s, w);
    var gone := Leaves(Put(s, w, x.(state := Crashed, activeTurn := None)), w);
    assert gone.stray == s.stray && gone.leaky == s.leaky;
    hide Settles, Leaves, Put;
    if x.thread.Some? && x.activeTurn.Some? {
      SettlesEnds(gone, x.thread.value, x.activeTurn.value);
    }
  }

  /** What the flags say of a whole run. */
  lemma {:induction false} FlagsMeanRuns(s: State, steps: seq<Step>, t: State)
    requires Core(s) && Runs(s, steps, t)
    ensures !t.stray <==> !s.stray && SafelyRuns(s, steps, t, false)
    ensures !t.leaky <==> !s.leaky && SafelyRuns(s, steps, t, true)
    decreases |steps|
  {
    if steps != [] {
      FlagsMeanReports(s, steps[0]);
      StepKeeps(s, steps[0]);
      hide Core, Enabled, Apply, Harmless;
      FlagsMeanRuns(Apply(s, steps[0]), steps[1..], t);
    }
  }

  lemma {:induction false} SafelyRunsRuns(s: State, steps: seq<Step>, t: State, counted: bool)
    requires SafelyRuns(s, steps, t, counted)
    ensures Runs(s, steps, t)
    decreases |steps|
  {
    if steps != [] {
      hide Enabled, Apply, Harmless;
      SafelyRunsRuns(Apply(s, steps[0]), steps[1..], t, counted);
    }
  }

  /** Whatever happens and whatever workers report late, as long as each late report was safe when
      it came, no two workers serve a thread. */
  lemma SafeRunsKeepTheLease(s: State, steps: seq<Step>, t: State)
    requires Core(s) && !s.stray && SafelyRuns(s, steps, t, false)
    ensures Lease(t.pool)
  {
    hide SafelyRuns;
    SafelyRunsRuns(s, steps, t, false);
    RunsKeep(s, steps, t);
    FlagsMeanRuns(s, steps, t);
  }

  /** Every worker in use is reserved exactly as often as somebody holds it. */
  ghost predicate Counted(s: State) {
    forall w <- s.pool.members :: w in s.pool.workers && Available(Get(s, w)) ==> Get(s, w).reservations == Holders(s, w)
  }

  lemma SafeRunsKeepTheCount(s: State, steps: seq<Step>, t: State)
    requires Core(s) && !s.leaky && SafelyRuns(s, steps, t, true)
    ensures Counted(t)
  {
    hide SafelyRuns;
    SafelyRunsRuns(s, steps, t, true);
    RunsKeep(s, steps, t);
    FlagsMeanRuns(s, steps, t);
    CoreIsCounted(t);
    hide Core;
  }

  lemma CoreIsCounted(s: State)
    requires Core(s) && !s.leaky
    ensures Counted(s)
  {
    forall w <- s.pool.members | w in s.pool.workers && Available(Get(s, w)) ensures Get(s, w).reservations == Holders(s, w) {
      assert Balanced(Get(s, w), true, !s.leaky, Holders(s, w));
    }
    hide Holders, Rest;
  }

  // ---------------------------------------------------------------- exactly when the lease can break

  /** Some way to go on, without another dangerous report, makes two workers serve a thread. */
  ghost predicate Breakable(s: State) {
    exists steps: seq<Step>, t: State :: SafelyRuns(s, steps, t, false) && !Lease(t.pool)
  }

  lemma BrokenNow(s: State)
    requires !Lease(s.pool)
    ensures Breakable(s)
  {
    var none: seq<Step> := [];
    assert SafelyRuns(s, none, s, false);
  }

  lemma BreaksNext(s: State, step: Step)
    requires Shape(s) && Enabled(s, step) && !Reporter(step) && Breakable(Apply(s, step))
    ensures Breakable(s)
  {
    var steps: seq<Step>, t: State :| SafelyRuns(Apply(s, step), steps, t, false) && !Lease(t.pool);
    hide Shape, Enabled, Apply, Lease;
    assert ([step] + steps)[1..] == steps;
    assert SafelyRuns(s, [step] + steps, t, false);
  }

  /** The mutex is about to hand out the thread that `w` serves. */
  ghost predicate Doomed(s: State, w: WorkerId, thread: ThreadId) {
    Core(s) && Serves(s.pool, w, thread) && Heads(s) == Some(thread)
  }

  lemma SwitchDooms(s: State, w: WorkerId, thread: ThreadId)
    requires Doomed(s, w, thread) && s.lock.Switching?
    ensures Breakable(s)
  {
    assert Shape(s) && Available(Get(s, s.lock.worker));
    hide Core, Shape, SwitchReturned, Enabled, Apply, Lease, Heads, Serves;
    SwitchBreaks(s, w, thread);
    SwitchApplies(s);
    BrokenNow(Apply(s, SwitchReturns(true, 0)));
    BreaksNext(s, SwitchReturns(true, 0));
  }

  lemma SwitchApplies(s: State)
    requires Shape(s) && s.lock.Switching? && Available(Get(s, s.lock.worker))
    ensures Enabled(s, SwitchReturns(true, 0)) && Apply(s, SwitchReturns(true, 0)) == SwitchReturned(s, true, 0)
  {
    hide Shape, SwitchReturned;
  }

  lemma SwitchBreaks(s: State, w: WorkerId, thread: ThreadId)
    requires Doomed(s, w, thread) && s.lock.Switching?
    ensures !Lease(SwitchReturned(s, true, 0).pool)
  {
    var v, op := s.lock.worker, s.lock.op;
    var u := Put(s, v, Bound(Get(s, v), thread));
    SwitchingFacts(s);
    assert Available(Get(s, v)) && ThreadOf(s.ops[op].purpose) == Some(thread) && Shape(s);
    hide Core, Heads, Shape, Granted, Bound, Serves;
    HandServes(s, w, v, thread);
    GrantedServes(u, op, v, thread);
    TwoServe(Unlocked(Granted(u, op, v)).pool, v, w, thread);
  }

  lemma TwoServe(p: Pool, v: WorkerId, w: WorkerId, thread: ThreadId)
    requires v != w && Serves(p, v, thread) && Serves(p, w, thread)
    ensures !Lease(p)
  {
  }

  /** The worker in hand would be the second one. */
  lemma HandServes(s: State, w: WorkerId, v: WorkerId, thread: ThreadId)
    requires Serves(s.pool, w, thread) && v in s.pool.workers && v in s.pool.members
    requires Get(s, v).thread == None && !Get(s, v).retiring && Available(Get(s, v))
    ensures var u := Put(s, v, Bound(Get(s, v), thread));
      w != v && Serves(u.pool, v, thread) && Serves(u.pool, w, thread)
  {
  }

  lemma GrantedServes(s: State, op: OpId, w: WorkerId, thread: ThreadId)
    requires op in s.ops && w in s.pool.workers && Available(Get(s, w))
    ensures forall v: WorkerId :: Serves(s.pool, v, thread) ==> Serves(Granted(s, op, w).pool, v, thread)
  {
    GrantedFields(s, op, w);
    hide Granted;
  }

  lemma StartDooms(s: State, w: WorkerId, thread: ThreadId)
    requires Doomed(s, w, thread) && s.lock.Spawning?
    ensures Breakable(s)
  {
    assert Shape(s);
    hide Core, Shape, Apply, Enabled, Serves, Heads, Breakable;
    StartGoesOn(s, w, thread);
    StepKeeps(s, StartReturns(true, 0));
    SwitchDooms(Apply(s, StartReturns(true, 0)), w, thread);
    BreaksNext(s, StartReturns(true, 0));
  }

  lemma StartGoesOn(s: State, w: WorkerId, thread: ThreadId)
    requires Doomed(s, w, thread) && s.lock.Spawning?
    ensures Enabled(s, StartReturns(true, 0))
    ensures var t := Apply(s, StartReturns(true, 0));
      t.lock.Switching? && Serves(t.pool, w, thread) && Heads(t) == Some(thread)
  {
    var v, op := s.lock.worker, s.lock.job.op;
    assert Shape(s) && !s.pool.stopped && Get(s, v).state == Starting && op in s.ops && w != v;
    assert ThreadOf(s.ops[op].purpose) == Some(thread);
    assert Serves(s.pool, w, thread);
    hide Core, Shape, Heads, Serves, Apply, Enabled;
    StartApplies(s);
    StartServes(s, w, thread, op, v);
  }

  lemma StartApplies(s: State)
    requires Shape(s) && s.lock.Spawning? && s.lock.job.Selecting? && Get(s, s.lock.worker).state == Starting && !s.pool.stopped
    requires ThreadOf(s.ops[s.lock.job.op].purpose).Some?
    ensures var v, op := s.lock.worker, s.lock.job.op;
      && Enabled(s, StartReturns(true, 0))
      && Apply(s, StartReturns(true, 0)) == Put(s, v, Get(s, v).(state := Assigned)).(lock := Switching(v, op))
  {
    hide Shape;
  }

  lemma StartServes(s: State, w: WorkerId, thread: ThreadId, op: OpId, v: WorkerId)
    requires op in s.ops && v in s.pool.workers && v != w
    requires ThreadOf(s.ops[op].purpose) == Some(thread) && Serves(s.pool, w, thread)
    ensures var t := Put(s, v, Get(s, v).(state := Assigned)).(lock := Switching(v, op));
      Serves(t.pool, w, thread) && Heads(t) == Some(thread)
  {
  }

  /** A place has become free for the operation: a new worker is started. */
  lemma SpawnDooms(s: State, w: WorkerId, thread: ThreadId, op: OpId)
    requires Doomed(s, w, thread) && s.lock.Retiring? && s.lock.next == ToSpawn(op)
    ensures Breakable(s)
  {
    assert Shape(s);
    hide Core, Shape, Apply, Enabled, Serves, Heads, Breakable;
    SpawnGoesOn(s, w, thread, op);
    StepKeeps(s, StopReturns(Spawn, 0));
    StartDooms(Apply(s, StopReturns(Spawn, 0)), w, thread);
    BreaksNext(s, StopReturns(Spawn, 0));
  }

  lemma SpawnGoesOn(s: State, w: WorkerId, thread: ThreadId, op: OpId)
    requires Doomed(s, w, thread) && s.lock.Retiring? && s.lock.next == ToSpawn(op)
    ensures Enabled(s, StopReturns(Spawn, 0))
    ensures var t := Apply(s, StopReturns(Spawn, 0));
      t.lock.Spawning? && Serves(t.pool, w, thread) && Heads(t) == Some(thread)
  {
    var u := Unlocked(Leaves(s, s.lock.worker));
    assert |u.pool.members| < u.pool.options.maxWorkers && u.pool.nextWorker !in u.pool.workers;
    assert Serves(u.pool, w, thread) && ThreadOf(u.ops[op].purpose) == Some(thread) && Waits(u, op);
    assert Shape(s) && !s.pool.stopped;
    hide Core, Shape, Serves, Heads, SpawnBegins, Leaves, Enabled, Apply;
    SpawnServes(u, w, thread, op);
    SpawnApplies(s, op);
  }

  lemma SpawnApplies(s: State, op: OpId)
    requires Shape(s) && s.lock.Retiring? && s.lock.next == ToSpawn(op) && !s.pool.stopped
    requires Waits(Unlocked(Leaves(s, s.lock.worker)), op)
    requires |Leaves(s, s.lock.worker).pool.members| < s.pool.options.maxWorkers
    ensures var u := Unlocked(Leaves(s, s.lock.worker));
      && Enabled(s, StopReturns(Spawn, 0))
      && Apply(s, StopReturns(Spawn, 0)) == SpawnBegins(u, u.ops[op].cwd, Selecting(op), 0)
  {
    hide Shape, SpawnBegins;
  }

  lemma SpawnServes(s: State, w: WorkerId, thread: ThreadId, op: OpId)
    requires Waits(s, op) && !s.pool.stopped && s.pool.nextWorker !in s.pool.workers && Serves(s.pool, w, thread)
    ensures var t := SpawnBegins(s, s.ops[op].cwd, Selecting(op), 0);
      t.lock.Spawning? && Serves(t.pool, w, thread) && Heads(t) == ThreadOf(s.ops[op].purpose)
  {
  }

  /** The worker that was to be replaced has stopped: the one that replaces it is not `w`, which is
      at work. */
  lemma ReplaceDooms(s: State, w: WorkerId, thread: ThreadId, op: OpId)
    requires Doomed(s, w, thread) && s.lock.Retiring? && s.lock.next == ToReplace(op) && Get(s, w).commands > 0
    ensures Breakable(s)
  {
    assert Shape(s) && w in s.pool.workers;
    hide Core, Shape, Apply, Enabled, Serves, Heads, Breakable;
    var choice := ReplaceGoesOn(s, w, thread, op);
    var step := StopReturns(choice, 0);
    StepKeeps(s, step);
    if Apply(s, step).lock.Switching? {
      SwitchDooms(Apply(s, step), w, thread);
    } else {
      StartDooms(Apply(s, step), w, thread);
    }
    BreaksNext(s, step);
  }

  lemma ReplaceGoesOn(s: State, w: WorkerId, thread: ThreadId, op: OpId) returns (choice: Choice)
    requires Doomed(s, w, thread) && s.lock.Retiring? && s.lock.next == ToReplace(op) && Get(s, w).commands > 0
    ensures Enabled(s, StopReturns(choice, 0))
    ensures var t := Apply(s, StopReturns(choice, 0));
      (t.lock.Switching? || t.lock.Spawning?) && Serves(t.pool, w, thread) && Heads(t) == Some(thread)
  {
    var u := Unlocked(Leaves(s, s.lock.worker));
    assert |u.pool.members| < u.pool.options.maxWorkers && WellFormed(u.pool) && u.pool.nextWorker !in u.pool.workers;
    assert Serves(u.pool, w, thread) && ThreadOf(u.ops[op].purpose) == Some(thread) && Waits(u, op);
    assert Shape(s) && !s.pool.stopped && u.pool == Leaves(s, s.lock.worker).pool && u.ops == s.ops;
    choice := ChoiceExists(u.pool, s.persisted, s.ops[op].cwd);
    assert choice.Reuse? || choice.Evict? ==> choice.w in u.pool.workers;
    hide Core, Shape, Heads, Leaves, Enabled, Apply, Selects, Chooses;
    SelectsServes(u, op, choice, w, thread);
    ReplaceEnabled(s, op, choice);
    ReplaceApplies(s, op, choice);
  }

  lemma ReplaceEnabled(s: State, op: OpId, choice: Choice)
    requires Shape(s) && s.lock.Retiring? && s.lock.next == ToReplace(op)
    requires Chooses(Leaves(s, s.lock.worker).pool, s.persisted, s.ops[op].cwd, choice)
    ensures Enabled(s, StopReturns(choice, 0))
  {
    hide Shape, Chooses, Leaves;
  }

  lemma ReplaceApplies(s: State, op: OpId, choice: Choice)
    requires Shape(s) && s.lock.Retiring? && s.lock.next == ToReplace(op) && Enabled(s, StopReturns(choice, 0))
    ensures var u := Unlocked(Leaves(s, s.lock.worker));
      && Waits(u, op) && (choice.Reuse? || choice.Evict? ==> choice.w in u.pool.workers)
      && Apply(s, StopReturns(choice, 0)) == Selects(Scheduled(u), op, choice, 0)
  {
    assert choice.Reuse? || choice.Evict? ==> choice.w in s.pool.workers;
    hide Selects, Chooses, ScheduleRecovery;
  }

  lemma SelectsServes(s: State, op: OpId, choice: Choice, w: WorkerId, thread: ThreadId)
    requires Waits(s, op) && Chooses(s.pool, s.persisted, s.ops[op].cwd, choice) && !s.pool.stopped
    requires |s.pool.members| < s.pool.options.maxWorkers && s.pool.nextWorker !in s.pool.workers
    requires ThreadOf(s.ops[op].purpose) == Some(thread) && Serves(s.pool, w, thread) && Get(s, w).commands > 0
    requires choice.Reuse? || choice.Evict? ==> choice.w in s.pool.workers
    ensures var t := Selects(Scheduled(s), op, choice, 0);
      (t.lock.Switching? || t.lock.Spawning?) && Serves(t.pool, w, thread) && Heads(t) == Some(thread)
  {
    var u := Scheduled(s);
    if choice.Spawn? {
      SpawnServes(u, w, thread, op);
    } else {
      assert choice.Reuse? && choice.w != w;
      ReuseServes(u, w, thread, op, choice.w);
    }
    hide Chooses, Eligible, Evictable, ScheduleRecovery, Serves, Heads, SpawnBegins, Proceeds;
  }

  lemma ReuseServes(s: State, w: WorkerId, thread: ThreadId, op: OpId, v: WorkerId)
    requires op in s.ops && v in s.pool.workers && v != w
    requires ThreadOf(s.ops[op].purpose) == Some(thread) && Serves(s.pool, w, thread)
    ensures var t := Proceeds(Put(s, v, Reserved(Get(s, v)).(state := Assigned)), op, v);
      t.lock.Switching? && Serves(t.pool, w, thread) && Heads(t) == Some(thread)
  {
  }

  /** A command given to the worker keeps it from being the one that is reused. */
  lemma BusyDooms(s: State, w: WorkerId, thread: ThreadId, op: OpId)
    requires Doomed(s, w, thread) && s.lock.Retiring? && s.lock.next == ToReplace(op)
    ensures Breakable(s)
  {
    assert Shape(s) && w in s.pool.workers;
    hide Core, Shape, Apply, Enabled, Serves, Heads, Breakable;
    BusyGoesOn(s, w, thread);
    StepKeeps(s, CommandBegins(w));
    ReplaceDooms(Apply(s, CommandBegins(w)), w, thread, op);
    BreaksNext(s, CommandBegins(w));
  }

  lemma BusyGoesOn(s: State, w: WorkerId, thread: ThreadId)
    requires Shape(s) && w in s.pool.workers && Serves(s.pool, w, thread) && s.lock.Retiring?
    ensures Enabled(s, CommandBegins(w))
    ensures var t := Apply(s, CommandBegins(w));
      && t.lock == s.lock && Heads(t) == Heads(s) && Serves(t.pool, w, thread) && Get(t, w).commands > 0
  {
    assert Apply(s, CommandBegins(w)) == Put(s, w, Get(s, w).(commands := Get(s, w).commands + 1));
    hide Apply, Shape;
  }

  lemma DoomedBreaks(s: State, w: WorkerId, thread: ThreadId)
    requires Doomed(s, w, thread)
    ensures Breakable(s)
  {
    assert s.lock.Switching? || s.lock.Spawning? || (s.lock.Retiring? && (s.lock.next.ToSpawn? || s.lock.next.ToReplace?));
    hide Doomed;
    match s.lock
    case Switching(_, _) => SwitchDooms(s, w, thread);
    case Spawning(_, _) => StartDooms(s, w, thread);
    case Retiring(_, next) =>
      if next.ToSpawn? {
        SpawnDooms(s, w, thread, next.op);
      } else {
        BusyDooms(s, w, thread, next.op);
      }
  }

  /** The worker counts as alive again; nobody else is affected. */
  ghost predicate Revives(p: Pool, q: Pool, w: WorkerId)
    requires w in p.workers
  {
    forall v: WorkerId, k: ThreadId :: Serves(q, v, k) <==>
      (if v == w then w in p.members && !p.workers[w].retiring && p.workers[w].thread == Some(k) else Serves(p, v, k))
  }

  lemma ReportRevives(s: State, w: WorkerId, settled: bool)
    requires w in s.pool.workers && s.pool.members <= s.pool.workers.Keys
    ensures Revives(s.pool, AgentEvent(s, w, settled).pool, w)
  {
    var x, t := Get(s, w), Put(Marked(s, w), w, Reported(Get(s, w), settled));
    RevivedServes(s, w, Reported(x, settled));
    assert t.pool == Put(s, w, Reported(x, settled)).pool;
    hide Settles, Revives, Marked, Reported;
    if settled && x.thread.Some? && x.activeTurn.Some? {
      SettlesServes(t, x.thread.value, x.activeTurn.value);
      SameServes(s.pool, t.pool, Settles(t, x.thread.value, x.activeTurn.value).pool, w);
    }
  }

  lemma SameServes(p: Pool, q: Pool, r: Pool, w: WorkerId)
    requires w in p.workers && Revives(p, q, w) && forall v: WorkerId, k: ThreadId :: Serves(r, v, k) == Serves(q, v, k)
    ensures Revives(p, r, w)
  {
    hide Serves;
  }

  lemma RevivedServes(s: State, w: WorkerId, y: Worker)
    requires w in s.pool.workers && Available(y) && y.thread == Get(s, w).thread && y.retiring == Get(s, w).retiring
    ensures Revives(s.pool, Put(s, w, y).pool, w)
  {
  }

  lemma SettlesServes(s: State, thread: ThreadId, turn: TurnId)
    requires s.pool.members <= s.pool.workers.Keys
    ensures forall v: WorkerId, k: ThreadId :: Serves(Settles(s, thread, turn).pool, v, k) == Serves(s.pool, v, k)
  {
    hide Find;
  }

  /** A late report leaves the mutex where it is headed. */
  lemma ReportHeads(s: State, w: WorkerId, settled: bool)
    requires Shape(s) && Reports(s, w) && !Available(Get(s, w))
    ensures Heads(AgentEvent(s, w, settled)) == Heads(s)
  {
    var x, t := Get(s, w), Put(Marked(s, w), w, Reported(Get(s, w), settled));
    assert Heads(t) == Heads(s) && Shape(t);
    hide Shape, Settles, Heads, Marked, Reported;
    if settled && x.thread.Some? && x.activeTurn.Some? {
      SettlesHeads(t, x.thread.value, x.activeTurn.value);
    }
  }

  lemma SettlesHeads(s: State, thread: ThreadId, turn: TurnId)
    requires Shape(s)
    ensures Heads(Settles(s, thread, turn)) == Heads(s)
  {
    SettlesAims(s, thread, turn);
    hide Settles, Shape;
    SameHeads(s, Settles(s, thread, turn));
  }

  /** What the mutex is up to has not changed. */
  predicate SameAim(s: State, t: State) {
    && t.lock == s.lock && t.pool.stopped == s.pool.stopped
    && (Client(s.lock).Some? ==>
          Client(s.lock).value in s.ops && Client(s.lock).value in t.ops && t.ops[Client(s.lock).value] == s.ops[Client(s.lock).value])
    && (s.lock.Spawning? || s.lock.Switching? ==>
          s.lock.worker in s.pool.workers && s.lock.worker in t.pool.workers && Get(t, s.lock.worker).state == Get(s, s.lock.worker).state)
  }

  lemma SameHeads(s: State, t: State)
    requires SameAim(s, t)
    ensures Heads(t) == Heads(s)
  {
  }

  lemma SettlesAims(s: State, thread: ThreadId, turn: TurnId)
    requires Shape(s)
    ensures SameAim(s, Settles(s, thread, turn))
  {
    SettlesFields(s, thread, turn);
    hide Settles, WellFormed;
  }

  lemma SettlesFields(s: State, thread: ThreadId, turn: TurnId)
    requires Shape(s)
    ensures var t := Settles(s, thread, turn);
      && t.lock == s.lock && t.pool.stopped == s.pool.stopped
      && (forall w <- s.pool.workers :: w in t.pool.workers && Get(t, w).state == Get(s, w).state)
      && (forall o <- s.ops :: o in t.ops && t.ops[o] == s.ops[o])
  {
    assert s.nextOp !in s.ops;
    hide Shape;
    SchedulerProgress.SettlesPuts(s, thread, turn);
    hide Settles;
  }

  /** A report that was not safe leaves a way to two workers serving one thread. */
  lemma UnsafeBreaks(s: State, w: WorkerId, settled: bool)
    requires Core(s) && Reports(s, w) && !LeaseSafe(s, w)
    ensures Breakable(AgentEvent(s, w, settled))
  {
    var u, thread := AgentEvent(s, w, settled), Get(s, w).thread.value;
    ReportRevives(s, w, settled);
    assert Serves(u.pool, w, thread);
    AgentEventKeeps(s, w, settled);
    ReportHeads(s, w, settled);
    hide Core, AgentEvent, Heads;
    if Heads(s) == Some(thread) {
      hide Serves;
      DoomedBreaks(u, w, thread);
    } else {
      var v: WorkerId :| v != w && Serves(s.pool, v, thread);
      TwoServe(u.pool, v, w, thread);
      hide Serves, Lease;
      BrokenNow(u);
    }
  }

  /** A report from a worker that still is in the pool, also from one that had timed out, keeps the
      lease for good if and only if it is safe: the worker counts as alive already, or is retiring,
      or carries no thread; or nobody else serves its thread and the mutex is not about to hand
      that thread to another worker. */
  lemma LateReportKeepsLeaseIff(s: State, w: WorkerId, settled: bool)
    requires Core(s) && !s.stray && Reports(s, w)
    ensures LeaseSafe(s, w) <==> !Breakable(AgentEvent(s, w, settled))
  {
    AgentEventKeeps(s, w, settled);
    ReportFlags(s, w, settled);
    hide Core, AgentEvent, LeaseSafe, CountSafe, Breakable, Reports;
    if LeaseSafe(s, w) {
      SafeIsUnbreakable(AgentEvent(s, w, settled));
    } else {
      UnsafeBreaks(s, w, settled);
    }
  }

  lemma SafeIsUnbreakable(s: State)
    requires Core(s) && !s.stray
    ensures !Breakable(s)
  {
    hide Core, Lease, SafelyRuns;
    forall steps: seq<Step>, t: State | SafelyRuns(s, steps, t, false) ensures Lease(t.pool) {
      SafeRunsKeepTheLease(s, steps, t);
    }
  }
}
