/** A whole run of the daemon, and what a late report does at three of its states: it loses a
    reservation, dooms the session switch in flight, or makes two workers serve one thread. */
module LateReports {
  import opened Common
  import opened Pools
  import opened Scheduler
  import opened SchedulerInv
  import opened SchedulerResults
  import opened SchedulerTerminals
  import opened SchedulerReports
  import opened SchedulerCounts

  const OPTIONS := Options(0, 2, true)

  function OneWorker(x: Worker): Pool {
    Pool(OPTIONS, map[1 := x], {1}, 2, false, false, FIRST_DELAY, 0)
  }

  function TwoWorkers(x: Worker, y: Worker): Pool {
    Pool(OPTIONS, map[1 := x, 2 := y], {1, 2}, 3, false, false, FIRST_DELAY, 0)
  }

  /** A worker just reserved for an operation. */
  const FRESH_WORKER := NewWorker(0, true, 0)
  const BOUND_WORKER := FRESH_WORKER.(state := Assigned, thread := Some(7), boundTo := {7})
  /** It was running turn 0 when its prompt command timed out. */
  const LOST_WORKER := BOUND_WORKER.(state := Crashed, activeTurn := Some(0), commands := 1)

  function Idle(pool: Pool, lock: Lock, turns: map<ThreadId, Active>, ops: map<OpId, Op>, next: nat, ended: set<TurnId>): State {
    State(pool, lock, 0, false, true, false, turns, {}, ops, next, next, {7}, ended, false, false)
  }

  const SEND_0 := Waiting(ForSend(7, 0), 0)
  const SEND_1 := Waiting(ForSend(7, 1), 0)

  const S1 := Idle(Pool(OPTIONS, map[], {}, 1, false, false, FIRST_DELAY, 0), Free, map[], map[], 0, {})
  const S0 := S1.(persisted := {})
  const S2 := Idle(S1.pool, Free, map[7 := Active(0, None)], map[0 := SEND_0], 1, {})
  const S3 := Idle(OneWorker(FRESH_WORKER), Spawning(1, Selecting(0)), S2.turns, S2.ops, 1, {})
  const S4 := Idle(OneWorker(FRESH_WORKER.(state := Assigned)), Switching(1, 0), S2.turns, S2.ops, 1, {})
  const S5 := Idle(OneWorker(BOUND_WORKER), Free, S2.turns, map[0 := Holding(ForSend(7, 0), 1, false)], 1, {})
  const S6 := Idle(OneWorker(BOUND_WORKER.(state := Running, activeTurn := Some(0))), Free, map[7 := Active(0, Some(1))], map[], 1, {})
  const S7 := Idle(OneWorker(BOUND_WORKER.(state := Running, activeTurn := Some(0), commands := 1)), Free, S6.turns, map[], 1, {})
  const S8 := Idle(OneWorker(LOST_WORKER), Free, S6.turns, map[], 1, {})
  const S9 := Idle(OneWorker(LOST_WORKER), Free, map[], map[], 1, {0})
  const S10 := Idle(OneWorker(LOST_WORKER), Free, map[7 := Active(1, None)], map[1 := SEND_1], 2, {0})
  const S11 := Idle(TwoWorkers(LOST_WORKER, FRESH_WORKER), Spawning(2, Selecting(1)), S10.turns, S10.ops, 2, {0})
  const S12 := Idle(TwoWorkers(LOST_WORKER, FRESH_WORKER.(state := Assigned)), Switching(2, 1), S10.turns, S10.ops, 2, {0})
  const S13 := Idle(TwoWorkers(LOST_WORKER, BOUND_WORKER), Free, S10.turns, map[1 := Holding(ForSend(7, 1), 2, false)], 2, {0})
  /** The lost worker reports while the second one switches to the thread. */
  const BACK_WORKER := LOST_WORKER.(state := Running)
  const S14 := S12.(pool := TwoWorkers(BACK_WORKER, FRESH_WORKER.(state := Assigned)), stray := true, leaky := true)
  const S15 := S13.(pool := TwoWorkers(BACK_WORKER, BOUND_WORKER), stray := true, leaky := true)

  ghost predicate Leads(s: State, step: Step, t: State) {
    Shape(s) && Enabled(s, step) && Apply(s, step) == t
  }

  lemma PoolStarts()
    ensures Leads(Initial(OPTIONS), MaintainBegins(0), S0)
  {
  }

  lemma ThreadIsSaved()
    ensures Leads(S0, Saves(7), S1)
  {
    assert {} + {7} == {7};
  }

  lemma FirstSend()
    ensures Leads(S1, Requests(ForSend(7, 0), 0), S2)
  {
  }

  lemma FirstAcquires()
    ensures Leads(S2, Acquires(0, Spawn, 0), S3)
  {
  }

  lemma FirstStarts()
    ensures Leads(S3, StartReturns(true, 0), S4)
  {
  }

  lemma FirstSwitches()
    ensures Leads(S4, SwitchReturns(true, 0), S5)
  {
    var x := FRESH_WORKER.(state := Assigned);
    assert Bound(x, 7) == BOUND_WORKER by {
      assert {} + {7} == {7};
    }
    assert map[1 := x][1 := BOUND_WORKER] == map[1 := BOUND_WORKER];
    assert S4.ops[0 := Holding(ForSend(7, 0), 1, false)] == S5.ops;
    hide Bound;
  }

  lemma FirstCanBeAdmitted()
    ensures Shape(S5) && Enabled(S5, SendSucceeds(0))
  {
  }

  lemma FirstAdmitted()
    ensures Leads(S5, SendSucceeds(0), S6)
  {
    FirstCanBeAdmitted();
    hide Shape, Enabled;
    assert Bound(BOUND_WORKER, 7) == BOUND_WORKER by {
      assert {7} + {7} == {7};
    }
    assert S5.ops - {0} == map[];
    assert S5.turns[7 := Active(0, Some(1))] == S6.turns;
    assert S5.pool.workers[1 := BOUND_WORKER.(activeTurn := Some(0), state := Running)] == S6.pool.workers;
  }

  lemma PromptBegins()
    ensures Leads(S6, CommandBegins(1), S7)
  {
  }

  lemma PromptTimesOut()
    ensures Leads(S7, TimesOut(1), S8)
  {
  }

  lemma TurnFails()
    ensures Leads(S8, TerminalEvent(7, 0), S9)
  {
  }

  lemma SecondSend()
    ensures Leads(S9, Requests(ForSend(7, 0), 0), S10)
  {
  }

  lemma SecondAcquires()
    ensures Leads(S10, Acquires(1, Spawn, 0), S11)
  {
  }

  lemma SecondStarts()
    ensures Leads(S11, StartReturns(true, 0), S12)
  {
  }

  lemma SecondSwitches()
    ensures Leads(S12, SwitchReturns(true, 0), S13)
  {
    var x := FRESH_WORKER.(state := Assigned);
    assert Bound(x, 7) == BOUND_WORKER by {
      assert {} + {7} == {7};
    }
    assert S12.pool.workers[2 := BOUND_WORKER] == S13.pool.workers;
    assert S12.ops[1 := Holding(ForSend(7, 1), 2, false)] == S13.ops;
    hide Bound;
  }

  // ---------------------------------------------------------------- all of these can happen

  lemma {:induction false} RunsOneMore(s: State, steps: seq<Step>, t: State, step: Step, u: State)
    requires Runs(s, steps, t) && Leads(t, step, u)
    ensures Runs(s, steps + [step], u)
    decreases |steps|
  {
    hide Shape, Enabled, Apply;
    if steps == [] {
      assert [step][1..] == [];
      assert [] + [step] == [step];
    } else {
      RunsOneMore(Apply(s, steps[0]), steps[1..], t, step, u);
      assert (steps + [step])[1..] == steps[1..] + [step];
    }
  }

  lemma ReachesNext(s: State, step: Step, t: State)
    requires Reachable(s) && Leads(s, step, t)
    ensures Reachable(t)
  {
    var options: Options, steps: seq<Step> :| Runs(Initial(options), steps, s);
    hide Leads, Initial;
    RunsOneMore(Initial(options), steps, s, step, t);
  }

  lemma StartsReachable()
    ensures Reachable(Initial(OPTIONS))
  {
    var none: seq<Step> := [];
    assert Runs(Initial(OPTIONS), none, Initial(OPTIONS));
  }

  /** A send whose prompt times out, up to the end of its turn while its worker is still in the pool. */
  lemma WorkerIsLost()
    ensures Reachable(S9)
  {
    StartsReachable();
    PoolStarts();
    ThreadIsSaved();
    FirstSend();
    FirstAcquires();
    FirstStarts();
    FirstSwitches();
    FirstAdmitted();
    PromptBegins();
    PromptTimesOut();
    TurnFails();
    hide Leads, Initial, Reachable, Idle;
    ReachesNext(Initial(OPTIONS), MaintainBegins(0), S0);
    ReachesNext(S0, Saves(7), S1);
    ReachesNext(S1, Requests(ForSend(7, 0), 0), S2);
    ReachesNext(S2, Acquires(0, Spawn, 0), S3);
    ReachesNext(S3, StartReturns(true, 0), S4);
    ReachesNext(S4, SwitchReturns(true, 0), S5);
    ReachesNext(S5, SendSucceeds(0), S6);
    ReachesNext(S6, CommandBegins(1), S7);
    ReachesNext(S7, TimesOut(1), S8);
    ReachesNext(S8, TerminalEvent(7, 0), S9);
  }

  /** A second send to the same thread, up to the switch of its new worker, and beyond. */
  lemma LostWorkerIsReplaced()
    ensures Reachable(S12) && Reachable(S13)
  {
    WorkerIsLost();
    SecondSend();
    SecondAcquires();
    SecondStarts();
    SecondSwitches();
    hide Leads, Initial, Reachable, Idle;
    ReachesNext(S9, Requests(ForSend(7, 0), 0), S10);
    ReachesNext(S10, Acquires(1, Spawn, 0), S11);
    ReachesNext(S11, StartReturns(true, 0), S12);
    ReachesNext(S12, SwitchReturns(true, 0), S13);
  }

  // ---------------------------------------------------------------- what a report does there

  /** After the second switch the lost worker's report makes two workers serve the thread. */
  lemma LateReportAfterRun()
    ensures Reachable(S13) && Reports(S13, 1) && !LeaseSafe(S13, 1)
    ensures !Lease(AgentEvent(S13, 1, false).pool)
  {
    LostWorkerIsReplaced();
    hide Reachable;
    var t := AgentEvent(S13, 1, false);
    assert Serves(S13.pool, 2, 7) && Get(S13, 1).thread == Some(7);
    assert Serves(t.pool, 1, 7) && Serves(t.pool, 2, 7);
  }

  lemma ReportArrives()
    ensures Reports(S12, 1) && !LeaseSafe(S12, 1) && AgentEvent(S12, 1, false) == S14
  {
    assert S12.pool.workers[1 := BACK_WORKER] == S14.pool.workers;
  }

  lemma SwitchCanReturn()
    ensures Shape(S14) && Enabled(S14, SwitchReturns(true, 0))
  {
  }

  lemma SwitchReturnsAfterReport()
    ensures Leads(S14, SwitchReturns(true, 0), S15)
  {
    SwitchCanReturn();
    var x := FRESH_WORKER.(state := Assigned);
    assert Bound(x, 7) == BOUND_WORKER by {
      assert {} + {7} == {7};
    }
    assert S14.pool.workers[2 := BOUND_WORKER] == S15.pool.workers;
    assert S14.ops[1 := Holding(ForSend(7, 1), 2, false)] == S15.ops;
    hide Bound, Shape, Enabled;
  }

  /** Just before it, the report leaves one writer; but when the switch returns there are two. */
  lemma LateReportDuringSwitch()
    ensures Reachable(S12) && Reports(S12, 1) && !LeaseSafe(S12, 1) && AgentEvent(S12, 1, false) == S14
    ensures Lease(S14.pool) && Leads(S14, SwitchReturns(true, 0), S15) && !Lease(S15.pool)
  {
    LostWorkerIsReplaced();
    ReportArrives();
    SwitchReturnsAfterReport();
    hide Reachable, Leads, Reports, LeaseSafe, AgentEvent;
    assert Serves(S15.pool, 1, 7) && Serves(S15.pool, 2, 7);
  }

  /** Before the second send the report endangers no thread, but the reservation of the ended turn is
      lost: nobody holds the worker, and it is not reclaimable until its process closes. */
  lemma LateReportLosesReservation()
    ensures Reachable(S9) && Reports(S9, 1) && LeaseSafe(S9, 1) && !CountSafe(S9, 1)
    ensures var t := AgentEvent(S9, 1, false);
      && !Counted(t) && Available(Get(t, 1)) && Get(t, 1).reservations == 1 && Holders(t, 1) == 0
      && t.ops == map[] && t.turns == map[] && t.lock == Free
  {
    WorkerIsLost();
    hide Reachable;
    var t := AgentEvent(S9, 1, false);
    assert OpsOn(S9.ops, 1) == {} && TurnsOn(S9.turns, 1) == {};
    assert OpsOn(t.ops, 1) == {} && TurnsOn(t.turns, 1) == {};
  }

  /** There the exit of the process publishes a second terminal event for the turn that has ended. */
  lemma ExitAnnouncesAgain()
    ensures Reachable(S9) && Shape(S9) && Enabled(S9, Exits(1, false))
    ensures Get(S9, 1).thread == Some(7) && Get(S9, 1).activeTurn == Some(0) && 0 in S9.ended && Stale(S9, 1)
    ensures var t := Apply(S9, Exits(1, false)); t.turns == S9.turns && t.ended == S9.ended
  {
    WorkerIsLost();
    hide Reachable;
  }
}
