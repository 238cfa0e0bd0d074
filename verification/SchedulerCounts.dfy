/** A report from a worker that was no longer considered alive, and the count of reservations. */
module SchedulerCounts {
  import opened Common
  import opened Pools
  import opened Scheduler
  import opened SchedulerInv
  import opened SchedulerTurns
  import opened SchedulerSteps
  import opened SchedulerResults
  import opened SchedulerTerminals
  import opened SchedulerReports

  /** The worker's turn is running, but a worker that entered the pool earlier serves its thread:
      when the turn ends, lookup will not find its worker. */
  ghost predicate Displaced(s: State, w: WorkerId)
    requires w in s.pool.workers
  {
    && !s.pool.stopped && Get(s, w).activeTurn.Some? && RunsOn(s, w)
    && Find(Searched(s, AgentSettles(w)), Get(s, w).thread.value) != Some(w)
  }

  /** The same workers are in use, with the same reservations. */
  predicate SameUse(s: State, t: State) {
    && t.pool.members == s.pool.members && t.pool.workers.Keys == s.pool.workers.Keys
    && (forall v <- s.pool.workers ::
          t.pool.workers[v].reservations == s.pool.workers[v].reservations
          && Available(t.pool.workers[v]) == Available(s.pool.workers[v]))
  }

  lemma SameCount(s: State, t: State)
    requires SameUse(s, t) && forall v: WorkerId :: Holders(t, v) == Holders(s, v)
    ensures Counted(t) <==> Counted(s)
  {
    hide Holders, Available;
  }

  /** After the report itself, before it ends the worker's turn. */
  lemma ReportedCount(s: State, w: WorkerId, settled: bool)
    requires Counted(s) && w in s.pool.members && w in s.pool.workers
    ensures Counted(Put(Marked(s, w), w, Reported(Get(s, w), settled))) <==> CountSafe(s, w)
  {
    var t := Put(Marked(s, w), w, Reported(Get(s, w), settled));
    assert forall v: WorkerId :: Holders(t, v) == Holders(s, v);
    assert Get(t, w).reservations == Get(s, w).reservations && Available(Get(t, w));
    assert t.pool == Put(s, w, Get(t, w)).pool;
    hide Holders, Marked, Reported;
  }

  /** A turn that ends without its worker being found leaves a reservation nobody will return. */
  lemma UnfoundIsLost(s: State, thread: ThreadId, w: WorkerId)
    requires thread in s.turns && s.turns[thread].worker == Some(w)
    requires w in s.pool.members && w in s.pool.workers && Available(Get(s, w)) && Holders(s, w) <= Get(s, w).reservations
    ensures !Counted(TurnEnded(s, thread))
  {
    TurnsOnDrop(s.turns, thread);
    assert Holders(TurnEnded(s, thread), w) == Holders(s, w) - 1;
    hide Holders;
  }

  /** A turn that ends and hands its worker to its cleanup leaves every count as it was. */
  lemma FoundIsHandedOn(s: State, thread: ThreadId, turn: TurnId, w: WorkerId)
    requires thread in s.turns && s.turns[thread] == Active(turn, Some(w)) && s.nextOp !in s.ops
    requires Find(s.pool, thread) == Some(w) && !s.pool.stopped
    ensures Counted(Settles(s, thread, turn)) <==> Counted(s)
  {
    var t := Settles(s, thread, turn);
    assert SameUse(s, t);
    HoldersHandedOn(s, t, thread, w);
    hide Settles, Find, SameUse;
    SameCount(s, t);
  }

  lemma SettledCount(s: State, w: WorkerId)
    requires Core(s) && Marks(s) && Reports(s, w) && Get(s, w).activeTurn.Some? && Get(s, w).thread.Some?
    ensures var t, x := Put(Marked(s, w), w, Reported(Get(s, w), true)), Get(s, w);
      Counted(Settles(t, x.thread.value, x.activeTurn.value)) <==> Counted(t) && !Displaced(s, w)
  {
    var x, t := Get(s, w), Put(Marked(s, w), w, Reported(Get(s, w), true));
    var thread, turn := x.thread.value, x.activeTurn.value;
    ReportedForm(s, w);
    ReportedBooks(s, w);
    RunsOrNot(s, w);
    hide Core, Marks, Marked, Reported, Put, Searched, Counted, Find, Holders;
    if s.pool.stopped || !RunsOn(s, w) {
      SettlesNothing(t, thread, turn);
    } else if Find(t.pool, thread) == Some(w) {
      FoundIsHandedOn(t, thread, turn, w);
    } else {
      UnfoundIsLost(t, thread, w);
      EndsOnly(t, thread, turn, w);
    }
  }

  lemma SettlesNothing(s: State, thread: ThreadId, turn: TurnId)
    requires s.pool.stopped || thread !in s.turns || s.turns[thread].turn != turn || s.turns[thread].worker == None
    ensures Settles(s, thread, turn) == s
  {
  }

  lemma EndsOnly(s: State, thread: ThreadId, turn: TurnId, w: WorkerId)
    requires !s.pool.stopped && thread in s.turns && s.turns[thread] == Active(turn, Some(w)) && Find(s.pool, thread) != Some(w)
    ensures Settles(s, thread, turn) == TurnEnded(s, thread)
  {
  }

  lemma ReportedBooks(s: State, w: WorkerId)
    requires Core(s) && Reports(s, w)
    ensures var t := Put(Marked(s, w), w, Reported(Get(s, w), true));
      && t.nextOp !in t.ops && w in t.pool.members && w in t.pool.workers && Available(Get(t, w))
      && Holders(t, w) <= Get(t, w).reservations
  {
    assert Balanced(Get(s, w), w in s.pool.members, !s.leaky, Holders(s, w));
    var t := Put(Marked(s, w), w, Reported(Get(s, w), true));
    assert Holders(t, w) == Holders(s, w);
    assert s.nextOp !in s.ops;
    hide Core, Holders, LeaseSafe, CountSafe;
  }

  /** A running turn of the worker's thread and turn name is the worker's own. */
  lemma RunsOrNot(s: State, w: WorkerId)
    requires Core(s) && Marks(s) && w in s.pool.workers && Get(s, w).activeTurn.Some? && Get(s, w).thread.Some?
    ensures var thread, turn := Get(s, w).thread.value, Get(s, w).activeTurn.value;
      !RunsOn(s, w) ==> thread !in s.turns || s.turns[thread].turn != turn || s.turns[thread].worker == None
  {
    var thread, turn := Get(s, w).thread.value, Get(s, w).activeTurn.value;
    if thread in s.turns && s.turns[thread].turn == turn && s.turns[thread].worker.Some? {
      TraceIsUnique(s, s.turns[thread].worker.value, w, turn, thread);
    }
    hide Core, Marks;
  }

  /** After a report from a worker that still is in the pool every worker in use is reserved exactly
      as often as somebody holds it, if and only if the reporting worker was, and it does not settle
      a running turn while an earlier worker serves its thread. */
  lemma LateReportKeepsCountIff(s: State, w: WorkerId, settled: bool)
    requires Reachable(s) && !s.leaky && Reports(s, w)
    ensures Counted(AgentEvent(s, w, settled)) <==> CountSafe(s, w) && !(settled && Displaced(s, w))
  {
    ReachableIsCore(s);
    ReachableIsMarked(s);
    CoreIsCounted(s);
    hide Core, Marks, Counted, CountSafe, Reachable, Marked, Reported, Settles;
    ReportedCount(s, w, settled);
    if settled && Get(s, w).activeTurn.Some? && Get(s, w).thread.Some? {
      SettledCount(s, w);
    }
  }
}
