/** The scheduler's main results: what holds in every state of every run. */
module SchedulerRuns {
  import opened Common
  import opened Pools
  import opened Scheduler
  import opened SchedulerInv
  import opened SchedulerMoves
  import opened SchedulerTurns
  import opened SchedulerSteps

  // ---------------------------------------------------------------- operations of the service

  lemma RetainedForKeeps(s: State, op: OpId)
    requires Core(s) && Waits(s, op) && ThreadOf(s.ops[op].purpose).Some? && !Works(s.lock, op)
    ensures Core(RetainedFor(s, op))
  {
    assert OpOk(s.ops[op], s.turns, s.mutations, s.pool.workers);
    hide Core, Refused;
    match Find(s.pool, ThreadOf(s.ops[op].purpose).value)
    case None =>
    case Some(w) =>
      RefusedKeeps(s, op);
      RetainKeeps(s, op, w);
  }

  /** Giving up what the operation reserved, and then its worker. */
  lemma EndsKeeps(s: State, op: OpId, now: nat)
    requires Core(s) && Holds(s, op)
    ensures Core(GivesBack(Unclaimed(s, s.ops[op].purpose), op, now))
    ensures Get(s, s.ops[op].worker).reservations >= 1
  {
    HoldingIsCounted(s, op);
    EndsForm(s, op, now);
    hide Core, GivesBack, Works, Handles, Balanced, Holders;
    DisownKeeps(s, op);
    GivesBackKeeps(Disowned(s, op), op, now);
  }

  lemma EndsForm(s: State, op: OpId, now: nat)
    requires Holds(s, op)
    ensures GivesBack(Unclaimed(s, s.ops[op].purpose), op, now) == GivesBack(Disowned(s, op), op, now)
  {
    assert Disowned(s, op).ops - {op} == s.ops - {op};
  }

  /** Nothing else is attached to the worker of an operation that expects it without a thread. */
  lemma BareIsBindable(s: State, op: OpId, thread: ThreadId)
    requires Core(s) && Holds(s, op) && s.ops[op].purpose.ForStart? && Available(Get(s, s.ops[op].worker))
    requires Unheard(s, thread)
    ensures Bindable(Disowned(s, op), s.ops[op].worker, thread)
  {
    BareIsAlone(s, op);
    assert Unheard(Disowned(s, op), thread);
    UnheardIsClear(Disowned(s, op), thread);
    hide Core, Unheard, Clear;
  }

  lemma BareIsAlone(s: State, op: OpId)
    requires Core(s) && Holds(s, op) && s.ops[op].purpose.ForStart? && Available(Get(s, s.ops[op].worker))
    ensures var w := s.ops[op].worker;
      && !Handles(s.lock, w) && Get(s, w).thread == None && Get(s, w).claimed
      && (forall o <- s.ops :: On(s.ops[o], w) ==> o == op)
      && (forall k <- s.turns :: !Names(s.turns[k], w))
  {
    var w := s.ops[op].worker;
    HoldingIsCounted(s, op);
    assert OpOk(s.ops[op], s.turns, s.mutations, s.pool.workers);
    assert op in OpsOn(s.ops, w);
    assert OpsOn(s.ops, w) == {op} by {
      assert |OpsOn(s.ops, w) - {op}| == 0;
    }
    assert forall o <- s.ops :: On(s.ops[o], w) ==> o in OpsOn(s.ops, w);
    BareIsUnnamed(s, op);
  }

  lemma UnheardIsClear(s: State, thread: ThreadId)
    requires Unheard(s, thread)
    ensures Clear(s, thread)
  {
  }

  lemma BareKeeps(s: State, op: OpId, thread: ThreadId)
    requires Core(s) && Holds(s, op) && s.ops[op].purpose.ForStart? && Available(Get(s, s.ops[op].worker))
    requires Unheard(s, thread)
    ensures var d, w := Disowned(s, op), s.ops[op].worker; Core(Put(d, w, Bound(Get(d, w), thread)))
  {
    HoldingIsCounted(s, op);
    BareIsBindable(s, op, thread);
    hide Core, Bindable, Unheard;
    DisownKeeps(s, op);
    BindKeeps(Disowned(s, op), s.ops[op].worker, thread);
  }

  lemma StartSucceededKeeps(s: State, op: OpId, thread: ThreadId, prompted: bool)
    requires Core(s) && Answered(s, op) && s.ops[op].purpose.ForStart? && Unheard(s, thread)
    ensures Core(StartSucceeded(s, op, thread, prompted))
  {
    var u, y := Named(s, op, thread), Started(s, op, thread, prompted);
    StartSucceededForm(s, op, thread, prompted);
    BareCanBegin(s, op, thread, y);
    NamedKeeps(s, op, thread);
    hide Core, CanBegin, Unheard, TurnBegins, StartSucceeded, Named, Started;
    TurnBeginsKeeps(u, op, thread, s.nextTurn, y);
  }

  lemma NamedKeeps(s: State, op: OpId, thread: ThreadId)
    requires Core(s) && Answered(s, op) && s.ops[op].purpose.ForStart? && Unheard(s, thread)
    ensures Core(Named(s, op, thread))
  {
    hide Core, Unheard, Bound;
    BareKeeps(s, op, thread);
    var d, w := Disowned(s, op), s.ops[op].worker;
    NextTurnKeeps(Put(d, w, Bound(Get(d, w), thread)));
  }

  /** The worker carries the new thread and a turn name has been taken. */
  function Named(s: State, op: OpId, thread: ThreadId): State
    requires Holds(s, op)
  {
    var d, w := Disowned(s, op), s.ops[op].worker;
    Put(d, w, Bound(Get(d, w), thread)).(nextTurn := s.nextTurn + 1)
  }

  function Started(s: State, op: OpId, thread: ThreadId, prompted: bool): Worker
    requires Holds(s, op)
  {
    var x := Get(s, s.ops[op].worker);
    Bound(x, thread).(activeTurn := Some(s.nextTurn), state := if prompted then Running else x.state)
  }

  lemma StartSucceededForm(s: State, op: OpId, thread: ThreadId, prompted: bool)
    requires Holds(s, op) && s.ops[op].purpose.ForStart?
    ensures TurnBegins(Named(s, op, thread), op, thread, s.nextTurn, Started(s, op, thread, prompted))
         == StartSucceeded(s, op, thread, prompted)
  {
    var w, y := s.ops[op].worker, Started(s, op, thread, prompted);
    assert Named(s, op, thread).ops - {op} == s.ops - {op};
    assert Named(s, op, thread).pool.workers[w := y] == s.pool.workers[w := y];
  }

  lemma BareCanBegin(s: State, op: OpId, thread: ThreadId, y: Worker)
    requires Core(s) && Answered(s, op) && s.ops[op].purpose.ForStart? && Unheard(s, thread)
    requires y == Started(s, op, thread, y.state == Running)
    ensures CanBegin(Named(s, op, thread), op, thread, s.nextTurn, y)
  {
    assert OpOk(s.ops[op], s.turns, s.mutations, s.pool.workers);
    assert forall k <- s.turns :: TurnOk(k, s.turns[k], s.pool);
  }

  lemma NextTurnKeeps(s: State)
    requires Core(s)
    ensures Core(s.(nextTurn := s.nextTurn + 1))
  {
    var t := s.(nextTurn := s.nextTurn + 1);
    assert forall v :: Holders(t, v) == Holders(s, v);
    assert Shape(t) && LockOk(t) && OpsOk(t);
    hide Conserved, Holders, TurnOk, Shape, OpsOk, Leased, History, Exclusive, LockOk;
    ConservedSame(s, t);
    SameLease(s, t);
    ExclusiveSame(s, t);
  }

  lemma StartFailedKeeps(s: State, op: OpId, bound: Option<ThreadId>, now: nat)
    requires Core(s) && Enabled(s, StartFails(op, bound, now))
    ensures Core(StartFailed(s, op, bound, now))
  {
    var w := s.ops[op].worker;
    var b := Unbound(s, op, bound);
    UnboundKeeps(s, op, bound);
    StartFailedForm(s, op, bound, now);
    hide Core, GivesBack, Unbound, StartFailed, Enabled;
    GivesBackKeeps(Put(b, w, Get(b, w).(activeTurn := None)), op, now);
  }

  /** The worker of a failed start, with the thread it may have got, forgets its turn. */
  lemma UnboundKeeps(s: State, op: OpId, bound: Option<ThreadId>)
    requires Core(s) && Holds(s, op) && s.ops[op].purpose.ForStart?
    requires bound.Some? ==> Available(Get(s, s.ops[op].worker)) && Unheard(s, bound.value)
    ensures var b, w := Unbound(s, op, bound), s.ops[op].worker;
      && Core(Put(b, w, Get(b, w).(activeTurn := None)))
      && Holds(b, op) && b.ops[op].worker == w && b.ops[op].purpose.ForModels?
  {
    UnboundCore(s, op, bound);
    UnboundFacts(s, op, bound);
    hide Core, Unbound, Unheard;
    IdleKeeps(Unbound(s, op, bound), s.ops[op].worker);
  }

  lemma UnboundFacts(s: State, op: OpId, bound: Option<ThreadId>)
    requires Core(s) && Holds(s, op) && s.ops[op].purpose.ForStart?
    ensures var b, w := Unbound(s, op, bound), s.ops[op].worker;
      && Holds(b, op) && b.ops[op].worker == w && b.ops[op].purpose.ForModels?
      && !Handles(b.lock, w) && forall k <- b.turns :: !Names(b.turns[k], w)
  {
    HoldingIsCounted(s, op);
    BareIsUnnamed(s, op);
    hide Core, Bound, Handles, Works, Holders, Balanced;
  }

  lemma UnboundCore(s: State, op: OpId, bound: Option<ThreadId>)
    requires Core(s) && Holds(s, op) && s.ops[op].purpose.ForStart?
    requires bound.Some? ==> Available(Get(s, s.ops[op].worker)) && Unheard(s, bound.value)
    ensures Core(Unbound(s, op, bound))
  {
    HoldingIsCounted(s, op);
    hide Core, Bound, Handles, Works, Holders, Balanced, Unheard;
    if bound.Some? {
      BareKeeps(s, op, bound.value);
    } else {
      DisownKeeps(s, op);
    }
  }

  /** What remains of a start that failed, before it gives its worker back. */
  function Unbound(s: State, op: OpId, bound: Option<ThreadId>): State
    requires Holds(s, op)
  {
    var d, w := Disowned(s, op), s.ops[op].worker;
    if bound.Some? then Put(d, w, Bound(Get(d, w), bound.value)) else d
  }

  lemma StartFailedForm(s: State, op: OpId, bound: Option<ThreadId>, now: nat)
    requires Holds(s, op) && s.ops[op].purpose.ForStart?
    ensures var b, w := Unbound(s, op, bound), s.ops[op].worker;
      GivesBack(Put(b, w, Get(b, w).(activeTurn := None)), op, now) == StartFailed(s, op, bound, now)
  {
    var b, w := Unbound(s, op, bound), s.ops[op].worker;
    assert b.ops - {op} == s.ops - {op};
    var x := Get(b, w).(activeTurn := None);
    assert b.pool.workers[w := x] == s.pool.workers[w := x];
  }

  lemma BareIsUnnamed(s: State, op: OpId)
    requires Core(s) && Holds(s, op) && s.ops[op].purpose.ForStart?
    ensures forall k <- s.turns :: !Names(s.turns[k], s.ops[op].worker)
  {
    assert OpOk(s.ops[op], s.turns, s.mutations, s.pool.workers);
    assert forall k <- s.turns :: TurnOk(k, s.turns[k], s.pool);
  }

  /** A worker no turn names may forget its turn. */
  lemma IdleKeeps(s: State, w: WorkerId)
    requires Core(s) && w in s.pool.workers && !Handles(s.lock, w)
    requires forall k <- s.turns :: !Names(s.turns[k], w)
    ensures Core(Put(s, w, Get(s, w).(activeTurn := None)))
  {
    assert Balanced(Get(s, w), w in s.pool.members, !s.leaky, Holders(s, w));
    TurnlessBalance(Get(s, w), w in s.pool.members, !s.leaky, Holders(s, w));
    hide Rest, Conserved, Balanced, Holders;
    TweakKeeps(s, w, Get(s, w).(activeTurn := None));
  }

  lemma SendSucceededKeeps(s: State, op: OpId)
    requires Core(s) && Answered(s, op) && s.ops[op].purpose.ForSend?
    ensures Core(SendSucceeded(s, op))
  {
    var p := s.ops[op].purpose;
    var y := Get(s, s.ops[op].worker).(activeTurn := Some(p.turn), state := Running);
    HoldingIsCounted(s, op);
    SendCanBegin(s, op, y);
    SendSucceededForm(s, op, y);
    hide Core, CanBegin, TurnBegins, SendSucceeded, Disowned, Bound, Holders, Balanced;
    DisownKeeps(s, op);
    TurnBeginsKeeps(Disowned(s, op), op, p.thread, p.turn, y);
  }

  lemma SendSucceededForm(s: State, op: OpId, y: Worker)
    requires Holds(s, op) && s.ops[op].purpose.ForSend?
    requires y == Bound(Get(s, s.ops[op].worker), s.ops[op].purpose.thread).(activeTurn := Some(s.ops[op].purpose.turn), state := Running)
    ensures TurnBegins(Disowned(s, op), op, s.ops[op].purpose.thread, s.ops[op].purpose.turn, y) == SendSucceeded(s, op)
  {
    var d, p, w := Disowned(s, op), s.ops[op].purpose, s.ops[op].worker;
    assert d.ops - {op} == s.ops - {op};
    assert d.turns[p.thread := Active(p.turn, Some(w))] == s.turns[p.thread := Active(p.turn, Some(w))];
  }

  lemma SendCanBegin(s: State, op: OpId, y: Worker)
    requires Core(s) && Answered(s, op) && s.ops[op].purpose.ForSend?
    requires y == Get(s, s.ops[op].worker).(activeTurn := Some(s.ops[op].purpose.turn), state := Running)
    ensures CanBegin(Disowned(s, op), op, s.ops[op].purpose.thread, s.ops[op].purpose.turn, y)
    ensures Bound(Get(s, s.ops[op].worker), s.ops[op].purpose.thread) == Get(s, s.ops[op].worker)
  {
    SendIsReserved(s, op);
    hide Core;
    assert Get(s, s.ops[op].worker).boundTo + {s.ops[op].purpose.thread} == Get(s, s.ops[op].worker).boundTo;
  }

  /** What a send that holds its worker relies on. */
  lemma SendIsReserved(s: State, op: OpId)
    requires Rest(s) && Holds(s, op) && s.ops[op].purpose.ForSend?
    ensures var p, x := s.ops[op].purpose, Get(s, s.ops[op].worker);
      && x.thread == Some(p.thread) && p.thread in x.boundTo
      && p.thread in s.turns && s.turns[p.thread] == Active(p.turn, None) && p.thread !in s.mutations
      && p.turn < s.nextTurn && p.turn !in s.ended
      && (forall k <- s.turns :: k != p.thread ==> s.turns[k].turn != p.turn && !Names(s.turns[k], s.ops[op].worker))
  {
    assert OpOk(s.ops[op], s.turns, s.mutations, s.pool.workers);
    assert forall k <- s.turns :: TurnOk(k, s.turns[k], s.pool);
    assert Recorded(s.pool.options, Get(s, s.ops[op].worker));
    hide Shape, Leased, OpsOk, LockOk, History;
  }

  lemma PublishedKeeps(s: State, op: OpId, thread: ThreadId)
    requires Core(s) && Forks(s, op, thread)
    ensures Core(Published(s, op, thread))
  {
    var w := s.ops[op].worker;
    var x := s.ops[op].(published := true);
    var u := s.(ops := s.ops[op := x]);
    HoldingIsCounted(s, op);
    assert OpOk(s.ops[op], s.turns, s.mutations, s.pool.workers);
    ForkIsBindable(s, op, thread);
    OpsOnPut(s.ops, op, x);
    assert forall v :: Holders(u, v) == Holders(s, v);
    hide Rest, Conserved, Bindable, Unheard, Holders;
    PutOpRest(s, op, x);
    ConservedSame(s, u);
    BindKeeps(u, w, thread);
  }

  lemma ForkIsBindable(s: State, op: OpId, thread: ThreadId)
    requires Core(s) && Forks(s, op, thread)
    ensures Bindable(s.(ops := s.ops[op := s.ops[op].(published := true)]), s.ops[op].worker, thread)
  {
    var w := s.ops[op].worker;
    HoldingIsCounted(s, op);
    ForkIsAlone(s, op);
    var u := s.(ops := s.ops[op := s.ops[op].(published := true)]);
    assert Unheard(u, thread);
    UnheardIsClear(u, thread);
    hide Core, Unheard, Clear, Holders, Balanced;
  }

  /** Besides the fork itself only operations that do not mind hold its worker. */
  lemma ForkIsAlone(s: State, op: OpId)
    requires Rest(s) && Holds(s, op) && s.ops[op].purpose.ForMutation? && !s.ops[op].published
    ensures forall o <- s.ops :: o != op && On(s.ops[o], s.ops[op].worker) ==> Indifferent(s.ops[o])
    ensures forall k <- s.turns :: !Names(s.turns[k], s.ops[op].worker)
  {
    var w := s.ops[op].worker;
    assert OpOk(s.ops[op], s.turns, s.mutations, s.pool.workers);
    assert forall k <- s.turns :: TurnOk(k, s.turns[k], s.pool);
    forall o <- s.ops | o != op && On(s.ops[o], w) ensures Indifferent(s.ops[o]) {
      assert OpOk(s.ops[o], s.turns, s.mutations, s.pool.workers);
    }
  }

  lemma MutationEndedKeeps(s: State, op: OpId, bound: Option<ThreadId>, now: nat)
    requires Core(s) && Holds(s, op) && s.ops[op].purpose.ForMutation? && (bound.Some? ==> Forks(s, op, bound.value))
    ensures Core(MutationEnded(s, op, bound, now))
  {
    hide Core;
    if bound.Some? {
      var u := Published(s, op, bound.value);
      PublishedKeeps(s, op, bound.value);
      EndsKeeps(u, op, now);
      assert u.ops - {op} == s.ops - {op};
    } else {
      EndsKeeps(s, op, now);
    }
  }

  // ---------------------------------------------------------------- every step, every run

  /** Whatever happens next, the invariant survives it. */
  lemma StepKeeps(s: State, step: Step)
    requires Core(s) && Enabled(s, step)
    ensures Core(Apply(s, step))
  {
    hide Core, Apply, Enabled;
    match Kind(step)
    case Quiet => QuietStepKeeps(s, step);
    case Commands => CommandStepKeeps(s, step);
    case Reporting => ReportStepKeeps(s, step);
    case Lifecycle => LifecycleStepKeeps(s, step);
    case Admission => AdmissionStepKeeps(s, step);
    case Service => ServiceStepKeeps(s, step);
  }

  datatype StepKind = Quiet | Commands | Reporting | Lifecycle | Admission | Service

  function Kind(step: Step): StepKind {
    match step
    case Saves(_) => Quiet
    case Vanishes(_) => Quiet
    case TimerFires => Quiet
    case StopRequested => Quiet
    case MaintainBegins(_) => Lifecycle
    case StartReturns(_, _) => Lifecycle
    case DisposeReturns => Lifecycle
    case StopReturns(_, _) => Lifecycle
    case Acquires(_, _, _) => Lifecycle
    case SwitchReturns(_, _) => Lifecycle
    case ReapBegins(_) => Lifecycle
    case StopBegins => Lifecycle
    case StopEnds => Lifecycle
    case Requests(_, _) => Admission
    case Retains(_) => Admission
    case StartSucceeds(_, _, _) => Admission
    case StartFails(_, _, _) => Admission
    case SendSucceeds(_) => Admission
    case SendFails(_, _) => Admission
    case Publishes(_, _) => Service
    case MutationEnds(_, _, _) => Service
    case Finishes(_, _) => Service
    case TerminalEvent(_, _) => Service
    case AbortBegins(_) => Service
    case AbortEnds(_, _) => Service
    case CommandBegins(_) => Commands
    case CommandEnds(_, _) => Commands
    case TimesOut(_) => Commands
    case _ => Reporting
  }

  lemma CommandStepKeeps(s: State, step: Step)
    requires Core(s) && Enabled(s, step) && Kind(step) == Commands
    ensures Core(Apply(s, step))
  {
    var y := Get(Apply(s, step), step.w);
    assert Restates(Get(s, step.w), y) && Apply(s, step) == Put(s, step.w, y);
    hide Core, Apply, Restates;
    RestateKeeps(s, step.w, y);
  }

  lemma AbortBeginsKeeps(s: State, thread: ThreadId)
    requires Core(s) && Enabled(s, AbortBegins(thread))
    ensures Core(Apply(s, AbortBegins(thread)))
  {
    var w := s.turns[thread].worker.value;
    RestateKeeps(s, w, Get(s, w).(aborting := Some(s.turns[thread].turn)));
  }

  lemma AbortEndsKeep(s: State, w: WorkerId, turn: TurnId)
    requires Core(s) && Enabled(s, AbortEnds(w, turn))
    ensures Core(Apply(s, AbortEnds(w, turn)))
  {
    var y := Get(s, w).(aborting := None);
    assert Apply(s, AbortEnds(w, turn)) == if Get(s, w).aborting == Some(turn) then Put(s, w, y) else s;
    hide Core, Apply;
    RestateKeeps(s, w, y);
  }

  lemma ReportStepKeeps(s: State, step: Step)
    requires Core(s) && Enabled(s, step) && Kind(step) == Reporting
    ensures Core(Apply(s, step))
  {
    hide Core;
    match step
    case AgentStarts(w) => AgentEventKeeps(s, w, false);
    case AgentSettles(w) => AgentEventKeeps(s, w, true);
    case Exits(w, longLived) => ExitedKeeps(s, w, longLived);
  }

  lemma QuietStepKeeps(s: State, step: Step)
    requires Core(s) && Enabled(s, step) && Kind(step) == Quiet
    ensures Core(Apply(s, step))
  {
    assert Shape(s);
    hide Rest, Conserved, Shape;
    match step
    case Saves(_) => IrrelevantKeeps(s, Apply(s, step));
    case Vanishes(_) => IrrelevantKeeps(s, Apply(s, step));
    case TimerFires => IrrelevantKeeps(s, Apply(s, step));
    case StopRequested => IrrelevantKeeps(s, Apply(s, step));
  }

  lemma LifecycleStepKeeps(s: State, step: Step)
    requires Core(s) && Enabled(s, step) && Kind(step) == Lifecycle
    ensures Core(Apply(s, step))
  {
    hide Core;
    match step
    case MaintainBegins(now) => MaintainBegunKeeps(s, now);
    case StartReturns(ok, now) => StartReturnedKeeps(s, ok, now);
    case DisposeReturns => DisposedKeeps(s);
    case StopReturns(choice, now) => StopReturnedKeeps(s, choice, now);
    case Acquires(op, choice, now) => AcquiredKeeps(s, op, choice, now);
    case SwitchReturns(ok, now) => SwitchReturnedKeeps(s, ok, now);
    case ReapBegins(candidates) => ReapsKeeps(s, candidates);
    case StopBegins => AllStoppedKeeps(s);
    case StopEnds => EmptiedKeeps(s);
  }

  lemma AdmissionStepKeeps(s: State, step: Step)
    requires Core(s) && Enabled(s, step) && Kind(step) == Admission
    ensures Core(Apply(s, step))
  {
    assert Shape(s);
    hide Rest, Conserved, Shape, Unheard;
    match step
    case Requests(purpose, cwd) => RequestedKeeps(s, purpose, cwd);
    case Retains(op) => RetainedForKeeps(s, op);
    case StartSucceeds(op, thread, prompted) => StartSucceededKeeps(s, op, thread, prompted);
    case StartFails(op, bound, now) => StartFailedKeeps(s, op, bound, now);
    case SendSucceeds(op) => SendSucceededKeeps(s, op);
    case SendFails(op, now) => EndsKeeps(s, op, now);
  }

  lemma ServiceStepKeeps(s: State, step: Step)
    requires Core(s) && Enabled(s, step) && Kind(step) == Service
    ensures Core(Apply(s, step))
  {
    hide Core;
    match step
    case Publishes(op, thread) => PublishedKeeps(s, op, thread);
    case MutationEnds(op, bound, now) => MutationEndedKeeps(s, op, bound, now);
    case Finishes(op, now) =>
      assert Unclaimed(s, s.ops[op].purpose) == s;
      EndsKeeps(s, op, now);
    case TerminalEvent(thread, turn) => SettlesKeeps(s, thread, turn);
    case AbortBegins(thread) => AbortBeginsKeeps(s, thread);
    case AbortEnds(w, turn) => AbortEndsKeep(s, w, turn);
  }

  lemma InitialCore(options: Options)
    ensures Core(Initial(options))
  {
  }

  lemma {:induction false} RunsKeep(s: State, steps: seq<Step>, t: State)
    requires Core(s) && Runs(s, steps, t)
    ensures Core(t)
    decreases |steps|
  {
    if steps != [] {
      StepKeeps(s, steps[0]);
      RunsKeep(Apply(s, steps[0]), steps[1..], t);
    }
  }
}
