/** The worker pool and the service as one step machine
    (src/worker/worker-pool.ts, src/service/pi-threads-service.ts).

    Every asynchronous method is cut at its awaits.  One step is what runs between two
    awaits, or one event from outside: a worker's event or exit, a timer, a new request.
    A reply from a worker and the code that awaits it are one step, because promise
    continuations run before the next outside event.  `lock` is the operation that holds
    the lifecycle mutex; waiting operations take it in any order. */
module Scheduler {
  import opened Common
  import opened Pools

  type OpId = nat

  /** What a service operation wants a worker for. */
  datatype Purpose =
    | ForStart
    | ForModels
    | ForSend(thread: ThreadId, turn: TurnId)
    | ForMutation(thread: ThreadId, forks: bool)
    | ForRead(thread: ThreadId)
    | ForCleanup(thread: ThreadId)

  /** An outstanding service operation: waiting for a worker, or holding one reservation.
      `published`: a fork or clone has already given its worker the new thread. */
  datatype Op =
    | Waiting(purpose: Purpose, cwd: Directory)
    | Holding(purpose: Purpose, worker: WorkerId, published: bool)

  datatype Active = Active(turn: TurnId, worker: Option<WorkerId>)

  /** Why a worker is being started: the minimum, or an operation that asked for a worker. */
  datatype Job = Maintaining(first: bool) | Selecting(op: OpId)

  /** What happens once a retiring worker has stopped. */
  datatype Next = ToSpawn(op: OpId) | ToReplace(op: OpId) | SwitchFailed(op: OpId) | Reaping(rest: seq<WorkerId>)

  datatype Lock =
    | Free
    | Spawning(worker: WorkerId, job: Job)
    | Disposing(job: Job)
    | Retiring(worker: WorkerId, next: Next)
    | Switching(worker: WorkerId, op: OpId)
    | Stopping

  /** `maintains` counts minimum recoveries whose timer has fired but which have not begun;
      `ended`, `stray` and `leaky` are history: the turns whose terminal event the service acted
      on, and whether a worker that was no longer available has reported when that endangered
      the single writer of its thread, or the count of its reservations. */
  datatype State = State(
    pool: Pool,
    lock: Lock,
    maintains: nat,
    starting: bool,
    started: bool,
    drained: bool,
    turns: map<ThreadId, Active>,
    mutations: set<ThreadId>,
    ops: map<OpId, Op>,
    nextOp: OpId,
    nextTurn: TurnId,
    persisted: set<ThreadId>,
    ended: set<TurnId>,
    stray: bool,
    leaky: bool)

  datatype Step =
    // workers
    | CommandBegins(w: WorkerId)
    | CommandEnds(w: WorkerId, now: nat)
    | AgentStarts(w: WorkerId)
    | AgentSettles(w: WorkerId)
    | TimesOut(w: WorkerId)
    | Exits(w: WorkerId, longLived: bool)
    | Saves(thread: ThreadId)
    | Vanishes(thread: ThreadId)
    // lifecycle
    | TimerFires
    | MaintainBegins(now: nat)
    | StartReturns(ok: bool, now: nat)
    | DisposeReturns
    | StopReturns(choice: Choice, now: nat)
    | Acquires(op: OpId, choice: Choice, now: nat)
    | SwitchReturns(ok: bool, now: nat)
    | ReapBegins(candidates: seq<WorkerId>)
    | StopRequested
    | StopBegins
    | StopEnds
    // service
    | Requests(purpose: Purpose, cwd: Directory)
    | Retains(op: OpId)
    | StartSucceeds(op: OpId, thread: ThreadId, prompted: bool)
    | StartFails(op: OpId, bound: Option<ThreadId>, now: nat)
    | SendSucceeds(op: OpId)
    | SendFails(op: OpId, now: nat)
    | Publishes(op: OpId, thread: ThreadId)
    | MutationEnds(op: OpId, bound: Option<ThreadId>, now: nat)
    | Finishes(op: OpId, now: nat)
    | TerminalEvent(thread: ThreadId, turn: TurnId)
    | AbortBegins(thread: ThreadId)
    | AbortEnds(w: WorkerId, turn: TurnId)

  // ---------------------------------------------------------------- helpers

  function Get(s: State, w: WorkerId): Worker
    requires w in s.pool.workers
  {
    s.pool.workers[w]
  }

  function Put(s: State, w: WorkerId, x: Worker): State {
    s.(pool := s.pool.(workers := s.pool.workers[w := x]))
  }

  /** The thread an operation refers to. */
  function ThreadOf(p: Purpose): Option<ThreadId> {
    match p
    case ForStart => None
    case ForModels => None
    case ForSend(thread, _) => Some(thread)
    case ForMutation(thread, _) => Some(thread)
    case ForRead(thread) => Some(thread)
    case ForCleanup(thread) => Some(thread)
  }

  /** Nothing in the daemon refers to this thread yet. */
  ghost predicate Unheard(s: State, thread: ThreadId) {
    && (forall w <- s.pool.workers :: s.pool.workers[w].thread != Some(thread))
    && thread !in s.turns && thread !in s.mutations
    && (forall o <- s.ops :: ThreadOf(s.ops[o].purpose) != Some(thread))
  }

  function Scheduled(s: State): State {
    s.(pool := ScheduleRecovery(s.pool))
  }

  function Unlocked(s: State): State {
    s.(lock := Free)
  }

  /** What an operation had reserved for itself, its turn or its mutation, is given up. */
  function Unclaimed(s: State, p: Purpose): State {
    s.(turns := if p.ForSend? then s.turns - {p.thread} else s.turns,
       mutations := if p.ForMutation? then s.mutations - {p.thread} else s.mutations)
  }

  /** An operation ends without ever having held a worker. */
  function Refused(s: State, op: OpId): State
    requires op in s.ops
  {
    Unclaimed(s, s.ops[op].purpose).(ops := s.ops - {op})
  }

  /** An operation gets the worker reserved for it; a mutation marks it running at once. */
  function Granted(s: State, op: OpId, w: WorkerId): State
    requires op in s.ops && w in s.pool.workers
  {
    var p := s.ops[op].purpose;
    var t := s.(ops := s.ops[op := Holding(p, w, false)]);
    if p.ForMutation? then Put(t, w, Get(s, w).(state := Running)) else t
  }

  /** An operation gives its reservation back and ends. */
  function GivesBack(s: State, op: OpId, now: nat): State
    requires op in s.ops && s.ops[op].Holding? && s.ops[op].worker in s.pool.workers
  {
    var w := s.ops[op].worker;
    Put(s.(ops := s.ops - {op}), w, Released(Get(s, w), now))
  }

  function NewWorker(cwd: Directory, reserve: bool, now: nat): Worker {
    Worker(cwd, Starting, None, None, None, now, 0, if reserve then 1 else 0, reserve, false,
           if reserve then 1 else 0, {})
  }

  /** Creates a worker object and starts its process. */
  function SpawnBegins(s: State, cwd: Directory, job: Job, now: nat): State {
    var w := s.pool.nextWorker;
    s.(pool := s.pool.(workers := s.pool.workers[w := NewWorker(cwd, job.Selecting?, now)],
                       members := s.pool.members + {w},
                       nextWorker := w + 1),
       lock := Spawning(w, job))
  }

  function RetireBegins(s: State, w: WorkerId, next: Next): State
    requires w in s.pool.workers
  {
    Put(s, w, Retired(Get(s, w))).(lock := Retiring(w, next))
  }

  function Leaves(s: State, w: WorkerId): State {
    s.(pool := s.pool.(members := s.pool.members - {w}))
  }

  /** An operation whose worker is reserved and ready: sessions are switched first. */
  function Proceeds(s: State, op: OpId, w: WorkerId): State
    requires op in s.ops && w in s.pool.workers
  {
    if ThreadOf(s.ops[op].purpose).Some? then s.(lock := Switching(w, op))
    else Unlocked(Granted(s, op, w))
  }

  /** What selectWorker does with a choice, up to its next await; the mutex is free unless it
      goes on to use it. */
  function Selects(s: State, op: OpId, choice: Choice, now: nat): State
    requires op in s.ops && s.ops[op].Waiting?
    requires choice.Reuse? || choice.Evict? ==> choice.w in s.pool.workers
  {
    match choice
    case Reuse(w) =>
      if s.pool.stopped then Refused(s, op)
      else Proceeds(Put(s, w, Reserved(Get(s, w)).(state := Assigned)), op, w)
    case Evict(w) => RetireBegins(s, w, ToSpawn(op))
    case Spawn =>
      if s.pool.stopped then Refused(Scheduled(s), op)
      else SpawnBegins(s, s.ops[op].cwd, Selecting(op), now)
    case Full => Refused(s, op)
  }

  /** The loop of maintainMinimum, up to its next await. */
  function Maintains(s: State, first: bool, now: nat): State {
    if !s.pool.stopped && !s.pool.timer && |s.pool.members| < Target(s.pool.options)
    then SpawnBegins(s, 0, Maintaining(first), now)
    else s.(started := s.started || first)
  }

  /** The loop of reapIdleWorkers, up to its next await. */
  function Reaps(s: State, candidates: seq<WorkerId>): State {
    if candidates == [] || |s.pool.members| <= s.pool.options.minWorkers then Scheduled(s)
    else
      var w := candidates[0];
      if w in s.pool.workers && Reclaimable(Get(s, w), s.persisted)
      then RetireBegins(s, w, Reaping(candidates[1..]))
      else Reaps(s, candidates[1..])
  }

  function TurnEnded(s: State, thread: ThreadId): State
    requires thread in s.turns
  {
    s.(turns := s.turns - {thread}, ended := s.ended + {s.turns[thread].turn})
  }

  /** The cleanup of an ended turn takes over the turn's reservation. */
  function CleanupBegins(s: State, thread: ThreadId, w: WorkerId): State {
    s.(ops := s.ops[s.nextOp := Holding(ForCleanup(thread), w, false)], nextOp := s.nextOp + 1)
  }

  /** The synchronous part of the service's reaction to a terminal event. */
  function Settles(s: State, thread: ThreadId, turn: TurnId): State {
    if s.pool.stopped || thread !in s.turns || s.turns[thread].turn != turn || s.turns[thread].worker == None then s
    else
      var w, t := s.turns[thread].worker.value, TurnEnded(s, thread);
      if Find(s.pool, thread) == Some(w)
      then CleanupBegins(Put(t, w, Get(t, w).(activeTurn := None)), thread, w)
      else t
  }

  // ---------------------------------------------------------------- which steps can happen

  /** The operation the lifecycle mutex is working for, if it is for one. */
  function Client(lock: Lock): Option<OpId> {
    match lock
    case Spawning(_, Selecting(o)) => Some(o)
    case Disposing(Selecting(o)) => Some(o)
    case Retiring(_, ToSpawn(o)) => Some(o)
    case Retiring(_, ToReplace(o)) => Some(o)
    case Retiring(_, SwitchFailed(o)) => Some(o)
    case Switching(_, o) => Some(o)
    case _ => None
  }

  predicate Works(lock: Lock, op: OpId) {
    Client(lock) == Some(op)
  }

  /** The worker the mutex has reserved for its client. */
  function InHand(lock: Lock): Option<WorkerId> {
    match lock
    case Spawning(w, Selecting(_)) => Some(w)
    case Switching(w, _) => Some(w)
    case _ => None
  }

  /** Every reference is to something that exists. */
  ghost predicate Shape(s: State) {
    && WellFormed(s.pool)
    && (forall o <- s.ops :: o < s.nextOp && (s.ops[o].Holding? ==> s.ops[o].worker in s.pool.workers))
    && (forall t <- s.turns :: s.turns[t].worker.Some? ==> s.turns[t].worker.value in s.pool.workers)
    && (s.lock.Spawning? || s.lock.Retiring? || s.lock.Switching? ==> s.lock.worker in s.pool.workers)
    && (Client(s.lock).Some? ==>
          var o := Client(s.lock).value;
          o in s.ops && s.ops[o].Waiting? && (s.lock.Switching? ==> ThreadOf(s.ops[o].purpose).Some?))
  }

  /** The operation holds a worker that answered its command. */
  predicate Answered(s: State, op: OpId) {
    op in s.ops && s.ops[op].Holding? && s.ops[op].worker in s.pool.workers && Available(Get(s, s.ops[op].worker))
  }

  predicate Holds(s: State, op: OpId) {
    op in s.ops && s.ops[op].Holding? && s.ops[op].worker in s.pool.workers
  }

  predicate Waits(s: State, op: OpId) {
    op in s.ops && s.ops[op].Waiting?
  }

  // ---------------------------------------------------------------- reports

  /** Any worker whose process may still be running can report, also one that timed out, is
      being retired or has been stopped: it is in the pool's map.  A worker that dies while the
      mutex starts or switches it fails that operation before it can report anything. */
  predicate Reports(s: State, w: WorkerId) {
    && w in s.pool.members && w in s.pool.workers && Get(s, w).state != Starting
    && ((s.lock.Spawning? || s.lock.Switching?) && s.lock.worker == w ==> Available(Get(s, w)))
  }

  /** The thread the lifecycle mutex is about to give a worker, if its operation can still succeed. */
  function Heads(s: State): Option<ThreadId> {
    if s.pool.stopped && !s.lock.Switching? then None
    else
      match s.lock
      case Spawning(w, Selecting(o)) =>
        if w in s.pool.workers && Get(s, w).state == Starting && o in s.ops then ThreadOf(s.ops[o].purpose) else None
      case Retiring(_, ToSpawn(o)) => if o in s.ops then ThreadOf(s.ops[o].purpose) else None
      case Retiring(_, ToReplace(o)) => if o in s.ops then ThreadOf(s.ops[o].purpose) else None
      case Switching(w, o) =>
        if w in s.pool.workers && Available(Get(s, w)) && o in s.ops then ThreadOf(s.ops[o].purpose) else None
      case _ => None
  }

  /** The worker's report leaves its thread with one writer: it counts as a writer already, or
      will not, or nobody else serves the thread or is about to. */
  ghost predicate LeaseSafe(s: State, w: WorkerId)
    requires w in s.pool.workers
  {
    || Available(Get(s, w)) || Get(s, w).retiring || Get(s, w).thread == None
    || (Heads(s) != Get(s, w).thread && forall v: WorkerId :: v != w ==> !Serves(s.pool, v, Get(s, w).thread.value))
  }

  predicate On(op: Op, w: WorkerId) {
    op.Holding? && op.worker == w
  }

  predicate Names(active: Active, w: WorkerId) {
    active.worker == Some(w)
  }

  ghost function OpsOn(ops: map<OpId, Op>, w: WorkerId): set<OpId> {
    set o | o in ops && On(ops[o], w)
  }

  ghost function TurnsOn(turns: map<ThreadId, Active>, w: WorkerId): set<ThreadId> {
    set t | t in turns && Names(turns[t], w)
  }

  /** How many reservations of `w` are outstanding: operations that hold it, admitted turns
      that are not cleaned up, and the acquisition in progress. */
  ghost function Holders(s: State, w: WorkerId): nat {
    |OpsOn(s.ops, w)| + |TurnsOn(s.turns, w)| + if InHand(s.lock) == Some(w) then 1 else 0
  }

  /** No reservation of the worker was lost while it was unavailable. */
  ghost predicate CountSafe(s: State, w: WorkerId)
    requires w in s.pool.workers
  {
    Available(Get(s, w)) || Get(s, w).reservations == Holders(s, w)
  }

  /** A fork or clone whose new thread the daemon has not recorded yet. */
  ghost predicate Forks(s: State, op: OpId, thread: ThreadId) {
    && Answered(s, op) && s.ops[op].purpose.ForMutation? && s.ops[op].purpose.forks && !s.ops[op].published
    && s.pool.options.reuseAcrossThreads && Unheard(s, thread)
  }

  ghost predicate Enabled(s: State, step: Step)
    requires Shape(s)
  {
    match step
    case CommandBegins(w) => w in s.pool.workers
    case CommandEnds(w, now) => w in s.pool.workers
    case AgentStarts(w) => Reports(s, w)
    case AgentSettles(w) => Reports(s, w)
    case TimesOut(w) => w in s.pool.workers && Get(s, w).state != Starting && Get(s, w).commands > 0
    case Exits(w, _) => w in s.pool.workers && Get(s, w).state != Stopped
    case Saves(_) => true
    case Vanishes(_) => true
    case TimerFires => s.pool.timer
    case MaintainBegins(_) => s.lock == Free && (s.starting || s.maintains > 0)
    case StartReturns(ok, _) => s.lock.Spawning? && (ok ==> Get(s, s.lock.worker).state == Starting)
    case DisposeReturns => s.lock.Disposing?
    case StopReturns(choice, _) =>
      s.lock.Retiring? && (s.lock.next.ToReplace? ==>
        Chooses(Leaves(s, s.lock.worker).pool, s.persisted, s.ops[s.lock.next.op].cwd, choice))
    case Acquires(op, choice, _) =>
      && s.lock == Free && Waits(s, op) && Chooses(s.pool, s.persisted, s.ops[op].cwd, choice)
    case SwitchReturns(ok, _) => s.lock.Switching? && (ok ==> Available(Get(s, s.lock.worker)))
    case ReapBegins(candidates) =>
      s.lock == Free && !s.pool.stopped && forall w <- candidates :: Evictable(s.pool, s.persisted, w)
    case StopRequested => true
    case StopBegins => s.lock == Free && s.pool.stopped
    case StopEnds => s.lock == Stopping && forall w <- s.pool.members :: w in s.pool.workers && !Available(Get(s, w))
    case Requests(purpose, _) => !purpose.ForCleanup?
    case Retains(op) => Waits(s, op) && ThreadOf(s.ops[op].purpose).Some? && !Works(s.lock, op)
    case StartSucceeds(op, thread, _) => Answered(s, op) && s.ops[op].purpose.ForStart? && Unheard(s, thread)
    case StartFails(op, bound, _) =>
      && Holds(s, op) && s.ops[op].purpose.ForStart?
      && (bound.Some? ==> Answered(s, op) && Unheard(s, bound.value))
    case SendSucceeds(op) => Answered(s, op) && s.ops[op].purpose.ForSend?
    case SendFails(op, _) => Holds(s, op) && s.ops[op].purpose.ForSend?
    case Publishes(op, thread) => Forks(s, op, thread)
    case MutationEnds(op, bound, _) =>
      Holds(s, op) && s.ops[op].purpose.ForMutation? && (bound.Some? ==> Forks(s, op, bound.value))
    case Finishes(op, _) =>
      Holds(s, op) && (s.ops[op].purpose.ForRead? || s.ops[op].purpose.ForModels? || s.ops[op].purpose.ForCleanup?)
    case TerminalEvent(_, _) => true
    case AbortBegins(thread) =>
      thread in s.turns && s.turns[thread].worker.Some? && s.turns[thread].worker.value in s.pool.members
    case AbortEnds(w, _) => w in s.pool.workers
  }

  // ---------------------------------------------------------------- what a step does

  /** History: what the report endangers. */
  ghost function Marked(s: State, w: WorkerId): State
    requires w in s.pool.workers
  {
    s.(stray := s.stray || !LeaseSafe(s, w), leaky := s.leaky || !LeaseSafe(s, w) || !CountSafe(s, w))
  }

  /** An agent run begins or settles on `w`; a run that settles ends the worker's turn. */
  ghost function AgentEvent(s: State, w: WorkerId, settled: bool): State
    requires w in s.pool.workers
  {
    var x, t := Get(s, w), Put(Marked(s, w), w, Reported(Get(s, w), settled));
    if settled && x.thread.Some? && x.activeTurn.Some? then Settles(t, x.thread.value, x.activeTurn.value) else t
  }

  /** A worker whose process closed: it leaves the pool and the turn it was running fails. */
  function Departed(s: State, w: WorkerId): State
    requires w in s.pool.workers
  {
    var x := Get(s, w);
    var gone := Leaves(Put(s, w, x.(state := Crashed, activeTurn := None)), w);
    if x.thread.Some? && x.activeTurn.Some? then Settles(gone, x.thread.value, x.activeTurn.value) else gone
  }

  /** The whole exit handler: a worker that ran for long enough resets the recovery delay. */
  function Exited(s: State, w: WorkerId, longLived: bool): State
    requires w in s.pool.workers
  {
    var t := Departed(s, w);
    Scheduled(if longLived then t.(pool := t.pool.(delay := FIRST_DELAY, attempts := 0)) else t)
  }

  function MaintainBegun(s: State, now: nat): State
    requires s.starting || s.maintains > 0
  {
    if s.starting then Maintains(s.(starting := false), true, now)
    else Maintains(s.(maintains := s.maintains - 1), false, now)
  }

  ghost function StartReturned(s: State, ok: bool, now: nat): State
    requires Shape(s) && s.lock.Spawning?
  {
    var w, job := s.lock.worker, s.lock.job;
    if ok && !s.pool.stopped then
      match job
      case Maintaining(first) => Maintains(Unlocked(Put(s, w, Get(s, w).(state := Idle))), first, now)
      case Selecting(op) => Proceeds(Put(s, w, Get(s, w).(state := Assigned)), op, w)
    else
      Leaves(Put(s, w, Get(s, w).(state := if ok then Stopped else Get(s, w).state)), w).(lock := Disposing(job))
  }

  ghost function Disposed(s: State): State
    requires Shape(s) && s.lock.Disposing?
  {
    var t := Unlocked(s);
    match s.lock.job
    case Maintaining(first) => if first then t else Scheduled(t)
    case Selecting(op) => Refused(Scheduled(t), op)
  }

  ghost function StopReturned(s: State, choice: Choice, now: nat): State
    requires Shape(s) && s.lock.Retiring?
    requires s.lock.next.ToReplace? && (choice.Reuse? || choice.Evict?) ==> choice.w in s.pool.workers
  {
    Continued(Unlocked(Leaves(s, s.lock.worker)), s.lock.next, choice, now)
  }

  /** What follows once the retired worker has left. */
  function Continued(s: State, next: Next, choice: Choice, now: nat): State
    requires next.Reaping? || Waits(s, next.op)
    requires next.ToReplace? && (choice.Reuse? || choice.Evict?) ==> choice.w in s.pool.workers
  {
    match next
    case ToSpawn(op) =>
      if s.pool.stopped || |s.pool.members| >= s.pool.options.maxWorkers then Refused(Scheduled(s), op)
      else SpawnBegins(s, s.ops[op].cwd, Selecting(op), now)
    case ToReplace(op) => Selects(Scheduled(s), op, choice, now)
    case SwitchFailed(op) => Refused(Scheduled(s), op)
    case Reaping(rest) => Reaps(s, rest)
  }

  function Acquired(s: State, op: OpId, choice: Choice, now: nat): State
    requires Waits(s, op)
    requires choice.Reuse? || choice.Evict? ==> choice.w in s.pool.workers
  {
    if s.pool.stopped then Refused(s, op)
    else if ThreadOf(s.ops[op].purpose) == None then Selects(s, op, choice, now)
    else
      match Find(s.pool, ThreadOf(s.ops[op].purpose).value)
      case None => Selects(s, op, choice, now)
      case Some(w) => Reassigned(s, op, w)
  }

  /** The thread already has the worker `w`: used if it is quiescent and in the session's
      directory, replaced if it is reclaimable but elsewhere. */
  function Reassigned(s: State, op: OpId, w: WorkerId): State
    requires Waits(s, op) && w in s.pool.workers
  {
    if !Quiescent(Get(s, w)) then Refused(s, op)
    else if Get(s, w).cwd == s.ops[op].cwd then Granted(Put(s, w, Retained(Get(s, w))), op, w)
    else if !Reclaimable(Get(s, w), s.persisted) then Refused(s, op)
    else RetireBegins(s, w, ToReplace(op))
  }

  ghost function SwitchReturned(s: State, ok: bool, now: nat): State
    requires Shape(s) && s.lock.Switching?
  {
    var w, op := s.lock.worker, s.lock.op;
    if ok then Unlocked(Granted(Put(s, w, Bound(Get(s, w), ThreadOf(s.ops[op].purpose).value)), op, w))
    else
      var x := Released(Get(s, w), now);
      var t := Unlocked(Put(s, w, x));
      if Available(x) then RetireBegins(t, w, SwitchFailed(op)) else Refused(t, op)
  }

  function AllStopped(s: State): State
    requires s.pool.members <= s.pool.workers.Keys
  {
    s.(pool := s.pool.(workers := map w <- s.pool.workers ::
                         if w in s.pool.members then s.pool.workers[w].(state := Stopped) else s.pool.workers[w]),
       lock := Stopping)
  }

  /** A thread can be resumed if a worker carries it or the catalog has saved it. */
  predicate Resumable(s: State, thread: ThreadId) {
    Find(s.pool, thread).Some? || thread in s.persisted
  }

  /** A send or mutation of a thread that has a turn or a mutation is refused at once, and so is
      every request for a thread that cannot be resumed. */
  predicate Denied(s: State, purpose: Purpose) {
    match purpose
    case ForSend(thread, _) => !Resumable(s, thread) || thread in s.turns || thread in s.mutations
    case ForMutation(thread, _) => thread in s.turns || thread in s.mutations || !Resumable(s, thread)
    case ForRead(thread) => !Resumable(s, thread)
    case _ => false
  }

  /** A request arrives; unless it is refused, sends and mutations reserve their thread at once. */
  function Requested(s: State, purpose: Purpose, cwd: Directory): State {
    var o := s.nextOp;
    if Denied(s, purpose) then s
    else
      match purpose
      case ForSend(thread, _) =>
        s.(turns := s.turns[thread := Active(s.nextTurn, None)], nextTurn := s.nextTurn + 1,
           ops := s.ops[o := Waiting(ForSend(thread, s.nextTurn), cwd)], nextOp := o + 1)
      case ForMutation(thread, _) =>
        s.(mutations := s.mutations + {thread}, ops := s.ops[o := Waiting(purpose, cwd)], nextOp := o + 1)
      case _ => s.(ops := s.ops[o := Waiting(purpose, cwd)], nextOp := o + 1)
  }

  /** Using the worker that already serves the thread, without the lifecycle mutex.  Sends
      and mutations want it idle and in the session's directory; otherwise they go on to wait. */
  function RetainedFor(s: State, op: OpId): State
    requires Waits(s, op) && ThreadOf(s.ops[op].purpose).Some?
  {
    var p := s.ops[op].purpose;
    match Find(s.pool, ThreadOf(p).value)
    case None => s
    case Some(w) =>
      if !p.ForRead? && Get(s, w).cwd != s.ops[op].cwd then s
      else if !p.ForRead? && (Get(s, w).activeTurn.Some? || Get(s, w).state == Running) then Refused(s, op)
      else if s.pool.stopped then Refused(s, op)
      else Granted(Put(s, w, Retained(Get(s, w))), op, w)
  }

  function StartSucceeded(s: State, op: OpId, thread: ThreadId, prompted: bool): State
    requires Holds(s, op)
  {
    var w := s.ops[op].worker;
    var x := Bound(Get(s, w), thread).(activeTurn := Some(s.nextTurn));
    Put(s, w, if prompted then x.(state := Running) else x)
      .(ops := s.ops - {op}, turns := s.turns[thread := Active(s.nextTurn, Some(w))], nextTurn := s.nextTurn + 1)
  }

  function StartFailed(s: State, op: OpId, bound: Option<ThreadId>, now: nat): State
    requires Holds(s, op)
  {
    var w := s.ops[op].worker;
    var x := if bound.Some? then Bound(Get(s, w), bound.value) else Get(s, w);
    GivesBack(Put(s, w, x.(activeTurn := None)), op, now)
  }

  function SendSucceeded(s: State, op: OpId): State
    requires Holds(s, op) && s.ops[op].purpose.ForSend?
  {
    var w, thread, turn := s.ops[op].worker, s.ops[op].purpose.thread, s.ops[op].purpose.turn;
    Put(s, w, Bound(Get(s, w), thread).(activeTurn := Some(turn), state := Running))
      .(ops := s.ops - {op}, turns := s.turns[thread := Active(turn, Some(w))])
  }

  function Published(s: State, op: OpId, thread: ThreadId): State
    requires Holds(s, op)
  {
    var w := s.ops[op].worker;
    Put(s, w, Bound(Get(s, w), thread)).(ops := s.ops[op := s.ops[op].(published := true)])
  }

  function MutationEnded(s: State, op: OpId, bound: Option<ThreadId>, now: nat): State
    requires Holds(s, op) && s.ops[op].purpose.ForMutation?
  {
    var w := s.ops[op].worker;
    var t := if bound.Some? then Put(s, w, Bound(Get(s, w), bound.value)) else s;
    GivesBack(Unclaimed(t, s.ops[op].purpose), op, now)
  }

  predicate InService(step: Step) {
    || step.Requests? || step.Retains? || step.StartSucceeds? || step.StartFails? || step.SendSucceeds? || step.SendFails?
    || step.Publishes? || step.MutationEnds? || step.Finishes? || step.TerminalEvent? || step.AbortBegins? || step.AbortEnds?
  }

  /** Steps of the workers and of the pool. */
  ghost function Moved(s: State, step: Step): State
    requires Shape(s) && Enabled(s, step) && !InService(step)
  {
    match step
    case CommandBegins(w) => Put(s, w, Get(s, w).(commands := Get(s, w).commands + 1))
    case CommandEnds(w, now) =>
      Put(s, w, Get(s, w).(commands := if Get(s, w).commands > 0 then Get(s, w).commands - 1 else 0, lastUsed := now))
    case AgentStarts(w) => AgentEvent(s, w, false)
    case AgentSettles(w) => AgentEvent(s, w, true)
    case TimesOut(w) => Put(s, w, Get(s, w).(state := Crashed))
    case Exits(w, longLived) => Exited(s, w, longLived)
    case Saves(thread) => s.(persisted := s.persisted + {thread})
    case Vanishes(thread) => s.(persisted := s.persisted - {thread})
    case TimerFires => s.(pool := s.pool.(timer := false), maintains := s.maintains + 1)
    case MaintainBegins(now) => MaintainBegun(s, now)
    case StartReturns(ok, now) => StartReturned(s, ok, now)
    case DisposeReturns => Disposed(s)
    case StopReturns(choice, now) => StopReturned(s, choice, now)
    case Acquires(op, choice, now) => Acquired(s, op, choice, now)
    case SwitchReturns(ok, now) => SwitchReturned(s, ok, now)
    case ReapBegins(candidates) => Reaps(s, candidates)
    case StopRequested => s.(pool := s.pool.(stopped := true, timer := false))
    case StopBegins => AllStopped(s)
    case StopEnds => s.(pool := s.pool.(members := {}), lock := Free, drained := true)
  }

  /** Steps of the service's operations. */
  ghost function Served(s: State, step: Step): State
    requires Shape(s) && Enabled(s, step) && InService(step)
  {
    match step
    case Requests(purpose, cwd) => Requested(s, purpose, cwd)
    case Retains(op) => RetainedFor(s, op)
    case StartSucceeds(op, thread, prompted) => StartSucceeded(s, op, thread, prompted)
    case StartFails(op, bound, now) => StartFailed(s, op, bound, now)
    case SendSucceeds(op) => SendSucceeded(s, op)
    case SendFails(op, now) => GivesBack(Unclaimed(s, s.ops[op].purpose), op, now)
    case Publishes(op, thread) => Published(s, op, thread)
    case MutationEnds(op, bound, now) => MutationEnded(s, op, bound, now)
    case Finishes(op, now) => GivesBack(s, op, now)
    case TerminalEvent(thread, turn) => Settles(s, thread, turn)
    case AbortBegins(thread) =>
      var w := s.turns[thread].worker.value;
      Put(s, w, Get(s, w).(aborting := Some(s.turns[thread].turn)))
    case AbortEnds(w, turn) =>
      if Get(s, w).aborting == Some(turn) then Put(s, w, Get(s, w).(aborting := None)) else s
  }

  ghost function Apply(s: State, step: Step): State
    requires Shape(s) && Enabled(s, step)
  {
    if InService(step) then Served(s, step) else Moved(s, step)
  }

  /** A freshly constructed daemon whose start has been called. */
  function Initial(options: Options): State {
    State(Pool(options, map[], {}, 1, false, false, FIRST_DELAY, 0), Free, 0, true, false, false,
          map[], {}, map[], 0, 0, {}, {}, false, false)
  }

  ghost predicate Runs(s: State, steps: seq<Step>, t: State)
    decreases |steps|
  {
    if steps == [] then s == t
    else Shape(s) && Enabled(s, steps[0]) && Runs(Apply(s, steps[0]), steps[1..], t)
  }
}
