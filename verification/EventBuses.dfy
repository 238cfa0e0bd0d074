/** The ordered event bus (src/service/event-bus.ts).

    Listeners are foreign code that may emit, subscribe, unsubscribe and throw while
    they are called.  `script` is what they will do: the n-th listener call of the whole
    run performs `script[n]`, and calls beyond the script do nothing.  Every run in which
    finitely many listener calls do something is the run of one such script.  A listener
    that lets the error of a failed subscribe escape throws at that point. */
module EventBuses {
  import opened Common
  import opened Events

  datatype Act =
    | Emits(draft: DaemonEvent)
    | Subscribes(filter: EventFilter)
    | Unsubscribes(id: nat)
    | Throws

  /** A subscriber object.  The source's map holds exactly the registered ones; an object
      that was removed can still be referred to by a delivery in progress. */
  datatype Subscriber = Subscriber(
    filter: EventFilter,
    liveAfter: nat,
    queue: seq<DaemonEvent>,
    delivering: bool,
    registered: bool)

  /** Bookkeeping about one subscriber: the history position its events start after, the
      position up to which they have been queued, whether the delivery loop has still to
      visit it for the event it took last, and what its listener was called with. */
  datatype Trace = Trace(origin: nat, frontier: nat, due: bool, seen: seq<DaemonEvent>)

  datatype Party = Party(s: Subscriber, t: Trace)

  /** The fields of a bus with its full history and how much of it the delivery loop has
      taken from `pending`. */
  datatype View = View(
    epoch: string,
    replayLimit: nat,
    nextId: nat,
    replay: seq<DaemonEvent>,
    pending: seq<DaemonEvent>,
    delivering: bool,
    parties: map<nat, Party>,
    nextSubscription: nat,
    history: seq<DaemonEvent>,
    taken: nat)

  // ---------------------------------------------------------------- invariant

  /** Event k of the history (counting from 1) carries sequence number k. */
  ghost predicate Numbered(history: seq<DaemonEvent>, epoch: string) {
    forall i :: 0 <= i < |history| ==> history[i].id == EventId(epoch, i + 1)
  }

  /** The replay ring is the longest suffix of the history that fits. */
  ghost predicate Ring(v: View) {
    && 1 <= v.replayLimit
    && v.nextId == |v.history| + 1
    && Numbered(v.history, v.epoch)
    && |v.replay| == Min(v.replayLimit, |v.history|)
    && v.replay == v.history[|v.history| - |v.replay|..]
  }

  ghost predicate Loop(v: View) {
    && v.taken <= |v.history|
    && v.pending == v.history[v.taken..]
    && (!v.delivering ==> v.pending == [] && NoneDue(v))
  }

  ghost predicate NoneDue(v: View) {
    forall id <- v.parties :: !v.parties[id].t.due
  }

  /** What a subscriber with this trace is owed, up to its frontier. */
  ghost function Owed(history: seq<DaemonEvent>, filter: EventFilter, t: Trace): seq<DaemonEvent>
    requires t.origin <= t.frontier <= |history|
  {
    Select(history[t.origin..t.frontier], filter)
  }

  /** The listener was called with a prefix of what it is owed; while it is registered the
      rest is queued, and its frontier follows the delivery loop. */
  ghost predicate Tracked(history: seq<DaemonEvent>, taken: nat, p: Party) {
    && p.t.origin <= p.s.liveAfter <= |history|
    && p.t.origin <= p.t.frontier <= |history|
    && (p.t.due ==> 0 < taken)
    && p.t.seen <= Owed(history, p.s.filter, p.t)
    && (p.s.registered ==> p.t.frontier == Max(p.s.liveAfter, if p.t.due then taken - 1 else taken))
    && (p.s.registered ==> p.t.seen + p.s.queue == Owed(history, p.s.filter, p.t))
  }

  ghost predicate Known(v: View) {
    && (forall id <- v.parties :: id < v.nextSubscription)
    && (forall id <- v.parties :: Tracked(v.history, v.taken, v.parties[id]))
  }

  /** A registered subscriber whose listener is not running has nothing queued. */
  predicate Rests(s: Subscriber) {
    s.registered && !s.delivering ==> s.queue == []
  }

  ghost predicate Idle(v: View, hot: set<nat>) {
    forall id <- v.parties :: id in hot || Rests(v.parties[id].s)
  }

  /** `hot` is a subscriber that has just been given events and is about to be called. */
  ghost predicate Inv(v: View, hot: set<nat>) {
    Ring(v) && Loop(v) && Known(v) && Idle(v, hot)
  }

  /** No listener call is in progress. */
  ghost predicate Quiet(v: View) {
    !v.delivering && forall id <- v.parties :: !v.parties[id].s.delivering
  }

  /** How a call may change one subscription. */
  ghost predicate Same(p: Party, q: Party, loop: bool) {
    && q.s.filter == p.s.filter && q.s.liveAfter == p.s.liveAfter && q.s.delivering == p.s.delivering
    && q.t.origin == p.t.origin && p.t.seen <= q.t.seen
    && (q.s.registered ==> p.s.registered)
    && (loop ==> q.t.due == p.t.due)
  }

  /** How a call may change the bus: it publishes, it registers new subscribers and it
      removes some, but it changes no existing subscription's terms. */
  ghost predicate Extends(v: View, w: View) {
    && v.history <= w.history
    && v.epoch == w.epoch && v.replayLimit == w.replayLimit
    && v.nextSubscription <= w.nextSubscription
    && v.delivering == w.delivering
    && (v.delivering ==> w.taken == v.taken)
    && (forall id <- v.parties :: id in w.parties && Same(v.parties[id], w.parties[id], v.delivering))
    && (forall id <- w.parties :: id in v.parties
          || (v.nextSubscription <= id && !w.parties[id].s.delivering && (v.delivering ==> !w.parties[id].t.due)))
  }

  lemma ExtendsRefl(v: View)
    ensures Extends(v, v)
  {
  }

  lemma ExtendsTransitive(u: View, v: View, w: View)
    requires Extends(u, v) && Extends(v, w)
    ensures Extends(u, w)
  {
    forall id <- u.parties ensures id in w.parties && Same(u.parties[id], w.parties[id], u.delivering) {
      assert id in v.parties;
    }
  }

  /** The same bus with its delivery loop disregarded. */
  ghost function Resting(v: View): View {
    v.(delivering := false)
  }

  // ---------------------------------------------------------------- atomic updates

  ghost function Publish(v: View, event: DaemonEvent): View {
    var replay := v.replay + [event];
    v.(nextId := v.nextId + 1,
       history := v.history + [event],
       replay := if |replay| > v.replayLimit then replay[1..] else replay,
       pending := v.pending + [event])
  }

  lemma NextIsNew(v: View)
    requires Inv(v, {})
    ensures v.nextId == |v.history| + 1
  {
  }

  lemma PublishRing(v: View, event: DaemonEvent)
    requires Ring(v) && event.id == EventId(v.epoch, v.nextId)
    ensures Ring(Publish(v, event))
  {
    var w := Publish(v, event);
    assert v.replay + [event] == w.history[|v.history| - |v.replay|..];
  }

  lemma PublishKnown(v: View, event: DaemonEvent)
    requires Known(v)
    ensures Known(Publish(v, event))
  {
    hide Select;
    var w := Publish(v, event);
    forall id <- w.parties ensures Tracked(w.history, w.taken, w.parties[id]) {
      var t := v.parties[id].t;
      assert Tracked(v.history, v.taken, v.parties[id]);
      assert w.history[t.origin..t.frontier] == v.history[t.origin..t.frontier];
    }
  }

  lemma PublishKeeps(v: View, event: DaemonEvent)
    requires Inv(v, {}) && event.id == EventId(v.epoch, v.nextId)
    ensures Inv(Publish(v, event).(delivering := true), {})
    ensures Extends(v, Publish(v, event)) && Extends(Resting(v), Resting(Publish(v, event)))
    ensures !v.delivering ==> NoneDue(v) && NoneDue(Publish(v, event).(delivering := true))
    ensures event.id.sequence == |v.history| + 1
  {
    PublishRing(v, event);
    PublishKnown(v, event);
    hide Tracked, Numbered;
    var w := Publish(v, event);
    assert w.pending == w.history[w.taken..];
    assert Known(w.(delivering := true)) && Ring(w.(delivering := true));
  }

  /** A loop that has delivered everything may stop. */
  lemma RestKeeps(v: View)
    requires Inv(v, {}) && v.pending == [] && NoneDue(v)
    ensures Inv(Resting(v), {})
  {
    hide Tracked, Numbered;
  }

  /** The delivery loop takes the next event; every registered subscriber is due a visit. */
  ghost function Take(v: View): View
    requires v.pending != []
  {
    v.(pending := v.pending[1..], taken := v.taken + 1,
       parties := map id <- v.parties :: v.parties[id].(t := v.parties[id].t.(due := v.parties[id].s.registered)))
  }

  lemma TakeKeeps(v: View)
    requires Inv(v, {}) && v.delivering && NoneDue(v) && v.pending != []
    ensures Inv(Take(v), {}) && Extends(Resting(v), Resting(Take(v)))
    ensures v.taken < |v.history| && v.pending[0] == v.history[v.taken]
  {
    hide Select, Numbered;
    var w := Take(v);
    forall id <- w.parties ensures Tracked(w.history, w.taken, w.parties[id]) {
      assert Tracked(v.history, v.taken, v.parties[id]);
    }
  }

  /** Replacing one party. */
  ghost function Put(v: View, id: nat, p: Party): View {
    v.(parties := v.parties[id := p])
  }

  lemma PutKeeps(v: View, id: nat, p: Party, before: set<nat>, after: set<nat>)
    requires Inv(v, before) && before <= {id} && id in v.parties
    requires Tracked(v.history, v.taken, p)
    requires p.t.due ==> v.parties[id].t.due
    requires id in after || Rests(p.s)
    ensures Inv(Put(v, id, p), after)
  {
    hide Tracked, Rests, Numbered;
  }

  lemma PutExtends(v: View, id: nat, p: Party)
    requires id in v.parties && Same(v.parties[id], p, v.delivering)
    ensures Extends(v, Put(v, id, p))
  {
  }

  /** Visiting a due subscriber for the event taken last. */
  ghost function Visited(p: Party, taken: nat, event: DaemonEvent): Party {
    var t := p.t.(due := false, frontier := if p.s.registered then Max(p.s.liveAfter, taken) else p.t.frontier);
    if p.s.registered && taken > p.s.liveAfter && Matches(event, p.s.filter)
    then Party(p.s.(queue := p.s.queue + [event]), t)
    else Party(p.s, t)
  }

  /** One more position owes at most one more event. */
  lemma OwedNext(history: seq<DaemonEvent>, filter: EventFilter, t: Trace, u: Trace)
    requires t.origin <= t.frontier < |history|
    requires u.origin == t.origin && u.frontier == t.frontier + 1
    ensures Owed(history, filter, u)
         == Owed(history, filter, t) + if Matches(history[t.frontier], filter) then [history[t.frontier]] else []
  {
    var upTo := history[t.origin..u.frontier];
    assert upTo[..|upTo| - 1] == history[t.origin..t.frontier];
  }

  lemma VisitedIsTracked(history: seq<DaemonEvent>, taken: nat, p: Party)
    requires Tracked(history, taken, p) && p.t.due && taken <= |history|
    ensures Tracked(history, taken, Visited(p, taken, history[taken - 1]))
  {
    var event := history[taken - 1];
    if p.s.registered && taken > p.s.liveAfter {
      OwedNext(history, p.s.filter, p.t, Visited(p, taken, event).t);
      hide Select, Owed;
      assert p.t.seen + (p.s.queue + [event]) == (p.t.seen + p.s.queue) + [event];
    }
  }

  lemma VisitKeeps(v: View, id: nat, p: Party)
    requires Inv(v, {}) && id in v.parties && v.parties[id].t.due && v.delivering
    requires 0 < v.taken <= |v.history| && p == Visited(v.parties[id], v.taken, v.history[v.taken - 1])
    ensures v.history[v.taken - 1].id.sequence == v.taken
    ensures Inv(Put(v, id, p), {id}) && (p.s == v.parties[id].s ==> Inv(Put(v, id, p), {}))
    ensures Extends(Resting(v), Resting(Put(v, id, p))) && !p.t.due
    ensures var s, event := v.parties[id].s, v.history[v.taken - 1];
      p.s == if s.registered && v.taken > s.liveAfter && Matches(event, s.filter)
             then s.(queue := s.queue + [event]) else s
  {
    var q := v.parties[id];
    assert Tracked(v.history, v.taken, q) && Rests(q.s);
    VisitedIsTracked(v.history, v.taken, q);
    hide Tracked, Rests;
    PutKeeps(v, id, p, {}, {id});
    if p.s == q.s {
      PutKeeps(v, id, p, {}, {});
    }
    PutExtends(Resting(v), id, p);
    assert Resting(Put(v, id, p)) == Put(Resting(v), id, p);
  }

  /** The listener is called with its oldest queued event. */
  ghost function Shifted(p: Party): Party
    requires p.s.queue != []
  {
    Party(p.s.(queue := p.s.queue[1..]), p.t.(seen := p.t.seen + [p.s.queue[0]]))
  }

  lemma ShiftedIsTracked(history: seq<DaemonEvent>, taken: nat, p: Party)
    requires Tracked(history, taken, p) && p.s.registered && p.s.queue != []
    ensures Tracked(history, taken, Shifted(p))
  {
    hide Select;
    assert p.t.seen + p.s.queue == (p.t.seen + [p.s.queue[0]]) + p.s.queue[1..];
  }

  lemma ShiftKeeps(v: View, id: nat)
    requires Inv(v, {}) && id in v.parties
    requires var s := v.parties[id].s; s.registered && s.delivering && s.queue != []
    ensures var w := Put(v, id, Shifted(v.parties[id])); Inv(w, {}) && Extends(v, w)
  {
    var p := v.parties[id];
    assert Tracked(v.history, v.taken, p);
    ShiftedIsTracked(v.history, v.taken, p);
    hide Tracked;
    PutKeeps(v, id, Shifted(p), {}, {});
    PutExtends(v, id, Shifted(p));
  }

  /** Changing only a subscriber's flags, or removing it, with or without its queue. */
  lemma SubscriberKeeps(v: View, id: nat, s: Subscriber)
    requires Inv(v, {id}) && id in v.parties
    requires var o := v.parties[id].s; s.filter == o.filter && s.liveAfter == o.liveAfter
    requires s.registered ==> v.parties[id].s.registered && s.queue == v.parties[id].s.queue
    requires Rests(s)
    ensures var w := Put(v, id, v.parties[id].(s := s));
      Inv(w, {}) && (s.delivering == v.parties[id].s.delivering ==> Extends(v, w))
  {
    hide Select;
    var p := v.parties[id].(s := s);
    assert Tracked(v.history, v.taken, v.parties[id]);
    assert Tracked(v.history, v.taken, p);
    hide Tracked;
    PutKeeps(v, id, p, {id}, {});
    if s.delivering == v.parties[id].s.delivering {
      PutExtends(v, id, p);
    }
  }

  lemma AlreadyCalled(v: View, id: nat)
    requires Inv(v, {id}) && id in v.parties && v.parties[id].s.delivering
    ensures Inv(v, {}) && Extends(v, v)
  {
    hide Tracked;
  }

  lemma WeakenHot(v: View, id: nat)
    requires Inv(v, {})
    ensures Inv(v, {id})
  {
    hide Tracked;
  }

  /** Raising a subscriber's flag, working on, and lowering it again leaves no trace. */
  lemma Bracket(v: View, id: nat, raised: Party, w: View, lowered: Party)
    requires id in v.parties && !v.parties[id].s.delivering
    requires raised.s == v.parties[id].s.(delivering := true) && raised.t == v.parties[id].t
    requires Extends(Put(v, id, raised), w) && id in w.parties
    requires lowered.s == w.parties[id].s.(delivering := false) && lowered.t == w.parties[id].t
    ensures Extends(v, Put(w, id, lowered))
  {
    var u := Put(v, id, raised);
    forall k <- v.parties
      ensures k in w.parties && Same(v.parties[k], Put(w, id, lowered).parties[k], v.delivering)
    {
      assert k in u.parties;
    }
  }

  lemma PutDue(v: View, id: nat, p: Party)
    requires id in v.parties && !p.t.due
    ensures forall k: nat :: k in Put(v, id, p).parties && Put(v, id, p).parties[k].t.due
                        <==> k in v.parties && v.parties[k].t.due && k != id
  {
  }

  lemma ExtendsHistory(v: View, w: View)
    requires Extends(v, w)
    ensures v.history <= w.history
  {
  }

  lemma ExtendsAt(v: View, w: View, id: nat)
    requires Extends(v, w) && id in v.parties
    ensures id in w.parties && Same(v.parties[id], w.parties[id], v.delivering)
  {
  }

  /** While the loop runs, listeners do not change who is due, nor where the loop is. */
  lemma ExtendsLoop(v: View, w: View)
    requires Extends(v, w) && v.delivering
    ensures w.delivering && w.taken == v.taken && v.history <= w.history
    ensures forall k: nat :: k in w.parties && w.parties[k].t.due <==> k in v.parties && v.parties[k].t.due
    ensures Extends(Resting(v), Resting(w))
  {
    forall k: nat
      ensures k in w.parties && w.parties[k].t.due <==> k in v.parties && v.parties[k].t.due
    {
      if k in v.parties {
        assert Same(v.parties[k], w.parties[k], true);
      }
    }
  }

  ghost function Register(v: View, filter: EventFilter, queue: seq<DaemonEvent>, origin: nat): View {
    var id := v.nextSubscription;
    v.(parties := v.parties[id := Party(Subscriber(filter, |v.history|, queue, false, true),
                                        Trace(origin, |v.history|, false, []))],
       nextSubscription := id + 1)
  }

  lemma RegisterForm(v: View, filter: EventFilter, queue: seq<DaemonEvent>, origin: nat)
    ensures var id := v.nextSubscription;
      Register(v, filter, queue, origin) ==
      v.(parties := v.parties[id := Party(Subscriber(filter, |v.history|, queue, false, true), Trace(origin, |v.history|, false, []))],
         nextSubscription := id + 1)
  {
  }

  lemma RegisterKeeps(v: View, filter: EventFilter, queue: seq<DaemonEvent>, origin: nat)
    requires Inv(v, {}) && origin <= |v.history|
    requires queue == Select(v.history[origin..], filter)
    ensures Inv(Register(v, filter, queue, origin), {v.nextSubscription})
    ensures Extends(v, Register(v, filter, queue, origin))
    ensures v.nextId == |v.history| + 1 && v.nextSubscription !in v.parties
  {
    hide Select;
    var w := Register(v, filter, queue, origin);
    var id := v.nextSubscription;
    assert v.history[origin..|v.history|] == v.history[origin..];
    assert [] + queue == queue;
    assert Tracked(w.history, w.taken, w.parties[id]);
    assert id !in v.parties;
  }

  // ---------------------------------------------------------------- what it means

  /** Between top-level calls, every registered listener has been called with exactly the
      matching events after its origin, once each, in publication order. */
  lemma QuietMeansDelivered(v: View, id: nat)
    requires Inv(v, {}) && Quiet(v) && id in v.parties && v.parties[id].s.registered
    ensures v.parties[id].t.origin <= |v.history|
    ensures v.parties[id].t.seen == Select(v.history[v.parties[id].t.origin..], v.parties[id].s.filter)
  {
    var t := v.parties[id].t;
    assert Tracked(v.history, v.taken, v.parties[id]) && Rests(v.parties[id].s);
    assert t.frontier == |v.history|;
    assert v.history[t.origin..t.frontier] == v.history[t.origin..];
    assert t.seen + [] == t.seen;
  }

  /** Between top-level calls, a registered listener has been called with an event of the history
      after its origin exactly if every field that its filter sets agrees with the event. */
  lemma ListenerIsCalledIff(v: View, id: nat, i: nat)
    requires Inv(v, {}) && Quiet(v) && id in v.parties && v.parties[id].s.registered
    requires v.parties[id].t.origin <= i < |v.history|
    ensures var event, filter := v.history[i], v.parties[id].s.filter;
      event in v.parties[id].t.seen <==>
        && (filter.thread.Some? ==> event.thread == Some(filter.thread.value))
        && (filter.turn.Some? ==> event.turn == Some(filter.turn.value))
        && (filter.kinds.Some? && |filter.kinds.value| > 0 ==>
              exists k :: 0 <= k < |filter.kinds.value| && filter.kinds.value[k] == event.kind)
  {
    QuietMeansDelivered(v, id);
    hide Inv, Quiet;
    var origin := v.parties[id].t.origin;
    assert v.history[origin..][i - origin] == v.history[i];
    SelectIff(v.history[origin..], v.parties[id].s.filter, v.history[i]);
  }

  /** At every moment, removed and failed listeners included, a listener has been called
      with a prefix of that sequence. */
  lemma SeenIsPrefix(v: View, hot: set<nat>, id: nat)
    requires Inv(v, hot) && id in v.parties
    ensures v.parties[id].t.origin <= |v.history|
    ensures v.parties[id].t.seen <= Select(v.history[v.parties[id].t.origin..], v.parties[id].s.filter)
  {
    var t, f := v.parties[id].t, v.parties[id].s.filter;
    assert Tracked(v.history, v.taken, v.parties[id]);
    assert v.history[t.origin..] == v.history[t.origin..t.frontier] + v.history[t.frontier..];
    SelectConcat(v.history[t.origin..t.frontier], v.history[t.frontier..], f);
  }

  /** Strictly increasing positions after `from`, up to `upTo`: in particular no event twice. */
  ghost predicate Increasing(events: seq<DaemonEvent>, from: nat, upTo: nat) {
    && (forall i :: 0 <= i < |events| ==> from < events[i].id.sequence <= upTo)
    && (forall i, j :: 0 <= i < j < |events| ==> events[i].id.sequence < events[j].id.sequence)
  }

  lemma {:induction false} SelectIncreasing(history: seq<DaemonEvent>, epoch: string, from: nat, filter: EventFilter)
    requires from <= |history| && Numbered(history, epoch)
    ensures Increasing(Select(history[from..], filter), from, |history|)
  {
    if from < |history| {
      var n := |history| - 1;
      assert history[from..][..|history[from..]| - 1] == history[..n][from..];
      SelectIncreasing(history[..n], epoch, from, filter);
    } else {
      assert history[from..] == [];
    }
  }

  /** The retained events after `since` that match, as the bus filters its ring. */
  function Retained(replay: seq<DaemonEvent>, since: nat, filter: EventFilter): seq<DaemonEvent> {
    if replay == [] then []
    else
      var last := replay[|replay| - 1];
      Retained(replay[..|replay| - 1], since, filter)
      + if last.id.sequence > since && Matches(last, filter) then [last] else []
  }

  lemma {:induction false} RetainedIff(replay: seq<DaemonEvent>, since: nat, filter: EventFilter, event: DaemonEvent)
    ensures event in Retained(replay, since, filter) <==>
            && event in replay && event.id.sequence > since
            && (filter.thread.Some? ==> event.thread == Some(filter.thread.value))
            && (filter.turn.Some? ==> event.turn == Some(filter.turn.value))
            && (filter.kinds.Some? && |filter.kinds.value| > 0 ==>
                  exists i :: 0 <= i < |filter.kinds.value| && filter.kinds.value[i] == event.kind)
  {
    if replay != [] {
      var n := |replay| - 1;
      RetainedIff(replay[..n], since, filter, event);
      assert replay == replay[..n] + [replay[n]];
    }
  }

  /** Filtering the ring by sequence number is selecting from the full history, as long
      as the ring still reaches back to `since`. */
  lemma {:induction false} RetainedIsSelect(history: seq<DaemonEvent>, epoch: string, first: nat, since: nat, filter: EventFilter)
    requires Numbered(history, epoch) && first <= since <= |history|
    ensures Retained(history[first..], since, filter) == Select(history[since..], filter)
  {
    if |history| == since {
      assert history[since..] == [];
      NothingRetained(history, epoch, first, since, filter);
    } else {
      var n := |history| - 1;
      assert history[first..][..|history[first..]| - 1] == history[..n][first..];
      assert history[since..][..|history[since..]| - 1] == history[..n][since..];
      RetainedIsSelect(history[..n], epoch, first, since, filter);
    }
  }

  lemma {:induction false} NothingRetained(history: seq<DaemonEvent>, epoch: string, first: nat, since: nat, filter: EventFilter)
    requires Numbered(history, epoch) && first <= |history| <= since
    ensures Retained(history[first..], since, filter) == []
  {
    if first < |history| {
      var n := |history| - 1;
      assert history[first..][..|history[first..]| - 1] == history[..n][first..];
      NothingRetained(history[..n], epoch, first, since, filter);
    } else {
      assert history[first..] == [];
    }
  }

  /** In an increasing sequence, what follows position `i` is what is left without its element. */
  lemma RestOf(ids: seq<nat>, i: nat)
    requires i < |ids| && forall j, k :: 0 <= j < k < |ids| ==> ids[j] < ids[k]
    ensures forall k: nat :: k in ids[i + 1..] <==> k in ids[i..] && k != ids[i]
    ensures ids[i] in ids[i..]
  {
    assert ids[i..] == [ids[i]] + ids[i + 1..];
    var later := ids[i + 1..];
    forall k | k in later ensures k != ids[i] {
      var j :| 0 <= j < |later| && later[j] == k;
      assert ids[i + 1 + j] == k;
    }
  }

  // ---------------------------------------------------------------- who is registered

  /** The bookkeeping is about the bus's subscribers and what their listeners were called with. */
  predicate Mirrors(subscribers: map<nat, Subscriber>, parties: map<nat, Party>, calls: map<nat, seq<DaemonEvent>>) {
    && subscribers.Keys == parties.Keys && calls.Keys == parties.Keys
    && (forall id <- subscribers :: parties[id].s == subscribers[id])
    && (forall id <- calls :: parties[id].t.seen == calls[id])
  }

  lemma MirrorsPut(subscribers: map<nat, Subscriber>, parties: map<nat, Party>, calls: map<nat, seq<DaemonEvent>>, id: nat, p: Party)
    requires Mirrors(subscribers, parties, calls) && id in subscribers && p.t.seen == parties[id].t.seen
    ensures Mirrors(subscribers[id := p.s], parties[id := p], calls)
  {
  }

  lemma MirrorsCall(subscribers: map<nat, Subscriber>, parties: map<nat, Party>, calls: map<nat, seq<DaemonEvent>>, id: nat, p: Party)
    requires Mirrors(subscribers, parties, calls)
    ensures Mirrors(subscribers[id := p.s], parties[id := p], calls[id := p.t.seen])
  {
  }

  /** The listener threw in one of the first `counted` calls. */
  predicate HasThrown(verdicts: seq<(nat, bool)>, counted: nat, id: nat) {
    exists i :: 0 <= i < counted && i < |verdicts| && verdicts[i] == (id, true)
  }

  /** A subscription is registered until it is given up or its listener throws, and no longer. */
  ghost predicate Accounts(subscribers: map<nat, Subscriber>, left: set<nat>, verdicts: seq<(nat, bool)>, counted: nat) {
    && counted <= |verdicts|
    && left <= subscribers.Keys && (forall v <- verdicts :: v.0 in subscribers)
    && (forall id <- subscribers :: subscribers[id].registered <==> id !in left && !HasThrown(verdicts, counted, id))
  }

  /** Nobody comes to be removed, or back. */
  predicate Stays(a: map<nat, Subscriber>, b: map<nat, Subscriber>) {
    forall k <- a :: k in b && b[k].registered == a[k].registered
  }

  lemma StaysSame(a: map<nat, Subscriber>)
    ensures Stays(a, a)
  {
  }

  lemma StaysTransitive(a: map<nat, Subscriber>, b: map<nat, Subscriber>, c: map<nat, Subscriber>)
    requires Stays(a, b) && Stays(b, c)
    ensures Stays(a, c)
  {
  }

  lemma StaysPut(a: map<nat, Subscriber>, id: nat, s: Subscriber)
    requires id in a ==> s.registered == a[id].registered
    ensures Stays(a, a) && Stays(a, a[id := s])
  {
  }

  /** Nothing about registration changes. */
  lemma AccountsSame(a: map<nat, Subscriber>, b: map<nat, Subscriber>, left: set<nat>, verdicts: seq<(nat, bool)>, counted: nat)
    requires Accounts(a, left, verdicts, counted) && a.Keys == b.Keys && forall id <- a :: b[id].registered == a[id].registered
    ensures Accounts(b, left, verdicts, counted)
  {
    hide HasThrown;
  }

  lemma AccountsNew(a: map<nat, Subscriber>, id: nat, s: Subscriber, left: set<nat>, verdicts: seq<(nat, bool)>, counted: nat)
    requires Accounts(a, left, verdicts, counted) && id !in a && s.registered
    ensures Accounts(a[id := s], left, verdicts, counted)
  {
    assert forall i :: 0 <= i < |verdicts| ==> verdicts[i] in verdicts;
    assert !HasThrown(verdicts, counted, id);
    hide HasThrown;
  }

  lemma NewEntry(a: map<nat, Subscriber>, parties: map<nat, Party>, calls: map<nat, seq<DaemonEvent>>, id: nat, p: Party,
                 left: set<nat>, verdicts: seq<(nat, bool)>, counted: nat)
    requires Mirrors(a, parties, calls) && Accounts(a, left, verdicts, counted) && id !in parties && p.s.registered
    ensures Mirrors(a[id := p.s], parties[id := p], calls[id := p.t.seen])
    ensures Accounts(a[id := p.s], left, verdicts, counted)
  {
    MirrorsCall(a, parties, calls, id, p);
    AccountsNew(a, id, p.s, left, verdicts, counted);
    hide Accounts;
  }

  lemma AccountsLeft(a: map<nat, Subscriber>, id: nat, s: Subscriber, left: set<nat>, verdicts: seq<(nat, bool)>, counted: nat)
    requires Accounts(a, left, verdicts, counted) && id in a && !s.registered
    ensures Accounts(a[id := s], left + {id}, verdicts, counted)
  {
    hide HasThrown;
  }

  /** One more call has ended. */
  lemma AccountsCall(a: map<nat, Subscriber>, left: set<nat>, verdicts: seq<(nat, bool)>, counted: nat, id: nat, threw: bool)
    requires Accounts(a, left, verdicts, counted) && id in a
    ensures Accounts(a, left, verdicts + [(id, threw)], counted)
  {
    forall k: nat ensures HasThrown(verdicts + [(id, threw)], counted, k) <==> HasThrown(verdicts, counted, k) {
      if HasThrown(verdicts, counted, k) {
        var i :| 0 <= i < counted && i < |verdicts| && verdicts[i] == (k, true);
        assert (verdicts + [(id, threw)])[i] == (k, true);
      }
    }
    hide HasThrown;
  }

  /** The last verdict is acted on. */
  lemma AccountsVerdict(a: map<nat, Subscriber>, b: map<nat, Subscriber>, left: set<nat>, verdicts: seq<(nat, bool)>, counted: nat, id: nat)
    requires Accounts(a, left, verdicts, counted) && counted + 1 == |verdicts| && verdicts[counted].0 == id && id in a
    requires a.Keys == b.Keys && forall k <- a :: b[k].registered == (a[k].registered && !(k == id && verdicts[counted].1))
    ensures Accounts(b, left, verdicts, counted + 1)
  {
    forall k: nat
      ensures HasThrown(verdicts, counted + 1, k) <==> HasThrown(verdicts, counted, k) || (k == id && verdicts[counted].1)
    {
      if k == id && verdicts[counted].1 {
        assert verdicts[counted] == (k, true);
      }
    }
    hide HasThrown;
  }

  // ---------------------------------------------------------------- the bus

  class EventBus {
    const epoch: string
    const replayLimit: nat

    var nextId: nat
    var replay: seq<DaemonEvent>
    var pending: seq<DaemonEvent>
    var delivering: bool
    /** Every subscriber made so far, in order of registration. */
    var subscribers: map<nat, Subscriber>
    var nextSubscription: nat
    var script: seq<seq<Act>>
    /** What each listener has been called with so far, in order. */
    var calls: map<nat, seq<DaemonEvent>>

    ghost var history: seq<DaemonEvent>
    ghost var taken: nat
    ghost var parties: map<nat, Party>
    /** Who was unsubscribed on request, every listener call with whether it threw, and how many of
        these verdicts the bus has acted on. */
    ghost var left: set<nat>
    ghost var verdicts: seq<(nat, bool)>
    ghost var counted: nat

    ghost function State(): View
      reads this
    {
      View(epoch, replayLimit, nextId, replay, pending, delivering, parties, nextSubscription, history, taken)
    }

    ghost predicate InSync()
      reads `subscribers, `parties, `calls, `left, `verdicts, `counted
    {
      Mirrors(subscribers, parties, calls) && Accounts(subscribers, left, verdicts, counted)
    }

    ghost predicate Sound()
      reads this
    {
      Inv(State(), {}) && InSync()
    }

    ghost predicate Valid()
      reads this
    {
      Sound() && counted == |verdicts|
    }

    constructor (epoch: string, replayLimit: nat, script: seq<seq<Act>>)
      requires 1 <= replayLimit
      ensures Valid() && Quiet(State()) && history == [] && subscribers == map[]
      ensures this.epoch == epoch && this.replayLimit == replayLimit
    {
      this.epoch, this.replayLimit, this.script := epoch, replayLimit, script;
      nextId, replay, pending, delivering := 1, [], [], false;
      subscribers, nextSubscription, calls := map[], 0, map[];
      history, taken, parties := [], 0, map[];
      left, verdicts, counted := {}, [], 0;
      new;
      assert Inv(State(), {}) by {
        hide Tracked, Matches;
      }
      hide Inv;
    }

    /** Everything a listener was called with, and nothing else, counts as seen. */
    lemma CallsAreSeen(id: nat)
      requires Valid() && id in parties
      ensures id in calls && calls[id] == parties[id].t.seen
      ensures id in subscribers && subscribers[id] == parties[id].s && parties[id].t.origin <= |history|
    {
      assert Tracked(history, taken, parties[id]);
    }

    /** A subscription is removed exactly if somebody has given it up or its own listener has thrown. */
    lemma RemovedIff(id: nat)
      requires Valid() && id in subscribers
      ensures !subscribers[id].registered <==> id in left || exists i :: 0 <= i < |verdicts| && verdicts[i] == (id, true)
    {
      assert HasThrown(verdicts, counted, id) <==> exists i :: 0 <= i < |verdicts| && verdicts[i] == (id, true);
    }

    lemma IsSound()
      requires Valid()
      ensures Inv(State(), {})
    {
    }

    /** Publishes; unless a delivery loop is already running, delivers everything pending. */
    method Emit(draft: DaemonEvent) returns (event: DaemonEvent)
      requires Valid()
      modifies this
      ensures Valid() && Extends(old(State()), State()) && |script| <= old(|script|)
      ensures event == draft.(id := EventId(epoch, |old(history)| + 1))
      ensures old(history) + [event] <= history
      ensures |script| == old(|script|) ==> Stays(old(subscribers), subscribers)
      decreases |script|, 3, 0
    {
      StaysSame(subscribers);
      hide Ring, Loop, Known, Idle, Extends, InSync, Stays;
      ghost var v := State();
      assert nextId == |history| + 1 by {
        NextIsNew(v);
      }
      event := Append(draft);
      PublishKeeps(v, event);
      if !delivering {
        delivering := true;
        ghost var w := Resting(State());
        assert w == Publish(v, event);
        Drain();
        ExtendsHistory(w, Resting(State()));
        RestKeeps(State());
        ExtendsTransitive(v, w, Resting(State()));
        delivering := false;
      }
    }

    /** The event gets the next number and goes into the ring and the queue. */
    method Append(draft: DaemonEvent) returns (event: DaemonEvent)
      modifies this`nextId, this`replay, this`pending, this`history
      ensures event == draft.(id := EventId(epoch, old(nextId)))
      ensures State() == Publish(old(State()), event)
    {
      var sequence := nextId;
      nextId := nextId + 1;
      event := draft.(id := EventId(epoch, sequence));
      replay := replay + [event];
      if |replay| > replayLimit {
        replay := replay[1..];
      }
      pending := pending + [event];
      history := history + [event];
    }

    /** The delivery loop: events in order, and for each event the subscribers that were
        registered when it was taken. */
    method Drain()
      requires Valid() && delivering && NoneDue(State())
      modifies this
      ensures Valid() && delivering && NoneDue(State()) && pending == [] && |script| <= old(|script|)
      ensures Extends(Resting(old(State())), Resting(State()))
      ensures |script| == old(|script|) ==> Stays(old(subscribers), subscribers)
      decreases |script|, 2, 0
    {
      hide Ring, Loop, Known, Idle, Extends, Accounts, Stays;
      ghost var v := Resting(State());
      ExtendsRefl(v);
      StaysSame(subscribers);
      while pending != []
        invariant Valid() && delivering && NoneDue(State()) && |script| <= old(|script|)
        invariant Extends(v, Resting(State()))
        invariant |script| == old(|script|) ==> Stays(old(subscribers), subscribers)
        decreases |script|, |pending|
      {
        ghost var before, was := State(), subscribers;
        var next := pending[0];
        pending := pending[1..];
        ghost var after := Take(before);
        taken, parties := after.taken, after.parties;
        TakeKeeps(before);
        ExtendsTransitive(v, Resting(before), Resting(State()));
        var snapshot := Snapshot();
        VisitAll(snapshot, next);
        ExtendsTransitive(v, Resting(after), Resting(State()));
        if |script| == old(|script|) {
          StaysTransitive(old(subscribers), was, subscribers);
        }
      }
    }

    /** The registered subscriptions, in order of registration. */
    method Snapshot() returns (ids: seq<nat>)
      requires Valid()
      ensures forall i, j :: 0 <= i < j < |ids| ==> ids[i] < ids[j]
      ensures forall k: nat :: k in ids <==> k in subscribers && subscribers[k].registered
    {
      hide Ring, Loop, Tracked;
      ids := [];
      for k := 0 to nextSubscription
        invariant forall i, j :: 0 <= i < j < |ids| ==> ids[i] < ids[j]
        invariant forall i :: 0 <= i < |ids| ==> ids[i] < k
        invariant forall n: nat :: n in ids <==> n < k && n in subscribers && subscribers[n].registered
      {
        if k in subscribers && subscribers[k].registered {
          ids := ids + [k];
        }
      }
    }

    /** Visits the snapshot for one event.  Nothing the listeners do changes who is due. */
    method VisitAll(snapshot: seq<nat>, next: DaemonEvent)
      requires Valid() && delivering && 0 < taken <= |history| && next == history[taken - 1]
      requires forall i, j :: 0 <= i < j < |snapshot| ==> snapshot[i] < snapshot[j]
      requires forall k: nat :: k in snapshot <==> k in parties && parties[k].t.due
      modifies this
      ensures Valid() && delivering && NoneDue(State())
      ensures |script| <= old(|script|) && (|script| == old(|script|) ==> pending == old(pending))
      ensures Extends(Resting(old(State())), Resting(State()))
      ensures |script| == old(|script|) ==> Stays(old(subscribers), subscribers)
      decreases |script|, 1, 2
    {
      hide Ring, Loop, Known, Idle, Extends, InSync, Stays;
      ghost var v := Resting(State());
      ExtendsRefl(v);
      StaysSame(subscribers);
      var i := 0;
      while i < |snapshot|
        invariant i <= |snapshot| && Valid() && delivering
        invariant forall k: nat :: k in snapshot[i..] <==> k in parties && parties[k].t.due
        invariant taken == old(taken) && taken <= |history| && next == history[taken - 1]
        invariant Extends(v, Resting(State()))
        invariant |script| <= old(|script|) && (|script| == old(|script|) ==> pending == old(pending))
        invariant |script| == old(|script|) ==> Stays(old(subscribers), subscribers)
      {
        ghost var mid, was := State(), subscribers;
        RestOf(snapshot, i);
        VisitOne(snapshot[i], next);
        ExtendsTransitive(v, Resting(mid), Resting(State()));
        if |script| == old(|script|) {
          StaysTransitive(old(subscribers), was, subscribers);
        }
        i := i + 1;
      }
    }

    method VisitOne(id: nat, next: DaemonEvent)
      requires Valid() && delivering && id in parties && parties[id].t.due
      requires 0 < taken <= |history| && next == history[taken - 1]
      modifies this
      ensures Valid() && delivering && taken == old(taken) && old(history) <= history
      ensures forall k: nat :: k in parties && parties[k].t.due <==> k in old(parties) && old(parties)[k].t.due && k != id
      ensures |script| <= old(|script|) && (|script| == old(|script|) ==> pending == old(pending))
      ensures Extends(Resting(old(State())), Resting(State()))
      ensures |script| == old(|script|) ==> Stays(old(subscribers), subscribers)
      decreases |script|, 1, 1
    {
      hide Ring, Loop, Known, Idle, Extends;
      ghost var v := State();
      var given := Offer(id, next);
      hide InSync, Stays;
      PutDue(v, id, parties[id]);
      if given {
        ghost var w, was := State(), subscribers;
        Deliver(id);
        if |script| == old(|script|) {
          StaysTransitive(old(subscribers), was, subscribers);
        }
        ExtendsLoop(w, State());
        ExtendsTransitive(Resting(v), Resting(w), Resting(State()));
      }
    }

    /** Queues the event for the subscriber if it is one of its events. */
    method Offer(id: nat, next: DaemonEvent) returns (given: bool)
      requires Valid() && delivering && id in parties && parties[id].t.due
      requires 0 < taken <= |history| && next == history[taken - 1]
      modifies this`subscribers, this`parties
      ensures InSync() && id in subscribers && Inv(State(), if given then {id} else {})
      ensures id in parties && !parties[id].t.due && State() == Put(old(State()), id, parties[id])
      ensures Extends(Resting(old(State())), Resting(State()))
      ensures Stays(old(subscribers), subscribers)
    {
      hide Ring, Loop, Known, Idle, Extends;
      ghost var v, p := State(), Visited(parties[id], taken, next);
      VisitKeeps(v, id, p);
      hide Visited;
      var subscriber := subscribers[id];
      ghost var was := subscribers;
      MirrorsPut(subscribers, parties, calls, id, p);
      parties := parties[id := p];
      given := subscriber.registered && next.id.sequence > subscriber.liveAfter && Matches(next, subscriber.filter);
      if given {
        subscribers := subscribers[id := subscriber.(queue := subscriber.queue + [next])];
      }
      AccountsSame(was, subscribers, left, verdicts, counted);
      StaysPut(was, id, subscribers[id]);
      assert subscribers == was[id := subscribers[id]];
      hide Accounts, Mirrors, Stays;
      assert State() == Put(v, id, p);
    }

    /** Calls the listener of `id` with its queued events, unless it is already running. */
    method Deliver(id: nat)
      requires Inv(State(), {id}) && InSync() && id in subscribers && counted == |verdicts|
      modifies this
      ensures Valid() && Extends(old(State()), State())
      ensures |script| <= old(|script|) && (|script| == old(|script|) ==> pending == old(pending))
      ensures |script| == old(|script|) ==> Stays(old(subscribers), subscribers)
      decreases |script|, 1, 0
    {
      if subscribers[id].delivering {
        AlreadyCalled(State(), id);
        StaysSame(subscribers);
        return;
      }
      hide Ring, Loop, Known, Idle, Extends, InSync, Rests, Stays;
      ghost var v := State();
      Begin(id);
      ghost var raised, a := parties[id], subscribers;
      CallAll(id);
      ghost var w, b := State(), subscribers;
      End(id);
      if |script| == old(|script|) {
        StaysTransitive(old(subscribers), a, b);
        StaysTransitive(old(subscribers), b, subscribers);
      }
      Bracket(v, id, raised, w, parties[id]);
    }

    /** The listener is running from now on. */
    method Begin(id: nat)
      requires Inv(State(), {id}) && InSync() && id in subscribers && !subscribers[id].delivering && counted == |verdicts|
      modifies this`subscribers, this`parties
      ensures Calling(id) && id in old(parties) && State() == Put(old(State()), id, parties[id])
      ensures !old(parties)[id].s.delivering
      ensures parties[id] == old(parties)[id].(s := old(parties)[id].s.(delivering := true))
      ensures Stays(old(subscribers), subscribers)
    {
      hide Ring, Loop, Known, Idle, Extends;
      SubscriberKeeps(State(), id, subscribers[id].(delivering := true));
      Raise(id, true);
    }

    /** It has stopped; nothing is left for it. */
    method End(id: nat)
      requires Calling(id) && (!subscribers[id].registered || subscribers[id].queue == [])
      modifies this`subscribers, this`parties
      ensures Valid() && id in old(parties) && State() == Put(old(State()), id, parties[id])
      ensures parties[id] == old(parties)[id].(s := old(parties)[id].s.(delivering := false))
      ensures Stays(old(subscribers), subscribers)
    {
      hide Ring, Loop, Known, Idle, Extends;
      WeakenHot(State(), id);
      SubscriberKeeps(State(), id, subscribers[id].(delivering := false));
      Raise(id, false);
    }

    method Raise(id: nat, on: bool)
      requires InSync() && id in subscribers
      modifies this`subscribers, this`parties
      ensures InSync() && subscribers == old(subscribers)[id := old(subscribers)[id].(delivering := on)]
      ensures id in old(parties) && old(parties)[id].s == old(subscribers)[id]
      ensures parties == old(parties)[id := old(parties)[id].(s := subscribers[id])]
      ensures Stays(old(subscribers), subscribers)
    {
      ghost var p := parties[id].(s := subscribers[id].(delivering := on));
      MirrorsPut(subscribers, parties, calls, id, p);
      AccountsSame(subscribers, subscribers[id := p.s], left, verdicts, counted);
      assert parties[id].s == subscribers[id];
      StaysPut(subscribers, id, p.s);
      hide Accounts, Mirrors, Stays;
      subscribers := subscribers[id := subscribers[id].(delivering := on)];
      parties := parties[id := parties[id].(s := subscribers[id])];
    }

    ghost predicate Calling(id: nat)
      reads this
    {
      Valid() && id in subscribers && subscribers[id].delivering
    }

    /** The loop of a delivery: until the subscriber is removed, fails or has caught up. */
    method CallAll(id: nat)
      requires Calling(id)
      modifies this
      ensures Calling(id) && (!subscribers[id].registered || subscribers[id].queue == [])
      ensures id in parties && parties[id].s == subscribers[id] && Extends(old(State()), State())
      ensures |script| <= old(|script|) && (|script| == old(|script|) ==> pending == old(pending))
      ensures |script| == old(|script|) ==> Stays(old(subscribers), subscribers)
      decreases |script|, 0, 3
    {
      hide Ring, Loop, Known, Idle, Extends, InSync, Stays;
      PartyOf(id);
      ghost var v := State();
      ExtendsRefl(v);
      StaysSame(subscribers);
      while subscribers[id].registered && subscribers[id].queue != []
        invariant Calling(id) && id in parties && parties[id].s == subscribers[id] && Extends(v, State())
        invariant |script| <= old(|script|) && (|script| == old(|script|) ==> pending == old(pending))
        invariant |script| == old(|script|) ==> Stays(old(subscribers), subscribers)
        decreases |script|, |subscribers[id].queue|
      {
        ghost var before, was := State(), subscribers;
        CallOne(id);
        ExtendsTransitive(v, before, State());
        if |script| == old(|script|) {
          StaysTransitive(old(subscribers), was, subscribers);
        }
      }
    }

    /** One round of it: the oldest event, and what comes of it. */
    method CallOne(id: nat)
      requires Calling(id) && subscribers[id].registered && subscribers[id].queue != []
      modifies this
      ensures Calling(id) && id in parties && parties[id].s == subscribers[id] && Extends(old(State()), State())
      ensures |script| <= old(|script|)
      ensures |script| == old(|script|) ==>
        pending == old(pending) && |subscribers[id].queue| < |old(subscribers[id].queue)|
        && subscribers[id].registered && left == old(left)
      ensures |script| == old(|script|) ==> Stays(old(subscribers), subscribers)
      decreases |script|, 0, 2
    {
      hide Ring, Loop, Known, Idle, Extends, Accounts, Mirrors, Stays;
      ghost var v := State();
      var event := PopFront(id);
      ghost var called := State();
      var threw := Invoke(id, event);
      ghost var w := State();
      ExtendsTransitive(v, called, w);
      if threw {
        Detach(id);
        ExtendsTransitive(v, w, State());
      } else {
        Approve(id);
      }
      PartyOf(id);
    }

    lemma SubscribersAreParties()
      requires InSync()
      ensures subscribers.Keys == parties.Keys
    {
      hide Accounts;
    }

    lemma PartyOf(id: nat)
      requires InSync() && id in subscribers
      ensures id in parties && parties[id].s == subscribers[id]
    {
      hide Accounts;
    }

    method PopFront(id: nat) returns (event: DaemonEvent)
      requires Calling(id) && subscribers[id].registered && subscribers[id].queue != []
      modifies this`subscribers, this`parties, this`calls
      ensures Calling(id) && Extends(old(State()), State())
      ensures event == old(subscribers)[id].queue[0]
      ensures subscribers == old(subscribers)[id := old(subscribers)[id].(queue := old(subscribers)[id].queue[1..])]
      ensures parties[id].t.seen == old(parties)[id].t.seen + [event]
      ensures Stays(old(subscribers), subscribers)
    {
      hide Ring, Loop, Known, Idle, Extends;
      ghost var v, p := State(), Shifted(parties[id]);
      ShiftKeeps(v, id);
      AccountsSame(subscribers, subscribers[id := p.s], left, verdicts, counted);
      MirrorsCall(subscribers, parties, calls, id, p);
      assert parties[id].s == subscribers[id] && calls[id] == parties[id].t.seen;
      StaysPut(subscribers, id, p.s);
      hide Accounts, Mirrors, Stays;
      event := subscribers[id].queue[0];
      subscribers := subscribers[id := subscribers[id].(queue := subscribers[id].queue[1..])];
      parties := parties[id := p];
      calls := calls[id := calls[id] + [event]];
    }

    /** A listener that threw is removed and its queue dropped. */
    method Detach(id: nat)
      requires Called(id, true)
      modifies this`subscribers, this`parties, this`counted
      ensures Calling(id) && Extends(old(State()), State())
      ensures subscribers == old(subscribers)[id := old(subscribers)[id].(registered := false, queue := [])]
    {
      hide Ring, Loop, Known, Idle, Extends;
      WeakenHot(State(), id);
      SubscriberKeeps(State(), id, subscribers[id].(registered := false, queue := []));
      AccountsVerdict(subscribers, subscribers[id := subscribers[id].(registered := false, queue := [])], left, verdicts, counted, id);
      MirrorsPut(subscribers, parties, calls, id, parties[id].(s := subscribers[id].(registered := false, queue := [])));
      assert parties[id].s == subscribers[id];
      hide Accounts, Mirrors;
      subscribers := subscribers[id := subscribers[id].(registered := false, queue := [])];
      parties := parties[id := parties[id].(s := subscribers[id])];
      counted := counted + 1;
      assert State() == Put(old(State()), id, parties[id]);
    }

    /** One that did not goes on. */
    ghost method Approve(id: nat)
      requires Called(id, false)
      modifies this`counted
      ensures Calling(id) && State() == old(State())
    {
      hide Accounts, Mirrors, Inv;
      AccountsVerdict(subscribers, subscribers, left, verdicts, counted, id);
      counted := counted + 1;
    }

    /** The listener has just been called; what came of it is the last verdict. */
    ghost predicate Called(id: nat, threw: bool)
      reads this
    {
      && Sound() && id in subscribers && subscribers[id].delivering
      && counted + 1 == |verdicts| && verdicts[counted] == (id, threw)
    }

    /** One listener call, as the script has it. */
    method Invoke(id: nat, event: DaemonEvent) returns (threw: bool)
      requires Calling(id)
      modifies this
      ensures Called(id, threw) && Extends(old(State()), State())
      ensures |script| <= old(|script|)
      ensures |script| == old(|script|) ==> State() == old(State()) && subscribers == old(subscribers) && left == old(left) && !threw
      ensures old(script) != [] && Throws in old(script)[0] ==> threw
      decreases |script|, 0, 1
    {
      assert id in parties && parties[id].s.delivering;
      hide Ring, Loop, Known, Idle, Extends, InSync;
      ExtendsRefl(State());
      threw := false;
      if script != [] {
        ghost var v := State();
        threw := Perform();
        StillCalling(v, id);
      }
      Note(id, threw);
    }

    /** A listener runs until its call returns. */
    lemma StillCalling(v: View, id: nat)
      requires Valid() && Extends(v, State()) && id in v.parties && v.parties[id].s.delivering
      ensures Calling(id)
    {
      ExtendsAt(v, State(), id);
    }

    ghost method Note(id: nat, threw: bool)
      requires Calling(id)
      modifies this`verdicts
      ensures Called(id, threw) && State() == old(State())
    {
      hide Accounts, Mirrors, Inv;
      AccountsCall(subscribers, left, verdicts, counted, id, threw);
      verdicts := verdicts + [(id, threw)];
    }

    /** What the script has for this call. */
    method Perform() returns (threw: bool)
      requires Valid() && script != []
      modifies this
      ensures Valid() && Extends(old(State()), State()) && |script| < old(|script|)
      ensures Throws in old(script)[0] ==> threw
      decreases |script|, 0, 0
    {
      hide Ring, Loop, Known, Idle, Extends, InSync;
      ExtendsRefl(State());
      var acts := script[0];
      script := script[1..];
      ghost var v := State();
      for i := 0 to |acts|
        invariant Valid() && Extends(v, State()) && |script| < old(|script|)
        invariant Throws !in acts[..i]
      {
        ghost var before := State();
        ExtendsRefl(before);
        match acts[i] {
          case Emits(draft) =>
            var _ := Emit(draft);
          case Subscribes(filter) =>
            var reply := Subscribe(filter);
            if reply.Err? {
              return true;
            }
          case Unsubscribes(id) =>
            var _ := Unsubscribe(id);
          case Throws =>
            return true;
        }
        ExtendsTransitive(v, before, State());
      }
      return false;
    }

    /** Registers a listener; with a cursor, what is retained after it comes first. */
    method Subscribe(filter: EventFilter) returns (reply: Result<nat, Error>)
      requires Valid()
      modifies this
      ensures Valid() && |script| <= old(|script|) && Extends(old(State()), State())
      ensures filter.since.Some? && old(Position(filter.since.value)).Err? ==>
                reply == Err(old(Position(filter.since.value)).error) && State() == old(State())
      ensures filter.since == None || old(Position(filter.since.value)).Ok? ==>
                && reply == Ok(old(nextSubscription)) && reply.value in parties
                && parties[reply.value].s.filter == filter
                && parties[reply.value].t.origin ==
                     if filter.since == None then |old(history)| else old(Position(filter.since.value)).value
      ensures |script| == old(|script|) ==> Stays(old(subscribers), subscribers)
      decreases |script|, 2, 1
    {
      hide Ring, Loop, Known, Idle, Extends, Tracked;
      ghost var v := State();
      var queue := [];
      ghost var origin := |history|;
      if filter.since.Some? {
        match EventsSince(filter) {
          case Err(error) =>
            ExtendsRefl(v);
            return Err(error);
          case Ok(events) =>
            queue := events;
            origin := Position(filter.since.value).value;
        }
      } else {
        assert history[origin..] == [];
      }
      hide InSync, Select;
      var id := Enter(filter, queue, origin);
      ghost var w := State();
      Deliver(id);
      ExtendsAt(w, State(), id);
      ExtendsTransitive(v, w, State());
      return Ok(id);
    }

    method Enter(filter: EventFilter, queue: seq<DaemonEvent>, ghost origin: nat) returns (id: nat)
      requires Valid() && origin <= |history| && queue == Select(history[origin..], filter)
      modifies this`subscribers, this`parties, this`nextSubscription, this`calls
      ensures InSync() && Inv(State(), {id}) && Extends(old(State()), State())
      ensures id == old(nextSubscription) && id in subscribers && id in parties
      ensures parties[id].s.filter == filter && parties[id].t.origin == origin
      ensures Stays(old(subscribers), subscribers)
    {
      hide Ring, Loop, Known, Idle, Extends, Register, Select;
      id := nextSubscription;
      ghost var v := State();
      RegisterKeeps(v, filter, queue, origin);
      RegisterForm(v, filter, queue, origin);
      Add(id, Subscriber(filter, nextId - 1, queue, false, true), origin);
      nextSubscription := id + 1;
      assert State() == Register(v, filter, queue, origin);
    }

    method Add(id: nat, s: Subscriber, ghost origin: nat)
      requires InSync() && id !in parties && s.registered
      modifies this`subscribers, this`parties, this`calls
      ensures InSync() && id in subscribers
      ensures parties == old(parties)[id := Party(s, Trace(origin, |history|, false, []))]
      ensures Stays(old(subscribers), subscribers)
    {
      ghost var p := Party(s, Trace(origin, |history|, false, []));
      hide Accounts, Mirrors;
      NewEntry(subscribers, parties, calls, id, p, left, verdicts, counted);
      assert Stays(subscribers, subscribers[id := s]) by {
        assert id !in subscribers by {
          SubscribersAreParties();
        }
        StaysPut(subscribers, id, s);
      }
      hide Stays;
      subscribers := subscribers[id := s];
      calls := calls[id := []];
      parties := parties[id := p];
    }

    method Unsubscribe(id: nat) returns (found: bool)
      requires Valid()
      modifies this`subscribers, this`parties, this`left
      ensures Valid() && Extends(old(State()), State())
      ensures left == if found then old(left) + {id} else old(left)
      ensures found == (id in old(subscribers) && old(subscribers)[id].registered)
      ensures subscribers == if found then old(subscribers)[id := old(subscribers)[id].(registered := false)]
                             else old(subscribers)
    {
      hide Ring, Loop, Known, Idle, Extends;
      ExtendsRefl(State());
      found := id in subscribers && subscribers[id].registered;
      if found {
        WeakenHot(State(), id);
        SubscriberKeeps(State(), id, subscribers[id].(registered := false));
        AccountsLeft(subscribers, id, subscribers[id].(registered := false), left, verdicts, counted);
        MirrorsPut(subscribers, parties, calls, id, parties[id].(s := subscribers[id].(registered := false)));
        assert parties[id].s == subscribers[id];
        hide Accounts, Mirrors;
        subscribers := subscribers[id := subscribers[id].(registered := false)];
        parties := parties[id := parties[id].(s := subscribers[id])];
        left := left + {id};
        assert State() == Put(old(State()), id, parties[id]);
      }
    }

    /** Where a cursor points, or why the bus refuses it: another instance's or expired
        cursors are lost history, later positions are invalid. */
    function Position(cursor: Cursor): (r: Result<nat, Error>)
      requires Valid()
      reads this
      ensures r.Ok? <==> cursor.After? && cursor.id.epoch == epoch
                         && |history| - replayLimit <= cursor.id.sequence <= |history|
      ensures r.Ok? ==> r.value == cursor.id.sequence
      ensures r == Err(EventHistoryLost) <==>
                cursor.After? && (cursor.id.epoch != epoch || cursor.id.sequence < |history| - replayLimit)
      ensures r.Err? ==> r.error == EventHistoryLost || r.error == InvalidParams
    {
      match cursor
      case Malformed(_) => Err(InvalidParams)
      case After(id) =>
        if id.epoch != epoch then Err(EventHistoryLost)
        else if id.sequence >= nextId then Err(InvalidParams)
        else if id.sequence < nextId - |replay| - 1 then Err(EventHistoryLost)
        else Ok(id.sequence)
    }

    /** The retained events a filter asks for: with an accepted cursor, exactly the
        matching part of the full history after it. */
    function EventsSince(filter: EventFilter): (r: Result<seq<DaemonEvent>, Error>)
      requires Valid()
      reads this
      ensures filter.since.Some? ==> r.Err? == Position(filter.since.value).Err?
      ensures filter.since.Some? && r.Ok? ==>
                var p := Position(filter.since.value).value;
                p <= |history| && r.value == Select(history[p..], filter)
      ensures filter.since.Some? && r.Err? ==> r.error == Position(filter.since.value).error
    {
      if filter.since == None then Ok(Retained(replay, 0, filter))
      else
        match Position(filter.since.value)
        case Err(error) => Err(error)
        case Ok(since) =>
          RetainedIsSelect(history, epoch, |history| - |replay|, since, filter);
          Ok(Retained(replay, since, filter))
    }

    /** What is asked for of the last `replayLimit` events: those after the cursor, if there is one,
        on which every field that the filter sets agrees. */
    lemma EventsSinceIff(filter: EventFilter, i: nat)
      requires Valid() && i < |history| && EventsSince(filter).Ok?
      ensures var event := history[i];
        event in EventsSince(filter).value <==>
          && i >= |history| - replayLimit
          && (filter.since.Some? ==> filter.since.value.After? && i >= filter.since.value.id.sequence)
          && (filter.thread.Some? ==> event.thread == Some(filter.thread.value))
          && (filter.turn.Some? ==> event.turn == Some(filter.turn.value))
          && (filter.kinds.Some? && |filter.kinds.value| > 0 ==>
                exists k :: 0 <= k < |filter.kinds.value| && filter.kinds.value[k] == event.kind)
    {
      var event, since := history[i], if filter.since == None then 0 else Position(filter.since.value).value;
      assert event.id.sequence == i + 1 && replay == history[|history| - |replay|..];
      assert event in replay <==> i >= |history| - |replay| by {
        if i >= |history| - |replay| {
          assert replay[i - (|history| - |replay|)] == event;
        }
        if event in replay {
          var k :| 0 <= k < |replay| && replay[k] == event;
          assert history[|history| - |replay| + k].id.sequence == i + 1;
        }
      }
      RetainedIff(replay, since, filter, event);
      hide Inv;
    }
  }
}
