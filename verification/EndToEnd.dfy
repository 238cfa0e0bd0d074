/** The event bus, the turn stream and its reader together: no event of an accepted turn is
    lost between publication and the consumer, whenever the acceptance arrives. */
module EndToEnd {
  import opened Common
  import opened Events
  import opened EventBuses
  import opened Streams
  import opened TurnStreams
  import opened HttpClients

  /** The subscription of a turn stream lets every event of the turn through. */
  predicate Admits(filter: EventFilter, a: AcceptedTurn) {
    filter.turn == None && filter.kinds == None && (filter.thread == None || filter.thread == Some(a.thread))
  }

  lemma {:induction false} TurnEventsOfSelect(history: seq<DaemonEvent>, filter: EventFilter, a: AcceptedTurn)
    requires Admits(filter, a)
    ensures TurnEvents(Select(history, filter), a) == TurnEvents(history, a)
  {
    if history != [] {
      var n := |history| - 1;
      TurnEventsOfSelect(history[..n], filter, a);
      if Matches(history[n], filter) {
        TurnEventsStep(Select(history[..n], filter), history[n], a);
      } else {
        assert Select(history, filter) == Select(history[..n], filter);
        assert !Belongs(history[n], a);
      }
    }
  }

  /** What is shown of a turn only grows, and no longer once its first terminal event is in. */
  lemma ShownPrefix(heard: seq<DaemonEvent>, all: seq<DaemonEvent>, a: AcceptedTurn)
    requires TurnEvents(heard, a) <= TurnEvents(all, a)
    ensures Shown(heard, a) <= Shown(all, a)
    ensures HasTerminal(TurnEvents(heard, a)) ==> Shown(heard, a) == Shown(all, a) && HasTerminal(TurnEvents(all, a))
  {
    var x, y := TurnEvents(heard, a), TurnEvents(all, a);
    hide TurnEvents, UpToTerminal;
    var more := y[|x|..];
    assert y == x + more;
    UpToTerminalConcat(x, more);
    UpToTerminalMeans(x);
    if HasTerminal(x) {
      var i :| 0 <= i < |x| && IsTerminal(x[i]);
      assert y[i] == x[i];
    }
    hide HasTerminal;
    FramesPrefix(UpToTerminal(x), UpToTerminal(y));
  }

  lemma FramesPrefix(x: seq<DaemonEvent>, y: seq<DaemonEvent>)
    requires x <= y
    ensures Frames(x) <= Frames(y)
  {
  }

  /** Listening from `origin` on misses nothing of a turn that had no events before. */
  lemma TurnFrom(history: seq<DaemonEvent>, origin: nat, filter: EventFilter, seen: seq<DaemonEvent>, a: AcceptedTurn)
    requires origin <= |history| && Admits(filter, a) && TurnEvents(history[..origin], a) == []
    requires seen <= Select(history[origin..], filter)
    ensures TurnEvents(seen, a) <= TurnEvents(history, a)
    ensures seen == Select(history[origin..], filter) ==> TurnEvents(seen, a) == TurnEvents(history, a)
  {
    var late := history[origin..];
    var all := Select(late, filter);
    assert history == history[..origin] + late && all == seen + all[|seen|..];
    TurnEventsConcat(history[..origin], late, a);
    TurnEventsOfSelect(late, filter, a);
    TurnEventsConcat(seen, all[|seen|..], a);
    hide TurnEvents, Select;
    assert [] + TurnEvents(late, a) == TurnEvents(late, a);
  }

  /** The listener has heard a part of the turn's events, all of them when the bus is quiet. */
  lemma HeardOfTurn(v: View, hot: set<nat>, id: nat, a: AcceptedTurn)
    requires Inv(v, hot) && id in v.parties && Admits(v.parties[id].s.filter, a)
    requires v.parties[id].t.origin <= |v.history| ==> TurnEvents(v.history[..v.parties[id].t.origin], a) == []
    ensures TurnEvents(v.parties[id].t.seen, a) <= TurnEvents(v.history, a)
    ensures Inv(v, {}) && Quiet(v) && v.parties[id].s.registered ==>
              TurnEvents(v.parties[id].t.seen, a) == TurnEvents(v.history, a)
  {
    var t, f := v.parties[id].t, v.parties[id].s.filter;
    hide Inv, Quiet, TurnEvents, Select;
    SeenIsPrefix(v, hot, id);
    TurnFrom(v.history, t.origin, f, t.seen, a);
    if Inv(v, {}) && Quiet(v) && v.parties[id].s.registered {
      QuietMeansDelivered(v, id);
    }
  }

  lemma NoneBefore(history: seq<DaemonEvent>, from: nat, upTo: nat, a: AcceptedTurn)
    requires from <= upTo <= |history| && TurnEvents(history[..upTo], a) == []
    ensures TurnEvents(history[..from], a) == []
  {
    assert history[..upTo] == history[..from] + history[from..upTo];
    TurnEventsConcat(history[..from], history[from..upTo], a);
    hide TurnEvents;
  }

  lemma QuietStays(v: View, w: View)
    requires Quiet(v) && Extends(v, w)
    ensures Quiet(w)
  {
  }

  /** A turn stream over the daemon's own bus, as the HTTP transport builds it
      (src/transport/http.ts).  Its methods are what can happen next, in any order: replies of the
      daemon, events published by anybody, reads and closing by the consumer.  What the stream's
      listener does to the bus while the bus calls it is part of the bus's script; what it does to
      the stream is done here, before anything else can happen. */
  class TurnExchange {
    const bus: EventBus
    const turn: TurnStream
    /** The name of the subscription, once there is one. */
    var subscription: Option<nat>
    /** How many of the listener's calls the stream has dealt with. */
    var dealt: nat
    /** How much had been published when the request was issued. */
    ghost var asked: nat

    /** The stream has heard the first `dealt` of the calls its listener got. */
    ghost predicate Follows()
      reads this, bus, turn
    {
      if subscription == None then turn.heard == [] && !turn.disposer
      else
        var id := subscription.value;
        && id in bus.parties && id in bus.calls && bus.calls[id] == bus.parties[id].t.seen
        && bus.parties[id].s.filter == turn.filter
        && dealt <= |bus.calls[id]| && turn.heard == bus.calls[id][..dealt]
        && (turn.phase == Subscribing || turn.disposer)
    }

    /** The request followed the subscription, and the turn was named after the request. */
    ghost predicate Ordered()
      reads this, bus, turn
    {
      && turn.filter.turn == None && turn.filter.since == None && turn.filter.kinds == None
      && asked <= |bus.history|
      && (turn.requestCalls == 1 ==>
            subscription.Some? && subscription.value in bus.parties && bus.parties[subscription.value].t.origin <= asked)
      && (turn.accepted.Some? ==>
            Admits(turn.filter, turn.accepted.value) && TurnEvents(bus.history[..asked], turn.accepted.value) == [])
    }

    ghost predicate Sound()
      reads this, bus, turn, turn.stream
    {
      bus.Valid() && Quiet(bus.State()) && turn.Valid() && Follows() && Ordered()
    }

    ghost predicate Valid()
      reads this, bus, turn, turn.stream
    {
      && Sound()
      && (subscription.Some? ==> subscription.value in bus.calls && dealt == |bus.calls[subscription.value]|)
      && (turn.disposer && turn.stream.ended ==>
            subscription.Some? && subscription.value in bus.parties && !bus.parties[subscription.value].s.registered)
    }

    constructor (bus: EventBus, kind: Method, limit: nat, eventSize: DaemonEvent -> nat, frameSize: TurnFrame -> nat)
      requires bus.Valid() && Quiet(bus.State())
      ensures Valid() && this.bus == bus && fresh(turn) && fresh(turn.stream)
    {
      hide EventBus.Valid, TurnStream.Valid, Quiet, TurnEvents;
      this.bus := bus;
      turn := new TurnStream(kind, limit, eventSize, frameSize);
      subscription, dealt, asked := None, 0, 0;
    }

    /** thread/send resolved its thread, or failed to. */
    method Resolve(reply: Result<string, Error>, thrown: Option<Error>)
      requires Valid() && turn.phase == Resolving
      modifies turn, turn.stream
      ensures Valid()
    {
      hide EventBus.Valid, TurnStream.Valid, Quiet, TurnEvents;
      turn.Milestones();
      turn.Resolved(reply, thrown);
      turn.Milestones();
    }

    /** The bus registers the stream's listener. */
    method Subscribe(thrown: Option<Error>)
      requires Valid() && turn.phase == Subscribing && subscription == None
      modifies this, bus, turn, turn.stream
      ensures Valid() && subscription.Some?
    {
      hide EventBus.Valid, TurnStream.Valid, Quiet, TurnEvents;
      turn.Milestones();
      ghost var v := bus.State();
      var reply := bus.Subscribe(turn.filter);
      QuietStays(v, bus.State());
      bus.CallsAreSeen(reply.value);
      subscription, dealt := Some(reply.value), 0;
      asked := |bus.history|;
      CatchUp(thrown);
    }

    /** What the bus has called the listener with reaches the stream, event by event. */
    method CatchUp(thrown: Option<Error>)
      requires Sound() && subscription.Some?
      modifies this`dealt, bus, turn, turn.stream
      ensures Valid() && bus.history == old(bus.history)
      ensures turn.phase == old(turn.phase)
    {
      hide EventBus.Valid, TurnStream.Valid, Quiet, TurnEvents;
      var id := subscription.value;
      while dealt < |bus.calls[id]|
        invariant Sound() && turn.phase == old(turn.phase)
        invariant unchanged(bus)
        decreases |bus.calls[id]| - dealt
      {
        turn.Milestones();
        turn.Deliver(bus.calls[id][dealt], thrown);
        dealt := dealt + 1;
      }
      Dispose();
    }

    /** A stream that has ended gives its subscription back, as soon as it holds the disposer. */
    method Dispose()
      requires Sound() && (subscription.Some? ==> dealt == |bus.calls[subscription.value]|)
      requires turn.disposer ==> subscription.Some?
      modifies bus`subscribers, bus`parties, bus`left
      ensures Valid()
    {
      hide EventBus.Valid, TurnStream.Valid, Quiet, TurnEvents;
      if subscription.Some? && turn.disposer && turn.stream.ended {
        ghost var v := bus.State();
        bus.CallsAreSeen(subscription.value);
        var _ := bus.Unsubscribe(subscription.value);
        QuietStays(v, bus.State());
        ExtendsAt(v, bus.State(), subscription.value);
        bus.CallsAreSeen(subscription.value);
      }
    }

    /** The subscription is known to the stream: the request is issued, unless it has been closed. */
    method Subscribed(thrown: Option<Error>)
      requires Valid() && turn.phase == Subscribing && subscription.Some?
      modifies this`asked, bus`subscribers, bus`parties, bus`left, turn, turn.stream
      ensures Valid()
    {
      hide EventBus.Valid, TurnStream.Valid, Quiet, TurnEvents;
      bus.CallsAreSeen(subscription.value);
      turn.Milestones();
      turn.Subscribed(Ok(()), thrown);
      asked := |bus.history|;
      Dispose();
    }

    /** The daemon answers the request.  It names a turn when it admits it, so that no event of that
        turn was published before the request; and it answers for the thread it was asked for. */
    method Admitted(reply: Result<AcceptedTurn, Error>, thrown: Option<Error>)
      requires Valid() && turn.phase == Admitting
      requires reply.Ok? ==> TurnEvents(bus.history[..asked], reply.value) == []
      requires reply.Ok? ==> turn.filter.thread == None || turn.filter.thread == Some(reply.value.thread)
      modifies bus`subscribers, bus`parties, bus`left, turn, turn.stream
      ensures Valid()
    {
      hide EventBus.Valid, TurnStream.Valid, Quiet, TurnEvents;
      turn.Milestones();
      turn.Admitted(reply, thrown);
      Dispose();
    }

    /** Anybody publishes an event. */
    method Publish(draft: DaemonEvent, thrown: Option<Error>) returns (event: DaemonEvent)
      requires Valid()
      modifies this`dealt, bus, turn, turn.stream
      ensures Valid() && old(bus.history) + [event] <= bus.history
    {
      hide EventBus.Valid, TurnStream.Valid, Quiet, TurnEvents;
      ghost var v := bus.State();
      if subscription.Some? {
        bus.CallsAreSeen(subscription.value);
      }
      event := bus.Emit(draft);
      QuietStays(v, bus.State());
      assert bus.history[..asked] == v.history[..asked];
      if subscription.Some? {
        ExtendsAt(v, bus.State(), subscription.value);
        bus.CallsAreSeen(subscription.value);
        CatchUp(thrown);
      }
    }

    /** Somebody else subscribes. */
    method Join(filter: EventFilter, thrown: Option<Error>)
      requires Valid()
      modifies this`dealt, bus, turn, turn.stream
      ensures Valid()
    {
      hide EventBus.Valid, TurnStream.Valid, Quiet, TurnEvents;
      ghost var v := bus.State();
      if subscription.Some? {
        bus.CallsAreSeen(subscription.value);
      }
      var _ := bus.Subscribe(filter);
      QuietStays(v, bus.State());
      ExtendsHistory(v, bus.State());
      assert bus.history[..asked] == v.history[..asked];
      if subscription.Some? {
        ExtendsAt(v, bus.State(), subscription.value);
        bus.CallsAreSeen(subscription.value);
        CatchUp(thrown);
      }
    }

    /** Any subscription is given up. */
    method Leave(id: nat)
      requires Valid()
      modifies bus`subscribers, bus`parties, bus`left
      ensures Valid()
    {
      hide EventBus.Valid, TurnStream.Valid, Quiet, TurnEvents;
      ghost var v := bus.State();
      if subscription.Some? {
        bus.CallsAreSeen(subscription.value);
      }
      var _ := bus.Unsubscribe(id);
      QuietStays(v, bus.State());
      if subscription.Some? {
        ExtendsAt(v, bus.State(), subscription.value);
        bus.CallsAreSeen(subscription.value);
      }
    }

    /** The consumer reads. */
    method Next() returns (read: nat)
      requires Valid()
      modifies turn.stream
      ensures Valid()
    {
      hide EventBus.Valid, TurnStream.Valid, Quiet, TurnEvents;
      read := turn.Next();
    }

    /** The consumer closes the stream. */
    method Close(thrown: Option<Error>)
      requires Valid()
      modifies bus`subscribers, bus`parties, bus`left, turn, turn.stream
      ensures Valid() && turn.stream.ended
    {
      hide EventBus.Valid, TurnStream.Valid, Quiet, TurnEvents;
      turn.Close(thrown);
      Dispose();
    }

    /** Nothing is lost, whenever the acceptance arrives. */
    lemma NothingIsLost()
      requires Valid() && turn.accepted.Some?
      ensures var a, stream := turn.accepted.value, turn.stream;
        && stream.delivered <= Shown(bus.history, a)
        && (forall r <- stream.settled | stream.settled[r] == Done && !stream.discarded ::
              stream.delivered == Shown(bus.history, a) && HasTerminal(TurnEvents(bus.history, a)))
        && subscription.Some? && subscription.value in bus.parties
        && (bus.parties[subscription.value].s.registered && !stream.discarded ==> stream.pushed == Shown(bus.history, a))
      ensures var a, stream := turn.accepted.value, turn.stream;
        forall r <- stream.settled | stream.settled[r] == Done && !stream.discarded ::
          exists e :: e in bus.history && e.thread == Some(a.thread) && e.turn == Some(a.turn)
                      && (e.kind == TurnCompleted || e.kind == TurnFailed || e.kind == TurnAborted)
    {
      hide EventBus.Valid, TurnStream.Valid, Quiet, TurnEvents, UpToTerminal, Frames, HasTerminal;
      turn.Milestones();
      HasHeard();
      ShownPrefix(turn.heard, bus.history, turn.accepted.value);
      turn.ReadsAreShown();
      turn.PushedIsShown();
      TurnEndsIff(bus.history, turn.accepted.value);
    }

    /** Once the bus has published an event that completes, fails or aborts the accepted turn, the
        stream is over and has given its subscription back; before that it is open, as long as nobody
        cut it short or removed its listener. */
    lemma EndsWithItsTurn()
      requires Valid() && turn.accepted.Some? && !turn.stream.discarded && subscription.Some?
      requires subscription.value in bus.parties && bus.parties[subscription.value].s.registered
      ensures !turn.stream.ended
      ensures forall e <- bus.history ::
        e.thread == Some(turn.accepted.value.thread) && e.turn == Some(turn.accepted.value.turn) ==>
          e.kind != TurnCompleted && e.kind != TurnFailed && e.kind != TurnAborted
    {
      hide EventBus.Valid, TurnStream.Valid, Quiet, TurnEvents, HasTerminal;
      turn.Milestones();
      HasHeard();
      turn.EndsWithTurn();
      TurnEndsIff(bus.history, turn.accepted.value);
      TurnEndsIff(turn.heard, turn.accepted.value);
    }

    /** The stream has heard of its turn what the bus has published of it so far, in order; all of it
        as long as it is subscribed. */
    lemma HasHeard()
      requires Valid() && turn.accepted.Some? && subscription.Some?
      ensures TurnEvents(turn.heard, turn.accepted.value) <= TurnEvents(bus.history, turn.accepted.value)
      ensures subscription.value in bus.parties
      ensures bus.parties[subscription.value].s.registered ==>
                TurnEvents(turn.heard, turn.accepted.value) == TurnEvents(bus.history, turn.accepted.value)
    {
      var id, a := subscription.value, turn.accepted.value;
      bus.IsSound();
      hide TurnStream.Valid, EventBus.Valid, TurnEvents, Ring, Loop, Known, Idle;
      turn.Milestones();
      bus.CallsAreSeen(id);
      assert turn.heard == bus.parties[id].t.seen && Admits(turn.filter, a);
      NoneBefore(bus.history, bus.parties[id].t.origin, asked, a);
      HeardOfTurn(bus.State(), {}, id, a);
    }
  }

  /** What a consumer has read of a turn has the shape the wire carries: acceptance first, only
      the turn's events, and a terminal one only at the end. */
  lemma DeliveredTravels(history: seq<DaemonEvent>, a: AcceptedTurn, frames: seq<TurnFrame>)
    requires frames <= Shown(history, a)
    ensures TurnShape(frames, a)
    ensures frames == Shown(history, a) ==>
              (|frames| > 1 && IsTerminal(frames[|frames| - 1].event) <==> HasTerminal(TurnEvents(history, a)))
  {
    var mine := TurnEvents(history, a);
    var shown := UpToTerminal(mine);
    UpToTerminalMeans(mine);
    assert forall e <- mine :: Belongs(e, a);
    assert forall i :: 0 <= i < |shown| ==> shown[i] == mine[i];
    assert forall i :: 0 < i < |frames| ==> frames[i] == Event(shown[i - 1]);
    NoEarlyTerminal(mine);
    if !HasTerminal(mine) && shown != [] {
      assert !IsTerminal(mine[|mine| - 1]);
    }
  }

  lemma NoEarlyTerminal(events: seq<DaemonEvent>)
    ensures forall i :: 0 <= i < |UpToTerminal(events)| - 1 ==> !IsTerminal(UpToTerminal(events)[i])
  {
    UpToTerminalMeans(events);
    var r := UpToTerminal(events);
    if HasTerminal(events) {
      assert forall i :: 0 <= i < |r| - 1 ==> r[..|r| - 1][i] == r[i];
    }
  }
}
