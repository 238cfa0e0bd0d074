/** Turn streams (src/protocol/turn-stream.ts): subscribe before admission, then expose
    acceptance and only the accepted turn's events.

    The asynchronous body of createTurnStream is cut at its awaits: each reply of the
    source is one method (`Resolved`, `Subscribed`, `Admitted`), and so is each call of
    the listener (`Deliver`), of the error callback (`OnError`) and of the consumer
    (`Next`, `Close`).  They may come in any order the phases allow. */
module TurnStreams {
  import opened Common
  import opened Events
  import opened Streams

  /** Which request of the source the asynchronous body is waiting for. */
  datatype Phase = Resolving | Subscribing | Admitting | Streaming | Over

  datatype Method = ThreadStart | ThreadSend(input: Option<string>)

  function Frames(events: seq<DaemonEvent>): (r: seq<TurnFrame>)
    ensures |r| == |events| && forall i :: 0 <= i < |r| ==> r[i] == Event(events[i])
  {
    seq(|events|, i requires 0 <= i < |events| => Event(events[i]))
  }

  /** What a consumer that hears `heard` must be shown of an accepted turn. */
  function Shown(heard: seq<DaemonEvent>, accepted: AcceptedTurn): seq<TurnFrame> {
    [Accepted(accepted)] + Frames(UpToTerminal(TurnEvents(heard, accepted)))
  }

  function EventBytes(size: DaemonEvent -> nat, events: seq<DaemonEvent>): nat {
    if events == [] then 0 else EventBytes(size, events[..|events| - 1]) + size(events[|events| - 1])
  }

  /** Hearing one more event extends what is shown by that event alone, unless it is
      foreign or the turn had already ended. */
  lemma ShownStep(heard: seq<DaemonEvent>, event: DaemonEvent, accepted: AcceptedTurn)
    ensures Shown(heard + [event], accepted)
         == if HasTerminal(TurnEvents(heard, accepted)) || !Belongs(event, accepted)
            then Shown(heard, accepted)
            else Shown(heard, accepted) + [Event(event)]
    ensures HasTerminal(TurnEvents(heard + [event], accepted))
        <==> HasTerminal(TurnEvents(heard, accepted)) || (Belongs(event, accepted) && IsTerminal(event))
  {
    var mine := TurnEvents(heard, accepted);
    TurnEventsStep(heard, event, accepted);
    UpToTerminalStep(mine, event);
    UpToTerminalMeans(mine);
    hide TurnEvents, UpToTerminal, HasTerminal;
    assert Frames(mine + [event]) == Frames(mine) + [Event(event)];
    assert [Accepted(accepted)] + (Frames(mine) + [Event(event)])
        == ([Accepted(accepted)] + Frames(mine)) + [Event(event)];
  }

  lemma TurnEventsStep(heard: seq<DaemonEvent>, event: DaemonEvent, accepted: AcceptedTurn)
    ensures TurnEvents(heard + [event], accepted)
         == if Belongs(event, accepted) then TurnEvents(heard, accepted) + [event] else TurnEvents(heard, accepted)
  {
    assert (heard + [event])[..|heard + [event]| - 1] == heard;
  }

  lemma UpToTerminalStep(events: seq<DaemonEvent>, event: DaemonEvent)
    ensures UpToTerminal(events + [event]) == if HasTerminal(events) then UpToTerminal(events) else events + [event]
    ensures HasTerminal(events + [event]) <==> HasTerminal(events) || IsTerminal(event)
  {
    UpToTerminalConcat(events, [event]);
    HasTerminalAppend(events, event);
    assert UpToTerminal([event]) == [event];
  }

  lemma HasTerminalAppend(events: seq<DaemonEvent>, event: DaemonEvent)
    ensures HasTerminal(events + [event]) <==> HasTerminal(events) || IsTerminal(event)
  {
    if HasTerminal(events) {
      var i :| 0 <= i < |events| && IsTerminal(events[i]);
      assert (events + [event])[i] == events[i];
    }
    assert (events + [event])[|events|] == event;
  }

  /** What is shown only grows with what is heard. */
  lemma {:induction false} ShownGrows(heard: seq<DaemonEvent>, more: seq<DaemonEvent>, accepted: AcceptedTurn)
    ensures Shown(heard, accepted) <= Shown(heard + more, accepted)
    ensures HasTerminal(TurnEvents(heard, accepted)) ==> Shown(heard, accepted) == Shown(heard + more, accepted)
  {
    TurnEventsConcat(heard, more, accepted);
    UpToTerminalConcat(TurnEvents(heard, accepted), TurnEvents(more, accepted));
    UpToTerminalMeans(TurnEvents(heard, accepted));
  }

  lemma ShownAt(history: seq<DaemonEvent>, a: AcceptedTurn)
    ensures var shown, r := Shown(history, a), UpToTerminal(TurnEvents(history, a));
      |shown| == |r| + 1 && shown[0] == Accepted(a) && forall i :: 0 < i < |shown| ==> shown[i] == Event(r[i - 1])
  {
    hide UpToTerminal, TurnEvents;
  }

  /** What is shown of a turn: the acceptance, then events of the history that name its thread and
      turn, none after the first that completes, fails or aborts the turn. */
  lemma ShownMeans(history: seq<DaemonEvent>, a: AcceptedTurn)
    ensures var shown := Shown(history, a);
      && |shown| > 0 && shown[0] == Accepted(a)
      && (forall i :: 0 < i < |shown| ==>
            && shown[i].Event? && shown[i].event in history
            && shown[i].event.thread == Some(a.thread) && shown[i].event.turn == Some(a.turn))
      && (forall i :: 0 < i < |shown| - 1 ==>
            var kind := shown[i].event.kind; kind != TurnCompleted && kind != TurnFailed && kind != TurnAborted)
  {
    var mine := TurnEvents(history, a);
    var r := UpToTerminal(mine);
    ShownAt(history, a);
    UpToTerminalKinds(mine);
    hide UpToTerminal, TurnEvents, Shown;
    forall i | 0 <= i < |r|
      ensures r[i] in history && r[i].thread == Some(a.thread) && r[i].turn == Some(a.turn)
    {
      assert r[i] == mine[i] && mine[i] in mine;
    }
  }

  /** Nothing is left out: the last event shown ends the turn, or every event of the turn is shown. */
  lemma ShownIsAll(history: seq<DaemonEvent>, a: AcceptedTurn, event: DaemonEvent)
    requires event in history && event.thread == Some(a.thread) && event.turn == Some(a.turn)
    ensures var shown := Shown(history, a);
      || Event(event) in shown
      || (|shown| > 1 && shown[|shown| - 1].Event? && shown[|shown| - 1].event.kind in {TurnCompleted, TurnFailed, TurnAborted})
  {
    var mine := TurnEvents(history, a);
    var r := UpToTerminal(mine);
    ShownAt(history, a);
    UpToTerminalKinds(mine);
    TurnEventsIff(history, a, event);
    hide UpToTerminal, TurnEvents, Shown;
    if r == mine {
      var i :| 0 <= i < |mine| && mine[i] == event;
      assert Shown(history, a)[i + 1] == Event(event);
    }
  }

  lemma TurnEndsIff(history: seq<DaemonEvent>, a: AcceptedTurn)
    ensures HasTerminal(TurnEvents(history, a)) <==>
      exists e :: e in history && e.thread == Some(a.thread) && e.turn == Some(a.turn)
                  && (e.kind == TurnCompleted || e.kind == TurnFailed || e.kind == TurnAborted)
  {
    HasTerminalIff(TurnEvents(history, a));
    hide HasTerminal, TurnEvents;
    forall e ensures e in TurnEvents(history, a) <==> e in history && e.thread == Some(a.thread) && e.turn == Some(a.turn) {
      TurnEventsIff(history, a, e);
    }
  }

  class TurnStream {
    const limit: nat
    const eventSize: DaemonEvent -> nat
    const stream: BufferedStream<TurnFrame>

    var phase: Phase
    var filter: EventFilter
    /** The disposer has been handed over by the source. */
    var disposer: bool
    var accepted: Option<AcceptedTurn>
    var pending: seq<DaemonEvent>
    var pendingBytes: nat

    /** Every event the source passed to the listener. */
    ghost var heard: seq<DaemonEvent>
    ghost var subscribeCalls: nat
    ghost var requestCalls: nat
    ghost var disposeCalls: nat
    ghost var abortCalls: nat

    ghost predicate Resources()
      reads this, stream
    {
      && subscribeCalls == (if phase == Resolving || (phase == Over && subscribeCalls == 0) then 0 else 1)
      && requestCalls <= 1
      && (phase == Subscribing ==> requestCalls == 0 && !disposer)
      && (phase == Resolving ==> requestCalls == 0 && !disposer)
      && (phase == Admitting || phase == Streaming ==> requestCalls == 1 && disposer)
      && (requestCalls == 1 ==> disposer)
      && (disposer ==> subscribeCalls == 1)
      && disposeCalls == (if disposer && stream.ended then 1 else 0)
      && abortCalls == (if stream.ended then 1 else 0)
    }

    /** Once `a` is accepted: the stream holds exactly what the events in `seen` require,
        or it is closed and holds a prefix of it. */
    ghost predicate Shows(a: AcceptedTurn, seen: seq<DaemonEvent>)
      reads this, stream
    {
      && pending == []
      && stream.pushed <= Shown(seen, a)
      && (stream.discarded || stream.pushed == Shown(seen, a))
      && (!stream.discarded ==> stream.ended == HasTerminal(TurnEvents(seen, a)))
    }

    /** Before acceptance: everything heard is pending, within the limit. */
    ghost predicate Buffers()
      reads this, stream
    {
      && stream.pushed == []
      && (stream.ended ==> stream.discarded && pending == [])
      && (!stream.ended ==> pending == heard && pendingBytes == EventBytes(eventSize, heard) <= limit)
    }

    ghost predicate Valid()
      reads this, stream
    {
      && stream.Valid() && stream.limit == limit
      && Resources()
      && (accepted == None ==> Buffers() && phase != Streaming)
      && (accepted.Some? ==> Shows(accepted.value, heard) && requestCalls == 1 && (phase == Streaming || phase == Over))
      && (phase == Over ==> stream.ended)
    }

    constructor (kind: Method, limit: nat, eventSize: DaemonEvent -> nat, frameSize: TurnFrame -> nat)
      ensures Valid() && fresh(stream) && heard == [] && accepted == None
      ensures filter == NO_FILTER && !disposer && requestCalls == 0
      ensures kind == ThreadStart ==> phase == Subscribing
      ensures kind.ThreadSend? && kind.input.Some? && kind.input.value != "" ==> phase == Resolving
      ensures kind == ThreadSend(None) || kind == ThreadSend(Some("")) ==>
                phase == Over && stream.failed && stream.error == InvalidParams && requestCalls == 0
    {
      this.limit, this.eventSize := limit, eventSize;
      stream := new BufferedStream(limit, frameSize);
      filter, disposer, accepted, pending, pendingBytes := NO_FILTER, false, None, [], 0;
      heard, subscribeCalls, requestCalls, disposeCalls, abortCalls := [], 0, 0, 0, 0;
      phase := Resolving;
      new;
      match kind
      case ThreadStart =>
        phase := Subscribing;
        subscribeCalls := 1;
      case ThreadSend(input) =>
        if input == None || input.value == "" {
          FailStream(InvalidParams, None);
          phase := Over;
        }
    }

    /** The close callback: drop what is pending, abort the subscription, dispose of it. */
    method OnClose()
      modifies this`pending, this`abortCalls, this`disposeCalls
      ensures pending == [] && abortCalls == old(abortCalls) + 1
      ensures disposeCalls == old(disposeCalls) + if disposer then 1 else 0
    {
      pending := [];
      abortCalls := abortCalls + 1;
      if disposer {
        disposeCalls := disposeCalls + 1;
      }
    }

    /** What the close callback throws: only a disposer can throw. */
    function Thrown(thrown: Option<Error>): Option<Error>
      reads this
    {
      if disposer then thrown else None
    }

    method FailStream(reason: Error, thrown: Option<Error>)
      requires Valid()
      modifies this`pending, this`abortCalls, this`disposeCalls, stream
      ensures Valid() && stream.ended
      ensures old(stream.ended) ==> stream.failed == old(stream.failed)
      ensures !old(stream.ended) ==> stream.failed && stream.error == reason
    {
      var open := !stream.ended;
      stream.Fail(reason, Thrown(thrown));
      if open {
        OnClose();
      }
    }

    /** thread/send resolved its thread: `id` is canonical. */
    method Resolved(reply: Result<string, Error>, thrown: Option<Error>)
      requires Valid() && phase == Resolving
      modifies this, stream
      ensures Valid() && requestCalls == 0 && !disposer && heard == old(heard) && accepted == None
      ensures reply.Err? ==> filter == old(filter)
      ensures reply.Ok? ==> filter == NO_FILTER.(thread := Some(reply.value))
      ensures reply.Err? ==> phase == Over && (old(stream.ended) || stream.error == reply.error)
      ensures reply.Ok? && old(stream.ended) ==> phase == Over && subscribeCalls == 0
      ensures reply.Ok? && !old(stream.ended) ==>
                phase == Subscribing && filter == NO_FILTER.(thread := Some(reply.value)) && subscribeCalls == 1
    {
      match reply
      case Err(error) =>
        FailStream(error, thrown);
        phase := Over;
      case Ok(id) =>
        filter := NO_FILTER.(thread := Some(id));
        if stream.ended {
          phase := Over;
        } else {
          phase := Subscribing;
          subscribeCalls := 1;
        }
    }

    /** The source answered subscribe: it handed over a disposer, or refused. */
    method Subscribed(reply: Result<(), Error>, thrown: Option<Error>)
      requires Valid() && phase == Subscribing
      modifies this, stream
      ensures Valid() && heard == old(heard) && filter == old(filter) && accepted == None
      ensures reply.Err? ==> phase == Over && !disposer && requestCalls == 0
      ensures reply.Ok? ==> disposer
      ensures reply.Ok? && old(stream.ended) ==> phase == Over && requestCalls == 0 && disposeCalls == 1
      ensures reply.Ok? && !old(stream.ended) ==> phase == Admitting && requestCalls == 1 && disposeCalls == 0
    {
      match reply
      case Err(error) =>
        FailStream(error, thrown);
        phase := Over;
      case Ok(_) =>
        disposer := true;
        if stream.ended {
          disposeCalls := disposeCalls + 1;
          phase := Over;
        } else {
          phase := Admitting;
          requestCalls := requestCalls + 1;
        }
    }

    /** Admission was answered: expose acceptance, then what was heard meanwhile. */
    method Admitted(reply: Result<AcceptedTurn, Error>, thrown: Option<Error>)
      requires Valid() && phase == Admitting
      modifies this, stream
      ensures Valid() && heard == old(heard) && filter == old(filter) && disposer && requestCalls == 1
      ensures reply.Err? ==> accepted == None && stream.ended
      ensures reply.Ok? ==> accepted == Some(reply.value)
      ensures old(stream.ended) ==> stream.pushed == [] && phase == Over
    {
      match reply
      case Err(error) =>
        FailStream(error, thrown);
        phase := Over;
      case Ok(a) =>
        accepted := Some(a);
        var buffered := pending;
        pending := [];
        if stream.ended {
          phase := Over;
        } else {
          phase := Streaming;
          Expose(a, buffered, thrown);
        }
    }

    /** Acceptance first, then the events heard while it was awaited. */
    method Expose(a: AcceptedTurn, buffered: seq<DaemonEvent>, thrown: Option<Error>)
      requires stream.Valid() && Resources() && !stream.ended && stream.pushed == [] && pending == []
      modifies this`pending, this`abortCalls, this`disposeCalls, stream
      ensures stream.Valid() && Resources() && Shows(a, buffered)
    {
      hide BufferedStream.Valid, Resources;
      assert TurnEvents([], a) == [] && Shown([], a) == [Accepted(a)] && !HasTerminal(TurnEvents([], a));
      assert stream.pushed + [Accepted(a)] == Shown([], a);
      hide Shown, TurnEvents, HasTerminal;
      PushFrame(a, Accepted(a), [], thrown);
      Replay(a, buffered, thrown);
    }

    /** The events that were held back, one by one. */
    method Replay(a: AcceptedTurn, buffered: seq<DaemonEvent>, thrown: Option<Error>)
      requires stream.Valid() && Resources() && Shows(a, [])
      modifies this`pending, this`abortCalls, this`disposeCalls, stream
      ensures stream.Valid() && Resources() && Shows(a, buffered)
    {
      hide BufferedStream.Valid, Resources, Shown, TurnEvents, HasTerminal;
      assert buffered[..0] == [];
      var i := 0;
      while i < |buffered|
        invariant i <= |buffered|
        invariant stream.Valid() && Resources() && Shows(a, buffered[..i])
      {
        assert buffered[..i + 1] == buffered[..i] + [buffered[i]];
        Route(a, buffered[i], buffered[..i], thrown);
        i := i + 1;
      }
      assert buffered[..i] == buffered;
    }

    /** The listener passed to the source. */
    method Deliver(event: DaemonEvent, thrown: Option<Error>)
      requires Valid() && subscribeCalls == 1
      modifies this, stream
      ensures Valid() && heard == old(heard) + [event] && accepted == old(accepted) && phase == old(phase)
      ensures filter == old(filter) && disposer == old(disposer) && requestCalls == old(requestCalls)
      ensures old(stream.ended) ==> stream.pushed == old(stream.pushed)
      ensures !old(stream.ended) && old(accepted) == None ==>
                stream.ended == (EventBytes(eventSize, heard) > limit)
                && (stream.ended ==> stream.error == StreamOverflow)
      ensures !old(stream.ended) && old(accepted).Some? ==>
        var a, frame := old(accepted).value, Event(event);
        var mine := event.thread == Some(a.thread) && event.turn == Some(a.turn);
          && (!mine ==> !stream.ended && stream.pushed == old(stream.pushed))
          && (mine && old(stream.bytes) + stream.size(frame) > stream.limit ==>
                stream.ended && stream.error == StreamOverflow && stream.pushed == old(stream.pushed))
          && (mine && old(stream.bytes) + stream.size(frame) <= stream.limit ==>
                && stream.pushed == old(stream.pushed) + [frame]
                && (stream.ended <==> event.kind == TurnCompleted || event.kind == TurnFailed || event.kind == TurnAborted))
    {
      if accepted.Some? {
        Route(accepted.value, event, heard, thrown);
        heard := heard + [event];
      } else {
        Hold(event, thrown);
      }
    }

    /** The listener before acceptance: keep the event, within the limit. */
    method Hold(event: DaemonEvent, thrown: Option<Error>)
      requires Valid() && accepted == None && subscribeCalls == 1
      modifies this`heard, this`pending, this`pendingBytes, this`abortCalls, this`disposeCalls, stream
      ensures Valid() && heard == old(heard) + [event]
      ensures old(stream.ended) ==> stream.ended
      ensures !old(stream.ended) ==>
                stream.ended == (EventBytes(eventSize, heard) > limit)
                && (stream.ended ==> stream.error == StreamOverflow)
    {
      hide Held, Promises, ToldDone, Values, Shown, TurnEvents, HasTerminal;
      heard := heard + [event];
      assert heard[..|heard| - 1] == old(heard);
      if stream.ended {
        return;
      }
      pendingBytes := pendingBytes + eventSize(event);
      if pendingBytes > limit {
        stream.Fail(StreamOverflow, Thrown(thrown));
        OnClose();
      } else {
        pending := pending + [event];
      }
    }

    /** The accepted branch of the listener. */
    method Route(a: AcceptedTurn, event: DaemonEvent, ghost seen: seq<DaemonEvent>, thrown: Option<Error>)
      requires stream.Valid() && Resources() && Shows(a, seen)
      modifies this`pending, this`abortCalls, this`disposeCalls, stream
      ensures stream.Valid() && Resources() && Shows(a, seen + [event])
      ensures old(stream.ended) ==> stream.pushed == old(stream.pushed) && stream.ended
      ensures var mine, frame := event.thread == Some(a.thread) && event.turn == Some(a.turn), Event(event);
        !old(stream.ended) ==>
          && (!mine ==> !stream.ended && stream.pushed == old(stream.pushed))
          && (mine && old(stream.bytes) + stream.size(frame) > stream.limit ==>
                stream.ended && stream.error == StreamOverflow && stream.pushed == old(stream.pushed))
          && (mine && old(stream.bytes) + stream.size(frame) <= stream.limit ==>
                && stream.pushed == old(stream.pushed) + [frame]
                && (stream.ended <==> event.kind == TurnCompleted || event.kind == TurnFailed || event.kind == TurnAborted))
    {
      assert stream.discarded ==> stream.ended;
      hide BufferedStream.Valid, Resources, Shown, TurnEvents, HasTerminal;
      ShownStep(seen, event, a);
      if stream.ended || !Belongs(event, a) {
        return;
      }
      PushFrame(a, Event(event), seen + [event], thrown);
      if IsTerminal(event) {
        FinishStream(thrown);
      }
    }

    /** Pushes the frame that completes what `seen` requires. */
    method PushFrame(a: AcceptedTurn, frame: TurnFrame, ghost seen: seq<DaemonEvent>, thrown: Option<Error>)
      requires stream.Valid() && Resources() && !stream.ended && pending == []
      requires stream.pushed + [frame] == Shown(seen, a)
      modifies this`pending, this`abortCalls, this`disposeCalls, stream
      ensures stream.Valid() && Resources() && pending == []
      ensures stream.ended == stream.discarded
      ensures stream.ended <==> old(stream.bytes) + stream.size(frame) > stream.limit
      ensures stream.ended ==> stream.error == StreamOverflow
      ensures stream.pushed == if stream.ended then old(stream.pushed) else Shown(seen, a)
    {
      stream.Push(frame, Thrown(thrown));
      if stream.ended {
        OnClose();
      }
    }

    method FinishStream(thrown: Option<Error>)
      requires stream.Valid() && Resources() && pending == []
      modifies this`pending, this`abortCalls, this`disposeCalls, stream
      ensures stream.Valid() && Resources() && pending == [] && stream.ended && stream.pushed == old(stream.pushed)
      ensures old(stream.ended) ==> stream.discarded == old(stream.discarded) && stream.error == old(stream.error)
    {
      if !stream.ended {
        stream.Finish(Thrown(thrown));
        OnClose();
      }
    }

    /** The source lost its connection. */
    method OnError(error: Error, thrown: Option<Error>)
      requires Valid()
      modifies this`pending, this`abortCalls, this`disposeCalls, stream
      ensures Valid() && stream.ended && (old(stream.ended) || stream.error == error)
    {
      FailStream(error, thrown);
    }

    method Next() returns (r: nat)
      requires Valid()
      modifies stream
      ensures Valid() && r == old(stream.calls) && stream.ended == old(stream.ended)
    {
      r := stream.Next();
    }

    method Close(thrown: Option<Error>)
      requires Valid()
      modifies this`pending, this`abortCalls, this`disposeCalls, stream
      ensures Valid() && stream.ended && stream.discarded
    {
      var open := !stream.ended;
      stream.Close(Thrown(thrown));
      if open {
        OnClose();
      }
    }

    /** Where the asynchronous body stands. */
    lemma Milestones()
      requires Valid()
      ensures phase == Resolving || phase == Subscribing ==> !disposer && requestCalls == 0
      ensures phase == Admitting || phase == Streaming || accepted.Some? ==> disposer && requestCalls == 1
      ensures phase == Subscribing || disposer ==> subscribeCalls == 1
      ensures accepted.Some? ==> phase == Streaming || phase == Over
      ensures disposeCalls == if disposer && stream.ended then 1 else 0
    {
      hide Shows, Buffers;
    }

    /** A stream that was not cut short holds or has handed out everything it must. */
    lemma PushedIsShown()
      requires Valid() && accepted.Some?
      ensures stream.pushed <= Shown(heard, accepted.value)
      ensures !stream.discarded ==> stream.pushed == Shown(heard, accepted.value)
    {
    }

    /** A stream that was not cut short is over exactly when one of the three events that end a turn
        has been heard of exactly the accepted turn. */
    lemma EndsWithTurn()
      requires Valid() && accepted.Some? && !stream.discarded
      ensures stream.ended <==>
        exists e :: e in heard && e.thread == Some(accepted.value.thread) && e.turn == Some(accepted.value.turn)
                    && (e.kind == TurnCompleted || e.kind == TurnFailed || e.kind == TurnAborted)
    {
      TurnEndsIff(heard, accepted.value);
    }

    /** What the consumer has read is a prefix of acceptance followed by the accepted
        turn's events up to the first terminal one; if it was told that the stream is
        done without having closed it, it has read all of that. */
    lemma ReadsAreShown()
      requires Valid()
      ensures accepted == None ==> stream.delivered == []
      ensures accepted.Some? ==> stream.delivered <= Shown(heard, accepted.value)
      ensures forall r <- stream.settled | stream.settled[r] == Done && !stream.discarded ::
                && accepted.Some?
                && stream.delivered == Shown(heard, accepted.value)
                && HasTerminal(TurnEvents(heard, accepted.value))
    {
      if accepted.Some? && stream.ended && !stream.discarded {
        assert stream.pushed == Shown(heard, accepted.value);
      }
    }
  }
}
