/** Daemon events, filters and accepted turns (src/protocol/events.ts, src/protocol/types.ts). */
module Events {
  import opened Common

  /** JSON values, as far as the wire protocol looks at them. */
  datatype Json =
    | Null
    | Bool(b: bool)
    | Number(n: int)
    | Text(s: string)
    | List(items: seq<Json>)
    | Record(fields: map<string, Json>)

  datatype EventType =
    | TurnAccepted | TurnStarted | RunStepStarted | RunStepCompleted
    | MessageDelta | MessageCompleted
    | ToolStarted | ToolUpdated | ToolCompleted
    | RetryScheduled | RetryCompleted | QueueUpdated
    | CompactionStarted | CompactionCompleted
    | ExtensionUiRequested | ExtensionUiCompleted | ExtensionError
    | TurnCompleted | TurnAborted | TurnFailed
    | WorkerStarted | WorkerIdle | WorkerCrashedEvent
    | ThreadUpdated

  predicate IsTerminalType(kind: EventType) {
    kind == TurnCompleted || kind == TurnFailed || kind == TurnAborted
  }

  /** An event id names the daemon instance that published it and its position. */
  datatype EventId = EventId(epoch: string, sequence: nat)

  datatype DaemonEvent = DaemonEvent(
    id: EventId,
    kind: EventType,
    timestamp: string,
    thread: Option<string>,
    turn: Option<string>,
    worker: Option<string>,
    payload: map<string, Json>)

  predicate IsTerminal(event: DaemonEvent) {
    IsTerminalType(event.kind)
  }

  datatype AcceptedTurn = AcceptedTurn(thread: string, turn: string, worker: string)

  /** Does the event belong to exactly this thread and turn? */
  predicate Belongs(event: DaemonEvent, accepted: AcceptedTurn) {
    event.turn == Some(accepted.turn) && event.thread == Some(accepted.thread)
  }

  datatype TurnFrame = Accepted(result: AcceptedTurn) | Event(event: DaemonEvent)

  /** A cursor as a client sends it: text that is no cursor at all, or an event id. */
  datatype Cursor = Malformed(text: string) | After(id: EventId)

  datatype EventFilter = EventFilter(
    thread: Option<string>,
    turn: Option<string>,
    since: Option<Cursor>,
    kinds: Option<seq<EventType>>)

  const NO_FILTER := EventFilter(None, None, None, None)

  predicate Matches(event: DaemonEvent, filter: EventFilter) {
    && (filter.thread == None || event.thread == filter.thread)
    && (filter.turn == None || event.turn == filter.turn)
    && (filter.kinds == None || filter.kinds.value == [] || event.kind in filter.kinds.value)
  }

  /** The events of `history` that the filter lets through, in publication order. */
  function Select(history: seq<DaemonEvent>, filter: EventFilter): (r: seq<DaemonEvent>) {
    if history == [] then []
    else
      var last := history[|history| - 1];
      Select(history[..|history| - 1], filter) + if Matches(last, filter) then [last] else []
  }

  lemma {:induction false} SelectConcat(a: seq<DaemonEvent>, b: seq<DaemonEvent>, filter: EventFilter)
    ensures Select(a + b, filter) == Select(a, filter) + Select(b, filter)
  {
    if b == [] {
      assert a + b == a;
    } else {
      var n := |b| - 1;
      assert (a + b)[..|a + b| - 1] == a + b[..n];
      SelectConcat(a, b[..n], filter);
    }
  }

  /** Selected is an event of the history on which every field that the filter sets agrees; an
      empty list of types sets nothing. */
  lemma {:induction false} SelectIff(history: seq<DaemonEvent>, filter: EventFilter, event: DaemonEvent)
    ensures event in Select(history, filter) <==>
            && event in history
            && (filter.thread.Some? ==> event.thread == Some(filter.thread.value))
            && (filter.turn.Some? ==> event.turn == Some(filter.turn.value))
            && (filter.kinds.Some? && |filter.kinds.value| > 0 ==>
                  exists i :: 0 <= i < |filter.kinds.value| && filter.kinds.value[i] == event.kind)
  {
    if history != [] {
      var n := |history| - 1;
      SelectIff(history[..n], filter, event);
      assert history == history[..n] + [history[n]];
    }
  }

  /** The events of one turn, in publication order. */
  function TurnEvents(history: seq<DaemonEvent>, accepted: AcceptedTurn): (r: seq<DaemonEvent>)
    ensures forall e <- r :: Belongs(e, accepted) && e in history
  {
    if history == [] then []
    else
      var last := history[|history| - 1];
      TurnEvents(history[..|history| - 1], accepted) + if Belongs(last, accepted) then [last] else []
  }

  lemma {:induction false} TurnEventsConcat(a: seq<DaemonEvent>, b: seq<DaemonEvent>, accepted: AcceptedTurn)
    ensures TurnEvents(a + b, accepted) == TurnEvents(a, accepted) + TurnEvents(b, accepted)
  {
    if b == [] {
      assert a + b == a;
    } else {
      var n := |b| - 1;
      assert (a + b)[..|a + b| - 1] == a + b[..n];
      TurnEventsConcat(a, b[..n], accepted);
    }
  }

  /** They are the events of the history that name this thread and this turn. */
  lemma {:induction false} TurnEventsIff(history: seq<DaemonEvent>, accepted: AcceptedTurn, event: DaemonEvent)
    ensures event in TurnEvents(history, accepted) <==>
            event in history && event.thread == Some(accepted.thread) && event.turn == Some(accepted.turn)
  {
    if history != [] {
      var n := |history| - 1;
      TurnEventsIff(history[..n], accepted, event);
      assert history == history[..n] + [history[n]];
    }
  }

  /** One of the three ways in which a turn ends. */
  lemma HasTerminalIff(events: seq<DaemonEvent>)
    ensures HasTerminal(events) <==>
            exists e :: e in events && (e.kind == TurnCompleted || e.kind == TurnFailed || e.kind == TurnAborted)
  {
    if HasTerminal(events) {
      var i :| 0 <= i < |events| && IsTerminal(events[i]);
      assert events[i] in events;
    }
    if e :| e in events && (e.kind == TurnCompleted || e.kind == TurnFailed || e.kind == TurnAborted) {
      var i :| 0 <= i < |events| && events[i] == e;
      assert IsTerminal(events[i]);
    }
  }

  predicate HasTerminal(events: seq<DaemonEvent>) {
    exists i :: 0 <= i < |events| && IsTerminal(events[i])
  }

  lemma HasTerminalCons(events: seq<DaemonEvent>)
    requires events != []
    ensures HasTerminal(events) <==> IsTerminal(events[0]) || HasTerminal(events[1..])
  {
    if HasTerminal(events) {
      var i :| 0 <= i < |events| && IsTerminal(events[i]);
      assert i > 0 ==> events[1..][i - 1] == events[i];
    }
    if HasTerminal(events[1..]) {
      var i :| 0 <= i < |events[1..]| && IsTerminal(events[1..][i]);
      assert events[i + 1] == events[1..][i];
    }
  }

  /** The events up to and including the first terminal one. */
  function UpToTerminal(events: seq<DaemonEvent>): seq<DaemonEvent> {
    if events == [] then []
    else if IsTerminal(events[0]) then [events[0]]
    else [events[0]] + UpToTerminal(events[1..])
  }

  /** It is a prefix; it ends with the first terminal event, or is everything if there is none. */
  lemma {:induction false} UpToTerminalMeans(events: seq<DaemonEvent>)
    ensures UpToTerminal(events) <= events
    ensures !HasTerminal(events) ==> UpToTerminal(events) == events
    ensures HasTerminal(events) ==>
              var r := UpToTerminal(events);
              r != [] && IsTerminal(r[|r| - 1]) && !HasTerminal(r[..|r| - 1])
  {
    if events != [] {
      HasTerminalCons(events);
      if !IsTerminal(events[0]) {
        UpToTerminalMeans(events[1..]);
        var r, rest := UpToTerminal(events), UpToTerminal(events[1..]);
        if rest != [] {
          assert r[..|r| - 1][1..] == rest[..|rest| - 1];
          HasTerminalCons(r[..|r| - 1]);
        }
      }
    }
  }

  /** No event but the last one completes, fails or aborts the turn; it is everything, or the last one does. */
  lemma UpToTerminalKinds(events: seq<DaemonEvent>)
    ensures var r := UpToTerminal(events);
      && r <= events
      && (forall i :: 0 <= i < |r| - 1 ==> r[i].kind != TurnCompleted && r[i].kind != TurnFailed && r[i].kind != TurnAborted)
      && (r == events || (r != [] && (r[|r| - 1].kind == TurnCompleted || r[|r| - 1].kind == TurnFailed || r[|r| - 1].kind == TurnAborted)))
  {
    UpToTerminalMeans(events);
    var r := UpToTerminal(events);
    if HasTerminal(events) {
      forall i | 0 <= i < |r| - 1 ensures !IsTerminal(r[i]) {
        assert r[..|r| - 1][i] == r[i];
      }
    } else {
      assert forall i :: 0 <= i < |events| ==> !IsTerminal(events[i]);
    }
    hide UpToTerminal, HasTerminal;
  }

  /** More events after the first terminal one change nothing; before it they only extend. */
  lemma {:induction false} UpToTerminalConcat(a: seq<DaemonEvent>, b: seq<DaemonEvent>)
    ensures UpToTerminal(a + b) == if HasTerminal(a) then UpToTerminal(a) else a + UpToTerminal(b)
  {
    if a == [] {
      assert a + b == b;
    } else {
      assert (a + b)[1..] == a[1..] + b;
      UpToTerminalConcat(a[1..], b);
      HasTerminalCons(a);
      hide HasTerminal;
      if !HasTerminal(a) {
        assert [a[0]] + (a[1..] + UpToTerminal(b)) == a + UpToTerminal(b);
      }
    }
  }
}
