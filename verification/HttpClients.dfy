/** The client's turn stream over HTTP (src/client/http-client.ts, streamTurn) and its
    composition with the server's streaming loop (src/transport/http.ts). */
module HttpClients {
  import opened Common
  import opened Events
  import opened Streams
  import opened Utf8
  import opened Sse
  import opened SseReaders
  import opened SseWriters
  import opened Wire

  /** The frame loop with its buffered stream.  Frames, the end of the input, read errors and
      the consumer's calls may come in any order. */
  class TurnClient {
    const codec: Codec
    const id: string
    const stream: BufferedStream<ClientFrame>
    var accepted: Option<AcceptedTurn>
    /** The loop has been left. */
    var over: bool
    /** Frames taken while the stream was open, and whether the consumer closed it. */
    ghost var received: seq<Frame>
    ghost var consumerClosed: bool

    ghost predicate Valid()
      reads this, stream
    {
      && stream.Valid()
      && var d := DigestOf(codec, id, received);
      && stream.pushed <= d.pushes
      && (stream.discarded ==> stream.failed || consumerClosed)
      && (!stream.ended ==> !over && d.verdict == Open && accepted == d.accepted && stream.pushed == d.pushes)
      && (stream.ended && !stream.failed && !consumerClosed ==> d.verdict == Finished && stream.pushed == d.pushes)
    }

    constructor (codec: Codec, id: string, limit: nat, size: ClientFrame -> nat)
      ensures Valid() && fresh(stream) && received == [] && !stream.ended && !consumerClosed
      ensures this.codec == codec && this.id == id
    {
      this.codec, this.id := codec, id;
      stream := new BufferedStream(limit, size);
      accepted, over, received, consumerClosed := None, false, [], false;
    }

    /** The loop's body. */
    method OnFrame(frame: Frame)
      requires Valid()
      modifies this, stream
      ensures Valid() && consumerClosed == old(consumerClosed)
      ensures received == if old(stream.ended) then old(received) else old(received) + [frame]
      ensures !old(stream.ended) ==>
        var r := Check(codec, id, old(accepted), frame);
        && (r.Err? ==> stream.ended && stream.failed && stream.error == r.error)
        && (r.Ok? && old(stream.bytes) + stream.size(r.value) > stream.limit ==>
              stream.ended && stream.failed && stream.error == StreamOverflow)
        && (r.Ok? && old(stream.bytes) + stream.size(r.value) <= stream.limit ==>
              && stream.pushed == old(stream.pushed) + [r.value]
              && (r.value.Acceptance? ==> accepted == Some(r.value.result) && !stream.ended)
              && (r.value.Received? ==>
                    accepted == old(accepted) &&
                    (stream.ended <==>
                       && "type" in r.value.event
                       && (r.value.event["type"] == Json.Text("turn.completed") || r.value.event["type"] == Json.Text("turn.failed")
                           || r.value.event["type"] == Json.Text("turn.aborted")))))
    {
      if over {
        return;
      }
      if stream.ended {
        over := true;
        return;
      }
      ghost var was := DigestOf(codec, id, received);
      received := received + [frame];
      assert received[..|received| - 1] == old(received);
      DigestStep(codec, id, old(received), frame);
      assert stream.Valid() && was.verdict == Open && was.accepted == accepted && stream.pushed == was.pushes && !stream.discarded;
      hide Check, DigestOf, BufferedStream.Valid, IsTerminalRecord, EndsTurn;
      match Check(codec, id, accepted, frame)
      case Err(e) =>
        stream.Fail(e, None);
        over := true;
      case Ok(f) =>
        Take(f);
        if f.Received? {
          EndsTurnIff(f.event);
        }
    }

    /** The loop's body for a frame that has passed the checks. */
    method Take(f: ClientFrame)
      requires stream.Valid() && !stream.ended && !over && !stream.discarded
      modifies this`accepted, this`over, stream
      ensures stream.Valid() && over == stream.ended
      ensures accepted == if f.Acceptance? then Some(f.result) else old(accepted)
      ensures old(stream.bytes) + stream.size(f) > stream.limit ==>
        stream.ended && stream.failed && stream.discarded && stream.error == StreamOverflow && stream.pushed == old(stream.pushed)
      ensures old(stream.bytes) + stream.size(f) <= stream.limit ==>
        && stream.pushed == old(stream.pushed) + [f] && !stream.failed && !stream.discarded
        && (stream.ended <==> f.Received? && IsTerminalRecord(f.event))
    {
      assert !stream.failed;
      hide Held, Promises, ToldDone, Values, IsTerminalRecord;
      stream.Push(f, None);
      if f.Acceptance? {
        accepted := Some(f.result);
      } else if IsTerminalRecord(f.event) {
        stream.Finish(None);
      }
      over := stream.ended;
    }

    /** The input is at its end: too early, if the stream is still open. */
    method OnEnd()
      requires Valid()
      modifies this, stream
      ensures Valid() && stream.ended
      ensures !old(stream.ended) ==> stream.failed && stream.error == StreamInterrupted
      ensures received == old(received) && consumerClosed == old(consumerClosed)
    {
      over := true;
      stream.Fail(StreamInterrupted, None);
    }

    /** The reader threw. */
    method OnReadError(error: Error)
      requires Valid()
      modifies this, stream
      ensures Valid() && stream.ended
      ensures !old(stream.ended) ==> stream.failed && stream.error == error
      ensures received == old(received) && consumerClosed == old(consumerClosed)
    {
      over := true;
      stream.Fail(error, None);
    }

    method Next() returns (r: nat)
      requires Valid()
      modifies stream
      ensures Valid()
    {
      r := stream.Next();
    }

    method Close()
      requires Valid()
      modifies this, stream
      ensures Valid() && stream.ended && consumerClosed
    {
      consumerClosed := true;
      stream.Close(None);
    }

    /** An end that the consumer did not ask for and that is no failure comes only after one
        acceptance and a terminal event of exactly that thread and turn, all of it delivered
        or waiting to be read. */
    lemma EndsProperly()
      requires Valid() && stream.ended && !stream.failed && !consumerClosed
      ensures exists a :: WellFormedTurn(stream.pushed, a) && EndsWithTerminal(stream.pushed)
      ensures stream.delivered + Values(stream.queue) == stream.pushed
    {
      NormalEnd(codec, id, received);
    }
  }

  lemma DigestStep(c: Codec, id: string, frames: seq<Frame>, frame: Frame)
    ensures DigestOf(c, id, frames + [frame]) == Advance(c, id, DigestOf(c, id, frames), frame)
  {
    assert (frames + [frame])[..|frames|] == frames;
  }

  // ---------------------------------------------------------------- composition with the server

  /** The frames of a turn stream: acceptance, then the turn's events, the first terminal one last. */
  predicate TurnShape(frames: seq<TurnFrame>, a: AcceptedTurn) {
    && (forall i :: 0 <= i < |frames| ==>
          if i == 0 then frames[i] == Accepted(a) else frames[i].Event? && Belongs(frames[i].event, a))
    && (forall i :: 0 < i < |frames| - 1 ==> !IsTerminal(frames[i].event))
  }

  function AsReceived(idText: EventId -> string, frame: TurnFrame): ClientFrame {
    match frame
    case Accepted(result) => Acceptance(result)
    case Event(event) => Received(EventJson(event, idText))
  }

  function AllReceived(idText: EventId -> string, frames: seq<TurnFrame>): (r: seq<ClientFrame>)
    ensures |r| == |frames| && forall i :: 0 <= i < |r| ==> r[i] == AsReceived(idText, frames[i])
  {
    seq(|frames|, i requires 0 <= i < |frames| => AsReceived(idText, frames[i]))
  }

  lemma AcceptanceChecks(c: Codec, id: string, idText: EventId -> string, a: AcceptedTurn)
    requires Lawful(c) && a.thread != "" && a.turn != ""
    ensures Check(c, id, None, ServerFrame(c, id, idText, Accepted(a))) == Ok(Acceptance(a))
  {
    var payload := Record(map["jsonrpc" := Json.Text("2.0"), "id" := Json.Text(id), "result" := AcceptedJson(a)]);
    assert c.parse(c.stringify(payload)) == Some(payload);
    DistinctKeys();
    assert "error" !in payload.fields;
    assert ParseAccepted(payload.fields) == Ok(a);
  }

  lemma DistinctKeys()
    ensures "jsonrpc" != "id" && "jsonrpc" != "result" && "id" != "result" && "error" != "jsonrpc" && "error" != "result"
    ensures "error" != "id" && "response" != "stream/error" && "thread/event" != "stream/error" && "thread/event" != "response"
    ensures "threadId" != "workerId" && "threadId" != "status" && "threadId" != "turnId" && "turnId" != "workerId"
    ensures "turnId" != "status" && "workerId" != "status" && "method" != "jsonrpc" && "params" != "method" && "params" != "jsonrpc"
  {
    assert "threadId"[0] != "workerId"[0];
  }

  function EventPayload(m: map<string, Json>): map<string, Json> {
    map["jsonrpc" := Json.Text("2.0"), "method" := Json.Text("thread/event"), "params" := Record(m)]
  }

  lemma EventPayloadFields(m: map<string, Json>)
    ensures var p := EventPayload(m);
      && TextAt(p, "jsonrpc") == Some("2.0") && TextAt(p, "method") == Some("thread/event")
      && "params" in p && p["params"] == Record(m)
  {
    DistinctKeys();
  }

  lemma EventChecks(c: Codec, id: string, idText: EventId -> string, a: AcceptedTurn, e: DaemonEvent)
    requires Lawful(c) && Belongs(e, a)
    ensures Check(c, id, Some(a), ServerFrame(c, id, idText, Event(e))) == Ok(Received(EventJson(e, idText)))
    ensures IsTerminalRecord(EventJson(e, idText)) <==> IsTerminal(e)
  {
    var m := EventJson(e, idText);
    var frame := ServerFrame(c, id, idText, Event(e));
    assert c.parse(c.stringify(Record(EventPayload(m)))) == Some(Record(EventPayload(m)));
    assert frame.event == "thread/event" && frame.id == Some(idText(e.id)) && c.parse(frame.data) == Some(Record(EventPayload(m)));
    hide EventJson, Lawful, ServerFrame;
    DistinctKeys();
    EventPayloadFields(m);
    EventFields(e, idText);
    TerminalNames(e.kind);
    assert KnownType(TypeName(e.kind));
    hide EventPayload, TextAt, TypeName, KnownType;
    assert ParseFrame(c, frame) == Ok(EventPayload(m));
    assert ParseEvent(frame, EventPayload(m)) == Ok(m);
  }

  /** One optional field more. */
  lemma FieldAdded(m: map<string, Json>, name: string, value: Option<string>, key: string)
    ensures TextAt(m + OptionalField(name, value), key) == if key == name && value.Some? then value else TextAt(m, key)
  {
  }

  lemma FieldsAdded(m: map<string, Json>, e: DaemonEvent, key: string)
    ensures TextAt(m + OptionalField("threadId", e.thread) + OptionalField("turnId", e.turn) + OptionalField("workerId", e.worker), key)
         == if key == "workerId" && e.worker.Some? then e.worker
            else if key == "turnId" && e.turn.Some? then e.turn
            else if key == "threadId" && e.thread.Some? then e.thread
            else TextAt(m, key)
  {
    hide TextAt, OptionalField;
    FieldAdded(m, "threadId", e.thread, key);
    FieldAdded(m + OptionalField("threadId", e.thread), "turnId", e.turn, key);
    FieldAdded(m + OptionalField("threadId", e.thread) + OptionalField("turnId", e.turn), "workerId", e.worker, key);
  }

  function Fixed(e: DaemonEvent, idText: EventId -> string): map<string, Json> {
    map["eventId" := Json.Text(idText(e.id)), "type" := Json.Text(TypeName(e.kind)), "timestamp" := Json.Text(e.timestamp),
        "payload" := Record(e.payload)]
  }

  lemma FixedFields(e: DaemonEvent, idText: EventId -> string)
    ensures var m := Fixed(e, idText);
      && TextAt(m, "eventId") == Some(idText(e.id)) && TextAt(m, "timestamp") == Some(e.timestamp)
      && TextAt(m, "type") == Some(TypeName(e.kind)) && "payload" in m && m["payload"] == Record(e.payload)
      && TextAt(m, "threadId") == None && TextAt(m, "turnId") == None && TextAt(m, "workerId") == None
  {
    hide TypeName;
    KeyLengths();
  }

  lemma KeyLengths()
    ensures forall k, l | k in ["eventId", "type", "timestamp", "payload"] && l in ["threadId", "turnId", "workerId"] :: k != l
    ensures "eventId" != "payload" && "type" != "timestamp" && "eventId" != "type" && "payload" != "type"
  {
    assert "turnId"[0] != "eventId"[0] && "turnId"[0] != "payload"[0];
  }

  lemma EventFields(e: DaemonEvent, idText: EventId -> string)
    ensures var m := EventJson(e, idText);
      && TextAt(m, "eventId") == Some(idText(e.id)) && TextAt(m, "timestamp") == Some(e.timestamp)
      && TextAt(m, "type") == Some(TypeName(e.kind)) && "payload" in m && m["payload"] == Record(e.payload)
      && TextAt(m, "threadId") == e.thread && TextAt(m, "turnId") == e.turn && TextAt(m, "workerId") == e.worker
  {
    var f := Fixed(e, idText);
    FixedFields(e, idText);
    KeyLengths();
    DistinctKeys();
    assert EventJson(e, idText)
        == f + OptionalField("threadId", e.thread) + OptionalField("turnId", e.turn) + OptionalField("workerId", e.worker);
    assert "payload" in EventJson(e, idText) && EventJson(e, idText)["payload"] == f["payload"];
    hide TypeName, Fixed, EventJson, OptionalField, TextAt;
    FieldsAdded(f, e, "eventId");
    FieldsAdded(f, e, "timestamp");
    FieldsAdded(f, e, "type");
    FieldsAdded(f, e, "threadId");
    FieldsAdded(f, e, "turnId");
    FieldsAdded(f, e, "workerId");
  }

  /** The client's digest of a turn's frames. */
  function Understood(idText: EventId -> string, a: AcceptedTurn, frames: seq<TurnFrame>): Digest
    requires TurnShape(frames, a)
  {
    Digest(if frames == [] then None else Some(a), AllReceived(idText, frames),
           if |frames| > 1 && IsTerminal(frames[|frames| - 1].event) then Finished else Open)
  }

  /** One more frame of the turn. */
  lemma OneMoreFrame(c: Codec, id: string, idText: EventId -> string, a: AcceptedTurn, frames: seq<TurnFrame>)
    requires Lawful(c) && a.thread != "" && a.turn != "" && TurnShape(frames, a) && frames != []
    ensures TurnShape(frames[..|frames| - 1], a)
    ensures Advance(c, id, Understood(idText, a, frames[..|frames| - 1]), ServerFrame(c, id, idText, frames[|frames| - 1]))
         == Understood(idText, a, frames)
  {
    var n := |frames| - 1;
    assert AllReceived(idText, frames) == AllReceived(idText, frames[..n]) + [AsReceived(idText, frames[n])];
    if n == 0 {
      AcceptanceChecks(c, id, idText, a);
    } else {
      EventChecks(c, id, idText, a, frames[n].event);
    }
    hide Check, ServerFrame, EventJson, IsTerminalRecord, Lawful, AllReceived, Belongs;
  }

  /** The client's loop on what the server's loop writes: the same frames, and a normal end
      exactly when the turn's terminal event is among them. */
  lemma ServerIsUnderstood(c: Codec, id: string, idText: EventId -> string, a: AcceptedTurn, frames: seq<TurnFrame>)
    requires Lawful(c) && a.thread != "" && a.turn != "" && TurnShape(frames, a)
    ensures DigestOf(c, id, ServerFrames(c, id, idText, frames)) ==
            Digest(if frames == [] then None else Some(a), AllReceived(idText, frames),
                   if |frames| > 1 && IsTerminal(frames[|frames| - 1].event) then Finished else Open)
  {
    ClientUnderstands(c, id, idText, a, frames);
    hide DigestOf, AllReceived, ServerFrames;
  }

  lemma {:induction false} ClientUnderstands(c: Codec, id: string, idText: EventId -> string, a: AcceptedTurn, frames: seq<TurnFrame>)
    requires Lawful(c) && a.thread != "" && a.turn != "" && TurnShape(frames, a)
    ensures DigestOf(c, id, ServerFrames(c, id, idText, frames)) == Understood(idText, a, frames)
    decreases |frames|
  {
    hide Lawful, Advance, ServerFrame;
    if frames == [] {
      assert AllReceived(idText, frames) == [] && ServerFrames(c, id, idText, frames) == [];
    } else {
      var n := |frames| - 1;
      OneMoreFrame(c, id, idText, a, frames);
      assert ServerFrames(c, id, idText, frames)[..n] == ServerFrames(c, id, idText, frames[..n]);
      hide TurnShape, Understood;
      ClientUnderstands(c, id, idText, a, frames[..n]);
    }
  }

  /** Event ids are written on one line, and never empty. */
  ghost predicate NamesEvents(idText: EventId -> string) {
    forall id: EventId :: idText(id) != "" && Plain(idText(id)) && '\0' !in idText(id)
  }

  lemma ServerFramesAreSendable(c: Codec, id: string, idText: EventId -> string, frames: seq<TurnFrame>)
    requires Lawful(c) && NamesEvents(idText)
    ensures forall f <- ServerFrames(c, id, idText, frames) :: Sendable(f)
  {
    forall frame: TurnFrame ensures Sendable(ServerFrame(c, id, idText, frame)) {
      ServerFrameIsSendable(c, id, idText, frame);
    }
    hide Sendable, ServerFrame, Lawful, NamesEvents;
  }

  lemma ServerFrameIsSendable(c: Codec, id: string, idText: EventId -> string, frame: TurnFrame)
    requires Lawful(c) && NamesEvents(idText)
    ensures Sendable(ServerFrame(c, id, idText, frame))
  {
    hide EventJson, AcceptedJson;
    assert Plain("response") && Plain("thread/event");
  }

  /** From the turn stream in the daemon to the turn stream in the client, through printer,
      network and reader: with heartbeats in between and the bytes cut anywhere, the client
      takes exactly the frames the server was given, as long as each fits the byte limit. */
  lemma WireDelivers(c: Codec, id: string, idText: EventId -> string, a: AcceptedTurn, frames: seq<TurnFrame>,
                     pieces: seq<Piece>, chunks: seq<seq<byte>>, limit: nat)
    requires Lawful(c) && NamesEvents(idText) && a.thread != "" && a.turn != "" && TurnShape(frames, a)
    requires FramesSent(pieces) == ServerFrames(c, id, idText, frames) && Fits(FramesSent(pieces), limit)
    requires Joint(chunks) == Encode(WireText(pieces))
    ensures Reads(chunks, limit, ServerFrames(c, id, idText, frames), Ended)
    ensures DigestOf(c, id, ServerFrames(c, id, idText, frames)).pushes == AllReceived(idText, frames)
    ensures DigestOf(c, id, ServerFrames(c, id, idText, frames)).verdict ==
            if |frames| > 1 && IsTerminal(frames[|frames| - 1].event) then Finished else Open
  {
    ServerFramesAreSendable(c, id, idText, frames);
    hide Sendable;
    RoundTrip(pieces, chunks, limit);
    ServerIsUnderstood(c, id, idText, a, frames);
  }
}
