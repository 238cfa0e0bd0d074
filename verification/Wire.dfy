/** Turn frames on the wire: how the server prints them (src/transport/http.ts) and what the
    client's protocol checks accept (src/client/http-client.ts). */
module Wire {
  import opened Common
  import opened Events
  import opened Sse
  import opened SseWriters

  /** JSON text.  What is printed is read back, and fits on one line. */
  datatype Codec = Codec(stringify: Json -> string, parse: string -> Option<Json>)

  ghost predicate Lawful(c: Codec) {
    forall j: Json :: c.parse(c.stringify(j)) == Some(j) && Plain(c.stringify(j))
  }

  // ---------------------------------------------------------------- events as JSON

  function TypeName(kind: EventType): string {
    match kind
    case TurnAccepted => "turn.accepted"
    case TurnStarted => "turn.started"
    case RunStepStarted => "run.step.started"
    case RunStepCompleted => "run.step.completed"
    case MessageDelta => "message.delta"
    case MessageCompleted => "message.completed"
    case ToolStarted => "tool.started"
    case ToolUpdated => "tool.updated"
    case ToolCompleted => "tool.completed"
    case RetryScheduled => "retry.scheduled"
    case RetryCompleted => "retry.completed"
    case QueueUpdated => "queue.updated"
    case CompactionStarted => "compaction.started"
    case CompactionCompleted => "compaction.completed"
    case ExtensionUiRequested => "extension_ui.requested"
    case ExtensionUiCompleted => "extension_ui.completed"
    case ExtensionError => "extension.error"
    case TurnCompleted => "turn.completed"
    case TurnAborted => "turn.aborted"
    case TurnFailed => "turn.failed"
    case WorkerStarted => "worker.started"
    case WorkerIdle => "worker.idle"
    case WorkerCrashedEvent => "worker.crashed"
    case ThreadUpdated => "thread.updated"
  }

  predicate KnownType(name: string) {
    exists kind: EventType :: TypeName(kind) == name
  }

  lemma TypeNames()
    ensures TypeName(TurnAccepted) == "turn.accepted" && TypeName(TurnStarted) == "turn.started"
    ensures TypeName(TurnCompleted) == "turn.completed" && TypeName(TurnAborted) == "turn.aborted"
    ensures TypeName(TurnFailed) == "turn.failed" && TypeName(RunStepStarted) == "run.step.started"
    ensures TypeName(RunStepCompleted) == "run.step.completed" && TypeName(MessageDelta) == "message.delta"
    ensures TypeName(MessageCompleted) == "message.completed" && TypeName(ToolStarted) == "tool.started"
    ensures TypeName(ToolUpdated) == "tool.updated" && TypeName(ToolCompleted) == "tool.completed"
    ensures TypeName(RetryScheduled) == "retry.scheduled" && TypeName(RetryCompleted) == "retry.completed"
    ensures TypeName(QueueUpdated) == "queue.updated" && TypeName(CompactionStarted) == "compaction.started"
    ensures TypeName(CompactionCompleted) == "compaction.completed"
    ensures TypeName(ExtensionUiRequested) == "extension_ui.requested"
    ensures TypeName(ExtensionUiCompleted) == "extension_ui.completed" && TypeName(ExtensionError) == "extension.error"
    ensures TypeName(WorkerStarted) == "worker.started" && TypeName(WorkerIdle) == "worker.idle"
    ensures TypeName(WorkerCrashedEvent) == "worker.crashed" && TypeName(ThreadUpdated) == "thread.updated"
  {
  }

  /** All of them. */
  lemma KnownTypes(name: string)
    ensures KnownType(name) <==>
      || name in ["turn.accepted", "turn.started", "turn.completed", "turn.aborted", "turn.failed"]
      || name in ["run.step.started", "run.step.completed", "message.delta", "message.completed"]
      || name in ["tool.started", "tool.updated", "tool.completed", "retry.scheduled", "retry.completed"]
      || name in ["queue.updated", "compaction.started", "compaction.completed", "extension_ui.requested"]
      || name in ["extension_ui.completed", "extension.error", "worker.started", "worker.idle", "worker.crashed", "thread.updated"]
  {
    if KnownType(name) {
      var kind: EventType :| TypeName(kind) == name;
    }
    forall kind: EventType ensures KnownType(TypeName(kind)) {
    }
    hide KnownType;
    TypeNames();
  }

  predicate IsTerminalName(name: string) {
    name == "turn.completed" || name == "turn.failed" || name == "turn.aborted"
  }

  /** Only the three terminal types have terminal names. */
  lemma TerminalNames(kind: EventType)
    ensures IsTerminalName(TypeName(kind)) <==> IsTerminalType(kind)
  {
    var name := TypeName(kind);
    if |name| == 14 {
      assert name[5] == "turn.completed"[5] || kind == WorkerStarted || kind == WorkerCrashedEvent || kind == ThreadUpdated
             || kind == ToolCompleted;
    } else if |name| == 12 {
      assert name[5] == "turn.aborted"[5] <==> kind == TurnAborted;
    }
  }

  function OptionalField(name: string, value: Option<string>): map<string, Json> {
    if value.Some? then map[name := Text(value.value)] else map[]
  }

  /** An event as the bus publishes it; `idText` writes its event id. */
  function EventJson(e: DaemonEvent, idText: EventId -> string): map<string, Json> {
    map["eventId" := Text(idText(e.id)), "type" := Text(TypeName(e.kind)), "timestamp" := Text(e.timestamp),
        "payload" := Record(e.payload)]
    + OptionalField("threadId", e.thread) + OptionalField("turnId", e.turn) + OptionalField("workerId", e.worker)
  }

  function AcceptedJson(a: AcceptedTurn): Json {
    Record(map["threadId" := Text(a.thread), "turnId" := Text(a.turn), "workerId" := Text(a.worker),
               "status" := Text("accepted")])
  }

  // ---------------------------------------------------------------- the server's frames

  /** What the streaming loop passes to the printer for one turn frame, in answer to request `id`. */
  function ServerFrame(c: Codec, id: string, idText: EventId -> string, frame: TurnFrame): Frame {
    match frame
    case Accepted(result) =>
      Frame("response", c.stringify(Record(map["jsonrpc" := Text("2.0"), "id" := Text(id), "result" := AcceptedJson(result)])), None)
    case Event(event) =>
      Frame("thread/event",
            c.stringify(Record(map["jsonrpc" := Text("2.0"), "method" := Text("thread/event"),
                                   "params" := Record(EventJson(event, idText))])),
            Some(idText(event.id)))
  }

  function ServerFrames(c: Codec, id: string, idText: EventId -> string, frames: seq<TurnFrame>): (r: seq<Frame>)
    ensures |r| == |frames| && forall i :: 0 <= i < |r| ==> r[i] == ServerFrame(c, id, idText, frames[i])
  {
    seq(|frames|, i requires 0 <= i < |frames| => ServerFrame(c, id, idText, frames[i]))
  }

  // ---------------------------------------------------------------- the client's checks

  /** What the client's stream carries: the acceptance, and events as the JSON they came in. */
  datatype ClientFrame = Acceptance(result: AcceptedTurn) | Received(event: map<string, Json>)

  function TextAt(m: map<string, Json>, key: string): Option<string> {
    if key in m && m[key].Text? then Some(m[key].s) else None
  }

  const PROTOCOL := StreamInterrupted

  function RemoteError(m: map<string, Json>): Error {
    Remote(if TextAt(m, "code").Some? then TextAt(m, "code").value else "internal",
           if TextAt(m, "message").Some? then TextAt(m, "message").value else "Daemon returned an error")
  }

  function ParseFrame(c: Codec, frame: Frame): Result<map<string, Json>, Error> {
    match c.parse(frame.data)
    case None => Err(Foreign(0))
    case Some(payload) =>
      if !payload.Record? then Err(PROTOCOL)
      else if frame.event != "stream/error" then Ok(payload.fields)
      else if TextAt(payload.fields, "method") == Some("stream/error") && "params" in payload.fields
              && payload.fields["params"].Record?
      then Err(RemoteError(payload.fields["params"].fields))
      else Err(PROTOCOL)
  }

  predicate IsEventRecord(frame: Frame, e: map<string, Json>) {
    && TextAt(e, "eventId").Some? && TextAt(e, "timestamp").Some?
    && TextAt(e, "type").Some? && KnownType(TextAt(e, "type").value)
    && "payload" in e && e["payload"].Record?
    && (frame.id.Some? ==> frame.id == TextAt(e, "eventId"))
  }

  function ParseEvent(frame: Frame, m: map<string, Json>): Result<map<string, Json>, Error> {
    if frame.event == "thread/event" && TextAt(m, "jsonrpc") == Some("2.0") && TextAt(m, "method") == Some("thread/event")
       && "params" in m && m["params"].Record? && IsEventRecord(frame, m["params"].fields)
    then Ok(m["params"].fields)
    else Err(PROTOCOL)
  }

  function ParseAccepted(m: map<string, Json>): Result<AcceptedTurn, Error> {
    if "result" in m && m["result"].Record? then
      var r := m["result"].fields;
      var thread, turn, worker := TextAt(r, "threadId"), TextAt(r, "turnId"), TextAt(r, "workerId");
      if thread.Some? && thread.value != "" && turn.Some? && turn.value != "" && worker.Some?
         && TextAt(r, "status") == Some("accepted")
      then Ok(AcceptedTurn(thread.value, turn.value, worker.value))
      else Err(PROTOCOL)
    else Err(PROTOCOL)
  }

  predicate OfTurn(e: map<string, Json>, a: AcceptedTurn) {
    TextAt(e, "turnId") == Some(a.turn) && TextAt(e, "threadId") == Some(a.thread)
  }

  predicate IsTerminalRecord(e: map<string, Json>) {
    TextAt(e, "type").Some? && IsTerminalName(TextAt(e, "type").value)
  }

  /** What one frame is to a client that has accepted `accepted` so far. */
  function Check(c: Codec, id: string, accepted: Option<AcceptedTurn>, frame: Frame): Result<ClientFrame, Error> {
    match ParseFrame(c, frame)
    case Err(e) => Err(e)
    case Ok(m) =>
      if frame.event == "response" then
        if accepted.Some? || TextAt(m, "jsonrpc") != Some("2.0") || TextAt(m, "id") != Some(id) then Err(PROTOCOL)
        else if "error" in m && m["error"].Record? then Err(RemoteError(m["error"].fields))
        else
          match ParseAccepted(m)
          case Err(e) => Err(e)
          case Ok(a) => Ok(Acceptance(a))
      else
        match ParseEvent(frame, m)
        case Err(e) => Err(e)
        case Ok(e) => if accepted == None || !OfTurn(e, accepted.value) then Err(PROTOCOL) else Ok(Received(e))
  }

  datatype Verdict = Open | Finished | Failed(error: Error)

  /** The client loop's outcome on a sequence of frames. */
  datatype Digest = Digest(accepted: Option<AcceptedTurn>, pushes: seq<ClientFrame>, verdict: Verdict)

  function Advance(c: Codec, id: string, d: Digest, frame: Frame): Digest {
    if !d.verdict.Open? then d
    else
      match Check(c, id, d.accepted, frame)
      case Err(e) => d.(verdict := Failed(e))
      case Ok(f) =>
        Digest(if f.Acceptance? then Some(f.result) else d.accepted, d.pushes + [f],
               if f.Received? && IsTerminalRecord(f.event) then Finished else Open)
  }

  const FRESH := Digest(None, [], Open)

  function DigestOf(c: Codec, id: string, frames: seq<Frame>): Digest {
    if frames == [] then FRESH else Advance(c, id, DigestOf(c, id, frames[..|frames| - 1]), frames[|frames| - 1])
  }

  // ---------------------------------------------------------------- what a normal end means

  /** One acceptance, then events of exactly that thread and turn; a terminal one can only be the last. */
  predicate WellFormedTurn(pushes: seq<ClientFrame>, a: AcceptedTurn) {
    && pushes != [] && pushes[0] == Acceptance(a)
    && (forall i :: 0 < i < |pushes| ==>
          && pushes[i].Received?
          && "turnId" in pushes[i].event && pushes[i].event["turnId"] == Text(a.turn)
          && "threadId" in pushes[i].event && pushes[i].event["threadId"] == Text(a.thread))
    && (forall i :: 0 < i < |pushes| - 1 ==> !EndsTurn(pushes[i].event))
  }

  /** The event's type is one of the three that end a turn. */
  predicate EndsTurn(e: map<string, Json>) {
    "type" in e && (e["type"] == Text("turn.completed") || e["type"] == Text("turn.failed") || e["type"] == Text("turn.aborted"))
  }

  lemma EndsTurnIff(e: map<string, Json>)
    ensures IsTerminalRecord(e) <==> EndsTurn(e)
    ensures EndsTurn(e) <==>
      "type" in e && (e["type"] == Text("turn.completed") || e["type"] == Text("turn.failed") || e["type"] == Text("turn.aborted"))
  {
  }

  predicate EndsWithTerminal(pushes: seq<ClientFrame>) {
    |pushes| > 1 && pushes[|pushes| - 1].Received? && EndsTurn(pushes[|pushes| - 1].event)
  }

  /** An event is taken exactly if a turn has been accepted and the frame carries, as it should, a
      notification of exactly that thread and turn, of a known type and under its own id. */
  lemma EventFrameIff(c: Codec, id: string, accepted: Option<AcceptedTurn>, frame: Frame, e: map<string, Json>)
    ensures Check(c, id, accepted, frame) == Ok(Received(e)) <==>
      && accepted.Some? && frame.event == "thread/event"
      && c.parse(frame.data).Some? && c.parse(frame.data).value.Record?
      && var m := c.parse(frame.data).value.fields;
      && "jsonrpc" in m && m["jsonrpc"] == Text("2.0") && "method" in m && m["method"] == Text("thread/event")
      && "params" in m && m["params"] == Record(e)
      && "eventId" in e && e["eventId"].Text? && "timestamp" in e && e["timestamp"].Text?
      && "type" in e && e["type"].Text? && KnownType(e["type"].s)
      && "payload" in e && e["payload"].Record?
      && (frame.id.Some? ==> e["eventId"] == Text(frame.id.value))
      && "turnId" in e && e["turnId"] == Text(accepted.value.turn)
      && "threadId" in e && e["threadId"] == Text(accepted.value.thread)
  {
    hide KnownType;
    assert "thread/event" != "response" && "thread/event" != "stream/error";
  }

  /** An acceptance is taken exactly once: if none has come, and the frame answers this very request
      with an accepted turn. */
  lemma AcceptanceFrameIff(c: Codec, id: string, accepted: Option<AcceptedTurn>, frame: Frame, a: AcceptedTurn)
    ensures Check(c, id, accepted, frame) == Ok(Acceptance(a)) <==>
      && accepted == None && frame.event == "response"
      && c.parse(frame.data).Some? && c.parse(frame.data).value.Record?
      && var m := c.parse(frame.data).value.fields;
      && "jsonrpc" in m && m["jsonrpc"] == Text("2.0") && "id" in m && m["id"] == Text(id)
      && !("error" in m && m["error"].Record?)
      && "result" in m && m["result"].Record?
      && var r := m["result"].fields;
      && "threadId" in r && r["threadId"] == Text(a.thread) && a.thread != ""
      && "turnId" in r && r["turnId"] == Text(a.turn) && a.turn != ""
      && "workerId" in r && r["workerId"] == Text(a.worker)
      && "status" in r && r["status"] == Text("accepted")
  {
    hide KnownType;
    assert "response" != "stream/error";
  }

  /** An error the daemon reports is what the stream fails with: by an answer to this request before
      the acceptance, by a stream error at any time. */
  lemma ReportedErrorIff(c: Codec, id: string, accepted: Option<AcceptedTurn>, frame: Frame, m: map<string, Json>)
    requires c.parse(frame.data) == Some(Record(m))
    ensures frame.event == "stream/error" ==> Check(c, id, accepted, frame) == Err(
              if "method" in m && m["method"] == Text("stream/error") && "params" in m && m["params"].Record?
              then RemoteError(m["params"].fields) else StreamInterrupted)
    ensures frame.event == "response" && accepted == None && "jsonrpc" in m && m["jsonrpc"] == Text("2.0")
            && "id" in m && m["id"] == Text(id) && "error" in m && m["error"].Record? ==>
              Check(c, id, accepted, frame) == Err(RemoteError(m["error"].fields))
    ensures frame.event == "response" && accepted.Some? ==> Check(c, id, accepted, frame) == Err(StreamInterrupted)
  {
    hide KnownType;
    assert "response" != "stream/error";
  }

  /** For arbitrary frames from the network. */
  lemma {:induction false} NormalEnd(c: Codec, id: string, frames: seq<Frame>)
    ensures var d := DigestOf(c, id, frames);
      && (d.accepted == None ==> d.pushes == [])
      && (d.accepted.Some? ==> WellFormedTurn(d.pushes, d.accepted.value))
      && (d.verdict == Finished ==> d.accepted.Some? && EndsWithTerminal(d.pushes))
      && (d.verdict == Open ==> !EndsWithTerminal(d.pushes))
  {
    if frames != [] {
      NormalEnd(c, id, frames[..|frames| - 1]);
      hide ParseFrame, ParseEvent, ParseAccepted, IsTerminalName;
    }
  }
}
