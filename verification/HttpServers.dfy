/** The server's streaming loop for one turn (src/transport/http.ts), and what the client makes
    of it when the loop fails. */
module HttpServers {
  import opened Common
  import opened Events
  import opened Utf8
  import opened Sse
  import opened SseWriters
  import opened Wire
  import opened HttpClients

  /** The code and message of a DaemonError. */
  datatype Fault = Fault(code: string, message: string)

  const FRAME_OVERFLOW := Fault("streamOverflow", "SSE frame exceeds its byte limit")
  const ERROR_OVERFLOW := Fault("streamOverflow", "SSE error frame exceeds its byte limit")

  function FaultJson(fault: Fault): Json {
    Record(map["code" := Json.Text(fault.code), "message" := Json.Text(fault.message)])
  }

  /** Before acceptance an error answers the request, afterwards it is a stream error. */
  function ErrorFrame(c: Codec, id: string, accepted: bool, fault: Fault): Frame {
    if accepted then
      Frame("stream/error", c.stringify(Record(map["jsonrpc" := Json.Text("2.0"), "method" := Json.Text("stream/error"),
                                                   "params" := FaultJson(fault)])), None)
    else
      Frame("response", c.stringify(Record(map["jsonrpc" := Json.Text("2.0"), "id" := Json.Text(id),
                                               "error" := FaultJson(fault)])), None)
  }

  /** The error that is sent: its own, or that it was too large itself. */
  function Reported(c: Codec, id: string, accepted: bool, fault: Fault, limit: nat): Fault {
    if EncodeSse(ErrorFrame(c, id, accepted, fault), limit).Ok? then fault else ERROR_OVERFLOW
  }

  predicate IsAccepted(frames: seq<TurnFrame>) {
    exists i :: 0 <= i < |frames| && frames[i].Accepted?
  }

  predicate Writable(c: Codec, id: string, idText: EventId -> string, frame: TurnFrame, limit: nat) {
    EncodeSse(ServerFrame(c, id, idText, frame), limit).Ok?
  }

  /** Writes the frames that the turn stream yields, until it ends, throws `thrown`, or yields
      one that is too large; `count` is how many were written. */
  method ServeTurn(c: Codec, id: string, idText: EventId -> string, frames: seq<TurnFrame>, thrown: Option<Fault>, limit: nat)
    returns (written: seq<Frame>, count: nat)
    ensures count <= |frames|
    ensures forall i :: 0 <= i < count ==> Writable(c, id, idText, frames[i], limit)
    ensures count < |frames| ==> !Writable(c, id, idText, frames[count], limit)
    ensures var fault := if count < |frames| then Some(FRAME_OVERFLOW) else thrown;
      var accepted := IsAccepted(frames[..count]);
      written == ServerFrames(c, id, idText, frames[..count])
                 + if fault.Some? then [ErrorFrame(c, id, accepted, Reported(c, id, accepted, fault.value, limit))] else []
  {
    hide EncodeSse, ServerFrame, ErrorFrame, Reported, Writable, IsAccepted;
    NothingAccepted(frames);
    written, count := [], 0;
    var accepted := false;
    while count < |frames| && Writable(c, id, idText, frames[count], limit)
      invariant count <= |frames|
      invariant written == ServerFrames(c, id, idText, frames[..count])
      invariant forall j :: 0 <= j < count ==> Writable(c, id, idText, frames[j], limit)
      invariant accepted == IsAccepted(frames[..count])
    {
      AcceptedStep(frames, count);
      ServedStep(c, id, idText, frames, count);
      written := written + [ServerFrame(c, id, idText, frames[count])];
      accepted := accepted || frames[count].Accepted?;
      count := count + 1;
    }
    var fault := if count < |frames| then Some(FRAME_OVERFLOW) else thrown;
    if fault.Some? {
      written := written + [ErrorFrame(c, id, accepted, Reported(c, id, accepted, fault.value, limit))];
    }
  }

  lemma NothingAccepted(frames: seq<TurnFrame>)
    ensures frames[..0] == [] && !IsAccepted(frames[..0])
  {
  }

  lemma ServedStep(c: Codec, id: string, idText: EventId -> string, frames: seq<TurnFrame>, i: nat)
    requires i < |frames|
    ensures ServerFrames(c, id, idText, frames[..i + 1])
         == ServerFrames(c, id, idText, frames[..i]) + [ServerFrame(c, id, idText, frames[i])]
  {
    hide ServerFrame;
  }

  lemma AcceptedStep(frames: seq<TurnFrame>, i: nat)
    requires i < |frames|
    ensures frames[..i + 1] == frames[..i] + [frames[i]]
    ensures IsAccepted(frames[..i + 1]) <==> IsAccepted(frames[..i]) || frames[i].Accepted?
  {
    if IsAccepted(frames[..i]) {
      var j :| 0 <= j < |frames[..i]| && frames[..i][j].Accepted?;
      assert frames[..i + 1][j].Accepted?;
    }
    if frames[i].Accepted? {
      assert frames[..i + 1][i].Accepted?;
    }
  }

  /** A turn counts as accepted as soon as anything of it has been written. */
  lemma ShapeIsAccepted(frames: seq<TurnFrame>, a: AcceptedTurn)
    requires TurnShape(frames, a)
    ensures IsAccepted(frames) <==> frames != []
  {
    if frames != [] {
      assert frames[0].Accepted?;
    }
  }

  /** The error that is reported is the fault itself if its frame fits; what is written always fits,
      as long as the frame that says it does not fit does. */
  lemma ReportFits(c: Codec, id: string, accepted: bool, fault: Fault, limit: nat)
    requires |Encode(Printed(ErrorFrame(c, id, accepted, Fault("streamOverflow", "SSE error frame exceeds its byte limit"))))| <= limit
    ensures var reported := Reported(c, id, accepted, fault, limit);
      && |Encode(Printed(ErrorFrame(c, id, accepted, reported)))| <= limit
      && (|Encode(Printed(ErrorFrame(c, id, accepted, fault)))| <= limit ==> reported == fault)
  {
    hide ErrorFrame, Encode, Printed;
  }

  lemma FaultFields(fault: Fault)
    ensures RemoteError(FaultJson(fault).fields) == Remote(fault.code, fault.message)
  {
    assert "code"[0] != "message"[0];
  }

  lemma ErrorChecks(c: Codec, id: string, a: Option<AcceptedTurn>, fault: Fault)
    requires Lawful(c)
    ensures Check(c, id, a, ErrorFrame(c, id, a.Some?, fault)) == Err(Remote(fault.code, fault.message))
  {
    FaultFields(fault);
    DistinctKeys();
    assert "error"[0] != "jsonrpc"[0] && "error"[0] != "id"[0];
    if a.Some? {
      var payload := Record(map["jsonrpc" := Json.Text("2.0"), "method" := Json.Text("stream/error"), "params" := FaultJson(fault)]);
      assert c.parse(c.stringify(payload)) == Some(payload);
    } else {
      var payload := Record(map["jsonrpc" := Json.Text("2.0"), "id" := Json.Text(id), "error" := FaultJson(fault)]);
      assert c.parse(c.stringify(payload)) == Some(payload);
    }
    hide FaultJson;
  }

  /** When the turn stream fails, or a frame is too large, the client has exactly the frames
      before it, and fails with the error the server reported. */
  lemma FailureReachesClient(c: Codec, id: string, idText: EventId -> string, a: AcceptedTurn, frames: seq<TurnFrame>, fault: Fault)
    requires Lawful(c) && a.thread != "" && a.turn != "" && TurnShape(frames, a)
    requires |frames| > 1 ==> !IsTerminal(frames[|frames| - 1].event)
    ensures var d := DigestOf(c, id, ServerFrames(c, id, idText, frames) + [ErrorFrame(c, id, frames != [], fault)]);
      d.pushes == AllReceived(idText, frames) && d.verdict == Failed(Remote(fault.code, fault.message))
  {
    ServerIsUnderstood(c, id, idText, a, frames);
    ErrorChecks(c, id, if frames == [] then None else Some(a), fault);
    DigestStep(c, id, ServerFrames(c, id, idText, frames), ErrorFrame(c, id, frames != [], fault));
    hide Check, ErrorFrame, DigestOf;
  }
}
