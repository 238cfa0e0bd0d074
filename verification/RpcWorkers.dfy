/** The worker's command pipeline (src/worker/pi-rpc-worker.ts): commands are written one at a
    time in call order, answered by id, and none outlives a timeout or an exit. */
module RpcWorkers {
  import opened Common
  import opened Events
  import opened Lines
  import opened Pools
  import opened RpcBooks

  /** What a line of output is to the worker. */
  datatype Report = Ignored | Response(id: string, fields: map<string, Json>) | Emitted(fields: map<string, Json>)

  function Truthy(value: Json): bool {
    match value
    case Null => false
    case Bool(b) => b
    case Number(n) => n != 0
    case Text(s) => s != ""
    case _ => true
  }

  /** Lines that are no JSON objects are ignored; responses carry an id. */
  function Classify(parse: string -> Option<Json>, line: string): Report {
    if line == "" then Ignored
    else
      match parse(line)
      case Some(Record(fields)) =>
        if "type" in fields && fields["type"] == Text("response") && "id" in fields && fields["id"].Text?
        then Response(fields["id"].s, fields)
        else Emitted(fields)
      case _ => Ignored
  }

  function Reply(fields: map<string, Json>): Outcome {
    if "success" in fields && Truthy(fields["success"]) then Answered(fields) else Rejected(PiRpcError)
  }

  /** The events among the lines of output, in order. */
  function EventsOf(parse: string -> Option<Json>, lines: seq<string>): seq<map<string, Json>> {
    if lines == [] then []
    else
      EventsOf(parse, lines[..|lines| - 1]) + Said(parse, Stripped(lines[|lines| - 1]))
  }

  /** What a line of output does to the commands: a response ends the one that waits for it. */
  function Told(parse: string -> Option<Json>, b: Book, line: string): Book {
    var report := Classify(parse, line);
    if report.Response? && report.id in b.pending then Settled(b, report.id, Reply(report.fields)) else b
  }

  function ToldAll(parse: string -> Option<Json>, b: Book, lines: seq<string>): Book {
    if lines == [] then b else Told(parse, ToldAll(parse, b, lines[..|lines| - 1]), Stripped(lines[|lines| - 1]))
  }

  lemma ToldStep(parse: string -> Option<Json>, b: Book, lines: seq<string>, raw: string)
    ensures ToldAll(parse, b, lines + [raw]) == Told(parse, ToldAll(parse, b, lines), Stripped(raw))
  {
    assert (lines + [raw])[..|lines|] == lines;
  }

  /** The event that a line is, if it is one. */
  function Said(parse: string -> Option<Json>, line: string): seq<map<string, Json>> {
    var report := Classify(parse, line);
    if report.Emitted? then [report.fields] else []
  }

  /** Only records matter.  A response with the text id of a written command ends it, as answered
      exactly if `success` is truthy; every other record is an event and ends nothing. */
  lemma LineMeans(parse: string -> Option<Json>, b: Book, line: string)
    ensures line == "" || parse(line) == None || !parse(line).value.Record? ==>
              Told(parse, b, line) == b && Said(parse, line) == []
    ensures line != "" && parse(line).Some? && parse(line).value.Record? ==>
      var fields, t := parse(line).value.fields, Told(parse, b, line);
      var response := "type" in fields && fields["type"] == Text("response") && "id" in fields && fields["id"].Text?;
      && Said(parse, line) == (if response then [] else [fields])
      && (!response || fields["id"].s !in b.pending ==> t == b)
      && (response && fields["id"].s in b.pending ==>
            && t.pending == b.pending - {fields["id"].s} && t.written == b.written && t.queue == b.queue
            && t.settled == b.settled[b.pending[fields["id"].s] :=
                 if "success" in fields && fields["success"] !in {Null, Bool(false), Number(0), Text("")}
                 then Answered(fields) else Rejected(PiRpcError)])
  {
  }

  /** The line is a JSON object that says it answers the command written under `id`. */
  predicate Names(parse: string -> Option<Json>, line: string, id: string) {
    line != "" &&
    match parse(line)
    case Some(Record(fields)) =>
      "type" in fields && fields["type"] == Text("response") && "id" in fields && fields["id"] == Text(id)
    case _ => false
  }

  /** A command that no line answers stays open. */
  lemma {:induction false} NobodyAnswers(parse: string -> Option<Json>, b: Book, lines: seq<string>, id: string)
    requires Inv(b, None) && id in b.pending && forall i :: 0 <= i < |lines| ==> !Names(parse, Stripped(lines[i]), id)
    ensures var t := ToldAll(parse, b, lines);
      Inv(t, None) && id in t.pending && t.pending[id] == b.pending[id] && b.pending[id] !in t.settled
  {
    if lines == [] {
      hide NothingLost, Serial, InOrder;
    } else {
      var n := |lines| - 1;
      NobodyAnswers(parse, b, lines[..n], id);
      hide Inv;
      ToldMeans(parse, ToldAll(parse, b, lines[..n]), Stripped(lines[n]), id, b.pending[id]);
      hide Told, Names;
    }
  }

  /** The first line that answers a command settles it for good: with the object it carries if
      `success` is truthy, and as an error of Pi otherwise. */
  lemma {:induction false} FirstAnswerDecides(parse: string -> Option<Json>, b: Book, lines: seq<string>, id: string, k: nat)
    requires Inv(b, None) && id in b.pending && k < |lines| && Names(parse, Stripped(lines[k]), id)
    requires forall i :: 0 <= i < k ==> !Names(parse, Stripped(lines[i]), id)
    ensures var t, call, fields := ToldAll(parse, b, lines), b.pending[id], parse(Stripped(lines[k])).value.fields;
      && Inv(t, None) && id !in t.pending && call in t.settled
      && t.settled[call] == if "success" in fields && fields["success"] !in {Null, Bool(false), Number(0), Text("")}
                            then Answered(fields) else Rejected(PiRpcError)
    decreases |lines|
  {
    var n := |lines| - 1;
    if k == n {
      NobodyAnswers(parse, b, lines[..n], id);
    } else {
      FirstAnswerDecides(parse, b, lines[..n], id, k);
    }
    hide Inv, Names;
    ToldMeans(parse, ToldAll(parse, b, lines[..n]), Stripped(lines[n]), id, b.pending[id]);
    hide Told;
  }

  /** One line settles at most the command that it names. */
  lemma ToldMeans(parse: string -> Option<Json>, b: Book, line: string, id: string, call: nat)
    requires Inv(b, None)
    ensures var t := Told(parse, b, line);
      && Inv(t, None)
      && (call in b.settled ==> call in t.settled && t.settled[call] == b.settled[call])
      && (id in b.pending && !Names(parse, line, id) ==> id in t.pending && t.pending[id] == b.pending[id])
      && (id !in b.pending ==> id !in t.pending)
      && (id in b.pending && b.pending[id] == call && !Names(parse, line, id) ==> call !in t.settled)
      && (id in b.pending && b.pending[id] == call && Names(parse, line, id) ==>
            var fields := parse(line).value.fields;
            id !in t.pending && call in t.settled && t.settled[call] ==
              if "success" in fields && fields["success"] !in {Null, Bool(false), Number(0), Text("")}
              then Answered(fields) else Rejected(PiRpcError))
  {
    var report := Classify(parse, line);
    NamesIff(parse, line, id);
    assert id in b.pending ==> b.pending[id] !in b.settled;
    hide Classify, Names, Reply;
    if report.Response? && report.id in b.pending {
      SettledKeeps(b, report.id, Reply(report.fields));
      assert b.pending[report.id] !in b.settled;
      assert id in b.pending && id != report.id ==> b.pending[id] != b.pending[report.id];
    }
    hide Inv;
  }

  lemma NamesIff(parse: string -> Option<Json>, line: string, id: string)
    ensures var report := Classify(parse, line);
      && (Names(parse, line, id) <==> report.Response? && report.id == id)
      && (Names(parse, line, id) ==>
            && parse(line) == Some(Record(report.fields))
            && Reply(report.fields) ==
                 if "success" in report.fields && report.fields["success"] !in {Null, Bool(false), Number(0), Text("")}
                 then Answered(report.fields) else Rejected(PiRpcError))
  {
  }

  /** The worker's fields agree with the book: the map, the queue, and the count of commands
      that have not ended. */
  ghost predicate Tied(b: Book, hand: Option<nat>, pending: map<string, nat>, queue: seq<nat>, calls: nat, count: nat) {
    Inv(b, hand) && pending == b.pending && queue == b.queue && calls == b.calls && count + |b.settled| == b.calls
  }

  /** Ids are handed out in increasing order and never twice. */
  ghost predicate Numbered(idOf: nat -> string, next: nat, pending: map<string, nat>) {
    && (forall i: nat, j: nat :: idOf(i) == idOf(j) ==> i == j)
    && (forall id <- pending :: Given(idOf, next, id))
  }

  ghost predicate Given(idOf: nat -> string, next: nat, id: string) {
    exists n: nat :: n < next && id == idOf(n)
  }

  lemma NewId(idOf: nat -> string, next: nat, pending: map<string, nat>, call: nat)
    requires Numbered(idOf, next, pending)
    ensures idOf(next) !in pending && Numbered(idOf, next + 1, pending[idOf(next) := call])
  {
    forall id | id in pending || id == idOf(next) ensures Given(idOf, next + 1, id) {
      if id in pending {
        var n: nat :| n < next && id == idOf(n);
        assert n < next + 1;
      }
    }
  }

  lemma AskedTied(b: Book, count: nat, bypass: bool)
    requires Tied(b, None, b.pending, b.queue, b.calls, count)
    ensures var t := Asked(b, bypass);
      Tied(t, if bypass then Some(b.calls) else None, b.pending, if bypass then b.queue else b.queue + [b.calls], b.calls + 1, count + 1)
    ensures Asked(b, bypass).written == b.written && Asked(b, bypass).settled == b.settled
  {
    AskedKeeps(b, bypass);
    hide Inv;
  }

  lemma SettledTied(b: Book, count: nat, id: string, outcome: Outcome)
    requires Tied(b, None, b.pending, b.queue, b.calls, count) && id in b.pending
    ensures count >= 1 && Tied(Settled(b, id, outcome), None, b.pending - {id}, b.queue, b.calls, count - 1)
    ensures Settled(b, id, outcome).written == b.written
  {
    SettledKeeps(b, id, outcome);
    SettledBound(Settled(b, id, outcome), None);
    hide Inv;
  }

  lemma HandTied(b: Book, count: nat, call: nat, outcome: Outcome)
    requires Tied(b, Some(call), b.pending, b.queue, b.calls, count)
    ensures count >= 1 && Tied(HandSettled(b, call, outcome), None, b.pending, b.queue, b.calls, count - 1)
    ensures HandSettled(b, call, outcome).written == b.written
  {
    HandSettledKeeps(b, call, outcome);
    SettledBound(HandSettled(b, call, outcome), None);
    hide Inv;
  }

  lemma SentTied(b: Book, count: nat, id: string, call: nat)
    requires Tied(b, Some(call), b.pending, b.queue, b.calls, count) && id !in b.pending
    ensures Tied(Sent(b, id, call), None, b.pending[id := call], b.queue, b.calls, count)
  {
    SentKeeps(b, id, call);
    hide Inv;
  }

  /** A command in hand is written under the id if the process is there, and fails if not. */
  function Executed(b: Book, call: nat, alive: bool, id: string): Book {
    if alive then Sent(b, id, call) else HandSettled(b, call, Rejected(WorkerCrashed))
  }

  class PiRpcWorker {
    const parse: string -> Option<Json>
    /** `rpc_` and the number in decimal. */
    const idOf: nat -> string
    var state: WorkerState
    var spawned: bool
    var nextCommandId: nat
    var commandCount: nat
    var pending: map<string, nat>
    var queue: seq<nat>
    /** Commands are named by their rank among all calls. */
    var calls: nat
    var buffer: string
    /** Settled promises, what was written, and how far the queue got. */
    ghost var book: Book
    /** All that had been written when the worker timed out or its process closed; none again once
        somebody has written it a live state. */
    ghost var frozen: Option<seq<nat>>
    /** All of standard output so far, and the events emitted for it. */
    ghost var output: string
    ghost var events: seq<map<string, Json>>
    /** The lines dealt with. */
    ghost var taken: seq<string>

    ghost predicate Valid()
      reads this
    {
      Steady(None) && Closed() && Heard()
    }

    /** A crashed worker has nothing pending; and as long as nobody writes it a live state, nothing
        is written to it and nothing becomes pending. */
    ghost predicate Closed()
      reads this
    {
      && (state == Crashed ==> pending == map[])
      && (frozen.Some? ==> (state == Crashed || state == Stopped) && pending == map[] && book.written == frozen.value)
    }

    ghost predicate Steady(hand: Option<nat>)
      reads this
    {
      Tied(book, hand, pending, queue, calls, commandCount) && Numbered(idOf, nextCommandId, pending)
    }

    /** Every complete line of output has been dealt with. */
    ghost predicate Heard()
      reads `taken, `output, `buffer, `events
    {
      taken == Complete(output) && buffer == Unfinished(output) && events == EventsOf(parse, taken)
    }

    /** In the middle of a chunk, lines may be left in the buffer. */
    ghost predicate Hearing()
      reads `taken, `output, `buffer, `events
    {
      Complete(output) == taken + Complete(buffer) && Unfinished(output) == Unfinished(buffer) && events == EventsOf(parse, taken)
    }

    predicate Alive()
      reads this
    {
      spawned && state != Crashed && state != Stopped
    }

    constructor (parse: string -> Option<Json>, idOf: nat -> string)
      requires forall i: nat, j: nat :: idOf(i) == idOf(j) ==> i == j
      ensures Valid() && state == Starting && book == EMPTY && frozen == None && output == "" && events == []
    {
      this.parse, this.idOf := parse, idOf;
      state, spawned, nextCommandId, commandCount := Starting, false, 1, 0;
      pending, queue, calls, buffer := map[], [], 0, "";
      book, frozen, output, events, taken := EMPTY, None, "", [], [];
      new;
      EmptyInv();
    }

    /** A new command: one that bypasses the queue is executed at once. */
    method Command(bypass: bool) returns (call: nat)
      requires Valid()
      modifies this`pending, this`book, this`nextCommandId, this`commandCount, this`calls, this`queue
      ensures Valid() && call == old(calls)
      ensures !bypass ==> book == Asked(old(book), false)
      ensures bypass ==> book == Executed(Asked(old(book), true), call, old(Alive()), old(idOf(nextCommandId)))
      ensures queue == if bypass then old(queue) else old(queue) + [call]
      ensures bypass ==>
                if old(spawned && state != Crashed && state != Stopped)
                then book.written == old(book).written + [call] && book.settled == old(book).settled
                else book.written == old(book).written && book.settled == old(book).settled[call := Rejected(WorkerCrashed)]
      ensures !bypass ==> book.written == old(book).written && book.settled == old(book).settled
    {
      hide Tied, Numbered, Asked, Executed, EventsOf, Complete, Unfinished;
      call := Count(bypass);
      if bypass {
        Execute(call);
      }
    }

    /** The command is counted from now on; a normal one waits for its turn. */
    method Count(bypass: bool) returns (call: nat)
      requires Steady(None)
      modifies this`book, this`commandCount, this`calls, this`queue
      ensures Steady(if bypass then Some(call) else None) && call == old(calls) && book == Asked(old(book), bypass)
      ensures book.written == old(book).written && book.settled == old(book).settled
      ensures queue == if bypass then old(queue) else old(queue) + [call]
    {
      AskedTied(book, commandCount, bypass);
      assert calls == book.calls && pending == book.pending && queue == book.queue;
      hide Tied, Numbered, Asked;
      call := calls;
      calls := calls + 1;
      book := Asked(book, bypass);
      commandCount := commandCount + 1;
      if !bypass {
        queue := queue + [call];
      }
    }

    /** The queue's next link: when no normal command is outstanding, the first waiting one runs. */
    method RunNext()
      requires Valid() && queue != [] && book.running == None
      modifies this
      ensures Valid() && state == old(state) && output == old(output) && frozen == old(frozen)
      ensures book == Executed(Taken(old(book)), old(queue)[0], old(Alive()), old(idOf(nextCommandId)))
      ensures queue == old(queue)[1..]
      ensures if old(spawned && state != Crashed && state != Stopped)
              then book.written == old(book).written + [old(queue)[0]] && book.settled == old(book).settled
              else book.written == old(book).written && book.settled == old(book).settled[old(queue)[0] := Rejected(WorkerCrashed)]
    {
      TakenKeeps(book);
      hide Inv, Numbered, EventsOf, Complete, Unfinished;
      var call := queue[0];
      queue := queue[1..];
      book := Taken(book);
      Execute(call);
    }

    /** Writes the command under a new id, or rejects it when the process is gone. */
    method Execute(call: nat)
      requires Steady(Some(call)) && Heard() && Closed()
      modifies this`pending, this`book, this`nextCommandId, this`commandCount
      ensures Valid()
      ensures book == Executed(old(book), call, old(Alive()), old(idOf(nextCommandId)))
      ensures if old(spawned && state != Crashed && state != Stopped)
              then book.written == old(book).written + [call] && book.settled == old(book).settled
                   && idOf(old(nextCommandId)) !in old(pending) && pending == old(pending)[idOf(old(nextCommandId)) := call]
              else book.written == old(book).written && book.settled == old(book).settled[call := Rejected(WorkerCrashed)]
                   && pending == old(pending)
    {
      if !spawned || state == Crashed || state == Stopped {
        assert pending == book.pending && queue == book.queue && calls == book.calls;
        hide Tied, Numbered, Heard, HandSettled;
        HandTied(book, commandCount, call, Rejected(WorkerCrashed));
        book := HandSettled(book, call, Rejected(WorkerCrashed));
        commandCount := commandCount - 1;
      } else {
        hide Tied, Numbered, Heard, Sent;
        Write(call);
      }
    }

    method Write(call: nat)
      requires Steady(Some(call)) && Closed() && Alive()
      modifies this`pending, this`book, this`nextCommandId
      ensures Steady(None) && Closed() && book == Sent(old(book), old(idOf(nextCommandId)), call)
      ensures idOf(old(nextCommandId)) !in old(pending) && pending == old(pending)[idOf(old(nextCommandId)) := call]
    {
      assert pending == book.pending && queue == book.queue && calls == book.calls && frozen == None;
      hide Tied, Numbered, Sent;
      var id := idOf(nextCommandId);
      NewId(idOf, nextCommandId, pending, call);
      SentTied(book, commandCount, id, call);
      nextCommandId := nextCommandId + 1;
      pending := pending[id := call];
      book := Sent(book, id, call);
    }

    /** The promise of the command written under `id` is settled, once. */
    method Settle(id: string, outcome: Outcome)
      requires Steady(None) && id in pending
      modifies this`pending, this`book, this`commandCount
      ensures Steady(None) && pending == old(pending) - {id}
      ensures id in old(book).pending && book == Settled(old(book), id, outcome)
    {
      assert pending == book.pending && queue == book.queue && calls == book.calls;
      SettledTied(book, commandCount, id, outcome);
      assert Numbered(idOf, nextCommandId, pending - {id});
      hide Tied, Numbered;
      book := Settled(book, id, outcome);
      pending := pending - {id};
      commandCount := commandCount - 1;
    }

    /** All written commands that are still open fail together. */
    method RejectPending(error: Error)
      requires Steady(None)
      modifies this`pending, this`book, this`commandCount
      ensures Steady(None) && pending == map[] && FailsAll(old(book), book, error)
    {
      WasOpen(book);
      FailingNone(book, error);
      assert pending == book.pending;
      hide Tied, Numbered, Failing, Settled;
      while pending != map[]
        invariant Steady(None) && pending == book.pending && Failing(old(book), book, error)
        decreases |pending|
      {
        var id :| id in pending;
        FailingStep(old(book), book, id, error);
        SettledMeans(book, id, Rejected(error));
        Settle(id, Rejected(error));
      }
    }

    /** The command's timer fires: it fails, and the worker is given up with everything written. */
    method TimesOut(id: string)
      requires Valid() && id in pending
      modifies this
      ensures Valid() && state == Crashed && pending == map[]
      ensures FailsAll(Settled(old(book), id, Rejected(Timeout)), book, WorkerCrashed)
      ensures frozen == Some(old(book).written) && spawned == old(spawned)
    {
      hide Tied, Numbered;
      Settle(id, Rejected(Timeout));
      state := Crashed;
      RejectPending(WorkerCrashed);
      frozen := Some(book.written);
    }

    /** The process closes: whatever was written and not answered fails. */
    method Exits()
      requires Valid()
      modifies this
      ensures Valid() && pending == map[] && state == (if old(state) == Stopped then Stopped else Crashed)
      ensures FailsAll(old(book), book, WorkerCrashed) && frozen == Some(old(book).written)
    {
      hide Tied, Numbered;
      state := if state == Stopped then Stopped else Crashed;
      RejectPending(WorkerCrashed);
      frozen := Some(book.written);
    }

    /** Writing failed: the command fails unless it has already ended. */
    method WriteFailed(id: string)
      requires Valid()
      modifies this
      ensures Valid() && state == old(state) && frozen == old(frozen)
      ensures book == if id in old(book).pending then Settled(old(book), id, Rejected(WorkerCrashed)) else old(book)
    {
      assert pending == book.pending;
      hide Tied, Numbered;
      if id in pending {
        Settle(id, Rejected(WorkerCrashed));
      }
    }

    method Spawned()
      requires Valid()
      modifies this`spawned, this`state, this`frozen
      ensures Valid() && spawned && state == Idle
    {
      spawned, state, frozen := true, Idle, None;
    }

    /** The owner moves the worker between its live states, or stops it.  Only a live state opens a
        worker again that had been given up. */
    method SetState(next: WorkerState)
      requires Valid() && next != Crashed
      modifies this`state, this`frozen
      ensures Valid() && state == next && book == old(book)
      ensures frozen == if next == Stopped then old(frozen) else None
    {
      state := next;
      if next != Stopped {
        frozen := None;
      }
    }

    /** A chunk of output: its complete lines, answers and events, in order. */
    method HandleStdout(chunk: string)
      requires Valid()
      modifies this`pending, this`book, this`commandCount, this`buffer, this`output, this`events, this`taken
      ensures Valid() && output == old(output) + chunk
      ensures old(taken) <= taken && book == ToldAll(parse, old(book), taken[|old(taken)|..])
    {
      CompleteConcat(output, chunk);
      output := output + chunk;
      buffer := buffer + chunk;
      TakeAll();
      NoLineLeft(buffer);
      assert taken + [] == taken;
    }

    /** All complete lines of the buffer. */
    method TakeAll()
      requires Steady(None) && Closed() && Hearing()
      modifies this`pending, this`book, this`commandCount, this`buffer, this`events, this`taken
      ensures Steady(None) && Closed() && Hearing() && IndexOfNewline(buffer) == None
      ensures old(taken) <= taken && book == ToldAll(parse, old(book), taken[|old(taken)|..])
    {
      hide Tied, Numbered, Complete, Unfinished, EventsOf, IndexOfNewline, Told, Closed;
      var more := true;
      while more
        invariant Steady(None) && Closed() && Hearing()
        invariant !more ==> IndexOfNewline(buffer) == None
        invariant old(taken) <= taken && book == ToldAll(parse, old(book), taken[|old(taken)|..])
        decreases |buffer|, more
      {
        ghost var before := taken;
        more := NextLine();
        if more {
          assert taken[|old(taken)|..] == before[|old(taken)|..] + [taken[|before|]];
          ToldStep(parse, old(book), before[|old(taken)|..], taken[|before|]);
        }
      }
    }

    /** Takes the first complete line of the buffer, if there is one. */
    method NextLine() returns (more: bool)
      requires Steady(None) && Closed() && Hearing()
      modifies this`pending, this`book, this`commandCount, this`buffer, this`events, this`taken
      ensures Steady(None) && Closed() && Hearing()
      ensures more <==> IndexOfNewline(old(buffer)).Some?
      ensures if more then |buffer| < |old(buffer)| else buffer == old(buffer)
      ensures more ==> |taken| > 0
      ensures if more then taken == old(taken) + [taken[|taken| - 1]] && book == Told(parse, old(book), Stripped(taken[|taken| - 1]))
              else taken == old(taken) && book == old(book)
    {
      hide Tied, Numbered, Complete, Unfinished, EventsOf, IndexOfNewline, Said, Told;
      var newline := IndexOfNewline(buffer);
      if newline == None {
        return false;
      }
      SplitOff(buffer, newline.value);
      var raw := buffer[..newline.value];
      buffer := buffer[newline.value + 1..];
      assert taken + ([raw] + Complete(buffer)) == (taken + [raw]) + Complete(buffer);
      EventsStep(parse, taken, raw);
      taken := taken + [raw];
      TakeLine(Stripped(raw));
      return true;
    }

    /** One line of output. */
    method TakeLine(line: string)
      requires Steady(None) && Closed()
      modifies this`pending, this`book, this`commandCount, this`events
      ensures Steady(None) && Closed()
      ensures book == Told(parse, old(book), line) && events == old(events) + Said(parse, line)
    {
      var report := Classify(parse, line);
      assert Said(parse, line) == (if report.Emitted? then [report.fields] else []) && events + [] == events;
      hide Tied, Numbered, Settled, Reply, Classify, Said, Closed, Steady;
      match report
      case Ignored =>
      case Response(id, fields) => Respond(id, fields);
      case Emitted(fields) => events := events + [fields];
    }

    /** A response: whoever waits for it has it, nobody else notices. */
    method Respond(id: string, fields: map<string, Json>)
      requires Steady(None) && Closed()
      modifies this`pending, this`book, this`commandCount
      ensures Steady(None) && Closed()
      ensures book == if id in old(book).pending then Settled(old(book), id, Reply(fields)) else old(book)
    {
      assert pending == book.pending;
      hide Tied, Numbered, Settled, Reply;
      if id in pending {
        assert state != Crashed && frozen == None;
        Settle(id, Reply(fields));
      }
    }
  }

  /** A worker that timed out writes again as soon as a late report of its own has made the owner
      write it a live state. */
  method WritesAgain(worker: PiRpcWorker, id: string, next: WorkerState) returns (call: nat)
    requires worker.Valid() && id in worker.pending && worker.spawned && next != Crashed && next != Stopped
    modifies worker
    ensures worker.Valid() && worker.book.written == old(worker.book.written) + [call]
  {
    hide Tied, Numbered, Complete, Unfinished, EventsOf;
    worker.TimesOut(id);
    worker.SetState(next);
    call := worker.Command(true);
  }

  /** The command's promise was rejected with this error. */
  predicate Failed(b: Book, call: nat, error: Error) {
    call in b.settled && b.settled[call] == Rejected(error)
  }

  /** Some of what was written has failed; nothing that had ended is touched, nothing is written. */
  predicate Failing(a: Book, b: Book, error: Error) {
    && b.written == a.written && b.calls == a.calls && b.queue == a.queue && b.normals == a.normals
    && (forall id <- b.pending :: id in a.pending && b.pending[id] == a.pending[id])
    && (forall id <- a.pending :: id in b.pending || Failed(b, a.pending[id], error))
    && (forall id <- a.pending :: a.pending[id] !in a.settled)
    && (forall c <- a.settled :: c in b.settled && b.settled[c] == a.settled[c])
    && (forall c <- b.settled :: c in a.settled || Failed(b, c, error))
  }

  predicate FailsAll(a: Book, b: Book, error: Error) {
    Failing(a, b, error) && b.pending == map[]
  }

  /** Every written command that was open is rejected with the error; what had ended stays as it
      ended; nothing else ends, nothing is written, and nothing that waits is lost. */
  lemma FailsAllMeans(a: Book, b: Book, error: Error)
    requires FailsAll(a, b, error)
    ensures forall id <- a.pending :: a.pending[id] in b.settled && b.settled[a.pending[id]] == Rejected(error)
    ensures forall c <- a.settled :: c in b.settled && b.settled[c] == a.settled[c]
    ensures forall c <- b.settled :: c in a.settled || b.settled[c] == Rejected(error)
    ensures b.pending == map[] && b.written == a.written && b.queue == a.queue && b.calls == a.calls
  {
  }

  /** After a time-out only the command whose timer fired is told so; the others hear of the crash. */
  lemma TimeOutMeans(a: Book, b: Book, id: string)
    requires Inv(a, None) && id in a.pending && FailsAll(Settled(a, id, Rejected(Timeout)), b, WorkerCrashed)
    ensures forall i <- a.pending ::
              a.pending[i] in b.settled && b.settled[a.pending[i]] == Rejected(if i == id then Timeout else WorkerCrashed)
    ensures forall c <- a.settled :: c in b.settled && b.settled[c] == a.settled[c]
    ensures b.pending == map[] && b.written == a.written && b.queue == a.queue
  {
    var mid := Settled(a, id, Rejected(Timeout));
    FailsAllMeans(mid, b, WorkerCrashed);
    assert a.pending[id] in mid.settled && a.pending[id] !in a.settled;
    assert forall i <- a.pending :: i == id || (i in mid.pending && mid.pending[i] == a.pending[i]);
    hide FailsAll, NothingLost, Serial, InOrder;
  }

  lemma FailingNone(b: Book, error: Error)
    requires forall id <- b.pending :: b.pending[id] !in b.settled
    ensures Failing(b, b, error)
  {
  }

  /** The one command that was written under this id ends in this way; nothing else ends. */
  lemma SettledMeans(b: Book, id: string, outcome: Outcome)
    requires id in b.pending
    ensures var t := Settled(b, id, outcome);
      && t.settled == b.settled[b.pending[id] := outcome] && t.pending == b.pending - {id}
      && t.queue == b.queue && t.written == b.written && t.calls == b.calls
  {
  }

  lemma FailingStep(a: Book, b: Book, id: string, error: Error)
    requires Failing(a, b, error) && id in b.pending
    ensures Failing(a, Settled(b, id, Rejected(error)), error)
  {
    var t, call := Settled(b, id, Rejected(error)), b.pending[id];
    assert a.pending[id] == call && call !in a.settled;
    assert forall i <- a.pending :: i in t.pending || i == id || Failed(b, a.pending[i], error);
    assert Failed(t, call, error);
  }

  lemma WasOpen(b: Book)
    requires Inv(b, None)
    ensures forall id <- b.pending :: b.pending[id] !in b.settled
  {
  }

  lemma NoLineLeft(text: string)
    requires IndexOfNewline(text) == None
    ensures Complete(text) == [] && Unfinished(text) == text
  {
  }

  lemma EventsStep(parse: string -> Option<Json>, lines: seq<string>, raw: string)
    ensures EventsOf(parse, lines + [raw]) == EventsOf(parse, lines) + Said(parse, Stripped(raw))
  {
    assert (lines + [raw])[..|lines|] == lines;
  }

  // ---------------------------------------------------------------- what the books mean

  /** At most one normal command is outstanding; those that bypass the queue may overlap. */
  lemma OneNormalAtATime(b: Book, i: string, j: string)
    requires Inv(b, None) && i in b.pending && j in b.pending && b.pending[i] in b.normals && b.pending[j] in b.normals
    ensures i == j
  {
  }

  /** Normal commands are written in the order they were asked for. */
  lemma WrittenInCallOrder(b: Book, i: nat, j: nat)
    requires Inv(b, None) && i < j < |b.written| && b.written[i] in b.normals && b.written[j] in b.normals
    ensures b.written[i] < b.written[j]
  {
  }

  /** The count of commands is the number of those that have not ended: waiting or written. */
  lemma UnfinishedCount(b: Book)
    requires Inv(b, None)
    ensures b.calls - |b.settled| == |b.queue| + |b.pending|
  {
    QueueSize(b.queue);
    PendingSize(b.pending);
    Partition(b);
    hide Inv, ElementsOf, CallsOf;
    SizesAdd(b.calls, b.settled.Keys, ElementsOf(b.queue), CallsOf(b.pending));
  }

  lemma SizesAdd(calls: nat, settled: set<nat>, waiting: set<nat>, flying: set<nat>)
    requires forall c: nat :: c < calls <==> c in settled || c in waiting || c in flying
    requires settled !! waiting && (settled + waiting) !! flying
    ensures calls == |settled| + |waiting| + |flying|
  {
    assert Below(calls) == settled + waiting + flying;
  }

  /** Every command is in exactly one place. */
  lemma Partition(b: Book)
    requires Inv(b, None)
    ensures forall c: nat :: c < b.calls <==> c in b.settled || c in ElementsOf(b.queue) || c in CallsOf(b.pending)
    ensures b.settled.Keys !! ElementsOf(b.queue) && (b.settled.Keys + ElementsOf(b.queue)) !! CallsOf(b.pending)
  {
    assert forall c :: c in CallsOf(b.pending) <==> Flying(b, c);
    assert forall id <- b.pending :: Flying(b, b.pending[id]);
    assert forall c: nat | Flying(b, c) :: c < b.calls && c !in b.settled && c !in b.queue;
    hide Flying, Serial, InOrder, CallsOf;
  }

  ghost function ElementsOf(queue: seq<nat>): set<nat> {
    set c | c in queue
  }

  ghost function CallsOf(pending: map<string, nat>): set<nat> {
    set id | id in pending :: pending[id]
  }

  lemma QueueSize(queue: seq<nat>)
    requires Ordered(queue)
    ensures |ElementsOf(queue)| == |queue|
  {
    if queue != [] {
      TailOf(queue);
      QueueSize(queue[1..]);
      assert queue[0] !in ElementsOf(queue[1..]);
      assert ElementsOf(queue) == {queue[0]} + ElementsOf(queue[1..]);
    }
  }

  lemma PendingSize(pending: map<string, nat>)
    requires forall i <- pending, j <- pending :: pending[i] == pending[j] ==> i == j
    ensures |CallsOf(pending)| == |pending|
    decreases |pending|
  {
    if pending != map[] {
      var id :| id in pending;
      var rest := pending - {id};
      assert forall i <- rest :: i in pending && rest[i] == pending[i];
      PendingSize(rest);
      assert pending[id] !in CallsOf(rest);
      assert CallsOf(pending) == {pending[id]} + CallsOf(rest) by {
        forall c | c in CallsOf(pending) ensures c == pending[id] || c in CallsOf(rest) {
          var i :| i in pending && pending[i] == c;
          assert i != id ==> i in rest && rest[i] == c;
        }
      }
      assert pending.Keys == rest.Keys + {id};
    }
  }
}
