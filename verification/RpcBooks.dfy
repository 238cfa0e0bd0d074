/** The command queue of a worker (src/worker/pi-rpc-worker.ts) as a value: which commands were
    asked for, which wait, which have been written, and how each one ended. */
module RpcBooks {
  import opened Common
  import opened Events

  /** How a command's promise was settled. */
  datatype Outcome = Answered(response: map<string, Json>) | Rejected(error: Error)

  /** Commands are numbered in call order.  `normals` are those that do not bypass the queue;
      `running` is the one whose turn it is; `pending` maps the id of a written command to it. */
  datatype Book = Book(
    calls: nat,
    normals: set<nat>,
    queue: seq<nat>,
    running: Option<nat>,
    pending: map<string, nat>,
    settled: map<nat, Outcome>,
    written: seq<nat>)

  const EMPTY := Book(0, {}, [], None, map[], map[], [])

  predicate Flying(b: Book, call: nat) {
    exists id :: id in b.pending && b.pending[id] == call
  }

  predicate Ordered(calls: seq<nat>) {
    forall i, j :: 0 <= i < j < |calls| ==> calls[i] < calls[j]
  }

  /** `hand` is a command that is just being executed: no longer waiting, not yet written or settled. */
  ghost predicate Places(b: Book, hand: Option<nat>) {
    && (forall c <- b.settled :: c < b.calls)
    && (forall c <- b.normals :: c < b.calls)
    && (forall c <- b.queue :: c in b.normals && c !in b.settled)
    && (forall id <- b.pending :: b.pending[id] < b.calls && b.pending[id] !in b.settled && b.pending[id] !in b.queue)
    && (forall i <- b.pending, j <- b.pending :: b.pending[i] == b.pending[j] ==> i == j)
    && (hand.Some? ==> hand.value < b.calls && hand.value !in b.settled && hand.value !in b.queue && !Flying(b, hand.value))
  }

  /** Nothing is forgotten: every command waits, flies, is in hand or has been settled. */
  ghost predicate NothingLost(b: Book, hand: Option<nat>) {
    forall c: nat :: c < b.calls ==> c in b.settled || c in b.queue || Flying(b, c) || hand == Some(c)
  }

  /** One normal command at a time, in call order. */
  ghost predicate Serial(b: Book, hand: Option<nat>) {
    && Ordered(b.queue)
    && (forall id <- b.pending :: b.pending[id] in b.normals ==> b.running == Some(b.pending[id]))
    && (hand.Some? && hand.value in b.normals ==> b.running == hand)
    && (b.running.Some? ==> b.running.value in b.normals && b.running.value < b.calls && b.running.value !in b.settled)
    && (b.running.Some? ==> Flying(b, b.running.value) || hand == b.running)
    && (b.running.Some? ==> forall c <- b.queue :: b.running.value < c)
  }

  /** Normal commands have been written in call order, and before those that wait. */
  ghost predicate InOrder(b: Book, hand: Option<nat>) {
    && (forall i, j :: 0 <= i < j < |b.written| && b.written[i] in b.normals && b.written[j] in b.normals ==>
          b.written[i] < b.written[j])
    && (forall c <- b.written :: c < b.calls)
    && (forall c <- b.written :: c in b.normals ==>
          (b.running.Some? ==> c <= b.running.value) && (forall q <- b.queue :: c < q) && (hand == Some(c) ==> false))
  }

  ghost predicate Inv(b: Book, hand: Option<nat>) {
    Places(b, hand) && NothingLost(b, hand) && Serial(b, hand) && InOrder(b, hand)
  }

  lemma EmptyInv()
    ensures Inv(EMPTY, None)
  {
  }

  // ---------------------------------------------------------------- steps

  function Asked(b: Book, bypass: bool): Book {
    if bypass then b.(calls := b.calls + 1)
    else b.(calls := b.calls + 1, normals := b.normals + {b.calls}, queue := b.queue + [b.calls])
  }

  lemma AskedKeeps(b: Book, bypass: bool)
    requires Inv(b, None)
    ensures Inv(Asked(b, bypass), if bypass then Some(b.calls) else None)
  {
    AskedPlaces(b, bypass);
    AskedNothingLost(b, bypass);
    AskedSerial(b, bypass);
    AskedInOrder(b, bypass);
    hide Places, NothingLost, Serial, InOrder, Asked;
  }

  lemma AskedPlaces(b: Book, bypass: bool)
    requires Places(b, None)
    ensures Places(Asked(b, bypass), if bypass then Some(b.calls) else None)
  {
    var t := Asked(b, bypass);
    assert !Flying(t, b.calls);
    hide Flying;
    AskedQueue(b, bypass);
  }

  lemma AskedQueue(b: Book, bypass: bool)
    ensures forall c :: c in Asked(b, bypass).queue <==> c in b.queue || (!bypass && c == b.calls)
  {
    if !bypass {
      var queue := Asked(b, bypass).queue;
      assert queue[|b.queue|] == b.calls;
      forall c | c in b.queue ensures c in queue {
        var i :| 0 <= i < |b.queue| && b.queue[i] == c;
        assert queue[i] == c;
      }
    }
  }

  lemma AskedNothingLost(b: Book, bypass: bool)
    requires NothingLost(b, None)
    ensures NothingLost(Asked(b, bypass), if bypass then Some(b.calls) else None)
  {
    var t := Asked(b, bypass);
    assert forall c :: Flying(t, c) == Flying(b, c);
    hide Flying;
    AskedQueue(b, bypass);
  }

  lemma AskedInOrder(b: Book, bypass: bool)
    requires Places(b, None) && InOrder(b, None)
    ensures InOrder(Asked(b, bypass), if bypass then Some(b.calls) else None)
  {
    var t := Asked(b, bypass);
    AskedQueue(b, bypass);
    forall i | 0 <= i < |b.written|
      ensures b.written[i] < b.calls && (b.written[i] in t.normals <==> b.written[i] in b.normals)
    {
      assert b.written[i] in b.written;
    }
    forall c | c in b.written
      ensures c < b.calls && (c in t.normals ==> c in b.normals && forall q <- t.queue :: c < q)
    {
    }
  }

  lemma AskedSerial(b: Book, bypass: bool)
    requires Places(b, None) && Serial(b, None)
    ensures Serial(Asked(b, bypass), if bypass then Some(b.calls) else None)
  {
    var t := Asked(b, bypass);
    assert forall c :: Flying(t, c) == Flying(b, c);
    hide Flying;
    AskedQueue(b, bypass);
    assert forall i :: 0 <= i < |b.queue| ==> b.queue[i] in b.normals && t.queue[i] == b.queue[i];
  }

  /** The first waiting command gets its turn. */
  function Taken(b: Book): Book
    requires b.queue != []
  {
    b.(queue := b.queue[1..], running := Some(b.queue[0]))
  }

  lemma TakenKeeps(b: Book)
    requires Inv(b, None) && b.queue != [] && b.running == None
    ensures Inv(Taken(b), Some(b.queue[0]))
  {
    var t, first := Taken(b), b.queue[0];
    assert forall c :: Flying(t, c) == Flying(b, c);
    assert first in b.queue && !Flying(b, first);
    assert forall i <- b.pending :: Flying(b, b.pending[i]);
    hide Flying;
    TailOf(b.queue);
    assert Places(t, Some(first));
    assert NothingLost(t, Some(first));
    assert InOrder(t, Some(first)) by {
      hide Places, NothingLost, Ordered;
    }
    hide InOrder, NothingLost;
  }

  lemma TailOf(queue: seq<nat>)
    requires queue != [] && Ordered(queue)
    ensures Ordered(queue[1..])
    ensures forall c :: c in queue <==> c == queue[0] || c in queue[1..]
    ensures forall c <- queue[1..] :: queue[0] < c
  {
    assert queue == [queue[0]] + queue[1..];
    forall i | 0 <= i < |queue[1..]| ensures queue[0] < queue[1..][i] {
      assert queue[1..][i] == queue[i + 1];
    }
  }

  function Sent(b: Book, id: string, call: nat): Book {
    b.(pending := b.pending[id := call], written := b.written + [call])
  }

  lemma SentKeeps(b: Book, id: string, call: nat)
    requires Inv(b, Some(call)) && id !in b.pending
    ensures Inv(Sent(b, id, call), None)
  {
    SentFlies(b, id, call);
    SentPlaces(b, id, call);
    SentInOrder(b, id, call);
    hide Flying, Places, InOrder, Ordered;
  }

  lemma SentPlaces(b: Book, id: string, call: nat)
    requires Places(b, Some(call)) && id !in b.pending
    ensures Places(Sent(b, id, call), None)
  {
    assert forall i <- b.pending :: Flying(b, b.pending[i]);
    hide Flying;
  }

  lemma SentInOrder(b: Book, id: string, call: nat)
    requires Inv(b, Some(call))
    ensures InOrder(Sent(b, id, call), None)
  {
    var t := Sent(b, id, call);
    assert forall c <- t.written :: c in b.written || c == call;
    assert t.written[|b.written|] == call;
    assert forall i :: 0 <= i < |b.written| ==> b.written[i] in b.written && t.written[i] == b.written[i];
    hide Flying, NothingLost;
  }

  lemma SentFlies(b: Book, id: string, call: nat)
    requires id !in b.pending
    ensures forall c :: Flying(Sent(b, id, call), c) <==> Flying(b, c) || c == call
  {
    var t := Sent(b, id, call);
    assert id in t.pending && t.pending[id] == call;
    forall c | Flying(b, c) ensures Flying(t, c) {
      var i :| i in b.pending && b.pending[i] == c;
      assert i in t.pending && t.pending[i] == c;
    }
    forall c | Flying(t, c) && c != call ensures Flying(b, c) {
      var i :| i in t.pending && t.pending[i] == c;
      assert i in b.pending && b.pending[i] == c;
    }
  }

  /** A command in hand cannot be written. */
  function HandSettled(b: Book, call: nat, outcome: Outcome): Book {
    b.(settled := b.settled[call := outcome], running := if b.running == Some(call) then None else b.running)
  }

  lemma HandSettledKeeps(b: Book, call: nat, outcome: Outcome)
    requires Inv(b, Some(call))
    ensures Inv(HandSettled(b, call, outcome), None)
    ensures |HandSettled(b, call, outcome).settled| == |b.settled| + 1
  {
    var t := HandSettled(b, call, outcome);
    assert t.settled.Keys == b.settled.Keys + {call};
    HandPlaces(b, call, outcome);
    HandNothingLost(b, call, outcome);
    HandSerial(b, call, outcome);
    HandInOrder(b, call, outcome);
    hide NothingLost, Serial, InOrder;
  }

  lemma HandNothingLost(b: Book, call: nat, outcome: Outcome)
    requires NothingLost(b, Some(call))
    ensures NothingLost(HandSettled(b, call, outcome), None)
  {
    assert forall c :: Flying(HandSettled(b, call, outcome), c) == Flying(b, c);
    hide Flying;
  }

  lemma HandInOrder(b: Book, call: nat, outcome: Outcome)
    requires InOrder(b, Some(call))
    ensures InOrder(HandSettled(b, call, outcome), None)
  {
  }

  lemma HandPlaces(b: Book, call: nat, outcome: Outcome)
    requires Places(b, Some(call))
    ensures Places(HandSettled(b, call, outcome), None)
  {
    assert forall i <- b.pending :: Flying(b, b.pending[i]);
    hide Flying;
  }

  lemma HandSerial(b: Book, call: nat, outcome: Outcome)
    requires Places(b, Some(call)) && Serial(b, Some(call))
    ensures Serial(HandSettled(b, call, outcome), None)
  {
    var t := HandSettled(b, call, outcome);
    assert forall c :: Flying(t, c) == Flying(b, c);
    assert forall i <- b.pending :: Flying(b, b.pending[i]);
    hide Flying, Ordered;
  }

  /** The command written under `id` ends. */
  function Settled(b: Book, id: string, outcome: Outcome): Book
    requires id in b.pending
  {
    var call := b.pending[id];
    b.(pending := b.pending - {id}, settled := b.settled[call := outcome],
       running := if b.running == Some(call) then None else b.running)
  }

  lemma SettledKeeps(b: Book, id: string, outcome: Outcome)
    requires Inv(b, None) && id in b.pending
    ensures Inv(Settled(b, id, outcome), None)
    ensures |Settled(b, id, outcome).settled| == |b.settled| + 1
  {
    var t, call := Settled(b, id, outcome), b.pending[id];
    assert t.settled.Keys == b.settled.Keys + {call} && call !in b.settled;
    SettledFlies(b, id, outcome);
    SettledPlaces(b, id, outcome);
    SettledNothingLost(b, id, outcome);
    SettledSerial(b, id, outcome);
    SettledInOrder(b, id, outcome);
    hide Places, NothingLost, Serial, InOrder, Flying;
  }

  lemma SettledFlies(b: Book, id: string, outcome: Outcome)
    requires id in b.pending
    ensures forall c :: c != b.pending[id] && Flying(b, c) ==> Flying(Settled(b, id, outcome), c)
  {
    var t := Settled(b, id, outcome);
    forall c | c != b.pending[id] && Flying(b, c) ensures Flying(t, c) {
      var i :| i in b.pending && b.pending[i] == c;
      assert i in t.pending && t.pending[i] == c;
    }
  }

  lemma SettledPlaces(b: Book, id: string, outcome: Outcome)
    requires Places(b, None) && id in b.pending
    ensures Places(Settled(b, id, outcome), None)
  {
  }

  lemma SettledNothingLost(b: Book, id: string, outcome: Outcome)
    requires NothingLost(b, None) && id in b.pending
    requires forall c :: c != b.pending[id] && Flying(b, c) ==> Flying(Settled(b, id, outcome), c)
    ensures NothingLost(Settled(b, id, outcome), None)
  {
    hide Flying;
  }

  lemma SettledSerial(b: Book, id: string, outcome: Outcome)
    requires Places(b, None) && Serial(b, None) && id in b.pending
    requires forall c :: c != b.pending[id] && Flying(b, c) ==> Flying(Settled(b, id, outcome), c)
    ensures Serial(Settled(b, id, outcome), None)
  {
    hide Flying, Ordered;
  }

  lemma SettledInOrder(b: Book, id: string, outcome: Outcome)
    requires InOrder(b, None) && id in b.pending
    ensures InOrder(Settled(b, id, outcome), None)
  {
  }

  function Below(n: nat): (r: set<nat>)
    ensures forall c: nat :: c in r <==> c < n
    ensures |r| == n
  {
    if n == 0 then {} else Below(n - 1) + {n - 1}
  }

  lemma Subset(a: set<nat>, b: set<nat>)
    requires a <= b
    ensures |a| <= |b|
  {
    if a != {} {
      var x :| x in a;
      Subset(a - {x}, b - {x});
    }
  }

  lemma SettledBound(b: Book, hand: Option<nat>)
    requires Inv(b, hand)
    ensures |b.settled| <= b.calls
  {
    assert b.settled.Keys <= Below(b.calls);
    Subset(b.settled.Keys, Below(b.calls));
  }
}
