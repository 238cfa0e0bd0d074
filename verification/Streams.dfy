/** The single-consumer bounded stream of src/protocol/stream.ts.

    Every method only requires `Valid()`, so what `Valid()` says holds after any
    interleaving of producer calls, consumer reads and closing.  The close
    callback is foreign code: `thrown` is what it throws if this call runs it. */
module Streams {
  import opened Common

  const MAX_STREAM_BYTES: nat := 4 * 1024 * 1024

  /** How one `next()` promise settles. */
  datatype ReadResult<+T> = Value(value: T) | Done | Rejected(error: Error)

  datatype Item<+T> = Item(value: T, bytes: nat)

  function Total<T>(queue: seq<Item<T>>): nat {
    if queue == [] then 0 else queue[0].bytes + Total(queue[1..])
  }

  function Values<T>(queue: seq<Item<T>>): (r: seq<T>)
    ensures |r| == |queue|
  {
    if queue == [] then [] else [queue[0].value] + Values(queue[1..])
  }

  /** The values handed out by the first `calls` calls of `next()`, in call order. */
  ghost function Handed<T>(settled: map<nat, ReadResult<T>>, calls: nat): seq<T> {
    if calls == 0 then []
    else
      var earlier := Handed(settled, calls - 1);
      if calls - 1 in settled && settled[calls - 1].Value?
      then earlier + [settled[calls - 1].value]
      else earlier
  }

  lemma {:induction false} TotalAppend<T>(queue: seq<Item<T>>, item: Item<T>)
    ensures Total(queue + [item]) == Total(queue) + item.bytes
  {
    if queue == [] {
      assert (queue + [item])[1..] == [];
    } else {
      assert (queue + [item])[1..] == queue[1..] + [item];
      TotalAppend(queue[1..], item);
    }
  }

  lemma {:induction false} ValuesAppend<T>(queue: seq<Item<T>>, item: Item<T>)
    ensures Values(queue + [item]) == Values(queue) + [item.value]
  {
    if queue == [] {
      assert (queue + [item])[1..] == [];
    } else {
      assert (queue + [item])[1..] == queue[1..] + [item];
      ValuesAppend(queue[1..], item);
    }
  }

  /** Settling read `r` changes what was handed out only by its own value,
      provided no later read was given a value. */
  lemma {:induction false} HandedSettle<T>(settled: map<nat, ReadResult<T>>, calls: nat, r: nat, result: ReadResult<T>)
    requires r < calls && r !in settled
    requires forall k :: r < k < calls && k in settled ==> !settled[k].Value?
    ensures Handed(settled[r := result], calls)
         == Handed(settled, calls) + if result.Value? then [result.value] else []
  {
    if r == calls - 1 {
      HandedFrame(settled, calls - 1, r, result);
    } else {
      HandedSettle(settled, calls - 1, r, result);
    }
  }

  lemma {:induction false} HandedFrame<T>(settled: map<nat, ReadResult<T>>, calls: nat, r: nat, result: ReadResult<T>)
    requires calls <= r
    ensures Handed(settled[r := result], calls) == Handed(settled, calls)
  {
    if calls > 0 {
      HandedFrame(settled, calls - 1, r, result);
    }
  }

  /** Promise k belongs to the k-th read.  Each is settled, except that of the waiting read,
      and the values handed out, in call order, are `delivered`. */
  ghost predicate Promises<T>(settled: map<nat, ReadResult<T>>, calls: nat, waiter: Option<nat>, delivered: seq<T>) {
    && (waiter.Some? ==> waiter.value < calls)
    && (forall r: nat :: r in settled <==> r < calls && waiter != Some(r))
    && (waiter.Some? ==> forall k :: waiter.value < k < calls && k in settled ==> !settled[k].Value?)
    && delivered == Handed(settled, calls)
  }

  ghost predicate ToldDone<T>(settled: map<nat, ReadResult<T>>) {
    exists r :: r in settled && settled[r] == Done
  }

  function Handout<T>(result: ReadResult<T>): seq<T> {
    if result.Value? then [result.value] else []
  }

  /** The waiting read is settled. */
  lemma SettleWaiter<T>(settled: map<nat, ReadResult<T>>, calls: nat, r: nat, delivered: seq<T>, result: ReadResult<T>)
    requires Promises(settled, calls, Some(r), delivered)
    ensures r !in settled
    ensures Promises(settled[r := result], calls, None, delivered + Handout(result))
    ensures ToldDone(settled[r := result]) ==> ToldDone(settled) || result == Done
  {
    HandedSettle(settled, calls, r, result);
    assert forall k :: k in settled[r := result] && k != r ==> settled[r := result][k] == settled[k];
  }

  /** A new read is settled at once; while another read waits it cannot get a value. */
  lemma SettleNew<T>(settled: map<nat, ReadResult<T>>, calls: nat, waiter: Option<nat>, delivered: seq<T>, result: ReadResult<T>)
    requires Promises(settled, calls, waiter, delivered)
    requires waiter.Some? ==> !result.Value?
    ensures calls !in settled
    ensures Promises(settled[calls := result], calls + 1, waiter, delivered + Handout(result))
    ensures ToldDone(settled[calls := result]) ==> ToldDone(settled) || result == Done
  {
    HandedFrame(settled, calls, calls, result);
    assert forall k :: k in settled[calls := result] && k != calls ==> settled[calls := result][k] == settled[k];
  }

  lemma StartWaiting<T>(settled: map<nat, ReadResult<T>>, calls: nat, delivered: seq<T>)
    requires Promises(settled, calls, None, delivered)
    ensures Promises(settled, calls + 1, Some(calls), delivered)
  {
  }

  /** The unread values and their bytes. */
  ghost predicate Held<T>(queue: seq<Item<T>>, bytes: nat, size: T -> nat) {
    && bytes == Total(queue)
    && forall item <- queue :: item.bytes == size(item.value)
  }

  lemma HeldAppend<T>(queue: seq<Item<T>>, bytes: nat, size: T -> nat, value: T)
    requires Held(queue, bytes, size)
    ensures Held(queue + [Item(value, size(value))], bytes + size(value), size)
    ensures Values(queue + [Item(value, size(value))]) == Values(queue) + [value]
  {
    TotalAppend(queue, Item(value, size(value)));
    ValuesAppend(queue, Item(value, size(value)));
  }

  lemma ValuesEmpty<T>()
    ensures Values<T>([]) == [] && forall size: T -> nat :: Held([], 0, size)
  {
  }

  lemma HeldShift<T>(queue: seq<Item<T>>, bytes: nat, size: T -> nat)
    requires Held(queue, bytes, size) && queue != []
    ensures queue[0].bytes <= bytes && Held(queue[1..], bytes - queue[0].bytes, size)
    ensures Values(queue) == [queue[0].value] + Values(queue[1..])
  {
  }

  class BufferedStream<T(!new)> {
    const limit: nat
    /** Buffer.byteLength(JSON.stringify(value)). */
    const size: T -> nat

    var queue: seq<Item<T>>
    var bytes: nat
    var ended: bool
    var failed: bool
    var error: Error
    /** The read whose promise is still open, if any. */
    var waiter: Option<nat>

    /** Calls of next() so far; call k owns promise k. */
    var calls: nat
    ghost var settled: map<nat, ReadResult<T>>
    /** The values those promises handed out, in call order. */
    ghost var delivered: seq<T>
    /** Values accepted by push, in order. */
    ghost var pushed: seq<T>
    /** Unread values were thrown away: the stream failed or its consumer closed it. */
    ghost var discarded: bool
    ghost var closeCalls: nat

    ghost predicate Valid()
      reads this
    {
      && Held(queue, bytes, size) && bytes <= limit
      && (waiter.Some? ==> !ended && queue == [])
      && (failed ==> discarded)
      && (discarded ==> ended && queue == [])
      && closeCalls == (if ended then 1 else 0)
      && Promises(settled, calls, waiter, delivered)
      && delivered <= pushed
      && (!discarded ==> delivered + Values(queue) == pushed)
      && (ToldDone(settled) ==> ended && (discarded || delivered == pushed))
    }

    constructor (limit: nat, size: T -> nat)
      ensures Valid() && this.limit == limit && this.size == size
      ensures queue == [] && pushed == [] && !ended && !failed && !discarded && calls == 0 && waiter == None
    {
      this.limit, this.size := limit, size;
      queue, bytes, ended, failed, error, waiter := [], 0, false, false, Foreign(0), None;
      calls, settled, delivered, pushed, discarded, closeCalls := 0, map[], [], [], false, 0;
    }

    /** Accepts a value unless that would put the unread bytes above the limit. */
    method Push(value: T, thrown: Option<Error>)
      requires Valid()
      modifies this
      ensures Valid() && calls == old(calls)
      ensures old(ended) ==>
        ended && failed == old(failed) && queue == old(queue) && pushed == old(pushed) && settled == old(settled)
        && discarded == old(discarded) && error == old(error)
      ensures !old(ended) && old(bytes) + size(value) <= limit ==>
        !ended && pushed == old(pushed) + [value] && waiter == None
        && (old(waiter).Some? ==> settled == old(settled)[old(waiter).value := Value(value)] && queue == [])
        && (old(waiter) == None ==> settled == old(settled) && queue == old(queue) + [Item(value, size(value))])
      ensures !old(ended) && old(bytes) + size(value) > limit ==>
        ended && failed && error == StreamOverflow && pushed == old(pushed)
        && settled == if old(waiter).Some? then old(settled)[old(waiter).value := Rejected(StreamOverflow)] else old(settled)
    {
      hide Held, Promises, ToldDone, Values;
      if ended {
        return;
      }
      var weight := size(value);
      if bytes + weight > limit {
        Fail(StreamOverflow, thrown);
        return;
      }
      pushed := pushed + [value];
      if waiter.Some? {
        SettleWaiter(settled, calls, waiter.value, delivered, Value(value));
        ValuesEmpty<T>();
        settled, delivered := settled[waiter.value := Value(value)], delivered + [value];
        waiter := None;
      } else {
        HeldAppend(queue, bytes, size, value);
        assert delivered + (Values(queue) + [value]) == (delivered + Values(queue)) + [value];
        queue := queue + [Item(value, weight)];
        bytes := bytes + weight;
      }
    }

    method Finish(thrown: Option<Error>)
      requires Valid()
      modifies this
      ensures Valid() && ended && pushed == old(pushed) && calls == old(calls)
      ensures old(ended) ==>
        failed == old(failed) && error == old(error) && queue == old(queue) && settled == old(settled) && discarded == old(discarded)
      ensures !old(ended) ==> failed == thrown.Some? && discarded == failed
      ensures !old(ended) && thrown.Some? ==> error == thrown.value
      ensures !old(ended) && thrown == None ==> queue == old(queue)
      ensures !old(ended) ==> waiter == None
      ensures !old(ended) ==>
        settled == if old(waiter).Some?
                   then old(settled)[old(waiter).value := if failed then Rejected(error) else Done]
                   else old(settled)
    {
      if ended {
        return;
      }
      ended := true;
      Settle(thrown);
    }

    method Fail(reason: Error, thrown: Option<Error>)
      requires Valid()
      modifies this
      ensures Valid() && ended && pushed == old(pushed) && calls == old(calls)
      ensures old(ended) ==>
        failed == old(failed) && error == old(error) && queue == old(queue) && settled == old(settled) && discarded == old(discarded)
      ensures !old(ended) ==> failed && error == reason && discarded && waiter == None
      ensures !old(ended) ==>
        settled == if old(waiter).Some? then old(settled)[old(waiter).value := Rejected(reason)] else old(settled)
    {
      if ended {
        return;
      }
      hide Held, Promises, ToldDone, Values;
      ValuesEmpty<T>();
      error, failed := reason, true;
      queue, bytes, discarded := [], 0, true;
      ended := true;
      Settle(thrown);
    }

    /** Runs the close callback, then settles the open read. */
    method Settle(thrown: Option<Error>)
      requires ended && closeCalls == 0 && Held(queue, bytes, size) && bytes <= limit
      requires waiter.Some? ==> queue == []
      requires failed ==> discarded
      requires discarded ==> queue == []
      requires Promises(settled, calls, waiter, delivered) && !ToldDone(settled)
      requires delivered <= pushed && (!discarded ==> delivered + Values(queue) == pushed)
      modifies this
      ensures Valid() && ended && pushed == old(pushed) && calls == old(calls) && waiter == None
      ensures failed == (old(failed) || thrown.Some?)
      ensures error == if !old(failed) && thrown.Some? then thrown.value else old(error)
      ensures thrown == None ==> queue == old(queue)
      ensures discarded == (old(discarded) || thrown.Some?)
      ensures settled == if old(waiter).Some?
                         then old(settled)[old(waiter).value := if failed then Rejected(error) else Done]
                         else old(settled)
    {
      hide Held, Promises, ToldDone, Values;
      ValuesEmpty<T>();
      closeCalls := closeCalls + 1;
      if thrown.Some? {
        if !failed {
          failed, error := true, thrown.value;
        }
        queue, bytes, discarded := [], 0, true;
      }
      if waiter.Some? {
        assert delivered + [] == delivered && (!discarded ==> delivered == pushed);
        var result := if failed then Rejected(error) else Done;
        SettleWaiter(settled, calls, waiter.value, delivered, result);
        settled := settled[waiter.value := result];
        waiter := None;
      }
    }

    /** Issues one read; `r` is its promise. */
    method Next() returns (r: nat)
      requires Valid()
      modifies this
      ensures Valid() && r == old(calls) && calls == r + 1
      ensures pushed == old(pushed) && ended == old(ended) && failed == old(failed) && discarded == old(discarded)
      ensures old(failed) ==> settled == old(settled)[r := Rejected(error)]
      ensures !old(failed) && old(queue) != [] ==>
        settled == old(settled)[r := Value(old(queue)[0].value)] && queue == old(queue)[1..]
      ensures !old(failed) && old(queue) == [] && ended ==> settled == old(settled)[r := Done]
      ensures !ended && old(queue) == [] && old(waiter) == None ==> waiter == Some(r) && settled == old(settled)
      ensures !ended && old(waiter).Some? ==>
        waiter == old(waiter) && r in settled && settled[r].Rejected? && settled == old(settled)[r := settled[r]]
    {
      if !failed && queue != [] {
        r := Shift();
        return;
      }
      hide Held, Promises, ToldDone, Values;
      r := calls;
      calls := calls + 1;
      if failed {
        SettleNew(settled, r, waiter, delivered, Rejected(error));
        settled := settled[r := Rejected(error)];
      } else if ended {
        ValuesEmpty<T>();
        SettleNew(settled, r, waiter, delivered, Done);
        settled := settled[r := Done];
      } else if waiter.Some? {
        SettleNew(settled, r, waiter, delivered, Rejected(Foreign(1)));
        settled := settled[r := Rejected(Foreign(1))];
      } else {
        StartWaiting(settled, r, delivered);
        waiter := Some(r);
      }
    }

    /** The read of a stream that has unread values: it takes the oldest. */
    method Shift() returns (r: nat)
      requires Valid() && !failed && queue != []
      modifies this
      ensures Valid() && r == old(calls) && calls == r + 1
      ensures pushed == old(pushed) && ended == old(ended) && failed == old(failed) && discarded == old(discarded)
      ensures settled == old(settled)[r := Value(old(queue)[0].value)] && queue == old(queue)[1..]
      ensures delivered == old(delivered) + [old(queue)[0].value] && waiter == old(waiter)
    {
      hide Held, Promises, ToldDone, Values;
      r := calls;
      calls := calls + 1;
      var item := queue[0];
      SettleNew(settled, r, waiter, delivered, Value(item.value));
      HeldShift(queue, bytes, size);
      assert delivered + Values(queue) == (delivered + [item.value]) + Values(queue[1..]);
      settled, delivered := settled[r := Value(item.value)], delivered + [item.value];
      queue := queue[1..];
      bytes := bytes - item.bytes;
    }

    /** The consumer stops reading: unread values are dropped. */
    method Close(thrown: Option<Error>)
      requires Valid()
      modifies this
      ensures Valid() && ended && queue == [] && pushed == old(pushed) && calls == old(calls) && discarded
      ensures old(ended) ==> failed == old(failed) && settled == old(settled)
      ensures !old(ended) ==> failed == thrown.Some? && waiter == None
      ensures !old(ended) ==>
        settled == if old(waiter).Some?
                   then old(settled)[old(waiter).value := if failed then Rejected(error) else Done]
                   else old(settled)
    {
      hide Held, Promises, ToldDone, Values;
      ValuesEmpty<T>();
      queue, bytes := [], 0;
      if !ended {
        ended := true;
        discarded := true;
        Settle(thrown);
      }
      discarded := true;
    }
  }
}
