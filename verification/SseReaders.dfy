/** The incremental reader (src/client/sse-reader.ts, readSse): what it yields depends only on
    the bytes it was sent, however they were cut into chunks. */
module SseReaders {
  import opened Common
  import opened Lines
  import opened Utf8
  import opened Sse

  /** How reading ended: with the input, with an oversized frame, or with broken UTF-8. */
  datatype Status = Ended | Overflowed | BadText

  /** What the decoder makes of a sequence of chunks, up to the first that it rejects. */
  datatype Reception = Reception(text: string, rest: Decoder, complete: bool)

  function Received(d: Decoder, chunks: seq<seq<byte>>): Reception
    decreases |chunks|
  {
    if chunks == [] then Reception("", d, true)
    else
      match Decode(d, chunks[0])
      case Malformed => Reception("", d, false)
      case Text(x, e) =>
        var more := Received(e, chunks[1..]);
        Reception(x + more.text, more.rest, more.complete)
  }

  function Joint(chunks: seq<seq<byte>>): seq<byte> {
    if chunks == [] then [] else chunks[0] + Joint(chunks[1..])
  }

  /** Chunks that decode as a whole decode one by one, to the same text. */
  lemma {:induction false} ReceivedIsJoint(d: Decoder, chunks: seq<seq<byte>>)
    ensures Received(d, chunks).complete <==> Decode(d, Joint(chunks)).Text?
    ensures match Decode(d, Joint(chunks))
            case Malformed => true
            case Text(x, e) => Received(d, chunks) == Reception(x, e, true)
    decreases |chunks|
  {
    if chunks != [] {
      DecodeConcat(d, chunks[0], Joint(chunks[1..]));
      match Decode(d, chunks[0])
      case Malformed =>
      case Text(x, e) => ReceivedIsJoint(e, chunks[1..]);
    }
  }

  // ---------------------------------------------------------------- the reader

  /** The frame under construction: the variables that a blank line resets. */
  datatype Partial = Partial(event: string, id: Option<string>, data: seq<string>, bytes: nat)

  const NOTHING := Partial("message", None, [], 0)

  /** The variables hold the fields of the lines since the last blank one. */
  ghost predicate Fields(block: seq<string>, p: Partial, limit: nat) {
    && p == Partial(EventOf(StrippedAll(block)), IdOf(StrippedAll(block)), DataOf(StrippedAll(block)), Weight(block))
    && p.bytes <= limit
  }

  /** What the rest of the text adds, in the middle of a block. */
  ghost function Ahead(block: seq<string>, text: string, limit: nat): Outcome {
    Continue(block, Complete(text), Unfinished(text), limit)
  }

  /** One line that is not blank. */
  method TakeField(p: Partial, raw: string, bytes: nat, limit: nat, ghost block: seq<string>) returns (q: Partial)
    requires Fields(block, p, limit) && Stripped(raw) != "" && bytes == p.bytes + ByteLength(raw) + 1 <= limit
    ensures Fields(block + [raw], q, limit)
  {
    var line := Stripped(raw);
    StrippedAppend(block, raw);
    WeightAppend(block, raw);
    q := p.(bytes := bytes);
    if line[0] == ':' {
      return;
    }
    var field, value := Name(line), Value(line);
    if field == "event" {
      q := q.(event := value);
    }
    if field == "id" && '\0' !in value {
      q := q.(id := Some(value));
    }
    if field == "data" {
      q := q.(data := q.data + [value]);
    }
  }

  /** The inner loop: all complete lines of the buffer.  `later` is what is still to come. */
  method TakeLines(text: string, start: Partial, limit: nat, ghost first: seq<string>, ghost later: string)
    returns (frames: seq<Frame>, buffer: string, p: Partial, overflow: bool, ghost block: seq<string>)
    requires Fields(first, start, limit)
    ensures overflow ==> Ahead(first, text + later, limit) == Outcome(frames, true)
    ensures !overflow ==> Ahead(first, text + later, limit) == Prefixed(frames, Ahead(block, buffer + later, limit))
    ensures !overflow ==> '\n' !in buffer && Fields(block, p, limit)
  {
    frames, buffer, p, block, overflow := [], text, start, first, false;
    hide Complete, Unfinished, Fields, Prefixed;
    PrefixedNone(Ahead(first, text + later, limit));
    while true
      invariant Fields(block, p, limit)
      invariant Ahead(first, text + later, limit) == Prefixed(frames, Ahead(block, buffer + later, limit))
      decreases |buffer|
    {
      var newline := IndexOfNewline(buffer);
      if newline == None {
        return;
      }
      var raw := buffer[..newline.value];
      ghost var text := buffer + later;
      buffer := buffer[newline.value + 1..];
      assert text == raw + "\n" + (buffer + later);
      var bytes := p.bytes + ByteLength(raw) + 1;
      AheadLine(block, raw, buffer + later, limit);
      BytesOf(block, p, raw, limit);
      if bytes > limit {
        overflow := true;
        PrefixedOver(frames);
        return;
      }
      if Stripped(raw) == "" {
        ghost var before := frames;
        if p.data != [] {
          frames := frames + [Frame(p.event, Joined(p.data), p.id)];
        }
        FrameIsYielded(block, p, before, limit);
        PrefixedTwice(before, FramesOf(StrippedAll(block)), Ahead([], buffer + later, limit));
        p, block := NOTHING, [];
        NothingYet(limit);
      } else {
        p := TakeField(p, raw, bytes, limit, block);
        block := block + [raw];
      }
    }
  }

  lemma PrefixedNone(o: Outcome)
    ensures Prefixed([], o) == o
  {
  }

  lemma PrefixedOver(frames: seq<Frame>)
    ensures Prefixed(frames, Outcome([], true)) == Outcome(frames, true)
  {
  }

  lemma NothingYet(limit: nat)
    ensures Fields([], NOTHING, limit)
  {
  }

  lemma BytesOf(block: seq<string>, p: Partial, raw: string, limit: nat)
    requires Fields(block, p, limit)
    ensures p.bytes + ByteLength(raw) + 1 == Weight(block + [raw])
  {
    WeightAppend(block, raw);
  }

  lemma FrameIsYielded(block: seq<string>, p: Partial, before: seq<Frame>, limit: nat)
    requires Fields(block, p, limit)
    ensures before + FramesOf(StrippedAll(block))
         == if p.data != [] then before + [Frame(p.event, Joined(p.data), p.id)] else before
  {
  }

  /** What the next complete line does. */
  lemma AheadLine(block: seq<string>, raw: string, text: string, limit: nat)
    requires '\n' !in raw
    ensures Ahead(block, raw + "\n" + text, limit) ==
            if Weight(block + [raw]) > limit then Outcome([], true)
            else if Stripped(raw) == "" then Prefixed(FramesOf(StrippedAll(block)), Ahead([], text, limit))
            else Ahead(block + [raw], text, limit)
  {
    FirstLine(raw, text);
    hide Complete, Unfinished;
    assert ([raw] + Complete(text))[1..] == Complete(text);
  }

  /** What reading these chunks must come to, block by block from the text they decode to. */
  ghost predicate Reads(chunks: seq<seq<byte>>, limit: nat, frames: seq<Frame>, status: Status) {
    var input := Received(START, chunks);
    var outcome := Meaning(input.text, limit);
    && frames == outcome.frames
    && status == if outcome.overflow then Overflowed else if input.complete && Clean(input.rest) then Ended else BadText
  }

  /** Everything that is yielded, and how it ends; `limit` is the bound on one frame. */
  method ReadSse(chunks: seq<seq<byte>>, limit: nat) returns (frames: seq<Frame>, status: Status)
    ensures Reads(chunks, limit, frames, status)
  {
    frames := [];
    var decoder, buffer, p := START, "", NOTHING;
    ghost var block: seq<string> := [];
    ghost var input := Received(START, chunks);
    ghost var outcome := Meaning(input.text, limit);
    AheadIsMeaning(input.text, limit);
    PrefixedNone(outcome);
    NothingYet(limit);
    hide Meaning, Ahead, Fields, Prefixed, Decode;
    assert "" + input.text == input.text && chunks[0..] == chunks;
    for i := 0 to |chunks|
      invariant Fields(block, p, limit) && '\n' !in buffer
      invariant p.bytes + ByteLength(buffer) <= limit
      invariant input.rest == Received(decoder, chunks[i..]).rest && input.complete == Received(decoder, chunks[i..]).complete
      invariant outcome == Prefixed(frames, Ahead(block, buffer + Received(decoder, chunks[i..]).text, limit))
    {
      assert chunks[i..][0] == chunks[i] && chunks[i..][1..] == chunks[i + 1..];
      match Decode(decoder, chunks[i])
      case Malformed =>
        assert buffer + "" == buffer;
        AtEnd(block, p, buffer, frames, limit);
        return frames, BadText;
      case Text(text, rest) =>
        decoder := rest;
        ghost var later := Received(decoder, chunks[i + 1..]).text;
        assert buffer + (text + later) == (buffer + text) + later;
        ghost var before := frames;
        var yielded, overflow;
        ghost var whole := Ahead(block, (buffer + text) + later, limit);
        yielded, buffer, p, overflow, block := TakeLines(buffer + text, p, limit, block, later);
        frames := frames + yielded;
        if overflow {
          Appended(before, yielded, whole, Outcome([], true));
          return frames, Overflowed;
        }
        Appended(before, yielded, whole, Ahead(block, buffer + later, limit));
        if p.bytes + ByteLength(buffer) > limit {
          StillTooHeavy(block, p, buffer, later, limit);
          PrefixedOver(frames);
          return frames, Overflowed;
        }
    }
    assert chunks[|chunks|..] == [] && buffer + "" == buffer;
    AtEnd(block, p, buffer, frames, limit);
    status := if Clean(decoder) then Ended else BadText;
  }

  lemma AheadIsMeaning(text: string, limit: nat)
    ensures Ahead([], text, limit) == Meaning(text, limit)
  {
    ContinueIsInterpret([], Complete(text), Unfinished(text), limit);
    assert [] + Complete(text) == Complete(text);
  }

  lemma AtEnd(block: seq<string>, p: Partial, buffer: string, frames: seq<Frame>, limit: nat)
    requires Fields(block, p, limit) && '\n' !in buffer && p.bytes + ByteLength(buffer) <= limit
    ensures Prefixed(frames, Ahead(block, buffer, limit)) == Outcome(frames, false)
  {
    NoLine(buffer);
  }

  lemma Appended(before: seq<Frame>, yielded: seq<Frame>, whole: Outcome, rest: Outcome)
    requires whole == Prefixed(yielded, rest) || (rest == Outcome([], true) && whole == Outcome(yielded, true))
    ensures Prefixed(before, whole) == Prefixed(before + yielded, rest)
    ensures rest == Outcome([], true) ==> Prefixed(before, whole) == Outcome(before + yielded, true)
  {
    PrefixedTwice(before, yielded, rest);
  }

  lemma StillTooHeavy(block: seq<string>, p: Partial, buffer: string, later: string, limit: nat)
    requires Fields(block, p, limit) && '\n' !in buffer && p.bytes + ByteLength(buffer) > limit
    ensures Ahead(block, buffer + later, limit) == Outcome([], true)
  {
    PartialTooHeavy(block, buffer, later, limit);
  }

  lemma NoLine(text: string)
    requires '\n' !in text
    ensures Complete(text) == [] && Unfinished(text) == text
  {
  }

  lemma WeightAppend(block: seq<string>, raw: string)
    ensures Weight(block + [raw]) == Weight(block) + ByteLength(raw) + 1
  {
    assert (block + [raw])[..|block|] == block;
  }

  lemma StrippedAppend(block: seq<string>, raw: string)
    ensures var all, line := StrippedAll(block + [raw]), Stripped(raw);
      && EventOf(all) == (if Name(line) == "event" then Value(line) else EventOf(StrippedAll(block)))
      && IdOf(all) == (if Name(line) == "id" && '\0' !in Value(line) then Some(Value(line)) else IdOf(StrippedAll(block)))
      && DataOf(all) == DataOf(StrippedAll(block)) + (if Name(line) == "data" then [Value(line)] else [])
    ensures Stripped(raw) != "" && Stripped(raw)[0] == ':' ==> Name(Stripped(raw)) == ""
  {
    assert StrippedAll(block + [raw])[..|block|] == StrippedAll(block);
  }

  lemma PrefixedTwice(a: seq<Frame>, b: seq<Frame>, o: Outcome)
    ensures Prefixed(a, Prefixed(b, o)) == Prefixed(a + b, o)
  {
    assert a + (b + o.frames) == (a + b) + o.frames;
  }

  /** What does not fit before the newline has come will not fit afterwards. */
  lemma PartialTooHeavy(block: seq<string>, buffer: string, later: string, limit: nat)
    requires '\n' !in buffer && Weight(block) + ByteLength(buffer) > limit
    ensures Ahead(block, buffer + later, limit) == Outcome([], true)
  {
    var text := buffer + later;
    match IndexOfNewline(text)
    case None =>
      NoLine(text);
      ByteLengthConcat(buffer, later);
    case Some(k) =>
      assert k >= |buffer| by {
        assert forall j :: 0 <= j < |buffer| ==> text[j] == buffer[j];
      }
      assert text[..k] == buffer + later[..k - |buffer|];
      ByteLengthConcat(buffer, later[..k - |buffer|]);
      SplitOff(text, k);
      WeightAppend(block, text[..k]);
  }

  /** However the same decodable bytes are cut, the reader yields the same frames and ends the same way. */
  lemma OutcomeIgnoresChunks(a: seq<seq<byte>>, b: seq<seq<byte>>)
    requires Joint(a) == Joint(b) && Decode(START, Joint(a)).Text?
    ensures Received(START, a) == Received(START, b)
  {
    ReceivedIsJoint(START, a);
    ReceivedIsJoint(START, b);
  }
}
