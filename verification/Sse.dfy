/** Server-sent events: the printer (src/transport/sse.ts) and the incremental reader
    (src/client/sse-reader.ts).  Interpretation follows the subset of the WHATWG HTML Living
    Standard, sections 9.2.5 and 9.2.6, that the reader implements. */
module Sse {
  import opened Common
  import opened Lines
  import opened Utf8

  datatype Frame = Frame(event: string, data: string, id: Option<string>)

  // ---------------------------------------------------------------- what a block of lines means

  function IndexOfColon(line: string): (r: Option<nat>)
    ensures r.Some? ==> r.value < |line| && line[r.value] == ':' && ':' !in line[..r.value]
    ensures r == None ==> ':' !in line
  {
    if line == "" then None
    else if line[0] == ':' then Some(0)
    else
      match IndexOfColon(line[1..])
      case None => None
      case Some(k) =>
        assert line[..k + 1] == [line[0]] + line[1..][..k];
        Some(k + 1)
  }

  function Name(line: string): string {
    match IndexOfColon(line)
    case None => line
    case Some(k) => line[..k]
  }

  function Value(line: string): string {
    match IndexOfColon(line)
    case None => ""
    case Some(k) => if k + 1 < |line| && line[k + 1] == ' ' then line[k + 2..] else line[k + 1..]
  }

  /** A line without a colon is a name without a value; otherwise the name goes up to the first colon,
      and one space after it does not belong to the value. */
  lemma LineMeans(line: string, name: string, value: string)
    ensures ':' !in line ==> Name(line) == line && Value(line) == ""
    ensures ':' !in name && line == name + ":" + value ==>
              Name(line) == name && Value(line) == if value != "" && value[0] == ' ' then value[1..] else value
  {
    if ':' !in name && line == name + ":" + value {
      ColonAfter(name, value);
      assert line[..|name|] == name && line[|name| + 1..] == value;
      hide IndexOfColon;
      if value != "" {
        assert line[|name| + 1] == value[0] && line[|name| + 2..] == value[1..];
      }
    }
  }

  lemma {:induction false} ColonAfter(name: string, rest: string)
    requires ':' !in name
    ensures IndexOfColon(name + ":" + rest) == Some(|name|)
  {
    var line := name + ":" + rest;
    if name != "" {
      assert line[0] == name[0] && line[1..] == name[1..] + ":" + rest;
      ColonAfter(name[1..], rest);
    }
  }

  /** The last event type of a block of lines. */
  function EventOf(block: seq<string>): string {
    if block == [] then "message"
    else if Name(block[|block| - 1]) == "event" then Value(block[|block| - 1])
    else EventOf(block[..|block| - 1])
  }

  /** The last id without a NUL. */
  function IdOf(block: seq<string>): Option<string> {
    if block == [] then None
    else if Name(block[|block| - 1]) == "id" && '\0' !in Value(block[|block| - 1]) then Some(Value(block[|block| - 1]))
    else IdOf(block[..|block| - 1])
  }

  function DataOf(block: seq<string>): seq<string> {
    if block == [] then []
    else DataOf(block[..|block| - 1]) + if Name(block[|block| - 1]) == "data" then [Value(block[|block| - 1])] else []
  }

  function Joined(parts: seq<string>): string {
    if parts == [] then "" else if |parts| == 1 then parts[0] else parts[0] + "\n" + Joined(parts[1..])
  }

  /** The parts with newlines between them. */
  lemma {:induction false} JoinedMeans(parts: seq<string>, last: string)
    ensures Joined(parts + [last]) == if parts == [] then last else Joined(parts) + "\n" + last
  {
    if parts != [] {
      assert (parts + [last])[1..] == parts[1..] + [last];
      JoinedMeans(parts[1..], last);
      if |parts| > 1 {
        assert parts[0] + "\n" + (Joined(parts[1..]) + "\n" + last) == parts[0] + "\n" + Joined(parts[1..]) + "\n" + last;
      }
    }
  }

  /** What one more line does to a block: a field of the last line wins, data adds up, and everything
      else, comments included, is without effect. */
  lemma BlockGrows(block: seq<string>, line: string)
    ensures EventOf(block + [line]) == if Name(line) == "event" then Value(line) else EventOf(block)
    ensures IdOf(block + [line]) == if Name(line) == "id" && '\0' !in Value(line) then Some(Value(line)) else IdOf(block)
    ensures DataOf(block + [line]) == DataOf(block) + if Name(line) == "data" then [Value(line)] else []
  {
    assert (block + [line])[..|block|] == block;
  }

  /** There is one frame exactly if there is data. */
  lemma FrameOfBlock(block: seq<string>)
    ensures DataOf(block) == [] <==> FramesOf(block) == []
    ensures FramesOf(block) != [] ==>
              |FramesOf(block)| == 1 && FramesOf(block)[0].event == EventOf(block) && FramesOf(block)[0].id == IdOf(block)
              && FramesOf(block)[0].data == Joined(DataOf(block))
    ensures EventOf([]) == "message" && IdOf([]) == None && DataOf([]) == []
  {
  }

  /** A block without data is no frame. */
  function FramesOf(block: seq<string>): seq<Frame> {
    if DataOf(block) == [] then [] else [Frame(EventOf(block), Joined(DataOf(block)), IdOf(block))]
  }

  // ---------------------------------------------------------------- what a text means

  /** The frames of a text and whether some frame, finished or not, was too large. */
  datatype Outcome = Outcome(frames: seq<Frame>, overflow: bool)

  function StrippedAll(lines: seq<string>): (r: seq<string>)
    ensures |r| == |lines| && forall i :: 0 <= i < |r| ==> r[i] == Stripped(lines[i])
  {
    seq(|lines|, i requires 0 <= i < |lines| => Stripped(lines[i]))
  }

  function Weight(lines: seq<string>): nat {
    if lines == [] then 0 else Weight(lines[..|lines| - 1]) + ByteLength(lines[|lines| - 1]) + 1
  }

  function IndexOfBlank(lines: seq<string>): (r: Option<nat>)
    ensures r.Some? ==> r.value < |lines| && Stripped(lines[r.value]) == ""
                        && forall i :: 0 <= i < r.value ==> Stripped(lines[i]) != ""
    ensures r == None ==> forall i :: 0 <= i < |lines| ==> Stripped(lines[i]) != ""
  {
    if lines == [] then None
    else if Stripped(lines[0]) == "" then Some(0)
    else
      match IndexOfBlank(lines[1..])
      case None => assert forall i :: 0 < i < |lines| ==> lines[i] == lines[1..][i - 1]; None
      case Some(k) => assert forall i :: 0 < i < |lines| ==> lines[i] == lines[1..][i - 1]; Some(k + 1)
  }

  /** Blocks of lines end with a blank line, which counts; each must fit the limit, and so
      must what is left unfinished. */
  function Interpret(lines: seq<string>, unfinished: string, limit: nat): Outcome
    decreases |lines|
  {
    match IndexOfBlank(lines)
    case None => Outcome([], Weight(lines) + ByteLength(unfinished) > limit)
    case Some(k) =>
      if Weight(lines[..k + 1]) > limit then Outcome([], true)
      else Prefixed(FramesOf(StrippedAll(lines[..k])), Interpret(lines[k + 1..], unfinished, limit))
  }

  function Prefixed(frames: seq<Frame>, o: Outcome): Outcome {
    Outcome(frames + o.frames, o.overflow)
  }

  function Meaning(text: string, limit: nat): Outcome {
    Interpret(Complete(text), Unfinished(text), limit)
  }

  // ---------------------------------------------------------------- the reader's order of doing it

  /** The same, one line at a time, with the lines of the block so far. */
  function Continue(block: seq<string>, lines: seq<string>, unfinished: string, limit: nat): Outcome
    decreases |lines|
  {
    if lines == [] then Outcome([], Weight(block) + ByteLength(unfinished) > limit)
    else if Weight(block + [lines[0]]) > limit then Outcome([], true)
    else if Stripped(lines[0]) == "" then Prefixed(FramesOf(StrippedAll(block)), Continue([], lines[1..], unfinished, limit))
    else Continue(block + [lines[0]], lines[1..], unfinished, limit)
  }

  lemma WeightConcat(a: seq<string>, b: seq<string>)
    ensures Weight(a + b) == Weight(a) + Weight(b)
  {
    if b == [] {
      assert a + b == a;
    } else {
      assert (a + b)[..|a + b| - 1] == a + b[..|b| - 1];
      WeightConcat(a, b[..|b| - 1]);
    }
  }

  /** Line by line or block by block, the outcome is the same. */
  lemma {:induction false} ContinueIsInterpret(block: seq<string>, lines: seq<string>, unfinished: string, limit: nat)
    requires forall l <- block :: Stripped(l) != ""
    requires Weight(block) <= limit
    ensures Continue(block, lines, unfinished, limit) == Interpret(block + lines, unfinished, limit)
    decreases |lines|
  {
    var all := block + lines;
    if lines == [] {
      assert all == block;
    } else {
      assert block + [lines[0]] + lines[1..] == all;
      if Stripped(lines[0]) == "" {
        assert IndexOfBlank(all) == Some(|block|) by {
          assert all[|block|] == lines[0];
          assert forall i :: 0 <= i < |block| ==> all[i] == block[i];
        }
        assert all[..|block| + 1] == block + [lines[0]] && all[|block| + 1..] == lines[1..] && all[..|block|] == block;
        if Weight(block + [lines[0]]) <= limit {
          ContinueIsInterpret([], lines[1..], unfinished, limit);
          assert [] + lines[1..] == lines[1..];
        }
      } else if Weight(block + [lines[0]]) <= limit {
        ContinueIsInterpret(block + [lines[0]], lines[1..], unfinished, limit);
      } else {
        TooHeavy(block + [lines[0]], lines[1..], unfinished, limit);
      }
    }
  }

  /** A block that is too large already stays too large. */
  lemma TooHeavy(block: seq<string>, lines: seq<string>, unfinished: string, limit: nat)
    requires forall l <- block :: Stripped(l) != ""
    requires Weight(block) > limit
    ensures Interpret(block + lines, unfinished, limit) == Outcome([], true)
  {
    var all := block + lines;
    WeightConcat(block, lines);
    var blank := IndexOfBlank(all);
    hide IndexOfBlank, Weight, Stripped, FramesOf, StrippedAll;
    if blank.Some? {
      var k := blank.value;
      BlankComesLater(block, lines, k);
      assert all[..k + 1] == block + lines[..k + 1 - |block|];
      WeightConcat(block, lines[..k + 1 - |block|]);
    }
  }

  lemma BlankComesLater(block: seq<string>, lines: seq<string>, k: nat)
    requires forall l <- block :: Stripped(l) != ""
    requires k < |block + lines| && Stripped((block + lines)[k]) == ""
    ensures |block| <= k
  {
    assert forall i :: 0 <= i < |block| ==> (block + lines)[i] in block;
  }

  // ---------------------------------------------------------------- carriage returns

  function WithReturns(lines: seq<string>): (r: seq<string>)
    ensures |r| == |lines| && forall i :: 0 <= i < |r| ==> r[i] == lines[i] + "\r"
  {
    seq(|lines|, i requires 0 <= i < |lines| => lines[i] + "\r")
  }

  lemma {:induction false} ReturnsWeigh(lines: seq<string>)
    ensures Weight(lines) <= Weight(WithReturns(lines))
  {
    if lines != [] {
      var n := |lines| - 1;
      ReturnsWeigh(lines[..n]);
      assert WithReturns(lines)[..n] == WithReturns(lines[..n]);
      ByteLengthConcat(lines[n], "\r");
    }
  }

  /** Lines may end with a carriage return before the newline: as long as everything fits the limit,
      they mean the same frames. */
  lemma {:induction false} ReturnsDoNotMatter(lines: seq<string>, unfinished: string, limit: nat)
    requires forall l <- lines :: Stripped(l) == l
    requires !Interpret(WithReturns(lines), unfinished, limit).overflow
    ensures Interpret(lines, unfinished, limit) == Interpret(WithReturns(lines), unfinished, limit)
    decreases |lines|
  {
    SameBlank(lines);
    InterpretStep(lines, unfinished, limit);
    InterpretStep(WithReturns(lines), unfinished, limit);
    hide Interpret, IndexOfBlank, FramesOf, Weight, StrippedAll, Stripped, ByteLength, WithReturns;
    if IndexOfBlank(lines) == None {
      ReturnsWeigh(lines);
    } else {
      var k := IndexOfBlank(lines).value;
      BlockWithReturns(lines, k);
      ReturnsDoNotMatter(lines[k + 1..], unfinished, limit);
    }
  }

  lemma BlockWithReturns(lines: seq<string>, k: nat)
    requires forall l <- lines :: Stripped(l) == l
    requires k < |lines|
    ensures StrippedAll(WithReturns(lines)[..k]) == StrippedAll(lines[..k])
    ensures Weight(lines[..k + 1]) <= Weight(WithReturns(lines)[..k + 1])
    ensures WithReturns(lines)[k + 1..] == WithReturns(lines[k + 1..])
    ensures forall l <- lines[k + 1..] :: Stripped(l) == l
  {
    ReturnsCut(lines, k + 1);
    ReturnsCut(lines, k);
    hide Weight, StrippedAll, Stripped, WithReturns;
    assert forall l <- lines[..k] :: l in lines;
    assert forall l <- lines[k + 1..] :: l in lines;
    SameStripped(lines[..k]);
    ReturnsWeigh(lines[..k + 1]);
  }

  lemma InterpretStep(lines: seq<string>, unfinished: string, limit: nat)
    ensures IndexOfBlank(lines) == None ==>
              Interpret(lines, unfinished, limit) == Outcome([], Weight(lines) + ByteLength(unfinished) > limit)
    ensures IndexOfBlank(lines).Some? ==>
              var k := IndexOfBlank(lines).value;
              Interpret(lines, unfinished, limit) ==
              if Weight(lines[..k + 1]) > limit then Outcome([], true)
              else Prefixed(FramesOf(StrippedAll(lines[..k])), Interpret(lines[k + 1..], unfinished, limit))
  {
    hide IndexOfBlank, FramesOf, Weight, StrippedAll, Stripped, ByteLength, Prefixed;
  }

  lemma ReturnsCut(lines: seq<string>, k: nat)
    requires k <= |lines|
    ensures WithReturns(lines)[..k] == WithReturns(lines[..k]) && WithReturns(lines)[k..] == WithReturns(lines[k..])
  {
  }

  lemma SameStripped(lines: seq<string>)
    requires forall l <- lines :: Stripped(l) == l
    ensures StrippedAll(WithReturns(lines)) == StrippedAll(lines)
  {
    forall i | 0 <= i < |lines| ensures Stripped(lines[i] + "\r") == Stripped(lines[i]) {
      assert lines[i] in lines;
    }
  }

  lemma {:induction false} SameBlank(lines: seq<string>)
    requires forall l <- lines :: Stripped(l) == l
    ensures IndexOfBlank(WithReturns(lines)) == IndexOfBlank(lines)
  {
    if lines != [] {
      assert lines[0] in lines;
      assert Stripped(lines[0] + "\r") == lines[0];
      assert WithReturns(lines)[1..] == WithReturns(lines[1..]);
      hide Stripped;
      SameBlank(lines[1..]);
    }
  }
}
