/** The printer (src/transport/sse.ts) and its reader undo each other: for every sequence of
    printed frames and heartbeats, cut into chunks anywhere. */
module SseWriters {
  import opened Common
  import opened Lines
  import opened Utf8
  import opened Sse
  import opened SseReaders
  import opened SseSizes

  const MAX_STREAM_BYTES: nat := 4 * 1024 * 1024
  const HEARTBEAT := ": heartbeat\n\n"

  function Header(name: string, value: string): string {
    name + ": " + value
  }

  /** A line of its own for the id, if there is one, for the event and for the printed data. */
  function Printed(f: Frame): string {
    if HasId(f) then Header("id", f.id.value) + "\n" + Tail(f) else Tail(f)
  }

  predicate HasId(f: Frame) {
    f.id.Some? && f.id.value != ""
  }

  function Tail(f: Frame): string {
    Header("event", f.event) + "\n" + (Header("data", f.data) + "\n" + "\n")
  }

  /** Refuses what the reader would refuse. */
  function EncodeSse(f: Frame, limit: nat): (r: Result<string, Error>)
    ensures r.Ok? <==> |Encode(Printed(f))| <= limit
  {
    EncodeLength(Printed(f));
    if ByteLength(Printed(f)) > limit then Err(StreamOverflow) else Ok(Printed(f))
  }

  /** No newline, and no carriage return that would be taken for a part of the line's end. */
  predicate Plain(text: string) {
    '\n' !in text && Stripped(text) == text
  }

  /** What the printer must be given for the reader to give it back. */
  predicate Sendable(f: Frame) {
    && Plain(f.event) && Plain(f.data)
    && (f.id.Some? ==> f.id.value != "" && Plain(f.id.value) && '\0' !in f.id.value)
  }

  predicate OnOneLine(f: Frame) {
    '\n' !in f.event && '\n' !in f.data && (f.id.Some? ==> '\n' !in f.id.value)
  }

  /** What arrives of a frame whose parts are single lines. */
  function AsRead(f: Frame): Frame {
    Frame(Stripped(f.event), Stripped(f.data),
          if f.id.Some? && f.id.value != "" && '\0' !in f.id.value then Some(Stripped(f.id.value)) else None)
  }

  // ---------------------------------------------------------------- reading one piece

  lemma FieldLine(name: string, value: string)
    requires ':' !in name
    ensures var line := name + ": " + value; Name(line) == name && Value(line) == value
  {
    var line := name + ": " + value;
    ColonAfter(name, " " + value);
    assert line == name + ":" + (" " + value);
    hide IndexOfColon;
    assert line[..|name|] == name && line[|name| + 1] == ' ' && line[|name| + 2..] == value;
  }

  /** The end of the line is cut off the value. */
  lemma StrippedLine(name: string, value: string)
    requires name != ""
    ensures Stripped(name + ": " + value) == name + ": " + Stripped(value)
  {
    var line := name + ": " + value;
    if value != "" {
      assert line[|line| - 1] == value[|value| - 1];
      assert line[..|line| - 1] == name + ": " + value[..|value| - 1];
    } else {
      assert line[|line| - 1] == ' ';
    }
  }

  /** One field line, anywhere in a block. */
  lemma HeaderAhead(block: seq<string>, name: string, value: string, text: string, limit: nat)
    requires name != "" && '\n' !in name && '\n' !in value
    ensures Weight(block + [Header(name, value)]) <= limit ==>
              Ahead(block, Header(name, value) + "\n" + text, limit) == Ahead(block + [Header(name, value)], text, limit)
  {
    StrippedLine(name, value);
    hide Ahead, Stripped;
    AheadLine(block, Header(name, value), text, limit);
  }

  lemma BlankAhead(block: seq<string>, text: string, limit: nat)
    ensures Weight(block + [""]) <= limit ==>
              Ahead(block, "\n" + text, limit) == Prefixed(FramesOf(StrippedAll(block)), Ahead([], text, limit))
  {
    assert "" + "\n" + text == "\n" + text;
    hide Ahead;
    AheadLine(block, "", text, limit);
  }

  /** The header lines of a frame, in the order they are printed. */
  function Block(f: Frame): seq<string> {
    IdLines(f) + [Header("event", f.event)] + [Header("data", f.data)]
  }

  function IdLines(f: Frame): seq<string> {
    if HasId(f) then [Header("id", f.id.value)] else []
  }

  lemma PrintedWeight(f: Frame)
    ensures Weight(Block(f) + [""]) == ByteLength(Printed(f))
  {
    var e, d := Header("event", f.event), Header("data", f.data);
    WeightAppend(Block(f), "");
    WeightAppend(IdLines(f) + [e], d);
    WeightAppend(IdLines(f), e);
    LineLength(d, "\n");
    LineLength(e, d + "\n" + "\n");
    assert ByteLength("\n") == 1;
    if HasId(f) {
      var i := Header("id", f.id.value);
      LineLength(i, Tail(f));
      assert [i] == [] + [i];
      WeightAppend([], i);
    }
    hide ByteLength, Header, Weight;
    assert Weight(IdLines(f)) == ByteLength(Printed(f)) - ByteLength(Tail(f)) by {
      assert Weight([]) == 0;
    }
  }

  lemma LineLength(line: string, more: string)
    ensures ByteLength(line + "\n" + more) == ByteLength(line) + 1 + ByteLength(more)
  {
    ByteLengthConcat(line + "\n", more);
    ByteLengthConcat(line, "\n");
    assert ByteLength("\n") == 1;
  }

  /** The lines of a printed frame mean that frame. */
  lemma BlockMeans(f: Frame)
    ensures FramesOf(StrippedAll(Block(f))) == [AsRead(f)]
  {
    var e, d := Header("event", f.event), Header("data", f.data);
    StrippedLine("event", f.event);
    StrippedLine("data", f.data);
    FieldLine("event", Stripped(f.event));
    FieldLine("data", Stripped(f.data));
    IdMeans(f);
    hide Name, Value, Stripped;
    StrippedAppend(IdLines(f) + [e], d);
    StrippedAppend(IdLines(f), e);
  }

  lemma IdMeans(f: Frame)
    ensures var all := StrippedAll(IdLines(f));
      EventOf(all) == "message" && DataOf(all) == [] && IdOf(all) == AsRead(f).id
  {
    assert StrippedAll([]) == [];
    if HasId(f) {
      var i := Header("id", f.id.value);
      StrippedLine("id", f.id.value);
      FieldLine("id", Stripped(f.id.value));
      NulSurvives(f.id.value);
      hide Name, Value, Stripped;
      assert [i] == [] + [i];
      StrippedAppend([], i);
    }
  }

  lemma NulSurvives(text: string)
    ensures '\0' in Stripped(text) <==> '\0' in text
  {
    if '\0' in text && Stripped(text) != text {
      assert text == Stripped(text) + "\r";
    }
  }

  lemma TailAhead(f: Frame, text: string, limit: nat)
    requires OnOneLine(f) && Weight(Block(f) + [""]) <= limit
    ensures Ahead(IdLines(f), Tail(f) + text, limit) == Prefixed([AsRead(f)], Ahead([], text, limit))
  {
    var e, d := Header("event", f.event), Header("data", f.data);
    BlockMeans(f);
    WeightAppend(IdLines(f) + [e], d);
    WeightAppend(Block(f), "");
    hide Ahead, Weight, ByteLength, FramesOf, Header, Prefixed, IdLines, AsRead;
    HeaderAhead(IdLines(f), "event", f.event, d + "\n" + ("\n" + text), limit);
    HeaderAhead(IdLines(f) + [e], "data", f.data, "\n" + text, limit);
    BlankAhead(Block(f), text, limit);
    assert Tail(f) + text == e + "\n" + (d + "\n" + ("\n" + text));
  }

  lemma IdAhead(f: Frame, text: string, limit: nat)
    requires HasId(f) && '\n' !in f.id.value && Weight(IdLines(f)) <= limit
    ensures Ahead([], Header("id", f.id.value) + "\n" + text, limit) == Ahead(IdLines(f), text, limit)
  {
    assert [Header("id", f.id.value)] == [] + [Header("id", f.id.value)];
    HeaderAhead([], "id", f.id.value, text, limit);
    hide Ahead, Header, Weight;
  }

  lemma FrameAhead(f: Frame, text: string, limit: nat)
    requires OnOneLine(f) && ByteLength(Printed(f)) <= limit
    ensures Ahead([], Printed(f) + text, limit) == Prefixed([AsRead(f)], Ahead([], text, limit))
  {
    PrintedWeight(f);
    IdLinesWeigh(f);
    hide Ahead, Weight, ByteLength, Prefixed, AsRead, Tail, Header, Block;
    TailAhead(f, text, limit);
    if HasId(f) {
      IdAhead(f, Tail(f) + text, limit);
      assert Printed(f) + text == Header("id", f.id.value) + "\n" + (Tail(f) + text);
    }
  }

  lemma IdLinesWeigh(f: Frame)
    ensures Weight(IdLines(f)) <= Weight(Block(f) + [""])
  {
    WeightAppend(IdLines(f) + [Header("event", f.event)], Header("data", f.data));
    WeightAppend(IdLines(f), Header("event", f.event));
    WeightAppend(Block(f), "");
  }

  /** A comment on its own, with the blank line after it, changes nothing. */
  lemma CommentAhead(line: string, text: string, limit: nat)
    requires line != "" && line[0] == ':' && '\n' !in line && Stripped(line) == line && ByteLength(line) + 2 <= limit
    ensures Ahead([], line + "\n\n" + text, limit) == Ahead([], text, limit)
  {
    CommentBlock(line);
    AheadLine([], line, "\n" + text, limit);
    hide Ahead, Weight, Stripped, StrippedAll, FramesOf, Prefixed, ByteLength;
    TwoNewlines(line, text);
    assert [] + [line] == [line];
    BlankAhead([line], text, limit);
    PrefixedNone(Ahead([], text, limit));
  }

  lemma TwoNewlines(line: string, text: string)
    ensures line + "\n\n" + text == line + "\n" + ("\n" + text)
  {
  }

  lemma CommentBlock(line: string)
    requires line != "" && line[0] == ':' && Stripped(line) == line
    ensures Weight([line]) == ByteLength(line) + 1 && Weight([line] + [""]) == ByteLength(line) + 2 && FramesOf(StrippedAll([line])) == []
  {
    WeightAppend([], line);
    assert [] + [line] == [line];
    WeightAppend([line], "");
    StrippedAppend([], line);
    assert StrippedAll([]) == [];
  }

  lemma HeartbeatAhead(text: string, limit: nat)
    requires limit >= 13
    ensures Ahead([], HEARTBEAT + text, limit) == Ahead([], text, limit)
  {
    hide Ahead, ByteLength;
    var line := HeartbeatLine();
    hide Stripped;
    CommentAhead(line, text, limit);
  }

  lemma HeartbeatLine() returns (line: string)
    ensures HEARTBEAT == line + "\n\n" && |line| == 11 && line[0] == ':' && '\n' !in line && Stripped(line) == line
    ensures ByteLength(line) == 11
  {
    hide ByteLength;
    line := HEARTBEAT[..11];
    AsciiLength(line);
  }

  lemma {:induction false} AsciiLength(text: string)
    requires forall c <- text :: c as int < 0x80
    ensures ByteLength(text) == |text|
  {
    if text != "" {
      assert text[0] in text && forall c <- text[1..] :: c in text;
      AsciiLength(text[1..]);
    }
  }

  // ---------------------------------------------------------------- whole streams

  /** What the server writes, one after the other. */
  datatype Piece = Sent(frame: Frame) | Heartbeat

  function WireText(pieces: seq<Piece>): string {
    if pieces == [] then ""
    else (match pieces[0] case Sent(f) => Printed(f) case Heartbeat => HEARTBEAT) + WireText(pieces[1..])
  }

  function FramesSent(pieces: seq<Piece>): seq<Frame> {
    if pieces == [] then []
    else (match pieces[0] case Sent(f) => [f] case Heartbeat => []) + FramesSent(pieces[1..])
  }

  function AllAsRead(frames: seq<Frame>): (r: seq<Frame>)
    ensures |r| == |frames| && forall i :: 0 <= i < |r| ==> r[i] == AsRead(frames[i])
  {
    seq(|frames|, i requires 0 <= i < |frames| => AsRead(frames[i]))
  }

  predicate Fits(frames: seq<Frame>, limit: nat) {
    limit >= 13 && forall f <- frames :: EncodeSse(f, limit).Ok?
  }

  lemma {:induction false} WireMeans(pieces: seq<Piece>, limit: nat)
    requires Fits(FramesSent(pieces), limit) && forall f <- FramesSent(pieces) :: OnOneLine(f)
    ensures Ahead([], WireText(pieces), limit) == Outcome(AllAsRead(FramesSent(pieces)), false)
  {
    if pieces == [] {
      NoLine("");
    } else {
      var rest, text := FramesSent(pieces[1..]), WireText(pieces[1..]);
      assert forall f <- rest :: f in FramesSent(pieces);
      hide Ahead, OnOneLine, Encode, ByteLength, Printed, AsRead;
      WireMeans(pieces[1..], limit);
      match pieces[0]
      case Sent(f) =>
        FirstSent(f, rest, text, limit);
      case Heartbeat =>
        HeartbeatAhead(text, limit);
        assert [] + rest == rest;
    }
  }

  lemma FirstSent(f: Frame, rest: seq<Frame>, text: string, limit: nat)
    requires OnOneLine(f) && EncodeSse(f, limit).Ok? && Ahead([], text, limit) == Outcome(AllAsRead(rest), false)
    ensures Ahead([], Printed(f) + text, limit) == Outcome(AllAsRead([f] + rest), false)
  {
    EncodeLength(Printed(f));
    hide Ahead, Encode, ByteLength, Printed, AsRead;
    FrameAhead(f, text, limit);
    assert AllAsRead([f] + rest) == [AsRead(f)] + AllAsRead(rest);
  }

  /** Any bytes of the text, cut anywhere, decode to it. */
  lemma CutText(text: string, chunks: seq<seq<byte>>)
    requires Joint(chunks) == Encode(text) && (text == "" || text[0] != BYTE_ORDER_MARK)
    ensures Received(START, chunks).text == text && Received(START, chunks).complete && Clean(Received(START, chunks).rest)
  {
    DecodeEncode(START, text);
    ReceivedIsJoint(START, chunks);
  }

  lemma WireBegins(pieces: seq<Piece>)
    ensures WireText(pieces) == "" || WireText(pieces)[0] in {'i', 'e', ':'}
  {
    if pieces != [] && pieces[0].Sent? {
      var f := pieces[0].frame;
      assert Printed(f) != "" && Printed(f)[0] in {'i', 'e'};
    }
  }

  /** Frames that are accepted by the printer, with heartbeats between them and cut into
      chunks at any byte, are read back exactly, and the reader never overflows. */
  lemma RoundTrip(pieces: seq<Piece>, chunks: seq<seq<byte>>, limit: nat)
    requires Fits(FramesSent(pieces), limit) && Joint(chunks) == Encode(WireText(pieces))
    requires forall f <- FramesSent(pieces) :: Sendable(f)
    ensures Reads(chunks, limit, FramesSent(pieces), Ended)
  {
    var text := WireText(pieces);
    WireBegins(pieces);
    CutText(text, chunks);
    forall f <- FramesSent(pieces) ensures OnOneLine(f) && AsRead(f) == f {
    }
    WireMeans(pieces, limit);
    AheadIsMeaning(text, limit);
    assert AllAsRead(FramesSent(pieces)) == FramesSent(pieces);
    hide Meaning, Ahead;
  }

  // ---------------------------------------------------------------- what does not survive

  predicate Wellread(f: Frame) {
    '\n' !in f.event && (f.id.Some? ==> '\n' !in f.id.value && '\0' !in f.id.value)
  }

  lemma {:induction false} FieldsAreWellread(block: seq<string>)
    requires forall l <- block :: '\n' !in l
    ensures '\n' !in EventOf(block) && (IdOf(block).Some? ==> '\n' !in IdOf(block).value && '\0' !in IdOf(block).value)
  {
    if block != [] {
      var n := |block| - 1;
      assert block[n] in block && forall l <- block[..n] :: l in block;
      FieldsAreWellread(block[..n]);
      ValueIsOnOneLine(block[n]);
      hide Name, Value;
    }
  }

  lemma ValueIsOnOneLine(line: string)
    requires '\n' !in line
    ensures '\n' !in Value(line)
  {
    hide IndexOfColon;
  }

  /** The reader never yields an event type or an id with a newline, nor an id with a NUL. */
  lemma {:induction false} FramesAreWellread(lines: seq<string>, unfinished: string, limit: nat)
    requires forall l <- lines :: '\n' !in l
    ensures forall f <- Interpret(lines, unfinished, limit).frames :: Wellread(f)
    decreases |lines|
  {
    var blank := IndexOfBlank(lines);
    hide IndexOfBlank, Stripped, Weight, Wellread, FramesOf;
    if blank.Some? {
      var k := blank.value;
      BlockIsWellread(lines[..k]);
      assert forall l <- lines[k + 1..] :: l in lines;
      FramesAreWellread(lines[k + 1..], unfinished, limit);
    }
  }

  lemma BlockIsWellread(lines: seq<string>)
    requires forall l <- lines :: '\n' !in l
    ensures forall f <- FramesOf(StrippedAll(lines)) :: Wellread(f)
  {
    var block := StrippedAll(lines);
    forall i | 0 <= i < |block| ensures '\n' !in block[i] {
      assert lines[i] in lines && block[i] == Stripped(lines[i]);
    }
    assert forall l <- block :: '\n' !in l;
    hide Stripped, EventOf, IdOf, DataOf, Joined;
    FieldsAreWellread(block);
  }

  /** A newline in the data is lost: what follows it is another line. */
  lemma DataIsCut(f: Frame)
    requires '\n' !in f.event && (f.id.Some? ==> '\n' !in f.id.value) && '\n' in f.data
    ensures DataSize(Complete(Printed(f))) <= |f.data|
  {
    TailIsCut(f);
    hide Complete, Given, DataSize, Header, Tail;
    if HasId(f) {
      OtherField("id", f.id.value);
      IdOnOneLine(f.id.value);
      OneMoreLine(Header("id", f.id.value), Tail(f));
    }
  }

  lemma OneMoreLine(line: string, more: string)
    requires '\n' !in line
    ensures DataSize(Complete(line + "\n" + more)) == Given(line) + DataSize(Complete(more))
  {
    FirstLine(line, more);
    hide Complete, Given, DataSize;
    SizesConcat([line], Complete(more));
    SingleSize(line);
  }

  lemma TailIsCut(f: Frame)
    requires '\n' !in f.event && '\n' in f.data
    ensures DataSize(Complete(Tail(f))) <= |f.data|
  {
    var k := IndexOfNewline(f.data).value;
    var a, b := f.data[..k], f.data[k + 1..];
    var e, d, more := Header("event", f.event), Header("data", a), b + "\n" + "\n";
    assert Tail(f) == e + "\n" + (d + "\n" + more) by {
      assert f.data == a + "\n" + b;
    }
    assert '\n' !in e && '\n' !in d;
    hide Complete, Given, DataSize, Header, Tail, IndexOfNewline;
    OtherField("event", f.event);
    FirstGives(a);
    RestIsLess(b);
    OneMoreLine(e, d + "\n" + more);
    OneMoreLine(d, more);
  }

  lemma IdOnOneLine(id: string)
    requires '\n' !in id
    ensures '\n' !in Header("id", id)
  {
  }

  lemma SingleSize(line: string)
    ensures DataSize([line]) == Given(line)
  {
    assert [line][..0] == [];
    hide Given;
  }

  lemma OtherField(name: string, value: string)
    requires name == "event" || name == "id"
    ensures Given(Header(name, value)) == 0
  {
    StrippedLine(name, value);
    FieldLine(name, Stripped(value));
  }

  lemma FirstGives(value: string)
    ensures Given(Header("data", value)) <= |value| + 1
  {
    StrippedLine("data", value);
    FieldLine("data", Stripped(value));
  }

  /** A printed frame that fits is read back as itself exactly when its parts are plain. */
  lemma SurvivesIff(f: Frame, limit: nat)
    requires EncodeSse(f, limit).Ok?
    ensures Meaning(Printed(f), limit) == Outcome([f], false) <==> Sendable(f)
  {
    EncodeLength(Printed(f));
    if '\n' !in f.event && (f.id.Some? ==> '\n' !in f.id.value) && '\n' in f.data {
      DataIsCut(f);
      FramesSize(Complete(Printed(f)), Unfinished(Printed(f)), limit);
      assert TotalData([f]) == |f.data| + 1 + TotalData([]) by {
        assert [f][1..] == [];
      }
      hide Interpret, Complete, DataSize, Printed;
    } else if OnOneLine(f) {
      FrameAhead(f, "", limit);
      NoLine("");
      assert Ahead([], "", limit) == Outcome([], false);
      assert Printed(f) + "" == Printed(f);
      AheadIsMeaning(Printed(f), limit);
      assert [AsRead(f)] == [f] <==> AsRead(f) == f;
    } else {
      FramesAreWellread(Complete(Printed(f)), Unfinished(Printed(f)), limit);
      assert f in [f];
    }
  }
}
