/** How much data the lines of a text can give: a newline inside printed data is never made up for. */
module SseSizes {
  import opened Common
  import opened Lines
  import opened Sse

  /** What a line adds to the data of its frame, with the newline that joins it. */
  function Given(line: string): (r: nat)
    ensures r <= |line|
  {
    if Name(Stripped(line)) == "data" then |Value(Stripped(line))| + 1 else 0
  }

  function DataSize(lines: seq<string>): nat {
    if lines == [] then 0 else DataSize(lines[..|lines| - 1]) + Given(lines[|lines| - 1])
  }

  function Letters(lines: seq<string>): nat {
    if lines == [] then 0 else Letters(lines[..|lines| - 1]) + |lines[|lines| - 1]|
  }

  function TotalData(frames: seq<Frame>): nat {
    if frames == [] then 0 else |frames[0].data| + 1 + TotalData(frames[1..])
  }

  lemma {:induction false} SizesConcat(a: seq<string>, b: seq<string>)
    ensures DataSize(a + b) == DataSize(a) + DataSize(b)
    ensures Letters(a + b) == Letters(a) + Letters(b)
  {
    if b == [] {
      assert a + b == a;
    } else {
      assert (a + b)[..|a + b| - 1] == a + b[..|b| - 1];
      SizesConcat(a, b[..|b| - 1]);
      hide Given;
    }
  }

  lemma {:induction false} DataIsLetters(lines: seq<string>)
    ensures DataSize(lines) <= Letters(lines)
  {
    if lines != [] {
      DataIsLetters(lines[..|lines| - 1]);
      hide Given;
    }
  }

  /** Every character of a text is in a line, ends one, or is left over. */
  lemma {:induction false} LettersOf(text: string)
    ensures Letters(Complete(text)) + |Complete(text)| + |Unfinished(text)| == |text|
    decreases |text|
  {
    hide IndexOfNewline;
    match IndexOfNewline(text)
    case None =>
    case Some(k) =>
      LettersOf(text[k + 1..]);
      SizesConcat([text[..k]], Complete(text[k + 1..]));
      assert [text[..k]][..0] == [];
  }

  function Sizes(parts: seq<string>): nat {
    if parts == [] then 0 else Sizes(parts[..|parts| - 1]) + |parts[|parts| - 1]| + 1
  }

  lemma {:induction false} JoinedSize(parts: seq<string>)
    requires parts != []
    ensures |Joined(parts)| + 1 == Sizes(parts)
  {
    if |parts| == 1 {
      assert parts[..0] == [];
    } else {
      JoinedSize(parts[1..]);
      SizesFirst(parts);
    }
  }

  lemma {:induction false} SizesFirst(parts: seq<string>)
    requires parts != []
    ensures Sizes(parts) == |parts[0]| + 1 + Sizes(parts[1..])
  {
    if |parts| == 1 {
      assert parts[..0] == [] && parts[1..] == [];
    } else {
      SizesFirst(parts[..|parts| - 1]);
      assert parts[..|parts| - 1][1..] == parts[1..][..|parts| - 2];
    }
  }

  lemma {:induction false} BlockSize(lines: seq<string>)
    ensures Sizes(DataOf(StrippedAll(lines))) == DataSize(lines)
  {
    if lines != [] {
      var n := |lines| - 1;
      var all, last := StrippedAll(lines), Stripped(lines[n]);
      assert all[..n] == StrippedAll(lines[..n]) && all[n] == last;
      hide Name, Value, Stripped, StrippedAll;
      BlockSize(lines[..n]);
      assert DataOf(all[..n]) + [] == DataOf(all[..n]);
      SizesAppend(DataOf(all[..n]), Value(last));
    }
  }

  lemma SizesAppend(parts: seq<string>, part: string)
    ensures Sizes(parts + [part]) == Sizes(parts) + |part| + 1
  {
    assert (parts + [part])[..|parts|] == parts;
  }

  lemma FrameSize(lines: seq<string>)
    ensures TotalData(FramesOf(StrippedAll(lines))) <= DataSize(lines)
  {
    BlockSize(lines);
    if DataOf(StrippedAll(lines)) != [] {
      JoinedSize(DataOf(StrippedAll(lines)));
    }
    hide EventOf, IdOf, DataOf, Joined, StrippedAll, DataSize, Sizes;
  }

  lemma {:induction false} TotalConcat(a: seq<Frame>, b: seq<Frame>)
    ensures TotalData(a + b) == TotalData(a) + TotalData(b)
  {
    if a == [] {
      assert a + b == b;
    } else {
      assert (a + b)[1..] == a[1..] + b;
      TotalConcat(a[1..], b);
    }
  }

  /** The frames of a text have no more data than its lines give. */
  lemma {:induction false} FramesSize(lines: seq<string>, unfinished: string, limit: nat)
    ensures TotalData(Interpret(lines, unfinished, limit).frames) <= DataSize(lines)
    decreases |lines|
  {
    var blank := IndexOfBlank(lines);
    hide IndexOfBlank, FramesOf, Given, Stripped;
    if blank.Some? && Weight(lines[..blank.value + 1]) <= limit {
      var k := blank.value;
      FramesSize(lines[k + 1..], unfinished, limit);
      FrameSize(lines[..k]);
      assert lines == lines[..k] + ([lines[k]] + lines[k + 1..]);
      SizesConcat(lines[..k], [lines[k]] + lines[k + 1..]);
      SizesConcat([lines[k]], lines[k + 1..]);
      TotalConcat(FramesOf(StrippedAll(lines[..k])), Interpret(lines[k + 1..], unfinished, limit).frames);
      hide Weight, DataSize, TotalData;
    }
  }

  /** Lines that go on after the first newline of the data give less than the rest of the data. */
  lemma RestIsLess(rest: string)
    ensures DataSize(Complete(rest + "\n" + "\n")) <= |rest|
  {
    var text := rest + "\n" + "\n";
    LettersOf(text);
    DataIsLetters(Complete(text));
    CompleteConcat(rest + "\n", "\n");
    EndsLine(rest);
    EndsLine(Unfinished(rest + "\n"));
    hide Complete, Unfinished, DataSize, Letters;
  }

  lemma EndsLine(text: string)
    ensures |Complete(text + "\n")| >= 1
  {
    assert (text + "\n")[|text|] == '\n';
    hide IndexOfNewline;
  }
}
