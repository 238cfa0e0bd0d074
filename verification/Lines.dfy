/** Lines of text that arrives in pieces: what the readers of src/client/sse-reader.ts and
    src/worker/pi-rpc-worker.ts share. */
module Lines {
  import opened Common

  /** The position of the first newline. */
  function IndexOfNewline(text: string): (r: Option<nat>)
    ensures r.Some? ==> r.value < |text| && text[r.value] == '\n' && '\n' !in text[..r.value]
    ensures r == None ==> '\n' !in text
  {
    if text == "" then None
    else if text[0] == '\n' then Some(0)
    else
      match IndexOfNewline(text[1..])
      case None => None
      case Some(k) =>
        assert text[..k + 1] == [text[0]] + text[1..][..k];
        Some(k + 1)
  }

  /** The complete lines of a text, without their newlines. */
  function Complete(text: string): (r: seq<string>)
    ensures forall l <- r :: '\n' !in l
    decreases |text|
  {
    match IndexOfNewline(text)
    case None => []
    case Some(k) => [text[..k]] + Complete(text[k + 1..])
  }

  /** What follows the last newline. */
  function Unfinished(text: string): string
    decreases |text|
  {
    match IndexOfNewline(text)
    case None => text
    case Some(k) => Unfinished(text[k + 1..])
  }

  /** A carriage return before the newline belongs to the line's end. */
  function Stripped(raw: string): string {
    if raw != "" && raw[|raw| - 1] == '\r' then raw[..|raw| - 1] else raw
  }

  lemma {:induction false} NewlineAfter(line: string, more: string)
    requires '\n' !in line
    ensures IndexOfNewline(line + "\n" + more) == Some(|line|)
  {
    var text := line + "\n" + more;
    if line != "" {
      assert text[0] == line[0] && text[1..] == line[1..] + "\n" + more;
      NewlineAfter(line[1..], more);
    }
  }

  lemma FirstLine(line: string, more: string)
    requires '\n' !in line
    ensures IndexOfNewline(line + "\n" + more) == Some(|line|)
    ensures Complete(line + "\n" + more) == [line] + Complete(more)
    ensures Unfinished(line + "\n" + more) == Unfinished(more)
  {
    var text := line + "\n" + more;
    NewlineAfter(line, more);
    hide IndexOfNewline;
    assert text[..|line|] == line && text[|line| + 1..] == more;
    SplitOff(text, |line|);
  }

  /** Splitting is a matter of the whole text: it can be done piece by piece. */
  lemma {:induction false} CompleteConcat(a: string, b: string)
    ensures Complete(a + b) == Complete(a) + Complete(Unfinished(a) + b)
    ensures Unfinished(a + b) == Unfinished(Unfinished(a) + b)
    decreases |a|
  {
    hide IndexOfNewline;
    match IndexOfNewline(a)
    case None =>
      assert Complete(a) + Complete(a + b) == Complete(a + b);
    case Some(k) =>
      var line, rest := a[..k], a[k + 1..];
      assert a + b == line + "\n" + (rest + b);
      FirstLine(line, rest + b);
      CompleteConcat(rest, b);
      hide Complete, Unfinished;
      SplitOff(a, k);
      assert [line] + (Complete(rest) + Complete(Unfinished(rest) + b))
          == ([line] + Complete(rest)) + Complete(Unfinished(rest) + b);
  }

  lemma SplitOff(a: string, k: nat)
    requires IndexOfNewline(a) == Some(k)
    ensures k < |a| && Complete(a) == [a[..k]] + Complete(a[k + 1..]) && Unfinished(a) == Unfinished(a[k + 1..])
  {
    hide IndexOfNewline;
  }
}
