/**
 The sender's input: a byte stream cut into lines, however it arrives in chunks. What happens to a line
 (it parses and the sender takes it) may depend on every line handed over before it.
 */
module JsonlSplitter {
  import opened Collections
  import opened ByteChunks
  import opened RemoteActionReceipt

  const MAX_JSONL_LINE_BYTES := 8_192
  const NEWLINE: Byte := 0x0a

  type Line = seq<Byte>

  /** What a line does after the lines before it: the sender takes it, it is not JSON, or it fails. */
  datatype Reception = Taken | NotJson | NotTaken

  datatype Ending = Done | Oversized | Malformed | Undelivered | Empty

  /** The lines handed to the sender, all taken but perhaps the last, and how the whole ended. */
  datatype Result = Result(handed: seq<Line>, ending: Ending)

  function FirstNewline(bytes: seq<Byte>): (n: Option<nat>)
    ensures n.Some? ==> n.value < |bytes| && bytes[n.value] == NEWLINE && NEWLINE !in bytes[..n.value]
    ensures n.None? ==> NEWLINE !in bytes
  {
    if bytes == [] then None
    else if bytes[0] == NEWLINE then Some(0)
    else
      var rest := FirstNewline(bytes[1..]);
      assert bytes == [bytes[0]] + bytes[1..];
      if rest.None? then None
      else
        assert bytes[..rest.value + 1] == [bytes[0]] + bytes[1..][..rest.value];
        Some(rest.value + 1)
  }

  /** The end a line brings about, if it brings one. */
  function LineEnding(handed: seq<Line>, line: Line, receive: (seq<Line>, Line) -> Reception): Option<Ending> {
    if line == [] then None
    else if |line| > MAX_JSONL_LINE_BYTES then Some(Oversized)
    else
      match receive(handed, line)
      case Taken => None
      case NotJson => Some(Malformed)
      case NotTaken => Some(Undelivered)
  }

  /** The lines handed over once this one has been dealt with; only a JSON line reaches the sender. */
  function HandedAfter(handed: seq<Line>, line: Line, receive: (seq<Line>, Line) -> Reception): seq<Line> {
    if line == [] || |line| > MAX_JSONL_LINE_BYTES || receive(handed, line).NotJson? then handed else handed + [line]
  }

  /** The whole stream at once: every line in order, then the unterminated rest. */
  function Process(bytes: seq<Byte>, handed: seq<Line>, receive: (seq<Line>, Line) -> Reception): Result
    decreases |bytes|
  {
    var n := FirstNewline(bytes);
    var line := if n.Some? then bytes[..n.value] else bytes;
    var ending, after := LineEnding(handed, line, receive), HandedAfter(handed, line, receive);
    if ending.Some? then Result(after, ending.value)
    else if n.Some? then Process(bytes[n.value + 1..], after, receive)
    else Result(after, if after == [] then Empty else Done)
  }

  lemma {:induction false} FirstIsFirst(bytes: seq<Byte>, more: seq<Byte>)
    ensures FirstNewline(bytes).Some? ==> FirstNewline(bytes + more) == FirstNewline(bytes)
    ensures FirstNewline(bytes).None? && FirstNewline(bytes + more).Some?
            ==> FirstNewline(bytes + more).value >= |bytes|
  {
    if bytes != [] {
      assert (bytes + more)[1..] == bytes[1..] + more;
      FirstIsFirst(bytes[1..], more);
    }
  }

  lemma {:induction false} NewlineFound(line: Line, more: seq<Byte>)
    requires NEWLINE !in line
    ensures FirstNewline(line + [NEWLINE] + more) == Some(|line|)
  {
    var bytes := line + [NEWLINE] + more;
    if line != [] {
      assert bytes[1..] == line[1..] + [NEWLINE] + more && bytes[0] == line[0];
      assert line[0] in line;
      NewlineFound(line[1..], more);
    }
  }

  /** A terminated line is dealt with, then the rest. */
  lemma LineThenRest(line: Line, rest: seq<Byte>, handed: seq<Line>, receive: (seq<Line>, Line) -> Reception)
    requires NEWLINE !in line
    ensures Process(line + [NEWLINE] + rest, handed, receive)
            == if LineEnding(handed, line, receive).Some?
               then Result(HandedAfter(handed, line, receive), LineEnding(handed, line, receive).value)
               else Process(rest, HandedAfter(handed, line, receive), receive)
  {
    hide FirstNewline, LineEnding, HandedAfter;
    var bytes := line + [NEWLINE] + rest;
    NewlineFound(line, rest);
    assert bytes[..|line|] == line && bytes[|line| + 1..] == rest;
  }

  /** A complete line at the front is dealt with before anything that follows it. */
  lemma LineFirst(bytes: seq<Byte>, more: seq<Byte>, handed: seq<Line>, receive: (seq<Line>, Line) -> Reception)
    requires FirstNewline(bytes).Some?
    ensures var n := FirstNewline(bytes).value;
            var line := bytes[..n];
            Process(bytes + more, handed, receive)
            == if LineEnding(handed, line, receive).Some?
               then Result(HandedAfter(handed, line, receive), LineEnding(handed, line, receive).value)
               else Process(bytes[n + 1..] + more, HandedAfter(handed, line, receive), receive)
  {
    hide Process, LineEnding, HandedAfter;
    var n := FirstNewline(bytes).value;
    assert bytes + more == bytes[..n] + [NEWLINE] + (bytes[n + 1..] + more);
    LineThenRest(bytes[..n], bytes[n + 1..] + more, handed, receive);
  }

  /** An unterminated rest that is too long already decides the end, whatever follows. */
  lemma OversizedEarly(bytes: seq<Byte>, more: seq<Byte>, handed: seq<Line>, receive: (seq<Line>, Line) -> Reception)
    requires FirstNewline(bytes).None? && |bytes| > MAX_JSONL_LINE_BYTES
    ensures Process(bytes + more, handed, receive) == Result(handed, Oversized)
  {
    FirstIsFirst(bytes, more);
  }

  lemma {:induction false} JoinedSplits(chunks: seq<seq<Byte>>, n: nat)
    requires n <= |chunks|
    ensures Joined(chunks) == Joined(chunks[..n]) + Joined(chunks[n..])
    decreases |chunks|
  {
    if n == |chunks| {
      assert chunks[..n] == chunks;
    } else {
      var front, last := chunks[..|chunks| - 1], chunks[|chunks| - 1];
      JoinedSplits(front, n);
      assert front[..n] == chunks[..n] && chunks[n..][..|chunks[n..]| - 1] == front[n..];
      assert chunks[n..][|chunks[n..]| - 1] == last;
    }
  }

  lemma JoinedStep(chunks: seq<seq<Byte>>, n: nat)
    requires n < |chunks|
    ensures Joined(chunks[n..]) == chunks[n] + Joined(chunks[n + 1..])
  {
    JoinedSplits(chunks[n..], 1);
    assert chunks[n..][..1] == [chunks[n]] && chunks[n..][1..] == chunks[n + 1..];
    assert Joined([chunks[n]]) == chunks[n] by { JoinedOne(chunks[n]); }
  }

  lemma JoinedOne(chunk: seq<Byte>)
    ensures Joined([chunk]) == chunk
  {
    assert |[chunk][..0]| == 0;
  }

  /** The unterminated rest at the end of the stream is dealt with like any line. */
  lemma LastLineEnds(bytes: seq<Byte>, handed: seq<Line>, receive: (seq<Line>, Line) -> Reception)
    requires FirstNewline(bytes).None?
    ensures var ending, after := LineEnding(handed, bytes, receive), HandedAfter(handed, bytes, receive);
            Process(bytes, handed, receive)
            == Result(after, if ending.Some? then ending.value else if after == [] then Empty else Done)
  {
  }

  /**
   Line by line as the chunks arrive. The result is that of the whole stream at once, so it is the same
   for every way to cut a stream into chunks.
   */
  method SendLiveActivityJsonl(chunks: seq<seq<Byte>>, receive: (seq<Line>, Line) -> Reception) returns (result: Result)
    ensures result == Process(Joined(chunks), [], receive)
  {
    hide Process, LineEnding, HandedAfter, FirstNewline;
    var pending: seq<Byte> := [];
    var handed: seq<Line> := [];
    var i := 0;
    assert chunks[0..] == chunks && [] + Joined(chunks) == Joined(chunks);
    while i < |chunks|
      invariant 0 <= i <= |chunks|
      invariant FirstNewline(pending).None?
      invariant Process(Joined(chunks), [], receive) == Process(pending + Joined(chunks[i..]), handed, receive)
    {
      JoinedStep(chunks, i);
      assert pending + (chunks[i] + Joined(chunks[i + 1..])) == (pending + chunks[i]) + Joined(chunks[i + 1..]);
      pending := pending + chunks[i];
      i := i + 1;
      ghost var more := Joined(chunks[i..]);
      var newline := FirstNewline(pending);
      while newline.Some?
        invariant newline == FirstNewline(pending)
        invariant Process(Joined(chunks), [], receive) == Process(pending + more, handed, receive)
        decreases |pending|
      {
        var line := pending[..newline.value];
        LineFirst(pending, more, handed, receive);
        var ending := LineEnding(handed, line, receive);
        handed := HandedAfter(handed, line, receive);
        if ending.Some? { return Result(handed, ending.value); }
        pending := pending[newline.value + 1..];
        newline := FirstNewline(pending);
      }
      if |pending| > MAX_JSONL_LINE_BYTES {
        OversizedEarly(pending, more, handed, receive);
        return Result(handed, Oversized);
      }
    }
    assert chunks[i..] == [] && pending + [] == pending;
    LastLineEnds(pending, handed, receive);
    var ending, after := LineEnding(handed, pending, receive), HandedAfter(handed, pending, receive);
    if ending.Some? { return Result(after, ending.value); }
    return Result(after, if after == [] then Empty else Done);
  }

  // What a whole stream does, line by line.

  /** Lines written the way the relay writes them, each with its newline. */
  function Written(lines: seq<Line>): seq<Byte> {
    if lines == [] then [] else lines[0] + [NEWLINE] + Written(lines[1..])
  }

  predicate ProperLine(line: Line) { 0 < |line| <= MAX_JSONL_LINE_BYTES && NEWLINE !in line }

  /** The lines that are not blank, in order. */
  function NonBlank(lines: seq<Line>): seq<Line> {
    if lines == [] then [] else (if lines[0] == [] then [] else [lines[0]]) + NonBlank(lines[1..])
  }

  /** Every line is blank, or proper and taken after the ones before it. */
  ghost predicate AllTaken(lines: seq<Line>, handed: seq<Line>, receive: (seq<Line>, Line) -> Reception)
    decreases |lines|
  {
    lines != [] ==>
      if lines[0] == [] then AllTaken(lines[1..], handed, receive)
      else
        && ProperLine(lines[0]) && receive(handed, lines[0]) == Taken
        && AllTaken(lines[1..], handed + [lines[0]], receive)
  }

  lemma TakenGoesOn(lines: seq<Line>, handed: seq<Line>, receive: (seq<Line>, Line) -> Reception)
    requires lines != [] && AllTaken(lines, handed, receive)
    ensures LineEnding(handed, lines[0], receive).None? && NEWLINE !in lines[0]
    ensures var after := HandedAfter(handed, lines[0], receive);
            AllTaken(lines[1..], after, receive) && after + NonBlank(lines[1..]) == handed + NonBlank(lines)
  {
    if lines[0] != [] {
      assert (handed + [lines[0]]) + NonBlank(lines[1..]) == handed + ([lines[0]] + NonBlank(lines[1..]));
    }
  }

  /** Lines that are taken leave the rest of the stream to be dealt with after them. */
  lemma {:induction false} TakenLinesThenRest(lines: seq<Line>, rest: seq<Byte>, handed: seq<Line>,
                                              receive: (seq<Line>, Line) -> Reception)
    requires AllTaken(lines, handed, receive)
    ensures Process(Written(lines) + rest, handed, receive) == Process(rest, handed + NonBlank(lines), receive)
    decreases |lines|
  {
    hide Process, LineEnding, HandedAfter, AllTaken;
    if lines == [] {
      assert Written(lines) + rest == rest && handed + NonBlank(lines) == handed;
    } else {
      TakenGoesOn(lines, handed, receive);
      assert Written(lines) + rest == lines[0] + [NEWLINE] + (Written(lines[1..]) + rest);
      LineThenRest(lines[0], Written(lines[1..]) + rest, handed, receive);
      TakenLinesThenRest(lines[1..], rest, HandedAfter(handed, lines[0], receive), receive);
    }
  }

  /** How a stream of taken lines ends when nothing, or one more line without a newline, follows them. */
  function EndingOf(handed: seq<Line>): Ending { if handed == [] then Empty else Done }

  /** The round trip: lines written with a newline each are handed over exactly, one by one, blank ones left out. */
  lemma WrittenLinesAreHandedOver(lines: seq<Line>, receive: (seq<Line>, Line) -> Reception)
    requires AllTaken(lines, [], receive)
    ensures Process(Written(lines), [], receive) == Result(NonBlank(lines), EndingOf(NonBlank(lines)))
  {
    hide Process, AllTaken;
    assert Written(lines) + [] == Written(lines) && [] + NonBlank(lines) == NonBlank(lines);
    TakenLinesThenRest(lines, [], [], receive);
    LastLineEnds([], NonBlank(lines), receive);
  }

  /**
   The first line that is too long, not JSON or refused by the sender ends everything, whatever follows
   it; only a refused line has been handed over.
   */
  lemma FirstBadLineEnds(lines: seq<Line>, bad: Line, more: seq<Byte>, receive: (seq<Line>, Line) -> Reception)
    requires AllTaken(lines, [], receive) && NEWLINE !in bad
    ensures var taken := NonBlank(lines);
            var result := Process(Written(lines) + (bad + [NEWLINE] + more), [], receive);
            && (|bad| > 8_192 ==> result == Result(taken, Oversized))
            && (0 < |bad| <= 8_192 && receive(taken, bad) == NotJson ==> result == Result(taken, Malformed))
            && (0 < |bad| <= 8_192 && receive(taken, bad) == NotTaken ==> result == Result(taken + [bad], Undelivered))
  {
    hide Process, AllTaken;
    assert [] + NonBlank(lines) == NonBlank(lines);
    TakenLinesThenRest(lines, bad + [NEWLINE] + more, [], receive);
    LineThenRest(bad, more, NonBlank(lines), receive);
  }

  /** The rest after the last newline is a line like any other, but for its missing newline. */
  lemma UnterminatedLineEnds(lines: seq<Line>, last: Line, receive: (seq<Line>, Line) -> Reception)
    requires AllTaken(lines, [], receive) && NEWLINE !in last
    ensures var taken, result := NonBlank(lines), Process(Written(lines) + last, [], receive);
            && (|last| > 8_192 ==> result == Result(taken, Oversized))
            && (last == [] ==> result == Result(taken, EndingOf(taken)))
            && (0 < |last| <= 8_192 ==>
                  result == match receive(taken, last)
                            case Taken => Result(taken + [last], Done)
                            case NotJson => Result(taken, Malformed)
                            case NotTaken => Result(taken + [last], Undelivered))
  {
    hide Process, AllTaken;
    assert [] + NonBlank(lines) == NonBlank(lines);
    TakenLinesThenRest(lines, last, [], receive);
    NothingFound(last);
    LastLineEnds(last, NonBlank(lines), receive);
  }

  lemma NothingFound(line: Line)
    requires NEWLINE !in line
    ensures FirstNewline(line).None?
  {
  }
}
