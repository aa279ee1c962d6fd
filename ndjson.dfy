/** The newline-delimited JSON decode loop shared by the local-generate
    provider (providers/models/ollama.go) and the legacy chat bus
    (chat/chatRunner.go): skip what does not parse, forward chunks with
    text, stop at the first chunk flagged done.

    `ScanLines` is the loop read as a function of the remaining lines; the
    lemmas below characterise it against independent definitions (`Shown`,
    `FirstDoneAt`) and show how it composes over concatenated input. */
module Ndjson {
  import opened Types

  /** One scanned line: either `json.Unmarshal` rejected it, or it decoded to a chunk. */
  datatype Line = Unparsable | Parsed(chunk: ChatResponse)

  /** Events emitted so far, and the context of the done chunk if the loop stopped on one. */
  datatype Scan = Scan(events: seq<Event>, doneContext: Option<seq<int>>)

  predicate DoneAt(line: Line)
  {
    line.Parsed? && line.chunk.done
  }

  /** `i` is the position of the first line that decodes to a done chunk. */
  predicate FirstDoneAt(lines: seq<Line>, i: int)
  {
    0 <= i < |lines| && DoneAt(lines[i]) && forall k :: 0 <= k < i ==> !DoneAt(lines[k])
  }

  predicate NoDone(lines: seq<Line>)
  {
    forall k :: 0 <= k < |lines| ==> !DoneAt(lines[k])
  }

  /** The decoded chunks whose text is non-empty, in input order. */
  function Shown(lines: seq<Line>): seq<ChatResponse>
  {
    if lines == [] then []
    else (if lines[0].Parsed? && lines[0].chunk.response != "" then [lines[0].chunk] else [])
         + Shown(lines[1..])
  }

  function AsContent(chunks: seq<ChatResponse>): (events: seq<Event>)
  {
    seq(|chunks|, k requires 0 <= k < |chunks| => Content(chunks[k]))
  }

  /** The texts of `chunks`, in order. */
  function Texts(chunks: seq<ChatResponse>): seq<string>
  {
    seq(|chunks|, k requires 0 <= k < |chunks| => chunks[k].response)
  }

  /** The events a chunk shows: itself if its text is non-empty. */
  function ShowChunk(c: ChatResponse): seq<Event>
  {
    if c.response != "" then [Content(c)] else []
  }

  /** What the loop emits from one line on, given what it would emit after that line. */
  function Step(line: Line, rest: Scan): Scan
  {
    match line
    case Unparsable => rest
    case Parsed(c) =>
      if c.done then Scan(ShowChunk(c) + [Done], Some(c.context)) else Resume(ShowChunk(c), rest)
  }

  /** The decode loop over the remaining lines. */
  function ScanLines(lines: seq<Line>): Scan
  {
    if lines == [] then Scan([], None) else Step(lines[0], ScanLines(lines[1..]))
  }

  /** `emitted` followed by what the loop emits on the lines still to be read. */
  function Resume(emitted: seq<Event>, rest: Scan): Scan
  {
    Scan(emitted + rest.events, rest.doneContext)
  }

  /** One turn of the loop: reading from line `i` is reading line `i`, then the lines after it. */
  lemma ScanStep(lines: seq<Line>, i: int)
    requires 0 <= i < |lines|
    ensures ScanLines(lines[i..]) == Step(lines[i], ScanLines(lines[i + 1..]))
  {
    assert lines[i..][1..] == lines[i + 1..];
  }

  lemma ResumeTwice(e1: seq<Event>, e2: seq<Event>, rest: Scan)
    ensures Resume(e1, Resume(e2, rest)) == Resume(e1 + e2, rest)
  {
    assert e1 + (e2 + rest.events) == e1 + e2 + rest.events;
  }

  /** Without a done chunk the loop emits exactly the shown chunks, no Done and
      no Error, and reports no new context. */
  lemma {:induction false} ScanWithoutDone(lines: seq<Line>)
    requires NoDone(lines)
    ensures ScanLines(lines) == Scan(AsContent(Shown(lines)), None)
  {
    if lines != [] {
      assert !DoneAt(lines[0]);
      ScanWithoutDone(lines[1..]);
    }
  }

  /** Up to and including the first done chunk the loop emits the shown chunks,
      then one Done; the new context is that chunk's context. */
  lemma {:induction false} ScanAtFirstDone(lines: seq<Line>, i: int)
    requires FirstDoneAt(lines, i)
    ensures ScanLines(lines) == Scan(AsContent(Shown(lines[..i + 1])) + [Done], Some(lines[i].chunk.context))
  {
    var head := if lines[0].Parsed? && lines[0].chunk.response != "" then [lines[0].chunk] else [];
    assert lines[0].Parsed? ==> AsContent(head) == ShowChunk(lines[0].chunk);
    assert Shown(lines[..i + 1]) == head + Shown(lines[..i + 1][1..]);
    if i == 0 {
      assert lines[..1][1..] == [];
    } else {
      assert !DoneAt(lines[0]);
      assert FirstDoneAt(lines[1..], i - 1);
      ScanAtFirstDone(lines[1..], i - 1);
      var tail := Shown(lines[1..][..i]);
      assert lines[..i + 1][1..] == lines[1..][..i];
      AsContentAppend(head, tail);
      assert AsContent(head) + (AsContent(tail) + [Done]) == AsContent(head) + AsContent(tail) + [Done];
    }
  }

  lemma AsContentAppend(a: seq<ChatResponse>, b: seq<ChatResponse>)
    ensures AsContent(a + b) == AsContent(a) + AsContent(b)
  {
  }

  /** Reading `a` then `b` is reading `a`, and then `b` only if `a` held no done chunk. */
  lemma {:induction false} ScanSplit(a: seq<Line>, b: seq<Line>)
    ensures ScanLines(a + b) ==
      if ScanLines(a).doneContext.None? then Resume(ScanLines(a).events, ScanLines(b)) else ScanLines(a)
  {
    if a == [] {
      assert a + b == b;
    } else {
      assert (a + b)[0] == a[0];
      assert (a + b)[1..] == a[1..] + b;
      ScanSplit(a[1..], b);
    }
  }

  /** An unparsable line, wherever it sits, changes nothing. */
  lemma SkipUnparsable(a: seq<Line>, b: seq<Line>)
    ensures ScanLines(a + [Unparsable] + b) == ScanLines(a + b)
  {
    ScanSplit(a, [Unparsable] + b);
    ScanSplit(a, b);
    assert a + [Unparsable] + b == a + ([Unparsable] + b);
    assert ([Unparsable] + b)[1..] == b;
  }

  /** Nothing after the first done chunk is read. */
  lemma LinesAfterDoneIgnored(lines: seq<Line>, i: int, more: seq<Line>)
    requires FirstDoneAt(lines, i)
    ensures ScanLines(lines[..i + 1] + more) == ScanLines(lines)
  {
    ScanAtFirstDone(lines, i);
    assert FirstDoneAt(lines[..i + 1], i);
    ScanAtFirstDone(lines[..i + 1], i);
    assert (lines[..i + 1])[..i + 1] == lines[..i + 1];
    ScanSplit(lines[..i + 1], more);
  }

  /** No Error among `events`, no Content without text, and a Done only as the last one. */
  predicate DecodedTurn(events: seq<Event>)
  {
    forall k :: 0 <= k < |events| ==>
      && !events[k].Error?
      && (events[k].Content? ==> events[k].chunk.response != "")
      && (events[k] == Done ==> k == |events| - 1)
  }

  /** The loop never emits an Error nor an empty Content; Done is emitted at most once, only as the
      last event, and exactly when a done chunk was read. */
  lemma {:induction false} DoneIsLast(lines: seq<Line>)
    ensures DecodedTurn(ScanLines(lines).events)
    ensures ScanLines(lines).doneContext.Some? <==>
              (ScanLines(lines).events != [] && ScanLines(lines).events[|ScanLines(lines).events| - 1] == Done)
  {
    if lines != [] && lines[0].Parsed? {
      DoneIsLast(lines[1..]);
      var c := lines[0].chunk;
      var shown := ShowChunk(c);
      var events := ScanLines(lines).events;
      if c.done {
        assert events == shown + [Done];
      } else {
        var rest := ScanLines(lines[1..]);
        assert events == shown + rest.events;
        assert forall k :: |shown| <= k < |events| ==> events[k] == rest.events[k - |shown|];
        assert DecodedTurn(events);
      }
    } else if lines != [] {
      DoneIsLast(lines[1..]);
    }
  }
}
