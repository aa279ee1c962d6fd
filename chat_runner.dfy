/** The legacy chat bus of chat/chatRunner.go: it posts the request exactly
    as given to the local-generate endpoint, decodes the newline-delimited
    JSON reply with the same loop as the local-generate provider but keeps no
    context, and drains the bus until the first Done or Error.

    The bus's three channels become the sequence of events `RunChat` sends
    and the sequence of events `Start` receives. */
module ChatRunner {
  import opened Types
  import opened Ndjson

  /** One turn. `posted` is the request that is marshalled and posted. */
  method RunChat(request: ChatRequest, reply: Reply<Stream<Line>>) returns (posted: ChatRequest, events: seq<Event>)
    ensures posted == request
    ensures reply.Refused? ==> events == [Error(reply.failure)]
    ensures reply.Replied? ==> events == ScanLines(reply.body.lines).events
  {
    posted := request;
    events := [];
    if reply.Refused? {
      // marshal, request-build or transport failure
      events := events + [Error(reply.failure)];
      return;
    }
    var lines := reply.body.lines;
    var i := 0;
    while i < |lines|
      invariant 0 <= i <= |lines|
      invariant ScanLines(lines) == Resume(events, ScanLines(lines[i..]))
    {
      ScanStep(lines, i);
      ghost var before := events;
      match lines[i] {
        case Unparsable =>
        case Parsed(chunk) =>
          if chunk.response != "" {
            events := events + [Content(chunk)];
          }
          assert events == before + ShowChunk(chunk);
          if chunk.done {
            events := events + [Done];
            assert before + (ShowChunk(chunk) + [Done]) == events;
            return;
          }
          ResumeTwice(before, ShowChunk(chunk), ScanLines(lines[i + 1..]));
      }
      i := i + 1;
    }
    assert events + [] == events;
  }

  /** How the dispatch loop ends: it returns on Done, it ends the process
      (`log.Fatalf`) on an Error, or it is still waiting when the events run out. */
  datatype Exit = Returned | Fatal(failure: Failure) | Waiting

  /** The dispatch loop as a fold over the events it receives: it prints the
      text of each Content event and stops at the first Done or Error,
      consuming nothing after it. */
  method Start(incoming: seq<Event>) returns (printed: seq<string>, consumed: nat, exit: Exit)
    ensures consumed <= |incoming|
    ensures forall k :: 0 <= k < |printed| ==> k < |incoming| && incoming[k].Content? && printed[k] == incoming[k].chunk.response
    ensures exit == Waiting ==> consumed == |printed| == |incoming|
    ensures exit != Waiting ==> consumed == |printed| + 1
    ensures exit == Returned ==> incoming[|printed|] == Done
    ensures exit.Fatal? ==> incoming[|printed|] == Error(exit.failure)
  {
    printed := [];
    consumed := 0;
    while consumed < |incoming|
      invariant consumed <= |incoming| && |printed| == consumed
      invariant forall k :: 0 <= k < consumed ==> incoming[k].Content? && printed[k] == incoming[k].chunk.response
    {
      var event := incoming[consumed];
      consumed := consumed + 1;
      match event {
        case Content(chunk) =>
          printed := printed + [chunk.response];
        case Error(f) =>
          return printed, consumed, Fatal(f);
        case Done =>
          return printed, consumed, Returned;
      }
    }
    exit := Waiting;
  }

  /** A turn through the legacy bus: what `RunChat` sends, `Start` receives.
      A reply holding a done chunk shows the non-empty chunk texts up to it
      and then returns; a reply without one leaves the loop waiting. */
  method Turn(request: ChatRequest, reply: Reply<Stream<Line>>) returns (printed: seq<string>, exit: Exit)
    ensures reply.Refused? ==> printed == [] && exit == Fatal(reply.failure)
    ensures reply.Replied? && NoDone(reply.body.lines) ==>
              exit == Waiting && printed == Texts(Shown(reply.body.lines))
    ensures forall i :: reply.Replied? && FirstDoneAt(reply.body.lines, i) ==>
              exit == Returned && printed == Texts(Shown(reply.body.lines[..i + 1]))
    ensures reply.Replied? ==>
              forall k :: 0 <= k < |printed| ==> printed[k] != ""
  {
    var _, events := RunChat(request, reply);
    var consumed;
    printed, consumed, exit := Start(events);
    if reply.Refused? {
      assert !events[0].Content?;
    }
    if reply.Replied? {
      var lines := reply.body.lines;
      DoneIsLast(lines);
      if NoDone(lines) {
        ScanWithoutDone(lines);
        assert forall k :: 0 <= k < |events| ==> events[k].Content?;
      }
      forall i | FirstDoneAt(lines, i)
        ensures exit == Returned && printed == Texts(Shown(lines[..i + 1]))
      {
        ScanAtFirstDone(lines, i);
        var n := |Shown(lines[..i + 1])|;
        assert events[n] == Done;
        assert forall k :: 0 <= k < n ==> events[k].Content?;
      }
    }
  }
}
