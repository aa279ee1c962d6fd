/** The local-generate provider of providers/models/ollama.go: it keeps the
    token context returned by the last completed turn and attaches it to the
    next request, then decodes the newline-delimited JSON reply. */
module Ollama {
  import opened Types
  import opened Ndjson

  const ApiUrl: string := "http://localhost:11434/api/generate"
  const DefaultModel: string := "llama3.2"

  /** The request as sent: the stored context replaces the request's own only
      when it is non-empty. */
  function Attach(request: ChatRequest, context: seq<int>): (sent: ChatRequest)
    ensures sent.model == request.model && sent.prompt == request.prompt && sent.stream == request.stream
    ensures |context| > 0 ==> sent.context == context
    ensures context == [] ==> sent == request
  {
    if |context| > 0 then request.(context := context) else request
  }

  /** The context after a turn: the done chunk's context if one arrived,
      otherwise the old one. */
  function ContextAfter(previous: seq<int>, reply: Reply<Stream<Line>>): seq<int>
  {
    match reply
    case Refused(_) => previous
    case Replied(_, body) =>
      var s := ScanLines(body.lines);
      if s.doneContext.Some? then s.doneContext.value else previous
  }

  /** The events of a turn: one Error if the request never got a reply,
      otherwise whatever the decode loop emits (status and read errors are
      not looked at). */
  function TurnEvents(reply: Reply<Stream<Line>>): seq<Event>
  {
    match reply
    case Refused(f) => [Error(f)]
    case Replied(_, body) => ScanLines(body.lines).events
  }

  class OllamaProvider {
    var url: string
    var context: seq<int>

    constructor ()
      ensures url == ApiUrl && context == []
    {
      url := ApiUrl;
      context := [];
    }

    function GenerateRequest(prompt: string): (r: ChatRequest)
      ensures r == ChatRequest(DefaultModel, prompt, true, [])
    {
      ChatRequest(DefaultModel, prompt, true, [])
    }

    /** One turn. `sent` is the request after the stored context was attached
        to it (the source writes it into the caller's request). */
    method Chat(request: ChatRequest, reply: Reply<Stream<Line>>) returns (sent: ChatRequest, events: seq<Event>)
      modifies this
      ensures url == old(url)
      ensures sent == Attach(request, old(context))
      ensures events == TurnEvents(reply)
      ensures context == ContextAfter(old(context), reply)
    {
      sent := request;
      if |context| > 0 {
        sent := sent.(context := context);
      }
      events := [];
      if reply.Refused? {
        // marshal, request-build or transport failure
        events := events + [Error(reply.failure)];
        return;
      }
      var lines := reply.body.lines;
      var i := 0;
      while i < |lines|
        invariant 0 <= i <= |lines|
        invariant context == old(context) && url == old(url)
        invariant ScanLines(lines) == Resume(events, ScanLines(lines[i..]))
      {
        ScanStep(lines, i);
        ghost var before := events;
        match lines[i] {
          case Unparsable =>
          case Parsed(chunk) =>
            if chunk.response != "" {
              events := events + [Content(chunk)];
            }
            assert events == before + ShowChunk(chunk);
            if chunk.done {
              context := chunk.context;
              events := events + [Done];
              assert before + (ShowChunk(chunk) + [Done]) == events;
              return;
            }
            ResumeTwice(before, ShowChunk(chunk), ScanLines(lines[i + 1..]));
        }
        i := i + 1;
      }
      assert events + [] == events;
    }
  }

  /** What the provider sends and keeps over two turns, in terms of the lines
      of the first reply: a first turn ending in a done chunk with a non-empty
      context makes the second request carry exactly that context. */
  lemma ContextRoundTrip(p: OllamaProvider, previous: seq<int>, status: int, body: Stream<Line>, i: int, prompt: string)
    requires FirstDoneAt(body.lines, i) && body.lines[i].chunk.context != []
    ensures Attach(p.GenerateRequest(prompt), ContextAfter(previous, Replied(status, body))).context
            == body.lines[i].chunk.context
  {
    ScanAtFirstDone(body.lines, i);
  }

  /** A reply that runs out without a done chunk signals neither Done nor
      Error and keeps the context. */
  lemma StarvedTurn(previous: seq<int>, status: int, body: Stream<Line>)
    requires NoDone(body.lines)
    ensures TurnEvents(Replied(status, body)) == AsContent(Shown(body.lines))
    ensures ContextAfter(previous, Replied(status, body)) == previous
  {
    ScanWithoutDone(body.lines);
  }

  /** Two turns on one provider. The first reply holds the chunk "Hel", a line
      that does not parse, the chunk "lo", and a done chunk with no text and
      context [7, 8]: the unparsable line and the empty text are skipped and
      the context is kept. The second turn fails to send, yet its request
      already carries [7, 8]. */
  method TwoTurns()
  {
    var p := new OllamaProvider();
    var first := [Parsed(ChatResponse("Hel", [], false)), Unparsable,
                  Parsed(ChatResponse("lo", [], false)), Parsed(ChatResponse("", [7, 8], true))];
    var sent, events := p.Chat(p.GenerateRequest("hi"), Replied(200, Stream(first, false)));
    assert sent.context == [];
    assert events == [Content(first[0].chunk), Content(first[2].chunk), Done];
    assert p.context == [7, 8];
    sent, events := p.Chat(p.GenerateRequest("again"), Refused(TransportFailed));
    assert sent.context == [7, 8];
    assert events == [Error(TransportFailed)];
  }
}
