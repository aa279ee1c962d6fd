/** The hosted provider of providers/models/openRouter.go: it sends the
    stored conversation plus the new user turn, decodes the server-sent-event
    reply, appends the completed exchange to its conversation, and lists
    models through the time-boxed cache. */
module OpenRouter {
  import opened Types
  import opened ModelCache

  const ApiUrl: string := "https://openrouter.ai/api/v1/chat/completions"
  const DataPrefix: string := "data: "
  const DoneSentinel: string := "[DONE]"
  const StatusOK: int := 200
  const UserRole: string := "user"
  const AssistantRole: string := "assistant"

  datatype Message = Message(role: string, content: string)
  datatype Request = Request(model: string, messages: seq<Message>, stream: bool)

  datatype Delta = Delta(content: string, role: string)
  datatype Choice = Choice(index: int, delta: Delta, finishReason: Option<string>)
  /** A `data: ` payload after `json.Unmarshal`: rejected, or a decoded frame. */
  datatype StreamFrame =
    | Malformed
    | Frame(id: string, object: string, created: int, model: string, choices: seq<Choice>)

  datatype ListedModel = ListedModel(id: string, name: string, description: string)
  /** The body of the model-listing reply after `io.ReadAll` and `json.Unmarshal`. */
  datatype ModelsBody = Unreadable | Undecodable | Listing(data: seq<ListedModel>)

  /** How the decode loop reads one line. */
  datatype LineKind = Ignored | Sentinel | Payload(data: string)

  function Classify(line: string): (k: LineKind)
    ensures k == Ignored <==> !(|line| > |DataPrefix| && line[..|DataPrefix|] == DataPrefix)
    ensures k == Sentinel <==> line == DataPrefix + DoneSentinel
    ensures k.Payload? ==> line == DataPrefix + k.data && k.data != "" && k.data != DoneSentinel
  {
    if |line| > 6 && line[..6] == DataPrefix then
      assert line == DataPrefix + line[6..];
      if line[6..] == DoneSentinel then Sentinel else Payload(line[6..])
    else Ignored
  }

  /** Framing a non-empty payload and classifying it gives the payload back. */
  lemma ClassifyFramed(data: string)
    requires data != ""
    ensures Classify(DataPrefix + data) == if data == DoneSentinel then Sentinel else Payload(data)
  {
  }

  /** The message list sent for a turn: the stored conversation, then the new user turn. */
  function Outbound(model: string, context: seq<Message>, prompt: string): (r: Request)
    ensures r.model == model && r.stream
    ensures |r.messages| == |context| + 1
    ensures r.messages[..|context|] == context && r.messages[|context|] == Message(UserRole, prompt)
  {
    Request(model, context + [Message(UserRole, prompt)], true)
  }

  /** How the decode loop ended: on the sentinel with the assistant's reply,
      stopped early (a malformed payload or a frame without choices), or
      with the lines exhausted. */
  datatype End = Completed(reply: string) | Stopped | Exhausted
  datatype SseScan = SseScan(events: seq<Event>, end: End)

  /** The decode loop over the remaining lines. */
  function ScanSse(lines: seq<string>, decode: string -> StreamFrame): SseScan
  {
    if lines == [] then SseScan([], Exhausted)
    else match Classify(lines[0])
      case Ignored => ScanSse(lines[1..], decode)
      case Sentinel => SseScan([Done], Completed(""))
      case Payload(data) =>
        match decode(data)
        case Malformed => SseScan([Error(DecodeFailed)], Stopped)
        case Frame(_, _, _, _, choices) =>
          if |choices| == 0 then SseScan([Done], Stopped)
          else
            var text := choices[0].delta.content;
            Resume([Content(DeltaChunk(text))], text, ScanSse(lines[1..], decode))
  }

  /** `emitted` (whose text is `acc`) followed by what the loop emits on the
      lines still to be read. */
  function Resume(emitted: seq<Event>, acc: string, rest: SseScan): SseScan
  {
    SseScan(emitted + rest.events, if rest.end.Completed? then Completed(acc + rest.end.reply) else rest.end)
  }

  /** The whole turn: a failure before any reply, a status other than 200, a
      read error after the last line if the loop had not already stopped. */
  function Turn(reply: Reply<Stream<string>>, decode: string -> StreamFrame): SseScan
  {
    match reply
    case Refused(f) => SseScan([Error(f)], Stopped)
    case Replied(status, body) =>
      if status != StatusOK then SseScan([Error(BadStatus(status))], Stopped)
      else
        var s := ScanSse(body.lines, decode);
        if s.end == Exhausted && body.readFailed then SseScan(s.events + [Error(ReadFailed)], Stopped)
        else s
  }

  /** The conversation after a turn: the user and assistant pair is appended
      only when the sentinel was reached. */
  function ContextAfter(context: seq<Message>, prompt: string, s: SseScan): seq<Message>
  {
    if s.end.Completed? then context + [Message(UserRole, prompt), Message(AssistantRole, s.end.reply)]
    else context
  }

  /** Content events only, except that the last event may be the one Done or
      Error that ends the turn. */
  predicate Shaped(events: seq<Event>)
  {
    forall k :: 0 <= k < |events| - 1 ==> events[k].Content?
  }

  /** The decode loop emits zero or more Content events and then at most one
      Done or Error; it reports Completed exactly when it ends on Done after
      the sentinel, and then the reply is the concatenation of what it forwarded. */
  lemma {:induction false} ScanSseShape(lines: seq<string>, decode: string -> StreamFrame)
    ensures Shaped(ScanSse(lines, decode).events)
    ensures ScanSse(lines, decode).end == Exhausted ==>
              forall k :: 0 <= k < |ScanSse(lines, decode).events| ==> ScanSse(lines, decode).events[k].Content?
    ensures ScanSse(lines, decode).end != Exhausted ==>
              ScanSse(lines, decode).events != [] && !ScanSse(lines, decode).events[|ScanSse(lines, decode).events| - 1].Content?
    ensures ScanSse(lines, decode).end.Completed? ==>
              ScanSse(lines, decode).events[|ScanSse(lines, decode).events| - 1] == Done
              && ScanSse(lines, decode).end.reply == Transcript(ScanSse(lines, decode).events)
  {
    if lines != [] {
      ScanSseShape(lines[1..], decode);
      var rest := ScanSse(lines[1..], decode);
      match Classify(lines[0])
      case Ignored =>
      case Sentinel =>
        assert Transcript([Done]) == "" + Transcript([]);
      case Payload(data) =>
        match decode(data)
        case Malformed =>
        case Frame(_, _, _, _, choices) =>
          if |choices| > 0 {
            var head := [Content(DeltaChunk(choices[0].delta.content))];
            assert ScanSse(lines, decode).events == head + rest.events;
            assert forall k :: 1 <= k < 1 + |rest.events| ==> (head + rest.events)[k] == rest.events[k - 1];
            TranscriptAppend(head, rest.events);
            assert Transcript(head) == choices[0].delta.content + Transcript([]);
          }
    }
  }

  lemma ResumeTwice(e1: seq<Event>, acc1: string, e2: seq<Event>, acc2: string, rest: SseScan)
    ensures Resume(e1, acc1, Resume(e2, acc2, rest)) == Resume(e1 + e2, acc1 + acc2, rest)
  {
    assert e1 + (e2 + rest.events) == e1 + e2 + rest.events;
    if rest.end.Completed? {
      assert acc1 + (acc2 + rest.end.reply) == acc1 + acc2 + rest.end.reply;
    }
  }

  /** Reading `a` then `b` is reading `a`, and then `b` only if `a` ran out
      without ending the turn. */
  lemma {:induction false} ScanSseSplit(a: seq<string>, b: seq<string>, decode: string -> StreamFrame)
    ensures ScanSse(a + b, decode) ==
      if ScanSse(a, decode).end == Exhausted
      then Resume(ScanSse(a, decode).events, Transcript(ScanSse(a, decode).events), ScanSse(b, decode))
      else ScanSse(a, decode)
  {
    if a == [] {
      assert a + b == b;
      assert Transcript([]) == "";
      assert [] + ScanSse(b, decode).events == ScanSse(b, decode).events;
    } else {
      assert (a + b)[0] == a[0];
      assert (a + b)[1..] == a[1..] + b;
      ScanSseSplit(a[1..], b, decode);
      var sa := ScanSse(a[1..], decode);
      var sb := ScanSse(b, decode);
      match Classify(a[0])
      case Ignored =>
      case Sentinel =>
      case Payload(data) =>
        match decode(data)
        case Malformed =>
        case Frame(_, _, _, _, choices) =>
          if |choices| > 0 {
            var text := choices[0].delta.content;
            var head := [Content(DeltaChunk(text))];
            assert ScanSse(a, decode) == Resume(head, text, sa);
            assert ScanSse(a + b, decode) == Resume(head, text, ScanSse(a[1..] + b, decode));
            if sa.end == Exhausted {
              ResumeTwice(head, text, sa.events, Transcript(sa.events), sb);
              TranscriptAppend(head, sa.events);
              assert Transcript(head) == text + Transcript([]);
            }
          }
    }
  }

  /** The `data: [DONE]` line ends the turn with one Done: nothing after it is
      read, and no Content follows the Done. */
  lemma SentinelEndsTurn(before: seq<string>, after: seq<string>, decode: string -> StreamFrame)
    ensures ScanSse(before + [DataPrefix + DoneSentinel] + after, decode)
            == ScanSse(before + [DataPrefix + DoneSentinel], decode)
    ensures ScanSse(before + [DataPrefix + DoneSentinel], decode).end != Exhausted
  {
    var sentinel := [DataPrefix + DoneSentinel];
    assert Classify(DataPrefix + DoneSentinel) == Sentinel;
    assert ScanSse(sentinel, decode) == SseScan([Done], Completed(""));
    ScanSseSplit(before, sentinel, decode);
    ScanSseSplit(before + sentinel, after, decode);
  }

  /** Every turn is zero or more Content events and then, unless the reply ran
      out silently, exactly one Done or Error; the conversation grows by the
      user turn and the concatenated reply exactly when the turn ended on the
      sentinel, and a failure or a frame without choices leaves it unchanged. */
  lemma TurnShape(context: seq<Message>, prompt: string, reply: Reply<Stream<string>>, decode: string -> StreamFrame)
    ensures Shaped(Turn(reply, decode).events)
    ensures Turn(reply, decode).end != Exhausted ==>
              Turn(reply, decode).events != [] && !Turn(reply, decode).events[|Turn(reply, decode).events| - 1].Content?
    ensures ContextAfter(context, prompt, Turn(reply, decode)) ==
              if Turn(reply, decode).end.Completed?
              then context + [Message(UserRole, prompt), Message(AssistantRole, Transcript(Turn(reply, decode).events))]
              else context
    ensures !(reply.Replied? && reply.status == StatusOK) ==> ContextAfter(context, prompt, Turn(reply, decode)) == context
    ensures reply.Replied? && reply.status == StatusOK && NoEnd(reply.body.lines, decode) ==>
              && Turn(reply, decode).events
                 == AsDeltas(Deltas(reply.body.lines, decode)) + (if reply.body.readFailed then [Error(ReadFailed)] else [])
              && ContextAfter(context, prompt, Turn(reply, decode)) == context
    ensures forall i :: reply.Replied? && reply.status == StatusOK && FirstEndAt(reply.body.lines, decode, i) ==>
              ContextAfter(context, prompt, Turn(reply, decode)) ==
                if reply.body.lines[i] == DataPrefix + DoneSentinel
                then context + [Message(UserRole, prompt),
                                Message(AssistantRole, Concat(Deltas(reply.body.lines[..i], decode)))]
                else context
  {
    if reply.Replied? && reply.status == StatusOK {
      var lines := reply.body.lines;
      ScanSseShape(lines, decode);
      var s := ScanSse(lines, decode);
      if s.end == Exhausted && reply.body.readFailed {
        assert forall k :: 0 <= k < |s.events| ==> (s.events + [Error(ReadFailed)])[k] == s.events[k];
      }
      if NoEnd(lines, decode) {
        ScanSseWithoutEnd(lines, decode);
        assert s.events + [] == s.events;
      }
      forall i | FirstEndAt(lines, decode, i)
        ensures ContextAfter(context, prompt, Turn(reply, decode)) ==
                  if lines[i] == DataPrefix + DoneSentinel
                  then context + [Message(UserRole, prompt), Message(AssistantRole, Concat(Deltas(lines[..i], decode)))]
                  else context
      {
        ScanSseAtFirstEnd(lines, decode, i);
      }
    }
  }

  /** A line that ends the turn: the sentinel, a payload that does not decode,
      or a frame without choices. */
  predicate Ends(line: string, decode: string -> StreamFrame)
  {
    match Classify(line)
    case Ignored => false
    case Sentinel => true
    case Payload(data) => decode(data).Malformed? || |decode(data).choices| == 0
  }

  /** `i` is the position of the first line that ends the turn. */
  predicate FirstEndAt(lines: seq<string>, decode: string -> StreamFrame, i: int)
  {
    0 <= i < |lines| && Ends(lines[i], decode) && forall k :: 0 <= k < i ==> !Ends(lines[k], decode)
  }

  predicate NoEnd(lines: seq<string>, decode: string -> StreamFrame)
  {
    forall k :: 0 <= k < |lines| ==> !Ends(lines[k], decode)
  }

  /** The text a line carries: the first choice's delta of a decoded frame
      with choices, nothing for any other line. */
  function DeltaOf(line: string, decode: string -> StreamFrame): seq<string>
  {
    match Classify(line)
    case Payload(data) =>
      if decode(data).Frame? && |decode(data).choices| > 0 then [decode(data).choices[0].delta.content] else []
    case _ => []
  }

  /** The texts the lines carry, in input order. */
  function Deltas(lines: seq<string>, decode: string -> StreamFrame): seq<string>
  {
    if lines == [] then [] else DeltaOf(lines[0], decode) + Deltas(lines[1..], decode)
  }

  /** One forwarded chunk per text. */
  function AsDeltas(texts: seq<string>): seq<Event>
  {
    seq(|texts|, k requires 0 <= k < |texts| => Content(DeltaChunk(texts[k])))
  }

  function Concat(texts: seq<string>): string
  {
    if texts == [] then "" else texts[0] + Concat(texts[1..])
  }

  /** The text shown by forwarding `texts` is their concatenation. */
  lemma {:induction false} TranscriptAsDeltas(texts: seq<string>)
    ensures Transcript(AsDeltas(texts)) == Concat(texts)
  {
    if texts != [] {
      assert AsDeltas(texts)[1..] == AsDeltas(texts[1..]);
      TranscriptAsDeltas(texts[1..]);
    }
  }

  /** Without a line that ends the turn the loop forwards every text, ends
      neither with Done nor with Error, and runs out. */
  lemma {:induction false} ScanSseWithoutEnd(lines: seq<string>, decode: string -> StreamFrame)
    requires NoEnd(lines, decode)
    ensures ScanSse(lines, decode) == SseScan(AsDeltas(Deltas(lines, decode)), Exhausted)
  {
    if lines != [] {
      assert !Ends(lines[0], decode);
      ScanSseWithoutEnd(lines[1..], decode);
      var rest := Deltas(lines[1..], decode);
      assert Deltas(lines, decode) == DeltaOf(lines[0], decode) + rest;
      match Classify(lines[0])
      case Ignored =>
        assert Deltas(lines, decode) == rest;
      case Payload(data) =>
        var text := decode(data).choices[0].delta.content;
        assert Deltas(lines, decode) == [text] + rest;
        assert AsDeltas([text] + rest) == [Content(DeltaChunk(text))] + AsDeltas(rest);
    }
  }

  /** Up to the first line that ends the turn the loop forwards every text;
      then the sentinel completes the turn with one Done and the concatenated
      texts as the reply, a payload that does not decode stops it with an
      Error, and a frame without choices stops it with a Done. */
  lemma ScanSseAtFirstEnd(lines: seq<string>, decode: string -> StreamFrame, i: int)
    requires FirstEndAt(lines, decode, i)
    ensures lines[i] == DataPrefix + DoneSentinel ==>
              ScanSse(lines, decode)
              == SseScan(AsDeltas(Deltas(lines[..i], decode)) + [Done], Completed(Concat(Deltas(lines[..i], decode))))
    ensures Classify(lines[i]).Payload? && decode(Classify(lines[i]).data).Malformed? ==>
              ScanSse(lines, decode) == SseScan(AsDeltas(Deltas(lines[..i], decode)) + [Error(DecodeFailed)], Stopped)
    ensures Classify(lines[i]).Payload? && decode(Classify(lines[i]).data).Frame? ==>
              |decode(Classify(lines[i]).data).choices| == 0
              && ScanSse(lines, decode) == SseScan(AsDeltas(Deltas(lines[..i], decode)) + [Done], Stopped)
  {
    var d := Deltas(lines[..i], decode);
    assert NoEnd(lines[..i], decode);
    ScanSseWithoutEnd(lines[..i], decode);
    assert lines == lines[..i] + lines[i..];
    ScanSseSplit(lines[..i], lines[i..], decode);
    TranscriptAsDeltas(d);
    assert lines[i..][0] == lines[i];
    var last := ScanSse(lines[i..], decode);
    assert ScanSse(lines, decode) == Resume(AsDeltas(d), Concat(d), last);
    if last.end.Completed? {
      assert last == SseScan([Done], Completed(""));
      assert Concat(d) + "" == Concat(d);
    }
  }

  /** The first line that ends the turn, if there is one. */
  lemma {:induction false} FirstEndExists(lines: seq<string>, decode: string -> StreamFrame)
    requires !NoEnd(lines, decode)
    ensures exists i :: FirstEndAt(lines, decode, i)
  {
    if Ends(lines[0], decode) {
      assert FirstEndAt(lines, decode, 0);
    } else {
      assert !NoEnd(lines[1..], decode) by {
        var k :| 0 <= k < |lines| && Ends(lines[k], decode);
        assert lines[1..][k - 1] == lines[k];
      }
      FirstEndExists(lines[1..], decode);
      var j :| FirstEndAt(lines[1..], decode, j);
      assert FirstEndAt(lines, decode, j + 1);
    }
  }

  /** The loop completes the turn exactly when the first line that ends it is
      the `data: [DONE]` sentinel. */
  lemma {:induction false} CompletedIffSentinel(lines: seq<string>, decode: string -> StreamFrame)
    ensures ScanSse(lines, decode).end.Completed? <==>
              exists i :: FirstEndAt(lines, decode, i) && lines[i] == DataPrefix + DoneSentinel
  {
    if NoEnd(lines, decode) {
      ScanSseWithoutEnd(lines, decode);
    } else {
      FirstEndExists(lines, decode);
      var i :| FirstEndAt(lines, decode, i);
      ScanSseAtFirstEnd(lines, decode, i);
      forall j | FirstEndAt(lines, decode, j)
        ensures j == i
      {
      }
    }
  }

  /** After a completed turn the next request carries the earlier
      conversation, the user turn and the assistant's reply, then the new prompt. */
  lemma NextTurnCarriesHistory(model: string, context: seq<Message>, p1: string, p2: string,
                               reply: Reply<Stream<string>>, decode: string -> StreamFrame)
    requires Turn(reply, decode).end.Completed?
    ensures Outbound(model, ContextAfter(context, p1, Turn(reply, decode)), p2).messages
            == context + [Message(UserRole, p1), Message(AssistantRole, Transcript(Turn(reply, decode).events)),
                          Message(UserRole, p2)]
  {
    TurnShape(context, p1, reply, decode);
  }

  class OpenRouter {
    var url: string
    var apiKey: string
    var modelRefresher: ModelRefresher
    var model: string
    var context: seq<Message>

    constructor (apiKey: string, model: string, refresher: ModelRefresher)
      ensures this.url == ApiUrl && this.apiKey == apiKey && this.model == model
      ensures this.modelRefresher == refresher && this.context == []
    {
      this.url := ApiUrl;
      this.apiKey := apiKey;
      this.model := model;
      this.modelRefresher := refresher;
      this.context := [];
    }

    function GenerateRequest(prompt: string): (r: ChatRequest)
      reads this
      ensures r.model == model && r.prompt == prompt && r.stream && r.context == []
    {
      ChatRequest(model, prompt, true, [])
    }

    method SetModel(newModel: string)
      modifies this
      ensures model == newModel
      ensures url == old(url) && apiKey == old(apiKey) && modelRefresher == old(modelRefresher)
      ensures context == old(context)
      ensures forall prompt :: GenerateRequest(prompt) == old(GenerateRequest(prompt)).(model := newModel)
    {
      model := newModel;
    }

    /** One turn. Only the prompt of `request` is used; the model is the
        provider's own. `outbound` is the request that is marshalled and posted. */
    method Chat(request: ChatRequest, reply: Reply<Stream<string>>, decode: string -> StreamFrame)
      returns (outbound: Request, events: seq<Event>)
      modifies this
      ensures url == old(url) && apiKey == old(apiKey) && model == old(model)
      ensures modelRefresher == old(modelRefresher)
      ensures outbound == Outbound(old(model), old(context), request.prompt)
      ensures events == Turn(reply, decode).events
      ensures context == ContextAfter(old(context), request.prompt, Turn(reply, decode))
    {
      var messages := [Message(UserRole, request.prompt)];
      outbound := Request(model, context + messages, true);
      events := [];
      if reply.Refused? {
        events := events + [Error(reply.failure)];
        return;
      }
      if reply.status != StatusOK {
        events := events + [Error(BadStatus(reply.status))];
        return;
      }
      var lines := reply.body.lines;
      var assistant := "";
      var i := 0;
      while i < |lines|
        invariant 0 <= i <= |lines|
        invariant context == old(context) && model == old(model)
        invariant url == old(url) && apiKey == old(apiKey) && modelRefresher == old(modelRefresher)
        invariant ScanSse(lines, decode) == Resume(events, assistant, ScanSse(lines[i..], decode))
      {
        assert lines[i..][1..] == lines[i + 1..];
        var line := lines[i];
        if |line| > 6 && line[..6] == DataPrefix {
          var data := line[6..];
          if data == DoneSentinel {
            assert Classify(line) == Sentinel;
            assert ScanSse(lines[i..], decode).end == Completed("");
            assert assistant + "" == assistant;
            messages := messages + [Message(AssistantRole, assistant)];
            context := context + messages;
            events := events + [Done];
            return;
          }
          var response := decode(data);
          if response.Malformed? {
            events := events + [Error(DecodeFailed)];
            return;
          }
          if |response.choices| == 0 {
            events := events + [Done];
            return;
          }
          var text := response.choices[0].delta.content;
          assistant := assistant + text;
          events := events + [Content(DeltaChunk(text))];
        }
        i := i + 1;
      }
      if reply.body.readFailed {
        events := events + [Error(ReadFailed)];
      }
    }

    /** The model list: the cached one while the cache is fresh, otherwise one
        model per listed id, stashed at `stashedAt` (a stash failure would only
        be logged). `now` and `stashedAt` are the two clock readings. */
    method RetrieveModels(now: int, fetch: Reply<ModelsBody>, stashedAt: int) returns (r: Result<seq<Model>>)
      modifies modelRefresher
      ensures !old(modelRefresher.IsStale(now)) ==>
                r == Ok(old(modelRefresher.models)) && unchanged(modelRefresher)
      ensures old(modelRefresher.IsStale(now)) && fetch.Refused? ==>
                r == Err(fetch.failure) && unchanged(modelRefresher)
      ensures old(modelRefresher.IsStale(now)) && fetch.Replied? && fetch.status != StatusOK ==>
                r == Err(BadStatus(fetch.status)) && unchanged(modelRefresher)
      ensures old(modelRefresher.IsStale(now)) && fetch.Replied? && fetch.status == StatusOK && fetch.body.Unreadable? ==>
                r == Err(ReadFailed) && unchanged(modelRefresher)
      ensures old(modelRefresher.IsStale(now)) && fetch.Replied? && fetch.status == StatusOK && fetch.body.Undecodable? ==>
                r == Err(DecodeFailed) && unchanged(modelRefresher)
      ensures old(modelRefresher.IsStale(now)) && fetch.Replied? && fetch.status == StatusOK && fetch.body.Listing? ==>
                && r.Ok?
                && |r.value| == |fetch.body.data|
                && (forall k :: 0 <= k < |r.value| ==> r.value[k] == Model(fetch.body.data[k].id, []))
                && modelRefresher.models == r.value
                && modelRefresher.lastUpdated == stashedAt
                && modelRefresher.expiry == old(modelRefresher.expiry)
    {
      if !modelRefresher.IsStale(now) {
        var cached := modelRefresher.RetrieveModels();
        assert cached == modelRefresher.models;
        r := Ok(cached);
        return;
      }
      if fetch.Refused? {
        r := Err(fetch.failure);
        return;
      }
      if fetch.status != StatusOK {
        r := Err(BadStatus(fetch.status));
        return;
      }
      match fetch.body {
        case Unreadable =>
          r := Err(ReadFailed);
        case Undecodable =>
          r := Err(DecodeFailed);
        case Listing(data) =>
          var modelsList: seq<Model> := [];
          for i := 0 to |data|
            invariant |modelsList| == i
            invariant forall k :: 0 <= k < i ==> modelsList[k] == Model(data[k].id, [])
          {
            modelsList := modelsList + [Model(data[i].id, [])];
          }
          // the source logs a failed stash and returns the fetched list either way
          var _ := modelRefresher.StashModels(modelsList, stashedAt);
          r := Ok(modelsList);
      }
    }
  }

  /** Construction reads the key from the environment (`apiKey` here) and
      fails when it is empty. */
  method NewOpenRouter(apiKey: string, model: string, refresher: ModelRefresher) returns (r: Result<OpenRouter>)
    ensures apiKey == "" ==> r == Err(MissingApiKey)
    ensures apiKey != "" ==> r.Ok? && fresh(r.value)
    ensures r.Ok? ==> r.value.url == ApiUrl && r.value.apiKey == apiKey && r.value.model == model
                      && r.value.modelRefresher == refresher && r.value.context == []
  {
    if apiKey == "" {
      return Err(MissingApiKey);
    }
    var provider := new OpenRouter(apiKey, model, refresher);
    r := Ok(provider);
  }
}
