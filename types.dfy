/** Shared data shapes of the chat core: the request and response records of
    types/chat.go, the model descriptor of types/models.go, and the abstract
    view of a network exchange that the decode loops consume. */
module Types {

  datatype Option<T> = None | Some(value: T)

  /** What a provider is asked to do in one turn. `context` is the token
      context of the local-generate backend; empty means "omitted". */
  datatype ChatRequest = ChatRequest(model: string, prompt: string, stream: bool, context: seq<int>)

  /** One decoded chunk of a streamed answer. */
  datatype ChatResponse = ChatResponse(response: string, context: seq<int>, done: bool)

  /** A selectable model; the hosted listing only ever fills in `name`. */
  datatype Model = Model(name: string, modalities: seq<string>)

  /** The errors a turn, a listing or a construction can report. */
  datatype Failure =
    | MarshalFailed        // json.Marshal of the outbound request
    | RequestBuildFailed   // http.NewRequest / NewRequestWithContext
    | TransportFailed      // client.Do
    | BadStatus(code: int) // a reply whose status is not 200
    | ReadFailed           // scanner.Err / io.ReadAll
    | DecodeFailed         // json.Unmarshal of a payload the provider treats as fatal
    | MissingApiKey        // construction of the hosted provider without a key

  datatype Result<T> = Ok(value: T) | Err(failure: Failure)

  /** One signal on the bus: a send on the content, done or error channel. */
  datatype Event = Content(chunk: ChatResponse) | Done | Error(failure: Failure)

  /** A response body, already split into lines by the scanner, and whether
      the scanner stopped on a read error after the last line. */
  datatype Stream<L> = Stream(lines: seq<L>, readFailed: bool)

  /** The outcome of marshalling, building and sending a request: either it
      failed before a reply arrived, or a reply with a status and a body came back. */
  datatype Reply<B> = Refused(failure: Failure) | Replied(status: int, body: B)

  /** The chunk the hosted provider forwards for one text delta. */
  function DeltaChunk(text: string): ChatResponse
  {
    ChatResponse(text, [], false)
  }

  /** The text shown to the user by a sequence of events: the concatenation
      of the texts of its Content events, in order. */
  function Transcript(events: seq<Event>): string
  {
    if events == [] then ""
    else (if events[0].Content? then events[0].chunk.response else "") + Transcript(events[1..])
  }

  lemma {:induction false} TranscriptAppend(a: seq<Event>, b: seq<Event>)
    ensures Transcript(a + b) == Transcript(a) + Transcript(b)
  {
    if a == [] {
      assert a + b == b;
    } else {
      assert (a + b)[1..] == a[1..] + b;
      TranscriptAppend(a[1..], b);
    }
  }
}
