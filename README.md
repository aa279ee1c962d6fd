# Streaming chat core of terminal-chat, in Dafny

This project models the part of terminal-chat that turns one prompt into a
stream of events, and the cache that serves the list of models:

- `types.dfy` (module `Types`): the request and response records
  (`ChatRequest`, `ChatResponse`, `Model`) and the bus `Event`
  (`Content | Done | Error`). A network exchange is abstracted as a
  `Reply`: either it failed before any reply (marshal, request-build or
  transport failure), or a status and a body arrived. The body is a `Stream`:
  the lines the scanner split off, plus whether the scanner stopped on a
  read error.
- `model_cache.dfy` (module `ModelCache`): the `ModelRefresher` class of
  types/models.go. Its fields are `expiry`, `models` and `lastUpdated`. Time
  is an explicit `now` in nanoseconds, counted from Go's zero `time.Time`.
- `ndjson.dfy` (module `Ndjson`): the newline-delimited JSON decode loop.
  The local-generate provider and the legacy bus run the same loop, so it
  is specified once here. `ScanLines` reads the loop as a function of the
  remaining lines. The lemmas characterise it against `Shown` (the chunks
  with text, in order) and `FirstDoneAt` (the first done chunk).
- `ollama.dfy` (module `Ollama`): the `OllamaProvider` class. It holds the
  token `context` field. Its `Chat` method attaches the context, runs the
  decode loop and stores the done chunk's context.
- `open_router.dfy` (module `OpenRouter`): the `OpenRouter` class.
  - Line framing: `Classify` tells an ignored line, the `data: [DONE]`
    sentinel and a `data: ` payload apart.
  - `ScanSse` specifies the SSE decode loop. The lemmas characterise it
    against `Deltas` (the texts the lines carry, in order) and `FirstEndAt`
    (the first line that ends the turn: the sentinel, a payload that does
    not decode, or a frame without choices).
  - `Chat` keeps a running reply and appends the user and assistant pair
    to `context` when the sentinel arrives.
  - Also here: `RetrieveModels` through the cache, `SetModel`,
    `GenerateRequest` and the key check of `NewOpenRouter`.
  - JSON decoding of a payload is a parameter `decode: string -> StreamFrame`.
- `chat_runner.dfy` (module `ChatRunner`): the legacy bus.
  - `RunChat` runs the same decode loop without any context.
  - `Start` is the dispatch loop, read as a fold over the events it
    receives.
  - `Turn` runs the two together.

Channel sends become appends to an output sequence of events, in send order.

Behaviour worth noting, as the code has it:
- The legacy dispatch loop returns on the first Done. It does not keep
  looping for the next turn.
- An Error in that loop ends the process (`log.Fatalf`).
- `StashModels` can never fail.
- "Never populated" counts as stale only because the zero time lies far in
  the past.
- The local-generate provider and the legacy bus never look at the HTTP
  status or at a scanner read error; the hosted provider checks both.
- The hosted provider ignores the request's model and context. It uses its
  own `Model` and `Context`.

## Model

| member | source | states |
|---|---|---|
| ModelCache.WrapInt64 | types/models.go:28 | the `int64` product wraps modulo 2^64 and is unchanged when it fits |
| ModelCache.ModelRefresher.constructor | types/models.go:26-32 | a new refresher has no models, the zero `LastUpdated`, and an expiry of the argument times one second (wrapped as `int64`); it is stale once the clock passes that expiry |
| ModelCache.ExpiryIsSeconds | types/models.go:26-28 | for every argument from 0 to (2^63-1)/10^9, the product fits in `int64`, so the expiry is exactly that many seconds and non-negative |
| ModelCache.ModelRefresher.StashModels | types/models.go:34-40 | always succeeds, replaces the whole list, stamps `LastUpdated` with the current time, keeps the expiry; with a non-negative expiry the cache is fresh at that instant |
| ModelCache.ModelRefresher.RetrieveModels | types/models.go:42-48 | returns the stored models element for element, in order, and changes nothing |
| ModelCache.ModelRefresher.IsStale | types/models.go:50-52 | stale exactly when strictly more than `Expiry` has passed since `LastUpdated`: fresh up to and including `LastUpdated + Expiry`, stale after |
| ModelCache.StashThenRetrieve | types/models.go:34-48 | stashing a list and then retrieving gives that list back |
| Ndjson.ScanWithoutDone | providers/models/ollama.go:70-87 | with no done chunk, the loop emits exactly the chunks with non-empty text, in order, and no Done, no Error and no new context |
| Ndjson.ScanAtFirstDone | providers/models/ollama.go:70-86 | up to the first done chunk, the loop emits the chunks with text (that chunk's own text included), then one Done, and the new context is that chunk's context |
| Ndjson.ScanSplit | providers/models/ollama.go:70-86 | decoding `a + b` is decoding `a`, followed by decoding `b` only when `a` held no done chunk |
| Ndjson.SkipUnparsable | providers/models/ollama.go:73-75 | an unparsable line anywhere in the input changes neither the events nor the context |
| Ndjson.LinesAfterDoneIgnored | providers/models/ollama.go:81-85 | no line after the first done chunk is read |
| Ndjson.DoneIsLast | providers/models/ollama.go:77-85 | the loop emits no Error and no empty Content; Done occurs at most once, only last, and exactly when a done chunk was read |
| Ollama.Attach | providers/models/ollama.go:46-48 | the stored context replaces the request's only when it is non-empty; otherwise the request is sent as it was |
| Ollama.OllamaProvider.constructor | providers/models/ollama.go:25-31 | a new provider targets the generate endpoint with an empty context |
| Ollama.OllamaProvider.GenerateRequest | providers/models/ollama.go:33-39 | the request names model `llama3.2`, carries the prompt, streams, and has no context |
| Ollama.OllamaProvider.Chat | providers/models/ollama.go:41-87 | the sent request is the stored context attached to the given one; a failed send emits one Error and keeps the context; otherwise the events are the decode loop's and the context becomes the done chunk's |
| Ollama.ContextRoundTrip | providers/models/ollama.go:46-85 | a turn ending in a done chunk with a non-empty context makes the next generated request carry exactly that context |
| Ollama.StarvedTurn | providers/models/ollama.go:70-87 | a reply without a done chunk emits only the Content events, signals neither Done nor Error, and leaves the context unchanged |
| OpenRouter.Classify | providers/models/openRouter.go:112-114 | a line counts only if it is longer than 6 characters and starts with `data: `; it is the sentinel exactly when it is `data: [DONE]`; otherwise its payload is the non-empty rest after the prefix |
| OpenRouter.ClassifyFramed | providers/models/openRouter.go:112-114 | prefixing a non-empty payload with `data: ` and classifying it gives that payload back, or the sentinel for `[DONE]` |
| OpenRouter.Outbound | providers/models/openRouter.go:68-72 | the outbound message list is the stored conversation followed by one user message with the prompt, with the provider's model and streaming on |
| OpenRouter.ScanSseShape | providers/models/openRouter.go:110-138 | the SSE loop emits Content events and then at most one Done or Error; when it ran out every event is Content; when it completed, the last event is Done and the reply is the concatenation of all forwarded deltas |
| OpenRouter.TranscriptAsDeltas | providers/models/openRouter.go:133-136 | the text shown by forwarding a list of deltas is their concatenation, which is what the running reply accumulates |
| OpenRouter.ScanSseWithoutEnd | providers/models/openRouter.go:110-138 | with no sentinel, undecodable payload or choiceless frame, the loop forwards the delta of every decoded frame in order, emits no Done and no Error, and runs out |
| OpenRouter.ScanSseAtFirstEnd | providers/models/openRouter.go:110-137 | up to the first line that ends the turn the loop forwards every delta; that line then ends it: the sentinel with one Done and the concatenated deltas as the completed reply, an undecodable payload with one Error and a frame without choices with one Done, both without a reply |
| OpenRouter.CompletedIffSentinel | providers/models/openRouter.go:112-123 | the loop completes the turn if and only if the first line that ends it is `data: [DONE]` |
| OpenRouter.ScanSseSplit | providers/models/openRouter.go:110-138 | decoding `a + b` is decoding `a`, followed by decoding `b` (with the reply so far carried over) only when `a` ran out without ending the turn |
| OpenRouter.SentinelEndsTurn | providers/models/openRouter.go:114-123 | nothing after the `data: [DONE]` line is read, and the turn has ended once that line is read |
| OpenRouter.TurnShape | providers/models/openRouter.go:99-143 | every turn is Content events followed by at most one Done or Error; a send failure or a bad status leaves the conversation unchanged; a reply with no line that ends the turn forwards every delta, then an Error only on a read error, and leaves it unchanged; otherwise it grows by the user prompt and the concatenated deltas before the first ending line exactly when that line is `data: [DONE]` |
| OpenRouter.NextTurnCarriesHistory | providers/models/openRouter.go:101-119 | after a completed turn, the next outbound list is the earlier conversation, the user turn, the assistant reply, then the new prompt |
| OpenRouter.OpenRouter.constructor | providers/models/openRouter.go:40-46 | URL, key, model and refresher come from the constants and arguments; the conversation starts empty |
| OpenRouter.NewOpenRouter | providers/models/openRouter.go:34-47 | an empty API key fails with an error; any other key yields a fresh provider with its fields set from the arguments |
| OpenRouter.OpenRouter.GenerateRequest | providers/models/openRouter.go:49-56 | the request carries the provider's current model and the prompt, streams, and has no context |
| OpenRouter.OpenRouter.SetModel | providers/models/openRouter.go:187-189 | only the model changes, and every later request carries the new model with all else equal |
| OpenRouter.OpenRouter.Chat | providers/models/openRouter.go:99-143 | posts the outbound list built from the old conversation; emits the turn's events (send failure, non-200 status, malformed payload and read error each as one Error); appends user and assistant messages only on the sentinel |
| OpenRouter.OpenRouter.RetrieveModels | providers/models/openRouter.go:145-185 | a fresh cache is returned unchanged with no fetch; each fetch failure is returned as an error and leaves the cache alone; otherwise one model named by each listed id, in order, is stashed and returned, and the stash result never turns into an error |
| ChatRunner.RunChat | chat/chatRunner.go:55-91 | the request is posted exactly as given; a failed send emits one Error; otherwise the events are those of the shared decode loop (no context is attached or stored) |
| ChatRunner.Start | chat/chatRunner.go:41-53 | prints the text of each Content event in order, stops at the first Done (returning) or Error (fatal), and consumes nothing after it |
| ChatRunner.Turn | chat/chatRunner.go:41-91 | a failed send is fatal with nothing printed; a reply with a done chunk prints exactly the non-empty chunk texts up to and including it, in order, and returns; a reply without one prints all of them and leaves the loop waiting |

## Left out

- HTTP, JSON and the scanner are foreign libraries. A request's fate is a `Reply` input. A body is a sequence of already-split lines with a read-error flag. Decoding a line is an abstract result (`Ndjson.Line`, or the `decode` parameter for SSE payloads).
- Scanner token-size limits are folded into the read-error flag.
- The 60-second client timeout and context cancellation are left out. So are the request headers, the endpoint URLs as network targets, and logging.
- Goroutines, channels and `select` become sequences of events in send order. The `sync.RWMutex` of the refresher is omitted and the cache is modelled sequentially.
- `time.Now` and `time.Since` become `now` parameters in nanoseconds.
- ModelCache.ModelRefresher.IsStale: the time difference is unbounded. `time.Since` saturates at the `int64` range, and that is not modelled.
- OpenRouter.OpenRouter.RetrieveModels: Go slices alias, but the model's `seq` values cannot. The source stashes the very slice it returns, so a caller that mutates the returned list would change the cache. The model does not capture this. The same holds for `StashModels`, which keeps the caller's slice.
- Ollama.OllamaProvider.Chat: the source writes the context into the caller's request in place. The model returns the updated request as `sent`.
- `types/provider.go` (`ProviderService`) only forwards calls and is not part of this model. The UI, the `cmd` and `sandbox` programs, the logger and the database are not part of this model either.
- `NewChatBus` only allocates channels, so it has no counterpart here.
