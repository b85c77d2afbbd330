# HTTP over WebSocket: a verified model

HOW carries HTTP requests and responses as envelopes over one ordered connection. A *caller*
sends requests and turns the envelopes that come back into responses; a *handler* serves each
request and sends envelopes as it goes. The repository has both sides in Go and in TypeScript.
This project models the concurrent core of both and proves what callers, handlers and readers
of response bodies can rely on.

`dafny verify dfyconfig.toml` checks everything.

## What is modelled

* **Envelopes and their meaning** (`Protocol`, `Framing`). `Interpret` reads a list of envelopes
  for one request as one response: whole, streaming (bytes and ending so far), or refused.
* **The Go caller** (`GoCaller`, `GoCallerInvariants`, `GoSystem`, `GoTheorems`, `GoProgress`, `GoErasure`).
  A labelled transition system whose steps are the atomic steps of the code: append under the
  lock, signal, tryPop, each branch of each `select`, timer, context, both halves of `Close`,
  pipe writes and reads of any size, release of the slot. Any number of requests, the read loop,
  `Close` and a discrete clock interleave freely. Binary and text mode run the same code over
  different envelope types, so there is one machine. `FrameQueues.FrameQueue` is the queue as an
  object with its history.
* **The Go handler side** (`HandlerModel`, `HandlerTheorems`, `HandlerOutcomes`, `Handlers`).
  Arbitrary `http.Handler` programs, upstreams and user-written streaming handlers run against a
  transport that may reject any send. The objects and the read loop over its reused buffer are in
  `Handlers`, each method tied to the functions the theorems are about.
* **End to end** (`EndToEnd`, `TsEndToEnd`). Handlers of either side, one ordered connection and either caller
  together: what a reader may conclude. `GoArrivals` and `TsArrivals`: undisturbed, everything a handler sends
  arrives, and the end can be reached from every state.
* **The TypeScript caller** (`TsStream`, `TsModel`, `TsTheorems`, `TsBodies`, `TsCallers`,
  `TsPrograms`). Events run to
  completion in any order; the caller's chunk buffer sits above the controller queue of the WHATWG
  Streams Standard, section 4.9.4, with the default high-water mark of 1. `TsBodies` and `TsCallers` are
  the objects themselves: streams shared by callbacks and readers, entries shared by timers and the map;
  `TsPrograms` runs them on any list of events, in step with the model.
* **The TypeScript handler side** (`TsHandlers`). The settle-once listeners, the forwarding loop and
  the error path of `handleRequest`, over a transport whose rejected sends throw.
* **The two callers compared** (`Agreement`).
* **Text mode** (`Utf8`, `Json`, `JsonGrammar`, `JsonSoundness`, `RawBodies`, `TsCodec`). A concrete
  recogniser for RFC 8259, shown equal to the grammar of that document; Go's quoting and unquoting of
  strings; `RawBody`; and the TypeScript encoder and reviver over payload trees.

## Assumptions

* Request ids are distinct, and one read loop delivers whole messages in order.
* A timer that is stopped or restarted leaves no stale value behind (Go 1.23 and later; the module
  asks for 1.24). Time is a discrete clock and a second is one tick. `ReadTimeout` does not change during a run.
* `io.Pipe` has its documented behaviour: a write ends when its bytes are consumed or either side
  is closed, the first close error stays, and the reader is given it. A context's error is never io.EOF.
* A decoder may refuse any payload; a refused payload is `None`. The codec in `Framing` unpacks
  what it packed.
* The Go grammar results need a transport that keeps failing once it has failed;
  `WireGrammarIff` says exactly what happens without that. The TypeScript ones do not need it.
* The recorder behind the buffered adapter keeps the bytes of every `Write`; statuses are 100 to 999.
* In TypeScript, `sender` does not throw inside `request`. `JSON.parse` never yields byte arrays, and
  JSON text in between carries payload trees unchanged. Parsing and printing are otherwise arbitrary functions.
* Destroying a Node client request removes the data listeners of its response and drops what is buffered; a
  response that was parsed whole still emits its end event.
* The text of an error raised by a failed send is not modelled; it is the constant `SEND_FAILED`.

## Where the code departs from its documentation

The model follows the code.

* The protocol document, section 8.3, asks for an `HTTPResponseEnd` when streaming fails after the header; the
  code sends `Error` (golang/client/client.go:700-703). A failure that is reported before any End is read as a
  failure (`FailedHandlerEof`, `EofMeansComplete`); the exceptions are the next two points.
* The repository's README.md:347 says that after `Close(err)` every pending `Body.Read` returns `err`. With
  `err == io.EOF` that is the value readers take for a clean end, so a truncated body, even of a handler that
  failed, looks complete (`FailureReadAsEof`). `EofMeansEndIff`: any other error is safe.
* An error of the loopback request after its response has begun does not consult `settled`. Its cleanup drops
  the data, but the queued end of a response already parsed whole still sends End, before the Error: the
  grammar is broken and the peer reads a truncated body as complete (`ErrorAfterEnd`). `AnyEventsGrammarIff`
  and `CleanEndIff` say exactly when each happens.
* The Go forwarding handler still sends `End` after an upstream read error, so a truncated upstream body
  looks complete to the peer (`ForwardView`). The TypeScript one reports it as an `Error` (`SourceView`).
* Its section 5.1 asks for base64 in text mode; the code embeds JSON and quotes the rest.
  `RoundTripIff` and `TreeRoundTripIff` say exactly which bodies survive.
* A timeout can be reported although a frame is younger than the timeout: a frame appended after the final
  look at the queue is not seen (`LateFrameTimesOut`). `TimeoutSound` shows that this is the only exception.
* `sendResponseStart` ignores its error, so a transport that recovers lets a chunk out without its Start
  (`RecoveringTransportBreaksGrammar`).
* In text mode the TypeScript reviver looks at names only, at any depth: the values of a header called `body` or
  `data` arrive as bytes (`HeaderBecomesBytes`). `RequestSurvivesIff` and `ResponseSurvivesIff` are exact.
* The TypeScript `close` promises an error to every pending body. A stream that nobody was given, made by an
  undecodable or a second Start, takes it instead (`CloseReaches`).
* The two callers differ on envelope lists that no handler of the repository sends, such as End before Start, a
  second Start or an undecodable payload. `CallersAgreeIff` gives the exact set on which they agree.

## Model

| member | source | states |
|---|---|---|
| `Protocol.StreamBodyAppend` | golang/client/client.go:365-409 | Reading on after an open stream is reading the rest from where it stopped; after an ending nothing counts |
| `Protocol.InterpretMonotone` | golang/client/client.go:304-409 | More envelopes never take back a byte, change the status, or change an ending once reached |
| `Framing.Marshal` | golang/protocol/message.go:209-218 | A fresh slice of 0x69 and the packed envelope, which Unmarshal gives back |
| `Framing.FramesAreUnambiguous` | golang/protocol/message.go:221-234 | No message stands for two envelopes |
| `FrameQueues.FrameQueue.Push` | golang/client/client.go:42-50 | Appends at the end, sets the signal, and keeps popped ++ queue == pushed |
| `FrameQueues.FrameQueue.TryPop` | golang/client/client.go:52-63 | Takes the head exactly when there is one |
| `FrameQueues.FrameQueue.Wait` | golang/client/client.go:75-101 | Returns the first frame pushed before a stop; false only if there is none, and then everything pushed was popped |
| `GoCallerInvariants.AppendKeepsInv` | golang/client/client.go:42-50 | The locked append keeps queue, wakeup, hand-off, slot, timer and view invariants |
| `GoCallerInvariants.WaitKeeps` | golang/client/client.go:75-101 | Every step inside wait, for either consumer, keeps them |
| `GoCallerInvariants.ReqKeeps` | golang/client/client.go:239-344 | Every other step of Request keeps them |
| `GoCallerInvariants.PumpKeeps` | golang/client/client.go:353-410 | Every other step of the pump keeps them |
| `GoCallerInvariants.UseKeeps` | golang/client/client.go:189-212 | Reads of any size, cancellation, Body.Close and timers keep them |
| `GoCallerInvariants.ActKeepsInv` | golang/client/client.go:239-410 | Any step of one request keeps the whole invariant |
| `GoSystem.RunKeepsInv` | golang/client/client.go:115-605 | The invariant of all requests holds after every run |
| `GoSystem.NoFrameLost` | golang/client/client.go:65-101 | popped ++ queue == pushed in every reachable state; wait gives up only when its stop has fired, and exactly if every frame pushed was popped |
| `GoSystem.NoLostWakeup` | golang/client/client.go:42-101 | At most one consumer; if it is parked with frames queued, the signal is there to take or about to be sent |
| `GoSystem.SlotAccounting` | golang/client/client.go:253-344 | The pending keys are exactly the requests whose Request or pump will still release them |
| `GoTheorems.CallerRefinesInterpret` | golang/client/client.go:253-410 | On every schedule, Request's result, the readable bytes and the ending are those of Interpret on the frames popped; failures come only after all earlier bytes; an open stream reads as EOF only after Close(io.EOF) |
| `GoTheorems.StreamDelivered` | golang/client/client.go:353-410 | The reader holds a prefix of the popped stream, all of it once the pipe is closed; the pipe ends an open stream cleanly only with io.EOF as close error |
| `GoTheorems.TimeoutSound` | golang/client/client.go:280-302 | ErrReadTimeout, returned, closed into the pipe or read from the body, means that a timeout is configured and has passed since the timer was last started, and that the last frame is as old, unless a frame arrived after the last look and is still queued |
| `GoTheorems.StopsHaveCauses` | golang/client/client.go:292-302 | The context's error is reported only if the context or the body was cancelled, the close error only if Close has finished and with its first error |
| `GoTheorems.TimeoutVerdict` | golang/client/client.go:366-377 | At the verdict it is a timeout exactly if done and every context are silent |
| `GoTheorems.TimerWatches` | golang/client/client.go:167-175 | A waiting goroutine has its timer set for the configured time, 30 seconds or none, after it was last started; when that has passed a parked one can be woken |
| `GoTheorems.SendFailureIsReal` | golang/client/client.go:275-278 | Request reports a failed send only if one failed |
| `GoTheorems.LastLookSound` | golang/client/client.go:94-98 | At the last look there is no exception: a timer that won on an empty queue means silence for the whole timeout |
| `GoTheorems.LateFrameTimesOut` | golang/client/client.go:346-377 | A reachable run in which that exception happens and Request returns ErrReadTimeout |
| `GoTheorems.CloseChoosesFirst` | golang/client/client.go:155-165 | The first call of Close decides the error in every run |
| `GoTheorems.CloseAgreement` | golang/client/client.go:155-165 | done implies closeErr is set to the first error; every request and body that reports closure reports it |
| `GoTheorems.CloseTakesEffect` | golang/client/client.go:155-165 | Close(err) alone closes done and leaves err, or the default, behind |
| `GoTheorems.ClosedRefusesAtOnce` | golang/client/client.go:239-251 | A later request is refused with the first error, and takes no step |
| `GoTheorems.ConsumerStepLowersRank` | golang/client/client.go:353-410 | Every step of the request's own goroutines uses up a finite measure of the queued frames |
| `GoTheorems.StoppedNeverStuck` | golang/client/client.go:177-212 | Once closed or cancelled, a live request has a step, or waits only for its reader |
| `GoTheorems.StoppedReleases` | golang/client/client.go:177-212 | Once stopped, on every schedule with no further frames: at most Rank steps and the queued pops, and until the slot is released a step to take or only the reader to wait for |
| `GoTheorems.CancelReleases` | golang/client/client.go:288-302 | So after the context is cancelled |
| `GoTheorems.CloseReleases` | golang/client/client.go:155-165 | So for every request after Close |
| `GoTheorems.BodyCloseReleases` | golang/client/client.go:206-212 | After Body.Close the pump does not wait for the reader either: it has a step to take until it is done and the slot released |
| `GoProgress.ReadDelivers` | golang/client/client.go:204 | With bytes at hand Read(n) is possible, extends what was delivered by exactly the first n of them or all there are, and leaves the rest |
| `GoProgress.EndIsGiven` | golang/client/client.go:366-407 | At a pipe its writer has closed, the reader is given EOF or the error it was closed with |
| `GoProgress.WorkLowersLoad` | golang/client/client.go:353-410 | Every step of the request's goroutines and every Read into a buffer uses up a measure of queued frames, bytes in hand and bytes unread |
| `GoProgress.WorkIsBounded` | golang/client/client.go:353-410 | So on every schedule few of them are left |
| `GoProgress.RestedIsTold` | golang/client/client.go:253-410 | An undisturbed request with none left has the outcome, every byte and the ending of Interpret, of all frames pushed as long as it is registered |
| `GoErasure.NonInterference` | golang/client/client.go:565-585 | Erasing all other requests from a run leaves a run with the same outcome for the one kept |
| `GoErasure.RoutingNeverBlocks` | golang/client/client.go:587-605 | The read loop always has an enabled step, however full any queue is |
| `HandlerTheorems.DispatchComplete` | golang/client/client.go:687-721 | Every in-repository handler tries to send exactly one whole response |
| `HandlerTheorems.UserGrammarIff` | golang/client/client.go:689-706 | A user-written streaming handler obeys the grammar exactly if it writes its header first and closes last, at most once, and only when returning nil |
| `HandlerTheorems.StickyPrefix` | golang/client/client.go:808-832 | A transport that stays down puts a prefix of what was tried on the wire |
| `HandlerTheorems.WireGrammarIff` | golang/client/client.go:741-757 | For any grammatical list of sends and any transport at all: the wire obeys the grammar exactly if the first send got through or every send failed |
| `HandlerTheorems.HandlerGrammar` | golang/client/handler.go:277-357 | Any wrapped program, any upstream and any disciplined user handler, with any sticky failure: the wire is a prefix of one Response or of Start Chunk* (End or Error) |
| `HandlerTheorems.RecoveringTransportBreaksGrammar` | golang/client/client.go:741-757 | A chunk without a Start, on a transport that recovers |
| `HandlerOutcomes.StreamingTrace` | golang/client/handler.go:256-314 | One Start with the first status and the headers of that moment, one chunk per non-empty Write, one End |
| `HandlerOutcomes.WriteVerdict` | golang/client/handler.go:277-302 | A Write reports an error exactly if its bytes were refused |
| `HandlerOutcomes.AdaptersAgree` | golang/client/handler.go:217-244 | Status and body of the streamed response equal those of the buffered adapter |
| `HandlerOutcomes.ForwardView` | golang/client/handler.go:147-167 | The forwarded bytes are all bytes obtained upstream, also those that came with the final error, then a clean end |
| `HandlerOutcomes.ForwardChunkSizes` | golang/client/handler.go:147-160 | Each chunk has 1 to 4096 bytes |
| `HandlerOutcomes.ForwardStopsWhenRefused` | golang/client/handler.go:150-163 | On any transport a refused chunk is the last one tried and is followed by the report; if none is refused everything is tried |
| `HandlerOutcomes.UserView` | golang/client/client.go:689-704 | A disciplined user handler's stream carries its header, exactly the bytes it wrote, and its own ending: its error, its Close, or none |
| `HandlerOutcomes.FailureIsNotEof` | golang/client/client.go:691-704 | A handler that returns an error after its header is seen as a failure, not as a clean end |
| `HandlerOutcomes.PromiseKept` | golang/client/client.go:687-721 | For every kind of well-behaved handler, what its envelopes say is what it was given to say: its result, 502 with its reason as plain text, its program's output, its upstream's bytes, its calls |
| `HandlerOutcomes.BufferedView` | golang/client/handler.go:217-244 | The buffered adapter answers with the program's first status and all it wrote |
| `HandlerOutcomes.HealthyWire` | golang/client/client.go:808-832 | A transport that accepts everything carries exactly that |
| `HandlerOutcomes.WireIsIntendedPrefix` | golang/client/handler.go:277-302 | Whatever a sticky transport does, the wire is a prefix of what a healthy one would carry |
| `Handlers.ResponseWriter.WriteHeader` | golang/client/handler.go:46-52 | Sends one Start, the first time only |
| `Handlers.StreamingResponseWriter.WriteHeader` | golang/client/handler.go:263-275 | Commits once, with the headers as they are then |
| `Handlers.StreamingResponseWriter.Write` | golang/client/handler.go:277-302 | Commits 200 if needed, sends non-empty data, returns the transport's verdict |
| `Handlers.ServeHTTP` | golang/client/handler.go:326-338 | Running any program against the writer is DoProg |
| `Handlers.AdapterStream` | golang/client/handler.go:326-357 | Start even if the program wrote nothing, and End always |
| `Handlers.ForwardPump` | golang/client/handler.go:147-167 | The loop tries exactly PumpTried, and every slice handed to Write still holds the bytes that were sent |
| `Handlers.ForwardStream` | golang/client/handler.go:120-168 | Header, loop and returned error of the forwarding handler |
| `Handlers.MakeCalls` | golang/client/handler.go:33-65 | Any sequence of writer calls sends CallsTried |
| `Handlers.ServeBuffered` | golang/client/handler.go:217-244 | Running a program against the recorder gives its first status and all it wrote |
| `Handlers.Dispatch` | golang/client/client.go:687-721 | For any handler and any transport the sender tries exactly DispatchTried; on a sticky transport the wire is a prefix of the intended response, and grammatical for every well-behaved handler; on a healthy one it says what the handler was given to say |
| `EndToEnd.PlayKeepsWorld` | golang/client/client.go:353-410 | In every play each request's queue, the connection and its handler's envelopes stay in step |
| `EndToEnd.PoppedIsPlannedPrefix` | golang/client/client.go:565-585 | A request only ever takes the first envelopes its own handler sent |
| `EndToEnd.EndToEndGuarantee` | golang/client/client.go:353-410 | Each body yields a prefix of its handler's bytes under its handler's head; EOF means all of them and End, unless the caller was closed with io.EOF; a remote failure comes after exactly the bytes before it |
| `EndToEnd.EofMeansEndIff` | golang/client/client.go:155-165 | The exact condition on the argument of Close: EOF means End in every run whose first Close can only be given e, if and only if e is not io.EOF |
| `EndToEnd.FailureReadAsEof` | golang/client/client.go:366-377 | A run in which Close(io.EOF) makes the body of a failing handler read as complete |
| `EndToEnd.UserEndToEnd` | golang/client/client.go:687-706 | A disciplined user handler: its own header, a prefix of what it wrote, at its failure exactly what it wrote, and at EOF too, unless the caller was closed with io.EOF |
| `EndToEnd.FailedHandlerEof` | golang/client/client.go:691-704 | A handler that fails after its header is read as EOF only if the caller was closed with io.EOF |
| `EndToEnd.AdapterEndToEnd` | golang/client/handler.go:326-357 | Behind the streaming adapter: the buffered adapter's status, a prefix of its body, and at EOF the whole body, unless the caller was closed with io.EOF |
| `EndToEnd.BufferedEndToEnd` | golang/client/handler.go:217-244 | Behind the buffered adapter: its status and body in one response, a prefix of the body, at EOF all of it |
| `EndToEnd.FailureEndToEnd` | golang/client/client.go:693-718 | A Go handler that fails before its header: 502, text/plain, the reason |
| `EndToEnd.ForwardEndToEnd` | golang/client/handler.go:120-168 | Behind the forwarding handler: a prefix of the bytes obtained upstream, and at EOF all of them, unless the caller was closed with io.EOF |
| `EndToEnd.PlainEndToEnd` | typescript/src/client/client.ts:655-672 | A TypeScript handler that does not stream, on any transport: its result or its 502 |
| `EndToEnd.SourceEndToEnd` | typescript/src/client/client.ts:533-592 | A TypeScript streaming handler behind the Go caller: at EOF the whole of a response that ended, but for the handler's own false end or Close(io.EOF) |
| `GoArrivals.EverythingArrives` | golang/client/client.go:253-410 | Handler done, connection drained, no stop, nothing left to do: the caller has its outcome, the reader every byte, and its next Read the ending |
| `GoArrivals.CanPush` | golang/client/client.go:565-605 | From every undisturbed play the handler's envelopes can all be sent, delivered and pushed |
| `GoArrivals.CanFinish` | golang/client/client.go:353-410 | And then the end can be reached |
| `GoArrivals.PromiseArrives` | golang/client/client.go:687-721 | Any well-behaved Go handler: the reader is told exactly what it was given to say |
| `GoArrivals.AdaptersArrive` | golang/client/handler.go:217-244 | Behind either adapter the program's status and body arrive whole, and then EOF |
| `GoArrivals.UndecodableArrives` | golang/client/client.go:648-653 | A request that cannot be decoded fails with code 1003 and the message |
| `GoArrivals.PlainArrives` | typescript/src/client/client.ts:655-672 | So does a TypeScript handler's result, or its 502 |
| `GoArrivals.SourceArrives` | typescript/src/client/client.ts:533-592 | And a TypeScript streaming handler's upstream, with its ending |
| `TsEndToEnd.PlayKeepsWorld` | typescript/src/client/client.ts:112-290 | In every play what each request has heard, the connection and its handler's envelopes stay in step |
| `TsEndToEnd.EndToEndGuarantee` | typescript/src/client/client.ts:112-239 | The TypeScript caller behind any handler: a prefix of its bytes under its head; a clean end means End and all bytes; an error is the handler's after exactly its bytes, or the timeout's or close's |
| `TsEndToEnd.UserEndToEnd` | golang/client/client.go:687-706 | A disciplined Go handler behind the TypeScript caller: a clean end means exactly what it wrote and no error |
| `TsEndToEnd.AdapterEndToEnd` | golang/client/handler.go:326-357 | The Go streaming adapter behind the TypeScript caller: the buffered adapter's status, and at a clean end its body |
| `TsEndToEnd.BufferedEndToEnd` | golang/client/handler.go:217-244 | The Go buffered adapter behind the TypeScript caller: its status, a prefix of its body, at a clean end all of it |
| `TsEndToEnd.FailureEndToEnd` | golang/client/client.go:693-718 | A Go handler that fails before its header: 502, text/plain, the reason |
| `TsEndToEnd.PlainEndToEnd` | typescript/src/client/client.ts:655-672 | A TypeScript handler that does not stream: its result or its 502 |
| `TsEndToEnd.SourceEndToEnd` | typescript/src/client/client.ts:533-592 | A TypeScript handler behind the TypeScript caller: a clean end means a complete response, but for the handler's own false end |
| `TsArrivals.EverythingArrives` | typescript/src/client/client.ts:112-239 | Handler done, connection drained, no stop: the promise is settled as the envelopes ask, and a reader that has kept asking holds every byte and has seen the ending |
| `TsArrivals.CanDeliver` | typescript/src/client/client.ts:112-239 | From every undisturbed play all can be delivered |
| `TsArrivals.CanFinish` | typescript/src/client/client.ts:169-185 | And then a reader that keeps asking can be served |
| `TsArrivals.PromiseArrives` | golang/client/client.go:687-721 | Any well-behaved Go handler: all it was given to say, error codes aside |
| `TsArrivals.AdaptersArrive` | golang/client/handler.go:217-244 | Behind either adapter the program's status and body arrive whole, and then the end |
| `TsArrivals.UndecodableArrives` | typescript/src/client/client.ts:224-237 | A request that the Go side cannot decode is rejected with the message |
| `TsArrivals.PlainArrives` | typescript/src/client/client.ts:655-672 | So does a TypeScript handler's result, or its 502 |
| `TsArrivals.SourceArrives` | typescript/src/client/client.ts:533-592 | And a TypeScript streaming handler's upstream, with its ending |
| `TsStream.TurnKeeps` | typescript/src/client/client.ts:169-185 | Every turn of the stream keeps delivered ++ controller queue ++ buffer == received and the pull bookkeeping |
| `TsStream.CancelKeeps` | typescript/src/client/client.ts:194-201 | Cancel keeps them too |
| `TsStream.ReactionLowersEffort` | typescript/src/client/client.ts:169-185 | Every promise reaction uses up a measure of buffer, ending and pull state, and a read adds nothing to it |
| `TsStream.ReactionsAreBounded` | typescript/src/client/client.ts:169-185 | So on every schedule of reads and reactions few reactions are left |
| `TsStream.ReadTakesOrWaits` | typescript/src/client/client.ts:169-185 | A read takes the chunk at the head of the controller's queue or is counted as waiting |
| `TsStream.ReactionAnswersReads` | typescript/src/client/client.ts:175-184 | Reactions answer waiting reads with chunks, one for one, or end them all |
| `TsStream.RestedIsServed` | typescript/src/client/client.ts:170-185 | With no reaction due a reader that has kept asking has everything: both queues are empty, and the stream has closed, failed with the recorded error, or waits |
| `TsStream.CanServe` | typescript/src/client/client.ts:169-185 | And that state can be reached from every other |
| `TsTheorems.ProcessKeeps` | typescript/src/client/client.ts:112-239 | Every frame takes a pending entry to the meaning of all frames heard |
| `TsTheorems.RunKeeps` | typescript/src/client/client.ts:77-290 | The caller's invariant holds after every run of events |
| `TsTheorems.TimersAndClose` | typescript/src/client/client.ts:83-102 | A timer is armed for exactly the pending entries; a closed caller has none |
| `TsTheorems.StreamConservation` | typescript/src/client/client.ts:144-202 | No chunk is lost or reordered between the two queues; an ended stream has delivered all, for one recorded cause |
| `TsTheorems.ReaderAlwaysServed` | typescript/src/client/client.ts:169-185 | A waiting reader has a reaction due or there is nothing to deliver; once none is due, a reader that has kept asking has the bytes and the ending of all frames heard |
| `TsTheorems.CloseReaches` | typescript/src/client/client.ts:274-288 | close(err) fails the promise or the stream of every pending request with exactly err or the default, unless an unreachable stream holds the callbacks, and touches no other request |
| `TsTheorems.TimeoutReaches` | typescript/src/client/client.ts:86-94 | With a timeout configured the timer can expire for any pending request, and does so with its own error |
| `TsTheorems.RejectedAfterClose` | typescript/src/client/client.ts:242-243 | However much later, a request to a closed caller is rejected at once with the error of the first close |
| `TsTheorems.CancelLetsGo` | typescript/src/client/client.ts:186-202 | Cancelling the body of a pending request releases it and drops both queues |
| `TsTheorems.NoRequestHangs` | typescript/src/client/client.ts:77-290 | A request that is no longer pending and has heard nothing has been rejected |
| `TsTheorems.ReleasedStays` | typescript/src/client/client.ts:274-288 | After cancel, close, timeout or a final frame, later events change neither promise nor chunks nor cause |
| `TsTheorems.PromiseRefines` | typescript/src/client/client.ts:112-239 | Every promise is unsettled, resolved or rejected as TsInterpret of the frames heard says, or rejected by the timeout, if there is one, or by the error close was given |
| `TsTheorems.TsRefines` | typescript/src/client/client.ts:144-202 | Bytes and ending of every stream are those of TsInterpret on the frames heard, unless the timeout or the error close was given cut them short |
| `TsBodies.BodyStream.RunPull` | typescript/src/client/client.ts:170-185 | The pull loop on the shared variables, up to its next await or return, is the model's step |
| `TsBodies.BodyStream.Turn` | typescript/src/client/client.ts:169-185 | Every promise reaction and read of the stream object is the model's turn |
| `TsCallers.PendingRequest.OnStart` | typescript/src/client/client.ts:144-209 | The callbacks feed a new stream; the caller gets it if the promise is still unsettled, otherwise nobody can read it |
| `TsCallers.PendingRequest.Act` | typescript/src/client/client.ts:120-238 | The switch on an entry and the streams it shares with its callbacks is Process |
| `TsCallers.PendingRequest.Fail` | typescript/src/client/client.ts:229-235 | The stream's error callback if there is one, else the promise |
| `TsCallers.HOWCaller.Request` | typescript/src/client/client.ts:242-252 | Rejects at once when closed, otherwise a pending entry with its timer |
| `TsCallers.HOWCaller.ProcessEnvelope` | typescript/src/client/client.ts:112-239 | Timer, switch, and release of entry and timer on a final frame; no object of any other request changes |
| `TsCallers.HOWCaller.TimerFires` | typescript/src/client/client.ts:86-94 | The entry is released and its stream or promise fails |
| `TsCallers.HOWCaller.FailPending` | typescript/src/client/client.ts:277-286 | The loop fails exactly the pending entries, in any order |
| `TsCallers.HOWCaller.CloseCaller` | typescript/src/client/client.ts:274-288 | Idempotent; every pending entry fails with the chosen error and pending is emptied |
| `TsCallers.HOWCaller.CancelStream` | typescript/src/client/client.ts:186-202 | The consumer's cancel releases the entry and drops the buffer |
| `TsPrograms.Step` | typescript/src/client/client.ts:77-290 | Any event: what it does to all the objects together is what the model does |
| `TsPrograms.Drive` | typescript/src/client/client.ts:77-290 | Every run of the model is a run of the objects that ends with all of them in the model's state |
| `TsHandlers.SourceGrammarIff` | typescript/src/client/client.ts:533-592 | Any order of data, end and error events and any transport: the wire obeys the grammar unless the Start was lost and the report of that got out |
| `TsHandlers.PlainGrammar` | typescript/src/client/client.ts:655-672 | At most one Response for a request that does not stream |
| `TsHandlers.PlainView` | typescript/src/client/client.ts:655-672 | For any transport the peer sees the handler's result, or 502 as plain text with the reason, or nothing |
| `TsHandlers.HandlePlain` | typescript/src/client/client.ts:655-672 | The try and catch around the send put exactly those envelopes on the wire |
| `TsHandlers.SourceView` | typescript/src/client/client.ts:533-592 | The peer sees exactly the upstream's bytes and ending; an upstream failure arrives as a failure |
| `TsHandlers.UpstreamView` | typescript/src/client/client.ts:419-430 | Any list of chunks with any ending can be streamed on a healthy transport and arrives as it was |
| `TsHandlers.CleanEndIff` | typescript/src/client/client.ts:533-592 | For every list of events and every transport, exactly when the peer sees a clean end: the response's own End gets out, or, after the request has failed, an End gets out before any report |
| `TsHandlers.EofMeansComplete` | typescript/src/client/client.ts:566-589 | On any transport a clean end means a complete response, except for that second case |
| `TsHandlers.AnyEventsGrammarIff` | typescript/src/client/client.ts:586-589 | With errors of the loopback request in play, any transport: the exact condition, read off the events and the transport, is that the response is not ended twice |
| `TsHandlers.ErrorAfterEnd` | typescript/src/client/client.ts:574-589 | The request fails while the end of a response parsed whole is queued: the Error follows the End, and the peer has read a truncated body as complete |
| `TsHandlers.StreamImpl.Settle` | typescript/src/client/client.ts:547-552 | The first settlement counts |
| `TsHandlers.StreamImpl.OnData` | typescript/src/client/client.ts:566-573 | Sends a chunk unless settled; a throw settles and destroys the request |
| `TsHandlers.StreamImpl.OnEnd` | typescript/src/client/client.ts:574-583 | Sends End unless settled; a throw settles with the error |
| `TsHandlers.StreamImpl.HandleRejection` | typescript/src/client/client.ts:626-652 | Reports the failure once |
| `TsHandlers.ForwardLoop` | typescript/src/client/client.ts:419-430 | The fetch loop makes the same moves on its chunks and ending, up to the one that settles |
| `Agreement.CallersAgreeIff` | typescript/src/client/client.ts:112-239 | Both callers show the same response, error codes aside, on exactly the Agreed lists of envelopes |
| `Agreement.CallersInterchangeable` | golang/client/client.go:304-409 | Running callers on one agreed list: same head, same bytes at the end, same kind of ending, unless the Go caller was closed with io.EOF |
| `Agreement.PartialBodiesAgree` | golang/client/client.go:353-410 | Whatever has been read so far on either side is a prefix of one byte string |
| `Agreement.RefusalsInterchangeable` | typescript/src/client/client.ts:224-237 | What one caller refuses because of the peer the other never accepts, and both give the same message |
| `Agreement.GrammarAgreed` | golang/client/client.go:687-721 | Every prefix of a grammatical response is agreed |
| `Utf8.SanitizeFixed` | golang/protocol/message.go:45 | Quoting replaces nothing exactly in valid UTF-8 |
| `Utf8.ValidUtf8Iff` | golang/protocol/message.go:45 | The bytes taken for UTF-8 are exactly the encodings of sequences of code points |
| `Utf8.DecodeEncode` | golang/protocol/message.go:45 | A code point is written as one rune of the right length, from which the payload bits give it back |
| `Utf8.EncodeDecode` | golang/protocol/message.go:45 | Every rune is the one way to write its code point, which is no surrogate |
| `Utf8.SanitizedIsValid` | golang/protocol/message.go:45 | Replacing leaves valid UTF-8 |
| `Json.QuoteRoundTrip` | golang/protocol/message.go:45-62 | Unquoting a quoted string gives the bytes, bad ones replaced by U+FFFD |
| `Json.QuotedIsValid` | golang/protocol/message.go:45 | A quoted string is valid JSON |
| `Json.EscapedIsInert` | golang/protocol/message.go:45 | No control character and none of the HTML characters is left in a quoted string |
| `Json.EscapesAreRead` | golang/protocol/message.go:55-61 | Any text a peer writes in \u escapes, in either case and with surrogate pairs, is read as its code points |
| `Json.LoneSurrogateIsReplaced` | golang/protocol/message.go:55-61 | A surrogate outside a pair is read as U+FFFD |
| `Json.ShortEscapeIsRead` | golang/protocol/message.go:55-61 | The eight short escapes are read as their characters |
| `Json.UnquoteLosesWeight` | golang/protocol/message.go:55-61 | A string literal always decodes to something lighter than its text, hence different from it |
| `JsonGrammar.TreeAccepted` | golang/protocol/message.go:42 | Every text derived by the grammar of RFC 8259 is accepted |
| `JsonGrammar.Terminals` | golang/protocol/message.go:42 | The character classes are those of RFC 8259 |
| `JsonSoundness.RecogniserIsGrammar` | golang/protocol/message.go:42 | The recogniser accepts exactly the texts of the grammar within the nesting limit |
| `JsonSoundness.ValidIsGrammar` | golang/protocol/message.go:42 | Valid texts are the grammar's that nest at most 10000 deep |
| `RawBodies.MarshalIsValid` | golang/protocol/message.go:38-46 | MarshalJSON always produces valid JSON |
| `RawBodies.RoundTripIff` | golang/protocol/message.go:38-68 | Non-empty bytes survive exactly if they are UTF-8 that is not JSON, or JSON that is not null and does not begin with a quote |
| `RawBodies.RoundTripResult` | golang/protocol/message.go:38-68 | What becomes of all other bytes |
| `RawBodies.RawBody.Unmarshal` | golang/protocol/message.go:49-68 | Writes the decoded bytes, or leaves the receiver alone on an error |
| `RawBodies.SendAndReceive` | golang/protocol/message.go:38-68 | The same condition for a sender and a receiver object |
| `TsCodec.TreeRoundTripIff` | typescript/src/protocol/message.ts:103-157 | The reviver inverts the encoder exactly on trees with bytes, or null, under binary fields only, each byte string a safe leaf |
| `TsCodec.LeafIff` | typescript/src/protocol/message.ts:105-112 | A byte string survives exactly if it is BOM-free UTF-8 that is not JSON, or JSON that parsing, reviving and printing leaves as it was |
| `TsCodec.BytesExactlyUnder` | typescript/src/protocol/message.ts:96-156 | What is not null comes back as bytes under `body` and `data` and under no other name |
| `TsCodec.ChunkSurvivesIff` | typescript/src/protocol/message.ts:198-207 | A chunk message survives exactly if its bytes are a safe leaf |
| `TsCodec.RequestSurvivesIff` | typescript/src/protocol/message.ts:164-173 | A request survives exactly if its body does and no header is called `body` or `data` |
| `TsCodec.ResponseSurvivesIff` | typescript/src/protocol/message.ts:175-196 | So does a response, and the start of a streamed one |
| `TsCodec.ErrorSurvives` | typescript/src/protocol/message.ts:213-223 | An error always survives |
| `TsCodec.HeaderBecomesBytes` | typescript/src/protocol/message.ts:146-157 | The values of a header called `data` arrive as bytes |
| `TsCodec.NullLeafIsLost` | typescript/src/protocol/message.ts:148 | The bytes null do not survive |
| `TsCodec.EncodeBinaryFields` | typescript/src/protocol/message.ts:103-131 | The loop that fills a result object computes Encode |

## Left out

* MessagePack bytes, the JSON printer and parser of whole envelopes, and UUID generation: library code.
* Go's full text encoder around `RawBody` (white space compaction, HTML escaping of embedded JSON): bodies are
  followed through the pair of methods only, and streams through decoded envelopes.
* `net/http`, `fetch`, the loopback server, WebSocket connections, Register, Ping and Pong, reconnection and the
  command-line programs: foreign or not implemented here. Upstreams and programs are arbitrary scripts.
* A request that cannot be decoded is answered with a lone Error envelope (golang/client/client.go:648-653), which
  is outside the grammar; only its arrival is followed (`UndecodableArrives`), and handlers start from a decoded request.
* Header equality between the two adapters and content-type sniffing: status and body are compared, and the
  headers of the buffered adapter are any the recorder ends up with.
* The order of integer-like header names in a JavaScript object; header lists keep theirs.
* The finalizer of the body: garbage-collector timing; it performs the steps of Body.Close.
* Panics in wrapped handlers.
* Header maps are values, so the deep copy at commit is an assignment here.
* TsCallers.HOWCaller.FailPending: the loop visits the entries in any order instead of insertion order.
* TsHandlers.ForwardLoop: an upstream is a list of chunks with an optional failure, because `fetch` is foreign.
* TsCodec.NullLeafIsLost: the model of `JSON.parse` is an arbitrary function, so it is stated for one that maps null to null.
* Fairness of schedulers is not modelled: progress is stated as measures that bound every schedule, and as plays
  that reach the end from every state.
