# StreamingServer: a verified model of its own protocol logic

The repository is a QUIC / HTTP/3 client and server written around msquic, nghttp3 and FFmpeg. This project models the logic
that is the repository's own and proves what it does, for every input, every interleaving and every run. The libraries are
environments: they may answer anything their contracts allow.

| file | what it models |
|---|---|
| `Http3Library.dfy`, `PumpRounds.dfy` | the promises of the HTTP/3 library's sending half; the rounds of the drain loop and what reached the transport |
| `Http3Pump.dfy`, `Http3PumpHistory.dfy`, `Http3PumpSafety.dfy` | the client's HTTP/3 send call entered by any number of threads, step by step; its state read off the steps of a run; and what holds in every reachable state |
| `ClientHttp3.dfy` | the same call as methods of the objects that hold its state, over a library and a transport that record what they were asked and answered; proved to be a path of the step machine |
| `DatagramSend.dfy` | the datagram fragmentation loop with a bound that changes between iterations, and exactly when it ends |
| `SendOwnership.dfy`, `SendRuns.dfy` | ownership of the client's heap blocks under any interleaving of calls and transport events; what each call has done when it is over, and the life of a block, read off the steps of a run |
| `ConnectionRegistry.dfy`, `ServerConnections.dfy` | the server's id generator, connection map and lazy close queue, and its runs |
| `ServerRead.dfy`, `StreamContext.dfy` | the receive loop over an incremental parser, and the per-stream context behind the callbacks |
| `PlaneCopy.dfy` | the I420 plane copy with strides |
| `KeyLog.dfy` | the TLS key-log printer and a reader for its lines |
| `StreamRegistry.dfy` | the stream maps and the client's opening of its three HTTP/3 streams |
| `Bytes.dfy`, `Totals.dfy` | byte strings, concatenation, sums over maps |

## Where the code departs from its evident intent

The code is modelled as written; each departure is either an exact condition or a run that shows it.

- The buffer overload of `StreamSend` announces one buffer whatever the count, while the whole payload is reported as written.
  `PumpRounds.LosesNothingExactly` gives the guards under which a round is handed over whole, `PumpRounds.Shortfall` the exact
  shortfall of the others, and `Http3PumpSafety.LossyRun` a run that loses bytes although every call succeeded. With no vector
  at all (a FIN-only round) the announced buffer lies outside the converted array: `Http3PumpSafety.StrayRun` hands over bytes
  that nobody submitted.
- The same overload returns without freeing on a connection that is down: `SendOwnership.LeaksExactly` and
  `SendOwnership.LeakingRun`.
- A thread that finds `pumping` set returns even if the pumper has already seen an empty queue:
  `Http3PumpSafety.StrandedExactly` and `Http3PumpSafety.StrandedRun`. What binding the control and QPACK streams queues waits
  for the first successful submission: `Http3PumpSafety.PendingFromStart`.
- A chunk is cast to 16 bits and the bound may be zero: `DatagramSend.EndsExactly`.
- The connection id generator comes round after 2^64 ids: `ConnectionRegistry.IssuedDistinctExactly`.
- `nvs` entries are built from strings already moved from: the model takes their text from the environment, so only their
  number and order are known (`StreamContext.HeadersAreSection`).
- The four request pseudo-headers are not reset at a new header section: `StreamContext.FreshExactly` says exactly when a field
  shows the current section, and `StreamContext.StaleRun` is a run, for each field and value, in which it does not.
- A receive event without buffers never delivers its FIN flag to the parser: `ServerRead.FinDelivery`.
- The status of the stream-id query is ignored, so an id not yet known is read as 0:
  `StreamRegistry.ClientConnection.Http3Init` says exactly when the three HTTP/3 streams come out right.

## Assumptions

- In the client's step machines a step is one library or transport call, one allocation, fill or free, or one test or write of a
  flag. In the registry a step is one method of the map, except the close job, whose turns are the steps: a turn finds the
  queue empty, or takes the front id, looks it up, erases its entry and deletes its context. Steps of any number of threads or
  listener callbacks interleave freely; each is atomic.
- Before the first `Send` the library may have anything queued on its streams, and has had nothing taken from it.
- The HTTP/3 library offers a prefix of what is pending, with FIN only together with the last pending bytes; an offer is never
  empty without FIN; it answers "no stream" (a negative id) only if nothing is pending or it failed. It adds nothing to a stream
  after its end. The vectors of one round lie in one 64-bit address space.
- The transport gives exactly one final notification for each accepted send, one shutdown-complete per connection and after the
  connection's insertion, and numbers client streams as in section 2.1 of RFC 9000.
- Streams the library sends on are registered, so the checked lookup in `StreamSendById` succeeds: their ids come from
  `OpenStream`, which registers them, and nothing is erased while the client runs.
- A parser counts the bytes it consumes except DATA payload, which it reports through a callback, and holds nothing back
  (`StreamContext.CountsPayloadApart`); only `StreamContext.EveryByteOnce` uses this.
- A heap block or context is named by its allocation, so a reused address is a new name.
- msquic's secret storage is 64 bytes per secret and its client random 32 bytes; the common length is at most 64.

## Model

| member | source | states |
|---|---|---|
| Http3PumpSafety.MutualExclusion | Client/ClientHttp3.cpp:58-82 | for any number of threads, in every reachable state, at most one is between its successful test-and-set and its clear, and the flag is set exactly while one is |
| Http3PumpSafety.Conservation | Client/ClientHttp3.cpp:67-80 | per stream, bytes handed to the transport followed by bytes not yet taken are what the start and the submissions of the run gave it, if every round kept its guards; when every round had a vector, exactly then, and the shortfall is the lost bytes |
| Http3PumpHistory.LogIsRounds | Client/ClientHttp3.cpp:71-77 | the rounds are exactly the hand-overs of the run: each the latest offer, under the connection as its last event left it, with the transport's answer |
| Http3PumpHistory.StreamsAreGiven | Client/ClientHttp3.cpp:58-61 | a stream holds what the start and the submissions of the run gave it, in order, and its end mark exactly if one of them set it |
| Http3PumpSafety.FinOnceAndLast | Client/ClientHttp3.cpp:69-79 | a stream's FIN is put into at most one round, its last, when all its submitted bytes have been taken |
| Http3PumpSafety.RoundsBounded | Client/ClientHttp3.cpp:67-80 | over a whole run there are never more drain rounds than bytes and end marks queued at the start or submitted |
| Http3PumpSafety.NeverStuck | Client/ClientHttp3.cpp:58-82 | a thread inside the call always has a step of its own that moves it on, without the library failing: work is offered in a round, no work ends the drain |
| Http3PumpSafety.StrandedExactly | Client/ClientHttp3.cpp:58-82 | when no thread is inside the call, a stream has pending work exactly if it was given some between the end of the last drain and the clear of its flag, or if that drain failed and left it behind, or if it was pending from the start and no drain has ended yet |
| Http3PumpSafety.NothingStranded | Client/ClientHttp3.cpp:58-82 | without a failed drain and without a submission in such a window, nothing stays pending once a request was submitted, or if nothing was pending at the start |
| Http3PumpSafety.StrandedRun | Client/ClientHttp3.cpp:63-82 | a run of two threads after which a request stays pending |
| Http3PumpSafety.LossyRun | Client/ClientConnectionContext.cpp:250-268 | a run in which every call succeeds and the second of two vectors is never handed over |
| Http3PumpSafety.SubmissionIsDrained | Client/ClientHttp3.cpp:58-82 | once a request was submitted, its callers do not all leave before some drain has ended |
| Http3PumpSafety.StrayRun | Client/ClientConnectionContext.cpp:250-268 | a run in which a round without a vector hands over bytes that nobody submitted |
| Http3PumpSafety.PendingFromStart | Client/ClientHttp3.cpp:35-61 | a run in which bound streams stay pending after a failed first submission |
| PumpRounds.LosesNothingExactly | Client/ClientConnectionContext.cpp:250-268 | a round with a vector loses nothing exactly if it has no payload, or is accepted on a live connection with all its payload in a first vector below 4 GiB |
| PumpRounds.Shortfall | Client/ClientConnectionContext.cpp:250-268 | over any rounds with a vector, handed bytes plus lost bytes are the offered bytes, and the transport got the offered bytes exactly if every round kept its guards |
| Http3Library.NoWorkExactly | Client/ClientHttp3.cpp:73 | the measure of the loop is zero exactly if no stream has anything to drain |
| Http3Library.ReportMeasure | Client/ClientHttp3.cpp:79 | reporting a round, even an empty one that carries FIN, lowers what is left to drain by exactly its weight |
| ClientHttp3.NgVec2QuicBuffer | Client/ClientHttp3.h:151-162 | every base pointer is kept, each length is reduced to 32 bits, and the byte total is the payload length in 64 bits |
| ClientHttp3.ConvertedTotalExact | Client/ClientHttp3.h:151-162 | the 32-bit lengths add up to the payload exactly if no vector reaches 4 GiB |
| ClientHttp3.ClientConnection.StreamSendById | Client/ClientConnectionContext.cpp:208-268 | no call of the transport on a dead connection; on a live one exactly one, with one buffer announced, for the registered stream: the bytes that the first converted buffer names in memory, or whatever lies behind an empty array, and its answer is the result |
| ClientHttp3.ClientHttp3.PumpRound | Client/ClientHttp3.cpp:68-79 | one turn: the library is asked for a round, the transport is given its first vector cut to 32 bits, and the whole payload is reported; or the library is asked and has none, or answers failure |
| ClientHttp3.ClientHttp3.constructor | Client/ClientHttp3.cpp:6-38 | both binds are called, once, with their own streams, and ignored if they fail; one that works has queued the stream's type and, on the control stream, the settings; the result is a first state of the step machine for any number of threads |
| ClientHttp3.DrainsOneMore | Client/ClientHttp3.cpp:67-80 | one more round keeps the account of bytes, offsets and weight, and lowers the measure the loop ends by |
| ClientHttp3.ClientHttp3.DrainLoop | Client/ClientHttp3.cpp:67-80 | the calls of library and transport are those of a chain of rounds, each taken from what the one before left, and a last answer without a round: if that is not a failure, nothing is left |
| ClientHttp3.ChainIsPath | Client/ClientHttp3.cpp:67-80 | such a chain is a path of the thread through the step machine, with the same streams and the same log |
| ClientHttp3.ClientHttp3.SubmitAndDrain | Client/ClientHttp3.cpp:58-82 | exactly one submission, of the request; nothing more exactly if the library refused it or the flag was taken; else the calls of the drain, whose rounds, unless the library answered failure, are what was pending, per stream; the flag is set during the drain and left as it was |
| ClientHttp3.ClientHttp3.Send | Client/ClientHttp3.cpp:45-83 | the same call, seen from any state of the step machine, is a path of the thread; with the flag clear and no call of the library answering failure, the drain is complete |
| DatagramSend.DatagramSender.Send | Client/ClientConnectionContext.cpp:159-201 | without a usable connection nothing is sent, otherwise exactly the fragments of the specification |
| DatagramSend.DatagramSender.SendChunks | Client/ClientConnectionContext.cpp:176-200 | the loop computes the fragments, whatever happens in each iteration |
| DatagramSend.Lossless | Client/ClientConnectionContext.cpp:176-200 | the attempted chunks followed by the rest are the input, and the loop has ended exactly if no rest is left |
| DatagramSend.ChunksWithinBounds | Client/ClientConnectionContext.cpp:176-199 | if every bound read is in 1..65535, each chunk is non-empty and within the bound read for it |
| DatagramSend.OnlyAllocationStops | Client/ClientConnectionContext.cpp:179-196 | a failed allocation, and nothing else, ends the call early; a refused send does not |
| DatagramSend.ConstantBound | Client/ClientConnectionContext.cpp:176-200 | a constant bound m in 1..65535 gives ceil(len/m) chunks, all but the last of size m |
| DatagramSend.NeverEnds | Client/ClientConnectionContext.cpp:176-200 | with a zero bound, or a bound and a length past 65535, the loop uses up every schedule |
| DatagramSend.EndsExactly | Client/ClientConnectionContext.cpp:176-200 | for a constant bound, exactly the lengths the loop ends for |
| DatagramSend.EndsForEveryLength | Client/ClientConnectionContext.cpp:176-200 | the loop ends for every length exactly if the constant bound is in 1..65535 |
| SendOwnership.OneOwner | Client/ClientConnectionContext.cpp:159-268 | in every reachable state each block has exactly one owner (one thread, the transport, nobody, or freed), none is freed twice or used after its free, and blocks in flight are unchanged since hand-over |
| SendOwnership.LeaksExactly | Client/ClientConnectionContext.cpp:250-255 | a live block has no owner, neither a thread nor the transport, exactly if the buffer overload returned early with it on a connection seen down |
| SendOwnership.LeakingRun | Client/ClientConnectionContext.cpp:250-255 | a run that ends with every call over, nothing in flight, and the block still live |
| SendOwnership.NothingBeforeConnected | Client/ClientConnectionContext.cpp:161-255 | until the connection has come up, no call hands anything to the transport |
| SendOwnership.KeepsOwned | Client/ClientConnectionContext.cpp:159-268 | every single step keeps the ownership invariant |
| SendRuns.EveryCall | Client/ClientConnectionContext.cpp:159-268 | a call that is over has done exactly this: a datagram call on a usable connection has called the transport with the fragments of its input under the bounds its turns read; a call for bytes on a live connection with memory, and one for buffers that saw the connection up, with its whole input, once; any other not at all |
| SendRuns.DatagramComplete | Client/ClientConnectionContext.cpp:176-200 | whatever bounds, refusals and events it met, a datagram call that began on a usable connection, found memory at each turn and is over has put its whole input before the transport, in order |
| SendRuns.InputAccounted | Client/ClientConnectionContext.cpp:176-200 | at every point inside a datagram call, the bytes put before the transport, followed by those in its hands and those left, are its input |
| SendRuns.NeverStuck | Client/ClientConnectionContext.cpp:159-268 | a thread inside a call always has a step of its own that moves it on, with no allocation or transport call failing |
| SendRuns.EventsSeen | Client/ClientConnectionContext.cpp:302-369 | the connection and the two datagram fields are as the last event of each kind left them |
| SendRuns.FreedExactly | Client/ClientConnectionContext.cpp:370-407 | a block has been freed exactly if its final notification came, or a call that was refused with it has ended |
| SendRuns.InFlightExactly | Client/ClientConnectionContext.cpp:193-264 | a block is in flight exactly if an accepted transport call with it has not had its final notification, which then can come |
| SendRuns.AllFreed | Client/ClientConnectionContext.cpp:370-407 | when all calls are over and every accepted hand-over has been answered, what is still live is exactly the blocks of an early return on a connection seen down; every other block allocated in the run has been freed |
| ConnectionRegistry.ConnectionMap.ConnectionCloseJob | Server/ConnectionMap.h:34-42 | the draining loop computes the specified closing, including the failing lookup |
| ConnectionRegistry.CloseSucceedsExactly | Server/ConnectionMap.h:34-42 | the job meets no unknown id exactly if the queue is duplicate-free and holds only live ids |
| ConnectionRegistry.CloseIsDifference | Server/ConnectionMap.h:34-42 | a successful job empties the queue, removes exactly the queued ids and frees exactly their contexts in queue order |
| ConnectionRegistry.IssuedDistinctExactly | Server/ConnectionMap.h:16-18 | the ids handed out are distinct exactly up to 2^64 of them |
| ServerConnections.QuicServer.ServerListenerCallback | Server/QUICServer.cpp:34-67 | the close job runs on every event; a new connection gets the next id and a fresh context, inserted without overwriting |
| ServerConnections.RegistrySafety | Server/ConnectionMap.h:9-44 | over all runs of up to 2^64 ids and any number of overlapping listener callbacks: ids are distinct and live, closed or in the hand of one callback, and the lookup never fails |
| ServerConnections.HistoryIsSteps | Server/QUICServer.cpp:41-57 | the connections inserted are those of the run's insertions, each callback's own id with its own context, and the ids shut down are those of the shutdown-complete events, in order |
| ServerConnections.ClosedInOrder | Server/ConnectionMap.h:29-42 | contexts are deleted in the order of the run's shutdown-complete events, each once; every event has its context deleted or its id queued; the connections are the insertions of the run without those deleted |
| ServerConnections.NoLeak | Server/QUICServer.cpp:41-57 | every context allocated is live, deleted, or in the hand of exactly one callback |
| ServerConnections.ListenerCatchesUp | Server/QUICServer.cpp:41 | when a callback leaves its close job, exactly the connections of the run without a shutdown-complete event are live |
| ServerConnections.LifeRun | Server/QUICServer.cpp:34-67 | a run in which a connection comes, is shut down, and is gone after the next listener event |
| ServerConnections.ShutdownKeepsInv | Server/ServerConnectionContext.cpp:249-257 | a shutdown-complete queues the id and keeps the registry invariant |
| ServerConnections.TurnsAreCloseAll | Server/ConnectionMap.h:34-42 | turns with nothing in between do what the whole close job is specified to do, a failing lookup included |
| ServerConnections.CallbackIsPath | Server/QUICServer.cpp:34-67 | an uninterrupted listener callback is a path of the step machine with the effect the method states |
| ServerRead.ServerHttp3.Read | Server/ServerHttp3.cpp:207-224 | the loop feeds the parser as specified and returns the total or the first negative answer |
| ServerRead.CallsInOrder | Server/ServerHttp3.cpp:211-223 | buffers are parsed in order up to the first error, which is returned; without one the result is the sum of the answers |
| ServerRead.FinDelivery | Server/ServerHttp3.cpp:213 | FIN reaches the parser exactly if the flag is set, there is a buffer and no earlier one failed; then once, with the last |
| ServerRead.ChunkingInsensitive | Server/ServerHttp3.cpp:207-224 | for any incremental parser, feeding a non-empty buffer list is feeding its concatenation once, errors included |
| ServerRead.SameBytesSameEffect | Server/ServerHttp3.cpp:207-224 | two ways of cutting the same bytes have the same effect and result |
| StreamContext.StreamCtx.OnBeginHeaders | Server/ServerHttp3.cpp:36-70 | resets the request, the stores and the counters and keeps the four pseudo-header fields |
| StreamContext.StreamCtx.OnRecvHeader | Server/ServerHttp3.cpp:73-106 | a pseudo-header sets its field, any other header is appended to the stores |
| StreamContext.StreamCtx.OnRecvData | Server/ServerHttp3.cpp:116-133 | the payload is appended to the body, created if missing, and reported to flow control |
| StreamContext.BodyIsSection | Server/ServerHttp3.cpp:116-127 | the body is the concatenation of DATA payloads since the latest begin-headers, and absent exactly if there were none |
| StreamContext.CreditIsTotal | Server/ServerHttp3.cpp:129 | the bytes passed to receive-complete are all payload bytes of the run |
| StreamContext.HeadersAreSection | Server/ServerHttp3.cpp:93-103 | the stores hold, in order, the regular header fields since the latest begin-headers, with one nv entry each |
| StreamContext.PseudoHeadersAreLast | Server/ServerHttp3.cpp:85-92 | each pseudo-header field holds the last value of the whole run |
| StreamContext.CountersRestart | Server/ServerHttp3.cpp:65-67 | the send offset is 0 once a header section has begun, and the two credit counters always are |
| StreamContext.KindOfNames | Server/ServerHttp3.cpp:85-92 | exactly :method, :scheme, :authority and :path have fields of their own |
| StreamContext.FreshExactly | Server/ServerHttp3.cpp:46-57 | each of the four fields shows the current header section exactly if the section brought that pseudo-header, or the run's last value of it is empty |
| StreamContext.StaleValue | Server/ServerHttp3.cpp:46-57 | a section that does not bring a pseudo-header is seen with the value from before it |
| StreamContext.StaleRun | Server/ServerHttp3.cpp:46-57 | for each field and each value, a run after which the field holds a value its section does not have |
| StreamContext.FieldsReadInPieces | Server/ServerHttp3.cpp:207-224 | for any library whose calls compose, the fields, credit and result after reading a buffer list are those of reading its concatenation |
| StreamContext.EveryByteOnce | Server/ServerHttp3.cpp:129 | the bytes a receive event returns as consumed and those its callbacks pass to receive-complete are together exactly its bytes |
| StreamContext.BodyReadInPieces | Server/ServerHttp3.cpp:116-133 | however a DATA payload is cut into buffers, body and credit are those of the whole, and the loop's result counts none of it |
| PlaneCopy.CopyI420ToAVFrame | Client/Encoder.cpp:3-18 | each byte at data[p] + y * linesize[p] + x is the source byte of its pixel, counted from 0, W*H and W*H + (W/2)*(H/2) for p = 0, 1, 2, inside the bounds, and every other byte of the memory is unchanged |
| PlaneCopy.CoversExactly | Client/Encoder.cpp:9-17 | the bytes that may change are exactly the pixels of the three planes |
| PlaneCopy.CopyPlane | Client/Encoder.cpp:9-11 | one plane is copied row by row and nothing else changes |
| PlaneCopy.RoundTrip | Client/Encoder.cpp:3-18 | packing the planes again gives back the source picture |
| PlaneCopy.Tiling | Client/Encoder.cpp:5-7 | each byte of the source picture belongs to exactly one pixel of one plane |
| KeyLog.EncodeHexBuffer | Client/ClientConnectionContext.cpp:450-462 | the front of the string becomes the hexadecimal form, the rest is unchanged, for every 8-bit length |
| KeyLog.HexRoundTrip | Client/ClientConnectionContext.cpp:457-461 | hexadecimal text decodes to the bytes it came from |
| KeyLog.PrintSecret | Client/ClientConnectionContext.cpp:497-507 | a set secret adds its line through the reused scratch buffer without a stale tail |
| KeyLog.WriteSslKeyLogFile | Client/ClientConnectionContext.cpp:483-555 | the text written is the comment and the lines of the set secrets |
| KeyLog.KeyLogRoundTrip | Client/ClientConnectionContext.cpp:483-555 | reading the text recovers exactly the set secrets, in order and under the labels of the file format, for every combination of flags and all byte values |
| StreamRegistry.FirstWins | Client/StreamMap.h:36-45 | an id finds the stream first registered under it, whatever is registered later |
| StreamRegistry.UniqueIdsAllFound | Server/ServerConnectionContext.cpp:133-140 | with unique ids every stream stays reachable under its own |
| StreamRegistry.ClientConnection.OpenStream | Client/ClientConnectionContext.cpp:139-152 | a stream is registered under the id the transport tells, or under 0 if it does not |
| StreamRegistry.OpensUpToFailure | Client/ClientConnectionContext.cpp:33-42 | exactly the streams before the first failure are opened; they are in the map then and nothing in it is replaced |
| StreamRegistry.ClientConnection.Http3Init | Client/ClientConnectionContext.cpp:26-48 | success is a live connection and three streams opened; on a failure the map, the counter and the ids are those of the streams opened before it; after success they are unidirectional exactly if all three ids were known, and then distinct and registered |

## Left out

- OnBeginHeaders: does not model the lookup of a missing stream context (Server/ServerHttp3.cpp:40-44); what it finds is decided
  by msquic's context slot.
- StreamSendById: does not model the exception of a failed lookup; it is excluded by the registration of every stream.
- Http3Pump: a failed write-offset report, stream blocking and acknowledgements of the HTTP/3 library; this code never uses them.
- NgVec2QuicBuffer: a failed allocation, which the code does not check before writing to the array.
- Read: overflow of the `long int` total; the sum of consumed bytes is unbounded in the model.
- CopyI420ToAVFrame: 32-bit overflow of `W*H` and of the row offsets, and negative strides.
- SendOwnership: the 32-bit `Length` field of the raw-bytes overload for inputs of 4 GiB and more.
- The request header list of `ClientHttp3::Send` and what the HTTP/3 library makes of it: the bytes of a submission are arbitrary.
- Data races on the unsynchronised queue, maps and flags: each operation is one atomic step.
- The per-stream context slot of the server's stream callback and the detached `Http3Init` thread of the server: both depend on
  msquic behaviour that is not part of this model.
- OpenStream: the shutdown of the connection that a failed opening asks the transport for.
- Files, the console, configuration and credentials, the webcam, the H.264 encoder and both `main` functions.
- `QUICServer::ServerSend` and the logging-only callbacks: unused or without state.
