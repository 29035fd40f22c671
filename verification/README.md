# Frisbee: a verified model of the messaging core

Frisbee sends packets over a byte stream. A frame is a ten-byte big-endian header (magic,
id, operation, content length) followed by the content. This project models the parts of
the Go implementation whose correctness is not visible in any one function, and proves
what they promise for every input and every interleaving.

| file | what it models |
|---|---|
| `Metadata.dfy` | the header codec, filled and read in place |
| `Wire.dfy` | frames and the reference decoder, a recursive function on byte strings |
| `ReadLoop.dfy` | `Async.readLoop` on a real, growing array with cursors `index` and `n`, over a connection that may cut the stream in any way |
| `SyncConn.dfy` | `Sync`, the simple connection, and how the fast decoder compares with it |
| `Lifecycle.dfy` | an `Async` connection as a step system: its constructor, writers, flushers, readers and closers in any number, and the three background loops, interleaved at every lock, atomic, channel, wait-group and connection operation |
| `LifecycleInvariant.dfy`, `LifecycleTheorems.dfy` | its inductive invariant, and the theorems about every run |
| `LifecycleOutcomes.dfy`, `LifecycleLife.dfy` | what the calls come to and what failures lead to, and one whole life of a connection as a run |
| `LifecycleStart.dfy`, `LifecycleZero.dfy` | runs in which the constructor is overtaken by its own loops, and exactly what a zero count of the wait group is worth |
| `EndToEnd.dfy` | life cycle, wire format and read loop composed |
| `Streams.dfy`, `StreamReads.dfy` | streams as values, and one stream's readers, closers and pusher as a step system |
| `Peers.dfy` | two endpoints joined by their wires, with frames and calls as steps |
| `StreamObjects.dfy` | the connection's stream table and its stream objects, updated in place, each method proved to be a step of the endpoint |
| `Dispatch.dfy`, `DispatchControl.dfy`, `DispatchPackets.dfy`, `DispatchTheorems.dfy` | the server's unlimited and limited dispatchers: any number of connections with their read loops, and of handlers, around one limiter and one packet pool |
| `Options.dfy` | the option type |
| `Handlers.dfy` | the loops that run one handler at a time: the server's single mode and the client |

How to read it. The sequential code is imperative Dafny (classes, arrays, loops), each
method proved against a specification function. The concurrent code is a step relation:
`IsRun` says what a run is, a `Next...` lemma shows that each step keeps the invariant, and
the theorems speak about any state of any run. Fields called history (`accepted`, `order`,
`pushed`, `ops`, `place`, and so on) record what happened and are consulted by no step.
I/O errors, timeouts, refusals, chunk sizes, buffer growth, what a handler returns and the
choices of the scheduler are nondeterministic.

Where comments and code disagree the model follows the code: the comment at
pkg/metadata/metadata.go:43 says eight bytes, the header has ten. A `STREAM` frame without
content is a close whether or not a stream handler is set (async.go:565), while one with
content is then dropped.

Four promises hold in part only, and the exact extent is proved, with an example of the
failure.

- Fast and simple reader agree if and only if the stream is plain
  (`SyncConn.FastAgreesWithSimple`; `SyncConn.PingDisagrees` and `SyncConn.StreamDisagrees`
  are streams on which they do not).
- A zero count of the wait group means that no loop but a winning closer will ever touch the
  connection again if and only if NewAsync has returned or the connection is closed
  (`LifecycleZero.ZeroCountExactly`). Before that it means nothing: `wg.Add` and `go`
  alternate in async.go:93-100, so the flush loop and the read loop can both fail and be
  done before the ping loop is added, which then uses the connection that nobody has closed
  yet (`LifecycleStart.ZeroTooEarly`).
- The Wait in close covers all three loops if and only if NewAsync has added the ping loop
  by then (`LifecycleTheorems.WaitCovers`). It need not have: a read loop that fails at once
  can close the connection first (`LifecycleStart.LatePing`). Such a late ping loop does no harm, because it finds the
  connection closed (`LifecycleTheorems.LoopsSilent`).
- Not every packet that is taken from the pool finds its way back. A packet is lost in a
  step if and only if a limited dispatcher's context ends while it waits for a token with
  the packet in hand (server.go:392-398), or a handler's fresh answer has the wrong length
  (server.go:246), or a read loop ends with the packet in hand: at a frame that is rejected
  or cut short within its content, at a PONG that cannot be written, or at a queue that
  refuses (async.go:528-544, 549-554, 583-595, 606-612, 634-640), but not at a read that
  fails between two frames. That is `DispatchTheorems.LostIff`;
  `DispatcherLoses`, `HandlerLoses` and `ReaderLoses` are runs in which it happens. What is
  still queued when a dispatcher returns stays in the queue
  (`DispatchTheorems.QueueLeftBehind`). Every packet a handler was started for, and every
  answer of the right length, is returned exactly once (`ReturnedOnce`, `AnswerFate`).

## Model

| member | source | states |
|---|---|---|
| MetadataCodec.HeaderRoundTrip | pkg/metadata/metadata.go:52-82 | decoding an encoded header, whatever follows it, gives the header back |
| MetadataCodec.BytesRoundTrip | pkg/metadata/metadata.go:27-82 | every ten-byte string is the encoding of the header it decodes to, so the codec is a bijection |
| MetadataCodec.PutUint16 | pkg/metadata/metadata.go:60-62 | exactly the two bytes of the field change, to the big-endian value |
| MetadataCodec.PutUint32 | pkg/metadata/metadata.go:63 | exactly the four bytes of the field change, to the big-endian value |
| MetadataCodec.Metadata.Encode | pkg/metadata/metadata.go:52-66 | the fresh buffer holds the header's bytes |
| MetadataCodec.Metadata.Decode | pkg/metadata/metadata.go:69-82 | all four fields are overwritten, and encode to the bytes that were read |
| MetadataCodec.Layout | pkg/metadata/metadata.go:27-41 | the header byte by byte: four big-endian fields at offsets 0, 2, 4 and 6 |
| MetadataCodec.EncodeMetadata | pkg/metadata/metadata.go:84-93 | the ten bytes are 0x00 0x0F, then id, operation and content length with the high byte first; they decode to the given fields |
| MetadataCodec.DecodeMetadata | pkg/metadata/metadata.go:95-102 | refuses exactly the buffers shorter than a header; otherwise the result encodes to the first ten bytes |
| Wire.FrameParses | async.go:297-369 | what writePacket puts on the wire is read back as the packet's own event, whatever follows |
| Wire.ParsedIsFrame | async.go:520-604 | conversely, a data or stream event is only ever read from the frame of exactly that packet |
| Wire.ParseIsLocal | async.go:520-604 | the verdict on a frame does not depend on later bytes |
| Wire.DecodeAppend | async.go:481-713 | decoding is incremental: later bytes only extend what was decoded, and a rejection is final |
| Wire.DecodeFrames | async.go:297-369 | the frames of any accepted packets, then anything, decode to those packets in order and then to the rest |
| Wire.DecodePrefix | async.go:481-713 | part of a well-formed stream decodes to a prefix of its packets and is never rejected |
| ReadLoop.Fill | async.go:496-517 | reads until enough bytes have come, never into an empty slice; fails only when a read failed; nothing below the base is touched |
| ReadLoop.Grow | async.go:576-579 | the growth loop ends with a large enough buffer that still holds the old bytes |
| ReadLoop.ReadContent | async.go:572-604 | the content is exactly the next `length` bytes of the stream, from the buffer, the connection or both, and the cursors stand behind it |
| ReadLoop.Refill | async.go:648-710 | afterwards a whole header is in the buffer unless a read failed, and the unread window was only extended |
| ReadLoop.ReadFrame | async.go:520-604 | one pass gives the reference decoder's verdict on the bytes it used |
| ReadLoop.Run | async.go:481-713 | decoder refinement: for every byte stream, chunking and buffer size the loop ends, handles exactly the reference decoder's events, at least ten bytes each, and stops where and why it does; it gives up only on a failed read, a bad frame or a refusal; and it ends with a packet in hand exactly at a bad frame, a refusal or a content cut short |
| ReadLoop.WholeStream | async.go:481-713 | what the loop did says the same about the whole stream: the chunking never shows |
| SyncConn.Conn.ReadExactly | sync.go:186-194 | io.ReadAtLeast over any chunking: exactly the next bytes, or a failure with fewer |
| SyncConn.Sync.CloseWithError | sync.go:278-296 | the first close records its error and closes the connection; later ones change nothing |
| SyncConn.Sync.WritePacket | sync.go:130-176 | nil means exactly the frame was appended; InvalidContentLength exactly for a wrong length, ContentLengthExceeded exactly for a right one over the maximum, neither leaving a trace; any other failure is a failed write, which closes the connection or finds it closed by another goroutine |
| SyncConn.Sync.ReadPacket | sync.go:180-231 | consumes exactly one frame, or closes the connection for the frame's own fault, or for a failed or short read, unless another goroutine closed it first |
| SyncConn.FastAgreesWithSimple | async.go:519-604 | on every byte stream the fast decoder and the simple reader give the same packets and reject the same first frame for the same reason if and only if the stream is plain |
| SyncConn.PingDisagrees | async.go:546-555 | a lone PING is a stream on which they do not agree |
| SyncConn.StreamDisagrees | async.go:559-621 | so is a lone stream close |
| SyncConn.ReadUntilError | sync.go:180-231 | repeated ReadPacket gives the packets and the fault of the recursive reader, unless the connection failed or was closed meanwhile |
| SyncConn.ReadBothWays | async.go:481-713 | the two programs on the same bytes, each with its own chunking: same packets and same ending exactly when the stream is plain |
| LifecycleTheorems.NextKeepsInv | async.go:74-479 | every step of every thread, the constructor's included, keeps the invariant |
| LifecycleTheorems.RunKeepsInv | async.go:74-479 | the invariant holds in every state of every run, from the first line of NewAsync on |
| LifecycleTheorems.Handoff | async.go:287-294 | once the winning close has returned, no thread ever again reads, writes, sets a deadline on or closes the connection |
| LifecycleTheorems.CloseLogHolds | async.go:287-294 | the connection is closed exactly by a winner that is not Raw, once, as the very last operation on it |
| LifecycleTheorems.RawHandoff | async.go:256-260 | a connection handed out by the winning Raw was never closed and is never touched again, in any interleaving |
| LifecycleTheorems.GracefulClose | async.go:397-428 | unless a write failed, when the winning close has returned the wire is exactly the frames of the packets whose writePacket returned nil, in lock order |
| LifecycleTheorems.WireIsFramed | async.go:297-369 | at every step, errors or not, the wire is a prefix of whole frames in lock order, accepted packets first |
| LifecycleTheorems.PastDeadlineHitsNoWrite | async.go:397-428 | the deadline in the past is never set while a write or flush is in progress |
| LifecycleTheorems.NoLostFlush | async.go:359-395 | while open and error-free with the mutex free, buffered bytes mean a token in the channel or a flush loop that took one and has not yet flushed |
| LifecycleTheorems.ChannelSafety | async.go:359-406 | no send on a closed channel, no second close of either channel, at most one token |
| LifecycleTheorems.WaitGroupDiscipline | async.go:93-100 | the wait group is at every step the number of loops still running, and of one that is added and not yet started; once the winner has waited, the flush loop and the read loop are gone |
| LifecycleTheorems.LoopsSilent | async.go:397-479 | after a zero count with NewAsync returned or the connection closed, no loop but a winning closer ever operates on the connection, and once the winner has waited nobody else at all does, a late ping loop included |
| LifecycleZero.ZeroCountExactly | async.go:93-100 | in every reachable state with a zero count: all loops but a winning closer stay away from the connection in every continuation if and only if NewAsync has returned or the connection is closed |
| LifecycleStart.ZeroTooEarly | async.go:93-100 | there is a run with a zero count before the ping loop is added, and a continuation in which the ping loop sets a deadline on the open connection |
| LifecycleTheorems.WaitCovers | async.go:93-100 | when the Wait returns the flush loop and the read loop have called Done; the ping loop has if and only if NewAsync had added it by then |
| LifecycleStart.LatePing | async.go:93-100 | there is a run in which the Wait has returned and the ping loop is running and counted |
| LifecycleTheorems.DoneOnce | async.go:445-479 | each loop calls Done exactly once before it counts as gone, and a loop that closes has called it |
| LifecycleTheorems.ReadsConserved | async.go:183-216 | at every step packets pushed are packets delivered, then those queued or stale, in order |
| LifecycleOutcomes.DecodedIsDelivered | async.go:605-612 | at every step every data packet the read loop has decoded is delivered, queued or stale, in order, but for the one about to be pushed, and one that the queue of a connection being closed refused, after which the loop is gone |
| LifecycleOutcomes.ReadOutcome | async.go:183-216 | a call of ReadPacket ends with the packet that is next in order, or with the news that the connection is closed |
| LifecycleOutcomes.WriteOutcome | async.go:297-369 | a call of writePacket returns nil exactly with its packet accepted, and an error only if the connection is closed or an I/O error was seen; a loop whose write failed leaves to close the connection |
| LifecycleOutcomes.FlushOutcome | async.go:374-395 | a flush that succeeds leaves nothing buffered, and fails only if the connection is closed or an I/O error was seen |
| LifecycleOutcomes.FailureCloses | async.go:430-479 | a call whose write or flush has failed, and a loop that leaves for an error, is still on its way to close or the connection is closed; none returns on an open connection |
| LifecycleOutcomes.CloseOutcome | async.go:397-428 | a call of close, won or lost, returns only when the connection is closed |
| LifecycleLife.WholeLife | async.go:74-479 | there is a run in which a received packet is delivered, a sent packet is on the wire as its frame, Close wins and closes the connection last, and the next reader is told |
| LifecycleTheorems.ClosedIsFinal | async.go:183-216 | a reader is told of the close only when every pushed packet was delivered, and nothing is pushed or delivered afterwards |
| EndToEnd.PeerSeesPrefix | async.go:297-369 | at any moment, errors or not, whatever part of the wire the peer has seen decodes to a prefix of the packets in lock order |
| EndToEnd.PeerSeesAll | async.go:397-428 | after a graceful close the peer decodes exactly the accepted packets |
| EndToEnd.Transfer | async.go:481-713 | end to end: for any accepted packets among any PINGs and PONGs, any chunking and any buffer size, the peer handles the accepted packets in order and unchanged, stream data and closes included, and its queue receives the user packets; all of them unless a read failed early or a push was refused |
| Streams.StreamKeepsConserved | stream.go:38-68 | push, close with drain, and read conserve the packets of a stream and their order |
| Streams.DataIsNeverClose | stream.go:73-83 | an accepted stream packet is read as data of its stream and the closing frame as its close: never confused |
| StreamReads.ReadsConserved | stream.go:38-68 | with any number of readers and closers packets are conserved in order, StreamClosed comes only when all were delivered, and the queue's own error never reaches a reader |
| StreamReads.ClosedIsFinal | stream.go:100-133 | after StreamClosed was reported nothing is pushed or delivered |
| StreamReads.OfferedIsDelivered | async.go:633-640 | every data frame of the stream is delivered, queued or stale, in order, but for those a closed queue refused and the one being pushed; nothing is refused before the close |
| StreamReads.ReadOutcome | stream.go:38-68 | a call of Stream.ReadPacket ends with the packet that is next in order, or with the news that the stream is closed |
| Peers.DoOk | async.go:263-271 | every API call, a stream close whose frame cannot be written included, keeps the endpoint's invariant: one-to-one table, successive streams, conservation, demultiplexing |
| Peers.ReceiveOk | async.go:546-646 | every received frame keeps it, on an open connection and on a closed one |
| Peers.ReceiveSends | async.go:546-558 | a PING is answered by one PONG unless the answer fails; no other frame, in particular no PONG and no close, provokes anything |
| Peers.CloseFrameCloses | async.go:614-621 | a closing frame closes every stream of its id with its packets still to be read, frees the id, leaves all other streams alone and sends nothing |
| Peers.RemoteClose | async.go:614-621 | the same in every two-endpoint run, when a closing frame the other side sent is received |
| Peers.DataFrameIsPushed | async.go:622-642 | a data frame is pushed on the one open stream of its id, made if there is none, and on no other; without a handler it changes nothing |
| Peers.CloseSends | stream.go:100-123 | closing an open stream drains it, frees its id and sends exactly its closing frame |
| Peers.DisconnectCloses | async.go:397-428 | closing the connection closes every stream with its packets still to be read, and sends nothing |
| Peers.CallSends | async.go:174-179 | a packet is sent exactly if the connection is open, the lengths agree and the operation is not reserved |
| Peers.StreamWriteSends | stream.go:73-83 | a stream's packet is sent under its id exactly if stream and connection are open, it has content and the lengths agree |
| Peers.PingsConserved | async.go:461-479 | over every two-endpoint run PONGs sent never exceed PINGs sent, and equal the PINGs received while open |
| Peers.CloseTrafficFinite | stream.go:100-133 | each stream object sends at most one closing frame, so closing frames never exceed streams created |
| Peers.StreamsConserve | stream.go:38-68 | no stream of either side ever loses, repeats or reorders a packet |
| Peers.StepsAreFrames | async.go:297-369 | what a side has sent decodes to exactly the events the other is given: no user or stream packet is taken for a PING, a PONG or a close |
| Peers.Demultiplexing | async.go:559-646 | for each id the packets pushed across its successive streams are exactly the STREAM data frames with that id, in wire order; open streams are exactly the table entries |
| Peers.DemultiplexingBack | async.go:559-646 | the same in the other direction |
| StreamObjects.Conn.Write | async.go:297-369 | one error for a wrong length and another for a right one over the maximum; otherwise accepted exactly if the connection is open and the write does not fail; a failed write closes the connection with all its streams |
| StreamObjects.Conn.Disconnect | async.go:397-428 | closes and drains exactly the streams in the table, with no closing frame sent |
| StreamObjects.Conn.WritePacket | async.go:174-179 | is the endpoint's Send, or on a failed write its close; the endpoint's invariant is kept |
| StreamObjects.Conn.NewStream | async.go:263-271 | is the endpoint's NewStream: the registered stream of that id, or a fresh one that is then registered |
| StreamObjects.Conn.Close | async.go:287-294 | is the endpoint's CloseConn |
| StreamObjects.Conn.ReceiveFrame | async.go:546-646 | is the endpoint's Receive on that frame: after a closing frame the id is free and its stream closed with its queue still to be read; after data with a handler set the packet is the last one pushed on the open stream of its id |
| StreamObjects.StreamObject.WritePacket | stream.go:73-83 | is the endpoint's WriteStream, or on a failed write its close; sent under the stream's id or not at all |
| StreamObjects.StreamObject.ReadPacket | stream.go:38-68 | is the endpoint's ReadStream: packets in push order, the close reported only when every one was delivered, and a wait only when an open stream has nothing queued |
| StreamObjects.StreamObject.CloseSend | stream.go:100-123 | only the first close drains, sends one closing frame and, for Close, unregisters; the table stays consistent |
| StreamObjects.StreamObject.Close | stream.go:96-98 | is the endpoint's CloseStream, failing or not: if the closing frame cannot be written, the connection is closed as well |
| StreamObjects.StreamObject.CloseQuietly | stream.go:126-133 | the same drain with nothing sent |
| DispatchControl.NextKeepsInv | server.go:237-401 | every step of every dispatcher and handler keeps the invariant of closing and limiting |
| DispatchControl.OnClosedOnce | server.go:335-401 | never more than one onClosed call completes for a connection, and exactly one has when its dispatcher returns |
| DispatchControl.HandlerCloses | server.go:253-275 | a handler whose write failed or that answered CLOSE is done only when the connection is closed, the flag won, the context cancelled and onClosed called or being called; any other handler does none of this; onClosed comes after the close |
| DispatchControl.DispatcherCloses | server.go:348-358 | a dispatcher leaves only because ReadPacket failed or its context ended; the connection is closed before anyone calls onClosed, and the handlers are cancelled before it waits for them |
| DispatchControl.NoHandlerAfterReturn | server.go:335-401 | when a dispatcher has returned none of its handlers is still at work |
| DispatchControl.LimiterConserved | server.go:156-161 | across all connections tokens held are handlers launched and not released, running handlers never exceed the concurrency that was set, giving a token back never blocks, no wait group goes negative |
| DispatchPackets.NextKept | server.go:237-401 | every step keeps the ownership invariant: each packet object that was not given up is at exactly the place where it can be found |
| DispatchTheorems.OnePlace | server.go:237-279 | no packet is ever found at two places among pool, read loops, queues, streams, dispatchers and handlers |
| DispatchTheorems.OnceThere | server.go:237-279 | no packet is pooled twice or queued twice |
| DispatchTheorems.ReturnedOnce | server.go:237-279 | a handler's packet is not pooled while in use, and was put back exactly once on every path by the time the handler closes or is done |
| DispatchTheorems.AnswerFate | server.go:246-253 | a fresh answer stays with its handler until it goes back to the pool, exactly once and exactly if its length is right, or is given up |
| DispatchTheorems.PutIsFresh | server.go:237-279 | no Put is of a packet already pooled |
| DispatchTheorems.ReaderDelivers | async.go:546-646 | the packet of a data frame goes to the end of the incoming queue, of stream data to its stream, and that of any other frame back to the pool |
| DispatchTheorems.FirstInFirstOut | server.go:335-401 | what has arrived on a connection is what ReadPacket has given out, and then what is queued, in order |
| DispatchTheorems.HoldsLastFetched | server.go:335-401 | the packet a dispatcher goes on with is the one it was given last |
| DispatchTheorems.LostIff | server.go:237-401 | a packet that could be found is nowhere after a step if and only if that step gives it up in one of the three ways above, each with its guard |
| DispatchTheorems.EndsLoopExactly | async.go:521-646 | the read loop's packet goes to no destination exactly if the frame is rejected, cut short, or refused by the PONG writer or its queue |
| DispatchTheorems.DispatcherLoses | server.go:392-398 | there is a run in which a limited dispatcher loses a packet |
| DispatchTheorems.HandlerLoses | server.go:246-261 | there is a run in which a fresh answer is lost |
| DispatchTheorems.ReaderLoses | async.go:528-544 | there is a run in which a read loop loses a packet |
| DispatchTheorems.QueueLeftBehind | server.go:335-401 | packets queued when a dispatcher returns stay in that queue for ever and are never pooled |
| Handlers.RightMeans | server.go:301 | the answers written are those whose declared length is their size modulo 2^32: every one of the right length, and none of a wrong length below 2^32 |
| Handlers.Process | server.go:293-324 | runs the handler on the packet in hand, writes the answer exactly if its declared length is its size modulo 2^32, drops exactly the fresh answers of another length, and puts back everything else, whether or not the write succeeds |
| Handlers.HandleSinglePacket | server.go:281-333 | onClosed exactly once, after Close, with the cause; packets handled and fit answers written in order; nothing used after it was put back; at the end everything that came into the loop's hands was put back as often as it came, but for unfit fresh answers; nothing is read after a failed write or a CLOSE |
| Handlers.HandleConn | client.go:176-228 | Done exactly once and before Close, so that the loop is never stuck waiting for itself; packets owned and put back as in the server |
| Handlers.Client.Close | client.go:104-115 | leaves client and connection closed; the winner returns without an error only when the dispatch loop is done, and never returns if it is itself still counted |

## Left out

- TLS, dialing, keepalive, logging, options, contexts as values and the accept loop with its backoff: plumbing.
- Time: deadlines and timeouts are read or write errors that may happen at any moment; only the deadline in the past that close sets is a state.
- queue.Circular, the packet pool, polyglot.Buffer and bufio.Writer are not part of this repository and are modelled by what is assumed of them: a FIFO queue with Close and Drain; a pool that resets a packet when it is put back, before anyone can get it again; an append-only byte buffer; a buffered writer with a sticky error that may write through at any time. Of the connection's queue nothing is assumed about popping or pushing after Close; a stream's queue refuses a push after Close. Blocking on a full queue is not modelled.
- Deadlock freedom and termination of Async.close, which waits for the read loop while it holds the stream mutex (async.go:398-408), and of Server.Shutdown after the early return that leaves a mutex locked (server.go:433-437): safety only.
- Async.Error as the first cause of closing: a later failure overwrites it (async.go:434-439).
- The error mutex and the stream-table mutex in the life cycle: they only exclude interleavings, so every run of the code is a run of the model.
- LifecycleTheorems.RawHandoff: says nothing about a Raw call that loses the race to close, which may return while the winner is still at work, about SetDeadline calls of the API racing with Raw (async.go:106-127), or about bytes the read loop had buffered.
- LifecycleTheorems.GracefulClose: the writes of the final flush and its deadlines are one step; whether the peer's host received the bytes is outside.
- Lifecycle: a read of the loop and its decoding are one step; what it decodes is arbitrary there and exact in ReadLoop. The wait group is a counter; that Go's WaitGroup may panic when Add meets a returning Wait at zero, as it can in the run of LatePing, is not modelled.
- ReadLoop.Fill: the four refill loops of the source (async.go:498, 580, 657, 689) differ only in where they read to and how much they need, and are this one method; Refill also serves as the first read.
- SyncConn.Sync.ReadPacket: for one reader at a time; the source does not lock reads, and two readers would split frames between them.
- Sync writers that send reserved operations to an Async reader: Sync has no such check, and a PING with content would not be skipped as a body.
- StreamObjects.StreamObject.ReadPacket: reports that it would wait instead of waiting; StreamReads has the waiting reader.
- Peers: frames and calls are atomic; NewStream between lookup and insertion (async.go:566-568, 627-631), a local close racing a push (async.go:634) and a closed check racing its write (stream.go:74-82) are finer. A frame on a closed connection has no effect, because the closer holds the stream mutex until the read loop is gone. A stream id may be reused; that a close frame in flight then closes the later stream is part of the model and no promise is made about it. A failed write is a close of the connection.
- Peers.Demultiplexing: for endpoints whose stream handler stays set; without one, data frames are dropped by design.
- Dispatch: handlers that panic or never return; context plumbing beyond the cancelled flag; a handler is assumed to return nothing, its input or a fresh packet; what the readers of a stream do with its packets.
- Handlers.Process: the source has this passage twice, in the server and in the client; preWrite and the packet context are not modelled.
- Handler tables: the checks admit operation 9 (client.go:44, server.go:131) although WritePacket rejects it; no claim is made.
