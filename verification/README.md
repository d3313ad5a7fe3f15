# BoltAPI protocol core in Dafny

A model of the protocol engines of BoltAPI and proofs about every run, every input or every
registered route of them: the HTTP/2 connection (RFC 9113) for both server and client, HPACK (RFC 7541),
the router, the HTTP/1.1 request parser with the chunked coding (RFC 9112), the server-sent-events
formatter, and the pool of HTTP/2 streams.

`dafny verify dfyconfig.toml` checks the whole project.

## How it is laid out

HTTP/2 has two layers. `Http2Spec` gives every entry point of the connection as a function on a value
`Conn`, which besides the source's fields carries a log of everything that happened: frames in, frames
out, streams opened, answers begun, callbacks. A run is any sequence of steps (`Step`, `Legal`, `After`):
frames that arrive, application calls, and output handed to the socket, in any order. `Http2Trace` reads
the log: what was granted, sent, received, announced. `Http2Invariant` ties fields to log,
`Http2Leaves` to `Http2Safety` prove that every step keeps that, `Http2Reach` names the states runs lead to,
`Http2Ends` adds who has ended and who was told, and `Http2Theorems`, `Http2History`, `Http2Capacity`,
`Http2Wire` and `Http2Runs` state what follows for every reached state. `Http2Silence` and `Http2Peer` follow the
header blocks to the other end: a peer that parses the octets and decodes the blocks gets the fields handed over.
`Http2Connection` is the second layer: a class whose fields are updated in place (open-id array with swap
removal, ring of closed ids, output buffer with offset and compaction, loops for pumping, settings and
resets); each method is proved to compute the function it is named after, and each entry point to lead from reached
states to reached states, so the theorems hold of the object.
`Http2Input` gives the meaning of octet streams, with no reads in them, over any deterministic connection;
`Http2Endpoint` is the reading loop with its reassembly buffer around a `Connection`, and keeps its states reached.

HPACK: `HpackList` and `HpackSpec` are the values, `HpackTable` (ring over a compacting arena) and
`HpackCodec` the objects that refine them, `HpackRoundTrip` the inverse laws.

Router: `RouterSpec` and `RouterTheorems` state the rule, `RouterSearch` the search in priority order,
`RouterTrie` and `RouterWalk` the trie and the explicit stack, `Routing` the class, `RouterSlots` the room in
its segment array.

HTTP/1: `Http1Spec` is the parser on values, `Http1Parser` the cursor-driven objects, `Http1Chunked` the
chunked coding and `Http1Grammar` its grammar. `Sse` holds the formatter, and as its inverse the event-stream parser of the HTML standard.

A request callback is the last thing a frame handler does, so an application that answers from inside it
is the same as one that answers right after the frame. Calls from inside a response callback are refused
by the source and are not steps.

## Promises the code does not keep everywhere

Each has a run or an input that breaks it and the exact condition under which it holds.

* Frames after a reset. A malformed PRIORITY frame, or a server's own reset call, on an odd identifier above
  all used ones sends RST_STREAM and leaves the identifier usable; a later request on it is answered.
  `UsedAfterReset` is such a run; `LateExactly` and `StepRecords` say exactly when. What is sent is in order even then.
* GOAWAY cutoffs. One sent before the client preface is complete names stream 0, and streams are accepted after
  it: `AcceptedAboveCutoff`, `GoawayCutoffs`, `EarlyGoawayExactly`.
* Closed streams. A response finished before its request leaves the stream closed in the table:
  `ClosedStreamStays`, `LingersExactly`.
* Router misses. A path of more than 32 segments finds no wildcard route and the empty path no root route:
  `DeepWildcardMissed`, `EmptyPathMissed`; `MatchIsMostSpecific` holds exactly otherwise.
* Segment slots. A refused registration keeps the slots of the segments before the bad one, so the array may be
  outgrown: `Overfull`; it never is with at most 132 refusals: `SlotsFitExactly`.
* Chunk-size lines. The scan refuses a line whose CR is at offset 4096, the reference decoder of the fuzz
  target accepts it: `LongLineRefused`, `ScanAgrees`.
* Reused request objects. Query, fragment, upgrade protocol and body of an earlier request survive a later one
  that has none: `StaleBody`, `ReuseIsFreshExactly`. Retries of one request are not affected: `RetryIsFresh`.

Where comment and code differ the code is followed: the router's note that the last of several equal
patterns wins (`src/router.cpp:382-386`) is contradicted by the condition below it, which keeps the first.

## Model

| member | source | states |
|---|---|---|
| `Http2Theorems.NoStuckData` | src/http/http2_connection.cpp:553-597 | in every reached state of a live connection, a body that waits has its own or the connection's send window shut, or, for a client, no room for its next frame in the output backlog |
| `Http2Pump.EnoughPasses` | src/http/http2_connection.cpp:581-597 | given more passes than the potential, pumping ends with nothing left that could be sent |
| `Http2Pump.PumpShrinks` | src/http/http2_connection.cpp:553-579 | every DATA frame sent lowers that potential |
| `Http2Pump.PotentialBound` | src/http/http2_connection.cpp:584-586 | in every state the windows allow, the potential is far below the 2^20 passes granted, so the bound never stops pumping |
| `Http2Theorems.ConnectionWindowConserved` | src/http/http2_connection_recv.cpp:452-463 | while the connection lives, its send window = 65535 + increments received - DATA octets sent; never negative, never above 2^31-1, in dead connections too |
| `Http2Theorems.StreamWindowConserved` | src/http/http2_connection_recv.cpp:361-372 | while the connection lives, each stream's send window = the peer's current initial window + its increments - its DATA octets; within 32-bit range across any SETTINGS changes, those that kill the connection half way included |
| `Http2Theorems.ReceiveWindowsConserved` | src/http/http2_connection_recv.cpp:597-677 | receive windows = initial + returned - received (padding included), always above half, for the connection and each stream that can receive |
| `Http2Theorems.DataAlwaysFits` | src/http/http2_connection_recv.cpp:601-622 | no frame within the local size limit ever reaches either receive flow-control error |
| `Http2Theorems.OutputWellFramed` | src/http/http2_connection.cpp:434-475 | local SETTINGS first, every frame within the peer's limit in force when it was queued, header blocks unbroken |
| `Http2Theorems.MessagesInOrder` | src/http/http2_connection.cpp:505-579 | for every stream, the HEADERS and CONTINUATION payloads sent spell exactly the block made for it, the DATA sent is a prefix of the body given for it, and all of it once END_STREAM is sent |
| `Http2Theorems.NothingLate` | src/http/http2_connection.cpp:553-579 | unless its id was reset before first use, no HEADERS or DATA follow END_STREAM or RST_STREAM on a stream |
| `Http2Theorems.AtMostOneAnswer` | src/http/http2_connection.cpp:505-516 | a stream is answered at most once |
| `Http2Theorems.RequestsDelivered` | src/http/http2_connection_recv.cpp:586-595 | no request is reported twice or before its END_STREAM has arrived; each with exactly its unpadded DATA, as long as it declared and no longer than allowed; a response is complete only once its END_STREAM has arrived and every octet of its unpadded DATA has been reported, in order |
| `Http2Theorems.EndedRequestsReported` | src/http/http2_connection_recv.cpp:547-595 | on a live server: a stream of the table is reported exactly when it receives no more, and every accepted request whose END_STREAM has arrived was reported or reset by either side, unless its last header block is still incomplete |
| `Http2Theorems.EndedResponsesLeave` | src/http/http2_connection_recv.cpp:205-227 | a live client keeps no stream whose response has ended, unless its last header block is still incomplete |
| `Http2Ends.StepEnds` | src/http/http2_connection_recv.cpp:295-322 | every step keeps END_STREAM received, receiving state and reports in step |
| `Http2Theorems.StreamTableAgrees` | src/http/http2_connection.cpp:606-628 | open ids are distinct, odd, at most 100 and exactly the streams of the table; opened ids increase, so none is reused |
| `Http2Theorems.NoClosedStreamLingers` | src/http/http2_connection.cpp:599-604 | a server stream that was not answered early is never closed in the table |
| `Http2Theorems.HpackFollowsBlocks` | src/http/http2_connection_recv.cpp:521-530 | on a live connection, the decoder state is what decoding all completed header blocks in order gives, whatever became of their streams |
| `Http2Theorems.EventsFollowGrammar` | src/http/http2_connection_recv.cpp:174-227 | a client's events for each request follow (1xx Headers)* Headers Data* Trailers? and one terminal, Complete only at the declared length; the stream leaves the table with exactly that terminal; the Data events of a stream in the table, and of any stream when it is reported complete, concatenate to the DATA that arrived for it |
| `Http2Theorems.GoawayCutoffs` | src/http/http2_connection.cpp:638-661 | cutoffs never grow and never exceed the highest accepted stream; each is that stream, with none accepted after, exactly when none was sent before the preface or no stream was accepted at all |
| `Http2Safety.RunInv` | src/http/http2_connection_recv.cpp:295-322 | every state of every run satisfies the whole invariant |
| `Http2Safety.StepInv` | src/http/http2_connection_recv.cpp:295-322 | every frame, call and drain keeps it |
| `Http2History.LateExactly` | src/http/http2_connection.cpp:664-687 | HEADERS or DATA follow the end or reset of a stream exactly when its unused id was reset and then used |
| `Http2History.StepRecords` | src/http/http2_connection.cpp:664-687 | which steps reset an unused id and which answer a request before it ended, exactly |
| `Http2History.EarlyGoawayExactly` | src/http/http2_connection.cpp:649-709 | which steps send GOAWAY before the preface is complete, exactly |
| `Http2History.LingersExactly` | src/http/http2_connection.cpp:599-604 | a server stream is closed in the table exactly when it receives no more, was answered early and the answer is through; on a live connection, exactly when it was also reported |
| `Http2Counterexamples.UsedAfterReset` | src/http/http2_connection_recv.cpp:442-450 | a run that answers on a stream it reset before |
| `Http2Counterexamples.AcceptedAboveCutoff` | src/http/http2_connection.cpp:638-647 | a run that accepts a stream above a cutoff it sent |
| `Http2Counterexamples.ClosedStreamStays` | src/http/http2_connection.cpp:539-542 | a run that leaves a closed stream in the table |
| `Http2Capacity.ClientOutputFits` | src/http/http2_connection.cpp:434-454 | a client never has more pending than the buffer it reserves once (include/boltapi/http/http2_connection.h:289-290) |
| `Http2Wire.OutputReparses` | src/http/http2_frame.cpp:75-109 | all octets queued parse back to exactly the frames queued, SETTINGS first |
| `Http2Wire.QueuedReparses` | src/http/http2_connection.cpp:434-454 | so for any log whose frames are within the 24-bit size |
| `Http2Frames.HeaderRoundTrip` | src/http/http2_frame.cpp:75-109 | parsing undoes writing a frame header |
| `Http2Frames.HeaderReencodes` | src/http/http2_frame.cpp:75-109 | writing undoes parsing, but for the reserved bit |
| `Http2Peer.PeerReadsHeaders` | src/http/http2_connection.cpp:505-579 | over any run of a server or client, a peer that parses the octets queued, assembles the header blocks and decodes them in order gets exactly the header lists handed over in accepted calls, in order, from any decoder that allows the table sizes announced by then |
| `Http2Peer.EmitBlockSpoken` | src/http/http2_connection.cpp:456-475 | one block in as many frames as it takes reaches the peer as one block, whole |
| `Http2Peer.ApplySettingsModest` | src/http/http2_connection_recv.cpp:343-386 | after a SETTINGS frame the encoder announces no table size above the last one the peer gave |
| `Http2Input.ReadSplitIndependence` | src/http/http2_connection_recv.cpp:234-293 | however an octet stream is cut into reads, the connection ends as after one read of the whole, and with the same pending octets unless it is dead |
| `Http2Endpoint.Endpoint.constructor` | src/http/http2_connection.cpp:277-316 | a fresh connection with its preface count and empty buffer |
| `Http2Endpoint.Endpoint.ProcessInput` | src/http/http2_connection_recv.cpp:234-293 | on the connection object, the loop with zero-copy and reassembly paths computes that meaning, consumes all input unless the connection is or becomes dead, and leads from reached states to reached states |
| `Http2Endpoint.Endpoint.TakePreface` | src/http/http2_connection_recv.cpp:238-248 | the preface octets of a read, all at once, mean what they mean one by one |
| `Http2Endpoint.Endpoint.Direct` | src/http/http2_connection_recv.cpp:253-263 | a whole frame in hand is delivered without the buffer, with the meaning of delivering it |
| `Http2Endpoint.Endpoint.Gather` | src/http/http2_connection_recv.cpp:264-285 | the reassembly path takes at least one octet and keeps the meaning of the stream |
| `Http2Endpoint.Endpoint.Frames` | src/http/http2_connection_recv.cpp:249-292 | the loop over both paths delivers exactly the octets handed in |
| `Http2Endpoint.Endpoint.Call` | src/http/http2_connection.cpp:505-687 | an application call between reads moves the connection by that step and leaves preface and buffer alone |
| `Http2Endpoint.Endpoint.Run` | src/http/http2_connection_recv.cpp:234-293 | reads and application calls on the object, in any order, end where the values of the model end, in a reached state |
| `Http2Runs.ReadsAreOneRun` | src/http/http2_connection_recv.cpp:234-293 | from any tracked state, octets in any reads are one legal run to the state one read of them all reaches |
| `Http2Runs.EventsAreOneRun` | src/http/http2_connection_recv.cpp:234-293 | from a fresh connection, octets in any reads and application calls in between, in any order, drive one legal run |
| `Http2Runs.ReadsMerge` | src/http/http2_connection_recv.cpp:234-293 | two reads with no call between them are as good as one, whatever came before and comes after |
| `Http2Runs.FreshWireTracked` | src/http/http2_connection.cpp:277-316 | a fresh connection, its preface count and its empty buffer meet what these ask for |
| `Http2Connection.Connection.constructor` | src/http/http2_connection.cpp:277-316 | the initial connection, its SETTINGS queued (and a client's preface before), which is a reached state |
| `Http2Connection.Connection.QueueFrame` | src/http/http2_connection.cpp:434-454 | one frame's octets join the output; compaction loses nothing: committed and pending octets are all octets queued |
| `Http2Connection.Connection.QueueHeaderBlock` | src/http/http2_connection.cpp:456-475 | HEADERS and CONTINUATION frames cover the block; the guard never ends the loop |
| `Http2Connection.Connection.Drain` | src/http/http2_connection.cpp:416-423 | committed octets leave the buffer |
| `Http2Connection.Connection.CommitOutput` | src/http/http2_connection.cpp:416-425 | committed octets leave and a client pumps again; reached states stay reached |
| `Http2Connection.Connection.Prefaced` | src/http/http2_connection_recv.cpp:238-249 | the preface is complete; reached states stay reached |
| `Http2Connection.Connection.NotifyResponse` | src/http/http2_connection.cpp:382-395 | an event with the stream's status as it stands |
| `Http2Connection.Connection.Unlist` | src/http/http2_connection.cpp:606-612 | swap removal from the open ids |
| `Http2Connection.Connection.CloseStream` | src/http/http2_connection.cpp:606-628 | the stream leaves table, list, and is remembered |
| `Http2Connection.Connection.IsRecentlyClosed` | src/http/http2_connection.cpp:630-636 | the ring answers for the last 256 closed ids |
| `Http2Connection.RingPushed` | src/http/http2_connection.cpp:624-625 | the ring holds the last 256 ids it was given |
| `Http2Connection.Connection.ResetClientStreams` | src/http/http2_connection.cpp:397-406 | every stream of a client gets its terminal event, last opened first |
| `Http2Connection.Connection.QueueGoaway` | src/http/http2_connection.cpp:638-656 | the next cutoff and its frame |
| `Http2Connection.Connection.ConnectionError` | src/http/http2_connection.cpp:649-662 | GOAWAY, death, resets, once; reached states stay reached |
| `Http2Connection.Connection.StreamError` | src/http/http2_connection.cpp:664-680 | RST_STREAM unless the peer is not reading, and the stream is dropped |
| `Http2Connection.Connection.SendChunk` | src/http/http2_connection.cpp:567-578 | one DATA frame, both windows charged, the sending half ended with the last octet |
| `Http2Connection.Connection.PumpStream` | src/http/http2_connection.cpp:553-579 | how much a stream may send now |
| `Http2Connection.Connection.PumpPass` | src/http/http2_connection.cpp:586-594 | one frame per stream over a snapshot |
| `Http2Connection.Connection.PumpData` | src/http/http2_connection.cpp:581-597 | passes until nothing moves |
| `Http2Connection.Connection.Answer` | src/http/http2_connection.cpp:538-550 | header block at once, body left to the windows |
| `Http2Connection.Connection.SendResponse` | src/http/http2_connection.cpp:505-551 | refused, reset for oversized headers, or answered; reached states stay reached |
| `Http2Connection.Connection.ValidateRequest` | src/http/http2_connection_recv.cpp:155-172 | what a client's request must satisfy |
| `Http2Connection.Connection.AddStream` | src/http/http2_connection_recv.cpp:578-581 | a stream joins the table and the open ids |
| `Http2Connection.Connection.SendRequest` | src/http/http2_connection.cpp:350-380 | refused without effect, or a stream opened and its request sent; reached states stay reached |
| `Http2Connection.Connection.Launch` | src/http/http2_connection.cpp:368-378 | the new stream is entered in table and list and its request sent |
| `Http2Connection.Connection.SendRst` | src/http/http2_connection.cpp:682-687 | reset by the application: of any nonzero id on a server and of a stream in the table on a client, with its exact effect on table and log; reached states stay reached |
| `Http2Connection.Connection.SendGoaway` | src/http/http2_connection.cpp:689-709 | orderly or failing shutdown by the application; reached states stay reached |
| `Http2Connection.Connection.AdjustWindows` | src/http/http2_connection_recv.cpp:361-371 | every open stream's window moves by the change, up to the first overflow |
| `Http2Connection.Connection.ApplySetting` | src/http/http2_connection_recv.cpp:346-384 | one setting, with its range check |
| `Http2Connection.Connection.ApplySettings` | src/http/http2_connection_recv.cpp:343-386 | the settings in order, up to the first that kills the connection |
| `Http2Connection.Connection.HandleSettings` | src/http/http2_connection_recv.cpp:324-341 | SETTINGS applied, acknowledged, and pumped; an acknowledgement must be empty |
| `Http2Connection.Connection.HandlePing` | src/http/http2_connection_recv.cpp:388-397 | PING answered with its own octets |
| `Http2Connection.Connection.HandleGoaway` | src/http/http2_connection_recv.cpp:399-425 | GOAWAY: all streams reset on error, those above the cutoff otherwise |
| `Http2Connection.Connection.ResetBeyond` | src/http/http2_connection_recv.cpp:416-425 | streams above the cutoff are reset in the order of a snapshot taken first |
| `Http2Connection.Connection.HandleRst` | src/http/http2_connection_recv.cpp:427-440 | RST_STREAM ends a known stream, tells a client, and kills the connection on an idle one |
| `Http2Connection.Connection.HandlePriority` | src/http/http2_connection_recv.cpp:442-450 | PRIORITY changes nothing but is a stream error when malformed or self-dependent |
| `Http2Connection.Connection.HandleWindowUpdate` | src/http/http2_connection_recv.cpp:452-475 | credit to the connection or a stream, bounded by 2^31-1, then pumping |
| `Http2Connection.Connection.HandleHeaders` | src/http/http2_connection_recv.cpp:477-502 | HEADERS with padding and priority stripped: a finished block, or one awaiting CONTINUATION |
| `Http2Connection.Connection.HandleContinuation` | src/http/http2_connection_recv.cpp:504-519 | CONTINUATION of the block in progress only, within the size limit |
| `Http2Connection.Connection.FinishBlock` | src/http/http2_connection_recv.cpp:521-530 | the decoder sees every completed block before anything can refuse it |
| `Http2Connection.Connection.FinishRequestBlock` | src/http/http2_connection_recv.cpp:531-546 | a new request: refused, reset or opened, ids strictly increasing |
| `Http2Connection.Connection.FinishTrailers` | src/http/http2_connection_recv.cpp:547-557 | a request's trailer section |
| `Http2Connection.Connection.OpenStream` | src/http/http2_connection_recv.cpp:560-584 | the stream of an accepted request |
| `Http2Connection.Connection.CompleteRequest` | src/http/http2_connection_recv.cpp:586-595 | the request callback, or a length error |
| `Http2Connection.Connection.FinishResponseBlock` | src/http/http2_connection_recv.cpp:174-190 | a client's header blocks: refused, reset, headers or trailers |
| `Http2Connection.Connection.ResponseHead` | src/http/http2_connection_recv.cpp:190-207 | informational and final response headers |
| `Http2Connection.Connection.ResponseTrailer` | src/http/http2_connection_recv.cpp:183-207 | response trailers |
| `Http2Connection.Connection.CompleteResponse` | src/http/http2_connection_recv.cpp:210-227 | the terminal event, an unfinished upload cut off |
| `Http2Connection.Connection.HandleData` | src/http/http2_connection_recv.cpp:597-651 | DATA charged to the windows |
| `Http2Connection.Connection.TakeData` | src/http/http2_connection_recv.cpp:618-651 | its payload credited and reported |
| `Http2Connection.Connection.ReplenishConn` | src/http/http2_connection_recv.cpp:653-664 | the connection's window topped up |
| `Http2Connection.Connection.ReplenishStream` | src/http/http2_connection_recv.cpp:665-674 | a stream's window topped up |
| `Http2Connection.Connection.HandleFrame` | src/http/http2_connection_recv.cpp:295-322 | the first frame must be SETTINGS; nothing interleaves a header block; reached states stay reached, so every theorem holds of the object |
| `Http2Connection.Connection.Dispatch` | src/http/http2_connection_recv.cpp:305-321 | one handler per frame type, unknown types ignored |
| `Http2Validate.ValidateFields` | src/http/http2_connection_recv.cpp:99-151 | one scan decides the declarative rules on names, values, pseudo-headers, lengths and size, and yields length, status and whether it is HEAD |
| `Http2Validate.CheckField` | src/http/http2_connection_recv.cpp:107-143 | one field against the facts gathered so far |
| `Http2StreamPool.StreamManager.Create` | src/http/http2_stream.cpp:393-421 | a plain map gains the stream exactly when its id is new and the index has room, else nothing visible changes; live and free slots partition the pool |
| `Http2StreamPool.StreamManager.Get` | src/http/http2_stream.cpp:423-430 | lookup in that map |
| `Http2StreamPool.StreamManager.Remove` | src/http/http2_stream.cpp:432-438 | removal from that map |
| `HpackTable.DynamicTable.Add` | src/http/hpack.cpp:148-172 | ring and arena denote the newest-first list with the entry inserted, older ones evicted by size, or the empty list if it is too large |
| `HpackTable.DynamicTable.MakeRoom` | src/http/hpack.cpp:154-156 | evictions leave the longest fitting prefix; the entry limit never evicts on its own |
| `HpackTable.DynamicTable.Reserve` | src/http/hpack.cpp:158-160 | after compaction the entry always fits |
| `HpackTable.DynamicTable.Compact` | src/http/hpack.cpp:134-146 | sliding the bytes and all offsets leaves the list unchanged |
| `HpackTable.DynamicTable.EvictOldest` | src/http/hpack.cpp:118-132 | the oldest entry leaves |
| `HpackTable.DynamicTable.Get` | src/http/hpack.cpp:174-182 | the i-th newest entry |
| `HpackTable.DynamicTable.SetMaxSize` | src/http/hpack.cpp:184-189 | evicts to the new size |
| `HpackTable.DynamicTable.Clear` | src/http/hpack.cpp:191-194 | empties the list |
| `HpackList.Evict` | src/http/hpack.cpp:184-189 | what stays is the longest prefix that fits |
| `HpackList.Insert` | src/http/hpack.cpp:148-172 | the new entry is first and the size is within bounds, or it alone was too large and nothing is left |
| `HpackInteger.IntRoundTrip` | src/http/hpack.cpp:384-407 | prefix integers decode back exactly when below the prefix range plus 2^35 |
| `HpackInteger.DecodeInteger` | src/http/hpack.cpp:214-234 | the decoding loop |
| `HpackInteger.DecodeIntBound` | src/http/hpack.cpp:214-234 | what it accepts stays within 2^35 + 2^8, so 64 bits suffice |
| `HpackSpec.FindFrom` | src/http/hpack.cpp:94-99 | the first static entry with that name and value, zero only if there is none |
| `HpackSpec.FindNameFrom` | src/http/hpack.cpp:101-106 | the first static entry with that name, zero only if there is none |
| `HpackRoundTrip.StringRoundTrip` | src/http/hpack.cpp:236-262 | strings, Huffman coded or not, decode back exactly when within the limit, the 8/5 buffer always large enough |
| `HpackRoundTrip.FieldRoundTrip` | src/http/hpack.cpp:447-467 | each field, with its sensitive flag, decodes back exactly when its strings are within the limit, and adds nothing to the table |
| `HpackRoundTrip.BlockRoundTrip` | src/http/hpack.cpp:294-361 | a whole block with any pending size update decodes back from every decoder state that admits the announced size |
| `HpackCodec.Decoder.Decode` | src/http/hpack.cpp:294-361 | every representation is processed; the cap cuts only what is handed out |
| `HpackCodec.Decoder.DecodeStep` | src/http/hpack.cpp:304-350 | one representation |
| `HpackCodec.Decoder.DecodeString` | src/http/hpack.cpp:236-262 | a string literal, plain or Huffman coded, or refusal |
| `HpackCodec.Decoder.DecodeLiteral` | src/http/hpack.cpp:272-292 | a literal with indexed or new name |
| `HpackCodec.Decoder.LookupIndex` | src/http/hpack.cpp:264-270 | the static table first, then the dynamic list newest first |
| `HpackCodec.Decoder.SetMaxTableSize` | src/http/hpack.cpp:206-210 | the limit and, where it is lower, the table are cut to the new size |
| `HpackCodec.Encoder.Encode` | src/http/hpack.cpp:432-472 | the block if it fits; a failed call keeps a pending size update |
| `HpackCodec.Encoder.EncodeOne` | src/http/hpack.cpp:447-467 | one field: indexed when the static table has it and it is not sensitive, else literal |
| `HpackCodec.Encoder.EncodeString` | src/http/hpack.cpp:409-430 | Huffman coding where it is shorter, nothing beyond the buffer |
| `HpackCodec.Encoder.EncodeInteger` | src/http/hpack.cpp:384-407 | the encoding loop |
| `HpackCodec.Encoder.SetMaxTableSize` | src/http/hpack.cpp:374-382 | only reductions are announced |
| `RouterTheorems.MatchIsMostSpecific` | src/router.cpp:458-605 | for every request, collision-free keys: the route found is the least literal, param, wildcard sequence among all that match, first registered among equals, with its captured values, and none only if none matches, exactly unless the path is empty or over 32 segments and a route matches it |
| `RouterTheorems.DeepPathsMiss` | src/router.cpp:491-495 | beyond 32 segments nothing is found, and only wildcard routes would match |
| `RouterTheorems.DeepWildcardMissed` | src/router.cpp:491-495 | a path of 33 segments and a lone wildcard |
| `RouterTheorems.EmptyPathMissed` | src/router.cpp:464 | the empty path misses the root route, though it has the segments of "/" |
| `RouterTheorems.StaticHitIsRight` | src/router.cpp:466-474 | a static hit is the best match there is |
| `RouterTheorems.TableHoldsFirst` | src/router.cpp:389-414 | a table that keeps its first insert serves the first of the routes that share a key |
| `RouterTheorems.StaticIsBest` | src/router.cpp:466-474 | nothing is more specific than a static route that matches |
| `RouterSearch.SearchFindsBest` | src/router.cpp:521-602 | search in the order literal, param, wildcard yields the most specific candidate |
| `RouterSpec.CapturedInPlace` | src/router.cpp:559-572 | each captured value is the segment at its param's position |
| `RouterSpec.SplitUndoesJoin` | src/router.cpp:185-213 | splitting a joined path gives its segments back |
| `RouterWalk.OverwriteKeeps` | src/router.cpp:559-572 | overwriting captures during backtracking disturbs none still in use |
| `RouterWalk.WorkShrinks` | src/router.cpp:521-602 | the walk terminates: every push costs more than it adds |
| `RouterWalk.StackBound` | src/router.cpp:509 | one frame per depth: the stack never outgrows the path by more than one |
| `RouterWalk.ParamKid` | src/router.cpp:559-572 | the limit of 16 params never refuses a branch |
| `RouterTrie.GrownServes` | src/router.cpp:314-323 | a new node keeps edges and labels in agreement |
| `RouterTrie.EnteredServes` | src/router.cpp:382-386 | a terminal node names the first route registered with its pattern |
| `RouterTrie.AbsentFindsNone` | src/router.cpp:541-572 | a node the trie lacks hides no route |
| `Routing.Router.Add` | src/router.cpp:231-287 | accepts exactly well-formed patterns with room left, records them as written, and takes exactly so many slots of the segment array |
| `RouterSlots.SlotsFitExactly` | src/router.cpp:246-281 | whatever is registered, no segment is stored outside the array exactly as long as at most 132 registrations are refused |
| `RouterSlots.SlotsBounded` | src/router.cpp:246-281 | an accepted registration takes at most 32 slots, a refused one keeps at most 31 |
| `RouterSlots.Overfull` | src/router.cpp:246-281 | 133 refusals and then 4096 full routes take more slots than there are |
| `Routing.Router.SplitPath` | src/router.cpp:185-213 | the non-empty segments, unless there are too many |
| `Routing.Router.ParseSegments` | src/router.cpp:250-281 | segments become literals, params or a last wildcard, with at most 16 params, or the pattern is refused |
| `Routing.Router.Intern` | src/router.cpp:257-277 | the code of a text stays its code as the dictionary grows |
| `Routing.Router.Build` | src/router.cpp:327-418 | trie and static table serve all routes as the invariant demands; the node pool never runs out |
| `Routing.Router.Insert` | src/router.cpp:361-385 | one route joins the trie |
| `Routing.Router.BuildStatics` | src/router.cpp:389-414 | one key per static route |
| `Routing.Router.RequestHash` | src/router.cpp:427-454 | a request's canonical hash is that of its segments, whatever its slashes |
| `Routing.Router.Backtrack` | src/router.cpp:500-605 | the loop with its stack computes the recursive search, values included |
| `Routing.Router.Step` | src/router.cpp:521-602 | one turn of the loop keeps the goal of the search, lowers the work left and never needs more than 33 frames |
| `Routing.Router.TryLiteral` | src/router.cpp:541-557 | the literal branch is taken first |
| `Routing.Router.TryParam` | src/router.cpp:559-572 | then the param branch, its value stored at the current depth |
| `Routing.Router.TryWild` | src/router.cpp:574-598 | last the wildcard, which captures the rest of the path |
| `Routing.Router.Match` | src/router.cpp:458-605 | static hit, else trie, else none |
| `Http1Spec.ParseStable` | src/http/http1_parser.cpp:118-235 | a verdict of complete or malformed, with all fields and the consumed count, is unchanged by any extension of the buffer |
| `Http1Spec.HeadStable` | src/http/http1_parser.cpp:145-190 | so for the request line and fields |
| `Http1Parser.RetryIsFresh` | src/http/http1_parser.cpp:127-144 | retrying one object on a growing buffer gives what one parse of a new object gives |
| `Http1Parser.ReuseIsFreshExactly` | src/http/http1_parser.cpp:127-144 | an object used before gives what a new one gives exactly when the request sets every field it still holds |
| `Http1Parser.StaleBody` | src/http/http1_parser.cpp:198-230 | a request without a body keeps the old one |
| `Http1Parser.Parser.Parse` | src/http/http1_parser.cpp:118-235 | verdict, consumed count and every field, for each outcome |
| `Http1Parser.Parser.ReadHead` | src/http/http1_parser.cpp:145-190 | request line and fields |
| `Http1Parser.Parser.ReadHeaders` | src/http/http1_parser.cpp:167-189 | at most 100 fields up to the empty line |
| `Http1Parser.Parser.ReadHeader` | src/http/http1_parser.cpp:446-492 | one field name and its value |
| `Http1Parser.Parser.ReadWord` | src/http/http1_parser.cpp:329-412 | the method and the target, up to their space |
| `Http1Parser.Parser.GetHeader` | src/http/http1_parser.cpp:14-21 | the first field of that name, letter case aside |
| `Http1Parser.Parser.ReadValue` | src/http/http1_parser.cpp:494-537 | a field value, trimmed |
| `Http1Parser.Parser.ReadVersion` | src/http/http1_parser.cpp:414-444 | the version, or another protocol |
| `Http1Parser.Parser.ReadFraming` | src/http/http1_parser.cpp:64-91 | one pass decides the declarative framing rules: lengths agree, one chunked coding, never both |
| `Http1Parser.Parser.ExtractFraming` | src/http/http1_parser.cpp:64-102 | and connection handling |
| `Http1Parser.Parser.ReadLength` | src/http/http1_parser.cpp:48-60 | a decimal length of at most 16 digits and at most 2^53, or refusal |
| `Http1Parser.Parser.ReadBody` | src/http/http1_parser.cpp:192-230 | the chunked, counted or absent body |
| `Http1Parser.Parser.SplitUrl` | src/http/http1_parser.cpp:539-567 | path, query and fragment |
| `Http1Chunked.ScanAgrees` | fuzzers/http/http1_chunked.cpp:24-66 | the scan gives the reference decoder's verdict and raw length, except that a CR at offset 4096 is malformed |
| `Http1Chunked.LinesAgree` | src/http/http1_parser.cpp:248-273 | a chunk-size line is read as the reference reads it exactly when its CR is not at offset 4096, and is else malformed |
| `Http1Chunked.LongLineRefused` | src/http/http1_parser.cpp:262-272 | such a body, whole for the reference and malformed for the scan |
| `Http1Chunked.ScanChunked` | src/http/http1_parser.cpp:277-308 | the bounded loops compute the unbounded scan: their guards never end one |
| `Http1Chunked.ScanTrailer` | src/http/http1_parser.cpp:295-307 | the trailer section up to its empty line |
| `Http1Chunked.ReadDigits` | src/http/http1_parser.cpp:252-258 | the value and length of the run of hex digits, read one past the limit at most |
| `Http1Chunked.ChunkSizeLine` | src/http/http1_parser.cpp:248-273 | the loop finds the hex run and line end the line grammar gives |
| `Http1Chunked.HexFits` | src/http/http1_parser.cpp:252-261 | sixteen hex digits fit in 64 bits |
| `Http1Chunked.ScanStable` | src/http/http1_parser.cpp:277-308 | more input changes no verdict but incomplete |
| `Http1Chunked.PayloadIsReference` | fuzzers/http/http1_chunked.cpp:24-66 | on accepted input the payload is the reference decoder's |
| `Http1Chunked.DechunkInPlace` | src/http/http1_parser.cpp:310-327 | decoding over the same buffer leaves that payload in front |
| `Http1Chunked.TakeChunk` | src/http/http1_parser.cpp:320-323 | moving a chunk down over the same buffer spoils nothing still to be read |
| `Http1Grammar.EncodedBodyDecodes` | src/http/http1_parser.cpp:277-308 | every sequence of non-empty chunks a 64-bit length can describe has a rendering, which is accepted to its last octet, between any octets before and after, and decodes to the chunks joined |
| `Http1Grammar.RenderedIsAccepted` | src/http/http1_parser.cpp:248-308 | any body the grammar renders, with extensions, leading zeros and trailers, is accepted to its last octet wherever it stands and decodes to its data |
| `Http1Grammar.AcceptedIsRendered` | src/http/http1_parser.cpp:248-308 | any accepted body is rendered by the grammar octet for octet, from the data it decodes to |
| `Sse.StreamRoundTrip` | fuzzers/http/sse.cpp:24-71 | for any accepted events, comments and retry hints, the client dispatches exactly those events in order, data with its line breaks normalised, the last id carried forward |
| `Sse.StreamResumes` | src/http/sse.cpp:34-57 | and goes on doing so when the stream is continued |
| `Sse.RejoinedIsNormalised` | fuzzers/http/sse.cpp:60-71 | data lines rejoined are the text with CRLF, CR and LF made LF |
| `Sse.FormatEvent` | src/http/sse.cpp:34-50 | appends the event, or nothing if a field is not clean |
| `Sse.FormatComment` | src/http/sse.cpp:52-57 | appends the comment |
| `Sse.FormatRetry` | src/http/sse.cpp:59-66 | appends the hint, or nothing if negative |
| `Sse.AppendLines` | src/http/sse.cpp:21-30 | one prefixed line per line of the text, at least one |
| `Sse.CleanField` | src/http/sse.cpp:11-17 | no line break, no NUL, not too long |

## Left out

- QUIC, HTTP/3, the application layer, TLS, the pools and the socket loops: not part of this model.
- The error codes that calls return to the application, and the refusal of calls from inside a response callback.
- The connection holds its HPACK state as values; `HpackCodec` proves that the codec objects compute the same functions. The reading loop's fields are in an object of their own around the connection.
- Http2Peer.PeerReadsHeaders: asks, like the round trip, that the Huffman coder loses nothing.
- HTTP/2 streams are values in a map that methods reassign; pointers to them, the client's slot array and failing allocation are not modelled.
- Http2Connection.Connection.OpenStream: the stream's header map with its joining of repeated fields (`src/http/http2_connection_recv.cpp:572-577`) is simple storage and not modelled, and creating the stream does not fail.
- Http2StreamPool.StreamManager.Create: the index refuses by its count alone; its hashing and allocation are not modelled.
- Huffman coding is a pair of functions; the round trip asks that it loses nothing and that no code is shorter than five bits.
- Http2Wire.OutputReparses: stream identifiers are compared modulo 2^31, as the wire carries them.
- Http2Capacity.ClientOutputFits: stated between calls; within a call the backlog only grows, so it bounds every queued frame.
- RouterTheorems.MatchIsMostSpecific: asks that no static route shares its hash with another request, and that the static table keeps its first insert or no two static routes are equal; the table itself is not part of this model.
- Routing.Router.Intern: the limits of the dictionary and its text pool are not modelled.
- Routing.Router.Add: parameter names are not kept, and registration is not refused for want of dictionary room; patterns are kept per route, with the slots of the flat array counted; FNV-1a and swiss_mix are functions given to the model.
- HTTP/1 views are values.
- The byte-order mark and UTF-8 decoding of event streams.
- Server push and `StreamManager::update_initial_window_size`: the connection does not use them.
