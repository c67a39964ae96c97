# zincio-http, verified

A Dafny 4.11 model of the protocol cores of zincio-http, an HTTP/1, HTTP/2 and
HTTP/3 server library in Rust, with proofs of what they promise. All files are
checked together: `dafny verify dfyconfig.toml`.

The model has five parts.

1. **The HTTP/2 send side** (`SendTrace`, `Sender*`, `Connection`). The
   connection is a state machine over WINDOW_UPDATE, SETTINGS, HEADERS,
   RST_STREAM, faults, graceful shutdown and the messages of stream tasks. Every
   frame it writes and every credit it accepts is appended to a trace, and the
   peer's accounts are recomputed from that trace alone. What the trace records
   as received is proved to be what the events gave (`SenderLedger`). An
   invariant kept by every event gives credit conservation, body integrity,
   stream identity and the absence of idle credit after every run. The field
   blocks on the wire are those the tasks asked for (`SenderTalk`), the reset
   budgets and the closing of the connection follow from the events
   (`SenderReports`), and GOAWAY and RST_STREAM tell the peer what happened
   (`SenderNotices`). Further, the deficit round-robin is proved to terminate,
   to leave nothing sendable and to be fair. With tasks that send in the order
   their driver gives them, no stream ends twice and the memory of closed
   streams is exactly the latest ones (`SenderOrder`). `Connection` is the
   object with its mutable fields and loops; each method equals the step of the
   state machine.
2. **HPACK** (`Bits`, `PrefixInt`, `Huffman*`, `Hpack*`). Prefixed integers, the
   Huffman bit packer with its 64-bit accumulator, the octet-wise automaton built
   from the nibble-wise one, the dynamic table with its two lookup maps, and
   encoder and decoder proved to stay in step over whole conversations, with
   what a refused block leaves behind. The decoder is also proved against a
   writer of all of section 6 of RFC 7541 (`HpackText`). The
   static table, the code table and the automaton are parameters with validity
   predicates.
3. **The HTTP/3 frame codec** (`Varint`, `H3*`). A flat parser and serializer
   proved inverse in both directions, and the decoder over a deque of chunks
   proved equal to the flat parser for every way of cutting the input.
4. **The HTTP/2 frame codec** (`H2Frame`, `H2Layout`, `H2Codec`). Writer and
   parser inverse for every frame kind and padding, field-block splitting,
   incremental decoding, and the continuation discipline.
5. **HTTP/1 buffers and bodies, and the HTTP/3 reset budget** (`H1*`,
   `ResetBudget`). The gather-write buffer with real aliasing of copied chunks,
   both flushes against any stream behaviour, the body readers against any
   socket splitting, the body loop of a response with flushes that are dropped
   half-way, and the leaking bucket.

Operations that the source runs in loops over mutable state are methods proved
against specification functions; the theorems are about those functions.

## What holds only under a condition

Where a promise does not hold of the code for every input, the code is modelled
as it is and the exact condition is proved, with inputs that fail it.

- Trailers end a stream even while its body is still queued
  (`TrailersComplete`, `TrailersCanCutTheBody`).
- HEADERS for a stream whose entry is gone are still written, so of the handler
  alone END_STREAM can be sent twice (`HeadersEndOnce`, `OrphanHeadersEndTwice`).
  The stream tasks never send such a list: with them it does not happen
  (`OrderedTasksEndOnce`).
- A WINDOW_UPDATE for a stream without an entry is tolerated only for the last
  4096 streams closed (`UpdateTolerated`); one that was refused or never opened
  is not among them, so it is a connection error (`NeverOpenedNotTolerated`,
  `RefusedStreamIsForgotten`).
- Raising SETTINGS_INITIAL_WINDOW_SIZE sends nothing, so a body can wait with
  both windows open until the next WINDOW_UPDATE (`NewWindowLeavesCreditIdle`,
  `RaisedWindowIsNotUsed`).
- Several HPACK size updates queued for one block merge to their maximum, not to
  the latest (`LatestUpdateWins`). A refused block leaves the two tables
  different unless nothing from the refused header on would have changed the
  table (`RefusedBlock`, `RefusedUpdate`, `CookieHidesNewHeader`).
- The HTTP/2 decoder takes the peer's SETTINGS_MAX_FRAME_SIZE as its own receive
  limit. Section 6.5.2 of RFC 9113 defines it as what the announcing side is
  willing to receive. The comment in the source reads it as what that side may
  send; the model follows the code (`LimitFollowsPeer`, `PeerRaisesReceiveLimit`).
- A flattened flush that is cancelled or fails inside a block keeps the accepted
  part queued, so a later flush sends it again (`FlattenedResumes`,
  `InterruptedBlockIsRepeated`); a vectored flush does not. `write_response`
  drops a flush whenever the next body frame is ready, so with flattened writes
  octets of a response can come twice (`FlattenedOnce`, `HeadOctetComesTwice`).
- A sized HTTP/1 body cut off by the end of the stream is reported as complete
  (`ReadSized`). The two octets behind a chunk are not compared with CRLF and a
  plus sign is taken in front of its size (`AcceptedChunk`, `ChunkEndUnchecked`,
  `NonStandardAccepted`), while chunk extensions, which section 7.1.1 of RFC 9112
  asks recipients to ignore, are refused (`ExtensionRefused`).
- Slices that hold no octets at all make a vectored flush fail with a zero write
  (`FlushVectored`).

The module comment of `src/h3/frame.rs` says that limits on HEADERS payloads are
left to the driver and that oversized frames are frame errors; the code enforces
the first itself and reports the second as excessive load. The model follows the
code.

## Model

| member | source | states |
|---|---|---|
| `SenderLedger.FlowSafety` | src/h2/connection/handlers.rs:512-765 | after every run of events: initial window and frame size are the last ones the peer set; connection and stream credit left plus bytes sent is what the accepted WINDOW_UPDATEs of the run and the initial window add up to; no DATA frame overran either window or the frame size; windows stay in range unless the connection is closing |
| `SenderLedger.StepTook` | src/h2/connection/handlers.rs:512-671 | every event gives exactly what it says, whatever the connection does with it: credit, settings, an opened stream, a task message, an acknowledgement |
| `SenderLedger.HeardIsSaid` | src/h2/connection/handlers.rs:94-154 | after every run the streams opened, the SETTINGS acknowledged and the messages heard are those of the events |
| `SenderLedger.HighestIsTop` | src/h2/connection/handlers.rs:101-111 | until a shutdown begins the highest stream is the highest odd id the peer sent HEADERS for |
| `SenderTalk.BlocksFollowMessages` | src/h2/connection/handlers.rs:945-1104 | after every run, on every live stream, the blocks on the wire are in order and with their end flags those asked for by the messages taken from its channel until the stream ended, which takes an end mark, and then only interim ones; the response-started and task-done flags say what was taken |
| `SenderTalk.HeadBeforeData` | src/h2/connection/handlers.rs:1013-1049 | after every run no DATA frame of a stream precedes its response HEADERS, if its task hands over HEADERS first |
| `SenderTalk.FinishedStreamsLeave` | src/h2/connection/handlers.rs:1075-1104 | after every run a stream whose task closed in order has no entry once its end is sent |
| `SenderTalk.StepTalk` | src/h2/connection/handlers.rs:945-1104 | every event keeps the blocks of every stream in agreement with what its task said |
| `SenderTalk.WakeTakes` | src/h2/connection/handlers.rs:945-1001 | back-pressure: a wake-up empties the channel of a stream with nothing queued and leaves that of one whose DATA waits for credit alone |
| `SenderReports.BudgetsCount` | src/h2/connection/handlers.rs:470-510 | after every run one budget is the number of streams the peer reset before anything was answered, the other the number of its stream errors, counted from the events up to their limits; past a limit the connection is closing |
| `SenderReports.ClosesOnErrors` | src/h2/connection/handlers.rs:470-671 | after every run the connection is closing if and only if one of the events was a connection error, each spelled out |
| `SenderReports.StepCloses` | src/h2/connection/handlers.rs:470-671 | each event closes the connection if and only if it is a connection error |
| `SenderReports.ErrorFrames` | src/h2/connection/handlers.rs:614-637 | within the budget a stream error writes RST_STREAM with its code and costs the entry, past it GOAWAY and keeps the entry |
| `SenderReports.RefusedFrames` | src/h2/connection/handlers.rs:112-123 | a stream over the concurrency limit is answered with REFUSED_STREAM |
| `SenderReports.RequestsEnd` | src/h2/connection/handlers.rs:11-48 | after every run a live stream counts as over for the peer if and only if its request ended |
| `SenderNotices.GoAwaysTellTruth` | src/h2/connection/handlers.rs:560-608 | after every run each GOAWAY frame names the highest stream known when it was written, there is one if and only if the connection closes or a shutdown began, and the id of the shutdown is in one |
| `SenderNotices.ShutdownFrames` | src/h2/connection/handlers.rs:578-608 | a shutdown is announced with the highest stream once, and again when the connection stops, unless an error was told already |
| `SenderNotices.NobodyVanishes` | src/h2/connection/handlers.rs:614-637 | after every run a stream that was opened and has no entry has sent END_STREAM or RST_STREAM, unless the peer reset it or its request side left; no live stream has been reset |
| `SenderPour.RoundsPours` | src/h2/connection/handlers.rs:774-926 | the drain takes nothing in, writes nothing but DATA and retires only streams that ended with their task |
| `SenderPour.PumpPours` | src/h2/connection/handlers.rs:677-765 | the same for the pump |
| `SenderRuns.BodyIntegrity` | src/h2/connection/handlers.rs:677-1104 | after every run, on every stream, live or gone: DATA payloads are a prefix of the bytes the task handed over, frames for a live entry carry END_STREAM at most once with nothing after it, and a DATA frame carries it only at the end mark |
| `SenderRuns.NothingLost` | src/h2/connection/handlers.rs:980-1104 | after every run, for every stream with an entry: it is marked ended exactly when END_STREAM was sent; until then sent bytes plus queued bytes are what was handed over and the end mark is still in the queue; with nothing queued a stream whose mark was handed over has ended |
| `SenderRuns.NoIdleCreditEver` | src/h2/connection/handlers.rs:642-926 | after every run without a raised initial window since the last connection credit, a stream with queued data has a closed window |
| `SenderRuns.ConnUpdateRestores` | src/h2/connection/handlers.rs:642-671 | after any run, an accepted connection WINDOW_UPDATE leaves either no connection credit or no stream that could send |
| `SenderRuns.StreamIdentity` | src/h2/connection/handlers.rs:94-154 | after every run live ids are odd, opened once, not above the highest id, not among the closed ones and within the concurrency limit; the closed memory has no duplicates and at most 4096 ids; both reset budgets are kept |
| `SenderRuns.NoStreamBeyondLast` | src/h2/connection/handlers.rs:11-22 | after every run in which a graceful shutdown began, no stream beyond the announced last one was opened or will be |
| `SenderRuns.ShutdownIsFinal` | src/h2/connection/handlers.rs:578-608 | from the announcement on, whatever happens, the announced and the highest stream stay the same |
| `SenderRuns.StepKeeps` | src/h2/connection/mod.rs:532-623 | every event keeps flow, identity and body invariants and leaves no idle credit |
| `SenderDrain.DrainLeavesNothingSendable` | src/h2/connection/handlers.rs:774-824 | the round-robin drain ends only with the connection window used up or no stream able to send |
| `SenderDrain.DrainIsFair` | src/h2/connection/handlers.rs:774-926 | over the rounds the drain ran, every stream still able to send got a non-empty frame in each full round, and no stream got more than one frame, or the bytes of one, for each round |
| `SenderDrain.DrainTreatsAlike` | src/h2/connection/handlers.rs:774-926 | two streams still able to send after a drain differ by at most one non-empty frame |
| `SenderDrain.DeficitNeverCuts` | src/h2/connection/handlers.rs:829-926 | the deficit never makes a frame shorter than windows, chunk and frame size do |
| `SenderDrain.PumpKeeps` | src/h2/connection/handlers.rs:677-765 | pumping one stream keeps the invariant and touches no other stream |
| `SenderInvariant.SendFrontKeeps` | src/h2/connection/handlers.rs:686-763 | one DATA frame within both windows keeps the whole invariant, including retirement of a finished stream |
| `SenderInvariant.MarkClosedKeeps` | src/h2/connection/handlers.rs:350-359 | remembering a closed id keeps set and order in agreement and within 4096 |
| `SenderSteps.FoldKeepsBody` | src/h2/connection/handlers.rs:980-996 | folding an empty end message into the chunk before it changes neither the bytes nor where the body ends |
| `SenderSteps.OnConnUpdateKeeps` | src/h2/connection/handlers.rs:642-671 | a connection WINDOW_UPDATE, accepted or overflowing, keeps the invariant and leaves no idle credit |
| `SenderSteps.OnStreamUpdateKeeps` | src/h2/connection/handlers.rs:642-671 | the same for a stream WINDOW_UPDATE, including unknown ids and overflow |
| `SenderSteps.OnSettingsKeeps` | src/h2/connection/handlers.rs:512-552 | SETTINGS in any combination keep the invariant while windows move, possibly below zero |
| `SenderSteps.OnHeadersKeeps` | src/h2/connection/handlers.rs:94-154 | opening, refusing or rejecting a stream keeps the invariant |
| `SenderSteps.OnResetKeeps` | src/h2/connection/handlers.rs:470-510 | RST_STREAM keeps the invariant and the reset budget |
| `SenderSteps.StreamErrorKeeps` | src/h2/connection/handlers.rs:614-637 | a stream error keeps the invariant and the budget for locally sent resets |
| `SenderRuns.OnMsgKeeps` | src/h2/connection/handlers.rs:1005-1104 | each kind of task message keeps the invariant, with the batch still in hand counted as queued |
| `SenderRuns.OnWakeKeeps` | src/h2/connection/handlers.rs:945-1001 | collecting the messages of all waiting streams keeps the invariant |
| `SenderFindings.TrailersComplete` | src/h2/connection/handlers.rs:1051-1059 | at any message of a batch, trailers end a stream with its whole body sent if and only if no bytes were still queued |
| `SenderFindings.TrailersCanCutTheBody` | src/h2/connection/handlers.rs:1051-1059 | a run in which trailers end the stream one byte short |
| `SenderFindings.HeadersEndOnce` | src/h2/connection/handlers.rs:1013-1027 | at any message of a batch, a final HEADERS keeps a stream at one END_STREAM if and only if its entry is live or none was sent |
| `SenderFindings.OrphanHeadersEndTwice` | src/h2/connection/handlers.rs:1013-1027 | of the handler alone, for a message list no stream task sends: HEADERS after `Closed` send END_STREAM twice |
| `SenderOrder.OrderedTasksEndOnce` | src/h2/stream/service.rs:110-230 | in every run in which tasks send only `Closed` after a reset and nothing after `Closed`, no HEADERS is written for a stream without an entry and every stream carries END_STREAM at most once |
| `SenderOrder.StepOrdered` | src/h2/connection/handlers.rs:945-1104 | every event keeps what a task may still say, the memory of closed streams and the absence of HEADERS for streams without an entry |
| `SenderOrder.MemoryIsRecent` | src/h2/connection/handlers.rs:350-359 | after every such run the memory holds the last 4096 streams closed, in order, and on a connection that is not closing every opened stream that is gone was closed |
| `SenderOrder.UpdateTolerated` | src/h2/connection/handlers.rs:642-671 | after every such run a WINDOW_UPDATE for a stream without an entry is tolerated if and only if that stream is among the last 4096 closed |
| `SenderOrder.NeverOpenedNotTolerated` | src/h2/connection/handlers.rs:642-671 | after every run a WINDOW_UPDATE for a stream that was never opened closes the connection |
| `SenderFindings.RefusedStreamIsForgotten` | src/h2/connection/handlers.rs:112-123 | a run in which the WINDOW_UPDATE for a refused stream closes the connection |
| `SenderFindings.NewWindowLeavesCreditIdle` | src/h2/connection/handlers.rs:520-534 | a new initial window leaves sendable data unsent if and only if it opens the window of a stream with queued data while the connection window is open |
| `SenderFindings.RaisedWindowIsNotUsed` | src/h2/connection/handlers.rs:520-534 | on any connection, a run after which a body waits although both its windows are open |
| `H2Connection.Connection.constructor` | src/h2/connection/mod.rs:236-275 | a new connection object is the initial state |
| `H2Connection.Connection.RememberClosed` | src/h2/connection/handlers.rs:350-359 | the bounded memory of closed ids, oldest forgotten first |
| `H2Connection.Connection.FailStream` | src/h2/connection/handlers.rs:614-637 | a stream error, or GOAWAY once the budget is spent |
| `H2Connection.Connection.SendFrontChunk` | src/h2/connection/handlers.rs:686-763 | one DATA frame: windows, queue, end flag and retirement, as the state machine has them |
| `H2Connection.Connection.PumpStreamData` | src/h2/connection/handlers.rs:677-765 | the pump loop is the pump of the state machine and terminates |
| `H2Connection.Connection.PumpStreamDataDrr` | src/h2/connection/handlers.rs:829-926 | one deficit turn is the turn of the state machine |
| `H2Connection.Connection.RunRound` | src/h2/connection/handlers.rs:794-822 | one round visits the streams in order and says who is kept and whether anything moved |
| `H2Connection.Connection.DrainPendingData` | src/h2/connection/handlers.rs:774-824 | the whole drain for some order of the streams with queued data; it terminates |
| `H2Connection.Connection.HandleWindowUpdate` | src/h2/connection/handlers.rs:642-671 | both kinds of WINDOW_UPDATE |
| `H2Connection.Connection.ChangeInitialWindow` | src/h2/connection/handlers.rs:520-534 | every stream window moves by the difference; overflow closes the connection |
| `H2Connection.Connection.ApplyPeerSettings` | src/h2/connection/handlers.rs:512-552 | settings in order, stopping at an illegal frame size |
| `H2Connection.Connection.HandleHeaders` | src/h2/connection/handlers.rs:11-48 | opens a stream, ignores one beyond the announced last, or fails one whose request already ended |
| `H2Connection.Connection.BeginGracefulShutdown` | src/h2/connection/handlers.rs:578-591 | announces the highest stream as the last, once, unless the connection is closing |
| `H2Connection.Connection.FinishGracefulShutdown` | src/h2/connection/handlers.rs:597-608 | repeats the announced last stream unless an error already closed the connection |
| `H2Connection.Connection.HandleReset` | src/h2/connection/handlers.rs:470-510 | drops a stream, tolerates remembered ones, counts resets before the response |
| `H2Connection.Connection.HandleStreamMsg` | src/h2/connection/handlers.rs:1005-1104 | the effect of each task message |
| `H2Connection.Connection.HandleBatch` | src/h2/connection/handlers.rs:980-1000 | the peek-and-fold loop handles the folded batch in order |
| `H2Connection.Connection.DrainOutbound` | src/h2/connection/handlers.rs:945-1001 | all waiting channels are collected, for some order, skipping streams with queued data |
| `H2Connection.Connection.Dispatch` | src/h2/connection/mod.rs:532-623 | every input is one step of the state machine and keeps its invariant |
| `SendTrace.StreamConservation` | src/h2/connection/handlers.rs:677-765 | the peer-side account of a stream equals initial window plus credit minus bytes sent |
| `SendTrace.CleanEndsOnce` | src/h2/connection/handlers.rs:677-765 | a trace with nothing after an end has at most one end |
| `HpackStepLock.StepLock` | src/h2/hpack/encode.rs:86-135 | for every conversation of header lists and of size updates queued on either side, every block decodes to the list sent and both tables stay equal, without never-indexed names, if and only if each block is within the limits the decoder has at that moment |
| `HpackText.TextReads` | src/h2/hpack/decode.rs:78-160 | every block of section 6 of RFC 7541, with all forms of fields, literals, strings and size updates, is decoded to the headers it means and the table it means, and refused with the table of the fault exactly when it has a fault |
| `HpackText.OnlyKeptAreAdded` | src/h2/hpack/decode.rs:141-143 | behind the size updates the table is the headers with incremental indexing added in order and no others |
| `HpackText.UpdatesInFront` | src/h2/hpack/decode.rs:146-155 | any number of size updates in front within the cap set the size in turn |
| `HpackText.LateUpdateFails` | src/h2/hpack/decode.rs:146-149 | a size update behind a field is a fault |
| `HpackText.UnknownIndexFails` | src/h2/hpack/decode.rs:98-130 | an index of 0 or beyond both tables is a fault |
| `HpackText.PlainLiteralIsNotKept` | src/h2/hpack/decode.rs:109-145 | the block 00 01 78 01 79 is x: y and leaves the table alone |
| `HpackText.EncodedItem` | src/h2/hpack/encode.rs:92-125 | every header the encoder writes is such an item: never indexed exactly for authorization, proxy-authorization and cookie, an index only where the tables hold the header, else a literal that is kept |
| `HpackStepLock.SecretIsSensitive` | src/h2/hpack/encode.rs:92-100 | the names that are never indexed, spelled out |
| `HpackStepLock.BlockKeepsStep` | src/h2/hpack/decode.rs:78-160 | between sides in step one block is received whole, and keeps the step, if and only if it is within the limits |
| `HpackStepLock.BlockReadBack` | src/h2/hpack/decode.rs:78-160 | one block with or without a size update decodes to its header list and to the encoder’s table |
| `HpackStepLock.HeadersReadBack` | src/h2/hpack/decode.rs:92-157 | a run of representations in the middle of a buffer is read back header by header |
| `HpackStepLock.HeaderReadBack` | src/h2/hpack/decode.rs:92-157 | one encoded header is read back with the same table change, or refused before any; it is refused exactly when it overruns the list limit |
| `HpackStepLock.LatestUpdateWins` | src/h2/hpack/encode.rs:57-62 | of several updates queued for a block the latest is emitted if and only if none before it is larger |
| `HpackStepLock.HeadersRefused` | src/h2/hpack/decode.rs:92-157 | a list over the limit is refused at its first header that does not fit, with the table the headers before it left |
| `HpackStepLock.UpdateRefused` | src/h2/hpack/decode.rs:146-155 | a size update over the cap is refused before anything else is read |
| `HpackRefusal.RefusedBlock` | src/h2/hpack/decode.rs:78-160 | a block over the list limit leaves the two tables equal if and only if indexing from the refused header to the end of the list leaves the table unchanged |
| `HpackRefusal.RefusedUpdate` | src/h2/hpack/decode.rs:146-155 | after a refused size update the tables are equal if and only if it changed no size and the list no entry |
| `HpackRefusal.EncodedTable` | src/h2/hpack/encode.rs:86-126 | the table after a list is what it indexed in front of the old entries, cut to the size |
| `HpackRefusal.EncodedDistinct` | src/h2/hpack/encode.rs:86-126 | encoding never puts a header into the table twice |
| `HpackRefusal.EncodedUnchanged` | src/h2/hpack/encode.rs:86-126 | a list leaves the table as it was if and only if its indexing did, which is read off the headers it adds |
| `HpackRefusal.CookieHidesNewHeader` | src/h2/hpack/decode.rs:78-160 | a refused cookie, never indexed itself, hides the new header behind it from the decoder’s table |
| `Hpack.LoadTotal` | src/h2/hpack/decode.rs:181-195 | every first octet selects a representation |
| `HpackObjects.Encoder.Encode` | src/h2/hpack/encode.rs:86-126 | the encoding loop appends exactly the specified block and leaves the specified table |
| `HpackObjects.Encoder.WriteHeaders` | src/h2/hpack/encode.rs:91-126 | the loop over the headers appends their representations and leaves the specified table |
| `HpackObjects.Encoder.WriteHeader` | src/h2/hpack/encode.rs:92-125 | one header: never indexed, indexed or literal with indexing |
| `HpackObjects.Encoder.WriteString` | src/h2/hpack/encode.rs:129-135 | string literals by the configured coding |
| `HpackObjects.Encoder.QueueSizeUpdate` | src/h2/hpack/encode.rs:57-62 | pending updates merge to their maximum |
| `HpackObjects.Decoder.Decode` | src/h2/hpack/decode.rs:78-160 | the decoding loop returns the specified headers or error and keeps what was processed before an error |
| `HpackObjects.Decoder.ReadLiteral` | src/h2/hpack/decode.rs:109-145 | a literal representation, with or without indexing |
| `HpackObjects.Decoder.ReadResize` | src/h2/hpack/decode.rs:146-155 | a size update: only in front, only within the limit |
| `HpackObjects.Decoder.QueueSizeUpdate` | src/h2/hpack/decode.rs:55-60 | pending limits merge to their maximum |
| `HpackTable.EvictLongest` | src/h2/hpack/table.rs:429-459 | eviction keeps the longest run of newest entries that fits |
| `HpackTable.EntryCount` | src/h2/hpack/table.rs:465-508 | 32 octets per entry bound the number of entries |
| `HpackTable.Find` | src/h2/hpack/table.rs:353-378 | a found index holds the header, and none is found only if neither table holds it |
| `HpackTable.FindName` | src/h2/hpack/table.rs:384-403 | the same for names |
| `HpackTableObject.Table.FindEntry` | src/h2/hpack/table.rs:353-378 | lookup by map or by scan gives the index of the specification |
| `HpackTableObject.Table.FindNamed` | src/h2/hpack/table.rs:384-403 | name lookup by map or by scan |
| `HpackTableObject.Table.GetEntry` | src/h2/hpack/table.rs:327-340 | index 0 and indices beyond both tables have no entry |
| `HpackTableObject.Table.PopOldest` | src/h2/hpack/table.rs:448-459 | evicting the oldest entry keeps size and both maps exact |
| `HpackTableObject.Table.SetMaxSize` | src/h2/hpack/table.rs:429-441 | a new maximum evicts as specified |
| `HpackTableObject.Table.AddEntry` | src/h2/hpack/table.rs:465-508 | adding evicts first, may leave the table empty, and keeps the maps exact |
| `HpackTable.ExactMapAdd` | src/h2/hpack/table.rs:465-508 | shifting every position by one and inserting keeps the header map exact |
| `HpackTable.NameMapAdd` | src/h2/hpack/table.rs:465-508 | the same for the name map |
| `HpackTable.ExactMapEvict` | src/h2/hpack/table.rs:448-459 | removing the oldest header from the map only when it is its newest copy keeps the map exact |
| `HpackTable.NameMapEvict` | src/h2/hpack/table.rs:448-459 | the same for the name map |
| `HpackString.StringRoundTrip` | src/h2/hpack/string.rs:38-79 | every string literal, raw or Huffman, in the middle of any buffer decodes to itself and uses up its own octets, or is refused exactly when it is over the limit |
| `HpackString.ShorterIsShorter` | src/h2/hpack/string.rs:38-49 | the coding chosen is the shorter of the two |
| `HpackString.EncodeStringInto` | src/h2/hpack/string.rs:38-49 | the shorter coding is written with its length |
| `HpackString.DecodeStringAt` | src/h2/hpack/string.rs:54-79 | length, bounds, coding and length limit as specified |
| `HpackString.HuffmanRoundTrip` | src/hpack/huffman.rs:302-373 | for any code the table simulates, decoding undoes encoding |
| `Huffman.EncodeInto` | src/hpack/huffman.rs:302-324 | the 64-bit accumulator holds at most 61 live bits; the output is the codes end to end, padded by fewer than 8 one bits, of length ceil(bits/8) |
| `Huffman.PaddedUnique` | src/hpack/huffman.rs:302-324 | codes and padding rule leave one possible octet string |
| `HuffmanDecode.Build` | src/hpack/huffman_table.rs:4113-4138 | the filled array holds two nibble steps for each state and octet |
| `HuffmanDecode.StepsAgree` | src/hpack/huffman_table.rs:4113-4138 | one octet step is two nibble steps, failures included |
| `HuffmanDecode.RunsAgree` | src/hpack/huffman.rs:341-373 | octet-wise and nibble-wise runs agree on every input |
| `HuffmanDecode.DecodeLoop` | src/hpack/huffman.rs:341-373 | the decoding loop returns what the run over the table says |
| `HuffmanTree.WalkSound` | src/hpack/huffman.rs:341-373 | bits walked through the code tree are the codes emitted and the path since |
| `HuffmanTree.WalkComplete` | src/hpack/huffman.rs:341-373 | the padded codes of a string walk to that string |
| `HuffmanTree.RunAgrees` | src/hpack/huffman_table.rs:4113-4138 | a table that simulates the tree runs as the tree does |
| `HuffmanTree.DecodeExactly` | src/hpack/huffman.rs:341-373 | decoding yields a string if and only if the octets are its encoding |
| `PrefixInt.RoundTrip` | src/hpack/integer.rs:16-73 | for every prefix width, decoding inverts encoding below 2^62 and refuses larger values |
| `PrefixInt.LengthRoundTrip` | src/hpack/integer.rs:84-98 | the length is found on every extension of an encoding and on no proper prefix |
| `PrefixInt.HeaderKept` | src/hpack/integer.rs:16-29 | the representation bits of the first octet survive |
| `PrefixInt.EncodeInto` | src/hpack/integer.rs:16-29 | the octet loop writes the specified encoding |
| `PrefixInt.DecodeLoop` | src/hpack/integer.rs:38-73 | the accumulation loop returns the specified value or error |
| `PrefixInt.Decode` | src/hpack/integer.rs:38-73 | no decoded value reaches 2^62 and the offset stays in the buffer |
| `PrefixInt.StepBound` | src/hpack/integer.rs:50-72 | no addition or shift of the loop leaves 64 bits |
| `PrefixInt.EncodedLen` | src/hpack/integer.rs:84-98 | the length scan |
| `Varint.WrittenReads` | src/h3/frame.rs:653-702 | a written integer reads back with its size, whatever follows |
| `Varint.ReadIsWritten` | src/h3/frame.rs:653-672 | only the shortest encoding is accepted: what is read is what writing would produce |
| `Varint.ReadStable` | src/h3/frame.rs:653-672 | a decided read stands when more octets arrive; an undecided one has at most 7 |
| `Varint.ParseLoop` | src/h3/frame.rs:653-672 | the shifting loop computes the big-endian value |
| `Varint.WriteInto` | src/h3/frame.rs:691-702 | the four widths |
| `H3Frame.ChunkingIndependent` | src/h3/frame.rs:362-449 | for every byte string and every way of cutting it, frames, rest and first error are those of the flat parser |
| `H3Frame.DecodeSplit` | src/h3/frame.rs:383-449 | decoding in two parts is decoding at once |
| `H3Frame.FrontStable` | src/h3/frame.rs:383-449 | a decision about the front of the buffer is never revised |
| `H3Frame.WaitingIsBounded` | src/h3/frame.rs:384-422 | octets left waiting are fewer than one header and the payload limit of the announced type |
| `H3Frame.LeftoverWaits` | src/h3/frame.rs:383-449 | what is left over holds no complete frame |
| `H3Canonical.StreamDecodes` | src/h3/frame.rs:233-449 | any sequence of acceptable frames and unknown frames decodes to its frames minus grease and goes on behind it |
| `H3Canonical.DecodedIsStream` | src/h3/frame.rs:383-449 | nothing else is accepted: what was consumed is the text of such a sequence |
| `H3Canonical.EncodedFront` | src/h3/frame.rs:233-283 | a serialized frame is taken in without its grease, or refused for the fault it has: a payload over 16777215 octets or over the field-section limit, SETTINGS over 4096 octets or breaking a rule |
| `H3Canonical.FaultIsRefusal` | src/h3/frame.rs:384-412 | the checks on the announced length and on the parameters find exactly the fault |
| `H3Canonical.GreaseMeans` | src/h3/frame.rs:567-572 | the identifiers dropped are those of the form 0x1f * k + 0x21 |
| `H3Canonical.ForeignRefused` | src/h3/frame.rs:387-391 | frames of type 2, 6, 8 and 9 are refused at once |
| `H3Canonical.SkippedMeans` | src/h3/frame.rs:423-426 | the types skipped are those from 10 on but 13 |
| `H3Canonical.FrontCanonical` | src/h3/frame.rs:383-449 | a frame taken in re-encodes to the octets consumed, up to dropped grease settings |
| `H3Canonical.UnknownFramesAreInvisible` | src/h3/frame.rs:423-426 | inserting or removing unknown frames changes nothing a reader sees |
| `H3Canonical.SettingsRoundTrip` | src/h3/frame.rs:580-621 | serialized parameters are read back or refused exactly when a rule is broken |
| `H3Canonical.SettingsCanonical` | src/h3/frame.rs:580-621 | accepted parameters are the serialization of a list that keeps the rules |
| `H3Canonical.OkAfterMeans` | src/h3/frame.rs:604-613 | the rules: at most 32, none of the identifiers 2 to 5, none twice |
| `H3Canonical.PayloadRoundTrip` | src/h3/frame.rs:427-446 | payload parsing undoes payload writing for each kind |
| `H3Decoder.FrameDecoder.Extend` | src/h3/frame.rs:362-368 | appends to the flat contents; empty chunks are not kept |
| `H3Decoder.FrameDecoder.ByteAt` | src/h3/frame.rs:464-473 | walking the chunks reads the flat octet |
| `H3Decoder.FrameDecoder.ParseVarintAt` | src/h3/frame.rs:476-494 | reads as the flat parser does, across chunks |
| `H3Decoder.FrameDecoder.Advance` | src/h3/frame.rs:497-513 | drops exactly the first octets |
| `H3Decoder.FrameDecoder.TakeBytes` | src/h3/frame.rs:516-550 | all three paths take exactly the first octets |
| `H3Decoder.FrameDecoder.NextFrame` | src/h3/frame.rs:383-449 | result and remaining contents are those of the flat parser; the skip loop terminates |
| `H3Decoder.FrameDecoder.Drain` | src/h3/frame.rs:383-449 | polling until no frame is left decodes the flat contents |
| `H3Decoder.NextDecodes` | src/h3/frame.rs:383-449 | polling once and going on is decoding the flat contents |
| `H3Decoder.ReadSettings` | src/h3/frame.rs:580-621 | entry list, lookup map and grease list together implement the rules |
| `H3Decoder.EncodeInto` | src/h3/frame.rs:233-283 | each kind of frame is appended as specified, with its length computed ahead |
| `H3Decoder.SettingsLength` | src/h3/frame.rs:247-251 | the summed sizes are the length of the payload written after it |
| `H2Layout.WrittenFront` | src/h2/codec/mod.rs:238-512 | a frame laid out with any legal padding is taken in without it if and only if it is legal here, else it is an error |
| `H2Layout.AcceptedRewrites` | src/h2/codec/mod.rs:238-455 | every accepted frame, written again without padding, decodes to itself in the same place and is no longer |
| `H2Layout.LayoutUndone` | src/h2/codec/mod.rs:238-455 | the payload parser undoes every layout of a legal frame and refuses every illegal one |
| `H2Layout.Unpadded` | src/h2/codec/mod.rs:472-487 | stripping undoes padding |
| `H2Layout.SettingsRead` | src/h2/codec/mod.rs:322-346 | parameters are read back if and only if every value is legal |
| `H2Layout.FaultIsIllegal` | src/h2/codec/mod.rs:322-346 | a parameter is refused if and only if it is ENABLE_PUSH over 1, a window over 2^31 - 1, which is a flow-control error, or a frame size out of range |
| `H2Layout.PriorityReads` | src/h2/codec/mod.rs:492-512 | priority fields are read back, a self-dependency refused |
| `H2Layout.HeaderReads` | src/h2/codec/mod.rs:579-589 | length, type, flags and identifier of the 9-octet header read back |
| `H2Frame.ChunkingIndependent` | src/h2/codec/mod.rs:168-233 | incremental decoding of any split is batch decoding, adopted limit and open block included |
| `H2Frame.DecodeSplit` | src/h2/codec/mod.rs:201-233 | decoding in two parts is decoding at once |
| `H2Frame.OnlyContinuationsFollow` | src/h2/codec/mod.rs:248-263 | between an unfinished HEADERS or PUSH_PROMISE and its END_HEADERS stand only CONTINUATIONs of that stream |
| `H2Frame.ContinuationBelongs` | src/h2/codec/mod.rs:248-263 | every CONTINUATION belongs to a block that was opened and not finished |
| `H2Frame.DecodedIsOrderly` | src/h2/codec/mod.rs:248-263 | every accepted sequence keeps the continuation discipline |
| `H2Frame.LimitFollowsPeer` | src/h2/codec/mod.rs:347-356 | the limit on received payloads is what the peer last announced; it is the configured one if and only if the peer announced none or the same |
| `H2Codec.PeerRaisesReceiveLimit` | src/h2/codec/mod.rs:347-356 | a DATA frame over the configured limit is accepted once the peer announced that size for itself |
| `H2Codec.WrittenDecodes` | src/h2/codec/mod.rs:567-747 | any sequence of legal frames decodes to itself |
| `H2Codec.FieldBlockReassembles` | src/h2/codec/mod.rs:633-653 | fragments stay within the limit, reassemble to the block, and only the last has END_HEADERS |
| `H2Codec.FieldBlockDecodes` | src/h2/codec/mod.rs:633-653 | a split block is read back and leaves no block open |
| `H2Codec.WriteFieldBlock` | src/h2/codec/mod.rs:633-653 | the splitting loop writes exactly those fragments |
| `H2Codec.WriteHeader` | src/h2/codec/mod.rs:579-589 | the shifted and masked octets are the big-endian fields |
| `H2Codec.WriteData` | src/h2/codec/mod.rs:592-596 | writes the layout of DATA |
| `H2Codec.WriteHeaders` | src/h2/codec/mod.rs:600-627 | writes the layout of HEADERS |
| `H2Codec.WritePriority` | src/h2/codec/mod.rs:656-662 | writes the layout of PRIORITY |
| `H2Codec.WriteReset` | src/h2/codec/mod.rs:665-668 | writes the layout of RST_STREAM |
| `H2Codec.WriteSettings` | src/h2/codec/mod.rs:671-677 | writes the layout of SETTINGS |
| `H2Codec.WriteSettingsAck` | src/h2/codec/mod.rs:680-682 | writes the layout of the acknowledgement |
| `H2Codec.WritePushPromise` | src/h2/codec/mod.rs:685-701 | writes the layout of PUSH_PROMISE |
| `H2Codec.WritePing` | src/h2/codec/mod.rs:704-713 | writes the layout of PING and its acknowledgement |
| `H2Codec.WriteGoAway` | src/h2/codec/mod.rs:716-727 | writes the layout of GOAWAY |
| `H2Codec.WriteWindowUpdate` | src/h2/codec/mod.rs:730-733 | writes the layout of WINDOW_UPDATE |
| `H2Codec.WriteContinuation` | src/h2/codec/mod.rs:736-746 | writes the layout of CONTINUATION |
| `H2Codec.TakePadding` | src/h2/codec/mod.rs:472-487 | the stripped body and the place it has in the payload |
| `H2Codec.ParseFields` | src/h2/codec/mod.rs:266-384 | the sliced payload of padded kinds is the stripped body |
| `H2Codec.ParseParameters` | src/h2/codec/mod.rs:322-346 | the parameter loop |
| `H2Codec.FrameDecoder.ParseFrame` | src/h2/codec/mod.rs:238-455 | the parsed frame and what the decoder remembers after it |
| `H2Codec.FrameDecoder.NextFrame` | src/h2/codec/mod.rs:201-233 | wait, error or frame as specified, with buffer and state |
| `H2Codec.FrameDecoder.Drain` | src/h2/codec/mod.rs:201-233 | polling until no frame is left decodes the buffer |
| `H1Flush.BothFlushesDeliver` | src/h1/writebuf.rs:131-172 | for every pattern of non-zero partial writes both flushes finish with every octet sent once |
| `H1Flush.VectoredResumes` | src/h1/writebuf.rs:131-143 | an interrupted vectored flush, taken up again, puts the queued octets on the wire once |
| `H1Flush.FlattenedResumes` | src/h1/writebuf.rs:162-172 | a flattened flush can be interrupted anywhere and taken up again, for every stream, if and only if at most one octet is queued |
| `H1Flush.InterruptedBlockIsRepeated` | src/h1/writebuf.rs:162-172 | a flush interrupted inside a block sends the accepted part again |
| `H1Flush.FlattenedBlocks` | src/h1/writebuf.rs:162-172 | a flattened flush that is cut short has dropped whole blocks only |
| `H1Flush.VectoredExact` | src/h1/writebuf.rs:131-143 | a vectored flush drops exactly what it sent |
| `H1WriteBuf.WriteBuf.Push` | src/h1/writebuf.rs:30-35 | appends to the contents and keeps every slice reading what it was pushed with |
| `H1WriteBuf.WriteBuf.PushBytes` | src/h1/writebuf.rs:38-47 | appends, with the owner kept alive |
| `H1WriteBuf.WriteBuf.PushCopy` | src/h1/writebuf.rs:50-74 | appends by copying within a chunk’s capacity, so that earlier slices of the chunk still read what they did |
| `H1WriteBuf.WriteBuf.ConsumeWritten` | src/h1/writebuf.rs:102-128 | the written octets leave the front, the byte count stays exact, chunks are reused only when no slice is left |
| `H1WriteBuf.WriteBuf.FillFlattened` | src/h1/writebuf.rs:82-99 | the block is the front of the contents |
| `H1WriteBuf.WriteBuf.WriteVectored` | src/h1/writebuf.rs:146-159 | one vectored write: what was taken is consumed |
| `H1WriteBuf.WriteBuf.WriteFlattened` | src/h1/writebuf.rs:175-189 | one flattened write: what was taken is consumed |
| `H1WriteBuf.WriteBuf.FlushVectored` | src/h1/writebuf.rs:131-143 | what reaches the stream and what stays queued, for every behaviour of the stream |
| `H1WriteBuf.WriteBuf.FlushFlattened` | src/h1/writebuf.rs:162-172 | the same for the flattened flush |
| `H1Chunk.EmittedReads` | src/h1/write.rs:160-212 | the emitted chunked body is read back as its non-empty pieces and leaves exactly what follows |
| `H1Chunk.NonEmptySame` | src/h1/write.rs:162-164 | skipping empty pieces keeps the body’s octets |
| `H1Chunk.SizeLineReads` | src/h1/mod.rs:681-695 | a size line reads back as the size, whatever follows |
| `H1Chunk.HexReads` | src/h1/mod.rs:681-695 | hexadecimal digits spell the number |
| `H1Chunk.AcceptedChunk` | src/h1/body.rs:104-211 | an accepted chunk is framed as the standard asks, with its octets and size, if and only if no plus sign leads it and CRLF closes it |
| `H1Chunk.SizeLineMeans` | src/h1/body.rs:111-168 | a size line is read if and only if it is hexadecimal digits, possibly behind one plus sign, of a number that fits |
| `H1Chunk.ExtensionRefused` | src/h1/body.rs:111-168 | a size line with a chunk extension is refused |
| `H1Chunk.NonStandardAccepted` | src/h1/body.rs:104-211 | a chunk size with a plus sign and a chunk closed by two other octets are taken |
| `H1Chunk.ChunkEndUnchecked` | src/h1/body.rs:208-210 | any two octets are taken for the closing CRLF |
| `H1Body.Reader.ReadSized` | src/h1/body.rs:58-101 | however the socket splits, a sized body is the next octets and the rest stays; it is complete if and only if the stream held enough |
| `H1Body.Reader.ReadSizeLine` | src/h1/body.rs:111-168 | however the socket splits, the size line found is the one in the flat stream |
| `H1Body.Reader.ReadOne` | src/h1/body.rs:104-211 | however the socket splits, chunk, error and rest are those of the flat stream |
| `H1Body.Reader.ReadChunked` | src/h1/body.rs:314-336 | the same for the whole body |
| `H1Body.WriteChunkSize` | src/h1/mod.rs:681-695 | filling the array from the right yields the size line |
| `H1Body.WriteBody` | src/h1/write.rs:139-218 | for every behaviour of the stream the body loop, its flushes while waiting, the terminator and the last flush do exactly what the specification of a response says |
| `H1Body.WriteBatches` | src/h1/write.rs:176-185 | writing parts of the queue until less than a batch is left, as specified |
| `H1Body.WriteFrame` | src/h1/write.rs:145-186 | one turn of the body loop: the flush while waiting, the piece, the batches |
| `H1Body.FlushAny` | src/h1/write.rs:145-158 | a flush that may be dropped leaves queue and stream as specified |
| `H1Response.ResponseDelivers` | src/h1/write.rs:139-218 | a response that succeeds has everything sent, and with vectored writes head, body text and terminator once, for every stream |
| `H1Response.FramesCarry` | src/h1/write.rs:139-186 | no octet of a body is lost, whatever the stream does and however often a flush is dropped |
| `H1Response.VectoredOnce` | src/h1/write.rs:139-218 | with vectored writes the peer sees the response once, for every stream and interruption |
| `H1Response.FlattenedOnce` | src/h1/write.rs:139-218 | with flattened writes it does for every stream if and only if no wait behind the first frame finds more than one octet handed over |
| `H1Response.HeadOctetComesTwice` | src/h1/write.rs:139-218 | a response head of which an octet comes twice, because a dropped flush had sent it |
| `H1Body.BodyTextMeans` | src/h1/write.rs:160-186 | the body text of the frames is their chunks, or their octets as they are |
| `ResetBudget.LevelIsFullestWindow` | src/h3/mod.rs:118-127 | for all times, in order or not, the level is the fullest window of resets ending now |
| `ResetBudget.DrainingIsElapsed` | src/h3/mod.rs:118-127 | with a clock that never steps back a window drains for the time between its first and last reset |
| `ResetBudget.OverBudgetMeans` | src/h3/mod.rs:118-127 | the level exceeds the budget if and only if some window outnumbers it and its refill |
| `ResetBudget.ResetState.NotePendingReset` | src/h3/mod.rs:118-127 | for any time given, the close code is returned if and only if some window is over budget |
| `ResetBudget.ResetState.NoteLocalError` | src/h3/mod.rs:100-108 | the lifetime budget is spent one by one and never exceeded |

## Left out

- Async plumbing, wakers, timers and channels: channels are sequences, the order in which a hash map is walked and the behaviour of sockets are inputs, and time is a parameter.
- Input/output errors other than end of stream in the HTTP/1 readers, and the `100 Continue` line they may write; a wake-up by the handler is modelled as an arrival without octets.
- The trailer section of HTTP/1 bodies and request-head parsing, which are built around an external parser; `ReadChunked` covers the body up to the trailers.
- WriteBody: trailer frames and frames that fail are not among its inputs; the head it follows is whatever is queued.
- HandleHeaders: the field-block bookkeeping of `handle_headers_frame` (fragments, completed blocks, the CONTINUATION count) is not part of the send side; the stream error it may end in is the event `RequestFault`.
- Dispatch: frames that only concern the receive side appear as the events they can cause here: a stream error, a connection error, the end of a request.
- QPACK, the HTTP/3 control plane and request streams, the QUIC adapters.
- Receive-side HTTP/2 semantics: request assembly, receive windows, CONTINUATION flood limits; when the event loop stops after a graceful shutdown.
- HPACK across refused HEADERS on a live connection: step-lock is stated for the codec pair.
- The 4096-row nibble automaton, the code table and the static table as data: the theorems hold for every table with the stated validity predicates, which are not checked against the rows.
- `SETTINGS_HEADER_TABLE_SIZE` and the other settings that do not reach the send side.
- Floating-point rounding in the leaking bucket: its arithmetic is over the reals.
- Memory: buffer growth, reference counts and zero-copy slicing appear only as far as they decide which octets are read.
- Date caching, option builders, error-code enums, early hints, zero-copy sends: no hard property.
- WritePing: one method for the plain and the acknowledging writer, which differ in a flag.
- Vectored: a refused write, an error and a cancellation are one outcome, because the loop ends the same way for all three.
- WrittenFront: which error code a refused HTTP/2 frame gets is stated for parameters only (`FaultIsIllegal`); of the others that they are refused.
