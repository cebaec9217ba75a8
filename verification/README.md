# Models of the datagram actor, the byte-stream reader, the control messages and the connection table

This project models four pieces of the repository and proves what they keep over
every run, every buffer and every interleaving. `dafny verify dfyconfig.toml`
checks all of it.

**The datagram actor** (`poll-read/src/main.rs`). A server task moves datagrams
from a bounded channel through a waiting slot and a send queue of at most two into
the packets in flight, which a credit of 10000 bytes limits; clients talk to it
through one-shot commands. `Channels`, `Commands`, `Clients` and `Server` give each
operation; `Commands.Execute`, the classes of `Clients` and `ServerTask.Task` are
the code in its own form, loops and updates included, and compute exactly those
operations. `Actor` composes them: a run is any interleaving of client calls and
server steps, where a server step ends at its next operation on a shared channel,
for channels of any capacity, any number of clients and datagrams of any length.
`Invariant` and `Evolution` say what holds in every reachable state and what never
goes back; `Guarantees`, `Progress`, `Handshake`, `Notifiers`, `Outcomes`, `Completion`,
`Entries`, `Reception`, `Closing` and `NoPanic` hold the results.

**The byte-stream reader** (`poll_read`, same file). `RecvStream` re-chunks the
messages of a channel into the callers' buffers. Other threads may add chunks
between any two receives, also during a call.

**Control messages** (`migrate-Udp/src/main.rs`). `Bits` defines the masks, and
`ControlMessages` the size macros, the walk and the buffer, byte by byte, for the
64-bit layout: a header of 16 bytes with alignment 8, little-endian.

**The connection table** (`mio-TcpStream/src/main.rs`). `ConnTable` is the receiver's
event loop against an edge-triggered kernel whose peers act at any time and whose
polls may return any selection of events, spurious and repeated ones included;
`ConnReceiver` is the loop in its own form.

## What was found

- `poll_read` can return Pending, or an error, after it has put bytes into the
  buffer: exactly when there are some available, but fewer than there is room for
  (`RecvStream.OutcomeExactly`; `RecvStream.PartialRead` is such a call, for one byte
  and a buffer of two). A caller that makes a new buffer for the next poll loses
  them. They are counted as delivered in the conservation law.
- A ready request that the server receives after the write channel has become
  empty is never answered while nothing new is accepted: only the branch that takes
  a datagram answers it. `Handshake.ReadyAnsweredIff` gives the exact condition, and
  `Handshake.SingleWriterStarves` a run in which a lone writer waits for ever.
- A datagram longer than 10000 bytes is never acknowledged, and blocks everything
  behind it (`Handshake.OversizedBlocks`). `Progress.PrefixAcknowledged` says what is
  acknowledged for datagrams of any length, `Handshake.FlushAnsweredIff` and
  `Handshake.ReadyAnsweredExactly` which requests are still answered.
- `poll_close` closes the command sender before it asks for room in the datagram
  channel. If the channel is full, it fails, although the server runs, and although
  the client may hold a slot of that channel (`Outcomes.CloseFailsWhenFull`, with a
  run in `Outcomes.CloseCanFail`).
- `poll_ready` returns early on an error of its command and leaves the entry in the
  map. A second poll under the same key panics (`NoPanic.ReuseAfterErrorPanics`),
  and so does another kind of operation under the key of a parked entry
  (`NoPanic.SharedKeyPanics`). `NoPanic.PanicsIff` is exact.
- `WSA_CMSGHDR_ALIGN` adds 7 and clears four bits, so it is not a rounding up.
  `WSA_CMSG_SPACE(n)` is too small, by 8 bytes, when n mod 16 lies in 1..8. The walk
  still finds every header, because NXTHDR steps by the same amount, but the next
  header covers the end of the payload (`ControlMessages.ShortPayloadLostInBuffer`).
- A header with `cmsg_len` of 8 or less makes the walk stand still: over 16 zero bytes
  it visits the same header for ever (`ControlMessages.ZerosForEver`). A huge
  `cmsg_len` makes the address wrap, and the walk goes on outside the buffer
  (`ControlMessages.HugeLengthWanders`) or further back in it, over the same two
  headers for ever (`ControlMessages.TwoHeadersForEver`). `ControlMessages.SpinsIff`
  and `ControlMessages.WandersIff` are exact.

## Model

| member | source | states |
|---|---|---|
| Progress.PrefixAcknowledged | poll-read/src/main.rs:436-550 | For datagrams of any length: from any reachable state, after any run with one timer branch more than datagrams are owing, that accepts nothing new and does not end the server, exactly the datagrams before the first one over 10000 bytes are acknowledged, in order, however requests and client calls interleave |
| Progress.BoundedProgress | poll-read/src/main.rs:436-550 | With N datagrams outstanding, each at most 10000 bytes, N+1 timer branches are enough: all accepted datagrams are acknowledged and nothing is outstanding |
| Progress.ProgressExactly | poll-read/src/main.rs:436-550 | Under the same bound, everything is acknowledged if and only if every accepted datagram is at most 10000 bytes |
| Progress.OversizedNeverAcknowledged | poll-read/src/main.rs:541-548 | A datagram over 10000 bytes is never sent or acknowledged in any run, nor is any datagram behind it |
| Handshake.OversizedBlocks | poll-read/src/main.rs:541-548 | A reachable state with one accepted datagram over 10000 bytes, from which no run ever sends or acknowledges anything |
| Handshake.WindowFits | poll-read/src/main.rs:436-548 | A datagram of up to and including 10000 bytes is acknowledged: by every run with two timers that accepts nothing, from a reachable state that holds it; and a state after one such run |
| Progress.MeasureStep | poll-read/src/main.rs:467-548 | The ranking function, for datagrams of any length: a timer takes one off unless it is zero, and no other step that accepts nothing adds to it |
| Guarantees.FifoQueue | poll-read/src/main.rs:431-548 | In every reachable state accepted = acknowledged ++ sent ++ write queue ++ waiting ++ channel, also past the three `break 'outer` exits, where what was left in the channel is named; the write queue holds at most two |
| Guarantees.StepRefinesQueue | poll-read/src/main.rs:131-147 | Every step of the system is a step of one FIFO queue: it accepts at the end, acknowledges the one at the front, or changes neither; and `poll_write_chunk` and `start_send` return Ok exactly if their datagram was accepted |
| Guarantees.CreditConserved | poll-read/src/main.rs:436-548 | `cwnd` plus the bytes in flight is 10000 in every reachable state, so the subtraction never underflows and the bytes in flight never exceed 10000 (section 7 of RFC 9002) |
| Guarantees.SendPhaseIsGreedy | poll-read/src/main.rs:541-548 | The send phase keeps order and credit, and it stops only at the end or at a head that does not fit |
| Server.FittingIsExact | poll-read/src/main.rs:542-548 | The number of datagrams sent is exact: those fit together, and one more does not |
| Guarantees.FlushBarrier | poll-read/src/main.rs:190-211 | When `poll_flush` returns Ok at the end of any run, every datagram accepted before its request was sent has left the write channel and the waiting slot |
| Guarantees.FlushAnsweredWhenEmpty | poll-read/src/main.rs:482-512 | A flush request is answered only by a `try_recv` that found the channel empty with nothing waiting; all that was accepted has then departed |
| Guarantees.EmptyAnswersAllFlush | poll-read/src/main.rs:499-509 | A `try_recv` that finds the channel empty answers every flush notifier and touches no other request |
| Guarantees.FlushDoneMeans | poll-read/src/main.rs:202-210 | `poll_flush` returns Ok if and only if the command under its key has the answer to a flush request |
| Guarantees.AnswersConserved | poll-read/src/main.rs:439-512 | While the server runs, every request that was sent either has been answered, by its own variant (a write with its length), or is in exactly one place, once: the command channel or the notifier vector of its kind. None is thrown away |
| Guarantees.DroppedOnlyAtEnd | poll-read/src/main.rs:462-464 | In every reachable state no request is in two places, and only the end of the server leaves one without an answer and in no place |
| Guarantees.AnsweredOnce | poll-read/src/main.rs:439-512 | Along any run a request keeps its identity, and the answer it was given stays the same, also after it was taken out |
| Guarantees.ReadyAnsweredByDequeue | poll-read/src/main.rs:484-492 | A ready request is answered only by a `try_recv` that took a datagram |
| Guarantees.DequeueAnswersAllReady | poll-read/src/main.rs:486-490 | Taking a datagram answers every ready notifier and touches no other request |
| Handshake.ReadyAnsweredIff | poll-read/src/main.rs:454-457 | From the step that receives a ready request, when all datagrams fit: within N+1 timer branches it is answered with the ready response if and only if the write channel still held a datagram |
| Handshake.ReadyAnsweredExactly | poll-read/src/main.rs:454-508 | The same for datagrams of any length, one round later: answered if and only if the channel holds a datagram and at most two stuck ones are ahead of it; if not, it stays unanswered |
| Handshake.FlushAnsweredIff | poll-read/src/main.rs:458-512 | From the step that receives a flush request: within two rounds more than datagrams are owing it is answered with the flush response if and only if no oversized datagram has two others behind it; if not, it stays unanswered |
| Handshake.AnsweredInTime | poll-read/src/main.rs:439-550 | The budget argument behind both: a waiting request whose way is clear is answered when the rounds are used up |
| Handshake.ReadyStarves | poll-read/src/main.rs:499-509 | With the channel already empty the request stays unanswered over every run that accepts nothing, of any length |
| Handshake.SingleWriterStarves | poll-read/src/main.rs:149-188 | A reachable state, from a concrete run of one writer on channels of capacity 1, in which the writer waits for such an answer |
| Handshake.StarvedForEver | poll-read/src/main.rs:149-188 | From such a state, no run of the server and of further polls of that write ever gets it done |
| Guarantees.SlotsRespected | poll-read/src/main.rs:378-388 | Queued items plus held slots never exceed a channel's capacity; the holders are exactly the clients whose sender is Reserved; a stored command that has not sent still has its request |
| Guarantees.NoRequestUnreachable | poll-read/src/main.rs:380-382 | No poll of a stored command ever returns `NoRequest` |
| Guarantees.ReadyThenSend | poll-read/src/main.rs:181-187 | After `poll_ready` returned Ok, the next `start_send` is accepted |
| Outcomes.WriteOutcome | poll-read/src/main.rs:93-103 | `poll_write` returns Ok(n) if and only if its command has the answer n, which is then the length that was asked for; it fails exactly if the request is not sent yet and the command sender is closed, or if its answer was dropped |
| Outcomes.FlushOutcome | poll-read/src/main.rs:202-210 | When `poll_flush` returns Ok and when it fails, both exactly |
| Outcomes.ReadyCallsOutcome | poll-read/src/main.rs:149-188 | When `poll_ready`, `poll_write_chunk` and `poll_close` return Ok and when they fail, both exactly |
| Outcomes.CloseFailsWhenFull | poll-read/src/main.rs:217-224 | `poll_close` with an unused key and an idle command sender fails if and only if the datagram channel has no free slot, or its sender could not reserve one anyway |
| Outcomes.CloseCanFail | poll-read/src/main.rs:217-224 | A reachable state of a running server in which `poll_close` fails |
| Outcomes.FlushCanSucceed | poll-read/src/main.rs:190-211 | A reachable state, with a datagram accepted and gone on, in which `poll_flush` returns Ok |
| Completion.FlushCompletes | poll-read/src/main.rs:190-211 | End to end: from the poll that gets a slot for a flush request, over any run that accepts nothing, in which the server receives the requests queued before and this one and then has its rounds, and in which that operation is not polled: the next poll returns Ok if no oversized datagram has two others behind it, and Pending if one has |
| Completion.WriteCompletes | poll-read/src/main.rs:74-108 | The same for a write: once its request was received, whatever else happens, the next poll returns Ok with its length |
| Completion.ReadyCompletes | poll-read/src/main.rs:149-188 | The same for a ready request: the next poll returns Ok if and only if the channel held a datagram when the request was received, with at most two stuck ones ahead, and a slot is handed over now |
| Completion.PollSends | poll-read/src/main.rs:378-388 | A poll that gets a slot for its request returns Pending, the request is at the end of the command channel and the entry waits for its answer |
| Entries.WriteEntry | poll-read/src/main.rs:81-107 | The map after `poll_write`, exactly: nothing under other keys; after Pending the command it polled, unsent with its own request or waiting for the request just sent; gone after a result |
| Entries.FlushEntry | poll-read/src/main.rs:194-210 | The same for `poll_flush` |
| Entries.ReadyEntryAfter | poll-read/src/main.rs:155-187 | The same for `poll_ready`: gone after Ok and after a refused reservation; left as it was, with its answer used up if it had waited, after an error of its command; parked as `Terminated` while the reservation is pending |
| Entries.ReadyCallsEntry | poll-read/src/main.rs:213-226 | `poll_write_chunk` and `poll_close` leave the map as `poll_ready` does |
| Entries.RefusedIsClean | poll-read/src/main.rs:181-187 | After a failure that is not the command's, a flush under the same key does not panic, and a `start_send` fails and changes nothing |
| Entries.WaitingKeepsRequest | poll-read/src/main.rs:376-394 | A poll that returns Pending and sent nothing leaves the request it polled under its key |
| Entries.UnsentRun | poll-read/src/main.rs:376-394 | It stays there over every run that leaves the operation alone |
| Entries.FirstPollDecides | poll-read/src/main.rs:82-93 | The next poll of that operation polls the same request, whatever it is called with |
| Entries.FirstBufferIsWritten | poll-read/src/main.rs:82-107 | A write that had to wait for a slot sends the buffer of its first poll, and returns the length of that buffer |
| Commands.CommandExactlyOnce | poll-read/src/main.rs:362-412 | Over any sequence of polls, in any states of the world: one request at most, one answer at most, an answer only after the request, `Terminated` exactly when an answer was returned |
| Commands.PollForward | poll-read/src/main.rs:375-410 | One poll only moves State0 to State1 to Terminated; in State0 it sends its own request if and only if it gets a slot; it returns an answer if and only if it is in State1 and its channel has one, which it uses up |
| Commands.Execute | poll-read/src/main.rs:369-412 | The loop computes the one-poll function and goes round at most twice |
| Closing.CloseEndsRequests | poll-read/src/main.rs:213-226 | From the call of `poll_close` on, that call included and over any later run, a client sends at most one more request, and only if it held a slot of the command channel before |
| NoPanic.DisciplinedRunsNeverPanic | poll-read/src/main.rs:149-211 | If one key belongs to one unfinished operation, is not used again after a `poll_ready` error, and `start_send` follows a successful `poll_ready`, then no run from the start panics, with channels of any capacity |
| NoPanic.PanicsIff | poll-read/src/main.rs:81-107 | In every reachable state a call (other than `start_send`) panics if and only if the entry under its key is finished (except for `poll_ready`), used up by an earlier error, or holds the answer to another kind of operation |
| NoPanic.StepMatches | poll-read/src/main.rs:153-187 | What the callers know of their keys matches the maps after every step that keeps the rules, parked `Terminated` entries included |
| NoPanic.SharedKeyPanics | poll-read/src/main.rs:157-184 | Without key separation: after a ready answer another writer takes the slot, `poll_ready` parks a finished entry whatever the runtime chooses, and a flush under the same key panics |
| NoPanic.ReuseAfterErrorPanics | poll-read/src/main.rs:177 | Without the second rule: `poll_ready` fails, leaves its entry, and panics when polled again |
| NoPanic.UnpreparedSendPanics | poll-read/src/main.rs:240-247 | `start_send` succeeds exactly with a held slot, fails exactly when its sender is closed, and then nothing changes, and panics exactly when it is idle; in every case only the datagram sender and channel are touched |
| Clients.SendStream.Write | poll-read/src/main.rs:74-108 | The whole new state and result of a write poll |
| Clients.WriteDgram.Ready | poll-read/src/main.rs:149-188 | The same for `poll_ready`: the capacity test, the parked entry, the early returns, the reservation |
| Clients.WriteDgram.Flush | poll-read/src/main.rs:190-211 | The same for `poll_flush` |
| Clients.WriteDgram.Send | poll-read/src/main.rs:240-247 | The same for `start_send` |
| Clients.WriteDgram.WriteChunk | poll-read/src/main.rs:131-147 | The same for `poll_write_chunk` |
| Clients.WriteDgram.Close | poll-read/src/main.rs:213-226 | The same for `poll_close` |
| Invariant.ReachableInv | poll-read/src/main.rs:431-552 | The invariant of clients and server holds in every reachable state; among it, that a waiting datagram means at least two in flight or queued, and that between iterations the head of the queue does not fit |
| Evolution.RunLater | poll-read/src/main.rs:431-552 | Along every run: datagrams that departed stay departed in their order, answers are final, and a command in State1 has been there since its request was sent |
| ServerTask.Task.Serve | poll-read/src/main.rs:438-550 | The loop as written, with other threads running between its operations, is a run of the step system; the requests queued at the start are received in order, one in each iteration that wants one, and those received are answered or in their notifier vector; it ends with the FIFO equality and the credit equality, and, after one timer branch more than datagrams were owing, with every datagram acknowledged that can be |
| ServerTask.Task.Iteration | poll-read/src/main.rs:439-549 | One iteration is a run with one timer step if the timer branch was taken and one receipt if the request branch was. A wanted branch that can be taken at `select!` is taken: with a request queued it is received, and then answered or in its notifier vector; with the command channel closed, and no client joining, the loop ends. It leaves the loop exactly on a closed command channel or a closed read channel. If it takes a datagram, all ready requests received so far are answered and their vector is empty; if not, none is answered and none leaves the vector. The same for flush requests and finding the channel empty |
| Notifiers.IterationHandles | poll-read/src/main.rs:439-512 | The same on runs: any stretch that receives requests only before it drains treats the two kinds of request so |
| ServerTask.Task.Select | poll-read/src/main.rs:439-474 | The branch that is wanted is taken if its channel is ready for it, and the whole new state is that of the branch |
| Reception.ReceivedInOrder | poll-read/src/main.rs:440-466 | Over any run of a running server: after r receipts, the first r of the requests queued at the start are answered by their own variant or in the vector of their kind, and each of the others has moved up by r |
| Closing.ClosedIff | poll-read/src/main.rs:462-464 | The server sees the command channel closed if and only if it is empty and every client has closed its sender |
| ServerTask.Task.OnRequest | poll-read/src/main.rs:440-466 | The request branch and the take of the waiting datagram, whole new state |
| ServerTask.Task.OnTimer | poll-read/src/main.rs:467-481 | The timer branch and the take of the waiting datagram, whole new state |
| ServerTask.Task.Drain | poll-read/src/main.rs:482-512 | The drain loop makes at most three receives, however fast the clients write meanwhile, and is a run of `try_recv` steps |
| ServerTask.Task.AnswerReady | poll-read/src/main.rs:486-490 | The notifier loop answers exactly the requests in the vector and empties it |
| ServerTask.Task.AnswerFlush | poll-read/src/main.rs:503-507 | The same for flush notifiers |
| ServerTask.Task.SendLoop | poll-read/src/main.rs:541-548 | The send loop moves exactly the longest prefix that fits, and takes its bytes off the credit |
| RecvStream.RecvStream.PollRead | poll-read/src/main.rs:25-64 | The nested loops end; the buffer gets the next bytes of the stream; Ok exactly when the buffer is full; otherwise nothing is left to read; the leftover is None or nonempty; an error exactly when the senders are gone |
| RecvStream.RecvStream.DrainLocal | poll-read/src/main.rs:37-49 | The inner loop moves bytes from the leftover to the buffer and stops with the buffer full or no leftover |
| RecvStream.Conservation | poll-read/src/main.rs:24-64 | For any sequence of calls, buffer sizes and arrivals: bytes delivered ++ bytes unread = bytes produced, partly filled buffers counted |
| RecvStream.OutcomeExactly | poll-read/src/main.rs:32-63 | In terms of the bytes available to a call: it returns Ok exactly if they are enough for the room, and takes that many; otherwise it takes them all, and returns an error exactly if the senders are gone; so it returns Pending or an error with bytes in the buffer exactly if there were some, but too few |
| RecvStream.PartialRead | poll-read/src/main.rs:46-58 | One byte queued and room for two: every outcome has the byte in the buffer and nothing left in the reader, and is Pending, or an error if the senders are gone; and it can occur |
| RecvStream.EnoughIsFull | poll-read/src/main.rs:36-63 | A call that finds enough bytes at the start takes exactly the next ones, wherever the chunk boundaries are and whatever arrives meanwhile |
| RecvStream.ReadsFlatString | poll-read/src/main.rs:24-64 | With enough bytes at hand, a sequence of reads is a sequence of slices of one flat byte string |
| RecvStream.ChunkingIndependence | poll-read/src/main.rs:36-62 | Two chunkings of the same bytes give the same buffers for every sequence of read sizes |
| ControlMessages.HdrAlignExact | migrate-Udp/src/main.rs:117-119 | The header alignment rounds down to a multiple of 16 if the remainder is at most 8, and up otherwise |
| ControlMessages.LenIsLeast | migrate-Udp/src/main.rs:155-157 | `WSA_CMSG_LEN(n)` is the least multiple of 8 at or above 16 + n |
| ControlMessages.SpaceVersusLen | migrate-Udp/src/main.rs:150-157 | `WSA_CMSG_SPACE(n)` equals `WSA_CMSG_LEN(n)`, and covers header and payload, if and only if n mod 16 is 0 or at least 9; otherwise it is 8 smaller |
| ControlMessages.StrideIsSpace | migrate-Udp/src/main.rs:133-153 | NXTHDR steps over a message by exactly `WSA_CMSG_SPACE`, for every length |
| ControlMessages.HdrRoundTrip | migrate-Udp/src/main.rs:110-115 | A header read back from its 16 bytes is the header |
| ControlMessages.HdrLayout | migrate-Udp/src/main.rs:110-115 | The header in memory, byte by byte: bytes 0 to 7 are the base-256 digits of `cmsg_len`, 8 to 11 those of the level, 12 to 15 those of the type, in two's complement |
| ControlMessages.ReadLayout | migrate-Udp/src/main.rs:110-115 | Each field that is read is the number in its own bytes, by positions |
| ControlMessages.WalkBegins | migrate-Udp/src/main.rs:125-136 | FIRSTHDR, and NXTHDR of a null header, give the buffer if at least 16 bytes are in use, and null otherwise |
| ControlMessages.NxtHdrExact | migrate-Udp/src/main.rs:133-144 | NXTHDR for every `cmsg_len`, wrapping included: a header inside the buffer, the end, an address whose header wraps, or one round the address space |
| ControlMessages.StepForward | migrate-Udp/src/main.rs:133-144 | Exactly when one step ends or goes forward inside the buffer, and then by at least 16 and by a multiple of 16 |
| ControlMessages.WandersIff | migrate-Udp/src/main.rs:133-144 | Exactly when a step leaves the buffer, and exactly when it goes back inside it |
| ControlMessages.HugeLengthWanders | migrate-Udp/src/main.rs:133-144 | A buffer with one header, of a huge `cmsg_len`, from which NXTHDR gives an address below the buffer |
| ControlMessages.HugeLengthTurnsBack | migrate-Udp/src/main.rs:133-144 | A buffer with two headers, the second of a huge `cmsg_len`, from which NXTHDR gives the first again |
| ControlMessages.TwoHeadersForEver | migrate-Udp/src/main.rs:125-144 | The walk over that buffer visits the two headers in turn, for any number of steps |
| ControlMessages.SpinsIff | migrate-Udp/src/main.rs:133-144 | A header is its own successor if and only if its `cmsg_len` is at most 8 or among the 7 largest numbers |
| ControlMessages.ZerosForEver | migrate-Udp/src/main.rs:125-144 | The walk over 16 zero bytes visits the same header, for any number of steps |
| ControlMessages.WalkBounds | migrate-Udp/src/main.rs:125-144 | While the walk proceeds, every visited header lies wholly inside the buffer at a multiple of 16, each further on than the one before, so at most len/16 are visited |
| ControlMessages.WalkAll | migrate-Udp/src/main.rs:125-144 | The walk as a loop ends on every buffer after at most len/16 headers: through, because NXTHDR gives none, or at a header from which NXTHDR gives the same one, one further back, or one outside the buffer |
| ControlMessages.FirstInPlace | migrate-Udp/src/main.rs:402-417 | After a list of messages was written at SPACE strides, each header is intact, and each payload but for the bytes under the next header |
| ControlMessages.SurvivesIff | migrate-Udp/src/main.rs:150-157 | A message reads back whole if and only if it is the last, its length is good, or its covered bytes happen to equal the next header's |
| ControlMessages.WalkFindsAll | migrate-Udp/src/main.rs:125-148 | The walk over any written list, payloads of any length, finds every header at its place and then ends |
| ControlMessages.RoundTrip | migrate-Udp/src/main.rs:125-157 | The list read back is the list written if and only if every message survives |
| ControlMessages.GoodListsRoundTrip | migrate-Udp/src/main.rs:125-157 | With n mod 16 = 0 or at least 9 for every payload but the last, the list read back is the list written |
| ControlMessages.ShortPayloadLostInBuffer | migrate-Udp/src/main.rs:117-153 | Two messages written to a buffer of 32 bytes: both headers are found, and the one payload byte, 1, is read as 16 |
| ControlMessages.MakeControl | migrate-Udp/src/main.rs:402-423 | The sender's in-place copies give 128 bytes with one written message, byte by byte (with level 0 and type 19, byte 8 is 0 and byte 12 is 19), zeros behind it, and the length in use |
| ControlMessages.SenderToReceiver | migrate-Udp/src/main.rs:341-348 | One message of any payload length the buffer has room for: the receiver accepts it exactly for its level, type and a structure with no larger rounded length, reads what the sender wrote, with zeros behind if it asked for more, and there is no second message |
| ControlMessages.SentIsReceived | migrate-Udp/src/main.rs:402-423 | The round trip: a receiver that asks for the sender's level, type and number of bytes reads the sender's payload |
| ConnTable.NoLostReadiness | mio-TcpStream/src/main.rs:22-92 | Whenever the loop is about to poll, every registered connection with bytes or end of stream has a pending event, and so has the listener with a backlog |
| ConnTable.NoLostReadinessMidBatch | mio-TcpStream/src/main.rs:24-84 | In the middle of a batch the same holds with the events still to be handled counted in |
| ConnTable.EdgeTriggered | mio-TcpStream/src/main.rs:23-24 | A poll takes exactly the delivered events off what is pending |
| ConnTable.CallSizes | mio-TcpStream/src/main.rs:18-21 | A read takes 1 to 512 of the bytes that are there; a batch has at most 128 events |
| ConnTable.TableIsRegistry | mio-TcpStream/src/main.rs:36-38 | The table's keys are exactly the registered tokens, they lie in [1, `unique_token`), and no two connections share one |
| ConnTable.NoConnectionLost | mio-TcpStream/src/main.rs:26-39 | Every open connection either waits to be accepted or is in the table under its one token |
| ConnTable.InsertIsFresh | mio-TcpStream/src/main.rs:36-39 | An insert never overwrites an entry |
| ConnTable.TokensNeverReused | mio-TcpStream/src/main.rs:156-160 | Over any run a token that was given out never names another connection |
| ConnTable.StaleEventsHitNobody | mio-TcpStream/src/main.rs:41-44 | The connection that is read for an event is the one the event was raised for |
| ConnTable.RemovedOnlyWhenDrained | mio-TcpStream/src/main.rs:72-89 | An entry leaves the table only after its last byte was read and its peer has closed |
| ConnTable.ReachableInv | mio-TcpStream/src/main.rs:22-93 | The invariant behind these holds in every reachable state |
| ConnReceiver.Receiver.Next | mio-TcpStream/src/main.rs:156-160 | `next` returns the counter and adds one |
| ConnReceiver.Receiver.AcceptLoop | mio-TcpStream/src/main.rs:26-40 | The accept loop ends and is a run of the step system; without an error no connection waits, and an error needs a system call that fails |
| ConnReceiver.Receiver.ReadLoop | mio-TcpStream/src/main.rs:42-89 | The read loop and the removal end and are a run of the step system; without an error the connection is gone or has nothing to read, and an error needs a system call that fails |
| ConnReceiver.Receiver.HandleBatch | mio-TcpStream/src/main.rs:24-92 | The loop over a batch, with the peers acting throughout, is a run of the step system |
| ConnReceiver.Receiver.Round | mio-TcpStream/src/main.rs:22-92 | One poll and its batch: the events offered are the batch if they are possible, and every one is handled; it fails only if a system call does |
| ConnReceiver.Receiver.Serve | mio-TcpStream/src/main.rs:22-93 | The thread as written, with one poll for each offer, is a run of the step system and ends about to poll with nothing forgotten; it fails only if a system call does |

## Left out

- ServerTask.Task.OnRequest: does not model the branch of read requests (lines 442-448), which no client of the program sends.
- Read requests, datagram reads, the 1300-byte producers and `read_chunk`: simple forwarding; only the exits on a closed read channel are kept, as arbitrary choices.
- Wakers, `Pin`, task scheduling and time: a poll or a timer may happen at any time, and whether the runtime hands over a free slot is an arbitrary flag of each call.
- A client call is one step. The server is cut at its channel operations, so clients run between any two of them, but not inside one call of another client.
- The map key is the address of a local variable; here it is an arbitrary number.
- `PollSender` is idle, reserved or closed; its acquiring state, which holds nothing yet, counts as idle. The sender of the datagram channel is never closed by the client.
- The answers are polled in the state of the world at that poll; a request sent and answered within one poll is two polls here.
- `ReadBuf` is a growing sequence with a capacity. Arrivals during one read are finitely many. A receive never returns Pending with a chunk queued, which the runtime's cooperative budget may make it do.
- The credit and the token counter are unbounded numbers; the credit never exceeds 10000.
- An addition in the size macros and in the walk wraps, as in an optimized build; in a debug build it panics. The results about sizes hold where no addition overflows; those about one step of the walk hold for every `cmsg_len`.
- A reader of several control messages knows its payload lengths, since `cmsg_len` is rounded up.
- The last addition of the walk (`next.offset(1)`) is on numbers; provenance and alignment of pointers are not modelled. What a walk that has left the buffer reads there is not modelled either.
- ServerTask.Task.Interfere: its body is the case in which other threads do nothing; callers use its contract alone, which allows every run of client steps.
- ConnReceiver.Receiver.Interfere: the same for the peers, who bring finitely many connections and bytes in one session, without which the accept and read loops need not end.
- The bytes of the TCP connections are counted, not stored, since the receiver only prints their number. The removal of a connection and its deregistration are one step.
- The demo calls at the end of `main`, the route and address callbacks, the extension-function lookup, the sockets, the sender thread of the TCP program, and the other crates: plumbing around library and system calls.
