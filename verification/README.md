# gknet: a verified model

gknet is a reactor-style network library in Go. This Dafny project models its core and proves what
the code is for, over every input, every interleaving and every answer of the kernel:

* **The lock-free queue** (`LockFreeQueue`, `QueueLinearizability`, `QueueCalls`, `QueueLength`, `QueueProgress`): a
  transition system with one step per atomic operation and any number of threads. Every schedule is
  linearizable to a FIFO queue, nil is never dereferenced, and the lagging `Length` is accounted for. It is
  lock-free: a thread alone returns within 15 steps, and among enough steps of any threads some call returns.
* **The wake-up protocol** (`WakeUp`, `WakeUpTheorems`, `WakeUpWrap`, `WakeUpDispatch`, `WakeUpRounds`): producers and
  the poll loop on top of two such queues, again step by step. What is put into a queue is dispatched once and in
  order, and a readable wake descriptor leads to a round that dispatches it. A
  wake-up is lost exactly when a wake event that is not the last of its batch is read, and missed exactly when
  both sizes wrap to zero in the last check; a lost one is lost for good; otherwise none is ever lost.
* **The poll loop** (`PollRound`, `WaitPoll`): what a triggered round hands out, how many rounds a
  backlog takes, when a stop is seen, and the event buffer and trigger flag over whole runs.
* **The HTTP/1.1 response writer** (`ResponseSpec`, `ResponseRuns`, `ResponseWire`, `ResponseTheorems`,
  `ResponseLimits`, `ResponseSent`, `Response`):
  the writer as functions and as the object it is, proved equal; a reader written from RFC 7230
  (`Rfc7230`, `ChunkedCoding`, `Decimal`) gets the handler's data back exactly under a stated condition.
* **The connection** (`ConnSpec`, `ConnStream`): what every call and event does, as functions and as the object it
  is. Nothing is lost, duplicated or reordered in either direction for any partial writes, EAGAINs and failures, the
  epoll interest agrees with the buffer, and every writable event sends all that the kernel takes.
* **Small cores** (`BodyLimiter`, `ByteSlicePool`, `Splitter`, `Decimal`).

The transition functions are `LockFreeQueue.Step` (utils/queue/lock_free_queue.go:30-70),
`WakeUp.StepProducer` (poll/poll.go:54-72) and `WakeUp.StepConsumer` (poll/poll.go:109-166 driven by
sys/sys_poll_linux.go:101-126). The response's specification functions are `ResponseSpec.WriteHeader`,
`Write`, `Flush`, `Finish`, `Settle` and `Emit` (gkhttp/response.go:200-460); its reader is
`Rfc7230.DecodeBody`, after sections 3.3.3 and 4.1 of RFC 7230. What these functions mean is stated by
the members in the table.

An object whose methods update it is a class with methods; what concurrent threads do is a state
machine over atomic steps; the response writer is both, the class proved against the functions.
Foreign parts (kernel, goroutine scheduling, garbage collector) are nondeterministic: their answers
are parameters, and the statements hold for all of them.

Where the code does less than its comments or its apparent intent say, the model follows the code
and the statement carries the exact condition:

* A wake event that is not last in its batch is consumed without a round; if `toTrigger` is set and no
  producer is about to trigger, no queued function ever runs again (`LosesExactly`, `LostForever`, `EarlyWakeIsLost`).
* Without a goroutine pool, or with an error channel that has no room, a stop error is never seen
  (`ServeRounds`): the result of `runTask` is dropped.
* `IsEmpty` reads an int32 that wraps: at rest it is exact up to multiples of 2^32 (`IsEmptyAtRest`). If the last
  check before the consumer goes back to wait meets such multiples in both queues, not both 0, and no enqueuer of
  either is on its way, everything queued is left behind, until something else wakes the consumer; no other step
  leaves anything (`MissesExactly`, `WatchedExactly`, `WrapIsMissed`).
* A response whose declared length has a sign, with a Transfer-Encoding that contains but does not end in
  `chunked`, flushed early without declared framing, or whose declared length differs from what is
  written does not come back (`RoundTrip`, `SignedLength`, `ChunkedNotLast`).
* A rejected over-length write still counts, so that a later flush may slice past the buffer and panic
  (`PanicsExactly`), or send as many bytes that nobody wrote, left in the buffer by its last user
  (`SentExactly`, which tells them byte by byte, and `StaleBytes`). A flush forgets the count, so that the declared length is no longer enforced
  (`RejectsExactly`, `FlushForgetsLength`). A chunked response to HEAD sends the last chunk (`HeadBody`), and so does a 204, 304 or 1xx
  with a declared `chunked` (`BodilessBody`), although none of these has a body.
* `Open` returns an error whenever part of the greeting is left over: it adds the write interest to a
  descriptor that is already registered (`ConnStream.Conn.Open`).
* An error or hang-up selects the write handler although nothing is buffered; it then takes the first piece of an
  empty buffer, and panics if there is none (`ConnStream.Conn.HandleEvents`).
* Between two events a read that reaches the stale `Buffer` delivers bytes twice (`HandlerRead`).
* `Close` gives up on EAGAIN: everything arrives exactly if the kernel takes all of it at once (`Conn.Close`).
* `SplitDataForWritev` panics for most lengths, and never ends for chunk size 0 (`Splitter.SplitDataForWritev`).
* Bucket 31 of the byte slice pool is never filled (`Pool.Put`).

## Model

| member | source | states |
|---|---|---|
| LockFreeQueue.RunShape | utils/queue/lock_free_queue.go:30-70 | every step of every thread keeps the one Next-chain with Head not beyond Tail, each thread's locals consistent with it, and crashes nobody |
| LockFreeQueue.CallShape | utils/queue/lock_free_queue.go:30-32 | starting a call, with its freshly allocated node, keeps the same |
| LockFreeQueue.LinkAppends | utils/queue/lock_free_queue.go:38-40 | the successful swap of `tail.Next` appends exactly its value to the abstract queue |
| LockFreeQueue.TakeRemovesFirst | utils/queue/lock_free_queue.go:62-65 | the successful swap of Head removes exactly the value that Dequeue will return |
| LockFreeQueue.OtherStepsKeepAbs | utils/queue/lock_free_queue.go:30-70 | no other step changes the abstract queue |
| QueueLinearizability.AbsNote | utils/queue/lock_free_queue.go:30-70 | each step changes the abstract queue as its place in the linearization says, and is legal there |
| QueueLinearizability.Reachable | utils/queue/lock_free_queue.go:25-70 | the inductive invariant holds after every schedule |
| QueueLinearizability.NeverCrashes | utils/queue/lock_free_queue.go:52-62 | `next` is never nil where `next.Value` is read, and Head never overtakes Tail, in every schedule |
| QueueLinearizability.QueueIsThePointerWalk | utils/queue/lock_free_queue.go:14-28 | replaying the linearization gives exactly the values met by walking Next from Head to nil |
| QueueLinearizability.Linearizable | utils/queue/lock_free_queue.go:30-70 | every returned call has its own event, with the outcome the code returned, between its call and its return; the events replay legally on a sequential FIFO queue; each other event belongs to a call in progress, starts with it and is its thread's only one |
| QueueLinearizability.RealTimeOrder | utils/queue/lock_free_queue.go:30-70 | a call that returned before another began precedes it in the linearization |
| QueueCalls.AlwaysInside | utils/queue/lock_free_queue.go:30-31 | a thread inside Enqueue holds the node with the value that its call was given, in every schedule |
| QueueCalls.EveryReturnIsRecorded | utils/queue/lock_free_queue.go:41 | every return from Enqueue or Dequeue is recorded once, at its time, with an outcome that fits the call: a put carries the value given |
| QueueLinearizability.TakenArePrefix | utils/queue/lock_free_queue.go:30-70 | the values put are the values taken, in the same order, followed by the queue |
| QueueLinearizability.EmptyAnswerIsTrue | utils/queue/lock_free_queue.go:57-59 | whenever Dequeue answers nil the queue was empty at a moment during that call |
| QueueLength.LengthAccounting | utils/queue/lock_free_queue.go:38-40 | in every schedule Length is the queue size minus enqueuers between link and increment plus dequeuers between swap and decrement, as an int32 |
| QueueLength.IsEmptyAtRest | utils/queue/lock_free_queue.go:72-74 | with no call in flight IsEmpty is true if and only if the size is a multiple of 2^32 |
| QueueLength.ZeroLengthInFlight | utils/queue/lock_free_queue.go:38-40 | in every schedule without a dequeuer between swap and decrement, Length 0 on a nonempty queue (below 2^32) means that an enqueuer has still to count |
| QueueProgress.TailNearEnd | utils/queue/lock_free_queue.go:36-45 | in every schedule Tail is the last linked node, or the one before it, and then the thread that linked the last one is about to swing Tail |
| QueueProgress.AloneReturns | utils/queue/lock_free_queue.go:30-70 | wherever the other threads have stopped, a thread that runs alone returns from its call within 15 of its steps |
| QueueProgress.LockFree | utils/queue/lock_free_queue.go:30-70 | lock-freedom: after any schedule, when n threads make more than a number of steps that depends on n only, in any order and with new calls in between, one of these steps is a return |
| WakeUp.PutKeeps | poll/poll.go:54-58 | a producer inside Enqueue keeps the protocol invariant, and what is queued stays watched: a check is to come, or an enqueuer of either queue has still to swap `toTrigger` |
| WakeUp.CasKeeps | poll/poll.go:58-61 | a producer's swap of `toTrigger`, won or lost, keeps both |
| WakeUp.DequeueKeeps | poll/poll.go:119-132 | the consumer's Dequeue steps keep both |
| WakeUp.EmptyAnswerLeavesPending | poll/poll.go:142-143 | although Length lags, a check with no producer left to trigger answers true if and only if the size is a multiple of 2^32; so whatever a check misses otherwise has a producer that has still to swap `toTrigger` |
| WakeUp.CheckPriorKeeps | poll/poll.go:141-143 | the last check keeps the protocol invariant, and leaves something queued unwatched if and only if it misses: both sizes are multiples of 2^32, not both 0, and no producer of either queue has still to swap `toTrigger` |
| WakeUpTheorems.DoKeeps | poll/poll.go:54-166 | every move of producers, kernel and consumer keeps the protocol invariant; and what is queued stays watched, unless the move is a last check that misses it |
| WakeUpTheorems.MissesExactly | poll/poll.go:141-143 | a step of any kind stops watching what is queued if and only if it is a last check that misses |
| WakeUpTheorems.WatchedExactly | poll/poll.go:141-143 | in a run what is queued is watched at all times if and only if no last check of the run misses |
| WakeUpWrap.WrapIsMissed | utils/queue/lock_free_queue.go:72-74 | a run, built move by move, in which a multiple of 2^32 values is added while the consumer joins: it goes back to wait, and nobody will wake it |
| WakeUpTheorems.FewAreSighted | poll/poll.go:141-143 | no check misses in a run with fewer than 2^32 values in each queue at a time |
| WakeUpTheorems.RunSafe | poll/poll.go:54-166 | the protocol invariant holds after every run |
| WakeUpTheorems.LosesExactly | sys/sys_poll_linux.go:112-122 | a step loses the wake-up if and only if it reads a wake event that is not the last of its batch while `toTrigger` is set and no producer is about to trigger |
| WakeUpTheorems.LossExactly | sys/sys_poll_linux.go:112-122 | a run loses the wake-up at some point if and only if some move of it reads an early wake in this way |
| WakeUpTheorems.EndsExactly | poll/poll.go:134-166 | the loop ends in a run if and only if some callback of the run comes back with a fatal error, its own or one that a pooled function left |
| WakeUpTheorems.LostForever | poll/poll.go:118-147 | after that no run whatsoever dispatches anything again |
| WakeUpTheorems.AwakeOrLost | poll/poll.go:54-147 | in every run, outside a round with something queued: a wake-up is on its way (a readable descriptor, or a producer of either queue that triggers or has still to try) or lost, if and only if what is queued is watched or a descriptor or trigger meant for something else is left; always so if no check of the run missed |
| WakeUpTheorems.WakeLastNeverLost | sys/sys_poll_linux.go:118-122 | if every batch has the wake event last, no state of the run has lost it |
| WakeUpTheorems.NoLostWakeUp | poll/poll.go:54-147 | no lost wake-up, for every number of producers and every interleaving: if every batch has the wake event last and no last check misses, then outside a round something queued always has its wake-up on the way |
| WakeUpTheorems.EarlyWakeIsLost | sys/sys_poll_linux.go:118-122 | a concrete run in which one AddTask is followed by a batch of two and nothing is ever run |
| WakeUpDispatch.QueueSchedule | poll/poll.go:54-132 | each queue of the poller goes through a schedule of the lock-free queue, so every theorem about schedules holds of it |
| WakeUpDispatch.DispatchedInOrder | poll/poll.go:54-132 | exactly-once dispatch in every run of producers and loop: the values put into a queue, in the order of its linearization, are those handed out from it, then the one in hand, then those still queued; nil, which the loop cannot tell from the empty answer, aside |
| WakeUpRounds.RoundAlone | poll/poll.go:118-132 | a round that nobody disturbs, atomic step by atomic step: all prior values and then the first 256 normal ones are handed out, in order, and no others |
| WakeUpRounds.RoundEndsAlone | poll/poll.go:141-147 | with no enqueuer on its way it ends armed again, with the descriptor written and the flag carried, if and only if it can see that something is left, that is, unless both sizes wrap to zero |
| WakeUpRounds.CarriedIntoRound | sys/sys_poll_linux.go:118-122 | a carried flag makes a batch of a single event a round, whatever the event |
| WakeUpRounds.ErrorDropsFlag | poll/poll.go:153-163 | an error that is only logged drops the flag, and the same batch is no round |
| WakeUpRounds.WakeUpDispatches | poll/poll.go:118-132 | from every reachable state in which the consumer waits and the wake descriptor is readable, the consumer alone comes to hand out all prior values and the first 256 normal ones, in order |
| PollRound.DoWaitCallbackErr | poll/poll.go:172-181 | only the two stop errors leave the loop, unchanged |
| PollRound.Poller.AddTask | poll/poll.go:54-62 | appends, and makes the descriptor readable exactly when the flag was clear |
| PollRound.Poller.AddPriorTask | poll/poll.go:64-72 | the same for the prior queue |
| PollRound.Poller.RunTask | poll/poll.go:74-106 | runs at once and returns its stop error without a pool, is only submitted with one |
| PollRound.Poller.Finish | poll/poll.go:86-103 | a pooled function ends: a stop error is sent unless the channel is full |
| PollRound.Poller.Wait | poll/poll.go:134 | for every completion order nothing is running afterwards, and the channel has got one error for each function that stopped, as far as there is room |
| PollRound.Poller.HandOutPrior | poll/poll.go:120-124 | runs all prior functions, in order |
| PollRound.Poller.HandOutTasks | poll/poll.go:126-132 | runs the first 256 others, in order |
| PollRound.Poller.Round | poll/poll.go:118-147 | hands out all prior functions, then at most 256 normal ones, in order; ends with a stop error if and only if one is in the channel or a pooled function returned one; otherwise re-arms if and only if some remain; one error leaves the channel and the others stay |
| PollRound.RoundsNeededIs | iface/consts.go:18 | the recursive count of rounds is max(1, ceil(B/256)) |
| PollRound.DrainBacklog | poll/poll.go:118-147 | a backlog of B is handed out in order in exactly max(1, ceil(B/256)) rounds, and then the flag is clear |
| PollRound.ServeRounds | poll/poll.go:134-140 | over any arrivals, the loop ends in the first round that hands out a stopping function, and only there, if and only if there is a pool and room in the channel |
| WaitPoll.NextSize | sys/sys_poll_linux.go:128-132 | the size stays a power of two in [32, 1024], doubles only when full and halves only when less than half used |
| WaitPoll.HandleBatch | sys/sys_poll_linux.go:111-126 | only the last callback is triggered, exactly if it is for the wake descriptor or is alone with a carried flag; a fatal error ends the batch |
| WaitPoll.Fill | sys/sys_poll_linux.go:102 | a wait fills at most the buffer |
| WaitPoll.Resize | sys/sys_poll_linux.go:80-90 | the new buffer has the new size |
| WaitPoll.WaitPoll | sys/sys_poll_linux.go:92-135 | over every run: sizes, batches, callbacks, carried flags and timeouts, and the loop ends exactly at an error |
| Decimal.NumeralParses | socket/convert.go:74-87 | the numeral parses back to its argument and has no leading zero |
| Decimal.DigitsAreNumeral | gkhttp/response.go:246 | every string of digits is the numeral of its value, but for leading zeros |
| Decimal.Uint64Fits | socket/convert.go:80 | a 64-bit number never needs more than 20 of the 32 bytes |
| Decimal.Int2Decimal | socket/convert.go:74-87 | the loop that fills the buffer backwards never underruns it and prints the numeral |
| Rfc7230.AppendedChunkedIsFinal | gkhttp/response.go:444-447 | appending `, chunked` makes chunked the final coding, whatever was declared |
| ResponseSpec.ContainsExactly | gkhttp/response.go:256 | a substring is found if and only if it occurs somewhere |
| ResponseTheorems.ParsesDigits | gkhttp/response.go:246-247 | a declared length of digits, with or without a sign, is taken as its value if and only if that is a 64-bit number |
| ResponseTheorems.ParsesOnlyDigits | gkhttp/response.go:246-247 | nothing else is taken |
| ResponseTheorems.BodyRuleAgrees | gkhttp/response.go:329-340 | the statuses taken to have no body are those of section 3.3.3 of RFC 7230 |
| ResponseSpec.ReadyKeeps | gkhttp/response.go:236-260 | writing the header keeps the invariant that ties state, history and declaration |
| ResponseSpec.WriteKeeps | gkhttp/response.go:200-232 | every Write keeps it, accepted, rejected or overflowing, and never slices past the buffer |
| ResponseSpec.FlushKeeps | gkhttp/response.go:280-293 | every Flush that does not panic keeps it |
| ResponseSpec.FinishFinishes | gkhttp/response.go:297-303 | without a rejected write finishing never panics, sends all that was accepted in nonempty pieces and the last chunk exactly when chunking, under the framing that declaration and calls determine |
| ChunkedCoding.HexParses | gkhttp/response.go:396 | the chunk size printed in hexadecimal reads back |
| ChunkedCoding.ChunksDecode | gkhttp/response.go:395-431 | decoding chunks followed by the last chunk and anything gives the concatenation of the pieces, and the rest |
| ResponseRuns.HandledTracks | gkhttp/response.go:200-293 | after any calls: accepted data, early data, status and flushes are what the calls say |
| ResponseTheorems.NeverPanics | gkhttp/response.go:200-303 | a handler with a valid status that writes no more than declared never panics and is never rejected |
| ResponseTheorems.RoundTrip | gkhttp/response.go:200-303 | for every declaration, buffer and sequence of calls: the exchange completes and the reader gets exactly the written data back, wherever the next message starts, if and only if the declared length is plain and equal to the data, or chunked is declared last, or nothing blocks the automatic length or chunks |
| ResponseTheorems.SignedLength | gkhttp/response.go:246-249 | a declared length `+5` is accepted and never round-trips |
| ResponseTheorems.ChunkedNotLast | gkhttp/response.go:254-258 | a declared `chunked, gzip` switches chunking on and never round-trips |
| ResponseTheorems.ChunkedLast | gkhttp/response.go:254-258 | a declared `chunked`, alone or behind any other codings, switches chunking on and comes back, for every buffer and all calls |
| ResponseTheorems.CodingsKept | gkhttp/response.go:441-449 | in every finished exchange the declared codings go out as declared, with `chunked` added if and only if the response chunks and they do not contain it |
| ResponseTheorems.HeadBody | gkhttp/response.go:422-431 | for HEAD, in every exchange that does not panic, the body is the last chunk if the response is chunked, and empty otherwise |
| ResponseTheorems.NothingLost | gkhttp/response.go:214-231 | between any two calls, as long as no write was rejected, pieces passed on followed by the buffered bytes are all data written, no piece is empty, and the body is those pieces framed |
| ResponseTheorems.FramingIsFixed | gkhttp/response.go:435-460 | once emitted, the header block and the chunking never change over any further calls |
| ResponseWire.WireGrows | gkhttp/response.go:386-409 | what went out is never taken back: more calls only add to it |
| ResponseTheorems.FinishFixed | gkhttp/response.go:297-303 | finishing emits the header block if none is out, and otherwise leaves it and the framing |
| ResponseWire.HeaderFirst | gkhttp/response.go:386-389 | in every run what went out is nothing, or one header block followed by bytes of the body only |
| ResponseWire.ServedWire | gkhttp/response.go:418-433 | a finished exchange has sent its one header block, and only added to what was out before |
| ResponseTheorems.ChunksWithoutLength | gkhttp/response.go:441-457 | between any two calls and in every finished exchange, also after rejected writes: the header block of a response that chunks has a Transfer-Encoding and no Content-Length |
| ResponseLimits.RejectsExactly | gkhttp/response.go:214-219 | over every run: a write was rejected if and only if the length is enforced and some write passed it as the code counts, where a flush of buffered data resets the count |
| ResponseLimits.WritesReport | gkhttp/response.go:207-219 | in every run each Write reports what the calls tell: nothing for no data, that no body is allowed, that the length is exceeded as counted, or success |
| ResponseLimits.PanicsExactly | gkhttp/response.go:280-303 | over every run: the exchange panics if and only if its status is invalid, or the length is enforced and a flush or the end finds more counted than the buffer holds |
| ResponseLimits.BodilessBody | gkhttp/response.go:418-433 | a response whose status allows no body always completes; its body is the last chunk if chunked was declared, and empty otherwise |
| ResponseLimits.OverlongWrite | gkhttp/response.go:214-219 | an instance: a single over-length write is rejected, and finishing then panics if and only if it is longer than the buffer |
| ResponseSent.SentExactly | gkhttp/response.go:216-223 | with an enforced length, over every run: the body is, call by call, the data of each write that was not rejected, and for each rejected write that reserved bytes what earlier writes or the pooled buffer's last user left at its place; this is what the handler wrote if and only if there is none of these, and otherwise longer by exactly those |
| ResponseSent.StaleBytes | gkhttp/response.go:216-223 | an instance: after a single rejected write that fits the buffer, the first bytes of the pooled buffer are sent |
| ResponseLimits.FlushForgetsLength | gkhttp/response.go:287-292 | an instance: two writes with a flush between them that together pass the declared length are rejected if and only if the first overflowed the buffer |
| Response.Response.constructor | gkhttp/response.go:176-192 | a new response is the initial state |
| Response.Response.WriteHeader | gkhttp/response.go:236-260 | the method does what the function says, or panics exactly for an invalid code |
| Response.Response.CwWriteHeader | gkhttp/response.go:435-457 | the header block as specified, once |
| Response.Response.CwWrite | gkhttp/response.go:386-409 | sends a piece as specified |
| Response.Response.CwClose | gkhttp/response.go:418-433 | closes the chunk writer as specified |
| Response.Response.Append | gkhttp/response.go:214-231 | the in-place part of Write, with its copy into the buffer, computes the specified state |
| Response.Response.Write | gkhttp/response.go:200-232 | result and new state as specified, with no slice out of bounds |
| Response.Response.Flush | gkhttp/response.go:280-293 | new state as specified, or a panic exactly when the buffer is overrun |
| Response.Response.FinishRequest | gkhttp/response.go:297-303 | finishes once, as specified |
| Response.Serve | gkhttp/response.go:170-303 | running the object on any calls emits what the specification says, one header block and then the body, and the reader gets the data back if and only if the condition of RoundTrip holds |
| ConnSpec.TruncatedPrefix | conn/conn_handler.go:109-115 | the first 1024 pieces of the buffer, or all if there are fewer, are a prefix of it, and not empty unless it is |
| ConnSpec.Drained | conn/conn_handler.go:103-130 | with no further writes, k writable events that the kernel answers by taking bytes bring an open connection's peer at least k bytes, or all there are |
| ConnSpec.ScriptDelivers | conn/conn_read.go:7-24 | while the connection stays open the handler's reads on a chunk deliver as many bytes as they ask for together, or all there are |
| ConnSpec.LifeAdds | conn/conn_write.go:13-32 | over a whole life, all that was written and all that arrived is on the books while the connection is open, and a part of each once it closed |
| ConnSpec.LifeStaysOpen | conn/conn_handler.go:119-124 | a connection stays open as long as no call fails and nobody closes it |
| ConnSpec.EnoughTurns | conn/conn.go:135-148 | the flush loop sends everything when as many answers as there are bytes are successes |
| ConnStream.Conn.Write | conn/conn_write.go:13-32 | sends at once only if nothing is buffered, buffers the rest in order, and closes on an error; the outbound invariant is kept |
| ConnStream.Conn.Writev | conn/conn_write.go:84-119 | the same for the concatenation of the slices |
| ConnStream.Trim | conn/conn_write.go:107-115 | the loop that trims in place leaves exactly the unsent bytes, and changes no other slice |
| ConnStream.Conn.AsyncWrite | conn/conn_write.go:38-51 | a queued write: nothing after closing, else Write |
| ConnStream.Conn.AsyncWritev | conn/conn_write.go:121-132 | a queued writev: nothing after closing, else Writev |
| ConnStream.Conn.SendFront | conn/conn_handler.go:104-117 | the buffer loses exactly the bytes that the kernel took |
| ConnStream.Conn.WriteToFd | conn/conn_handler.go:103-130 | sends from the front what the kernel takes, clears the write interest exactly when the buffer empties, closes on an error; panics if and only if nothing is buffered and the empty buffer shows no piece |
| ConnStream.Conn.FlushAll | conn/conn.go:135-148 | the flush loop sends, in order, what the kernel's answers take until the first that is no success |
| ConnStream.Conn.Close | conn/conn.go:125-167 | sends that, unregisters, and drops every buffer; nothing if closed before |
| ConnStream.Conn.Open | conn/conn.go:170-186 | writes the greeting; the error is EEXIST if and only if part of it is left over |
| ConnStream.Conn.EpollAdd | sys/sys_poll_linux.go:41-62 | adding fails on a registered descriptor and changes nothing |
| ConnStream.Conn.EpollMod | sys/sys_poll_linux.go:64-74 | modifying replaces the interest |
| ConnStream.Conn.Read | conn/conn_read.go:7-24 | copies the inbound buffer and then the chunk, removes what was copied, and says EOF exactly if both are empty |
| ConnStream.Conn.HandlerRead | conn/conn_read.go:7-24 | while the handler runs on a chunk nothing is lost or repeated and EOF means that all that arrived was delivered; between events that holds if and only if the read stays within the inbound buffer or the chunk is used up |
| ConnStream.Conn.OnTrack | conn/conn_handler.go:43 | the handler's calls on a chunk do what the books say, one by one, and keep both invariants |
| ConnStream.Conn.ReadFromFd | conn/conn_handler.go:29-47 | one readable event does what the books say, keeps both invariants and accounts for every byte |
| ConnStream.Conn.HandleEvents | sys/sys.go:86-105 | every event that epoll can report, with errors and hang-ups, sends what the kernel takes of what is buffered, then reads; it panics if and only if it is an error or hang-up with nothing buffered, in a buffer that then shows no piece |
| ConnStream.Live | conn/conn.go:125-186 | a whole life of a connection whose handler reads only inside OnTrack goes exactly as the books of `Life`: how much was sent and delivered, and when it closed; while open, bytes taken plus buffered are all that was written and bytes delivered plus buffered all that arrived, in order, and the write interest holds exactly when bytes are buffered; after closing both are prefixes; it ends early if and only if some step panics |
| BodyLimiter.Body.Read | gkhttp/request.go:149-161 | reads at most up to the limit, from the right place, and says EOF from there on |
| BodyLimiter.Body.CopyN | gkhttp/request.go:171 | drops, turn by turn, what the reader gives, until the limit, the end of the input or an error; the limit or the end if the reader keeps giving; no error exactly at the limit |
| BodyLimiter.Body.Close | gkhttp/request.go:164-173 | drops so the rest of the body: the reader stands at the limit, or at the end of what arrived, if it keeps giving, and never beyond |
| BodyLimiter.Serve | gkhttp/request.go:149-173 | any reads, then Close: the handler gets the prefix of the body that its reads ask for and the reader gives, and exactly the body, or what arrived of it, is consumed if the reader keeps giving |
| ByteSlicePool.IndexIsLeast | utils/byteslice/bs.go:64-66 | the index is the least k with n <= 2^k, below 32, and 2^index is less than 2n |
| ByteSlicePool.Pool.Get | utils/byteslice/bs.go:30-48 | a slice of the length asked for within its block, which is the one the bucket gives and leaves the pool; a fresh one has the bucket's size |
| ByteSlicePool.Pool.Put | utils/byteslice/bs.go:51-62 | the block goes into the bucket of the largest power of two within the capacity, always below 31; buckets stay large enough, and blocks stay apart if and only if the slice was not given back before |
| ByteSlicePool.Use | utils/byteslice/bs.go:30-62 | any use, with blocks dropped at any time and foreign slices put in: every slice lies within its memory and no two held slices share a block |
| Splitter.SplitDataForWritev | utils/utils.go:29-47 | for every chunk size: the slices concatenate back to the data if and only if the length splits (at most a chunk, or a remainder of 0 or 1); then every slice before the last is a full chunk, and the last has the remainder; chunk size 0 never ends on more than one byte, and everything else panics |

## Left out

- WakeUpTheorems.NoLostWakeUp: assumes that writing the wake descriptor and submitting to the pool succeed.
- PollRound.Poller.Round: no producer runs during a round here; interleaving is the subject of WakeUp and WakeUpDispatch. With a pool only the order of handing out is claimed, as pooled functions run concurrently.
- ResponseTheorems.RoundTrip: leaves out HEAD and statuses without a body, which have none to read back.
- Response.Response.Write: a hijacked connection is not modelled.
- Response.Response.CwWrite: a failing underlying write, which closes the connection, is not modelled.
- Response.Response.CwWriteHeader: the header block is its status and framing fields; date, content type and connection fields are not modelled.
- Response.Response.FinishRequest: giving buffer and header map back to their pools, closing the request body and removing multipart files are not modelled.
- ConnStream.Live: the handler reads only while it runs on a chunk; for reads between events see HandlerRead. Each handler is one step, although queued writes do not take the connection's lock.
- BodyLimiter.Body.Read: a declared length so close to the int64 limit that the addition could wrap.
- ByteSlicePool.Pool.Put: a slice that starts inside a block counts as a block of its own.
- ConnStream.Conn.AsyncWrite: the hook's callback after the write is not part of the method; what it writes or closes are further steps of Live.
- ConnStream.Conn.AsyncWritev: the same, and the error that the callback returns is not modelled.
- ConnStream.Conn.Close: the returned error, of unregistering, of closing the descriptor or of the handler's OnClose, is not modelled.
- ConnStream.Conn.EpollMod: changing the interest of a registered descriptor is taken to succeed.
- The elastic buffers come from another library and are not part of this model: a buffer is a FIFO byte sequence that may show its content in any pieces.
- The queue is a state machine over values instead of a class, because its threads interleave between atomic operations, which are sequentially consistent; nil as a queued value, which a caller cannot tell from the empty answer, is told apart by the history.
- Functions handed out by the loop run elsewhere; those that add more are producers of their own, also without a pool, where they run on the loop's thread.
- In the wait loop the callback's answer is a parameter of each event, and a failed read of the wake descriptor is not modelled.
- Changes of the handler's header map after the first write, chunk extensions and trailers (never sent), and int64 overflow of `written`.
- That `Buffer` still aliases memory given back to its pool after an event; it is a value here. The asynchronous twins of the handlers have the same bodies.
- A descriptor number reused by another connection after closing, writes before the connection is opened, and UDP.
- The kqueue poller, whose recorded filters do not follow its changes.
- ReadFastRequest and line reading: they rest on slices that the next read overwrites.
- Balancers, engine start and stop, connection counts, TLS, adapters, logging, sockets and the registries of pools: plumbing around these parts.
