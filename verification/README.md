# A verified model of the serverlynx service core

serverlynx is a TCP service with two threads. The main thread queues commands (open, close, send) and
drains events (open, read, close). A libuv IO thread accepts, connects, reads, writes and closes. The
two share fixed pools sized for N clients: 4N read buffers, 4N events, 4N commands, 4N write requests
and N link slots. This project models that core, its start/stop life cycle, the length-prefixed link
reader, and the word-wise memory routines of the C# client, and proves what they promise.

`dafny verify dfyconfig.toml` checks everything.

## How the service is modelled

`ServiceModel.dfy` is a step system. A step is one section of a callback or API call that makes at most
one call on a queue or pool both threads use; what else a section does is private to its thread. Runs
are arbitrary sequences of steps, for every N, so every interleaving of the two threads at queue-call
granularity is covered. Objects are named by index and reached only through indices (a link's
`read_buffer`, an event's `priv`, the address of a message in the caller's memory), so an object shared
by mistake would show: the notes a batch of events carries are read through the event's buffer index at
the moment of reading, and the bytes of a send are read from the caller's memory one by one, at any time
until its write callback. The caller may rewrite its memory at any time. What an alloc callback offered
stays on record until a read callback uses it, however much happens in between.

Histories make the trace properties statable: `log` (every event queued), `seen` (every event acquired),
`wire` (what the network side did: a use of a slot began, bytes arrived, `uv_close` was called on account
of a command or of none), `queued`/`promises`/`handled` (commands, and the message of each as it was when
it was queued), `sent` (finished writes). None of them is copied from the field it is later compared with:
`wire` records the cause of a close from the handler that is running, not from the link.

* `Ownership.dfy`, `Conservation.dfy`: where each object can be, as multiset sums, and how every kind
  of step moves one.
* `Traces.dfy`: two independent readings of the histories, `Uses` of `wire` and `Tracked` of `log`,
  and how they agree for one slot.
* `Invariant.dfy`, `Steps.dfy`: the invariant and one preservation lemma for each of the 21 steps.
* `Theorems.dfy`, `Effects.dfy`, `Causes.dfy`, `Messages.dfy`: what follows in every state of every run;
  what handling a command changes; which command opened and which closed each use of a slot; what becomes
  of the messages of send commands.
* `Recovery.dfy`: how every run can go on until everything is given back; `Rewrites.dfy`: exactly when a
  message goes out as promised, which needs those continuations.
* `Batches.dfy`: the contract of acquire and release. `Witnesses.dfy`: runs, for every N, in which the
  code does not do what one would wish.
* `Service.dfy`: the service as a class whose methods change its fields as the code does. Beside its
  fields it keeps the run it has gone through as ghost state; `Valid()` says the fields are those of the
  state that run has reached from setup. Every callback and API method keeps `Valid()`, so every theorem
  about reached states holds of the object between any two calls.
* `Lifecycle.dfy`, `Calls.dfy`, `Restarts.dfy`, `Plugin.dfy`: the atomic state word with every load and
  store a separate step; what start, stop, SIGINT and the IO thread do to it and return; from which
  states the service can run again; the polling wrapper around stop.
* `Memory.dfy`, `Fill.dfy`, `ByteOrder.dfy`: `MemCpy`, `MemSet`, `MemCmp`, `HtoN`/`NtoH`. Words lie in memory
  lowest byte first: `Words.Rejoined16`, `Words.Rejoined32`, `Words.Joined64`.
* `Framing.dfy`: the stream format and the link reader.

## What the code turned out not to do

* `svl_service_stop` during STARTING can hang for ever: the IO thread checks for STARTING and then
  stores STARTED as two operations (`src/svlynx/service.c:105-107`), and a STOPPING stored in between
  is lost. `tests/test_service.c:58-80` calls stop right after start. `Lifecycle.StopDuringStartCanHang`
  is the run, `Lifecycle.LostStopExactly` says exactly when it happens,
  `Lifecycle.StopReturnsExactly` that the call can return if and only if it did not happen, and
  `Plugin.WrapperStops` that the plug-in's way of calling stop excludes it.
* A SIGINT outside any call shuts the service down for good: stop returns success from STOPPING without
  joining or storing STOPPED, and start refuses STOPPING (`src/svlynx/service.c:272-281`, `:291-297`).
  `Restarts.SigintIsFinal`. A launch that fails leaves STARTING, so later starts report success though
  no IO thread exists, and stop ends in ERROR: `Restarts.FailedLaunchIsFinal`.
  `Restarts.RunsAgainExactly` says from which states the service can ever be up again.
* `service_stop` on a service that was never started times out, because it ends by waiting for STOPPED
  (`src/svlynx/plugin.c:116-125`); `Plugin.ServiceStop` states it.
* `svl_service_events_release` does not zero its count, so a second release without an acquire gives the
  batch back again. `Batches.ReleaseConservesExactly` says exactly when that is harmless: the events
  survive only if the free list is full, the read buffers only if the pool is full or the batch has no
  read event. `Witnesses.SecondReleaseDuplicatesEvent` and `Witnesses.SecondReleaseDuplicatesBuffer` are
  runs to either failure; in the second the free list is full and a buffer is in the pool and in a link.
* A send whose link is not OPEN, that finds no write request, or whose `uv_write` fails is dropped
  without any event: `Effects.SendCommandTakesEffect` says exactly when a write is made.
* A close callback that finds no free event never returns its slot;
  `Theorems.StrandsExactlyWhenEventsAreOut`, and `Witnesses.StrandingHappens` is a run to it for every N.
  Nothing else is ever lost: `Recovery.EverythingElseComesBack`, and `Recovery.RecoverableExactly`.
* `svl_service_cmd_send` keeps the caller's pointer, and no event reports that a write is over, so the
  caller is never told when its memory is free again. `Messages.MessagesArrive`: messages go out as they
  were queued if no byte still awaited is rewritten. `Rewrites.SecureExactly` and
  `Rewrites.RewriteIsSafeExactly` say exactly when this fails, for a message still queued, being handled
  or being written, wherever the two threads stand: a rewrite is safe if and only if it misses the bytes
  still awaited, or changes nothing, or the command can never be written (its slot does not exist or is
  stranded, or it is being handled right now and is refused or finds no write request).
  `Witnesses.RewrittenWhileQueuedIsSent` and `Witnesses.RewrittenMessageIsSent` are runs in which other
  bytes go out than were submitted, after a rewrite before and after the command was handled.
* `MemCpy` is not memmove for every overlap; `Memory.WordCopyIsMemmoveExactly` gives the exact set of
  ranges. It contains all disjoint ranges, a source equal to the destination, and a source at least
  three bytes above it.
* `MemSet` with a negative `short` or `int` is not periodic, because the value is sign-extended before
  it is spread; `Fill.MemSetShort` and `Fill.MemSetInt` give the exact condition, and
  `Fill.NegativeFillFails` two values that fail it.
* `svl_link_buffer_swap` does not return the previous buffer to the pool (`Framing.SparesAreUsedUp`), and
  a payload longer than a
  buffer can never be read: `Framing.PayloadCanArriveExactly` and
  `Framing.PayloadCanArriveWithoutSparesExactly`. `Framing.OversizePayloadIsStuck` is such a stream.

## Assumptions

* tn queues are FIFO, bounded by the number of objects they are set up for, and each call on a queue
  or pool is atomic. tn lists are bounded stacks. A failed pop leaves the out pointer unchanged. A
  buffer popped from a pool is empty. `tn_buffer_add_length` fails when the length exceeds the room left.
  `tn_event_list_ready_pop_all` takes the whole queue, and fails exactly when it is empty.
  `tn_thread_join` fails when no thread was launched, or the last one was already joined.
  `tn_buffer_write_buffer(dst, src, 0)` copies every unread byte of `src`. The library is not part of
  this model.
* libuv runs callbacks one at a time; a read callback delivers no more than the length the last alloc
  callback of its handle offered, which it then uses up; no read callback follows `uv_close`; pending
  write callbacks run before the close callback; each `uv_close` gives one close callback; `uv_run`
  returns only when every link handle is closed. A write takes the bytes of its memory in order, and
  reports success only when it has taken them all.
* The main thread alternates acquire and release. `Batches.AcquireConservesExactly` and
  `Batches.ReleaseConservesExactly` show how far conservation needs this: acquire must find the batch
  given back, and a second release is harmless only in the cases that theorem lists.
* One thread calls start and stop. Two callers of start could both read NEW before either stores
  STARTING and launch two IO threads.
* The outcome of every foreign call (accept, connect, write, memory, address queries) is a parameter.
* Effects private to one thread are merged with a neighbouring queue call: `link->read_buffer = NULL`
  after the ready push of a read event happens in the step of that push.

## Model

| member | source | states |
|---|---|---|
| `Theorems.BufferHasOneOwner` | src/svlynx/service_internal.c:49-211 | in every reachable state each of the 4N read buffers is in exactly one of the pool, one link, one queued read event, or one acquired read event not yet given back |
| `Theorems.BatchIsStable` | src/svlynx/service.c:338-381 | no step but the main thread's own acquire and release changes what its acquired events say, bytes included: no link writes into a buffer an acquired event refers to |
| `Theorems.BatchIsStableOverRuns` | src/svlynx/service.c:338-381 | the same over any stretch of a run between acquire and release |
| `Theorems.BytesAreFaithful` | src/svlynx/service_internal.c:128-211 | for every use of every slot the bytes reported are a prefix of the bytes that arrived; on a link being read, and on one being closed until its close callback, they plus its buffer are all of them, so only closing drops the tail; the close event carries the cause the network history recorded; `uv_close` runs at most once per use |
| `Theorems.SeenIsPrefixOfLog` | src/svlynx/service.c:338-353 | the main thread acquires what was queued, in order, nothing skipped, nothing twice, and what is still queued reads as it did when it was queued |
| `Theorems.EventsAreWellFormed` | src/svlynx/service_internal.c:238-275 | the events queued, and those acquired, under one client id are always a prefix of repeated "open, reads, close" or "close" |
| `Theorems.ReadsFollowAnOpen` | src/svlynx/service_internal.c:184-197 | a read event comes after an open of its client with only reads of that client in between |
| `Theorems.OpensAreSeparated` | src/svlynx/service_internal.c:304-322 | between two opens of one client id there is a close |
| `Theorems.ReuseOnlyAfterClose` | src/svlynx/service_internal.c:49-77 | a slot on the free list has had every one of its uses reported, and every report has its close |
| `Theorems.SlotHasOneOwner` | src/svlynx/link.c:72-144 | each slot is listed free once, stranded once, or owned by one live handle; its id is its index; a slot without a handle holds no buffer and is NEW or CLOSED |
| `Theorems.EventHasOneOwner` | src/svlynx/service.c:199-200 | each of the 4N events is free, ready, acquired and not given back, or in a callback's hand, exactly one of these |
| `Theorems.BatchFits` | src/svlynx/service.c:338-353 | an acquired batch never exceeds the 4N entries of `event_updates` |
| `Theorems.PushesNeverFail` | src/svlynx/service_internal.c:56-73 | whenever a thread is about to push an event, slot, command, write request or read buffer, the queue or pool has room: the branches that log a stranded object are dead and the pushes whose result is ignored lose nothing |
| `Theorems.ArrivalsFit` | src/svlynx/service_internal.c:142-182 | no read buffer ever holds more than 65535 bytes, and whatever a read callback brings within the length last offered still fits its buffer when it comes, whatever happened since: the guard of `tn_buffer_add_length` never fails |
| `Theorems.AllocSucceeds` | src/svlynx/service_internal.c:135-143 | a link without a buffer fails to get one exactly when links and read events hold all 4N; with at most 3N read events out it always gets one |
| `Theorems.StrandsExactlyWhenEventsAreOut` | src/svlynx/service_internal.c:61-76 | a close callback strands its slot exactly when all 4N events are queued or acquired |
| `Witnesses.StrandingHappens` | src/svlynx/service_internal.c:61-76 | for every N a run from setup that strands a slot |
| `Theorems.QuietAtLoopExit` | src/svlynx/service.c:105-116 | when `uv_run` can return no link holds a buffer, every write request is back, every slot is free or stranded, and all N are free if none was stranded |
| `Recovery.EverythingElseComesBack` | src/svlynx/service_internal.c:49-497 | from every reachable state the run can go on until every queued command is handled and all 4N events, read buffers, commands and write requests are in their pools, and every slot but those stranded so far is free |
| `Recovery.RecoverableExactly` | src/svlynx/service_internal.c:49-77 | some continuation frees every object of the service if and only if no slot has been stranded |
| `Theorems.CommandsInOrder` | src/svlynx/service_internal.c:471-497 | handled commands are a prefix of those queued, and all of them once the queue is empty |
| `Theorems.CommandHasOneOwner` | src/svlynx/service.c:419-499 | each of the 4N commands is free, being filled, ready, or being handled, whichever handler branch failed |
| `Causes.CausedExactly` | src/svlynx/service_internal.c:423-433 | the history names a command as what closed (or opened) a use of a slot if and only if the run contains the step in which that command, not refused, closed (or opened) that very use |
| `Causes.CloseNamesItsCommand` | src/svlynx/service_internal.c:63-65 | the close event of a use carries a command id if and only if that command closed that very use, and TN_CMD_INVALID if and only if no command did: never an id of an earlier use or of a refused command |
| `Causes.OpenNamesItsCommand` | src/svlynx/service_internal.c:306-310 | the open event of a use that a command began carries that command |
| `Causes.ClosersWereQueued` | src/svlynx/service.c:444-460 | a command that closed a use was queued for that client id and has been handled |
| `Causes.CloseCommandTakesEffect` | src/svlynx/service_internal.c:423-439 | a close command on an OPEN link becomes the cause of ending its current use, which had none; a refused one changes no link and no record |
| `Effects.CommandTakesEffect` | src/svlynx/service_internal.c:378-468 | in every reached state and for every answer of the environment, what handling the command in hand changes: an open takes the last freed slot for a new use exactly when handle and connect succeed, a close closes exactly an OPEN link, a send makes a write exactly when its link is OPEN, a request is listed and `uv_write` succeeds; otherwise links, slots, writes and requests are what they were, but for fields of a slot that stays free |
| `Effects.SendCommandTakesEffect` | src/svlynx/service_internal.c:442-468 | one more pending write, for this command, its slot and its memory, and one request fewer listed, when the link is OPEN, a request is listed and `uv_write` succeeds; in every other case writes and listed requests are unchanged |
| `Theorems.RequestHasOneOwner` | src/svlynx/service.c:61-66 | each of the 4N write requests is listed once or attached to one pending write |
| `Messages.WritesAreOrdered` | src/svlynx/service_internal.c:442-460 | every write, pending or finished, belongs to a handled send command of its own, so none is sent twice; a pending one is on the slot that command named, whose close callback has not run |
| `Messages.MessagesArrive` | src/svlynx/service.c:485-492 | if the caller rewrites no byte a message still awaits, every finished write sent a part of its message as it was when queued, all of it on success, and every pending one is about to |
| `Rewrites.SecureExactly` | src/svlynx/service_internal.c:442-460 | in every reachable state a message goes out as it was when queued, in every continuation without a rewrite, if and only if what was sent, is being sent, or waits behind the queued command's pointer is as promised, or no write can ever be made for the command |
| `Rewrites.RewriteIsSafeExactly` | src/svlynx/service.c:485-492 | for a message that is as promised so far, queued or being written, rewriting a byte of memory leaves it so in every continuation if and only if the byte is not one it still awaits, or keeps its value, or no write can ever be made for its command |
| `Witnesses.RewrittenMessageIsSent` | src/svlynx/service_internal.c:453-457 | for every N a run in which a write reports success and other bytes went out than were submitted |
| `Witnesses.RewrittenWhileQueuedIsSent` | src/svlynx/service.c:485-492 | the same, the memory being rewritten after the call returned and before the command is handled |
| `Steps.StepInBounds` | src/svlynx/service_internal.c:49-497 | every step enabled in a state satisfying the invariant reaches only objects that exist: no dangling buffer, event, command or slot |
| `Steps.StepKeeps` | src/svlynx/service_internal.c:49-497 | each of the 21 steps keeps the whole invariant (five conservation laws, link shapes, room behind every offer, pending writes, log, command pipeline, traces) |
| `Steps.RunKeeps` | src/svlynx/service_internal.c:49-497 | so does every run |
| `Steps.InitKeeps` | src/svlynx/service.c:179-214 | setup establishes it, for every N |
| `Steps.AcceptKeeps` | src/svlynx/service_internal.c:214-276 | an inbound connection keeps it, on the path without a slot, the failing path, and the path without a free event |
| `Steps.ConnectKeeps` | src/svlynx/service_internal.c:279-323 | so does an outbound connection, established or failed |
| `Steps.PublishOpenKeeps` | src/svlynx/service_internal.c:304-323 | so does queueing the open event, with `uv_read_start` failing or not |
| `Steps.AllocKeeps` | src/svlynx/service_internal.c:128-152 | so does giving a link a buffer: it comes from the pool and no link or event refers to it |
| `Steps.ReceiveKeeps` | src/svlynx/service_internal.c:175-186 | so does appending received bytes, with and without a free event |
| `Steps.PublishReadKeeps` | src/svlynx/service_internal.c:188-199 | so does handing the buffer to a read event |
| `Steps.HangupKeeps` | src/svlynx/service_internal.c:201-208 | so does closing after a read error |
| `Steps.CloseBeginKeeps` | src/svlynx/service_internal.c:53-59 | so does returning the buffer in the close callback |
| `Steps.CloseTakeKeeps` | src/svlynx/service_internal.c:61-62 | so does taking the close event, or stranding the slot |
| `Steps.PublishCloseKeeps` | src/svlynx/service_internal.c:63-73 | so does queueing the close event and freeing the slot |
| `Steps.TransmitKeeps` | src/svlynx/service_internal.c:455-457 | so does taking a byte of a message |
| `Steps.WriteDoneKeeps` | src/svlynx/service_internal.c:106-125 | so does a write callback |
| `Steps.HandleBeginKeeps` | src/svlynx/service_internal.c:478-479 | so does popping a ready command |
| `Steps.HandleEndKeeps` | src/svlynx/service_internal.c:481-495 | so does handling it, in every branch of the three handlers |
| `Steps.RelaunchKeeps` | src/svlynx/service.c:61-66 | so does a new IO thread listing all write requests anew after the loop ended |
| `Steps.AcquireKeeps` | src/svlynx/service.c:338-353 | so does acquire |
| `Steps.ReleaseBufferKeeps` | src/svlynx/service.c:364-376 | so does giving one buffer back |
| `Steps.ReleaseEventKeeps` | src/svlynx/service.c:377-377 | so does giving one event back |
| `Steps.CmdTakeKeeps` | src/svlynx/service.c:430-433 | so does popping and filling a free command |
| `Steps.CmdQueueKeeps` | src/svlynx/service.c:434-434 | so does queueing it |
| `Steps.RewriteKeeps` | src/svlynx/service.c:488-489 | so does the caller rewriting its memory |
| `Batches.ReleaseKeeps` | src/svlynx/service.c:356-381 | releasing a held batch gives back exactly its events and exactly the buffers of its read events, and keeps the invariant |
| `Batches.AcquireConservesExactly` | src/svlynx/service.c:344-350 | acquire conserves events and buffers if and only if the previous batch has been given back |
| `Batches.ReleaseConservesExactly` | src/svlynx/service.c:356-381 | a release call conserves the events if and only if the batch is still held or empty or the free list is full, and the buffers if and only if it is still held or empty, the pool is full, or no event of the batch is a read |
| `Witnesses.SecondReleaseDuplicatesEvent` | src/svlynx/service.c:356-381 | for every N a run after which a second release lists an event twice |
| `Witnesses.SecondReleaseDuplicatesBuffer` | src/svlynx/service.c:356-381 | for every N a run after which the free list is full and a second release keeps the events but duplicates a read buffer |
| `Batches.ReleaseAfterEmptyAcquire` | src/svlynx/service.c:345-347 | release after an acquire that found nothing changes nothing |
| `ServiceObject.Service.constructor` | src/svlynx/service.c:179-214 | setup builds the initial state of the step system, with nothing done yet |
| `ServiceObject.Service.SetupLinks` | src/svlynx/link.c:83-88 | the loop lists the slots in order, each with its index as id |
| `ServiceObject.Service.SetupRequests` | src/svlynx/service.c:63-66 | the loop lists all 4N write requests |
| `ServiceObject.Service.StartIo` | src/svlynx/service.c:61-66 | a new IO thread after the last loop ended lists all requests anew and stays on a valid run |
| `ServiceObject.Service.OnRecvAlloc` | src/svlynx/service_internal.c:128-152 | offers exactly the room left in the link's buffer, and nothing exactly when the link has none and the pool is empty, or its buffer is full |
| `ServiceObject.Service.OnSend` | src/svlynx/service_internal.c:106-125 | the write is over, its request is listed again (the push always finds room), and what was sent is on record |
| `ServiceObject.Service.OnRecv` | src/svlynx/service_internal.c:155-211 | an error closes the link and reports nothing; bytes are appended to the link's buffer, and if an event was free everything the buffer holds is reported and the link lets it go, otherwise the link keeps it |
| `ServiceObject.Service.OnInboundConnection` | src/svlynx/service_internal.c:214-276 | without a free slot nothing changes; otherwise the last freed slot is taken and its open is reported and it is read from, or it is being closed, exactly when the connection is at fault, no event was free, or reading could not start |
| `ServiceObject.Service.OnOutboundConnection` | src/svlynx/service_internal.c:279-323 | the open is reported with the command that asked for it and the link is read from, or the link is being closed, in the same cases |
| `ServiceObject.Service.OnCloseLink` | src/svlynx/service_internal.c:49-77 | the link is CLOSED and its buffer back in the pool; if an event was free the close is reported with the link's close command and the slot is free again, otherwise nothing is reported and the slot is stranded |
| `ServiceObject.Service.HandleOne` | src/svlynx/service_internal.c:478-495 | one turn handles the first command queued and not handled, and whichever branch its handler takes the command is free again; what the handler did to links, slots, writes and requests is exactly what `Effects.CommandTakesEffect` says for the fields before and after |
| `ServiceObject.Service.OnCheck` | src/svlynx/service_internal.c:471-497 | the loop ends, also when the main thread queues more commands between its turns, and then everything ever queued has been handled |
| `ServiceObject.Service.EventsAcquire` | src/svlynx/service.c:338-353 | the batch is the whole ready queue; everything ever queued has then been seen, in order; succeeds exactly when the batch is not empty |
| `ServiceObject.Service.EventsRelease` | src/svlynx/service.c:356-381 | the loop gives back exactly the events of the batch and exactly the buffers of its read events |
| `ServiceObject.Service.Submit` | src/svlynx/service.c:419-499 | a command call succeeds exactly when the service is STARTED and a free command exists; then the command is the last queued, with its message as it is now on record, otherwise nothing changed |
| `Lifecycle.OneIoThread` | src/svlynx/service.c:263-328 | over every interleaving, SIGINT included, NEW or STOPPED means no IO thread is alive, and two never coexist |
| `Calls.StateIsLastStore` | src/svlynx/service.c:105-122 | over every interleaving, SIGINT included, the state word holds what was stored last, by start, stop, the IO thread or SIGINT, and NEW until something is |
| `Calls.StartDoesExactly` | src/svlynx/service.c:263-285 | a start that is over stored STARTING and tried to launch exactly when its load read NEW or STOPPED, and returned an error exactly when it read STOPPING or ERROR or the launch failed |
| `Calls.StopDoesExactly` | src/svlynx/service.c:288-318 | a stop that is over stored STOPPING and joined exactly when its load read STARTING or STARTED, and returned an error exactly when it read ERROR or its join found no thread |
| `Calls.StopSucceedsExactly` | src/svlynx/service.c:297-315 | a stop that read STARTING or STARTED and is over returned success, with the state STOPPED and the thread gone, exactly when there was an IO thread as it read, as there always is when it read STARTED; otherwise it left ERROR |
| `Calls.LastMoveIs` | src/svlynx/service.c:105-122 | where the IO thread stands says which of its steps was the last: it is done only after quitting its boot, closing its loop, or storing ERROR |
| `Calls.FailureIsReported` | src/svlynx/service.c:117-122 | once an IO thread that failed is done, and the caller has stored nothing since, the state is ERROR |
| `Calls.ErrorExactly` | src/svlynx/service.c:117-122 | the state is ERROR if and only if the last store was the IO thread's after a failure as its last step, or the caller's after a join that found no thread |
| `Calls.SigintStopsExactly` | src/svlynx/service_internal.c:28-40 | the SIGINT callback stores STOPPING exactly when it read STARTED |
| `Calls.NobodyElseWaits` | src/svlynx/service.c:263-328 | start and stop can be called in every state, timer and SIGINT come at any time, foreign calls turn out either way; a thread ever waits only in a stop, for the end of a live IO thread |
| `Restarts.RunsAgainExactly` | src/svlynx/service.c:263-328 | in every run some continuation gets the service STARTED, its thread running and the caller free, if and only if it is not lost: not STOPPING or ERROR with nobody in a call, and not without an IO thread while STARTING or inside stop |
| `Restarts.RunsAgainCalmlyExactly` | src/svlynx/service.c:263-318 | without SIGINT, if and only if it is not lost and no stop hangs; in particular from every state that is NEW or STOPPED |
| `Restarts.StartedCanStop` | src/svlynx/service.c:288-318 | from every STARTED state with the caller free some continuation is one stop that returns success with the state STOPPED and the thread gone |
| `Restarts.SigintIsFinal` | src/svlynx/service.c:321-328 | after a SIGINT has stored STOPPING outside any call the service never gets up again, every start fails, and every stop returns at once |
| `Restarts.FailedLaunchIsFinal` | src/svlynx/service.c:281-282 | after a failed launch there is never an IO thread again, and a start that reads the STARTING it left reports success |
| `Lifecycle.LostStopExactly` | src/svlynx/service.c:105-107 | without SIGINT the caller is hung if and only if some stop stored STOPPING between the IO thread's check and its store |
| `Lifecycle.HungForever` | src/svlynx/service.c:306-309 | a hung stop stays hung in every continuation without SIGINT |
| `Lifecycle.StopReturnsExactly` | src/svlynx/service.c:288-318 | a stop waiting for the IO thread can return if and only if it is not hung |
| `Lifecycle.StopDuringStartCanHang` | src/svlynx/service.c:105-108 | a concrete run in which a stop right after a start hangs |
| `Lifecycle.StartedStays` | src/svlynx/plugin.c:112-115 | a caller that read STARTED reads it again until it acts itself |
| `Lifecycle.ObservedIsDisciplined` | src/svlynx/plugin.c:110-115 | a run in which every stop is called after the caller read STARTED, with no call in between, never stops on STARTING |
| `Lifecycle.StopDiscipline` | src/svlynx/plugin.c:106-128 | with stop never issued on STARTING and no SIGINT: no stop hangs, once the state was STOPPING it is never STARTED again in that launch, and after a successful stop the state is STOPPED or an untouched NEW and no IO thread exists |
| `Plugin.StateWait` | src/svlynx/plugin.c:89-104 | succeeds if and only if the wanted state is read at once or by a poll before the limit is used up |
| `Plugin.ServiceStop` | src/svlynx/plugin.c:106-128 | calls stop only after reading STARTED, and exactly when the result is success; a service that stays NEW times out |
| `Plugin.WrapperStopSucceeds` | src/svlynx/plugin.c:112-115 | on a run without SIGINT a stop issued by this wrapper, if it is over, returned success and left STOPPED with the IO thread gone |
| `Plugin.WrapperStops` | src/svlynx/plugin.c:106-128 | on every run without SIGINT whose stops are all issued by this wrapper, its loads being states of the run: no stop hangs, STARTED does not come back after STOPPING in a launch, and a successful stop leaves STOPPED or an untouched NEW with the IO thread gone |
| `Memory.WordCopyIsMemmoveExactly` | SVLUnityProject/Assets/ServerLynx/Scripts/Util.cs:115-153 | the word-wise copy with its overlapping tail equals memmove on every memory if and only if the ranges are safe |
| `Memory.MemCpy` | SVLUnityProject/Assets/ServerLynx/Scripts/Util.cs:115-153 | the loop and switch compute the word-wise copy; on safe ranges the destination gets the source's old bytes and nothing else changes |
| `Memory.CopyTailAt` | SVLUnityProject/Assets/ServerLynx/Scripts/Util.cs:129-152 | each case of the switch is one store or two overlapping ones |
| `Memory.UnsafeGoesWrong` | SVLUnityProject/Assets/ServerLynx/Scripts/Util.cs:88-99 | for every unsafe pair of ranges some memory comes out different from memmove |
| `Fill.MemSet` | SVLUnityProject/Assets/ServerLynx/Scripts/Util.cs:156-193 | byte i of the range is byte i mod 8 of the value, nothing else changes |
| `Fill.MemSetByte` | SVLUnityProject/Assets/ServerLynx/Scripts/Util.cs:196-201 | every byte of the range is the value, nothing else changes |
| `Fill.MemSetShort` | SVLUnityProject/Assets/ServerLynx/Scripts/Util.cs:204-209 | what each byte becomes; the value repeats with period two if and only if it is not negative or its bytes that recur are all 0xFF |
| `Fill.MemSetInt` | SVLUnityProject/Assets/ServerLynx/Scripts/Util.cs:212-217 | the same with period four |
| `Fill.NegativeFillFails` | SVLUnityProject/Assets/ServerLynx/Scripts/Util.cs:204-217 | a short 0x8000 over three bytes or more, and an int 0x8000_0000 over five or more, do not come out periodic |
| `Fill.MemCmp` | SVLUnityProject/Assets/ServerLynx/Scripts/Util.cs:268-307 | true if and only if every byte matches |
| `Fill.CopyThenCompare` | SVLUnityProject/Assets/ServerLynx/Scripts/Util.cs:115-307 | after a safe copy the ranges compare equal exactly when the copy left the source alone, hence always when they are disjoint |
| `ByteOrder.HtoN16Reverses` | SVLUnityProject/Assets/ServerLynx/Scripts/Util.cs:32-35 | the bytes of the result are those of the input reversed |
| `ByteOrder.HtoN32Reverses` | SVLUnityProject/Assets/ServerLynx/Scripts/Util.cs:41-46 | the same for the masked 32-bit swap |
| `ByteOrder.HtoN64Reverses` | SVLUnityProject/Assets/ServerLynx/Scripts/Util.cs:52-55 | the same for the 64-bit swap built from it |
| `ByteOrder.RoundTrip16` | SVLUnityProject/Assets/ServerLynx/Scripts/Util.cs:36-38 | HtoN and NtoH undo each other |
| `ByteOrder.RoundTrip32` | SVLUnityProject/Assets/ServerLynx/Scripts/Util.cs:47-49 | the same at 32 bits |
| `ByteOrder.RoundTrip64` | SVLUnityProject/Assets/ServerLynx/Scripts/Util.cs:56-58 | the same at 64 bits |
| `Frames.DecodeEncoded` | src/svlynx/link.c:25-55 | decoding an encoded sequence of payloads followed by anything gives the payloads and then the decoding of the rest |
| `Frames.RoundTrip` | src/svlynx/link.c:25-55 | decoding undoes encoding for all payloads shorter than 2^32 |
| `Frames.EncodeDecoded` | src/svlynx/link.c:25-55 | every stream is its decoded payloads, encoded, and a rest that completes no payload |
| `Frames.ValueOrders` | src/svlynx/link.c:29-30 | lengths are ordered as their headers are from the first byte on: the highest byte comes first |
| `Framing.RunKeeps` | src/svlynx/link.c:25-69 | over any mix of appends, reads and swaps, the input is the payloads handed out, encoded, and the pending bytes |
| `Framing.OutputIsPrefixOfDecoding` | src/svlynx/link.c:25-69 | the payloads handed out are a prefix of the decoding of everything appended, and all of it exactly when the pending bytes complete nothing |
| `Framing.PayloadCanArriveExactly` | src/svlynx/link.c:40-69 | an awaited payload can still be handed out by some continuation if and only if it fits an empty buffer |
| `Framing.OversizePayloadIsStuck` | src/svlynx/link.c:25-55 | after a header that announces 65536 bytes no continuation hands anything out |
| `Framing.PayloadCanArriveWithoutSparesExactly` | src/svlynx/link.c:58-69 | with no spare buffer, if and only if it fits behind what has been read |
| `Framing.SparesAreUsedUp` | src/svlynx/link.c:58-69 | over any run, spare buffers left plus swaps that succeeded are the spares at the start plus those others returned |
| `Framing.SwapsRunOut` | src/svlynx/link.c:58-69 | if none are returned, no more swaps succeed than there were spares |
| `Framing.LinkReader.ReadHeader` | src/svlynx/link.c:25-37 | succeeds exactly with four unread bytes, which are the big-endian length; a failure changes nothing |
| `Framing.LinkReader.ReadPayload` | src/svlynx/link.c:40-55 | succeeds exactly when the whole payload is unread; a failure changes nothing |
| `Framing.LinkReader.BufferSwap` | src/svlynx/link.c:58-69 | succeeds exactly with a spare buffer, which then has left the pool while none has returned; the unread bytes are then all the new buffer holds; a failure changes nothing |
| `Framing.LinkReader.Drain` | src/svlynx/link.c:18-55 | dispatching on what is awaited until a call fails hands out exactly the payloads complete in the pending bytes, after which the output is the decoding of the whole input |

## Left out

- ServiceObject.Service.OnOutboundConnection: for `status < 0` the code jumps past the initialisers of `link` and `client_handle` (`src/svlynx/service_internal.c:284-290`) and then uses both; the intended path, with the link taken from `connect_req->data`, is modelled.
- ServiceObject.Service.HandleCmdOpen: `uv_close` on a handle whose `uv_tcp_init` failed (`src/svlynx/service_internal.c:417-419`) is outside libuv's contract and is not modelled; the handle of a failed connect is closed without a link and drops out of the model.
- ServiceObject.Service.ReportOpen: the inbound callback never sets the open event's command id, so the event keeps whatever the object held; `None` in the open note of an inbound connection stands for that unknown value, and no theorem promises more.
- ServiceObject.Service.OnInboundConnection: failures before a slot is taken (negative status, no memory, `uv_accept`) change nothing modelled and have no step of their own.
- ServiceObject.Service.Submit: `svl_service_cmd_send` also peeks a queue of write requests that nothing ever consumes; that check always succeeds after setup and is omitted, as is `cmd_id`, which the caller of the model chooses.
- ServiceObject.Service.OnCheck: the main thread's calls come between two turns of the loop and are submissions; finer interleavings, and acquire and release, are covered by the step system.
- Lifecycle.StopDiscipline: excludes SIGINT, after which stop returns success from STOPPING without joining (`Restarts.SigintIsFinal`). Nothing is claimed about how soon `uv_run` returns: the timer closes the service's own handles only, so a stop can wait as long as clients stay connected.
- Memory.MemCpy: negative lengths, which the code turns into huge unsigned ones, are excluded; words are modelled as runs of bytes loaded and then stored whole.
- Framing.LinkReader.Drain: the repository shows no caller of the reader; dispatching on `read_state` until a call fails is the driver assumed.
- ByteOrder: the signed overloads reinterpret the same bits and are not repeated.
- Endpoints, link error codes, handle memory, logging, statistics and heap sizing: foreign calls or counters with no invariant of their own.
- `svl_link_list_reset`, `client_list_open`, `on_prep_cb`, `pool_write`, `write_reqs_free`, `write_reqs_ready` and the commented-out send path: dead code.
- SVL_SERVICE_INVALID and the link read states NONE, ERROR and INVALID: no store ever writes them.
- `svl_service_listen`, the socklynx exports, the C# bindings and the demo programs: thin wrappers.
- A client id kept after its slot was reused: ids carry no generation, so the code promises nothing about it.
