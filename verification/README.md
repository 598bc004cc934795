# Qlaster in Dafny

Qlaster fans account, transaction and slot updates out from one sender to at most ten local consumers. Every
consumer has a shared-memory byte ring of its own, an event counter that wakes its reader, and a control socket
for subscriptions and pings. This project models that data path and control path and proves what they promise,
over every input, every run and every interleaving.

How the parts fit together:

- `Bytes`, `Types`: little-endian integers, fields laid out at fixed offsets, updates, requests, tokens, errors.
- `Codec`, `CodecMethods`: the binary formats as functions on byte strings, and the cursor parsers and
  header builders as methods proved equal to them.
- `Filter`: the subscription filter with its singleton paths and Bloom reject.
- `Framing`, `Link`: length-prefixed frames and the close sentinel in a bounded byte queue; one consumer's ring,
  counter, producers and reader as a step system.
- `Queues`, `Consumer`: the bounded overwrite queues between a reader and its user.
- `Sender`, `SenderInv`, `SenderEntries`, `SenderSteps`, `SenderTheorems`: the whole sender as a step system. Any
  number of upsert, ping and dispatch tasks interleave on ten compare-and-swap cells; each atomic load, store,
  compare-and-swap, fetch-and-add, ring write and notify is one step. The proof is by rely and guarantee: every step
  keeps the shared invariant and what every other task knows.
- `SenderDispatch`, `SenderEvictions`, `SenderScan`, `SenderProgress`, `SenderFilters`, `SenderOverlap`: over whole runs,
  who gets an update, who is evicted and why, when the table is full, how tasks end, and what becomes of the filters.
- `SenderAlone`: what one operation does when it runs by itself from any reachable state.
- `Ring`, `Manager`: the same objects as classes, operation by operation, run by one task at a time.
- `Wire`, `Client`, `Subscribers`, `Handler`: framed messages on the control socket, its two ends as methods, and what
  serving them makes of the table.
- `Control`, `ControlRequests`, `ControlAlone`: the socket beside the whole concurrent sender as a step system.

Times, random Bloom keys, I/O failures and the scheduler are arbitrary inputs. Foreign code enters as function
values (`Types.Env`, `Handler.Codecs`); the only thing assumed of it is `Lz4Inverts`, that LZ4 decompression undoes
compression. The byte queue is linearizable: a slice write appends all of the slice or nothing, a read batch
takes up to as many bytes as asked for from the front.

Where the code and its documentation differ, the model follows the code. The README of the repository (line 6)
calls the ring single-producer; the code opens a multi-producer queue (src/shm/ring.rs:83) and several tasks push
to it, so `Link` has any number of producers.

Some promises hold only under a condition. The condition is proved to be exact, and an input outside it is shown to
fail:

- A close is seen only if the sentinel fits (`Link.CloseStopsReader`, `Link.RefusedClose`), and a sentinel is told from
  a data frame only in a ring of at most 2^32 bytes (`Link.SentinelUnambiguous`, `Link.AmbiguousFrame`).
- An accepted account frame is what the encoder sends only if both chose alike about compression
  (`Codec.AccountReencode`, `Codec.SmallCompressedFrame`).
- Requests applied to one connection add up in a run only if no task stores its filter after another request was
  stored since its own load (`SenderFilters.RequestsAddUp`, `SenderOverlap.RequestLostInRun`).
- `SenderEvictions.EvictedIff`, `Framing.PushOutcome`, `Wire.WrittenIsRead`, `Queues.NoLossIffRoom` and
  `Manager.ConnectionManager.UpsertShm` are if-and-only-if as well.

## Model

| member | source | states |
|---|---|---|
| SenderTheorems.EndToEndDelivery | src/sender/mod.rs:315-451 | In every run and for every connection that ever existed, what its consumer enqueued of each kind is, in order and field for field, an initial stretch of the updates accepted for it before the first close sentinel; each of them was asked for by a request of that connection. |
| SenderTheorems.EventualDelivery | src/consumer/shm.rs:231-298 | From every reachable state with the ring file in place and a wakeup delivered (as it is when no notify is outstanding), finitely many steps of the reader alone deliver everything accepted before the first sentinel; it ends parked on an empty ring, or stopped if there was a sentinel. |
| SenderTheorems.NoLostWakeup | src/transport.rs:38-54 | Over all interleavings of all tasks, bytes in the ring of a reader past its last empty pop mean a positive counter or a task between its ring write and its notify on that very connection. |
| SenderTheorems.ReaderOutlivesConnection | src/shm/ring.rs:149-187 | A reader marks itself closed only after somebody closed its sink, stops only then or when nothing refers to the connection any more, and an installed connection still has its ring file. |
| SenderTheorems.InstalledIdsDistinct | src/sender/mod.rs:474-515 | In every reachable state installed connections sit at their own slot index under pairwise different ids below the counter. |
| SenderTheorems.InstalledOnce | src/sender/mod.rs:474-515 | No connection id is installed twice in a whole run. |
| SenderTheorems.TokenSafety | src/sender/mod.rs:274-287 | Whatever runs later, a token resolves to the connection it was issued for or to nothing, and to nothing for ever once that connection has left the table. |
| SenderEvictions.OrderlyEviction | src/sender/mod.rs:246-268 | A connection leaves its slot only by the compare-and-swap of a task that names this very connection, after its sink was closed, and that found it silent for more than 30 000 ms or without room for its frame; a dispatch never evicts a newer occupant. |
| SenderEvictions.EvictionHasCause | src/sender/mod.rs:260-268 | In every run, a connection that was closed or has left the table was found, by a step of some task, more than 30 000 ms behind the clock of that step or with a ring in which the queued bytes, four and the frame exceed the capacity; a task that is closing one found this itself. |
| SenderEvictions.CauseMeansEviction | src/sender/mod.rs:430-451 | Conversely, once a task that found a connection silent or full has ended, the connection is closed and out of the table. |
| SenderEvictions.EvictedIff | src/sender/mod.rs:246-268 | In every run whose tasks have ended, an installed connection has left the table if and only if some task found it silent or full. |
| SenderTheorems.RetryMeansProgress | src/sender/mod.rs:476-516 | A task whose install finds its slot taken can name another task's install into that slot made since it saw the slot empty. |
| SenderTheorems.PushedAtMostOnce | src/sender/mod.rs:315-428 | Across all interleavings one dispatch pushes at most once to any connection whatsoever. |
| SenderDispatch.DispatchPushesOnce | src/sender/mod.rs:315-428 | Across all interleavings a finished dispatch of an encodable update pushed it exactly once to every connection that stayed in its slot with a matching filter all the while and that none of its steps found stale. |
| SenderDispatch.DispatchKeepsAndPushes | src/sender/mod.rs:315-428 | Across all interleavings a connection that nobody else evicts, and that a dispatch meets seen within 30 000 ms, matching and with room, is still in its slot when the dispatch has ended, with the update pushed to it exactly once; that the dispatch itself keeps it is proved, not assumed. |
| SenderProgress.AnswersAreTrue | src/sender/mod.rs:460-516 | A subscription answered as existing carried that token, one answered as created has an installed connection of that token, one refused for want of a slot found all ten slots taken in a scan of its own, and one refused for want of a ring could not make one. |
| SenderProgress.OutcomeHasCause | src/sender/mod.rs:305-516 | In every run the step that ended a task is one at which its outcome was due: the last slot of a scan or of a dispatch, an update that cannot be encoded, a failed creation, an empty slot filled, a request stored, a connection stamped. |
| SenderProgress.TasksFinish | src/sender/mod.rs:315-517 | Whatever the other tasks do, a dispatch and a ping are done after 81 steps of their own, and a subscription after 81 and 81 more for each connection installed in the run. |
| SenderScan.ExhaustedMeansTaken | src/sender/mod.rs:289-303 | In every run a subscription refused for want of a slot had, in one scan, looked at each of the ten slots, found a connection there, and then found it seen within 30 000 ms of its clock or the slot filled again before the recheck. |
| SenderAlone.SubscribeAlone | src/sender/mod.rs:454-517 | A subscription without a live token, run by itself from any reachable state, takes a silent connection of its token out and then installs as `InstallAlone` says. |
| SenderAlone.InstallAlone | src/sender/mod.rs:471-516 | Run by itself from any reachable state, an installing subscription is refused for want of a slot if and only if all ten slots hold connections seen within 30 000 ms, and otherwise has the next id in the lowest other slot, with its own request, its clock and an empty ring, or fails for want of a ring; no connection seen in time is touched. |
| SenderAlone.RenewAlone | src/sender/mod.rs:460-469 | A subscription with a live token, run by itself from any reachable state, stamps the connection, adds exactly its request, answers with that token and changes nothing else. |
| SenderAlone.PingAlone | src/sender/mod.rs:305-313 | A ping of a live connection, run by itself from any reachable state, stamps it and changes nothing else. |
| SenderAlone.MissAlone | src/sender/mod.rs:274-287 | A lookup that meets a silent connection closes it, notifies it and takes it out, one that meets none changes nothing; a ping then ends and a subscription goes on to install. |
| SenderTheorems.TaskStepFills | src/sender/mod.rs:246-268 | A cell changes only from the named occupant to empty by an eviction, or from empty to the task's own new connection by an install. |
| SenderTheorems.NextSought | src/sender/mod.rs:274-287 | A task that looks a connection up by its token and comes away with nothing means that the connection has left the table. |
| SenderSteps.RunKeepsInv | src/sender/mod.rs:246-517 | The rely-guarantee invariant (table, entries, every task's own knowledge, ring files) holds in every reachable state. |
| SenderSteps.TaskStepGood | src/sender/mod.rs:246-517 | Every atomic step of every operation keeps the shared invariant and changes shared state only in ways the other tasks' knowledge survives. |
| SenderFilters.RequestsAddUp | src/sender/mod.rs:220-224 | A run never drops a request from a connection's filter if and only if, at every store, nothing, or just the task's own request once, was stored since its load. |
| SenderFilters.StoreKeepsIff | src/sender/mod.rs:220-224 | One store keeps the requests in place if and only if they are an initial stretch of what the task is about to store. |
| SenderFilters.SoloAddsUp | src/sender/mod.rs:220-224 | Nothing is dropped in any run in which the tasks that apply requests to the connection never overlap. |
| SenderFilters.AnsweredRequestMatches | src/sender/mod.rs:460-516 | In a run that drops nothing, a subscription answered with a connection's token, as existing or as new, has its request in that connection's filter, and every update it wanted matches. |
| SenderFilters.RequestLost | src/sender/mod.rs:220-224 | Of two tasks about to store, whatever each loaded, the request of the one that stores first is in the filter afterwards if and only if the other had loaded it or carries it too. |
| SenderOverlap.RequestLostInRun | src/sender/mod.rs:220-224 | A run of a new sender in which two subscriptions of one connection overlap and one of them is answered as existing although its request is not in the filter. |
| Link.RunKeepsInv | src/shm/ring.rs:109-222 | In every run the queue is the rest of the frame being read followed by whole frames, wakeups are not lost, and the reader stops only for cause. |
| Link.RingFifo | src/shm/ring.rs:192-222 | With several producers and a ring of at most 2^32 bytes, popped, in hand and pending frames are the accepted pushes in order; a body read after its length is never partial, and popping ends at the first sentinel. |
| Link.RingOccupancy | src/shm/ring.rs:109-137 | In every run the queue takes exactly the bytes of the events accepted and not yet read, and never more than the capacity. |
| Link.PushLoggedIff | src/shm/ring.rs:109-137 | In every run a push is accepted if and only if its length has a 32-bit prefix and four bytes and the body fit beside what is still to be read. |
| Link.NoLostWakeup | src/consumer/shm.rs:231-298 | For one ring under every interleaving of producers and reader, pending bytes after an empty pop mean a positive counter or a notify to come. |
| Link.SentinelUnambiguous | src/shm/ring.rs:109-142 | A reader marks itself closed only because some close call wrote a sentinel, in all runs, if and only if the ring cannot hold a frame of 2^32 - 1 bytes. |
| Link.AmbiguousFrame | src/shm/ring.rs:192-198 | In a larger ring a data frame of that length closes the reader although nobody called close. |
| Link.DrainProgress | src/consumer/shm.rs:231-298 | Left alone with no notify outstanding, the reader finishes in finitely many steps: every frame before the first sentinel is delivered, then it is parked on an empty ring, or stopped if there was a sentinel. |
| Link.ReadProgress | src/shm/eventfd.rs:338-354 | Each step of a reader that is not quiet lowers a measure of ring bytes, pending wakeup and phase. |
| Link.CloseStopsReader | src/shm/ring.rs:140-142 | Whatever other notifies are outstanding, closing stops the reader if and only if the sentinel fitted, one was already there, or the ring file is gone; a refused sentinel leaves it parked on a drained ring with no wakeup pending. |
| Link.RefusedClose | src/shm/ring.rs:140-142 | A run in which a frame fills a ring of 64 bytes and the close that follows leaves the reader parked on an empty ring. |
| Framing.PushOutcome | src/shm/ring.rs:109-137 | A frame goes in if and only if its body is below 2^32 bytes and body and four fit beside the queue, and then follows it behind its own length; each of the three refusals is tied to its own cause. |
| Framing.SentinelOutcome | src/shm/ring.rs:140-142 | The sentinel is four bytes of ones and goes in if and only if four bytes are free. |
| Ring.PopFront | src/shm/ring.rs:192-204 | On a queue of whole frames a pop takes exactly the front frame, or the sentinel and nothing else. |
| Ring.PopIsTwoReads | src/shm/ring.rs:192-222 | The one-call pop and the two-phase reads of the step system have the same effect on every queue. |
| Ring.NextPowerOfTwo | src/shm/ring.rs:81 | The loop finds the power of two in the range from n up to but not including 2n. |
| Ring.ShmRingProducer.Create | src/shm/ring.rs:60-98 | Succeeds exactly from 64 bytes up when directory, file and mapping can be made, with an empty queue of the least power of two that is large enough. |
| Ring.ShmRingProducer.TryPush | src/shm/ring.rs:109-137 | The joined parts go in behind their length if and only if they and four bytes fit; otherwise nothing changes, the error says whether the frame is over 2^32 - 1 bytes, larger than the ring, or only too large for the room left, and only the last counts as a drop. |
| Ring.ShmRingConsumer.ReadExactly | src/shm/ring.rs:206-222 | The byte loop returns the front of the queue if that many bytes are there; a short batch is consumed and lost. |
| Ring.ShmRingConsumer.TryPop | src/shm/ring.rs:192-204 | One pop against its specification, with the closed flag set exactly by a sentinel. |
| Ring.EventFd.Notify | src/shm/eventfd.rs:76-103 | Adds one, and at saturation changes nothing. |
| Ring.EventFd.Wait | src/shm/eventfd.rs:338-354 | The wait ends at the first look after any notify, with all that were pending and zero left, and is still waiting only if there was none at all. |
| Ring.SlotSink.TryPush | src/transport.rs:38-49 | A frame is accepted if and only if it and four bytes fit, with one notify added; a refused one leaves ring and counter as they were, and counts as dropped exactly when it would fit an empty ring. |
| Ring.SlotSink.CloseSink | src/transport.rs:51-54 | The sentinel goes in if it fits, and one notify is added either way. |
| Ring.Reader.DrainRing | src/consumer/shm.rs:236-288 | From a ring of whole frames the loop enqueues exactly the frames before the first sentinel, in order, closes exactly if there is one, and leaves what follows it. |
| Queues.BoundedQueue | src/consumer/shm.rs:199-275 | After any interleaving of enqueues and pops the queue is the newest stretch of what was enqueued, at most 2048 long, and the pops are an in-order selection without repetition. |
| Queues.NoLossIffRoom | src/consumer/shm.rs:243-275 | What was taken followed by what is queued is all that was pushed if and only if every enqueue found room. |
| Queues.OneLostPerOverflow | src/consumer/shm.rs:243-275 | Over any run, what was pushed and neither taken nor queued is exactly one item for each enqueue that found 2048 items queued. |
| Queues.NewestKept | src/consumer/shm.rs:243-275 | With no pop the queue holds the newest 2048 items, and all of them while there are no more. |
| Queues.ArrayQueue.ForcePush | src/consumer/shm.rs:250 | Appends the item; a queue of 2048 loses its oldest one and keeps the other 2047, any other keeps all; so the queue stays the newest stretch of all that was ever enqueued. |
| Queues.ArrayQueue.Pop | src/consumer/shm.rs:199-209 | Hands out the oldest item, so that all the user ever took stays an in-order selection, without repetition, of what was enqueued. |
| Consumer.ReceiveKeepsInv | src/consumer/shm.rs:242-284 | Whatever frame arrives, each queue's history stays the received updates of its kind, in order, and the queue stays their newest stretch. |
| Consumer.UserPopKeepsInv | src/consumer/shm.rs:199-209 | A user takes the oldest update of the kind asked for and of no other, and the queues keep their order. |
| Filter.FilterRefinesRequests | src/sender/mod.rs:160-216 | After any history of requests the filter, with its singleton paths and Bloom reject, passes an update if and only if some request asked for it. |
| Filter.RequestOrderIrrelevant | src/sender/mod.rs:128-216 | Order, repetition and random Bloom keys make no difference to what passes. |
| Filter.OneMorePasses | src/sender/mod.rs:174-184 | A filter given one more request passes exactly what it passed before and what that request wants. |
| Filter.FirstPasses | src/sender/mod.rs:160-172 | The first filter of a connection passes exactly what its request wants. |
| Filter.CoherentMatches | src/sender/mod.rs:186-212 | The fast paths of the account match agree with plain membership in the two sets. |
| Filter.BuildFromSets | src/sender/mod.rs:128-158 | The loops over the two hash sets, in any order, build the filter the sets determine. |
| Filter.BuildFromRequest | src/sender/mod.rs:160-172 | The insert loops build the first filter of a request. |
| Filter.BuildWithRequest | src/sender/mod.rs:174-184 | The extend loops build the filter of the union. |
| Codec.AccountRoundTrip | src/types.rs:511-601 | Encoding fails exactly above the payload limit, and decoding gives back the same update and time, compressed or not. |
| Codec.AccountLayout | src/types.rs:511-563 | Every field of an account frame at its offset, and when the payload is sent compressed: from 512 000 bytes up, if its first 8192 bytes shrink by 75 in 10 000 and the whole shrinks. |
| Codec.AccountVerdict | src/types.rs:908-969 | Any byte string is rejected by the first check it fails, or is the update whose fields stand at the fixed offsets, with the payload decompressed if flagged. |
| Codec.AccountReencode | src/types.rs:577-660 | An accepted account frame is the encoder's own output if and only if the encoder makes the same choice about compression and its compressor gives these bytes. |
| Codec.SmallCompressedFrame | src/types.rs:577-601 | Every small payload has a compressed frame that decodes to it and that the encoder would never send. |
| Codec.SmallAccountFrameExact | src/types.rs:908-969 | Below the threshold every accepted uncompressed frame is byte for byte what the encoder writes. |
| Codec.AccountHeaderExact | src/types.rs:908-969 | The header of an accepted frame is the one the encoder writes for what was decoded. |
| Codec.TransactionExact | src/types.rs:802-888 | A byte string decodes to a transaction update if and only if it is that update's encoding. |
| Codec.TransactionLayout | src/types.rs:802-832 | Encoding fails exactly above 10 MiB, and every field of a transaction frame stands at its offset. |
| Codec.TransactionVerdict | src/types.rs:984-1029 | Any byte string is rejected by the first check it fails or accepted. |
| Codec.SlotExact | src/types.rs:727-773 | A byte string decodes to a slot update if and only if it is that update's encoding. |
| Codec.SlotLayout | src/types.rs:727-737 | Every field of a slot frame at its offset. |
| Codec.SlotVerdict | src/types.rs:1039-1061 | Any byte string is rejected by the first check it fails or accepted. |
| Codec.UpdateRoundTrip | src/types.rs:387-412 | Whatever the dispatcher can encode, the tag-routed decoder gives back, in a frame too short to look like a sentinel. |
| Codec.UpdateFramesPrefixFree | src/types.rs:984-1061 | No strict prefix or extension of an accepted update frame is accepted. |
| Bytes.LowByteFirst | src/types.rs:1064-1113 | 32-bit and 64-bit numbers are written with their lowest byte first. |
| CodecMethods.TakeExact | src/types.rs:1064-1113 | Takes the next bytes and moves past them, or fails and leaves the cursor. |
| CodecMethods.ParseAccountFrame | src/types.rs:908-969 | The cursor parser agrees with the fixed offsets on every byte string, errors included. |
| CodecMethods.EncodeAccountParts | src/types.rs:511-563 | The header built by appending is the one the format prescribes. |
| CodecMethods.DecodeAccountBorrowed | src/types.rs:577-601 | The copying decoder computes the format's decoding on every byte string. |
| CodecMethods.DecodeAccountOwned | src/types.rs:607-635 | The decoder that keeps a window on the frame agrees with the copying one on every byte string. |
| CodecMethods.ParseTransactionFrame | src/types.rs:984-1029 | The cursor parser agrees with the fixed offsets on every byte string, errors included. |
| CodecMethods.DecodeTransactionFrame | src/types.rs:846-888 | Computes the decoding that `TransactionExact` proves exact, on every byte string. |
| CodecMethods.EncodeTransactionParts | src/types.rs:802-832 | The header built by appending is the one the format prescribes. |
| CodecMethods.DecodeSlotFrame | src/types.rs:751-773 | Computes the decoding that `SlotExact` proves exact, on every byte string. |
| CodecMethods.EncodeSlotParts | src/types.rs:727-737 | The header built by appending is the one the format prescribes. |
| Manager.ConnectionManager.constructor | src/sender/mod.rs:226-231 | Ten empty slots, and ids that start at one. |
| Manager.ConnectionManager.MaybeCleanupStaleSlot | src/sender/mod.rs:260-268 | Closes and notifies a connection exactly if it was last seen more than 30 000 ms ago, and empties its slot only if it is still in it; every other slot stays as it was. |
| Manager.ConnectionManager.CleanupIfSame | src/sender/mod.rs:246-258 | Evicts the occupant exactly if it still has the given id. |
| Manager.ConnectionManager.PushToEntry | src/sender/mod.rs:430-451 | If frame and four bytes fit beside what is queued, the frame is in the ring once and the reader notified; otherwise the slow consumer is evicted if it still holds its slot, and a newer occupant is never touched. |
| Manager.ConnectionManager.Dispatch | src/sender/mod.rs:315-428 | One dispatch adds the same frame exactly once to the ring of each matching connection with room for it, evicts exactly the silent ones and the matching ones without room, and touches nothing else; an update that cannot be encoded stops it at its first match with nothing pushed. |
| Manager.DispatchedCases | src/sender/mod.rs:315-428 | What a dispatch makes of one connection, in numbers: evicted exactly if silent for more than 30 000 ms, or matching and without room for four bytes and the frame; otherwise a matching one has exactly that frame more. |
| Manager.ConnectionManager.LookupByToken | src/sender/mod.rs:274-287 | Finds a connection if and only if the token names one that is not stale; a stale one is evicted. |
| Manager.ConnectionManager.TouchPing | src/sender/mod.rs:305-313 | Stamps exactly the live connection the token names, and evicts it if it is stale. |
| Manager.ConnectionManager.FindFreeSlot | src/sender/mod.rs:289-303 | Finds the lowest slot that is empty or stale, and none exactly when all ten hold connections that are not stale; only that slot changes. |
| Manager.ConnectionManager.InstallFresh | src/sender/mod.rs:471-516 | Reports exhaustion exactly when no slot is free, and else installs a connection with the drawn id and an empty ring in the lowest free slot, disturbing no fresh one. |
| Manager.ConnectionManager.UpsertShm | src/sender/mod.rs:454-517 | Renews exactly the live connection the token names, with the request added to its filter; otherwise draws an id and installs in the lowest free slot, or reports exhaustion if and only if there is none; no other connection changes. |
| Wire.WrittenIsRead | src/wire.rs:7-34 | A written message is read back, and exactly its own bytes are taken, if and only if it is within 16 MiB; else the reader names its size. |
| Wire.ReadWasWritten | src/wire.rs:7-21 | Whatever is read was written in just that way. |
| Wire.SeveralIff | src/wire.rs:7-34 | Reading as many messages as were written returns exactly these and leaves exactly the bytes after them, whatever they are, if and only if each is within the limit and the stream starts with them. |
| Wire.AllIff | src/wire.rs:7-34 | Reading to the end finds given messages and left-over bytes if and only if the stream is these messages written one after another, each within the limit, and then bytes that do not start with a whole message. |
| Wire.CutStream | src/wire.rs:12-20 | A stream cut off after any number of bytes yields exactly the messages that were finished, and then the end of the stream. |
| Wire.Stream.ReadFramed | src/wire.rs:7-21 | Takes the next message off the stream, or reports its error: an oversized length has only its prefix consumed, a cut-off stream all of it. |
| Wire.Stream.WriteFramed | src/wire.rs:23-34 | Appends one framed message, or nothing when its length has no 32-bit prefix. |
| Client.ShmConsumer.SendSubscription | src/consumer/shm.rs:135-175 | One request written and one whole message taken; the token changes only on a plain ready reply, and an error leaves it. |
| Client.ShmConsumer.SendPing | src/consumer/shm.rs:177-188 | Writes one ping for the stored token and reads nothing; fails without a token. |
| Client.ReadyReplyRead | src/consumer/shm.rs:135-175 | A ready reply on the wire, tag 3, reaches the caller as its token, and the handshake kind of reply, tag 5, is refused. |
| Handler.Serve | src/sender/shm.rs:96-146 | After a subscription the connection its reply names passes exactly what it passed before and what the request wants, and every other installed one has the filter it had; it is answered as existing if and only if its token is live, and else gets the next id in the lowest slot without a connection seen within 30 000 ms, or is refused exactly when there is none or no ring can be made. A ping stamps exactly the live connection it names. Only silent connections go. |
| Handler.HandleConnection | src/sender/shm.rs:81-154 | The frames served are an initial stretch of what the consumer wrote, all of it on success; each subscription among them has one reply on the wire, in order, no ping has any, and a failure is that of the next message. Each installed connection then passes exactly what it passed at the start and what the subscriptions answered with its token asked for. |
| Subscribers.UpsertSubscribes | src/sender/mod.rs:454-517 | What renewing or installing makes of the table, as `Handler.Serve` states it: the answered connection passes its old updates and the newly wanted ones, the others keep their filters, only silent ones go. |
| Control.ControlLockstep | src/sender/shm.rs:88-153 | Beside all other steps of the sender, subscriptions in flight, being handled and answered but unread are one while the consumer awaits a reply of an open socket, and else none, for every mix of subscriptions and pings. |
| Control.TokenNeverChanges | src/consumer/shm.rs:135-188 | The token a consumer holds is never changed after the handshake, and always has a slot of the table. |
| Control.HandshakeOutcome | src/consumer/shm.rs:71-92 | A handshake is answered only with an installed connection whose id the handshake's own task drew, which is the token the consumer keeps; it fails only if the sender gave up on the socket. |
| Control.RefusedMeansGone | src/sender/mod.rs:460-516 | A consumer's subscription is refused, or answered with another connection, only when its own has left the table, and its token then resolves to nothing for ever. |
| ControlRequests.SubscribesToWhatWasAsked | src/consumer/shm.rs:135-175 | In every run, while a consumer waits for the reply to a subscribe, the subscription on its socket, in its handler or behind the unread reply carries its token and exactly the accounts, owners and flag of that subscribe, and the reply is the outcome of a task that served this very request. |
| ControlAlone.SubscribeCall | src/consumer/shm.rs:135-175 | From any reachable state with an idle socket and a live connection, a subscribe that runs to its reply keeps the token and leaves the connection stamped and with exactly that request added; nothing else of the sender changes. |
| ControlAlone.PingCall | src/consumer/shm.rs:177-188 | A ping from there stamps the connection, is not answered and changes nothing else. |
| ControlAlone.HandshakeCall | src/consumer/shm.rs:71-92 | A handshake from any reachable state ends with the next id in the lowest slot that holds no connection seen within 30 000 ms if there is one and a ring can be made, and otherwise fails. |
| Control.RunKeeps | src/sender/shm.rs:81-154 | The invariant of the socket and the sender together holds in every run. |

## Left out

- Internals of the byte queue, LZ4, the Bloom filter's sizing, the swap cells, the bounded queue and the control messages' encodings: foreign libraries, present through their contracts.
- Passing the event descriptor over the socket, its receive buffer, SIGPIPE protection, memory mapping and file creation: foreign calls; of the ring file only its existence until the last producer handle drops is kept.
- The self-pipe event backend of macOS: the counter with saturation stands for both.
- Task spawning, listener binding, broadcast lag, the setup functions and forwarding of subscriptions to the upstream Bloom channel: plumbing around the modelled operations.
- Metrics and tracing: counters beside the logic.
- Weak memory order: each atomic access is one step of a sequentially consistent run.
- Wrap-around of the 64-bit connection id and of machine-word sums: ids and lengths are unbounded.
- Notify failures other than saturation, and a failing wait on the counter: not part of the step systems.
- Cancelling a subscribe between its write and its read, and other writers on the same socket: the socket model has one consumer that finishes its calls.
- Handler.Serve: asks that the filters in the table be ones the program built; so they are in the empty table, and after every call.
- SenderAlone.SubscribeAlone: clock readings and I/O outcomes are given for each point of the program, each of which the lone task passes once.
- ControlAlone.SubscribeCall: starts on a socket with nothing under way; pings still unread would be served before it.
- Sender.Next: a capacity is that of the created ring; asking for less than 64 bytes shows as a failed creation.
- Control.ControlLockstep: once the handler has ended the count is zero, since the request it gave up on gets no reply.
- Link.CloseStopsReader: like `Link.DrainProgress`, speaks of rings that hold no frame of 2^32 - 1 bytes; `Link.SentinelUnambiguous` says exactly which rings can hold one.
- A reader that meets a vanished ring file may leave accepted frames behind: `SenderTheorems.EndToEndDelivery` speaks of an initial stretch, and `SenderTheorems.EventualDelivery` of rings whose file is in place.
