# HAB: a verified model

HAB is a hypervisor channel driver: two virtual machines open virtual channels over a physical
channel, exchange messages, and share memory by export and import. This project models its
protocols and its data structures in Dafny and proves what they promise.

Two forms are used. Where threads, message receive, teardown and workers race, the code is a
transition system: one step for each critical section and for each access outside a lock, for any
number of threads, contexts, channels and ids. A state machine module has a predicate `Enabled`
(when a step may happen), a function `Do` (what it does, branch by branch) and a predicate `IsRun`;
its main lemmas speak of every state of every run. The modules whose names end in `Alone` say the
converse kind of thing: that each operation, followed from its first step to its last in any state that
lets it start and with nothing interfering, is possible and ends in exactly the state it should
(`Does(s, acts, s')`: the steps `acts` lead from `s` to `s'`). Where the source works on a buffer or a list by
itself, there are classes and methods with loops, each proved against a specification function about
which further lemmas are proved.

| file | what it models |
|---|---|
| `Common.dfy` | option and byte types, little-endian words |
| `ImportSide.dfy` | one importing context: warehouse, ack queue, import, unimport, message receive, teardown |
| `ExportAck.dfy` | the export ack that protocol 0 makes after the descriptor is in the warehouse |
| `ExportSide.dfy` | descriptors, id table, export, unexport, IMPORT and UNIMPORT handling, context teardown, reclaim worker; what every step keeps |
| `ExportRuns.dfy` | runs of it: single free, what an importer may rely on, reclaim |
| `ExportHypotheses.dfy` | what the exporter relies on, and that it is exactly what safety needs |
| `MemShare.dfy` | both machines and the two FIFO channels between them, protocol 1 |
| `FlagReturns.dfy` | the way back: UNIMPORT is sent for what is let go of, and the exporter's mark comes off |
| `ImportAlone.dfy`, `ExportAlone.dfy`, `ShareAlone.dfy` | each operation of memory sharing from its first step to its last, on one side and across both |
| `Session.dfy`, `Handshake.dfy`, `Delivery.dfy` | opening over the shared open queues, routing by (id, session), closing |
| `Service.dfy` | which service an open reaches; the ids ends get |
| `SessionAlone.dfy` | opening, a message, closing and failed opens, from the first step to the last |
| `OpenQueue.dfy` | the open-request list and the pending list, listener outcomes |
| `RxQueue.dfy` | the receive queue of one virtual channel |
| `RefCount.dfy`, `RefAlone.dfy` | references between contexts, virtual channels and calls; the life of one channel |
| `PipeCells.dfy`, `Pipe.dfy`, `PipeRace.dfy`, `PipeCalls.dfy` | the shared-memory ring: exact sequential contracts, both parties interleaved byte by byte, and what each call amounts to |
| `PfnTable.dfy`, `ExportDesc.dfy` | page-run compression and expansion, and the descriptor that carries a table |
| `ExpTree.dfy` | the warehouse as a search tree over (export id, channel) |
| `VhostQueue.dfy` | the vhost send list, its worker and the sequence counter |
| `ScatterMessage.dfy` | page-scattered messages: allocation, reads, copy-out, free |
| `Header.dfy` | header and virtual-channel-id packing |

## Hypotheses

They are predicates of the model, named where they are used.

- Memory sharing is protocol 1 on the channel (`MemShare.Start`); the protocol number of a channel is
  constant. `ImportSide` covers both protocols. In protocol 0 an import must not take a descriptor
  before its export ack is made: `ExportAck.NoneEarly`. Without that the ack is made from a freed node,
  and `ExportAck.EarlyExactly` says exactly which search can lead there.
- `payload_size` is read when an ack is sent and no file of the repository assigns it, so the outcome
  of the receive-side checks of an ack is left open (`ImportSide.Receive` takes any outcome).
- `MemShare.Allowed`: no IMPORT of an id is sent while an earlier IMPORT of it, an answer to one, or
  its descriptor in a warehouse is still about. `remote_imported` is a flag, not a count:
  `MemShare.SafetyLostExactly` says exactly which steps end safety once ids are shared, and
  `MemShare.TwoImporters` is a run with two importing contexts in which it ends.
- `FlagReturns.Lossless`, used for the converse alone: no answer and no UNIMPORT is lost, no descriptor is
  dropped for want of memory and no unmapping fails in teardown. In each of these cases the code leaves
  `remote_imported` set for good.
- `ExportSide.SameVchan`: an IMPORT arrives over the virtual channel the memory was exported on.
  `ExportSide.OwnUnexport`: an unexport does not find what an earlier context at the same address left
  behind; it follows from `ExportHypotheses.FreshContext`, that no context is allocated at an address
  still pointed to (`ExportHypotheses.FreshRuns`). `ExportHypotheses.NeededExactly` shows that
  `SameVchan` and `FreshContext` cannot be weakened: a step can be continued to a fault exactly if it
  breaks one of the two.
- `RefCount.Early`: nothing closes a virtual channel between its insertion into the context's list and
  the return of the open that inserted it. `RefCount.ReadExactly` says exactly when such a close can
  free it under the open.
- `ExportRuns.OrphanPath`: the UNIMPORT of a descriptor on the reclaim list finds no virtual channel.
  `ExportRuns.StrandedExactly` says exactly when one UNIMPORT leaves an orphan that nobody will
  collect, and `ExportRuns.StrandedRun` is a run in which this happens.
- `ExportSide.SomeOpen`: a virtual channel is live only in a context that is open; contexts may be freed
  and allocated again at any time.
- `Session.Allowed`: open ids are distinct on a channel and not 0; runs are free of cancellation and
  versions match. Otherwise a waiting backend takes INIT_CANCEL for INIT_DONE: `OpenQueue.CancelOpens`.
- Kernel primitives keep their contracts: a lock section is one step, identifiers handed out by the
  id tables are not in use, rebalancing keeps a tree's order, a file is not released while a call on
  it runs. Channels are FIFO. Waits may end in any way, allocations may fail at any time.

History variables (`owner`, `sent`, `claim`, `serial`, `endOf`, `places`, `logs`, `opener`,
`published`) record who may still act on an object, where the one message of a kind is, or what has
been sent; no step's outcome depends on them. A `fault` flag is set by any access to freed memory, any
removal from a list or tree the object is not in, and any removal of another object's id. Two accesses
that the code makes with nothing to protect them set a flag of their own, `stale`: the export ack of
protocol 0 and the id that open returns.

## Findings

- In protocol 0 the receiver puts a descriptor into the warehouse and then makes the export ack from it
  (hab_msg.c:533-541). An import, its unimport and the free may come between (`ExportAck.StaleRun`,
  `ExportAck.EarlyExactly`).
- A descriptor on the reclaim list keeps the address of its freed context. If a later context is
  allocated there, its unexport passes the check at hab_mimex.c:394-397, unlinks the descriptor under
  the wrong lock and frees it while the reclaim worker frees it too (`ExportHypotheses.ReuseRun`,
  `ExportHypotheses.UnexportExactly`, `ExportHypotheses.DoubleRelease`).
- An IMPORT over another context's virtual channel redirects that pointer in the same way
  (`ExportHypotheses.ForeignFails`).
- `hab_vchan_open` reads the id of the new virtual channel after it has given its reference to the
  context's list (hab.c:896-901); a close of that id may free it first (`RefCount.EarlyCloseRun`,
  `RefCount.ReadExactly`).
- `signature_mismatch` is one variable for all pipes (hab_pipe.c:149): a header read that finds no
  signature on one pipe makes the next payload read on another one lose its place (`Pipe.Interference`).
- When the platform data cannot be allocated, `habmem_add_export_compress` dereferences an export pointer
  that is still NULL (os/linux/hab_mem_linux.c:505). The model's `Abort` is the path in which it is set.
- `hab_open_request_add` leaks its node when the request cannot be read in full (hab_open.c:45-52,
  `OpenQueue.Device.Add`).
- When page reads come up short, the bytes after the first short page are copied out displaced
  (`ScatterMessage.CopiesExactly`).
- The gap between two page runs need not fit an `int`, and its fitting is not enough: what has to fit
  is the distance between the starts of neighbouring runs (`PfnTable.PageArrayRoundTrip`,
  `PfnTable.LargestGapIsLost`).
- In the scatterlist branch a start inside an entry displaces every later run, whatever the gaps
  (`PfnTable.ScatterRoundTrip`).
- A stale signature mismatch also makes reads that are not header reads advance by one byte
  (`Pipe.Ring.Read`).
- A message that does not fit one rx buffer is numbered once per buffer, and after an underrun it is
  sent again from the start (`VhostQueue.SplitThenUnderrun`).
- A message whose page reads come up short by a page leaks pages (`ScatterMessage.FreesAllExactly`).
- Expiry of open requests does not lower their counter (`OpenQueue.CounterStaysExact`), and
  `hab_open_receive_cancel` does not compare the channel.
- In protocol 1 `habmem_export_vchan` returns a variable it never assigns (hab_mimex.c:228-290); the
  result is not modelled.

## Model

| member | source | states |
|---|---|---|
| ImportSide.ExclusiveOwnership | hab_mimex.c:490-627 | in every run no node is erased twice and no freed node touched, the export ack of protocol 0 excepted; two threads never hold one node, a held node is live; IMPORTING and UNIMPORTING nodes have their holder, and IMPORTING means being mapped; the counter is the tree's size |
| ImportSide.FreedOnce | hab_mimex.c:556-560 | a node freed by any path, rollback and teardown included, is never live again |
| ImportSide.LookupSucceeds | hab_mimex.c:483-519 | protocol 1: after a positive ack the node is in the tree, in INIT, and the one the ack was for; both failure branches are unreachable |
| ImportSide.AcksAreSingleUse | hab_msg.c:521-540 | the positive ack of a node is queued at most once and consumed at most once |
| ImportSide.InsertionIsAcked | hab_msg.c:535-540 | protocol 1: for every node inserted the positive ack is queued, or its receiver is still about to; with the row above, exactly one per insertion |
| ImportSide.ConsumedWasQueued | hab_mimex.c:17-32 | a positive ack that is consumed was queued by the receiver that inserted its node |
| ImportSide.DoInv | hab_msg.c:521-546 | every step keeps the importer's invariant, the protocol-0 ack after the insertion included |
| ImportSide.UnimportSource | hab_mimex.c:547-553 | UNIMPORT is sent only for a node that was unsent until then, or for a refused descriptor |
| ImportSide.UnimportsExactly | hab.c:190-200 | and it is sent: a node is let go of only by a step that sends UNIMPORT of its key, or by teardown after a failed unmapping; a refused descriptor only by a step that sends it |
| ImportAlone.ImportAlone | hab_mimex.c:456-534 | protocol 1: an import whose descriptor is received, acked and mapped leaves one imported node of it in the warehouse, the ack queue as it was, and no UNIMPORT sent |
| ImportAlone.MappingFails | hab_mimex.c:523-561 | if the mapping fails the warehouse is as before and exactly one UNIMPORT is sent |
| ImportAlone.RefusedAlone | hab_msg.c:521-546 | an import that is refused, or whose key is taken, fails and leaves nothing behind |
| ImportAlone.InvalidAlone | hab_msg.c:521-553 | so does one whose descriptor fails a check, and exactly one UNIMPORT is sent |
| ImportAlone.InterruptedAlone | hab_mimex.c:473-481 | so does one that is interrupted while it waits |
| ImportAlone.WaitExactly | hab_mimex.c:17-32 | a waiting import takes the oldest ack of its key and its virtual channel, and no other |
| ImportAlone.OldImportAlone | hab_mimex.c:490-534 | protocol 0: the descriptor comes first; if the mapping fails its node stays, in INIT, and nobody is told |
| ImportAlone.UnimportAlone | hab_mimex.c:568-631 | unimport takes the node out and frees it, and in protocol 1 sends exactly one UNIMPORT of its key |
| ImportAlone.UnimportFails | hab_mimex.c:590-616 | an unimport of what is not imported, or whose unmapping fails, changes nothing |
| ImportAlone.TeardownAlone | hab.c:179-208 | closing an idle context, in whatever order its nodes are taken: all are freed, and in protocol 1 exactly one UNIMPORT is sent for each |
| ExportAck.AckIsSafe | hab_msg.c:533-541 | protocol 0: if no import takes a descriptor before its export ack is made, no ack is made from a freed node |
| ExportAck.EarlyExactly | hab_mimex.c:490-512 | protocol 0: a search can be continued to an ack from a freed node, without another early import, if and only if it takes a node whose ack is still due |
| ExportAck.StaleRun | hab_msg.c:356-375 | a run in which an export ack is made from a freed node |
| ExportSide.DoInv | hab_mimex.c:385-419 | every allowed step keeps the exporter's invariant, a context allocated at a freed one's address included |
| ExportRuns.SingleFree | hab.c:150-177 | in every run under `Allowed`, contexts being freed and reallocated: no freed descriptor is touched, nothing is unlinked under another context's lock, each id removed is the descriptor's own, the table leads to live descriptors only, each is freed at most once |
| ExportRuns.HeldKept | hab_mimex.c:394-405 | a descriptor that is in the table with `remote_imported` set stays so through every step but an UNIMPORT of its id |
| ExportRuns.ReclaimCompleteness | hab_linux.c:325-351 | if orphans' UNIMPORT takes the no-vchan path, each orphan always has a reclaim run pending, in progress or about to be scheduled |
| ExportRuns.PassReleases | hab_linux.c:334-350 | a run of the worker frees every orphan on the list when it starts and removes its id, whatever else happens under `Allowed` |
| ExportRuns.StrandedExactly | hab_msg.c:593-609 | exactly when an UNIMPORT leaves an orphan uncovered |
| ExportRuns.StrandedRun | hab_msg.c:606-609 | a run, with another context open, in which an orphan is left behind |
| ExportAlone.ExportAlone | hab_mimex.c:303-364 | an export ends with a new descriptor, complete and not imported, in the warehouse and in the table under its id |
| ExportAlone.ExportFails | hab_mimex.c:303-364 | one whose table cannot be built leaves nothing; one that fails later leaves a descriptor in the table and in no warehouse |
| ExportAlone.UnexportAlone | hab_mimex.c:385-424 | unexport frees the descriptor and its id; if revoking fails the descriptor stays, in no list and not in the table |
| ExportAlone.UnexportRefused | hab_mimex.c:394-405 | unexport changes nothing exactly if the id is unknown, another context's, incomplete or still imported |
| ExportAlone.CloseAlone | hab.c:150-177 | a context that closes frees what nobody imports, id included; what is imported goes to the reclaim list, still in the table |
| ExportAlone.UnimportAlone | hab_msg.c:575-610 | UNIMPORT takes the mark off, and without a virtual channel schedules the worker |
| ExportAlone.ReclaimAlone | hab_linux.c:325-351 | a run of the worker frees the orphan and its id if its mark is off, and else leaves it alone |
| ExportHypotheses.FreshRuns | hab.c:71-119 | if contexts are allocated only at addresses nothing points to, no unexport finds what another context left behind: such runs are runs under `Allowed` |
| ExportHypotheses.NeededExactly | hab_mimex.c:394-411 | from every state reached so, a step can be continued to a fault if and only if it is an IMPORT over a foreign channel or a context at an address still pointed to |
| ExportHypotheses.UnexportExactly | hab_mimex.c:394-411 | an unexport that passes the checks faults if and only if its descriptor is on the reclaim list or with the worker |
| ExportHypotheses.DoubleRelease | hab_linux.c:342-350 | such an unexport frees a descriptor the worker has in hand and goes on to release |
| ExportHypotheses.ReuseRun | hab.c:153-161 | a run whose freed context leaves a pointer behind, after which a new context at its address leads to the fault |
| MemShare.CrossVmSafety | hab_msg.c:802-832 | while a descriptor is in the importer's warehouse and UNIMPORT not sent, the exporter's table leads from its id to that descriptor, live and marked imported, across id reuse |
| MemShare.ExporterKeepsOff | hab.c:150-177 | no step of unexport, context free or reclaim takes such a descriptor away |
| FlagReturns.LetGoIsTold | hab_mimex.c:547-553 | a node leaves a warehouse only by a step of its own context, which puts exactly one UNIMPORT of its export id into the channel, unless its unmapping failed or the channel refused it |
| FlagReturns.NoSilentRelease | hab.c:190-200 | over a run: between a state in which a node is in a warehouse, unsent, and one in which it is not there is exactly such a step |
| FlagReturns.FlagReturned | hab_msg.c:575-604 | in a run without losses every descriptor marked as imported has an answer on its way, a node in a warehouse, a refusal, or the UNIMPORT that will clear the mark on its way |
| ShareAlone.ImportAcross | hab_msg.c:802-832 | an import marks the exporter's descriptor of that id and size, and it is that one that ends up imported; nothing is left on the way |
| ShareAlone.UnimportAcross | hab_mimex.c:568-631 | an unimport takes it out of the warehouse and the mark off |
| ShareAlone.RefusedAcross | hab_msg.c:826-832 | an import of what is not exported, in another size or incomplete, fails and changes neither machine |
| MemShare.Quiet | hab_mimex.c:456-472 | an id that is not outstanding is claimed by nobody: the hypothesis on new imports suffices |
| MemShare.DoInv | hab_msg.c:575-604 | every step of either side, and every message, keeps the joint invariant |
| MemShare.SafetyLostExactly | hab_msg.c:575-604 | whatever is imported how often: a step of either side or a message ends safety if and only if it is an UNIMPORT of an id a warehouse still has, or brings in a descriptor the exporter does not hold any more |
| MemShare.TwoImporters | hab_msg.c:819-822 | two importing contexts of one id reach an unsafe state |
| Handshake.HandshakeAgreement | hab.c:437-451 | a frontend and a backend opened for one channel and open id hold each other's ids |
| Handshake.OneToOne | hab.c:525-563 | at most one end per side and key; an open end has a paired peer of its key; no other live end has its id |
| Handshake.NeverUnpaired | hab_vchan.c:120-139 | no message reaches an end whose `otherend_id` is still zero |
| Handshake.DoInv | hab_open.c:98-112 | every step keeps the handshake invariant |
| Service.ReachesItsService | hab.c:352-380 | a listener that takes an open was waiting for the minor id that the open of that channel and open id asked for |
| Service.OneService | hab_open.c:98-108 | both ends of a channel have the minor id that was asked for |
| Service.IdsFitHeader | hab_vchan.c:36-49 | every id in use is 1 to 0xFFF |
| SessionAlone.OpenAlone | hab.c:437-563 | an open that meets a listen ends with both ends open, each with its own id and the other's, found under their ids, for the key and the minor id asked for; queues and channel are as they were |
| SessionAlone.OpenAbandoned | hab.c:455-470 | a frontend that gives up before it sends leaves the id table as it was |
| SessionAlone.ListenAbandoned | hab.c:612-630 | so does a backend that fails before or after it has an id |
| SessionAlone.MessageAlone | hab.c:650-700 | a message to an idle peer is received as it was sent, and the channel and the queue are empty again |
| SessionAlone.CloseAlone | hab.c:905-970 | a close reaches the other end; both ends are freed and both ids free again |
| SessionAlone.OpenEndExactly | hab_vchan.c:120-178 | when an open end may send, receive, be closed, send CLOSE and be freed |
| Delivery.RecvMoves | hab_msg.c:182-206 | a receive with room moves the oldest message to the end of what was received; any other changes nothing |
| Delivery.InOrderDelivery | hab_vchan.c:116-160 | received messages are an in-order duplicate-free subsequence of the peer's in the same session, a prefix if no allocation failed |
| Delivery.DrainsBeforeNoDevice | hab_msg.c:182-214 | when receive reports a gone peer, everything sent before CLOSE has been received |
| Delivery.DoInv | hab_msg.c:701-709 | every step keeps: sent is seen plus in flight, accepted is a subsequence of seen |
| Session.Dequeue | hab_msg.c:182-223 | each return code exactly; a too-small buffer changes nothing and reports the size; an empty queue reports 0 |
| RxQueue.Vchan.Take | hab_msg.c:176-228 | the method computes `Dequeue` on its list |
| RxQueue.Vchan.Queue | hab_msg.c:230-242 | a message goes to the end of the list |
| RxQueue.RetryAfterOverflow | hab_msg.c:194-206 | retrying with the reported size, and with no smaller one, gets the same message |
| OpenQueue.Device.Add | hab_open.c:36-73 | a request goes to the end with its expiry time; without memory, or when it cannot be read in full, nothing is queued, and in the second case the node is leaked |
| OpenQueue.Device.Find | hab_open.c:76-129 | takes the first accepted request, drops those before it whose time has gone by, keeps the rest in order; the counter |
| OpenQueue.ServedExactly | hab_open.c:98-112 | a listener is served exactly if a request of its type, or a cancel, is there for its sub id, open id and channel |
| OpenQueue.ExpiresExactly | hab_open.c:113-118 | a request queued at t that a scan does not accept is gone after it exactly if the scan passed it later than t + 36000 |
| OpenQueue.LivesTenHours | hab_open.c:62 | whatever arrives, is scanned for or cancelled within ten hours, a request nobody accepts or cancels stays queued |
| OpenQueue.Device.ReceiveCancel | hab_open.c:197-265 | takes back the first unserviced request with the same ids, or queues the cancel; after a short read, or without memory, nothing changes |
| OpenQueue.CancelledExactly | hab_open.c:218-235 | a cancel finds a request exactly if one with its three ids is not serviced yet, whatever its channel |
| OpenQueue.Device.PendingEnter | hab_open.c:278-288 | a pending open goes to the end of the list |
| OpenQueue.Device.PendingExit | hab_open.c:290-316 | removes every equal pending open and says whether there was one |
| OpenQueue.PendingRoundTrip | hab_open.c:278-316 | entering and leaving gives the old list |
| OpenQueue.CounterStaysExact | hab_open.c:113-118 | the counter keeps matching exactly if `now` is not past the time of any request passed over |
| OpenQueue.ListenExactly | hab_open.c:155-190 | which code a listener gets, with and without a timeout |
| OpenQueue.BackendExactly | hab.c:548-590 | when a backend waiting for INIT_DONE retries, is cancelled, or is open |
| OpenQueue.CancelOpens | hab.c:554-585 | a cancel is taken for a completed open exactly if the channel is not forbidden |
| OpenQueue.OpensOnDone | hab.c:548-590 | without cancels a backend opens exactly on a matching INIT_DONE |
| RefCount.ReferenceSafety | hab_vchan.c:63-104 | no reference to anything freed is used or dropped; listed or held virtual channels are not freed; a context's count is its file plus its channels; it is freed once, with none left |
| RefCount.DoInv | hab.c:294-318 | every step keeps the reference invariant |
| RefCount.ReadSafety | hab.c:896-903 | if nothing closes a virtual channel before the open that listed it returns, open reads the id of a live one |
| RefCount.ReadExactly | hab.c:896-903 | a virtual channel whose id is yet to be read can be gone before it is, if and only if no reference on it was leaked |
| RefCount.EarlyCloseRun | hab.c:896-903 | a run after which a close frees the virtual channel before its id is read |
| RefAlone.LifeAlone | hab_vchan.c:63-104 | a channel that is opened, used, found, closed and put, and its file closed: nothing of it is left, and its context is freed once |
| Pipe.Ring.Write | hab_pipe.c:69-125 | stores all bytes after those stored, or none, exactly when space allows, across both wraps |
| Pipe.Ring.Commit | hab_pipe.c:128-134 | publishes exactly what has been stored |
| Pipe.Ring.Read | hab_pipe.c:138-245 | bytes, return code, position and shared mismatch flag of every read; a header read fails exactly if the word at offset 12 is not 0xBEE1BEE1 |
| Pipe.HeaderFound | hab_pipe.c:185-192 | any header built from five words is returned whole if its signature word is 0xBEE1BEE1, and loses one byte otherwise |
| Pipe.Interference | hab_pipe.c:149-241 | after a header read on one pipe has found no signature, a payload read on another one consumes a single byte |
| Pipe.Resync | hab_pipe.c:185-242 | each header read skips a byte until the first offset whose word 12 bytes on is 0xBEE1BEE1, and the next returns the header there |
| PipeRace.RingRefinesStream | hab_pipe.c:94-134 | under any interleaving the output is a prefix of the committed bytes and the parties are on different cells, across counter wrap |
| PipeCalls.WriteCall | hab_pipe.c:69-125 | a write that fits cannot get stuck, whatever the reader is doing; its bytes are the next of the stream, unpublished |
| PipeCalls.WriteExactly | hab_pipe.c:76-92 | and it can begin exactly if it has bytes and they fit |
| PipeCalls.CommitCall | hab_pipe.c:128-134 | a commit publishes the whole stream, whatever the reader is doing |
| PipeCalls.ReadCall | hab_pipe.c:150-183 | a read takes as many of the published bytes as it asks for and are there, whatever the writer is doing |
| PipeCalls.ReadExactly | hab_pipe.c:150-183 | and it can begin exactly if some are there |
| PfnTable.Expand | os/linux/hab_mem_linux.c:98-122 | the loop succeeds exactly on positive sizes summing to the page count, and then yields the regions' pages |
| PfnTable.CompressPages | os/linux/hab_mem_linux.c:407-428 | builds the table of the maximal runs |
| PfnTable.PageArrayRoundTrip | os/linux/hab_mem_linux.c:407-428 | accepted with the right count; gives the same pages back if and only if neighbouring runs are in reach |
| PfnTable.LargestGapIsLost | os/linux/hab_mem_linux.c:417-420 | a gap that fits an `int` and does not come back |
| PfnTable.CompressScatter | os/linux/hab_mem_linux.c:368-406 | builds the table of the exported part of the scatterlist, gaps as the code computes them |
| PfnTable.ScatterRoundTrip | os/linux/hab_mem_linux.c:368-406 | gives back exactly the flattened pages if and only if the start is on an entry boundary or in the only region, and runs are in reach |
| PfnTable.ExportedFlat | os/linux/hab_mem_linux.c:371-404 | the exported part flattens to pages [offset, offset + count) |
| ExportDesc.SentIsAccepted | hab_msg.c:441-519 | a table from a page array passes every receive check exactly if it may be sent, and then the expansion |
| ExportDesc.AcceptedIsInBounds | hab_msg.c:489-519 | an accepted table lies inside the bytes received and has no more regions than pages |
| ExportDesc.Import | hab_msg.c:441-519 | whatever arrives, which check it fails, in numbers, and pages handed out exactly if they pass, the first frame is memory, both allocations succeed and the regions fill the count exactly |
| ExportDesc.Share | hab_mimex.c:231-259 | compress, send, receive, expand: sent exactly within the size limit, then accepted, and equal exactly if in reach |
| ExpTree.Find | hab_linux.c:358-380 | the search is a lookup in the finite map of the tree |
| ExpTree.LinkInserts | hab_linux.c:382-408 | insertion rejects exactly present keys and otherwise adds one entry, keeping order |
| ExpTree.EraseRemoves | hab_mimex.c:621-624 | taking a node out, its successor in its place, removes just its key and keeps the order |
| ExpTree.EraseUndoesLink | hab_linux.c:382-408 | erasing what was inserted gives the old map |
| ExpTree.Warehouse.Enqueue | hab_msg.c:244-262 | map and counter after an insertion, rebalanced in any way |
| ExpTree.Warehouse.Remove | hab_mimex.c:621-624 | map and counter after a removal, rebalanced in any way |
| ExpTree.MapSize | hab_mimex.c:555-558 | the counter, being the size of the map, is the number of nodes |
| VhostQueue.Queue.Send | hypervisor/virtio/hab_vhost.c:1000-1045 | refused, or at the end of the list |
| VhostQueue.Queue.SendOne | hypervisor/virtio/hab_vhost.c:857-934 | the method computes `SendFrom`: every buffer, each refusal of a buffer, fault, underrun and the weight limit |
| VhostQueue.Queue.RxWorker | hypervisor/virtio/hab_vhost.c:937-995 | the method computes `Drain` |
| VhostQueue.CodesExactly | hypervisor/virtio/hab_vhost.c:868-920 | what each fault of the first buffer leads to: code, buffers given back, numbers used up |
| VhostQueue.SplitInOrder | hypervisor/virtio/hab_vhost.c:890-934 | however a message is split, what has gone out are its own header words and payload, in order, and all of them once it is done |
| VhostQueue.DrainRoomy | hypervisor/virtio/hab_vhost.c:964-984 | with roomy buffers a run delivers as many messages as there are buffers, byte by byte, in order, numbered on from the last one |
| VhostQueue.ExactlyOnce | hypervisor/virtio/hab_vhost.c:964-984 | over any sends and runs, delivered buffer i has the header words and the payload of accepted message i, the signature 0xBEE1BEE1 and the number (i + 1) mod 2^32; the rest is listed |
| VhostQueue.WholeExactly | hypervisor/virtio/hab_vhost.c:868-934 | a message goes out whole, byte by byte, and is done exactly if its first buffer is usable, has room, no fault and no excess weight |
| VhostQueue.UnderrunChangesNothing | hypervisor/virtio/hab_vhost.c:876-883 | without a buffer neither list nor counter changes |
| VhostQueue.SplitThenUnderrun | hypervisor/virtio/hab_vhost.c:857-883 | a split message is partly delivered, numbered and kept |
| ScatterMessage.Heap.AllocPages | hab_msg.c:50-65 | all pages, or after any failure none |
| ScatterMessage.Heap.ScatterAlloc | hab_msg.c:22-84 | success exactly above one page and with every allocation; contents of each page; failure leaves nothing allocated |
| ScatterMessage.Heap.MsgFree | hab_msg.c:114-132 | frees the pages that the bytes read fill |
| ScatterMessage.Heap.CopyOut | hab_linux.c:79-123 | copies page by page, then the rest |
| ScatterMessage.CopiesAlike | hab_linux.c:79-123 | if nothing is read after a short read, the scattered form copies out to the bytes of the whole form |
| ScatterMessage.CopiesExactly | hab_linux.c:79-123 | for nonzero bytes, what is copied out is what was read if and only if nothing is read after a short read |
| ScatterMessage.MsgAlloc | hab_msg.c:86-112 | which form is allocated, and what it copies out to for any reads; failure leaves nothing allocated |
| ScatterMessage.FreesAllExactly | hab_msg.c:114-132 | freeing returns all pages if and only if the bytes read fill as many pages as announced |
| Header.PackedRoundTrip | hab.h:124-130 | twenty bytes and five little-endian words are the same thing |
| Header.HeaderRoundTrip | hab.h:168-194 | type and id come back, in either order of setting, exactly if they fit |
| Header.HeaderLayout | hab.h:133-180 | which bits of the word the id and the two halves of the type are, and that the others stay |
| Header.VcidRoundTrip | hab_vchan.c:45-49 | id, domain and device come back from a virtual channel id, each exactly if it fits its bits |

## Left out

- Loopback channels, where both ends are on one id table.
- Cancelled opens beyond `OpenQueue`, version mismatch, `hab_stop` beyond the forbidden flag, forking.
- Closing of a whole physical channel (`hab_vchans_stop`), and the exporter's side of protocol 0.
- Timing outside `OpenQueue`: there request expiry, ack ageing and timeouts are steps that may happen at any time.
- Mapping and unmapping of shared pages, grants, dma-buf and mmap handling: outcomes are parameters.
- Module, ioctl and device-node plumbing, sysfs, tracing, statistics, configuration parsing.
- `hab_virtio.c` and the vhost open, ioctl and probe code.
- Profile and scheduling-test payloads, and hardware memory ordering beyond commit after store.
- Exact channel reference counts: a send that fails a size check does not drop its reference (`RefCount.Leak`), so the count is a lower bound.
- In-place linking of tree nodes: `ExpTree.Link` rebuilds the path on values, and rebalancing is a parameter that keeps the order.
- Protocol races on values: `ImportSide`, `ExportSide`, `MemShare`, `Session` and `RefCount` are state machines over steps, not classes; their state is a value, and aliasing appears as handles.
