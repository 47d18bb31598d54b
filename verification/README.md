# quote-ledger verification

A Dafny model of the quote ledger and proofs about it. The ledger turns commands on a quote into events,
keeps them in two SQLite tables with per-quote sequence numbers and idempotency keys, and streams each
quote's log to any number of subscribers while any number of writers append.

The model has three layers, each used by the next.

1. Domain and money (`Domain`, `Money`, `QuoteLog`). State, reducer, command handler, and totals narrowed
   to 64 bits. The centre is `QuoteLog.ProducedIffWellFormed`: the logs that accepted commands can produce
   are exactly the logs of a closed description (grammar, valid lines, distinct ids, total within 2^63 - 1),
   and replaying one gives the state that can be read off it.
2. Store and append (`Tables`, `Store`, `Appending`, `Stream`, `Writers`). `Tables` gives the meaning of each SQL
   statement on flat tables that mix all quotes; `Store` is `src/store.rs` as a class over two mutable row
   collections, with a failure possible at every statement; both refine a book per quote (its log, and the
   span each command id is bound to). `Appending` is the database closure of `append_one`, `Stream` the
   client stream of `append_commands`.
3. Service (`Service`, `Delivery`, `Guarantees`, `Pump`, `Completeness`, `History`, `StaleHead`,
   `LedgerInner`). `Service`
   is the interleaved machine: append tasks and subscribers without bound, one step per database closure and
   per bus-lock section, watch channels as a value and a version, cancellation, detached closures, failing
   reads and disconnects at any point. A step that is not enabled changes nothing, so `Run(steps)` over all
   sequences of steps is the set of all reachable states; every theorem of this layer quantifies over it.
   `LedgerInner` holds the same code in its own imperative form and ties each method to the function the
   machine uses.

The published head is not monotone: appends may publish out of order, a retry publishes an old sequence
number, and a new subscriber overwrites the head. The delivery theorems hold in spite of that. That every
committed event is eventually delivered does not: `StaleHead` has the run that shows it.
`Completeness.WholeLogIffItsHeadWasRead` says of every reachable state exactly when delivery is complete, and
`Pump.LaterPublishRepairs` what one more publish does.

Where code and documentation differ, the model follows the code:

- The service's README (line 96) says that reusing a key with a different payload is an idempotency conflict.
  The code decides the new command on the entries before the key's first one, so a command that is invalid
  there gets its domain error instead. `Appending.ReusedKeyConflictsIff` has the exact condition and
  `Appending.ReusedKeyWitness` an input.
- The service's README (line 101) promises tails for live commits. A stale head published last leaves a
  parked subscriber behind until the next publish (`StaleHead.QuiescentSubscriberMayBeBehind`).

`dafny verify dfyconfig.toml` checks the project.

## Model

| member | source | states |
|---|---|---|
| Domain.SubtotalMinor | src/domain/model.rs:44-50 | the summation loop returns the exact sum when every line and the sum fit 64 bits, and the overflow error otherwise |
| Domain.RefusedForADefect | src/domain/model.rs:165-256 | a command is refused if and only if it has one of the listed defects, and the error returned is the defect the handler looks for first |
| Domain.CreateNeedsText | src/domain/model.rs:174-183 | an uncreated quote accepts CreateQuote iff currency and jurisdiction each hold a non-whitespace character, and otherwise names the first that does not |
| Domain.LineNeedsText | src/domain/model.rs:198-200 | on an open quote a line whose id, sku or description has no non-whitespace character is refused for the first such field, and for no text field otherwise |
| Domain.WhitespaceIsUnicodeWhitespace | src/domain/model.rs:251-256 | whitespace is exactly the 25 code points with the Unicode property White_Space |
| Domain.BlankCurrencyIsRefused | src/domain/mod.rs:107-119 | at a concrete input: a currency of two spaces is refused |
| Domain.AcceptedCommandIsItsEvent | src/domain/model.rs:165-249 | an accepted command emits exactly one event, with each of its fields in the field of the same name, and command and event determine each other (injectivity) |
| Domain.AcceptedEventReduces | src/domain/model.rs:109-163 | the handler is at least as strict as the reducer: what it emits always applies |
| Money.ChargedByJurisdiction | src/domain/model.rs:44-74 | for valid lines the total exists iff subtotal plus tax is at most 2^63 - 1; then the subtotal is the sum of quantity times unit price, the tax is 8% of it rounded down for `US` and `US-` jurisdictions and 0 elsewhere, and the total is their sum |
| Money.TruncDivRoundsTowardZero | src/domain/model.rs:65 | the division of the tax computation rounds toward zero for either sign of the subtotal |
| Money.AddLineFrontier | src/domain/model.rs:184-235 | a valid fresh line is accepted iff the exact total with it is at most 2^63 - 1, else exactly IntegerOverflow |
| Money.AddLineAcceptedIffSound | src/domain/model.rs:184-235 | a line is accepted iff the extended list is valid, has distinct ids and a total that fits |
| Money.NoI128Overflow | src/domain/model.rs:12-16 | no 128-bit intermediate overflows, whatever the signs: line products, every running sum, the tax product, subtotal plus tax |
| Money.TaxRoundingBound | src/domain/model.rs:62-67 | tax on the subtotal lies between the sum of per-line floored taxes and that sum plus n - 1 |
| Money.SubtotalIgnoresOrder | src/domain/model.rs:44-50 | permuting the lines does not change the exact subtotal |
| Money.SoundLinesIgnoreOrder | src/domain/model.rs:184-226 | whether a list of lines is acceptable does not depend on its order |
| QuoteLog.ReplayEvents | src/domain/mod.rs:26-32 | the replay loop is the fold of the reducer from the empty quote, stopping at the first rejected event |
| QuoteLog.ReplayInParts | src/domain/mod.rs:26-32 | replaying a prefix and then the rest from the state reached equals replaying the whole |
| QuoteLog.ReduceRefusesIff | src/domain/model.rs:109-163 | for every state and event, when the reducer refuses and with which error, and what it changes otherwise |
| QuoteLog.ReplaysIff | src/domain/model.rs:109-163 | any log, whoever wrote it, replays iff it is created first and only once, finalized last if at all, and has distinct line ids; the state is the one read off it |
| QuoteLog.AcceptedIffWellFormed | src/domain/model.rs:165-249 | on a well-formed log a command is accepted iff appending its event keeps the log well formed, and then the reducer reaches the state read off the longer log |
| QuoteLog.ProducedIffWellFormed | src/domain/model.rs:109-249 | commands produce exactly the well-formed logs, and each replays to the state that can be read off it |
| QuoteLog.LineCount | src/domain/model.rs:109-249 | length of a log = created + lines + finalized |
| QuoteLog.PrefixReplays | src/mapping.rs:109-118 | every prefix of a produced log is well formed and replays without error |
| QuoteLog.DecidedByItsCommandOnly | src/ledger.rs:224-234 | deciding a command in the state before entry k emits entry k iff it is the command that produced it |
| QuoteLog.FinalizedIsFrozen | src/domain/model.rs:236-247 | after a finalize no command is accepted and no event extends the log |
| QuoteLog.TotalsNeverDecrease | src/domain/model.rs:44-74 | subtotal, tax and total exist for every prefix and never decrease along a log |
| QuoteLog.OverflowFrontier | src/domain/model.rs:209-226 | in every reachable open quote a valid fresh line is accepted iff the sum of products plus the tax of the log's jurisdiction is at most 2^63 - 1, else IntegerOverflow; then every line, old and new, still fits |
| QuoteLog.AddAllIffSound | src/domain/model.rs:184-235 | a batch of lines is accepted in full iff the resulting list is sound, and then the lines are appended in order |
| QuoteLog.OrderDoesNotMatter | src/domain/model.rs:184-235 | if a set of lines is accepted in full in one order it is in every order, with the same lines up to order and the same subtotal, tax and total |
| Writers.WritersInAnyOrder | src/domain/model.rs:184-235 | in every reachable state, for an open quote, requests adding new lines succeed in full in every order or in none, with the same lines up to order and the same totals |
| Writers.BatchIsAddAll | src/ledger.rs:237-242 | appending such requests through the ledger is adding their lines to the quote one by one |
| QuoteLog.QuoteStateToView | src/mapping.rs:120-147 | the view-building method succeeds iff all totals exist, and shows the quote's id, header, flag and totals, and each line with quantity times unit price as its total |
| QuoteLog.ViewNeverFails | src/mapping.rs:109-147 | every prefix of a produced log has a view under its own quote id that shows it line by line (an empty header for the empty log), whose line totals sum to the subtotal, with the tax its jurisdiction owes and total = subtotal + tax |
| Tables.OrderBySorts | src/store.rs:23-25 | ORDER BY seq returns the same rows in ascending order |
| Tables.LoadAllIsLog | src/store.rs:19-35 | loading a quote returns its whole log with sequence numbers 1..n |
| Tables.LoadRangeIsSlice | src/store.rs:52-70 | the BETWEEN query over the mixed table returns exactly the matching slice of the quote's log |
| Tables.LoadBetweenIsSlice | src/store.rs:176-201 | the exclusive/inclusive range query returns exactly the matching slice |
| Tables.AppendKeepsConsistent | src/store.rs:108-174 | an append keeps dense sequence numbers, tiling key ranges and unique keys for every quote |
| Tables.AppendRefinesBook | src/store.rs:108-174 | an append of any number of events changes its own quote's book as specified, answers as specified, leaves every other quote alone, and changes nothing on an error or for a bound key |
| Tables.KeysTileTheLog | src/store.rs:129-172 | every committed entry lies in exactly one of the quote's key ranges, and the range lengths sum to the log's length |
| Tables.PrimaryKeyHolds | migrations/001_initial.sql:4-11 | no two event rows share (quote_id, seq) |
| Tables.StoreRefinesBooks | src/store.rs:108-174 | after any sequence of append calls on any mix of quotes, failures included, each quote's book is the one its own calls produce alone |
| Store.Store.LoadStoredEvents | src/store.rs:19-35 | returns the quote's whole log, or the SQLite error |
| Store.Store.LoadEventsInSeqRange | src/store.rs:52-70 | returns the rows of the range in order, or the SQLite error |
| Store.Store.LoadStoredEventsBetween | src/store.rs:176-201 | returns exactly the slice; an empty range returns before any statement and so cannot fail |
| Store.Store.IdempotencyLookup | src/store.rs:37-50 | the scan finds the one row under the key, whose span lies in the quote's log, or says that no row has the key, or fails with the SQLite error |
| Store.Store.SameCommandPayloads | src/store.rs:89-106 | true iff both lists have the same length and the same events in order |
| Store.Store.InsertEvents | src/store.rs:137-158 | no insert of the loop hits the primary key; the rows carry consecutive numbers from first_seq and are what is returned |
| Store.Store.AppendTransaction | src/store.rs:129-173 | a failure at any statement leaves both tables as they were; without one, rows and key are stored together |
| Store.Store.AppendCommandEvents | src/store.rs:108-174 | a bound key answers with the events stored under it if they are the ones given, and with a conflict otherwise; an empty append under a free key is refused; any other append does exactly what it means on the tables; neither table changes on any error, wherever SQLite fails |
| Appending.CommitRefinesBook | src/ledger.rs:209-244 | the database closure refines a command on the quote's book: same book after, same answer, other quotes untouched, invariant kept |
| Appending.AppendOneKeepsLedger | src/ledger.rs:195-252 | an append keeps the ledger's invariant, logs only grow, errors change nothing, and settled requests stay settled |
| Appending.BoundKeyAnswersItsCommandOnly | src/ledger.rs:215-234 | a bound key changes no table, and succeeds iff the request carries the command originally committed, with its event |
| Appending.ReusedKeyConflictsIff | src/ledger.rs:215-234 | a different command under a bound key changes no table; it is a conflict iff the handler accepts it before the key's entry, and otherwise gets the handler's error |
| Appending.ReusedCreateKeyIsNoConflict | src/ledger.rs:215-234 | under the key that created a quote, every AddLineItem and FinalizeQuote gets QuoteNotCreated, not a conflict |
| Appending.ReusedKeyWitness | src/ledger.rs:215-234 | the same at a concrete input, starting from empty tables |
| Appending.FreshKeyIsDecidedOnTheLog | src/ledger.rs:237-242 | an unbound request succeeds iff the handler accepts it on the quote's whole log, and then adds its one event at the end |
| Appending.RetryIsStable | src/ledger.rs:215-234 | after any later requests, also after a finalize, a retry returns exactly the original events and changes neither table |
| Appending.CommittedAtMostOnce | src/ledger.rs:215-241 | of all requests under one key, whatever runs between them, only the first successful one changes the tables |
| Stream.ResentStreamConverges | src/ledger.rs:294-369 | a stream cut after any number of frames and resent whole ends with the tables and the reply of one uninterrupted stream |
| Stream.CutIsAFailedStream | src/ledger.rs:295-315 | a transport error or idle timeout is such a cut: the tables of the frames before it, and a failed call |
| Stream.ResentStreamAbsorbsDetachedClosure | src/ledger.rs:169-184 | if the cancelled attempt left the closure of its frame queued, and it runs after any frame of the resend, the resend still converges |
| Stream.ReplyHasOneReceiptPerCommand | src/ledger.rs:343-369 | every successful reply has one receipt per command, in order, each the command's own event settled at its sequence number; last_committed_seq is that of the last receipt |
| Stream.StreamSucceedsIff | src/ledger.rs:294-369 | a call succeeds iff its stream is not empty, stays within the command limit, holds only messages with valid ids for one quote, and each command succeeds in turn; its effect is the commands run one after the other |
| Stream.FirstFailureIsAnswered | src/ledger.rs:295-349 | the first failing frame decides the status: transport, deadline exceeded, resource exhausted, invalid argument, or the command's own error after the commands before it |
| Stream.FourChecksAreOne | src/ledger.rs:77-100 | the four checks of an identifier pass together exactly for 1 to 128 ASCII letters, digits and `-_:.` |
| Delivery.OpenOnLedger | src/ledger.rs:394-422 | the initial read of a subscription fails only on an after_seq ahead of the head; otherwise it holds the right catch-up and view |
| Delivery.EveryRunKeepsInv | src/ledger.rs:169-544 | every step of every interleaving keeps the ledger, bus, task and subscriber invariants |
| Guarantees.EveryLogIsWellFormed | src/ledger.rs:209-244 | in every reachable state every log is well formed and replays, its entries belong to one key each, and no primary key is shared |
| Guarantees.StreamIsOneSliceOfTheLog | src/ledger.rs:451-544 | the tails sent to a subscriber are exactly entries after_seq+1 .. watermark in order; one snapshot, between catch-up and live tails |
| Guarantees.TailBoundsMatchTheirEvents | src/ledger.rs:528-536 | every tail carries exactly the entries between its own bounds, at least one |
| Guarantees.ChunkIsNeverEmpty | src/ledger.rs:480-523 | the empty-chunk branches are never taken, and a chunk always ends at the head it was loaded for |
| Guarantees.NoLostWakeUp | src/ledger.rs:430-437 | a pump parked with nothing unseen has sent up to the published head; if that is the log's head, it has sent everything |
| Guarantees.ReconnectsGlueToOneSlice | src/ledger.rs:394-422 | any number of reconnects at any cut points, each from the last processed seq, give one contiguous slice |
| Guarantees.ReconnectIsNeverRejected | src/ledger.rs:398-405 | reconnecting at any later time with that cursor is never refused |
| Guarantees.ReconnectResumes | src/ledger.rs:394-422 | in every run, reconnecting at any later time where the stream ended is accepted, and the catch-up completes what was received to the whole later log |
| Guarantees.FailedReadLosesNothing | src/ledger.rs:500-522 | a failed read sends nothing, moves no watermark, ends the stream exactly on the eighth failure in a row, and a later reconnect completes the log |
| Guarantees.EighthFailureCloses | src/ledger.rs:34-74 | up to seven failures in a row leave the subscriber loading the same range; the eighth closes the stream with an error |
| Guarantees.FoldingClientAgrees | src/mapping.rs:109-118 | a client that reduces every tail event it processed onto the replay of 1..after_seq holds exactly the replay up to its cursor, without any error |
| Guarantees.FoldingFromSnapshotAgrees | src/ledger.rs:466-544 | a client that starts from the state behind the snapshot and reduces only the live tails after it holds exactly the replay up to its cursor |
| Guarantees.SnapshotIsTheViewOfItsPrefix | src/ledger.rs:466-474 | the snapshot is the view, under the quote's id, of the replay of entries 1..last_seq; it shows that prefix, and its totals balance |
| Pump.PumpCatchesUp | src/ledger.rs:451-544 | from any reachable state and phase, eleven own steps bring a live subscriber to the park with everything up to the published head sent |
| Pump.LaterPublishRepairs | src/ledger.rs:507-544 | one later publish of h moves a parked subscriber to max(watermark, h) in one contiguous tail; it then has the whole log iff it had it before or h is the log's head |
| History.AppendsAreLinearizable | src/ledger.rs:169-244 | in every interleaving each quote's book is the serial execution of its requests in commit order, and each request got the answer of its place in that order |
| History.OrderRespectsRealTime | src/ledger.rs:209-244 | an append whose closure ran before another append began comes before it in the serial order of every later state, cancelled or not |
| History.RetriesGetTheFirstAnswer | src/ledger.rs:215-234 | in every run a repeated request gets exactly the first answer and changes no table |
| History.KeyCommitsOnce | src/ledger.rs:215-241 | in every run, of all requests under one key only the first successful one changes the tables |
| History.InFlightCountsGuards | src/ledger.rs:102-122 | the counter equals the number of live guards; without cancellation, zero means every committed entry has been published |
| History.CancelledAppendMayStayUnpublished | src/ledger.rs:169-184 | a run with a cancellation that ends with nothing in flight and a committed entry never published |
| LedgerInner.LedgerInner.PublishHead | src/ledger.rs:186-192 | creates the channel if missing and always bumps the version, also for the same or a smaller head |
| LedgerInner.LedgerInner.RunClosure | src/ledger.rs:209-244 | the closure is the commit the machine runs, or a SQLite failure that changes nothing |
| LedgerInner.LedgerInner.AppendOne | src/ledger.rs:195-252 | the guard is released on every path; the head is published exactly on success, with the last number of the answer |
| LedgerInner.LedgerInner.AppendCommands | src/ledger.rs:283-370 | the stream loop ends with the tables and reply of the frames, one settled receipt per command on success; wherever a database statement of frame k fails, the call fails with the tables of the first k frames |
| LedgerInner.LedgerInner.OpenSubscription | src/ledger.rs:394-422 | the initial closure returns the subscription the machine starts from, or the SQLite error |
| LedgerInner.LedgerInner.Register | src/ledger.rs:430-437 | it is the machine's registration step; the new receiver has missed nothing, no other receiver misses the overwritten head, and other channels are untouched |
| LedgerInner.SubscribeLoadBetween | src/ledger.rs:38-75 | the first of eight attempts that works decides, and it is an error iff all eight fail; the waits before attempts 1 to 8 total 0, 10, 30, 70, 150, 310, 630, 1130 ms |
| LedgerInner.AttemptsDecidedByFirstSuccess | src/ledger.rs:47-74 | the machine's retry steps and the retry loop agree |
| LedgerInner.Pump | src/ledger.rs:476-544 | the pump loop sends what the machine's steps send, and closes with an error exactly when some pass with something to load fails eight times |
| LedgerInner.ClosedIffReadFailed | src/ledger.rs:500-522 | the same iff for the machine's steps; an open pump stands at the largest of its watermark and the heads read |
| LedgerInner.PumpDelivers | src/ledger.rs:476-544 | whatever heads are read in whatever order, what was sent is one slice of the log and an open pump's watermark is the largest head read |
| LedgerInner.CompleteIffItsHeadIsRead | src/ledger.rs:476-544 | for any heads and reads in the log, an open pump has sent the whole log iff its snapshot covered it or one of the heads is the log's head |
| Completeness.WatermarkIsHighestHeadRead | src/ledger.rs:451-544 | in every reachable state an idle subscriber's watermark is the largest of its last_seq and the heads its pump has read in that run |
| Completeness.WholeLogIffItsHeadWasRead | src/ledger.rs:451-544 | in every reachable state an idle subscriber has been sent the whole log iff its snapshot covered it or some head its pump read in that run is the log's head |
| StaleHead.OutOfOrderPublishLeavesBehind | src/ledger.rs:246-248 | in every reachable state, two publishes in the opposite order of their commits leave a parked subscriber at the lower head, below the log |
| StaleHead.QuiescentSubscriberMayBeBehind | src/ledger.rs:246-248 | a run without cancellation or failure that ends with nothing in flight and a parked subscriber one entry short |

## Left out

- Eventual delivery: false of the code; the counterexample and the exact conditions are in `StaleHead`, `Completeness` and `Pump`.
- LedgerInner: its methods run one at a time; what other tasks do between two of their steps (the update in place seen by two tasks at once) is covered by the `Service` machine, whose state is a value.
- LedgerInner.Pump: a client that goes away during the loop is covered by the machine's `Disconnect` step only, which may come in any phase.
- Guarantees.ReconnectIsNeverRejected: says nothing of a SQLite failure during the reconnecting read, which may always end a call.
- Conversions between Protobuf and domain types, and prost bytes: events are compared as values, which byte comparison amounts to for an injective encoding; the `event_type` column follows from the payload.
- A message without `command` and one whose command has no kind are one case, `None`.
- Identifier validation is one predicate; which message a bad identifier gets, and how domain and store errors map to gRPC codes, are not kept.
- Corrupt payloads, a poisoned mutex and join errors: one SQLite failure stands for every failed database call.
- Casts between u64 and i64 for sequence numbers: logs are assumed shorter than 2^63 entries.
- mpsc back-pressure: sending an update is one step. The sender side of a watch channel is never dropped, because the bus keeps it, so the error branch of `changed()` has no step.
- Time: the waits between read attempts appear only as a total; the idle timeout of a stream is a frame the client's silence produces.
- Authentication, rate limiting, configuration, metrics, shutdown and `main`: no part in the ledger's state.
- SQLite itself: each statement has its documented meaning, a transaction is all or nothing, and one process owns the file.
