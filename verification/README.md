# Verified model of the event session store, the HyperSync source and the hybrid coordinator

Three cooperating state machines carry chain events from a provider to a consumer. This project
models each of them in Dafny and proves what they keep over every sequence of steps.

* **Session store** (`crates/event-service`). One durable row per session and chain: desired state,
  acknowledged cursor, runtime cursor, a one-item outbox and a promised reorg tip. A row changes by
  compare-and-swap apply, save-pending and acknowledge, and a large validator runs on every load.
  Modules `PayloadRules`, `ProgressRules`, `SessionStore`, `SessionCalls`, `SessionRuns`, `Reconnect`.
* **HyperSync source** (`crates/hypersync`). A filter compiler, a page validator, page normalization, a
  bounded canonical tracker, a checkpoint codec, and a one-in-flight engine that finds forks by binary
  search and stages a reorg control ahead of its replacement page. Modules `QueryPlan`, `PageRules`,
  `Normalize`, `Emission`, `Routing`, `Canonical`, `TrackerErrors`, `SourceCheckpoint`, `WireFormats`,
  `SourceEngine`, `EngineCalls`, `Anchoring`, `ForkSearch`, `Handshake`, `Restart`, `Resumption`,
  `RestartRuns`, `ForkExample`, and `Pipeline`, which joins the engine to the store.
* **Hybrid coordinator** (`crates/remote`). Cutover between a historical and a live child gated by
  acknowledgement, audience-exact deduplication, a budgeted journal, canonical histories under rewind
  and advance, witness merging, and live-first lifecycle changes with compensation. Modules
  `HybridCutover`, `HybridPump`, `HybridAudience`, `HybridDedup`, `HybridJournal`, `HybridHistory`,
  `HybridWitness`, `HybridLifecycle`, `HybridChanges`.

`Protocol` holds the wire entities and `Ordering` the sorting facts the other modules share.

## How to read it

Objects and loops of the source are Dafny classes and methods; each is proved equal to a specification
function, or to accept exactly what a declarative predicate says. Theorems are about those functions and
predicates: over every input, over every sequence of calls, or across two components (what the engine
emits is what the store accepts; a restarted engine is the engine that never stopped; the compiled
filters mean what the interests mean). Byte sequences stand for hashes and encoded values. Where the
program asks a library something this model does not contain (the encoded length of a message, whether
RLP bytes decode to a header, what a provider answers), the answer is a parameter and the theorem holds
for every such parameter.

Findings that came out of stating the properties exactly:

* What the row loader accepts is not inductive by itself (`SessionRuns.LoaderAloneIsNotInductive`). With
  the extra fact that a standing promise has an acknowledged head strictly below the promised tip, it is.
* The store refuses some controls the engine stages. The source never compares timestamps and the store
  does: a control is accepted if and only if both tips are later than the ancestor and the three hashes
  differ (`Handshake.StagedDeliveriesAccepted`). `ForkExample.StillClockRefused` polls a concrete engine
  into the refused case.
* A staged replacement fulfils the store's promise of the new tip if and only if that tip is at or past
  the activation boundary or inside a global backfill (`Handshake.StagedReorgHandshake`).
  `ForkExample.ShorterForkUnfulfilled` shows the unfulfilled case.
* Restoring from an acknowledged page gives the engine that kept going if and only if the page carries a
  rollback guard, lands at the retained tip, and coverage follows it (`Restart.RestartAfterData`).
  `ForkExample.UnguardedNotRestored` shows a page without a guard.
* Two steps of the coordinator keep a fence the buffer no longer justifies: a live child that comes back
  past heights it did not send, and a batch lost while draining. In the model each can skip heights
  (`HybridCutover.LiveStopSkipsHeight`, `HybridCutover.LostBatchSkipsHeight`). Draining leaves no gap if
  and only if the buffer meets what is exposed (`HybridCutover.CutoverExact`). Whether the program exposes
  such a gap depends on the sequence validator of the `evm-fork-cache` crate, which is not part of this
  model and may refuse the block after the gap.

## Model

| member | source | states |
|---|---|---|
| PayloadRules.ConflictIffDisagreement | crates/event-service/src/session_store.rs:581-866 | looking an event up in the identity tables finds a conflict exactly when some earlier event disagrees with it |
| PayloadRules.ValidateRecords | crates/event-service/src/session_store.rs:581-866 | the scanning loop accepts exactly the records that are each well formed, pairwise ordered and consistent, and certified by canonical coverage |
| PayloadRules.ValidateDeliveryPayload | crates/event-service/src/session_store.rs:581-866 | accepts exactly the payloads allowed by the declarative rules: records, controls, audiences and the neutral flag |
| ProgressRules.ScanDeclaredHead | crates/event-service/src/session_store.rs:868-1024 | the record scan yields the last explicit canonical block, and refuses unreadable or descending records |
| ProgressRules.ValidateDeliveryProgress | crates/event-service/src/session_store.rs:868-1062 | accepts exactly the deliveries that may follow the acknowledged cursor |
| ProgressRules.CollectBlocks | crates/event-service/src/session_store.rs:1391-1461 | the table of named canonical blocks is complete, or two named blocks at one height differ |
| ProgressRules.CertifiesReorgTip | crates/event-service/src/session_store.rs:1391-1461 | the upward walk answers yes exactly when the delivery names the tip and an unbroken parent-linked chain from it to the cursor head |
| SessionStore.ValidatePending | crates/event-service/src/session_store.rs:1135-1335 | accepts exactly a pending delivery the store itself would have saved |
| SessionStore.ValidatePersistedSession | crates/event-service/src/session_store.rs:1135-1335 | accepts exactly the rows of the declarative row rules |
| SessionStore.Store.constructor | crates/event-service/src/session_store.rs:63-65 | a new store holds no row |
| SessionStore.Store.ApplyDesiredState | crates/event-service/src/session_store.rs:213-370 | compare-and-swap of the desired state with its activation barrier; the new rows are the transition of the old ones and a refused call writes nothing |
| SessionStore.Store.SavePending | crates/event-service/src/session_store.rs:388-464 | fills the empty outbox, is idempotent for the same delivery, and a refused call writes nothing |
| SessionStore.Store.AcknowledgeDelivery | crates/event-service/src/session_store.rs:482-558 | commits the pending cursor, moves the runtime cursor unless neutral, updates the promise, and is idempotent for the last commit |
| SessionStore.ApplyKeepsStore | crates/event-service/src/session_store.rs:213-370 | apply only writes rows the loader accepts, with every standing promise anchored below its tip |
| SessionStore.SaveKeepsStore | crates/event-service/src/session_store.rs:388-464 | the same for save-pending |
| SessionStore.AckKeepsStore | crates/event-service/src/session_store.rs:482-558 | the same for acknowledge |
| SessionStore.AckEffect | crates/event-service/src/session_store.rs:482-558 | an acknowledgement either commits exactly the pending delivery of its session or changes nothing |
| SessionCalls.ApplyExact | crates/event-service/src/session_store.rs:213-370 | apply changes the store exactly when the request steps from the stored revision, its row is free, the barrier fits a frame and its cursor activates; the barrier it then persists stands at the prepared cursor, else the acknowledged one, else the earliest backfill, under the new revision and the next sequence |
| SessionCalls.ActivationProgress | crates/event-service/src/session_store.rs:213-370 | that barrier passes the progress rules exactly when its cursor keeps the acknowledged head, or brings the canonical baseline when there is none, and respects the activation boundary |
| SessionCalls.ApplyTwice | crates/event-service/src/session_store.rs:257-274 | applying the same request again changes nothing and answers with the same activation sequence |
| SessionCalls.SaveExact | crates/event-service/src/session_store.rs:388-464 | a save is taken exactly for the applied desired state, a delivery that continues the session, and an outbox that is empty or already holds it |
| SessionCalls.SaveTwice | crates/event-service/src/session_store.rs:388-464 | saving the same delivery again changes nothing and says so |
| SessionCalls.AckErrors | crates/event-service/src/session_store.rs:482-558 | each error of an acknowledgement and exactly when it is given |
| SessionCalls.AckTwice | crates/event-service/src/session_store.rs:482-558 | acknowledging the same delivery again changes nothing and answers with the committed cursor |
| SessionRuns.ReachableRowsLoad | crates/event-service/src/session_store.rs:1135-1335 | every row reached by any sequence of the three calls from an empty store passes the loader's validator |
| SessionRuns.LoaderAloneIsNotInductive | crates/event-service/src/session_store.rs:1135-1335 | whenever frames fit, there is a row the loader accepts whose acknowledged form it refuses, so the anchored promise is needed |
| SessionRuns.RunsKeepLog | crates/event-service/src/session_store.rs:388-558 | over every sequence of calls the row summarizes its acknowledgement log, and each logged delivery obeys the step rules |
| SessionRuns.PromiseProtocol | crates/event-service/src/session_store.rs:388-558 | after an acknowledged reorg control, until a delivery certifies the exact promised tip, only activation barriers are acknowledged and each leaves the head at the common ancestor |
| SessionRuns.HeadDiscipline | crates/event-service/src/session_store.rs:868-1024 | the acknowledged head stays or moves up, never to another block at its height, except by a reorg whose old tip is that head |
| SessionRuns.HeadOrigin | crates/event-service/src/session_store.rs:868-1062 | every acknowledged head is the highest block the canonical records name, the block of a barrier, or the head before it; only a first activation may bring one of its own |
| SessionRuns.FinalityProgress | crates/event-service/src/session_store.rs:868-1062 | a finality report may follow exactly when it keeps head and boundary and does not move the cursor back |
| SessionRuns.ReorgProgress | crates/event-service/src/session_store.rs:868-1062 | a reorg may follow exactly when it starts from the acknowledged head, shares an ancestor below both tips, and leaves head and cursor there |
| SessionRuns.BoundaryFixed | crates/event-service/src/session_store.rs:868-1062 | over every sequence of calls the acknowledged cursors of one revision share their activation boundary |
| SessionRuns.AckedShapes | crates/event-service/src/session_store.rs:581-866 | over every sequence of calls the neutral deliveries are exactly the activation and progress barriers, and every acknowledged reorg is shaped like a fork in number, time, hash and parent |
| SessionRuns.SequencesAreDense | crates/event-service/src/session_store.rs:388-558 | newly committed acknowledgements carry the sequences 1, 2, 3 and so on |
| SessionRuns.OutboxStable | crates/event-service/src/session_store.rs:388-558 | while a delivery is pending, no call but its matching acknowledgement changes the row, and that one commits its cursor |
| Reconnect.ConfirmedOnlyAtAuthority | crates/event-service/src/service.rs:1574-1650 | a reconnecting client is confirmed exactly when it presents the runtime cursor, the pending cursor, or no cursor and the runtime sequence; one at sequence zero without a cursor only discovers |
| Reconnect.AlwaysConfirmed | crates/event-service/src/service.rs:1574-1650 | a client that checkpoints each non-neutral delivery before acknowledging it is confirmed at every point of every interleaving of crashes, saves and acknowledgements |
| Canonical.ValidateInputOrder | crates/hypersync/src/canonical.rs:167-181 | reports the first violation of consecutive heights, and none exactly for consecutive input |
| Canonical.CanonicalTracker.constructor | crates/hypersync/src/canonical.rs:14-19 | depth zero becomes one; nothing is retained |
| Canonical.CanonicalTracker.ApplyBlocks | crates/hypersync/src/canonical.rs:29-115 | the candidate is committed only on success; any failure leaves the tracker unchanged |
| Canonical.CanonicalTracker.RestoreBlocks | crates/hypersync/src/canonical.rs:149-157 | replaces the history by a replay into a fresh tracker, or leaves it unchanged |
| Canonical.ApplyMeaning | crates/hypersync/src/canonical.rs:41-115 | a call succeeds exactly when the blocks after the retained prefix attach to a retained parent; the result is the bounded tail of the rebased chain with one reorg delta exactly when a retained block is displaced |
| TrackerErrors.PlaceErrors | crates/hypersync/src/canonical.rs:41-115 | which error refuses a block, said over the blocks retained at its height and below it, in both directions |
| TrackerErrors.ApplyErrors | crates/hypersync/src/canonical.rs:41-115 | input in order is refused exactly when some block is, after those before it were taken, and with that block's error |
| TrackerErrors.OrderErrors | crates/hypersync/src/canonical.rs:167-181 | input out of order is refused at the first pair of heights that does not follow on |
| Canonical.TrackerRefinesIdeal | crates/hypersync/src/canonical.rs:29-115 | the bounded history stays a tail of the unbounded replace-suffix chain and reports that chain's ancestor, old tip and new tip |
| Canonical.TrackerRefinesIdealOverRuns | crates/hypersync/src/canonical.rs:29-115 | the same over any sequence of accepted and refused calls |
| SourceCheckpoint.EncodeSourceCheckpoint | crates/hypersync/src/normalize.rs:431-465 | appending the fields one by one gives the tagged encoding, or the error of an oversized or malformed history |
| SourceCheckpoint.DecodeSourceCheckpoint | crates/hypersync/src/normalize.rs:467-545 | reading at a moving offset gives the specified decoding, legacy forms and errors included |
| SourceCheckpoint.DecodeEncode | crates/hypersync/src/normalize.rs:431-545 | decoding an encoded checkpoint gives back every guard, activation block and history of fewer than 2^32 well-formed blocks |
| SourceCheckpoint.EncodeDecode | crates/hypersync/src/normalize.rs:431-545 | re-encoding what a tagged input decodes to gives back the same bytes |
| SourceCheckpoint.EncodingIsTagged | crates/hypersync/src/normalize.rs:431-486 | no tagged encoding has length 0 or 88, so the legacy branches never capture one |
| WireFormats.CheckpointLayout | crates/hypersync/src/normalize.rs:431-465 | an encoded checkpoint byte by byte: the ASCII magic, the guard tag and guard, the activation block, the count and each block, all integers big-endian |
| WireFormats.GuardLayout | crates/hypersync/src/normalize.rs:397-405 | the 88 bytes of a rollback guard, field by field, negative times as two's complement |
| WireFormats.TokenIsSequence | crates/hypersync/src/normalize.rs:256-265 | a delivery token is its sequence in eight big-endian bytes, so tokens tell sequences apart |
| WireFormats.ActivationNamesRevision | crates/event-service/src/session_store.rs:328-336 | an activation barrier's name tells revisions apart |
| WireFormats.ProgressNamesCursor | crates/hypersync/src/source_engine.rs:780-803 | a progress barrier's name tells revisions and cursors apart |
| WireFormats.NamesAreSpelled | crates/event-service/src/session_store.rs:1337-1390 | no name is both an activation and a progress barrier, and both are spelled as the other side spells them |
| SourceCheckpoint.GuardRoundTrip | crates/hypersync/src/normalize.rs:397-429 | a rollback guard survives its 88-byte encoding, negative timestamps included |
| QueryPlan.CanonicalLogFilter | crates/hypersync/src/query_plan.rs:170-189 | sorting, deduplicating and popping trailing empty positions gives the canonical filter |
| QueryPlan.CanonicalKeepsMeaning | crates/hypersync/src/query_plan.rs:170-189 | a canonical filter accepts exactly the logs its interest accepts |
| QueryPlan.CompileQuery | crates/hypersync/src/query_plan.rs:36-144 | the single pass with match-all collapse and limit flag yields all distinct filters in key order, one unconstrained filter, or the right error |
| QueryPlan.CompiledQueryIsExact | crates/hypersync/src/query_plan.rs:36-121 | a log satisfies some compiled filter if and only if it matches some owner's log interest |
| QueryPlan.OrderDoesNotMatter | crates/hypersync/src/query_plan.rs:36-121 | the compiled list, success and the limit verdict do not depend on the order or grouping of owners and interests |
| QueryPlan.CanonicalForm | crates/hypersync/src/query_plan.rs:170-189 | two filters share their canonical form exactly when they list the same addresses and the same values at every topic position |
| QueryPlan.CompiledAsAsked | crates/hypersync/src/query_plan.rs:36-144 | the query carries the range and limits asked for, each limit at least one, asks for headers exactly when an owner lists a block interest, and lists each canonical form once in key order unless one is unconstrained |
| QueryPlan.CompilesIff | crates/hypersync/src/query_plan.rs:36-144 | a plan compiles exactly when its range is not empty, no listed interest is malformed, and the distinct forms fit the limit or one is unconstrained |
| QueryPlan.FirstRefusedDecides | crates/hypersync/src/query_plan.rs:56-90 | the first malformed interest in listing order decides the error and names its owner |
| PageRules.ValidateBlocks | crates/hypersync/src/page_validation.rs:28-66 | accepts exactly complete rows at consecutive heights joined by parent hashes |
| PageRules.ClashIffDisagreement | crates/hypersync/src/page_validation.rs:72-110 | the identity set and the two transaction tables object exactly when some earlier log disagrees |
| PageRules.ValidateLog | crates/hypersync/src/page_validation.rs:173-232 | accepts exactly a complete, not removed log of one of the page's blocks |
| PageRules.ValidateLogs | crates/hypersync/src/page_validation.rs:72-110 | accepts exactly logs that are each valid and pairwise consistent |
| PageRules.ValidateSourcePage | crates/hypersync/src/page_validation.rs:8-112 | accepts exactly the pages of the declarative page rules, rollback guard included |
| Normalize.PushBlockEvents | crates/hypersync/src/normalize.rs:108-151 | header and progress events per row, and the timestamp table agrees with the rows |
| Normalize.PushLogEvents | crates/hypersync/src/normalize.rs:153-193 | one tagged event per log, or the error of the first unreadable one; `Routing` says what each event and each record says of its raw log |
| Normalize.EventAudience | crates/hypersync/src/normalize.rs:310-355 | the owner loop computes the routing specification |
| Normalize.FilterRecords | crates/hypersync/src/normalize.rs:215-227 | keeps exactly the events somebody hears, in order |
| Normalize.NormalizePage | crates/hypersync/src/normalize.rs:93-273 | the whole normalization as specified, errors included |
| Emission.RoutingIsExact | crates/hypersync/src/normalize.rs:310-355 | an event that is not broadcast goes to exactly the owners active at its height that ask for it |
| Emission.HeardLogsRecorded | crates/hypersync/src/normalize.rs:153-227 | every log of an admitted page that anybody hears is among the records; who hears it is told from the raw log by `Routing.LogRecorded` |
| Emission.WantedIsHeard | crates/hypersync/src/normalize.rs:287-355 | a header emitted because somebody wants it always has an audience |
| Emission.ListenersAreOwners | crates/hypersync/src/normalize.rs:327-348 | the canonical entry is never named as an owner, because its own backfill is global |
| Emission.PageNormalizes | crates/hypersync/src/normalize.rs:93-194 | an admitted page normalizes if and only if every header somebody wants was reconstructed, and then to ordered events with consistent identities and a progress event for every canonical row |
| Emission.HeadIsRecorded | crates/hypersync/src/normalize.rs:228-254 | the covered head of a page that normalizes always has its own record, so the trailing head record is never appended and an empty page has no head |
| Emission.RecordsAccepted | crates/event-service/src/session_store.rs:581-866 | the records of an admitted page satisfy the store's coverage rule, and its record, order and identity rules if and only if each header they carry reads as its row's |
| Emission.NormalizedAccepted | crates/hypersync/src/normalize.rs:93-273 | normalization succeeds if and only if the wanted headers are there, and the store accepts its records if and only if its library reads each of them as the header of its row |
| Routing.LogRecorded | crates/hypersync/src/normalize.rs:153-227 | a log of a valid page leaves a record if and only if some owner on duty at its height asks for it by the raw address and topics; the record carries every raw field unchanged and reaches exactly those owners, or everyone |
| Routing.AskedLogDelivered | crates/hypersync/src/normalize.rs:153-227 | so a log an owner asks for is among the records in a form that reaches that owner |
| Routing.AskedHeaderDelivered | crates/hypersync/src/normalize.rs:108-151 | a header an owner asks for, with the row's own fields, is among the records and reaches that owner |
| Routing.ProgressDelivered | crates/hypersync/src/normalize.rs:108-151 | every row that is for everyone leaves a progress record for everyone |
| Routing.RecordsAreAccounted | crates/hypersync/src/normalize.rs:93-273 | nothing else is among the records: each is that of a log somebody asks for, a wanted header or a row that is for everyone |
| Routing.NormalizedEnvelope | crates/hypersync/src/normalize.rs:228-273 | the delivery is addressed to its session and numbered as asked, and its cursor carries the page's next block, the last row that is for everyone and the guard byte by byte |
| Routing.NormalizesIff | crates/hypersync/src/normalize.rs:93-194 | any page, valid or not, normalizes exactly when no row and no log fails, and its error is one of theirs |
| SourceEngine.AdmitPage | crates/hypersync/src/source_engine.rs:542-565 | a provider answer is admitted exactly when bounded, progressing and valid |
| SourceEngine.FetchPage | crates/hypersync/src/source_engine.rs:542-565 | compiles the query and admits its answer |
| SourceEngine.ProbeBlock | crates/hypersync/src/source_engine.rs:699-725 | the single admitted block at a height |
| SourceEngine.FetchAnchor | crates/hypersync/src/source_engine.rs:567-618 | the loop-free form of the specified anchor: the block below a guarded first page, only while nothing is retained, with a matching hash; `Anchoring` says what that makes of the first poll |
| SourceEngine.FindAncestor | crates/hypersync/src/source_engine.rs:630-697 | the low/high loop is the specified search, and it makes at most as many provider probes as the number of retained heights has bits |
| SourceEngine.BitLength | crates/hypersync/src/source_engine.rs:630-697 | that number of bits is the logarithm: the k with 2^(k-1) <= n < 2^k |
| SourceEngine.PrepareBatch | crates/hypersync/src/source_engine.rs:727-803 | boundary check, normalization, tracker update, checkpoint and barrier in the source's order |
| SourceEngine.RecoverRollback | crates/hypersync/src/source_engine.rs:630-697 | finds the ancestor and prepares the page above it |
| SourceEngine.PrepareFitting | crates/hypersync/src/source_engine.rs:325-350 | the shrinking retry loop, which terminates |
| SourceEngine.Decide | crates/hypersync/src/source_engine.rs:310-402 | what the engine stages next, before any field changes |
| SourceEngine.LiveEngine.constructor | crates/hypersync/src/source_engine.rs:214-236 | a fresh engine at the given block: sequence zero, nothing retained or in flight, depth zero read as one |
| SourceEngine.LiveEngine.NextBatch | crates/hypersync/src/source_engine.rs:310-402 | replays the in-flight delivery or stages the next one; a failure changes nothing; the history stays bounded and linked |
| SourceEngine.LiveEngine.Acknowledge | crates/hypersync/src/source_engine.rs:412-438 | commits the in-flight token and promotes the queued delivery; a wrong token changes nothing |
| SourceEngine.LiveEngine.AcknowledgeExternalControl | crates/hypersync/src/source_engine.rs:481-493 | advances the sequence only, never backwards or past an in-flight delivery |
| SourceEngine.LiveEngine.SynchronizeCommittedCursor | crates/hypersync/src/source_engine.rs:504-530 | replaces the position only after the whole resume state validates |
| SourceEngine.NextBatchKeeps | crates/hypersync/src/source_engine.rs:310-402 | every successful step leaves a bounded, parent-linked history and well-formed coverage heads, committed and in flight |
| SourceEngine.RestoreKeeps | crates/hypersync/src/source_engine.rs:246-274 | so does every restored engine |
| EngineCalls.PollHandsOut | crates/hypersync/src/source_engine.rs:310-402 | a poll hands out what is then in flight; what was in flight before comes again unchanged, and nothing comes exactly when nothing is in flight and the range is finished |
| EngineCalls.FirstLimits | crates/hypersync/src/source_engine.rs:1141-1151 | a poll first asks for the whole span, never for more than a thousand blocks or five thousand logs |
| EngineCalls.FirstFit | crates/hypersync/src/source_engine.rs:325-350 | the tries of a poll are the first limits halved again and again, rounded up; the first that fails or fits is the answer, and only one block and one log that are still too large give up |
| EngineCalls.AdmitExact | crates/hypersync/src/source_engine.rs:542-565 | which answer of the provider is taken and which error the others get |
| EngineCalls.CoverageConflict | crates/hypersync/src/source_engine.rs:889-917 | a valid page is refused for the covered head exactly when the history does not reach that head, or an anchor was fetched, and the page contradicts it |
| EngineCalls.GuardOfBlock | crates/hypersync/src/source_engine.rs:1041-1068 | the guard made of one block is the guard of a page with that one row, and exists exactly for well-formed blocks with a representable time |
| EngineCalls.AncestorBelowGuard | crates/hypersync/src/source_engine.rs:630-697 | a common ancestor is a retained height and never above the block of the held guard |
| Anchoring.ProbeReports | crates/hypersync/src/source_engine.rs:699-725 | a probe answers with a block exactly when the provider, asked for that one height, reports it within the limits |
| Anchoring.FirstPageIsAnchored | crates/hypersync/src/source_engine.rs:567-618 | with nothing retained and a guarded first page above block 0: a reported block with another hash than the guard's parent fails the poll with the unknown parent, and otherwise the staged history is that block followed by the page's rows, up to the bound |
| Anchoring.FirstForkIsFound | crates/hypersync/src/source_engine.rs:630-697 | once that page is acknowledged and while the block below it is retained, a fork of the first delivered block is found at that block |
| ForkSearch.AgreementDownward | crates/hypersync/src/source_engine.rs:630-697 | against one parent-linked provider chain, agreement at a height carries over to every retained height below |
| ForkSearch.AncestorIsGreatest | crates/hypersync/src/source_engine.rs:630-697 | when every probe answers from one parent-linked chain, the search returns the greatest agreeing height, and reports exhausted history when none agrees |
| ForkSearch.RecoveryReportsFork | crates/hypersync/src/source_engine.rs:630-697 | under the same chain, a valid page above that height that starts on it makes the tracker report exactly that ancestor, the old tip and the page's last row |
| Handshake.PreparedAccepted | crates/hypersync/src/source_engine.rs:727-803 | the store's payload validator accepts a prepared delivery, data or barrier, if and only if its library reads every wanted header as its row's |
| Handshake.CertifiesIff | crates/event-service/src/session_store.rs:1391-1461 | a prepared page fulfils the promise of its own tip if and only if that tip is canonical for every audience |
| Handshake.StagedReorgHandshake | crates/hypersync/src/source_engine.rs:351-392 | a staged control sits at the common ancestor with its successor as next block; the queued replacement carries the next sequence and fulfils the promise if and only if the new tip is at or past activation or globally backfilled |
| Handshake.StagedDeliveriesAccepted | crates/hypersync/src/source_engine.rs:310-402 | of everything the engine stages: a page is accepted as a payload exactly when its wanted headers match, a control exactly when both tips are later than the ancestor and the three hashes differ |
| Handshake.DeltaShape | crates/event-service/src/session_store.rs:1109-1133 | whatever reorg the tracker reports is a fork of well-formed blocks, so of the store's shape rules only the timestamps and distinct hashes are left to fail |
| ForkExample.StillClockRefused | crates/event-service/src/session_store.rs:1109-1133 | a concrete engine polled into a fork: with clocks that stand still the store refuses its control, with clocks that tick it accepts it |
| ForkExample.ShorterForkUnfulfilled | crates/hypersync/src/source_engine.rs:351-392 | the same fork activated at block 7: the queued replacement ends below the boundary and leaves the promise standing |
| ForkExample.ForkFulfilled | crates/hypersync/src/source_engine.rs:351-392 | activated at block 6 or before, the same replacement fulfils it |
| ForkExample.ForkIsLinked | crates/hypersync/src/managed_provider.rs:571-612 | that engine and a concrete row of the store are at one position, so the theorems about exchanges apply to it |
| ForkExample.ForkRunLands | crates/hypersync/src/source_engine.rs:310-438 | polled into the fork its pages land and its control can be acknowledged, so the theorems about restarts apply to it |
| ForkExample.UnguardedNotRestored | crates/hypersync/src/source_engine.rs:1070-1126 | a concrete engine served without a guard and acknowledged: restoring from its cursor does not give it back |
| Restart.ResumeDecodes | crates/hypersync/src/managed_provider.rs:644-665 | a durable cursor's checkpoint gives back the encoded guard, activation and history |
| Resumption.ResumesFrom | crates/hypersync/src/managed_provider.rs:644-665 | what a cursor resumes to, field by field, with the fallback on its head and its boundary, and exactly when it is refused |
| Resumption.RestoresIff | crates/hypersync/src/source_engine.rs:246-274 | a service restarts from a resume exactly when its blocks form a chain, its guard and next block fit the newest of them, and its covered head fits both; then it holds them |
| Resumption.SynchronizesIff | crates/hypersync/src/source_engine.rs:504-530 | a running engine takes a committed cursor exactly when nothing is pending, the sequence does not go back and the resume fits; nothing else changes |
| Resumption.ControlAcknowledged | crates/hypersync/src/source_engine.rs:481-493 | when an external control is acknowledged, with which error it is not, and that only the sequence moves |
| Restart.RestoresOnlyIf | crates/hypersync/src/source_engine.rs:246-274 | no restart succeeds for an engine that retains blocks without a guard, whose cursor is not the tip's successor, or whose coverage does not fit both |
| Restart.RestoredSteady | crates/hypersync/src/source_engine.rs:246-274 | every engine restored from a durable cursor is idle, steady and well formed |
| Restart.RestartAfterData | crates/hypersync/src/source_engine.rs:246-274 | restoring from the cursor of a prepared page gives the engine that acknowledged it if and only if the page carries a guard, lands, and coverage follows it |
| Restart.RestartAfterControl | crates/hypersync/src/source_engine.rs:805-846 | restoring after the control and preparing the same page retains the same blocks without a reorg, and gives exactly the queued replacement if and only if some row is canonical or the coverage was the ancestor already |
| Restart.PreparedTip | crates/hypersync/src/source_engine.rs:727-803 | the retained tip is the page's last row if and only if the page lands; otherwise the history is unchanged |
| RestartRuns.RunsStaySteady | crates/hypersync/src/source_engine.rs:310-530 | every engine reached by polls, acknowledgements, external controls and synchronization whose pages land is steady and at rest, or one staged round away from it |
| RestartRuns.RestartAnywhere | crates/hypersync/src/source_engine.rs:246-438 | at every acknowledgement of every such sequence: a data cursor restores the engine that kept going if and only if its page resumes, and a control cursor restores one that stages the replacement again |
| RestartRuns.CrashIsInvisible | crates/hypersync/src/managed_provider.rs:571-665 | after a crash at a resuming page, whatever calls follow, the restored engine goes through the same states as the one that never stopped |
| RestartRuns.FreshIsReady | crates/hypersync/src/source_engine.rs:214-236 | a new engine meets the starting condition of these theorems |
| Pipeline.ProgressIff | crates/event-service/src/session_store.rs:868-1062 | a staged page may follow the acknowledged cursor if and only if it does not go behind that cursor or its head |
| Pipeline.SavedIff | crates/event-service/src/session_store.rs:388-464 | the store saves what is in flight if and only if its frame fits and: a page has matching headers and goes on; a control's blocks can be told apart; a replacement has matching headers and a canonical tip |
| Pipeline.PageAtCursorGoesOn | crates/hypersync/src/source_engine.rs:310-402 | a page fetched at the cursor never goes behind it |
| Pipeline.StaysLinked | crates/hypersync/src/managed_provider.rs:571-612 | over every sequence of poll, save and acknowledge exchanges the acknowledged cursor is the engine's position, the promise stands exactly between a control and its replacement, and every row loads |
| Pipeline.NextIsWelcome | crates/event-service/src/session_store.rs:388-464 | wherever such a sequence has come to, the next delivery is refused only for what SavedIff names, and a page fetched at the cursor only for its size or headers |
| Pipeline.StartsLinked | crates/hypersync/src/managed_provider.rs:644-665 | every activated row that covers nothing yet starts such a sequence |
| Restart.RewindThenApply | crates/hypersync/src/canonical.rs:41-115 | rewinding to the ancestor first and applying the same rows gives the same history without a reorg |
| HybridWitness.MergeCommutes | crates/remote/src/hybrid.rs:6804-6847 | merging two witnesses does not depend on the side, nor does being defined |
| HybridWitness.MergeAssociates | crates/remote/src/hybrid.rs:6403-6439 | grouping does not matter, for the value nor for being defined |
| HybridWitness.MergeIsJoin | crates/remote/src/hybrid.rs:6804-6828 | a merge is the least witness that extends both, and exists exactly when some witness extends both |
| HybridWitness.ExtendsIsKnowing | crates/remote/src/hybrid.rs:6804-6847 | extending means the same input, no less final, with every optional fact the other has; with the join this fixes the merge |
| HybridWitness.ArrivalOrderDoesNotMatter | crates/remote/src/hybrid.rs:6796-6828 | the stored witness depends only on what was seen, not on order or repetition |
| HybridAudience.MergeIsUnion | crates/remote/src/hybrid.rs:4523-4555 | merged audiences of installed owners reach the union of recipients and list them in order |
| HybridAudience.ResidualAudience | crates/remote/src/hybrid.rs:4708-4758 | the partition loop computes the specified residual, in normalized list form |
| HybridAudience.ResidualIsDifference | crates/remote/src/hybrid.rs:4708-4758 | the residual reaches exactly the requested recipients that have not seen the input, and is absent exactly when all have |
| HybridAudience.CoverAudience | crates/remote/src/hybrid.rs:4760-4791 | records every reached owner at its current generation |
| HybridAudience.CoverIsUnion | crates/remote/src/hybrid.rs:4760-4791 | coverage afterwards is coverage before plus the recipients reached |
| HybridDedup.MergeBatch | crates/remote/src/hybrid.rs:2791-2816 | duplicates inside a batch are merged into their first occurrence |
| HybridDedup.FilterRecent | crates/remote/src/hybrid.rs:2787-2876 | outputs and commits are the residuals against the journal |
| HybridDedup.CommitAudiences | crates/remote/src/hybrid.rs:5019-5065 | acknowledged audiences are folded in and touched entries move to the back |
| HybridDedup.OutputsAreUnseen | crates/remote/src/hybrid.rs:2787-2876 | a batch reaches exactly the recipients it requests that have not yet seen the input |
| HybridDedup.ServedAtMostOnce | crates/remote/src/hybrid.rs:2787-2876 | over every sequence of batches with their own rewinds, lifecycle changes and evictions, no recipient is served an input twice at one generation unless its entry was dropped in between |
| HybridDedup.ServedIsAsked | crates/remote/src/hybrid.rs:4995-5065 | since an input was last dropped, the recipients served are exactly those requested; a batch that drops an input it carries owes nothing to those served before |
| HybridJournal.CountOwnerEntries | crates/remote/src/hybrid.rs:5857-5865 | the total of owner associations |
| HybridJournal.RequiredDrop | crates/remote/src/hybrid.rs:5775-5855 | the least number of entries the identity and owner budgets force out |
| HybridJournal.RecentInputs.Fit | crates/remote/src/hybrid.rs:5775-5855 | keeps the longest suffix that meets every budget and contains the protected suffix; fails before dropping anything exactly when there is none, with the error of the first thing the protected suffix alone breaks |
| HybridHistory.ApplyCanonicalMutations | crates/remote/src/hybrid.rs:5925-6024 | the mutation loop is the specified fold, stopping at the first refused mutation; what the fold retains is `HybridHistory.AllContents` |
| HybridHistory.SeedReorgAncestors | crates/remote/src/hybrid.rs:5867-5895 | inserts missing rewind targets below the head |
| HybridHistory.RewindOtherSource | crates/remote/src/hybrid.rs:5897-5923 | rewinds the source that did not report the reorg, clearing its cursors when it moves |
| HybridHistory.ApplyOneOk | crates/remote/src/hybrid.rs:5925-6024 | every successful mutation keeps a history strictly ascending, within capacity and ending at its head, and only a rewind or reset lowers the head |
| HybridHistory.AdvanceAbove | crates/remote/src/hybrid.rs:5925-6037 | advancing above the head keeps every retained block, appends the new one, and drops the oldest only at capacity |
| HybridHistory.AdvanceInside | crates/remote/src/hybrid.rs:5925-6037 | advancing to a retained height enriches that block alone |
| HybridHistory.AdvanceOutside | crates/remote/src/hybrid.rs:5925-6037 | advancing below the head to a height that is not retained is refused |
| HybridHistory.RewindMeaning | crates/remote/src/hybrid.rs:5925-6037 | rewinding keeps exactly the blocks below the ancestor and ends at it, merged with what was known |
| HybridHistory.OneContents | crates/remote/src/hybrid.rs:5925-6037 | after one mutation every retained block was retained before and spared or is named by it, and every spared block is still there unless the bound crowded it out |
| HybridHistory.AllContents | crates/remote/src/hybrid.rs:5925-6037 | the same over any sequence of mutations |
| HybridHistory.SeedMeaning | crates/remote/src/hybrid.rs:5867-5895 | seeding inserts the missing ancestor in its place and nothing else, or refuses a contradicting one |
| HybridHistory.RewindOtherMeaning | crates/remote/src/hybrid.rs:5897-5923 | what the other source holds after one rewind: left alone behind the ancestor, otherwise its blocks below it followed by it; when that is refused; and its cursors go exactly when its head drops |
| HybridHistory.OthersMeaning | crates/remote/src/hybrid.rs:5897-5923 | the same over all ancestors of a plan: cursors are cleared exactly when some rewind lowered the head |
| HybridHistory.SourceContents | crates/remote/src/hybrid.rs:5094-5141 | what the committing source retains after seeding, mutations, progress and observation |
| HybridHistory.ObservedIsKnown | crates/remote/src/hybrid.rs:5094-5141 | the observed block is the source's head, with everything the observation knows of it, unless the source is already past it |
| HybridHistory.CommitMeaning | crates/remote/src/hybrid.rs:4995-5180 | the committed ledger field by field: next main track, reporting source with the plan's token, checkpoint and digest, the other source rewound or reset |
| HybridHistory.SurvivesIff | crates/remote/src/hybrid.rs:5066-5085 | the certified proof survives exactly the mutations that neither reset nor rewind below it |
| HybridHistory.CertifiedAfter | crates/remote/src/hybrid.rs:5142-5173 | a surviving proof of this generation never decreases, and a new one comes only from a historical observation |
| HybridHistory.CommitKeepsLedger | crates/remote/src/hybrid.rs:4995-5180 | every successful commit keeps all three histories well formed and the proof at or below both heads |
| HybridHistory.RunsKeepLedger | crates/remote/src/hybrid.rs:3010-3034 | so does every sequence of successful and refused commits |
| HybridHistory.ProofNeverDecreases | crates/remote/src/hybrid.rs:5142-5173 | over any sequence of commits that spare it the proof never goes down |
| HybridHistory.Coordinator.CommitCoordinator | crates/remote/src/hybrid.rs:3010-3034 | installs the candidate only when every part of the commit succeeds |
| HybridHistory.Coordinator.CommitSource | crates/remote/src/hybrid.rs:5094-5141 | the committing source's track after seeding, mutations, progress and observation |
| HybridCutover.Subscriber.FinishAcknowledgedCutoverIfReady | crates/remote/src/hybrid.rs:2200-2225 | an acknowledged page that already reached a late fence completes the cutover, and draining starts only at an acknowledged fence |
| HybridCutover.Subscriber.Buffer | crates/remote/src/hybrid.rs:2227-2300 | the first canonical live batch fixes the fence at the preceding block, and a cutover it completes is at an acknowledged fence |
| HybridCutover.Subscriber.EmitHistoricalPage | crates/remote/src/hybrid.rs:2302-2359 | the first page at or past the fence becomes the pending cutover |
| HybridCutover.Subscriber.EmitBufferedLive | crates/remote/src/hybrid.rs:2614-2690 | pops until a batch has something above the boundary; an empty buffer goes live |
| HybridPump.DrainExact | crates/remote/src/hybrid.rs:2614-2690 | draining skips exactly the batches with no token, no control and no height above the boundary, hands out what is left of the next, and goes live when there is none |
| HybridPump.AboveExact | crates/remote/src/hybrid.rs:2614-2690 | what is left of a batch is exactly its heights above the boundary |
| HybridPump.BufferExact | crates/remote/src/hybrid.rs:2227-2300 | a batch is refused exactly when it carries a token over no heights; the first heights set the fence just below their last |
| HybridPump.AcknowledgedThrough | crates/remote/src/hybrid.rs:3570-3654 | while history fills, what is acknowledged through is the highest page so far |
| HybridPump.CutoverAcknowledged | crates/remote/src/hybrid.rs:3570-3654 | acknowledging the cutover page starts draining behind its last height, or goes live when nothing is buffered |
| HybridPump.AlwaysPrompt | crates/remote/src/hybrid.rs:3361-3475 | over every sequence of steps at most one live token is buffered, and history that reaches the fence has cut over |
| HybridPump.PollPrompt | crates/remote/src/hybrid.rs:3361-3475 | so does every poll, however its children answer |
| HybridCutover.Subscriber.NextBatch | crates/remote/src/hybrid.rs:3361-3475 | the polling loop over all phases is the specified poll, and draining starts in it only at a fence an acknowledged delivery has reached |
| HybridCutover.PollIsRun | crates/remote/src/hybrid.rs:3361-3475 | one poll is a sequence of the modelled steps, so what holds of all sequences of steps holds of it |
| HybridCutover.Subscriber.AcknowledgeDelivery | crates/remote/src/hybrid.rs:3570-3654 | the acknowledgement of the pending cutover starts draining through it, at a fence it has reached |
| HybridCutover.DrainingNeedsAcknowledgedFence | crates/remote/src/hybrid.rs:3361-3475 | every step, the excluded two included, enters draining only with a fence an acknowledged historical delivery has reached |
| HybridCutover.RunsKeepAcknowledgedFence | crates/remote/src/hybrid.rs:3361-3475 | the invariant behind it holds along every sequence of steps |
| HybridCutover.StepKeeps | crates/remote/src/hybrid.rs:2614-2690 | each step but two keeps the exposed heights without a gap: a live child that comes back elsewhere behind a fence, and a batch lost while draining |
| HybridCutover.DrainsWholeIff | crates/remote/src/hybrid.rs:2614-2690 | from any state without a gap, alternating drains and acknowledgements leaves none if and only if the buffered heights meet what is exposed |
| HybridCutover.CutoverExact | crates/remote/src/hybrid.rs:2200-2225 | so at every cutover out of a state without a gap, whatever stopped or was lost before, draining leaves none if and only if the buffer meets the reach |
| HybridCutover.JoinedRunsStayWhole | crates/remote/src/hybrid.rs:3361-3475 | whatever stops, is lost or comes back, no height is skipped as long as every cutover joins |
| HybridCutover.EveryHeightExposed | crates/remote/src/hybrid.rs:3361-3475 | across catching up, draining, live and recovery every height from the start cursor to the reach is exposed |
| HybridCutover.NoHeightSkipped | crates/remote/src/hybrid.rs:3361-3475 | below any exposed height no height from the start cursor is missing |
| HybridCutover.LiveStopSkipsHeight | crates/remote/src/hybrid.rs:3455-3466 | a concrete sequence in which a live child fails behind a set fence, comes back further on, and a height is skipped |
| HybridCutover.LostBatchSkipsHeight | crates/remote/src/hybrid.rs:2660-2666 | a concrete sequence in which a deep reorg while draining skips a height |
| HybridLifecycle.RequestsRestore | crates/remote/src/hybrid.rs:6947-7140 | whatever earlier calls left behind, finishing every compensating call puts a child back on the recorded topology |
| HybridLifecycle.RollbackCovers | crates/remote/src/hybrid.rs:3663-4516 | the rollback recorded before the live call covers everything the change may touch |
| HybridLifecycle.ReconcileKeeps | crates/remote/src/hybrid.rs:6891-7075 | compensation keeps both children restorable and is clear only when both are restored and no gap is left |
| HybridLifecycle.OperateKeeps | crates/remote/src/hybrid.rs:3263-3359 | every lifecycle operation keeps the invariant however each of its awaits ends |
| HybridLifecycle.ChildrenAgreeWhenClear | crates/remote/src/hybrid.rs:3663-4516 | over every sequence of operations, no rollback pending means both children hold the recorded topology |
| HybridLifecycle.DeliveryNeedsAgreement | crates/remote/src/hybrid.rs:3361-3378 | over every sequence of operations, at any moment something may be delivered or acknowledged both children hold the recorded topology |
| HybridLifecycle.CoverageFrozen | crates/remote/src/hybrid.rs:3570-3581 | from the operation that records an ordinary rollback to the event that clears it, nothing may be delivered or acknowledged and coverage stays where it was |
| HybridLifecycle.FailedChangeLatches | crates/remote/src/hybrid.rs:6891-6945 | an ordinary change to an active filter after coverage that does not commit stays pending or poisons |
| HybridLifecycle.CompensatedEndsPoisoned | crates/remote/src/hybrid.rs:7077-7090 | in every continuation its completed compensation means the coordinator is poisoned |
| HybridLifecycle.FailedGlobalReplacementRecovers | crates/remote/src/hybrid.rs:6915-6930 | a failed global replacement keeps its rollback or stages the recovery from the covered block |
| HybridChanges.StoppedIff | crates/remote/src/hybrid.rs:3663-4516 | over its arguments, a change is refused exactly in the other mode, when the topology already is as asked, when a destructive change after coverage would leave something active, or when a bulk change names an owner twice |
| HybridChanges.ChangeCommits | crates/remote/src/hybrid.rs:3263-3359 | a change that is not refused and whose awaits finish leaves nothing pending and exactly the named effect on the record and both children: the given base, the given owners, each listed owner with its filter, the added owner, or the removed owner gone, and all others as they were |
| HybridChanges.EffectUnique | crates/remote/src/hybrid.rs:3663-4516 | a change has one effect |
| HybridChanges.OtherEndsKeepTheRecord | crates/remote/src/hybrid.rs:3663-4516 | every other end leaves the recorded topology as it was, and a refusal with nothing pending changes nothing at all |
| HybridChanges.LiveGoesFirst | crates/remote/src/hybrid.rs:4035-4168 | when the live call does not finish history was never called, and when history is dropped both calls are remembered by a rollback that records the topology |
| HybridChanges.FailureIsUndone | crates/remote/src/hybrid.rs:3263-3359 | a change that fails after the live call and is compensated in full leaves the coordinator as it was, except for the staged recovery of a global replacement and the poison of a disturbed active filter after coverage |
| HybridChanges.CompensationEnds | crates/remote/src/hybrid.rs:6891-7075 | when every compensating call finishes both children are back on the record with a recovery, a poison or nothing left; when one does not, the rollback stays |
| HybridChanges.GapIs | crates/remote/src/hybrid.rs:3663-4516 | the recorded gap is the covered head exactly when the change disturbs an active filter |
| HybridChanges.DisturbedEndsPoisoned | crates/remote/src/hybrid.rs:7077-7090 | a change that disturbs an active filter after coverage and does not finish can only end poisoned, in every continuation |
| HybridChanges.GlobalFailureRecovers | crates/remote/src/hybrid.rs:6915-6930 | a failed global replacement, compensated in full, may deliver again and its next poll is the recovery and nothing else |
| HybridChanges.WaitsForOthers | crates/remote/src/hybrid.rs:6891-6945 | while a recovery is staged every change is refused, and while an owner rollback is pending so is a base registration |
| HybridLifecycle.Coordinator.ReconcilePending | crates/remote/src/hybrid.rs:6891-7075 | historical then live compensation keeps both children restorable, and a clear verdict means both hold the recorded topology |
| HybridLifecycle.Coordinator.Perform | crates/remote/src/hybrid.rs:3663-4516 | record the rollback, call live, then history, commit only when both finish; however each await ends both children stay restorable and coverage does not move; the effect of each change is `HybridChanges.ChangeCommits` |

## Left out

- The gRPC session loop, leases, timeouts, metrics and authorization of the event service: input and output around the modelled store.
- SQLite, schema migration and protobuf encoding: a row is a record with atomic update, and the size of a frame is a parameter.
- Consensus-header reconstruction and RLP: a row carries its encoded header as an opaque optional value, and whether the store's library reads it as the row's header is a parameter.
- Keccak digests, epochs and synthetic tokens of the coordinator: identities and digests are plain values.
- The `evm-fork-cache` crate's canonical sequence validator: in the history module it appears as the condition that a staged commit's next track is the current one with its mutations applied, and in the cutover module as a free choice between success and a need for history.
- Restore preparation, byte accounting and saturated capacity probes of the coordinator: tied to a codec this model does not contain.
- Error texts: validators answer yes or no, and errors keep their kind only.
- PayloadRules.ValidateDeliveryPayload: answers yes or no instead of naming the first violated rule.
- SessionStore.ValidatePersistedSession: every loader error is one corrupt-row verdict.
- QueryPlan.CompileQuery: does not model a rejection by the provider's own filter builder, because widths and positions are checked before it.
- Normalize.NormalizePage: distinguishes malformed rows, headers and logs but not the field at fault.
- SourceEngine.LiveEngine.NextBatch: the provider's answers are one function of the query during a single call; between calls they may change freely.
- The baseline probes made when an engine is rebuilt for a new revision: not part of this model.
- EngineCalls.FirstFit: is for an engine that retains blocks or already has its anchor; while neither holds, every try looks for an anchor anew.
- HybridWitness.MergeIsJoin: merging is a function of two values; that a failed merge may already have updated part of its left argument is not modelled, because callers discard it.
- HybridDedup.FilterRecent: representations without a generic body-equivalence proof, which the source keeps side by side, are not modelled, and witness conflicts are left to the witness module.
- HybridJournal.RecentInputs.Fit: the final codec validation after the drop is not modelled, and the size test is any test that does not turn false as more entries are dropped.
- HybridCutover.NoHeightSkipped: works on heights, assumes both children send consecutive or overlapping heights, and avoids the two steps shown to skip heights; JoinedRunsStayWhole includes them and asks instead that every cutover joins. Lifecycle changes are the subject of the lifecycle module.
- HybridCutover.Subscriber.Buffer: the bounds of the live buffer and repeated delivery tokens are not modelled.
- RestartRuns.RestartAnywhere: is for sequences whose pages land. Every page fetched at the cursor lands, and so does every page that replaces a branch; a page fetched by fork recovery that only repeats retained rows below the tip does not, and what follows it is not covered.
- Pipeline.StaysLinked: starts at an engine with the row's revision; the activation of a new revision and the external controls it needs are not part of an exchange.
- HybridLifecycle.Coordinator.Perform: preflight checks are one refusal flag, the backfill variants of adding an owner differ only in what the historical child replays, and a child call that fails or is dropped is taken to touch only what it was asked to change.
- HybridHistory.Coordinator.CommitCoordinator: asks that the staged plan came from the sequence validator named above, since the plan carries that validator's result.
- ForkSearch.AncestorIsGreatest: asks that all probes answer from one parent-linked chain; a provider that switches branches during the search is not covered.
