# A verified model of Token Foundry: its billing pipeline and control plane

This project models, in Dafny, the parts of the repository that carry hard promises: the hub's
usage emitter, the capture importer, the stream rewriting and translation, the gateway's map of
per-key limits and audit flags, the issue of keys and the withdrawal of audit consent, the
deploy and teardown of accounts, the aggregation and charting of usage, the money arithmetic, and
the swap of credentials under a lock. `dafny verify dfyconfig.toml` checks everything.

## How it is built

Each part that changes state step by step comes as a state machine on values and, where the
source runs code on an object or a module's globals, as a class or method proved against that
machine.

- **Interleaving.** A step of a state machine is a stretch of the source without an `await` (or,
  for the control plane, without an external call). A run is any sequence of steps of any number
  of tasks. External calls succeed, fail, or fail after taking effect, as each machine says.
- **Emitter** (`EmitterSpec`, `EmitterProofs`, `EmitterInvariants`, `EmitterRuns`, `EmitterCauses`,
  `EmitterClose`, `Emitter`). The places a record can be in are a send under way, the retry queue, a running pass,
  the SDK's buffer, delivered, given up and leaked. `Apply` is the step relation; every step has a
  method of `UsageEmitter` that is proved equal to its function. `EmitterClose` puts the shutdown's
  steps in their order.
- **Importer** (`CaptureDocuments`, `CaptureSpec`, `CaptureProofs`, `CaptureContents`, `CaptureColumns`,
  `CaptureImporter`, `CaptureRefinement`, `CaptureProgress`, `CaptureDrain`). Any number of replicas
  list, import and write a shared watermark, each pass with the table of markups it read; blobs
  appear while they do. The visibility assumption is `CaptureSpec.Visible`. `CaptureRefinement` shows
  that a call of the importer's method is a sequence of the protocol's steps, `CaptureDrain` how soon
  such calls have everything in the store.
- **Streams** (`SseFraming`, `SseRewriter`, `SseAccounting`, `SseChunks`, `SseScans`,
  `StreamTranslator`, `StreamReading`, `StreamGrammar`, `StreamContents`). Events end at a blank line, as in section 9.2.6 of the WHATWG HTML standard,
  restricted to two line feeds. JSON reading and printing is an abstract pair that round-trips.
- **Gateway map** (`KeyLimits`, `KeyLimitsText`, `KeyLimitsCas`, `KeyLimitsOutcomes`,
  `KeyLimitsWriter`). The map's JSON text is modelled
  down to its escapes, because its length is what the cap looks at. Conditional writes follow
  If-Match, section 13.1.1 of RFC 9110.
- **Keys and consent** (`ConsentSpec`, `ConsentProofs`, `ConsentRepair`, `ConsentMeaning`,
  `ControlPlane`).
- **Accounts** (`AccountsSpec`, `AccountsProofs`, `AccountsRuns`, `AccountsRouting`,
  `AccountsTeardown`, `AccountsOutcomes`, `AccountsRaces`, `AccountWorker`).
- **Usage** (`Timestamps`, `IsoReading`, `Billing`, `Aggregation`, `AggregationProofs`, `Trend`, `TrendProofs`).
- **Credentials** (`TokenSwap`, `TokenClient`).

## What turned out to be false, and exactly when

- A cancelled drain pass, or a failed batch that cannot be iterated, drops records uncounted;
  nothing else does (`EmitterRuns.LeaksOnlyByThese`). The module's accounting claim leaves these out.
- `aclose` counts what is left last, but a record parked on the way starts a new drainer that nobody
  awaits. The books balance exactly when, as the count is taken, no emit waits, no pass holds a
  record and no buffer does (`EmitterClose.CloseTellsTheTruth`). A failed send in the final drain is
  enough to break it (`EmitterClose.SecondDrainerKeeps`), and so is a record handed back by the flush
  (`EmitterClose.RevivedDrainerHides`); a final drain that runs out of time leaks what it held
  (`EmitterClose.TimedOutDrainLeaks`). Counting before the flush would be right only if nothing
  else is under way and no callback parks anything (`EmitterClose.CountingFirst`).
- An over-full overlap window stops the import for good, however the listing grows
  (`CaptureProgress.OverfullWindowStalls`); a pass advances exactly when the window is not over-full
  and a newer blob exists (`CaptureProgress.PassAdvances`).
- An event with an unparseable `ts` is not re-imported onto itself
  (`CaptureDocuments.BadTsDuplicates`), exactly because its document depends on the clock.
- Re-reading a blob is not always free: a pass that could not read the markups overwrites right
  bills (`CaptureRefinement.UnreadTableDropsMarkup`). It is free exactly when the table it read and
  the one the stored bill came from bill the event alike (`CaptureContents.ReimportIsNoOp`).
- Rewriting a Responses stream changes what a reader of it finds as usage exactly when the last
  chunk that reports one has it glued to choices and another inside `response`
  (`SseAccounting.RewriteKeepsAccounts`, `SseAccounting.ShadowedChunkExists`); a later ordinary
  usage makes up for it. The hub's own record is taken from the text before the rewriting and does
  not change.
- The translated stream is well-formed exactly when the tool indices allow it
  (`StreamGrammar.TranslationIsWellFormed`): a negative index leaves a block open or writes tool
  input into the text block.
- A bill can be below cost for a negative total (`Billing.CostIsExact`).
- Whether limits for a new key and the withdrawal of auditing from others both fit can depend on
  their order: exactly when the new entry does not fit, and the flags withdrawn make up for it
  (`KeyLimits.OrderDecidesExactly`). It does on a map of 114 ordinary audited keys
  (`KeyLimits.OrderCanDecideTheCap`).
- One read that comes without an etag can lose an update
  (`KeyLimitsCas.UntaggedReadLosesUpdate`). The stored map is the serial one throughout a run
  exactly when no write takes effect over a change to the fields it carries over or the entries it
  does not touch (`KeyLimitsCas.NoLostUpdate`).
- A toggle whose gateway write takes effect and then raises makes map and table disagree, and
  nothing else does (`ConsentProofs.RequestKeeps`). After such a switching-on, asking for auditing to
  be off succeeds and changes nothing while the gateway goes on auditing
  (`ConsentRepair.TornOnCannotBeSwitchedOff`); only asking for the same again repairs it
  (`ConsentRepair.OnlyRepeatingRepairs`).
- The comment that a stale map entry is harmless does not hold when its subscription could not be
  cancelled either: it is audited after consent is withdrawn (`ConsentProofs.OrphanOutlivesConsent`).
  A request leaves such a subscription exactly when it deletes an audited key with both calls lost,
  or issues one whose flag lands although the call raises and whose subscription cannot be cancelled
  (`ConsentProofs.StraysExactly`); without those, what is audited has consent
  (`ConsentProofs.AuditedMeansConsented`).
- Two accounts that create the same pool at once: one is dropped from it and still becomes ready
  (`AccountsRaces.CreationRaceDropsMember`). Only such a creation takes another account out of a
  pool (`AccountsRuns.OthersStayExactly`).
- A pool can lose its policy for good under a ready account, when the policy is taken off by a
  teardown that read the pool before that account joined (`AccountsRaces.StaleDetachStrandsPool`).
  A step takes routing from a ready account exactly by such a detach, or by making an account ready
  whose catalog did not bring the policy (`AccountsRouting.RoutedExactly`).
- A teardown that fails does not leave every resource intact, as its comment says: it does exactly
  when the first call that would change something is not reached or has no effect
  (`AccountsTeardown.TeardownTouchesExactly`). It can leave the policy gone
  (`AccountsTeardown.FailedDeleteLosesPolicy`) or the account out of some pools only
  (`AccountsTeardown.FailedReadLeavesHalf`).
- The chart clips the partial hour or day before its first slot although the totals count it
  (`TrendProofs.ChartMissesExactly`). It can miss a row of its window exactly when it is hourly, or
  the day has not come as far as the hours by which the window exceeds its whole days
  (`TrendProofs.ChartCanMissExactly`).
- A cancelled credential swap is not undone (`TokenSwap.CancelledSwapStays`). A login during a
  renewal can leave a token of the old credentials cached: exactly when it leaves another token
  current than the one the renewal began with (`TokenSwap.RenewalMatchesExactly`). A login during a
  swap that is refused is undone with it, unless it stored what was there before
  (`TokenSwap.RefusedSwapKeepsLoginExactly`).

## Model

| member | source | states |
|---|---|---|
| EmitterRuns.RunKeepsAccounts | vendored/gitmodel-hub/hub/eventhub.py:22-34 | In every state of every interleaving each emitted record is in exactly one place; its stamp is its number of failed hand-offs and its hand-overs stay within `max_attempts + 1`; the queue keeps its capacity; lost counts the given-up records once each; `dropped_count` covers losses and live stamps; recovered never exceeds retried. |
| EmitterProofs.StepConserves | vendored/gitmodel-hub/hub/eventhub.py:418-507 | One step, whatever it is, leaves every record in exactly one place. |
| EmitterProofs.StepTotal | vendored/gitmodel-hub/hub/eventhub.py:290-337 | For any weight that depends on the record only, the weight of all places grows by the newly emitted records and by nothing else. |
| EmitterInvariants.StepStamped | vendored/gitmodel-hub/hub/eventhub.py:254-284 | Every step keeps stamps equal to failed hand-offs and within the bound, in every place a record can be. |
| EmitterInvariants.StepCounted | vendored/gitmodel-hub/hub/eventhub.py:133-148 | Every step keeps the order of the counters: drops against losses and live stamps, recoveries against retries. |
| EmitterRuns.DropsOnlyWhen | vendored/gitmodel-hub/hub/eventhub.py:592-631 | With Event Hub enabled a step drops records uncounted if and only if it cancels a pass that still held something, or is an error callback whose non-empty batch cannot be iterated. |
| EmitterRuns.LeaksOnlyByThese | vendored/gitmodel-hub/hub/eventhub.py:22-34 | With Event Hub enabled, nothing has leaked in a run if and only if no earlier step was one of those two. |
| EmitterRuns.LeaksExactly | vendored/gitmodel-hub/hub/eventhub.py:290-322 | Nothing has leaked exactly when no earlier step dropped anything. |
| EmitterRuns.BooksBalance | vendored/gitmodel-hub/hub/eventhub.py:22-34 | Once nothing is on its way, emitted = delivered + lost + leaked, and leaked is zero when Event Hub is enabled and no pass was cancelled and no batch was unreadable. |
| EmitterClose.CloseTellsTheTruth | vendored/gitmodel-hub/hub/eventhub.py:592-631 | After the close, whatever steps came between its own, the queue is empty; and emitted = delivered + lost + leaked if and only if, as the count was taken, no emit waited, no pass held a record and no buffer did. Then, with no cancelled pass and no unreadable batch, nothing leaked. |
| EmitterClose.OrderlyCloseIsQuiet | vendored/gitmodel-hub/hub/eventhub.py:600-631 | When emits were over before the close and none began, none waits at the end; and when the flush was callbacks alone, no pass holds a record at the end if and only if none did as the producer was dropped. |
| EmitterClose.SecondDrainerKeeps | vendored/gitmodel-hub/hub/eventhub.py:504-507 | A whole close, with nothing cancelled and every batch readable, whose final drain fails to send its record: a second drainer holds it as the producer is dropped and to the end, neither delivered nor counted. |
| EmitterClose.FinalDrainTakesAll | vendored/gitmodel-hub/hub/eventhub.py:606-610 | Once the deadlines are reset, the final drain takes the whole queue, in order. |
| EmitterClose.CountingFirst | vendored/gitmodel-hub/hub/eventhub.py:592-597 | With the count before the flush, the books balance if and only if nothing else was under way then and no error callback of the flush parks a record. |
| EmitterClose.CountingFirstLoses | vendored/gitmodel-hub/hub/eventhub.py:623-631 | A run in which that order leaves a record in no column of the books. |
| EmitterClose.TimedOutDrainLeaks | vendored/gitmodel-hub/hub/eventhub.py:606-610 | A whole close whose final drain is cut off in a send: one record emitted, none delivered, none counted, one leaked. |
| EmitterClose.RevivedDrainerHides | vendored/gitmodel-hub/hub/eventhub.py:451-473 | A whole close during whose flush a parked record starts a drainer, which hands it to a new producer: neither delivered nor counted. |
| EmitterRuns.HandOverBudget | vendored/gitmodel-hub/hub/eventhub.py:418-437 | All hand-overs of a run together are at most `max_attempts + 1` per emitted record. |
| EmitterCauses.FlagsTellWhy | vendored/gitmodel-hub/hub/eventhub.py:340-388 | In every run: a hub without Event Hub never has a producer nor a failed start, one with it is never switched off, and a producer or a failed start goes back to a step of the run that built one or failed to. |
| EmitterCauses.EmitGoesByFlag | vendored/gitmodel-hub/hub/eventhub.py:564-580 | The first use decides the flag and later ones keep it; what is emitted then goes to the SDK, is counted as lost, or is dropped silently, by flag. |
| EmitterCauses.UnconfiguredIsSilent | vendored/gitmodel-hub/hub/eventhub.py:340-361 | In every run of a hub without Event Hub nothing is handed over or parked; what is counted are unencodable records and reported drops, and without those nothing is lost or counted, however much is emitted. |
| EmitterCauses.PassWithoutProducer | vendored/gitmodel-hub/hub/eventhub.py:481-487 | A pass that finds no producer leaves the queue alone after a failed start; only without Event Hub is it given up, and counted. |
| EmitterCauses.ReinitConnects | vendored/gitmodel-hub/hub/eventhub.py:510-527 | After a failed start with records waiting, one start that succeeds gives the producer and clears the flag. |
| EmitterCauses.StepCauses | vendored/gitmodel-hub/hub/eventhub.py:133-148 | Which cause each step is counted under and how often: a failed batch as its length but at least once, failed sends, drops, starts, retries and encodings each under their own. |
| EmitterCauses.StepRecovers | vendored/gitmodel-hub/hub/eventhub.py:325-337 | Recoveries are the retried ones among the events a success callback sees, once something was handed over again. |
| EmitterCauses.OverflowGivesUpOldest | vendored/gitmodel-hub/hub/eventhub.py:418-437 | A record with attempts left is parked last with its deadline, and what does not fit is given up from the front; one without is given up itself. |
| EmitterCauses.PassTakesDue | vendored/gitmodel-hub/hub/eventhub.py:489-494 | A pass takes an item exactly when its deadline has come, and otherwise leaves it, in order. |
| Emitter.UsageEmitter.EnsureProducer | vendored/gitmodel-hub/hub/eventhub.py:340-388 | Produces the producer singleton or sets one of its two flags, as the step function says. |
| Emitter.UsageEmitter.Park | vendored/gitmodel-hub/hub/eventhub.py:418-437 | The eviction loop leaves the queue of the step function: oldest items given up until one more fits, or the record given up when its attempts are used up. |
| Emitter.UsageEmitter.AbandonQueue | vendored/gitmodel-hub/hub/eventhub.py:440-448 | Every queued record is given up, counted once. |
| Emitter.UsageEmitter.ReportDrop | vendored/gitmodel-hub/hub/eventhub.py:226-235 | A reported drop counts as emitted and lost. |
| Emitter.UsageEmitter.Emit | vendored/gitmodel-hub/hub/eventhub.py:552-580 | The part of `emit` before its await, with all four ways it can go. |
| Emitter.UsageEmitter.EmitSent | vendored/gitmodel-hub/hub/eventhub.py:581-589 | The part of `emit` after its await. |
| Emitter.UsageEmitter.TakeDue | vendored/gitmodel-hub/hub/eventhub.py:489-494 | The loop splits the queue into what is due and what is not, in order. |
| Emitter.UsageEmitter.DrainStart | vendored/gitmodel-hub/hub/eventhub.py:476-494 | A pass begins: no producer, an abandoned queue, or the due items moved into the pass. |
| Emitter.UsageEmitter.HandNext | vendored/gitmodel-hub/hub/eventhub.py:496-503 | The next item of a pass goes into its send, and the retry is counted. |
| Emitter.UsageEmitter.RetrySent | vendored/gitmodel-hub/hub/eventhub.py:496-507 | The end of that send, or the failure to build its event: the item is in the buffer, or parked again with its attempt counted. |
| Emitter.UsageEmitter.PassCancelled | vendored/gitmodel-hub/hub/eventhub.py:496-507 | Cancellation inside a send passes the handler by: what the pass held is in no counter. |
| Emitter.UsageEmitter.TryAgainToConnect | vendored/gitmodel-hub/hub/eventhub.py:510-528 | With a failed start and a non-empty queue the producer is built again, and not otherwise. |
| Emitter.UsageEmitter.ExpireQueue | vendored/gitmodel-hub/hub/eventhub.py:606-608 | The loop makes every queued record due, when there is a producer. |
| Emitter.UsageEmitter.ResetProducer | vendored/gitmodel-hub/hub/eventhub.py:612-614 | The close forgets the producer and both of its flags, and touches no record. |
| Emitter.UsageEmitter.OnError | vendored/gitmodel-hub/hub/eventhub.py:290-322 | The error callback counts the batch and parks or gives up each of its events. |
| Emitter.UsageEmitter.OnErrorOpaque | vendored/gitmodel-hub/hub/eventhub.py:304-314 | A batch that cannot be iterated counts as one failure, and nothing of it is parked. |
| Emitter.UsageEmitter.OnSuccess | vendored/gitmodel-hub/hub/eventhub.py:325-337 | The success callback counts as recovered exactly the retried ones of the events it gets to see, whatever number that is. |
| CaptureProofs.ImportSafety | app/services/usage_capture_import.py:289-338 | In every run of any number of replicas, cut off anywhere, with the 500-blob cap and a watermark that may regress, every blob older than the watermark less ten minutes has all its keyed events in the store. |
| CaptureProofs.PendingIsPrefix | app/services/usage_capture_import.py:305-316 | A pass handles a prefix, sorted by time, of the recent blobs: nothing older than a handled blob is left out, and below the cap nothing at all. |
| CaptureContents.ReimportIsNoOp | app/services/usage_capture_import.py:46-57 | In every reachable state of a consistent feed, with a table of markups of its own for every pass: an event behind the watermark is stored, billed by the table of some pass, and importing it again sets its bill to that of the table now read; that changes nothing if and only if the two bill the event alike. |
| CaptureContents.RunFaithful | app/services/usage_capture_import.py:90-187 | In every run, whatever the clocks and tables: everything in the store is the document of some event that was written, made with the table of some pass. |
| CaptureContents.ConflictingEventsOverwrite | app/services/usage_capture_import.py:90-187 | Two events with one key and different documents cannot both be re-imported for free. |
| CaptureDocuments.ClockMattersOnlyForBadTs | app/services/usage_capture_import.py:60-81 | An event's document is independent of the clock exactly when its `ts` parses or it has no request id. |
| CaptureDocuments.BadTsDuplicates | app/services/usage_capture_import.py:60-81 | An unparseable `ts` re-imported in another month lands under another key. |
| CaptureDocuments.ReimportIsIdempotent | app/services/usage_capture_import.py:90-187 | For an event with a parseable `ts` the last import alone decides what is stored, whatever the times and tables of the earlier ones. |
| CaptureColumns.DocumentHasColumns | app/services/usage_capture_import.py:90-187 | Only an event with a request id makes a document, and its columns are: that id; the time given or the clock; subscription and route as given or "unknown"; the partition of subscription, year and month; cost the rounded nano total and bill the rounded marked-up one, priced only if there is a total, an unknown route at no markup; the tokens summed by kind, or else the hub's counts without cache writes. |
| CaptureColumns.PassStoresColumns | app/services/usage_capture_import.py:318-333 | After a pass, cut off anywhere, each event it got to that is the last of its key lies in the store under its own partition and id with those columns. |
| CaptureColumns.RunStoresColumns | app/services/usage_capture_import.py:289-338 | In every run each stored document has the columns of some written event under the table of some pass. |
| CaptureImporter.UsageCaptureImporter.ImportBlob | app/services/usage_capture_import.py:318-333 | The loop over a blob's events stores the documents of the events up to where it raises, and no others, and counts those with and without a request id. |
| CaptureImporter.UsageCaptureImporter.RunOnce | app/services/usage_capture_import.py:289-338 | A pass, cut off at a download or at any event, leaves the store of the events it got to and a watermark that covers finished blobs only; its counters are exact; only a database error while reading the watermark escapes, and then nothing has changed. |
| CaptureRefinement.PassIsProtocol | app/services/usage_capture_import.py:289-338 | From any state and any listing the storage may give, the store and watermark such a pass leaves are reached by steps of the protocol, so every state after any passes is one of its reachable states. |
| CaptureRefinement.UnreadTableDropsMarkup | app/services/usage_capture_import.py:190-206 | A reachable state with an event billed at its markup, and one after it in which a pass that could not read the table has billed it at none. |
| CaptureProgress.PassAdvances | app/services/usage_capture_import.py:300-338 | A failure-free pass advances the watermark if and only if some blob is newer and the overlap window holds fewer than 500 blobs. |
| CaptureProgress.BacklogShrinks | app/services/usage_capture_import.py:300-338 | A pass that advances leaves fewer newer blobs. |
| CaptureProgress.BacklogDrains | app/services/usage_capture_import.py:300-338 | While the listing grows, with every ten-minute stretch sparse, each blob not older than the overlap is handled within as many passes as there are blobs between the watermark and it, and one more. |
| CaptureProgress.FreshStartDrains | app/services/usage_capture_import.py:300-338 | With no watermark at all, each is handled within as many passes as there are blobs not newer than it, and one more. |
| CaptureDrain.BacklogIsImported | app/services/usage_capture_import.py:289-338 | From any state and with blobs written all along, steps of that many failure-free passes lead to a state in which the blob has its keyed events in the store. |
| CaptureDrain.AllIsImported | app/services/usage_capture_import.py:289-338 | Over one listing: after more passes than it has blobs, all of them that are recent are in the store. |
| CaptureProgress.OverfullWindowStalls | app/services/usage_capture_import.py:52-57 | An over-full overlap window stops the import: however the listing grows, the watermark stays put and no later pass handles any newer blob. |
| SseFraming.ChunksDoNotMatter | vendored/gitmodel-hub/hub/server.py:870-885 | However a text is cut into chunks, buffering finds the events and the rest of the whole text. |
| SseFraming.SplitAppend | vendored/gitmodel-hub/hub/server.py:870-877 | Splitting a text with more appended is splitting it, then splitting the rest with more appended. |
| SseFraming.StripIs | vendored/gitmodel-hub/hub/server.py:615-618 | Stripping takes the white space off both ends, all of it, and nothing else. |
| SseFraming.SpacesAre | vendored/gitmodel-hub/hub/server.py:615-618 | The code points that count as white space. |
| SseRewriter.Passthrough | vendored/gitmodel-hub/hub/server.py:847-885 | On normal completion the yielded pieces together are the line-by-line rewriting of everything received, and what is collected is everything received. |
| SseRewriter.Flush | vendored/gitmodel-hub/hub/server.py:875-877 | The inner loop yields every complete event rewritten and keeps the rest. |
| SseRewriter.OutputIsRewrite | vendored/gitmodel-hub/hub/server.py:860-885 | Rewriting event by event is rewriting the whole text line by line. |
| SseChunks.RewriteKeepsChoices | vendored/gitmodel-hub/hub/server.py:551-609 | Read line by line, the rewritten stream has the choices of the source, all of them, in order. |
| SseChunks.SplitKeepsFields | vendored/gitmodel-hub/hub/server.py:588-603 | A chunk with usage next to choices becomes two: the first has every field but the usage unchanged, the second the usage, no choices and the same id, created, model and system_fingerprint; both are stamped. |
| SseChunks.OtherChunksKeepFields | vendored/gitmodel-hub/hub/server.py:604-609 | Any other chunk keeps all its fields and is stamped. |
| SseChunks.FalsyValues | vendored/gitmodel-hub/hub/server.py:590-590 | No usage is null, false, a zero or anything empty. |
| SseAccounting.RewriteIsIdempotent | vendored/gitmodel-hub/hub/server.py:551-609 | Rewriting a rewritten stream changes nothing, and no chunk of it carries usage next to non-empty choices. |
| SseAccounting.RewriteKeepsAccounts | vendored/gitmodel-hub/hub/server.py:551-633 | The copilot_usage scan on every stream, and the usage scan on every chat stream, read the same before and after the rewriting; on a Responses stream the usage scan does if and only if it raises or the last line that reports a usage is not a shadowed chunk. |
| SseAccounting.LineKeepsUsage | vendored/gitmodel-hub/hub/server.py:612-633 | Line by line, the usage scan is unchanged if and only if the line is not a shadowed chunk of a Responses stream (or the scan has raised). |
| SseAccounting.ShadowedChunkChangesUsage | vendored/gitmodel-hub/hub/server.py:612-633 | A Responses stream of one shadowed chunk reads as the usage inside `response` before the rewriting and as the top-level one after it. |
| SseAccounting.ShadowedChunkExists | vendored/gitmodel-hub/hub/server.py:551-609 | A concrete chunk: two tokens in all before the rewriting, one after it. |
| SseAccounting.LaterUsageMakesUp | vendored/gitmodel-hub/hub/server.py:612-633 | Whatever came before, a last line with an ordinary usage makes the two readings agree. |
| SseAccounting.ParseSseUsage | vendored/gitmodel-hub/hub/server.py:612-633 | The loop computes the usage scan, or raises where the scan raises. |
| SseScans.UsageFound | vendored/gitmodel-hub/hub/server.py:612-633 | The scan raises if and only if some payload is not an object; otherwise it finds what the last line that reports a usage reports, on a Responses stream the one inside `response` before the one at the top. |
| SseAccounting.ScanSseCopilotUsage | vendored/gitmodel-hub/hub/server.py:335-378 | The loop computes the copilot_usage scan. |
| SseScans.CopilotFound | vendored/gitmodel-hub/hub/server.py:335-378 | The scan finds the copilot_usage object of the last line that has one, at the top or else inside `response`. |
| StreamTranslator.StreamOpenAiToAnthropic | vendored/gitmodel-hub/hub/anthropic_adapter.py:526-676 | The events yielded are the translation of the whole text, whatever the chunks it arrived in. |
| StreamTranslator.ProcessBuffer | vendored/gitmodel-hub/hub/anthropic_adapter.py:562-566 | The loop over the buffer translates every complete record and keeps the rest. |
| StreamTranslator.ProcessRecord | vendored/gitmodel-hub/hub/anthropic_adapter.py:510-523 | The data lines of one record are translated in order; lines without a JSON payload and `[DONE]` are passed over. |
| StreamTranslator.ProcessChunk | vendored/gitmodel-hub/hub/anthropic_adapter.py:567-648 | One chunk: usage and finish reason noted, text put into the text block, tool calls into theirs. |
| StreamReading.StreamReadsBack | vendored/gitmodel-hub/hub/anthropic_adapter.py:510-566 | Round trip: payloads that read as given chunks, one record each, with comments and other fields between and `[DONE]` at the end, cut anywhere, are translated as those chunks. |
| StreamReading.TextIsRead | vendored/gitmodel-hub/hub/anthropic_adapter.py:510-523 | Of any records, every payload but `[DONE]` is read, and no other line is. |
| StreamReading.TranslateStream | vendored/gitmodel-hub/hub/anthropic_adapter.py:526-676 | The coroutine, on any cutting of such a stream, yields the translation of the chunks. |
| StreamGrammar.TranslationIsWellFormed | vendored/gitmodel-hub/hub/anthropic_adapter.py:526-676 | The output is message_start, blocks numbered 0, 1, 2, … with deltas of their kind only while open and exactly one stop each, then message_delta and message_stop, if and only if every tool delta has a non-negative index or is an empty one with index -1 after text. |
| StreamContents.TextIsKept | vendored/gitmodel-hub/hub/anthropic_adapter.py:584-612 | A client that assembles the output gets all the source's text in one text block, and no text block when there is none. |
| StreamContents.CallsAreKept | vendored/gitmodel-hub/hub/anthropic_adapter.py:614-648 | Every tool called under a non-negative index has a block of its own, holding its first id and name and all its arguments in order. |
| StreamContents.ClosingIsKept | vendored/gitmodel-hub/hub/anthropic_adapter.py:650-676 | The stop reason is max_tokens, tool_use or end_turn by the last finish reason, and the output tokens are those of the last usage. |
| KeyLimits.Dumps | app/services/apim_provisioner.py:204-210 | Written in any order of the keys, the JSON text has the length the cap looks at. |
| KeyLimitsText.TextReadsBack | app/services/apim_provisioner.py:860-882 | Round trip: the text of a map, written in any order of its keys, reads back as the map, escapes and surrogate pairs included. |
| KeyLimits.MergeKeyLimit | app/services/apim_provisioner.py:169-211 | The key's limits are set and its flag carried over, an empty entry is dropped, and a text over 4000 characters is refused. |
| KeyLimits.MergeAuditFlag | app/services/apim_provisioner.py:214-244 | The loop sets or clears the flags of the listed keys, dropping emptied entries, under the same cap. |
| KeyLimits.FieldsSet | app/services/apim_provisioner.py:169-251 | For each key, exactly which limits and which flag hold after each of the three changes: neither touches the other's fields or any other key. |
| KeyLimits.ChangeIsInForce | app/services/apim_provisioner.py:169-251 | After each change its keys have the flag, its key has the limits, or its key is absent. |
| KeyLimits.LimitsAndAuditCommute | app/services/apim_provisioner.py:185-188 | Setting limits and setting flags commute on every map. |
| KeyLimits.MergesCommute | app/services/apim_provisioner.py:169-244 | With the cap checked after each, the two orders end alike if and only if both first steps fit or neither does, or the result does not fit anyway; when both succeed they agree. |
| KeyLimits.OrderDecidesExactly | app/services/apim_provisioner.py:169-244 | Limits for a new key and the withdrawal of auditing from others: each order is refused if and only if the length with the new entry, less six characters a flag withdrawn before it, is over the cap. |
| KeyLimits.OrderCanDecideTheCap | app/services/apim_provisioner.py:204-210 | On a map of 114 ordinary audited keys, one more ordinary key can be issued after auditing is withdrawn from any four or more of them, and not before. |
| KeyLimits.ManyIds | app/api/keys.py:59-59 | There are that many distinct key ids. |
| KeyLimits.ReachableMapsFit | app/services/apim_provisioner.py:145-149 | Every map reached from a sound one, removals included, has no empty entry and fits, and there switching auditing off never fails. |
| KeyLimits.AuditOffShrinks | app/services/apim_provisioner.py:214-244 | Switching auditing off never lengthens the text. |
| KeyLimitsCas.NoLostUpdate | app/services/apim_provisioner.py:860-963 | For any interleaving and any failures, with or without etags: the stored map is the committed operations applied one after another in commit order, at every moment of the run, if and only if no write took effect over a change that mattered to it. |
| KeyLimitsCas.StepKeeps | app/services/apim_provisioner.py:860-963 | The same for one step, together with all that is known of the calls. |
| KeyLimitsCas.SameMerge | app/services/apim_provisioner.py:152-251 | The map made of what was read is the map made of what is stored if and only if they agree on the entries the operation does not touch and the fields it carries over. |
| KeyLimitsCas.LossIsBlind | app/services/apim_provisioner.py:875-889 | A write that loses something had no etag and a commit since its read. |
| KeyLimitsCas.TaggedLosesNothing | app/services/apim_provisioner.py:860-889 | If all reads carry etags no write loses anything. |
| KeyLimitsCas.EveryCallAtMostOnce | app/services/apim_provisioner.py:891-963 | In every run, updates lost or not, an ended call was committed exactly once, or never because it was a no-op or over the cap on the map stored at some moment of it, or because three other commits beat it, or it met an error; a running one has committed nothing and lost less than three times. When no update is lost that map is the serial one. |
| KeyLimitsOutcomes.AnswersAreTrue | app/services/apim_provisioner.py:891-963 | In every run a call that says it was written, or that there was nothing to do, has what it asked for in force as it ends and until somebody writes; one with nothing to do set no limits and found a map that its change leaves as it is. |
| KeyLimitsOutcomes.NothingExactly | app/services/apim_provisioner.py:936-939 | There is nothing to do if and only if the call sets no limits and its change leaves the map as it is. |
| KeyLimitsCas.StoredMapsAreSound | app/services/apim_provisioner.py:860-963 | From a sound map, what is stored is always sound, lost updates or not. |
| KeyLimitsCas.UntaggedReadLosesUpdate | app/services/apim_provisioner.py:875-889 | One read without an etag: both calls succeed, and the removal committed between that read and its write is undone. |
| KeyLimitsWriter.NamedValue.Update | app/services/apim_provisioner.py:891-963 | The three-round loop, with other writers between each read and write, ends as the protocol promises: written or with nothing to do, what it asked for is in force; with nothing to do it changed nothing and had nothing to change; it only raises an error other than a conflict if a read or a write failed, and leaves a serial map unless a read without an etag had others writing after it. |
| KeyLimitsWriter.NamedValue.WriteBack | app/services/apim_provisioner.py:875-889 | One write of a round, answered or not: what it commits is serial if and only if nothing that matters has changed since the read. |
| KeyLimitsWriter.NamedValue.Put | app/services/apim_provisioner.py:875-889 | A write under an etag is accepted exactly when the etag is current; one without goes out under `*` and is accepted always. |
| ConsentProofs.ConsentAgrees | app/api/tenants.py:94-118 | After any requests, with any external call failing in any way but a torn toggle, each key's gateway entry is its row's limits and its tenant's audit flag, and its subscription and secret exist. |
| ConsentMeaning.ConsentChanges | app/api/tenants.py:70-90 | A tenant's consent is what the last toggle that got through asked for; a new tenant has given none, and no other request touches it. |
| ConsentMeaning.NobodyAskedNobodyAudited | app/api/tenants.py:94-118 | In every run a tenant for whom nobody asked for auditing is not audited. |
| ConsentMeaning.KeysAreProvisioned | app/api/keys.py:42-57 | In every run each key belongs to a project of a tenant that has a product. |
| ConsentMeaning.IssueGivesAll | app/api/keys.py:59-126 | An issue whose calls work gives row, subscription and secret, the row's limits and the tenant's flag at the gateway, and changes no other key. |
| ConsentMeaning.DeletionUndoesIssue | app/api/keys.py:146-174 | Deleting an issued key, all calls working, restores everything as it was before the issue, except that the id is spent. |
| ConsentProofs.RequestKeeps | app/api/keys.py:42-126 | One request keeps that agreement if and only if it is not a toggle whose gateway write takes effect and then raises. |
| ConsentRepair.TornOnCannotBeSwitchedOff | app/api/tenants.py:86-88 | After such a switching-on, a request for auditing to be off succeeds and changes nothing, and the gateway audits every key of the tenant. |
| ConsentRepair.OnlyRepeatingRepairs | app/api/tenants.py:86-120 | Right after it, a toggle of the tenant restores agreement if and only if it asks for the same again and the gateway returns. |
| ConsentRepair.RepairsExactly | app/api/tenants.py:86-120 | Whenever only flags of one tenant with a key are wrong, its toggle restores agreement if and only if it asks for what the table does not say, the map fits and the gateway returns. |
| ConsentProofs.OrphansExactly | app/api/keys.py:146-174 | A request leaves a live subscription without a row exactly in the listed failures. |
| ConsentProofs.SecretsExactly | app/api/keys.py:96-107 | A request leaves a vault secret without a row exactly in the listed failures. |
| ConsentProofs.StraysExactly | app/api/keys.py:42-174 | A request leaves some live subscription without a row audited at the gateway if and only if it deletes an audited key with both calls lost, or issues one for an audited tenant whose flag lands although the call raises and whose subscription cannot be cancelled. |
| ConsentProofs.AuditedMeansConsented | app/api/tenants.py:94-118 | After any requests without those and without torn toggles, a live subscription the gateway audits has a row, and its tenant consents now. |
| ConsentProofs.OrphanOutlivesConsent | app/api/keys.py:158-170 | Deleting a key with the gateway unreachable and then withdrawing consent leaves the subscription live and audited, though the withdrawal succeeds. |
| ControlPlane.Portal.CreateKey | app/api/keys.py:42-126 | Issue with its checks, its order of effects and its rollback; the row exists only on success; each answer is given in its own case. |
| ControlPlane.Portal.DeleteKey | app/api/keys.py:146-174 | The row goes whatever the gateway and the vault say. |
| ControlPlane.Portal.UpdateTenant | app/api/tenants.py:70-90 | Gateway first, row second; on failure the table is unchanged; each answer is given in its own case. |
| AccountsProofs.AccountsAreSafe | app/api/github_accounts.py:560-722 | In every interleaving of deploys and teardowns with any call failing or the process dying: no pool lists a member whose hub is gone, existing pools are non-empty and duplicate-free, and an account without a row has no hub and is in no pool. |
| AccountsProofs.RowsVanishLast | app/api/github_accounts.py:693-714 | A row vanishes only in the last step of a teardown, out of all pools and with its hub destroyed. |
| AccountsProofs.StepKeeps | app/services/apim_provisioner.py:1215-1267 | Every step keeps the invariant, including that what a task read still stands if the ETag does. |
| AccountsRuns.OneTeardownCleans | app/api/github_accounts.py:627-716 | From every reachable state one teardown without failures leaves nothing of the account and every other account as it was. |
| AccountsRuns.OneDeployServes | app/api/github_accounts.py:560-624 | From every reachable state one deploy without failures makes a pending account ready, its hub up, a member of all three pools, with the policies it registered in place, and every other account as it was. |
| AccountsRuns.TeardownUndoesDeploy | app/services/apim_provisioner.py:1168-1206 | A deploy followed by a teardown leaves nothing of the account and every other account as it was. |
| AccountsRuns.DeletedOnlyDetached | app/services/apim_provisioner.py:1334-1345 | A pool delete is only tried by a task whose last step took the policy off. |
| AccountsOutcomes.DeployOutcome | app/api/github_accounts.py:560-624 | A deploy by itself ends ready if and only if every call it makes works, their number told by the pools; otherwise the first that does not decides: failed, or as it was when the process died. |
| AccountsOutcomes.TeardownOutcome | app/api/github_accounts.py:627-716 | A teardown by itself ends without a row if and only if every call but the erasing works and that takes effect; otherwise the row stays, failed if a call before raised. |
| AccountsOutcomes.TaskGoesOn | app/api/github_accounts.py:560-722 | Whatever runs beside it, a task goes on exactly while its calls work and what it read still stands. |
| AccountsOutcomes.RequestsStartTasks | app/api/github_accounts.py:261-356 | An account is added as pending, only a pending one is authorized, and a deletion waits for its task. |
| AccountsRuns.OthersStayExactly | app/services/apim_provisioner.py:1252-1265 | A step takes another account out of a pool if and only if it creates, over that account's head, a pool that was absent when read. |
| AccountsRuns.ReadyAccountsServe | app/api/github_accounts.py:594-616 | In every run without such a creation, a ready account is in all three pools and its hub is up (for the policies see AccountsRouting.ReadyAccountsAreRouted). |
| AccountsRaces.CreationRaceDropsMember | app/services/apim_provisioner.py:1252-1265 | A run from the start at whose end no task is left, two accounts are ready, and one of them is not in the first pool: both found it absent. |
| AccountsRaces.StaleDetachStrandsPool | app/services/apim_provisioner.py:1334-1345 | A run from the start at whose end no task is left, an account is ready and in all pools, and the first pool has no policy: it was taken off by a teardown that had read the pool before that account joined. |
| AccountsRouting.PolicyHistory | app/services/apim_provisioner.py:1168-1206 | In every run a pool that has members lacks its policy if and only if the last thing that bore on it was a detach, or nothing was registered for it since it was created. |
| AccountsRouting.RoutedExactly | app/api/github_accounts.py:594-616 | A step keeps every ready account routed in every pool it is in if and only if it does not take the policy off under one, and does not make one ready whose catalog did not bring the policy. |
| AccountsRouting.OnlyStaleDetachUnroutes | app/services/apim_provisioner.py:1334-1345 | A policy is only taken off under a ready account by a task whose ETag no longer stands. |
| AccountsRouting.ReadyAccountsAreRouted | app/api/github_accounts.py:594-616 | In every run without such steps and without clobbering creations, a ready account is in all three pools, each with its policy, and its hub is up. |
| AccountsTeardown.TeardownTouchesExactly | app/api/github_accounts.py:630-658 | However a teardown ends, every pool, policy and hub is as before if and only if the first call that would change one is not reached or has no effect. |
| AccountsTeardown.FailedDeleteLosesPolicy | app/api/github_accounts.py:630-658 | A failed pool delete leaves the account failed, its pool alive and the policy gone, so that nothing changed if and only if there was none. |
| AccountsTeardown.FailedReadLeavesHalf | app/api/github_accounts.py:630-658 | A failed read of the second pool leaves the account failed, out of the first pool, and the policy in place. |
| AccountWorker.Worker.DeployAccount | app/api/github_accounts.py:560-624 | The deploy task by itself, with any calls failing, does what the state machine does. |
| AccountWorker.Worker.TeardownAccount | app/api/github_accounts.py:627-716 | The teardown task by itself, with any calls failing, does what the state machine does. |
| AccountWorker.Worker.AddService | app/services/apim_provisioner.py:1215-1267 | Joining one pool: already a member, appended, or created. |
| AccountWorker.Worker.RemoveService | app/services/apim_provisioner.py:1289-1351 | Leaving one pool: not a member, written back without it, or policy off and pool deleted. |
| Timestamps.StringOrderIsTimeOrder | app/services/usage_ingest.py:320-324 | Comparing two stored timestamps as strings compares the instants, with or without a fraction. |
| Timestamps.PrefixesNameBuckets | app/services/usage_ingest.py:525-533 | The 13-character prefix is equal exactly when the UTC hour is, the 10-character prefix exactly when the day is. |
| IsoReading.IsoReads | app/services/usage_capture_import.py:60-81 | A printed timestamp says its date-time, field by field: each number in its place, a fraction of six digits only when there is one, and the offset of UTC. |
| Timestamps.DaysFaithful | app/services/usage_capture_import.py:60-81 | Calendar dates are ordered as their day numbers, leap years included. |
| Billing.CostIsExact | app/services/billing.py:33-41 | The 11-place cost of any nano total, fractional ones included, is within half a unit of it, and loses nothing if and only if the total is whole; with a non-negative markup, billed is at least cost for a non-negative total, and for a whole one if and only if it is non-negative or its markup rounds away. |
| Billing.RoundOfTie | app/services/billing.py:69-73 | A number halfway between two goes to the even one. |
| Billing.BilledDrift | app/services/billing.py:69-96 | The billed sum of n rows at one markup is within n/2 units of 10^-11 USD of (1 + markup) times the cost sum. |
| Billing.Summarize | app/api/usage.py:129-142 | The loop's sums are those of the four columns, nulls counting zero, and money is rounded to the nearest fourth place at the end. |
| Billing.SummaryIsNearBill | app/api/usage.py:129-142 | The summary of rows billed at one markup is within half a unit a row, and half of the fourth place, of the marked-up exact cost. |
| Billing.SummaryDrift | app/api/usage.py:129-142 | The summary is within that drift plus half of the fourth place. |
| Billing.TokensFromCopilotUsage | app/services/billing.py:99-123 | The loop over the token entries equals the fold. |
| Billing.TokensAreSums | app/services/billing.py:99-123 | Each token count is the sum over the entries of its kind. |
| Aggregation.Bucket.Accumulate | app/services/usage_ingest.py:396-422 | One row folded into a bucket, nulls counting zero and an unknown status counting as served. |
| Aggregation.CostTotals | app/services/usage_ingest.py:470-488 | The totals are the fold of all rows. |
| Aggregation.Buckets | app/services/usage_ingest.py:449-456 | The dictionary holds, in an object of its own per key, the fold of that key's rows. |
| Aggregation.GroupedIs | app/services/usage_ingest.py:449-456 | A key has an entry exactly when it occurs, and the entry is the fold of its rows. |
| Aggregation.CostBreakdown | app/services/usage_ingest.py:424-468 | The groups, costliest first and at most 500; no group left out costs more than one kept. |
| AggregationProofs.CallsSplit | app/services/usage_ingest.py:396-422 | Calls are served plus failed ones, and failed ones are the sum of the per-status counts, under statuses of at least 400 only. |
| AggregationProofs.FoldIsSum | app/services/usage_ingest.py:396-422 | Each field of a bucket is the sum of what its rows say. |
| AggregationProofs.BreakdownSays | app/services/usage_ingest.py:449-468 | Field by field each listed group says what the rows of its name say, a row without a name going under "unknown"; below the limit every row's name is listed. |
| AggregationProofs.BreakdownConserves | app/services/usage_ingest.py:475-480 | Field by field, the groups before the cut add up to the independent totals. |
| AggregationProofs.CutConserves | app/services/usage_ingest.py:458-468 | After the cut the listed groups add up to exactly the rows of the listed groups. |
| Trend.CostTrend | app/services/usage_ingest.py:506-560 | Exactly the computed number of consecutive slots ending now, each the fold of the rows named like it, zero where there are none. |
| TrendProofs.PointsAreTheirRows | app/services/usage_ingest.py:525-533 | Each point is the fold of the rows timed in its own hour or day. |
| TrendProofs.SlotsAreSpaced | app/services/usage_ingest.py:536-560 | One slot an hour for up to 48 hours and one a day for more, as many as cover the window, evenly spaced from full hours or midnights, the last one holding the clock reading. |
| TrendProofs.WindowReach | app/api/usage.py:41-51 | A row in the window is in one of the slots or in the stretch just before the first. |
| TrendProofs.ChartPlusBeforeIsTotals | app/services/usage_ingest.py:536-560 | Column by column, the points and the rows timed just before the first slot add up to the totals. |
| TrendProofs.ChartMissesExactly | app/services/usage_ingest.py:540-543 | The chart's calls are the window's calls if and only if no row is timed in the stretch just before the first slot. |
| TrendProofs.WindowIsCutExactly | app/services/usage_ingest.py:540-543 | Some instant of the window lies in that stretch if and only if the chart is hourly, or the time of day is less than the hours by which the window exceeds the days before the last. |
| TrendProofs.ChartCanMissExactly | app/api/usage.py:41-51 | Some chart of rows of the window misses calls under the same condition, and under no other. |
| TokenSwap.CachedTokenIsCurrent | vendored/gitmodel-hub/hub/copilot_client.py:178-231 | In every interleaving of requests and swaps, failures and cancellations included, a cached API token was exchanged from the OAuth token the hub would use now, lock held or not. |
| TokenSwap.RenewsExactly | vendored/gitmodel-hub/hub/copilot_client.py:178-187 | A request starts an exchange, with the stored token before the deployed one, if and only if none is under way, the cached token has five minutes or less left, and there is a token to start it with. |
| TokenSwap.MatchesThroughout | vendored/gitmodel-hub/hub/copilot_client.py:131-231 | In every run from a fresh start, with logins and logouts at any moment, the cache matches after every step if and only if no exchange returned late. |
| TokenSwap.RenewalMatchesExactly | vendored/gitmodel-hub/hub/copilot_client.py:178-187 | A renewal, whatever comes in while it waits, leaves a matching cache if and only if the last login or logout meanwhile left current the token it began with. |
| TokenSwap.SwapMatchesExactly | vendored/gitmodel-hub/hub/copilot_client.py:215-231 | A proven swap does if and only if the last login or logout meanwhile left the token it installed current. |
| TokenSwap.RefusedSwapKeepsLoginExactly | vendored/gitmodel-hub/hub/copilot_client.py:215-229 | A refused swap restores store and cache over any login meanwhile, which survives if and only if it stored what was there before. |
| TokenSwap.RefusedRenewalKeepsLogin | vendored/gitmodel-hub/hub/copilot_client.py:178-187 | A refused renewal leaves the last login or logout standing. |
| TokenSwap.FailureChangesNothing | vendored/gitmodel-hub/hub/copilot_client.py:215-229 | Whatever requests come in meanwhile, an exchange that raises leaves store and cache exactly as they were. |
| TokenSwap.SwapInstalls | vendored/gitmodel-hub/hub/copilot_client.py:215-231 | One that returns leaves the new token stored and its API token cached. |
| TokenSwap.CancelledSwapStays | vendored/gitmodel-hub/hub/copilot_client.py:222-229 | A cancelled swap is not undone. |
| TokenSwap.LoginDuringRenewal | vendored/gitmodel-hub/hub/copilot_client.py:131-147 | A login while a renewal awaits its exchange leaves the old token's API token cached. |
| TokenClient.Credentials.GetApiToken | vendored/gitmodel-hub/hub/copilot_client.py:178-187 | A cached token with more than five minutes left is returned; otherwise a new one from the stored or else the deployed token, or the error of its own case. What is returned is cached and belongs to the current credentials. |
| TokenClient.Credentials.InstallOauthToken | vendored/gitmodel-hub/hub/copilot_client.py:190-231 | Installed and proven, or everything as before. |

## Left out

Assumptions the results rest on:

- The SDK calls exactly one of its two callbacks for an event it took, a `send_event` that raises did not take the event, and cancellation of a task inside `emit` does not happen. Callbacks come from a producer there has been (`EmitterCauses.UnconfiguredIsSilent`).
- A blob missing from a listing is newer than the newest one listed less ten minutes; `ts` values are read into UTC date-times with four-digit years, offsets already applied.
- One background task per account: a deletion waits for the deploy to end. Reads of pools carry an ETag.
- Key and account ids are drawn fresh. Requests to the control plane come one at a time and their database commits succeed.
- A chunk of a stream never cuts a code point, and the JSON reader and printer round-trip.
- The chart and the window are computed from one clock reading.

Weaker than the source in some respect:

- StreamTranslator.StreamOpenAiToAnthropic: takes what `json.loads` reads of a payload as a given chunk, so payloads that are not objects (on which the source raises), finish reasons that are not strings and tool indices that are not integers are outside the model; a last event without its blank line is not translated, as in the source; message ids are left out, and generated tool ids come with the chunk.
- SseRewriter.Passthrough: models normal completion; the branches for an upstream error and a client disconnect are left out, and so is the record they emit.
- KeyLimitsWriter.NamedValue.Update: the three loops of the source are one method that differs by operation; a named value that does not exist, or whose text is not valid JSON, is not modelled apart from the empty map that both read as, the latter with its etag, whatever the docstring says; an untagged read of any other map stands for an SDK object without `e_tag`.
- Aggregation.CostBreakdown: does not say in which order groups of equal cost come; money is in whole units of 10^-11 USD where the source adds floats.
- Aggregation.CostTotals: the 20000-row cap of the query and the empty answers for an unconfigured store or a tenant without keys are not modelled; rows are those the query returned.
- Trend.CostTrend: takes windows of at most 90 days, to which the callers clamp, and a clock past the first years of the calendar, where subtracting the window cannot leave it; the printing of years below 1000 is outside the model.
- AccountsRuns.OneTeardownCleans: does not cover the Key Vault secrets and the per-account backends, which the source deletes as well as it can and never checks.
- CaptureImporter.UsageCaptureImporter.RunOnce: takes the decoded events of a blob as given, and one clock reading for the events of a pass whose `ts` does not parse; that a database error while reading the watermark escapes contradicts its docstring.
- ControlPlane.Portal.UpdateTenant: the name and mode of a tenant, which the same call may set, are not modelled.

Not modelled:

- Azure, GitHub and HTTP traffic, Key Vault, Avro, gzip, SQLAlchemy and SQLite: each is a call that succeeds or fails.
- `_backoff_seconds` and its jitter: deadlines are arbitrary.
- The portal, Terraform, scripts, policy XML, App Insights queries, login and role checks.
- `compute_cost`, `_parse_usage_tokens` and the Anthropic usage scanner: off these paths, or simple.
- Suspending keys and adding products: they touch neither the map nor the pools.
