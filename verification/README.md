# Verified model of the GitHub gateway, the City handoff and the mail launcher

This project models the durable part of gascity-compose in Dafny and proves what its protocols keep over whole runs:
with any number of workers and processes interleaving, late replies, lost replies, and stops between any two steps.

## What is modelled

**The gateway queue** (`PullRequest`, `GatewayQueue`, `GatewayRuns`, `GatewayStore`, `WorkerHealth`, `Worker`,
`Webhook`, `SourceKey`, with `PayloadForm`, `QueueHistory` and `WorkerStages`). A delivery goes through intake,
dispatch, harvest and project, one job row per stage. Each store method is one transaction, so it is one atomic step on
two tables. `GatewayQueue` gives the effect of each step as a function; `GatewayStore` is the class whose methods
update the tables and are proved equal to those functions, `claim` with its scanning loop. `GatewayRuns` runs arbitrary
sequences of calls with arbitrary ids, tokens and clock readings; `Fencing` and `Backoff` are about those. `Pipeline`
restricts calls to the ones workers make (with any ticket that `claim` ever handed out, however late) and proves that
every step is a stutter or one stage move of an abstract pipeline; `NeverStranded` and `Drain` build on it. `Worker`
has `process_one` and `worker_loop` on top of the store and the health record. Results about the pipeline are proved
for any classification of inputs (`judge`); `Pipeline.Classify` is the program's own. `PayloadForm` writes out which
payloads it takes. `QueueHistory` says what each call writes, column by column, and what the tables hold after any run
in terms of the calls alone; `WorkerStages` says the same of one turn of the worker, and what a turn needs to move a
delivery on.

**The crash-safe handoff** (`DirectChild`, `HandoffFormat`, `Handoff`, `HandoffSafety`, `HandoffSteps`, `HandoffStops`,
`HandoffPasses`, `HandoffOutcomes`). The App's adapter writes a receipt and then a marker; the City dispatcher finds or
creates one bead per marker and slings it; the harvester validates the closed bead's update into an outbox; the App's
publisher completes, projects, records a result and marks the receipt consumed. `HandoffFormat` builds receipts,
updates, patches and snapshots from their parts, and proves that the validators of both sides accept exactly what is
built from fitting parts. `Handoff` is the protocol, one durable write or one external effect per step; `HandoffSafety`
proves what every run keeps; `HandoffSteps` what each step finds and leaves, on the fields of the files; `HandoffStops`
says exactly when a published handoff stays unconsumed, and which files no pass gets to; `HandoffPasses` has the passes
themselves, as loops over files, each proved to be such a run; `HandoffOutcomes` says on the fields of the files
exactly when a pass delivers, files or publishes. `Publishers` lets any number of publishers run at once, over outbox
files that anybody may rewrite.

**The review path** (`Supersession`, `ReviewMarkers`, `ReviewMarkersPass`, `ReviewExport`, `ReviewExportPass`) and the
**mail launcher** (`QueuePaths`, `Launcher`, `LauncherClash`, `LauncherPass`) have the same two layers; the launcher's
queue is a map from paths to files and folders, with ids turned into paths as pathlib does, and with the folders that
are made on the way. The **Mayor's mail proxy** (`Proxy`) is recursion over JSON trees.

In the pass layers, outcomes of external commands, clock readings and the point where a process stops are parameters
(`Replies`, `Turn`, `Attempt`, `stopAfter`), and results hold for all their values. The ghost field `run` (or
`history`) of each class is the run of protocol steps its files result from, so every theorem about runs holds of the
files.

## What the proofs found

- The payload validator raises an exception that no caller catches in three cases: an `action` that is a list or an
  object (TypeError), nesting too deep for the decoder (RecursionError), and an integer with more digits than Python
  converts (a plain ValueError). The handler then sends no reply, and a worker that meets such a delivery leaves its loop
  with the job still leased. `Webhook.CrashCondition` says exactly when this happens, `Webhook.RawDeliveryCanCrash` gives
  inputs, and `Webhook.WebhookJobsNeverCrashWorkers` shows that deliveries that come through the handler never do it.
- A publisher that stops between its result receipt and the consumed mark can leave the handoff unconsumed for good,
  because later passes skip recorded handoffs. With one publisher such a stop is the only way to get there, and a sure one
  (`HandoffStops.SettledIff`, `HandoffStops.AnyHandoffCanBeStranded`). With several, the handoff is stranded exactly if
  every publisher that recorded a result for it stopped in this way (`Publishers.StrandedIff`); one that is still
  recording consumes it after all (`Publishers.OtherStillConsumes`).
- Two publishers can publish one handoff twice, but only if both began before the first result was durable
  (`Publishers.TwoResultsOverlap`, `Publishers.TwoCanPublish`). They then publish the same payload exactly if the outbox
  file was the same at both begins; if it is rewritten in between, they publish two (`Publishers.TwoPayloads`).
- Outbox files are never removed, and a pass considers the first 256 by name only. A file with 256 files before it is
  never published in any continuation (`HandoffStops.PublishedIffNotStarved`).
- A close of a reviewed bead that took effect, but whose outcome was lost, is later recorded as a change of ownership: the
  guard refuses the second try, because the bead is closed already (`ReviewExport.MisreadIff`,
  `ReviewExport.CloseCanBeMisread`).
- The launcher builds paths from authorization ids as they come. With ids that contain a slash, a response and a failure
  can exist for one request. `LauncherClash.BothIff` gives the exact condition for ids in which no '..' follows a name,
  `LauncherClash.ResponseOrFailure` the safe side for all ids, `LauncherClash.EscapingIdsClash` the witnesses x and
  '../failures/x'. Ids without a slash are safe (`LauncherClash.PlainIdsAreSafe`). Other ids can even replace an answer:
  '../responses/a/../x' that of x (`LauncherClash.ResponseCanBeLost`), which ids in which no '..' follows a name never do
  (`LauncherClash.AnswersAreKept`).
- An envelope whose body decodes to anything but an object ends the serving process, and it is fetched again after every
  restart. `LauncherPass.ReachesAllIff` says exactly when a round gets to all its envelopes.
- A response of the mail server in which one listed object has an unhashable name is passed on unfiltered, because the
  proxy treats the TypeError like an undecodable body. `Proxy.HiddenIff` is the exact condition for the filter's promise.
- A dispatched review of a lineage without any readable request is retired as if it were superseded
  (`Supersession.SupersededIff`, `ReviewMarkers.RetiredWithoutRequest`).
- A run id that is not a text is bound and sent, but never recorded or acknowledged (`Launcher.UnusableRunIds`).

## Model

| member | source | states |
|---|---|---|
| GatewayQueue.BestIsFirst | scripts/github_durable_gateway.py:289-311 | claim's query picks the unique first runnable row by stage, then newest delivery, then highest id, and none only if nothing is runnable |
| GatewayQueue.ClaimAgreesWithStatus | scripts/github_durable_gateway.py:284-378 | claim comes back empty exactly when queue_status counts zero; else it leases the unique first job and the count drops by exactly one |
| GatewayQueue.OldestAgreesWithCount | scripts/github_durable_gateway.py:340-378 | the oldest runnable job is absent exactly when the count is zero, and is unique |
| GatewayQueue.CountUpdate | scripts/github_durable_gateway.py:340-378 | changing one row changes the reported depth by exactly that row's runnability before and after |
| QueueHistory.StoredAsFirstSent | scripts/github_durable_gateway.py:237-255 | after any run a delivery is stored exactly if a call sent it, with event, payload and time of the first call that did |
| QueueHistory.ClaimTakesNewest | scripts/github_durable_gateway.py:284-326 | in any run no job that can be taken is at an earlier stage than the claimed one, and none of its stage belongs to a delivery first sent later |
| QueueHistory.EmptyClaim | scripts/github_durable_gateway.py:284-326 | a claim comes back empty only if no job can be taken |
| QueueHistory.ClaimWrites | scripts/github_durable_gateway.py:284-326 | a claim leases the job for 30 seconds under a new token, and the ticket has all of its columns |
| QueueHistory.AdvanceWrites | scripts/github_durable_gateway.py:257-282 | what advance writes, column by column, and when it appends the successor |
| QueueHistory.DelaySeconds | scripts/github_durable_gateway.py:380-403 | the delays are 2, 4, 8 and so on to 256 seconds, and 300 from the ninth attempt |
| QueueHistory.RetryWrites | scripts/github_durable_gateway.py:380-403 | what retry writes, column by column, with that delay |
| QueueHistory.FailWrites | scripts/github_durable_gateway.py:328-338 | what fail_input writes, column by column |
| GatewayRuns.RefusalChangesNothing | scripts/github_durable_gateway.py:237-416 | every refused call leaves both tables exactly as they were |
| GatewayRuns.ExecRows | scripts/github_durable_gateway.py:237-416 | any call changes at most the row it names, in one of the allowed ways, and appends at most one fresh row |
| GatewayRuns.ConstraintsAlways | scripts/github_durable_gateway.py:202-235 | the foreign key and UNIQUE(delivery_id, kind) hold after every run of calls with any arguments |
| GatewayStore.GatewayStore.EnqueueDelivery | scripts/github_durable_gateway.py:237-255 | a new delivery gets its row with the time of the call, and its intake job from then on; a known id changes nothing |
| GatewayStore.GatewayStore.Claim | scripts/github_durable_gateway.py:284-326 | the scan leases the first runnable row with a raised token and 30 seconds of lease |
| GatewayStore.GatewayStore.Advance | scripts/github_durable_gateway.py:257-282 | under the current token of a leased job: complete it and insert the successor if there is none; otherwise refuse |
| GatewayStore.GatewayStore.Retry | scripts/github_durable_gateway.py:380-403 | under the current token: release the job, count the attempt and delay it by the capped exponential backoff |
| GatewayStore.GatewayStore.FailInput | scripts/github_durable_gateway.py:328-338 | under the current token: the job fails for good |
| GatewayStore.GatewayStore.Complete | scripts/github_durable_gateway.py:405-416 | under the current token: the job ends without successor |
| GatewayStore.GatewayStore.Status | scripts/github_durable_gateway.py:340-378 | the depth is the number of runnable rows, and the reported oldest job is a longest-waiting one |
| Fencing.LeaseEndsOnce | scripts/github_durable_gateway.py:257-338 | in a whole run at most one of advance, retry, fail_input and complete succeeds for a job and token |
| Fencing.TokensIncrease | scripts/github_durable_gateway.py:284-326 | the tokens handed out for one job strictly increase from claim to claim |
| Fencing.FencedOff | scripts/github_durable_gateway.py:257-338 | after a job is claimed again, every later call of the earlier worker is refused |
| Fencing.LeaseExclusion | scripts/github_durable_gateway.py:284-326 | two successive claims of one job are separated by a successful retry or by at least 30 seconds |
| Backoff.BackoffHolds | scripts/github_durable_gateway.py:380-403 | with a clock that does not run back, each job's counters and next availability are those of its claim and retry history |
| Backoff.BackoffSumClosed | scripts/github_durable_gateway.py:380-403 | the sum of the capped delays is 2^k - 2 up to the ninth retry and 510 + 300(k - 9) from there |
| Backoff.RetriesAreSpread | scripts/github_durable_gateway.py:380-403 | attempts is the number of successful retries and at most the token; k retries take at least the sum of the k - 1 delays |
| Pipeline.EveryMoveRefines | scripts/github_durable_gateway.py:536-572 | every enqueue, claim, advance, retry or fail_input by any worker keeps the invariant and is a stutter or one abstract stage move |
| Pipeline.PipelineAlways | scripts/github_durable_gateway.py:27-27 | in every reachable store each delivery's jobs are a prefix of intake, dispatch, harvest, project, complete but for the last |
| Pipeline.SuccessorIsNew | scripts/github_durable_gateway.py:257-282 | the INSERT OR IGNORE of a successor always inserts |
| Pipeline.ReachedByCalls | scripts/github_durable_gateway.py:536-572 | every reachable store results from a run of raw store calls, so fencing and backoff hold of it |
| NeverStranded.NothingIsStranded | scripts/github_durable_gateway.py:237-403 | a delivery neither finished nor refused has exactly one unfinished job, and claim can take it at every time from 300 seconds after the latest clock reading |
| NeverStranded.FailedJobsAreBadInput | scripts/github_durable_gateway.py:544-556 | every failed job is the intake job of a delivery with an invalid event or payload |
| NeverStranded.GatedJobsNeverFail | scripts/github_durable_gateway.py:328-338 | if only valid deliveries are enqueued, no job fails in any run |
| Drain.FullPass | scripts/github_durable_gateway.py:536-572 | a successful pass over a ready queue takes the first job, uses up exactly one stage and leaves the queue ready |
| Drain.EmptyPass | scripts/github_durable_gateway.py:536-572 | a pass finds nothing exactly when no stage remains |
| Drain.QueueDrains | scripts/github_durable_gateway.py:284-326 | a ready queue is drained in exactly as many passes as stages remain, in strictly sorted order, and then every delivery is finished or refused |
| Worker.Handle | scripts/github_durable_gateway.py:547-572 | rejects, retries or advances the claimed job, and the health record hears of it only if the lease was still held |
| Worker.ProcessOne | scripts/github_durable_gateway.py:536-572 | store, health history and result of one pass are those of the claim and the one move made with its ticket; it raises exactly where the validator or the store does |
| WorkerStages.InputsTaken | scripts/github_durable_gateway.py:544-556 | the worker takes pull_request events with such a document, and rejects every other event |
| WorkerStages.FailedAttempt | scripts/github_durable_gateway.py:558-568 | with valid input but without the adapter's success, or past intake without durable evidence, a ticket's job is put off, one attempt higher, and does not count as worked |
| WorkerStages.SuccessfulAttempt | scripts/github_durable_gateway.py:558-572 | with both, the job completes as of its claim and its successor can be taken, if the lease is still the ticket's own |
| WorkerStages.FailedTurn | scripts/github_durable_gateway.py:536-572 | such a turn leaves the claimed row pending with the delay, appends none, and is idle |
| WorkerStages.SuccessfulTurn | scripts/github_durable_gateway.py:536-572 | the turn completes the claimed row and appends the next stage |
| WorkerStages.RejectedTurn | scripts/github_durable_gateway.py:544-556 | a rejected input fails the claimed row with the validator's message |
| WorkerStages.StageNeedsEvidence | scripts/github_durable_gateway.py:521-572 | in a reachable store a delivery leaves dispatch, harvest or project only in a turn whose attempt on it had adapter and evidence |
| WorkerStages.StagesAreEarned | scripts/github_durable_gateway.py:575-597 | over any number of turns, what is past such a stage was earned there in some turn |
| Worker.PassIsRun | scripts/github_durable_gateway.py:536-572 | one pass is a legal run of the pipeline system |
| Worker.LoopIsRun | scripts/github_durable_gateway.py:575-597 | the whole loop is a legal run of the pipeline system |
| Worker.LoopFinishes | scripts/github_durable_gateway.py:575-597 | with a ready queue and successful attempts the loop never raises, works exactly the remaining stages and finishes every delivery |
| Worker.WorkerLoop | scripts/github_durable_gateway.py:575-597 | the loop ends at the first pass that raises or at the interrupt, and the health record sees its start, every pass and its stop with the text of that exception |
| WorkerHealth.FoldAgrees | scripts/github_durable_gateway.py:36-109 | the kept fields equal the trace definition for every history of events |
| WorkerHealth.FailuresCountFromReset | scripts/github_durable_gateway.py:50-82 | failures count since the last start or progress, and the failure clock is the first of them |
| WorkerHealth.WorkerHealth.TakeSnapshot | scripts/github_durable_gateway.py:91-109 | the snapshot is the report read off the whole history, stalled included |
| WorkerHealth.WorkerHealth.Fail | scripts/github_durable_gateway.py:74-82 | records one failure and keeps the fields in agreement with the history |
| WorkerHealth.WorkerHealth.Stop | scripts/github_durable_gateway.py:83-90 | records one stop and keeps the fields in agreement with the history |
| Webhook.DoPost | scripts/github_docs_impact_webhook.py:95-139 | gives every request the reply of the first check it fails, written out on its headers and fields; acknowledges exactly the admitted deliveries whose row is durable, and stores nothing else |
| Webhook.WebhookJobsNeverFail | scripts/github_docs_impact_webhook.py:117-134 | handler and worker share the validation: behind the handler no job ever fails |
| Webhook.WebhookJobsNeverCrashWorkers | scripts/github_docs_impact_webhook.py:117-134 | behind the handler no worker's validator ever raises |
| Webhook.RawDeliveryCanCrash | scripts/github_durable_gateway.py:124-130 | inputs on which the validator raises something no caller catches |
| Webhook.CrashCondition | scripts/github_durable_gateway.py:124-133 | it raises exactly when the decoder raises something else than a decoding error, or an object has a list or an object as action |
| PayloadForm.AcceptedIff | scripts/github_durable_gateway.py:124-182 | the validator takes exactly the documents with these fields |
| PayloadForm.RejectedFor | scripts/github_durable_gateway.py:124-182 | any other payload is rejected with the message of the first check that fails, or makes the validator raise |
| PayloadForm.KeyForm | scripts/github_durable_gateway.py:472-480 | the source key is the prefix, the decimal id and number and the small head SHA with colons between |
| SourceKey.ScopeRoundTrip | scripts/github_docs_impact_city_dispatcher.py:73-78 | the scope of a valid delivery's key gives back its repository id and pull-request number |
| SourceKey.KeysIdentifyRevisions | scripts/github_durable_gateway.py:472-480 | two valid deliveries share a key exactly when repository id, number and case-folded SHA agree |
| SourceKey.SplitJoin | scripts/github_docs_impact_city_dispatcher.py:73-78 | splitting at colons undoes joining |
| SourceKey.ScopeForm | scripts/github_docs_impact_city_dispatcher.py:73-78 | a text has a scope exactly if it is four non-empty parts with colons between, the first of them github-pr, and the scope is the first three |
| DirectChild.SharedPart | scripts/github_docs_impact_city_dispatcher.py:283-307 | the City accepts exactly what the App takes, less completed updates whose patch does not fit the snapshot |
| HandoffFormat.TrustedForm | scripts/github_docs_impact_compose_adapter.py:94-118 | the App acts on a payload exactly if receipt, admission, payload and update have these fields with fitting values |
| HandoffFormat.TrustedIff | scripts/github_docs_impact_compose_adapter.py:94-118 | the same for the receipts of the model |
| HandoffFormat.HarvestedIff | scripts/github_docs_impact_city_dispatcher.py:283-307 | the harvester takes an update from a bead exactly if its metadata carry it and it has these fields, a complete one with a patch for the head of the marker's snapshot |
| HandoffFormat.PendingIff | scripts/github_docs_impact_city_dispatcher.py:165-199 | the dispatcher takes up exactly the waiting markers with these fields |
| HandoffFormat.PyEqIsSameValue | scripts/github_docs_impact_city_dispatcher.py:297-304 | equality of documents is equality piece by piece, with numbers and booleans by their value |
| DirectChild.Publishable | scripts/github_docs_impact_compose_adapter.py:94-118 | an outbox file made for a marker is trusted against the marker's receipt exactly until it is consumed |
| DirectChild.BoundaryAgreement | scripts/github_docs_impact_city_dispatcher.py:283-307 | every update the City accepts for a marker is accepted by the App against its receipt, if and only if the receipt is unconsumed |
| DirectChild.EqualPayloads | scripts/github_docs_impact_city_dispatcher.py:333-337 | an existing outbox file that Python finds equal to the payload passes the same validation |
| HandoffSafety.OneBeadPerChild | scripts/github_docs_impact_city_dispatcher.py:234-280 | with lost replies and stops anywhere, and whatever beads others add, at most one bead is created per child, snapshot and patch context |
| HandoffSafety.OneBeadInCity | scripts/github_docs_impact_city_dispatcher.py:202-231 | if nobody else adds beads with such metadata, no two beads of the City carry the same |
| HandoffSafety.BeadCarriesMarker | scripts/github_docs_impact_city_dispatcher.py:202-270 | the bead a marker records carries the child, snapshot and patch context of that marker |
| HandoffSafety.NothingIsLost | scripts/github_docs_impact_city_dispatcher.py:234-280 | bead ids once set, bead keys, consumed marks and results never change in a run |
| HandoffSafety.OutboxIsWriteOnce | scripts/github_docs_impact_city_dispatcher.py:310-347 | a result file never changes once the harvester wrote it |
| HandoffSafety.OutboxedIsValidated | scripts/github_docs_impact_city_dispatcher.py:310-347 | a marker is outboxed only if its file holds an update for its own child and context, a complete one with a patch for its own head |
| HandoffSafety.MarkerHasReceipt | scripts/github_docs_impact_compose_adapter.py:444-457 | every marker has an earlier receipt with the same child and patch context |
| HandoffSafety.OutboxedIsPublishable | scripts/github_docs_impact_compose_adapter.py:94-118 | in every run the file of an outboxed marker is trusted by the App exactly until its receipt is consumed |
| HandoffSteps.EveryStepFits | scripts/github_docs_impact_city_dispatcher.py:202-347 | in every run each step of adapter, dispatcher, harvester and publisher finds and leaves what its form says |
| HandoffSteps.IntakeFits | scripts/github_docs_impact_compose_adapter.py:410-457 | a receipt is written once, and a marker only for an unconsumed receipt, with the child and context of its admission |
| HandoffSteps.DispatcherFits | scripts/github_docs_impact_city_dispatcher.py:202-280 | a bead is looked for only for a waiting marker with these fields, a created one is new and carries its child, snapshot and context, and the marker gets its bead and then its mark alone |
| HandoffSteps.HarvesterFits | scripts/github_docs_impact_city_dispatcher.py:310-347 | a result is filed only for a dispatched marker, from its own closed bead whose metadata carry it, under the handoff's id, and an existing file has to be equal to that |
| HandoffSteps.PublisherFits | scripts/github_docs_impact_compose_adapter.py:616-673 | publication begins only for a considered file with a digest for a name, for an unconsumed receipt, with an update for what was admitted; completion, projection, result and consumed mark follow each other |
| HandoffSafety.ConsumedIsRecorded | scripts/github_docs_impact_compose_adapter.py:628-673 | a consumed handoff has a durable result, and every result has the fields of an update for what its admission admitted, whatever is in the outbox |
| HandoffSafety.ResultBeforeConsume | scripts/github_docs_impact_compose_adapter.py:668-670 | at the moment of consumption the result for exactly that payload is durable |
| HandoffSafety.NoSecondPublication | scripts/github_docs_impact_compose_adapter.py:644-667 | once a result is durable, completion and projection are not run for that handoff again |
| HandoffSafety.LeftUnconsumedForever | scripts/github_docs_impact_compose_adapter.py:645-648 | a handoff left between result and consumed mark stays unconsumed in every continuation |
| HandoffStops.SettledIff | scripts/github_docs_impact_compose_adapter.py:645-670 | a published handoff is consumed, or about to be, if and only if no publisher stopped between its result and its consumed mark |
| HandoffStops.AnyHandoffCanBeStranded | scripts/github_docs_impact_compose_adapter.py:628-670 | wherever a trusted, unrecorded file with a digest for a name is among those a pass considers, a run strands its handoff |
| HandoffStops.WellFormedIsPublishable | scripts/github_docs_impact_city_dispatcher.py:234-347 | every well-formed receipt, with a marker the dispatcher takes up and a closed bead whose update the City accepts, has a run, with the harvester as only writer, that makes it publishable |
| HandoffStops.SomeHandoffIsStranded | scripts/github_docs_impact_compose_adapter.py:628-670 | a concrete handoff, with its snapshot and the metadata of its closed bead, that goes through dispatch and harvest and ends up stranded |
| HandoffStops.PublishedIffNotStarved | scripts/github_docs_impact_compose_adapter.py:628-633 | for a publishable file, publication begins in some continuation exactly if the pass going on considers it or less than 256 files come before it |
| HandoffStops.StarvedForever | scripts/github_docs_impact_compose_adapter.py:628-633 | a file with 256 files before it stays so and is never published |
| Publishers.BeganBeforeResult | scripts/github_docs_impact_compose_adapter.py:628-670 | with any number of publishers, a running publication began before any result of its handoff was durable |
| Publishers.BeginsInForm | scripts/github_docs_impact_compose_adapter.py:628-648 | any publisher begins only with a considered, trusted file named by a digest, without a result |
| Publishers.TwoResultsOverlap | scripts/github_docs_impact_webhook.py:34-46 | two results of one handoff come from two publishers whose publications overlap, and they carry the same payload exactly if the outbox file was the same at the two begins |
| Publishers.FileIsKept | scripts/github_docs_impact_compose_adapter.py:628-637 | it is the same if nobody wrote the file in between |
| Publishers.TwoPayloads | scripts/github_docs_impact_compose_adapter.py:628-670 | if it is rewritten in between with another trusted payload, both payloads can be published |
| Publishers.TwoCanPublish | scripts/github_docs_impact_webhook.py:34-46 | two idle publishers can both publish whatever one of them can |
| Publishers.ConsumedIff | scripts/github_docs_impact_compose_adapter.py:645-670 | with any number of publishers, a handoff is consumed exactly if some publisher lived to mark it after its own result |
| Publishers.StrandedIff | scripts/github_docs_impact_compose_adapter.py:645-670 | a published handoff that no publisher is busy with is unconsumed exactly if every publisher of it stopped between its result and its mark |
| Publishers.StrandedForever | scripts/github_docs_impact_compose_adapter.py:645-648 | and it stays so in every continuation |
| Publishers.OtherStillConsumes | scripts/github_docs_impact_webhook.py:34-46 | while another publisher is at it, such a stop need not leave the handoff unconsumed |
| HandoffPasses.HandoffFiles.PersistDirectChild | scripts/github_docs_impact_compose_adapter.py:410-457 | receipt first, then marker; an existing marker is returned, a different receipt under the id is an error |
| HandoffPasses.HandoffFiles.AdoptDirectChildBead | scripts/github_docs_impact_city_dispatcher.py:202-231 | the scan finds a matching bead, or none only if there is none |
| HandoffPasses.HandoffFiles.ObtainBead | scripts/github_docs_impact_city_dispatcher.py:245-270 | the marker gets its own bead, found or newly created, exactly when the lookup and, if needed, the create succeed |
| HandoffPasses.HandoffFiles.DispatchDirectChild | scripts/github_docs_impact_city_dispatcher.py:241-279 | a pending marker is dispatched exactly when its bead is known and slung; no other marker changes |
| HandoffPasses.HandoffFiles.DispatchDirectChildPending | scripts/github_docs_impact_city_dispatcher.py:234-280 | the pass is a run of the protocol, dispatches what it reports and skips no marker it could deliver, those whose bead is created in this pass included |
| HandoffOutcomes.DeliverableForm | scripts/github_docs_impact_city_dispatcher.py:165-280 | exactly when a marker is delivered, on its fields, the beads and the replies |
| HandoffPasses.HandoffFiles.HarvestDirectChild | scripts/github_docs_impact_city_dispatcher.py:321-345 | an accepted update is filed and marked exactly when no other payload stands in the outbox |
| HandoffPasses.HandoffFiles.HarvestDirectChildUpdates | scripts/github_docs_impact_city_dispatcher.py:310-347 | no outbox file is rewritten, every marker handed off is validated, and no accepted update is passed over |
| HandoffOutcomes.HarvestableForm | scripts/github_docs_impact_city_dispatcher.py:283-347 | exactly when a result is handed off, on the fields of marker, bead and outbox file |
| HandoffPasses.HandoffFiles.PublishDirectChildResult | scripts/github_docs_impact_compose_adapter.py:628-671 | completion and projection run exactly for a trusted, unrecorded payload; result, then consumed mark |
| HandoffPasses.HandoffFiles.PublishDirectChildResults | scripts/github_docs_impact_compose_adapter.py:616-673 | recorded results stay, and every trusted, unrecorded payload among the first 256 files is published if its commands succeed |
| HandoffOutcomes.PublishedForm | scripts/github_docs_impact_compose_adapter.py:628-670 | exactly when a file is published, on the fields of receipt and payload and the replies |
| ReviewExport.TranscriptBeforeClose | scripts/github_docs_impact_city_dispatcher.py:644-671 | a close is attempted only while a transcript of the marker's exact source, written by that session, and a pending intent with the marker's bead, source and that session are durable |
| ReviewExport.IntentsNameTheWriter | scripts/github_docs_impact_city_dispatcher.py:644-657 | in every run an intent names its marker's bead and source, and the session that wrote the stored review |
| ReviewExport.CloseUnderGuard | scripts/github_docs_impact_city_dispatcher.py:658-671 | a close takes effect only on a bead in progress for the session, and leaves it closed; otherwise no bead changes |
| ReviewExport.ExportWrites | scripts/github_docs_impact_city_dispatcher.py:644-735 | transcript, intent and outcome hold the marker's source and bead, the session and what the reply said |
| ReviewExport.ReassignedBeadIsSafe | scripts/github_docs_impact_city_dispatcher.py:648-671 | once a bead is reassigned away from a session, and until it is given back, no continuation closes it for that session or records it closed |
| ReviewExport.ClosedMeansClosed | scripts/github_docs_impact_city_dispatcher.py:665-668 | a recorded closed outcome belongs to a close this path made for the named session |
| ReviewExport.OutcomesAreFinal | scripts/github_docs_impact_city_dispatcher.py:648-671 | closed and ownership-changed are absorbing, and an intent never changes its bead, source or session |
| ReviewExport.NoCloseAfterOutcome | scripts/github_docs_impact_city_dispatcher.py:655-656 | after an outcome no close is attempted for that marker again |
| ReviewExport.MisreadIff | scripts/github_docs_impact_city_dispatcher.py:655-671 | the outcome of a close that took effect is recorded as ownership-changed exactly if its own outcome was lost, unless the City reopens the bead for the session |
| ReviewExport.MisreadNeedsLoss | scripts/github_docs_impact_city_dispatcher.py:655-671 | whatever the City does, ownership-changed after a close that took effect means that an outcome was lost |
| ReviewExport.CloseCanBeMisread | scripts/github_docs_impact_city_dispatcher.py:658-671 | a run in which a bead is closed for the session and recorded as ownership-changed |
| ReviewExportPass.ReviewFiles.ClosePersistedReview | scripts/github_docs_impact_city_dispatcher.py:644-671 | completion file and bead afterwards are decided by the guard and the reply, and a foreign completion file stops it |
| ReviewExportPass.CloseOutcome | scripts/github_docs_impact_city_dispatcher.py:644-671 | intent, outcome and bead for every reply and stop, without a recorded outcome |
| ReviewExportPass.ExportableForm | scripts/github_docs_impact_city_dispatcher.py:679-735 | exactly when a transcript is stored for a marker |
| ReviewExportPass.ReviewFiles.ExportTranscript | scripts/github_docs_impact_city_dispatcher.py:679-735 | says exactly when a transcript is stored, which one, how a pending close is taken up again, and that other markers are left alone |
| ReviewExportPass.ReviewFiles.ExportTranscripts | scripts/github_docs_impact_city_dispatcher.py:674-736 | the pass is a run of the protocol and skips no marker it could export |
| Supersession.LatestSources | scripts/github_docs_impact_city_dispatcher.py:81-101 | the scan yields, for exactly the lineages with a readable request, the key of the newest by time and stem |
| Supersession.NewestIsUnique | scripts/github_docs_impact_city_dispatcher.py:81-101 | the newest request of a lineage is unique |
| Supersession.NewestIsLast | scripts/github_docs_impact_city_dispatcher.py:81-101 | the newest request was modified last, and among those of the same time its stem comes last |
| Supersession.LatestIgnoresOrder | scripts/github_docs_impact_city_dispatcher.py:81-101 | the result does not depend on the order of the scan |
| Supersession.SupersededIff | scripts/github_docs_impact_city_dispatcher.py:112-125 | a key is superseded exactly if its lineage has no readable request, or a newest one with another key |
| ReviewMarkers.MarkersOnlyMoveOn | scripts/github_docs_impact_city_dispatcher.py:104-162 | over any run a marker stays, keeps its bead and source, and its phase only moves on |
| ReviewMarkers.PhasesInOrder | scripts/github_docs_impact_city_dispatcher.py:139-162 | a marker is written as pending, then dispatched, then retired, in this order, up to the phase it is in |
| ReviewMarkers.EachPhaseOnce | scripts/github_docs_impact_city_dispatcher.py:104-162 | each of these writes happens at most once per marker |
| ReviewMarkers.CommandsFitMarkers | scripts/github_docs_impact_city_dispatcher.py:104-162 | a bead is created for a request without a marker, slung for a pending one, closed for a dispatched one |
| ReviewMarkers.MarkerWrites | scripts/github_docs_impact_city_dispatcher.py:104-162 | a marker is written with the bead and source of its request, and then only its phase changes |
| ReviewMarkers.RetiredWasSuperseded | scripts/github_docs_impact_city_dispatcher.py:111-135 | a retired marker had its bead closed, and the last scan before that close saw its source superseded |
| ReviewMarkers.NewestIsNotRetired | scripts/github_docs_impact_city_dispatcher.py:111-125 | a source that is the newest of its lineage in a scan is not closed before the next scan |
| ReviewMarkers.RetiredWithoutRequest | scripts/github_docs_impact_city_dispatcher.py:121-123 | a dispatched review of a lineage without any request is retired |
| ReviewMarkers.SomeReviewIsRetired | scripts/github_docs_impact_city_dispatcher.py:121-135 | a concrete run in which no scan sees a request, and the review is retired |
| ReviewMarkers.BeadsAreOwn | scripts/github_docs_impact_city_dispatcher.py:527-574 | no two markers share a bead, and a bead was created for its marker's request |
| ReviewMarkers.OrphanIffLost | scripts/github_docs_impact_city_dispatcher.py:550-572 | a bead stays without a marker exactly if its create's reply was lost or the process stopped before recording it |
| ReviewMarkers.SecondBeadNeedsLoss | scripts/github_docs_impact_city_dispatcher.py:527-574 | a request has two beads only if one of them was lost in this way |
| ReviewMarkersPass.ReviewDesk.CreatePending | scripts/github_docs_impact_city_dispatcher.py:527-574 | existing markers stay, new ones are pending with a created bead, every reported create leaves a marker, and every new bead comes from a create |
| ReviewMarkersPass.ReviewDesk.DispatchPending | scripts/github_docs_impact_city_dispatcher.py:139-162 | exactly the pending markers whose sling succeeds become dispatched |
| ReviewMarkersPass.ReviewDesk.RetireSuperseded | scripts/github_docs_impact_city_dispatcher.py:104-136 | retires dispatched markers whose source is superseded, all whose close succeeds, and no others |
| Launcher.OneRunPerAuthorization | scripts/city_mail_launcher.py:187-216 | all bindings ever sent for an authorization carry the one run id that the worker answered its request with, whatever the ids |
| LauncherClash.ResponseOrFailure | scripts/city_mail_launcher.py:167-184 | as long as the request paths of the ids, and the folders made on the way, do not clash, a response and a failure of one name never both exist |
| LauncherClash.BothIff | scripts/city_mail_launcher.py:167-210 | for ids in which no '..' follows a name, a run with both exists exactly if request paths of the ids clash |
| LauncherClash.AnswersAreKept | scripts/city_mail_launcher.py:158-184 | with such ids no request ever replaces a response or a failure |
| LauncherClash.ResponseCanBeLost | scripts/city_mail_launcher.py:158-210 | the id '../responses/a/../x' can: its path counts as missing while its way is not there, and its request then replaces the response of x |
| LauncherClash.PlainIdsAreSafe | scripts/city_mail_launcher.py:200-204 | ids without a slash never clash, each has a response path of its own, and their answers are kept |
| LauncherClash.EscapingIdsClash | scripts/city_mail_launcher.py:200-204 | x and '../failures/x', and x and '../responses/x', clash for every x without a slash, and no '..' follows a name in them |
| LauncherClash.DottedIdsShare | scripts/city_mail_launcher.py:200-204 | x and './x' share their request and response files |
| Launcher.RelaunchNeedsStop | scripts/city_mail_launcher.py:167-184 | a request is launched twice only if the worker stopped in the middle of the first launch |
| QueuePaths.PlainPath | scripts/city_mail_launcher.py:200-204 | an id without a slash names one file in the directory it is meant for |
| QueuePaths.EscapingPath | scripts/city_mail_launcher.py:200-204 | an id with dots and slashes can name a file in another directory |
| QueuePaths.DetourPath | scripts/city_mail_launcher.py:158-160 | the folders that are made on the way to '../responses/a/../x' include one in the place of an answer |
| QueuePaths.DirectWayTo | scripts/city_mail_launcher.py:158-160 | on the way of an id in which no '..' follows a name there are only the directory it is meant for, folders above that, and folders above the file |
| Launcher.RecordBeforeAcknowledge | scripts/city_mail_launcher.py:94-124 | at an acknowledgement the binding was sent and the ledger durably holds its run id |
| Launcher.ServeStepsFit | scripts/city_mail_launcher.py:200-213 | a request is written only for an id without ledger entry whose file is not found, and the run id is the ledger's or else the response's |
| Launcher.ServeEffects | scripts/city_mail_launcher.py:94-124 | what sending, reading, replacing and acknowledging leave behind |
| Launcher.WorkStepsFit | scripts/city_mail_launcher.py:167-184 | only unanswered files in .json are launched, and only requests get a response |
| Launcher.WrittenOnce | scripts/city_mail_launcher.py:94-184 | no path is freed, and the answers that the worker gave and the ledger entries never change or disappear |
| Launcher.OthersUndisturbed | scripts/city_mail_launcher.py:94-124 | the ledger file, replaced by a copy read steps before with one entry more, still has every entry of the moment |
| Launcher.UnusableRunIds | scripts/city_mail_launcher.py:42-61 | an empty run id is never bound, and one that is no text is never recorded or acknowledged |
| LauncherPass.LauncherFiles.RecordBeforeAck | scripts/city_mail_launcher.py:94-124 | first writer wins, an invalid id is an error, and the acknowledgement needs the durable entry |
| LauncherPass.LauncherFiles.ServeEnvelope | scripts/city_mail_launcher.py:195-216 | says exactly when an envelope is acknowledged, for the ledger's run id or else the worker's, which files are written for it, and when it ends the process |
| LauncherPass.AuthorizedIff | scripts/city_mail_launcher.py:22-39 | an envelope is served exactly if subject and body announce a start with these fields, a pinned base of 40 to 64 small hexadecimal digits among them |
| LauncherPass.AcknowledgesForm | scripts/city_mail_launcher.py:94-124 | exactly when an authorization is acknowledged, for its ledger entry or else its response and the replies |
| LauncherPass.LauncherFiles.Serve | scripts/city_mail_launcher.py:187-220 | a round reaches every envelope before the first that raises, and acknowledges each that is due by an acknowledgement of its own, unless a request replaced its response in this round; requests, bindings, ledger entries and acknowledgements are only for ids that an envelope of the inbox announces |
| LauncherPass.RaisesIff | scripts/city_mail_launcher.py:193-199 | an envelope ends the process exactly if it is no object, or is opened and its body is no text, too deep, or decodes to no object |
| LauncherPass.ListBodyRaises | scripts/city_mail_launcher.py:22-24 | a body that is a JSON list ends the process |
| LauncherPass.ReachesAllIff | scripts/city_mail_launcher.py:187-220 | a round reaches all its envelopes exactly when none of them is of that kind |
| LauncherPass.LauncherFiles.LaunchRequest | scripts/city_mail_launcher.py:167-184 | an unanswered request gets exactly one response or failure; an answered one is left alone |
| LauncherPass.LauncherFiles.CityWorker | scripts/city_mail_launcher.py:167-184 | answers stay, and after a round every listed request is answered unless the worker stopped there |
| Proxy.AcceptedIff | scripts/city-mail-mcp-proxy.py:50-89 | a request tree is let through exactly when each of its requests is acceptable |
| Proxy.RefusedBy | scripts/city-mail-mcp-proxy.py:50-89 | a refused tree raises the error of its first unacceptable request |
| Proxy.EveryCallIsBound | scripts/city-mail-mcp-proxy.py:50-89 | the result has the shape of the request, every tools/call carries the bound identity, and all else is unchanged |
| Proxy.BoundFormIsUnique | scripts/city-mail-mcp-proxy.py:50-89 | that description leaves only one possible result |
| Proxy.RewriteIsIdempotent | scripts/city-mail-mcp-proxy.py:50-89 | a rewritten request is let through again, unchanged |
| Proxy.KeepsTheAllowed | scripts/city-mail-mcp-proxy.py:98-105 | the kept tools are the allowed ones, each as often as listed; it raises exactly on a listed object with an unhashable name |
| Proxy.KeepAppends | scripts/city-mail-mcp-proxy.py:98-105 | filtering goes tool by tool and keeps their order |
| Proxy.FilterIsTidy | scripts/city-mail-mcp-proxy.py:92-109 | a filtered tree lists allowed tools only and announces tools only, and nothing else is taken away |
| Proxy.FixedIffTidy | scripts/city-mail-mcp-proxy.py:92-109 | the fixed points of the filter are exactly the tidy trees |
| Proxy.FilterIsIdempotent | scripts/city-mail-mcp-proxy.py:92-109 | filtering twice is filtering once |
| Proxy.HiddenIff | scripts/city-mail-mcp-proxy.py:112-131 | the body sent on hides the other tools exactly when every listed object has a hashable name |
| Proxy.UnhashableNameIsNotFiltered | scripts/city-mail-mcp-proxy.py:112-131 | a response on which the filter gives up and passes everything on |

## Left out

- SQLite, its schema, WAL and SQL text: each store method is one atomic step; job ids are positions in the job table, counted from 0.
- HTTP, signatures, tokens, git checkout of snapshots, subprocess plumbing, environment lookup and temporary files: external commands are nondeterministic steps.
- The `github_intake_*` modules are not part of this model: review decisions, `accept_candidate`, `reconcile_pending`, admission, completion and projection are outcomes only.
- JSON text and SHA-256: payloads are decoded documents or one of the decoder's exceptions, metadata decoding is an arbitrary function, digests are names; NaN and infinities are not modelled, and the decoder's limits are taken to be the same in every process.
- Exceptions of the decoder that the handoff and review passes do not catch (nesting too deep in bead metadata or in a file): they end the pass like a stop.
- `complete` appears in fencing only: it ends a job without successor and no worker calls it.
- Code after the return in `_dispatch_city`, the legacy journey passes and the disabled legacy publisher.
- Fairness between deliveries: scheduling is newest first.
- Exclusive execution of the adapter: its timeout of 60 seconds exceeds the lease of 30, so only outcomes are fenced.
- At most one `gc sling` per authorization: a launcher worker that stops before writing its response launches again.
- HandoffSafety.NoSecondPublication: assumes one publisher at a time, while the service can run two; `Publishers.TwoResultsOverlap` is what holds of several. The checks before a publication are one step there, too.
- HandoffSafety.LeftUnconsumedForever: assumes one publisher at a time; for several it is `Publishers.StrandedForever`.
- HandoffStops.SettledIff: assumes one publisher at a time; for several it is `Publishers.ConsumedIff` and `Publishers.StrandedIff`.
- HandoffStops.PublishedIffNotStarved: speaks of the name order of the outbox as the publisher lists it; whether the commands of a publication succeed is up to them.
- HandoffSafety.OneBeadPerChild: assumes one dispatcher at a time, a complete lookup that returns metadata as written, and non-empty ids of the City's beads, as the dispatcher itself does; others may add any beads.
- HandoffSafety.OutboxIsWriteOnce: assumes that only the harvester writes the outbox; `OutboxedIsValidated` and `OutboxedIsPublishable` assume it, too. The results about consumption, and those of `Publishers`, do not.
- ReviewMarkersPass.ReviewDesk.CreatePending: takes from the City that ids of created beads are non-empty and new.
- LauncherClash.BothIff: leaves out ids in which '..' follows a name; for them only the safe side is proved (`LauncherClash.ResponseOrFailure`), since the way of such an id can lead over its own file.
- A file system with symbolic links, changes to the launcher's queue by others, and authorization ids whose path is that of the ledger.
- File-size, symlink and permission checks, and markers edited by hand whose types make the code raise KeyError or AttributeError.
- Transcripts are modelled by the source key of their final review and their session, without their text; recovery of a review from a wrapped terminal view is not modelled.
- The texts of `binding_for` and `request_for` messages beyond the run id, and the framing of event-stream responses, whose lines are filtered one by one like whole bodies.
- The role-health service, the permission reader, shell scripts, Compose and nginx configuration, dashboards.
