# Verification of the Rafay Karpenter provider

This project models the parts of the provider where several actors share state, in Dafny 4.11, and proves what they
keep. `dafny verify dfyconfig.toml` checks all of it.

**The node batcher.** `Ledger` is what the first mutex guards (tracked batches, in-flight set, its index, successes),
`WaitLine` what the second guards together with the queue, the sender and every result channel ever made. `Batcher`
puts them under one clock: callers, one sender and one poller take steps in any order, and the broker answers a send
with any unused batch ID or an error and a poll with any list of results or an error. Each locked section is one step,
so an enqueue is two. `BatcherRuns` holds the invariant of every run, `BatcherTheorems` the promises, `PollTheorems`
and `RequestTheorems` what each poll and each request comes to, said of the batch's and the queue's fields, `SenderProgress`
that the sender can always finish, `SingleSend` what holds when an enqueue is one step and a resume takes up only what
is idle, and `DoubleSend` exactly when it fails otherwise. `BatchBook`, `BatchRegistry`, `Waiters` and `NodeBatcher`
are the same sections as they are written, loops, fields and in-place compaction included, each proved against the step
it is.

**Its clients.** `Fleet` adds NodeClaims, Create, Delete, the failure handler, the resume at start-up and crashes;
`FleetRuns` and `FleetTheorems` prove what survives them, and `FleetCalls` what each call asks for, said of the claim's
fields. `Clients` and `ResumeGroups` hold the code.

**Who owns which node.** `Ownership` is one shared cluster: claims are created, launched, deleted; nodes join, get
labels and an ID, change and leave; the provider-ID controller, the adoption pass and Delete act between them, one API
call a step. Node lists may show any mixture of past states, claim lists are fresh, and patches carry the version they
were computed from. `SingleOwner` and `OwnershipTheorems` prove single ownership, say exactly which adoption is
dangerous, and show two runs where two claims end up with one node; `DeleteOwnership` says exactly when Delete's pick
is another claim's. `NodeMatching`, `NodeBinding`, `NodeAdoption` and `AdoptionPasses` are the searches and passes as
written, each tied to the protocol, and `AdoptionResults` says which nodes a pass takes. `ProviderIds` is the ID format.

**Headroom.** `HeadroomMath` is the calculator over exact numbers and `HeadroomCount` its least-count specification over
the nodes' own quantities; `HeadroomConfig` reads the policy and `HeadroomPolicies` says what it means; `HeadroomSync` is
the full sync of the Deployments and `HeadroomDeployments` says what it leaves.

## What is assumed

- The broker never gives out a batch ID twice (`pkg/rafay/batcher.go:499` would overwrite a tracked batch otherwise;
  `Ledger.TrackBalancesExactlyWhenFresh` shows what that costs).
- UIDs are non-empty, carry no white space at their ends and do not end in `-remove`.
- A claim's pool, node class and adoption annotation do not change. A node's name is not used again; its pool and SKU
  labels, once set, do not change; they hold no slash, and no pool is called `pending`.
- An ID the platform writes on a node may be any that is not pending, that no other node has, and that is not the
  documented ID of a node with another name.
- Create's acknowledgement is written to a claim in one update, and only while the claim has no provider ID.
- Limits of 64-bit counters are not reached; times are exact.

## Where documents and code differ

The model follows the code.

- `pkg/rafay/batcher.go:178-181` says the index `opBatch` is kept in step with the in-flight set. A poll deletes only
  from the latter (`:706`, `:712`); what holds, and is proved, is that every in-flight operation is indexed rightly.
- `pkg/rafay/batcher.go:54` and `:260-262` say a retry receives the same channel. Every call gets its own
  (`:280`); all of them are answered.
- `docs/crash_safety.md:135` says a restarted process no longer knows the old batch. `batchresume` takes it up again;
  `FleetTheorems.NoAddIsForgotten` is what that achieves.
- `pkg/controllers/nodeadoption/controller.go:575-580` calls the pending-claim check the mirror of the other
  controller's rule. It is, for claims whose status is pending; a claim whose status is still empty at the listing is
  seen by neither, and `OwnershipTheorems.LateLaunchGivesTwoOwners` shows the consequence.

## Model

| member | source | states |
|---|---|---|
| `BatcherTheorems.WaitersAreOwed` | pkg/rafay/batcher.go:279-335 | Under every interleaving, with an enqueue's two locked sections as separate steps: an operation is waited for exactly when its item is queued or held unresolved by the sender, no item occurs twice, and no waiter list is empty. |
| `BatcherTheorems.WrittenAtMostOnce` | pkg/rafay/batcher.go:310-335 | No step ever writes a result channel that already holds a result; a channel holds at most one result and keeps it. |
| `BatcherTheorems.AnsweredWithinPosition` | pkg/rafay/batcher.go:365-517 | A waiting caller has its one result once the sender has closed (position + 1) further batches and is back at collecting, whatever else happened. |
| `SenderProgress.NoCallerIsStuck` | pkg/rafay/batcher.go:365-517 | And it can get there: from every reachable state, steps of the sender alone lead to a state in which it is collecting and everybody who waited then has exactly one result. |
| `BatcherTheorems.WaitersHavePositions` | pkg/rafay/batcher.go:297-318 | Every waiting caller has a position in the line of accepted requests, and while its item is queued that item is at that position. |
| `BatcherTheorems.RequestsKeepTheirOrder` | pkg/rafay/batcher.go:308-416 | The collected batches, the batch in hand and the queue, concatenated, are exactly the accepted requests in order; every collected batch has 1 to 10 items and the queue at most 256. |
| `BatcherTheorems.WorkIsConserved` | pkg/rafay/batcher.go:494-748 | As multisets of (operation, kind): everything ever registered or resumed is what is still tracked plus what was recorded SUCCEEDED plus what was, or is about to be, reported failed. |
| `BatcherTheorems.FailuresAreReported` | pkg/rafay/batcher.go:631-748 | The failure handler is called for exactly the failures the polls decided, once each and in that order. |
| `BatcherTheorems.TrackedBatchesAreLive` | pkg/rafay/batcher.go:499-735 | A tracked batch is never empty, holds one kind only and has 0 to 2 empty polls behind it. |
| `BatcherTheorems.TrackingIsBounded` | pkg/rafay/batcher.go:602-684 | Even if every poll fails, a batch is never older than the maximum age plus the time since the last finished pass began; and one the pass under way has already come to, than the maximum age plus the time since that pass began. |
| `BatcherTheorems.PunctualTrackingIsBounded` | pkg/rafay/batcher.go:589-684 | Over every run whose passes take at most some time and begin an interval after the last began, or at once if that took longer, no batch is older than the maximum age plus the longer of the two plus one pass; with passes that take no time, than the maximum age plus one interval. |
| `BatcherTheorems.PassClearsOldBatches` | pkg/rafay/batcher.go:602-637 | When a pass ends, every batch still tracked was within the maximum age when the pass began. |
| `BatcherTheorems.ShortcutNamesALiveBatch` | pkg/rafay/batcher.go:287-295 | A caller answered at once because its operation is in flight is told a batch that is tracked now and still contains that operation, and nothing is queued for it. |
| `BatcherTheorems.AcksAreTrue` | pkg/rafay/batcher.go:109-118 | An acknowledgement, whoever receives it, names a batch its own operation really entered in this process. |
| `BatcherTheorems.SuccessWasPolled` | pkg/rafay/batcher.go:218-230 | Only operations some poll returned SUCCEEDED for, at the recorded time, are ever reported as succeeded. |
| `BatcherTheorems.SuccessIsRemembered` | pkg/rafay/batcher.go:578-585 | A success, once polled, stays recorded through any further run until the retention is over. |
| `BatcherTheorems.TrackedOrSettled` | pkg/rafay/batcher.go:494-748 | Every operation ever registered is in a tracked batch now, or was completed, or was reported failed, under the kind it was sent as. |
| `PollTheorems.LookDecides` | pkg/rafay/batcher.go:615-638 | A look at a batch: before its first poll is due nothing happens; while it is within 7200 seconds of age the broker is asked and nothing else changes; past that, and only then, it is dropped, its operations are in flight no more, and each of its items, in order, is the failure "batch expired at broker". |
| `PollTheorems.ReplyDecides` | pkg/rafay/batcher.go:646-728 | A reply with results, item by item and by the last entry for each: exactly those it calls SUCCEEDED or FAILED leave the batch and the in-flight set, the rest keep their order, the batch goes when none is left, and the history gains exactly those completions and failures, each with its own detail. |
| `PollTheorems.ReplyRecords` | pkg/rafay/batcher.go:693-721 | After such a reply the record holds the new successes with the time of the reply, every older one within 7200 seconds, and no other. |
| `PollTheorems.EmptyReplyDecides` | pkg/rafay/batcher.go:664-683 | An empty reply only counts, and the third in a row drops the batch and fails each of its items. |
| `PollTheorems.EveryVerdictHasACause` | pkg/rafay/batcher.go:615-748 | Over every run and step: an operation is failed only because the broker said FAILED of it last, with that detail, or its batch was past the age limit or unknown three times in a row; it is completed only because the broker said SUCCEEDED last. |
| `PollTheorems.SentIsTracked` | pkg/rafay/batcher.go:497-511 | An accepted part is tracked whole under the batch ID given, of its kind, aged from now and due in 120 seconds, its operations in flight and indexed there, and no other batch changes. |
| `PollTheorems.SentWaitsForItsPoll` | pkg/rafay/batcher.go:497-625 | Over every run: the poller does not ask about a batch this process sent until 120 seconds later, whatever happens between, unless a resume takes its ID up. |
| `PollTheorems.ResumeDecides` | pkg/rafay/batcher.go:534-568 | A resume tracks exactly the given operation IDs, trimmed and non-empty, as adds, aged from now and due at once, if and only if the trimmed batch ID is non-empty and untracked and one such ID is left; otherwise nothing changes. |
| `RequestTheorems.CallDecides` | pkg/rafay/batcher.go:287-295 | Over every run: a call is answered at once if and only if its operation is in flight, with the batch indexed for it, and nothing else is touched. |
| `RequestTheorems.JoinDecides` | pkg/rafay/batcher.go:297-318 | Over every run: a request joins the waiters of its operation if and only if there are any; otherwise it is queued last and waits if fewer than 256 items are queued, and is refused with the queue-full error, leaving no trace, if and only if 256 are. |
| `RequestTheorems.SendDecidesAnswers` | pkg/rafay/batcher.go:438-517 | Over every run: each caller waiting for an operation of the part being sent hears exactly what the broker made of it, the batch ID or a send error naming its kind and cause, and has heard it when the sender goes on; a failed send leaves the book as it was. |
| `BatcherRuns.StepKeepsInv` | pkg/rafay/batcher.go:279-748 | Every step of caller, sender, poller, clock or resume keeps the whole invariant (waiters, conservation, reports, ages, successes, acknowledgements) and only extends the history. |
| `BatcherRuns.RunKeepsInv` | pkg/rafay/batcher.go:279-748 | So does every run. |
| `Batcher.StepKeepsLine` | pkg/rafay/batcher.go:279-438 | Every step keeps the line of waiters and requests in order. |
| `Ledger.ReplyKeepsSound` | pkg/rafay/batcher.go:660-728 | Applying any reply keeps every in-flight operation indexed under a tracked batch that still holds it, overlapping batches included. |
| `Ledger.TrackKeepsSound` | pkg/rafay/batcher.go:497-511 | Registering a batch under an unused ID keeps that index right. |
| `Ledger.KeepIsFilter` | pkg/rafay/batcher.go:688-718 | What a reply leaves of a batch is exactly the items whose last-listed result is absent or not terminal. |
| `Ledger.ReplyBalances` | pkg/rafay/batcher.go:660-748 | A reply moves work from tracked to completed or failed without losing or inventing any. |
| `Ledger.TrackBalancesExactlyWhenFresh` | pkg/rafay/batcher.go:499-505 | A registration conserves work if and only if the broker's batch ID is not tracked already. |
| `WaitLine.PartitionComplete` | pkg/rafay/batcher.go:421-436 | Splitting a batch by kind loses nothing and invents nothing. |
| `WaitLine.PartIsStable` | pkg/rafay/batcher.go:421-428 | Each part keeps the order of the batch. |
| `WaitLine.BetweenRounds` | pkg/rafay/batcher.go:365-376 | Whenever the sender is back at collecting, every caller whose item left the line has its result. |
| `SingleSend.InFlightIsTheDisjointUnion` | pkg/rafay/batcher.go:287-317 | In clean runs, where an accepted enqueue is of an operation not in flight and a resume of operations neither in flight nor still to be sent, the in-flight set is exactly the disjoint union of the tracked batches. |
| `SingleSend.VerdictBetweenSends` | pkg/rafay/batcher.go:506-726 | In the same runs, between two registrations of one operation lies a terminal or expiry verdict on the first. |
| `DoubleSend.QueueingDoublesExactlyWhenInFlight` | pkg/rafay/batcher.go:287-318 | From any state reached by clean steps, an accepted second section of an enqueue can be followed by clean steps to two registrations of one operation with no verdict between them if and only if that operation is in flight when the section runs. |
| `DoubleSend.ResumingDoublesExactlyWhenBusy` | pkg/rafay/batcher.go:534-568 | From any such state, resuming a batch can be followed by clean steps to such a pair of registrations if and only if it names an operation twice, or one in flight, or one the sender or the queue still has to send. |
| `DoubleSend.ResumeOfQueuedSendsTwice` | pkg/rafay/batcher.go:534-568 | A concrete run in which an add is queued, its old batch is resumed, and the add is then sent again with no verdict between. |
| `SingleSend.OverlappingEnqueuesSendTwice` | pkg/rafay/batcher.go:287-298 | A concrete run in which two overlapping calls send one removal twice with no verdict between. |
| `BatchBook.IndexResults` | pkg/rafay/batcher.go:646-650 | The reply's index holds, for each operation, the result listed last. |
| `BatchBook.Compact` | pkg/rafay/batcher.go:686-718 | The in-place compaction over a shared array: the kept cells are the filtered items in order, the cells behind them are untouched, and successes, releases and failures are exactly those of the reply. |
| `BatchBook.SharedArrayUnchangedExactly` | pkg/rafay/batcher.go:686-718 | The array the sender still reads is unchanged by a compaction if and only if no finished item stands before an unfinished one. |
| `BatchBook.SharedArrayChanges` | pkg/rafay/batcher.go:508-516 | A two-item batch where a success ahead of an unfinished item makes the shared array name one item twice. |
| `BatchRegistry.Registry.HasSucceeded` | pkg/rafay/batcher.go:225-230 | Reads the record of successes. |
| `BatchRegistry.Registry.Tracking` | pkg/rafay/batcher.go:234-239 | Reads whether a batch, white space trimmed, is tracked. |
| `BatchRegistry.Registry.Register` | pkg/rafay/batcher.go:494-512 | The locked section of a registration: the new state is the specified one, each batch with an array of its own. |
| `BatchRegistry.Registry.ResumeAddBatch` | pkg/rafay/batcher.go:534-568 | Resumes exactly when the trimmed batch ID is non-empty and untracked and some operation ID is left after trimming. |
| `BatchRegistry.Registry.Look` | pkg/rafay/batcher.go:615-638 | First section of a poll: skip exactly when untracked or not yet due, ask when within 7200 seconds of age, otherwise expire and release everything the batch held. |
| `BatchRegistry.Registry.Answer` | pkg/rafay/batcher.go:660-728 | Second section of a poll: the new state, and the failures to report, are those of the reply. |
| `BatchRegistry.PruneSucceeded` | pkg/rafay/batcher.go:579-585 | The pruning loop removes exactly the successes older than the retention. |
| `BatchRegistry.ClearInFlight` | pkg/rafay/batcher.go:571-576 | The clearing loop removes exactly the batch's operations from the in-flight set and its index. |
| `Waiters.WaitRoom.CollectBatch` | pkg/rafay/batcher.go:381-416 | The collection loop takes a prefix of the queue, bounded by the batch size and the window, in order. |
| `Waiters.WaitRoom.JoinOrQueue` | pkg/rafay/batcher.go:297-318 | The second section of an enqueue as written: exactly the protocol's join, whose cases `RequestTheorems.JoinDecides` gives. |
| `Waiters.WaitRoom.ResolvePending` | pkg/rafay/batcher.go:326-335 | The entry goes first, then every waiter of the operation gets the result. |
| `Waiters.EveryWaiterIsAnswered` | pkg/rafay/batcher.go:514-516 | The loop after a send writes the outcome, once, to every caller waiting for one of its operations. |
| `Waiters.Split` | pkg/rafay/batcher.go:421-429 | The partition loop computes the two stable parts. |
| `NodeBatcher.NodeBatcher.EnqueueItem` | pkg/rafay/batcher.go:279-318 | An enqueue, on the fields: answered at once when in flight; otherwise added to its operation's waiters, or queued last with fewer than 256 queued, or refused with queue and waiters as they were. |
| `NodeBatcher.NodeBatcher.SendBatch` | pkg/rafay/batcher.go:421-517 | One round: each part sent as its own batch; whoever waits for one of its items hears the outcome of the part of that item's kind, the batch ID or the send error, and only that. |
| `NodeBatcher.RoundTracksItsParts` | pkg/rafay/batcher.go:421-512 | What a round leaves tracked: exactly the accepted parts, each whole, under its batch ID, of one kind, due in 120 seconds; nothing else in the book changes but what is in flight. |
| `NodeBatcher.NodeBatcher.PollBatch` | pkg/rafay/batcher.go:615-748 | A whole poll: nothing happens before the batch is due or if the call fails; past the age limit it is dropped and each item reported; otherwise the broker's reply is applied, however late. |
| `NodeBatcher.PollIsSteps` | pkg/rafay/batcher.go:615-748 | One call of the poll is the poller's steps in the protocol: the look, the time the broker takes, and its answer or error. |
| `NodeBatcher.NodeBatcher.PollAll` | pkg/rafay/batcher.go:602-613 | One pass polls every batch tracked when it begins, once, in whatever order the map yields them. |
| `NodeBatcher.PassBoundsTracking` | pkg/rafay/batcher.go:602-684 | After a pass that began at some time, whatever the broker answered or failed to, every batch it polled was within the maximum age at that time and has 0 to 2 empty polls; no batch is revived or redated. |
| `Provenance.StepKeepsAsked` | pkg/rafay/batcher.go:279-748 | Nothing the batcher queues, sends, tracks or reports comes from nowhere: every operation and its kind was asked of it. |
| `FleetTheorems.NoAddIsForgotten` | pkg/controllers/batchresume/controller.go:81-116 | Over any run with any number of crashes, once a process has resumed what it listed, every pending, live, annotated claim has its add tracked or has had a completion or a failure report, delivered or on its way, in this process. |
| `FleetTheorems.AdoptionNeverProvisions` | pkg/cloudprovider/cloudprovider.go:140-164 | In every run, no add for an adoption-annotated claim is queued, sent, resumed, tracked or reported, and the failure handler never deletes such a claim. |
| `FleetTheorems.AddsAndRemovesAreDisjoint` | pkg/cloudprovider/cloudprovider.go:209-218 | Operation IDs of adds and removes never coincide, as long as no UID ends in "-remove". |
| `FleetTheorems.GoneMeansRemoved` | pkg/cloudprovider/cloudprovider.go:211-218 | For a resolved claim Delete, whose success check and enqueue are two steps with anything between, answers not-found only after a poll of this process returned SUCCEEDED for exactly its remove operation. |
| `FleetTheorems.RemovedStaysGone` | pkg/cloudprovider/cloudprovider.go:214-218 | From then on, through any further run without a crash, it keeps answering so until the retention is over. |
| `FleetTheorems.GoneExactlyWhenRemoved` | pkg/cloudprovider/cloudprovider.go:211-218 | Within the retention, a resolved claim is answered not-found if and only if its removal completed. |
| `FleetCalls.DeleteAsksForItsNode` | pkg/cloudprovider/cloudprovider.go:220-247 | Past its first look Delete hands over one remove, with the claim's instance type, pool and the ID of its own node: the one in its status, or for a pending claim the first listed node of its pool and SKU, younger than it, with an ID in no other listed claim's status. It hands over nothing if and only if the claim is pending and there is no such node or no list. |
| `FleetCalls.DeleteLooksFirst` | pkg/cloudprovider/cloudprovider.go:205-218 | Delete goes on past its first look exactly when the claim was launched and its removal is not recorded. |
| `FleetCalls.CreateAsksForItsClaim` | pkg/cloudprovider/cloudprovider.go:140-166 | Create hands over one add, under the claim's UID, of the selected type and the claim's pool; for an annotated claim it hands over nothing. |
| `FleetCalls.CreateLearnsItsBatch` | pkg/cloudprovider/cloudprovider.go:167-185 | An acknowledgement makes Create's claim pending under its UID and notes the batch ID; a refusal changes no claim. |
| `FleetCalls.HandlerPicksTheFailedClaim` | pkg/cloudprovider/cloudprovider.go:628-653 | Over every run: a report makes the handler delete a claim if and only if it is of an add, the claims could be listed, and the claim with that UID has an empty or pending provider ID and is not deleting. |
| `FleetCalls.HandlerDeletesItsClaim` | pkg/cloudprovider/cloudprovider.go:653-657 | The delete, if it goes through, marks that claim and no other. |
| `FleetRuns.StepKeepsGood` | pkg/controllers/batchresume/controller.go:81-116 | Every step of batcher, clients, handler, start-up or crash keeps the fleet's invariant. |
| `FleetRuns.ReturnIsKnown` | pkg/cloudprovider/cloudprovider.go:166-185 | The batch ID Create writes on a claim is one its add entered in this process. |
| `ResumeGroups.GroupedExact` | pkg/controllers/batchresume/controller.go:88-105 | An operation is in a batch's group if and only if it is the UID of a listed claim that is pending, not deleting and annotated with that batch; groups are non-empty and their IDs trimmed. |
| `ResumeGroups.TrimIsExact` | pkg/controllers/batchresume/controller.go:99-102 | Trimming drops the white space at both ends and nothing else. |
| `ResumeGroups.GroupsDistinct` | pkg/controllers/batchresume/controller.go:88-105 | With distinct UIDs no operation is in two groups or twice in one. |
| `Clients.CloudProvider.Create` | pkg/cloudprovider/cloudprovider.go:111-186 | Create up to its wait: an annotated claim is launched with its annotation and reaches no queue; any other has one add of the selected type and its pool enqueued under its UID. |
| `Clients.CloudProvider.LookGone` | pkg/cloudprovider/cloudprovider.go:205-218 | The first look: not-found for a claim never launched, or whose removal is recorded as succeeded. |
| `Clients.CloudProvider.RemoveNode` | pkg/cloudprovider/cloudprovider.go:220-251 | The rest: cancelled if and only if the claim is pending and no listed node may be its own or a list cannot be read; otherwise one remove enqueued, with the claim's instance type and pool and the ID of its own node. |
| `Clients.CloudProvider.Delete` | pkg/cloudprovider/cloudprovider.go:204-251 | Both together up to the wait, when nothing comes between them: not-found, cancelled, or one remove enqueued, each exactly when. |
| `Clients.HandleFailure` | pkg/cloudprovider/cloudprovider.go:628-659 | Deletes a claim if and only if an add failed and a listed claim with that UID has an empty or pending provider ID and is not deleting. |
| `Clients.GroupByBatch` | pkg/controllers/batchresume/controller.go:88-105 | The grouping loop computes the groups. |
| `Clients.Start` | pkg/controllers/batchresume/controller.go:81-116 | The resume pass: every group resumed once, in whatever order the map yields them; a failed list changes nothing. |
| `Clients.ResumeTracksEveryGroup` | pkg/controllers/batchresume/controller.go:107-113 | In any order, exactly the groups not tracked before become tracked, and no other batch changes. |
| `Clients.ResumeOrderDoesNotMatter` | pkg/controllers/batchresume/controller.go:107-113 | So two orders leave the same batches tracked. |
| `Clients.ListingsAreProper` | pkg/controllers/batchresume/controller.go:88-105 | The groups of any listing with proper UIDs have non-empty trimmed IDs and something to resume. |
| `ProviderIds.ParseIsExact` | pkg/rafay/providerid.go:50-60 | An ID is accepted with a given first segment and rest if and only if it is the prefix, that non-empty slash-free segment, a slash, and that non-empty rest. |
| `ProviderIds.ParseUndoesBuild` | pkg/rafay/providerid.go:29-60 | Parsing a built ID gives back the pool and "sku/host" if and only if the pool holds no slash. |
| `ProviderIds.MissingSegmentsDoNotParse` | pkg/rafay/providerid.go:27-33 | With a segment missing nothing is built, and that does not parse. |
| `ProviderIds.BuildIsInjective` | pkg/rafay/providerid.go:29-34 | With slash-free pools and SKUs, different nodes get different IDs. |
| `ProviderIds.SlashesCollide` | pkg/rafay/providerid.go:29-34 | With a slash in a SKU two nodes can get one ID. |
| `ProviderIds.OnlyPendingLooksPending` | pkg/cloudprovider/cloudprovider.go:44-46 | A built ID looks pending if and only if the pool is "pending", or starts with "pending/". |
| `ProviderIds.PendingIdsParse` | pkg/rafay/providerid.go:46-49 | A synthetic pending ID parses, with pool "pending". |
| `NodeMatching.FirstMatchIsFirst` | pkg/controllers/nodeproviderid/controller.go:157-172 | The search finds a node whenever one fits, the first that does, and never one whose ID is used. |
| `NodeMatching.SearchIsExact` | pkg/controllers/nodeproviderid/controller.go:113-172 | Said of the objects' fields: the search finds nothing if and only if no listed node has the claim's pool and one of its SKUs, is younger than it, and has an ID no other listed claim's status names; otherwise the first such node. |
| `NodeMatching.FindNodeProviderId` | pkg/cloudprovider/cloudprovider.go:327-374 | Delete's search loops compute that first match. |
| `NodeMatching.ResolveClaim` | pkg/controllers/nodeproviderid/controller.go:113-172 | So do the loops of the provider-ID reconcile. |
| `NodeMatching.SearchesAgree` | pkg/cloudprovider/cloudprovider.go:335-374 | On one snapshot with distinct UIDs both searches choose the same node for a live pending claim. |
| `NodeMatching.DeleteSparesBoundNodes` | pkg/cloudprovider/cloudprovider.go:323-326 | Delete never picks a node whose ID is in another claim's status. |
| `NodeMatching.DeletePicksOthersNodeExactlyWhenUnlaunched` | pkg/cloudprovider/cloudprovider.go:335-374 | On one frozen list of claims, Delete picks a node another claim speaks for if and only if that claim adopted it and has no status yet. |
| `DeleteOwnership.DeletePicksAnothersExactly` | pkg/cloudprovider/cloudprovider.go:335-374 | Over every interleaving with both controllers, claims and nodes listed in separate calls and node lists as stale as can be: the node Delete picks is another claim's if and only if that claim adopted it and had no status when the claims were listed, or was bound to it by the provider-ID controller since. |
| `DeleteOwnership.DeletePicksABoundNode` | pkg/cloudprovider/cloudprovider.go:335-374 | A concrete run, without any adoption, in which a claim is bound to a node between the two lists and Delete picks that node for another claim. |
| `NodeMatching.DeletePicksAnAdoptedNode` | pkg/cloudprovider/cloudprovider.go:340-348 | A concrete list in which that happens. |
| `NodeMatching.ClaimedByPendingClaim` | pkg/controllers/nodeadoption/controller.go:581-591 | The loop decides whether a pending claim would accept the node. |
| `NodeMatching.AdoptionMirrorsTheSearch` | pkg/controllers/nodeadoption/controller.go:575-591 | Adoption defers to a pending claim if and only if some live pending claim of the node's pool would accept it under the reconcile's SKU and creation-time filters. |
| `NodeMatching.PinInstanceType` | pkg/controllers/nodeadoption/controller.go:538-551 | The pinning loop keeps every other requirement in order and appends one for the SKU. |
| `NodeMatching.PinnedOnce` | pkg/controllers/nodeadoption/controller.go:534-551 | After pinning, every instance-type requirement names the SKU and the other requirements are the pool's. |
| `Ownership.StepKeepsBase` | pkg/controllers/nodeadoption/controller.go:213-439 | Every API call of claims, nodes, Delete or either controller, with node lists as stale as can be and creates that go through though they seemed to fail, keeps: node IDs unique and unchanged, annotations unique, every real ID that of a node. |
| `Ownership.NoNodeIsAdoptedTwice` | pkg/controllers/nodeadoption/controller.go:255-376 | Over any run, no two claims carry the same adoption annotation. |
| `Ownership.NodeIdsNeverChange` | pkg/controllers/nodeadoption/controller.go:413-439 | No step ever changes a provider ID a node already has. |
| `Ownership.PreparedNodeIsFree` | pkg/controllers/nodeadoption/controller.go:416-437 | A node that passed the checks and whose patch goes through has an ID no annotation carries. |
| `OwnershipTheorems.EveryNodeHasOneOwner` | pkg/controllers/nodeadoption/controller.go:255-376 | Single owner: over every interleaving in which, whenever the pass lists the claims, no older unadopted live claim of the pool has an empty status, no real ID is held, by status or annotation, by two claims. |
| `OwnershipTheorems.AdoptionEndangersExactlyWhenDisputed` | pkg/controllers/nodeadoption/controller.go:365-374 | In any settled cluster, creating the claim leads, at once or with no further adoption, to two owners if and only if some claim still wants the node or some claim already speaks for its ID. |
| `OwnershipTheorems.EarlyBindGivesTwoOwners` | pkg/controllers/nodeproviderid/controller.go:174-185 | A concrete run in which the cluster is settled and nobody wants the node when its claim is created, but an older claim was bound to it since it was prepared: the create gives it two owners. |
| `OwnershipTheorems.LateLaunchGivesTwoOwners` | pkg/controllers/nodeproviderid/controller.go:137-185 | A concrete run with two owners in which no status is empty any more when the node is adopted: the moment of the listing is what counts. |
| `SingleOwner.ListedIsFree` | pkg/controllers/nodeadoption/controller.go:265-330 | Under that condition every node eligible after the listing is wanted by no claim and spoken for by none. |
| `SingleOwner.PatchKeepsSettled` | pkg/controllers/nodeproviderid/controller.go:174-185 | The versioned patch of the provider-ID reconcile keeps ownership single. |
| `NodeBinding.Controller.Reconcile` | pkg/controllers/nodeproviderid/controller.go:113-194 | The provider-ID reconcile as written is a run of the ownership protocol: list, search, one versioned patch. A live pending claim nobody has written since gets the ID of the first node that may be its own; in every other case no claim changes. |
| `NodeAdoption.Controller.PrepareNode` | pkg/controllers/nodeadoption/controller.go:413-439 | One patch, only if something is missing and only against the version that was read; an ID that is set is never replaced. |
| `NodeAdoption.Controller.ScanClaims` | pkg/controllers/nodeadoption/controller.go:265-277 | The scan collects the claimed IDs and the pool's live pending claims. |
| `NodeAdoption.Controller.Reconcile` | pkg/controllers/nodeadoption/controller.go:213-399 | The adoption pass with its early exits: the new cluster is that of the protocol, success is reported if and only if nothing failed, and one claim was added per adoption. |
| `AdoptionPasses.PassIsARun` | pkg/controllers/nodeadoption/controller.go:213-399 | A pass is a run of the ownership protocol, and a guarded one if its listing is, so the theorems about runs apply to it. |
| `AdoptionPasses.EveryNodeGetsItsClaim` | pkg/controllers/nodeadoption/controller.go:288-376 | After an error-free pass on a fresh node list every node that belongs to the pool has a claim, and exactly one if no node had two before. |
| `AdoptionPasses.PassKeepsSingle` | pkg/controllers/nodeadoption/controller.go:213-399 | A pass that nothing interferes with never gives a node a second owner, whatever its node list shows, whatever fails, and whichever claims have an empty status. |
| `AdoptionPasses.PassKeepsBase` | pkg/controllers/nodeadoption/controller.go:213-399 | A pass keeps the invariant of the cluster, and settled ownership with it if its listing is guarded, so runs can go on from there. |
| `AdoptionResults.PassAdoptsOnlyWhatQualifies` | pkg/controllers/nodeadoption/controller.go:255-439 | A pass by itself, on any node list: the claims there were stay; each new one is that of a listed ready worker node of a known type that fits the pool, that no listed claim names or may be waiting for, and carries its pool, SKU, node class and ID; its node is prepared, and no other node's object changes. |
| `AdoptionResults.PassSucceeds` | pkg/controllers/nodeadoption/controller.go:330-399 | On a fresh node list, with the instance types read and every call taken, the pass reports success. |
| `AdoptionPasses.SecondPassAdoptsNone` | pkg/controllers/nodeadoption/controller.go:213-399 | A second pass over the unchanged pool changes nothing. |
| `HeadroomMath.SumAllocatable` | pkg/controllers/headroom/controller.go:366-380 | The nested loops compute the totals that `HeadroomCount.TotalsAreSums` and `HeadroomCount.TotalsAreTight` describe, and the last GPU name seen. |
| `HeadroomCount.TotalsAreSums` | pkg/controllers/headroom/controller.go:366-380 | Each total is the sum of its own resource over the nodes: CPU in thousandths, memory in bytes, GPUs under either name, each rounded up node by node. |
| `HeadroomCount.TotalsAreTight` | pkg/controllers/headroom/controller.go:366-380 | So no total is below the exact sum of the nodes' own quantities, nor more than one unit a node above it. |
| `HeadroomCount.CountIsLeast` | pkg/controllers/headroom/controller.go:390-429 | The count over the ready nodes' and the policy's own quantities: the least number of pods, none below the floor, that holds the configured fraction of each resource, or 5000 if no smaller one does. |
| `HeadroomCount.ReadyIsExact` | pkg/controllers/headroom/controller.go:545-562 | A node counts, as often as it is listed, if and only if the first of its Ready conditions is True. |
| `HeadroomCount.KeyIsLastNodes` | pkg/controllers/headroom/controller.go:371-377 | The GPU name is that of the last listed node with a GPU, AMD's if it has both, and empty if there is none. |
| `HeadroomMath.FilterReady` | pkg/controllers/headroom/controller.go:545-562 | Keeps exactly the nodes whose first Ready condition is True. |
| `HeadroomMath.DesiredIsLeastCapped` | pkg/controllers/headroom/controller.go:390-429 | The replica count is the least count that is at least minPods and whose pods hold every configured resource's share of the ready nodes, or 5000 if no smaller count does. |
| `HeadroomMath.EnoughExactlyWhenCovering` | pkg/controllers/headroom/controller.go:390-429 | Below the cap, a count is at least the computed one if and only if it covers. |
| `HeadroomMath.ColdStartIsTheFloor` | pkg/controllers/headroom/controller.go:383-404 | With no ready node the count is minPods. |
| `HeadroomMath.OrderDoesNotMatter` | pkg/controllers/headroom/controller.go:366-380 | The count does not depend on the order of the nodes. |
| `HeadroomMath.AddingANodeNeverLowers` | pkg/controllers/headroom/controller.go:390-415 | One more ready node, anywhere in the list, never lowers the count. |
| `HeadroomMath.KeyKeepsExactlyWhenOneKind` | pkg/controllers/headroom/controller.go:125-127 | The GPU resource name, unlike the count, is independent of the order if and only if the nodes advertise one kind. |
| `HeadroomConfig.CandidateKeys` | pkg/controllers/headroom/config.go:168-192 | The key scan: well-known keys first, then the others ascending, from a map that yields them in any order. |
| `HeadroomConfig.ScanIsUnique` | pkg/controllers/headroom/config.go:162-183 | The scan depends only on which keys there are. |
| `HeadroomConfig.ScanIsComplete` | pkg/controllers/headroom/config.go:168-183 | It names every key exactly once. |
| `HeadroomConfig.UnmarshalPools` | pkg/controllers/headroom/config.go:194-253 | The loop computes one value's pools or an error, as the next two rows describe them. |
| `HeadroomPolicies.ReadExactlyWhenProper` | pkg/controllers/headroom/config.go:204-248 | A value is read if and only if no two named entries share a name and each has percentages from 0 to 100, a pod of at least 1m and 1Mi, no negative count, and known tolerations; nameless entries are skipped. |
| `HeadroomPolicies.PoliciesSayWhatEntriesSay` | pkg/controllers/headroom/config.go:204-248 | The policies are the named entries', in their order, each field from the entry's own field: fractions are its percentages, a blank one zero; sizes are its own, or 500m, 512Mi and no GPU. |
| `HeadroomPolicies.ScanOrder` | pkg/controllers/headroom/config.go:168-183 | The keys are read with "policy" first, then "config", then the others as they sort, character by character. |
| `HeadroomPolicies.FirstKeyWins` | pkg/controllers/headroom/config.go:127-161 | The policy is that of the first key read that gives any pools; without one it is empty if every key could be read and an error otherwise. |
| `HeadroomConfig.ReadPoliciesAreSound` | pkg/controllers/headroom/config.go:204-248 | Policies that were read are in range and name no pool twice. |
| `HeadroomConfig.ParseHeadroomConfig` | pkg/controllers/headroom/config.go:127-161 | The pools of the first key in the scan that has any; else an error if some key was unreadable, else none. |
| `HeadroomSync.ReadPoolsAreDistinct` | pkg/controllers/headroom/config.go:204-211 | A policy that was read names every pool once, as the sync relies on. |
| `HeadroomConfig.PolicyIsUnique` | pkg/controllers/headroom/config.go:112-161 | The policy chosen depends only on the key/value map. |
| `HeadroomConfig.BrokenExactlyWhenUnusable` | pkg/controllers/headroom/config.go:115-125 | An error is reported if and only if no key yields pools and some key is unreadable. |
| `HeadroomSync.Controller.ReconcilePool` | pkg/controllers/headroom/controller.go:263-345 | Applies one pool's Deployment: labels replaced as a whole, replicas, requests and tolerations set, an existing selector kept, other Deployments untouched. |
| `HeadroomSync.Controller.CleanupStale` | pkg/controllers/headroom/controller.go:472-495 | Deletes exactly the Deployments that the list, stale or not, shows as headroom of a pool that is not configured, but for deletes that fail. |
| `HeadroomSync.Controller.Reconcile` | pkg/controllers/headroom/controller.go:207-243 | A full sync; a policy that cannot be used changes no Deployment. |
| `HeadroomSync.SyncConverges` | pkg/controllers/headroom/controller.go:207-243 | When every API call succeeds and the list is fresh, each configured pool has its Deployment with the computed replicas, every headroom Deployment belongs to a configured pool, and nothing else changed. |
| `HeadroomSync.SecondSyncChangesNothing` | pkg/controllers/headroom/controller.go:203-243 | A second sync changes nothing, whatever fails then, if its list is fresh or missing. |
| `HeadroomSync.ConfiguredPoolsKeepTheirDeployment` | pkg/controllers/headroom/controller.go:472-495 | With a fresh list, whatever else fails, no Deployment of a configured pool is ever collected. |
| `HeadroomDeployments.GoneExactlyWhenShownStale` | pkg/controllers/headroom/controller.go:472-495 | Whatever fails and however stale the list: a Deployment there after applying is gone after the sync if and only if the list was read and shows it with the headroom label and a pool label no configured pool has, and its own delete went through. |
| `HeadroomDeployments.SyncedDeploymentsHold` | pkg/controllers/headroom/controller.go:263-345 | With every call answered and a fresh list, each configured pool has the Deployment of its name: both labels and no other, the count over its ready nodes, one pod's CPU, memory and GPU requests from their own fields, its tolerations, and the selector it had or its pool's. |
| `HeadroomDeployments.TroubleLeavesThePool` | pkg/controllers/headroom/controller.go:207-243 | A pool in trouble keeps its Deployment as it was when pools are applied, and every other pool is applied in full. |
| `HeadroomDeployments.InPoolIsExact` | pkg/controllers/headroom/controller.go:263-268 | A pool's nodes are exactly those that carry its label, as often as they are listed. |
| `HeadroomSync.StaleListDeletesAConfiguredPool` | pkg/controllers/headroom/controller.go:472-495 | A concrete stale list with which a sync deletes the Deployment it has just applied for a configured pool. |

## Left out

- gRPC streams, TLS, dialing, redial and the broker's own records: the broker is an unconstrained environment.
- `Cancel`: fire-and-forget, it touches no batcher state; only that Delete asks for it is modelled.
- Shutdown of a process is a crash; a nil NodeClaim and an unset failure handler do not occur.
- The sender answers callers from its own copy of a batch. In the batcher it reads the slice that a poll compacts in place; `BatchBook.SharedArrayUnchangedExactly` says when the two agree, and a poll 120 seconds after the send is the first that could make them differ.
- `NodeBatcher` holds both locks' state in one object whose methods run alone; interleavings are covered by `Batcher`, whose steps are the single locked sections.
- Choosing an instance type in Create (requirements, offerings, the stable sort by price), its capacity and labels: the type chosen is a parameter.
- Label compatibility, offerings and the rest of `validateAdoptable`, owner references, taints and labels of an adopted claim: a node either suits the pool or not.
- The two API calls of the failure handler are separate steps, but that it deletes only a claim that is still unresolved when the delete arrives is not so in the code and not claimed.
- Karpenter beyond launching, marking, removing and re-reading claims; `Get`, `List`, drift and repair.
- Counters and messages that only feed a log line.
- YAML and quantity syntax, percent signs and white space: policies start from decoded fields. Fractions are exact reals, so rounding of 64-bit floats is not modelled.
- Pod template, PriorityClass and legacy bare pods of headroom: field assignment and independent deletes; a failed list of those pods only makes the sync report an error.
- `nodeconfig`, `rafaynodeclass`, API types and wiring: loops that apply objects one by one, and scans that validate fields.
- OwnershipTheorems.EveryNodeHasOneOwner: holds under the condition on listings stated there, because without it the code does give a node two owners; the exact condition for one adoption is `OwnershipTheorems.AdoptionEndangersExactlyWhenDisputed`.
- SingleSend.VerdictBetweenSends: holds in clean runs, because the code releases the first lock within an enqueue and does not look at the queue in a resume; `DoubleSend.QueueingDoublesExactlyWhenInFlight` and `DoubleSend.ResumingDoublesExactlyWhenBusy` are the exact conditions for the two steps.
- SenderProgress.NoCallerIsStuck: says that the sender can always go on, not that the scheduler lets it; the steps it takes are those in which the broker refuses what is left to send.
- Clients.CloudProvider.Delete: composes the two sections with nothing between them, because one method is one uninterrupted call; `Fleet` takes them as separate steps, and the theorems about not-found hold there.
- NodeMatching.DeletePicksOthersNodeExactlyWhenUnlaunched: is about one list; `DeleteOwnership.DeletePicksAnothersExactly` covers claims bound while Delete is under way.
- NodeAdoption.Controller.Reconcile: takes a failed create to leave no claim; a create that goes through though it seemed to fail is a step of `Ownership`, and the theorems about runs cover it.
- BatcherTheorems.PassClearsOldBatches: counts age from the start of the pass, because polling takes time and a batch can grow older during it.
- AdoptionPasses.EveryNodeGetsItsClaim: is about a pass with no other actor during it, on a node list that is fresh when it starts; interleaved passes are covered by `OwnershipTheorems.EveryNodeHasOneOwner`.
- HeadroomSync.ConfiguredPoolsKeepTheirDeployment: asks for a fresh list, because a stale one can cost a configured pool its Deployment (`HeadroomSync.StaleListDeletesAConfiguredPool`); the exact condition is `HeadroomDeployments.GoneExactlyWhenShownStale`.
