# Verified model of the facilitator

This project models the parts of the x402 Stellar facilitator whose correctness spans several
functions, and proves what they promise. Where the code does not keep a promise on all inputs, the
model keeps the code as it is, shows an input, and proves exactly when the promise holds.

`dafny verify dfyconfig.toml` checks everything.

## What is modelled

**Settlement** (`settlement_*.dfy`). Idempotency records, channel accounts with fencing tokens and a
quarantine, and sponsor budgets are three tables. `SettlementTables` says what each database statement
does to them, `SettlementStore.StateStore` is the store as an object whose methods update the tables,
and `SettlementProtocol` is the state machine: any number of replicas run requests and recovery passes
against one database and one ledger, every store call is one atomic step, steps interleave freely and a
process may crash anywhere. The ledger applies an envelope at most once and not after its maximum time;
lookups that answer are right; an envelope answered ERROR never applies.

What holds of runs is proved of *guarded* runs (`GuardedRun`), and the guards are exact: a step keeps the
protocol invariant if and only if it is guarded (`StepKeepsIff`, `RunKeepsIff`). There are three. An
envelope is stored only where none was stored and nothing was answered, a refusal is written only where
no envelope was stored, and when the close time is read after the archive missed a hash, the ledger has
still not applied it. The code checks none of them; two kinds of run meet them. *Single owner*: when a claim
makes a caller owner only while no live process owns the record (the code also makes a second caller owner
when the worker lease ran out or the worker id is the same), the first two guards hold
(`SingleOwnerIsGuarded`). *Patience*: when a pass takes an archive miss for an answer only after the ledger
closed past the envelope's maximum time, the third holds (`PatientIsGuarded`); both together need nothing
else (`CarefulIsGuarded`). The fencing, budget and owner results hold of all runs, and so do those about
who may claim a record (`SettlementClaims`), which channels can be leased (`SettlementChannels`), what a
store answers and writes (`SettlementWrites`) and what amount a success reports (`SettlementAmounts`).
`SettlementCounterexamples` has a run for each guard that fails.

`SettlementCore.FacilitatorCore` is the orchestrator as imperative code. What its request and its recovery
pass write is proved to be the run of one process of the machine that heeds every answer of the outside,
while nobody else runs and, for a pass, the ledger stands still. Interleaved callers are runs of the machine;
that the imperative code makes those steps between the steps of others is not proved, only read off from the
same table functions.

**Catalog** (`catalog_*.dfy`). The versioned catalog: observations append versions and options and
retire others at a watermark that equals commit order; discovery reads it as of a snapshot. What a filtered
browse finds (`CatalogFilters`) and how resources come to be listed, stale or blocked (`CatalogLifecycle`) is
said in terms of the fields alone.

**Embedding queue** (`embedding_*.dfy`). Index jobs with leases and tokens, one table of vectors per
model generation, generations that are retired and activated again, the catalog that changes texts under
the workers, and the workers themselves. Whether vectors agree with texts, and whether the queue forgets a
document, is decided exactly by the state in which a generation becomes active. `EmbeddingJobs` says what each
statement does to a job, and how often a failing one is retried.

**Pure parts.** Ranking metrics (`evaluate.dfy`), reciprocal-rank fusion and origin diversity
(`fusion.dfy`), canonical JSON with a parser (`json_*.dfy`), UTF-8 and base64url (`encodings.dfy`), page
cursors and resource references (`codecs.dfy`, `cursors.dfy`, `resource_refs.dfy`), and the daily totals
(`analytics.dfy`).

Clocks, calendar days, worker ids, prepared envelopes, network answers, embeddings and the MAC are
parameters. Hashes stand for what they hash. Row ids are positions.

## What the code does not promise on all inputs

- Two owners of one record (same worker id, or a lease that ran out) can store two envelopes; the first
  channel then stays quarantined forever (`TwoOwnersOrphanAChannel`, `OrphanIsForever`). One store keeps
  the tables agreeing if and only if the record had neither envelope nor answer (`StoreKeepsIff`).
- A late owner can overwrite a stored success (`LateOwnerOverwritesSuccess`), because an answer is written
  without looking at the record. A refusal leaves a true answer, and keeps the verdict of an earlier one,
  if and only if the record holds no envelope when it is written (`RefusalIsTrueIff`). With that guard on
  refusals and the one on stores verdicts are final (`VerdictIsFinal`), however many owners there are.
- If the ledger applies an envelope between the archive's "not found" and the reading of the close time,
  recovery records it as expired (`ArchiveRaceWritesExpired`). For a submitted envelope the miss is final
  if and only if the ledger had closed past its maximum time, or the network had answered ERROR, when the
  archive was asked (`MissIsFinalIff`).
- A generation that is activated again can serve the vector of one text as current for another and report
  complete coverage (`ReactivationServesAnotherText`), and can forget a document (`ReactivationForgets`).
  Every vector it will ever serve is right if and only if its jobs, ready vectors and usable claims are true
  at the activation (`VectorsAgreeIff`); no document is ever forgotten if and only if its jobs are accounted
  for (`NothingForgottenIff`). Both hold when no other generation was ever active (`VectorsAgree`,
  `CompleteIffQueueEmpty` from the empty tables).
- When an owner shows a declaration older than the active one again, browsing loses the resource: the
  newer, superseded version outnumbers the active one (`GoingBackHidesTheResource`,
  `ObserveIsClearIff`). A cursor already issued survives an observation exactly unless it revives
  something on top (`CursorSurvivesIff`).
- A settlement whose outcome is rewritten on another day or in another group leaves the daily totals
  different from a recount from then on (`AcrossMidnight`, `RecordAgreesIff`).
- A reference to an mcp resource without a tool name decodes to one with the empty name
  (`RefRoundTripIff`).

Documentation and code differ in two places, and the model follows the code: the facilitator's README
says that a channel stays quarantined until SUCCESS or FAILED, but recovery also frees it when the
envelope has expired; and it says that Horizon serves only balance checks, but recovery asks it whether
an unanswered hash exists.

## Model

| member | source | states |
|---|---|---|
| SettlementSafety.StoredAnswersAreTrue | facilitator/src/orchestrator.ts:306-450 | In every guarded run a stored success was applied and succeeded with the stored hash, a stored transaction failure was applied and failed, and any other refusal of a stored hash is of a hash the ledger never applied and never can. |
| SettlementSafety.VerdictIsFinal | facilitator/src/db/state.ts:303-339 | Once a record is answered, its hash and whether it succeeded never change between any two states of a guarded run, however many owners a record has and even when a poller and recovery both complete it. |
| SettlementSafety.DeadHashNeverApplies | facilitator/src/orchestrator.ts:377-397 | A hash answered as expired or as rejected is never applied by the ledger at any later time. |
| SettlementSafety.QuarantineAlwaysMatches | facilitator/src/db/state.ts:349-356 | In every reachable state of a guarded run the unresolved channels and the records listed for recovery correspond one to one, with matching address, token and sequence. |
| SettlementSafety.OneEnvelopePerRecord | facilitator/src/db/state.ts:122-175 | A record with a hash keeps hash, envelope, channel, token and sequence for the rest of the run, and every later claim of its key resumes, returns the cached answer or conflicts. |
| SettlementSafety.TrueAnswersAgree | facilitator/src/orchestrator.ts:328-450 | Two answers of one record that are both true of one ledger give the same verdict and hash. |
| SettlementSafety.RunKeeps | facilitator/src/orchestrator.ts:127-221 | The protocol invariant (tables agree, processes know what they read, answers are true) holds after every guarded run from a state that satisfies it. |
| SettlementSafety.RunKeepsIff | facilitator/src/db/state.ts:242-339 | A run keeps the invariant in all its states if and only if each store finds a fresh record, each refusal one without an envelope, and each expiry answer a hash the ledger has not applied. |
| SettlementSteps.StepKeepsIff | facilitator/src/db/state.ts:242-339 | From any state that satisfies the invariant a step keeps it if and only if it is guarded. |
| SettlementSteps.RefusalIsTrueIff | facilitator/src/db/state.ts:303-318 | A refusal before submission leaves a true answer, and keeps the verdict of an answer that was there, if and only if the record holds no envelope at that moment. |
| SettlementSingleOwner.SingleOwnerIsGuarded | facilitator/src/db/state.ts:156-166 | A run in which a claim is granted only while no live process owns the record meets the guards of stores and refusals. |
| SettlementArchive.MissIsFinalIff | facilitator/src/orchestrator.ts:381-397 | For a submitted envelope: whatever valid run follows an archive miss, the expiry answer given at that row is right, if and only if at the miss the ledger had closed past the maximum time, the hash was rejected, or there is no maximum time. |
| SettlementArchive.PatientIsGuarded | facilitator/src/orchestrator.ts:377-397 | A run whose passes take an archive miss only when it is final needs no other hypothesis on the ledger. |
| SettlementArchive.CarefulIsGuarded | facilitator/src/orchestrator.ts:143-221 | A run with one owner per record at a time and patient passes is guarded, whatever the ledger does. |
| SettlementSafety.RunAdvances | facilitator/src/db/state.ts:99-347 | Over any guarded run records keep identity, claimed amount and stored envelope, answers keep their verdict, and the ledger revokes nothing. |
| SettlementQuarantine.Correspondence | facilitator/src/db/state.ts:211-356 | In agreeing tables, every unresolved channel belongs to a listed record and every listed record has its unresolved channel, and no two channels share a record. |
| SettlementQuarantine.StoreKeepsIff | facilitator/src/db/state.ts:242-255 | A successful store keeps the tables agreeing if and only if the record had no envelope and no answer. |
| SettlementQuarantine.FirstAnswerFreesChannel | facilitator/src/db/state.ts:303-330 | The first answer of a stored record frees exactly its channel, and a ledger verdict raises that channel's confirmed sequence to the one the envelope consumed. |
| SettlementQuarantine.SecondAnswerLeavesChannels | facilitator/src/db/state.ts:319-330 | A duplicate completion changes no channel and no confirmed sequence. |
| SettlementQuarantine.CompleteKeeps | facilitator/src/db/state.ts:303-339 | Completing a record keeps channels and records in agreement, whoever completes it and however often. |
| SettlementQuarantine.SyncKeeps | facilitator/src/db/state.ts:72-97 | A replica booting with any list of channel keys keeps the agreement: quarantined channels are left alone. |
| SettlementQuarantine.DisableKeeps | facilitator/src/db/keystore.ts:85-111 | Disabling a channel key keeps the agreement. |
| SettlementQuarantine.ReleaseKeeps | facilitator/src/db/state.ts:202-209 | A release under any lease, held or lost, keeps the agreement. |
| SettlementFencing.OneStorePerToken | facilitator/src/db/state.ts:177-226 | In every run at most one store succeeds under a token, and stores on one channel happen under strictly rising tokens. |
| SettlementFencing.LostLeaseStaysLost | facilitator/src/db/state.ts:202-226 | Once a lease was taken over, disabled, reset by a boot, released or spent, every later store under it returns fence_lost and every later release does nothing. |
| SettlementFencing.LeasesAreLostBy | facilitator/src/db/state.ts:72-97 | A takeover of the channel, disabling it, or another replica's boot that resets or disables it loses a lease somebody still holds. |
| SettlementFencing.GrantedLeaseIsNew | facilitator/src/db/state.ts:177-200 | A granted lease raises the token, so no other process holds it and nothing was stored under it. |
| SettlementFencing.SequencesNeverFall | facilitator/src/db/state.ts:227-233 | Over any run a channel's confirmed sequence never falls, and a store is accepted only above it. |
| SettlementBudget.BudgetIsConserved | facilitator/src/db/state.ts:211-289 | For every day of every run the global usage equals the sum over principals and the total fee of all envelopes stored that day, and no row passes its limit. |
| SettlementBudget.OnlyStoresSpend | facilitator/src/db/state.ts:211-268 | A step that stores no envelope changes no usage row. |
| SettlementBudget.FeesSplitByScope | facilitator/src/db/state.ts:270-289 | Fees summed by principal add up to the fees of the day. |
| SettlementSequences.ConsumedSequencesRise | facilitator/src/db/state.ts:227-330 | On each channel the sequences the ledger consumed rise strictly with the tokens they were stored under, and none lies above the confirmed sequence. |
| SettlementSequences.RunKeepsSequences | facilitator/src/db/state.ts:227-330 | The ordering of stored envelopes per channel is kept by every guarded run. |
| SettlementOwners.OwnersAgree | facilitator/src/db/state.ts:139-168 | Any two owners of a key, at any two moments of any run, agree on fingerprint and settlement amount. |
| SettlementOwners.OrphanIsForever | facilitator/src/db/state.ts:319-330 | A channel quarantined for a record that was since stored on another channel is never released by any later step. |
| SettlementClaims.SecondClaim | facilitator/src/db/state.ts:134-168 | After a claim made somebody the owner, every later claim of the key in any run names the same record and gets, by its fields: a conflict on another fingerprint or amount, else the stored answer, else the stored envelope, else to wait or to own by the lease that stands. |
| SettlementClaims.StandingLeaseDecides | facilitator/src/db/state.ts:156-166 | While the record keeps the lease of worker A until t and has neither envelope nor answer, a matching claim by another worker waits before t and owns from t on; one by A owns at any time. |
| SettlementClaims.LeaseExcludes | facilitator/src/db/state.ts:156-166 | Whatever happens before an owner's lease runs out, no claim of another worker is granted, and the record keeps the lease until an envelope or an answer is stored. |
| SettlementChannels.GrantedUntil | facilitator/src/db/state.ts:184-196 | After a grant until t, at any later moment of any run at which nobody else was granted the channel: leased, it can be leased strictly after t and not before; idle, always; quarantined or disabled, never. |
| SettlementChannels.ReleaseFrees | facilitator/src/db/state.ts:202-209 | A release under the lease in force frees the channel for everybody at once, keeping token and confirmed sequence; under any other it changes nothing. |
| SettlementChannels.DisabledStaysDisabled | facilitator/src/db/keystore.ts:85-111 | A disabled channel can be leased at no later time of any run in which no replica boots with its key. |
| SettlementChannels.OperatorDisables | facilitator/src/db/keystore.ts:85-111 | Disabling a known channel takes it, and no other, out of use for as long as no replica boots with its key. |
| SettlementChannels.BootDecides | facilitator/src/db/state.ts:72-97 | A boot makes a channel of its network without a settlement leasable at every time or at none, by whether its key was given; channels with a settlement and other networks are as before. |
| SettlementWrites.StoreAnswers | facilitator/src/db/state.ts:211-241 | In any run a store succeeds if and only if the channel is leased under the token in hand, the sequence is above the last one, and the fees of the day's stores leave room under both limits; the first that fails decides the refusal, which writes nothing. |
| SettlementWrites.StoreWrites | facilitator/src/db/state.ts:242-257 | A store writes envelope, hash, lease, sequence and fee into the record and quarantines the channel for it; every other record and channel is as before. |
| SettlementWrites.AnswerWrites | facilitator/src/db/state.ts:303-318 | An answer goes into its record alone, whose status then says whether it is a success and which is otherwise as before. |
| SettlementWrites.MarkWrites | facilitator/src/db/state.ts:341-347 | After an accepted send the record is pending; after a lost one, or a poll without an answer, it is unknown and claimed by nobody; nothing else changes. |
| SettlementAmounts.SuccessReportsAmount | facilitator/src/orchestrator.ts:332-407 | In any run in which a fingerprint determines the scheme, a stored upto success reports the claimed amount and an exact one none, whether a poller or recovery wrote it. |
| SettlementCounterexamples.TwoOwnersOrphanAChannel | facilitator/src/db/state.ts:156-166 | A run in which two requests of one replica own one record, both store, and the first channel is orphaned forever. |
| SettlementCounterexamples.LateOwnerOverwritesSuccess | facilitator/src/orchestrator.ts:173-190 | A run in which a stored success is overwritten by a late refusal although the ledger applied the hash. |
| SettlementCounterexamples.ArchiveRaceWritesExpired | facilitator/src/orchestrator.ts:381-397 | A run in which recovery records an applied hash as expired. |
| SettlementRecovery.PassDrains | facilitator/src/orchestrator.ts:216-221 | From every reachable state, a recovery pass in which every lookup answers and every listed envelope is past its maximum time leaves no waiting record and no unresolved channel of a served network, whatever else interleaves except new stores; the pass needs no hypothesis on the ledger for its own rows. |
| SettlementRecovery.PassDrainsFrom | facilitator/src/orchestrator.ts:377-450 | The same from any state satisfying the invariant, and every listed record of a served network has a response. |
| SettlementRecovery.PassProgresses | facilitator/src/orchestrator.ts:377-416 | A draining pass with rows left always has an enabled, guarded next step that shortens what is left. |
| SettlementRecovery.PassCanFinish | facilitator/src/orchestrator.ts:216-221 | A draining pass over n rows can be completed in at most 4n steps. |
| SettlementCore.FacilitatorCore.RunSettle | facilitator/src/orchestrator.ts:127-214 | Running alone, a settlement request takes to its end the one run that heeds what the outside answers, no step left out and no crash; the reply fits that end, is a conflict exactly for another fingerprint or amount, and otherwise carries an answer exactly if one is stored, the same one and true of the ledger. |
| SettlementCore.FacilitatorCore.SettleOwned | facilitator/src/orchestrator.ts:155-190 | From claim to reply, an owner's lease, preparation, release and refusal are the run that heeds the outside answers, no channel being found only if none could be leased; the reply fits its last step and the record. |
| SettlementCore.FacilitatorCore.StoreAndSubmit | facilitator/src/orchestrator.ts:191-213 | Storing the prepared envelope, or giving the lease back with the refusal of each failing result, is the run that heeds the outside answers, and the reply fits its last step. |
| SettlementCore.FacilitatorCore.SubmitPersisted | facilitator/src/orchestrator.ts:306-326 | Sending with one retry, the mark for each answer, the mark when a write fails after the answer, and the poll afterwards are the run that heeds the outside answers, and the reply fits its last step and the record. |
| SettlementCore.FacilitatorCore.PollKnown | facilitator/src/orchestrator.ts:328-350 | Polling a known hash replies the ledger's verdict exactly when some poll answers on an applied hash, and otherwise an unknown status; both are written as replied. |
| SettlementCore.FacilitatorCore.Poll | facilitator/src/orchestrator.ts:352-365 | The loop finds the hash if and only if it is applied and some attempt before the deadline gets an answer. |
| SettlementCore.FacilitatorCore.PollRecordWithoutRequest | facilitator/src/orchestrator.ts:377-416 | A visit finds the hash exactly when it is applied and some poll is answered, and changes the tables as poll, archive and expiry together decide. |
| SettlementCore.FacilitatorCore.RecoverUnresolved | facilitator/src/orchestrator.ts:216-221 | Running alone over a ledger that stands still, the loop over unresolved records is the run that heeds every lookup and visits every row; it keeps the invariant, and drains every served network when all lookups answer and all listed envelopes are expired. |
| SettlementCore.ClaimNames | facilitator/src/db/state.ts:122-175 | A claim leaves a record of its key; it conflicts exactly on that record's fingerprint or amount, and otherwise names that record, with its answer if there is one and no answer if it lets somebody wait, resume or own. |
| SettlementTables.IndexOf | facilitator/src/db/state.ts:134-138 | The unique index finds the first record of the key, or says there is none. |
| SettlementTables.Register | facilitator/src/db/state.ts:106-112 | Registering never changes which record a key finds, and leaves one. |
| SettlementStore.StateStore.RegisterIdempotency | facilitator/src/db/state.ts:99-120 | The method inserts the record once and reports a conflict exactly on another fingerprint. |
| SettlementStore.StateStore.ClaimSettlement | facilitator/src/db/state.ts:122-175 | The method refines the claim: fingerprint, amount, cached answer, stored hash, live lease, owner, in that order. |
| SettlementStore.StateStore.Lease | facilitator/src/db/state.ts:177-200 | The method grants some leasable, allowed, unlocked channel under a raised token, and none exactly when there is none. |
| SettlementStore.StateStore.Release | facilitator/src/db/state.ts:202-209 | The method frees the channel only under the current token while leased. |
| SettlementStore.StateStore.Sync | facilitator/src/db/state.ts:72-97 | The statement and the loop over addresses reset known channels, disable others, add new ones and leave channels with a settlement alone. |
| SettlementStore.StateStore.Disable | facilitator/src/db/keystore.ts:85-111 | The method refuses exactly the channels with a settlement and disables the others. |
| SettlementStore.StateStore.ReserveBudget | facilitator/src/db/state.ts:270-289 | The method reserves exactly when both limits allow it, and then adds the fee to both rows. |
| SettlementStore.StateStore.StorePreparedAndReserve | facilitator/src/db/state.ts:211-268 | The method decides fence, sequence, budget in that order; only a stored result changes any table. |
| SettlementStore.StateStore.CompleteSettlement | facilitator/src/db/state.ts:303-339 | The method writes the answer and frees the channel only if it is still quarantined for this record. |
| SettlementStore.StateStore.ListUnresolved | facilitator/src/db/state.ts:349-356 | The loop lists exactly the waiting records, each once. |
| CatalogIntegrity.CatalogIsSound | facilitator/src/db/catalog.ts:132-378 | Through any observations and status changes every option pays the first owner, a resource has at most one active version and it is the one pointed at, and a slot of a version has at most one live option. |
| CatalogIntegrity.RunKeeps | facilitator/src/db/catalog.ts:132-378 | The catalog invariant holds after any commits from a state that satisfies it. |
| CatalogIntegrity.NumbersAreOneToN | facilitator/src/db/catalog.ts:261-267 | The version numbers of a resource are exactly 1 to n, each once, in order of insertion. |
| CatalogIntegrity.OwnersNeverChange | facilitator/src/db/catalog.ts:193-215 | Whatever is observed, a resource keeps its key, its kind and its owner. |
| CatalogIntegrity.UpsertKeepsUnique | facilitator/src/db/catalog.ts:341-378 | Showing terms keeps one row per terms and one live row per slot, revival included. |
| CatalogIntegrity.ActivateSettles | facilitator/src/db/catalog.ts:310-334 | Activating a version restores the invariant whatever was true of that version before. |
| CatalogSnapshots.SnapshotsAreStable | facilitator/src/db/catalog.ts:496-529 | From every reachable state and for every snapshot taken, the filtered rows and their accepts are the same after any later commits that revive nothing. |
| CatalogSnapshots.RunIsLater | facilitator/src/db/catalog.ts:269-378 | Commits that revive nothing change a table only by rows created, and retirements made, after the watermark. |
| CatalogSnapshots.BrowseIsListingIff | facilitator/src/db/catalog.ts:789-794 | A browse at the watermark is the current listing for every filter if and only if no superseded version outnumbers the active one of its resource. |
| CatalogRevival.BrowseIsListing | facilitator/src/db/catalog.ts:503-529 | After any history in which no owner goes back to an older declaration, a browse at the watermark is the active versions with their live options. |
| CatalogRevival.SnapshotIsThePast | facilitator/src/db/catalog.ts:496-529 | A browse as of S after further commits that revive nothing is the listing as it stood at commit S. |
| CatalogRevival.ObserveIsClearIff | facilitator/src/db/catalog.ts:229-238 | An observation leaves an active version shadowed if and only if the owner goes back to a declaration older than the active one. |
| CatalogRevival.GoingBackHidesTheResource | facilitator/src/db/catalog.ts:323-328 | After showing one declaration, another and the first again, the resource is listed and priced, and browsing returns nothing. |
| CatalogRevival.RivalChangesNothing | facilitator/src/db/catalog.ts:203-211 | An observation by another seller changes no option and no row of the listing. |
| CatalogCursors.CursorSurvivesIff | facilitator/src/db/catalog.ts:221-259 | A browse at the snapshot taken just before an observation is unchanged by it if and only if it neither revives terms of the active version nor activates a stored declaration that comes out on top. |
| CatalogPages.PagesAreTheListing | facilitator/src/db/catalog.ts:503-529 | Pages at successive offsets, each read at a different later state, concatenate to exactly the listing of the moment the cursor was issued, lifecycle held fixed. |
| CatalogPages.PagesJoin | facilitator/src/db/catalog.ts:516-522 | Pages cut at successive offsets join without repetition or gap. |
| CatalogPages.RowsDescend | facilitator/src/db/catalog.ts:517-522 | A listing has each resource at most once, the newest first. |
| CatalogPages.AcceptsPayTheOwner | facilitator/src/db/catalog.ts:665-684 | The accepted terms of a row all pay the owner and never tie in the order they are sorted in. |
| CatalogFilters.FilteredBrowse | facilitator/src/db/catalog.ts:719-750 | A filtered browse is those rows of the unfiltered one, in order, that have the kind and extension asked for and accept some one option with the network, scheme, payee and asset asked for at no more than the maximum price. |
| CatalogFilters.BrowseShows | facilitator/src/db/catalog.ts:709-717 | An unfiltered browse has a row for exactly the resources known at the snapshot whose newest version published by then was alive and had a live option, and the row shows that version and all its live options. |
| CatalogFilters.RaisingThePriceKeepsRows | facilitator/src/db/catalog.ts:743-746 | A row found under a maximum price is found under every higher one. |
| CatalogFilters.SinglePriceIsFoundIff | facilitator/src/db/catalog.ts:743-746 | A row with one option of price c is found if and only if c is at most the maximum. |
| CatalogFilters.FilterLetsThrough | facilitator/src/db/catalog.ts:752-760 | Rows and total are cut from the rows whose resource is listed and was seen recently, or, when stale ones are asked for, is listed or stale, and whose version is verified unless unverified ones are asked for. |
| CatalogLifecycle.ShowingIsSeen | facilitator/src/db/catalog.ts:193-259 | An observation by the owner sets the time the resource was last seen, lists it again if it was stale, leaves any other status alone and touches no other resource. |
| CatalogLifecycle.FirstShowingLists | facilitator/src/db/catalog.ts:154-191 | A key that was not known gets a listed resource, owned by the payee and seen now. |
| CatalogLifecycle.BlockedStaysBlocked | facilitator/src/db/catalog.ts:481-494 | Through any observations and sweeps a quarantined, disabled or tombstoned resource keeps its status; only an order about its key changes it. |
| CatalogLifecycle.OrderIsObeyed | facilitator/src/db/catalog.ts:481-494 | An order sets the status of the resource with the key and changes nothing else. |
| CatalogLifecycle.UnseenGoesStale | facilitator/src/db/catalog.ts:472-479 | A listed or stale resource that its owner shows no more ends stale if and only if it was stale or some sweep's cutoff lay after it was last seen. |
| CatalogLifecycle.SweepDemotes | facilitator/src/db/catalog.ts:472-479 | A sweep makes exactly the listed resources stale that were last seen before its cutoff. |
| CatalogLifecycle.LateAreCounted | facilitator/src/db/catalog.ts:472-479 | The number a sweep reports is the number of listed resources last seen before its cutoff. |
| CatalogLifecycle.WatermarkRises | facilitator/src/db/catalog.ts:132-152 | The watermark rises by one for every observation that is not rolled back and every order about a known key, and once for every resource a sweep demotes. |
| CatalogRows.CatalogStore.ObserveCandidate | facilitator/src/db/catalog.ts:132-152 | The transaction draws a watermark and creates or updates; a unique violation rolls everything back, watermark included. |
| CatalogRows.CatalogStore.Change | facilitator/src/db/catalog.ts:193-259 | The method decides rival, same declaration, rejected change and new version as the table function does. |
| CatalogRows.CatalogStore.AddResource | facilitator/src/db/catalog.ts:159-191 | The method creates the resource with its first version and option, active or pending. |
| CatalogRows.CatalogStore.AddOption | facilitator/src/db/catalog.ts:341-378 | The method keeps, replaces or revives the row and returns one that is live and has the terms. |
| CatalogRows.CatalogStore.Promote | facilitator/src/db/catalog.ts:310-334 | The statements supersede the active version and activate the given one. |
| CatalogRows.CatalogStore.NextVersionNumber | facilitator/src/db/catalog.ts:261-267 | The loop returns one more than the highest number of the resource. |
| CatalogRows.CatalogStore.List | facilitator/src/db/catalog.ts:503-529 | The page is the slice of the shown rows, and partial results are reported exactly when another page exists or a row of the snapshot is no longer shown. |
| EmbeddingVectors.VectorsAgreeIff | facilitator/src/db/search.ts:107-155 | At any moment of any history, generations switched in any order: every vector the active generation will ever serve as current is that of its document's text if and only if its jobs, ready vectors and usable claims are true then. |
| EmbeddingVectors.VectorsAgree | facilitator/src/search/worker.ts:128-155 | In every history from the empty tables in which only one generation was ever activated, a ready vector whose hash is its document's is the embedding of the document's current text. |
| EmbeddingVectors.CompleteMeansCovered | facilitator/src/db/search.ts:405-432 | From any truthful moment on, coverage reported complete means that every active document has the embedding of its current text. |
| EmbeddingVectors.StepKeepsTruth | facilitator/src/db/catalog.ts:423-446 | Index, claim, store, fail, adopt, insert, stale and revive all keep jobs, vectors and usable claims true while the generation is served. |
| EmbeddingCoverage.NothingForgottenIff | facilitator/src/db/search.ts:181-219 | At any moment of any history: no active document will ever be without both a current vector and an unfinished job if and only if every one is tracked and every job of the generation is accounted for then. |
| EmbeddingCoverage.CompleteIffQueueEmpty | facilitator/src/db/search.ts:181-219 | From any accounted moment on, the first activation included: once missing jobs were inserted, at any later time coverage is complete if and only if every job of the generation is done. |
| EmbeddingCoverage.InsertTracks | facilitator/src/db/search.ts:199-219 | After inserting missing jobs every active document has a current vector or a job. |
| EmbeddingReactivation.ReactivationServesAnotherText | facilitator/src/db/search.ts:118-133 | A run in which a generation is activated and prepared again and, three steps later, serves the embedding of the old text as current and reports complete coverage. |
| EmbeddingReactivation.ReactivationForgets | facilitator/src/db/search.ts:118-133 | At the end of the same preparation neither condition holds, and some continuation forgets the document. |
| EmbeddingProtocol.RunIsKept | facilitator/src/db/search.ts:226-356 | In every run jobs have documents, claims are never newer than the last lease of their job, and whoever leased or finished a job last holds a claim that can still be used. |
| EmbeddingProtocol.LateWorkerWritesNothing | facilitator/src/db/search.ts:349-356 | A worker whose job was claimed again stores nothing and fails nothing, at any later time. |
| EmbeddingJobs.LeaseExcludes | facilitator/src/db/search.ts:226-261 | A claimed job cannot be claimed again before its lease has run out, and can from then on. |
| EmbeddingJobs.FailuresMean | facilitator/src/db/search.ts:362-389 | Of a batch on distinct jobs, each job held under the current token ends with one more attempt and no lease, dead exactly if that reaches the limit and otherwise claimable exactly from its backoff time on; nothing else changes. |
| EmbeddingJobs.DeadAreCounted | facilitator/src/db/search.ts:362-389 | For distinct jobs that are all held the number reported dead is the number of jobs the batch leaves dead. |
| EmbeddingJobs.RetriesEnd | facilitator/src/db/search.ts:362-389 | A new job taken and failed again and again is retried up to its limit, each time from its backoff on, and is dead from the failure that reaches the limit, not before. |
| EmbeddingJobs.StoresMean | facilitator/src/db/search.ts:276-347 | Each entry of a batch leaves nothing if its job was claimed again, the vector and a finished job if the text is still the claimed one, and otherwise a job that is free from now on. |
| EmbeddingJobs.InsertingQueues | facilitator/src/db/search.ts:199-219 | After inserting missing work every active document without a current vector has a job for its text: new ones free at once, dead ones dead, finished ones for that text finished, others queued no later than now. |
| EmbeddingJobs.AdoptionQueues | facilitator/src/db/search.ts:181-198 | An unassigned job moves to the generation, free from now on, unless the generation already has one. |
| EmbeddingJobs.RevivingFrees | facilitator/src/db/search.ts:391-403 | Reviving frees exactly the dead jobs of the generation and gives them all their attempts back. |
| EmbeddingJobs.IndexingQueues | facilitator/src/db/catalog.ts:423-446 | A changed text puts the job of the active generation back in the queue, and the same text leaves it alone. |
| EmbeddingJobs.CoverageCounts | facilitator/src/db/search.ts:405-432 | A coverage report counts active documents, those with a ready vector of their text, jobs waiting or leased, and dead jobs. |
| EmbeddingWorkers.SearchStore.Claim | facilitator/src/db/search.ts:226-261 | The method claims up to a batch of claimable jobs under raised tokens, and none only if none is free. |
| EmbeddingWorkers.SearchStore.StoreEmbeddings | facilitator/src/db/search.ts:276-347 | The loop stores exactly the entries that pass fence and hash check, and counts them. |
| EmbeddingWorkers.SearchStore.FailJobs | facilitator/src/db/search.ts:362-389 | The loop requeues or dead-letters each job it still holds, one more attempt and no lease, dead exactly at the limit; for distinct held jobs the two numbers it reports are those of rows it left dead and free. |
| EmbeddingWorkers.FreshClaimsStore | facilitator/src/db/search.ts:276-347 | A batch of fresh claims on distinct jobs is stored entirely. |
| EmbeddingWorkers.EmbeddingWorker.ProcessBatch | facilitator/src/search/worker.ts:128-155 | A batch is stored or failed as a whole, and the counters move accordingly. |
| EmbeddingWorkers.EmbeddingWorker.RunOnce | facilitator/src/search/worker.ts:110-126 | A pass is a run of the queue protocol; one that stores nothing, with a provider that answers and jobs in step with their documents, leaves nothing claimable. |
| EmbeddingWorkers.EmbeddingWorker.Drain | facilitator/src/search/worker.ts:158-166 | A drain is a run, and one that stops before its pass budget, under the same conditions, leaves no claimable job. |
| Evaluate.NdcgIsNormalized | facilitator/src/search/evaluate.ts:57-91 | For a ranking without repeats and one judgment per resource every nDCG@k is in the unit interval, and it is 1 exactly when the first k positions carry the k highest grades in falling order. |
| Evaluate.FallingListingIsPerfect | facilitator/src/search/evaluate.ts:75-87 | Listing the judged resources by falling grade gives nDCG 1 at every cutoff. |
| Evaluate.FallingIsBest | facilitator/src/search/evaluate.ts:57-59 | Rearrangement and top-k domination: no order of grades taken from a set scores more than the falling order, and only that order scores as much. |
| Evaluate.GainsGrow | facilitator/src/search/evaluate.ts:58 | Grade 0 gains nothing, and a grade gains as much as all lower grades together and its own number more. |
| Evaluate.RankedGradesAreWithin | facilitator/src/search/evaluate.ts:67-87 | A ranking without repeats shows each grade at most as often as it was judged. |
| Evaluate.DescendingIsSorted | facilitator/src/search/evaluate.ts:75 | The ideal grades are the judged grades in falling order. |
| Evaluate.RecallGrows | facilitator/src/search/evaluate.ts:78-80 | Recall is in the unit interval and never falls with a larger cutoff. |
| Evaluate.ScoreQuery | facilitator/src/search/evaluate.ts:61-113 | The loop fills every cutoff, finds the reciprocal rank of the first relevant result, and says whether a result was returned, whether that is what the query expects, and whether the query can be evaluated. |
| Evaluate.SharesMean | facilitator/src/search/evaluate.ts:78-83 | For a ranking without repeats, precision is the share of the k places that show relevant resources and recall the share of the relevant resources that are shown. |
| Evaluate.CountsMean | facilitator/src/search/evaluate.ts:86-90 | Violations count the shown resources judged 0, and unjudged results the shown resources without any judgment. |
| Evaluate.ReciprocalRankMeans | facilitator/src/search/evaluate.ts:92-95 | The reciprocal rank is one over the place of the first relevant result, and zero exactly if none is shown. |
| JsonRoundTrip.ParseUndoesCanonical | facilitator/src/bazaar/sanitize.ts:47-55 | Parsing the canonical text gives back the value with keys sorted, undefined members dropped and undefined entries null. |
| JsonRoundTrip.StringRoundTrip | facilitator/src/bazaar/sanitize.ts:49 | Every text survives JSON escaping (section 7 of RFC 8259), lone surrogates included. |
| JsonMeaning.PrintAlikeIffSameMeaning | facilitator/src/bazaar/sanitize.ts:47-55 | Two values print alike if and only if they mean the same up to the order of keys. |
| JsonMeaning.EntriesMean | facilitator/src/bazaar/sanitize.ts:51-53 | The printed entries are in strictly ascending key order and mean what the object means. |
| JsonMeaning.NormalMeansTheSame | facilitator/src/bazaar/sanitize.ts:47-55 | The normal form means the same as the value. |
| JsonMeaning.BeforeIsTotal | facilitator/src/bazaar/sanitize.ts:53 | Key order by code unit is a strict total order. |
| JsonMeaning.BeforeIsFirstDifference | facilitator/src/bazaar/sanitize.ts:53 | One key precedes another exactly if it is a proper prefix of it or has the smaller code unit at the first place where they differ. |
| JsonMeaning.NumberIsGrammar | facilitator/src/bazaar/sanitize.ts:47-55 | The numbers that canonical text may carry and its parser reads are exactly those of the grammar: minus, int without leading zeros, frac, exp (section 6 of RFC 8259). |
| JsonMeaning.JsonDepth | facilitator/src/bazaar/sanitize.ts:36-44 | The early-exit scan passes the limit exactly when the true depth does, and otherwise returns the true depth. |
| Encodings.Utf8RoundTripIff | facilitator/src/http/cursor.ts:28 | Text survives UTF-8 if and only if it has no lone surrogate. |
| Encodings.Utf8Mends | facilitator/src/http/cursor.ts:28 | Any text comes back from UTF-8 with every lone surrogate replaced by U+FFFD and everything else as it was. |
| Encodings.ReadIsWritten | facilitator/src/http/cursor.ts:41 | Bytes that are read as text are exactly those that would be written for it: no overlong form, no encoded surrogate (section 3 of RFC 3629). |
| Encodings.Base64RoundTrip | facilitator/src/http/cursor.ts:28 | Any bytes survive base64url (section 5 of RFC 4648). |
| Encodings.Base64HasNoStop | facilitator/src/http/cursor.ts:28 | The encoded word consists of letters, digits, hyphens and underscores. |
| Codecs.PackRoundTrip | facilitator/src/http/cursor.ts:28-41 | Any value survives packing up to its normal form, and the word never contains the separator. |
| Codecs.CanonicalIsPaired | facilitator/src/bazaar/sanitize.ts:47-55 | Canonical text never has a lone surrogate. |
| Codecs.WrittenIsShortest | facilitator/src/bazaar/sanitize.ts:49 | No text without lone surrogates that reads as a given string is shorter than the one written. |
| Codecs.CapitalsAreOwn | facilitator/src/bazaar/sanitize.ts:49 | Escapes are written in lower case: a capital letter in the written text stands for itself. |
| Cursors.CursorRoundTrip | facilitator/src/http/cursor.ts:27-53 | Decoding undoes encoding exactly for payloads that have not expired and whose session id is a UUID, and refuses the others. |
| Cursors.CursorsAreInjective | facilitator/src/http/cursor.ts:27-30 | Different payloads have different cursors, whatever the MAC. |
| Cursors.CursorIsAcceptedIff | facilitator/src/http/cursor.ts:32-53 | A word is accepted, with a given payload, if and only if it is version, stop, body, stop and the base64url of the MAC of version, stop and body, and the body packs an object that carries the payload, has not expired and names a UUID if it names a session. |
| Cursors.ForgedCursorIsRefused | facilitator/src/http/cursor.ts:33-38 | A word under a signature other than that of its body is refused, whatever the body. |
| Cursors.ReplacedBodyIsRefused | facilitator/src/http/cursor.ts:35-38 | A cursor whose body was replaced is refused whenever the new body's MAC differs. |
| Cursors.SessionIdIsUuid | facilitator/src/http/cursor.ts:43-48 | The session ids that are accepted are exactly the UUIDs of version 4 and variant 1 in either case. |
| ResourceRefs.RefRoundTripIff | mcp-server/src/resourceRef.ts:35-68 | Decoding undoes encoding if and only if an http identity names no tool and an mcp identity does. |
| ResourceRefs.RefsAreInjectiveIff | mcp-server/src/resourceRef.ts:35-42 | Two identities share a reference if and only if they settle to the same identity. |
| ResourceRefs.RefDecodes | mcp-server/src/resourceRef.ts:44-68 | Every reference decodes to the settled form of its identity. |
| ResourceRefs.RefIsAcceptedIff | mcp-server/src/resourceRef.ts:44-68 | A word is accepted as the reference of an identity if and only if it is the version, a stop and the packing of an object that names that identity. |
| Fusion.Fuse | facilitator/src/search/fusion.ts:39-73 | The loops return each resource of a positive-weight branch exactly once, with the formula's score, the ranks and the version of its first branch, strictly ordered. |
| Fusion.CountBranch | facilitator/src/search/fusion.ts:45-71 | The inner loop counts one branch into the table, ranks counting distinct ids up to the first occurrence. |
| Fusion.ScoreMeans | facilitator/src/search/fusion.ts:1-17 | The score of a resource is a sum of one share per branch: the weight divided by k plus its place among the distinct resources of that branch, and nothing where it is missing or the weight is not positive. |
| Fusion.VersionMeans | facilitator/src/search/fusion.ts:57-70 | The version is that of the first place in the first branch that shows the resource. |
| Fusion.RanksName | facilitator/src/search/fusion.ts:57-70 | A result carries a rank for exactly the names of the branches that show it. |
| Fusion.RanksMean | facilitator/src/search/fusion.ts:57-70 | The rank under a name is the place in the last branch of that name that shows the resource. |
| Fusion.DominantComesFirst | facilitator/src/search/fusion.ts:1-17 | A resource ranked at least as well as a rival in every branch holding the rival, and better in one, precedes it. |
| Fusion.OrderIsStrictAndTotal | facilitator/src/search/fusion.ts:75-79 | The comparison is a strict total order on results of different resources. |
| Fusion.ResultsAreUnique | facilitator/src/search/fusion.ts:39-73 | No other list meets what fusing promises, so two runs agree. |
| Fusion.ApplyOriginDiversity | facilitator/src/search/fusion.ts:85-107 | The loop demotes and drops nothing: the result is the kept results followed by the overflow. |
| Fusion.SplitIsFair | facilitator/src/search/fusion.ts:85-107 | In front of the overflow every origin has as many results as there are, up to the limit. |
| Fusion.SplitIsInOrder | facilitator/src/search/fusion.ts:85-107 | Kept results and overflow are each in the order of the input, and a result is kept exactly if fewer than the limit of its origin come before it. |
| Fusion.RankCountsEarlierIds | facilitator/src/search/fusion.ts:48-53 | The rank of an id in a branch is one more than the number of other distinct ids before its first occurrence. |
| Analytics.RecordAgreesIff | facilitator/src/db/analytics.ts:62-131 | A call keeps the daily totals equal to a recount of the events if and only if it does not rewrite a settled fact on another day or in another group. |
| Analytics.TotalsAreRecounts | facilitator/src/db/analytics.ts:62-131 | After any calls that rewrite facts in place every daily row is the count and the sums of its settled events. |
| Analytics.DailyRowsMean | facilitator/src/db/analytics.ts:99-122 | After any calls that rewrite facts in place a row's transactions, amount and fee are the number of settled facts of its day, group and status, the sum of their amounts and the sum of their fees, an absent one counting 0. |
| Analytics.FactsFollowReports | facilitator/src/db/analytics.ts:76-97 | A fact keeps the day of the first report of its settlement and stage and shows what the last one said. |
| Analytics.AcrossMidnight | facilitator/src/db/analytics.ts:99-122 | An outcome that becomes known on the next day leaves the totals off. |
| Analytics.FactsStayUnique | facilitator/src/db/analytics.ts:76-97 | A settlement and stage has one fact however often it is recorded. |
| Analytics.AnalyticsStore.RecordEvent | facilitator/src/db/analytics.ts:62-131 | The method upserts the fact, takes the previous share out of its row and adds the new share to today's. |

## Left out

- PostgreSQL itself: each store method is one atomic step, SKIP LOCKED is a nondeterministic choice, ids are positions without gaps, and a statement never sees half of another transaction.
- Clocks: times are natural numbers given to each call; nothing relates the clocks of two replicas.
- Row timestamps and the orders that depend on them (`updated_at`, `next_run_at`, `last_seen_paid`).
- Audit rows, `upsertChannel`, simulation windows, the limit on pending settlements and the wait for another owner's answer: they write nothing the results depend on.
- Preparing a settlement (Stellar SDK, XDR, signatures, simulation): its answer is a parameter, and only the refusals the orchestrator tells apart are.
- The fingerprint of a request: an opaque value, because its key order depends on the locale.
- The in-process semaphore: its bound depends on the order of microtasks.
- Payer, network and message fields of an outcome, and the status argument of a completion, which the outcome determines.
- SettlementCore.FacilitatorCore.RunSettle: does not model steps of other callers between its own; interleaved callers are modelled by the state machine only.
- SettlementCore.FacilitatorCore.RecoverUnresolved: does not model other callers or a ledger that moves during the pass; the state machine does.
- One ledger and one close time stand for all networks.
- SettlementArchive.MissIsFinalIff: the only-if half is for envelopes that were submitted before the miss; one that was not may still be sent by a process that read it.
- SettlementStore.StateStore.ListUnresolved: does not model the order of the result, which is by row timestamp.
- SettlementStore.StateStore.Lease: does not model which of several leasable channels is taken, which is by row timestamp.
- CatalogPages.AcceptsPayTheOwner: does not model the collation that orders accepted terms, only that the order has no ties.
- CatalogRows.CatalogStore.List: does not model text queries, whose documents are rewritten in place, nor the displayed timestamps.
- CatalogRows.CatalogStore.AddOption: does not model the columns outside the option hash (symbol, decimals, protocol version).
- Catalog observations log, resource detail, candidates for retrieval and reranking.
- Versions marked tombstoned: nothing in the code writes that status.
- Embedding jobs of deleted documents, vector dimensions, generation rows and their statistics.
- Evaluate.ScoreQuery: keeps the five records of a cutoff in one value, and takes positive cutoffs only, because the code divides by the cutoff.
- Logarithms and floating-point rounding: the discount is any positive, strictly decreasing function and sums are real.
- Suite aggregation, percentiles and lift over metrics.
- JsonRoundTrip.ParseUndoesCanonical: the parser reads canonical text, so it accepts no whitespace and keeps duplicate keys; values that JSON cannot express (functions, symbols, big integers, objects with their own serialization) are not modelled.
- ResourceRefs.RefDecodes: does not model hand-written references with whitespace, padding, a foreign alphabet or malformed UTF-8, which the runtime's lenient decoders may still accept.
- Key order of integer-like keys in the MCP server's own canonical JSON, which follows the runtime's property order and not the code-unit order; references have no such keys.
- Cursors.CursorIsAcceptedIff: does not model a signed body that is not base64url or not UTF-8, which the runtime's lenient decoders may still read; the service signs none.
- Cursors.CursorRoundTrip: payload numbers are safe integers; a fractional expiry is not modelled.
- Secrecy and unforgeability of the MAC, key encryption, hashing.
- Fusion.ApplyOriginDiversity: an unknown origin is a value of its own, distinct from every URL.
- Concurrent first records of one settlement in the analytics table.
- HTTP routing, configuration, command-line tools, the frontend, fixtures and benchmarks.
