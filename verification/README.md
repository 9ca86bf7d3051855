# The VGI bridge, verified

A Dafny 4.11 model of the parts of the VGI bridge and of its commit check whose correctness spans many steps, and
proofs about them. `dafny verify dfyconfig.toml` checks everything.

The bridge acts on forges (GitHub, Forgejo) for a VTC. Four things are modelled.

**The versioned mirror and its writer lease.** In VTA mode the bridge's store is a cache of a remote store with one
counter, conditional writes, tombstones and two listing modes. `AppState` is that remote, `Keys` its text keys.
`MirrorTask` is the mirror as the class it is in the source: the dirty set, the in-flight count, the versions last seen,
a write-back pass, `run`, `flush` and `pull`, with the lease and sealed secrets. Wherever the source waits, a script
says what the rest of the world does meanwhile (this host's other tasks, other writers, reaping, outages, clocks); the
contracts hold for every script, so for every interleaving. `Mirroring` holds the value-level specification: what a
view of the whole looks like, what each kind of step may change, and the lemmas. `LeaseProtocol` is the lease between
several hosts with real clocks, and gives the exact clock skew up to which it excludes.

**Verdicts.** `MergePolicy` is the platform-merge policy as a function over any commit graph, and what it means;
`MergePolicyLoop` is the loop that computes it in place on an array. `CheckFacts` feeds it from a commit listing.
`Verification` is the whole check: signatures, registry queries over a channel that latches its first failure, the
policy, and the report.

**The job ledger and outbox.** `Ledger` has every stretch of a handler, a run task or a send between two waits as a
function on the tables and tasks, and theorems over every run of any number of processes. `BridgeTasks` is the class
that does these things in place, and a sending that waits for the mirror.

**Smaller state machines.** `Ownership` and `Webhooks`: which namespace governs a repository, under webhooks.
`RegistryReplies`: queries in flight on a shared session. `RoleMaps`: role-map layers and their validation.

Some properties hold of the code only under a condition, which the model makes exact:

- The lease excludes another writer for the life of a write if and only if every clock is within 10 seconds of the
  remote's (`LeaseProtocol.ExclusionBound`). Past that, a run that breaks exclusion is constructed.
- A mirror's deletion is sent with the version the host goes by for the key, and so replaces no other, if and only if
  it goes by one now; if not, whatever is there is destroyed (`Mirroring.UnseenIsDeletedUnconditionally`). The host
  goes by none for a key it never saw (`Mirroring.ForeignRecordCanBeDeleted`), and also for one it saw and deleted
  (`Mirroring.RecreatedRecordCanBeDeleted`).
- State before report: a document goes out only once nothing is pending in the mirror. What it reports is then in the
  remote if and only if it is not larger than the remote stores (`Mirroring.FlushedMeans`): an oversized record is
  skipped, and reported all the same (`Mirroring.OversizedIsNotWritten`).
- A detach spares what another namespace claims if and only if a store read that worked shows a claim
  (`Ownership.ClaimsOutliveADetachIfSeen`): the code takes a failed read for nothing found, so another owner's
  repository can be detached (`Ownership.UnreadRecordIsDetached`).
- No event of an orphaned namespace is sent, as far as the look before the sending goes: an event is announced, put in
  the outbox and sent in separate steps, and the namespace can be orphaned between any two
  (`Ledger.NothingPassesUnscreened`, `Ledger.EventsOutliveTheirNamespace`).

In the third column below, "every interleaving" means every script, action sequence or order of steps.

## Model

| member | source | states |
|---|---|---|
| AppState.MemoryAppState.Put | crates/vgi-bridge/src/appstate.rs:305-379 | a put applies exactly when its precondition holds of the live version, takes the next counter value and is stamped; otherwise it reports the live version and changes nothing |
| AppState.MemoryAppState.Delete | crates/vgi-bridge/src/appstate.rs:381-400 | a deletion leaves a tombstone at a new version; of nothing it does nothing |
| AppState.MemoryAppState.List | crates/vgi-bridge/src/appstate.rs:320-342 | a complete feed, or a snapshot once tombstones were reaped, at the current counter |
| AppState.MemoryAppState.ReapTombstones | crates/vgi-bridge/src/appstate.rs:291-303 | only tombstones go, and listings are snapshots from then on |
| AppState.EvolveKeepsAccounts | crates/vgi-bridge/src/appstate.rs:777-845 | a remote that accounts for what a host mirrored still does after any puts, deletions, counter bumps and reaping by anyone |
| AppState.DeletedStaysDeleted | crates/vgi-bridge/src/appstate.rs:305-400 | a deleted key nobody writes again has no live record, its tombstone kept or reaped |
| Keys.RenderParse | crates/vgi-bridge/src/appstate.rs:401-419 | reading back the text of a key gives the key |
| Keys.ParseRender | crates/vgi-bridge/src/appstate.rs:401-419 | every text key is the text of what it is read as |
| Keys.TextsName | crates/vgi-bridge/src/appstate.rs:401-449 | which text names the lease, a secret, or a record of each of the four tables; the host's own binding record is none of them |
| Keys.NoSecretsAfterRecords | crates/vgi-bridge/src/appstate.rs:855-883 | in text order every secret comes before every record |
| Keys.FirstExists | crates/vgi-bridge/src/appstate.rs:786-855 | a set of keys has a first one in text order |
| Keys.SecretAadInjective | crates/vgi-bridge/src/appstate.rs:424-449 | two secrets' associated data agree only for the same name and version |
| Mirroring.ReplayedSecretDoesNotOpen | crates/vgi-bridge/src/appstate.rs:424-454 | a sealed secret found under any other name or version than it was sealed for does not open, and a remote holding one is refused |
| MirrorTask.Mirror.Await | crates/vgi-bridge/src/appstate.rs:926-1063 | whatever happens beside a task, the invariants hold, records not rewritten since are as they were, and all of it does happen: the next round of the script, on cache, secrets and remote |
| MirrorTask.Mirror.SendRecord | crates/vgi-bridge/src/appstate.rs:973-1022 | one put at most, over the version last seen of the key or create-only; if it lands, the remote holds what the host held when it read the record |
| MirrorTask.Mirror.SendDeletion | crates/vgi-bridge/src/appstate.rs:1006-1031 | one deletion at most, on the condition of the version gone by for the key; if it lands nothing live is left |
| MirrorTask.Mirror.SendSecret | crates/vgi-bridge/src/appstate.rs:973-1044 | a secret that goes out is stored sealed to the version it landed at, whoever else writes; a host in step with its lease fails only with the remote down or the lease lapsed |
| MirrorTask.Mirror.Write | crates/vgi-bridge/src/appstate.rs:973-1063 | one dirty change: one too large is not sent; if it succeeds its key is settled (landed, gone, too large, or marked again), and for a host in step remote and cache agree on it; that host fails only with the remote down or its lease lapsed; a foreign version latches the conflict count |
| MirrorTask.Mirror.RenewAndWrite | crates/vgi-bridge/src/appstate.rs:943-950 | nothing about an item is asked of the remote but with more than half a lease left from the time of asking; otherwise as a write |
| MirrorTask.Mirror.WriteBatch | crates/vgi-bridge/src/appstate.rs:942-961 | each item in its turn is settled or pending again, and from the first that fails on, for whatever reason, nothing more is asked of the remote; a host in step stops only with the remote down or its lease lapsed |
| MirrorTask.Mirror.SyncPass | crates/vgi-bridge/src/appstate.rs:910-971 | a pass, whole or failed part way, keeps cache and remote in step up to what is pending; undisturbed, with the remote up and a claim called for, it writes everything |
| MirrorTask.Mirror.Run | crates/vgi-bridge/src/appstate.rs:1067-1112 | it ends at the stop signal; in every interleaving nothing is written after a refused write, and what is pending is all that differs; undisturbed, with the remote up and the lease open, everything is written |
| MirrorTask.Mirror.Flush | crates/vgi-bridge/src/appstate.rs:1118-1133 | true, for a host in step, only when every cached record of the four tables (but the host's own binding) is live in the remote with its cached value, or over 64 KiB, and every secret not pending is there sealed to its version, or too large; true at once with nothing pending; false only when stopped, or with something pending once the time is up or nothing more happens |
| MirrorTask.Mirror.CheckListing | crates/vgi-bridge/src/appstate.rs:786-845 | refuses exactly a remote that went back in time; the inner watermark check is unreachable |
| MirrorTask.Mirror.TakeOver | crates/vgi-bridge/src/appstate.rs:855-883 | a secret that does not open is met before any record is touched |
| MirrorTask.Mirror.Reconcile | crates/vgi-bridge/src/appstate.rs:884-902 | mirrored records the remote lost are dropped, never mirrored ones kept and marked |
| MirrorTask.Mirror.Pull | crates/vgi-bridge/src/appstate.rs:777-904 | refused exactly if the counter is behind, a record older, a complete feed lacks a key, or a live secret is not sealed here; then the records are left alone. On success each record, secret, mark, version gone by and version remembered is what remote and cache call for |
| MirrorTask.Lease.TryAcquire | crates/vgi-bridge/src/appstate.rs:510-549 | with nobody else writing and an answer, the lease is had exactly if no live record is there, the store has no time for it, it is the host's own, or its own word or 120 seconds since its writing have run out; whoever writes, one claim at most, over a record of that kind, with until and deadline counted from before the request |
| MirrorTask.Lease.Acquire | crates/vgi-bridge/src/appstate.rs:508-549 | a lease returned is the live record and predicts the next version; undisturbed, with the remote up and the lease open, it is returned at once; given up on only with the remote down or the wait over |
| MirrorTask.Lease.RenewIfDue | crates/vgi-bridge/src/appstate.rs:564-591 | a renewal goes out over the version held and no other; success leaves more than half a lease from the time of asking; a lapsed lease is not renewed; alone, it fails only then or with the remote down; the prediction survives |
| MirrorTask.Lease.Release | crates/vgi-bridge/src/appstate.rs:593-598 | one deletion at most, of the version held; afterwards that version is not live unless the remote is down |
| MirrorTask.PutSealed | crates/vgi-bridge/src/appstate.rs:607-635 | success means sealed to the version it landed at, whoever else writes; it gives up only with the remote down, the lease lapsed, its last request refused, or four puts landed at versions not predicted; alone, one put is enough |
| MirrorTask.SealAndPut | crates/vgi-bridge/src/appstate.rs:620-630 | one attempt: what it took and whether that was predicted |
| Mirroring.SyncedStays | crates/vgi-bridge/src/appstate.rs:714-722 | local changes that are marked keep cache and remote apart only on owed keys |
| Mirroring.LandedSettles | crates/vgi-bridge/src/appstate.rs:1006-1063 | a landed write makes cache and remote agree on its key |
| Mirroring.PutLands | crates/vgi-bridge/src/appstate.rs:1006-1022 | a put that lands replaces nothing, or the version it named, which is the newest the host has seen of that key |
| Mirroring.DeleteLands | crates/vgi-bridge/src/appstate.rs:1022-1031 | so does a deletion that names a version |
| Mirroring.UnseenIsDeletedUnconditionally | crates/vgi-bridge/src/appstate.rs:1006-1030 | a deletion destroys a version other than the one gone by exactly when none is gone by now |
| Mirroring.ForeignRecordCanBeDeleted | crates/vgi-bridge/src/appstate.rs:1006-1030 | a state where that happens to another writer's record under a key never seen |
| Mirroring.RecreatedRecordCanBeDeleted | crates/vgi-bridge/src/appstate.rs:1006-1044 | and one where it happens under a key the host itself wrote and deleted |
| Mirroring.NothingOwed | crates/vgi-bridge/src/appstate.rs:718-722 | a host in step with nothing pending has all it holds in the remote |
| Mirroring.FlushedMeans | crates/vgi-bridge/src/appstate.rs:994-1005 | and with a remote that keeps to its cap, a record is there as cached exactly if it is not too large |
| Mirroring.OversizedIsNotWritten | crates/vgi-bridge/src/appstate.rs:994-1005 | a host in step with nothing pending whose record is not in the remote |
| Mirroring.HonestStoreIsNotRefused | crates/vgi-bridge/src/appstate.rs:777-845 | a remote that only moved forward never shows less than was mirrored |
| Mirroring.DeletedIsNotResurrected | crates/vgi-bridge/src/appstate.rs:846-904 | a record another host deleted is not brought back, by a pull or by a stale put |
| Mirroring.PulledIsInStep | crates/vgi-bridge/src/appstate.rs:846-904 | after a pull cache and remote differ only on what was marked |
| LeaseProtocol.LiveLeaseHasOneHolder | crates/vgi-bridge/src/appstate.rs:496-600 | without any clocks, the live lease version is one holder's at most, so nobody renews or releases another's |
| LeaseProtocol.StepKeepsOneHolder | crates/vgi-bridge/src/appstate.rs:496-600 | each step of any holder keeps that |
| LeaseProtocol.TakenOnlyWhenRunOut | crates/vgi-bridge/src/appstate.rs:487-546 | a claim applied over a held lease means it is late enough for it to have run out |
| LeaseProtocol.OwnStepIsTimely | crates/vgi-bridge/src/appstate.rs:567-591 | acquiring, checking and renewing keep the deadline within the record's own expiry |
| LeaseProtocol.SmallSkewExcludes | crates/vgi-bridge/src/appstate.rs:470-482 | within the bound, a write in flight is under its sender's live lease in every run |
| LeaseProtocol.LargeSkewDoesNotExclude | crates/vgi-bridge/src/appstate.rs:470-482 | past the bound, a run where another's claim is applied under a write in flight |
| LeaseProtocol.ExclusionBound | crates/vgi-bridge/src/appstate.rs:470-591 | exclusion holds in every run if and only if no clock is more than 10 seconds off |
| LeaseProtocol.ClaimsAreSteps | crates/vgi-bridge/src/appstate.rs:510-549 | a claim made in place is the protocol's read, send and claim, from the record it replaced, if that called for one |
| LeaseProtocol.RenewalsAreSteps | crates/vgi-bridge/src/appstate.rs:564-591 | a renewal made in place is the protocol's, from the version held |
| LeaseProtocol.ReleasesAreSteps | crates/vgi-bridge/src/appstate.rs:593-598 | so is a release |
| LeaseProtocol.ChecksAreSteps | crates/vgi-bridge/src/appstate.rs:567-577 | the comparison of the deadline is the guard of the protocol's check before a write, and its alternative that of a renewal |
| MergePolicy.PolicyIsLeastFixpoint | crates/verify-trust/src/lib.rs:602-721 | on any parent graph, cyclic or not, what passes is the least set closed under the rule, and other verdicts stay |
| MergePolicy.PolicyExplains | crates/verify-trust/src/lib.rs:602-721 | every verdict on a provisional exemption is so, of the final report: a kept one is a clean merge of parents that stand, an altered one is not clean for the reason named, a named parent does not stand |
| MergePolicy.KeptExemptionsMean | crates/verify-trust/src/lib.rs:602-776 | an exemption is kept exactly for two parents that pass in the end or lie on the boundary, and the tree git (or the facts) gives for merging them |
| MergePolicy.PassingIsDerivable | crates/verify-trust/src/lib.rs:602-721 | whatever passes has a derivation of finite depth |
| MergePolicy.PolicyIsThePlainDefinition | crates/verify-trust/src/lib.rs:602-721 | on an acyclic history it is the plain recursive definition |
| MergePolicy.PolicyIsMonotone | crates/verify-trust/src/lib.rs:460-469 | a smaller boundary or fewer clean merges never makes a commit pass |
| MergePolicy.PolicyIsOrderIndependent | crates/verify-trust/src/lib.rs:607-719 | listing the range in another order permutes the verdicts, details included |
| MergePolicyLoop.ApplyPlatformMergePolicy | crates/verify-trust/src/lib.rs:602-721 | the in-place rounds end, and leave exactly the policy's verdicts, so each exemption is kept exactly if it is such a merge; what git could not say is never guessed, and the call fails only over a merge git could not answer about |
| MergePolicyLoop.ScanParents | crates/verify-trust/src/lib.rs:640-668 | the first failing parent, or whether one is undecided |
| CheckFacts.ListedBoundaryIsGitBoundary | crates/vgi-bridge/src/checks.rs:448-473 | the boundary read off a complete listing is the one git computes from history, all of it reachable from the base |
| CheckFacts.MergeFacts | crates/vgi-bridge/src/checks.rs:475-533 | of distinct commits, exactly those with a PGP signature and two parents have an answer: the first eight in order the forge's merge of the parents over their merge base, or unavailable without one, and the rest unavailable |
| CheckFacts.HonestForgeGivesRightFacts | crates/vgi-bridge/src/checks.rs:490-533 | with an honest forge each recorded merge is git's, or unavailable |
| CheckFacts.FactsPassOnlyWhatGitPasses | crates/verify-trust/src/lib.rs:649-668 | the facts path passes only commits the git path passes |
| Verification.CheckSignature | crates/verify-trust/src/lib.rs:923-993 | valid exactly when the claimed DID publishes the key and the signature verifies; exempt exactly for a keyring key |
| Verification.ChannelTransport.Exchange | crates/verify-trust/src/registry.rs:310-342 | what the far side makes of this very query is what comes of it: a reply on its fresh thread is heard with its verdict, and the channel is latched exactly by a timeout or transport failure; once latched nothing more goes out |
| Verification.QuerySigner | crates/verify-trust/src/lib.rs:1239-1301 | a decision is backed by what was heard of the signer's identity: a grant, after a denial under each resource before it; denials under all; or put off, lost or cut off. A query that fails for good is about this signer |
| Verification.Check.Resources | crates/verify-trust/src/lib.rs:1249-1255 | what is asked about: the primary resource, and the fallback only if it is another |
| Verification.IdentityIsItself | crates/vgi-core/src/commit.rs:169-175 | the identity asked about is its own identity: no key fragment, and no locator of a did:scid |
| Verification.IdentityMeans | crates/vgi-core/src/commit.rs:169-175 | the identity is the DID up to its first hash sign or, of a did:scid, its locator |
| Verification.QueryRegistry | crates/verify-trust/src/lib.rs:1239-1301 | every signer gets a decision; from the very signer under whose query the far side first times out or the transport fails, all decisions are errors, and nobody is asked after |
| Verification.VerifyPrepared | crates/verify-trust/src/lib.rs:491-575 | every status is what signature and registry decision make it, both ways; exemptions are kept exactly for clean merges of parents that stand; a report is ok exactly if all are trusted or exempt, and then sound commit by commit; from the signer under whose query the far side first broke, commits are registry-unavailable |
| Verification.StatusIsGrounded | crates/verify-trust/src/lib.rs:1303-1336 | a trusted commit is authorised, an unauthorised one's signer was denied under every resource, an exempt one has a keyring signature |
| Verification.StatusFits | crates/verify-trust/src/lib.rs:923-1336 | exactly when a commit has each status: a vouched signer's is trusted, unauthorised or unavailable as the registry decided |
| Verification.OkReportIsSound | crates/verify-trust/src/lib.rs:491-721 | every commit of an ok report is authorised, or a platform merge whose tree git (or the facts) gives for merging its two parents, each listed or on the boundary |
| Verification.MergeWalksEnd | crates/verify-trust/src/lib.rs:602-721 | walking back through exempt merges ends |
| Ledger.StepStays | crates/vgi-bridge/src/bridge.rs:297-316 | every stretch of every task, a crash and a restart included, keeps the ledger's invariants |
| Ledger.ResultsAreSettled | crates/vgi-bridge/src/bridge.rs:776-858 | a finished job stays finished with its first result while it is in the ledger |
| Ledger.AcceptedIsDurable | crates/vgi-bridge/src/bridge.rs:595-617 | a job answered accepted is in the ledger from then on, unless it was pruned at a moment it was finished, taken and past its retention |
| Ledger.OnlyPruningRemoves | crates/vgi-bridge/src/bridge.rs:1246-1260 | a job leaves the ledger exactly by upkeep of it when finished, taken and more than 30 days old |
| Ledger.OneRunTaskPerJob | crates/vgi-bridge/src/bridge.rs:594-651 | in every interleaving of repeats one run task per job, process and stay in the ledger there; an open job has a handler that will spawn it or a task, while the store works |
| Ledger.OneContentAndOneResult | crates/vgi-bridge/src/bridge.rs:518-560 | each stay of an id in the ledger has one content that ran and one result, noted for good; what is sent is the result of one of its stays |
| Ledger.WorkIsReported | crates/vgi-bridge/src/bridge.rs:817-858 | what a run task's work came to, if finishing is its next move and the store takes it, is the job's report, its outbox entry and this stay's result |
| Ledger.TurnIsTheJobs | crates/vgi-bridge/src/bridge.rs:791-817 | a task that starts and takes its turn with the store working comes to work on the payload recorded in the ledger, and the job is running |
| Ledger.RepeatsChangeNothing | crates/vgi-bridge/src/bridge.rs:524-560 | at every stretch a repeat changes no job, spawns and runs nothing, and adds at most the result it found to the outbox; other content under the id is refused at once |
| Ledger.RecordedResultStays | crates/vgi-bridge/src/store.rs:841-866 | recording a result and queueing it in one transaction keeps every invariant |
| Ledger.ResultsLeaveWhenAnswered | crates/vgi-bridge/src/bridge.rs:1128-1195 | a result leaves the outbox only on its acknowledgement, or an answer or refusal threading to one of its last eight documents |
| Ledger.ResultsWaitToBeTaken | crates/vgi-bridge/src/bridge.rs:849-857 | a finished job's result is in the outbox, or was answered since it was last put there |
| Ledger.RepeatsPutTheResultBack | crates/vgi-bridge/src/bridge.rs:541-556 | an identical repeat puts the recorded result back |
| Ledger.IdNoted | crates/vgi-bridge/src/bridge.rs:1045-1060 | each entry keeps its last eight document ids, no id on two entries |
| Ledger.StateBeforeReport | crates/vgi-bridge/src/bridge.rs:997-1064 | between the start of a document's sending and its going out there is a moment at which the flush was passed for it, with every change to a mirrored record made before the sending began dealt with, each counted |
| BridgeTasks.ReportsFollowTheRemote | crates/vgi-bridge/src/bridge.rs:997-1064 | and if the mirror was of a host in step wherever a flush was passed, the remote then held everything the host did that is not oversized |
| Ledger.NothingPassesUnscreened | crates/vgi-bridge/src/bridge.rs:997-1030 | whatever goes on towards being sent was looked at again after it was read from the outbox: its namespace was not orphaned then, unless the store could not say |
| Ledger.EventsOutliveTheirNamespace | crates/vgi-bridge/src/bridge.rs:882-911 | runs in which an event waits in the outbox, and one is sent, of a namespace orphaned before |
| BridgeTasks.Bridge.LookUp | crates/vgi-bridge/src/bridge.rs:524-576 | which answer the ledger gives, and when the job is new |
| BridgeTasks.Bridge.Admit | crates/vgi-bridge/src/bridge.rs:578-617 | the job is recorded as it came exactly if admitted, its namespace not orphaned still, the store working and the id new; which refusal it gets otherwise |
| BridgeTasks.Bridge.PutBack | crates/vgi-bridge/src/bridge.rs:543-556 | the result is put out again unless it is still there, and sent |
| BridgeTasks.Bridge.StartJob | crates/vgi-bridge/src/bridge.rs:791-805 | a finished job is not run again; without the store, the record or its payload a failure is reported |
| BridgeTasks.Bridge.EndWork | crates/vgi-bridge/src/bridge.rs:817-818 | what the work came to is what its run task reports |
| BridgeTasks.Bridge.FinishJob | crates/vgi-bridge/src/store.rs:841-866 | result and outbox entry are written together, once |
| BridgeTasks.Bridge.Sign | crates/vgi-bridge/src/bridge.rs:1031-1060 | the new document's id joins the last eight of an entry still there |
| BridgeTasks.Bridge.SendOutbox | crates/vgi-bridge/src/bridge.rs:997-1064 | nothing is sent but with nothing pending in the mirror, and so, from a host in step, with everything not oversized in the remote; no event of a namespace known to be orphaned; and with nothing to wait for, an entry that can be read and signed is sent and the document noted on it |
| BridgeTasks.Bridge.ClearOutboxThread | crates/vgi-bridge/src/bridge.rs:1148-1157 | the one entry a thread belongs to is found, if the outbox can be listed, and goes if it can be deleted |
| BridgeTasks.Bridge.OnErrorResponse | crates/vgi-bridge/src/bridge.rs:1159-1195 | an entry is given up exactly for an unknown job or namespace, if it can be found and deleted; an event's bound namespace is orphaned and its events go, as far as the store manages |
| BridgeTasks.Bridge.Orphan | crates/vgi-bridge/src/namespaces.rs:239-273 | a bound namespace is orphaned, and then its waiting events go, as far as the store lists and deletes them |
| BridgeTasks.Bridge.DropEvents | crates/vgi-bridge/src/namespaces.rs:187-203 | exactly the namespace's events the store deletes leave the outbox; none if it cannot be listed |
| BridgeTasks.Bridge.Maintenance | crates/vgi-bridge/src/bridge.rs:1237-1260 | exactly the finished jobs taken and more than 30 days old go |
| BridgeTasks.Bridge.Restore | crates/vgi-bridge/src/bridge.rs:297-316 | each open job gets one run task |
| BridgeTasks.Bridge.Handle | crates/vgi-bridge/src/bridge.rs:518-651 | every stretch of a job document's handling does in place what `Ledger` proves things of |
| BridgeTasks.Bridge.Perform | crates/vgi-bridge/src/bridge.rs:776-858 | so does every stretch of a run task |
| BridgeTasks.Bridge.Transmit | crates/vgi-bridge/src/bridge.rs:997-1064 | so does every stretch of a sending |
| BridgeTasks.Bridge.Hear | crates/vgi-bridge/src/bridge.rs:1128-1195 | an answer known by its thread alone finds the one entry `Ledger` says it is about |
| Ownership.PrefixNamesTheRepository | crates/vgi-bridge/src/events.rs:398-403 | a ledger key has a repository's prefix exactly when it is that repository's |
| Ownership.ClaimedElsewhereMeans | crates/vgi-bridge/src/events.rs:291-303 | the test finds exactly the forge ids another namespace records or manages |
| Ownership.ClaimsOutliveADetachIfSeen | crates/vgi-bridge/src/events.rs:289-315 | another namespace's claim outlives a detach exactly if a read that worked showed one; with both reads working it always does |
| Ownership.UnreadRecordIsDetached | crates/vgi-bridge/src/events.rs:289-315 | a state where a failed read lets another owner's repository be detached |
| Ownership.DetachLeavesNothing | crates/vgi-bridge/src/events.rs:359-404 | after a detach nothing on the host mentions the id, and nothing else changed |
| Ownership.DetachIsConfined | crates/vgi-bridge/src/events.rs:359-404 | detaching what only covered namespaces claim touches no other |
| Ownership.UnmanagedKeeps | crates/vgi-bridge/src/events.rs:434-454 | reporting an unmanaged repository keeps one claimant per id and stays in scope |
| Ownership.UnmanagedMeans | crates/vgi-bridge/src/events.rs:434-454 | a repository without a record is told of once what was recorded at its name is forgotten |
| Ownership.DeletionKeeps | crates/vgi-bridge/src/events.rs:600-612 | so does a deletion |
| Ownership.DeletionMeans | crates/vgi-bridge/src/events.rs:600-612 | the repository's record, managed sets and ledgers go and its namespace is told, unless it is the bridge's own or another namespace's |
| Ownership.RenameKeeps | crates/vgi-bridge/src/events.rs:613-649 | so does a rename |
| Ownership.RenameMeans | crates/vgi-bridge/src/events.rs:613-649 | the record is of the new name, what the namespace recorded there under other ids is forgotten, and it is told |
| Ownership.LeavingKeeps | crates/vgi-bridge/src/events.rs:456-487 | so does a repository leaving, save for the one id of a confirmed move |
| Ownership.LeavingMeans | crates/vgi-bridge/src/events.rs:456-470 | what left is forgotten unless another namespace has it, and its namespace told unless it was the bridge's own |
| Webhooks.Governance.NamespaceIn | crates/vgi-bridge/src/events.rs:269-283 | a bound namespace in scope that contains the resource, and none only if there is none |
| Webhooks.Governance.Detach | crates/vgi-bridge/src/events.rs:359-404 | the record, every managed set and the branch ledgers, in place |
| Webhooks.Governance.DetachFrom | crates/vgi-bridge/src/events.rs:305-315 | refused exactly when another namespace is seen to claim the id, by the reads that work |
| Webhooks.Governance.DetachReusedName | crates/vgi-bridge/src/events.rs:406-432 | every repository recorded there under another id, and only those |
| Webhooks.Governance.TransferredOut | crates/vgi-bridge/src/events.rs:456-470 | what is detached and who is told on the side left, and exactly when there is more to do |
| Webhooks.Governance.Receive | crates/vgi-bridge/src/events.rs:470-487 | the side a repository went to is told exactly if it is the same owner's and another namespace; otherwise no such namespace governs it |
| Webhooks.Governance.Handle | crates/vgi-bridge/src/events.rs:580-693 | said of the tables: a deletion, in scope and of a governed repository nobody else claims, leaves no record, managed set or ledger of the id and one report; so for renames, transfers and creations; what is outside the scope does nothing; what is left to do; one claimant per id is kept |
| Webhooks.Governance.Confirm | crates/vgi-bridge/src/events.rs:317-357 | exactly when the forge's answer confirms a move, and what is then detached and told |
| Webhooks.Governance.Resume | crates/vgi-bridge/src/events.rs:317-357 | only the forge's confirmation lets another owner's namespace lose an id, and it loses nothing else |
| Webhooks.Governance.Serve | crates/vgi-bridge/src/events.rs:580-693 | every delivery is handled and every answer taken up, in any order: one claimant per id is kept, what waits stays known, and a namespace in nobody's scope loses an id only by a transfer of it that the forge confirmed |
| RegistryReplies.Did | crates/vgi-bridge/src/registry_channel.rs:100-107 | what comes before the first hash sign |
| RegistryReplies.LeaveStays | crates/vgi-bridge/src/registry_channel.rs:133-143 | an answered or ended query's entry goes, and no other's |
| RegistryReplies.Replies.Begin | crates/vgi-bridge/src/registry_channel.rs:199-216 | only queries to the registry with an id are registered |
| RegistryReplies.Replies.Route | crates/vgi-bridge/src/registry_channel.rs:98-130 | a document is taken exactly when it is the registry's answer to a query in flight, over its binding |
| RegistryReplies.Replies.Await | crates/vgi-bridge/src/registry_channel.rs:219-226 | the reply if it came, even at the deadline, or a timeout |
| RegistryReplies.Replies.Serve | crates/vgi-bridge/src/registry_channel.rs:77-226 | in every order of steps each step does what it should, the table holds exactly the live unanswered queries, and a document returned is the registry's answer to that query, by key, binding and thread |
| RegistryReplies.RepliesAreReturned | crates/vgi-bridge/src/registry_channel.rs:98-226 | in every order of steps, a reply that comes before the wait for it ends is what it returns |
| RoleMaps.NewRoleMap | crates/vgi-forge/src/rights.rs:308-345 | accepts exactly the maps where each tier is at most the one above, only owners administer and committers at most write |
| RoleMaps.ResolveIsMostSpecific | crates/vgi-bridge/src/config.rs:341-365 | layers resolve to a map exactly when it is allowed and field by field the most specific layer's |
| RoleMaps.LookupMeans | crates/vgi-bridge/src/config.rs:632-667 | in any configuration each tier gets the repository's word, or the namespace's, or that of the first entry that serves the owner (GitHub before Forgejo), or the bridge's, or the default; the default map, if that is not allowed |
| RoleMaps.GithubFor | crates/vgi-bridge/src/config.rs:618-625 | the first entry that serves an owner on a host, if any does |
| RoleMaps.ValidateRoleMaps | crates/vgi-bridge/src/config.rs:696-745 | accepts exactly the configurations whose keys are lower-case and whose every chain of layers resolves |
| RoleMaps.ValidationCoversEveryLookup | crates/vgi-bridge/src/config.rs:632-667 | in a configuration that validates each tier gets exactly that word, and the map is allowed, so the fallback is never taken |

## Left out

- Cryptography and parsing (signatures, sealing, envelopes, JSON, TOML, git objects): recorded answers. A seal opens
  exactly under its key and associated data; a SHA-256 of a canonical payload stands for the payload.
- I/O: a failed remote call is taken as not applied, as in `MemoryAppState` (in `LeaseProtocol` the answer to a lease
  put that was applied may be lost). Clocks, network and forge answers are inputs.
- LeaseProtocol.ExclusionBound: monotonic clocks are taken to run at the remote's rate, a request to be applied within the
  request limit or not at all, an answer to be acted on within that limit, and each holder name to be one task's.
- The mirror's store: committing a change and marking it are one step; redb's transactions are taken as atomic. Table
  listings give each key once, so picking the latest of several entries of a key is not modelled.
- MirrorTask.Mirror.Pull: requires that the remote's keys are canonical text keys; a key that is not names nothing.
- MirrorTask.Mirror.Run: wake-ups and the idle notice are waits, the script's end is the stop signal, and the backoff times,
  `health`, the stall limit and secrets' zeroing are not modelled.
- A value's size is the length of its text or body, not of its JSON encoding.
- Mirroring.DeleteLands: covers deletions that name a version; one that names none is the case
  `Mirroring.UnseenIsDeletedUnconditionally` describes.
- Ledger.OneRunTaskPerJob: jobs of the two begin kinds (device flows, bind callbacks) are not modelled, nor the lock that
  runs one namespace's jobs one at a time; a job pruned after its retention may be taken again under its id.
- Ledger.WorkIsReported: a report is taken to fit the result schema (one that does not becomes a failure), and the status that
  is attached to it is not modelled.
- Ledger.StateBeforeReport: mirrored changes are counted, oversized ones with the rest. `BridgeTasks.ReportsFollowTheRemote`
  and `BridgeTasks.Bridge.SendOutbox` speak of the mirror itself, and `Mirroring.FlushedMeans` says what the size cap leaves
  out.
- LeaseProtocol.ClaimsAreSteps: for records that carry the store's time, as all do in `MemoryAppState`; without it a lease
  has run out. Other writers of the class's remote are not held to the protocol.
- Ledger.ResultsLeaveWhenAnswered: an answer to an event that threads to a result's document takes the result too, as in
  the code.
- Resend timing (the per-entry backoff), role-map reports' rebuilding, events' payload and drift, orphan retention.
- Webhook signatures, delivery ids, hooks and the events that change no record (collaborators, protection, installations,
  pull requests); the adapters' copies of the managed sets.
- Webhooks.Governance.Handle: what one event does between two of its waits is one step, and the store's reads and writes are
  taken to work in it; the test whether another namespace claims an id is modelled with failing reads in `DetachFrom` alone.
- MirrorTask.Mirror.Flush: a pass under way goes on from between two of its items.
- Verification.IdentityIsItself: of a did:scid's query only a leading `src` is taken off; the VTC's own DID in a query is not
  modelled.
- Route discovery (`select_route`), the reply's own parsing in the registry client, and the text of reports.
- Configuration other than role maps; a resource of any depth is looked up by its owner and last segment.
- The check's report throttle and summary text, device flows, the Dependabot re-sign, the CLI and `did-git-sign`.
