# Verified model of the research memory server

This project models the parts of Universal Research MCP whose correctness is hard to see by reading, and proves
what they promise. `dafny verify dfyconfig.toml` checks all of it.

**The ingest commit protocol** (`Ledger`, `CanonicalIo`, `IngestProtocol` and the other `Ingest*` modules, `Validation`).
A commit takes a lock file, writes a journal, consumes a one-time receipt, appends to one or two canonical JSONL
files by atomic replacement, and creates a consumption marker. `IngestProtocol` is that protocol as a step system:
one event is one file write of the lock holder with the way it ended (it succeeds, it raises, or the process dies,
each with nothing, half or all of the write on disk), or a step of the world around it (a competing administrator
command, an administrator clearing a dead holder's lock, a new draft or receipt, a changed source file, time).
Theorems about it speak of every list of events from a project without protocol files, with any first ledger.
`IngestHost` is the same code as objects with fields: each call gets a schedule of faults, and is proved to take
the project to the state that the protocol reaches under the same schedule.

**The derived index** (`Fingerprint`, `LexicalIndex`, `GateCache`, `GatedReads`). Fingerprint and builder read the ledger one file
at a time beside concurrent appends. What they can have seen is tied to the history of a ledger that only grows,
and `LexicalIndex.RunsMakeGrowingHistories` ties that history to the runs of the protocol. The server's stat cache
is proved to admit a read only when the full check it skips would pass, and so only from a database that holds the
ledger as it was during the call.

**The evidence gate of a session** (`SessionGate`), **the stdio framer** (`StdioFraming`), **bounded passages**
(`Passages`), **amendment folding** (`Amendments`), **worker call receipts** (`WorkerReceipts`) and **benchmark
statistics** (`Statistics`).

How to read the model:

- SHA-256 is injective: `Sha256(x)` stands for the digest of `x`, and the content of a source file for its digest.
  A signature is unforgeable: a receipt file that can be read was issued by the host.
- A canonical file is the list of its JSONL lines, a line is a record or a source registration, and a missing file
  is not an empty one.
- A file made by a plain create may be left torn by a crash, a replaced file is old or new. Safety theorems allow
  torn creates; where atomic creates are assumed the lemma says so (`Atomic`).
- `State.log` lists the appends that happened. No step reads it; theorems use it to say who appended what.
- The checks a commit makes before its first write are one step; the lock is held, so the ledger does not move
  during them.
- `Inv` (in `IngestSafety`) is the invariant behind the protocol theorems; `IngestTheorems.RunInv` states it of every run.

Properties that the code does not have, each with a concrete run and the exact condition under which it holds:

- *A commit never repeats a record ID or a source.* A resumed journal is not revalidated, so a record appended by
  hand between a crash and the retry can be repeated (`ResumedJournalRepeatsRecordId`); preparation takes no lock, so
  a source registered during it can be registered again (`LateDraftRepeatsSource`). An attempt keeps identity exactly
  when each append it still has to make is safe (`AttemptKeepsIdentityExactlyWhenSafe`), and always under the
  discipline of `IdentityIsKept`.
- *Recovery can always be completed.* ADR-0002 says that a consumed receipt may resume its journal. The code tests
  expiry first, cannot read a torn journal or marker (`Stuck`), and refuses a target that has got lines the journal
  does not know (`Lost`): `ExpiredReceiptIsStuck` and `OvertakenTargetIsLost` are runs after which no future at all
  finishes the draft. In every reachable state the draft can be finished by a future without commits of other drafts
  exactly when it is neither stuck nor lost and staged sources that were registered by hand in part can be completed
  by hand (`FinishableAloneExactly`). For a draft prepared in one step, or with at most one staged source, the last
  condition always holds (`OrderlyDraftsFit`), and the condition is exact for every future (`FinishableExactly`).
- *A pending draft has nothing in the ledger.* True of the draft's own appends (`StatusIsSound`); the same lines may
  have been appended by hand (`PendingDraftMayBeInPlace`). An operation is in place exactly when the first lines its
  target has got since the journal was made are its own (`InPlaceExactlyWhenRepeated`). ADR-0002 also says that a
  partial failure becomes `recovery_required`; a crash between the journal and its first new status leaves `pending`,
  as the code does here.
- *Every mismatched fetch of a session binds later claims.* Only while the fetch log has room
  (`MismatchBindsExactlyWithRoom`, `FullLogForgetsMismatch`).

## Model

| member | source | states |
|---|---|---|
| CanonicalIo.PreparedIsPending | universal_research_mcp/core/canonical_io.py:47-70 | a prepared append is coherent, found pending, and not in place |
| CanonicalIo.ReplaceApplies | universal_research_mcp/core/canonical_io.py:90-111 | replacing a pending target makes the append applied and in place, and only grows files |
| CanonicalIo.GrowthKeepsInPlace | universal_research_mcp/core/canonical_io.py:73-87 | later appends leave an append in place |
| CanonicalIo.InPlaceIsNeverPending | universal_research_mcp/core/canonical_io.py:73-87 | an append that took effect is never found pending again, whatever is appended later |
| Ledger.GrowsTransitive | universal_research_mcp/core/canonical_io.py:90-111 | growth of canonical files composes |
| IngestSafety.KeepsTx | universal_research_mcp/core/ingest.py:411-415 | steps that append nothing keep everything a journal claims |
| IngestSafety.NewJournalShaped | universal_research_mcp/core/ingest.py:368-408 | a new journal holds exactly the planned appends, all pending |
| IngestSafety.AdmitOk | universal_research_mcp/core/ingest.py:427-491 | what the checks of a commit lead to agrees with the disk |
| IngestSafety.ConsumeEffects | universal_research_mcp/runtime/ingest_approval.py:151-214 | consuming writes at most this receipt's marker, and goes on only with a whole marker |
| IngestSafety.ApplyEffects | universal_research_mcp/core/ingest.py:514-520 | one round of the loop appends a pending operation and nothing else, or appends nothing |
| IngestSafety.StepKeeps | universal_research_mcp/core/ingest.py:418-537 | every step, fault and outside event keeps the invariant of the protocol |
| IngestSafety.RunKeeps | universal_research_mcp/core/ingest.py:418-537 | every run keeps it |
| IngestTheorems.RunInv | universal_research_mcp/core/ingest.py:418-537 | it holds in every state reachable from a project without protocol files |
| IngestTheorems.ExactlyOnce | universal_research_mcp/core/ingest.py:508-520 | canonical files are their first content and the logged appends; each draft operation is logged at most once, with the target and lines its draft plans |
| IngestTheorems.OnlyAppends | universal_research_mcp/core/canonical_io.py:73-111 | between any two moments of a run files only gain lines at their ends |
| IngestTheorems.ReceiptDiscipline | universal_research_mcp/core/ingest.py:465-520 | a consumed receipt has a journal bound to it, a draft consumes at most one, and nothing is appended for a draft before its receipt is consumed |
| IngestTheorems.StatusIsSound | universal_research_mcp/core/ingest.py:636-663 | pending: nothing of the draft was appended; recovery_required: receipt consumed; consumed: all operations in place; the count is never ahead of the files |
| IngestTheorems.StatusExactly | universal_research_mcp/core/ingest.py:636-663 | a report exists exactly when draft and journal can be read; consumed exactly with a marker, recovery exactly without one when the journal has left its first status, pending otherwise |
| IngestStatus.CommitIsReported | universal_research_mcp/core/ingest.py:508-536 | after a commit whose guard held, the report says consumed and counts all operations |
| IngestStatus.NothingInPlaceExactlyWhenAllPending | universal_research_mcp/core/ingest.py:488-491 | when the targets pass the resume check, no operation is in place exactly when each is found pending |
| IngestStatus.InPlaceExactlyWhenRepeated | universal_research_mcp/core/canonical_io.py:73-87 | in every reachable state an operation is in place exactly when the first lines its target got since the journal are its own; for a pending draft others appended them |
| IngestStatus.PendingDraftMayBeInPlace | universal_research_mcp/core/ingest.py:636-663 | a run after which a draft is pending although its lines are in the ledger, appended by hand |
| IngestStatus.PendingMeansNothingInPlace | universal_research_mcp/core/ingest.py:636-663 | under the discipline a pending draft has no operation in place |
| IngestRecovery.CommitsExactlyWhen | universal_research_mcp/core/ingest.py:418-536 | a fault-free call consumes its draft exactly when the lock is free, the checks pass and the receipt is usable; otherwise it appends and consumes nothing |
| IngestRecovery.Commits | universal_research_mcp/core/ingest.py:508-536 | such a call ends consumed, unlocked, with all pending operations applied in order |
| IngestRecovery.Refuses | universal_research_mcp/core/ingest.py:427-506 | any other call changes neither files nor markers |
| IngestRecovery.SameEnd | universal_research_mcp/core/canonical_io.py:73-111 | applying what is still pending ends the same however far an earlier attempt had come |
| IngestRecovery.TrailRun | universal_research_mcp/core/ingest.py:465-536 | interrupted attempts leave each target untouched or with exactly its journalled append |
| IngestRecovery.RecoveryRefinesCommit | universal_research_mcp/core/ingest.py:465-536 | after any interruptions a retry ends consumed with the canonical files of the commit that never crashed |
| IngestRecovery.RecoveryEnds | universal_research_mcp/core/ingest.py:465-536 | with atomic creates, a free lock, unchanged sources and an unexpired receipt the next retry finishes the draft |
| IngestDeadEnds.StuckForever | universal_research_mcp/runtime/ingest_approval.py:164-166 | a draft with a torn journal, an expired receipt or a torn marker is never consumed in any future |
| IngestDeadEnds.RunReceipts | universal_research_mcp/core/ingest.py:459-480 | every journal names a real receipt for its own draft |
| IngestDeadEnds.RecoverableExactlyWhenNotStuck | universal_research_mcp/core/ingest.py:465-506 | while no other writer appends and the sources stay, some future consumes an interrupted draft exactly when it is not stuck; clearing the lock and retrying is one |
| IngestFinishable.ChangedMeans | universal_research_mcp/core/canonical_io.py:73-87 | the resume check fails exactly for targets with unknown lines and for targets that got part of a journalled append |
| IngestFinishable.HopelessForever | universal_research_mcp/core/canonical_io.py:87 | a draft that is stuck, or a target of which has got unknown lines, is consumed by no future |
| IngestFinishable.UntouchedFinishes | universal_research_mcp/core/ingest.py:481-536 | not stuck and targets unchanged: putting the sources back, clearing the lock and retrying consumes the draft |
| IngestFinishable.RegisteredByHand | universal_research_mcp/core/input.py:110-151 | sources with free keys can be registered one by one by hand |
| IngestFinishable.FinishableAloneExactly | universal_research_mcp/core/ingest.py:481-506 | in every reachable state a future without other commits finishes the draft exactly when it is not stuck, not lost, and partly registered sources can be completed |
| IngestFinishable.FinishableExactly | universal_research_mcp/core/ingest.py:481-506 | for such sources, any future at all finishes the draft exactly when it is neither stuck nor lost |
| IngestFinishable.OrderlyDraftsFit | universal_research_mcp/core/ingest.py:186-237 | sources of a draft prepared in one step, or a single source, can always be completed |
| IngestCounterexamples.ExpiredReceiptIsStuck | universal_research_mcp/runtime/ingest_approval.py:164-166 | a run after which an expired receipt keeps a whole journal from ever being finished |
| IngestCounterexamples.OvertakenTargetIsLost | universal_research_mcp/core/canonical_io.py:87 | a run after which another record on the same day keeps a draft from ever being finished, with everything else in order |
| IngestAuthority.RecordWasLogged | universal_research_mcp/core/input.py:270-294 | a record beyond the first content of its file, whatever the first ledger was, was put there by a logged append to that file |
| IngestAuthority.AcceptedIsAuthorized | universal_research_mcp/core/input.py:244-255 | a candidate that passes the check is covered by approvals already in the ledger |
| IngestAuthority.AuthorityChain | universal_research_mcp/core/proposals.py:12-31 | grown from an empty ledger, every record that is no approval carries a reference, and each of its references names an earlier human approval that covers it |
| IngestAuthority.EveryLoggedRecordIsAuthorized | universal_research_mcp/core/input.py:244-255 | every reference of every appended record names an earlier approval that is approved and human and lists the record's ID, or both its study and its kind |
| IngestAuthority.UncoveredIsRefused | universal_research_mcp/core/proposals.py:12-31 | a record with a reference that names no such approval is appended by no command and starts no commit |
| Ledger.AllowsExactlyWhenCovers | universal_research_mcp/core/proposals.py:12-31 | the sequence of refusals makes the law: a human's approved approval that lists the record, or its study and its kind |
| IngestEvidence.RegisteredDecides | universal_research_mcp/core/input.py:157 | the digest that counts for a path is that of the last line that names it |
| IngestEvidence.EveryAppendedRecordWasChecked | universal_research_mcp/core/input.py:154-176 | every appended record was, earlier in its run, well formed, with each source registered or staged, as pinned, and its file unchanged |
| IngestDecisions.CommitAdmittedExactly | universal_research_mcp/core/ingest.py:427-491 | which files make a commit create a journal, resume one, or refuse |
| IngestDecisions.RefusedCallLeavesNoTrace | universal_research_mcp/core/ingest.py:427-491 | a call whose checks fail changes nothing, not even by a journal |
| IngestDecisions.RecordCommandAdmittedExactly | universal_research_mcp/core/input.py:270-294 | which records a command appends, and where |
| IngestDecisions.SourceCommandAdmittedExactly | universal_research_mcp/core/input.py:119-150 | which sources a command registers: a file that is there, with a new path and a new ID |
| IngestDecisions.ReceiptsAreIssued | universal_research_mcp/runtime/ingest_approval.py:105-129 | a receipt appears only for a pending draft with a record ID, before its expiry |
| IngestPrepare.NormalizeSourceRegistrations | universal_research_mcp/core/ingest.py:186-237 | the staging loop accepts exactly when every file exists and no path or ID is registered or staged twice, and stages each input with the digest of its file |
| IngestPrepare.NormalizeExactly | universal_research_mcp/core/ingest.py:186-237 | the same of its specification, with the staged list as the result |
| IngestPrepare.AtomicDraftFits | universal_research_mcp/core/ingest.py:316-340 | a draft prepared with nothing moving meanwhile is bound to the present ledger and its sources fit it |
| IngestPrepare.PreparedIsAdmitted | universal_research_mcp/core/ingest.py:316-340 | such a draft passes the record and source checks of a commit in that state |
| IngestIdentity.FreeKeysExactly | universal_research_mcp/core/ingest.py:186-237 | adding lines keeps a manifest without clashes exactly when none of their paths and IDs is in it and they do not clash with each other |
| IngestIdentity.AppendKeepsIdentityExactlyWhenSafe | universal_research_mcp/core/ledger.py:231-245 | an append keeps IDs unique and relations resolved exactly when its keys are free and its relations have targets |
| IngestIdentity.SafeIsStable | universal_research_mcp/core/ingest.py:368-391 | the two operations of a commit do not spoil each other |
| IngestIdentity.FreshIsSafe | universal_research_mcp/core/ingest.py:466-480 | the operations of a new journal are safe to append |
| IngestIdentity.IdentityIsKept | universal_research_mcp/core/ingest.py:465-491 | record IDs, paths and source IDs stay unique and relations resolved in all runs with atomic preparation in which a started journal is finished before any other append |
| IngestIdentity.AttemptKeepsIdentityExactlyWhenSafe | universal_research_mcp/core/ingest.py:481-491 | in any reachable state an attempt that commits keeps identity exactly when each append it still makes is safe |
| IngestCounterexamples.ResumedJournalRepeatsRecordId | universal_research_mcp/core/ingest.py:481-491 | a run in which a resumed journal repeats a record ID |
| IngestCounterexamples.LateDraftRepeatsSource | universal_research_mcp/core/ingest.py:325-340 | a run in which preparation beside a registration makes a commit register a path twice |
| Validation.ValidateRecords | universal_research_mcp/core/ledger.py:231-245 | the report lists a duplicate, malformed record or unknown relation exactly when the records have it |
| Validation.RelationIssues | universal_research_mcp/core/ledger.py:165-177 | the relation targets of a core record that are no known ID |
| Validation.PathTable | universal_research_mcp/core/input.py:154-157 | each path maps to the digest of the last registration that names it |
| Validation.SourcesResolve | universal_research_mcp/core/input.py:154-176 | accepts exactly the records whose references name registered, matching, unchanged files |
| Validation.ApprovalTable | universal_research_mcp/core/input.py:244-249 | looking up approvals in the table finds exactly the covering approvals of the list |
| Validation.ValidateCandidate | universal_research_mcp/core/input.py:217-256 | accepts exactly the candidates without issue, with resolved sources and covering approvals; refuses when a reference names no approval that covers |
| Validation.CleanIsRecordsOk | universal_research_mcp/core/ledger.py:231-245 | an empty report over all files and the candidate means the candidate fits the ledger |
| Validation.ValidatorDecidesCandidateOk | universal_research_mcp/core/input.py:217-256 | the validator, over the daily files in any order, decides exactly the check the protocol makes |
| IngestHost.Project.AppendState | universal_research_mcp/core/canonical_io.py:73-87 | applied, pending or changed, compared in this order |
| IngestHost.Project.ApplyAppend | universal_research_mcp/core/canonical_io.py:90-111 | a pending append replaces the file at once, an applied one changes nothing, a changed target raises |
| IngestHost.Project.CreateJournal | universal_research_mcp/core/ingest.py:392-408 | the journal is created once; a fault leaves it absent, torn or whole |
| IngestHost.Project.CreateMarker | universal_research_mcp/core/ingest.py:526-536 | the consumption marker is created once |
| IngestHost.IngestApprovalStore.Binding | universal_research_mcp/core/ingest.py:155-183 | bound exactly when the draft is pending, readable, has the digest, and its record has an ID |
| IngestHost.IngestApprovalStore.Issue | universal_research_mcp/runtime/ingest_approval.py:105-129 | issuing is the step of the protocol |
| IngestHost.IngestApprovalStore.Verify | universal_research_mcp/runtime/ingest_approval.py:131-149 | an expired receipt passes only if it was consumed before |
| IngestHost.IngestApprovalStore.Consume | universal_research_mcp/runtime/ingest_approval.py:151-182 | an inadmissible or expired receipt fails before an existing marker is noticed; otherwise the marker is created |
| IngestHost.IngestApprovalStore.Resume | universal_research_mcp/runtime/ingest_approval.py:184-214 | a second use checks binding and receipt again, and needs the whole marker of exactly this receipt |
| IngestHost.RecheckSources | universal_research_mcp/core/ingest.py:439-448 | true exactly when every staged source still has its digest |
| IngestHost.RecheckTargets | universal_research_mcp/core/ingest.py:488-491 | true exactly when no target has changed |
| IngestHost.Check | universal_research_mcp/core/ingest.py:427-491 | the reading phase decides exactly as the protocol does |
| IngestHost.UseReceipt | universal_research_mcp/core/ingest.py:493-506 | consume, or resume when consumed before, is one step of the protocol |
| IngestHost.ApplyOperations | universal_research_mcp/core/ingest.py:512-521 | the loop over the operations follows the protocol step by step, to its end or to its first fault |
| IngestHost.EndTransaction | universal_research_mcp/core/ingest.py:537-565 | a failure is noted in the journal as recoverable and raised; otherwise the journal is closed as committed, and one that cannot be closed is only a warning |
| IngestHost.CommitIngest | universal_research_mcp/core/ingest.py:616-633 | under any schedule of faults the project ends where the protocol ends; a call that returns has newly written its marker |
| IngestHost.QuietCallDecides | universal_research_mcp/core/ingest.py:418-536 | a fault-free call writes its marker exactly when the guard of CommitsExactlyWhen held before it |
| IngestHost.PendingStatus | universal_research_mcp/core/ingest.py:636-663 | the report is the one whose soundness is proved |
| IngestHost.PrepareSource | universal_research_mcp/core/input.py:134-150 | refused exactly when the path or the ID is registered |
| IngestHost.AppendRecord | universal_research_mcp/core/input.py:270-294 | refused before the lock without the right approval mode; otherwise the run of its command, done only with its one append made |
| IngestHost.RegisterSource | universal_research_mcp/core/input.py:110-151 | the same for a source |
| Fingerprint.BigEndianRoundTrip | universal_research_mcp/indexing/lexical.py:129-131 | a length that fits is read back from its bytes |
| Fingerprint.ParsesExactly | universal_research_mcp/indexing/lexical.py:120-132 | the hashed bytes parse to exactly the files they were made from, and only such bytes parse |
| Fingerprint.EqualPreimagesMeanEqualFiles | universal_research_mcp/indexing/lexical.py:120-132 | equal hashed bytes mean equal names and contents |
| Fingerprint.CanonicalFingerprint | universal_research_mcp/indexing/lexical.py:120-138 | the loop feeds the digest bytes that parse back to the files, and fails only for a length beyond eight bytes |
| LexicalIndex.NothingMovedBetween | universal_research_mcp/indexing/lexical.py:597-638 | two scans with one result: the ledger was that at every moment between them |
| LexicalIndex.BuilderSawTheFingerprint | universal_research_mcp/indexing/lexical.py:597-638 | a builder between two equal fingerprints read exactly the fingerprinted ledger |
| LexicalIndex.ScanMeetsMoment | universal_research_mcp/indexing/lexical.py:363-365 | a scan that sees what the ledger once was, sees what it is at a moment of the scan |
| LexicalIndex.Index.IndexStatus | universal_research_mcp/indexing/lexical.py:363-440 | missing, corrupt and current exactly in the words of the source; current only for a readable, whole database of this schema, built from the ledger as it was during this check |
| LexicalIndex.Index.EnsureLexicalIndex | universal_research_mcp/indexing/lexical.py:577-668 | the old database stays or is replaced at once by a verified one built from the ledger; it succeeds exactly when its course goes well, success means sound and current, a recorded failure means not current |
| LexicalIndex.CurrentMeansPresentLedger | universal_research_mcp/indexing/lexical.py:363-440 | with any builders and writers side by side, current means built from the present ledger |
| LexicalIndex.RunsMakeGrowingHistories | universal_research_mcp/core/canonical_io.py:73-111 | the histories assumed here are the ones the commit protocol makes |
| LexicalIndex.EqualFingerprintsMeanEqualLedgers | universal_research_mcp/indexing/lexical.py:120-138 | with injective paths and text, equal fingerprints mean equal ledgers |
| GateCache.SameStampMeansUntouched | universal_research_mcp/server.py:321-333 | with fresh stamps, a file with one stamp at two moments was not written between them |
| GateCache.EqualSignaturesMeanNothingMoved | universal_research_mcp/server.py:294-318 | two equal signatures around a check: every file is still as the check saw it |
| GateCache.Gate.RequireCurrent | universal_research_mcp/server.py:321-350 | admits only if a full check within the call reports current, and remembers no other verdict |
| GatedReads.DatabaseStaysOk | universal_research_mcp/indexing/lexical.py:597-668 | at every moment the published database was built from a ledger of that or an earlier moment |
| GatedReads.LookIsScan | universal_research_mcp/server.py:294-318 | what the gate looks at is a scan of the ledger |
| GatedReads.AdmittedReadIsPresent | universal_research_mcp/server.py:321-350 | an admitted read finds, during its own call, a readable, whole database of this schema that holds the ledger as it was during that call |
| GateCache.CachedGateRefinesFullCheck | universal_research_mcp/server.py:290-350 | in any interleaving of writes and calls the cached gate admits only what the full check would |
| SessionGate.FetchVerifiesExactly | universal_research_mcp/server.py:1129-1254 | a cited reference verifies exactly when it is one registered locator of an unchanged, long enough file |
| SessionGate.Session.ClaimEvidenceCheck | universal_research_mcp/server.py:1257-1315 | verified exactly when the reference verifies now |
| SessionGate.Session.OmittedMismatchedFetches | universal_research_mcp/server.py:1332-1362 | lists the event and path of every logged mismatch that is not cited, once, and nothing else |
| SessionGate.Evaluate | universal_research_mcp/core/claim_gate.py:55-142 | eligible exactly when the claim is material, all checks are verified and enough distinct events are cited; not required exactly for routine claims and for factual, recommending and creative ones left to the default |
| SessionGate.Session.EvidenceEligibilityReceipt | universal_research_mcp/server.py:1365-1423 | eligible exactly when, besides, no logged mismatch is omitted |
| SessionGate.EligibleCitesEveryLoggedMismatch | universal_research_mcp/server.py:1332-1423 | over any session an eligible claim cites, verified, the event of every mismatch logged so far |
| SessionGate.EventlessMismatchBlocksForGood | universal_research_mcp/server.py:1345-1350 | one logged mismatch without an event blocks every later material claim |
| SessionGate.MismatchBindsExactlyWithRoom | universal_research_mcp/server.py:1323-1329 | a mismatch is in all later logs if the log had room, and otherwise changes nothing |
| SessionGate.FetchedIsExpected | universal_research_mcp/server.py:1155-1218 | an accepted fetch goes by the hash it asks for or the only registered one, and returns the hash of the file |
| SessionGate.EventlessFetchExactly | universal_research_mcp/server.py:1146-1186 | when a fetch without an event is accepted, and which lines it returns |
| SessionGate.ChangedFileBindsLaterClaims | universal_research_mcp/server.py:1219-1226 | after a fetch of a file that is not the expected revision, while the log has room, no later claim that passes over it is eligible, and none at all if it had no event |
| SessionGate.IntactFetchBlocksNothing | universal_research_mcp/server.py:1339-1341 | a fetch of the expected revision changes no verdict |
| SessionGate.DiagnosticBlocksIntactClaim | universal_research_mcp/server.py:1332-1423 | one diagnostic fetch of a changed file blocks a claim that cites an intact event |
| SessionGate.TwoEventsForStrongClaims | universal_research_mcp/core/claim_gate.py:20-42 | a comparison, a cause or a release needs two verified citations of different events |
| SessionGate.FullLogForgetsMismatch | universal_research_mcp/server.py:1323-1329 | a session in which a claim passes over a mismatch, eligible exactly if 500 fetches came first |
| StdioFraming.LinesOfJoin | universal_research_mcp/secure_harness/posix_stdio.py:81-92 | splitting a stream undoes joining its lines |
| StdioFraming.LongLineErrors | universal_research_mcp/secure_harness/posix_stdio.py:84-100 | a line of length L over the ceiling costs between 1 and L / (MAX + 1) errors |
| StdioFraming.DeliveredIsDetermined | universal_research_mcp/secure_harness/posix_stdio.py:68-101 | the lines delivered depend on the stream alone, not on the reads |
| StdioFraming.Reader.TakeLine | universal_research_mcp/secure_harness/posix_stdio.py:91-101 | one line is cut off the buffer and sent, reported or dropped, and nothing of the stream is lost |
| StdioFraming.Reader.Feed | universal_research_mcp/secure_harness/posix_stdio.py:80-101 | after a read the buffer holds no newline and at most MAX bytes; the greatest length it has had is then at most that before, or MAX and the read |
| StdioFraming.Reader.Close | universal_research_mcp/secure_harness/posix_stdio.py:76-79 | at the end of input everything sent is what the stream asks for |
| StdioFraming.ReadStdin | universal_research_mcp/secure_harness/posix_stdio.py:68-101 | for every stream and every split into reads the lines delivered are its lines within the ceiling, a last unterminated one only if it is not empty; the buffer never exceeds MAX and one read |
| Passages.GreedyStaysAhead | universal_research_mcp/indexing/semantic.py:206-223 | after any number of chunks the greedy split is at least as far as any other |
| Passages.GreedyIsOptimal | universal_research_mcp/indexing/semantic.py:206-223 | no other split into bounded consecutive chunks covers more lines, or as many with fewer chunks |
| Passages.Chunk | universal_research_mcp/indexing/semantic.py:206-223 | the loop makes a greedy split of the cut lines |
| Passages.LineRange | universal_research_mcp/indexing/semantic.py:160-173 | a range exists exactly for a sound citation, starts where it starts, and spans at most 200 lines |
| Passages.ReadNumberedLines | universal_research_mcp/indexing/semantic.py:176-185 | exactly the lines of the file in the range, with their numbers |
| Passages.SourcePassages | universal_research_mcp/indexing/semantic.py:188-223 | a greedy split of the cited lines: consecutive bounded chunks from the start of the range, at most eight |
| Amendments.DecodeEncode | universal_research_mcp/core/amendments.py:26 | decoding undoes the encoding of section 4 of RFC 6901 for every key |
| Amendments.EveryKeyHasAPath | universal_research_mcp/core/amendments.py:20-26 | every key but the empty one is named by its encoded path |
| Amendments.PathsNameOneField | universal_research_mcp/core/amendments.py:20-26 | a path names a key exactly when it is the prefix and one nonempty token without a slash that decodes to it |
| Amendments.IndexRecords | universal_research_mcp/core/amendments.py:37-39 | the index finds every record by its ID, unless an ID is repeated |
| Amendments.ApplyAmendment | universal_research_mcp/core/amendments.py:42-61 | one amendment is applied to the view, or there is no view at all |
| Amendments.ResolveCoreAmendments | universal_research_mcp/core/amendments.py:29-63 | a view exists exactly when IDs are unique and every amendment is completed, names one field that exists, and records what that field held; it shows each field at its last correction, nothing else changed, and lists the amendments in order |
| Amendments.EditsHold | universal_research_mcp/core/amendments.py:54-60 | at every record, a field holds the corrected value of the last amendment of it so far, or its own |
| Amendments.LastCorrectionIsShown | universal_research_mcp/core/amendments.py:54-60 | the corrected value of the last amendment at the encoded path of a key is what the view shows there |
| Amendments.AmendmentsFormAChain | universal_research_mcp/core/amendments.py:58-60 | the amendments of one field link its original value to the value shown |
| Amendments.OnlyAmendedFieldsDiffer | universal_research_mcp/core/amendments.py:54-60 | a field differs from its record only if amended, and then holds the last corrected value |
| Amendments.OrderBetweenFieldsIsIrrelevant | universal_research_mcp/core/amendments.py:42-61 | reordering that keeps the order within each field changes neither existence nor content of the view |
| WorkerReceipts.PartsRoundTrip | universal_research_mcp/secure_harness/codex_runner.py:258-269 | a path in plain form has the same parts |
| WorkerReceipts.AuthorizedIsStable | universal_research_mcp/secure_harness/codex_runner.py:258-269 | an authorized path is authorized again in the form the receipt keeps |
| WorkerReceipts.ValidateWorkerToolReceipts | universal_research_mcp/secure_harness/codex_runner.py:490-569 | accepts exactly nonempty lists of sound receipts, numbered from one, that cover the plan |
| WorkerReceipts.BuiltReceiptPasses | universal_research_mcp/secure_harness/codex_runner.py:331-487 | every built receipt passes every test of the checker at its place |
| WorkerReceipts.BuiltReceiptSaysTheCall | universal_research_mcp/secure_harness/codex_runner.py:331-487 | every field of a built receipt is that of its call, and its operation is of the plan and of the tool's kind |
| WorkerReceipts.SoundReceiptMeans | universal_research_mcp/secure_harness/codex_runner.py:499-565 | a receipt that passes is sealed, numbered, for an operation of the plan and of its tool, under its paths, with sane contents |
| WorkerReceipts.AuthorizedLiesUnder | universal_research_mcp/secure_harness/codex_runner.py:258-269 | a path is authorized exactly when it is relative, never goes up and lies under a path of the operation |
| WorkerReceipts.BuiltListRejectedOnlyForCoverage | universal_research_mcp/secure_harness/codex_runner.py:490-569 | a list of built receipts is rejected only for being empty or leaving out an operation |
| WorkerReceipts.RunCalls | universal_research_mcp/secure_harness/codex_runner.py:720-746 | the call loop succeeds exactly for orderly, closed, buildable streams that cover the plan |
| WorkerReceipts.CallsAreNotRepeated | universal_research_mcp/secure_harness/codex_runner.py:731-737 | no call is started or completed twice |
| WorkerReceipts.StartedCallsComplete | universal_research_mcp/secure_harness/codex_runner.py:744-745 | every started call completes later |
| WorkerReceipts.CompletedCallsWereStarted | universal_research_mcp/secure_harness/codex_runner.py:738-739 | once anything was started, what completes was started before |
| Statistics.CombByFactorials | benchmarks/rebench/analyze_rebench.py:60-61 | the coefficients by Pascal's rule are the quotients of factorials |
| Statistics.RowSplits | benchmarks/rebench/analyze_rebench.py:60-63 | the two ends of a row make the whole, a power of two |
| Statistics.MidPRange | benchmarks/rebench/analyze_rebench.py:54-64 | the value is in (0, 1], is one exactly for equal counts, and the clamp never acts |
| Statistics.MidPSymmetric | benchmarks/rebench/analyze_rebench.py:54-64 | the value does not depend on the order of the counts |
| Statistics.MidPDecreases | benchmarks/rebench/analyze_rebench.py:54-64 | at a fixed number of pairs the value falls strictly as the counts move apart |
| Statistics.WilsonContainsShare | benchmarks/rebench/analyze_rebench.py:36-43 | the interval contains the observed share and stays within 0 and 1 |
| Statistics.WilsonEndsSolveScore | benchmarks/rebench/analyze_rebench.py:36-43 | both ends x solve n (x - p)^2 = z^2 x (1 - x) |
| Statistics.WilsonEndsDiffer | benchmarks/rebench/analyze_rebench.py:36-43 | and they are different, so they are the two solutions |
| Statistics.NewcombeContainsDifference | benchmarks/rebench/analyze_rebench.py:46-51 | the interval contains the difference, stays within -1 and 1, and turns around when the arms are swapped |
| Statistics.NewcombeWidths | benchmarks/rebench/analyze_rebench.py:46-51 | the squared distance to each end is the sum of the squared distances of the shares to the ends of their intervals on that side |

## Left out

- IngestFinishable.FinishableExactly: says nothing of a draft that was prepared while its sources were being registered, some of which were then registered by hand and the rest of which clash; another draft prepared as late could still commit the missing lines. FinishableAloneExactly covers it when no other draft is committed.
- Validation.ValidateCandidate: a record ID that is present but empty counts as absent, and an approval reference `None` does not name records without an ID, which Python's text of a missing value would make it do.
- IngestDeadEnds.RecoverableExactlyWhenNotStuck: excludes other canonical writers and changed sources; IngestFinishable.FinishableAloneExactly does not.
- IngestHost.CommitIngest: is called when no other live process holds the lock; a lock file left by a dead or foreign holder makes it return at once.
- IngestPrepare.NormalizeSourceRegistrations: the shape of the inputs, the `src_` pattern, the trimming of the source type and the refused secret-like names are field checks.
- LexicalIndex.Index.EnsureLexicalIndex: what SQLite holds is only what the database was built from and the verdicts of its checks; progress reports and the removal of the staging file are not modelled.
- GateCache.CachedGateRefinesFullCheck: assumes that every write gives a file a stamp it never had; the server's own documentation says that a writer that keeps time and size evades the cache.
- SessionGate.FetchVerifiesExactly: hashes are compared as written, without the case-insensitive match to registered sources; files outside the root or with refused names count as files that cannot be read.
- SessionGate.Session.EvidenceEligibilityReceipt: citation fields that Python cannot hash, which make the call raise, are not modelled; nor are the texts of receipts.
- Passages.SourcePassages: passages whose text is blank are dropped afterwards; headings, identities and the removal of line ends and NUL characters are not modelled.
- WorkerReceipts.BuiltReceiptPasses: fields of a wrong type are one malformed value, and hashes computed by the program are known by what was hashed.
- Statistics.MidPRange: exact arithmetic; floating-point rounding is not modelled. The same holds for the intervals, where a square root is any nonnegative number with the right square.
- Records: field patterns, dates and enumerations are one verdict per record (`wellFormed`); scope lists are lists; a duplicate that the candidate check reports a second time is reported once; the attestation check of governed outcomes (`core/input.py:179-210`) reads another subsystem.
- Symbolic links, descriptors, permissions and fsync: a write is nothing, half or all on disk.
- The audit log and the refresh of derived indexes after a commit: neither can change the outcome of a commit.
- JSON text, the HMAC key file and random identifiers: values stand for their text, signatures hold, identifiers are given.
- The Codex process, its output outside worker calls, token ceilings and plan validation: plumbing around the call loop.
- `append_approved_record` in `core/proposals.py`: an unlocked writer outside the commit protocol.
- Bootstrap intervals and the rule of three in the benchmark analysis: random or one division.
