# Models and proofs for AItelier

AItelier drives long-running pipelines. This project models the parts of it that keep state over
whole runs, and proves what those parts promise.

- **The novel ledger** (`NovelState`, `NovelTree`, `NovelPosting`, `NovelRenames`, `NovelFactions`,
  `NovelValidator`, `NovelJournal`, `NovelDerivation`, `NovelReconcile`, `NovelPlot`, `NovelThreads`,
  `NovelMigrate`). Each written chapter leaves a journal. Booking a journal updates the current-state
  cards and appends rows to per-entity ledgers. Four other pieces of code claim to know the outcome
  without booking: the up-front validator, the reconcile replay, the rows the migration derives, and
  the transaction that undoes a failed booking. `NovelState` defines what booking means; the class
  `NovelTree` books in place, loop by loop; the other modules prove that the claims hold, or exactly
  when they hold.
- **Gate evidence** (`GateCoverage`, `GateEvidence`, `GateAudit`, `GateMarkers`, `GateCycles`). A
  report is classified, the classification is written back into it, and three readers (the release
  reader, the audit, the fail-fast blocker) must agree about it. `GateCycles` runs cycle starts and
  stamps in any order and shows that an audit never passes on an old report.
- **Scope selection** (`ScopedGate`). A worklist closure over the union of two dependency graphs
  decides which scenarios may be omitted.
- **The broadcast hub** (`StreamManager`, `StreamHub`, `StreamDelivery`). Bounded queues, replay
  buffers, and sets of queues shared by identity. `StreamManager` is the step function, `StreamHub`
  the object whose methods land where the steps say, `StreamDelivery` the delivery law over runs.
- **The admission relay** (`AdmissionRelay`, `AdmissionRecords`, `AdmissionSummary`). A handler
  thread and a watch thread write to one socket; the interim responses are the 1xx responses of
  section 15.2 of RFC 9110. Every write is two chunks, and the threads interleave between any two
  steps.
- **The read cache** (`ReadCache`, `ReadCacheRuns`). Any number of concurrent calls, a store, and a
  lock table that is dropped when it is full.
- **The run watcher** (`RunWatcher`, `RunWatcherRuns`, `RunWatch`). A transducer from arbitrary stream
  lines, status answers and transport failures to reads, printed lines and an exit code, and the
  command with its own variables and loops, proved to be that transducer.

Functions that define what an operation means recurse on the last element, so that a loop's
invariant is the same function of a prefix. Threads are modelled as step functions over a shared
state. Where the source is an object or works on local variables in loops, there is a class or a
method with loops, proved against those functions.

Several promises made by comments or documentation turn out to be false of the code. The code is
modelled as it is. For each such promise one lemma gives a failing input and another says exactly when
it holds:

- "Every refusal happens up front": a null `factions` passes validation and fails after an earlier
  card was written (`NullFactionsFailLate`). It holds if and only if the world has mappings where the
  entries write (`AcceptedPostsIff`).
- The validator and the posting loop find different names after the lead's role was cleared
  (`RoleChangeBreaksAgreement`). They agree after every entry if and only if each entry that names an
  unknown protagonist finds a lead exactly when the store opened with one (`AgreementIff`), so
  changes of role that leave a lead where there was one do no harm.
- A card is the fold of its ledger: not after a journal changed the card's `name` and a later one
  books under the new name, which starts a file that no row accounts for
  (`RenamedCardLeavesItsLedger`). A store keeps every card a fold through every list of entries that
  clears no name if and only if each card it loads sits in the file of its own name (`FoldKeptIff`);
  over whole runs it holds for stores under their own names and journals that leave names alone
  (`CardsAreLedgerFolds`).
- The migration derives the rows that booking appended: not if a journal completes a node that was
  done at genesis, and exactly if none does (`RecompletedNodeDerivesARow`, `DerivedRowsAreBookedIff`).
- Names no journal creates or registers are the genesis cast and threads: not if a journal creates a
  card or registers a thread that was there (`RecreatedNameIsGuessedAway`,
  `ReregisteredThreadIsGuessedAway`), and exactly if none does (`GuessedCastIff`,
  `GuessedThreadsIff`).
- One-chapter keys are never stored: a setting kept as plain text stores them
  (`TextSettingStoresTransient`), and only a setting whose old value is no mapping does
  (`SettingStoresTransientIff`). For characters and factions the promise holds.
- A migrated bible reads as migrated: one with a null `setting_log` never does (`NullLogExample`,
  `StripClearsHistoryIff`).
- A failed transaction leaves the tree as it was: a failed first apply leaves an empty `chapters/`
  behind (`FailedFirstApplyLeavesDirectory`, `RollbackRestoresIff`).
- Completing a node opens its reveal gate: not with two arcs of one name
  (`DuplicateArcKeepsGateShut`, `CompletionOpensGateIff`). Over whole runs a gate whose name and id
  lead to two places never moves (`AmbiguousGateNeverMoves`), and every other gate opens exactly with
  its completion (`GateOpenIff`).
- A marker passes its root's disposition on: not for a legacy blocker (`LegacyRootIsSoftened`,
  `FirstMarkerKeepsIff`).
- Every live connection hears every push: not after an eviction, when an old generator's cleanup can
  remove a newer connection's set (`EvictionOrphansNewerConnection`). A live connection is registered
  if and only if no push found its queue full and no cleanup cut it off, and the guard for the latter
  is exact (`RegisteredIff`, `CleanupCutsIff`); whoever is registered misses nothing
  (`NothingLostNothingTwice`).
- After `clear()` callers get new values: not if a build was in flight, which some continuation hands
  to a later call (`ClearOvertaken`), and exactly if none was (`ClearTakesEffectIff`). A second build can
  start beside the first (`ClearAdmitsSecondBuild`).
- The watcher's exit code 1 means that the run failed or was cancelled: a malformed event produces it
  too (`MalformedEventLooksLikeFailure`, `ExitOneIff`, `CrashesIff`).

`dafny verify dfyconfig.toml` checks the whole project.

## Model

| member | source | states |
|---|---|---|
| `NovelTree.Overwrite` | aitelier/novel_state.py:642-650 | the loop that writes an event's changes into a card, in any key order, gives the value of the pure overwrite: transient keys skipped, null clears, the rest replaced |
| `NovelTree.LoadCharacters` | aitelier/novel_state.py:419-433 | a card is stored under a name if and only if some listed file bears it, and it is the card of the last such file, completed with that name |
| `NovelTree.ValidateEvents` | aitelier/novel_state.py:506-549 | the validation loop stops at the first refused entry with that entry's refusal, and otherwise ends with the known names that simulating every entry gives |
| `NovelTree.NovelTree.ApplyEvents` | aitelier/novel_state.py:552-639 | posting a list of events in place leaves exactly the cards, world, ledger rows, warnings and error of the posting function, including what was already written when an entry fails |
| `NovelTree.NovelTree.LogAppearances` | aitelier/novel_state.py:653-675 | appearances in place: last and first appearance, dropped in-card history, one row each, a warning for an unknown name |
| `NovelTree.NovelTree.ApplyThreadUpdates` | aitelier/novel_state.py:717-768 | thread updates in place against the arcs as they stand before this chapter's arc updates |
| `NovelTree.NovelTree.ApplyArcUpdates` | aitelier/novel_state.py:771-815 | arc updates in place: completions, order warnings, notes, and closing an arc with its last chapter |
| `NovelTree.NovelTree.ReplayChapter` | aitelier/novel_state.py:828-835 | one chapter is booked in the order events, appearances, threads, arcs, and a refused one leaves what its failing step left |
| `NovelTree.NovelTree.ReplayAll` | aitelier/novel_ledger_migrate.py:333-339 | the chapters handed over are booked in order up to the first refusal |
| `NovelValidator.ValidatorAgreesWithPosting` | aitelier/novel_state.py:506-608 | for accepted lists that leave roles alone, half-failed ones included: every card created was declared by an entry with `create: true` under a name that is nobody's alias, the names are the validator's (part of them if the loop stopped), and the protagonist is unchanged |
| `NovelValidator.AgreementIff` | aitelier/novel_state.py:518-578 | for every accepted list the loop's names are the validator's after every entry it gets to if and only if each entry that names an unknown protagonist finds a lead exactly when the store opened with one, the lead being folded from the opening parts and the entries before it |
| `NovelValidator.PostedRoles` | aitelier/novel_state.py:464-468 | that fold tells exactly the roles the posting loop will have |
| `NovelValidator.RoleChangeBreaksAgreement` | aitelier/novel_state.py:518-578 | for any two names: clear the lead's role, then name the other as protagonist; the list is accepted, holds no `create`, and the loop ends up with other names than the validator |
| `NovelValidator.AcceptedPostsIff` | aitelier/novel_state.py:506-639 | an accepted list posts without error if and only if the world's sections have the shape each entry needs |
| `NovelValidator.NullFactionsFailLate` | aitelier/novel_state.py:610-618 | an accepted list that fails half way, after a card was written |
| `NovelPosting.CardsAreLedgerFolds` | aitelier/novel_state.py:552-673 | for a store whose files bear their own cards' names and any chapters that change no card's `name`: every card is the fold of its own ledger rows over its genesis card, and no other card exists |
| `NovelPosting.CardsReadOffTheLedger` | aitelier/novel_state.py:552-673 | for the same stores and chapters: each balance of a card is the last value the ledger wrote for it, null-clears included, and a transient key is on a card only if genesis put it there |
| `NovelRenames.FoldKeptIff` | aitelier/novel_state.py:552-608 | for any store: posting any list that clears no name leaves every card the fold of its rows, if and only if every loaded card sits in the file of its own name |
| `NovelRenames.RenamedCardLeavesItsLedger` | aitelier/novel_state.py:552-608 | for any two names: one chapter renames a card, the next books under the new name; both are accepted, and the new file is not the fold of its ledger |
| `NovelPosting.FoldReadsLastWrite` | aitelier/novel_state.py:642-650 | the fold of any rows holds, at each key, the last row's value for that key or the opening one |
| `NovelPosting.FoldStoresNoTransient` | aitelier/novel_state.py:340-347 | no row of any kind brings a one-chapter key into a card |
| `NovelPosting.OpeningBalanceIsClean` | aitelier/novel_state.py:596-604 | the `initial` record of a created card holds every key of the card but `initial` and `progression`, with its value, and no one-chapter key |
| `NovelPosting.SettingStoresTransientIff` | aitelier/novel_state.py:620-637 | a world setting stores a one-chapter key if and only if an old value exists and is not a mapping |
| `NovelPosting.TextSettingStoresTransient` | aitelier/novel_state.py:632-633 | for any setting kept as text, an entry with a one-chapter key that stores the key |
| `NovelFactions.FactionsAreLedgerFolds` | aitelier/novel_state.py:610-618 | after any chapters, refused ones included, every faction's entry is the fold of its own ledger rows over its opening entry |
| `NovelFactions.FactionsReadOffTheLedger` | aitelier/novel_state.py:610-618 | after any chapters a faction's field is the last value its ledger mentions, and no one-chapter key was added |
| `NovelJournal.JournalLedgerRows` | aitelier/novel_ledger_migrate.py:72-133 | the nested loops, with `known`, `threads_known`, `done` and `out` as variables that carry over from chapter to chapter, emit the rows of the derivation function in order |
| `NovelJournal.DerivedRowsAreBookedRows` | aitelier/novel_ledger_migrate.py:72-133 | for accepted journals over a genesis with nothing done and one steady protagonist, the derived rows are exactly, in order, the rows booking appends |
| `NovelDerivation.DerivedRowsAreBookedIff` | aitelier/novel_ledger_migrate.py:72-133 | the same for any plot: with one steady protagonist the derived rows are the booked ones if and only if no journal completes a node that was done at genesis |
| `NovelDerivation.RecompletedNodeDerivesARow` | aitelier/novel_ledger_migrate.py:120-129 | in every readable book with one lead and a node done at genesis: a chapter that completes the node again is accepted, and the derived rows are not the booked ones |
| `NovelJournal.LiveNames` | aitelier/novel_state.py:552-608 | the booked cast lies between the genesis cast and the genesis cast with every created name |
| `NovelJournal.GuessedCastIff` | aitelier/novel_ledger_migrate.py:375-385 | taking the live cast minus created names for the genesis cast is right if and only if no journal creates a genesis name |
| `NovelDerivation.RecreatedNameIsGuessedAway` | aitelier/novel_ledger_migrate.py:375-383 | for any name: a one-card genesis and an accepted journal that creates that name again, after which the guess leaves the card out |
| `NovelDerivation.GuessedThreadsIff` | aitelier/novel_ledger_migrate.py:381-387 | for every book and every run: the live threads minus the registered names are the genesis threads if and only if no journal registers a genesis thread |
| `NovelDerivation.ReregisteredThreadIsGuessedAway` | aitelier/novel_ledger_migrate.py:381-387 | in every readable book: a chapter that registers a thread it has is accepted, and the guess leaves that thread out |
| `NovelReconcile.Reconcile` | aitelier/novel_state.py:949-1000 | the replay-and-compare loops report the drift between the replayed journals and the live cards, or only that there is no baseline |
| `NovelReconcile.SilentIff` | aitelier/novel_state.py:985-999 | no drift if and only if the same cards exist on both sides and every tracked field the journals know has the journals' value |
| `NovelReconcile.BookedBibleNeverDrifts` | aitelier/novel_state.py:949-999 | any bible reached from genesis by booking accepted journals with one steady protagonist gives no drift, whatever the directory order |
| `NovelReconcile.EditedBibleDriftsIff` | aitelier/novel_state.py:949-999 | for a bible booked from genesis and then edited in any way (fields, names, files added or removed): the audit is silent if and only if the edited files load, in whatever order, as the booked cards and every tracked field a booked card has kept its value |
| `NovelPlot.ProgressIsTheLedger` | aitelier/novel_state.py:771-815 | over any ordered run a node is done if and only if its arc's ledger holds exactly one completion row for it, with the same chapter; an arc is completed exactly when its last node is, and ends with the greatest chapter |
| `NovelPlot.ProgressNeverGoesBack` | aitelier/novel_state.py:678-693 | for every plot and every run: a done node stays as it was in every longer run and the frontier never moves back |
| `NovelPlot.RunAdvances` | aitelier/novel_state.py:771-815 | for every plot and every run: done nodes stay, and a node becomes done only where the last arc and the last node of its names are |
| `NovelThreads.CompletionOpensGateIff` | aitelier/novel_state.py:687-693 | completing a node opens its reveal gate if and only if the first arc and node of those names are the last ones, or it was open |
| `NovelThreads.DuplicateArcKeepsGateShut` | aitelier/novel_state.py:771-815 | two arcs of one name: the node is completed and its gate stays shut |
| `NovelThreads.AmbiguousGateNeverMoves` | aitelier/novel_state.py:678-702 | over every run a gate whose first arc or node is not the last one of its name keeps the answer it had at genesis |
| `NovelThreads.GateOpenIff` | aitelier/novel_state.py:828-835 | for every plot and chapter-ordered run: in chapter k a gate is open if and only if it was open at genesis, or its name and id lead to one place and some strictly earlier chapter completed the node |
| `NovelThreads.ResolveWarnsIffEarly` | aitelier/novel_state.py:717-768 | for every plot and chapter-ordered run: resolving a gated thread warns if and only if its gate was shut at genesis and no strictly earlier chapter completed its node where the gate looks |
| `NovelThreads.HintsAreTheLedger` | aitelier/novel_state.py:705-768 | after any chapters each thread's hint count is its opening count plus the hint rows of its ledger, and gates never change |
| `NovelThreads.RevealableStays` | aitelier/novel_state.py:696-702 | from any books: a thread that can be revealed can be revealed after every run |
| `NovelMigrate.NormIdempotent` | aitelier/novel_ledger_migrate.py:234-242 | normalising twice is normalising once |
| `NovelMigrate.DiffEmptyIff` | aitelier/novel_ledger_migrate.py:254-271 | the comparison reports nothing if and only if the two nested values are equal |
| `NovelMigrate.LegacyBible.StripLegacyHistory` | aitelier/novel_ledger_migrate.py:136-199 | the in-place strip, card by card and section by section, leaves the stripped bible |
| `NovelMigrate.StripClearsHistoryIff` | aitelier/novel_ledger_migrate.py:55-69 | a stripped bible still reads as unmigrated if and only if a null setting log was left in place |
| `NovelMigrate.NullLogExample` | aitelier/novel_ledger_migrate.py:170-180 | a bible that reads as unmigrated before and after its strip |
| `NovelMigrate.StripTwice` | aitelier/novel_ledger_migrate.py:136-199 | a second strip changes nothing |
| `NovelMigrate.Workspace.Rollback` | aitelier/novel_state.py:292-305 | the rollback loops leave saved directories as saved, remove new ones and drop new chapter directories |
| `NovelMigrate.RollbackRestoresIff` | aitelier/novel_state.py:251-305 | a rollback restores the tree if and only if the failed body touched only saved directories and added only new chapters |
| `NovelMigrate.FailedFirstApplyLeavesDirectory` | aitelier/novel_state.py:300-305 | a failed first apply on a tree without `chapters/` leaves the empty directory behind |
| `NovelMigrate.Workspace.WrittenChapters` | aitelier/novel_state.py:313-322 | every record on disk once, by ascending number |
| `NovelMigrate.Workspace.ReplayInto` | aitelier/novel_ledger_migrate.py:321-352 | a refusal, a wrong chapter number, a dry run or a difference leaves everything as it was; a commit leaves the booked bible, its ledger and its rebuilt index, and nothing else changed |
| `NovelMigrate.CommitsIff` | aitelier/novel_ledger_migrate.py:333-350 | a replay commits if and only if it is no dry run, every record declares its own chapter and is accepted, and the comparison finds no difference or is overridden by force |
| `NovelMigrate.MigrateReplay` | aitelier/novel_ledger_migrate.py:274-297 | end to end over the records on disk in number order: all or nothing, and without force a commit leaves a normalised state equal to the stripped legacy bible |
| `GateCoverage.ValidScopeIff` | aitelier/gate_coverage.py:95-126 | a scope is valid if and only if it describes a non-empty choice from a named inventory, both lists in authored order, with the right marker |
| `GateCoverage.PublishesIff` | aitelier/gate_coverage.py:129-142 | a scope may publish if and only if it is valid, not provisional, and selects the whole inventory |
| `GateCoverage.FullScopeValidIff` | aitelier/gate_coverage.py:66-77 | the default producer's scope is valid if and only if its inventory is named and non-empty and its two digests are 40 and 64 hexadecimal digits |
| `GateCoverage.FullScopePassesSourceIff` | aitelier/gate_coverage.py:80-92 | that scope passes the source check for its own head, contract and inventory, and for no other |
| `GateEvidence.LabelWithheldIff` | aitelier/gate_evidence.py:154-206 | the derived label would change the reading if and only if the state is skipped and no marker or unrun flag carries it |
| `GateEvidence.RestatePreserves` | aitelier/gate_evidence.py:209-297 | restating keeps both the state and the disposition of every report |
| `GateEvidence.RestateIdempotent` | aitelier/gate_evidence.py:209-297 | a second restatement changes nothing |
| `GateEvidence.BareRenameLosesAbsence` | aitelier/gate_evidence.py:154-206 | without the fixpoint rule a parked report would become a confirmed failure |
| `GateEvidence.StampPreservesAnswers` | aitelier/gate_evidence.py:305-335 | a stamp with a cycle keeps both answers of its producer |
| `GateEvidence.StampedIdentity` | aitelier/gate_evidence.py:305-335 | a stamped report names its run and its cycle, the empty cycle when none is established |
| `GateEvidence.ReportFile.WriteState` | aitelier/gate_evidence.py:154-206 | the in-place write keeps the label only where the report still reads as it, else puts the old one back |
| `GateEvidence.ReportFile.RestateClassification` | aitelier/gate_evidence.py:209-297 | the in-place restatement leaves the restated report |
| `GateEvidence.ReportFile.StampReport` | aitelier/gate_evidence.py:305-335 | the in-place stamp leaves the stamped report |
| `GateAudit.AuditAgreesWithRelease` | aitelier/gate_evidence.py:521-648 | a current report without an upstream state passes the audit if and only if the release reader releases it |
| `GateAudit.UpstreamOverridesRelease` | aitelier/gate_evidence.py:521-648 | with an upstream state the release reader releases if and only if the report is no unmeasured feedback round, that word is passed and no coverage is refused |
| `GateAudit.AuditEvidence` | aitelier/gate_evidence.py:716-802 | the loop fills the buckets of the audit function, in audit order, and the verdict with it |
| `GateAudit.EachFailureInOneBucket` | aitelier/gate_evidence.py:770-802 | every entry that does not pass lies in one bucket, as often as it was audited, and in no other |
| `GateAudit.FreshIffPassed` | aitelier/gate_evidence.py:716-802 | the verdict reads fresh if and only if it passes |
| `GateAudit.FirstUpstreamBlocker` | aitelier/gate_evidence.py:651-689 | an unreadable declaration blocks; otherwise the fail-fast loop returns the first entry that does not pass, with the upstream state its report donates |
| `GateAudit.BlockerAgreesWithAudit` | aitelier/gate_evidence.py:651-831 | for a non-empty gate list there is no blocker if and only if the audit passes, and with a cycle established the blocker is the audit's first failing entry up to the upstream state |
| `GateMarkers.MarkerReads` | aitelier/gate_evidence.py:692-713 | what every reader tells about a marker: skipped, the root's word, the disposition of that word, its run and cycle |
| `GateMarkers.BlockedIsBlocker` | aitelier/gate_evidence.py:651-689 | the entry a marker is made from is the one the fail-fast reader returns |
| `GateMarkers.ChainKeepsRoot` | aitelier/gate_evidence.py:692-713 | down any chain of skipped current-cycle gates the upstream state and disposition stay those of the first marker, and every marker blocks |
| `GateMarkers.FirstMarkerKeepsIff` | aitelier/gate_evidence.py:637-713 | the first marker answers like its root if and only if the root is no feedback round or refused coverage decided otherwise by its word, and not of the legacy shape |
| `GateMarkers.LegacyRootIsSoftened` | aitelier/gate_evidence.py:692-713 | for every run and cycle, a legacy blocker that is repaired and whose marker parks |
| `GateMarkers.StaleStillDonates` | aitelier/gate_evidence.py:682-687 | a stale blocker still passes its upstream state on |
| `GateCycles.PassingAuditIsFresh` | aitelier/gate_evidence.py:114-136 | in every history of cycle starts and stamps with fresh cycle ids, a passing audit means every declared report was stamped at or after the latest cycle start, which is that run's |
| `ScopedGate.Closure` | aitelier/scoped_gate.py:106-113 | the worklist ends with exactly the files reachable from the roots |
| `ScopedGate.SelectScope` | aitelier/scoped_gate.py:187-284 | the selection loops give no plan if and only if the inventory is malformed, the full plan whenever anything is in doubt, and otherwise the impacted and always-included scenarios |
| `ScopedGate.InventoryIsGood` | aitelier/scoped_gate.py:196-203 | an accepted inventory is non-empty with distinct non-empty names |
| `ScopedGate.OmittedAreUntouched` | aitelier/scoped_gate.py:231-262 | no changed file is reachable from an omitted scenario, at either endpoint or by switching between them |
| `ScopedGate.ChangesAreCovered` | aitelier/scoped_gate.py:263-267 | in a narrowed plan every changed file is reached by a selected scenario |
| `ScopedGate.ChosenAreAuthored` | aitelier/scoped_gate.py:272-282 | the selection is never empty, never outside the inventory, and is everything whenever anything is in doubt |
| `ScopedGate.PlanIsValidIff` | aitelier/scoped_gate.py:275-282 | the plan passes the coverage validator if and only if its head is 40 hexadecimal digits |
| `StreamManager.AlwaysBounded` | api/sse_manager.py:123-167 | over every run queues hold at most 1000, buffers 500, buffered channels 64 and registered queues 512, and the sharing of sets stays consistent |
| `StreamManager.ReplayFits` | api/sse_manager.py:258-268 | the replay put at connect never overflows |
| `StreamManager.EvictionLosesHead` | api/sse_manager.py:143-167 | a full queue loses exactly its head and the new message before the end marker; every other watcher gets the message |
| `StreamHub.Hub.ConnectionCount` | api/sse_manager.py:169-170 | the sum over channels is the number of registered connections |
| `StreamHub.Hub.PresenceCounts` | api/sse_manager.py:192-211 | the loop counts the global connections and the named ones among them |
| `StreamHub.Hub.PushPresence` | api/sse_manager.py:213-225 | presence reaches every global queue with room and changes nothing else |
| `StreamHub.Hub.PushLog` | api/sse_manager.py:117-167 | a push lands exactly in the step function's state and keeps the hub valid |
| `StreamHub.Hub.Connect` | api/sse_manager.py:248-268 | a connection is refused at capacity without effect, else joined, announced and given the buffer |
| `StreamHub.Hub.Take` | api/sse_manager.py:270-289 | taking a message removes the head; the end marker ends the generator |
| `StreamHub.Hub.Close` | api/sse_manager.py:290-295 | the cleanup looks only at the set object the generator was given |
| `StreamDelivery.NothingLostNothingTwice` | api/sse_manager.py:117-295 | on every run, with evictions or without, a live task-channel connection that no step lost is registered, and what it took and still has queued is the buffer at subscribe followed by every later push, in order, once |
| `StreamDelivery.CleanupCutsIff` | api/sse_manager.py:290-294 | a cleanup removes another watcher of its channel if and only if the channel has another set by then and the generator's own set holds nobody else |
| `StreamDelivery.RegisteredIff` | api/sse_manager.py:143-150 | over every run a live connection is registered if and only if no push found its queue full and no other connection's cleanup cut it off |
| `StreamDelivery.QuietRunLosesNobody` | api/sse_manager.py:117-167 | on a run without eviction nobody is ever lost |
| `StreamDelivery.UnregisteredHearsNothing` | api/sse_manager.py:123-142 | a live connection that lost its registration hears no push to its channel |
| `StreamDelivery.EvictionOrphansNewerConnection` | api/sse_manager.py:290-295 | a run with one eviction after which a live connection is registered nowhere and a push misses it |
| `AdmissionRelay.InterimsThenOneFinal` | aitelier/gate_admission.py:270-379 | in every interleaving the gate reads whole interim responses and then at most one final one, complete if and only if recorded as delivered, and the recorded keepalives are the interim responses |
| `AdmissionRelay.OnlyFailuresTear` | aitelier/gate_admission.py:416-427 | an interim response is cut short only by a write that fails half way |
| `AdmissionRelay.NothingAfterStop` | aitelier/gate_admission.py:412-418 | once the stop flag is set under the lock only final chunks are ever written |
| `AdmissionRelay.OneInterimAfterAdmission` | aitelier/gate_admission.py:429-448 | however the run goes on after admission was seen, at most one more interim response begins |
| `AdmissionRecords.EveryRecordIsTrue` | aitelier/gate_admission.py:275-379 | with any number of requests interleaved, record i has number i and one request, is completed if and only if its handler is through, and tells the interim count and delivery the gate saw; in-flight membership is exact |
| `AdmissionSummary.Summarise` | aitelier/gate_admission.py:451-487 | the loops give the owners in order of first mention, the sum of the waits that are numbers, and the fate of the last record by number |
| `AdmissionSummary.FirstMentionsExact` | aitelier/gate_admission.py:462-465 | every owner waited for is listed once, nobody else, in the order of first mention |
| `AdmissionSummary.SummaryIgnoresOrder` | aitelier/gate_admission.py:459-459 | handing the records over in another order changes nothing when different records have different numbers |
| `AdmissionSummary.AnsweredIff` | aitelier/gate_admission.py:475-487 | in every interleaving the summary says answered if and only if the last request to arrive is through, had a 2xx answer, and its gate read the whole final response |
| `ReadCache.OneBuildPerKey` | api/_read_cache.py:77-113 | over every run, of all calls that got their lock between the same two resets at most one per key is past it |
| `ReadCache.LockTableBounded` | api/_read_cache.py:77-88 | over every run the lock table holds at most 512 keys |
| `ReadCacheRuns.WaitersReuse` | api/_read_cache.py:103-113 | from any reachable state in which no call on the key holds a lock of an earlier epoch, while no table is dropped: after a stored result no call on that key builds before the result is as old as its own time to live, and until then it leaves with a result at least that recent |
| `ReadCacheRuns.ClearTakesEffectIff` | api/_read_cache.py:116-122 | every later call's value comes from a build started after the clear if and only if no build of the key was in flight when the store was emptied |
| `ReadCacheRuns.ClearOvertaken` | api/_read_cache.py:111-118 | from every state with a build of the key in flight, a run in which a call made after the clear returns that build |
| `ReadCacheRuns.ClearAdmitsSecondBuild` | api/_read_cache.py:116-122 | whenever a build is in flight, one clear lets a second build of its key start beside it |
| `RunWatch.Watch.Await` | debugctl.py:640-775 | the whole command with its own variables: it performs a run of the step function on the inputs it consumes and stops only when it exits or the input cannot follow; its reads are at most two per live connection and one more; an ending is last and right after what authorises it; the exit code is that of the last thing done |
| `RunWatch.Watch.Reconcile` | debugctl.py:523-593 | one status read in place: what it prints, remembers and whether it ends the watch are the step function's |
| `RunWatch.Watch.Reopen` | debugctl.py:653-671 | the attempts, with `fails` and `backoff` updated in place, perform a run of the step function until one opens the stream or there is nothing left to try |
| `RunWatch.Watch.ReadStream` | debugctl.py:682-765 | the lines of one connection, with `subscribed` and `unattributed_checked` as variables, perform a run of the step function to its end |
| `RunWatcherRuns.EndingsAreAuthorised` | debugctl.py:401-431 | completed, failed or cancelled is reported at most once, last, and directly after a terminal answer or event naming the project and, when given, exactly that run |
| `RunWatcherRuns.CheckpointsOnce` | debugctl.py:509-521 | no identified checkpoint instance is printed twice |
| `RunWatcherRuns.ReadsAreBounded` | debugctl.py:523-593 | at most two status reads per live connection and one more to give up, however chatty the stream |
| `RunWatcherRuns.ExitCodes` | debugctl.py:455-458 | the watch is over if and only if its last deed ends it, with that deed's code: 0 checkpoint or completion, 1 failure, cancellation or a crash, 2 timeout, 3 missing run, 4 stream given up |
| `RunWatcherRuns.TimeoutTellsTheTruth` | debugctl.py:614-638 | a timeout under an exact run says what the read made at that moment established, and never quotes the status of an ended run |
| `RunWatcherRuns.CrashesIff` | debugctl.py:546-593 | a step breaks the watcher if and only if its input holds a list or object where a status, type or step was expected, or a failure reason that is not text |
| `RunWatcherRuns.ExitOneIff` | debugctl.py:455-458 | exit code 1 if and only if the last deed is a reported failure, a reported cancellation, or a crash |
| `RunWatcherRuns.MalformedEventLooksLikeFailure` | debugctl.py:720-722 | an event whose type is a list makes the watcher exit with code 1 without any report |

## Left out

- YAML and JSON decoding, file names and their collisions, and git: stores are maps keyed by entity
  name, the genesis tag is a given state, the order of a directory listing is a parameter.
- Journals whose fields have unexpected types: journals, appearances and plot updates are typed
  records; card values, world sections and changes are arbitrary nested values.
- `rebuild_digest` and the contents of `rebuild_index`: the index is a function parameter.
- `query_ledger`, style rules, character counts and chapter numbering: they would only add easy
  members.
- NovelTree.NovelTree.ReplayAll: the check that a record declares its own chapter is made by
  NovelMigrate.Workspace.ReplayInto.
- NovelMigrate.MigrateReplay: does not model the `stale_after` option, which drops old keys by hand.
- NovelMigrate.LegacyBible.StripLegacyHistory: does not model `stale_after` or the counters of its report.
- NovelMigrate.Workspace.ReplayInto: the rebuilt index is one function of the bible and the records, and the
  records are handed over; MigrateReplay hands over those on disk.
- NovelState.NameOf and NovelState.AliasTexts: a name or an alias that is not text, which the source turns
  into text, is passed over.
- NovelMigrate.DiffEmptyIff: the comparison is the set of differing paths, not the order and wording of
  its lines.
- The text of warnings and refusals: each is a datatype constructor that names its cause.
- Reports outside the vocabulary the readers know: a text field is a known word, a word that becomes one
  once stripped and lower-cased, or free text; a coverage field is the refusal it draws.
- GateCycles.PassingAuditIsFresh: starting a cycle and stamping a file are single steps; two processes
  that write one file at the same time are not modelled.
- Source scanning for scenes, autoloads and uncertain references, the file suffixes that count as opaque,
  and the clock measurement: these are inputs of the selection.
- `public_global_message`, heartbeats and the wording of the stream: they do not touch the hub's state.
- HTTP parsing, sockets, the render-wait and operation-id injection, and the relay's clock: an owner-table
  read, a poll that is due and a failing write are choices of the environment.
- AdmissionRelay and ReadCache have no class: what they mutate is shared by threads, so it is a value
  that atomic steps rewrite. A section under the relay's own lock, or under the lock-table guard, is one step.
- AdmissionSummary.Summarise: does not model rounding to three decimals.
- GateAudit.FirstUpstreamBlocker: a declaration handed over as text is its decoded list, or unreadable.
- RunWatch.Watch.Await: assumes that a decoded event is an object, and does not model the missing-dependency
  exit before the first request.
- Identity checks, routing, the command-line and web front ends, and the engine adapters: other components.
