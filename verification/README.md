# What the program promises, proved

A verified model of six cores of the repository: exactly-once capture, device
pairing, correction scoring, entity-graph canonicalisation, commitments and the
digest, and two pieces of file handling (exclusive publication, the
configuration writer and loader).

Code that changes things step by step is modelled as classes and loops that do
the same, each tied to a function of the old state; what several requests,
processes or callers do at once is modelled as a step relation with crashes and
failing writes between any two steps; the properties are lemmas over the
functions, or over every finite run of the step relation. The modules named
`...Laws` say what those functions decide over inputs and fields alone, without the
helpers that compute it.

| area | modules |
|---|---|
| exactly-once capture | `Reservations` (the store), `Capture` (the steps), `CaptureSafety`, `CaptureSerial`, `CaptureCensus`, `CaptureRuns`, `CaptureProgress`, `CaptureLimits`, `CaptureLaws` |
| pairing and devices | `Registry` (the record file), `RegistryFacts`, `RegistryLaws`, `Pairing` (the steps), `PairingSafety`, `Listener` (the handler), `ListenerLaws` |
| correction scoring | `Latest`, `CorpusRows`, `CorpusStore` (the class), `CorpusViews`, `CorpusTimeline`, `CorpusAnswers`, `CorpusReport`, `CorpusCounts`, `CorpusLaws`, `ReportLaws` |
| command shapes | `ShellLexer`, `ShellLaws`, `Heredocs`, `Shapes`, `ShapeLaws` |
| entity graph | `Connectivity`, `Forest`, `Ordering`, `OrderingLaws`, `Mailboxes`, `MailboxLaws`, `Graph`, `GraphRules`, `GraphTheorems`, `GraphLaws` |
| commitments, digest | `Sorting`, `Lifecycle`, `LifecycleLaws`, `Duplicates`, `DuplicateLaws`, `Digest`, `DigestLaws` |
| files | `Exclusive`, `ConfigText`, `ConfigFile`, `ConfigLaws` |

## Assumptions

- **Capture, always.** The vault publishes create-exclusively at a pinned id and
  the first receipt bytes recorded for a publication stay, as the `Writer`
  contract says (internal/companion/capture.go:90-132). The identity digest is
  injective; the memory id, which keeps four bytes of a digest, is only a
  function, so two captures may collide on it. `CaptureSafety` needs nothing
  else: any number of processes and of slots in each, any clock, any faults,
  writes that land and are reported as failed, any trimming, memories removed
  from the vault at any time.
- **`AloneRun`** (for one key, one capture): one listener runs at a time, it has
  the one slot the program gives it (`maxInFlightKernelCalls`,
  internal/companion/server.go:131), and the key's publication is not dropped.
  Nothing is asked of deadlines, the clock or trimming. `CaptureLimits` gives
  for each of the three a run in which only that one fails and two captures get
  in: `TwoListenersLetAnotherIn`, `TwoSlotsLetAnotherIn`, `ForgettingLetsAnotherIn`.
  With two listeners it takes no slow request: in `StaleSweepLetsAnotherIn` none is
  as old as a takeover.
- **`TidyRun`** (for the census): one process with that one slot, counting a
  process that is only opening the store; files can be deleted; no reservation
  write lands and is reported as failed. The store itself says when a write
  keeps its census: settling does exactly when the file is there
  (`SettleIsExact`), a write misreported as failed exactly when it changes no
  state (`SlipIsExact`), a sweep, a collected key and an opening exactly when what
  they forget can be deleted (`SweepIsExactUnlessStuck`, `ClearedIsExactUnlessStuck`,
  `OpenIsExactUnlessStuck`), a trim always; and a trim gets under the cap exactly
  when enough can be deleted (`TrimReachesUnlessStuck`).
- **Pairing.** One confirmation is served at a time; fresh tokens have not been
  used before; fingerprints are injective. Every read and write may fail, a
  write or removal may land and be reported as failed, an answer may be lost, the
  process may restart between any two of these, and the clock may go anywhere.
- **Corpus order.** No call and no denial has two different copies that are both
  the lowest by first sighting, time and session. That is exactly when the copies
  kept are the same for every order (`OrderMattersByTies`,
  `DenialOrderMattersByTies`); `TiesMatter` feeds two corpora that differ.
- **Graph kinds.** Ids are made as `personID` makes them: the prefix and folded
  text, folding being trimming and then lower-casing (internal/graph/graph.go:115-118).
  `MadeIdIsFolded` asks of folding only that doing it twice is doing it once, which
  `AsciiFoldsOnce` proves of ASCII.
- **Commitments.** Order independence of duplicates asks for distinct ids and for
  no three items whose times are tangled, which is exactly when the comparison is
  an order (`OrderExactlyWithoutTangles`); that of the lifecycle asks that no two
  pieces of evidence share time, memory and text.

## Where the code and its intent part

- An applied answer is byte-identical on every retry only while the published
  store keeps the publication. Once that store has trimmed it and the reservation
  has expired, the retry is applied again, under new bytes, to the same memory:
  `CaptureLimits.ForgettingChangesTheAnswer` gives the run for any two bodies,
  `CaptureSafety.AppliedAnswersAreIdentical` the condition.
- The replay backfill (internal/companion/capture.go:422-446) records whatever
  bytes the reservation held. They may be a rejection, given to a capture whose
  memory has long been in the vault: `CaptureLimits.BackfillRecordsRefusal` is the
  run, and `CaptureSafety.ReceiptsAreApplied` says that the recorded receipts are
  all applied ones exactly when every replay put in place of a missing receipt is.
- The cap on reservation files holds after every trim, not at every moment. A
  crash between a write and its trim leaves one file more, which reopening counts
  and does not trim: `CaptureLimits.LostTrimLeavesOneMore` runs to 513 files, and
  `CaptureCensus.CensusIsExact` bounds what there can be by 512, a trim under way
  and the trims crashes cut off.
- A token that was minted can be lost: its record write landed but was reported as
  failed, the process died before the answer, or the answer did not arrive. The
  device is then active and nobody was told its token, and confirming again is
  refused. The comments at internal/companion/pairing_route.go:458-462 speak of a
  failed audit row only, where the code does hand the credential over.
  `PairingSafety.HandedExactlyWhenDelivered` is the exact condition for every run,
  `RegistryFacts.ConfirmStrands` for one confirmation, `PairingSafety.ASlipStrands`
  and `PairingSafety.ALostAnswerStrands` are the runs. The operator's revocation
  still ends such a device.
- Emptying a directory setting that the file repeats keeps the file's first
  line, where loading had obeyed the last one: the value in force stays exactly
  when those two read the same (`ConfigFile.EmptiedDirectoryKeepsFirst`), and
  `ConfigFile.EmptiedDirectoryGoesBack` is the file on which it does not. The
  writer also accepts policies the loader refuses
  (`ConfigFile.LoadsWhenPoliciesKnown`).
- When the budget leaves no urgent item, the shelf prints nothing, not even how many
  were dropped, and no section is charged for them
  (`Digest.DropsShowUnlessShelfIsEmptied`).
- The declared token set covers what a flag cluster prints exactly when every
  choice of two or more of its letters, short of all, is declared on its own
  (`Shapes.ClusterIsCovered`). Clusters of two letters, as the shipped `rf` and
  `f`, have no such choice; `abc` has `ac` (`Shapes.LongClusterEscapes`).
- `evidenceLess` compares instants when both parse and text otherwise, which is
  an order exactly where no time that does not parse stands, as text, between two
  that do and whose instants are the other way round
  (`Duplicates.OrderExactlyWithoutTangles`); `Duplicates.UnparsedTimesCycle` is
  such a triple.

## Model

| member | source | states |
|---|---|---|
| `CaptureSafety.AtMostOneMemory` | internal/companion/capture.go:341-549 | in every run, whatever crashes, expires, is trimmed, taken over or removed from the vault, one capture under one key of one device never has two ids in the vault, at whatever two moments one looks |
| `CaptureSafety.AppliedAnswerIsInVault` | internal/companion/capture.go:371-506 | every applied answer ever given names a memory that by then was in the vault for that very capture, and that stays until someone removes that memory |
| `CaptureSafety.MemoryStays` | internal/companion/capture.go:90-132 | no step of any request, crash or boot removes a memory or changes whose it is; only a removal from outside does |
| `CaptureSafety.AppliedAnswersAreIdentical` | internal/companion/capture.go:455-506 | two applied answers to one capture, from the receipt, the reservation, a settled claim or a racing claimant, are the same bytes unless the publication was dropped from the published store |
| `CaptureSafety.StepKeeps` | internal/companion/capture.go:341-549 | each step of a request, a crash, a boot or an outside write or removal keeps the invariant behind these three, and only extends what was ever placed, answered and recorded |
| `CaptureSafety.RunExtends` | internal/companion/capture.go:90-132 | over any stretch of a run what was placed and answered only grows, and a recorded receipt changes only if its publication was dropped |
| `CaptureSafety.ReceiptsAreApplied` | internal/companion/capture.go:422-446 | in every run all recorded receipts are applied ones exactly when each replay the backfill puts in place of a missing one is |
| `CaptureLimits.ForgettingChangesTheAnswer` | internal/companion/capture.go:109-117 | for any two applied bodies there is a run of one listener that answers one capture with both, dropping its publication in between: the condition on identical answers is needed |
| `CaptureProgress.CaptureGoesThrough` | internal/companion/capture.go:341-507 | from any state in which the listener has a slot, the lock and the key are free, nothing is published under the key and sweeping leaves room for one more claim, whatever else is claimed, however full the store and whatever trims were lost, a capture nothing disturbs leads on to an applied answer, its memory in the vault, its receipt recorded and its record settled with those bytes |
| `CaptureLimits.BackfillRecordsRefusal` | internal/companion/capture.go:422-446 | a run of one listener that records a rejection as the receipt of a capture whose memory is in the vault |
| `CaptureSerial.OneKeyOneCapture` | internal/companion/server.go:849-871 | with one listener and its one slot, one key of one device never publishes two different captures while its publication is kept, whatever the clock does and whatever is trimmed |
| `CaptureSerial.StepAgrees` | internal/companion/capture.go:341-549 | every step keeps the argument behind that: whoever is being served agrees with what its key published |
| `CaptureSerial.StepSlots` | internal/companion/server.go:849-871 | the slot taken before a capture is asked about and given back after it keeps a listener at one capture at a time |
| `CaptureLimits.TwoListenersLetAnotherIn` | internal/companion/server.go:131 | two listeners with a slot each publish any two captures under one key |
| `CaptureLimits.StaleSweepLetsAnotherIn` | internal/companion/idempotency.go:885-906 | they do so although every request is younger than a takeover: a listener that remembers a claim it gave up sweeps away the record of the one that took it over |
| `CaptureLimits.TwoSlotsLetAnotherIn` | internal/companion/server.go:131 | one listener with two slots does too |
| `CaptureLimits.ForgettingLetsAnotherIn` | internal/companion/capture.go:109-117 | one listener that forgets a publication does too |
| `CaptureCensus.CensusIsExact` | internal/companion/idempotency.go:335-367 | in every state of a tidy run the census equals the files, the pending map is exactly the pending files, at most 64 are pending, and at most 512 exist but for a trim under way and those crashes cut off |
| `CaptureCensus.ClaimedWithinCap` | internal/companion/idempotency.go:550-562 | in a tidy run every reservation that hands out a claim leaves at most 512 files |
| `CaptureLimits.LostTrimLeavesOneMore` | internal/companion/idempotency.go:335-355 | a tidy run that ends with 513 files counted in a reopened store, one trim lost to a crash |
| `CaptureCensus.OneLiveClaim` | internal/companion/idempotency.go:427-465 | in every run, with any number of slots, two live claims of one process are never on one key |
| `CaptureCensus.LiveClaimIsFiled` | internal/companion/idempotency.go:427-465 | in a tidy run a live claim's file is there |
| `CaptureCensus.StepKeeps` | internal/companion/idempotency.go:335-590 | every step of a tidy run keeps census, caps and claims right |
| `CaptureCensus.ReserveIsExact` | internal/companion/idempotency.go:469-549 | writing a reservation keeps the census exact, never lets a 65th pending file in and adds at most one file, whether it claims, replays, conflicts or fails |
| `CaptureCensus.TrimIsExact` | internal/companion/idempotency.go:914-939 | trimming returns the store under its cap, takes settled files only, the oldest of them, never a pending one and never the one just written |
| `CaptureCensus.OpenIsExact` | internal/companion/idempotency.go:335-367 | opening a directory counts exactly what it keeps and drops nothing that may not be collected |
| `CaptureCensus.SettleIsExact` | internal/companion/idempotency.go:586-655 | settling keeps the census exact exactly when the file it writes is there, and then moves that one from pending to settled and no other |
| `CaptureCensus.SlipIsExact` | internal/companion/idempotency.go:586-655 | a write that lands and is reported as failed keeps the census exact exactly when the file was there in that state |
| `CaptureCensus.SweepIsExactUnlessStuck` | internal/companion/idempotency.go:885-906 | a sweep keeps the census exact exactly when every file it forgets can be deleted |
| `CaptureCensus.ClearedIsExactUnlessStuck` | internal/companion/idempotency.go:487-500 | making room for a key keeps it exact exactly when the key's own past record can be deleted too |
| `CaptureCensus.OpenIsExactUnlessStuck` | internal/companion/idempotency.go:335-367 | opening counts exactly what stays exactly when all it collects can be deleted |
| `CaptureCensus.TrimReachesUnlessStuck` | internal/companion/idempotency.go:914-939 | a trim keeps the census exact whatever is stuck, and gets under the cap exactly when enough settled files can be deleted |
| `Reservations.ReservationStore.constructor` | internal/companion/idempotency.go:307-355 | a new store is the opened directory: collectable files gone, the rest counted |
| `Reservations.ReservationStore.SweepPending` | internal/companion/idempotency.go:885-906 | the walk removes exactly the pending entries past their sweep age, from map, count and directory, and answers how many live ones remain |
| `Reservations.ReservationStore.TrimSettled` | internal/companion/idempotency.go:914-939 | what it deletes are the oldest trimmable files, as many as the store is over its cap, and nothing else changes |
| `Reservations.ReservationStore.ReserveOnDisk` | internal/companion/idempotency.go:469-562 | the outcome and the new store for every case, trim included, as `Reserve` and `Trim` have them; `CaptureLaws` says what those are in terms of the record and the clock |
| `Reservations.ReservationStore.SettleClaim` | internal/companion/idempotency.go:622-655 | a settle that lands stores the answer and frees the pending slot; one that fails changes nothing |
| `Reservations.ReservationStore.SettleReplayed` | internal/companion/idempotency.go:699-746 | finishes a pending row of the same capture only, and succeeds without writing where there is nothing to finish |
| `CaptureLaws.ReserveDecides` | internal/companion/idempotency.go:469-562 | over the record's fields, the clock and the write alone, each answer exactly: conflict iff a record stands (neither past its expiry nor, pending, four minutes old) and is another capture's; replay of an answer iff one stands for this capture, settled with that answer; in flight iff one stands unanswered and under a minute old; taken over iff it is a minute old and the write lands; too many pending iff none stands and 64 other claims are live; newly claimed iff none stands, there is room and the write lands |
| `CaptureLaws.StandingLeaves` | internal/companion/idempotency.go:501-549 | a conflict, a replay and an answer in flight leave the store as it was; a takeover replaces the record by a new pending one under the old memory id and moves no count, and a write that fails or slips leaves just the file it left |
| `CaptureLaws.FreshLeaves` | internal/companion/idempotency.go:487-549 | where no record stands, the key's past record and every claim four minutes old leave the census, and the files unless stuck, before anything else; the new record is pending, unanswered, dated in whole seconds and kept seven days |
| `CaptureLaws.SettleLeaves` | internal/companion/idempotency.go:622-655 | settling changes the state and the answer of the row and nothing else in it, and frees the slot only when the write is known to have landed |
| `CaptureLaws.ReplaySettles` | internal/companion/idempotency.go:699-746 | a replay settles the row exactly when it is pending, for this very capture, and the write does not fail; otherwise nothing changes |
| `CaptureLaws.OpenKeeps` | internal/companion/idempotency.go:335-367 | opening keeps and counts exactly the standing records, and those pending with their own dates; the others go unless stuck |
| `CaptureLaws.TrimTakes` | internal/companion/idempotency.go:914-939 | trimming takes settled files other than the one just written, the oldest, as many as there are above 512 or all it may, and none while there are no more |
| `CaptureLaws.ConflictIsRefused` | internal/companion/capture.go:406-418 | at the step that reserves: a capture posted under a key whose standing record holds another capture is answered with a refusal, and nothing else changes |
| `CaptureLaws.AnswerIsRepeated` | internal/companion/capture.go:422-446 | a capture whose standing record has its answer gets that very answer, or goes on to put it in place of a missing receipt |
| `CaptureLaws.InFlightChangesNothing` | internal/companion/capture.go:406-421 | while an unanswered record of the same capture is under a minute old, a retry ends without an answer and changes nothing |
| `CaptureLaws.PublishedConflictIsRefused` | internal/companion/capture.go:371-383 | a key under which another capture was published refuses this one before anything is reserved |
| `CaptureLaws.AskDecides` | internal/companion/capture.go:371-412 | what the published store says of the key decides how a request goes on: refused for another capture, replayed from this one's recorded receipt, and only otherwise on to reserving |
| `CaptureLaws.ReplayAnswers` | internal/companion/capture.go:384-404 | a replay is answered with the recorded receipt, unless a pending row it has to finish cannot be written |
| `CaptureLaws.BackfillAnswers` | internal/companion/capture.go:422-446 | a replay put in place of a missing receipt is recorded unless one came first, and answered |
| `CaptureLaws.FirstReceiptIsSettled` | internal/companion/capture.go:475-501 | an applied answer is recorded before it is settled, and the first one recorded is the one settled |
| `CaptureLaws.TrimDecides` | internal/companion/capture.go:523-538 | a claim that was taken over asks the vault first, a new one does not |
| `CaptureLaws.CheckDecides` | internal/companion/capture.go:524-537 | a memory that an earlier try of this capture left is answered as applied, one of anybody else is refused, and only a free id goes on |
| `CaptureLaws.AuthorizeDecides` | internal/companion/capture.go:538-547 | a device that is no longer live is refused before anything is published |
| `CaptureLaws.PublishDecides` | internal/companion/capture.go:523-549 | only the writing policy puts a memory in the vault, under an id that was free or this capture's own; read-only refuses, proposing accepts without one |
| `CaptureLaws.PlacedWasAuthorized` | internal/companion/capture.go:509-549 | over every run a memory is in the vault for a capture only if a request of that very capture published it by a step that may write, after its device was found live, with nothing of that request in between |
| `CaptureLaws.SettleAnswers` | internal/companion/capture.go:502-507 | the answer goes out exactly when the record that holds it landed |
| `PairingSafety.WrongCodesAreBounded` | internal/companion/pairing_route.go:411-505 | whatever counter, marker and revoke writes fail, the wrong codes ever compared against one pairing are at most five plus the number of restarts |
| `PairingSafety.RequestsNeverEndAnActiveDevice` | internal/companion/pairing_route.go:435-500 | no step of any confirmation request, in any run, changes an active device's record |
| `PairingSafety.AtMostOneToken` | internal/companion/registry.go:399-473 | a device is granted at most one credential in any run, and its record keeps naming that one |
| `PairingSafety.SpentCodesStayDead` | internal/companion/registry.go:399-473 | a code mints a credential only while its pairing waits unexpired and unspent since it was first recorded, and its device takes no code after that, wherever the clock goes |
| `PairingSafety.CredentialsWorkWhileActive` | internal/companion/registry.go:649-688 | in every reachable state a granted credential authenticates its device exactly while that device is active, and is otherwise told to be revoked |
| `PairingSafety.AuditNeverLies` | internal/companion/registry.go:1080-1163 | in every reachable state each audit row describes something the record file holds, and the file is one that loading accepts |
| `PairingSafety.RunExtends` | internal/companion/registry.go:311-473 | over any stretch of a run devices only go from pending to active to revoked, none disappears, and fixed fields stay |
| `PairingSafety.NextKeeps` | internal/companion/pairing_route.go:353-528 | every step keeps the counting invariant: what was compared is counted, owed by a marker, owed by the latch, or lost to a restart |
| `RegistryFacts.MutateIsSound` | internal/companion/registry.go:1080-1163 | a change that is in order leaves the file loadable and its audit rows true however its record and audit writes fail |
| `RegistryFacts.AuthenticatesIffActive` | internal/companion/registry.go:649-688 | in a sound file the search over all stored credentials finds exactly the device holding the one presented |
| `RegistryFacts.ConfirmStrands` | internal/companion/registry.go:399-473 | confirming a waiting pairing makes the device active without telling the caller its token exactly when the change is granted, fits, and its record write lands but is reported as failed |
| `PairingSafety.HandedExactlyWhenDelivered` | internal/companion/pairing_route.go:455-528 | in every run a token that was minted reaches a caller exactly when the write of its record was reported as it landed and the answer was delivered, being the next step of that request with no restart before it |
| `PairingSafety.ASlipStrands` | internal/companion/registry.go:1080-1163 | a run in which a record write that is misreported as failed leaves an active device whose token was told to nobody |
| `PairingSafety.ALostAnswerStrands` | internal/companion/pairing_route.go:507-528 | runs in which nothing fails but a restart before the answer, or the answer itself, that leave the same |
| `Registry.DeviceRegistry.Commit` | internal/companion/registry.go:1080-1163 | the file and the verdict for every way the record write and the audit write can end, record first |
| `Registry.DeviceRegistry.PairDevice` | internal/companion/registry.go:311-390 | the file and verdict of a new pairing, refusals included |
| `Registry.DeviceRegistry.ConfirmPairing` | internal/companion/registry.go:399-473 | the file and answer of a confirmation: unknown, not pending, wrong, late and burned, already registered, minted, minted but unaudited |
| `Registry.DeviceRegistry.RecordPairingFailure` | internal/companion/registry.go:619-634 | moves the count of a live pending pairing only, and reports it only when it is durable |
| `Registry.DeviceRegistry.RevokeDevice` | internal/companion/registry.go:716-752 | ends a device once and keeps the first end |
| `Registry.DeviceRegistry.StampSeen` | internal/companion/registry.go:693-708 | stamps a known device, whatever its standing, and changes nothing else |
| `Registry.DeviceRegistry.PairingBudget` | internal/companion/registry.go:492-510 | answers only from a readable marker and a loadable file |
| `Registry.DeviceRegistry.Identify` | internal/companion/registry.go:649-688 | the loop without early exit gives the answer of the search |
| `RegistryLaws.MutateSaves` | internal/companion/registry.go:1080-1163 | without the lock, a readable file and its bounds nothing happens; otherwise a record that fits and is written changes the file, a row follows a record known to have landed and no other, and the verdict says which of these it was |
| `RegistryLaws.NewDeviceWaits` | internal/companion/registry.go:311-390 | a new pairing waits ten minutes for its code, holds no credential and has nothing counted |
| `RegistryLaws.PairAdds` | internal/companion/registry.go:311-390 | a pairing is added exactly when its record is valid, its id new and fewer than 64 are there, and each refusal leaves the file alone |
| `RegistryLaws.ConfirmDecides` | internal/companion/registry.go:399-473 | for the first record under the id: not waiting, wrong code, late and burned, invalid, or saved with what the phone said of itself, the new credential and no code; the credential is handed over only when that record landed |
| `RegistryLaws.FailureCounts` | internal/companion/registry.go:619-634 | a failure is counted, by one, on a waiting record only; the new count is reported only when it is known to be on disk |
| `RegistryLaws.RevokeEnds` | internal/companion/registry.go:716-752 | a known device that is not revoked gets the end and its moment, keeps its credential's print and loses its code; a revoked one keeps its first end |
| `RegistryLaws.RevokeUnlisted` | internal/companion/registry.go:716-752 | an unknown device cannot be revoked |
| `RegistryLaws.RevokedIsRefused` | internal/companion/registry.go:649-752 | revoking a device in force, exactly when its record gets to the disk: it is revoked, its code is gone and whoever presents its credential is told it is revoked |
| `RegistryLaws.SeenStamps` | internal/companion/registry.go:693-708 | a sighting is kept to the second for any known device, changes nothing else and writes no row |
| `RegistryLaws.LastHolderDecides` | internal/companion/registry.go:649-688 | the last record that holds a credential decides who presents it, and opens only while it is active |
| `RegistryLaws.NobodyHolds` | internal/companion/registry.go:649-688 | a credential that no record holds is nobody's |
| `RegistryLaws.BudgetReads` | internal/companion/registry.go:492-510 | the route reads the count and whether the pairing waits off the first record under the id |
| `Listener.ConfirmHandler.HandleConfirm` | internal/companion/pairing_route.go:411-528 | the files, the latches and the answer are those of `Served`, which `ListenerLaws` says in terms of the old files and the weather; the handler's trace, which begins with an empty file, goes on by route steps only, and no active device changes |
| `Listener.HandlerBoundsGuesses` | internal/companion/pairing_route.go:411-505 | read off a handler's own trace, operator and seen steps included: at most five wrong codes per pairing plus its restarts were compared |
| `Listener.HandlerFilesAreSound` | internal/companion/registry.go:1080-1163 | a handler's file loads, its audit rows are true of it, and the credentials it minted open exactly active devices |
| `Listener.ConfirmHandler.RetryOwedFailure` | internal/companion/pairing_route.go:293-315 | repairing an owed failure is protocol steps only and ends idle, the guess untried |
| `Listener.ConfirmHandler.CountFailure` | internal/companion/pairing_route.go:474-500 | counting a wrong code, marking and latching where the count fails, and revoking at the budget are protocol steps only |
| `Listener.ConfirmHandler.MarkAndLatch` | internal/companion/pairing_route.go:480-493 | whether or not the mark lands, the device ends latched |
| `ListenerLaws.GrantedExactlyWhen` | internal/companion/pairing_route.go:405-528 | the grant goes out exactly when both reads went through, nothing is owed by marker or latch, fewer than five failures are counted, the pairing waits with this code and in time, the new record is valid, fits and landed under the lock, and the answer is delivered; the device is then active with that credential, and no marker or latch has changed |
| `ListenerLaws.WrongCodeIsCounted` | internal/companion/pairing_route.go:474-505 | a wrong code that was compared ends with the count on disk one higher and known to be, and at five with the pairing ended where that write gets there; or with the device latched, and marked on disk where the mark can be written |
| `ListenerLaws.OwedFailureGoesFirst` | internal/companion/pairing_route.go:293-433 | while a failure is owed no code is tried: the owed one is counted first, and only when that is known to be durable does the mark go, and the latch once the mark is known to be gone; a budget this spends ends the pairing |
| `ListenerLaws.SettledDebtIsLetGo` | internal/companion/pairing_route.go:293-433 | a failure owed by a pairing that is over or unknown is let go as soon as the file can be read |
| `ListenerLaws.SpentBudgetEnds` | internal/companion/pairing_route.go:435-453 | with five failures counted no code is tried, and a pairing that still waits is ended where that write gets there |
| `ListenerLaws.UnlistedIsRefused` | internal/companion/pairing_route.go:455-505 | an unknown device is refused, and where nothing is owed nothing changes |
| `ListenerLaws.UnreadableChangesNothing` | internal/companion/pairing_route.go:405-420 | when the marker or the file cannot be read the request is refused and changes nothing |
| `ListenerLaws.OtherGuessesAreRefused` | internal/companion/pairing_route.go:455-505 | every other guess is refused and not counted: a right code that came late is burned, a right one whose record landed unreported has made the device, and anything else changes nothing |
| `Latest.HistoryIsSearch` | internal/corrections/score.go:249-275 | after any sequence of additions the two slots answer exactly as a search over all of them |
| `Latest.AddSummarises` | internal/corrections/score.go:257-268 | one addition keeps the two slots a summary of everything added |
| `CorpusRows.LowerOrder` | internal/corrections/score.go:175-177 | keeping the lower of two copies keeps the least of all; only exact ties leave copies unordered |
| `CorpusStore.Corpus.Call` | internal/corrections/score.go:181-203 | hearing one more call keeps the whole corpus right about everything heard: the least copy of each id kept, copies counted, sharing sessions linked |
| `CorpusStore.Corpus.Denial` | internal/corrections/score.go:224-242 | the same for a denial, events that name no command aside |
| `CorpusStore.Corpus.Session` | internal/corrections/score.go:149-159 | numbers a session once and never renumbers one |
| `CorpusStore.Corpus.Find` | internal/corrections/score.go:161-167 | climbs to the session standing for the group, terminates, and its path halving moves no session to another group |
| `CorpusStore.Corpus.Link` | internal/corrections/score.go:169-171 | afterwards the groups are the closure of the links plus the new one |
| `CorpusViews.OrderDoesNotMatter` | internal/corrections/score.go:122-242 | any two orders of the same calls and denials leave the same kept copies, copy counts, events and groups |
| `CorpusViews.OrderMattersByTies` | internal/corrections/score.go:173-203 | the copies kept of the calls of a log are the same for all its orders exactly when no call has two different lowest copies |
| `CorpusViews.DenialOrderMattersByTies` | internal/corrections/score.go:224-242 | and so are those of the denials |
| `CorpusViews.ViewIsKept` | internal/corrections/score.go:181-242 | what a corpus shows of calls and denials is what its log keeps, a later copy replacing an earlier one only if it is lower |
| `CorpusViews.TiesMatter` | internal/corrections/score.go:173-203 | two corpora fed two tied copies of different content in either order show different calls |
| `CorpusViews.GroupsAreShared` | internal/corrections/score.go:161-203 | two sessions have one root exactly when a chain of shared ids joins them |
| `CorpusLaws.CallsShown` | internal/corrections/score.go:173-203 | over the calls heard: each is shown once, by a copy that none precedes by file start, time and session, with its times to the millisecond, its parsed command and whether it came before the window |
| `CorpusLaws.DenialsShown` | internal/corrections/score.go:224-242 | over the denials heard: each that is of no event kind is shown once, by a copy that none precedes |
| `CorpusLaws.EventsShown` | internal/corrections/score.go:224-232 | the events are the denials of the three kinds that name no command, inside the window, each once |
| `CorpusLaws.CopiesAreConserved` | internal/corrections/score.go:181-203 | of any calls shown, those shown and the copies counted beside them are all that was heard of them |
| `CorpusLaws.SharingShown` | internal/corrections/score.go:181-242 | two sessions share an id exactly when each made a copy of one call, or was refused a copy of one filed denial |
| `CorpusTimeline.TakeTimeline` | internal/corrections/score.go:285-322 | the timeline's slots summarise, per key and per shape and overall, the start of every session under its group |
| `CorpusAnswers.HasLater` | internal/corrections/score.go:325-327 | true exactly when a session of another group started later, by search over the whole view |
| `CorpusAnswers.AnyLaterKey` | internal/corrections/score.go:330-333 | true exactly when a later session of another group ran the very command |
| `CorpusAnswers.AnyLaterShape` | internal/corrections/score.go:330-333 | true exactly when a later session of another group ran a command of the shape |
| `CorpusCounts.TallyDenials` | internal/corrections/score.go:418-464 | each bucket's count is the number of denials that belong to it, the actions, scored rows and corrected keys are exactly those of the view |
| `CorpusCounts.CountRepeats` | internal/corrections/score.go:466-499 | the eligible, same-command and same-shape counts are the sizes of those sets over the view, and so are the counts of each pattern, of which the top ones are listed |
| `CorpusCounts.TakePairs` | internal/corrections/score.go:503-514 | for each session and key that was not corrected, its earliest call |
| `CorpusCounts.CountBaseline` | internal/corrections/score.go:503-525 | the baseline counts are the sizes of the sets of pairs with a later session and of pairs repeated in one |
| `CorpusCounts.CountCalls` | internal/corrections/score.go:378-386 | calls per harness and copied calls are those of the kept calls inside the window |
| `CorpusCounts.MakeReport` | internal/corrections/score.go:375-413 | the loops together give the counts, the window and the top patterns the view demands and leave the view as it was; `ReportLaws` says what these are in terms of the denials' and calls' own fields |
| `ReportLaws.TallyTells` | internal/corrections/score.go:418-453 | each number of the tally is the number of denials in the window of one kind, tool and origin: rejected or interrupted by a person, for Bash or another tool; or excused, by kind, helper, shutdown and what came next, for each of the eight reasons |
| `ReportLaws.ActionsTell` | internal/corrections/score.go:439-462 | the user actions are the different messages behind those corrections, or the calls where no message is known |
| `ReportLaws.ReportTells` | internal/corrections/score.go:375-525 | every other part of a report by fields alone: calls per harness and copies, the first and last moment, one scored row per session and corrected command at its first correction in the window, how many have a later session of another group and in how many of these the command or its shape is run again, the uncorrected session and command pairs and how many come back, and the ten shapes most often run again |
| `ReportLaws.ScoredTells` | internal/corrections/score.go:455-459 | a row is there exactly for a session and a command that a correction of a heard Bash call in the window names, with the time and shape of the first such correction |
| `ReportLaws.RepeatsAreTold` | internal/corrections/score.go:466-499 | the counts of rows, of rows with a later session, and of rows whose command or shape is run in one |
| `ReportLaws.TopIsTold` | internal/corrections/score.go:489-498 | the list holds at most ten shapes that came back with their counts, ranked, and leaves out none that ranks before one shown |
| `ReportLaws.BaselineIsTold` | internal/corrections/score.go:503-525 | pairs of a session and a primary command nobody ever corrected, dated by their first call in the window, that have a later session, and that are run again in one |
| `ReportLaws.SessionLaterTells` | internal/corrections/score.go:325-327 | a session is later exactly when no chain of shared ids joins it and all of its calls come after the moment |
| `CorpusCounts.TopPatterns` | internal/corrections/score.go:489-498 | the first ten of the patterns that came back, most repeated first, by command, shape and name |
| `CorpusReport.TopIsSettled` | internal/corrections/score.go:489-498 | that list is one and the same whatever order the map gave the patterns in |
| `CorpusReport.ReportIsSettled` | internal/corrections/score.go:375-525 | one view allows one report only, so nothing in it, the list of patterns included, depends on map order |
| `CorpusReport.SameReportInAnyOrder` | internal/corrections/score.go:122-525 | two corpora fed the same calls and denials in any order make the same report |
| `Shapes.Parse` | internal/corrections/shape.go:56-107 | at most 32 segments, one for each command that has a name left, and the primary one by the specified rule: first marked, else last known, else last other, else last, -1 only if none |
| `Shapes.PrimaryIndex` | internal/corrections/shape.go:74-86 | the flagged segment, else the last of the best class present |
| `Shapes.ShapesHoldTableTextOnly` | internal/corrections/shape.go:88-222 | whatever the text, every token of every shape is text the tables declare, for any tables whose clusters print such text only |
| `Shapes.ShortIsCovered` | internal/corrections/table.go:87-92 | clusters of one or two letters do |
| `Shapes.ShippedShapesHoldTableTextOnly` | internal/corrections/table.go:33-94 | with the clusters the program ships that holds for every text and whatever the other tables say |
| `Shapes.ClusterIsCovered` | internal/corrections/table.go:87-92 | a cluster of lower-case letters prints declared text only, whatever the command, exactly when the tables declare each choice of several of its letters short of all |
| `Shapes.EveryPickPrints` | internal/corrections/shape.go:205-222 | every non-empty choice of a cluster's letters is what some command prints |
| `Shapes.LongClusterEscapes` | internal/corrections/table.go:87-92 | with three letters the outer pair is printed and not declared |
| `Shapes.AllowedTokens` | internal/corrections/table.go:68-94 | the declared set holds exactly the plain and low names, subcommands, flags, aliases and clusters of the tables |
| `Shapes.StripWrappers` | internal/corrections/shape.go:111-130 | what the loop leaves ends the command and begins with a word that is neither an assignment nor a wrapper |
| `Shapes.StrippedMeans` | internal/corrections/shape.go:111-130 | and stripping it again changes nothing |
| `Shapes.ShapeMarks` | internal/corrections/shape.go:185-222 | the marks are the declared flags present, in table order, then the cluster letters present |
| `ShapeLaws.AssignmentIsNamed` | internal/corrections/shape.go:132-145 | an assignment is a name, an equals sign and anything |
| `ShapeLaws.CommandIsLastPart` | internal/corrections/shape.go:147-154 | a command is named by the last part of its path, without .exe |
| `ShapeLaws.AssignmentGoes` | internal/corrections/shape.go:113-116 | an assignment in front of a command is dropped |
| `ShapeLaws.WrapperGoes` | internal/corrections/shape.go:117-128 | a wrapper is dropped with the flags behind it, and timeout with one word more |
| `ShapeLaws.CommandStays` | internal/corrections/shape.go:111-130 | any other first word stays, with all behind it |
| `ShapeLaws.SubcommandIsFirstWord` | internal/corrections/shape.go:162-176 | the subcommand is the first word behind the flags and their values; it is named where the table has it, and what follows it are the arguments |
| `ShapeLaws.OptionsNameNothing` | internal/corrections/shape.go:162-176 | flags and values alone name no subcommand |
| `ShapeLaws.NameDecidesClass` | internal/corrections/shape.go:158-181 | which table a name is looked up in first, and with which arguments it goes on |
| `ShapeLaws.FlagsAreMarked` | internal/corrections/shape.go:185-202 | the marks of a flag table are its flags that the arguments give, as spelt or by alias, in its order |
| `ShapeLaws.LettersAreMarked` | internal/corrections/shape.go:203-222 | the cluster mark holds the letters given by single-dash words in either case, in the cluster's order |
| `ShapeLaws.MarksAreFlagsThenCluster` | internal/corrections/shape.go:185-212 | flags come first, then one word for the cluster, if it has a letter |
| `ShapeLaws.SimpleIsNamed` | internal/corrections/shape.go:88-107 | only a known command is marked, and counts as marked exactly when it is; its key is made of its name and all the words behind it |
| `ShapeLaws.CommandsAreNamedInTurn` | internal/corrections/shape.go:56-68 | commands are named in turn, those of nothing but wrappers and assignments left out |
| `ShellLexer.LexText` | internal/corrections/shape.go:261-319 | the index-jumping loop terminates inside the text and computes the stepwise lexer, the input cut at 64 KiB |
| `ShellLexer.LexUndoesQuoting` | internal/corrections/shape.go:261-356 | single-quoted words joined by spaces and commands by semicolons lex back to what outer-parenthesis trimming leaves of them, and to the very commands exactly when none has an outer parenthesis |
| `ShellLexer.TrimKeepsUnwrapped` | internal/corrections/shape.go:341-356 | a command loses nothing exactly when it neither starts with ( nor ends with ) |
| `ShellLexer.RunIsBounded` | internal/corrections/shape.go:261-339 | from any point of any text at most 32 commands come out and none is empty |
| `ShellLaws.BlankEndsWord` | internal/corrections/shape.go:294-295 | outside quotes a blank finishes the word, an empty one only if it was quoted |
| `ShellLaws.OperatorEndsCommand` | internal/corrections/shape.go:296-297 | outside quotes | and ; finish the command |
| `ShellLaws.AmpersandEndsCommand` | internal/corrections/shape.go:301-306 | so does &, unless it belongs to a redirection |
| `ShellLaws.LineEndEndsCommand` | internal/corrections/shape.go:298-300 | so does a line end, and the run goes on behind the bodies of the heredocs opened |
| `ShellLaws.HashHidesLine` | internal/corrections/shape.go:290-293 | # hides the rest of the line where no word has begun, and is a letter inside one |
| `ShellLaws.BackslashTakesNext` | internal/corrections/shape.go:276-280 | outside single quotes a backslash makes a letter of whatever follows, and joins two lines |
| `ShellLaws.QuoteOpens` | internal/corrections/shape.go:287-289 | a quote begins a word and is no letter of it |
| `ShellLaws.QuoteHolds` | internal/corrections/shape.go:270-286 | inside quotes everything but the closing quote is a letter, a backslash in double quotes aside |
| `ShellLaws.LetterIsAdded` | internal/corrections/shape.go:311-315 | any other character is a letter, a single < included |
| `ShellLaws.HereStringIsText` | internal/corrections/shape.go:307-310 | three < are letters |
| `ShellLaws.EndEndsCommand` | internal/corrections/shape.go:317-339 | the end of the text, or the 32nd command, finishes the run |
| `ShellLaws.TextIsCut` | internal/corrections/shape.go:261-265 | only the first 65536 characters are read |
| `ShellLaws.HeredocOpens` | internal/corrections/shape.go:360-380 | two < with a plain word behind them open a heredoc that word closes, a - between them one with tabs; the word is none of the command's |
| `ShellLaws.DelimiterLineCloses` | internal/corrections/shape.go:384-399 | a heredoc is closed by the line that is its delimiter, behind tabs where it was opened with a dash |
| `ShellLaws.DoubleQuotesHoldAnything` | internal/corrections/shape.go:276-289 | any word, its quotes and backslashes escaped, comes back whole from double quotes |
| `ShellLaws.OpeningStrips` | internal/corrections/shape.go:341-347 | trimming drops the leading words of nothing but ( and the ( in front of the next |
| `ShellLaws.ClosingStrips` | internal/corrections/shape.go:348-355 | and so at the other end with ) |
| `Heredocs.BodiesAreSilent` | internal/corrections/shape.go:384-399 | at the end of a line that opened heredocs the run goes on as if their bodies, whatever they hold, were not there |
| `Heredocs.LexIgnoresBodies` | internal/corrections/shape.go:261-399 | two whole texts, neither cut, that differ only in the bodies of the heredocs open where the lexer comes to the end of a line lex to the same commands |
| `Heredocs.SameArrival` | internal/corrections/shape.go:261-319 | what the lexer holds at the end of a line depends on nothing behind that line |
| `Heredocs.UnclosedSwallows` | internal/corrections/shape.go:384-399 | a heredoc no line closes adds no command: those of the line that opened it are the last |
| `Heredocs.RunAgrees` | internal/corrections/shape.go:261-319 | the lexer reads nothing further back than one character: texts that agree from there on give the same commands |
| `ShellLexer.Lexer.SkipHeredocs` | internal/corrections/shape.go:384-399 | skips every pending body, each to its delimiter line or the end, and never past the text |
| `ShellLexer.Lexer.OpenHeredoc` | internal/corrections/shape.go:360-380 | reads the delimiter word, its quoting and the tab flag, and queues it |
| `ShellLexer.Lexer.TakeTurn` | internal/corrections/shape.go:267-316 | one turn of the loop in every quoting state, comments, operators and heredocs included |
| `GraphRules.CanonicalizePersons` | internal/graph/graph.go:772-914 | two ids share a canonical id exactly when the returned links connect them, every link is justified by its own signal, and the map is the specified one; `GraphLaws` says it in terms of evidence, ids, aliases and addresses |
| `GraphRules.MergeMailboxes` | internal/graph/graph.go:777-792 | afterwards the classes are exactly the mailbox keys |
| `GraphRules.MergeNames` | internal/graph/graph.go:794-868 | afterwards they are those classes bridged by every trusted name in order, as the rule is stated |
| `GraphRules.BridgeName` | internal/graph/graph.go:812-867 | a name fuses the classes of its echoing bearers exactly when two to four classes echo it and one address spells it fully |
| `GraphRules.MergeConfirmed` | internal/graph/graph.go:870-892 | afterwards two ids are in one class exactly when automatic classes and confirmed pairs that are both present connect them |
| `GraphRules.ChooseCanonical` | internal/graph/graph.go:894-906 | each id is sent to the member of its class that outranks all others, whichever root the unions left |
| `GraphTheorems.ConfirmationOrderIrrelevant` | internal/graph/graph.go:870-892 | permuting, repeating or relabelling the confirmed list changes no canonical id |
| `GraphTheorems.CanonicalIsIdempotent` | internal/graph/graph.go:894-906 | a canonical id is its own |
| `GraphTheorems.MixedClusterWasConfirmed` | internal/graph/graph.go:777-892 | with ids as the program makes them, a cluster holding both a phone handle and an address holds a confirmed link that crosses the two kinds |
| `GraphTheorems.UnconfirmedHandleStandsAlone` | internal/graph/graph.go:735-892 | with such ids, a handle that no confirmed pair names shares its cluster with nobody |
| `GraphTheorems.AutomaticLinkKeepsKind` | internal/graph/graph.go:735-868 | with such ids, a mailbox or name link never joins a handle to an address, nor a handle to another |
| `Mailboxes.SameMailbox` | internal/identity/atom.go:22-38 | two folded addresses have one mailbox key exactly when they are the same, or both are of the provider that ignores dots and tags and agree without them |
| `Mailboxes.KeyOfFolded` | internal/identity/atom.go:22-38 | the key of folded text keeps whether there is an @, and is the text itself for handles and for other providers |
| `Mailboxes.MadeIdIsFolded` | internal/graph/graph.go:115-118 | the id made of any text carries the prefix and folded text, if folding twice is folding once |
| `Mailboxes.AsciiFoldsOnce` | internal/graph/graph.go:115-118 | trimming and lower-casing as ASCII has them fold once |
| `GraphTheorems.RulesAreApplied` | internal/graph/graph.go:755-771 | one mailbox, or one confirmed pair, always ends in one cluster |
| `GraphLaws.CanonicalHasMostEvidence` | internal/graph/graph.go:894-906 | nobody of a cluster has more evidence than its canonical member, and of those with as much none has the earlier id |
| `GraphLaws.CanonIsByCluster` | internal/graph/graph.go:870-906 | ids share a canonical id exactly when they are of one cluster |
| `GraphLaws.ClustersByStep` | internal/graph/graph.go:870-892 | a cluster is all that steps reach, taken either way, each put together by the automatic rules or confirmed with both ids in the vault |
| `GraphLaws.EchoerMeans` | internal/graph/graph.go:716-752 | a name is echoed by a person who bears it, as an alias of two words or more that is neither address nor number, and whose address has one of its words before the last @ |
| `GraphLaws.BridgeJoins` | internal/graph/graph.go:812-867 | a name joins the clusters of those who echo it exactly when these are two to four and one address has all of its words, and moves nobody else |
| `GraphLaws.AutomaticRulesInTurn` | internal/graph/graph.go:777-868 | the mailbox rule goes first, then each trusted name of a person once, in the order of the text |
| `GraphLaws.LinksAreTrue` | internal/graph/graph.go:777-892 | what a provenance link says is so: one mailbox under that key, both echo that name, or a person confirmed the pair under that record |
| `GraphLaws.MailboxRuleMeans` | internal/graph/graph.go:777-792 | the mailbox rule puts together exactly the ids of one mailbox |
| `MailboxLaws.OneMailbox` | internal/identity/atom.go:22-38 | over the letters: two folded addresses at gmail.com or googlemail.com are one mailbox exactly when their local parts agree without tag and dots, any others only when they are the same text |
| `MailboxLaws.HandleIsItsOwnKey` | internal/identity/atom.go:22-38 | a handle shares its key with no other text |
| `MailboxLaws.BeforePlusIsPrefix` | internal/identity/atom.go:22-38 | what counts of a local part is what stands before the first + |
| `MailboxLaws.DotsNeverMatter` | internal/identity/atom.go:22-38 | a dot anywhere changes nothing, and nothing but dots is dropped |
| `OrderingLaws.LessIsTextBefore` | internal/graph/graph.go:904 | the order of ids is by the first letter in which they differ, a text before its extensions |
| `Graph.UnionFind.Find` | internal/graph/graph.go:696-702 | gives the root, terminates, and path halving changes no root |
| `Graph.UnionFind.Union` | internal/graph/graph.go:704-714 | merges exactly the two classes, under the smaller root |
| `Graph.Chain` | internal/graph/graph.go:787-792 | joining a group to its first member fuses exactly the classes the group meets, and the log explains the classes |
| `Connectivity.AddLink` | internal/graph/graph.go:704-714 | merging two classes is exactly adding their link to what connects, whichever root survives |
| `Forest.Halved` | internal/graph/graph.go:696-702 | one halving step keeps the forest and all its roots |
| `Forest.Hung` | internal/graph/graph.go:704-714 | hanging one root under another merges their classes and no others |
| `Lifecycle.LifecycleIsEvidenced` | internal/commitment/lifecycle.go:274-335 | an item ends out of its opening state exactly when one piece of evidence moved it; that piece was authored, allowed and later than the opening, the record names it, and its terms are untouched |
| `Lifecycle.OneMoveAtMost` | internal/commitment/lifecycle.go:296-333 | a piece moves an item exactly when it fits that one strictly better than every other open item; it moves no second, and tied evidence moves none |
| `Lifecycle.EvidenceOrderIrrelevant` | internal/commitment/lifecycle.go:274-335 | the projection is the same whatever order the evidence came in, where no two pieces share time, memory and text |
| `Lifecycle.MovesOnce` | internal/commitment/lifecycle.go:274-335 | no item leaves Open twice |
| `Lifecycle.ProjectLifecycle` | internal/commitment/lifecycle.go:274-335 | takes the evidence in time, memory and text order and folds each piece in; each item either kept its state and references, or was moved by one authored, allowed piece that its record names; `LifecycleLaws` says which item a piece moves |
| `Lifecycle.BestOpen` | internal/commitment/lifecycle.go:301-313 | finds exactly the open items with the top positive score |
| `Lifecycle.CounterpartyLinked` | internal/commitment/lifecycle.go:142-167 | links on a shared source-native atom, or on a shared full name that no comparable atom contradicts |
| `Lifecycle.LinkingIsMutual` | internal/commitment/lifecycle.go:142-212 | linking does not depend on the side that is asked |
| `Lifecycle.BareNamesNeverLink` | internal/commitment/lifecycle.go:136-167 | given names and one-word names link nobody |
| `LifecycleLaws.EvidenceDecides` | internal/commitment/lifecycle.go:296-333 | what one piece of evidence does to each item, without scores: unauthored or empty words nothing; the item that fits strictly best is closed, or superseded, with the memory named; items that fit equally well stay open and say how many they are |
| `LifecycleLaws.FitMeans` | internal/commitment/lifecycle.go:265-312 | more shared object words fit better, and among as many the item opened in the same memory; an item wins exactly when it fits better than every other that may move |
| `LifecycleLaws.ScoreOrders` | internal/commitment/lifecycle.go:238-273 | an item may move exactly when it is open, the words are allowed to judge it, and they share an object word or, short of an attendance acknowledgement, the memory |
| `LifecycleLaws.NoSharedWord` | internal/commitment/lifecycle.go:255-264 | with no shared word an item of another memory never moves, and none on an attendance acknowledgement |
| `LifecycleLaws.MayJudgeMeans` | internal/commitment/lifecycle.go:238-254 | known author, readable times, later words, same memory or linked party; a delivery counts from the side that owes, a receipt from the other |
| `LifecycleLaws.LinkedMeans` | internal/commitment/lifecycle.go:142-212 | parties are linked by a common exact key that is no name, or by a common full name where neither addresses nor, failing those, handles contradict it |
| `LifecycleLaws.ProjectionInTurn` | internal/commitment/lifecycle.go:274-300 | each piece is taken once, none before one that comes before it by time, memory and text, and each against the items as the last left them |
| `Duplicates.ProjectDuplicates` | internal/commitment/lifecycle.go:404-423 | a stable permutation of the items, in evidence order where no times are tangled, each with its link and supporting places |
| `Duplicates.StarsHaveDepthOne` | internal/commitment/lifecycle.go:404-423 | a duplicate points to an earlier standing item that matches it and is nobody's duplicate, the first such one |
| `Duplicates.UnlinkedIsUnmatched` | internal/commitment/lifecycle.go:404-423 | two standing items left unlinked do not match |
| `Duplicates.LinksAndSupportsAgree` | internal/commitment/lifecycle.go:404-423 | with distinct ids, links and supporting places are inverse to each other |
| `Duplicates.LinksIgnoreInputOrder` | internal/commitment/lifecycle.go:339-423 | with distinct ids and no tangled times the output, links included, is the same for every input order |
| `Duplicates.OrderExactlyWithoutTangles` | internal/commitment/lifecycle.go:339-355 | the comparison is an order on some items, whatever their ids, exactly when no three of them are tangled: an unparsed time standing as text between two parsed ones whose instants are the other way round |
| `Duplicates.EvidenceLessDecides` | internal/commitment/lifecycle.go:339-355 | it is asymmetric, and decides between any two items of different id, whatever their times |
| `Duplicates.CirclesAreTangles` | internal/commitment/lifecycle.go:339-355 | three items that go round in a circle are tangled |
| `Duplicates.ReadableTimesAreOrderly` | internal/commitment/lifecycle.go:339-355 | where all times parse, or none does, nothing is tangled |
| `Duplicates.UnparsedTimesCycle` | internal/commitment/lifecycle.go:339-355 | one time that does not parse, between two with zones, is such a tangle and closes a circle |
| `Duplicates.CitationsAreCarried` | internal/commitment/records.go:47-63 | every citation of a duplicate is carried, as supporting, by the item it duplicates, which loses none of its own |
| `Duplicates.MergedMeans` | internal/commitment/records.go:16-29 | merging keeps one side in order, gains every key of the other and no key twice |
| `Duplicates.Deduplicate` | internal/commitment/records.go:47-63 | each record out is a record in, with the projected link and the citations of all it supports |
| `DuplicateLaws.MatchingAsks` | internal/commitment/lifecycle.go:356-403 | over the items' fields, exactly what matching asks: the same line or half the object words of the shorter, one block of one message or an ancestor, the counterparty, the owner unless the counterparty owes, and direction, due date, state and closing reference to the letter |
| `DuplicateLaws.NeverMatch` | internal/commitment/lifecycle.go:356-403 | items that differ in direction, due date, state or closing reference never match, nor two that name no message |
| `DuplicateLaws.MatchingIsMutual` | internal/commitment/lifecycle.go:356-403 | matching does not depend on the side that is asked |
| `DuplicateLaws.OrderIsByOpening` | internal/commitment/lifecycle.go:339-355 | earlier by the clock where both times can be read and differ, by the text otherwise, then by message, block and id |
| `DuplicateLaws.LinkingDecides` | internal/commitment/lifecycle.go:404-423 | an item that carries an id and came in as nobody's duplicate is linked to the first earlier such one that comes out for itself and matches it; no other changes, and nothing but the link does |
| `DuplicateLaws.SupportsAscend` | internal/commitment/lifecycle.go:404-423 | the duplicates of an item are listed in the order they stand in |
| `DuplicateLaws.OneCitation` | internal/commitment/records.go:13-15 | two citations are one exactly when memory, commitment, role and reference agree |
| `DuplicateLaws.CarriedAsSupporting` | internal/commitment/records.go:47-63 | a citation is carried as supporting, under the duplicate's id, otherwise as it was |
| `DuplicateLaws.CarriedIsBrought` | internal/commitment/records.go:47-63 | what an item cites beyond its own is what its duplicates cite, and nothing twice |
| `Sorting.OneArrangement` | internal/commitment/lifecycle.go:405-423 | one multiset has one strictly ascending arrangement |
| `Digest.Budget` | internal/digest/render.go:193-283 | by `budget` where it is positive and by the default otherwise: when frame, cut shelf, headings and count lines fit, the rendered page fits; the shelf and each section keep a prefix that could not be longer; floors are met where they fit; the surviving ids are exactly those shown |
| `Digest.PageFits` | internal/digest/render.go:137-190 | whatever prefixes are kept, the page is within its frame, shelf, reserve and what the kept items cost |
| `Digest.CutFits` | internal/digest/render.go:159-192 | a cut section costs its heading, its kept lines and one count line no longer than the one set aside |
| `Digest.NothingLostUncounted` | internal/digest/render.go:204-278 | on the shelf and in every section shown plus counted is conserved, and a section is charged for what the budget took from it |
| `Digest.DropsShowUnlessShelfIsEmptied` | internal/digest/render.go:118-160 | the page says what was dropped from a section always, and from the shelf exactly when an urgent item stays: an emptied shelf prints nothing |
| `Digest.DigitsGrow` | internal/digest/render.go:222-224 | a smaller count never prints longer, which is why the reserve is enough |
| `Digest.FitUrgent` | internal/digest/render.go:204-220 | the longest prefix of urgent items that fits on top of the frame |
| `Digest.Account.FillFloors` | internal/digest/render.go:242-248 | gives every section its floor whenever the floors together fit |
| `Digest.Account.FillRest` | internal/digest/render.go:249-255 | stops in each section only where the next item does not fit |
| `DigestLaws.PageIsBounded` | internal/digest/render.go:193-228 | the page stays within the room, the given budget or, if that is not positive, the default, unless what is never cut does not fit in it |
| `DigestLaws.ShelfIsLongestRun` | internal/digest/render.go:204-220 | the shelf holds the longest run of urgent lines from the first that fits with the bare page and a heading that counts them all |
| `DigestLaws.FloorsAreKept` | internal/digest/render.go:242-248 | where the text of all floors fits, every section shows its floor or all it has |
| `DigestLaws.SurvivorsAreShown` | internal/digest/render.go:193-283 | an id is reported exactly when an item with it is on the shelf or in a section |
| `DigestLaws.EmptiedPageSaysWhy` | internal/digest/render.go:256-281 | a page that lost its last item to the budget says so where it had nothing else to say, and any other keeps what it said |
| `DigestLaws.FrameIsBarePage` | internal/digest/render.go:199-203 | the frame is as long as the page with no shelf and no section |
| `DigestLaws.ReservedIsEmptied` | internal/digest/render.go:221-224 | what is set aside for a section is its heading and the line that counts all it has |
| `DigestLaws.SpentIsText` | internal/digest/render.go:231-241 | what the kept items cost is the length of their lines, section by section |
| `Exclusive.AtMostOneSucceeds` | internal/atomicio/create.go:36-66 | among any number of interleaved calls, by link or by claim and rename, failing anywhere, at most one succeeds |
| `Exclusive.SuccessStands` | internal/atomicio/create.go:36-66 | from the moment a call succeeds the path holds that caller's whole body, whatever the losers clean up |
| `Exclusive.ExistingFileIsSafe` | internal/atomicio/create.go:45-53 | a file that was there before is never replaced or removed, and nobody succeeds |
| `Exclusive.StepKeeps` | internal/atomicio/claim.go:15-40 | every system call of either routine keeps the claim protocol's invariant |
| `Exclusive.Directory.Publish` | internal/atomicio/create.go:10-67 | succeeds exactly when staging did and on an absent path the link was made or, where links are not supported, the name was claimed, closed and renamed over; what every other ending leaves under the path; an existing file is left alone; the routine takes only steps of the protocol, in a trace that begins with a fresh directory |
| `Exclusive.DirectoryHasOneWinner` | internal/atomicio/create.go:10-67 | read off a directory's own trace, into which `Elsewhere` takes other callers' steps: one call succeeded at most, and the path holds its body |
| `Exclusive.Directory.ClaimName` | internal/atomicio/create.go:54-66 | the fallback without hard links: its own exact condition, and what is left under the name by either routine when it fails |
| `ConfigText.ParseUndoesQuoting` | internal/config/io.go:164-184 | reading a quoted value gives back what was written, whatever bytes it holds, valid UTF-8 or not, and whichever characters beyond ASCII the host prints as they are |
| `ConfigText.DecodeIffEncoded` | internal/config/io.go:164-184 | text begins with a character exactly when it begins with that character's shortest bytes, on which what is written raw and what is escaped depends |
| `ConfigText.LinesUndoUnlines` | internal/config/io.go:341-382 | splitting the written text gives back the written lines |
| `ConfigFile.WriteLines` | internal/config/io.go:348-381 | the two loops replace the first line of an owned key, drop its others, leave the rest and append what is missing |
| `ConfigFile.WrittenLast` | internal/config/io.go:348-381 | what the last line of each owned key says after a write: the value, nothing for an emptied option, the file's first value for an emptied directory |
| `ConfigFile.WriteKeepsOthers` | internal/config/io.go:350-361 | every line the program does not own survives, in its order |
| `ConfigFile.FileKeepsOthers` | internal/config/io.go:341-382 | from the file's bytes before to its bytes after, those lines are the same, blank ones at the end aside |
| `ConfigFile.Resolve` | internal/config/io.go:262-318 | the loop over the file's lines, comments and blank lines skipped, gives what line-by-line application gives, and stops at the first policy it does not know |
| `ConfigFile.LoadIsLast` | internal/config/io.go:262-318 | loading succeeds exactly when every policy line is known, and then the last line of each key decides |
| `ConfigFile.LoadsWhenPoliciesKnown` | internal/config/io.go:202-221 | a written configuration loads again exactly when its policies are known ones |
| `ConfigFile.LoadUndoesWrite` | internal/config/io.go:262-383 | after a write each set owned setting loads back, an emptied option as its default, an emptied directory as the file's first value |
| `ConfigFile.LoadOfWrittenFile` | internal/config/io.go:341-382 | loading the file that was written is loading those lines, trailing blank lines aside |
| `ConfigFile.ComesBackUnlessHome` | internal/config/io.go:262-318 | a value is unchanged by the round trip exactly when home expansion leaves it as it is |
| `ConfigFile.EmptiedDirectoryKeepsFirst` | internal/config/io.go:363-372 | emptying any of the three directories, set more than once, keeps the value in force exactly when its first and last lines agree |
| `ConfigFile.EmptiedDirectoryGoesBack` | internal/config/io.go:363-372 | a file that sets a directory twice goes back to the first value once it is emptied |
| `ConfigLaws.LineSetsKey` | internal/config/io.go:274-284 | a line sets the key before its first equals sign, blanks around it aside, to all that stands behind |
| `ConfigLaws.CommentsSetNothing` | internal/config/io.go:274-282 | blank lines, lines that begin with # and lines without an equals sign set nothing |
| `ConfigLaws.BareValueEndsAtComment` | internal/config/io.go:180-183 | a bare value ends at the first #, without the blanks around it |
| `ConfigLaws.EscapesByLetter` | internal/config/io.go:164-184 | which letters a backslash may stand before, what each stands for, and that writing uses the same ones |
| `ConfigLaws.SettingIsRead` | internal/config/io.go:283-312 | a written setting is read as its key and its value, ~/ replaced by the home directory |
| `ConfigLaws.SettingsSetTheirField` | internal/config/io.go:285-312 | each key sets its own field and no other |
| `ConfigLaws.PoliciesAreKnownWords` | internal/config/io.go:202-221 | a policy is read without case and blanks and must be one of four for writing, three for updating |
| `ConfigLaws.SettingTakesPlace` | internal/config/io.go:348-381 | a setting the file holds is written once, where its first line stood among the user's lines |

## Left out

- `CaptureSafety.AppliedAnswersAreIdentical`: speaks of publications that were
  not dropped, because dropping one lets the answer change, as shown.
- `CaptureSerial.OneKeyOneCapture`: speaks of one listener with one slot that
  keeps the publication, because each of the three is needed, as shown.
- Capture: the lock file is the rule that nobody reserves or settles between a
  reservation's write and its trim; opening the store takes no lock, as in the
  program.
- Capture: HTTP, status codes, the refusals before the published index is asked
  are one step, and an unreadable configuration is a failed request.
- Capture: the kernel's ownership record and its memory land in one step;
  trimming of the published store is a step that may drop any publication.
- Capture: corrupt reservation files, and the payload fingerprint, which no
  decision reads.
- Registry: JSON, file modes, entropy, constant-time comparison, the host key,
  listing and status. The field validators are an uninterpreted predicate, the
  encoded size a parameter, the lock a flag that is held or not.
- `Registry.DeviceRegistry.MarkFailureUnrecorded`: the marker is a set member, so
  its directory and its atomic write are not modelled.
- Pairing route: body decoding, the padded response time, and the seen stamp
  after a grant, which the model lets happen at any time.
- `CorpusCounts.MakeReport`: the window is moments, not printed dates; the rates,
  which divide one count by another, and the counts the reader of the session
  files hands over are not in the report.
- Corrections: scored rows are keyed by session and shape text, not by their numbers; the
  int32 and int8 widths of numbers and copy counts.
- Shapes: hashed keys and command names. The word tables are parameters.
- Graph: text helpers (folding, service classifier, fields, lower case) are
  parameters; names compare by characters, not by bytes. The final sort of the
  link log and the sort of the confirmed list order the log only.
- Graph: folding aggregates, redirecting edges and capping participants are
  single passes over the finished map.
- Lifecycle: phrase lists, tokenising and clock parsing are parameters.
- Records: `Unique`, `ApplyLifecycle`, reported actors and restated requests; a
  citation's key is its joined fields, taken to be injective.
- Exclusive: staging and syncing the temporary file and the directory.
- Exclusive: `ClaimExclusiveDurable` leaves its placeholder when its rename
  fails, which the model keeps and no property here forbids.
- Digest: rendered item lines, header, banner and freshness are given as text.
- Config: environment overrides, home and configuration root lookup, the atomic
  write. Which characters beyond ASCII print as they are, and lower case, are
  parameters.
