# Protocols of the Android bridge, modelled and verified

The bridge keeps five kinds of state consistent while threads it does not control run
through it. This project models each of them and proves what it is for.

- **The frame-time ring** (`RingCore`, `RingProtocol`, `RingSafety`, `RingTheorems`,
  `RingProcess`). Any number of presenters take tickets, mark a slot as pending, take it by
  a 16-byte compare-and-swap, possibly from a stalled older presenter, and publish only
  while the slot still holds their marker. A reader walks a window and accepts exact
  sequence matches only. The ring is a transition system with one program counter per
  presenter; the size N and the number of presenters are arbitrary. `FrameRing` is the same
  ring as an object whose methods are the C functions.
- **The asset cache** (`AssetModel`, `AssetSafety`, `AssetPolicy`, `AssetEffects`,
  `AssetLoads`, `AssetSections`, `AssetRuns`, `AssetOutcomes`, `AssetAnchors`, `AssetFlights`,
  `AssetNamed`, `AssetStore`). A
  byte-budgeted LRU over blobs with several aliases, a bounded negative cache with a lazily
  kept expiry bound, single-flight loads and retired source generations. `AssetLoads` has every section run under the cache mutex as a
  function, `AssetRuns` any number of threads interleaving them, `AssetStore.AssetCache` the
  object whose methods compute those functions.
- **Native leases and mappings** (`LeaseModel`, `LeaseRuns`, `LeaseSafety`,
  `LeaseTheorems`, `LeaseStore`). Pins, handles, file mappings and one-shot release tokens
  from the first borrow to the last close. `AssetMappings` and `AssetBorrows` run them together
  with the cache that counts the borrows and holds the mappings.
- **The looper park** (`LooperPark`) and **the native-main mailbox** (`Mailbox`). Condition
  variables, wake flags and wake tokens.
- **The guest-surface registry** (`GuestSurfaces`, `SurfaceStore`). A one-shot handoff with
  callbacks outside the lock and numeric handles that are reused.
- **Two smaller cores**: the JNI argument packer (`JniArgs`), which undoes the descriptor
  printer of sections 4.3.2 and 4.3.3 of The Java Virtual Machine Specification, and the
  owner-thread notifier (`OwnerNotifier`).

How to read the models:

- A protocol is a `State` (or `World`), an `Action` for each atomic step, `Enabled` and
  `Do`. `Run(s, trace, t)` is any interleaving. An invariant is kept by every step
  (`StepKeepsInv`), hence holds after every run (`RunKeepsInv`), and the theorems say what
  follows. Fields that are history, not part of the program, are named as such where they
  are declared.
- A step is one atomic instruction of the ring, or one section run under a mutex, or one
  thing a thread does between two such sections. Lock-prefixed instructions and sequentially
  consistent accesses are single steps.
- A class holds the fields its source structure has. Each method is proved equal to the
  function that the run theorems are about (`ensures View() == F(old(View()), ...)`), so a
  theorem about the function is a theorem about the method.
- Where a source function runs on while other threads interfere, the class has a method for
  "the others run for a while" (`Others`, `Presenters`, `Sleep`). Its contract is what is
  proved of any finite run of foreign steps (`RelyRun`, `ControlRelyRun`, `SignalsRaise`,
  `OthersRun`); its body makes none. In the ring `pace` bounds the foreign steps left, so
  `pace == old(pace)` in a contract means that nobody else moved.

Assumptions taken from the source: ring claims stay below 2^63 (the marker floor), the
arming epoch does not wrap, a time stamp of 0 means "no clock", `mmap` returns addresses
nothing else uses (none of a blob that is still cached), the graphics side hands out each surface generation once, and a thread
that signals a parked looper does not already hold the mutex it is parked with.

Where a comment and the code differ the code is followed: the comment on the reader's
horizon reads as if everything below `claims - max(ahead)` were published. It is not, and
soundness comes from the exact sequence match of each read, which is what `Snapshot` is
proved from.

## Model

| member | source | states |
|---|---|---|
| `RingCore.OlderIsRank` | internal/android/frmstats_ring.c:187-213 | the comparison on marker and sequence words is exactly "the slot belongs to an earlier claim", and a takeover is exactly an older, unpublished, existing claim |
| `RingCore.StepKeepsLane` | internal/android/frmstats_ring.c:187-307 | every atomic step of every presenter keeps a slot: the cell names a claim that took or published it, the pending count is the number of marks added and not withdrawn, and a displaced mark is owed by exactly its displacer |
| `RingCore.StepProgress` | internal/android/frmstats_ring.c:187-213 | the rank of a slot never decreases and every change of the cell is progress |
| `RingCore.StepFrame` | internal/android/frmstats_ring.c:255-307 | a step changes the record of its own claim only, and a claim ends dropped exactly from the two places that count a drop |
| `RingCore.WithdrawalFindsMark` | internal/android/frmstats_ring.c:221-251 | the guard against an empty pending count never fires: the mark to withdraw is there |
| `RingCore.DropHasNewerClaim` | internal/android/frmstats_ring.c:255-307 | a claim that is or will be dropped shares its slot with a later claim |
| `RingCore.QuietLaneUnmarked` | internal/android/frmstats_ring.c:221-251 | when all claims of a slot are decided its pending mark is zero |
| `RingCore.LastClaimPublished` | internal/android/frmstats_ring.c:255-307 | the largest claim on a slot, once decided, is published there with its own stamp |
| `RingCore.AdvanceKeepsCore` | internal/android/frmstats_ring.c:255-307 | a step of any presenter keeps the whole ring and changes one claim, never its stamp or owner |
| `RingCore.TakeKeepsCore` | internal/android/frmstats_ring.c:330-348 | a fetch-and-add gives every sequence exactly one owner and keeps the ring |
| `RingCore.SameSlotFarApart` | internal/android/frmstats_ring.c:128-131 | two claims on one slot are at least a whole ring apart |
| `RingCore.CellIsExact` | internal/android/frmstats_ring_state.c:84-92 | a cell that names sequence s holds the stamp claim s published |
| `RingCore.DroppedIsWrapped` | internal/android/frmstats_ring.c:255-307 | only claims at or below claims - N are dropped, so a drop never costs a retained sample |
| `RingCore.RetainedIsPublished` | internal/android/frmstats_ring_state.c:84-92 | every decided claim among the last N is in its slot under its own number |
| `RingCore.MarksAtRest` | internal/android/frmstats_ring.c:221-251 | with every claim decided all pending marks are zero |
| `RingCore.ClaimsConserved` | internal/android/frmstats_ring.c:255-307 | claims = published + dropped + fills in progress |
| `RingTheorems.StepKeepsInv` | internal/android/frmstats_ring.c:187-348 | every step of every interleaving of presenters, arming, reset and reader keeps the invariant |
| `RingTheorems.RunKeepsInv` | internal/android/frmstats_ring_state.c:54-237 | the invariant holds in every state of every run |
| `RingTheorems.ReaderConserves` | internal/android/frmstats_ring_state.c:139-237 | for one reader that passes back its cursor, in any interleaving: samples returned plus wrapped sequences charged are exactly the sequences up to max(cursor, wrap), each once, and each value is the stamp of its own sequence |
| `RingTheorems.CaptureIsolated` | internal/android/frmstats_ring.c:311-348 | a presenter that claims or writes belongs to the capture armed last, and none is admitted while the ring is cleared: one that is only counted, or about to be refused, never gets to claim |
| `RingTheorems.StaleNeverWrites` | internal/android/frmstats_ring.c:311-328 | a presenter that read an older capture's epoch never claims or writes in a later one |
| `RingTheorems.LossNeverFalls` | internal/android/frmstats_ring_state.c:133-137 | over any run without a reset the wrapped total, the drop total and so the loss reported never go down |
| `RingTheorems.LossCounts` | internal/android/frmstats_ring_state.c:133-237 | the loss reported is the number of sequences wrapped past or dropped, none of which was ever returned, plus once more the dropped ones at or below the reader's position: exactly those are counted in both totals |
| `RingTheorems.CountersConserved` | internal/android/frmstats_ring.c:330-348 | attempts = claims + contended + presents not yet decided, and claims are conserved |
| `RingTheorems.QuietRing` | internal/android/frmstats_ring.c:221-251 | with no presenter inside frm_fill every claim is decided and every mark is zero |
| `RingTheorems.QuietWindow` | internal/android/frmstats_ring_state.c:179-237 | with no presenter inside frm_fill each of the last N sequences is in its slot with its own stamp and nothing holds the horizon back |
| `RingSafety.DrainedKeepsInv` | internal/android/frmstats_ring_state.c:54-59 | the step that sees the in-flight count at zero keeps the invariant, under which no admitted presenter exists while the ring is cleared |
| `RingSafety.SnapBeginKeepsInv` | internal/android/frmstats_ring_state.c:139-194 | opening a window keeps the reader's accounts, in which no wrapped sequence is charged twice |
| `RingSafety.ReadKeepsInv` | internal/android/frmstats_ring_state.c:220-237 | a read keeps the invariant, under which the prefix copied so far is contiguous and exact |
| `RingProcess.RelyStep` | internal/android/frmstats_ring.c:187-348 | what one presenter may rely on whatever step any other thread takes next |
| `RingProcess.ControlRelyStep` | internal/android/frmstats_ring_state.c:54-237 | what the holder of the control mutex may rely on whatever step a presenter takes next |
| `RingProcess.RelyRun` | internal/android/frmstats_ring.c:187-348 | what a presenter may rely on over any finite run of other threads' steps, and how many claims they can take meanwhile |
| `RingProcess.ControlRelyRun` | internal/android/frmstats_ring_state.c:54-237 | the same for the holder of the control mutex over any finite run of presenters' steps |
| `RingProcess.OneClaimPerStep` | internal/android/frmstats_ring.c:330-348 | a step takes at most one claim, so a run of bounded length stays below the marker floor |
| `RingProcess.FrameRing.constructor` | internal/android/frmstats_ring.c:86-108 | a new object is the zero-initialised ring, which satisfies the invariant |
| `RingProcess.FrameRing.OverwrittenTotal` | internal/android/frmstats_ring_state.c:132-137 | the loss is the wrapped ranges charged plus the claims dropped so far |
| `RingProcess.RecordedIsExact` | internal/android/frmstats_ring_state.c:139-237 | what the reader was handed is what the claims of those numbers published |
| `RingProcess.FrameRing.SwapAhead` | internal/android/frmstats_ring.c:142-153 | a compare-and-swap on a pending mark performs the presenter's next step exactly when the word is as expected |
| `RingProcess.FrameRing.BumpAhead` | internal/android/frmstats_ring.c:221-251 | the retry loop on a pending mark ends with the mark moved; undisturbed, that count changes by just that and nothing else does |
| `RingProcess.FrameRing.SwapIn` | internal/android/frmstats_ring.c:187-213 | the 16-byte compare-and-swap takes the slot, or hands back the newer cell |
| `RingProcess.FrameRing.TrySlot` | internal/android/frmstats_ring.c:187-213 | the slot is taken, taken over or found newer, undisturbed exactly by how its word compares with the claim |
| `RingProcess.FrameRing.TakeSlot` | internal/android/frmstats_ring.c:187-213 | the retry loop of the slot's compare-and-swap ends: a lost race finds a newer word, measured by 2*claim - (2*rank + published), and a slot that is given up on is newer than the claim |
| `RingProcess.FrameRing.PublishCell` | internal/android/frmstats_ring.c:299-306 | a claim is published exactly if the slot still holds its marker at the compare-and-swap; undisturbed, if it held it at the start |
| `RingProcess.FrameRing.Fill` | internal/android/frmstats_ring.c:255-307 | a fill ends published or dropped whatever the other threads do; undisturbed and with the newest claim it ends published, with the pending count back where it was or less by the mark of a displaced claim |
| `RingProcess.FrameRing.Enter` | internal/android/frmstats_ring.c:311-323 | a presenter is registered only if the epoch it read is odd and still current, and turned away only if that was even or a newer one came meanwhile |
| `RingProcess.FrameRing.TakeClaim` | internal/android/frmstats_ring.c:330-348 | the ticket is fresh, goes to the slot its number selects, and is newer than anything that slot holds |
| `RingProcess.FrameRing.Present` | internal/android/frmstats_ring.c:330-348 | a presenter that takes a claim ends with it decided under the given or the clock's stamp; one that takes none found recording off, was overtaken by a new epoch or had no stamp. Undisturbed: off, nothing changes; on, the attempt is counted, and with a stamp the next claim is taken and published in its slot |
| `RingProcess.FillComposes` | internal/android/frmstats_ring.c:255-307 | marking, taking over, publishing and withdrawing add up to the claim in its slot and the displaced claim's mark gone |
| `RingProcess.FrameRing.ChargeWrap` | internal/android/frmstats_ring_state.c:180-194 | only sequences not charged before are added to the overwritten total |
| `RingProcess.FrameRing.BeginSnapshot` | internal/android/frmstats_ring_state.c:139-194 | the window and the charge of a snapshot, what it changes in the words, and the cursor when there is nothing to read |
| `RingProcess.FrameRing.Horizon` | internal/android/frmstats_ring_state.c:195-211 | the horizon is the least of the claim counter and claims - mark over the marks read, no less and no more; undisturbed these are the marks of the window |
| `RingProcess.HorizonAdds` | internal/android/frmstats_ring_state.c:201-210 | one mark more lowers the bound to claims - mark exactly if that is below it |
| `RingProcess.FrameRing.ReadOne` | internal/android/frmstats_ring_state.c:84-92 | a slot is read as its stamp when it holds that very sequence and as zero otherwise |
| `RingProcess.FrameRing.Copy` | internal/android/frmstats_ring_state.c:220-237 | the copy stops at the first gap: undisturbed it is the longest run of published sequences, count at most |
| `RingProcess.FrameRing.Snapshot` | internal/android/frmstats_ring_state.c:139-246 | every value is its own sequence's stamp, the sequences end at the cursor without a gap and not past the horizon, the totals balance, wrapped ranges are charged once, and the loss reported is no less than at any earlier moment of the capture. With presenters at rest inside frm_fill, or none, the samples are the longest published run up to the horizon of their marks and up to capacity; with none inside exactly min(capacity, claims - max(after, claims - N)) come back |
| `RingProcess.FrameRing.Disarm` | internal/android/frmstats_ring_state.c:54-59 | the epoch becomes even and the wait for presenters begins |
| `RingProcess.FrameRing.Drain` | internal/android/frmstats_ring_state.c:54-59 | the wait ends just when the in-flight count is seen at zero, and then no admitted presenter exists |
| `RingProcess.FrameRing.ResetLocked` | internal/android/frmstats_ring_state.c:94-109 | the ring comes out as empty as a new one, word for word, while presenters keep trying to enter |
| `RingProcess.FrameRing.SetArmed` | internal/android/frmstats_ring_state.c:118-130 | arming opens a fresh capture under the next odd epoch, with every word of the ring cleared; disarming makes the epoch even, changes no other word and leaves the ring with nobody inside; it waits on only while a presenter is in flight, and returns the claim counter |
| `RingProcess.ReaderBalance` | internal/android/frmstats_ring_state.c:139-237 | the reader's balance in any state between snapshots |
| `AssetModel.DropAliasesExact` | internal/android/asset.go:547-562 | of the aliases walked exactly those that still refer to the blob go |
| `AssetSafety.RecordKeepsInv` | internal/android/asset.go:849-864 | recording a blob keeps the cache structure |
| `AssetSafety.LinkKeepsInv` | internal/android/asset.go:601-606 | linking an unused alias keeps every blob's alias list exact and duplicate-free |
| `AssetSafety.UnlinkKeepsInv` | internal/android/asset.go:608-622 | deleting a cached name and its alias keeps every alias list exact and the bytes the sum of the blobs |
| `AssetSafety.DeleteNameKeepsInv` | internal/android/asset.go:564-578 | deleting a name keeps the structure and removes that name alone |
| `AssetSafety.SetNameKeepsInv` | internal/android/asset.go:580-588 | re-pointing a name keeps the structure |
| `AssetSafety.SetSourceKeepsInv` | internal/android/asset.go:592-599 | publishing a source keeps the structure |
| `AssetSafety.ProtectKeepsInv` | internal/android/asset.go:643-658 | protecting a blob keeps the LRU exactly the unprotected blobs |
| `AssetSafety.ReleaseKeepsInv` | internal/android/asset.go:660-672 | giving up a protection puts the blob back in the LRU exactly when it was the last |
| `AssetSafety.BorrowKeepsInv` | internal/android/asset.go:1030-1046 | a native borrow keeps the structure |
| `AssetSafety.AddNegativeKeepsInv` | internal/android/asset.go:457-474 | the negative index stays exact and its expiry bound stays below every expiry |
| `AssetSafety.PurgeKeepsInv` | internal/android/asset.go:547-562 | removing a blob removes every name and source of it and nothing else |
| `AssetPolicy.PruneIsExact` | internal/android/asset.go:476-499 | pruning removes exactly the expired negatives, whether or not the scan was skipped by the lazily kept bound |
| `AssetPolicy.OldestExists` | internal/android/asset.go:524-542 | a non-empty index has an entry of smallest order |
| `AssetPolicy.CapIsExact` | internal/android/asset.go:501-510 | the cap loop leaves at most negativeCap entries, removes no more than that needs, and everything removed is older than everything kept |
| `AssetPolicy.EvictsShortestPrefix` | internal/android/asset.go:512-522 | the budget loop removes exactly the shortest LRU prefix that meets the budget, with all its names and sources, or the whole LRU |
| `AssetPolicy.ProtectedSurvives` | internal/android/asset.go:512-522 | a protected blob and everything naming it outlive any enforcement |
| `AssetPolicy.EnforceKeepsPolicy` | internal/android/asset.go:501-522 | after enforcement the bytes are within budget or only protected blobs are left, protected blobs are untouched, at most negativeCap negatives remain and none has expired |
| `AssetEffects.UseIsLast` | internal/android/asset.go:849-878 | use makes a blob the last candidate for eviction and keeps the order of the others |
| `AssetEffects.SetNameIs` | internal/android/asset.go:580-588 | a name that is set refers to the data and is linked; every other name and all sources stay |
| `AssetEffects.DeleteNameIs` | internal/android/asset.go:564-578 | a name that goes takes its blob along exactly if that had no other alias; every other blob keeps its place in the LRU and its protections |
| `AssetEffects.SetNameUses` | internal/android/asset.go:580-588 | setting a name to the data it has is a use of it; setting it to other data uses or records that data's blob and changes no other blob and no protection |
| `AssetEffects.SetSourceIs` | internal/android/asset.go:592-599 | a source keeps what was cached for it first, and setting it again changes nothing; a new one uses or records its blob |
| `AssetEffects.AddNegativeIs` | internal/android/asset.go:457-474 | a missing name is answered as missing until now + TTL and not after, and is the newest negative; every other name and negative stays |
| `AssetEffects.ProtectLoadIs` | internal/android/asset.go:643-658 | a load's blob leaves the LRU with one more protection; the order of the LRU and all other blobs stay |
| `AssetEffects.PublishIs` | internal/android/asset.go:429-441 | what a finished load leaves in a live cache in each of its three outcomes |
| `AssetEffects.PublishNamesIs` | internal/android/asset.go:750-763 | data found is cached under the requested name and, if it was free, under the name it was found by |
| `AssetEffects.CachedNameIs` | internal/android/asset.go:393-406 | a name is a hit exactly when it is cached and not expired; a hit with data moves its blob behind all others in the LRU unless it is protected, any other hit changes nothing, and an expired name is forgotten |
| `AssetEffects.ReleaseIs` | internal/android/asset.go:660-672 | giving up the last protection of a load or native handle puts the blob behind all others in the LRU; giving up another one changes that count alone |
| `AssetEffects.BorrowTakes` | internal/android/asset.go:1030-1046 | a native handle takes its blob out of the LRU and leaves the order of the others |
| `AssetEffects.TouchIs` | internal/android/asset.go:873-878 | a use moves an unprotected blob behind all others and changes nothing else |
| `AssetLoads.BeginLoadKeepsInv` | internal/android/asset.go:411-427 | joining or creating the loader of a name keeps the generation |
| `AssetLoads.FinishLoadKeepsInv` | internal/android/asset.go:429-454 | finishing sets the result of that load alone, once, removes it from the table and keeps the generation |
| `AssetLoads.PublishSourceKeepsInv` | internal/android/asset.go:732-748 | publishing a path or a ZIP entry keeps the generation |
| `AssetLoads.PublishNamesKeepsInv` | internal/android/asset.go:750-763 | publishing names keeps the generation |
| `AssetLoads.RetireKeepsInv` | internal/android/asset.go:305-335 | retirement drops the cache and hands out the archive exactly when no load is active |
| `AssetLoads.EnsureKeepsInv` | internal/android/asset.go:674-720 | opening the archive once keeps the generation |
| `AssetLoads.EndBorrowKeepsInv` | internal/android/asset.go:1048-1060 | returning a native borrow, with its enforcement, keeps the generation |
| `AssetSections.BeginLoadIs` | internal/android/asset.go:411-427 | a retired generation sends the caller away, a known name is a hit, a name being loaded is joined under its own load, and any other name gets a new load that the caller leads; nothing else changes |
| `AssetSections.CachedSourceIs` | internal/android/asset.go:722-730 | a source that is found counts as used, one that is not changes nothing |
| `AssetSections.PublishSourceIs` | internal/android/asset.go:732-748 | the publisher goes on with what was cached first and protects that; a live generation has it cached from then on, a retired one that did not have it stays as it is |
| `AssetSections.PublishNamesLeave` | internal/android/asset.go:750-763 | naming data changes no third name and no source, and nothing in a retired generation |
| `AssetSections.BeginBorrowIs` | internal/android/asset.go:1030-1046 | a borrow is counted exactly in a live generation that has the blob, which gains one handle and leaves the LRU |
| `AssetSections.RetireIs` | internal/android/asset.go:305-335 | retirement sets the flag; with no load active the cache is empty afterwards and the archive handed out, with one the cache and archive stay; a second retirement changes nothing |
| `AssetSections.FinishDrops` | internal/android/asset.go:429-454 | the finished load leaves the table; the last load of a retired generation empties the cache and hands out the archive, any other leaves the archive |
| `AssetSections.FinishedIsNewest` | internal/android/asset.go:429-454 | what a load protected when it finished is evicted last: its names and sources are still there after the enforcement, or nothing evictable is |
| `AssetSections.ReturnedIsNewest` | internal/android/asset.go:1048-1060 | the same for a blob whose native handle was given back, which has one handle less |
| `AssetSections.FinishedIsNamed` | internal/android/asset.go:429-454 | data found under a name that was not cached is cached under it when the load finishes, or nothing evictable is left |
| `AssetSections.FinishedIsMissing` | internal/android/asset.go:429-474 | a file that was not there is cached as missing until now + TTL, and survives the enforcement that follows |
| `AssetSections.EnforceSparesLast` | internal/android/asset.go:501-522 | what is named after the most recently used blob outlives an enforcement unless that empties the LRU |
| `AssetSections.EnforceKeepsNewest` | internal/android/asset.go:501-510 | the newest unexpired negative outlives an enforcement |
| `AssetSections.SectionsMeetPolicy` | internal/android/asset.go:429-454 | after every finishLoad and every returned borrow of a live generation the bytes are within budget or nothing evictable is left, and the negatives are within their cap and unexpired |
| `AssetRuns.StepKeepsInv` | internal/android/asset.go:919-941 | every locked section of every interleaving of openers and retirement keeps the generation and the cache structure |
| `AssetRuns.RunKeepsInv` | internal/android/asset.go:919-941 | both hold in every state of every run |
| `AssetRuns.OneResultPerLoad` | internal/android/asset.go:919-941 | all threads that opened a name through one load got the same outcome |
| `AssetRuns.WaiterHasLeader` | internal/android/asset.go:919-941 | a waiter can go on, or the one leader of its load is still at work |
| `AssetRuns.OneLeaderPerName` | internal/android/asset.go:411-427 | at most one leader per name |
| `AssetRuns.NeverClosedBeneathAReader` | internal/android/asset.go:305-335 | the archive a thread reads from has not been handed out for closing |
| `AssetRuns.OneArchive` | internal/android/asset.go:315-345 | at most one archive is ever opened, it is closed at most once and never while a load is active, and a retired generation at rest has given up its archive and its cache |
| `AssetRuns.NoLoadAfterRetirement` | internal/android/asset.go:411-416 | after retirement no load starts, whatever follows |
| `AssetOutcomes.AskerGetsLeadersResult` | internal/android/asset.go:919-941 | over every run, a thread that asked for a name and ended through a load has the outcome with which the leader of that very name finished that load |
| `AssetOutcomes.ResultIsLeaders` | internal/android/asset.go:429-454 | a load that gets its result in a run gets it from the finishLoad of the leader of its name |
| `AssetOutcomes.StepKeepsName` | internal/android/asset.go:919-941 | a thread leaves the start for the one name it looks up or loads, and stays with it |
| `AssetOutcomes.ServedFromCache` | internal/android/asset.go:393-427 | a thread served from the cache got what was known under the name it asked for |
| `AssetOutcomes.WaiterGetsThrough` | internal/android/asset.go:919-941 | from every reachable state a thread that waits for a load can be led to its outcome by finitely many steps of the load's leader and of the leader that opens the archive |
| `AssetOutcomes.RetireTakesHold` | internal/android/asset.go:305-345 | from any state, after a retirement and whatever runs next, the generation is retired, no load was begun, a thread that tries is sent away with nothing changed, and without a leader the cache is empty and every archive that opened is handed out for closing |
| `AssetOutcomes.CloseCloses` | internal/android/asset.go:337-345 | a retired generation without a leader has closed every archive it opened after at most one more close |
| `AssetAnchors.StepKeepsAnchored` | internal/android/asset.go:580-588 | in every section of every interleaving: data under a name that its leader may still re-point has another alias, which no leader can take away |
| `AssetAnchors.NamesKeepAnchored` | internal/android/asset.go:750-763 | the same for cacheSuccessAliases itself, which settles the requested name and may set one free name besides |
| `AssetAnchors.OtherAlias` | internal/android/asset.go:608-622 | when a leader re-points its name the data it takes the name from has another alias, so unlinking never removes a blob |
| `AssetNamed.StepKeepsNames` | internal/android/asset.go:750-763 | every section keeps the name of a load that has named its data on the blob that load protects |
| `AssetNamed.NamedStaysNamed` | internal/android/asset.go:429-441 | over every run the name stays there while the generation is live, and finishLoad of such a load publishes nothing more |
| `AssetFlights.StepFlies` | internal/android/asset.go:643-672 | every section keeps the protections of each blob equal to the number of loads that say they protect it |
| `AssetFlights.RunFlies` | internal/android/asset.go:643-672 | that equality holds in every state of every run |
| `AssetFlights.RunningLoadProtects` | internal/android/asset.go:643-672 | from the moment a load protects a blob until it finishes the blob is cached, out of the LRU and protected by exactly the loads that say so |
| `AssetFlights.NamesLoseNoBlob` | internal/android/asset.go:750-763 | naming data takes no blob out of the cache, also when a name is taken away from other data |
| `AssetFlights.SectionFlies` | internal/android/asset.go:919-941 | apart from borrows and returns no section of a generation that is not over gives or takes a native handle |
| `AssetFlights.EnforceIsSteady` | internal/android/asset.go:501-522 | enforcement changes no protection and no handle count, so it removes unprotected blobs only |
| `AssetFlights.NothingStaysProtected` | internal/android/asset.go:429-454 | when no load runs no blob is protected by one: exactly the blobs with a native handle are kept from eviction |
| `AssetBorrows.StepKeepsInv` | internal/android/asset.go:946-1060 | every step of the cache and the leases run together keeps both invariants, each blob's native handles equal to the borrows counted for it, and the mappings of cached blobs marked as the cache's |
| `AssetBorrows.RunKeepsInv` | internal/android/asset.go:946-1060 | that holds in every state of every run |
| `AssetBorrows.HandlesAreBorrows` | internal/android/asset.go:976-992 | over every run, until the generation is over, a blob has exactly as many native handles as there are pin records counted for it, each of them live or with its last close under way |
| `AssetBorrows.ClosedIsEvictable` | internal/android/asset.go:1013-1060 | when every asset is closed, every close is over and no load runs, nothing is protected: all of the cache is in the LRU and enforcement meets the budget |
| `AssetBorrows.BorrowsAreProtected` | internal/android/asset.go:1030-1060 | over every run, until the generation is over, a borrowed blob is cached and no candidate for eviction, and its mapping, if it has one, is marked as the cache's |
| `AssetBorrows.CachedMappingStays` | internal/android/asset_mmap.go:94-123 | while a blob stays cached its mapping is neither given back nor exchanged |
| `AssetBorrows.OverStays` | internal/android/asset.go:305-335 | a generation that is retired and at rest stays so |
| `AssetMappings.FollowKeeps` | internal/android/asset_mmap.go:94-123 | releasing the mappings of the blobs that left a cache and adopting those of the blobs that came keeps the lease accounts and leaves every mapped blob marked |
| `AssetMappings.StepKeepsAdopted` | internal/android/asset_mmap.go:94-158 | no section of the leases takes the mark from a cached blob's mapping |
| `AssetBorrows.KeyStays` | internal/android/asset.go:976-1028 | a counted pin record is for the same blob from the moment it is counted until its count is given back |
| `AssetStore.AssetCache.TouchBlob` | internal/android/asset.go:873-878 | moves a listed blob to the back of the LRU |
| `AssetStore.AssetCache.RecordBlob` | internal/android/asset.go:849-864 | the blob of the data is there, its bytes counted once |
| `AssetStore.AssetCache.UnlinkBlobAlias` | internal/android/asset.go:608-622 | one alias less, the blob gone with its last |
| `AssetStore.AssetCache.DeleteName` | internal/android/asset.go:564-578 | the name and its alias, or its negative entry, are gone |
| `AssetStore.AssetCache.SetNamePositive` | internal/android/asset.go:580-588 | the name refers to the data |
| `AssetStore.AssetCache.SetSource` | internal/android/asset.go:592-599 | what is cached for the source from now on |
| `AssetStore.AssetCache.ProtectLoadBlob` | internal/android/asset.go:643-658 | the load protects the blob, at most one per load |
| `AssetStore.AssetCache.ReleaseLoadBlob` | internal/android/asset.go:660-672 | the protection is given up |
| `AssetStore.AssetCache.CacheNegative` | internal/android/asset.go:457-474 | the missing name is cached unless the policy disables that |
| `AssetStore.AssetCache.RemoveBlobAliases` | internal/android/asset.go:547-562 | the walk over the aliases and the removal are the purge of that blob |
| `AssetStore.AssetCache.PruneExpiredNegative` | internal/android/asset.go:476-499 | the scan, in any order of the index, ends as the exact pruning with the earliest remaining expiry |
| `AssetStore.AssetCache.OldestNegative` | internal/android/asset.go:524-542 | the scan, in any order, finds the entry of smallest order |
| `AssetStore.AssetCache.CapNegatives` | internal/android/asset.go:504-510 | the cap loop ends |
| `AssetStore.AssetCache.TrimBytes` | internal/android/asset.go:515-522 | the budget loop ends with the shortest sufficient prefix gone |
| `AssetStore.AssetCache.EnforcePolicy` | internal/android/asset.go:501-522 | pruning, cap and budget in that order; a retired generation skips the budget |
| `AssetStore.AssetCache.CachedName` | internal/android/asset.go:393-406 | a known name is answered with its entry and its blob goes to the back of the LRU; an expired one is deleted |
| `AssetStore.AssetCache.BeginLoad` | internal/android/asset.go:411-427 | retry exactly when retired, the entry of a known name, the load of a name being loaded, or a new load |
| `AssetStore.AssetCache.FinishLoad` | internal/android/asset.go:429-454 | publishes, settles, releases, enforces and perhaps drops; the load leaves the table with its outcome, and the archive is returned and the cache emptied exactly by the last load of a retired generation |
| `AssetStore.AssetCache.Retire` | internal/android/asset.go:305-335 | the generation is retired; with no load active its cache is empty and its archive is returned, with one nothing else changes |
| `AssetStore.AssetCache.EnsureAPKBegin` | internal/android/asset.go:674-689 | the open archive, the attempt under way, or a new attempt of the caller, in that order |
| `AssetStore.AssetCache.EnsureAPKEnd` | internal/android/asset.go:709-719 | the result of the attempt is recorded for everybody waiting, and a success is the archive from then on |
| `AssetStore.AssetCache.CloseDropped` | internal/android/asset.go:337-345 | the dropped archive is closed and counted |
| `AssetStore.AssetCache.PublishSource` | internal/android/asset.go:732-748 | the data cached first is returned, a live generation has it cached from then on, and the loser's is to be discarded |
| `AssetStore.AssetCache.CacheSuccessAliases` | internal/android/asset.go:750-763 | both names of found data |
| `AssetStore.AssetCache.BeginNativeBorrow` | internal/android/asset.go:1030-1046 | counted exactly in a live generation that has the blob, which is protected by one more handle |
| `AssetStore.AssetCache.EndNativeBorrow` | internal/android/asset.go:1048-1060 | the handle is given up and the policy enforced |
| `LeaseModel.FreeTokenExists` | internal/android/asset_close_ownership.go:35-45 | among the number of leases + 2 successive tokens, counted modulo 2^64, one is free and not zero |
| `LeaseModel.NextToken` | internal/android/asset_close_ownership.go:35-45 | the token given out is not zero and not in use |
| `LeaseSafety.ReleaseFindsPin` | internal/android/asset.go:997-1004 | a borrow's pin is there with as many handles as the blob has borrows, so the guard of the release never fires |
| `LeaseSafety.FireFindsLease` | internal/android/asset_close_ownership.go:51-62 | a token on its way to be fired is registered |
| `LeaseSafety.BorrowHolds` | internal/android/asset_mmap.go:140-158 | while a blob is borrowed its mapping has a pin besides any that is being given up |
| `LeaseTheorems.StepKeepsInv` | internal/android/asset.go:946-1028 | every section of every interleaving keeps the accounts of borrows, pins, mappings and tokens |
| `LeaseTheorems.RunKeepsInv` | internal/android/asset.go:946-1028 | they hold in every state of every run |
| `LeaseTheorems.HandlesConserved` | internal/android/asset.go:972-974 | the global handle count = the sum of the pins' handles = the borrows acquired and not released; each pin has one handle per borrow and each mapping one pin per claim |
| `LeaseTheorems.BorrowedStaysMapped` | internal/android/asset_mmap.go:140-158 | no mapping is given back twice, and none that a live borrow reads from |
| `LeaseTheorems.CacheUnmaps` | internal/android/asset_mmap.go:105-123 | the cache gives a mapping back exactly when nothing pins it and otherwise only lets go of it; a mapping is discarded exactly when nothing caches or pins it |
| `LeaseTheorems.MapIsNew` | internal/android/asset_mmap.go:60-75 | a new mapping was never there before, and is neither cached nor pinned |
| `LeaseTheorems.ReleaseUnmaps` | internal/android/asset_mmap.go:140-158 | a release gives a mapping back exactly when it gave up the last pin and the cache has let go; otherwise it takes one pin, and no other mapping changes |
| `LeaseTheorems.AdoptedStays` | internal/android/asset_mmap.go:94-123 | an adopted mapping stays cached and mapped until the cache lets go of it |
| `LeaseTheorems.BorrowedIsHeld` | internal/android/asset.go:956-971 | borrowed data is held: a mapped blob by a claim on its mapping, Go data by a pin of its own exactly when it has bytes |
| `LeaseTheorems.OthersNeverUnmap` | internal/android/asset_mmap.go:85-103 | no other section gives a mapping back |
| `LeaseTheorems.TokenFires` | internal/android/asset_close_ownership.go:51-62 | firing finds the lease, consumes the token, and nobody else holds it |
| `LeaseTheorems.ReleasedOnce` | internal/android/asset.go:997-1028 | a borrow whose release has run is never released again |
| `LeaseTheorems.FinishReleases` | internal/android/asset.go:997-1011 | a release ends one borrow and takes one from the handle count |
| `LeaseTheorems.NothingLeaks` | internal/android/asset.go:1013-1028 | when every handle is closed and every close is over there is no pin, no lease, no cache borrow and no pin on a mapping, and all totals are zero |
| `LeaseStore.AssetPins.MapDirAsset` | internal/android/asset_mmap.go:69-75 | registers the mapping |
| `LeaseStore.AssetPins.AdoptMappedDirAsset` | internal/android/asset_mmap.go:94-103 | marks a registered mapping as cached |
| `LeaseStore.AssetPins.ReleaseMappedDirAssetFromCache` | internal/android/asset_mmap.go:105-123 | unmaps unless pinned |
| `LeaseStore.AssetPins.RetainMappedDirAssetPin` | internal/android/asset_mmap.go:125-138 | pins a registered mapping and says whether there is one |
| `LeaseStore.AssetPins.ReleaseMappedDirAssetPin` | internal/android/asset_mmap.go:140-158 | unmaps with the last pin unless cached |
| `LeaseStore.AssetPins.DiscardMappedDirAsset` | internal/android/asset_mmap.go:160-174 | unmaps what nobody caches or pins |
| `LeaseStore.AssetPins.AcquireAssetBorrow` | internal/android/asset.go:946-974 | one handle more, the first one pinning the mapping or the Go object |
| `LeaseStore.AssetPins.TrackCache` | internal/android/asset.go:983-990 | the record remembers that the cache counts the borrow |
| `LeaseStore.AssetPins.ReleaseAssetBorrow` | internal/android/asset.go:997-1016 | one handle less, the pin returned with the last |
| `LeaseStore.AssetPins.RegisterAssetBorrowRelease` | internal/android/asset_close_ownership.go:26-46 | the search for a free token ends, and the token is new and not zero |
| `LeaseStore.AssetPins.FireAssetBorrow` | internal/android/asset_close_ownership.go:51-62 | the lease is removed before it is returned, so it is returned at most once |
| `LeaseStore.AAsset.Close` | internal/android/ndk.c:1768-1808 | the first close hands out what is to be freed, closed and fired and invalidates the handle; any later one, also from the callback, does nothing |
| `LooperPark.StepKeepsInv` | internal/android/ndk.c:533-566 | every step of owner, signallers and outsiders keeps the park protocol |
| `LooperPark.WakeKept` | internal/android/ndk.c:533-566 | a signaller that captured an armed park cannot broadcast before the owner sleeps |
| `LooperPark.RunKeepsInv` | internal/android/ndk.c:1064-1105 | the invariant holds in every state of every run |
| `LooperPark.NoLostWake` | internal/android/ndk.c:1085-1105 | while the owner sleeps on its armed condition variable with a wake flagged, some signaller that captured that condition and mutex has still to broadcast |
| `LooperPark.QuietOwnerIsAwake` | internal/android/ndk.c:1085-1105 | with all signallers done an unserved wake never meets an armed or sleeping owner, and its next arm or disarm leads to a poll |
| `LooperPark.WakeIsKeptUntilPoll` | internal/android/ndk.c:969-1014 | a wake stays flagged until a nested poll that takes it up begins |
| `LooperPark.SignallersNeverWaitForSleeper` | internal/android/ndk.c:553-558 | what keeps a signaller from broadcasting is another thread about to release the mutex, never the sleeping owner |
| `LooperPark.WakeReachesPoll` | internal/android/ndk.c:1064-1105 | from every reachable state with an unserved wake and the owner in the wait, asleep or not, finitely many steps of the owner, the signallers under way and whoever holds the mutex lead to the nested poll, without a spurious wake-up |
| `LooperPark.SignalsRaise` | internal/android/ndk.c:542-552 | any number of signals only raise flags of the looper, the one its park selects, and leave its park alone |
| `LooperPark.ALooper.SignalParked` | internal/android/ndk.c:533-552 | raises the flag that fits and captures the park under one lock, leaving the other flag and the park alone |
| `LooperPark.ALooper.ArmCond` | internal/android/ndk.c:969-989 | a waiting wake is taken instead of parking; armed or not, neither flag is up afterwards |
| `LooperPark.ALooper.DisarmCond` | internal/android/ndk.c:991-1007 | unparks and takes the wakes that came while parked, so that neither flag is up afterwards |
| `LooperPark.ALooper.CondWait` | internal/android/ndk.c:1064-1105 | polls exactly when a wake was waiting, or came while parked and the wait was not refused, and returns 0 exactly then or if the wait did; every wake it has seen is taken, once, also one that came during a refused wait and is not polled for, and later ones are kept |
| `Mailbox.StepKeepsInv` | native/call.c:91-148 | every section of submitters and worker keeps the mailbox |
| `Mailbox.RunKeepsInv` | native/call.c:91-148 | the invariant holds in every state of every run |
| `Mailbox.ExactlyOnce` | native/call.c:91-115 | no job runs twice; one whose submit returned ran exactly once and submit returned that run's value |
| `Mailbox.NoDanglingJob` | native/call.c:134-146 | the worker touches only the pending job, whose submitter is still inside submit |
| `Mailbox.NoLostWake` | native/call.c:117-148 | a job to be done never meets a worker blocked in the poll without a token or on g_work, nor a finished one a sleeping submitter |
| `Mailbox.NeverStuck` | native/call.c:91-148 | while any thread is inside submit somebody can get on without a spurious wake-up, including those asleep on g_idle |
| `Mailbox.SomebodyReturns` | native/call.c:91-148 | from every reachable state with a thread inside submit, at most nine steps, none of them a spurious wake-up or a new call, let one of the threads inside return |
| `Mailbox.OthersKeepMine` | native/call.c:91-115 | what the other threads can do to a job between two looks of its submitter |
| `Mailbox.OthersRun` | native/call.c:91-115 | the same over any finite run of the other threads' steps |
| `Mailbox.NativeMain.TryPost` | native/call.c:96-107 | takes a free slot, with the job not done, and leaves a wake token |
| `Mailbox.NativeMain.TryCollect` | native/call.c:108-113 | takes the result and frees the slot |
| `Mailbox.NativeMain.NextJob` | native/call.c:124-138 | the worker goes on exactly for a pending job that is not done |
| `Mailbox.NativeMain.Deliver` | native/call.c:141-146 | the result and the done flag of that job alone |
| `Mailbox.NativeMain.Wake` | internal/android/ndk.c:925-930 | a token is left exactly when the worker has a looper |
| `Mailbox.NativeMain.Submit` | native/call.c:91-115 | if submit returns, its job ran once and the value is that run's, and the slot is free; while it waits the slot is another job's, or its own job is posted and not done; a free slot is taken at once |
| `GuestSurfaces.TakeKeeps` | internal/android/host.c:592-613 | taking removes one entry of that surface, if there is any, and keeps the count exact |
| `GuestSurfaces.DiscardKeeps` | internal/android/host.c:615-641 | discarding removes exactly the entries of the window |
| `GuestSurfaces.StoreKeeps` | internal/android/host.c:643-681 | a stored entry is the only one of its window |
| `GuestSurfaces.ClaimKeeps` | internal/android/host.c:686-710 | claiming turns one pending entry of that surface into an in-flight one |
| `GuestSurfaces.FinishKeeps` | internal/android/host.c:712-734 | finishing settles the very entry that was claimed, or nothing if it is gone |
| `GuestSurfaces.ActsOnFirst` | internal/android/host.c:592-734 | take, claim and finish act on the newest entry they look for and on no other, with the count to match |
| `GuestSurfaces.ZeroMeansNone` | internal/android/host.c:1836-1839 | the count is zero exactly when no entry is pending, so the swap's fast path is safe |
| `GuestSurfaces.StepKeepsInv` | internal/android/host.c:592-750 | every section and callback of every interleaving keeps the registry |
| `GuestSurfaces.RunKeepsInv` | internal/android/host.c:1836-1848 | the invariant holds in every state of every run |
| `GuestSurfaces.HandoffOnce` | internal/android/host.c:1836-1848 | the count is exact, each window has at most one entry, and no generation is accepted twice |
| `GuestSurfaces.PendingIsHandedOff` | internal/android/host.c:1836-1848 | a swap of a surface with a pending handoff makes the callback for a pending entry of that surface, and its answer completes it or makes it pending again |
| `GuestSurfaces.InflightHeldOnce` | internal/android/host.c:1836-1848 | each in-flight entry is held by exactly one swap caller |
| `GuestSurfaces.NeverClaimedAgain` | internal/android/host.c:1905-1920 | a destroyed or replaced generation is never claimed again, even when its numbers are reused |
| `GuestSurfaces.DestroyRetires` | internal/android/host.c:1912-1920 | destroying retires the generation it takes before the host may reuse the number |
| `GuestSurfaces.ReplaceRetires` | internal/android/host.c:1885-1887 | creating on a window retires the generation that was there |
| `GuestSurfaces.StoreRetires` | internal/android/host.c:643-681 | storing retires what a racing creation stored for the window |
| `GuestSurfaces.RejectedIsPending` | internal/android/host.c:712-734 | a rejected handoff of a live surface is pending again, an accepted one complete |
| `SurfaceStore.Surfaces.Take` | internal/android/host.c:592-613 | the walk finds the first match and unlinks it |
| `SurfaceStore.Surfaces.DiscardWindow` | internal/android/host.c:615-641 | the walk unlinks every entry of the window |
| `SurfaceStore.Surfaces.Store` | internal/android/host.c:643-681 | the new entry goes to the front |
| `SurfaceStore.Surfaces.Claim` | internal/android/host.c:686-710 | the walk claims the first pending match |
| `SurfaceStore.Surfaces.Finish` | internal/android/host.c:712-734 | the walk settles the first in-flight match of that generation |
| `SurfaceStore.Surfaces.ClearAll` | internal/android/host.c:736-750 | nothing is left |
| `JniArgs.PackUndoesPrint` | native/jni_bridge.c:112-178 | for every list of field descriptors, packing against the printed method descriptor draws exactly one vararg per parameter, in order and with its promoted type, up to the room there is |
| `JniArgs.CalleeReads` | native/jni_bridge.c:112-178 | whatever values a caller passes for a method's parameters, the packed array holds them in order, each in the union member its callee reads |
| `JniArgs.DrawsOfAny` | native/jni_bridge.c:124-175 | a descriptor that is not well formed: unknown characters are passed over, an unterminated class name takes the rest, a closing parenthesis ends the walk |
| `JniArgs.DrawsOne` | native/jni_bridge.c:124-175 | one printed parameter is one draw, and nothing of it is left over |
| `JniArgs.PastObjectIs` | native/jni_bridge.c:146-154 | the scan of a class name ends just past its semicolon |
| `JniArgs.PastElementIs` | native/jni_bridge.c:155-170 | the scan of an array type, nested or of objects, ends just past it |
| `JniArgs.PackJargs` | native/jni_bridge.c:112-178 | what is drawn is stored in order in the member its type demands, the rest of the array stays, and a null or empty call draws nothing |
| `JniArgs.ScanObject` | native/jni_bridge.c:148-153 | the loop past a class name |
| `JniArgs.ScanElement` | native/jni_bridge.c:157-170 | the loop past an array element |
| `OwnerNotifier.StepKeepsInv` | cmd/tipsy-gui/owner_notifications.go:56-159 | every step of notifiers, drains and close keeps the token |
| `OwnerNotifier.RunKeepsInv` | cmd/tipsy-gui/owner_notifications.go:56-140 | the invariant holds in every state of every run |
| `OwnerNotifier.NoLostNotification` | cmd/tipsy-gui/owner_notifications.go:56-140 | after any notify has returned there is an unread byte, a drain that has not called dispatch, or a dispatch that began after it; and some drain can go on |
| `OwnerNotifier.NotifyIsOwed` | cmd/tipsy-gui/owner_notifications.go:56-95 | a notify that returns without failing, coalesced or not, is owed a dispatch |
| `OwnerNotifier.NotifyReachesDispatch` | cmd/tipsy-gui/owner_notifications.go:56-140 | from every reachable state with a dispatch owed, an open notifier and a drain, finitely many steps of a drain and of the notifier that holds the mutex end with the dispatch |
| `OwnerNotifier.HolderGoesOn` | cmd/tipsy-gui/owner_notifications.go:74-94 | whoever holds the mutex can go on |
| `OwnerNotifier.PipeNeverFills` | cmd/tipsy-gui/owner_notifications.go:83-91 | one owner never leaves more than two bytes unread, so the full-pipe branch is not taken |
| `OwnerNotifier.OwnerThreadNotifier.Notify` | cmd/tipsy-gui/owner_notifications.go:56-95 | flag, byte and counters after a notify, with interrupted writes retried |
| `OwnerNotifier.OwnerThreadNotifier.Drain` | cmd/tipsy-gui/owner_notifications.go:97-140 | the pipe is empty, the flag clear, and dispatch is called exactly for an open notifier without a terminal read |
| `OwnerNotifier.OwnerThreadNotifier.Close` | cmd/tipsy-gui/owner_notifications.go:142-159 | the notifier is closed |

## Left out

- Several independent ring readers with different cursors: they share one wrap counter, so wrapped ranges can be charged too little. The accounting is proved for one reader that threads its cursor through one capture.
- Ring test hooks, weak memory order and the inline assembly itself.
- RingProcess.FrameRing.Drain: gives up after the number of rounds it is passed, where the source waits until the count is zero; that the count gets there is left to the scheduler.
- LeaseStore.AAsset.Close: ends before the handle is freed, so what it says of a second close covers one made before the free, such as one made by the release callback; a handle used after the free is outside the model.
- AssetLoads.FinishLoad: takes one time and one policy, where the source asks the clock and the policy once for a negative entry and once more for the enforcement.
- Fairness: the wait for in-flight presenters takes the number of rounds it may last, `Submit` the number of wake-ups, and the retry loop on a pending mark ends because the run considered has finitely many foreign steps.
- The unlocked gap between a name being looked up and its data being pinned: eviction may run there, so a mapping's lifetime is claimed from the moment a pin records it.
- Which generation other than the one modelled counts a borrow: a first borrow may be counted elsewhere or nowhere.
- Lease steps between a cache section's change of its blobs and the adoption or release of their mappings inside that section: the section is one step.
- Which file a blob's bytes come from when the same address was mapped before: no file is mapped at the address of a blob that is still cached.
- Aliasing of blob, load and list-cell records: blobs and loads are values in a table known by address or number, and linked lists are sequences.
- Choice of candidate paths and archive names, ZIP inflation and its permits, file mapping, and the contents of any asset: what they return is a parameter.
- The futex park path, epoll, watcher threads, the runs that follow a refused wait on a condition variable, and the 16 ms slices of threads without an event park.
- Jobs submitted on the native main thread itself, which run at once inside the job that submits them, and the fallback when that thread could not be started.
- Release of the worker's looper while jobs are submitted.
- The moment inside a locked section of the surface registry between the change of an entry and the change of the atomic count, which a lock-free reader could see.
- Narrowing of a double to a float: the packed value is known by the double it comes from.
- Watching the notifier's descriptor, and what happens after a pipe failure or a close beyond the flag.
- The GL text overlay, vtable trampolines, GUI pages, session and microphone code, release scripts and bionic tables.
