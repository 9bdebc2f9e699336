# keeplin-srv, modelled and proved in Dafny

keeplin-srv is a collaborative note server: versioned lines edited by many devices at once, a
durable change journal with a background projection queue, a relay that brings every device up to
date, capability-based sharing, a rate limiter, keyset pagination and online re-encryption. This
project models the logic of those parts and proves what they keep over every run.

How to read it:

- Concurrency is a step system: a `State`/`World` datatype, an `Event` datatype, `Enabled` and
  `Step`, and theorems about `After` (or `Run`) for every legal sequence of events.
- Code that changes tables, maps or counters in place is a class or a method, each proved equal to a
  pure function or to a run of the step system that the theorems are about (`BacklogIsRun`,
  `QuietPassIsRun` and `DrainBatch` for the three loops that work through a backlog).
- Each operation has laws that tell what it does from the tables alone: when it is done, refused or
  fails, every field it writes and all it leaves alone (`LineLaws`, `SessionLaws`, `QueueLaws`,
  `RelayLaws`, `AccessLaws` and the lemmas named `...Law` elsewhere).
- Where a promise turns out to need a condition, the condition is proved to be the exact one, or a
  concrete counterexample stands beside the theorem.

| file | models |
|---|---|
| `VersionVectors`, `LastWriter` | version vectors, the resolution rule, when last-writer-wins converges |
| `LineOps`, `LineLaws`, `LineEngine`, `LineGuarantees`, `LineCoverage`, `LineConvergence`, `NoteStore`, `Collection`, `Materialize`, `Text` | the line-editing engine, its interleavings with tombstone collection, import and export |
| `Session`, `SessionLaws` | one collaboration session: snapshots, broadcasts, slow subscribers |
| `EntityTables`, `Projection`, `ProjectionWork`, `QueueLaws` | notebooks, tags and links; the journal and its job queue |
| `Relay`, `RelayLaws`, `Backlog` | device cursors, pruning, the backlog loop |
| `Permissions`, `MoveGuard`, `Sharing`, `AccessLaws`, `Confinement` | capabilities, the move guard, sharing and transfers, what no group can bring about |
| `RateLimit` | the token-bucket limiter and its sweep |
| `Ordered`, `PageCursor`, `Paging` | ordered listings, cursor text, pagination |
| `AtRest`, `Reencrypt`, `QuietPass` | tagged ciphertext, the re-encryption pass among other writers and on its own |
| `Prelude` | options and sequence facts |

## What the proofs found

- A line id that is used again after its tombstone was collected can leave a stored, live line that
  no read shows (`ReuseHidesALiveLine`). Over any run, ids used again or not, every stored line stays
  listed exactly when no executed compaction takes out an id its note has stored again
  (`EveryLineListedIffSafe`); ids that are never used again are enough for that (`FreshRunsAreSafe`).
- A Move that names an id twice is accepted and a read then shows the line twice
  (`RepeatedMoveShowsTwice`); on a duplicate-free order a Move is a permutation exactly when the ids
  are distinct (`MovePermutesIffDistinct`).
- Stored line vectors may differ between arrival orders although what readers see does not
  (`VectorsMayDiffer`).
- Last-writer-wins converges exactly when one edit beats all others (`ConvergesIffChampion`); clocks
  that follow causality give such an edit, skewed clocks can go in circles (`SkewedClocksCycle`).
- Two users' edits under one notebook or tag id do not converge: whichever is applied first owns the
  row (`FirstComerOwns`), and the row then shows the best of that user's edits
  (`DrainedEntityIsChampion`).
- The move guard weighs the note's own owner, who can lose nothing, so it refuses some ejections that
  would shrink nobody's access: exactly those where the note's owner holds a share of the notebook and
  nobody else would lose (`HarmlessEjectionIff`, `HarmlessEjectionExample`).
- Acting users can bring nobody past what they reach together, with one exception. Notebook ids come
  from the client and a note keeps the id of a notebook that went with its owner's account, so a user
  without any access can create a notebook under that id and read and write the note
  (`AdoptionBreaksTheBound`). A group stays within its bound at every state of a run exactly when none
  of its steps does that past the bound (`GroupConfinedIff`; for one step `StepAmplifiesNothingIff`).
- The rate limiter's window bound holds exactly when the limiter is on; with `RATE_LIMIT_PER_MIN` at
  its default of zero everything is allowed (`WindowBound`, `DisabledAllowsAll`).
- In the guard the counted-but-unnamed list is always empty: whoever can be blocked can also
  enumerate (`GuardLoop`).
- Text that itself begins with the ciphertext tag does not survive storage without a key
  (`RoundTripIff`); throughout a re-encryption pass a row is readable exactly unless it was last
  written that way (`AlwaysReadable`).
- An upsert of a row another user owns reports success and changes nothing (`VersionedTable.Upsert`).

Where the repository's prose and code disagree, the code is followed: ARCHITECTURE.md line 43 says
that notebook grants are copied onto note shares, while the resolver computes inheritance at read
time; README.md lines 37-40 say that `last_writer` must be the authenticated user, while `apply_op`
compares it with the device id.

## Model

| member | source | states |
|---|---|---|
| `VersionVectors.ResolveAntisymmetric` | crates/keeplin-srv/src/collab.rs:819-851 | two versions never displace each other both ways, and neither displaces the other exactly when their vectors agree or they are concurrent with the same timestamp and writer |
| `VersionVectors.ResolveLaw` | crates/keeplin-srv/src/collab.rs:819-851 | an incoming version displaces the stored one exactly when it knows something new and either knows all the stored one does or bears the later timestamp, or the same and the greater writer |
| `VersionVectors.MergeIsLeastUpperBound` | crates/keeplin-srv/src/collab.rs:586-596 | the merged vector is the least one above both |
| `VersionVectors.MergeVv` | crates/keeplin-srv/src/collab.rs:586-596 | the loop over a mutable copy computes that least upper bound |
| `VersionVectors.AdvancingNeverDominated` | crates/keeplin-srv/src/collab.rs:598-601 | an op that raises its writer's component loses only to a concurrent version with the later stamp |
| `Text.JoinSplit` | crates/keeplin-srv/src/http.rs:2050-2072 | joining the lines of any body gives the body back |
| `Text.SplitJoin` | crates/keeplin-srv/src/http.rs:910-938 | splitting joined newline-free lines gives the lines back |
| `Text.SplitGivesOneLiners` | crates/keeplin-srv/src/http.rs:2050-2063 | no imported line contains a newline |
| `Text.PredictedSizeIsExact` | crates/keeplin-srv/src/http.rs:926-934 | the byte total computed before joining is the length of the joined body |
| `LineOps.PositionAfter` | crates/keeplin-srv/src/collab.rs:853-859 | the position right after the anchor's first occurrence, the head without an anchor, none for an unknown anchor |
| `LineOps.InsertPlacesOneId` | crates/keeplin-srv/src/collab.rs:653-687 | an applied Insert adds exactly one id right after its anchor, the rest unchanged; no duplicate arises exactly when the id was not listed |
| `LineOps.MoveRelocatesBlock` | crates/keeplin-srv/src/collab.rs:760-813 | the moved ids form one block in the given sequence right after the anchor and all others keep their relative order |
| `LineOps.MoveKeepsIds` | crates/keeplin-srv/src/collab.rs:767-813 | an applied Move neither gains nor loses an id |
| `LineOps.MovePermutesIffDistinct` | crates/keeplin-srv/src/collab.rs:767-813 | on a duplicate-free order a Move is a permutation, and keeps it duplicate-free, exactly when the moved ids are distinct |
| `LineOps.VectorsOnlyGrow` | crates/keeplin-srv/src/collab.rs:657-757 | no op takes any order's or line's vector back, and an applied op is recorded |
| `LineLaws.InsertOutcome` | crates/keeplin-srv/src/collab.rs:613-656 | an Insert is applied, ignored or fails exactly when writer, text, id, order, live count, anchor and version say so |
| `LineLaws.EditOutcome` | crates/keeplin-srv/src/collab.rs:691-758 | the same for Update and Delete, which never fail |
| `LineLaws.MoveOutcome` | crates/keeplin-srv/src/collab.rs:760-791 | the same for Move |
| `LineLaws.TextCodes` | crates/keeplin-srv/src/collab.rs:611-632 | a foreign writer, a newline and an overlong text are told apart exactly |
| `LineLaws.InsertCodes` | crates/keeplin-srv/src/collab.rs:633-656 | a stored id, a full note and an unknown anchor are told apart exactly |
| `LineLaws.EditCodes` | crates/keeplin-srv/src/collab.rs:698-712 | a line is not found exactly when it is absent or another note's |
| `LineLaws.MoveCodes` | crates/keeplin-srv/src/collab.rs:767-795 | unlisted ids, an empty or self-anchored Move and an unknown anchor are told apart exactly |
| `LineLaws.RefusedChangesNothing` | crates/keeplin-srv/src/collab.rs:603-816 | an op that is not applied leaves the tables alone |
| `LineLaws.InsertEffect` | crates/keeplin-srv/src/collab.rs:657-687 | an applied Insert stores exactly one live row with the op's text, version and stamp, lists it right after its anchor, stamps the order with the merged version and touches nothing else |
| `LineLaws.EditEffect` | crates/keeplin-srv/src/collab.rs:713-757 | an applied Update sets the text and revives, a Delete keeps the text and buries, both under the merged version, and nothing else changes |
| `LineLaws.MoveEffect` | crates/keeplin-srv/src/collab.rs:792-813 | an applied Move changes its note's order only, block and stamp |
| `LineLaws.InsertShows` | crates/keeplin-srv/src/http.rs:910-925 | after an Insert of an id not listed before a read shows the new text in its place among the texts shown before |
| `LineLaws.MissingIffNoOrder` | crates/keeplin-srv/src/http.rs:910-915 | a body is missing exactly when the note has no order |
| `NoteStore.Retain` | crates/keeplin-srv/src/store.rs:873-880 | filtering the order keeps exactly the other ids, in order |
| `NoteStore.Tables.ApplyInsert` | crates/keeplin-srv/src/collab.rs:612-689 | the statements of an Insert leave the tables and outcome of the pure op |
| `NoteStore.Tables.ApplyEdit` | crates/keeplin-srv/src/collab.rs:691-758 | the same for Update and Delete |
| `NoteStore.Tables.ApplyMove` | crates/keeplin-srv/src/collab.rs:760-815 | the same for Move |
| `NoteStore.Tables.ApplyOp` | crates/keeplin-srv/src/collab.rs:603-816 | the same for any op, a foreign writer being invalid |
| `NoteStore.Tables.GroupByNote` | crates/keeplin-srv/src/store.rs:858-866 | deleted ids grouped by note, exactly |
| `NoteStore.Tables.GcLineTombstones` | crates/keeplin-srv/src/store.rs:844-888 | expired tombstones go, every order that listed one is compacted, vectors and stamps stay |
| `NoteStore.Tables.ImportNote` | crates/keeplin-srv/src/http.rs:2050-2085 | the rows and order an import writes |
| `NoteStore.ExportOfImport` | crates/keeplin-srv/src/http.rs:2050-2072 | exporting an imported note returns the original bytes, or is refused exactly when they exceed a non-zero cap |
| `Collection.CollectionTakes` | crates/keeplin-srv/src/store.rs:844-888 | a collection takes exactly the tombstones dated before the cutoff and the ids of a note's own deleted rows from its order; every other row, id, version and stamp stays |
| `Collection.CollectionKeepsBodies` | crates/keeplin-srv/src/store.rs:844-888 | no read of any note notices a collection |
| `Collection.CollectionIsRun` | crates/keeplin-srv/src/store.rs:844-888 | it ends at the tables of a legal run: one deletion of exactly those rows, then compactions |
| `Materialize.RefusedExactlyWhenTooLong` | crates/keeplin-srv/src/http.rs:910-938 | a body is refused exactly when the joined text exceeds a non-zero cap, with its true length |
| `Materialize.TextsOfLiveIds` | crates/keeplin-srv/src/http.rs:910-925 | the texts shown are those of the live listed ids, one for one and in order |
| `LineEngine.StageIsEffect` | crates/keeplin-srv/src/collab.rs:641-687 | what an op stages in its transaction is, seen through it, the op's effect |
| `LineEngine.StepKeeps` | crates/keeplin-srv/src/collab.rs:603-816 | every step of op transactions, import and both GC phases keeps all stored lines listed, all listed ids known and every open read consistent, for fresh ids |
| `LineEngine.RunKeeps` | crates/keeplin-srv/src/store.rs:844-888 | the same over every interleaving |
| `LineLaws.SchedulingLaw` | crates/keeplin-srv/src/store.rs:845-888 | which steps can happen when: one transaction per note, and GC held up only by rows and orders a transaction has written |
| `LineLaws.WriteSchedulingLaw` | crates/keeplin-srv/src/collab.rs:657-670 | an op writes unless it failed or its new id is stored by now |
| `LineLaws.ReadLaw` | crates/keeplin-srv/src/collab.rs:633-645 | an op reads its transaction's own writes over the committed tables |
| `LineLaws.CommitEffect` | crates/keeplin-srv/src/collab.rs:478-480 | a commit publishes exactly what was staged and records the applied ops |
| `LineLaws.AbortEffect` | crates/keeplin-srv/src/collab.rs:465-478 | an abandoned transaction leaves no trace |
| `LineLaws.GcDeleteLaw` | crates/keeplin-srv/src/store.rs:846-866 | the first GC phase takes only old tombstones no transaction has written and queues each for its note |
| `LineLaws.GcCompactLaw` | crates/keeplin-srv/src/store.rs:867-886 | the second takes the queued ids from the order and leaves version and rows alone |
| `LineLaws.CreationEffect` | crates/keeplin-srv/src/http.rs:962-992 | a created note is empty and carries no version |
| `LineLaws.ImportEffect` | crates/keeplin-srv/src/http.rs:2050-2072 | an imported note has one live line per piece at its writer's first version, under an order that counts them |
| `LineGuarantees.EveryStoredLineIsInItsOrder` | crates/keeplin-srv/src/collab.rs:641-687 | at every committed state of every interleaving each stored line is in its note's order |
| `LineGuarantees.RunKeepsDistinct` | crates/keeplin-srv/src/collab.rs:792-813 | with fresh ids and distinct moved ids no order ever has a duplicate |
| `LineGuarantees.EachLiveLineOnce` | crates/keeplin-srv/src/http.rs:910-925 | the materialised body lists each live line exactly once |
| `LineGuarantees.SettledStays` | crates/keeplin-srv/src/store.rs:873-884 | what records a committed op survives every later change and collection |
| `LineGuarantees.StepKeepsSettled` | crates/keeplin-srv/src/collab.rs:657-757 | every step keeps every applied op on record |
| `LineGuarantees.ResubmissionIsHarmless` | crates/keeplin-srv/src/collab.rs:587-601 | a committed op sent again at any later point of any run changes nothing |
| `LineGuarantees.RunKeepsClean` | crates/keeplin-srv/src/collab.rs:624-626 | no run ever stores a line that contains a newline |
| `LineGuarantees.BodySplitsIntoLiveLines` | crates/keeplin-srv/src/http.rs:910-938 | splitting any body with at least one live line gives back the live lines |
| `LineGuarantees.GcKeepsBodies` | crates/keeplin-srv/src/store.rs:844-888 | neither phase of collection changes what a read shows |
| `LineGuarantees.CompactionSafeIff` | crates/keeplin-srv/src/store.rs:868-884 | a compaction keeps every stored line listed exactly when none of its ids is stored again |
| `LineGuarantees.SoloTransaction` | crates/keeplin-srv/src/collab.rs:603-816 | a transaction nothing interleaves with does exactly what the pure op says |
| `LineGuarantees.ReuseHidesALiveLine` | crates/keeplin-srv/src/collab.rs:633-640 | a run in which a reused id ends as a live line no read shows |
| `LineGuarantees.RepeatedMoveShowsTwice` | crates/keeplin-srv/src/collab.rs:767-813 | a Move naming an id twice is applied and the line is then shown twice |
| `LineCoverage.CompactListedIff` | crates/keeplin-srv/src/store.rs:868-884 | an executed compaction leaves every stored line listed exactly when its note stores none of the ids it takes out |
| `LineCoverage.EveryLineListedIffSafe` | crates/keeplin-srv/src/store.rs:844-888 | over any run of op transactions, imports and both GC phases, with no assumption on line ids, every stored line is listed at all states exactly when every executed compaction is safe |
| `LineCoverage.FreshRunsAreSafe` | crates/keeplin-srv/src/collab.rs:633-640 | runs that never use a collected id again make every compaction safe |
| `LineConvergence.GreatestDecides` | crates/keeplin-srv/src/collab.rs:691-758 | among edits of one line built on the same version by distinct devices, the (updated_at, last_writer)-greatest received so far is what the row shows |
| `LineConvergence.ArrivalOrderIsIrrelevant` | crates/keeplin-srv/src/collab.rs:836-851 | every arrival order, with any repeats, ends live or dead alike with the same text and stamp |
| `LineConvergence.VectorsMayDiffer` | crates/keeplin-srv/src/collab.rs:711-757 | for every two such edits the stored vectors differ between the two arrival orders |
| `LineConvergence.ArriveIsApplyOp` | crates/keeplin-srv/src/collab.rs:691-758 | an arriving edit is the op applied to the stored note |
| `Session.SubmitOps` | crates/keeplin-srv/src/collab.rs:465-478 | the loop over a message's ops collects exactly the applied ones, or rolls back |
| `SessionLaws.BatchLaw` | crates/keeplin-srv/src/collab.rs:465-478 | a message is rolled back exactly when some op fails at the state its predecessors leave; otherwise the database is what all its ops leave in turn and what is passed on is exactly the applied ops in order |
| `SessionLaws.OpenNoteNeverRollsBack` | crates/keeplin-srv/src/collab.rs:641-645 | a note with an order never loses a message |
| `SessionLaws.SubmitLaw` | crates/keeplin-srv/src/collab.rs:479-493 | a message takes a number and goes out exactly when something of it was applied |
| `Session.AppliedOpsSuffice` | crates/keeplin-srv/src/collab.rs:467-476 | replaying only the applied ops takes a copy of the note to where the whole message took the note |
| `Session.PublishShape` | crates/keeplin-srv/src/collab.rs:479-493 | a subscriber that survives a broadcast had the batch queued, unless it sent it |
| `SessionLaws.BroadcastLaw` | crates/keeplin-srv/src/collab.rs:108-128 | another subscriber with fewer than 256 messages waiting gets the batch and stays, any other is dropped with its queue as it was |
| `SessionLaws.BroadcastSpares` | crates/keeplin-srv/src/collab.rs:113-116 | the sender and strangers hear nothing |
| `SessionLaws.JoinLaw` | crates/keeplin-srv/src/collab.rs:404-415 | a join subscribes and queues the note as it stands when there is room, or does nothing for a note without an order |
| `SessionLaws.SnapshotLaw` | crates/keeplin-srv/src/collab.rs:541-556 | a snapshot holds the order and exactly the note's rows, tombstones included |
| `SessionLaws.ConnectionLaw` | crates/keeplin-srv/src/collab.rs:421-428 | leaving and closing end one subscription only |
| `SessionLaws.ElsewhereLaw` | crates/keeplin-srv/src/collab.rs:430-436 | an op on another note changes nothing of the session |
| `SessionLaws.QueuesStayBounded` | crates/keeplin-srv/src/collab.rs:36-39 | no queue ever holds more than 256 messages |
| `SessionLaws.QueueIsRestOfLog` | crates/keeplin-srv/src/collab.rs:284-304 | what waits for a connection is always the end of what was ever queued for it |
| `Session.RunKeeps` | crates/keeplin-srv/src/collab.rs:404-415 | every run keeps every feed current and accounted for in what was queued |
| `Session.SubscribersAreCurrent` | crates/keeplin-srv/src/collab.rs:108-128 | a registered subscriber whose Welcome was queued replays its snapshot, the batches queued for it and its own to the stored note; their numbers run from the Welcome to now without a gap |
| `Session.WelcomedHasFeed` | crates/keeplin-srv/src/collab.rs:404-415 | a subscriber whose Welcome found room has such a feed for as long as it stays registered |
| `Session.CollabSession.Broadcast` | crates/keeplin-srv/src/collab.rs:107-128 | the two loops queue the message for every other subscriber with room and drop exactly the others |
| `Session.CollabSession.PublishBatch` | crates/keeplin-srv/src/collab.rs:479-493 | a batch takes the next number and goes out under it |
| `LastWriter.ChampionStands` | crates/keeplin-srv/src/store.rs:280-301 | an edit that beats all others stands at the end of every history containing it |
| `LastWriter.BeatsLaw` | crates/keeplin-srv/src/store.rs:280-301 | when an incoming edit wins, component by component |
| `LastWriter.ConvergesIffChampion` | crates/keeplin-srv/src/store.rs:280-301 | order and repetition are irrelevant exactly when such an edit exists |
| `LastWriter.CausalHasChampion` | crates/keeplin-srv/src/store.rs:280-301 | clocks that follow causality give one |
| `LastWriter.SkewedClocksCycle` | crates/keeplin-srv/src/store.rs:280-301 | three edits with skewed clocks that beat each other in a circle |
| `EntityTables.RowShowsStanding` | crates/keeplin-srv/src/store.rs:1925-2043 | whatever the arrivals, a notebook or tag row carries version, tombstone and payload of the edit left standing |
| `EntityTables.EditLaw` | crates/keeplin-srv/src/store.rs:1925-2043 | every field of the row after an upsert or a delete, new, winning, losing or another user's |
| `EntityTables.CreationTimeStays` | crates/keeplin-srv/src/store.rs:1948-1960 | the creation time is for ever that of the edit that came first |
| `EntityTables.LinkLaw` | crates/keeplin-srv/src/store.rs:2152-2211 | every field of a link after an edit |
| `EntityTables.EntityConverges` | crates/keeplin-srv/src/store.rs:2046-2150 | one user's upserts and deletes in any order with any repeats end in the same version and tombstone, and the same payload when live |
| `EntityTables.FirstComerOwns` | crates/keeplin-srv/src/store.rs:1925-1973 | of two users' edits under one id the first applied owns the row and stays shown |
| `EntityTables.LinkIsStanding` | crates/keeplin-srv/src/store.rs:2152-2211 | a note-tag row is the edit left standing |
| `EntityTables.LinksConverge` | crates/keeplin-srv/src/store.rs:2152-2211 | note-tag rows agree in full |
| `EntityTables.VersionedTable.Upsert` | crates/keeplin-srv/src/store.rs:1925-1973 | the row after an upsert, and when it reports losing |
| `EntityTables.VersionedTable.Delete` | crates/keeplin-srv/src/store.rs:1995-2043 | the row after a delete, planted when absent, and when it reports losing |
| `Projection.AppendGrows` | crates/keeplin-srv/src/store.rs:640-682 | a batch adds journal rows only together with their jobs, and nothing else changes |
| `QueueLaws.AppendLaw` | crates/keeplin-srv/src/store.rs:640-682 | payload by payload: a known key is left alone, a new one gets its row and a pending job due at once, with rising numbers |
| `Projection.FinishKeeps` | crates/keeplin-srv/src/projection.rs:192-217 | finishing forgets a job only after its change was applied |
| `QueueLaws.FinishLaw` | crates/keeplin-srv/src/projection.rs:192-217 | a finished job is gone exactly after a success, dead exactly after a permanent or the fifth counted failure and waits otherwise; only a serialisation failure is not counted; no other job changes |
| `QueueLaws.ClaimLaw` | crates/keeplin-srv/src/projection.rs:152-166 | exactly a pending or retrying job that is due and that nobody holds can be claimed |
| `QueueLaws.ApplyLaw` | crates/keeplin-srv/src/projection.rs:228-236 | applying changes the tables exactly when it commits; a crash gives up the claim only |
| `QueueLaws.HurryLaw` | crates/keeplin-srv/src/projection.rs:243-254 | making a batch due touches exactly its open unclaimed jobs |
| `QueueLaws.ReconcileLaw` | crates/keeplin-srv/src/projection.rs:286-310 | exactly the chosen rows without a job or with a dead one get a job as new |
| `QueueLaws.PruneLaw` | crates/keeplin-srv/src/store.rs:800-824 | pruning takes exactly chosen rows that have no job |
| `QueueLaws.ChangeLaw` | crates/keeplin-srv/src/projection.rs:42-143 | a change edits its own row or link only |
| `QueueLaws.SchedulingLaw` | crates/keeplin-srv/src/projection.rs:146-240 | which steps can happen when |
| `QueueLaws.NoFailureNoDeadLetter` | crates/keeplin-srv/src/projection.rs:192-217 | in a run without failures no job dies |
| `Projection.RunKeeps` | crates/keeplin-srv/src/projection.rs:146-240 | in every run, crashes between apply and finish included, each appended change was applied or still has a job, and the tables are the applied history |
| `Projection.DrainedMeansApplied` | crates/keeplin-srv/src/projection.rs:220-240 | with no job left exactly the appended changes have been applied |
| `Projection.DrainedEntityIsChampion` | crates/keeplin-srv/src/projection.rs:286-310 | with no job left an entity has a row exactly when it was ever edited, and the row belongs to a user who edited it and shows the edit that beats all that user ever appended for it, after any retries, reconciliation and pruning, however many users edited it |
| `Projection.DrainedLinkIsChampion` | crates/keeplin-srv/src/projection.rs:42-143 | the same for note-tag rows, in full |
| `Projection.DrainedCausalEntity` | crates/keeplin-srv/src/store.rs:800-824 | under causal clocks that winner exists and the row shows it; an entity of one user's is that user's |
| `ProjectionWork.AttemptsStayBelowLimit` | crates/keeplin-srv/src/projection.rs:192-217 | pending and retry jobs have at most four counted attempts in every reachable state |
| `ProjectionWork.BackoffDoubles` | crates/keeplin-srv/src/projection.rs:192-217 | the k-th counted failure waits 2^(k-1) seconds, never over sixteen |
| `ProjectionWork.FinishBurnsFuel` | crates/keeplin-srv/src/projection.rs:192-217 | the sum of tries left falls strictly on each finish that is no serialisation failure, which leaves it |
| `ProjectionWork.DrainIsBounded` | crates/keeplin-srv/src/projection.rs:220-274 | draining n open jobs makes at most 5n claims when finishes commit and no serialisation failure occurs |
| `ProjectionWork.Work.AppendChanges` | crates/keeplin-srv/src/store.rs:640-682 | the loop appends each new payload with its job and reports consecutive numbers, each with the payload stored under it |
| `ProjectionWork.Work.FinishJob` | crates/keeplin-srv/src/projection.rs:192-217 | the job row after each verdict |
| `ProjectionWork.Work.DrainBatch` | crates/keeplin-srv/src/projection.rs:243-274 | the opening update and the loop end with no job of the batch ready, within the tries left, at tables a run of the step system reaches; without a failure no job of the batch is left, open or dead |
| `ProjectionWork.JobIsRun` | crates/keeplin-srv/src/projection.rs:255-272 | claiming, applying and finishing a job is three steps of the system |
| `Relay.StepKeeps` | crates/keeplin-srv/src/sync.rs:158-232 | every step keeps cursors, connections and debts consistent, however connections of a device race |
| `Relay.NothingOwedIsLost` | crates/keeplin-srv/src/store.rs:784-824 | once a device has a cursor, no other device's change is pruned or passed by it before it was sent to the device |
| `RelayLaws.PruneLaw` | crates/keeplin-srv/src/store.rs:800-824 | a prune takes exactly the rows received before the cutoff that no cursor is below, where there is a cursor, and touches nothing else |
| `RelayLaws.PruneFreesTheJournal` | crates/keeplin-srv/src/store.rs:800-824 | old rows every cursor has passed do go |
| `RelayLaws.AppendLaw` | crates/keeplin-srv/src/store.rs:640-682 | a change the journal has is not appended again, a new one gets the next number |
| `RelayLaws.LaterIsGreater` | crates/keeplin-srv/src/store.rs:640-682 | a row appended later has the greater number |
| `RelayLaws.RunKeepsUnique` | crates/keeplin-srv/src/store.rs:640-682 | in every run no two rows of the journal are the same change |
| `RelayLaws.SendLaw` | crates/keeplin-srv/src/sync.rs:171-180 | a send hands over exactly the fetched rows others wrote |
| `RelayLaws.FanoutLaw` | crates/keeplin-srv/src/sync.rs:213-219 | live fan-out hands over one row of another device |
| `RelayLaws.AdvanceLaw` | crates/keeplin-srv/src/store.rs:784-797 | advancing moves one cursor, to what was delivered or not at all |
| `RelayLaws.DeviceLaw` | crates/keeplin-srv/src/store.rs:800-824 | a removed device holds nothing back |
| `RelayLaws.ConnectionLaw` | crates/keeplin-srv/src/sync.rs:158-165 | a connection starts from the stored cursor |
| `RelayLaws.FetchLaw` | crates/keeplin-srv/src/store.rs:685-711 | what is not fetched comes after 200 rows that are |
| `RelayLaws.SchedulingLaw` | crates/keeplin-srv/src/sync.rs:158-232 | which steps can happen when |
| `Relay.NeverEchoes` | crates/keeplin-srv/src/sync.rs:158-185 | no device is ever sent its own change |
| `Relay.CursorsNeverGoBack` | crates/keeplin-srv/src/store.rs:784-797 | a step never takes a cursor back, and debts only grow |
| `Relay.CursorOverRun` | crates/keeplin-srv/src/store.rs:784-797 | the same over every run |
| `Backlog.PastChunk` | crates/keeplin-srv/src/store.rs:685-711 | advancing past a chunk leaves exactly the rest of the journal |
| `Backlog.SendChunk` | crates/keeplin-srv/src/sync.rs:166-180 | one frame holds the chunk's rows of other devices, none when there are none |
| `Backlog.Store.AdvanceCursor` | crates/keeplin-srv/src/store.rs:784-797 | the stored cursor becomes the greater of the two |
| `Backlog.Store.DeliverBacklog` | crates/keeplin-srv/src/sync.rs:158-185 | over a journal that stands still, the chunk loop sends exactly the others' rows past the cursor, in order, and leaves the cursor at the journal's end |
| `Backlog.FetchesAChunk` | crates/keeplin-srv/src/store.rs:685-711 | what the loop fetches is a chunk the step system may fetch |
| `Backlog.BacklogIsRun` | crates/keeplin-srv/src/sync.rs:158-185 | the loop's result is where a run of fetch, send and advance steps ends: the same cursors, just those rows sent |
| `Permissions.FromBits` | crates/keeplin-srv/src/permissions.rs:22-49 | the result is closed under implication and contains every known bit asked for |
| `Permissions.FromBitsIsLeastClosure` | crates/keeplin-srv/src/permissions.rs:22-49 | it is the least such set, so idempotent, and empty only for words without a known bit |
| `Permissions.FromBitsOfUnion` | crates/keeplin-srv/src/permissions.rs:140-178 | normalising parts before their union changes nothing |
| `Permissions.LowByteDecides` | crates/keeplin-srv/src/permissions.rs:12-24 | nothing above the low byte of a 32-bit capability word reaches a decision |
| `AccessLaws.ResolverLaw` | crates/keeplin-srv/src/permissions.rs:132-178 | the owner has everything, anybody else the closure of their share and of what a live notebook passes on, or no access |
| `AccessLaws.BookResolverLaw` | crates/keeplin-srv/src/permissions.rs:191-214 | the same for notebooks, none for a deleted one |
| `MoveGuard.EffectiveFormula` | crates/keeplin-srv/src/permissions.rs:140-178 | for anyone but the owner the resolver's answer is the guard's formula |
| `MoveGuard.GuardAgreesWithResolver` | crates/keeplin-srv/src/http.rs:1310-1352 | the guard lists exactly the users, other than mover and owner, whose resolved access shrinks |
| `AccessLaws.MoveLaw` | crates/keeplin-srv/src/http.rs:1287-1402 | a move is done exactly when the actor may write the note, owns it or may eject it, stands in nobody's way where they own the source, and may write to a live destination that is not full; blocked, missing and full have their exact conditions |
| `AccessLaws.MoveEffect` | crates/keeplin-srv/src/http.rs:1397-1401 | nothing but the note's notebook changes |
| `AccessLaws.IdleMoveLaw` | crates/keeplin-srv/src/http.rs:1287-1296 | putting a note where it is takes the right to write and changes nothing |
| `AccessLaws.StrangersMoveNothing` | crates/keeplin-srv/src/http.rs:1303-1308 | over every handler, whoever owns neither the note nor its notebook never changes where it is |
| `AccessLaws.EjectionNotice` | crates/keeplin-srv/src/http.rs:1402-1404 | who ejects a note tells its owner and nobody else |
| `AccessLaws.RelocateLaw` | crates/keeplin-srv/src/http.rs:1380-1401 | the handler does what the move does |
| `MoveGuard.AcceptedMoveShrinksNobody` | crates/keeplin-srv/src/http.rs:1287-1378 | a move accepted from the source notebook's owner shrinks nobody else's access |
| `MoveGuard.NoticesAreExact` | crates/keeplin-srv/src/http.rs:1345-1415 | a note owner who does not own the source gets as notice list exactly the other users whose access shrinks |
| `MoveGuard.HarmlessEjectionIsBlocked` | crates/keeplin-srv/src/http.rs:1329-1375 | an ejection is refused naming only the note's owner exactly when the guard lists the owner and nobody's access would shrink |
| `MoveGuard.HarmlessEjectionExample` | crates/keeplin-srv/src/http.rs:1329-1375 | such an ejection, concretely, and that it would shrink nobody |
| `Sharing.HarmlessEjectionIff` | crates/keeplin-srv/src/http.rs:1329-1375 | on sound tables, exactly when the note's owner holds a share of the notebook and nobody else's access would shrink |
| `MoveGuard.GuardLoop` | crates/keeplin-srv/src/http.rs:1310-1362 | the loop names the losers to a mover who owns the source, notifies them otherwise, and never counts one unnamed |
| `Sharing.ShareTakesEffect` | crates/keeplin-srv/src/http.rs:1473-1554 | after a share its holder has at least what was asked for and nobody else's access changes |
| `AccessLaws.ShareLaw` | crates/keeplin-srv/src/http.rs:1473-1554 | a note share is granted exactly by somebody who may share with write rights, for a non-empty set within their own, to an existing user who is not the owner; each refusal and the one row written |
| `AccessLaws.UnshareLaw` | crates/keeplin-srv/src/http.rs:1577-1622 | a share is withdrawn exactly by such a user or its holder |
| `AccessLaws.TransferLaw` | crates/keeplin-srv/src/http.rs:1632-1697 | a note is given away exactly by its owner to an existing user |
| `AccessLaws.ShareBookLaw` | crates/keeplin-srv/src/http.rs:1725-1784 | the same for notebook shares |
| `AccessLaws.UnshareBookLaw` | crates/keeplin-srv/src/http.rs:1799-1826 | the same for withdrawing them |
| `AccessLaws.TransferBookLaw` | crates/keeplin-srv/src/http.rs:1829-1868 | the same for giving a notebook away |
| `AccessLaws.BookShareTakesEffect` | crates/keeplin-srv/src/http.rs:1725-1784 | after a notebook share its holder has exactly what was asked for there, and read and write of it on its notes |
| `AccessLaws.CreateLaw` | crates/keeplin-srv/src/http.rs:962-992 | a note is created under a new id, outside any notebook |
| `AccessLaws.DeleteLaw` | crates/keeplin-srv/src/http.rs:1419-1462 | a live note is deleted exactly by its owner |
| `AccessLaws.NotebookLaw` | crates/keeplin-srv/src/store.rs:1925-2043 | a notebook row is written by its owner or whoever comes first |
| `AccessLaws.RefusalLaw` | crates/keeplin-srv/src/http.rs:1473-1868 | a refused request changes nothing |
| `Sharing.UnshareRevokes` | crates/keeplin-srv/src/http.rs:1577-1622 | after an unshare the target has just what the notebook passes on and nobody else's access changes |
| `Sharing.TransferHandsOver` | crates/keeplin-srv/src/http.rs:1632-1697 | after a transfer the target owns the note and the giver has just what the notebook passes on |
| `Sharing.AccountLeavesNothing` | crates/keeplin-srv/src/http.rs:621-650 | a deleted account leaves no ownership or share behind and takes no note, notebook or share between others |
| `Sharing.SurvivorsKeepAccess` | crates/keeplin-srv/src/http.rs:621-650 | on a note that survives, everybody else keeps exactly their access, or just their direct share where the notebook went |
| `Sharing.RunKeepsSound` | crates/keeplin-srv/src/http.rs:1725-1868 | over every run each stored share is a non-empty closed set on an existing row and no owner holds a share on what they own |
| `Confinement.StepAmplifiesNothingIff` | crates/keeplin-srv/src/http.rs:1509-1525 | what anyone can reach after a step, they and the actor could reach between them before it, exactly unless the actor creates a notebook under the id the note carries without reaching that much already |
| `Confinement.StepConfinedIff` | crates/keeplin-srv/src/http.rs:1754-1785 | the same against any bound the actor is within |
| `Confinement.NoGroupAmplifies` | crates/keeplin-srv/src/http.rs:1754-1785 | however a group of users act, short of such an adoption past the bound, nobody ends with more on a note than they could reach at the start together with the bound |
| `Confinement.GroupConfinedIff` | crates/keeplin-srv/src/store.rs:1925-1973 | a group within a bound is within it at every state of its run exactly when none of its steps adopts the note's notebook past the bound |
| `Confinement.GroupStaysWithinBound` | crates/keeplin-srv/src/permissions.rs:140-178 | then no member's resolved access leaves the bound |
| `Confinement.AdoptionBreaksTheBound` | crates/keeplin-srv/src/store.rs:1925-1973 | a run from empty tables after which a user who reaches nothing of a note gets to read and write it by an adoption |
| `Sharing.PermissionTables.CreateShare` | crates/keeplin-srv/src/http.rs:1473-1554 | the transaction commits the share or fails with its error and no trace |
| `Sharing.PermissionTables.TransferOwnership` | crates/keeplin-srv/src/http.rs:1666-1697 | the same for a note transfer |
| `Sharing.PermissionTables.TransferOfNotebook` | crates/keeplin-srv/src/http.rs:1829-1868 | the same for a notebook transfer |
| `RateLimit.SweepingIsInvisible` | crates/keeplin-srv/src/ratelimit.rs:59-95 | for every timely sequence of requests the sweeping limiter and one that never sweeps give the same answers |
| `RateLimit.AddressesAreIndependent` | crates/keeplin-srv/src/ratelimit.rs:66-95 | an address gets the answers it would get if nobody else sent requests |
| `RateLimit.TokensPayForRequests` | crates/keeplin-srv/src/ratelimit.rs:59-83 | allowed requests plus tokens left never exceed tokens before plus refill |
| `RateLimit.WindowBound` | crates/keeplin-srv/src/ratelimit.rs:42-83 | in every run and window the requests allowed for an address number at most per_min + per_min/60 for each second exactly when per_min is positive or the address sends none |
| `RateLimit.DisabledAllowsAll` | crates/keeplin-srv/src/ratelimit.rs:53-69 | with per_min zero every request is allowed |
| `RateLimit.PatienceIsRewarded` | crates/keeplin-srv/src/ratelimit.rs:66-83 | an address that has itself been quiet for 60/per_min seconds is allowed, whatever the others send |
| `RateLimit.BurstLaw` | crates/keeplin-srv/src/ratelimit.rs:66-83 | a fresh address gets exactly per_min requests of a burst through |
| `RateLimit.SweepLaw` | crates/keeplin-srv/src/ratelimit.rs:84-93 | a request a minute or more after the last sweep throws away exactly the other full buckets |
| `RateLimit.BackwardClock` | crates/keeplin-srv/src/ratelimit.rs:59-64 | a clock that runs back earns nothing |
| `RateLimit.RateLimiter.Check` | crates/keeplin-srv/src/ratelimit.rs:66-95 | the statements give the model's answer and next state; a disabled limiter allows everything and keeps nothing |
| `PageCursor.CursorRoundTrip` | crates/keeplin-srv/src/store.rs:49-62 | every cursor's text decodes back to it |
| `PageCursor.MicrosRoundTrip` | crates/keeplin-srv/src/store.rs:49-62 | signed 64-bit microseconds survive, and their text has no underscore |
| `PageCursor.UuidRoundTrip` | crates/keeplin-srv/src/store.rs:54-62 | hyphenated uuids survive |
| `PageCursor.CursorShape` | crates/keeplin-srv/src/store.rs:49-52 | the text of a cursor is its microseconds, an underscore and its uuid |
| `PageCursor.UuidShape` | crates/keeplin-srv/src/store.rs:49-52 | a uuid is 32 lower-case digits in groups of 8, 4, 4, 4 and 12 |
| `PageCursor.DecimalLaw` | crates/keeplin-srv/src/store.rs:49-52 | decimal digits are written most significant first |
| `PageCursor.HexLaw` | crates/keeplin-srv/src/store.rs:49-52 | so are hexadecimal ones, in lower case |
| `PageCursor.DigitLaw` | crates/keeplin-srv/src/store.rs:54-62 | digits are read in either case, and nothing else is a digit |
| `PageCursor.MicrosLaw` | crates/keeplin-srv/src/store.rs:54-58 | exactly an optional sign and decimal digits within 64 bits are read |
| `PageCursor.UuidForms` | crates/keeplin-srv/src/store.rs:59-61 | simple, braced and urn forms are read alike, and no other length |
| `PageCursor.DecodeLaw` | crates/keeplin-srv/src/store.rs:54-62 | a token decodes exactly when both sides of its first underscore do |
| `Paging.PageInOrder` | crates/keeplin-srv/src/store.rs:2480-2501 | a page is in strict key order, past the cursor and ends at the next one |
| `Paging.PageMissesNothing` | crates/keeplin-srv/src/store.rs:1001-1040 | a visible row past the cursor is on the page or past its end |
| `Paging.PageOrderLaw` | crates/keeplin-srv/src/store.rs:1023-1028 | notes come newest first, other lists oldest first, by timestamp then id |
| `Paging.PageSizeLaw` | crates/keeplin-srv/src/http.rs:127-150 | a page holds as many rows as the limit clamped to 1 to 500, or all that are left, with a next cursor exactly when full |
| `Paging.FetchLaw` | crates/keeplin-srv/src/http.rs:129-137 | exactly an undecodable cursor is refused, and without a limit everything comes at once |
| `Paging.FollowingNeverRepeats` | crates/keeplin-srv/src/http.rs:127-157 | however the table changes between requests, following the cursor lists rows in strict order, none twice |
| `Paging.StableRowIsListed` | crates/keeplin-srv/src/http.rs:127-157 | a row that stays throughout is listed by the last page |
| `Paging.FollowingListsEverything` | crates/keeplin-srv/src/http.rs:127-157 | over an unchanging table of n rows every row comes exactly once in order, in exactly n/limit + 1 pages |
| `AtRest.RoundTripIff` | crates/keeplin-srv/src/crypto.rs:49-83 | text comes back from storage exactly when there is a key or the text does not carry the tag |
| `AtRest.TaggedPlainIsLost` | crates/keeplin-srv/src/crypto.rs:66-83 | tagged text stored as it is never reads back as itself |
| `AtRest.TagLaw` | crates/keeplin-srv/src/crypto.rs:49-83 | what counts as tagged, that untagged text reads as itself and that only the key opens a tagged value |
| `Reencrypt.BatchIsUntagged` | crates/keeplin-srv/src/reencrypt.rs:66-80 | a batch is the first untagged rows past the last id, in order, none skipped |
| `Reencrypt.RewriteLaw` | crates/keeplin-srv/src/reencrypt.rs:87-104 | a row is sealed and counted as rewritten exactly when it still holds what was selected, and counted as skipped otherwise |
| `Reencrypt.WriterLaw` | crates/keeplin-srv/src/crypto.rs:49-63 | what keyed and keyless writers store meanwhile |
| `Reencrypt.SchedulingLaw` | crates/keeplin-srv/src/reencrypt.rs:64-110 | which steps can happen when |
| `Reencrypt.RunKeeps` | crates/keeplin-srv/src/reencrypt.rs:56-127 | every step of pass and writers keeps rows readable, counts adding up and rows behind the pass sealed |
| `Reencrypt.AlwaysReadable` | crates/keeplin-srv/src/reencrypt.rs:84-104 | at every moment, with any concurrent writers, a row decrypts to the text last written to it exactly unless that text carries the tag and was written without the key |
| `Reencrypt.FinishedPass` | crates/keeplin-srv/src/reencrypt.rs:56-127 | a finished non-dry pass scanned what it rewrote plus what it skipped, and with a positive batch size every row past nil is sealed unless a keyless writer wrote it meanwhile |
| `QuietPass.SealingIsComplete` | crates/keeplin-srv/src/reencrypt.rs:56-127 | after a pass over a quiet table a second one has nothing to scan and every row says what it said |
| `QuietPass.Column.Update` | crates/keeplin-srv/src/reencrypt.rs:87-100 | the compare-and-set hits exactly a row that still holds the selected value |
| `QuietPass.Column.ReencryptColumn` | crates/keeplin-srv/src/reencrypt.rs:56-127 | over a quiet table the loop ends having scanned each untagged row past nil once and sealed exactly those; a batch size of zero does nothing |
| `QuietPass.QuietPassIsRun` | crates/keeplin-srv/src/reencrypt.rs:56-127 | its table and counts are where a run of selections and rewrites of the step system ends |

## Left out

- `keeplin_core` is not part of this model; its `resolve` is defined from README.md lines 42-45 and
  ARCHITECTURE.md lines 50-52, and for equal vectors, on which they are silent, keeps the stored version.
- An op's reads are one step; its writes, the commit and both GC phases are separate steps. Only Insert
  reads more than once: a row it finds ends it at once, and GC, which deletes tombstones only, changes
  neither the absence of a row nor the live count between its reads.
- A note's deletion does not cascade to its lines here, and lines carry no `created_at`.
- The cap of 65 536 live lines is checked by Insert but is no invariant of runs: an Update revives a
  tombstone without a count and import counts nothing.
- Convergence of concurrent Inserts and Moves: the loser is dropped on purpose.
- Convergence of resources, of title and creation time under a tombstone, and of notebooks whose
  ownership changes: these depend on arrival order by design.
- `Projection` treats each applier as one atomic step and leaves out resources and a tag delete racing
  the first insert of the same tag; pruning and reconciliation may pick any rows the code could pick
  and more.
- `Relay` models one user; sequence allocation and commit are one step, and cross-instance wake-ups
  are left out.
- `Session` models one session object on one instance without GC; the registry, presence content and
  delivery to other instances are left out, and error texts are `Chatter`.
- `MoveGuard.Move` and `Sharing` model the serialisable transaction; the earlier pass that checks the
  same conditions outside it is left out, and so are quotas other than the notebook's note limit.
- Capability words are modelled by their low byte, which `Permissions.LowByteDecides` justifies.
- `RateLimit` uses reals for `f64` and assumes that time does not go back.
- `PageCursor` accepts every 64-bit microsecond count; the narrower date range of the time library is left out.
- `Reencrypt` represents AES-GCM and base64 as an invertible pair whose ciphertexts are longer than
  their texts; each row update is a step of its own and the rollback of a failed batch is left out.
- ProjectionWork.Work.DrainBatch: has no other worker beside it and no serialisation failure; the step
  system has both.
- Backlog.Store.DeliverBacklog: reads a journal that nobody appends to or prunes meanwhile; the step
  system has both.
- QuietPass.Column.ReencryptColumn: nobody else writes the table; the step system has other writers.
- HTTP, WebSocket, JSON and SQL plumbing, JWT, Argon2, token hashing, e-mail flows, presence, metrics,
  configuration, shutdown and history listings are left out as environment or easy.
