# Verified models of mac-worker

mac-worker dispatches coding agents from a laptop to a few Macs. This project models, in Dafny, the five
places where it carries state or does arithmetic that is hard to get right by eye, and proves what they
are for. Everything is checked by `dafny verify dfyconfig.toml`. Nothing here runs the program.

**The settings editor (`src/agent_settings.rs`).** A hand-written scanner reads JSON with comments and
trailing commas (the base grammar is sections 4, 5 and 7 of RFC 8259), and edits are splices of the text.
The scanner's loops are methods proved against recursive functions, and these accept exactly the prints of
trees of values (`ScannerLaw`, `DocumentLaw`). The effect of an edit is stated by reading the result again:
the object at the path holds the edited list of members, and everything else is the same text in the same
order. It is not true of every document. Three things go wrong:
a scalar written (or left) directly in front of a comment swallows it; a new line is indented with whatever
white space stands before the closing brace, also where the scanner does not skip it; a parent that exists
but is not an object is shadowed by a second member of its name. `SetPathLaw`, `NewParentLaw` and
`RoundTripLaw` are stated for all documents with the exact condition, `JsonCounterexamples` has a document
for each failure, and `RunLaw` covers whole runs of edits for tidy documents, a class that edits keep.

**The local scheduler (`src/client_state.rs`).** The durable queue and its ids, claims under worker
ceilings and run caps, the protocol by which a reserver passes a slot to the process it spawns, the
liveness tracker, the write order of derived indexes and the operation directories of staged writes. Every
operation is one atomic step under the state lock (or, where it makes several durable writes, a script that
a crash may cut anywhere), and the results are about all runs of all steps.

**The incident store (`src/auth_incidents.rs`).** A store that keeps one row per key and prunes answers
like the whole history of events, in any order of arrival; the overlay then shows exactly that.

**Calendar, comment stripping and collection (`src/agent_facts.rs`).** The civil date formula against a
calendar that only knows the next day (month lengths as in section 5.7 of RFC 3339, leap years as in its
Appendix C), the failure text and its recogniser, the second comment stripper against the editor's, and
the collection of facts under a time budget.

**Admission rounds (`src/admission.rs`).** One round, from what it reads to what it returns, and any number
of rounds at once over the shared cache.

Where the code and an expectation disagree, the code is modelled:

- Restoring a removed queue row is refused when a row queued meanwhile carries an earlier timestamp, although
  the id order would allow it (`RestoreLaw`, `RestoreRefused`). It does not look at ceilings, so a row restored
  as dispatching can exceed them (`CeilingsHold`, `RestoredOverCeiling`).
- A runner that hands its slot on reserves with itself excluded from the count while it still runs. The slot
  limit is then exceeded by one, never by more (`GrantLaw`, `PermitBound`, `HandOffExceeds`).
- Staging writes a file before it tests its size, and leaves it behind when it is too large. A queue snapshot
  over 1 MiB thus makes the next opening refuse the state directory (`CrashLaw`, `OversizeStays`).
- A DAG record is written before its pending index. That is safe only because a settled DAG stays settled
  (`ScanAdvances`, `UnsettlingLosesEntry`).
- A Codex re-login makes the store forget incidents that the history still holds, exactly those older than
  a login seen by a later merge (`PrunedStoreLaw`, `ReloginForgets`).

## Model

| member | source | states |
|---|---|---|
| `JsonScan.JsonSkip` | src/agent_settings.rs:3837-3868 | the loop over white space and comments stops where the grammar of blanks stops, and fails on an unclosed block comment |
| `JsonScan.JsonStringEnd` | src/agent_settings.rs:3870-3889 | the escape flag loop finds the end of the string token, or none |
| `JsonScan.JsonValueEnd` | src/agent_settings.rs:3891-3973 | the scanner of any value agrees with the grammar of values, members and separators |
| `JsonScan.JsonObjectEnd` | src/agent_settings.rs:3900-3930 | the object branch of the scanner accepts and ends where the grammar of objects does |
| `JsonScan.JsonArrayEnd` | src/agent_settings.rs:3931-3954 | the array branch likewise |
| `JsonGrammar.ValueRead` | src/agent_settings.rs:3891-3973 | every printed value, with any white space, comments and trailing commas in it, is read to its end wherever it stands, if a scalar is followed by a comma, a closing bracket or white space |
| `JsonAccepts.ValueTree` | src/agent_settings.rs:3891-3973 | whatever the scanner takes for a value is the print of such a tree |
| `JsonAccepts.ScannerLaw` | src/agent_settings.rs:3837-3973 | a value ends at a place if and only if a gap and the print of a tree stand there, followed as they must be |
| `JsonNames.DecodeLaw` | src/agent_settings.rs:3975-3978 | a string token stands for a name if and only if its characters and escapes spell it, surrogate pairs included |
| `JsonString.DecodeEncode` | src/agent_settings.rs:3975-3993 | every name survives being written as a JSON string and read back |
| `JsonString.EncodeIsToken` | src/agent_settings.rs:3987-3993 | a written name is exactly one string token wherever it stands |
| `JsonObject.ParseObjectAt` | src/agent_settings.rs:3720-3783 | the member loop returns the fields, their places and the trailing comma of the object, or the error, of the recursive reading |
| `JsonDocument.DocumentLaw` | src/agent_settings.rs:3675-3687 | a document, printed from a tree, is read with the names it spells and the values as they are printed; a name that is not well formed is refused |
| `JsonDocument.DocumentTree` | src/agent_settings.rs:3675-3687 | nothing else is read as a document |
| `JsonPath.FindObject` | src/agent_settings.rs:3689-3702 | the path loop finds the object that descending member by member finds |
| `JsonDocument.PathReads` | src/agent_settings.rs:3689-3702 | going down a path in the text leads where it leads on the tree: to an object, nowhere, or to a name that is not well formed |
| `JsonLaws.ReplaceHolds` | src/agent_settings.rs:3995-4001 | after a safe replacement the object, read again, has the same members in order with that value replaced, and nothing outside it moves but by the change of length |
| `JsonLaws.ReplaceFails` | src/agent_settings.rs:3995-4001 | after an unsafe one no reading of the object there has those members |
| `JsonLaws.RemoveHolds` | src/agent_settings.rs:4003-4026 | after a safe removal the object has its other members, in order and byte for byte |
| `JsonLaws.RemoveFails` | src/agent_settings.rs:4003-4026 | after an unsafe one an object there with those members ends elsewhere than it did, behind a bare slash that is read again; without such a slash there is none |
| `JsonLaws.InsertHolds` | src/agent_settings.rs:4060-4104 | after a safe insertion the object has its old members and the new one last, and keeps its trailing comma |
| `JsonLaws.InsertFails` | src/agent_settings.rs:4060-4104 | after an unsafe one there is no readable object at that place |
| `JsonPathLaws.EditHolds` | src/agent_settings.rs:3461-3505 | any safe edit of one object gives the edited list of members |
| `JsonPathLaws.EditFails` | src/agent_settings.rs:3461-3505 | after any unsafe one no object there has the edited members and its old end |
| `JsonPathLaws.EditSucceeds` | src/agent_settings.rs:3995-4104 | no edit of a readable object is ever refused |
| `JsonPathLaws.LiftPath` | src/agent_settings.rs:3689-3702 | an edit of an object nested at any depth rewrites, in each ancestor, the one value on the path and nothing else |
| `JsonPathLaws.SetPathLaw` | src/agent_settings.rs:3461-3505 | for every document and path of any length whose objects exist: the object holds the edited members and nothing else has changed, if and only if the edit is safe |
| `JsonDocument.DocumentEdits` | src/agent_settings.rs:3461-3505 | every edit below a path of objects of a printed document is made, and changes only that object, to the edited members, if and only if it is safe |
| `JsonDocument.DocumentWithout` | src/agent_settings.rs:3461-3492 | where the path leads to no object: removing changes nothing, setting succeeds for one missing parent and is refused for more |
| `JsonDocument.NoDocument` | src/agent_settings.rs:3461-3478 | no path, or no document, is an error |
| `JsonPathLaws.NewParentLaw` | src/agent_settings.rs:3461-3505 | with one missing parent the new object goes last into the root if and only if the line can be indented, and the path finds it if and only if, besides, no member had the parent's name |
| `JsonRoundTrip.InsertThenRemove` | src/agent_settings.rs:4003-4104 | on one object, adding and removing an absent member gives the same text if and only if no line is left behind |
| `JsonRoundTrip.RoundTripLaw` | src/agent_settings.rs:3461-3505 | the same for any path: set then remove is the identity on the text if and only if the indent is readable and the object has no newline, or has members and no trailing comma |
| `JsonRuns.TidySafe` | src/agent_settings.rs:3837-3973 | in a document with only skipped white space and no comment directly behind a value every edit is safe |
| `JsonRuns.TidyStep` | src/agent_settings.rs:3461-3505 | an edit of a tidy document succeeds, edits the list, and leaves a tidy document |
| `JsonRuns.RunLaw` | src/agent_settings.rs:3461-3505 | any run of sets and removes on an object of a tidy document gives the members that the run makes of the list |
| `JsonCounterexamples.SwallowedComment` | src/agent_settings.rs:3955-3972 | a number set in front of a comment is read back as something else |
| `JsonCounterexamples.StrandedNumber` | src/agent_settings.rs:4003-4026 | removing the last member can put a number in front of a comment |
| `JsonCounterexamples.StraySlash` | src/agent_settings.rs:4003-4026 | removing the last member behind a bare slash can leave the right members in an object that ends inside a former comment |
| `JsonCounterexamples.OddIndent` | src/agent_settings.rs:4165-4178 | a vertical tab before the closing brace makes the edited text unreadable |
| `JsonCounterexamples.ShadowedParent` | src/agent_settings.rs:3461-3505 | a parent that is a number is kept and shadowed, and the set value is not found |
| `JsonCounterexamples.LineLeftBehind` | src/agent_settings.rs:4060-4104 | set then remove on an empty object on two lines does not give back the text |
| `Jsonc.StripComments` | src/agent_settings.rs:3314-3374 | the editor's flag loop removes comments, keeps newlines, and fails exactly on an open block comment |
| `Jsonc.RemoveTrailingCommas` | src/agent_settings.rs:3376-3423 | the editor's second pass drops exactly the commas outside strings whose next non-space character closes, and refuses an open string |
| `Jsonc.StripBytes` | src/agent_facts.rs:2515-2560 | the collector's stripper does the same with its own replacement for comments |
| `Jsonc.DropTrailingCommas` | src/agent_facts.rs:2560-2578 | its second pass drops commas by the ASCII notion of white space |
| `Jsonc.StrippersLaw` | src/agent_settings.rs:3314-3423 | for every text: both fail on an open block comment, the editor's alone on an open string, and where both succeed they agree up to white space outside strings if and only if no comma is parted from its bracket by non-ASCII white space or a vertical tab |
| `JsoncChunks.StripLaw` | src/agent_settings.rs:3314-3423 | for every text, by its strings, comments and characters: what each stripper gives, and when it refuses |
| `JsoncChunks.CleanLaw` | src/agent_settings.rs:3314-3374 | outside strings exactly the stretches from two slashes to the line end and from slash and star to the next star and slash are replaced, by a space and, in the editor, their line breaks |
| `JsoncChunks.TrimLaw` | src/agent_settings.rs:3376-3423 | exactly the commas outside strings go that white space alone parts from a closing brace or bracket, and everything else stays |
| `JsoncChunks.Chunked` | src/agent_settings.rs:3314-3374 | every text is made of such pieces |
| `Jsonc.PlainTextsAgree` | src/agent_facts.rs:2515-2578 | they agree on all texts without unusual white space |
| `Jsonc.VerticalTabHides` | src/agent_facts.rs:2515-2578 | one vertical tab is enough to make them disagree |
| `Jsonc.StrictUnchanged` | src/agent_settings.rs:3314-3423 | text without comments and trailing commas passes both unchanged |
| `RunnerSlots.ClientStore.OccupiedRunnerSlots` | src/client_state.rs:1616-1657 | the measured occupancy: distinct live runners and holders, plus reservations |
| `RunnerSlots.ClientStore.ReserveRunnerSlot` | src/client_state.rs:1311-1384 | the new queue and the decision for every state, request and set of exited processes |
| `RunnerSlots.ClientStore.ReleaseRunnerSlot` | src/client_state.rs:1386-1440 | release by token and reserver, else nothing changes |
| `RunnerSlots.ClientStore.BindRunnerSlotChild` | src/client_state.rs:1442-1469 | binding needs the live token; a later bind replaces the child |
| `RunnerSlots.ClientStore.TakeOverReservedSlot` | src/client_state.rs:1471-1521 | take-over by token, with the live runner's claim first |
| `RunnerSlots.ClientStore.CompleteRunnerSpawn` | src/client_state.rs:1523-1614 | the three durable writes of a completed spawn, cut after any number of them |
| `RunnerSlotOutcomes.ReserveLaw` | src/client_state.rs:1311-1384 | each answer with its exact cause; a permit given is the new token in the reserver's name without a child, and nothing else has changed |
| `RunnerSlotOutcomes.OccupiedLaw` | src/client_state.rs:1616-1657 | the occupancy is the number of processes that run or act on a task turn and are not left out, plus the number of reserved task turns |
| `RunnerSlotOutcomes.ReleaseLaw` | src/client_state.rs:1416-1440 | a permit is given back if and only if that reserver holds it under that token with no child bound |
| `RunnerSlotOutcomes.BindLaw` | src/client_state.rs:1442-1469 | a bind is accepted if and only if the row holds the token; the child is then on record and no other row has changed |
| `RunnerSlotOutcomes.TakeOverLaw` | src/client_state.rs:1471-1521 | a child told it is ready owns the row; and exactly when it is told so, or told to wait |
| `RunnerSlotOutcomes.CompleteLaw` | src/client_state.rs:1523-1614 | after every number of writes: the row, its reservation, its task's runner and the answer |
| `RunnerSlotOutcomes.CompleteResumes` | src/client_state.rs:1523-1614 | a completion cut after any write, made again, ends as if it had not been cut |
| `RunnerSlotOutcomes.NothingQueued` | src/client_state.rs:1311-1614 | no call finds or changes anything for a turn that is not queued |
| `RunnerSlotLaws.OccupancyBounds` | src/client_state.rs:1616-1657 | in every reachable state the measured occupancy is at least the slots really taken, less one if the reserver is a runner it leaves out |
| `RunnerSlotLaws.GrantLaw` | src/client_state.rs:1332-1384 | a granted reservation takes the permits past the limit if and only if all slots are taken, one of them by the reserver, running for another turn and excluded from the count |
| `RunnerSlotLaws.StepKeeps` | src/client_state.rs:1311-1657 | every step of the protocol and of its surroundings keeps the invariant up to one permit over the limit, and within the limit if and only if it does not overbook |
| `RunnerSlotLaws.RunLaw` | src/client_state.rs:1311-1657 | a run stays within the limit all along if and only if no step of it overbooks |
| `RunnerSlotLaws.PermitBound` | src/client_state.rs:1311-1657 | over every run, exclusion or not, rows with a reservation plus admitted runners that live never exceed the limit by more than one, and not at all without an overbooking |
| `RunnerSlotLaws.HandOffExceeds` | src/turn_runner.rs:766-783 | a run from an empty queue, ending in the hand-off of a slot to a parked turn, has two permits out at a limit of one |
| `RunnerSlotLaws.ReplacedOnlyWhenGone` | src/client_state.rs:1332-1383 | a reservation is replaced only when its reserver, its child, the turn's runner and any foreign holder have exited, and its token is spent |
| `RunnerSlotOutcomes.BoundIsOnRecord` | src/client_state.rs:1442-1614 | over every run the child a reservation has on record is the one last bound under its token, by the answers given |
| `RunnerSlotOutcomes.TakenOnlyFromTheGone` | src/client_state.rs:1332-1383 | over every run from an empty queue a permit is taken over only when the child last bound under its token, its reserver, the turn's runner and everybody else who acts on it have exited |
| `RunnerSlotLaws.SpentIsFenced` | src/client_state.rs:1416-1605 | no call with a spent token by a process that does not own the row changes the row or reports ready |
| `RunnerSlotLaws.FenceHolds` | src/client_state.rs:1416-1605 | that holds at every later point of every run |
| `Queue.QueueStore.Validate` | src/job.rs:1930-1960 | the validating loop accepts exactly the snapshots with increasing ids and times, distinct jobs and one cap per run |
| `Queue.QueueStore.EnqueueRow` | src/client_state.rs:1233-1268 | a new row goes last with the next id, or nothing changes |
| `Queue.QueueStore.EnqueueRowIfAbsent` | src/client_state.rs:1274-1306 | the same, or the row that is there |
| `Queue.QueueStore.RollBackRow` | src/client_state.rs:2379-2405 | only a task turn is taken out, and the rest keeps its order |
| `Queue.QueueStore.RestoreRow` | src/client_state.rs:2408-2440 | the row goes back by its id, if the result validates |
| `Queue.QueueStore.RevertDispatch` | src/client_state.rs:2122-2138 | only the dispatch owner can put its row back to waiting |
| `Queue.QueueStore.RemoveRowAfterTerminal` | src/client_state.rs:4876-4919 | only a row of that owner is removed |
| `QueueOutcomes.EnqueueLaw` | src/client_state.rs:1233-1268 | the row, its id and time, or each refusal with its exact cause |
| `QueueOutcomes.EnqueueIfAbsentLaw` | src/client_state.rs:1274-1306 | a turn queued already is answered by its row |
| `QueueOutcomes.RevertLaw` | src/client_state.rs:2122-2138 | the dispatch owner's row waits for it afterwards and alone has changed; anybody else is refused |
| `QueueOutcomes.FinishLaw` | src/client_state.rs:4876-4919 | a task turn of that owner, or of nobody, is taken out and nothing else changes; each refusal has its cause |
| `QueueOutcomes.RollBackLaw` | src/client_state.rs:2379-2405 | a task turn is taken out and nothing else changes |
| `QueueOutcomes.NothingThere` | src/client_state.rs:2122-2405 | without the row nothing changes, and only a revert is an error |
| `QueueLaws.IdsForEver` | src/client_state.rs:1233-1306 | over every run the queue stays valid, an id belongs to one job for ever, and no id is given twice |
| `QueueLaws.RestoreLaw` | src/client_state.rs:2408-2440 | a removed row goes back if and only if it fits its neighbours by time as by id, and then stands in its old place relative to every row |
| `QueueLaws.RollBackUndone` | src/client_state.rs:2379-2440 | taking a row out and putting it straight back changes nothing |
| `QueueLaws.RestoreRefused` | src/client_state.rs:2408-2440 | three rows on which restoring is refused |
| `QueueLaws.CeilingsHold` | src/client_state.rs:2024-2138 | over every run a worker never has more dispatching task turns than its ceiling, if and only if no dispatching row of its own is put back while it is full |
| `QueueLaws.RestoredOverCeiling` | src/client_state.rs:2408-2440 | two rows and a ceiling of one that putting a row back exceeds |
| `QueueClaims.RunHasCapacity` | src/client_state.rs:2887-2970 | the two loops with their sets answer whether fewer than the cap of other occupants are busy |
| `QueueClaims.BlocksClaim` | src/client_state/runner_dispatch.rs:330-356 | an older eligible row whose run has capacity holds the candidate back while its owner may live, or while it is parked and could be taken up from there |
| `QueueClaims.SelectRow` | src/client_state.rs:2024-2120 | the nested loops pick what the worker-by-worker, row-by-row definition picks |
| `QueueClaims.ClaimNextMatching` | src/client_state.rs:2024-2120 | the queue after a claim, the granted row, or the error with nothing changed |
| `QueueClaims.ClaimLaw` | src/client_state.rs:2024-2120 | whatever the records say: a grant is the first worker with room and a claimable row, and its oldest such row, and changes that row only; an error changes nothing |
| `QueueOutcomes.ClaimOutcome` | src/client_state.rs:2024-2120 | while no record contradicts its row the claim is judged: it grants the oldest ripe row of the first worker with room and such a row, and nothing if and only if there is none; only a time before that row's is refused |
| `QueueOutcomes.MismatchLaw` | src/client_state.rs:2887-2970 | a claim fails for a record only if the record of some queued row of a run does not match it |
| `QueueOutcomes.RefusedClaim` | src/client_state.rs:2033-2051 | a claim without a time or with a worker named twice is refused |
| `QueueOutcomes.ClaimReverted` | src/client_state.rs:2024-2138 | reverting a grant gives back the queue |
| `QueueClaims.GrantWithinCap` | src/client_state.rs:2887-2970 | at every grant fewer than the cap of other tasks and unmapped turns are busy in the run, each counted once |
| `QueueClaims.OccupantsCount` | src/client_state.rs:2887-2970 | tasks and unmapped turns counted apart add up to the distinct occupants |
| `QueueOutcomes.OthersLaw` | src/client_state.rs:2887-2970 | who takes up a place in a run: those with a turn dispatching, accepted or running and the recorded active tasks, without the candidate's own |
| `QueueOutcomes.TurnToTaskLaw` | src/client_state.rs:2887-2970 | a turn counts for that task whose record lists it last |
| `QueueOutcomes.LoadLaw` | src/client_state.rs:2064-2077 | a worker's load is the number of task turns dispatching on it |
| `Liveness.Tracker.IdentityVerdict` | src/client_state.rs:3760-3805 | one look updates the two maps and gives the verdict |
| `Liveness.Tracker.AbsenceUnconfirmed` | src/client_state.rs:3807-3824 | whether an absence has not lasted the window |
| `Liveness.ElapsedLaw` | src/client_state.rs:3826-3843 | after every trace a process has been in doubt since the look that began its unbroken run of doubt, and not at all without one |
| `Liveness.AbsenceLaw` | src/client_state.rs:3807-3824 | after every trace an absence is unconfirmed if and only if its unbroken run began less than a window ago |
| `Liveness.SightingsLaw` | src/client_state.rs:3760-3843 | after every trace the maps hold, for every process, the starts of its unbroken runs of absence and of doubt, and nothing else |
| `Liveness.ExitedLaw` | src/client_state.rs:3760-3805 | alive if and only if seen; dead if and only if the id is reused, or absent in an unbroken run of absences that began at an earlier look a whole window ago; open otherwise |
| `Liveness.OneMissIsNotEnough` | src/client_state.rs:3760-3805 | a first absence, or the first after any other sign, is never death |
| `Liveness.VerdictsApart` | src/client_state.rs:3760-3843 | the verdict on a process depends on the looks at that process alone |
| `Liveness.UnconfirmedLaw` | src/client_state.rs:3807-3824 | after an absent look the verdict is open if and only if the absence counts as unconfirmed, except at a first absence under an empty window |
| `IndexDiscipline.ClaimNode` | src/client_state.rs:4060-4225 | the scan over DAG nodes settles what it passes and claims the first eligible one |
| `IndexDiscipline.ScanLaw` | src/client_state.rs:4085-4180 | the first node that can run is handed out, in the caller's name unless its claimant goes on; before it exactly the open nodes with failed parents are blocked and the completed claims submitted; those behind it stay |
| `IndexDiscipline.ScanAdvances` | src/dag.rs:382-401 | the scan never makes a settled node unsettled |
| `IndexDiscipline.ScriptSafe` | src/client_state.rs:3242-3275 | every single write of every operation's script keeps both indexes complete, also when the queue or the integrations cannot be read |
| `IndexDiscipline.NeverMissing` | src/client_state.rs:3471-3560 | at every instant of every run of operations, turns entering and leaving the queue and integrations starting and ending, cut by any number of crashes between any two writes, no selected task and no unfinished DAG is missing from its index |
| `IndexDiscipline.ReplacedIsExact` | src/client_state.rs:3471-3560 | an uninterrupted replacement leaves the entry if and only if the record is selected |
| `IndexOutcomes.CreateTaskLaw` | src/client_state.rs:3242-3275 | what an uninterrupted creation leaves: the record, and its entry if unfinished; the same record again has its entry put right, another is refused |
| `IndexOutcomes.ReplaceTaskLaw` | src/client_state.rs:3471-3560 | what an uninterrupted replacement leaves, also where the record is not as expected |
| `IndexOutcomes.RefreshLaw` | src/client_state/active_tasks.rs:259-300 | a pruning pass puts exactly the entries of its page right |
| `IndexOutcomes.ClaimDagLaw` | src/client_state.rs:4061-4188 | a scheduling pass leaves what it made of the DAG, pending if and only if a node is open |
| `IndexOutcomes.SubmitNodeLaw` | src/client_state.rs:4190-4225 | a node is recorded as submitted, and the pending entry follows |
| `IndexOutcomes.CreateDagLaw` | src/client_state.rs:3909-3997 | a new DAG is stored with its run and pending if a node is open; another one in its place is refused |
| `IndexOutcomes.BindLaw` | src/client_state.rs:4227-4275 | binding a run puts its pending entry right and changes nothing else |
| `IndexDiscipline.EnqueuedTurnLaw` | src/client_state/active_tasks.rs:608-645 | a turn entering the queue keeps the index complete if and only if every record that refers to it is indexed, and it does when each of them is unfinished or carries a marker |
| `IndexDiscipline.PendingLaw` | src/client_state/active_tasks.rs:369-379 | an integration becoming pending keeps it complete if and only if the record, if closed, is indexed |
| `IndexDiscipline.IntentFirst` | src/task_client.rs:2295-2305 | a record written with its intent, before its turn is enqueued, is what lets the turn enter |
| `IndexDiscipline.EnqueuedTooSoon` | src/client_state/active_tasks.rs:633-645 | a turn enqueued while a record that refers to it is not indexed leaves that record missing |
| `IndexDiscipline.LeavingKeeps` | src/client_state/active_tasks.rs:351-385 | turns that leave the queue and integrations that finish select nothing new |
| `IndexDiscipline.UnsettlingLosesEntry` | src/client_state.rs:5146-5216 | a DAG that became unsettled would lose its entry at a crash after the first write |
| `IndexDiscipline.ClientDisk.CreateTaskFile` | src/client_state.rs:3242-3275 | the durable writes of a new record, cut where the crash comes |
| `IndexDiscipline.ClientDisk.ReplaceTaskFile` | src/client_state.rs:3471-3560 | the durable writes of a replacement, cut where the crash comes |
| `IndexDiscipline.ClientDisk.PersistDag` | src/client_state.rs:5146-5216 | the durable writes of a DAG update, cut where the crash comes |
| `IndexDiscipline.ClientDisk.RefreshIndex` | src/client_state/active_tasks.rs:259-300 | the pruning pass removes only entries that are not selected |
| `OperationsTree.StageLaw` | src/client_state.rs:6722-6773 | staging cut anywhere leaves a tree that reopening accepts if and only if what was written is no larger than a state file may be |
| `OperationsTree.CleanupLeads` | src/client_state.rs:6938-7156 | every state while an operation is retired passes, and the tree ends as before the operation |
| `OperationsTree.RollbackLeads` | src/client_state.rs:7986-8111 | every state while a published entry is taken back passes, and only that entry is gone |
| `OperationsTree.WriteLeads` | src/client_state.rs:6775-6936 | all calls of every outcome of a write succeed and lead to its result, through accepted states if and only if the file is not too large |
| `OperationsTree.CrashLaw` | src/client_state.rs:7568-7694 | after any number of calls of a write reopening accepts the tree if and only if what was written by then is not too large; a whole write leaves the tree of operations as it found it |
| `OperationsTree.CrashesLaw` | src/client_state.rs:7568-7694 | all crash points of a write are harmless if and only if its file is not too large |
| `OperationsTree.OversizeStays` | src/client_state.rs:5849-5862 | a queue snapshot one byte too large is refused without a crash and leaves a tree that reopening refuses |
| `OperationsTree.AlwaysReopens` | src/client_state.rs:7568-7694 | any number of attempts, crashed anywhere, on top of each other's leftovers: reopening accepts the tree if and only if none wrote too much |
| `OperationsTree.StagedWriter.CreateFile` | src/client_state.rs:6775-6860 | the method performs that script, cut where the crash comes, and reports whether the file is new, was there, or is too large |
| `OperationsTree.StagedWriter.ReplaceFile` | src/client_state.rs:6862-6936 | an exchange that finds another file than the expected one puts it back and reports so; one too large is refused |
| `AuthIncidents.AuthIncidentStore.UpsertIncident` | src/auth_incidents.rs:315-336 | the key's row carries the later of its times |
| `AuthIncidents.AuthIncidentStore.UpsertSuccess` | src/auth_incidents.rs:338-358 | the success is kept and drops only incidents it outlasts |
| `AuthIncidents.AuthIncidentStore.PruneExpired` | src/auth_incidents.rs:360-394 | what is kept is exactly what is current, or unexpired |
| `AuthIncidents.AuthIncidentStore.Canonicalize` | src/auth_incidents.rs:302-313 | both lists are sorted by key and lose no row |
| `AuthIncidents.AuthIncidentStore.Apply` | src/auth_incidents.rs:400-470 | one event against the store |
| `AuthIncidents.SortPermutes` | src/auth_incidents.rs:302-313 | sorting is a permutation |
| `AuthIncidents.RecordOrdered` | src/auth_incidents.rs:296-313 | after every history both lists have one row per key, in order |
| `AuthIncidents.RecordSound` | src/auth_incidents.rs:315-394 | a stored row always stands for an event that no later merge cleared, however often the store was pruned |
| `AuthIncidents.RecordComplete` | src/auth_incidents.rs:315-394 | what pruning drops can never count again |
| `AuthIncidents.PrunedStoreLaw` | src/auth_incidents.rs:370-394 | for every sequence of events in any order and every agent the store reports a key if and only if some incident of it is younger than the limit, newer than every success and, for Codex, not followed by a merge that saw a newer login |
| `AuthIncidents.ReportsLatest` | src/auth_incidents.rs:315-336 | a reported row carries the latest time of its key among the incidents that count |
| `AuthIncidents.ReloginForgets` | src/auth_incidents.rs:360-394 | a Codex re-login drops an incident that the history holds |
| `IncidentOverlay.OverlayFacts` | src/auth_incidents.rs:541-560 | the loop over incidents changes first-matching agents and profiles only |
| `IncidentOverlay.SetSlotLaw` | src/auth_incidents.rs:541-560 | one incident changes its own slot, if there, and no other |
| `IncidentOverlay.OverlayShows` | src/auth_incidents.rs:504-560 | after any history a slot of any agent shows the minute of the key's latest incident that counts if and only if there is one; else it is as collected |
| `IncidentOverlay.OverlayShowsHistory` | src/auth_incidents.rs:504-560 | without the re-login rule that is the latest incident of the whole history |
| `Calendar.TickIsNextDay` | src/agent_facts.rs:303-321 | counting days within years from March, cycles and centuries goes from one date to the next |
| `Calendar.YearFormula` | src/agent_facts.rs:303-321 | the formula with three divisions finds the year of the era for every day of it |
| `Calendar.CivilDate` | src/agent_facts.rs:303-321 | the date is that of the calendar, or beyond 9999 and refused; no step leaves its integer width |
| `Calendar.LastYear` | src/agent_facts.rs:303-321 | the refused days are those from day 2932897 on |
| `Calendar.DatesDiffer` | src/agent_facts.rs:303-321 | different days have different dates |
| `Calendar.DateReached` | src/agent_facts.rs:303-321 | every valid date from 1970 on is the date of some day |
| `TurnReason.UtcMinute` | src/agent_facts.rs:291-301 | date, hour and minute for every 64-bit time before the year 10000, and for no other |
| `TurnReason.ReasonLaw` | src/agent_facts.rs:229-235 | a text is produced if and only if the time is before the year 10000, and the recogniser accepts it |
| `TurnReason.TextLaw` | src/agent_facts.rs:229-235 | character by character: the prefix, then year, month, day, hour and minute of the counted date in decimal digits |
| `TurnReason.SameMinuteLaw` | src/agent_facts.rs:229-235 | two times have the same text if and only if they fall in the same minute |
| `TurnReason.AcceptedIsReason` | src/agent_facts.rs:236-290 | the recogniser accepts nothing else |
| `FactsCollection.AllowLaw` | src/agent_facts.rs:1066-1075 | an allowance never reaches past the budget and is nothing once it is spent |
| `FactsCollection.UnlockingLaw` | src/agent_facts.rs:1705-1742 | the outcome is that of the path's only unlock, for every later user of the path |
| `FactsCollection.ProbeAuthLaw` | src/agent_facts.rs:1639-1702 | an answer about a login comes only from an open keychain and a found binary |
| `FactsCollection.EachProfileLaw` | src/agent_facts.rs:1379-1421 | the entries are the secure profiles, each once, in order |
| `FactsCollection.OneAgentLaw` | src/agent_facts.rs:1322-1434 | an agent is left out only after its look in the default shell ran and did not find it |
| `FactsCollection.CollectedLaw` | src/agent_facts.rs:1296-1460 | for every host, budget and set of profiles: no step starts once the budget is spent; if steps keep their allowances all end within it, and so does the collection up to time spent outside steps; no keychain path is unlocked twice; the report is complete and in order |
| `FactsReport.ReportLaw` | src/agent_facts.rs:1296-1460 | everything in a report is the host's reply to the step that asked for it, or says why there is none: a missing binary, a refused keychain, or time that has run out |
| `FactsReport.OneAgentExplained` | src/agent_facts.rs:1322-1434 | an agent's version and login are what its default look and question gave, its profiles' what theirs gave; an agent left out was found nowhere |
| `FactsReport.ProbeAuthExplained` | src/agent_facts.rs:1639-1702 | a profile's login is the reply from behind an open keychain |
| `FactsCollection.Collector.Collect` | src/agent_facts.rs:1296-1460 | the loops over kinds and profiles compute that collection |
| `FactsCollection.Collector.CachedOrUnlock` | src/agent_facts.rs:1705-1742 | the map of outcomes is read or extended as there |
| `FactsCollection.TriedSound` | src/agent_facts.rs:1722-1742 | an unlock keeps the timing bounds and the one-unlock rule whatever it answers |
| `Admission.RunPipelines` | src/admission.rs:148-200 | every listed slot is filled, or the first failure reported; no other slot changes |
| `Admission.ObserveWorkers` | src/admission.rs:52-146 | for every cache content, pipeline outcome and timing: the round fails if and only if a worker is misconfigured or some stage does, with the error of the first worker at the first such stage; else it returns one candidate per worker in order, each pipeline at most once, with who was probed and what each slot holds at the end |
| `Admission.FirstFailureIsFirst` | src/admission.rs:186-199 | the error of a wave is that of its first failing worker in order |
| `AdmissionOutcomes.AnswerLaw` | src/admission.rs:124-146 | for every worker: the candidate shows the row its pipeline probed, or on a stored row the last one read if still usable, with capabilities and versions by the age of the facts; in every other case it is not ready and has nothing |
| `AdmissionOutcomes.WavesLaw` | src/admission.rs:60-121 | exactly which pipelines run in the first and in the second wave, by the rows, the clock and the deadline |
| `AdmissionOutcomes.ReusedLaw` | src/admission.rs:239-247 | a usable row is taken without a probe |
| `AdmissionOutcomes.ProbedLaw` | src/admission.rs:248-285 | otherwise the worker is probed, and the sample is stored and ranked |
| `AdmissionOutcomes.PanickedLaw` | src/admission.rs:251-268 | a panic is stored and ranked as a worker that is not ready |
| `AdmissionOutcomes.OvertakenLaw` | src/admission.rs:269-285 | a row written by someone else meanwhile is not overwritten, and ranked if it is usable |
| `AdmissionOutcomes.ErasedLaw` | src/admission.rs:269-285 | a row taken away meanwhile stays away, and the worker is unavailable |
| `AdmissionRounds.StepKeeps` | src/admission.rs:228-285 | every step of every round keeps: the lock is held by exactly the round whose pipeline is under way |
| `AdmissionRounds.ProbeLaw` | src/admission.rs:228-285 | in every interleaving a worker is probed only by the holder of its lock, who has held it since reading a row that was not reusable; without an outside writer that is still the row |
| `AdmissionRounds.CommitLaw` | src/client_state.rs:2731-2760 | a commit replaces a row if and only if it is the one its own check read |
| `AdmissionRounds.RowChanges` | src/client_state.rs:2731-2760 | no other step of a round changes any row |
| `AdmissionRounds.RankLaw` | src/admission.rs:457-473 | a row is ranked unprobed only if it was stored under the round's lock and passes the reuse test at its clock; without an outside writer no commit is ever lost |
| `AdmissionRounds.SingleFlight` | src/client_state.rs:2762-2784 | while the row of a commit is stored, another round probes only after a later check at which that row was not reusable |
| `AdmissionRounds.ScriptFits` | src/admission.rs:202-226 | pipelines taken from any run of interleaved rounds return rows of their own workers, which is all a round asks of them |
| `AdmissionRounds.UnprobedPassed` | src/admission.rs:240-285 | a row a pipeline returns unprobed passed the reuse test for the worker of the round |

## Left out

- JsonPathLaws.SetPathLaw: where an unsafe removal puts a comment behind a bare slash (no JSON value, but a scalar to the scanner) and the object then ends elsewhere, whether the path still leads to it is left open; it depends on what encloses the object.
- RunnerSlotLaws.PermitBound: for truthful verdicts of exit, fresh tokens, one queued turn per task and children that do not unpark the turn they were started for (src/client_state/runner_dispatch.rs:164-240); the steps that clear a live runner's record or move it to another task (src/client_state/runner_dispatch.rs:130-160, src/turn_runner.rs) are not modelled.
- RunnerSlotOutcomes.TakenOnlyFromTheGone: for the same runs as RunnerSlotLaws.PermitBound.
- FactsCollection.CollectedLaw: herdr and credential helper answers are reduced to how far they got; the clock moves in steps and at readings, not between a reading and the step it is for.
- FactsReport.ReportLaw: an answer is the reply to its step as the host gave it; how output is turned into a reply is not modelled.
- FactsCollection.OneAgentLaw: the version of a profile's own binary and the choice of auth probe that follows from it are not modelled; an agent found only by a profile that the budget skipped is left out, as in the program.
- Admission.ObserveWorkers: reads, clock and pipeline outcomes are inputs; the deadline is a yes or no wherever it is tested; failing clock readings and candidates that fail their own validation are not modelled.
- AdmissionRounds.ProbeLaw: a probe is one step; that it may refresh the worker's facts and probe again within its deadline is not modelled.
- IndexDiscipline.NeverMissing: for turns that enter while the records that refer to them are unfinished or marked, and integrations that start before their task is closed; the page cursor and the bootstrap of the index are not modelled; a file is its decoded record.
- IndexDiscipline.ScanLaw: which parents failed or are ready, what to do with a claim and whether its commit is known are given for each node; the contents of a node other than its state, such as its bound commit, are not modelled.
- OperationsTree.CrashLaw: directories are maps; permissions, ownership, fsync and substitution by others are not modelled; a file only grows while it is written.
- QueueClaims.BlocksClaim: matching of requirements and what makes a parked turn runnable are given as sets.
- Liveness.ExitedLaw: how a process is observed is an input.
- Text is a sequence of characters, not of bytes; both strippers are compared on characters.
- The JSON editor's arrays (`json_insert_array_element`, `json_remove_array_element`), parameter edits and the TOML line editor.
- The interning pool and fallback of `turn_auth_failure_reason`.
- Retrying and locking of the incident file around each event, and clearing it on request.
- Follow-up and resume paths of the queue that skip ceilings by design, cancellation, affinity and prompts.
- Serialisation, hashing, processes, sockets, system calls, command line, dashboard, build and release tooling, and finite configuration checks, which would only add easy members.
