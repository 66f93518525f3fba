# Sync service: verified model

The service copies the songs of a WorshipTools setlist into a ChurchTools agenda. A
planner turns an agenda, placements and ownership rows into a list of actions; the plan
is stored; workers carry it out and verify it under leases, fed by a queue that may
deliver twice; an outbox sends the notifications. This project models that behaviour in
Dafny and proves what it promises.

`dafny verify dfyconfig.toml` checks everything.

## How the parts fit

| part | modules |
|---|---|
| agendas and the three provider writes | `Prelude`, `Agendas`, `Actions`, `Order`, `Sorting`, `TargetProvider` |
| the planner, its loops and its plans | `Placements`, `PlacementLoops`, `PlanShape`, `PlanTheorems` |
| what a plan means, told without the planner | `SongSlices`, `Anchors`, `ActionContents`, `Deletions`, `Refusals`, `Notices`, `Decimals` |
| what performing a plan leaves | `Layout`, `LayoutProofs`, `PlanOrder`, `Setlist`, `Window`, `TwoPlacements`, `Weaving`, `Slices` |
| planning again after a run | `RunRows`, `StandingSongs`, `Replan` |
| ownership rows | `Bindings`, `Authority` |
| carrying a plan out, with workers that die | `Reconcile`, `Executor`, `ExecutorWrites`, `ExecutorFirst`, `ExecutorOrphan`, `ExecutorExact`, `ExecutorGuard`, `ExecutorShape`, `ExecutorBindings`, `ExecutorExample`, `ExecutorLoops`, `EndToEnd` |
| the verdict of a run | `Verdict`, `RunVerdict` |
| runs, leases, profiles, workspaces | `RunLease`, `RunClaims`, `Lifecycle`, `EventLease` |
| the outbox | `Outbox`, `OutboxClaims` |
| matching and the assembly of whole plans | `SongMatching`, `EventMatching`, `MatchReasons`, `Assembly`, `AssemblyTheorems` |
| what makes an event "unchanged", planning a run, plans as JSON | `Fingerprints`, `RunPlanning`, `Serialization` |
| provider clients | `Pagination`, `Http` |

Three descriptions of the same plan meet. `PlacementLoops` has the loops as written, with
a class for the numbering factory. `Placements` has the plan as a fold over rules and
songs, to which the loops are proved equal. `Layout` describes the resulting agenda per
original item, without any index look-up: what stands directly before the item, what
became of it, and what was chained after it. `LayoutProofs.PerformAllIsLaid` proves that
performing a well-formed list of actions, one provider write after the other, gives exactly
that agenda.

What the fold decides is told a second time without it: which songs a placement is for, by
counting from either end (`SongSlices`), which item is its anchor and where the block stands
(`Anchors`), what every action says (`ActionContents`), which items must and must not be
deleted (`Deletions`), when a plan is refused (`Refusals`) and what it warns of (`Notices`).
`RunClaims`, `OutboxClaims`, `MatchReasons` and `ExecutorGuard` do the same for claims,
deliveries, matches and writes.

Execution is a small-step machine: durable rows and the remote agenda survive, a worker's
memory does not. A step is given what the world decides (a lost lease, a cancellation, the
provider's answer, the id of a new item), so the theorems hold for every interleaving of
steps, deaths, restarts and, where stated, foreign edits. `ExecutorLoops` has the loops as
written, changing rows, agenda and memory in place, and proves that they follow the
machine. `EndToEnd` composes planning and execution, `RunPlanning` matching, checkpoints and
planning, `RunVerdict` the executions of events and the verdict, `Authority` plans and the
history of verified actions.

## What the proofs found

- **Planning again is idempotent for AFTER placements only.** With BEFORE, or AT on an
  anchor that is no song, the cursor stands on the anchor, and the next run inserts the
  songs again. `Replan.ReplanIsIdle` is the exact condition, for any list of placements
  whose windows are apart and whose anchors match no songs; `Replan.BeforeInsertsAgain` is
  a concrete agenda. An anchor that matches songs may match the placed songs as well, and
  then the next plan can be refused (`Replan.SongAnchorStops`).
- **Where inserted songs land.** If no two placements claim the same item or insert at the
  same place, every slice is one block in its own window, and the final agenda is given
  exactly (`Slices.SlicesAreWoven`).
- **Two placements that insert at the same place** come out in their own order if the place
  is before an item, and in the opposite order at the end of the agenda
  (`TwoPlacements.OrderOfPlacements`).
- **A write can be made twice, but not the first one of an event.** If a worker dies
  between a provider write and the row that records it, and the event has an earlier action
  besides cleanup NOOPs, re-verifying that earlier action adopts the agenda as it is, the
  fingerprint check passes, and the next worker writes again. `ExecutorOrphan.OrphanIsRepeated`
  derives this from every such run, both directions; `ExecutorExample.WrittenTwice` is a
  concrete one. The first write of an event is committed at most once in every run without
  foreign edits (`ExecutorFirst.FirstWriteOnce`).
- **An insert is recognized after a crash** exactly if it names a neighbour or went into an
  empty agenda (`Reconcile.InsertIsRecognized`).
- **An event can succeed with a row that is not VERIFIED.** If an earlier worker gave a write
  up and its effect is found in the agenda later, the event goes on past it while the row
  stays FAILED or SKIPPED. On success a row is VERIFIED if and only if no earlier worker had
  given it up (`ExecutorLoops.Execution.ApplyEvent`); `ExecutorExample.SucceedsWithFailedRow`
  is a concrete run.
- **An agenda that somebody else has changed is not written to.** With any foreign edits, a
  write needs the planned agenda or the one that the worker itself read back last
  (`ExecutorGuard.CallNeedsKnownAgenda`). This guard compares before the call only, so an
  edit between comparison and write goes unnoticed until the read-back.
- **A lost ownership row is made up for.** A worker can die after recording an action and
  before writing its ownership row; an event that succeeds has written all of them
  (`ExecutorBindings.SuccessBindsAll`).
- **A late acknowledgement of a dispatch** moves the marker backwards and lets a run be
  delivered too early; the exact condition is `RunLease.LateAcknowledgementBreaksSpacing`.

## Modelling notes

- An agenda is a sequence in the order of (position, id). Ids and keys are strings, joined
  with colons as in the code; an index is rendered in decimal.
- `normalize_text`, `normalize_ccli`, regular expressions, time zones, canonical JSON of song
  metadata and the conversions between JSON values, text and dates are function
  parameters. Hashes are modelled by the value that is hashed.
- The title of a song item is the configured default, the same for every song of a profile.
- Where the order of candidates comes from the database (due profiles, due outbox items)
  it is the order of the sequence.
- Owner tokens stand for the first 200 characters that the column keeps.
- An INSERT waits for the previous insert's key even where it is placed before an item, as
  in the code (planner.py, line 541).
- `Sound`, `Available`, `Novel` and `Setup` collect what a theorem assumes of the world:
  distinct ids, one ownership row per item, songs that resolve, and provider ids that are new.

## Model

| member | source | states |
|---|---|---|
| `Window.OnePlacementExactly` | `backend/app/sync/planner.py:393-604` | One error-free placement: the final agenda is the original up to the cursor, then one block with the songs of the slice in setlist order (ids and songs given) in place of the song items that stood from the cursor on, at most as many as there are songs, then the rest; only items that cleanup deletes are missing. |
| `Slices.SlicesAreWoven` | `backend/app/sync/planner.py:393-604` | Any list of placements whose windows are apart, exactly: the final agenda is the original items in order with, after the slots of each placement, the songs it inserted there, minus what cleanup deletes. Slots and inserted songs of a placement show its slice in setlist order (ids given), every unclaimed item is untouched, and nothing is inserted anywhere else. |
| `Slices.SliceStands` | `backend/app/sync/planner.py:450-545` | Under the same condition every slice stands as one contiguous block: the final agenda is front, block, back, with the items before its window in front and those after it behind. |
| `Setlist.SetlistIsShown` | `backend/app/sync/planner.py:393-545` | For any list of placements: every song of every slice is in the final agenda, in the item of its own action, showing the song and arrangement it maps to. |
| `Setlist.SetlistIsInOrder` | `backend/app/sync/planner.py:450-545` | The songs of a slice stand in setlist order in the final agenda, whatever the other placements do. |
| `Setlist.OriginalsKeepOrder` | `backend/app/sync/planner.py:548-604` | Original items that the plan does not delete keep their relative order. |
| `Setlist.OthersAreUntouched` | `backend/app/sync/planner.py:476-604` | An item that the plan neither replaces nor deletes is in the final agenda exactly as it was. |
| `Setlist.FinalHoldsExactly` | `backend/app/sync/planner.py:393-604` | The final agenda has distinct ids and holds exactly the inserted items and the original items that were not deleted. |
| `TwoPlacements.OrderOfPlacements` | `backend/app/sync/planner.py:451-545` | Two placements that insert at the same position, where no song stands: their songs come out in the order of the placements if and only if the position is before an item; at the end of the agenda the later placement stands first. |
| `TwoPlacements.BothAtEnd` | `backend/app/sync/planner.py:458-545` | At the end of the agenda every song of the later placement stands before the first song of the earlier one. |
| `PlanTheorems.PlanIsRealized` | `backend/app/sync/planner.py:382-604` | Performing any plan never gets stuck, and leaves the agenda and the resources that the reference description gives. |
| `LayoutProofs.PerformAllIsLaid` | `backend/app/sync/testing.py:104-161` | Performing a well-formed action list, write after write, equals the per-item description: inserts before, the item or its replacement, chains after (newest first), tail. |
| `PlanTheorems.PlansAreWellPlanned` | `backend/app/sync/planner.py:519-545` | Every action of every plan refers only to items and keys that exist when it is its turn: neighbours not deleted before, `after_item_key` the key of the insert directly before. |
| `PlanTheorems.TargetsAreDistinct` | `backend/app/sync/planner.py:486-604` | No plan targets an existing item twice. |
| `PlanTheorems.TargetsAreNotForeign` | `backend/app/sync/planner.py:478-487` | No returned action targets an item that another profile owns. |
| `PlanTheorems.DeletesAreAuthorized` | `backend/app/sync/planner.py:548-599` | A DELETE is planned only for an item bound to the planning profile that is still in the agenda and still shows the bound song and arrangement. |
| `Deletions.DroppedIsDeletedExactly` | `backend/app/sync/planner.py:547-599` | The converse: a row of the planning profile whose key no placement wants and whose item no action claims is cleaned up, by a DELETE if and only if the item is in the agenda and still shows the song and arrangement of the row, else by giving the row up. |
| `Deletions.DeletesExactly` | `backend/app/sync/planner.py:547-599` | A plan deletes an item if and only if such a row is for it and the item still shows what the row recorded. |
| `Deletions.DroppedItemGoes` | `backend/app/sync/planner.py:547-604` | Such an item is absent from the final agenda if it still showed what the row recorded, and is in it exactly as it was if somebody has changed it. |
| `Deletions.DroppedRowGoes` | `backend/app/sync/engine.py:750-791` | After a run of the plan the profile has no row for such an item any more. |
| `Replan.ReplanIsIdle` | `backend/app/sync/planner.py:393-604` | Planning any list of placements again on what their run left (windows apart, anchors that match no songs), with the rows it bound and all songs known: one non-cleanup NOOP per song and nothing else, if and only if every placement is AFTER its anchor or places nothing. |
| `Replan.BeforeInsertsAgain` | `backend/app/sync/planner.py:450-456` | A concrete agenda on which a BEFORE placement inserts the same song a second time. |
| `Replan.SongAnchorStops` | `backend/app/sync/planner.py:405-444` | A concrete agenda on which an AFTER placement behind a song is refused the second time: its anchor also matches the song it placed. |
| `PlacementLoops.PlanPlacements` | `backend/app/sync/planner.py:382-604` | The placement and cleanup loops compute the fold of module Placements: same issues, same drafts with consecutive numbers, nothing at all after an error, and the factory moves on either way. |
| `PlacementLoops.PlanSongs` | `backend/app/sync/planner.py:450-545` | The song loop of one placement computes the fold over its slice (which songs that is: SongSlices.RangeIsSelection), stopping at a slot that another profile holds. |
| `PlacementLoops.PlanSong` | `backend/app/sync/planner.py:461-545` | The loop body does what one step of the fold does in its three branches: claim the slot, refuse it, insert. |
| `PlacementLoops.PlanCleanup` | `backend/app/sync/planner.py:547-600` | The cleanup loop computes the fold over the sorted ownership rows (what it must delete: Deletions.DroppedIsDeletedExactly; in which order: Notices.TidiesInOrder). |
| `PlacementLoops.AdvancePastReserved` | `backend/app/sync/planner.py:461-464` | The cursor ends at the first position from its start whose item no earlier slot has claimed, or at the end. |
| `SongSlices.RangeIsSelection` | `backend/app/sync/planner.py:402` | For bounds of any sign and size: the song indexes that a placement walks through are exactly the selected ones. A start b >= 0 leaves out the first b songs, a negative one keeps the last -b; an end b >= 0 keeps the first b, a negative one leaves out the last -b, an open one none. |
| `SongSlices.OneActionEach` | `backend/app/sync/planner.py:402-545` | For every selected song, and for no other, the placement makes one action, in setlist order. |
| `SongSlices.BlockShowsSelected` | `backend/app/sync/planner.py:393-545` | The block that a placement leaves in the final agenda shows exactly its selected songs, in setlist order (windows apart). |
| `SongSlices.LastSongs` | `backend/app/sync/planner.py:402` | A placement that starts at -k, with an open end, leaves a block with the last k songs of the setlist. |
| `SongSlices.AllButLast` | `backend/app/sync/planner.py:402` | A placement from 0 to -k leaves a block with all songs but the last k. |
| `SongSlices.SelectedAreShown` | `backend/app/sync/planner.py:393-545` | Any list of placements: every song that some placement selects is shown in the final agenda. |
| `Anchors.AnchorIsFirst` | `backend/app/sync/planner.py:405-449` | The anchor of a placement is the first item that satisfies all of the id, type and title conditions given (title compared normalized), at least one of them not empty. |
| `Anchors.BlockStandsAtAnchor` | `backend/app/sync/planner.py:446-456` | Where the block stands: directly before the anchor for BEFORE, in the place of or before it for AT, directly behind it for AFTER. |
| `Refusals.PlanIsRefusedExactly` | `backend/app/sync/planner.py:393-604` | Placements whose windows are apart are refused if and only if two of them select the same song, or an anchor describes no item, or several where the first may not be taken, or a slot is managed by another profile. |
| `ActionContents.SelectedIsSpelled` | `backend/app/sync/planner.py:461-545` | Every selected song has a planned action that names it: source key, placement, title, resource key, plan-time item list, the song keys it waits for, and whether the item is already the profile's own. |
| `Notices.ChangesAreToldExactly` | `backend/app/sync/planner.py:566-580` | A plan that is not refused warns of an item if and only if a row of the profile that is of no use any more is for it and somebody has changed it. |
| `Notices.ChoicesAreToldExactly` | `backend/app/sync/planner.py:418-445` | It warns of a placement if and only if its anchor describes several items, naming them in order and the first as the one taken. |
| `Notices.TidiesInOrder` | `backend/app/sync/planner.py:547-548` | Cleanup comes after all songs, in ascending order of placement, key and item. |
| `TargetProvider.ApplyAction` | `backend/app/sync/engine.py:638-693` | Dispatching an action of an event to the provider leaves exactly the agenda that performing the action means, with the provider's next id, or changes nothing; it succeeds wherever performing does and the provider does not refuse; one write is logged exactly if the action writes, resolves and is not refused. |
| `TargetProvider.Provider.InsertAgendaSong` | `backend/app/sync/testing.py:104-133` | An insert goes directly before or after the named item, or to the end, with an id that no item carries; a missing neighbour, arrangement or agenda changes nothing. |
| `TargetProvider.Provider.ReplaceAgendaSong` | `backend/app/sync/testing.py:135-156` | A replace changes exactly the named item in place, and succeeds exactly if item, arrangement and agenda exist. |
| `TargetProvider.Provider.DeleteAgendaItem` | `backend/app/sync/testing.py:158-161` | A delete removes every item with the id and nothing else; a missing item is no error. |
| `TargetProvider.IdsNeverRepeat` | `backend/app/sync/testing.py:181-183` | Two ids given at different counts differ. |
| `Decimals.DecimalIsRead` | `backend/app/sync/planner.py:463` | Numbers in keys are written in decimal without leading zeros: reading one back gives the number. |
| `Bindings.OneOwnerEach` | `backend/app/runtime.py:507-546` | After any history of verified actions of any profiles, an item has at most one ownership row. |
| `Bindings.RowsComeFromWrites` | `backend/app/sync/engine.py:750-791` | Every ownership row goes back to an INSERT or REPLACE that the same profile verified on that very item, if every already-owned NOOP was for an item that had a row of the profile at some earlier time. |
| `Bindings.RowsAreNotStolen` | `backend/app/runtime.py:507-583` | Binding and unbinding never change or remove a row of another profile. |
| `Bindings.BindingTable.Update` | `backend/app/sync/engine.py:750-791` | A verified INSERT, REPLACE or already-owned NOOP leaves a row with exactly the profile, item, key, placement, song and arrangement it was verified with; a cleanup removes exactly the profile's row of the item; an item of another profile is refused, with no change. |
| `Authority.RowsAreEarned` | `backend/app/sync/engine.py:750-791` | For every history of runs, each planned on the rows of some earlier time: every ownership row is for an item on which its profile verified an INSERT or REPLACE. |
| `Authority.DeletesAreEarned` | `backend/app/sync/planner.py:548-599` | After any history of runs, whatever is planned next deletes only items on which the same profile verified an INSERT or REPLACE, and which still show the song and arrangement of its row. |
| `Authority.NoopsAreTrue` | `backend/app/sync/planner.py:478-516` | Every planned NOOP that says the item is already owned is for an item with a row of the planning profile. |
| `Reconcile.InsertIsRecognized` | `backend/app/sync/engine.py:974-1037` | Directly after an INSERT was committed, reconciliation returns exactly its new item if and only if the insert names a neighbour or the agenda was empty. |
| `Reconcile.ReplaceIsRecognized` | `backend/app/sync/engine.py:974-1037` | Directly after a REPLACE was committed, reconciliation returns exactly the replaced item. |
| `Reconcile.DeleteIsRecognized` | `backend/app/sync/engine.py:974-1037` | Directly after a DELETE was committed, reconciliation returns exactly the deleted item. |
| `Reconcile.RecognizedInsert` | `backend/app/sync/engine.py:974-1037` | On any agenda: an item adopted for an INSERT was not in the plan-time list, shows the wanted song and arrangement, and stands directly beside the named neighbour on the right side. |
| `Reconcile.RecognizedReplace` | `backend/app/sync/engine.py:974-1037` | On any agenda: a REPLACE is adopted only on its own item, and only if that shows the wanted song and arrangement. |
| `Reconcile.RulesAgree` | `backend/app/providers/churchtools.py:551-603` | The provider's position rule picks the same item as the engine's, and additionally wants to have seen the neighbour, or an empty agenda, before the call. |
| `Reconcile.InsertPositionMatches` | `backend/app/providers/churchtools.py:205-245` | The provider recognizes its own committed insert if and only if a neighbour was named or the agenda was empty. |
| `ExecutorWrites.WritesAreBounded` | `backend/app/sync/engine.py:402-616` | For every interleaving of steps, deaths, restarts and foreign edits: the provider calls for an action number at most one more than the workers that died between such a call and its row. |
| `ExecutorWrites.NoCallAfterPlanned` | `backend/app/sync/engine.py:579-597` | Once the row of an action has left PLANNED, its provider call is never made again, by any later worker. |
| `ExecutorWrites.CallsNeedPlanned` | `backend/app/runtime.py:442-451` | A step changes the call counter of an action only while its row is PLANNED, and then by one. |
| `ExecutorWrites.LeavesPlannedForGood` | `backend/app/runtime.py:460-498` | A row never returns to PLANNED, and a VERIFIED, FAILED or SKIPPED row never changes. |
| `ExecutorExact.VerifiedMeansCarriedOut` | `backend/app/sync/engine.py:402-616` | Without foreign edits, and with deaths in the window of a first write only: when all rows are VERIFIED, after any number of deaths and restarts, the agenda is the one that performing every action once, in order, leaves, with exactly one commit per write and ids that are new and distinct. |
| `ExecutorFirst.FirstWriteOnce` | `backend/app/sync/engine.py:402-616` | In every run without foreign edits, with any deaths, restarts, lost leases, failures and cancellations: the first write of an event is committed at most once. |
| `ExecutorOrphan.OrphanIsRepeated` | `backend/app/sync/engine.py:454-532` | From every run that leaves a committed write behind unrecorded, with the rows before it verified: some continuation without foreign edits commits it again if and only if the event has an earlier action besides cleanup NOOPs; then already the next worker does, after re-verifying the earlier rows without any trouble. |
| `ExecutorOrphan.FirstOrphanIsRecognized` | `backend/app/sync/engine.py:483-532` | If it has none, the next worker finds the write in the agenda, takes it over with its own id, and calls nobody. |
| `ExecutorExample.WrittenTwice` | `backend/app/sync/engine.py:454-482` | A concrete run of two worker lives, without foreign edits, that inserts the same song twice. |
| `ExecutorExample.SucceedsWithFailedRow` | `backend/app/sync/engine.py:485-515` | A concrete run without foreign edits that ends as a success while its only row is FAILED: the provider committed but raised, and the next worker found the effect. |
| `ExecutorBindings.SuccessBindsAll` | `backend/app/sync/engine.py:562-616` | An event that succeeds, in whatever run, has had the ownership rows of all its actions written, last of all and in plan order, even if a worker died between an action row and its ownership row. |
| `ExecutorGuard.CallNeedsKnownAgenda` | `backend/app/sync/engine.py:483-532` | In any run, with any foreign edits: a worker goes on to the provider call of a mutating action only if the agenda at that step is the planned one or the one it read back when it last verified an action, the row is PLANNED, nothing is wrong with leases, and every dependency is produced. |
| `ExecutorGuard.OvertakenStops` | `backend/app/sync/engine.py:483-532` | If the agenda is another one, that step writes nothing: either the effect of the action is found in it and the row becomes APPLIED, or the row becomes FAILED and the worker gives the event up. |
| `ExecutorGuard.OvertakenWorkerWritesNothing` | `backend/app/sync/engine.py:483-532` | If the effect is not found, calls and commits do not grow for as long as that worker lives, for no action of the event. |
| `ExecutorGuard.OvertakenIsNeverWritten` | `backend/app/sync/engine.py:483-532` | The action itself is never called for and never committed again, by no later worker either. |
| `ExecutorGuard.LastReadIs` | `backend/app/sync/engine.py:416-557` | The agenda read back last is the planned one, or the agenda at a step at which an action was read back. |
| `ExecutorGuard.TroubledWorkerWritesNothing` | `backend/app/sync/engine.py:417-437` | A worker that is told of a cancellation or a lost lease, other than in the middle of a provider call, calls and commits nothing any more; no row becomes APPLIED or VERIFIED at that step. |
| `ExecutorGuard.GivingUpIsRecorded` | `backend/app/sync/engine.py:417-466` | How a worker that gives up says so: FAILED for a lost lease or a changed agenda, SKIPPED for a missing dependency, nothing for a cancellation; no other row changes. |
| `ExecutorGuard.VerifiedIsShown` | `backend/app/sync/engine.py:695-748` | What VERIFIED means, with any foreign edits: a step verifies an action if and only if the agenda at that step shows its song in the recorded item (or lacks the deleted item) and nothing is wrong with leases. |
| `ExecutorShape.FreshRowsAreStairs` | `backend/app/sync/engine.py:416-561` | A fresh, uninterrupted execution leaves VERIFIED rows only if it reports success, else VERIFIED* FAILED SKIPPED* or VERIFIED* SKIPPED*; canceled, such a prefix before PLANNED rows; nothing after the first row that is not VERIFIED was called. |
| `ExecutorLoops.Execution.ApplyEvent` | `backend/app/sync/engine.py:391-561` | The event loop, with rows, agenda and memory changed in place, ends exactly where the run of the step machine ends; on success the row of an action is VERIFIED if and only if no earlier worker had given it up, and rows given up stay as they were. |
| `ExecutorLoops.Execution.TakeTurn` | `backend/app/sync/engine.py:416-557` | One turn of the loop follows the machine through all its branches: canceled, lease lost, dependency missing, re-verified, changed agenda, resumed, executed, given up (what the machine may do when the agenda has changed: ExecutorGuard.CallNeedsKnownAgenda). |
| `ExecutorLoops.Execution.CallProvider` | `backend/app/sync/engine.py:591-603` | The provider call and its record: the row becomes APPLIED with the answer, or the action fails. |
| `ExecutorLoops.Execution.VerifyAndClose` | `backend/app/sync/engine.py:604-616` | Reading back, recording VERIFIED and adopting resources and agenda; a lost lease in between fails the action. |
| `ExecutorLoops.Execution.SkipRemaining` | `backend/app/sync/engine.py:793-809` | All later rows are skipped as far as their state allows, and the event has failed. |
| `EndToEnd.EventIsValid` | `backend/app/sync/planner.py:519-545` | Every planned event meets the executor's demands: a chained insert waits for the key it is chained to. |
| `EndToEnd.PlannedIsWellStarted` | `backend/app/sync/planner.py:457-545` | The first write of every planned event names a neighbour or goes into an empty agenda, and changes the agenda, so it can be recognized after a crash. |
| `EndToEnd.PlannedFirstWriteIsOnce` | `backend/app/sync/engine.py:391-616` | The first write of every planned event is committed at most once, in every run without foreign edits. |
| `EndToEnd.CarriedOutIsPromised` | `backend/app/sync/engine.py:391-561` | From plan to agenda: once all rows of a planned event are VERIFIED (see ExecutorExact.VerifiedMeansCarriedOut), the agenda is the final agenda of the setlist theorems, for the ids the provider gave. |
| `Verdict.ApplyEvents` | `backend/app/sync/engine.py:330-389` | The counting loop ends with the verdict that the ends of the events justify: SUCCEEDED only if every READY event succeeded and no event was AMBIGUOUS or FAILED, CANCELED exactly if a cancellation met a READY event. |
| `RunVerdict.RunEvents` | `backend/app/sync/engine.py:330-389` | Given the executions of its events, the loop ends as SUCCEEDED only if every row of every READY event is VERIFIED. |
| `RunVerdict.SucceededMeansVerified` | `backend/app/sync/engine.py:330-561` | A fresh run is justified as SUCCEEDED only if it has a READY event, every READY event was executed with all rows VERIFIED, and no event was AMBIGUOUS or FAILED. |
| `Verdict.VerdictIsUnique` | `backend/app/sync/engine.py:374-389` | For a run that was not canceled at most one verdict is justified. |
| `Verdict.DryRunForetells` | `backend/app/sync/engine.py:950-959` | If every READY event succeeds, the verdict of the run is the one its dry run announced. |
| `RunLease.AlwaysCoherent` | `backend/app/runtime.py:99-236` | In every reachable state a run is RUNNING if and only if it has an owner, and if and only if it has an expiry. |
| `RunLease.EndsForGood` | `backend/app/runtime.py:605-629` | A run that has ended never changes again, whatever transactions follow. |
| `RunLease.PlansForGood` | `backend/app/runtime.py:373-411` | A stored plan never changes, whatever transactions follow. |
| `RunLease.NeverPassesAgain` | `backend/app/runtime.py:1038-1059` | A token that has once failed the fence never passes it again, unless it claims anew. |
| `RunLease.MutationsFormBlocks` | `backend/app/runtime.py:213-236` | Fenced mutations form one contiguous block per owner: between two of one owner no other owner passes. |
| `RunLease.DeliveriesAreSpaced` | `backend/app/runtime.py:701-751` | Two deliveries of a run are at least the redelivery interval apart, unless the second takes it back from an expired execution. |
| `RunLease.LateAcknowledgementBreaksSpacing` | `backend/app/runtime.py:646-659` | Acknowledging a dispatch keeps the spacing if and only if the acknowledged time is not before the marker (or the interval is zero). |
| `RunLease.SyncRun.Take` | `backend/app/runtime.py:99-211` | The claim in place: granted if and only if the run is queued, or running with an expired lease, and workspace and profile allow it; a live lease stays untouched; a grant sets owner and expiry and keeps the plan. |
| `RunLease.SyncRun.RenewLease` | `backend/app/runtime.py:220-236` | Renewal moves the expiry exactly if the token passes the fence, and changes nothing else. |
| `RunLease.SyncRun.StorePlan` | `backend/app/runtime.py:373-411` | A plan is stored once; the same plan again is accepted, another one refused, and nothing happens outside the fence. |
| `RunLease.SyncRun.Complete` | `backend/app/runtime.py:605-629` | Finishing is fenced, and clears owner and expiry. |
| `RunLease.SyncRun.TakeBack` | `backend/app/runtime.py:742-750` | Exactly a queued run after the interval, or a running one past its expiry, is queued for delivery, without owner and with its plan. |
| `RunClaims.LiveLeaseExcludes` | `backend/app/runtime.py:134-211` | While a worker holds a live lease, and over every history in which it neither finishes nor shortens it and the workspace stays open: up to its expiry no other token passes the fence, the worker itself always does, and a claim under any token changes nothing and is not granted. |
| `RunClaims.GrantExcludes` | `backend/app/runtime.py:134-211` | The same from a granted claim on, for the time it was granted for. |
| `RunClaims.ClaimIsGrantedExactly` | `backend/app/runtime.py:99-211` | A claim is granted if and only if the run is active, nobody passes its fence, its lease does not end at this instant, and workspace and profile allow it; the plan stays. |
| `RunClaims.RefusalEnds` | `backend/app/runtime.py:99-211` | A refused claim changes the run exactly where it ends it: canceled in an archived workspace, else failed or skipped as the profile says, and only where nobody executes it. |
| `RunClaims.LeaseLasts` | `backend/app/runtime.py:213-236` | A lease lasts exactly as long as it was granted or renewed for; a renewal outside the fence changes nothing. |
| `RunClaims.DeadWorkerIsReplaced` | `backend/app/runtime.py:134-211` | Over every history: once nobody passes the fence of an active run, a claim that workspace and profile allow is granted. |
| `Lifecycle.Workspace.StartRun` | `backend/app/routers/runs.py:214-329` | A manual run is queued if and only if the workspace is active, the profile exists and has no active run, and the run is a dry one or the cooldown since every counting manual run is over; each refusal names its reason and changes nothing; one active run per profile is kept. |
| `Lifecycle.Workspace.CancelRun` | `backend/app/routers/runs.py:353-382` | Canceling succeeds exactly for a queued run, and changes only it. |
| `Lifecycle.Workspace.Archive` | `backend/app/routers/workspaces.py:178-236` | Archiving is refused exactly while a run is executing; else it cancels all queued runs and disables all profiles, so that an archived workspace has no active run and no enabled profile. |
| `Lifecycle.Workspace.CreateProfile` | `backend/app/routers/profiles.py:193-230` | A profile is created exactly within the quota and not enabled in an archived workspace. |
| `Lifecycle.Workspace.UpdateProfile` | `backend/app/routers/profiles.py:245-362` | An update goes through if and only if the profile exists, is not enabled in an archived workspace, and changes connections only without active run and bindings; it raises the revision by one, sets schedule and connections as asked and touches no other profile. |
| `Lifecycle.Workspace.ClaimRun` | `backend/app/runtime.py:99-211` | A claim under the workspace lock is granted if and only if nobody passes the fence of the active run and workspace and profile allow it; a live lease stays; only that record changes. |
| `Lifecycle.Workspace.Redeliver` | `backend/app/runtime.py:705-751` | Exactly the runs that are due again, in order and up to the limit, are delivered; all others stay. |
| `Lifecycle.Workspace.CreateRuns` | `backend/app/runtime.py:752-835` | New runs are for due profiles without active run, at most one each and at most the limit: queued with the next time set, or failed and looked at a day later where the schedule is broken; the result counts the queued ones; below the limit every due profile was served; no other profile changes. |
| `Lifecycle.Workspace.CreateDueRuns` | `backend/app/runtime.py:701-835` | One batch stays within its limit, delivers only what is due, creates runs only for due profiles as said of CreateRuns and counts the queued ones, serves every due profile if below the limit, does nothing in an archived workspace, and keeps at most one active run per profile. |
| `Lifecycle.Workspace.FinishRun` | `backend/app/runtime.py:605-629` | Finishing changes one record as the run machine says and keeps the workspace invariant. |
| `Lifecycle.StillOneActive` | `backend/app/routers/runs.py:247-262` | Replacing a run by one that is active only if it was active keeps at most one active run per profile. |
| `EventLease.HoldersExclude` | `backend/app/sync/leases.py:44-75` | For every history of requests: after an owner got or renewed a lease, nobody else gets or renews it before that owner released it or its last renewal ran out. |
| `EventLease.LostUntilAcquired` | `backend/app/sync/leases.py:14-28` | A token that failed to renew or release succeeds again only after acquiring the lease anew. |
| `EventLease.KeysAreApart` | `backend/app/sync/leases.py:77-79` | For connection ids without the separator, two events share a lease key only if connection and event are the same. |
| `EventLease.EventLeases.TryAcquire` | `backend/app/sync/leases.py:44-52` | Acquiring succeeds exactly if nobody holds the key, and sets owner and expiry of that key only. |
| `EventLease.EventLeases.TryRenew` | `backend/app/sync/leases.py:63-75` | Renewing succeeds exactly for the current holder, and moves the expiry. |
| `EventLease.EventLeases.TryRelease` | `backend/app/sync/leases.py:54-61` | Releasing removes the caller's own live lease only; leases of other owners stay. |
| `Outbox.AlwaysSound` | `backend/app/outbox.py:632-743` | For every interleaving of claims, renewals, reports and deaths: PROCESSING exactly with a claim token, FAILED only with attempts left, attempts at most the maximum plus the takeovers, attempts equal to claims. |
| `Outbox.EndsWithinMaximum` | `backend/app/outbox.py:873-903` | Without takeovers an item is claimed at most max-attempts times, and the report on the last one ends it. |
| `Outbox.EndIsFinal` | `backend/app/outbox.py:632-668` | DELIVERED and DEAD items never change. |
| `Outbox.LostForGood` | `backend/app/outbox.py:845-871` | A token that does not hold an item never holds it later, and a late renewal or report under it changes nothing; claims bring their own tokens. |
| `Outbox.DelayIsBounded` | `backend/app/outbox.py:894-901` | For every item and attempt count the delay is at least the base, at most a quarter more, at least 15 and at most 27000 seconds. |
| `Outbox.DelayGrows` | `backend/app/outbox.py:894-901` | For a fixed item the delay never shrinks from one attempt to the next, including the step onto the cap. |
| `OutboxClaims.LiveClaimExcludes` | `backend/app/outbox.py:632-668` | From a claim on, up to the end of its lease, no other claim of the item is granted, whatever others claim, renew or report. |
| `OutboxClaims.RenewedClaimExcludes` | `backend/app/outbox.py:845-871` | A renewal by the holder, and by nobody else, starts that time anew. |
| `OutboxClaims.ClaimIsGrantedExactly` | `backend/app/outbox.py:632-668` | A claim is granted if and only if the item is pending, failed or processing and its time has come; it counts the attempt and holds for the lease. |
| `OutboxClaims.FailureExactly` | `backend/app/outbox.py:873-903` | A reported failure ends the item exactly if it is permanent or the attempts are used up, and else sets it back by its delay. |
| `OutboxClaims.BackoffIsKept` | `backend/app/outbox.py:632-668` | Before its backoff is over a failed item is not claimed, in any history. |
| `OutboxClaims.BaseDoubles` | `backend/app/outbox.py:894-901` | The base of the backoff is 15 seconds at first and doubles with every attempt, up to six hours. |
| `OutboxClaims.JitterSpreads` | `backend/app/outbox.py:894-901` | The jitter takes every number of seconds up to a quarter of the base, by the number of the item. |
| `Outbox.Consumer.ClaimOne` | `backend/app/outbox.py:632-668` | The due item with the earliest next attempt is claimed, or none is due; nothing else changes. |
| `Outbox.Consumer.Report` | `backend/app/outbox.py:721-743` | A report changes the item exactly if its token still holds it, to delivered, waiting or dead. |
| `Outbox.Consumer.ProcessBatch` | `backend/app/outbox.py:609-630` | At a fixed time a batch claims pairwise distinct due items within its bound, handles each exactly once and no other, counts claimed = delivered + retried + dead with the true numbers, and stops early only if nothing is due. |
| `Outbox.ProcessedEnds` | `backend/app/outbox.py:873-903` | A claimed and reported item is not due any more: delivered, dead exactly on a permanent refusal or the last attempt, else waiting for its backoff. |
| `SongMatching.SongIndex.constructor` | `backend/app/sync/matching.py:53-65` | The buckets of the index hold, for every CCLI number and every pair of name and author, exactly the songs a scan finds, in catalogue order. |
| `SongMatching.SongIndex.Match` | `backend/app/sync/matching.py:67-92` | The indexed lookup returns what a scan of the whole catalogue returns. |
| `SongMatching.ScanIgnoresOrder` | `backend/app/sync/matching.py:67-92` | The result does not depend on the order of the catalogue. |
| `SongMatching.FoundIsCompatible` | `backend/app/sync/matching.py:67-92` | A song found is in the catalogue, never has a different non-empty CCLI number, and agrees in what the strategy compares. |
| `SongMatching.CcliDecides` | `backend/app/sync/matching.py:67-76` | A single song with the source's CCLI number is found, whatever its name. |
| `SongMatching.ScanFindsExactly` | `backend/app/sync/matching.py:67-92` | If some song has the source's CCLI number, the songs with it decide; otherwise those with its name and author and no conflicting number do: exactly one is found, several are ambiguous, none is no match. |
| `EventMatching.MatchEvents` | `backend/app/sync/matching.py:95-187` | Index, selector loop and withdrawal compute the plain specification: scan all targets for each source event, then withdraw targets claimed twice. |
| `EventMatching.JudgeOne` | `backend/app/sync/matching.py:112-161` | One source event gets the verdict of a scan over all targets, in whatever order the index yields the candidates. |
| `EventMatching.CandidateIsTarget` | `backend/app/sync/matching.py:222-262` | The candidates of a source event are exactly the target events at its time that a selector wants. |
| `EventMatching.ReadyExactly` | `backend/app/sync/matching.py:95-187` | A source event is READY if and only if all selectors are valid, no regular expression times out on it, it has exactly one candidate, and no other source event that could be judged has that as its only one. |
| `MatchReasons.StatusExactly` | `backend/app/sync/matching.py:95-187` | Every result says truly why: FAILED exactly for an invalid selector or a timeout at a target event of the right time, SKIPPED exactly without candidates, AMBIGUOUS with the candidates in order of time and id or with the target it lost, READY with its sole candidate. |
| `MatchReasons.SourcesInOrder` | `backend/app/sync/matching.py:282-283` | The results come in order of the earliest start, and of the id where those are equal. |
| `EventMatching.WantedExactly` | `backend/app/sync/matching.py:112-161` | A target event is wanted if and only if there are no selectors, or the first one that does not decline it selects it. |
| `EventMatching.SelectsExactly` | `backend/app/sync/matching.py:190-204` | A selector selects an event if and only if campus, calendar, regular expression and contained text, as far as given, all match. |
| `EventMatching.TimeMatchesExactly` | `backend/app/sync/matching.py:222-245` | Events match in time if and only if a start of the source is the target's instant, or on the target's local day, as the profile asks. |
| `EventMatching.ReadyTargetsDiffer` | `backend/app/sync/matching.py:163-187` | READY events have pairwise distinct targets. |
| `EventMatching.OneResultEach` | `backend/app/sync/matching.py:112-114` | There is exactly one result per source event with songs, for the events in the order of start and id. |
| `EventMatching.SourcesAreEvents` | `backend/app/sync/matching.py:282-283` | Sorting and filtering the source events loses and invents none. |
| `Assembly.MakePlan` | `backend/app/sync/planner.py:115-158` | From the marked matches on, the planner's loops compute the plan specification for the required songs in ascending order (there is only one such order), with one numbering over preparation and events. |
| `RunPlanning.PlanRun` | `backend/app/sync/engine.py:102-163` | Matching, leaving out unchanged events, matching again and planning: one plan per source event with songs, in order; an event with an equal checkpoint is skipped, and every other one gets the plan it would get by itself, apart from the numbers; without checkpoint, or in the mode that does not follow source changes only, nothing is skipped. |
| `RunPlanning.SkippedIsCovered` | `backend/app/sync/engine.py:144-155` | An event that is left out as unchanged has exactly the plan it had when its checkpoint was recorded, from whatever profile settings and catalogue that was. |
| `RunPlanning.UnchangedKeys` | `backend/app/sync/engine.py:118-155` | The comprehension finds exactly the matched events whose checkpoint is the one they would get now, in the mode that follows source changes only. |
| `Assembly.PlanSongResources` | `backend/app/sync/planner.py:160-259` | The song loop settles every required song: an issue if it has no source entry or several, an ambiguous target or none that may be created; the target song with its first default arrangement, or else one with the least id; or the keys of exactly one preparation action, where song or arrangement is missing. |
| `Assembly.PlanEvent` | `backend/app/sync/planner.py:274-380` | One event gets the plan of the specification, and uses up the numbers of all its drafts even where they are discarded. |
| `Assembly.DecideSong` | `backend/app/sync/planner.py:184-259` | The branches of the song loop decide as the specification says (what that means: Assembly.SongIsSettled). |
| `Assembly.SongIsSettled` | `backend/app/sync/planner.py:184-259` | Told without the planner's functions: each required song has the issue, the song and arrangement, or the preparation it must have; the arrangement is the first default one, else one whose id is least, and is created if and only if the song has none. |
| `AssemblyTheorems.StatusExactly` | `backend/app/sync/planner.py:274-380` | What becomes of a matched event: AMBIGUOUS exactly if one of its songs is, SKIPPED exactly without agenda, READY exactly if all songs are settled and the placements succeed, else FAILED; its actions are those planned for this profile, agenda and rows, and its issues those of its songs (each once, in order), of its placements, or the one thing missing. |
| `AssemblyTheorems.DependenciesAreMet` | `backend/app/sync/planner.py:119-158` | Every dependency of an action in a READY event is made by a kept preparation action or an earlier action of the same event, despite both filters. |
| `AssemblyTheorems.PreparationIsNeeded` | `backend/app/sync/planner.py:139-150` | Every kept preparation action makes a key that an action of a READY event waits for. |
| `AssemblyTheorems.NumbersIncrease` | `backend/app/sync/planner.py:54-77` | In the order of execution the numbers of all kept actions increase strictly. |
| `Fingerprints.CheckpointCoversPlan` | `backend/app/sync/fingerprints.py:13-60` | If both pre-images are equal, the plan of a matched event is equal for the same target side (status, issues, actions and their numbers), and so are the settings that events are matched with. |
| `Fingerprints.UnchangedMeansSamePlan` | `backend/app/sync/fingerprints.py:13-35` | An equal image of the source event means an equal plan of the event, whatever else changed in the source catalogue. |
| `Fingerprints.NeedsAreAlike` | `backend/app/sync/planner.py:186-259` | An equal image of a song means an equal need; only raw name, author and CCLI number of a song to create may differ. |
| `Fingerprints.SourcePreimage` | `backend/app/sync/fingerprints.py:13-35` | The loops compute, for each song of the event in order, the sorted metadata of all catalogue entries with its id. |
| `Fingerprints.ImageIgnoresOrder` | `backend/app/sync/fingerprints.py:22-34` | The image does not depend on the order of the catalogue. |
| `Fingerprints.ImageIgnoresOthers` | `backend/app/sync/fingerprints.py:22-34` | The image does not depend on songs the event does not use. |
| `Fingerprints.ImageReadsNormalized` | `backend/app/sync/fingerprints.py:13-35` | The image depends on normalized names, authors and CCLI numbers only. |
| `Serialization.PlanRoundTrip` | `backend/app/sync/serialization.py:20-111` | Reading a plan's dictionary gives the plan back, for every plan. |
| `Serialization.LegacyKeepsFingerprint` | `backend/app/sync/models.py:272-295` | A document without the absent optional keys is read as a plan whose fingerprint pre-image is that document. |
| `Serialization.FingerprintDeterminesPlan` | `backend/app/sync/models.py:272-292` | Equal fingerprint pre-images mean equal plans. |
| `Serialization.LegacyLacksKeys` | `backend/app/sync/models.py:275-290` | Where all six optional values are absent, exactly their keys are missing from the pre-image. |
| `Serialization.EventKeys` | `backend/app/sync/serialization.py:20-111` | The keys of an event in a plan document are exactly those of the format. |
| `Serialization.Trim` | `backend/app/sync/models.py:275-290` | The loop removes exactly the optional keys with absent values. |
| `Pagination.GetAllByOffset` | `backend/app/providers/worshiptools.py:218-283` | Against any server: it succeeds if and only if some number of answers, at most 500, each asked for at the offset collected so far, are usable (a list of objects, no longer than asked for, within the total it announces and every limit) and complete what the last one announces; then it returns exactly those. From a server that serves a list in full pages: the list. |
| `Pagination.GetAllByPage` | `backend/app/providers/churchtools.py:342-425` | Against any server, even one that moves its last page: it succeeds if and only if the pages, at most 500, all usable and pairwise different, lead on to one that is the last; then it returns them in order. From an honest server: all its pages. |
| `Http.GuardIsNumeric` | `backend/app/providers/http.py:190-211` | For digit strings of any length the textual comparison rejects exactly the numbers above 8 MiB (Content-Length, section 8.6 of RFC 9110). |
| `Http.ReadBoundedBody` | `backend/app/providers/http.py:187-233` | A body is accepted exactly if announced and real length are within the limit and agree; what is returned is all that was sent; an invalid announcement and a body that is too large are told apart. |
| `Http.RequestJson` | `backend/app/providers/http.py:47-184` | A write is sent exactly once, any call at most `attempts` times; the outcome is the decision on the last reply, no earlier reply was decisive; it sleeps exactly the pauses that the replies and the policy give, at most (attempts - 1) * max_delay. |
| `Http.RetriesExactly` | `backend/app/providers/http.py:47-184` | A request is repeated if and only if attempts are left and nothing can have been changed twice: without an answer if it is no write; after 429 or a server error if it only reads, and after 429 only if the server does not ask for longer than the maximum. |
| `Http.AnsweredExactly` | `backend/app/providers/http.py:47-184` | A call is answered if and only if the server reports success and the body is what it has to be. |
| `Http.IndeterminateExactly` | `backend/app/providers/http.py:47-184` | A write ends as indeterminate exactly where it may have been carried out without a usable result. |
| `Http.BackoffDoubles` | `backend/app/providers/http.py:264-266` | The pause before jitter doubles from one attempt to the next, up to the maximum. |

## Left out

- Transport, SQL, Redis, the message queue, threads and timers: each transaction, script or
  provider call is one atomic step, at a time that is a parameter.
- A worker that passes its last lease check and writes only after the lease expired: workers
  die, they do not come back.
- ExecutorExact.VerifiedMeansCarriedOut: assumes that nobody else edits the agenda and that
  workers die in the window of a first write only, because the code does write twice
  otherwise (ExecutorOrphan.OrphanIsRepeated).
- Replan.ReplanIsIdle: for placements whose windows are apart and whose anchors match no song
  before and after the run; which song another anchor would match depends on what was
  placed (Replan.SongAnchorStops), and windows that overlap are treated for two placements
  only (TwoPlacements.OrderOfPlacements).
- Refusals.PlanIsRefusedExactly: for placements whose windows are apart; where they overlap, a
  slot that one placement has claimed is passed over by the next, and the slots that may
  refuse it move on.
- Slices.SlicesAreWoven: for placements that claim no item twice and insert at different
  places; the order at a shared place is TwoPlacements.OrderOfPlacements.
- RunLease.DeliveriesAreSpaced: assumes acknowledgements that do not carry an earlier time
  than the marker; without that it is false (RunLease.LateAcknowledgementBreaksSpacing).
- EventLease.EventLeases.TryAcquire: a time to live of zero, which Redis refuses, is not modelled.
- Serialization.PlanRoundTrip: JSON numbers are integers; floating-point payload values are not modelled.
- The in-memory repository and lease manager of `sync/testing.py`: simplified forms of the SQL
  and Redis ones.
- TargetProvider.ApplyAction: actions of an event only; creating songs and arrangements is left out.
- Recording the checkpoint of an event after success, and the choice of events by the
  look-ahead window; a checkpoint is an input of the next planning.
- Preparation actions in the executor: they create songs before the events run and are
  modelled in the plan only; an event starts with the resources they produced.
- The action id (a hash of run, kind and key); actions are told apart by their place.
- Storing, loading and authorizing connections; members, invitations and roles.
- Notification texts, fan-out, preferences and subscriptions; retention.
- Cron expressions: the next time of a schedule is a parameter.
- The web front end, sessions, passwords, two-factor codes, key rotation, rate limits.
- Presentation of run results.
