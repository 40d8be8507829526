# HARTOS core, modelled in Dafny

A model of the state machines in HARTOS's `core/` package, with proofs of what their comments and tests
promise: the game-sound memo and the calls that compose into it, the tool-schema menu of an agent pair,
the foreground gate and its marker file, the retirement and recovery of flow recipes, the circuit breakers
and the peers' backoff, one person's memory laid over an agent's, the file cache, the lazy-module re-entry
guard, and the throttle on error reports.

`dafny verify dfyconfig.toml` checks everything.

## How it is laid out

Where the code updates something in place, a class or a method does the same here (`Memo`, `Seat` and
`AgentPair`, `ForegroundGate`, `FlowFiles`, `PromptsDir`, `Circuit`, `KeyedCircuit`, `PeerBackoff`,
`AgentData`, `FileCache`, `Guard`, `Throttle`), and each of its methods is proved against a function that
says what the new state is. The laws are then proved of those functions. Where several threads, calls or
processes interleave, the steps are a transition system (`Next`, `Run`, `After`), and the theorems are
about every run of it.

| file | about |
|---|---|
| `GameSoundMemo.dfy`, `GameSoundLaws.dfy` | the memo of a game's sounds: the lookup ladder, the setters, the verdicts, and what each carries forward |
| `BindProtocol.dfy` | any number of `bind_game_sound` calls and verdicts, interleaved, with a composer that answers as it likes |
| `BindProofs.dfy` | what a step writes, and the invariant of every reachable world |
| `BindTheorems.dfy`, `BindOutcomes.dfy` | the promises over every run, and what comes of a call nobody interrupts |
| `BindRuns.dfy` | two runs from an empty memo that end as a reader would not expect |
| `ToolMenu.dfy`, `ToolMenuLaws.dfy` | deferring schemas and fitting a schema block to the room |
| `FitOrder.dfy` | which entries a fit considers first, told by who they are and where they stand |
| `AttachLaws.dfy`, `AgentSeats.dfy` | attaching and discovering tools; the live pair |
| `Foreground.dfy` | the gate's counter, the marker file, and any number of threads |
| `RecipeOptimizer.dfy`, `RecipeReconcile.dfy` | retiring a recipe and keeping or restoring it; writing the recipes never saved |
| `ReconcileRace.dfy` | the reconciler's sweep among the other writers of a flow's files |
| `CircuitBreaker.dfy` | a breaker, one per key, and the capped doubling backoff |
| `MemoryOverlay.dfy` | the overlay, saves and reads at dotted paths, and who sees what |
| `FileCache.dfy` | loads, saves and other writers around the cache |
| `ReentryGuard.dfy` | guarded and unguarded attribute lookup |
| `ErrorThrottle.dfy` | the throttle and the history it forgets |

## What the proofs found

These are places where the code, read literally, does less than its comments say. Each is a lemma with a
concrete run or an exact condition; the code is modelled as it is.

- A keep at a game's key ends the compositions at its level keys only while they read as composing. A level's
  submit note past its 600 s cooldown is left, so its late answer can be bound there once the kept take is
  turned down (`BindRuns.ALapsedSubmitOutlivesAKeep`; `BindTheorems.WhatAKeepLeaves` says exactly what a
  keep leaves).
- A call whose task failed forgets whatever composition its key holds by then. When two calls poll one task and
  both see it fail, the second can forget the submit a third has sent since, and a fourth submits again seconds
  later (`BindRuns.AFailedPollEndsAnothersSubmit`). It happens exactly when the key holds a composition that is
  not the failed task (`BindOutcomes.FailedPollEndsAnothers`); `BindTheorems.SubmitsAreSeparated` names it as
  the one way a submit is followed by another inside the cooldown though no step of its own ended it.
- The sweep that recovers flow recipes checks for a live recipe and for a backup before it reads the action recipes,
  and puts its own in place after. A recipe that CREATE saves in between is overwritten
  (`ReconcileRace.ASweepOverwritesACreate`), a backup made in between is written beside
  (`ReconcileRace.ASweepWritesBesideABackup`), and only those (`ReconcileRace.ReplaceMeetsWhatLanded`).
- `discover_and_attach` does not report as ready a name that the proposing seat already showed before the
  request and that the fit then takes off the helper (`AttachLaws.AnAttachedToolIsMissed`, and exactly when in
  `AttachLaws.ReadyIsOnASeat`).
- A fit never takes `request_tools` off, so it can leave a block over the room
  (`ToolMenuLaws.TwoProtectedOverflow`). It spares all it protects and reaches the room exactly when those entries
  fit there on their own (`ToolMenuLaws.ProtectedFitExactly`).
- An exit that no enter answers to can hide a request in flight (`Foreground.AStrayExitHidesARequest`); the count is
  right throughout a run exactly when no such exit comes with it above zero (`Foreground.OnlyABiteFallsShort`).
- An accept that cannot remove the `.optbak` still removes its sidecar (`RecipeOptimizer.AcceptStrandsABackup`).
- A half-open probe whose caller never reports shuts the breaker for good
  (`CircuitBreaker.AnUnreportedProbeShutsForGood`); a later call gets through exactly when somebody has reported
  (`CircuitBreaker.OnlyAReportReopens`).
- The backoff delays are capped doublings exactly when the initial delay is at most the maximum
  (`CircuitBreaker.DelaysAreCappedDoublings`); pruning forgets how far a delay had grown
  (`CircuitBreaker.PruningChangesNoAnswer`).
- A save for everyone is not read back by someone whose own memory blocks its path
  (`MemoryOverlay.SharedSaveShowsUnderOwn`, `MemoryOverlay.AnOwnValueHidesASharedSave`).
- A writer that gets in between a cached save's replace and its stat is hidden from the next load
  (`FileCache.SaveMayHideAWrite`, `FileCache.AWriteBetweenIsHidden`).
- The throttle reads its clock before it takes its lock; a call decided late enough can emit a key twice within a
  TTL (`ErrorThrottle.ALateCallSlipsThrough`). It does exactly when the call comes within the TTL of its key's
  latest emission, after an emission more than four TTLs ahead of that one evicted it
  (`ErrorThrottle.ForgettingShowsExactlyWhenOneSlips`, `ErrorThrottle.SpacedExactlyWhenNoneSlips`).
- A turn's fits protect the tools its attach adds to the ledger. A tool already there, taken off by an earlier fit and
  put back by this turn, can be given up again by the turn's own fit, and its tag counts as unlocked
  (`AttachLaws.AReattachedToolIsNotProtected`); all that was attached is protected exactly when none of it was in the
  ledger (`AttachLaws.TurnProtectsTheNew`).

## Model

| member | source | states |
|---|---|---|
| GameSoundMemo.KeepingTurnedDown | core/game_sound_memo.py:297-316 | the loop over the replaced record's takes gives the record with each take turned down there carried once, in order, unless the new record names it |
| GameSoundMemo.Memo.SetGameStateSoundAt | core/game_sound_memo.py:392-412 | a write at a matched key stores the record with the replaced one's turned-down takes, and the first version's copy with it only when there is one |
| GameSoundMemo.Memo.SetGameStateSound | core/game_sound_memo.py:415-430 | a write under the key asked for, the first version's copy with it only for the game's own bgm |
| GameSoundMemo.Memo.ForgetGameStateRecord | core/game_sound_memo.py:208-218 | only the record at exactly the key goes, and the copy only when it is that record |
| GameSoundMemo.Memo.EndCompositions | core/game_sound_memo.py:525-539 | the loop ends each composition under way at a level key of the game key and changes nothing else |
| GameSoundMemo.Memo.RecordVerdict | core/game_sound_memo.py:461-522 | the verdict lands on the take the ladder matched, at its key, in the person's memo alone when there is one; a rejection carries the composition there, a keep at the game's key ends those under it |
| GameSoundLaws.WritesKeepTurnedDown | core/game_sound_memo.py:297-316 | the turned-down takes after a write are exactly the new record's and the replaced record's, minus only the take being bound |
| GameSoundLaws.EndedKeepsHistory | core/game_sound_memo.py:157-167 | ending a composition leaves the record's history as it was |
| GameSoundLaws.VerdictWrites | core/game_sound_memo.py:482-522 | which keys a verdict changes: the one it was heard from and, for a keep at the game's key, each level key with a composition under way; no other |
| GameSoundLaws.VerdictMarks | core/game_sound_memo.py:488-519 | by its fields, what is left at the key heard from: a keep is marked approved now and is otherwise the take as heard; a rejection has no take, names the one turned down, why and when, and carries what was under way there |
| GameSoundLaws.LadderPlays | core/game_sound_memo.py:325-377 | the ladder answers a take exactly when there is one to play, never an agent take turned down, and 'mine' exactly when the person has one |
| GameSoundLaws.LadderAnswersItsFirstRung | core/game_sound_memo.py:343-377 | which rung answers and with which record and key, and by its fields when a composition under way does |
| GameSoundLaws.TurnedDownIsNotPlayed | core/game_sound_memo.py:284-294 | a take turned down at the level's key or the game's is not what the agent's memo plays that person there |
| GameSoundLaws.KeepIsHeardNext | core/game_sound_memo.py:482-522 | after a person's keep the same lookup answers 'mine' with that take, at that key |
| GameSoundLaws.RejectionSilencesOnePlace | core/game_sound_memo.py:488-510 | each rejection leaves strictly fewer places that play, and starts none |
| GameSoundLaws.FiveRejectionsAreSilence | core/game_sound_memo.py:343-377 | with no new take bound, after five rejections the lookup answers no take |
| GameSoundLaws.KeepEndsWhatItCovers | core/game_sound_memo.py:511-521 | after a keep no composition it covers is named at its key |
| GameSoundLaws.TheNewestComplaint | core/game_sound_memo.py:576-595 | of the level's and the game's latest complaint the newer is answered, the level's on a tie |
| GameSoundLaws.ATakeAnswersItsComplaints | core/game_sound_memo.py:556-565 | a key with a take that was not turned down holds no complaint |
| GameSoundLaws.AJobKeepsTheComplaint | core/game_sound_memo.py:266-316 | a rejection is still the complaint, with its reason and number, after a job took its place |
| BindProofs.NextRecord | core/agent_tools.py:1071-1222 | which records a step of the protocol changes, in every memo, game and key: its own key's and what a keep covers, and no other |
| BindProofs.NoTakeWhereACallStarts | core/agent_tools.py:822-867 | a call that goes past its lookup found no take at the key it will write, and what it found is that key's record or nothing |
| BindOutcomes.WhatAnAskDoes | core/agent_tools.py:822-867 | what an ask does, by what there is to play and the fields at the key it would write: bound already, task picked up again as it was composed, task too old forgotten, submit waited for, or a submit |
| BindOutcomes.TheFirstTakeIsNumberOne | core/agent_tools.py:1048-1063 | with nothing turned down the take is asked for as it was described, numbered one |
| BindProofs.EmptyIsWell | core/agent_tools.py:807-812 | memos with nothing in them satisfy the invariant every run keeps |
| BindProofs.WellIsKept | core/agent_tools.py:1071-1262 | every step keeps the invariant: a record with a take names no composition, notes and tasks lie in the past, each call's phase fits |
| BindProofs.RunsStayWell | core/agent_tools.py:1071-1262 | the invariant holds after every prefix of every run |
| BindProofs.StillNamesOne | core/agent_tools.py:1122-1144 | no step leaves a record that names two compositions, a note and a task |
| BindProofs.OneComposition | core/game_sound_memo.py:185-194 | so two compositions a reachable record names are the same |
| BindTheorems.KeptOverNeverLands | core/agent_tools.py:882-889 | a composition under way at a key a keep covered is never bound there, as take or as task, in any run that follows |
| BindTheorems.OverNeverLands | core/agent_tools.py:882-889 | a composition its key no longer names never lands there at any step of any run |
| BindTheorems.WhatAKeepLeaves | core/game_sound_memo.py:525-539 | a keep leaves a composition named exactly when it does not cover its key, and covers, besides its own key, exactly the level keys of the game key with a task or a submit noted less than the cooldown ago |
| BindTheorems.RejectionIsKept | core/game_sound_memo.py:488-519 | a person's rejection is in their memo, where they heard the take |
| BindTheorems.VerdictIsMarked | core/game_sound_memo.py:488-519 | a verdict in any world marks the record at the key heard from: approved now, or turned down with its reason and time |
| BindTheorems.KeptStaysApproved | core/game_sound_memo.py:488-489 | over every run after a keep the take is there, approved, until a verdict that goes to the same memo turns it down there |
| BindTheorems.FailedPollIsNoted | core/agent_tools.py:1094-1101 | a failed poll leaves nothing under way at its key, notes the task and the composer's reason, and keeps the rest |
| BindTheorems.CoveredIsNoted | core/game_sound_memo.py:525-539 | a composition a keep ended at a level's key leaves nothing of itself but the note of its task and the keep |
| BindTheorems.CloseLeavesNoNote | core/agent_tools.py:891-903 | after a submit's close, in any reachable world, its key no longer holds its note |
| BindTheorems.TurnedDownIsNeverPlayedAgain | core/game_sound_memo.py:284-294 | over every run after a rejection the agent's memo never plays that take to that person there, at every level when it landed on the game's key, until their own memo binds it |
| BindTheorems.CallsLoseNoTake | core/agent_tools.py:855-903 | no step of any call removes or replaces a take held at any key of any memo, nor the agent's first-version music |
| BindTheorems.CallsWriteTheirMemo | core/agent_tools.py:838-842 | a call's later steps write the memo it chose when it began and no other |
| BindTheorems.AChoiceStaysPersonal | core/agent_tools.py:827-838 | someone who is not the creator and has a record of their own here never makes a call write the agent's memo |
| BindTheorems.VerdictIsPersonal | core/game_sound_memo.py:497-521 | a person's verdict leaves the agent's memo and everyone else's lookup as they were |
| BindTheorems.VerdictForEveryone | core/agent_tools.py:1338-1351 | the creator's verdict for everyone judges what the agent's memo plays, lands there, and leaves every person's own memo as it was |
| BindTheorems.SubmitWhereOccupied | core/agent_tools.py:1103-1137 | a submit at a key with a composition comes only after the cooldown, or by forgetting a task as stale |
| BindTheorems.CallsEndTheirOwn | core/agent_tools.py:882-903 | but for that failed poll, no step of a call, whatever it writes, ends a composition other than the one it speaks for, its own note or its own task |
| BindTheorems.OccupiedMakesSubmitsWait | core/agent_tools.py:1110-1144 | while a key holds a composition every submit for it waits out the cooldown, at every step of any run, until one of those two ends it |
| BindTheorems.SubmitsAreSeparated | core/agent_tools.py:1103-1144 | after a submit, in any run, every other submit for its key comes the cooldown later, until a step of the first one's own ends its composition or, named apart, another call's failed poll forgets it; a rejection is no such step |
| BindOutcomes.NotingPlaysNothing | core/agent_tools.py:1138-1144 | the submit's note gives the call nothing to play, so its own note never reads as a choice made meanwhile |
| BindOutcomes.UninterruptedIsBound | core/agent_tools.py:1155-1160 | a submit answered with a finished take, with nothing in between, binds that take at its key, labelled as what the call asked for, composed now and not approved |
| BindOutcomes.UninterruptedTaskIsBound | core/agent_tools.py:1205-1236 | so does a submit given a task and a poll that finds it done |
| BindOutcomes.ResumedIsBoundAsComposed | core/agent_tools.py:1061-1069 | a task picked up again by another call is bound as what it was composed with, whatever that call asked for |
| BindOutcomes.TaskIsNoted | core/agent_tools.py:1205-1214 | a task given is written in place of its note, by its fields, with nothing of a rejection left but the history |
| BindOutcomes.WarmupKeepsTheNote | core/agent_tools.py:1162-1194 | a composer warming up leaves the note, timed anew, over all the record held, so the key is waited for; if the composition was ended, everything as it was |
| BindOutcomes.ADeadCallLeavesItsNote | core/game_sound_memo.py:174-180 | a call whose process dies takes no further step and leaves every record, its note too, as it was |
| BindOutcomes.NothingIsBoundOverAChoice | core/agent_tools.py:1071-1083 | a finished take changes no record when by then there is something the person would hear |
| BindOutcomes.ATaskBesideAChoiceIsLeft | core/agent_tools.py:1205-1218 | a task given after such a choice is noted while the composition is still the call's, and not polled |
| BindOutcomes.RefusedLeavesTheRecords | core/agent_tools.py:1195-1222 | a submit that came to nothing, closed, leaves nothing under way at its key, the rest of the record and every other record as they were, a stale task noted, and a key that was absent absent again |
| BindOutcomes.RefusedIsAskedAgain | core/agent_tools.py:891-903 | and the same ask submits again, to the same memo unless all the person had of their own there was an old note |
| BindOutcomes.BoundIsReplayed | core/agent_tools.py:822-838 | a take at the key an ask writes to is what that ask is bound to, and it composes nothing |
| BindOutcomes.ComposedOnceForEveryone | core/agent_tools.py:827-832 | a sound composed for the agent is what every later ask for that state and level is bound to, the creator's and anyone's without a choice of their own |
| BindOutcomes.NextTakeAnswersTheRejection | core/game_sound_memo.py:576-595 | the next take is told the reason of the rejection and numbered after the take turned down, unless the ladder's other key holds a newer one |
| BindOutcomes.FailedPollEndsAnothers | core/agent_tools.py:1094-1101 | a failed poll ends a composition other than its own task if and only if its key holds one and no longer that task |
| BindRuns.AFailedPollEndsAnothersSubmit | core/agent_tools.py:1237-1253 | a run from an empty memo in which a call's failed poll of an older task ends another call's submit, and a second submit for the key follows two seconds after the first |
| BindRuns.ALapsedSubmitOutlivesAKeep | core/game_sound_memo.py:105-110 | a run from an empty memo in which a lapsed submit note outlives a keep and its take is bound after a rejection |
| ToolMenuLaws.FitLeavesTheKept | core/agent_tool_menu.py:464-501 | a fit leaves exactly the kept entries, and request_tools if it was there, in block order; what is kept really fits the room |
| ToolMenuLaws.PassedOnlyForRoom | core/agent_tool_menu.py:454-475 | the first pass gives an entry up only when the ones it kept before leave no room for it, and before a protected entry come only protected ones, before one of the main leg only those and the main leg's |
| FitOrder.KeptExactlyBesideThoseAhead | core/agent_tool_menu.py:454-475 | the first pass keeps an entry if and only if it fits beside the kept ones ahead of it: the protected, then the main leg's, then the rest, each in block order |
| FitOrder.TheLastAreGivenUp | core/agent_tool_menu.py:476-491 | the second pass gives up only entries behind all it leaves, and only when the first pass's block is over the room |
| FitOrder.TheMainLegComesFirst | core/agent_tool_menu.py:409-420 | with room for one, a tool of the main leg is kept before one that is neither, wherever they stand |
| ToolMenuLaws.FitKeepsTheProtected | core/agent_tool_menu.py:445-491 | when the protected names fit the room on their own none of them is deferred, and the block left is within the room |
| ToolMenuLaws.ProtectedFitExactly | core/agent_tool_menu.py:445-494 | where parts of a block cost no more than the whole, a fit spares all the protected names and reaches the room if and only if the protected entries fit it on their own, whatever is protected |
| ToolMenuLaws.TwoProtectedOverflow | core/agent_tool_menu.py:464-501 | two protected entries, request_tools one of them, and room for either alone: the fit leaves both, over the room, and a fit that protects only request_tools then takes the other |
| ToolMenuLaws.FitsExactlyWhenTheEscapeFits | core/agent_tool_menu.py:482-494 | when request_tools is the only name protected, the block left is within the room if and only if that entry alone is |
| ToolMenuLaws.FitIsWithinRoom | core/agent_tool_menu.py:476-491 | the block a fit leaves is within the room whenever request_tools is among the kept |
| ToolMenuLaws.FittingWhatFitsChangesNothing | core/agent_tool_menu.py:464-493 | a block already within the room loses nothing |
| ToolMenuLaws.FitIsIdempotent | core/agent_tool_menu.py:362-501 | when request_tools was among the kept, or not there, fitting again, with anything protected, changes nothing |
| ToolMenuLaws.FitsOnceExactly | core/agent_tool_menu.py:362-501 | no later fit, whatever it protects, changes the block a fit left if and only if that block is within the room or request_tools alone is over it |
| ToolMenuLaws.RequestToolsStays | core/agent_tool_menu.py:293-320 | deferring never takes request_tools off, whatever it is asked |
| AgentSeats.Seat.DeferHelperSchema | core/agent_tool_menu.py:282-359 | the loop drops exactly the named entries but request_tools, keeps the rest in order, and answers the names it removed |
| AgentSeats.Seat.FitSchemaToCtx | core/agent_tool_menu.py:362-504 | the fit in place: the protected set of the turn recorded and used, the block left, the names answered |
| AgentSeats.FirstPass | core/agent_tool_menu.py:464-475 | the accumulating loop keeps the greedy selection, within the room, and gives up the rest |
| AgentSeats.SettlePass | core/agent_tool_menu.py:482-491 | the pop loop gives up the lowest-priority survivors until the real block fits |
| AgentSeats.AgentPair.AttachTool | core/agent_tool_menu.py:241-279 | what one attach adds to the helper, the proposer, the function map and the ledger, and what it answers |
| AgentSeats.AgentPair.AttachForNames | core/agent_tool_menu.py:929-1039 | the named tools of both sources attached, to the proposer too when it proposes, and their count |
| AgentSeats.AgentPair.AttachForTags | core/agent_tool_menu.py:822-855 | the registry tools whose tags meet the given ones attached, to the helper alone, and their count |
| AgentSeats.AgentPair.AttachForTurn | core/agent_tool_menu.py:873-926 | the tags a turn newly unlocks, their tools attached, both seats fitted around them when any was |
| AgentSeats.AgentPair.DiscoverAndAttach | core/agent_tool_menu.py:660-778 | the three sources attached, both seats it widened fitted, and exactly what is ready, what is not offered, and which registry tools could be started |
| AgentSeats.Report | core/agent_tool_menu.py:777-778 | every attached name is either ready or not offered |
| AttachLaws.NamedAgainGoesBack | core/agent_tool_menu.py:248-275 | a tool named again goes back on the helper's schema, and on a proposing executor's, whatever was deferred before |
| AttachLaws.NamingTwiceAddsNothing | core/agent_tool_menu.py:263-267 | naming the same tools twice with no fit in between attaches nothing the second time |
| AttachLaws.TaggingTwiceAddsNothing | core/agent_tool_menu.py:842-855 | nor does attaching by the same tags twice |
| AttachLaws.RunnableIsFound | core/agent_tool_menu.py:715-757 | a tool the executor can run that the need describes is put back on the helper's schema |
| AttachLaws.ReadyIsOnASeat | core/agent_tool_menu.py:759-778 | where the helper's schema can be read, every name reported ready is on a seat after both fits, and an attached name is reported exactly when it is on one if and only if it is not a name the proposer showed before and only the helper's fit gives up; otherwise everything attached is reported |
| AttachLaws.NewToTheProposerIsReported | core/agent_tool_menu.py:759-778 | when nothing attached was on the proposer before, ready is exactly the attached names on a seat |
| AttachLaws.RoomForAllMakesAllReady | core/agent_tool_menu.py:767-778 | when what the request attached and the turn protects fits the helper's room on its own, everything attached is ready, on the helper |
| AttachLaws.AnAttachedToolIsMissed | core/agent_tool_menu.py:759-778 | a tool the proposer shows already, attached to a helper with no room for it, is on a seat and not reported |
| AttachLaws.DiscoveryReports | core/agent_tool_menu.py:665-757 | discovery's lists name what it put where, and it loses nothing |
| AttachLaws.OnlyTheAvailableAttached | core/agent_tool_menu.py:263-279 | every name attached is that of a picked tool whose service is up |
| AttachLaws.TheDownAreStartable | core/agent_tool_menu.py:696-699 | a picked tool the helper lacks whose service is down is reported startable and put on no seat |
| AttachLaws.DiscoveryFitsTheRoom | core/agent_tool_menu.py:759-774 | each seat a discovery widened is within the room after it and spares what it was given and the turn protects, when those fit on their own |
| AttachLaws.SameTurnTwice | core/agent_tool_menu.py:905-926 | a turn that unlocks nothing new leaves the pair alone, so the same words twice attach and fit once |
| AttachLaws.TurnAttachesItsFamilies | core/agent_tool_menu.py:911-920 | a turn attaches exactly the available tools of the families its words newly unlock |
| AttachLaws.TurnProtectsTheNew | core/agent_tool_menu.py:919-925 | a turn's fits protect precisely what it attached that was not in the ledger before, and so all of it if and only if none was |
| AttachLaws.TheNewStay | core/agent_tool_menu.py:890-925 | those stay on the helper's schema when, with what the turn protects, they fit the room on their own |
| AttachLaws.AReattachedToolIsNotProtected | core/agent_tool_menu.py:919-925 | a tool of the ledger put back by a turn is given up by the turn's own fit and its tag is unlocked, where a new one is kept |
| AttachLaws.RunsKeepExecutable | core/agent_tool_menu.py:282-292 | over every run of attaching by name, tag, turn or discovery, deferring and fitting, with any names protected, each name shown is executable, function map and ledger never shrink, and request_tools stays |
| Foreground.ForegroundGate.SyncForegroundMarker | core/foreground.py:249-259 | the marker is made to match the count as it is now |
| Foreground.ForegroundGate.EnterForeground | core/foreground.py:338-350 | one more in flight, the marker synced on the first, and kept in agreement with the count |
| Foreground.ForegroundGate.ExitForeground | core/foreground.py:366-378 | one fewer, never below zero, the marker synced on the last, and kept in agreement |
| Foreground.StaysInStep | core/foreground.py:249-259 | every step of any thread keeps: unless some thread is still to look at the count, a pending write holds what the count says and with none pending the marker says it |
| Foreground.MarkerFollowsCount | core/foreground.py:249-259 | in every run of any threads a marker that disagrees with the count means a thread still owes a sync; one that has looked holds the right answer unless another is still to look |
| Foreground.LastSyncSettles | core/foreground.py:249-259 | the last thread owing a sync, left to run, brings the marker into agreement with the count, whatever ran before |
| Foreground.BalancedRunsCount | core/foreground.py:412-424 | with every exit answering an enter the count is the number of requests in flight |
| Foreground.MarkerMeansARequest | core/foreground.py:412-424 | then at rest the marker is there exactly while a request is in flight |
| Foreground.OnlyABiteFallsShort | core/foreground.py:366-378 | the count is the requests in flight at every point of a run if and only if no stray exit comes with it above zero |
| Foreground.AStrayExitHidesARequest | core/foreground.py:366-378 | one stray exit leaves a request in flight with no marker and no sync due |
| Foreground.MarkerAgeS | core/foreground.py:199-246 | the loop answers the age of the youngest marker of another process that is young enough and whose writer lives, and none exactly when there is no such marker |
| Foreground.WhoseMarkerCounts | core/foreground.py:227-243 | by its fields, which marker counts and how old it is |
| RecipeOptimizer.FlowFiles.ArchiveRecipe | core/flow_recipe_optimizer.py:90-117 | the live recipe retired with its reward, or nothing when there is none or a backup is already there |
| RecipeOptimizer.FlowFiles.AcceptReoptimization | core/flow_recipe_optimizer.py:129-144 | backup and sidecar gone, the live recipe as it was |
| RecipeOptimizer.FlowFiles.RollbackRecipe | core/flow_recipe_optimizer.py:147-166 | the backup live again, nothing else left |
| RecipeOptimizer.RollbackUndoesArchive | core/flow_recipe_optimizer.py:147-166 | archive, any re-CREATE, rollback restores the original and leaves no backup or sidecar; archiving never stacks |
| RecipeOptimizer.StepIsSafe | core/flow_recipe_optimizer.py:107-126 | every file operation, failing or not, every stop and every re-CREATE keeps the retired recipe whole |
| RecipeOptimizer.RetiredIsNeverLost | core/flow_recipe_optimizer.py:90-169 | in every run the retired recipe is at '.optbak' until a file operation of an accept or rollback decides on it; a rollback makes exactly it live |
| RecipeOptimizer.BackupHasItsSidecar | core/flow_recipe_optimizer.py:107-140 | a backup is never without its reward sidecar in any run in which no accept fails to remove the backup |
| RecipeOptimizer.AcceptStrandsABackup | core/flow_recipe_optimizer.py:134-140 | an accept leaves a backup without its sidecar if and only if it could not remove the one and did remove the other |
| RecipeOptimizer.UndisturbedOperations | core/flow_recipe_optimizer.py:90-169 | with nothing in between, the steps of each operation come to what the operation does at once |
| RecipeOptimizer.AFailedArchiveLeavesNothing | core/flow_recipe_optimizer.py:118-126 | an archive that fails leaves the recipe live and no sidecar behind |
| RecipeReconcile.PromptsDir.CollectCompleteActions | core/flow_recipe_reconcile.py:92-110 | the recipes of actions 1..N in order if and only if all are there, readable and terminal |
| RecipeReconcile.PromptsDir.FlowsNeedingReconcile | core/flow_recipe_reconcile.py:113-137 | the flows to look at: one prompt's configured ones, or those with an action recipe of a numeric prompt |
| RecipeReconcile.PromptsDir.ReconcileFlow | core/flow_recipe_reconcile.py:168-183 | with no other writer at the files meanwhile, one flow is written if and only if it is due, and nothing else changes |
| RecipeReconcile.PromptsDir.ReconcileOrphanedFlowRecipes | core/flow_recipe_reconcile.py:140-191 | with no other writer at the files meanwhile, every due flow looked at is written and listed, once, and nothing else changes |
| RecipeReconcile.ReconcileWritesOnlyWhatIsDue | core/flow_recipe_reconcile.py:168-183 | what a run with no other writer at the files writes: a live recipe is never overwritten, a flow with a backup never brought back, and exactly the due flows are written |
| RecipeReconcile.FlowRecipeIsWhole | core/flow_recipe_reconcile.py:97-110 | what is written holds as many actions as planned, each finished, at its own place |
| RecipeReconcile.TerminalByItsLetters | core/flow_recipe_reconcile.py:106-108 | an action is finished if and only if its status reads done or completed in any case |
| RecipeReconcile.SweptByItsDigits | core/flow_recipe_reconcile.py:133-137 | the sweep looks at a flow if and only if an action recipe of it is there and its prompt's id is written in digits |
| RecipeReconcile.ReconcileIsIdempotent | core/flow_recipe_reconcile.py:163-183 | a second run writes nothing |
| RecipeReconcile.ReconcileInParts | core/flow_recipe_reconcile.py:163-183 | two runs over parts of the work come to one run over both |
| RecipeReconcile.SweepIsTheTargetedRuns | core/flow_recipe_reconcile.py:119-137 | the sweep writes exactly what the targeted runs of the numeric prompts write between them |
| RecipeReconcile.TargetedRunsAreOne | core/flow_recipe_reconcile.py:119-128 | targeted runs one after another, in any order, leave the directory one run over all of them leaves |
| RecipeReconcile.TargetedRunsAreTheSweep | core/flow_recipe_reconcile.py:119-137 | those of the numeric prompts leave the directory the sweep leaves |
| ReconcileRace.ReplaceMeetsWhatLanded | core/flow_recipe_reconcile.py:168-183 | over every run of the sweep among CREATE, the optimizer and stops: a pass about to put its recipe in place did check, and would overwrite a live recipe, or write beside a backup, if and only if another writer's landed after that check and was not taken away again |
| ReconcileRace.ThereIffLanded | core/flow_recipe_reconcile.py:168-183 | what is there after the rest of a pass is what was there and stayed or what landed meanwhile |
| ReconcileRace.RunsReadWhole | core/flow_recipe_reconcile.py:92-110 | whatever the others do, the recipe put in place holds as many actions as planned, each finished when it was read |
| ReconcileRace.UndisturbedPass | core/flow_recipe_reconcile.py:168-183 | a pass nothing gets in the way of does to the flow what the reconciler does at once |
| ReconcileRace.ASweepOverwritesACreate | core/flow_recipe_reconcile.py:169-182 | a run in which the recipe CREATE saves while the sweep reads the actions is overwritten |
| ReconcileRace.ASweepWritesBesideABackup | core/flow_recipe_reconcile.py:172-182 | a run in which a flow retired meanwhile is brought back beside its backup |
| CircuitBreaker.Circuit.IsOpen | core/circuit_breaker.py:72-83 | blocked exactly when the breaker does not admit, and the half-open probe is taken |
| CircuitBreaker.Circuit.RecordFailure | core/circuit_breaker.py:91-97 | one more failure, opened again at the threshold |
| CircuitBreaker.AdmittedExactly | core/circuit_breaker.py:63-107 | told from the events alone, from a fresh breaker: a call is let through if and only if fewer failures than the threshold came since the last success or reset, or the last failure is more than the cooldown ago and no call since was the probe |
| CircuitBreaker.EnoughFailuresTrip | core/circuit_breaker.py:91-97 | enough failures, the last within the cooldown, block every call; too few block none |
| CircuitBreaker.AdmissionsAreSpaced | core/circuit_breaker.py:63-100 | once tripped and until a success or reset, two admitted calls are more than the cooldown apart, and each comes more than it after the breaker opened |
| CircuitBreaker.WindowAdmitsFew | core/circuit_breaker.py:63-100 | so a window of length T admits at most floor(T / cooldown) + 1 calls |
| CircuitBreaker.AnUnreportedProbeShutsForGood | core/circuit_breaker.py:78-82 | a probe never reported on shuts the breaker for any run of calls, however long |
| CircuitBreaker.OnlyAReportReopens | core/circuit_breaker.py:72-107 | with a probe out, some ask is let through, one long after the rest included, if and only if a success, a failure or a reset was reported |
| CircuitBreaker.KeyedCircuit.Get | core/circuit_breaker.py:138-146 | the key's breaker, fresh on first use, no other touched |
| CircuitBreaker.KeyedCircuit.IsOpen | core/circuit_breaker.py:154-155 | the answer and the change are those of the key's own breaker |
| CircuitBreaker.KeyedIsOnePerKey | core/circuit_breaker.py:138-171 | seen from one key, over any events of all keys, a keyed breaker is a single breaker fed that key's events: same answers, same state |
| CircuitBreaker.PeerBackoff.RecordFailure | core/circuit_breaker.py:237-244 | the delay a failure sets and when the peer may be tried again |
| CircuitBreaker.PeerBackoff.PruneExpired | core/circuit_breaker.py:250-257 | the loop removes exactly the expired entries |
| CircuitBreaker.FailuresInARow | core/circuit_breaker.py:237-244 | a key's n-th failure in a row backs it off for the n-th delay from when it failed |
| CircuitBreaker.BackedOffForTheDelay | core/circuit_breaker.py:230-248 | a key is backed off until its last delay has passed, and not after a success |
| CircuitBreaker.DelaysAreCappedDoublings | core/circuit_breaker.py:240-243 | every n-th delay is min(initial * 2^(n-1), maximum) if and only if initial <= maximum |
| CircuitBreaker.PruningChangesNoAnswer | core/circuit_breaker.py:250-257 | pruning changes no later answer of is_backed_off for any key; it does restart an expired key's delay |
| MemoryOverlay.Overlay | core/agent_tools.py:484-494 | the view is an object with the keys of both |
| MemoryOverlay.OverlayOf | core/agent_tools.py:484-494 | the loop over the person's keys builds the overlay |
| MemoryOverlay.ViewReads | core/agent_tools.py:538-556 | every read of the view, at any path, from the reads of the two trees: the person's, merged where both are objects, the agent's where the person holds nothing, nothing under a non-object of the person's |
| MemoryOverlay.OverlayIsIdempotent | core/agent_tools.py:484-494 | laying the same entries over the view again changes nothing |
| MemoryOverlay.OverlayWithNothing | core/agent_tools.py:484-494 | where the person holds nothing the view is the agent's tree |
| MemoryOverlay.RefusedSaveChangesNothing | core/agent_tools.py:710-712 | a save is refused if and only if its path runs through a non-object, and then the store is as it was |
| MemoryOverlay.SavedIsReadBack | core/agent_tools.py:710-712 | what was saved is what its path reads |
| MemoryOverlay.ApartIsUntouched | core/agent_tools.py:710-712 | a path neither at, above nor under the saved one reads as it did |
| MemoryOverlay.AgentData.SaveDataInMemory | core/agent_tools.py:695-712 | the store the save goes to, the tree it leaves, whether it was refused, and that a refused save leaves every store's contents |
| MemoryOverlay.AgentData.ReadSaved | core/agent_tools.py:1447-1456 | the loop down the path reads the person's view, none where it runs through a missing key or a non-object |
| MemoryOverlay.PersonalSaveIsReadBack | core/agent_tools.py:736-741 | a person reads back what they saved, merged over the agent's entry when both are objects |
| MemoryOverlay.PersonalSaveTouchesNothingElse | core/agent_tools.py:538-556 | and their other paths, and everyone else's view of every agent, read as before |
| MemoryOverlay.SharedSaveShowsUnderOwn | core/agent_tools.py:700-706 | a save for everyone shows in each view under the person's own entries |
| MemoryOverlay.AnOwnValueHidesASharedSave | core/agent_tools.py:736-741 | a value the person keeps on the way hides a save for everyone from them and from nobody else |
| MemoryOverlay.WhomASaveReaches | core/agent_tools.py:700-712 | by its three flags: with all of them a save is read by everyone who keeps nothing there; without one the saver reads it back and the agent's store and everyone else's view are as they were |
| MemoryOverlay.OnlyTheCreatorReachesOthers | core/agent_tools.py:700-709 | only the agent's creator, while building it and asking for it, changes what another person reads |
| MemoryOverlay.OthersSavesAreInvisible | core/agent_tools.py:538-556 | over any run of saves a person reads what they would had nobody else saved anything of their own |
| FileCache.FileCache.CachedJsonLoad | core/file_cache.py:23-54 | a hit, a miss, a missing file and an unreadable one: the answer and the cache left |
| FileCache.FileCache.InvalidateFileCache | core/file_cache.py:57-71 | one file's entry gone, or all |
| FileCache.FileCache.RecordSave | core/file_cache.py:195-201 | the saved data cached, with the file's time when it can be read and the old one otherwise |
| FileCache.WellIsKept | core/file_cache.py:28-54 | every step of any load, save, other writer or invalidation keeps what the cache relies on, but for a save disturbed between its replace and its stat |
| FileCache.CacheIsCoherent | core/file_cache.py:39-51 | in every such run, whenever the cached time is the file's the cached data is what the file holds |
| FileCache.LoadsAnswerWhatTheFileHeld | core/file_cache.py:28-54 | and every load, hit or miss, answers what its file held at its stat or later |
| FileCache.LoadIsItsSteps | core/file_cache.py:28-54 | a load's steps with nothing in between are the whole load |
| FileCache.CoherentLoadsAreFresh | core/file_cache.py:39-54 | a load nothing gets in the way of answers as reading the file anew would |
| FileCache.InvalidatedIsReadAnew | core/file_cache.py:57-71 | after an invalidation the next load reads the file anew, whatever was cached |
| FileCache.LoadedIsCached | core/file_cache.py:39-51 | after a load the next one is answered from the cache, the same, without a read |
| FileCache.AGoneFileIsForgotten | core/file_cache.py:30-37 | a load of a file that is gone says so and forgets it |
| FileCache.SaveMayHideAWrite | core/file_cache.py:193-201 | after a save the next load is fresh if and only if the file still holds what was saved, or is gone |
| FileCache.AWriteBetweenIsHidden | core/file_cache.py:193-201 | a run in which another process's write is hidden by a save |
| ReentryGuard.Guard.Getattr | core/_transformers_lazy_guard.py:86-107 | the lookup comes back on every graph of names, with the names in progress as it found them whether it answered or raised |
| ReentryGuard.Guard.Original | core/_transformers_lazy_guard.py:104-107 | so does the wrapped lookup it calls |
| ReentryGuard.InProgressIsNotThere | core/_transformers_lazy_guard.py:93-102 | a name in progress reads as one that is not there: the guarded lookup is the lookup among the other names |
| ReentryGuard.AskedForItself | core/_transformers_lazy_guard.py:93-102 | a name whose lookup first asks for itself is told it is not there and goes on from that |
| ReentryGuard.GuardIsTransparent | core/_transformers_lazy_guard.py:93-107 | where no name in progress is re-entered the unguarded lookup ends, no deeper than there are names left, with the same answer |
| ReentryGuard.GuardChangesOnlyEndlessLookups | core/_transformers_lazy_guard.py:93-107 | the unguarded lookup ends if and only if the guarded one re-enters no name, and then they agree |
| ErrorThrottle.Throttle.ShouldEmit | core/error_advice.py:68-83 | the answer, and the entries left by the eviction loop |
| ErrorThrottle.ForgettingShowsExactlyWhenOneSlips | core/error_advice.py:72-82 | the evicting throttle answers every call as one that forgets nothing if and only if no call slips: comes within the TTL of its key's latest emission, which an emission more than four TTLs ahead has evicted |
| ErrorThrottle.DifferExactlyWhenItSlips | core/error_advice.py:74-82 | on one call the two differ if and only if it slips, and then the throttle emits |
| ErrorThrottle.ThrottleIsAnUnboundedHistory | core/error_advice.py:74-83 | no call slips, and the answers are the same, when none is decided more than three TTLs late; a clock that never runs back is such a case |
| ErrorThrottle.ALateCallSlipsThrough | core/error_advice.py:72-82 | a run with such a call in which a key is emitted twice within a TTL |
| ErrorThrottle.SpacedExactlyWhenNoneSlips | core/error_advice.py:74-77 | emissions of one key are all at least a TTL apart if and only if no call slips |
| ErrorThrottle.EmissionsAreSpaced | core/error_advice.py:74-77 | so they are when no call is decided more than three TTLs behind an earlier one |
| ErrorThrottle.EmissionDropsTheOld | core/error_advice.py:78-82 | after an emission no entry older than four TTLs is left, and exactly the others are kept |

## Left out

The game sounds:

- `bind_game_sound` from its lookup to its submit note, and a verdict as a whole, are each one step: the code takes no lock there, so two calls could also interleave inside them.
- `bind_game_sound` and `approve_game_sound` are steps on values over the memos, not methods on shared dictionaries; the memo's own operations are methods of class `Memo`, and aliasing between two records is not modelled.
- The composer answers as it likes (finished, pending, warming up, refused, failed, gone). Consent cards, review offers, pushes, notifications and log lines are no-ops; a pending answer without a task id is not modelled.
- The clock moves on at every step, so a submit note's time names that note; a task id is new. State names hold no separator, as `GAME_STATES` has none.
- Records are typed: corrupt fields and the warnings about them, an empty url, a past take without a url and a rejection without its url are not modelled.
- The variant suffix of a memo key, which no caller here uses, and parsing a card's action.

The tool menu:

- Token counting is an arbitrary cost; the laws about room take it to be independent of the order of a block and at least the sum of its single entries, which core/agent_tool_menu.py:476-480 says. `ProtectedFitExactly` also takes a part of a block to cost no more than the whole.
- FitIsIdempotent: does not cover a block whose request_tools the two passes gave up; `FitsOnceExactly` says exactly when a fit is one for good.
- The keyword and stem matcher, and whether a need names a tool, are arbitrary predicates; descriptions stand for themselves.
- AutoGen's client: registering a name replaces its entry, as its own interface does. The live sets the code keeps beside a schema are read from the schema.
- The fit's catch-all for an exception, the geometry read when no room is given, and the wording of the report.

The gate and the files:

- Cancelling background calls, the governor's mode flip, waiting until clear, and the pid probe (an arbitrary predicate); a marker write always succeeds.
- RecipeOptimizer: a stop inside the write of the temporary sidecar leaves at most that temporary file, which nothing reads; the reward is a real number.
- ReconcileFlow: promises what it does with no other writer between its checks and its write; `ReconcileRace` says what happens with them.
- ReconcileOrphanedFlowRecipes: the same, for a whole run; the race is proved of one flow at a time, as no two flows share a file.
- ReconcileWritesOnlyWhatIsDue: the same.
- RecipeReconcile: digits other than 0 to 9 in a file name, file names with leading zeros, and a config that changes during a run. A failing write of a flow recipe is a step of `ReconcileRace` only.
- Reading an archived reward back from its sidecar, and prompt directories other than the one in use.

The breakers, memory, cache, guard and throttle:

- Times are real numbers, so floating-point rounding is not modelled. The decorator, its fallback, statistics and the host of a provider's url only wrap what is here.
- `AdmissionsAreSpaced`, `WindowAdmitsFew` and `OnlyAReportReopens` take clock readings that do not run back.
- SaveDataInMemory: a store is a value, so the in-place descent through nested dictionaries, and a dictionary shared between a store and a view, are not modelled; a save's whole descent is one function that also says what it leaves behind when refused.
- Restoring a store from disk, writing it back, the graph the save is mirrored to and read from as a fallback, turning a JSON-looking string into JSON, paging of what a tool returns, and hashing of store ids (two people's ids, and the agent's, are taken as distinct).
- FileCache: every write gives a file a modification time it never had, and replaces it at once; the copies handed to callers, values JSON cannot hold, carrying a legacy file over (`adopt_legacy_json_once`) and the statistics are not modelled.
- ReentryGuard: Python's own limit on recursion, and exceptions other than by having no answer; the wrapped lookup is any finite program that asks for attributes and goes on by what it gets. transformers itself is not part of this model.
- ErrorThrottle: how an exception becomes a fingerprint, and where a report then goes.
