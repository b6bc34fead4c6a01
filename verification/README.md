# OPad: a verified model

OPad is a two-key osu! keypad with a screen, a PC daemon that feeds it, and a GUI and
CLI beside the daemon. This project models the parts of that software where an ordering,
a retry or a race decides whether the result is right, and proves what they promise over
every run.

The modules follow the program:

- **The runtime controller.** `Runtime` gives, event by event, the next state and the
  ordered actions. `Controller` is the same controller as an object whose methods update
  its fields (the source's thirty-odd fields are grouped into five records); every method
  is tied to its function. `Connecting`, `Attempts`, `Ticks` and `RuntimeFacts` say what
  single events come to, in terms of what went in, and some runs of them.
  `ModeRuns`, `Backups`, `TapQueue`, `PressSources`, `ForeignPads` and `HostStatuses` prove
  what every run keeps, with arbitrary writes of the IPC handlers to the shared state
  between events. `Startup` shows that the daemon starts in a state that meets all these
  invariants, and `Scenarios` has runs from that start which reach what they leave open.
- **Replication to the pad.** `Telemetry` is the diff cache, `DeviceActor` the ordered
  sender, `PadData` what the pad shows and what is still on its way, `DataSteps` what each
  runtime event does to the sending side, and `Replication` the whole system: the runtime's
  own steps, two queues, a link that refuses, loses and drops, and the repairs.
- **Counters and ownership.** `Counters` holds reconciliation and the pad's acceptance
  rule, `Desks` the state, database and queue that syncs and requests share, `CounterSync`
  the sync with its retries and with whatever others do at each of its waits,
  `IpcHandlers` the requests that write counters, configuration, layouts or ownership, and
  `OwnershipRuns` all of these, split at their waits, and the runtime interleaving around a
  pad of another install.
- **IPC connections.** `FlashPause`: the handshake gate and the flash pause, for any number
  of connections interleaving.
- **The log.** `Logs` is the bounded ring, `LogFollow` a follower that awaits its polls (the
  CLI), and `GuiFollow` the GUI's page, with any number of requests in flight.
- **One GUI.** `SingleInstance`: any number of launches racing for one socket path.
- **Numeric and stream programs.** `TraceParser` and `Retrace` are the trace analyser,
  `KeyView` the key view's filter chain, over the reals. `TapRate` says which attempts are
  kept.

Times are whole microseconds on one monotonic clock, passed in; an event handler is one
atomic step, as the shared state's lock makes it.

## What turned out not to hold as stated

The code is modelled as it is. Named with each of these is what is proved of it: an input
that shows it, the exact condition under which it happens, or both.

- A sync that ends SYNC need not be the one the play session triggered: an older one can
  end it, and arm the backup, exactly when one was still running at entry
  (`ModeRuns.EndsWithItsOwnExactly`); a run from the daemon's start gets there
  (`Scenarios.OlderSyncEndsSync`). The source calls it the matching completion
  (desktop/daemon/src/runtime.rs:315-318).
- A pad in play is told that no map is on when tosu reconnects mid-play, and only then; the
  next heartbeat corrects it (`HostStatuses.MissesExactlyWhenTosuIsBack`).
- What is marked sent and what the pad shows part ways, source by source, with exactly two
  kinds of turn (`Replication.AgreementIsLostExactly`). A status that says tosu is away wipes
  the values of tosu's that are marked sent: a frame of tosu's handled before "tosu
  connected" is enough (`Scenarios.LateValueIsWiped`, a run from the daemon's start). And
  the flush at the start of an attempt is marked sent while a foreign pad does not get it,
  and taking the pad over does not send it again (`Replication.ForcedFlushIsSwallowed`).
- The answer to the replacement prompt does not ask whether the pad is guarded, so it can
  write counters to a pad of another install, and such a pad can raise that prompt
  (`IpcHandlers.ReplacementSendsExactly`, `ForeignPads.ForeignPadMayAskForReplacement`). One
  more request asks nobody, and sends its one value.
- A sync asks the guard once, before it waits for the pad to be idle
  (`CounterSync.SendsExactly`), and a request before its first message: what was begun with
  one pad goes on sending when a pad of another install has taken its place
  (`OwnershipRuns.SyncOutlivesThePad`). A takeover that ends then also clears the guard of
  the new pad, which nobody claimed (`OwnershipRuns.TakeoverOutlivesThePad`), and nothing
  but the end of a takeover clears it (`OwnershipRuns.GuardFallsExactly`). Apart from what
  was begun before and the requests just named, nothing reaches such a pad but claims until
  it takes one (`OwnershipRuns.NothingReachesAForeignPad`).
- A counter reset made while a sync delivers another is dropped with it exactly when it
  names the pad in the same way (`IpcHandlers.SecondResetIsLostExactly`), and then presses
  come back with the next sync exactly when the pad reports any in a generation not below
  the row's (`IpcHandlers.LostResetShowsExactly`, `IpcHandlers.SecondResetIsLost`). A reset
  outranks the pad only while a generation is left (`CounterSync.ResetOutranksExactly`).
- A silent takeover does not look at the generation of counters that this PC holds only in
  memory (`IpcHandlers.MemoryIsOutrankedExactly`).
- An imported backup is put on whatever pad is connected, and in the row of the pad it was
  made of (`IpcHandlers.ImportedBackupGoesAnywhere`).
- The flash pause is one flag and not a count: another client can resume a pad that someone
  is about to flash (`FlashPause.AnotherClientResumes`); which steps of which connections do,
  in whole runs, is `FlashPause.ClaimIsLostExactly` and `FlashPause.PausedExactlyWhenClaimed`.
- The GUI asks for log lines without waiting for the replies it already asked for. No line
  is listed twice all the same (`GuiFollow.EachLineOnce`): the duplicate check is needed for
  that within one daemon life (`GuiFollow.TheCheckDrops`), and drops nothing when requests
  are made one at a time (`GuiFollow.OneAtATimeIsPlain`). The order of the list is lost
  exactly with a late reply (`GuiFollow.InOrderExactly`), and what makes one late is having
  been overtaken (`GuiFollow.OvertakenExactly`, `GuiFollow.OvertakenReply`) or a second
  start without a cursor, which can also leave lines out for good
  (`GuiFollow.SecondStartReorders`, `GuiFollow.SecondStartSkips`).
- After a daemon restart the GUI's cursor skips the lines numbered up to it, and its
  duplicate check hides new lines that share source and number with old ones
  (`LogFollow.RestartSeesExactly`, `GuiFollow.RestartHides`, `GuiFollow.ListedInFullExactly`),
  although the cursor is said to follow a restart (desktop/gui/src/main.rs:3103-3107).
- Two launches can both become the instance when a stale socket file is left, or when
  binding and listening are two steps (`SingleInstance.SingleInstanceExactly`).
- The trace's 16-bit gap count is the true loss exactly when no two neighbouring frames are
  more than 65536 apart (`TraceParser.LostIsExact`).

## Model

| member | source | states |
|---|---|---|
| ModeRuns.RunsAreCoherent | desktop/daemon/src/runtime.rs:1024-1364 | in every run: cooldown deadline exactly in COOLDOWN, song position exactly in PLAYING, arming flag exactly in SYNC, backup deadline only in IDLE, attempt only in PLAYING, storage writes allowed exactly in IDLE and SYNC, and in SYNC a triggered sync is unanswered |
| ModeRuns.EventStep | desktop/daemon/src/runtime.rs:703-1391 | one event sets the guard first or not at all, to what the new mode allows, and triggers a sync only in IDLE or, exactly once, on entering SYNC |
| ModeRuns.AnyAnswerEndsSync | desktop/daemon/src/runtime.rs:1347-1363 | SYNC cannot get stuck: whatever triggered sync answers, it ends in IDLE with a backup armed |
| ModeRuns.EndsWithItsOwnExactly | desktop/daemon/src/runtime.rs:315-319 | no legal completion ends SYNC with its own sync still unanswered exactly when no older one was unanswered at entry |
| ModeRuns.CooldownLeadsToSync | desktop/daemon/src/runtime.rs:1193-1214 | a tick past the deadline enters SYNC, with whatever syncs were unanswered as the older ones |
| Backups.BackupsAreAccountedFor | desktop/daemon/src/runtime.rs:1056-1065 | backups written, armed and flagged never exceed the COOLDOWN-to-SYNC transitions, and a deadline is 20 s after the sync that settled the session |
| Backups.WrittenOnlyWhenSettled | desktop/daemon/src/runtime.rs:1309-1320 | a backup is written by a tick in IDLE, 20 s or more after the sync that ended SYNC, with only IDLE since, one at a time |
| Backups.WritesOnlyInIdle | desktop/daemon/src/runtime.rs:1285-1301 | no backup, tap rate save, initial row or last-seen write is emitted by an event that ends outside IDLE |
| Backups.EventArms | desktop/daemon/src/runtime.rs:1354-1364 | only a flagged sync's completion arms, only the way from COOLDOWN to SYNC flags, only a tick past the deadline writes |
| TapQueue.AttemptsAreConserved | desktop/daemon/src/runtime.rs:610-657 | every attempt that ended and is worth keeping is exactly one of saved, dropped or queued; the queue is the newest, at most 500; the oldest leave first; the table holds the saved ones once, in end order; which are worth keeping is `TapQueue.EndedIsQueuedExactly` |
| TapQueue.EndedIsQueuedExactly | desktop/daemon/src/runtime.rs:632-652 | by its log: an attempt that ends is queued exactly when it was the player's own and holds ten presses or more, two of them in a row within a second |
| TapQueue.NoReplayIsKept | desktop/daemon/src/runtime.rs:642-652 | in every run no replay is queued, handed over to be saved, or in the table |
| TapRate.RecordableExactly | desktop/crates/opad-model/src/tap_rate.rs:207-212 | the incremental counts agree with the presses of the log one by one |
| TapQueue.EventQueues | desktop/daemon/src/runtime.rs:642-657 | an event ends at most the attempt being played, or hands the whole queue over, never both |
| TapQueue.HandledConserves | desktop/daemon/src/main.rs:670-715 | a save that is taken or refused as a whole keeps the account, refused attempts going back in front |
| TapQueue.RefusedGoInFront | desktop/daemon/src/runtime.rs:614-628 | unsaved attempts go in front of those ended since, and the newest five hundred stay |
| PressSources.OneSourcePerAttempt | desktop/daemon/src/runtime.rs:508-608 | an attempt not marked replay is fed by one source only, a replay's source is tosu, and the pad epoch is the earliest batch of the connection |
| PressSources.PadPressesAreNotLate | desktop/daemon/src/runtime.rs:575-608 | no pad press is stamped after its batch arrived or before its attempt |
| PressSources.EventSources | desktop/daemon/src/runtime.rs:1107-1143 | every event keeps one source per attempt and the epoch the minimum of the batches |
| ForeignPads.ForeignPadIsLeftAlone | desktop/daemon/src/runtime.rs:117-135 | until takeover or loss, no run sends a foreign pad a config, layout, value, animation or claim, or triggers a sync, and it stays guarded |
| ForeignPads.ConnectedLeaves | desktop/daemon/src/runtime.rs:770-877 | the very connect that judges the pad someone else's already leaves it alone and raises the prompt |
| ForeignPads.ForeignPadMayAskForReplacement | desktop/daemon/src/runtime.rs:804-840 | a foreign pad that is new here and nearly blank raises the replacement prompt as well when this PC is ahead |
| HostStatuses.PadIsNeverMisled | desktop/daemon/src/runtime.rs:1067-1105 | while connected, the last status says playing only in PLAYING; the results flags mean the last frame was the player's own unfailed play, or a results screen |
| HostStatuses.MissesExactlyWhenTosuIsBack | desktop/daemon/src/runtime.rs:1145-1175 | a pad in play starts to believe no map is on exactly when tosu comes back mid-play |
| HostStatuses.HeartbeatHeals | desktop/daemon/src/runtime.rs:1225-1236 | a due heartbeat leaves the pad with the truth |
| HostStatuses.AnimationsFollowOwnPlay | desktop/daemon/src/runtime.rs:466-506 | an animation is the last thing sent by the first results frame right after the player's own unfailed play, to a connected pad that is ours, after a not-playing status |
| HostStatuses.EventSays | desktop/daemon/src/runtime.rs:850-860 | every event tells the pad its mode or changes nothing the pad should hear, but for tosu coming back |
| Connecting.IncompatiblePadLeavesNoTrace | desktop/daemon/src/runtime.rs:707-735 | a pad of another protocol: what its HelloAck wrote is put back, nothing is sent, saved or adopted; only whether it times its presses stays, with no epoch |
| Connecting.OwnPadIsGivenOurs | desktop/daemon/src/runtime.rs:848-877 | a pad not judged someone else's gets our config exactly when it brought none or, being known and having presses here, reports none in a first generation; all custom layouts and no other, the true status, and a sync exactly when idle with the database in order and no prompt up |
| Connecting.PadIsKnownOrAskedAbout | desktop/daemon/src/runtime.rs:803-846 | over the whole connect: when the replacement prompt is raised and for which pad, when the pad becomes known, and that its row is written exactly in IDLE |
| Connecting.AnsweredIsNotAskedAgain | desktop/daemon/src/runtime.rs:1418-1423 | across an answered prompt, the pad's going and its coming back: no prompt is raised anew; while the prompt is up the pad stays unknown |
| Connecting.BlankPadIsRestoredExactly | desktop/daemon/src/runtime.rs:736-768 | exactly for a known pad that comes back blank is a restore pending, our configuration kept and nothing saved; any other pad's configuration is adopted, but for endpoint and animations, and saved once |
| Connecting.OwnerDecides | desktop/daemon/src/runtime.rs:770-801 | from the owner's bytes: whose the pad is, the prompt with the presses it reported, the claim and the silent takeover |
| Connecting.ReportIsTaken | desktop/daemon/src/runtime.rs:884-921 | a whole HelloAck: after the connect the counters and the copy of the pad's are its identity, generation and presses |
| RuntimeFacts.PlayNumberMovesExactly | desktop/daemon/src/runtime.rs:1029-1037 | the play number moves exactly with a frame that starts an attempt |
| RuntimeFacts.PlayNumberCountsAttempts | desktop/daemon/src/runtime.rs:1029-1037 | over every run the play number counts the attempts started, modulo 2^32, and nothing else moves it |
| RuntimeFacts.ReportsAreTaken | desktop/daemon/src/runtime.rs:910-921 | every report brings its presses; one with an identity that and the generation, one without the map counts; nothing else moves |
| RuntimeFacts.PadLogGoesOn | desktop/daemon/src/runtime.rs:970-1012 | every line of the pad's log goes on in order, and the first that reports erased storage asks for a restore once |
| Attempts.FrameBegins | desktop/daemon/src/runtime.rs:1024-1055 | what a new attempt is: when it began, its beatmap, whose it is, and that the one before is the last shown |
| Attempts.AttemptEnds | desktop/daemon/src/runtime.rs:632-652 | a failed, finished or lost play ends its attempt, which is shown as the last |
| Attempts.TosuKeysCount | desktop/daemon/src/runtime.rs:508-573 | when tosu's key counts are fed, held back, or make an attempt tosu's, by source and pad |
| Attempts.PadPressesCount | desktop/daemon/src/runtime.rs:575-608 | which presses of a pad batch are fed, stamped how, and when none is |
| Ticks.TickAsks | desktop/daemon/src/runtime.rs:1193-1283 | when exactly a tick asks for the status, sends the time, triggers a sync and allows storage writes |
| Ticks.TickEmitsSaves | desktop/daemon/src/runtime.rs:1285-1320 | when exactly it saves attempts and period, rereads the history and writes the backup |
| Ticks.TickFlushes | desktop/daemon/src/runtime.rs:1238-1252 | its flush is exactly what a pad of ours does not have, in order, when the mode's interval has passed |
| RuntimeFacts.CalibrationOpensOnce | desktop/daemon/src/runtime.rs:893-950 | over every run the calibration page is opened at most once between two losses of the pad |
| RuntimeFacts.OpenKeeps | desktop/daemon/src/runtime.rs:923-950 | and only by the report of a pad that said it can calibrate and is not calibrated |
| RuntimeFacts.ReopenedLayouts | desktop/daemon/src/runtime.rs:1366-1382 | the reopened database's layouts replace those of their screens and no others |
| Startup.RunsStartCoherent | desktop/daemon/src/runtime.rs:372-463 | a fresh daemon meets all the run invariants: the runtime's, the replication's, the flash pause's and, for any follower and for a page just opened, the log's |
| Scenarios.OlderSyncEndsSync | desktop/daemon/src/runtime.rs:1193-1364 | from any fresh start with any known pad: connect, a play shorter than its sync, the cooldown, and the connect's sync answers: IDLE, backup armed, the play's own sync unanswered |
| Scenarios.LateValueIsWiped | desktop/daemon/src/main.rs:429-463 | from any fresh start: a pad connects, a frame of tosu's comes before its connection does, two ticks, a drained pipe: the pad shows nothing where the cache marks the value sent, and no repair is due |
| Controller.RuntimeController.constructor | desktop/daemon/src/runtime.rs:372-463 | the controller starts idle with nothing armed, played or known but the stored pads |
| Controller.RuntimeController.ApplyEvent | desktop/daemon/src/runtime.rs:1402-1437 | one event works on exactly the shared state, remembers an answered replacement, hands over what it deferred, and leaves the controller's own copy alone |
| Controller.RuntimeController.HandleEvent | desktop/daemon/src/runtime.rs:703-1391 | the object's step and its ordered actions are the step the run theorems speak of |
| Controller.RuntimeController.Connected | desktop/daemon/src/runtime.rs:707-882 | connect: incompatible pads leave no trace; else config, owner, registration, greeting, in order |
| Controller.RuntimeController.JudgePadOwner | desktop/daemon/src/runtime.rs:773-801 | the four ownership cases and what each emits |
| Controller.RuntimeController.RegisterPad | desktop/daemon/src/runtime.rs:803-846 | new pad, replacement prompt or known pad |
| Controller.RuntimeController.GreetPad | desktop/daemon/src/runtime.rs:848-881 | what a connected pad is sent, and the reset of what was sent |
| Controller.RuntimeController.Disconnected | desktop/daemon/src/runtime.rs:893-908 | all of the pad's traces go |
| Controller.RuntimeController.CountersReported | desktop/daemon/src/runtime.rs:910-921 | a full report replaces identity and generation, a status only the map counts |
| Controller.RuntimeController.LogBatch | desktop/daemon/src/runtime.rs:970-1012 | the first erasure report asks for a restore once |
| Controller.RuntimeController.Telemetry | desktop/daemon/src/runtime.rs:1014-1105 | a tosu frame: play, end of play, results |
| Controller.RuntimeController.PlayingTelemetry | desktop/daemon/src/runtime.rs:1029-1079 | retries by rewind, fails on the edge, entering PLAYING, announcing a new attempt |
| Controller.RuntimeController.ResultsScreen | desktop/daemon/src/runtime.rs:466-506 | arming and the once-per-visit decision |
| Controller.RuntimeController.WatchAnotherPlay | desktop/daemon/src/runtime.rs:515-532 | a replay switches to tosu and takes the held presses |
| Controller.RuntimeController.CountTosuPresses | desktop/daemon/src/runtime.rs:537-573 | the three sources, the eight held presses and what is shown |
| Controller.RuntimeController.PadPressBatch | desktop/daemon/src/runtime.rs:575-608 | epoch, filter by attempt, stamping press by press |
| Controller.RuntimeController.KeyCounts | desktop/daemon/src/runtime.rs:1107-1122 | deltas across counters that restart |
| Controller.RuntimeController.RequeueTapAttempts | desktop/daemon/src/runtime.rs:614-629 | unsaved attempts go back in front, capped from the oldest |
| Controller.RuntimeController.FinishTapAttempt | desktop/daemon/src/runtime.rs:642-657 | the ended attempt is shown, and queued if recordable |
| Controller.RuntimeController.TosuConnection | desktop/daemon/src/runtime.rs:1145-1175 | tosu gone ends play and forgets its values, but not the history |
| Controller.RuntimeController.TickEvent | desktop/daemon/src/runtime.rs:1192-1321 | the tick's parts, in order |
| Controller.RuntimeController.SyncDone | desktop/daemon/src/runtime.rs:1323-1364 | a completed sync's copies, the way out of SYNC and the arming |
| Controller.RuntimeController.StorageBack | desktop/daemon/src/runtime.rs:1366-1382 | the reopened database's config, layouts and counters |
| Telemetry.FlushIntervalBounds | desktop/daemon/src/telemetry.rs:15-18 | between 33 ms and a second, and no longer for a higher rate |
| Telemetry.FlushIntervalIsTheRate | desktop/daemon/src/telemetry.rs:15-18 | interval times rate is a second to the millisecond, from one to thirty hertz |
| Telemetry.FlushSendsAll | desktop/daemon/src/telemetry.rs:34-61 | after a flush that is due, what is marked sent is what is known and the next diff is empty |
| Telemetry.DiffIsEnough | desktop/daemon/src/telemetry.rs:50-60 | the diff brings any copy that agreed with what was sent to what is now marked sent, touching only changed sources |
| Telemetry.ListingIs | desktop/daemon/src/telemetry.rs:50-57 | the diff lists exactly the changed pairs, in strictly ascending order of source |
| Telemetry.SentStaysWithin | desktop/daemon/src/telemetry.rs:29-72 | nothing is marked sent that is not known, through every operation |
| Telemetry.DataSync.Ingest | desktop/daemon/src/telemetry.rs:29-31 | the newest value of each source wins |
| Telemetry.DataSync.TakeChanges | desktop/daemon/src/telemetry.rs:34-61 | the sorted diff, marked sent, when the interval has passed or it is forced |
| Telemetry.DataSync.Clear | desktop/daemon/src/telemetry.rs:68-72 | tosu gone: known and sent values go, the flush time stays |
| DeviceActor.ExecutionIs | desktop/daemon/src/device_actor.rs:79-101 | telemetry is tried once and asks for a resend on a full queue; the rest is tried up to six times, only while the queue is full, and never asks |
| DeviceActor.Actor.Execute | desktop/daemon/src/device_actor.rs:79-101 | the attempt loop sends, flags or drops as its answers say |
| DeviceActor.Actor.Drain | desktop/daemon/src/device_actor.rs:115-124 | commands go out in queue order, and a resend is asked for exactly when some diff met a full queue |
| DataSteps.EventData | desktop/daemon/src/runtime.rs:703-1391 | for every event, from the state before it: the values known afterwards, the statuses sent, whether and how it flushes, and that the messages are those and no others; connecting forgets what was sent, tosu's loss its values |
| PadData.HoldsIsShown | firmware/main/ui/core/ui_data.c:180-188 | a value the pipe holds is shown once everything in it has arrived |
| PadData.HoldsInChunks | desktop/crates/opad-device/src/lib.rs:892-918 | splitting a diff into messages of 32 keeps it |
| PadData.HoldsWithoutStatus | desktop/daemon/src/device_actor.rs:90-98 | a dropped host status keeps it |
| PadData.AppliedChunks | desktop/crates/opad-device/src/lib.rs:892-918 | an update arriving in parts has the effect of the whole |
| Replication.PadAgreesWithSent | desktop/daemon/src/telemetry.rs:29-72 | replication safety: in every run, unless a repair is due, what is on its way applied to what the pad shows is exactly what is marked sent, on every source but those broken since they were last sent; and sent is within known |
| Replication.AgreementIsLostExactly | desktop/daemon/src/runtime.rs:1067-1236 | from a source that agrees, a turn breaks it exactly when it tells the pad that tosu is away while a value of tosu's is marked sent and not sent again behind that, or starts an attempt with a foreign pad that lacks the value |
| Replication.OvertakenIsWiped | firmware/main/ui/ui_port.c:320-330 | in the first case the pad ends up showing nothing there, while the cache marks the value sent |
| Replication.TidyRunsAgree | desktop/daemon/src/telemetry.rs:29-72 | in runs with no tosu frame while tosu is away and none with a foreign pad, everything marked sent is shown or on its way whenever no repair is due |
| Replication.PadConverges | desktop/daemon/src/main.rs:513-519 | replication convergence, from any state with the link up: one tick past the interval and a drained pipe leave the pad showing everything known when a repair was asked for, whatever was dropped, withheld or overtaken; otherwise, with no greeting outstanding, everything but the broken sources |
| Replication.SendKeeps | desktop/daemon/src/device_actor.rs:79-101 | a send that succeeds, meets a full queue midway or finds no pad keeps the invariant |
| Replication.StepKeeps | desktop/daemon/src/main.rs:513-519 | every step keeps the invariant: a runtime turn with the tick's repair, a send, a delivery, a lost, recovered or reopened link |
| Replication.PipeDrains | desktop/daemon/src/device_actor.rs:115-124 | with the link up, sends and deliveries empty the pipe with the effect of applying it in order |
| Replication.ForcedFlushIsSwallowed | desktop/daemon/src/runtime.rs:1075-1079 | with a foreign pad the forced flush marks all sent, sends nothing, and later flushes send nothing until a value changes |
| Replication.OwesExactly | desktop/daemon/src/runtime.rs:1075-1079 | it owes the pad something exactly when something had changed |
| Counters.ReconciledIsAccepted | desktop/crates/opad-storage/src/lib.rs:699-727 | the reconciled counters are acceptable to the pad unforced, in the newer generation, and lose no press within one |
| Counters.AcceptedExactly | firmware/main/counters/counter_sync_rules.c:4-26 | the pad accepts unforced exactly what reconciling against it would not move |
| Counters.ReconcileSettles | desktop/crates/opad-storage/src/lib.rs:699-727 | reconciling twice with the same pad changes nothing |
| CounterSync.Exchange | desktop/daemon/src/sync.rs:360-447 | at most three attempts, each with what the last refusal taught and others' writes in between |
| CounterSync.PerformSync | desktop/daemon/src/sync.rs:229-531 | the whole sync: who is synced, every message and every database write in order, what is drained, and the copies, with arbitrary changes of the rest of the daemon at each wait, between the messages that carry out what waited included |
| CounterSync.SendsExactly | desktop/daemon/src/sync.rs:256-315 | a sync asks for the status exactly when it found a pad of ours as it began, and sends counters and the rest exactly when that pad also reached IDLE, whatever happened while it waited |
| CounterSync.SuccessAgrees | desktop/daemon/src/sync.rs:460-531 | whatever others did meanwhile, a success leaves the three copies at the counters it returns |
| CounterSync.SettledRowAndQueue | desktop/daemon/src/sync.rs:463-486 | at once after the attempts the pad's row is at them, with nothing left queued but a reset it did not deliver |
| CounterSync.DrainedGoesOut | desktop/daemon/src/sync.rs:471-518 | everything queued when the pad's clock had been set goes out last, in order, whatever others do between the messages |
| CounterSync.QueuedConfigIsSaved | desktop/daemon/src/sync.rs:485-494 | a configuration that waited is in the database and shown when the sync ends, unless others change it meanwhile |
| CounterSync.ConfigIsWrittenBeforeSent | desktop/daemon/src/sync.rs:485-494 | it is there before the pad is sent it: what others would do on finding another changes nothing |
| CounterSync.QueuedLayoutsAreSaved | desktop/daemon/src/sync.rs:496-512 | so is the last layout that waited for each screen |
| CounterSync.FailedSyncKeepsTheRow | desktop/daemon/src/sync.rs:447-458 | a sync refused to the end keeps what it learned in the row, the counters shown and the queue |
| CounterSync.ReturnedIsAccepted | desktop/daemon/src/sync.rs:360-458 | with an honest pad, what a success returns was sent last and satisfies the pad's rule then |
| CounterSync.ResendIsAcceptable | desktop/daemon/src/sync.rs:393-425 | what is sent after a refusal would be accepted by the pad that refused |
| CounterSync.NothingIsLost | desktop/daemon/src/sync.rs:330-335 | an ordinary sync settles on counters that cover the row, memory and every report on the way |
| CounterSync.OfflineResetWins | desktop/daemon/src/sync.rs:337-349 | an offline reset that gets through leaves zero counters above the pad's report, every attempt the same |
| CounterSync.ResetIsSticky | desktop/daemon/src/sync.rs:393-425 | refusals below the reset's generation do not move it |
| CounterSync.ResetSurvivesExactly | desktop/daemon/src/sync.rs:393-425 | a refusal undoes the reset exactly when it reports presses in that generation or a newer one |
| CounterSync.ResetOutranksExactly | desktop/daemon/src/sync.rs:533-551 | the reset outranks the pad's report exactly while a generation is left above it |
| IpcHandlers.GuardedPadIsTouchedExactly | desktop/daemon/src/ipc_handlers.rs:77-84 | a guarded pad is sent something exactly by a takeover, its claim first, by a replacement's restore and by the one request that asks nobody; the nine requests that ask refuse and change nothing |
| IpcHandlers.LeftAloneStaysGuarded | desktop/daemon/src/ipc_handlers.rs:767-777 | "leave it alone" clears the prompt only, and the pad stays guarded |
| IpcHandlers.ReplacementSendsExactly | desktop/daemon/src/ipc_handlers.rs:872-946 | answering the replacement prompt sends counters exactly when it restores a known row outside play, guarded or not, and a foreign pad stays one |
| IpcHandlers.ReplacementGivesBack | desktop/daemon/src/ipc_handlers.rs:900-945 | restore sends, shows, answers and writes down the previous pad's presses for the connected one, above both generations; new pad writes down what it showed |
| IpcHandlers.AboveExactly | desktop/daemon/src/ipc_handlers.rs:626-630 | a handler's generation is above both sides exactly below saturation |
| IpcHandlers.ImposedIsSettled | desktop/daemon/src/ipc_handlers.rs:573-734 | restore and import make memory, both copies, the pad's message and the row one and the same, with the right side's presses |
| IpcHandlers.OfflineResetWaits | desktop/daemon/src/ipc_handlers.rs:544-568 | an offline reset sends nothing, shows zero and waits for its pad |
| IpcHandlers.OfflineResetReachesThePad | desktop/daemon/src/ipc_handlers.rs:544-568 | whatever the pad reports on return, the sync that follows forces zeroes above it |
| IpcHandlers.OfflineResetIsDelivered | desktop/daemon/src/sync.rs:337-458 | from the request to the pad: in the sync that gets through, whatever others do meanwhile, every counter message is the same zeroed one, forced, above the pad's report, and the three copies end as it |
| IpcHandlers.ConnectedResetGoesOut | desktop/daemon/src/ipc_handlers.rs:544-570 | a reset with the pad there: the same zeroes, one generation on, shown, answered, in the row and forced on the pad |
| IpcHandlers.SecondResetIsLostExactly | desktop/daemon/src/sync.rs:471-482 | whenever a reset for the pad came to be queued while a sync of it runs, and whatever others do at any of its waits: the sync drops it exactly when it names the pad as the delivered one does, and overwrites its row |
| IpcHandlers.ResetDuringIsQueued | desktop/daemon/src/sync.rs:364-461 | a reset made during any attempt or while the clock is set, with any other changes that leave it queued, is such a one |
| IpcHandlers.LostResetShowsExactly | desktop/daemon/src/sync.rs:330-349 | then, at any later desk with that queue and row, the next sync sends presses exactly when the pad reports some in a generation not below the row's; a reset that was kept sends zeroes whatever it reports |
| IpcHandlers.SecondResetIsLost | desktop/daemon/src/sync.rs:471-482 | such a sync, and one press that is back after the next |
| IpcHandlers.QueuedLayoutIsCarriedOut | desktop/daemon/src/ipc_handlers.rs:207-219 | a layout set or reset in play is sent at once and queued last, and a sync that gets through with it queued, whatever else is, writes it down and sends it again |
| IpcHandlers.QueuedConfigIsCarriedOut | desktop/daemon/src/ipc_handlers.rs:442-473 | a configuration set in play, deferred or not, is on the pad, in the database and shown after the next sync that gets through |
| IpcHandlers.ConfigGoesWhere | desktop/daemon/src/ipc_handlers.rs:432-492 | what of a configuration request is saved, shown, sent or queued, in play and outside |
| IpcHandlers.RejectedExactly | desktop/daemon/src/ipc_handlers.rs:432-734 | when each request is rejected, and that it then changes and sends nothing |
| IpcHandlers.ImportedBackupGoesAnywhere | desktop/daemon/src/ipc_handlers.rs:1078-1116 | an imported backup's counters are forced on the connected pad and written to the row of the backup's pad, which is the connected one's exactly when they are the same |
| IpcHandlers.ClaimComesFirst | desktop/daemon/src/ipc_handlers.rs:818-835 | nothing reaches a pad being taken over before its claim, nothing at all when the claim fails, and the prompt is then back |
| IpcHandlers.TakeoverImposes | desktop/daemon/src/ipc_handlers.rs:789-858 | whose presses a takeover imposes, in which generation, and that they go out behind the claim, before configuration and layouts |
| IpcHandlers.SilentTakeoverLosesNothing | desktop/daemon/src/ipc_handlers.rs:28-75 | a takeover without asking keeps the pad's presses, at least this PC's, in a generation above pad and row; unresolved, no counter changes |
| IpcHandlers.MemoryIsOutrankedExactly | desktop/daemon/src/ipc_handlers.rs:42-48 | counters known from memory only are outranked exactly when not newer than the pad's |
| IpcHandlers.Handlers.HandleRequest | desktop/daemon/src/ipc_handlers.rs:86-1125 | the twelve requests, the guard asked first by all but three |
| IpcHandlers.Handlers.UpdateConfig | desktop/daemon/src/ipc_handlers.rs:432-492 | deferral of key changes in play, RAM-only changes in play, save and send |
| IpcHandlers.Handlers.SetLayout | desktop/daemon/src/ipc_handlers.rs:186-236 | what is rejected, what is applied and queued in play, saved, sent and confirmed outside |
| IpcHandlers.Handlers.ResetLayout | desktop/daemon/src/ipc_handlers.rs:238-268 | the same for the pad's own layout |
| IpcHandlers.Handlers.ForceSync | desktop/daemon/src/ipc_handlers.rs:494-517 | a whole sync, outside play and with the database open |
| IpcHandlers.Handlers.ImportBackup | desktop/daemon/src/ipc_handlers.rs:1005-1125 | the backup's configuration and counters, saved, shown and sent |
| IpcHandlers.Handlers.ResetCounters | desktop/daemon/src/ipc_handlers.rs:519-570 | refusals, zeroing in the next generation, forced send or queueing |
| IpcHandlers.Handlers.RestoreDeviceFromPc | desktop/daemon/src/ipc_handlers.rs:573-657 | the row's presses imposed on the pad |
| IpcHandlers.Handlers.ImportPcFromDevice | desktop/daemon/src/ipc_handlers.rs:659-734 | the pad's presses imposed on the row |
| IpcHandlers.Handlers.ResolveTakeover | desktop/daemon/src/ipc_handlers.rs:736-870 | the order of checks, what puts the prompt back, and the takeover |
| IpcHandlers.Handlers.ResolveReplacement | desktop/daemon/src/ipc_handlers.rs:872-946 | restore from the previous pad, or adopt as new |
| IpcHandlers.Handlers.TakeOverIfPadIsAhead | desktop/daemon/src/ipc_handlers.rs:28-75 | the decision and whether it resolved |
| OwnershipRuns.NothingReachesAForeignPad | desktop/daemon/src/runtime.rs:117-136 | from the connect that judges a pad someone else's until it is lost, in every interleaving of events, requests, silent takeovers, syncs, each split at its waits, and other writes: until the pad takes a claim made since or an older takeover ends, nothing reaches it but proper claims, a replacement's restore of a stored row, the one unguarded value, and what requests and syncs begun before the connect still send; it stays guarded until then |
| OwnershipRuns.StepKeeps | desktop/daemon/src/ipc_handlers.rs:736-870 | every step keeps that, and every claim is one answered with yes, or made unasked with no presses to lose, and none sticks that was not made |
| OwnershipRuns.SyncOutlivesThePad | desktop/daemon/src/sync.rs:256-360 | a sync that began with a pad of ours still sends when a pad of another install has connected |
| OwnershipRuns.TakeoverOutlivesThePad | desktop/daemon/src/ipc_handlers.rs:830-858 | a takeover whose pad goes after its claim: the pad of another install that comes in its place gets the first one's counters, forced, the configuration and the layouts, and loses its guard with no claim made on it |
| OwnershipRuns.GuardFallsExactly | desktop/daemon/src/ipc_handlers.rs:852-858 | a guarded foreign pad loses its guard with a step exactly when that step ends a takeover |
| OwnershipRuns.TakeoverAlone | desktop/daemon/src/ipc_handlers.rs:736-870 | run without anything in between, the split takeover leaves the desk and sends the messages of the whole one, and a refused claim leaves everything as it was |
| FlashPause.NoAbandonedPause | desktop/daemon/src/ipc_handlers.rs:1184-1244 | in any interleaving of any connections, a paused pad is paused on an open connection's account; with none open it is not paused |
| FlashPause.StepKeeps | desktop/daemon/src/ipc_handlers.rs:1534-1566 | every step of every connection keeps that, a lost answer and a leaving client included |
| FlashPause.ClaimIsLostExactly | desktop/daemon/src/ipc_handlers.rs:1184-1244 | from a pad paused exactly on someone's account, a step leaves it so exactly when it does not release the pause (handing back, a late port, an image written, the end of a holding connection) while the releasing connection goes on holding or another one has a claim |
| FlashPause.PausedExactlyWhenClaimed | desktop/daemon/src/ipc_handlers.rs:1532-1566 | over whole runs: paused exactly on someone's account at every point, exactly when no step does that |
| FlashPause.AnotherClientResumes | desktop/daemon/src/ipc_handlers.rs:1240-1244 | one client resumes the pad another has ready to flash |
| FlashPause.HandshakeComesFirst | desktop/daemon/src/ipc_handlers.rs:1511-1524 | nothing but a Handshake is handled before one succeeds, although another answer looks the same |
| FlashPause.NothingAfterTheEnd | desktop/daemon/src/ipc_handlers.rs:1511-1566 | a refused handshake, a request before one or an undelivered answer is a connection's last |
| FlashPause.HoldsExactly | desktop/daemon/src/ipc_handlers.rs:1501-1509 | a connection holds the pause exactly when it got the pad ready and has not handed it back |
| FlashPause.ServeConnection | desktop/daemon/src/ipc_handlers.rs:1532-1566 | the loop handles and resumes as its exchanges say |
| Logs.LogHub.Push | desktop/daemon/src/log_hub.rs:38-63 | one out when full, a day's entries kept, the new one last |
| Logs.LogHub.GetMatchingEntries | desktop/daemon/src/log_hub.rs:65-98 | the reply for a cursor or without one, and the latest number |
| Logs.PushedValid | desktop/daemon/src/log_hub.rs:38-63 | numbers rise through the ring, its size stays bounded, and nothing but the new entry appears |
| Logs.PushKeepsExactly | desktop/daemon/src/log_hub.rs:38-63 | of the ring before exactly what is at most a day old stays, a full one giving up its oldest |
| Logs.ReplyAfter | desktop/daemon/src/log_hub.rs:65-98 | a reply after a cursor skips nothing that matches below its last entry |
| Logs.ReplyNewest | desktop/daemon/src/log_hub.rs:65-98 | a reply without a cursor skips nothing that matches above its first |
| LogFollow.FollowIsExactlyOnce | desktop/cli/src/main.rs:544-582 | for a client that awaits each poll, in any interleaving of pushes and polls, what was delivered is in order and is exactly the matching entries of the range that were not evicted unseen |
| LogFollow.StepKeepsInv | desktop/cli/src/main.rs:1061-1067 | every push and every awaited poll keeps that |
| LogFollow.QuietPollAdvances | desktop/cli/src/main.rs:1065-1067 | a quiet poll delivers exactly the next entries up to its limit |
| LogFollow.QuietPollsCatchUp | desktop/cli/src/main.rs:1061-1067 | enough quiet polls deliver everything that waited |
| LogFollow.RestartSeesExactly | desktop/gui/src/main.rs:3103-3114 | for a client that awaits its polls: of a restarted daemon's ring exactly the entries above the old cursor are delivered or ahead; the others never come |
| LogFollow.RestartLosesALine | desktop/gui/src/main.rs:3103-3114 | a concrete line that never comes |
| GuiFollow.EachLineOnce | desktop/gui/src/main.rs:832-851 | with any number of log requests in flight, answered and arriving in any order or lost, in every interleaving with pushes, the GUI's own lines and pruning: no line is listed twice, and of the lines the cursor answers for, those neither pruned nor on their way are listed exactly when they did not leave the ring before the list or an answer held them |
| GuiFollow.StepKeeps | desktop/gui/src/main.rs:648-663 | every push, request, answer, arrival, loss and own line keeps the account of what is listed, on its way, pruned and missed |
| GuiFollow.InOrderExactly | desktop/gui/src/main.rs:840-848 | in every run the list is by number at every point exactly when no reply comes late, with a line not listed that is older than one that is |
| GuiFollow.OvertakenExactly | desktop/gui/src/main.rs:832-851 | in every run in which no reply without a cursor comes to a page that has one: exactly when no reply is overtaken, that is, lacks its place because a line of it left the ring before a later answer that was listed first, or brings back a pruned line |
| GuiFollow.OutOfOrderExactly | desktop/gui/src/main.rs:832-851 | the same for one arrival |
| GuiFollow.OneAtATimeIsPlain | desktop/gui/src/main.rs:840-848 | with no request made while one is in flight, every reply is listed in full and the list stays by number, in every run |
| GuiFollow.DuplicateCheckDropsNothing | desktop/gui/src/main.rs:840-848 | a reply wholly above the cursor and everything listed is listed in full |
| GuiFollow.ListedInFullExactly | desktop/gui/src/main.rs:840-848 | a reply is listed in full exactly when none of it shares source and number with what is listed |
| GuiFollow.PastIsPast | desktop/gui/src/main.rs:3103-3114 | no line numbered up to one that the cursor and all requests in flight are past is ever listed any more, in any continuation |
| GuiFollow.RestartHides | desktop/gui/src/main.rs:3103-3114 | so a page with nothing in flight never lists what a restarted daemon has numbered up to its cursor |
| GuiFollow.TheCheckDrops | desktop/gui/src/main.rs:603-665 | a run from the opened page in which two replies bring the same line and the check drops it |
| GuiFollow.OvertakenReply | desktop/gui/src/main.rs:832-851 | a run from the opened page in which an overtaken reply lists line 2 behind line 3 |
| GuiFollow.SecondStartReorders | desktop/gui/src/main.rs:648-663 | a run in which two requests made before there is a cursor list an older line behind newer ones |
| GuiFollow.SecondStartSkips | desktop/gui/src/main.rs:648-663 | a run in which they leave a line of the ring unlisted in every continuation |
| GuiFollow.GuiLogs.Received | desktop/gui/src/main.rs:832-851 | cursor, list and pruning after a reply |
| GuiFollow.GuiLogs.Prune | desktop/gui/src/main.rs:3083-3090 | a day's entries, the last 5000 of them |
| GuiFollow.PrunedExactly | desktop/gui/src/main.rs:3083-3090 | pruning keeps the last day's lines, the newest 5000 in the list |
| SingleInstance.ExactlyOnePrimary | desktop/gui/src/single_instance.rs:43-83 | from a clean path, when all launches have returned exactly one is the instance, with its listener, and the rest handed off |
| SingleInstance.OnePrimary | desktop/gui/src/single_instance.rs:43-83 | at any time at most one, and a live socket is never unlinked |
| SingleInstance.EveryStepProgresses | desktop/gui/src/single_instance.rs:48-80 | every launch returns within six of its own steps |
| SingleInstance.SingleInstanceExactly | desktop/gui/src/single_instance.rs:43-83 | no schedule makes two instances exactly for one launch, or no stale file and no gap between bind and listen |
| SingleInstance.StaleStartMakesTwo | desktop/gui/src/single_instance.rs:66-74 | a stale file lets the second launch unlink the first one's socket |
| SingleInstance.SplitListenMakesTwo | desktop/gui/src/single_instance.rs:49-74 | a gap between bind and listen does too |
| SingleInstance.SocketPath.ClaimAt | desktop/gui/src/single_instance.rs:43-83 | the two-attempt loop on its own: hand off to a live instance, else become it |
| SingleInstance.AloneMatchesTheSteps | desktop/gui/src/single_instance.rs:43-83 | the loop is the steps |
| TraceParser.ByteAccounting | firmware/tools/he_replay.c:181-229 | 38 bytes a frame, 42 a stats record and one a skip are the whole buffer or all but one byte |
| TraceParser.ParseIsAPartition | firmware/tools/he_replay.c:181-229 | the items, written out, are the buffer up to where reading stopped |
| TraceParser.RecordsRoundTrip | firmware/tools/he_replay.c:181-229 | any concatenation of encoded records is read back, nothing skipped |
| TraceParser.NoiseThenRecords | firmware/tools/he_replay.c:181-229 | also after leading noise without the sync byte |
| TraceParser.ItemBack | firmware/tools/he_replay.c:61-69 | the little-endian fields read what was written |
| TraceParser.LostCongruence | firmware/tools/he_replay.c:186-195 | lost plus seen frames less one is the distance of the sequence numbers modulo 65536 |
| TraceParser.LostIsExact | firmware/tools/he_replay.c:186-195 | it is the true loss exactly when no gap exceeds 65536, and never more |
| TraceParser.TotalsAccountForTheTrace | firmware/tools/he_replay.c:181-229 | the printed totals account for every byte but at most one, and for the sequence numbers |
| TraceParser.EstimatesBetweenReadings | firmware/tools/he_replay.c:205-218 | every estimator stays between the frame's least and greatest reading |
| TraceParser.EstimatesAre | firmware/tools/he_replay.c:205-218 | the newest reading, the rounded mean of the newest two and that of all |
| TraceParser.ReadingsAre | firmware/tools/he_replay.c:196-206 | a key's readings are its first eight valid conversions, in order |
| TraceParser.TotalsAre | firmware/tools/he_replay.c:181-229 | bad conversions and estimates over all frames, the last frame's drop count, the last counters |
| TraceParser.ReadFrame | firmware/tools/he_replay.c:196-206 | each key's valid conversions, at most eight, and the count of bad ones |
| TraceParser.Parse | firmware/tools/he_replay.c:181-229 | the loop's running totals are the totals of the items |
| Retrace.Analyse | firmware/tools/he_replay.c:121-150 | the one pass computes the extremes and the one-pass drops |
| Retrace.WindowPp | firmware/tools/he_replay.c:107-119 | the window loop computes the worst aligned window |
| Retrace.FallBounds | firmware/tools/he_replay.c:121-150 | no earlier reading is further above a later one than the fall |
| Retrace.FallAttained | firmware/tools/he_replay.c:121-150 | and some pair attains it: it is the maximum drawdown |
| Retrace.RiseBounds | firmware/tools/he_replay.c:121-150 | the same for the climb |
| Retrace.RiseAttained | firmware/tools/he_replay.c:121-150 | and attained |
| Retrace.RetraceCoversTheSpread | firmware/tools/he_replay.c:121-150 | the larger of fall and rise is the whole spread, for every series |
| Retrace.WorstBounds | firmware/tools/he_replay.c:107-119 | every full aligned window counts |
| Retrace.WorstAttained | firmware/tools/he_replay.c:107-119 | the worst window is one of them and at most the spread |
| Retrace.AvgRoundBetween | firmware/tools/he_replay.c:71-74 | the rounded mean of non-negative readings stays between their bounds |
| KeyView.NeverOvershoots | desktop/gui/src/keys.rs:107-225 | since the view was cleared, filtered, held and drawn values stay within any interval that holds the non-zero readings |
| KeyView.DrawnFrameHolds | desktop/gui/src/keys.rs:107-127 | after each frame the held value is within the dead zone of the filtered one, both there or neither |
| KeyView.FilterIs | desktop/gui/src/keys.rs:205-224 | the filter in closed form: shares of two low-passes whose cutoffs are these |
| KeyView.PressShowsAtOnce | desktop/gui/src/keys.rs:129-152 | a press shows the reading itself at once and until the next |
| KeyView.StillKeyStaysStill | desktop/gui/src/keys.rs:166-176 | a still key is drawn still |
| KeyView.Hold | desktop/gui/src/keys.rs:166-176 | the dead zone moves the held value no further than it must |
| KeyView.KeysState.StopLive | desktop/gui/src/keys.rs:97-105 | the view is cleared |
| KeyView.KeysState.Advance | desktop/gui/src/keys.rs:107-127 | one frame of both keys |
| KeyView.KeysState.TakeSample | desktop/gui/src/keys.rs:129-152 | one sample of both keys: lost, jumped by a press, or filtered |

## Left out

- ModeRuns.RunsAreCoherent: the guard is the one the runtime last set; the reopened database's own default is not part of it, because that storage is opened outside the controller.
- Backups.WritesOnlyInIdle: does not name `SaveDeviceConfig`, which a connect emits in any mode and which relies on the storage guard.
- Replication.PadAgreesWithSent: excepts the sources broken since they were last sent, because the property is false of them; `Replication.AgreementIsLostExactly` says which turns break one.
- OwnershipRuns.NothingReachesAForeignPad: what a request does between two waits is one step; what it writes on its way and what a sync sends are any at all.
- LogFollow.FollowIsExactlyOnce: for a client that awaits each poll, within one daemon life and short of a 64-bit wrap of the numbers.
- GuiFollow.EachLineOnce: within one daemon life and short of a 64-bit wrap; answers of an earlier daemon still on their way at a restart are not modelled, nor is the GUI's own count of lines saturating.
- SingleInstance.ExactlyOnePrimary: errors of bind and connect other than a taken address and a refused connection, after which a launch goes on without the socket, are not modelled.
- PressSources.OneSourcePerAttempt: tosu presses held when the pad disconnects mid-attempt are not fed, so no conservation of tosu presses is claimed.
- KeyView.NeverOvershoots: over the reals, without rounding, and with no NaN.
- Tap rate statistics: everything an attempt is fed is recorded and the shown values are functions of that record; only the test for keeping an attempt is computed.
- The text of grades, blank endpoints and hash table order: parameters of the runtime (`Runtime.Env`).
- The saving of a changed history period, and re-reading the history after a save.
- Telemetry text cut to 64 bytes on the wire, and the contents of other messages: the pad is modelled by the value each source shows.
- The contents of latency and calibration reports, beyond what decides whether the app is opened.
- `PreviewImport`, update, calibration, restart and board test requests: those that write to the pad ask the same guard first, and they touch nothing modelled here.
- The flashing itself, downloads, packaging, views, trays, board bring-up and log text.
