# The sensor server as a timed state machine

A Django server listens to battery-powered sensor nodes over MQTT. Seven message handlers and a dozen web
actions change the same rows: the device table (with its latched alert, its two request timers, its battery
cache and its calibration mirror), the command log, the append-only status log and the readings table. This
project models that state machine in Dafny and proves what holds over every run of it, together with the
three computations built on its tables: the status timeline, the merge of two devices, and cursor paging of
the read API.

## How the model is laid out

| file | content |
|---|---|
| `Domain.dfy` | rows, constants, windows and derived predicates |
| `Protocol.dfy` | what each handler and view does, as functions on values; `Step` and `Run` |
| `Server.dfy` | the same handlers and views as methods of a class that assigns columns and loops over tables, each proved to do what `Step` says |
| `Invariants.dfy`, `Reachable.dfy` | the invariant of the whole state, kept by every event of every run, and how far one handler may change the tables |
| `Ledger.dfy`, `Writes.dfy`, `Names.dfy` | the same system a second time, by the events alone: what each column of a device must be, what each event adds to the tables and the wire, which devices exist; written out in numbers and literals and proved equal to the handlers over every run |
| `History.dfy`, `MergeHistory.dfy`, `Agreement.dfy`, `Owed.dfy` | what the status log, the battery readings and the command log say about a device's row, exactly, through renames, merges and erasures |
| `AlertClock.dfy`, `Requests.dfy`, `DiagRate.dfy`, `Lifecycle.dfy`, `Ingestion.dfy`, `Identity.dfy`, `Pushes.dfy`, `CalibrationMirror.dfy` | further theorems over whole runs |
| `Timeline.dfy`, `Merging.dfy`, `Renaming.dfy`, `Removal.dfy`, `Paging.dfy`, `Topics.dfy`, `Spelling.dfy` | the computations over the tables |
| `Instances.dfy` | short runs in which a row and its tables part, one for each way they can |
| `Saves.dfy`, `Interleaving.dfy`, `RequestRace.dfy` | handlers split into their database operations, and these interleaved with web requests |

An `Event` is one message or one web request about one device, handled at one clock reading `now`; its flag
`up` says whether the broker accepts publishes meanwhile (the command view, whose two publishes matter to the
request timer, has a second flag). `Run(es)` is the state after the events `es` from empty tables, and `Timed(es)`
says that the clock never goes backwards. `wire` records every command published, with a `cause` the broker never
sees. Times are integers counting microseconds, so the 1.1 factor of the poll cooldown is the integer comparison
`10 * elapsed >= 11 * interval`. Values are exact reals; rounding to two or four decimals is round-half-even, as in
the source's language. `Prior` follows a device back through the event that renamed it; theorems about a device's
history use it, so they cover devices under all the identifiers they ever had. A merge leaves the target with rows
that recorded another device's history; what the tables say about its row after that is stated exactly, by when the
row and its log (`Apart`) and its readings (`LevelApart`) part and meet again, and which requests it still owes an answer
to (`OwedKeys`).

`CardOf(es, id)` is the device now called `id` as the events alone give it: a record column by column, in which no
handler, constant or helper of the operational side occurs. `RowIsCard` and `EventWrites` tie the two sides together, so a
handler that took a wrong branch, key, level or window would disagree with them.

`Run` takes events one after the other. What happens when a web request falls between two database operations of a
message handler is the subject of `Interleaving` and `RequestRace`: there a step is one save, one bulk update, one insert
or one transaction.

Every inductive proof is written out: lemmas on which Dafny would add an induction hypothesis of its own carry
`{:induction false}`.

Where code and documentation disagree the model follows the code:

- `docs/mqtt-protocol.md:491` says pending commands are flushed with `retain=True`; the code never retains.
- `docs/mqtt-protocol.md:385` gives a device 60 seconds to answer a capabilities request; the code waits
  `max(60, 3 * publish_interval)` seconds.
- `docs/read-api.md:60-62` tells clients to continue from the last returned timestamp. That loop does not
  always finish: it asks for the same page for ever when one timestamp carries a full page of rows and more
  rows than a page remain, and it is refused when a page that is not the last ends on a row at the exact end of
  the window. `Paging` proves for which tables it completes, for which it is refused, and gives a table of each kind.
- The identifier pattern also accepts one trailing newline, in topics and metric names.
- A rename forgets the location type and the diagnostics flag, so renaming there and back restores a device
  exactly when both had their defaults.
- After a merge the target keeps its own alert, battery level and request timer while its tables gain the source's
  rows, so each may disagree with them; exact conditions for all three are proved, and an instance of each is given.
- Erasing readings leaves the cached battery level; `Agreement` says exactly when that parts it from the readings.
- The merge view saves a `last_seen` it compared before, and the rename view creates its copy from what it loaded before;
  `Interleaving` says exactly when that undoes what a message saved in between.

## Model

| member | source | states |
|---|---|---|
| Server.Database.RequestCapabilities | web/mqtt_bridge/services.py:121-146 | publish, start the response timer, log on demand; a failed publish changes nothing |
| Server.Database.MaybeRequestDiag | web/mqtt_bridge/services.py:211-246 | the five guards and the poll refine the automatic-poll rule, which also starts the cooldown when the publish fails |
| Server.Database.RepushCalibration | web/mqtt_bridge/services.py:249-275 | the loop sends one restoring command per mirrored value, in mirror order |
| Server.Database.ResolveOtaUpdates | web/mqtt_bridge/services.py:278-295 | exactly the pending pushes of the running version are marked successful |
| Server.Database.CheckOtaTimeouts | web/mqtt_bridge/services.py:298-316 | exactly the pending pushes older than the window are marked timed out |
| Server.Database.FlushPendingCommands | web/mqtt_bridge/services.py:339-369 | the loop re-sends the unacknowledged commands except firmware pushes, oldest first |
| Server.Database.HandleSensorMessage | web/mqtt_bridge/services.py:372-605 | discovery, reconciliation, wake-up or timeout, and ingestion together do one `Step` |
| Server.Database.ReceiveSensorMessage | web/mqtt_bridge/services.py:391-514 | everything a sensor message does before the approval check |
| Server.Database.ReconcileAlert | web/mqtt_bridge/services.py:404-473 | which latched alert incoming data releases, with its log entry |
| Server.Database.WakeUpRequests | web/mqtt_bridge/services.py:481-491 | flush, then request capabilities, command list and, if capable, status |
| Server.Database.CheckCapabilitiesTimeout | web/mqtt_bridge/services.py:492-514 | an overdue request raises the alert, stops the timer and times out the logged requests |
| Server.Database.InsertReadings | web/mqtt_bridge/services.py:520-605 | poll, insert the valid readings, reconcile the battery |
| Server.Database.CollectReadings | web/mqtt_bridge/services.py:529-541 | the loop over the payload collects the valid rows and the last battery level among them |
| Server.Database.ReconcileBattery | web/mqtt_bridge/services.py:565-590 | cache the level and release a contradicted low-battery warning |
| Server.Database.HandleStatusMessage | web/mqtt_bridge/services.py:608-659 | a status report latches or clears the alert and always logs it; unknown device or level changes nothing |
| Server.Database.HandleCapabilitiesMessage | web/mqtt_bridge/services.py:676-818 | a capabilities message does one `Step`, nothing for an unknown device |
| Server.Database.StoreCapabilities | web/mqtt_bridge/services.py:782-818 | stops the timer, clears the timeout alert, resolves requests and pushes, restores a wiped store |
| Server.Database.HandleCalibrationMessage | web/mqtt_bridge/services.py:884-921 | the mirror is replaced by the valid, rounded values of the report |
| Server.Database.HandleDiagMessage | web/mqtt_bridge/services.py:934-1024 | a diagnostics message does one `Step`; a bad level or unknown device changes nothing |
| Server.Database.ReflectHealth | web/mqtt_bridge/services.py:995-1024 | the alert follows the level, its clock is refreshed, and only a change is logged |
| Server.Database.HandleAckMessage | web/mqtt_bridge/services.py:1040-1106 | legacy offsets are merged; an ok or error ack decides one command; everything else changes nothing |
| Server.Database.FindNewestPending | web/mqtt_bridge/services.py:1092-1098 | newest first, the first row still pending for the action |
| Server.Database.PublishAndLog | web/devices/views.py:246-255 | a command is logged exactly when it was published |
| Server.Database.OffsetView | web/devices/views.py:259-286 | an offset is sent, logged and mirrored rounded to two decimals, or nothing changes |
| Server.Database.CalibrationView | web/devices/views.py:297-322 | a value is sent, logged and mirrored rounded to four decimals, or nothing changes |
| Server.Database.DeviceCommandView | web/devices/views.py:429-459 | a user command is sent and logged, then capabilities are requested again; either publish may fail on its own |
| Server.Database.ClearCommandsView | web/devices/views.py:471-490 | a scan of the command table drops one command of the device, or all of them |
| Server.Database.DropCommandRows | web/devices/views.py:475-489 | the scan keeps exactly the rows the filter keeps, in order |
| Server.Database.RequestCapabilitiesView | web/devices/views.py:523-534 | a logged capabilities request followed by a command-list request |
| Server.Database.DeleteView | web/devices/views.py:543-552 | scans of the three tables and the removal of the row amount to one deletion of the state |
| Server.Database.EraseReadingsView | web/readings/views.py:421-454 | a scan of the readings drops those of the device in the range, of one metric or of all; an empty range changes nothing |
| Removal.DeleteRemovesExactly | web/devices/views.py:547-551 | after a deletion no row of the device is left, no other row is lost, and every other device keeps its rows in order |
| Removal.ClearRemovesExactly | web/devices/views.py:475-489 | clearing removes the device's commands, or the one asked for, and nothing else anywhere |
| Removal.EraseRemovesExactly | web/readings/views.py:434-454 | erasing takes exactly the selected readings, keeps the order of all others and changes nothing else, not even the cached battery level |
| Server.Database.RenameView | web/devices/views.py:562-604 | a free identifier renames, a taken one merges once confirmed, an unsafe one changes nothing |
| Server.Database.RenameDevice | web/devices/views.py:623-661 | create the copy, re-point the rows and delete the original amount to one rename of the state |
| Server.Database.MergeDevices | web/devices/views.py:664-734 | the bulk updates and the loop over shared metrics amount to the winner-per-metric merge |
| Server.Database.ResolveSharedMetrics | web/devices/views.py:684-714 | deciding the shared metrics in any order gives the same readings |
| Server.Database.ResolveMetric | web/devices/views.py:685-714 | one metric decided: the newer series survives whole, the target's on a tie |
| Server.Database.OtaPushView | web/ota/services.py:35-68 | the capability and hardware guards, the publish and the pending entry |
| Server.Database.Perform | web/mqtt_bridge/management/commands/mqtt_worker.py:81-108 | whichever handler or view an event goes to, it does one `Step` |
| Server.Serve | web/mqtt_bridge/management/commands/mqtt_worker.py:35-59 | handling the events one after the other from empty tables leaves the tables of `Run`, so the theorems about `Run` hold of the handlers |
| Reachable.StepKeeps | web/mqtt_bridge/management/commands/mqtt_worker.py:81-108 | any one event keeps the invariant of device rows, command log, status log and readings |
| Reachable.RunKeeps | web/mqtt_bridge/services.py:372-1106 | every reachable state satisfies it: rows refer to existing devices, alert, level and clock agree, tables are in time order, mirrors are canonical |
| Reachable.Effect | web/mqtt_bridge/services.py:372-1106 | a handler only appends to the logs and the wire, for its own device, moves commands only from pending to an outcome, logs every change of the alert and caches every battery level it stores |
| Ledger.RowIsCard | web/mqtt_bridge/services.py:372-1106 | in every run each column of each device row (settings, kind, last seen, alert and its clock, request and poll times, battery, mirror by keys) is what the events alone say, through discovery, renames and merges |
| Writes.EventWrites | web/mqtt_bridge/services.py:372-1106 | in every run a message or request adds exactly the log entries, readings, publishes and command rows its device's card gives, in that order |
| Writes.StatusIsLatched | web/mqtt_bridge/services.py:632-659 | a warning or error report latches its own level with at most 256 characters of its message, or the text before when it has none; ok and empty clear; each is logged, other levels change nothing |
| Writes.DiagIsLatched | web/mqtt_bridge/services.py:953-1024 | a diagnostics report latches its level and text and is logged only on a change; ok and info clear; a missing or unknown level changes nothing |
| Writes.CapabilitiesRelease | web/mqtt_bridge/services.py:784-791 | a capabilities message releases and logs the missing-answer alert; any other alert, its clock and the log stay |
| Writes.UserCommandIsSent | web/devices/views.py:442-459 | a user's command is published word for word and logged as one pending row, then capabilities are requested; nothing happens with the broker down |
| Writes.LoggedWasSent | web/devices/views.py:246-255 | in every run every command in the log was published, word for word, at the time its row tells |
| Writes.UnknownIsIgnored | web/mqtt_bridge/services.py:626-630 | a message or request for an unknown device, a discovery aside, changes nothing at all |
| Names.KnownExactly | web/mqtt_bridge/services.py:391-394 | the device table holds exactly the identifiers that sensor messages and valid renames brought in and deletions, renames and merges did not take out |
| Names.IdentifiersStaySafe | web/devices/views.py:574-578 | no identifier outside the safe alphabet ever gets into the device table, by topic or by rename |
| MergeHistory.LogIsLastLogged | web/mqtt_bridge/services.py:656-659 | for every device, run and instant the log tells the alert left by the event that logged last, for the device or one it absorbed |
| MergeHistory.LoggedInOrder | web/devices/views.py:721-723 | entries stand in the log in the order of the events that wrote them, through renames, merges and deletions |
| MergeHistory.MergedLogShows | web/devices/views.py:721-723 | at each instant the merged log shows the alert of whichever device logged last |
| MergeHistory.MergeAgreesExactly | web/devices/views.py:721-731 | row and log agree after a merge if and only if the row holds the alert logged last |
| MergeHistory.MergeCanDisagree | web/devices/views.py:721-731 | a three-event run whose merge leaves the log warning and the row healthy |
| Agreement.AlertAgreesExactly | web/mqtt_bridge/services.py:412-420 | for every device of every run, row and log agree if and only if the last merge did not part them or something was logged since |
| Agreement.LogIsHistory | web/readings/views.py:219-260 | for every device, run and instant the log tells the alert the device then held if and only if they were not apart then and no device absorbed since had logged another one later |
| Agreement.FaithfulUnlessAbsorbed | web/readings/views.py:219-260 | a device that never absorbed another has a faithful log at every instant |
| Agreement.BatteryIsLastStored | web/mqtt_bridge/services.py:565-569 | for every device of every run the battery cache equals the last stored bat_percent, whichever alias carried it, if and only if the last merge or erasure did not part them or a level was stored since |
| Agreement.EraseLevelAgreesExactly | web/readings/views.py:434-454 | an erasure parts cache and readings exactly when it takes the newest level and the newest one left is another, or none |
| Instances.EraseCanPart | web/readings/views.py:454-454 | a four-event run after which the cache shows a level no reading carries |
| Agreement.MergeLevelAgreesExactly | web/devices/views.py:684-731 | when a merge leaves the cached level and the surviving readings agreeing |
| Instances.MergeCanPartLevels | web/devices/views.py:684-731 | a device at 90 percent merged into one at 10, which goes on showing 10 |
| Owed.KeysAreOwed | web/mqtt_bridge/services.py:319-336 | for every device of every run the pending requests are, key by key, those logged for it or for one it absorbed and not answered, timed out, acked or cleared since |
| Owed.PendingRequestIsTimed | web/mqtt_bridge/services.py:319-336 | a pending request has no timer running exactly when one is owed and one came past the timer: a slipped command, or a merge into a device whose timer was off |
| Owed.CommandViewCovers | web/devices/views.py:442-459 | the command view leaves a request pending behind a stopped timer exactly when its own command is one and the second publish fails |
| Instances.CommandCanSlip | web/devices/views.py:442-459 | a user's request_capabilities that waits with the timer off |
| Owed.MergeCoversExactly | web/devices/views.py:721-723 | a merge does exactly when the source had a request pending and the target's timer is off |
| Instances.MergeCanUncover | web/devices/views.py:721-723 | a merge that hands a request to a device whose timer is off |
| Timeline.FoldEntries | web/readings/views.py:238-260 | the fold yields one segment per log entry of the window plus one, each with the alert of the entry before it |
| Timeline.StatusTimeline | web/readings/views.py:215-262 | segments tile the window without gaps, number one more than its entries, and show at each instant the latest entry at or before it |
| Timeline.SomeShows | web/readings/views.py:238-260 | every instant of the window is shown by some segment |
| Timeline.OrderByTimeSorts | web/readings/views.py:231-236 | the query's order is sorted by time and keeps every row |
| Timeline.TimelineOfRun | web/readings/views.py:215-262 | end to end, for any run, device, window and instant: the segment shown carries the alert that, by the events alone, the event that logged last left, and that is the alert the device held then exactly at the faithful instants |
| AlertClock.ClockIsLastAssertion | web/mqtt_bridge/services.py:643-648 | a latched alert's timestamp is the time of the latest warning or error report or timeout that asserted it |
| AlertClock.ClearedExactlyWhenStale | web/mqtt_bridge/services.py:404-473 | a sensor message releases an alert if and only if data contradicts it or nothing asserted it for a whole window |
| AlertClock.RemainingAlertIsFresh | web/mqtt_bridge/services.py:82-89 | after any sensor message a remaining alert was asserted within the window |
| Requests.LastSeenIsLastHeard | web/devices/models.py:114-123 | `last_seen` is the latest sensors, status, diag, commands or calibration message; capabilities and acks do not count |
| Requests.FlushIsPending | web/mqtt_bridge/services.py:349-354 | the flush filter selects exactly the commands still pending, firmware pushes aside |
| Requests.WakeUpTrace | web/mqtt_bridge/services.py:480-523 | exactly what a sensor message puts on the wire: the resync when the device is new or was silent for a window, one get_diag when a poll is due, nothing else |
| Requests.AsksIsPublished | web/mqtt_bridge/services.py:121-146 | a request counts as sent exactly when the wire shows one |
| Requests.TimerIsOutstanding | web/mqtt_bridge/services.py:132-134 | the timer is set if and only if a request has gone out with no reply or timeout since, and shows its time |
| Requests.TimeoutIsLogged | web/mqtt_bridge/services.py:500-509 | the status log gains the timeout alert exactly when the timeout fires |
| Requests.TimeoutsNeedRequests | web/mqtt_bridge/services.py:492-513 | over any run a device's timeouts, plus one while a request is outstanding, never outnumber the requests sent to it |
| Requests.TimeoutWaited | web/mqtt_bridge/services.py:498-500 | a timeout is raised only after the request waited longer than the limit |
| DiagRate.PollStep | web/mqtt_bridge/services.py:211-246 | one event adds at most one poll, never sooner than a cooldown after the last poll of the same device under any identifier |
| DiagRate.PollsAreSpaced | web/mqtt_bridge/services.py:92-99 | over any run, through renames and merges, a device's polls are a cooldown apart |
| DiagRate.PollRateBound | web/mqtt_bridge/services.py:92-99 | any span holds at most span / cooldown + 1 automatic polls of a device |
| DiagRate.PollsOnWire | web/mqtt_bridge/services.py:240-242 | while a device keeps its identifier these are exactly the polls the wire gains for it |
| Lifecycle.EventFate | web/mqtt_bridge/services.py:278-336 | for each command and event, whether it is decided and how, with its time: a push past ten minutes or three intervals, matching version, answered request, newest acked |
| Lifecycle.RowsOnlyEvolve | web/devices/models.py:308-314 | no later event rewrites a command or an outcome already given |
| Lifecycle.OutcomeIsFinal | web/devices/models.py:308-314 | the same key later carries the same command, and any outcome it had |
| Lifecycle.FlagsAgree | web/devices/models.py:280-314 | in every reachable state acknowledged flag, terminal status and acknowledgement time agree, and rows are in sending order |
| Lifecycle.NoOverdueOta | web/mqtt_bridge/services.py:298-316 | after any sensor message no firmware push is pending past its window |
| Lifecycle.NothingLeftAfterCapabilities | web/mqtt_bridge/services.py:809-813 | after capabilities no request is pending, nor a push of the version reported |
| Lifecycle.PushMatchesHardware | web/ota/services.py:45-63 | an image is sent and logged if and only if the device takes updates and matches its code and revision |
| Pushes.PushesWereClaimed | web/ota/services.py:45-63 | in every run every firmware push on the wire is an admin's, for the code and revision its device had last claimed; nothing repeats or alters one |
| Identity.IdentityIsLastClaimed | web/mqtt_bridge/services.py:707-735 | hardware code, revision, update capability and firmware version are those of the latest capabilities message that validly claimed them, in every run |
| Identity.ApprovalIsLastDecision | web/devices/views.py:498-509 | a device is approved if and only if the latest decision on it was to approve it; no message, discovery or rename changes that |
| Identity.SettingsAreLastSet | web/devices/views.py:630-654 | in every run each of ten settings is what a report or an admin last set it to, followed through renames; two are forgotten by a rename, nothing else touches any |
| Identity.IntervalIsLastSet | web/devices/views.py:221-225 | in every run the publish interval is the last one validly set and at most a day |
| Identity.ConfirmNeedsClaim | web/devices/views.py:388-420 | an uplink confirmation is sent and logged exactly when the device's last report on it, since its last rename, claimed diagnostics |
| Identity.PlaceIsLastEdited | web/devices/views.py:216-235 | name and location are those of the last edit, the location type that of the last edit since the last rename |
| Lifecycle.AcksDrainNewest | web/mqtt_bridge/services.py:1092-1102 | a run of acks decides, per device and action, exactly as many of the newest pending commands as there were valid acks |
| CalibrationMirror.ReplayRestores | web/mqtt_bridge/services.py:258-269 | replaying the re-push on an empty store rebuilds the mirror |
| CalibrationMirror.ReportRestores | web/mqtt_bridge/services.py:911-918 | reporting a mirrored store leaves the mirror unchanged |
| CalibrationMirror.WipeAndRestore | web/mqtt_bridge/services.py:815-818 | on every reachable state: wipe, re-push, replay and report give back the mirror exactly |
| CalibrationMirror.WipeSendsMirror | web/mqtt_bridge/services.py:249-275 | after a reported wipe the wire gains the command restoring a value exactly when the events last set that key to it: set_offset by the bare metric name for an offset, else set_calibration |
| CalibrationMirror.RoundsToNearest | web/devices/views.py:271-308 | offsets are rounded to the nearest hundredth, other values to the nearest ten-thousandth, ties to even |
| Ingestion.StoredMetricsAreCanonical | web/mqtt_bridge/services.py:51-62 | no stored metric is an alias, every reading has a device, and the table is in time order |
| Ingestion.ReadingsGained | web/mqtt_bridge/services.py:516-561 | an approved device's sensor message appends one reading for each entry with a name of at most 64 safe characters and a number, in order, under its own or its canonical name; nothing else appends any |
| Ingestion.BatteryLevelIs | web/mqtt_bridge/services.py:562-569 | the level a message carries is that of its last entry named bat, battery_pct or bat_percent |
| Ingestion.LowBatteryReleased | web/mqtt_bridge/services.py:577-589 | no low-battery warning survives an approved message whose last level is above the threshold |
| Merging.MergeKeepsWinners | web/devices/views.py:664-719 | per metric the target ends with the source's whole series if the source has a reading later than all the target's, and keeps its own otherwise; source empty, others untouched |
| Merging.MergeKeepsLatest | web/devices/views.py:687-707 | each metric's latest time on the target is the later of the two |
| Renaming.RenameThereAndBack | web/devices/views.py:623-661 | there and back restores all tables; the whole state exactly when the two forgotten columns had their defaults |
| Instances.RenameCanForget | web/devices/views.py:630-654 | a device that stands indoors is renamed there and back and no longer says where |
| Renaming.RenameConserves | web/devices/views.py:623-661 | a rename hands every row over unchanged but for the identifier, keeps the device's row but for the two columns it resets, and touches no other device |
| Renaming.MergeConserves | web/devices/views.py:721-733 | a merge hands the source's commands and log over row by row and changes nothing of the target's row but `last_seen` |
| Paging.ParseLimit | web/api/views.py:42-48 | the limit always lies within bounds, and a valid one is honoured |
| Paging.QueryHolds | web/api/views.py:154-160 | the query holds each row of the table as often as the table does when its device, metric and time are asked for, and no other |
| Paging.QueryIsOrdered | web/api/views.py:163-166 | rows come by time, then alphabetically by device, then by metric |
| Paging.RefusedExactly | web/api/views.py:71-74 | a window is refused exactly when it is empty or longer than 366 days |
| Paging.LaterQuery | web/api/views.py:154-164 | a later start returns the rest of the same sorted list |
| Paging.PageIs | web/api/views.py:154-167 | a page is the next limit rows of that list, and has_more says whether any follow |
| Paging.FollowCompletes | docs/read-api.md:60-62 | one request per remaining row suffices, and the remaining rows are all returned |
| Paging.FollowStuck | docs/read-api.md:60-62 | an overfull timestamp is never passed; the loop never ends unless it is refused first |
| Paging.FollowRefused | web/api/views.py:71-72 | a loop that runs into the end of the window is refused there |
| Paging.PagingCompletesExactly | docs/read-api.md:60-62 | for every table and window the loop finishes if and only if no timestamp is overfull and it does not run into the end, and is refused if and only if it does; when it finishes every row of the table asked for comes once or twice and nothing else |
| Paging.OneAtEndIsFine | web/api/views.py:71-72 | with at most one row at the exact end the loop never runs into it |
| Paging.RowsAtEndBlock | web/api/views.py:71-72 | a full page of rows at the end, behind any other row, makes the loop fail |
| Paging.StuckTable | docs/read-api.md:60-62 | three readings for which the same page comes back for ever |
| Paging.RefusedTable | docs/read-api.md:60-62 | four readings, none overfull, for which the second request is refused |
| Paging.FetchAll | docs/read-api.md:60-62 | wherever the client loop ends it reports refusal exactly when it runs into the end, and otherwise returns every row of the table asked for once or twice |
| Topics.ParsePrinted | web/mqtt_bridge/services.py:65-79 | parsing a topic printed from safe identifiers gives them back |
| Topics.PrintParsed | web/mqtt_bridge/services.py:70-79 | an accepted topic prints back to itself |
| Topics.AcceptedExactly | web/mqtt_bridge/services.py:65-79 | a topic is accepted exactly when it is two safe names of at most 128 characters and a slash-free kind, joined by slashes |
| Topics.CommandTopicsDiffer | web/mqtt_bridge/services.py:129-129 | distinct devices have distinct command topics |
| Saves.SavesAreComplete | web/mqtt_bridge/services.py:475-585 | the column lists of a handler's saves forget none of its changes |
| Saves.TasksAreComplete | web/mqtt_bridge/services.py:475-585 | a handler's saves and command-table updates, in order, leave row and table exactly as the handler says |
| Interleaving.EverySchedule | web/devices/views.py:623-661 | in every interleaving with web requests the alert stays consistent, and a single-writer column holds its writer's last value if and only if the last rename did not put an older one in its place or the writer wrote since |
| Interleaving.HandlerSurvivesInterleaving | web/mqtt_bridge/services.py:802-806 | unless a rename completes meanwhile, an interleaved handler leaves its own columns as if undisturbed, and the web's columns as the web left them |
| Interleaving.HandlerThroughRename | web/devices/views.py:630-660 | a rename passing over a message keeps, column by column, exactly what the handler had already made final when the view loaded the device |
| Interleaving.RenameLosesExactly | web/devices/views.py:630-660 | a rename changes a column if and only if something else was saved into it after the view loaded the device, or it is one of the two the copy resets |
| Interleaving.RenameCanLose | web/devices/views.py:630-660 | a warning saved between load and copy, gone from the renamed device |
| Interleaving.MergeLosesExactly | web/devices/views.py:726-730 | the merge view undoes a later `last_seen` if and only if the source's beat the target's when loaded and the worker heard from the target since, later still, with no rename in between |
| Interleaving.MergeCanLose | web/devices/views.py:726-730 | a report at 10 undone by a merge to 5 |
| RequestRace.RequestLostExactly | web/mqtt_bridge/services.py:492-513 | over any row, command table and interleaving of one request with one sensor or capabilities message: a request is left pending with the timer off if and only if the message ends the wait, stops the timer after the view set it, and resolves before the view creates its row |
| RequestRace.RequestCanBeLost | web/mqtt_bridge/services.py:802-809 | over any row and any report, a schedule that loses the request |

## Left out

- Paging.FollowCompletes: the readings are those of one table; rows inserted between two requests are not modelled.
- Paging.QueryHolds: which devices a request may read, the approved ones or one of them (web/api/views.py:85-98), is a parameter of the query.
- Interleaving.EverySchedule: speaks of columns only one side saves; of the four both sides write, `last_seen` and the request timer have theorems of their own, while the calibration mirror and the publish interval just hold whichever side saved last.
- Interleaving.HandlerSurvivesInterleaving: one message is handled at a time, as the single worker does, and each database operation, or transaction where the source opens one, is atomic.
- Interleaving.RenameLosesExactly: a deletion, or a merge of the device into another, racing with a message of it is no step. A sensor message that outlives the row stores its readings all the same (web/mqtt_bridge/services.py:561 after web/devices/views.py:549), as readings hold no foreign key; `Reachable.RunKeeps` speaks of runs whose events do not overlap in this way.
- RequestRace.RequestLostExactly: one message and one request; longer mixtures of several requests and messages are covered only by `EverySchedule`.
- Server.Database.RenameDevice: bulk updates of a table are single queries in the source and single function applications here.
- Server.Database.HandleSensorMessage: rows are values put back into a table; two Python objects for the same row are modelled only in `Interleaving`.
- Server.Database.HandleCapabilitiesMessage: the metrics and units, like the command list of a commands message, are stored as uninterpreted JSON by the source and are not part of this model.
- Server.Database.OtaPushView: the download URL, the checksum, the configured base URL and the lookup of the firmware row are not part of this model.
- Server.Database.WakeUpRequests: the publishes of one event succeed or fail together, except in the command view; quality of service, retention, delivery and the broker's queues are not part of this model.
- One clock reading per event stands for the several readings some handlers take.
- Rows with equal timestamps are read in the order they were written; the source leaves that order to the database.
- A logged command is taken to have an action; user commands that are no JSON object are not modelled.
- JSON decoding, payload size limits, NaN and infinite numbers: payloads arrive parsed, with numbers that may be absent.
- Response messages of commands, the sending user, guest metrics, cell counts, the device configuration and chip serial: columns no modelled rule reads.
- The diagnostics log's technical fields and the uplink rate: per-field range checks.
- Requesting calibration, status or a diagnostics snapshot by hand: one publish without any state.
- The branch for alerts latched before their clock was tracked is in the model but reached by no run from empty tables.
- Hardware codes are not rows of the model: deleting one from the registry, which empties the column of its devices, is no event.
- WebSocket pushes, the admin site, roles and keys, templates, translations, continuous aggregates, dashboards and firmware upload.
