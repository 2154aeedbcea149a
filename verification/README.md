# Verified model of the tracker firmware's protocols

A Dafny model of the parts of the SlimeVR nRF tracker firmware in which independent pieces must
agree: radio slots shared between trackers, the event queue and its deadline, the console editor
and the terminal it echoes to, the packed sensor tables, the receiver's control transactions, and
the battery curve. `dafny verify dfyconfig.toml` checks everything.

Code that works by changing state is modelled by classes and methods (`TrackerEvents.Events`,
`TdmaTracker.Tracker`, `Console.Input`, `SensorScan.Scanner`, `WomCommand.Command`,
`RawArq.Ring`, `RawArq.Requests`, `CalibrationDrain.Calibration`, `TestRate.TestRateSchedule`).
Each method is proved equal to a function on the state's value; the theorems are about runs of
those functions. Clocks, radio results, bus replies, setting changes and thread interleavings are
parameters or steps, so every theorem holds for all of them.

| Modules | Subject |
|---|---|
| `TdmaSchedule`, `TdmaNetwork`, `TdmaTracker` | slots, PING windows and data admission: one tracker, and N of them |
| `EventProtocol` | the 17-byte event packet |
| `EventState`, `TrackerEvents` | the event queue as functions, and as arrays updated in place |
| `EventMeaning`, `EventEffects`, `EventCurrent`, `EventNumbers` | what producers, choices and sends mean in the records' own fields; telemetry is current; sequence numbers |
| `EventInvariant`, `EventSteps`, `EventRuns`, `EventHistory`, `EventEntropy`, `EventDeadline`, `EventAgreement`, `EventClock` | what every step keeps, what holds over runs, entropy failure, deadline against selector, 32-bit time |
| `ConsoleEditor`, `ConsoleKeys`, `ConsoleTerminal`, `Console`, `ConsoleLink` | the two-list editor, what each key does, a terminal, the interrupt-driven line buffer and echo ring, whole sessions |
| `SensorTable`, `SensorLog`, `SensorScan` | the nested table search, its discipline on the bus, and the four-cursor walk over its packing |
| `WomProtocol`, `WomAnswers`, `WomResponses`, `WomCommand` | wake-on-motion transactions, what responses tell, and which responses are sure to be sent before they are retired |
| `ChannelSweep`, `RawArq`, `CalibrationDrain`, `TestRate` | channel search, retransmission, calibration drain, test pacing |
| `BatteryLevel`, `BatteryCurve` | voltage to charge, learning and applying the curve |
| `Arithmetic`, `Sequences`, `Integers`, `Wrappers` | lemmas on products, quotients, remainders and sequences; integer widths; `Option` |

## Where the code does not do what was wanted

Each of these is a proved lemma with a concrete input, next to the exact condition under which
the property does hold.

- **Slots can collide.** With slot length S and N trackers, PINGs of neighbours never overlap if
  and only if N = 1 or S·N·(N+1) ≤ 32768 (`TdmaNetwork.CollisionFreedom`). The NORMAL PONG is
  installed for any N ≤ 16 and S in 16..255 (src/connection/esb.c:1718-1728), so an installable
  schedule may collide (`TdmaNetwork.InstallableGridMayCollide`); S = 22 with N ≤ 16 is safe.
- **A deadline nobody serves.** The deadline counts an ended, still hidden online-calibration
  operation that holds a STORAGE step, which the selector always skips
  (src/connection/tracker_events.c:605 and 770). From then on the deadline is always "now" and no
  select sends (`EventDeadline.StrandedDeadlineNeverServed`). Such an operation is the only
  exception (`DeadlineAgreesWithSelect`), and it takes a call of `cal_event_step` with phase
  STORAGE and a detail other than STORAGE_ERROR: in every run without one, deadline and selector
  agree without exception (`EventAgreement.DeadlineIffSelect`). No present caller makes that call;
  all four that report STORAGE pass STORAGE_ERROR (src/sensor/calibration/cal_mag.c:223,
  cal_imu.c:137, cal_sens.c:558 and imu_calibration.c:438).
- **Entropy failure need not be final.** A change of identity is two locked sections with entropy
  sought in between, and only the first looks at the failure flag
  (src/connection/tracker_events.c:838-843); the second always writes nonce and flag (847-866).
  The function is called from the console's pairing commands and from the radio thread
  (src/connection/esb.c:2090, 2222 and 2257) with no common lock. If a second change is in flight
  when the first finds no entropy, it can still bring an identity back and events are sent again
  (`EventEntropy.FailureNeedNotBeFinal`). Failure silences the tracker for the rest of the boot if
  and only if no other change was in flight (`EventEntropy.FailureFinalIff`).
- **A NORMAL may retire a response that was never sent.** Flag and token always match the last
  PING. The response retired was the one sent exactly when the transaction that PING reported got
  the same answer (`WomProtocol.RetiredWasSent`). While each token names one request, this is
  guaranteed exactly for those requests and flags that determine the value: a refused request, a
  successful CLEAR, ENTER or set, and a failed read (`WomResponses.SentIffDetermined`). A
  successful read, or the failure of anything else, can be answered again differently between the
  preparation of a PING and its transmission (`WomProtocol.RetiredMayBeStale` is a query repeated
  after a local change). Under a reused token even a CLEAR and an ENTER can be confused
  (`WomResponses.ReusedTokenMayBeStale`).
- **A stale preference can change which sensor is found.** With a remembered address or register
  the scan still finds some device whenever a full scan would, but not always the same one
  (`SensorTable.StalePreferenceHides`). It is the same exactly when nothing answers where the
  preference points, or the full scan's own result is one the preference allows
  (`SensorTable.SameDeviceIff`); with devices that do not change and no bus errors the scan
  reports the first answering place the preference allows, or else the first that answers
  (`SensorTable.ScanByMap`).
- **More than 510 temperature points drain wrongly.** Chunk 255 is also the marker for "all", so
  its turn sends chunk 0 again (`CalibrationDrain.WrapMisdirects`); a drain is faithful exactly
  up to 510 points (`FaithfulIffFits`). The capture buffer holds (maximum - minimum temperature)
  times steps per degree points (src/retained.h:101-102), 70 with the default settings, so only a
  build with a much wider or finer range reaches this.
- **Calibrated charge can fall as voltage rises.** The learned curve is monotone exactly when its
  ends fit the default points around it. Measured spans that leave a default on both sides always
  fit; a perfectly steady discharge recorded up to interval 17 does not
  (`BatteryCurve.SteadyDischargeFalls`). An interval recorded with an average of zero is counted
  as recorded and filled in as well, so even an inner span can then overshoot
  (`BatteryCurve.InstantIntervalFalls`); if every recorded average is zero the code divides by
  zero.
- src/connection/tdma.h documents slot lengths of 14 to 163 ticks; the code accepts from 16 up,
  and the model follows the code.

## Model

| member | source | states |
|---|---|---|
| TdmaNetwork.CollisionFreedom | src/connection/tdma.c:106-141 | over every run of N trackers on one clock no two transmissions overlap, if and only if N = 1 or S·N·(N+1) ≤ 32768 |
| TdmaNetwork.InvariantHolds | src/connection/tdma.c:221-320 | every step of a separated network keeps the log collision-free and each spent frame behind the clock |
| TdmaNetwork.PingClearOfData | src/connection/tdma.c:204-219 | the guard keeps data out of any tracker's two-slot PING window, including the wrap from the last slot to slot 0 of the next frame |
| TdmaNetwork.PingsApart | src/connection/tdma.c:106-121 | in a separated grid no PING slot directly follows another's, across slots, frames and cycles |
| TdmaNetwork.GuardedIffCovered | src/connection/tdma.c:204-219 | data is barred from exactly those frames in which some tracker's two-slot PING window overlaps the own slot |
| TdmaNetwork.AdmitsIffFits | src/connection/tdma.c:252-276 | a reading is admitted exactly when a reservation that starts there lies in one own slot, after its guard ticks, in an uncovered and unused frame |
| TdmaSchedule.Grid.PingsEvenlySpread | src/connection/tdma.c:106-121 | PINGs of the whole network are spread evenly: after any PING frame the next one, of the next tracker in turn, is P/N or P/N + 1 frames on, with none between |
| TdmaSchedule.ReserveMonotone | src/connection/tdma.c:132-141 | a longer payload never reserves less time |
| TdmaNetwork.MeasuredSlotIsSafe | src/connection/tdma.c:106-115 | 22-tick slots with any 1 to 16 trackers never collide |
| TdmaNetwork.InstallableGridMayCollide | src/connection/esb.c:1718-1728 | a schedule the PONG handler installs on which two trackers do collide |
| TdmaSchedule.Grid.SeparationCondition | src/connection/tdma.c:106-110 | the cycle has more frames than slots exactly when S·N·(N+1) ≤ 32768 |
| TdmaSchedule.Grid.CycleLength | src/connection/tdma.c:106-110 | successive windows of a tracker are at most one second apart and less than a frame short of it |
| TdmaSchedule.Grid.InstallablePeriod | src/connection/esb.c:1718-1728 | every installable schedule has a cycle of at least 8 frames |
| TdmaTracker.PingTargetCorrect | src/connection/tdma.c:327-353 | the target is the one own window containing now, or else the earliest own window still to come |
| TdmaTracker.DecideData | src/connection/tdma.c:252-316 | admits exactly when the reading is in an unguarded unused own slot with room left; otherwise sleeps to the earliest unguarded own tick ahead, skipping a used current frame and never passing the next own PING |
| TdmaTracker.TargetUnusedIff | src/connection/tdma.c:293-300 | the tick slept to is the earliest no packet has used, unless the last use lies ahead of the clock in that very frame |
| TdmaTracker.SkipGuarded | src/connection/tdma.c:293-300 | the skip loop ends after at most two guarded frames, on the first frame allowed |
| TdmaTracker.OpportunityAdmits | src/connection/tdma.c:252-276 | a reading exactly on the chosen tick is admitted, whatever the payload |
| TdmaTracker.BarrierIsNextPing | src/connection/tdma.c:302-316 | the barrier the data loop stops at is the first own PING frame not yet over |
| TdmaTracker.NextUnspentWindowCorrect | src/connection/tdma.c:355-394 | the wake target is the earliest own window not yet spent |
| TdmaTracker.Tracker.WaitForSlot | src/connection/tdma.c:221-325 | returns admitted at the first reading that may be admitted and at no other, across schedule changes during the wait |
| TdmaTracker.Tracker.PingWakeDelay | src/connection/tdma.c:355-394 | the coarse wake never falls after the unspent window and at most a frame and a millisecond before it |
| TdmaTracker.Tracker.WaitForPingWindow | src/connection/tdma.c:396-453 | admits exactly up to six ticks after the start of an own window not yet spent, and spends each window once |
| TdmaTracker.Tracker.ReceiveSchedule | src/connection/tdma.c:557-594 | only a valid schedule is stored, in the form the admission loops rely on |
| EventProtocol.DecodeEncode | src/connection/tracker_event_protocol.h:253-289 | decoding an encoded valid event returns that event |
| EventProtocol.EncodeDecode | src/connection/tracker_event_protocol.h:253-299 | encoding what was decoded from an accepted packet returns that packet |
| EventProtocol.Encode | src/connection/tracker_event_protocol.h:253-271 | writes the packet in place for valid events and leaves the buffer alone otherwise |
| EventProtocol.PacketLayout | src/connection/tracker_event_protocol.h:253-271 | where each field stands in the packet, low bytes first |
| EventInvariant.VictimMeaning | src/connection/tracker_events.c:107-140 | a full queue gives up no pending startup notice, no power notice while it holds anything else, within one class nothing unsent while something was sent, and among those alike the oldest |
| EventMeaning.OpVictimMeaning | src/connection/tracker_events.c:149-160 | a new operation takes an empty entry, else a finished one, else the one begun first |
| EventInvariant.EnqueueKeeps | src/connection/tracker_events.c:107-140 | a power record always gets in, nothing else ever evicts one, and pending startup notices stay |
| EventInvariant.FreshIdUnused | src/connection/tracker_events.c:141-172 | the operation number handed out is nonzero and in use by no other operation |
| EventInvariant.AllocateKeeps | src/connection/tracker_events.c:141-172 | allocation keeps every table well formed and operation numbers distinct |
| EventSteps.NextKeeps | src/connection/tracker_events.c:194-476 | every producer, select, completion and identity step keeps the invariant: nonces current, budgets unspent, records encodable |
| EventSteps.ReachableInvariant | src/connection/tracker_events.c:48-870 | the invariant holds after every run |
| EventSteps.SelectKeeps | src/connection/tracker_events.c:626-643 | what the selector picks always encodes, under the current identity |
| EventMeaning.ProducersSay | src/connection/tracker_events.c:194-391 | no producer puts anything into the queue but what it was called with, under the identity of the moment, and it alters no other record |
| EventEffects.CallsPublish | src/connection/tracker_events.c:177-391 | a call that has something to say gets it queued, next in number and with its copies to go, unless power notices fill the queue |
| EventEffects.CancelledIsWithdrawn | src/connection/tracker_events.c:380-387 | cancelling wake-on-motion withdraws its announcement and leaves every other record but the one replaced |
| EventEffects.AdvanceMeaning | src/connection/tracker_events.c:236-271 | progress becomes what the operation is at and waits to be reported; a storage error and a throttled retry leave it |
| EventEffects.RetriesThrottled | src/connection/tracker_events.c:243-253 | a retry for the same reason within a second of one that counted changes nothing |
| EventEffects.LatchedReasonReported | src/connection/tracker_events.c:272-301 | a success without a reason is reported with the one latched before |
| EventEffects.HiddenIsRevealed | src/connection/tracker_events.c:498-504 | an operation hidden for a second becomes visible with a BEGIN of what it is then |
| EventMeaning.BootMeaning | src/connection/tracker_events.c:392-409 | a boot is announced as a boot or a wake-up, with a watchdog reset beside it exactly if there was one, after the delay |
| EventMeaning.ExpiresAtAge | src/connection/tracker_events.c:477-484 | upkeep discards a queued record exactly at 15 seconds of age, never a pending startup observation |
| EventMeaning.ChosenFirst | src/connection/tracker_events.c:518-551 | power notices go first, announced shutdowns and reboots before other ones, then what was never sent; the oldest first within each |
| EventMeaning.MostOverdueBeat | src/connection/tracker_events.c:552-580 | of all heartbeats due, of operations and rest domains, the most overdue is chosen |
| EventMeaning.RepeatsTakeTurns | src/connection/tracker_events.c:581-592 | repeats are served in turn from the cursor on |
| EventMeaning.ProgressTakesTurns | src/connection/tracker_events.c:601-613 | so is progress of operations |
| EventMeaning.NewReportsWait | src/connection/tracker_events.c:542-625 | new progress waits until it has settled or a heartbeat is due, and half a second after the last of its operation; rest reports likewise |
| EventMeaning.AdmittedProgressCounts | src/connection/tracker_events.c:654-722 | an admitted progress packet starts the waits of its operation anew, whatever became of the record |
| EventEffects.AdmittedRestCounts | src/connection/tracker_events.c:645-722 | an admitted rest report counts as one of its copies and starts the waits of its domain anew |
| EventMeaning.SendsArePaced | src/connection/tracker_events.c:626-697 | over every run no select sends for 100 ms after a success was reported and 10 ms after a failure |
| EventEffects.FrameMeaning | src/connection/tracker_events.c:434-476 | after a frame each domain holds what the frame said of it and has it reported or waiting to be; fusion only with a backend that can tell |
| EventEffects.InvalidateMeaning | src/connection/tracker_events.c:417-433 | invalidation makes both domains unknown, withdraws their reports and makes frames of the old sensor count for nothing |
| EventEffects.ObservedMeaning | src/connection/tracker_events.c:349-361 | an observation a domain can hold is held and reported, any other ignored |
| EventEffects.StaleIsUnknown | src/connection/tracker_events.c:505-515 | a domain unseen for a second becomes unknown, one seen since is left as it is |
| EventCurrent.TelemetryIsCurrent | src/connection/tracker_events.c:536-625 | after every run a packet sent is a queued record or reports its operation or rest domain exactly as it is at that moment |
| EventCurrent.RestReportFollowsFrame | src/connection/tracker_events.c:434-476 | over every run, a rest report sent less than a second after a frame says at rest or not as that frame did |
| EventNumbers.SequenceTellsOrder | src/connection/tracker_events.c:75-101 | between any two sends of one identity the 16-bit sequence number moves by exactly the number of publications in between, repeats keeping theirs |
| EventDeadline.MaintainSettles | src/connection/tracker_events.c:477-515 | one pass of upkeep is enough: a second at the same time changes nothing |
| EventDeadline.ChooseIff | src/connection/tracker_events.c:542-625 | the selector finds a record exactly when some queue, operation or rest entry is due |
| EventDeadline.TimesMeaning | src/connection/tracker_events.c:746-795 | the times the deadline gathers are due exactly when something is ready or stranded |
| EventDeadline.DeadlineAgreesWithSelect | src/connection/tracker_events.c:738-817 | the deadline is now if and only if a select sends, or a stranded operation is held with the gate open |
| EventAgreement.DeadlineIffSelect | src/connection/tracker_events.c:236-271 | over every run in which STORAGE progress only reports an error, the deadline is now exactly when a select now sends |
| EventDeadline.NothingBeforeDeadline | src/connection/tracker_events.c:542-817 | from any reachable state, no number of selects and deadline reads before the deadline sends anything |
| EventDeadline.StrandedDeadlineNeverServed | src/connection/tracker_events.c:604-620 | a reachable state whose deadline is always now and from which no select ever sends |
| EventHistory.StartupDurable | src/connection/tracker_events.c:102-140 | over every interleaving a pending startup observation is unmaterialised or waits untransmitted in the queue until admitted or retired |
| EventHistory.StartupNeverRepeats | src/connection/tracker_events.c:392-409 | once spent, it is never armed or materialised again |
| EventHistory.IdentityIsolation | src/connection/tracker_events.c:828-867 | packets carry the current nonce and a token of this identity; completions of older identities change nothing |
| EventEntropy.FailureFinalIff | src/connection/tracker_events.c:828-867 | after every run that ends in entropy failure, nothing is ever selected again if and only if no other change of identity is in flight |
| EventEntropy.FailureLasts | src/connection/tracker_events.c:838-843 | a failure recorded with no other change in flight is never undone |
| EventEntropy.FailureNeedNotBeFinal | src/connection/tracker_events.c:847-866 | two overlapping changes: after the failure of one is recorded the other restores an identity and a select sends |
| EventHistory.BudgetRespected | src/connection/tracker_events.c:645-697 | no notice, END or REJECTED record is admitted more than three times |
| EventHistory.FailuresSpendNothing | src/connection/tracker_events.c:654-697 | over every run a queued record keeps its copies until an admission of its own succeeds; a failed one changes only the gate and the selection |
| EventHistory.ReachableCounted | src/connection/tracker_events.c:645-697 | in every reachable state the copies of each queued record are the successful admissions its token has had |
| EventHistory.UrgentFirst | src/connection/tracker_events.c:518-545 | after every run, while a shutdown or reboot intent waits, whatever a select sends is such an intent, no younger, and it sends unless the gate is shut or the identity is being replaced |
| TrackerEvents.Events.Push | src/connection/tracker_events.c:107-140 | the victim scan over the array updates it as specified |
| TrackerEvents.Events.AllocateOperation | src/connection/tracker_events.c:141-172 | the search for a number and a slot in place |
| TrackerEvents.Events.Upkeep | src/connection/tracker_events.c:477-515 | expiry, startup notices, hidden operations and rest domains, updated in place as specified |
| TrackerEvents.Events.TrackerEventsSelect | src/connection/tracker_events.c:626-643 | selection over the arrays picks and remembers what the specification picks |
| TrackerEvents.Events.TrackerEventsComplete | src/connection/tracker_events.c:654-722 | a completion credits every copy of the token, or only the retry gate when it failed |
| TrackerEvents.Events.TrackerEventsDeadline | src/connection/tracker_events.c:738-817 | the scan returns the earliest obligation, delayed by the send gate |
| TrackerEvents.Events.SessionStarted | src/connection/tracker_events.c:838-867 | the second half of a session change erases every table, keeps the startup observations and reopens publishing |
| EventClock.SignedIsDifference | src/connection/tracker_events.c:48-55 | the signed 32-bit difference is the true one while the values are within 2^31 |
| EventClock.SerialIsToken | src/connection/tracker_events.c:56-62 | the n-th draw of the 32-bit counter is the n-th token, never zero |
| EventClock.TokensOrdered | src/connection/tracker_events.c:56-62 | age order and identity of tokens survive the wrap and the skipped zero |
| EventClock.DeadlineAgrees | src/connection/tracker_events.c:723-803 | the 32-bit deadline, gate and reserved value included, is the unbounded one |
| EventClock.FoldIsEarliest | src/connection/tracker_events.c:723-737 | adding obligations one by one yields the earliest of all |
| ConsoleEditor.ControlSequence | src/console.c:352-442 | ESC [ with any parameter and intermediate bytes acts once, on the first number, saturating at 999 |
| ConsoleKeys.Arrows | src/console.c:357-369 | ESC [ n D and ESC [ n C move the cursor n characters, or as many as there are, left and right |
| ConsoleKeys.Ends | src/console.c:338-385 | H, 1~ and 7~ put the cursor before the whole line, F, 4~ and 8~ after it |
| ConsoleKeys.DeleteKey | src/console.c:376-379 | 3~ removes the character after the cursor, if any |
| ConsoleKeys.UnknownFinal | src/console.c:376-388 | any other final byte or number leaves line and screen alone |
| ConsoleKeys.ApplicationKeys | src/console.c:390-441 | ESC O with a final byte does exactly what ESC [ with it does |
| ConsoleKeys.CharacterKey | src/console.c:255-283 | a character goes in at the cursor while one fits; the first too many rings the bell once and spoils the line |
| ConsoleKeys.SpoiledLine | src/console.c:465-468 | on a spoiled line everything but its end is swallowed without echo |
| ConsoleKeys.RubOutKey | src/console.c:285-301 | backspace and DEL remove the character before the cursor, if any |
| ConsoleKeys.OtherByte | src/console.c:484-496 | tabs, other control bytes and bytes beyond print do nothing |
| ConsoleKeys.EndRings | src/console.c:224-253 | ending a line rings the bell exactly when the line fits and the queue refuses it |
| ConsoleKeys.InsertedLineDelivered | src/console.c:255-497 | typing s and t, moving left over t, typing c and CR delivers s, c, t |
| ConsoleEditor.LineEndings | src/console.c:443-469 | CR, LF and CR LF each end one line, the same one |
| ConsoleEditor.TypedLineDelivered | src/console.c:224-284 | a typed line that fits arrives verbatim and one that does not is dropped whole |
| ConsoleEditor.EditsCompose | src/console.c:285-336 | backspace undoes insertion; delete is a step right and a backspace, and conversely |
| ConsoleEditor.MovesUndo | src/console.c:338-369 | moves not cut short undo each other |
| ConsoleTerminal.EchoShowsLine | src/console.c:158-350 | for every byte stream the replayed echo shows the line, blank-padded, with the cursor in its column, and every ended line above |
| ConsoleTerminal.CursorMoves | src/console.c:182-202 | the decimal cursor escape moves a terminal by exactly that many columns |
| ConsoleTerminal.GapCloses | src/console.c:285-336 | redrawing after a removal shifts the rest left and blanks the last cell |
| Console.Input.InputByte | src/console.c:443-497 | one byte moves the buffer, the ring and the line queue exactly as the editor specifies |
| Console.Input.InsertChar | src/console.c:255-283 | insertion by shifting the buffer up in place |
| Console.Input.CloseGap | src/console.c:293-296 | removal by shifting the buffer down in place |
| Console.Input.EchoPut | src/console.c:163-173 | the ring keeps what fits and loses the rest |
| Console.Input.SendEcho | src/console.c:507-523 | one FIFO fill takes a prefix of the pending echo and loses none |
| ConsoleLink.ConsoleFaithful | src/console.c:224-534 | over any interleaving of bytes, transmissions and line fetches: lines in order, none lost once queued; without ring overflow the screen shows the editor |
| SensorScan.Scanner.SensorScanI2c | src/sensor/scan.c:40-174 | the packed walk makes the nested search's bus transactions and reports its result; at most one retry |
| SensorScan.Scanner.ScanAddress | src/sensor/scan.c:94-147 | the inner cursors follow the registers of one group, and a bus error leaves the outer ones untouched |
| SensorScan.Scanner.ScanGroups | src/sensor/scan.c:57-164 | the outer cursors land on each next group |
| SensorScan.EnterGroup | src/sensor/sensors_tables.c:170-177 | the packed format read at a group's start gives its counts, first address and first register |
| SensorTable.SearchSound | src/sensor/scan.c:57-164 | a reported device is a row of the table at one of its addresses, and answered that identity |
| SensorLog.ScanDisciplined | src/sensor/scan.c:76-114 | in the log of every scan: a BMM150 is asked only right after acknowledging power, nothing else is written, only a BMM350 is read in a burst, and each new address, as well as what follows a bus error, begins with the dummy read |
| SensorLog.ScanEndsOnDevice | src/sensor/scan.c:100-145 | a scan that reports a device stops on the very answers that identified it: the first row listing the identity read, and the ICT chip identity after it |
| SensorTable.SearchComplete | src/sensor/scan.c:57-164 | a wanted device that always answers is found where it stands, or a device that answers earlier in table order is |
| SensorTable.ScanComplete | src/sensor/scan.c:165-170 | whatever address or register is preferred, some device is found if a full scan is sure to find one |
| SensorTable.LegacyRegisters | src/sensor/scan.c:87-99 | the ICT magnetometer is found under no preference, its own register and the three a retained probe may have left, and under no other |
| SensorTable.SameDeviceIff | src/sensor/scan.c:67-99 | with unchanging devices, and for a register preference also error-free reads and none of the legacy magnetometer registers, the preference leaves the result of a full scan unchanged if and only if the search it narrows finds nothing or that result is one it allows |
| SensorTable.ScanByMap | src/sensor/scan.c:57-170 | with unchanging devices and error-free reads, for any preference, the scan reports the first answering place in table order that the preference allows, or else the first that answers |
| SensorTable.StalePreferenceHides | src/sensor/scan.c:67-70 | the table on which a stale preferred address reports another device than a full scan |
| WomProtocol.AcceptedOnce | src/connection/esb.c:285-324 | under every interleaving an accepted request is executed at most once |
| WomProtocol.AtMostOnce | src/connection/esb.c:259-324 | repeats of one CLEAR or ENTER take effect at most once |
| WomProtocol.NoSplicing | src/connection/esb.c:326-342 | flag, value and token of a transmitted response are those of one committed execution |
| WomAnswers.ResponseMeans | src/connection/esb.c:285-342 | a transmitted response bears the token of a request received and tells how it went: zero only acknowledges a CLEAR, sets and ENTER are echoed, queries answered with the setting, everything refused or failed is an error |
| WomAnswers.PreparedMeans | src/connection/esb.c:326-342 | only a PING drafted as a response is touched; it carries the pending response, or becomes a plain one |
| WomAnswers.CachedStillTrue | src/connection/esb.c:250-283 | a repeated set or query is answered from the cache only while the answer is the setting of that moment |
| WomAnswers.NewRequestSupersedes | src/connection/esb.c:259-283 | a new request silences older answers and makes work of an older generation count for nothing |
| WomAnswers.RetiredIsForgotten | src/connection/esb.c:1791-1796 | once retired an answer is forgotten, so the same request asked again counts as new |
| WomProtocol.RetiredWasSent | src/connection/esb.c:1791-1796 | NORMAL retires only a response whose flag and token were last sent; its value too if and only if the reported transaction was answered alike |
| WomResponses.SentIffDetermined | src/connection/esb.c:298-316 | while tokens name requests, the response retired is always the one last sent exactly for requests and flags that determine the value |
| WomResponses.ReusedTokenMayBeStale | src/connection/esb.c:259-283 | the run in which a CLEAR and an ENTER under one token are confused |
| WomProtocol.RetiredMayBeStale | src/connection/esb.c:2469-2473 | the run in which the retired value was never sent |
| WomProtocol.PendingPersists | src/connection/esb.c:250-342 | a response stays pending until sent and confirmed, superseded or reset |
| WomCommand.Command.EsbWomReceive | src/connection/esb.c:259-283 | a duplicate re-arms the cached response, a pending one is ignored, anything else starts a new generation |
| WomCommand.Command.Attempt | src/connection/esb.c:298-311 | which requests are refused and what each success or failure reports |
| WomCommand.Command.CommitAnswer | src/connection/esb.c:312-324 | an answer is cached only if nothing superseded its request |
| WomCommand.Command.EsbWomPreparePing | src/connection/esb.c:326-342 | flag, value and token bytes are replaced together and no other byte changes |
| ChannelSweep.SweepBijection | src/connection/esb.c:136-157 | home first, then every even channel and none twice, for every preference list |
| ChannelSweep.SweepOrder | src/connection/esb.c:136-157 | after home come the preferred channels in the order of preference, then the others upwards |
| ChannelSweep.FullSweep | src/connection/esb.c:2157-2163 | from any position a full modular sweep visits each channel exactly once |
| ChannelSweep.FailuresSkipNothing | src/connection/esb.c:2157-2163 | channel changes that fail repeat an entry and skip none |
| ChannelSweep.FullSweepDespiteFailures | src/connection/esb.c:2822-2830 | any full count of successive successful changes tunes to each channel exactly once, whatever fails in between |
| ChannelSweep.SweepLength | src/connection/esb.c:130-134 | the candidate count is the number of channels the sweep names |
| ChannelSweep.ChannelCandidate | src/connection/esb.c:136-157 | counting down over both loops finds the entry of that index |
| ChannelSweep.AllowedIsPreference | src/connection/esb.c:93-101 | the firmware's own list is a duplicate-free list of even channels |
| RawArq.FetchExact | src/connection/connection.c:721-744 | with consecutive numbers a lookup answers exactly the packet of that number among the last 128 |
| RawArq.RecentUnique | src/connection/connection.c:711-730 | among the last 128 at most one packet has a given number |
| RawArq.Ring.RawRingStore | src/connection/connection.c:732-744 | storing appends to the history the slots and valid bits represent |
| RawArq.Ring.RawRingGet | src/connection/connection.c:721-730 | reads the slot of that number, or nothing |
| RawArq.FirstComeFirstServed | src/connection/raw_retx.h:18-48 | over any order of submissions and takes, each accepted request is served once, in order, at most 16 waiting |
| RawArq.RequestWaits | src/connection/raw_retx.h:18-32 | a request waits, once, unless 16 others already do |
| RawArq.Requests.RawRetxSubmit | src/connection/raw_retx.h:18-32 | duplicates are idempotent and a full queue drops the new request |
| RawArq.Requests.RawRetxTake | src/connection/raw_retx.h:34-45 | shifts the array down and returns its head |
| CalibrationDrain.DrainComplete | src/connection/connection.c:1203-1229 | after enough accepted turns everything requested was emitted once, in ascending order, whatever was refused between |
| CalibrationDrain.DrainFollowsPlan | src/connection/connection.c:1203-1229 | at every moment what was emitted followed by what is owed is the request |
| CalibrationDrain.AllPointsReassemble | src/connection/connection.c:1176-1188 | the chunks of an all-points request concatenate to the captured array |
| CalibrationDrain.FaithfulIffFits | src/connection/connection.c:1218-1221 | an all-points drain sends each chunk it owes exactly when there are at most 510 points |
| CalibrationDrain.WrapMisdirects | src/connection/connection.c:1178-1182 | past 510 points the turn that owes chunk 255 sends chunk 0 again |
| CalibrationDrain.CoalescingCovers | src/connection/connection.c:865-884 | coalescing two requests answers both in full, metadata included |
| CalibrationDrain.OwedMembers | src/connection/connection.c:818-832 | exactly what a request asks for is owed: the metadata, each subtype named, the chunk named or all chunks |
| CalibrationDrain.NewRequestCounts | src/connection/connection.c:865-884 | a new token arriving after the drain took everything is owed in full, whatever was asked before |
| CalibrationDrain.RepeatAddsNothing | src/connection/connection.c:865-884 | a repeated token adds nothing, while its request waits and after the drain has taken it |
| CalibrationDrain.DutiesDone | src/connection/connection.c:1270-1282 | after enough accepted turns the metadata, if requested, went out once and first, and then everything else requested |
| CalibrationDrain.Calibration.ProcessDuties | src/connection/connection.c:1270-1282 | one turn sends the metadata or else one calibration packet |
| CalibrationDrain.LowestBit | src/connection/connection.c:1212-1213 | the isolated bit is the first kind asked for and clearing it removes only that kind |
| CalibrationDrain.Calibration.ProcessCalibrationRequests | src/connection/connection.c:1203-1229 | one turn over the firmware's fields does what the plan's step does |
| CalibrationDrain.Calibration.RequestRawMetadata | src/connection/connection.c:865-884 | during a collection session sound requests are merged under the token rule, all others ignored |
| CalibrationDrain.Calibration.ScheduleCalibration | src/connection/connection.c:818-832 | a request becomes pending work, or nothing if its mask is malformed |
| TestRate.DriftFree | src/connection/connection.c:1361-1411 | from any state, a poll that starts a grid puts every later due time exactly on it, and no two packets in one interval of it, as long as the rate stays and no poll is more than a second late |
| TestRate.SyncGrid | src/connection/connection.c:1369-1382 | polls on the same rate and at most a second late leave the schedule alone; any other starts a new grid at its own instant |
| TestRate.AdvancedOnGrid | src/connection/connection.c:1391-1405 | catching up skips exactly the missed instants, ends, and loses no fraction of a period |
| TestRate.OnGridMeans | src/connection/connection.c:1396-1403 | the remainder makes the due time base plus k million over the rate, rounded down |
| TestRate.TestRateSchedule.TestRateAdvance | src/connection/connection.c:1391-1405 | the catch-up loop ends with the specified schedule |
| BatteryLevel.LevelMonotone | src/system/battery.c:365-388 | more voltage never reads as less charge, within the table's range |
| BatteryLevel.LevelAtPoint | src/system/battery.c:365-388 | each tabulated voltage reads as its tabulated charge |
| BatteryLevel.LevelOnLine | src/system/battery.c:365-388 | between two points the reading lies on the straight line through them, less than one unit below it |
| BatteryLevel.BatteryLevelPptt | src/system/battery.c:365-388 | the pointer walk finds the segment and interpolates in it |
| BatteryCurve.MonotoneIffRising | src/system/battery_tracker.c:397-414 | for every retained curve of charges up to 10000, calibrated charge is monotone exactly when the step boundaries rise |
| BatteryCurve.AppliedOnLine | src/system/battery_tracker.c:397-414 | within a step calibrated charge lies on the straight line between the step's ends, less than one unit below it, or is left as it is when they fall |
| BatteryCurve.LearnedMonotoneIff | src/system/battery_tracker.c:323-414 | a learned curve of charges up to 10000 is monotone exactly when its ends fit the defaults |
| BatteryCurve.LearnedRises | src/system/battery_tracker.c:368-386 | learned points rise from the default below and fit in 16 bits; with positive averages they stay below the default above |
| BatteryCurve.CalibratedMonotone | src/system/battery_tracker.c:323-414 | from voltage to calibrated charge, monotone and within 0..10000, for spans between intervals 1 and 16 |
| BatteryCurve.SteadyDischargeFalls | src/system/battery_tracker.c:368-386 | the discharge whose learned curve makes charge fall |
| BatteryCurve.InstantIntervalFalls | src/system/battery_tracker.c:344-386 | the data with averages of zero whose inner span overshoots the default above |
| BatteryCurve.UpdateCurve | src/system/battery_tracker.c:323-395 | from any two or more recorded intervals, learns each point as its share of the total, and leaves the curve alone otherwise |
| BatteryCurve.ShareOnLine | src/system/battery_tracker.c:368-386 | a learned point's charge is its share of the time, to within one unit |

## Left out

- Radio driver, clocks, threads and locks: each locked section is one atomic step, clock readings and radio results are inputs, and no step fails half way.
- Diagnostic counters and logging of the event queue, the wake-up flag `notify_pending`, and `tracker_events_notify`.
- Event times and tokens are unbounded in `EventState`; `EventClock` states what 32 bits change. Every `CONFIG_TRACKER_EVENT_*` option is on.
- TDMA statistics, the packing of the configuration word into 32 bits, and the data-loop wait itself: `WaitForSlot` takes the sequence of readings it will make. A schedule replaced and put back between two readings reads as unchanged, as in the code.
- The console's T-Cal backup capture, session epochs, UART interrupt plumbing and command handlers. Line buffers of up to 1000 characters are covered: the cursor echo prints at most three digits.
- `scan_spi.c` and `scan_ext.c`, which repeat the same walk over other transports; sensor bring-up and delays between transactions.
- WOM generations are unbounded rather than 32 bits, and the effects of CLEAR, ENTER and a set are the returned error code and the setting read back.
- The ring's valid bits are an array of booleans instead of a bitmap, and a packet's sequence number is a field instead of its bytes 2 and 3.
- Matrix, gyro and T-Cal state payloads of calibration packets are named by their subtype; temperature points are opaque values.
- BatteryCurve.UpdateCurve: storage reads and writes are left out, and two or more intervals whose averages are all zero, for which the code divides by zero.
- BatteryCurve.MonotoneIffRising: leaves out retained points above 10000, which only averages of zero can teach and next to which the code leaves charges uncalibrated.
- BatteryLevel.LevelMonotone: products are unbounded; with 16-bit table entries the code's unsigned product cannot overflow.
- Floating-point code (fusion, calibration, rest detection), USB, HID, LED, flash and OTA: hardware effects or members with no hard property.
