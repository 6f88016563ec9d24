# A verified model of the fencing scoring machine

The firmware of the scoring machine is a set of state machines that talk through events: contact
sensors with a lock cycle, gesture detectors, the match machine with its clock and passivity
stopwatch, an automatic referee, the owner of the canonical state with its pre-rendered protocol
strings, and several codecs edited in place. This project models them in Dafny and proves what they
promise over whole runs.

Each component has two halves. The specification is a data type for the state and a function for one
step, with theorems over every run as lemmas. Beside it stands the object as the firmware keeps it: a
class with the fields of the source whose methods change them in place, each proved equal to the step
function (`View() == Step(old(View()), ...)`), so that the theorems hold of the object. What a step
means is stated apart from its code in the modules of laws: which period follows which (`MatchLaws`), who
gets the point (`AutoRefLaws`), what lights a side and in which colour (`SensorLaws`), which field of a
message stands for which item of the state (`Opp2Items`), and what a packet does (`Remote`). Time is an
argument of every step, ADC readings are booleans, and links are sequences of packets.

| files | component |
|---|---|
| `Debounce`, `LongHit`, `DoubleHit` | contact timers and hit gestures, as statements about the whole trace of samples |
| `Sensor`, `SensorLaws`, `SensorMachine` | the scan of the three weapons, lock and reset |
| `BoutClock`, `Passivity`, `UiEvents`, `Match`, `MatchLaws`, `MatchMachine` | countdown, passivity stopwatch and the match machine |
| `AutoRef`, `AutoRefLaws` | the automatic referee |
| `Crc`, `Oprcp`, `Remote` | the remote-control packets, what the undo bit takes back, and what each frame does to the bout |
| `Efp1`, `Opp2State`, `Opp2`, `Opp2Items`, `Opp2Machine` | the EFP1.1 message, the canonical state and the cache that follows it |
| `FpaFrame`, `FpaFencer`, `FpaScore`, `FpaPassivity` | the FPA frames of types 5/6, 3 and 8 as byte buffers |
| `Repeater`, `Mqtt`, `Adc` | replication over a lossy link, fragment reassembly, thresholds by binary search |
| `Fencing`, `Wrappers` | shared enumerations and the option type |

## What turned out differently from what one would expect

Where code and comments disagree the model follows the code.

- A long-hit event marked double can come from one side alone (`LongHit.DoubleFromOneSide`): the mark
  says that two fires came together, of whatever channels (`LongHit.DoubleIsTwoFires`). The automatic
  referee looks at the two valid bits, and these are there exactly when each side has completed its hold
  (`LongHit.BothSidesHeld`).
- The automatic referee goes to its final phase at the end of any fighting period with unequal
  scores, also when rounds remain, although the comment speaks of the last round
  (`AutoRef.UnequalScoreStopsReferee`); `AutoRef.MatchOverExits` lists all that brings it back.
- Setting minutes or seconds leaves 100 hundredths on the clock, so 3:00 takes 18100 ticks. Whether zero is
  seen on the last of them or on one more depends on the display counter (`BoutClock.ZeroSeenOnce`).
- Resetting a contact timer keeps the Dos Santos reduction of its required time, so that epee's contact
  times wear down by 150 us a margin until the sensor itself is reset (`Sensor.TimesWearDown`). Forty
  margins use up the time of a contact, and then a touch just before the end of the lock is shown after it
  (`Sensor.SpentMarginLetsHitThrough`); with fewer it never is (`Sensor.LockedScansSetNoHit`). Since the
  margin is applied as if the contact were pressed, already thirty-nine let a hit light the side whose
  contact is open (`Sensor.HitWithoutContact`); with fewer no light goes on without contact
  (`Sensor.HitsNeedContact`).
- Guard or piste contact of the right foilist clears the left timer, and so holds the left hit back
  (`SensorLaws.HeldBack`), while it does not restart the right one.
- The P-card of both sides can end two periods at once: at 7 points each in the first half of a sabre match
  it goes straight to the second half, past the break (`MatchLaws.PCardsSkipBreak`).
- Scores are unsigned: a red card taken back from a side whose opponent stands at 0 gives the opponent
  4294967295 points (`MatchLaws.OpponentScore`).
- An undo frame does not always undo. `Oprcp.Undoable` and `Oprcp.PCardsUndoable` are the exact
  conditions: points need room below the maximum, cards must not be shown already, P-cards must be
  level, and a sabre team match must not leave its first round in between.
- The sender's comparisons that choose the number of repetitions are constant, so that every event is
  repeated four times, whatever the comments say about lights and hundredths.
- The repeater compares each packet with the one before it and not with the highest, so that it forwards a
  number as often as the stream climbs to it (`Repeater.WhenNumbersAreForwarded`): with reordering more
  than once (`Repeater.ReorderingForwardsTwice`), without at most once (`Repeater.ForwardsOnceInOrder`).
- An identifier of eight bytes makes the next setting of the name fail unless both names are empty
  (`FpaFencer.NameNeedsShortUid`), and that of the nation unless it changes nothing
  (`FpaFencer.NocNeedsShortUid`); a right P-card of 10 looks like the colon of the other layout
  (`FpaPassivity.TimeNeedsDigit`); the size of a type 3 frame never shrinks
  (`FpaScore.EditsRefineBoard`).
- An EFP1.1 message with more right than left fencer fields has indices that reach past its end
  (`Efp1.WhenIndicesAreSafe`).
- A new piste name is not pushed to the cached strings (`Opp2.NewNameGoesStale`), which show the name of the
  last push until the next one (`Opp2.CurrentSinceLastPush`).
- No message of the competition software ever takes the protocol lock (`Opp2.CyranoMessagesDoNotLock`), and
  OPP2 control commands are not subject to it: an acknowledgement clears fencers and match also while
  Cyrano holds the lock (`Opp2.AckPassesTheLock`, `Opp2.CyranoLocksOpp2Out`).

## Model

| member | source | states |
|---|---|---|
| `Debounce.DebounceTimer.Update` | include/DebounceTimer.h:10-24 | the timer's new state and answer are those of the sample; `ok` is the age of the unbroken press reaching the required time |
| `Debounce.DebounceTimer.Reset` | include/DebounceTimer.h:28-32 | the press and the margin flag go, the required time stays shortened |
| `Debounce.DebounceTimer.ResetTo` | include/DebounceTimer.h:34-37 | the press goes and the required time is set anew |
| `Debounce.DebounceTimer.ApplyDosSantosMarginUs` | include/DebounceTimer.h:40-48 | the margin is taken off once per press and the timer updated at once |
| `Debounce.CompletesOncePerPress` | include/DebounceTimer.h:10-24 | within one unbroken press at most one sample is the first to reach the duration |
| `LongHit.LongHitDetector.Update` | src/LongHitDetector.cpp:35-81 | one sample through four latched timers and the arbitration equals the step function, event included |
| `LongHit.LongHitDetector.HandleFired` | src/LongHitDetector.cpp:83-166 | the three-state arbitration of fired channels equals its functional form |
| `LongHit.LongHitDetector.EmitHit` | src/LongHitDetector.cpp:168-189 | an event with these bits and this double mark is kept as the last one and sent, always |
| `LongHit.LongHitDetector.SetDurationUs` | src/LongHitDetector.cpp:16-21 | all four channels get the duration and nothing else changes |
| `LongHit.LongHitDetector.Reset` | src/LongHitDetector.cpp:23-33 | timers, latches and arbitration return to rest |
| `LongHit.FiresOncePerPress` | src/LongHitDetector.cpp:35-70 | over any trace a channel fires at a sample if and only if that sample is the first of its unbroken press to reach the duration |
| `LongHit.ReportedBitsFired` | src/LongHitDetector.cpp:83-166 | an event carries the bit of a channel if and only if the channel fired in that sample, or earlier with the detector never back in IDLE since |
| `LongHit.FiresAreReported` | src/LongHitDetector.cpp:83-166 | no fire is lost: it is in an event, or still waits while another side has been pressing all along |
| `LongHit.BothSidesHeld` | src/LongHitDetector.cpp:35-166 | a sample ends in an event with both valid bits, which is then marked double, if and only if each side completed a full unbroken hold in that sample or since the detector last left IDLE |
| `LongHit.DoubleIsTwoFires` | src/LongHitDetector.cpp:83-166 | an event is marked double if and only if two channels fired in its sample, or one did after an earlier fire of any channel since IDLE was left |
| `LongHit.DoubleFromOneSide` | src/LongHitDetector.cpp:83-166 | a trace whose event is marked double although the other side never held: the mark alone proves nothing |
| `DoubleHit.DoubleHitDetector.Update` | src/DoubleHitDetector.cpp:28-129 | one sample equals the step function, event included |
| `DoubleHit.EventIsTapTap` | src/DoubleHitDetector.cpp:28-149 | every event ends a tap, a short gap and a tap by the same side, and reports the union of the two press-start snapshots |
| `DoubleHit.TapTapIsEvent` | src/DoubleHitDetector.cpp:28-149 | every such pattern from IDLE is reported at its last sample with that union |
| `DoubleHit.EmitsIffTapTap` | src/DoubleHitDetector.cpp:28-149 | the detector emits at a sample if and only if such a pattern ends there |
| `AutoRef.AutoRefTask.Turn` | src/AutoRef.cpp:17-58 | one turn of the referee's loop, on 32-bit tick words, equals the step on full tick counts and sends the same commands |
| `AutoRef.AutoRefTask.ProcessLights` | src/AutoRef.cpp:128-167 | lights accumulate, start an episode, and lead to a decision when they go out |
| `AutoRef.AutoRefTask.ProcessDecision` | src/AutoRef.cpp:169-236 | the decision from the accumulated lights equals the decision step, whose meaning is `AutoRefLaws.LightsOutDecide` |
| `AutoRef.AutoRefTask.ProcessConfirmation` | src/AutoRef.cpp:238-263 | a report of new lights equals the confirmation step, whose meaning is `AutoRefLaws.NewLightConfirms` |
| `AutoRef.AutoRefTask.HandleLongPress` | src/AutoRef.cpp:265-301 | only a double event with both valid bits enables the referee or resets the match |
| `AutoRef.AutoRefTask.HandleDoubleHit` | src/AutoRef.cpp:303-335 | a double tap takes points back only in the correction window |
| `AutoRef.AutoRefTask.HandleTimerZero` | src/AutoRef.cpp:337-385 | what the end of a period starts, by timer state, last round and score |
| `AutoRef.AutoRefTask.HandlePassivityMark` | src/AutoRef.cpp:387-396 | the passivity mark stops the clock and waits for the P-card |
| `AutoRef.AutoRefTask.CheckTimeouts` | src/AutoRef.cpp:398-472 | what elapsed time does in each phase, with wrap-around of the tick word |
| `AutoRef.AutoRefTask.SendAward` | src/AutoRef.cpp:474-484 | an award sends the points and enters the correction window |
| `AutoRef.AutoRefTask.ContinueMatch` | src/AutoRef.cpp:495-500 | the lights are forgotten and the correction window starts |
| `AutoRef.AwardStep` | src/AutoRef.cpp:128-263 | an awarding step starts inside an episode, sends nothing but the award, one point at most in foil and sabre, both only in epee when a double counts |
| `AutoRef.PointsHaveLights` | src/AutoRef.cpp:128-263 | over every run a side gets a point only if its coloured light is in the OR of all lights since ARMED was last left |
| `AutoRef.OneAwardPerEpisode` | src/AutoRef.cpp:148-263 | between any two awarding steps the referee was ARMED |
| `AutoRef.AwardsAtLeastFiveSecondsApart` | src/AutoRef.cpp:398-500 | two awarding steps are at least 5000 ms apart whatever other events intervene |
| `AutoRef.LongPressNeedsBothHolds` | src/AutoRef.cpp:265-301 | an event of the long-hit detector enables a disabled referee, and makes an enabled one reset the match, if and only if each side completed a full unbroken hold |
| `AutoRef.OnlyLongPressResets` | src/AutoRef.cpp:17-58 | nothing but a double long press of both sides enables or disables the referee or makes it reset the match |
| `AutoRef.UnequalScoreStopsReferee` | src/AutoRef.cpp:337-385 | at the end of a fighting period the referee gives the match up exactly on an unequal score, also when rounds remain |
| `AutoRef.MatchOverExits` | src/AutoRef.cpp:337-396 | one turn leaves the final phase if and only if it handles a double long press of both sides, or, enabled, the end of a break or of a last round with equal scores |
| `AutoRefLaws.EpisodeIsTracked` | src/AutoRef.cpp:128-167 | in every run and inside an episode the accumulated lights are exactly those reported from leaving ARMED until the lights went out, and new lights are compared with the last report |
| `AutoRefLaws.LightsOutDecide` | src/AutoRef.cpp:157-236 | in every run, when the lights go out, the lights of the episode decide per weapon exactly which sides get a point, exactly when a confirmation is awaited, and exactly when nobody scores and the correction window opens or ARMED returns |
| `AutoRefLaws.NothingSentWhileLit` | src/AutoRef.cpp:148-167 | nothing is decided while a light is on, and an episode starts exactly at a report with a coloured or white light |
| `AutoRefLaws.NewLightConfirms` | src/AutoRef.cpp:238-263 | in every run, while a confirmation is awaited, a side is sent its point if and only if it newly lights, the other does not, and its coloured light was on in the episode; the wait ends in the correction window if and only if exactly one side newly lights |
| `AutoRefLaws.CommandsByRule` | src/AutoRef.cpp:265-472 | a step of a referee that is on sends start, stop, P-card, priority, reset and each decrement if and only if the rule of that command says so: event, phase, elapsed time and weapon |
| `AutoRefLaws.WaitEnds` | src/AutoRef.cpp:436-472 | an undisturbed wait ends neither before nor after its time, and leads to the phase that follows it |
| `AutoRefLaws.WaitLasts` | src/AutoRef.cpp:436-472 | over every run that does not disturb it a wait keeps its phase and its start for its whole time, and neither the stop nor the P-card is sent |
| `AutoRefLaws.CorrectionWindowEnds` | src/AutoRef.cpp:408-435 | the correction window lasts 5 s after a point and 1 s after none; it ends the match exactly if a point has decided it, returns to ARMED in a break, and else calls the fencers |
| `BoutClock.FencingTimer.DoTick` | src/FencingTimer.cpp:66-132 | one tick equals the tick function, including whether it reports a change |
| `BoutClock.FencingTimer.SetMinutes` | src/FencingTimer.h:23 | minutes set, ticks cleared, 100 hundredths put on the clock |
| `BoutClock.FencingTimer.SetSeconds` | src/FencingTimer.h:31 | seconds set, ticks cleared, 100 hundredths put on the clock |
| `BoutClock.FencingTimer.SetHundredths` | src/FencingTimer.h:39 | only the hundredths change |
| `BoutClock.FencingTimer.SetDisplayResolution` | src/FencingTimer.h:57 | resolution and its counter are set and nothing else |
| `BoutClock.FencingTimer.StartTimer` | src/FencingTimer.h:65 | the clock runs and nothing else changes |
| `BoutClock.FencingTimer.StopTimer` | src/FencingTimer.h:66 | the clock stands and nothing else changes |
| `BoutClock.CountsDown` | src/FencingTimer.cpp:66-132 | each running tick of 10 ms lowers the value by exactly one hundredth until zero |
| `BoutClock.ZeroSeenOnce` | src/FencingTimer.cpp:66-132 | from value V zero is reported on exactly one of the ticks up to ZeroTick, which is V if the display counter is due on the last shown hundredth and V+1 otherwise, when the clock stops itself |
| `BoutClock.ReportedWhenDue` | src/FencingTimer.cpp:66-132 | tick V reports zero if and only if the display counter, its resolution and the number of hundredths still to be shown say so |
| `BoutClock.FullTimeEndsOnTick` | src/FencingTimer.cpp:66-132 | with the resolution of 2 the clock is built with and at least ten seconds to go, zero is seen on tick V |
| `Passivity.UW2FTimer.Start` | src/UW2FTimer.cpp:14-18 | an interval starts, whether or not one was running |
| `Passivity.UW2FTimer.Stop` | src/UW2FTimer.cpp:20-28 | a running interval is added to the total |
| `Passivity.UW2FTimer.Reset` | src/UW2FTimer.cpp:30-37 | the total goes, and into the backup if there was any |
| `Passivity.UW2FTimer.RestorePreviousState` | src/UW2FTimer.h:18 | the backup becomes the total |
| `Passivity.UW2FTimer.SeedTotal` | src/UW2FTimer.h:19 | the total is set |
| `Passivity.UW2FTimer.GetIntermediateTime` | src/UW2FTimer.cpp:39-45 | whole seconds of the time shown now, truncated |
| `Passivity.ShowsRunTime` | src/UW2FTimer.cpp:14-45 | after any disciplined history the stopwatch shows the sum of its run intervals since the last reset, and its backup is what the last non-empty reset threw away |
| `Passivity.RestoreUndoesReset` | src/UW2FTimer.cpp:30-37 | a restore brings back the total before the last non-empty reset however many stops and resets followed |
| `Passivity.DoubleStartLosesTime` | src/UW2FTimer.cpp:14-18 | a history outside the discipline for which the stopwatch loses an interval |
| `Match.PassivityIsSumOfIntervals` | src/FencingStateMachine.cpp:228-263 | in every run the passivity stopwatch runs only while the clock does and shows exactly the sum of its run intervals |
| `Match.StepKeeps` | src/FencingStateMachine.cpp:173-263 | every input keeps: stopwatch only with the clock, no clock after the match, every start on a standing stopwatch |
| `Match.ClockTickKeeps` | src/FencingStateMachine.cpp:797-824 | the clock's part of a tick keeps the same |
| `Match.LightsTickKeeps` | src/FencingStateMachine.cpp:834-866 | the halt on a hit keeps the same |
| `Match.EndPeriodDown` | src/FencingStateMachine.cpp:722-780 | the end of a period lowers the rank in every state of play |
| `Match.StepDown` | src/FencingStateMachine.cpp:173-824 | a step that keeps the format keeps the period or lowers the rank, and never leaves the end of the match |
| `Match.RankBoundsChanges` | src/FencingStateMachine.cpp:722-780 | along any downward sequence of periods the changes so far and the rank left are at most the rank at the start |
| `Match.MatchEndsInTime` | src/FencingStateMachine.cpp:675-824 | from a reset the match has ended after at most 2n period changes, n+1 when n is 9 |
| `Match.EndedStaysEnded` | src/FencingStateMachine.cpp:173-256 | an ended match stays ended with a standing clock until a reset |
| `Match.PeriodEndsOnTime` | src/FencingStateMachine.cpp:797-824 | an undisturbed period from clock value V ends on exactly one tick, V or V+1 as the display counter decides: the clock runs until then, stops there, and the next period begins |
| `MatchLaws.PeriodsFollow` | src/FencingStateMachine.cpp:722-780 | in every run a step that is no reset and no new format keeps the period or enters the one that follows, with its round and its time: break 1:00, fighting 3:00, additional minute 1:00, each with 100 hundredths; the P-card of both sides may take two such steps |
| `MatchLaws.OvertimeOrEnd` | src/FencingStateMachine.cpp:722-758 | in every run, and by whatever input it ends, the last fighting period leads to the additional minute if and only if the scores are equal and to the end of the match if and only if they are not, and no other fighting period leads to either |
| `MatchLaws.TickEndsAtZero` | src/FencingStateMachine.cpp:797-824 | a tick changes the period if and only if it shows zero on the clock |
| `MatchLaws.SabreHalfEnds` | src/FencingStateMachine.cpp:1103-1123 | a point ends the period if and only if it is sabre, round 1, and a side stands at 8 after it |
| `MatchLaws.PCardsSkipBreak` | src/FencingStateMachine.cpp:573-598 | the P-card of both sides at 7 points in the first half of a sabre match goes straight to round 2, past the break |
| `MatchLaws.KeyScores` | src/FencingStateMachine.cpp:270-508 | what every key of a side does to both scores: one more below the maximum for the own key, one for the opponent with a red card, and taken back one less in unsigned words |
| `MatchLaws.FivePointsARound` | src/FencingStateMachine.cpp:1082-1101 | the maximum is five points a round, in team matches of the rounds so far |
| `MatchLaws.CardKeys` | src/FencingStateMachine.cpp:353-508 | what each card key does to the cards of its side, and that the other side keeps its cards |
| `MatchLaws.RedCardCounts` | src/FencingStateMachine.cpp:371-394 | a red card is counted on its side unless the point it gives ends a round of a team match and clears all cards |
| `MatchLaws.PCardsCount` | src/FencingStateMachine.cpp:573-598 | what the P-card of both sides makes of the two counts |
| `MatchLaws.ResetIsFresh` | src/FencingStateMachine.cpp:675-707 | an obeyed reset leaves a new match of the same number of rounds, whatever was before |
| `MatchLaws.OnlyResetOrStopObeyed` | src/FencingStateMachine.cpp:173-202 | a locked machine obeys nothing but the reset, a running one nothing but the stop |
| `MatchLaws.ClockKeys` | src/FencingStateMachine.cpp:228-263 | start, stop and toggle: the clock runs unless the match has ended, and a stop stops the stopwatch too |
| `MatchLaws.StartStartsPassivity` | src/FencingStateMachine.cpp:228-256 | the stopwatch starts with the clock if and only if the period is a fighting one of several rounds, with more than a minute left or a second on the stopwatch |
| `MatchLaws.PeriodClearsPassivity` | src/FencingStateMachine.cpp:722-780 | a new period puts the stopwatch to zero, the end of the match leaves it |
| `MatchLaws.CardsClearPassivity` | src/FencingStateMachine.cpp:371-598 | a red card and a P-card put the stopwatch to zero |
| `MatchLaws.HitStopsClock` | src/FencingStateMachine.cpp:834-866 | a hit stops clock and stopwatch in the tick that sees it |
| `MatchLaws.FormatsInTurn` | src/FencingStateMachine.cpp:318-344 | every format comes within three presses of the round key, from round one |
| `MatchMachine.FencingStateMachine.constructor` | src/FencingStateMachine.cpp:43-66 | a new machine stands at the start of a three-round match and satisfies the invariant |
| `MatchMachine.FencingStateMachine.OnUiWord` | src/FencingStateMachine.cpp:173-202 | a word of the remote control does to the fields what the step function says: lock, running clock and toggling |
| `MatchMachine.FencingStateMachine.Handle` | src/FencingStateMachine.cpp:204-570 | the switch over the events equals its functional form |
| `MatchMachine.FencingStateMachine.StartTimer` | src/FencingStateMachine.cpp:228-256 | starting the clock, and the passivity stopwatch with it unless the format or the last minute forbids |
| `MatchMachine.FencingStateMachine.StopTimer` | src/FencingStateMachine.cpp:258-263 | clock and stopwatch stop |
| `MatchMachine.FencingStateMachine.PressKey` | src/FencingStateMachine.cpp:270-508 | what each score and card key does to one fencer, its opponent and the stopwatch |
| `MatchMachine.FencingStateMachine.CycleFormat` | src/FencingStateMachine.cpp:318-344 | the next number of rounds, from round one |
| `MatchMachine.FencingStateMachine.ProcessUW2F` | src/FencingStateMachine.cpp:573-598 | giving P-cards, with the points of the second card |
| `MatchMachine.FencingStateMachine.ProcessUW2FUndo` | src/FencingStateMachine.cpp:600-641 | taking P-cards back, points and stopwatch included |
| `MatchMachine.FencingStateMachine.ClearAllCards` | src/FencingStateMachine.cpp:650-674 | cards cleared, P-cards only on request |
| `MatchMachine.FencingStateMachine.Clear` | src/FencingStateMachine.cpp:675-707 | a full reset that keeps the number of rounds |
| `MatchMachine.FencingStateMachine.SetNextTimerStateAndRoundAndNewTimeOnTimerZero` | src/FencingStateMachine.cpp:722-780 | the end of a period equals the period step, whose meaning is `MatchLaws.PeriodsFollow` |
| `MatchMachine.FencingStateMachine.DoStateMachineTick` | src/FencingStateMachine.cpp:785-866 | one tick equals countdown, passivity display and lights in this order |
| `MatchMachine.FencingStateMachine.GetMaxScore` | src/FencingStateMachine.cpp:1082-1101 | the maximum score by format and round |
| `MatchMachine.FencingStateMachine.IncrementScoreAndCheckForMinuteBreak` | src/FencingStateMachine.cpp:1103-1123 | a point up to the maximum, and the end of the first sabre half at 8 |
| `MatchMachine.FencingStateMachine.SetMachineLights` | src/FencingStateMachine.h:175-180 | new lights are noted as changed, equal ones not |
| `Crc.Crc8Smbus` | src/UDPIOHandler.cpp:15-25 | the register loop computes the CRC of the first bytes |
| `Crc.CrcLinear` | src/UDPIOHandler.cpp:15-25 | the CRC of a bitwise sum is the sum of the CRCs |
| `Crc.ZeroRemainder` | src/UDPIOHandler.cpp:15-25 | a message and a byte have CRC 0 if and only if the byte is the message's CRC |
| `Crc.CrcKeepsParity` | src/UDPIOHandler.cpp:15-25 | the CRC has an odd number of ones if and only if the message has |
| `Crc.CorruptionShows` | src/UDPIOHandler.cpp:15-25 | messages that differ in one byte, in an odd number of bits or in a burst of at most eight bits, or, with at most six bytes, in two bits, have different CRCs |
| `Crc.BurstShows` | src/UDPIOHandler.cpp:15-25 | at any length a burst of wrong bits within eight consecutive ones never cancels out |
| `Crc.TwoBitsShow` | src/UDPIOHandler.cpp:15-25 | in at most six bytes two wrong bits never cancel out |
| `Oprcp.OprcpReceiver.ProcessPacket` | src/UDPIOHandler.cpp:134-177 | length, CRC, deduplication and translation decide the event and the new deduplication state |
| `Oprcp.CorruptPacketIsDropped` | src/UDPIOHandler.cpp:134-146 | a good packet that arrives with one wrong byte, an odd number of wrong bits, a burst of at most eight wrong bits or two wrong bits changes nothing and fires nothing |
| `Oprcp.BurstFiresOnce` | src/UDPIOHandler.cpp:152-161 | copies within 500 ms of the accepted one never fire nor extend the window, across the 32-bit wrap |
| `Oprcp.TwinFields` | src/UDPIOHandler.cpp:30-37 | setting the undo bit changes no other field of a frame |
| `Oprcp.TwinKeys` | src/UDPIOHandler.cpp:39-83 | the words of a frame and of its undo twin reach the machine as a key and its undo key |
| `Oprcp.KeyUndone` | src/FencingStateMachine.cpp:270-508 | for each score and card key, key then undo restores all scores and cards if and only if the stated condition holds before |
| `Oprcp.PCardUndone` | src/FencingStateMachine.cpp:573-641 | the same for the P-card of both sides |
| `Oprcp.UndoTwin` | src/UDPIOHandler.cpp:30-83 | for every score and card frame, the frame and its undo twin restore all scores and cards of a stopped, unlocked machine if and only if that condition holds |
| `Remote.PacketIsHeard` | src/UDPIOHandler.cpp:134-177 | an accepted packet tells the match machine the frame with the class of its first byte, the undo and cycle bits and the command of its second, and the side of its third |
| `Remote.ClockFrames` | src/UDPIOHandler.cpp:41-48 | the clock starts, stops with the undo bit, and toggles with the cycle bit |
| `Remote.NextPeriodFrames` | src/UDPIOHandler.cpp:85-97 | the frame enters the next period, and with the undo bit does nothing |
| `Remote.ResetFrames` | src/UDPIOHandler.cpp:90-91 | the frame leaves a new match, also of a locked machine |
| `Remote.PriorityFrames` | src/UDPIOHandler.cpp:92-95 | the three priority frames give a priority if there is none, and else take it away |
| `Remote.ScoreFrames` | src/UDPIOHandler.cpp:50-55 | the side named by the frame gets a point, with the undo bit loses one, and the other score stays |
| `Remote.CardFrames` | src/UDPIOHandler.cpp:57-83 | each card command shows its card on the side named or takes it back |
| `Remote.PassivityFrames` | src/UDPIOHandler.cpp:80-81 | with the undo bit the passivity time is restored, without it the match machine does nothing |
| `Remote.CompetitionFrames` | src/UDPIOHandler.cpp:85-114 | each frame of the competition class is its own button of the piste and nothing to the match machine; of the other frames only the reset is a button |
| `Remote.WeaponFrames` | src/UDPIOHandler.cpp:119-126 | the next weapon, and after four such frames the same one |
| `Sensor.EpeeScanKeeps` | src/epee.cpp:53-192 | an epee scan with positive contact times leaves no completed contact behind once the lock has started |
| `Sensor.TimesWearDown` | include/DebounceTimer.h:28-48 | in every run from a reset sensor epee's contact times are 6000 us less 150 us for each margin taken since the last reset |
| `Sensor.NoHitPastLock` | src/3WeaponSensor.cpp:405-455 | a scan past the lock that does not reset leaves every hit light as it is |
| `Sensor.LockedScansSetNoHit` | src/3WeaponSensor.cpp:398-455 | the same in every run from a reset sensor, for all three weapons, as long as fewer than forty margins are taken off either contact between resets and new hits are allowed again only between cycles |
| `Sensor.HitsLieWithinLockTime` | src/3WeaponSensor.cpp:398-411 | in such runs two hits of one cycle lie within the weapon's lock time |
| `Sensor.HitsBurnLongEnough` | src/3WeaponSensor.cpp:296-328 | every hit light of a cycle burns until more than the lights' duration and 500 ms after the first hit |
| `Sensor.SpentMarginLetsHitThrough` | src/epee.cpp:135-187 | from every reset epee sensor 82 scans, in which touches on the guard and one hit spend exactly forty margins, lead past the lock of that hit, where the next scan lights the other side |
| `Sensor.GuardsSpendMargin` | src/epee.cpp:135-187 | a touch that is complete in a scan that finds both points on the guards costs the other contact a margin and changes nothing else |
| `Sensor.OpenRight` | src/epee.cpp:135-187 | an open, unsignalled right contact lights green if and only if the left one is complete, no margin has been taken in this press and the time left is not longer than the margin |
| `Sensor.OpenLeft` | src/epee.cpp:135-187 | the same for the left contact |
| `Sensor.HitsNeedContact` | src/3WeaponSensor.cpp:413-455 | in every run from a reset sensor with fewer than thirty-nine margins off either contact between resets, a hit light goes on only on a side whose contact is closed or which was signalled before, for all three weapons |
| `Sensor.HitWithoutContact` | src/epee.cpp:135-187 | from every reset epee sensor 80 scans, none with the right contact closed, end with both lights on |
| `SensorLaws.ColourTellsValidity` | src/foil.cpp:185-256 | in every run a coloured light goes on in a foil scan only if the foil reading before it found that contact valid, and a white one only if it did not; epee and sabre set no white light |
| `SensorLaws.EpeeHolds` | src/epee.cpp:53-192 | an epee scan of a closed contact that nothing holds back times it on or lights its side, and lights it once the contact time is over |
| `SensorLaws.FoilHolds` | src/foil.cpp:80-256 | the same for foil, where the validity reading before decides whether guard and piste count |
| `SensorLaws.SabreHolds` | src/sabre.cpp:61-186 | the same for sabre |
| `SensorLaws.RunFit` | include/DebounceTimer.h:10-48 | in every run no press is dated in the future and no contact time is longer than that of the weapon |
| `SensorLaws.ContactLightsSide` | src/3WeaponSensor.cpp:413-455 | in every run a contact closed in every scan for the contact time of its weapon, unsignalled at first, with no scan past the lock and not held back by guard or piste where they count, lights its side |
| `SensorLaws.ResetDarkens` | src/3WeaponSensor.cpp:330-455 | a scan that resets ends with no hit light on |
| `SensorLaws.LightsGoOut` | src/3WeaponSensor.cpp:296-455 | in every tame run the lights of a cycle are out by the first scan more than half a second after one that is past the lights' duration |
| `SensorMachine.MultiWeaponSensor.DoFullScan` | src/3WeaponSensor.cpp:413-455 | a scan of the object equals the step function |
| `SensorMachine.MultiWeaponSensor.DoReset` | src/3WeaponSensor.cpp:330-396 | lights, lock, signals and the weapon's timers return to rest |
| `SensorMachine.MultiWeaponSensor.OKtoReset` | src/3WeaponSensor.cpp:296-328 | the waiting for the lights and the extra half second, and when it is over |
| `SensorMachine.MultiWeaponSensor.StartLock` | src/3WeaponSensor.cpp:398-403 | only the first hit sets the time of the lock |
| `SensorMachine.MultiWeaponSensor.HandleLock` | src/3WeaponSensor.cpp:427-436 | past the lock both sides are signalled and the reset is awaited or done |
| `SensorMachine.MultiWeaponSensor.SetActualWeapon` | src/3WeaponSensor.h:47-50 | a chosen weapon resets the sensor |
| `SensorMachine.MultiWeaponSensor.BlockNewHits` | src/3WeaponSensor.h:63-66 | both sides are signalled |
| `SensorMachine.MultiWeaponSensor.AllowNewHits` | src/3WeaponSensor.h:67-70 | neither side is signalled |
| `SensorMachine.MultiWeaponSensor.DoEpee` | src/epee.cpp:53-192 | the epee scanner equals its functional form |
| `SensorMachine.MultiWeaponSensor.DoFoil` | src/foil.cpp:80-256 | the foil scanner equals its functional form, whose colours and hits are those of `SensorLaws.ColourTellsValidity` and `ContactLightsSide` |
| `SensorMachine.MultiWeaponSensor.DoSabre` | src/sabre.cpp:61-187 | the sabre scanner equals its functional form |
| `Efp1.GetLines` | src/EFP1Message.cpp:170-178 | reading a stream piece by piece yields the split, without a trailing empty piece |
| `Efp1.EFP1Message.constructor` | src/EFP1Message.cpp:5-15 | an empty INFO message of the full size |
| `Efp1.EFP1Message.FromString` | src/EFP1Message.cpp:160-214 | the object holds what the buffer parses to |
| `Efp1.WhenAreasAreMissing` | src/EFP1Message.cpp:160-178 | the constructor has no first area to read exactly for text with at most one character behind its leading blanks |
| `Efp1.EFP1Message.ToString` | src/EFP1Message.cpp:38-57 | the string is the printed message |
| `Efp1.EFP1Message.SetField` | src/EFP1Message.cpp:91-119 | writing by index changes that field and no other; an index that names no field changes none |
| `Efp1.EFP1Message.Assign` | src/EFP1Message.cpp:21-29 | assignment makes all 41 fields equal |
| `Efp1.EFP1Message.SwapFencersInclScoreCardsEtc` | src/EFP1Message.cpp:315-319 | left and right fields change places |
| `Efp1.RoundTrip` | src/EFP1Message.cpp:38-57 | parsing what was printed gives back every message of 41 fields without dividers |
| `Efp1.RoundTripExactly` | src/EFP1Message.cpp:160-214 | among messages of 41 fields exactly those survive printing and parsing |
| `Efp1.NormalFormIsStable` | src/EFP1Message.cpp:160-214 | for any input with an area, printing what it parses to is a fixed point of parsing and printing |
| `Efp1.WhenIndicesAreSafe` | src/EFP1Message.cpp:121-150 | indices up to 40 are always in range, and some index is not exactly if there are more right than left fields |
| `Efp1.RequestReadBack` | src/EFP1Message.cpp:216-225 | NEXT and PREV requests are read as such and name the same piste and competition |
| `Opp2State.EqualStatesLookTheSame` | src/Opp2Handler.cpp:2369-2425 | states that pass for equal are converted to the same status, so change detection misses nothing visible |
| `Opp2State.ConvertedReadsBack` | src/Opp2Handler.cpp:2431-2638 | the status of a state without dividers in its texts survives printing and parsing; which field carries what is `Opp2Items.StatusTells` |
| `Opp2.CacheFollowsState` | src/Opp2Handler.cpp:1876-2053 | after every event of every run but a new piste name the cached INFO, NEXT and PREV strings are what converting the state now would print |
| `Opp2.CurrentSinceLastPush` | src/Opp2Handler.cpp:1876-2053 | after any run at all, new piste names included, the cache is current if and only if the piste has the name it had at the last push, and is otherwise off by that name alone |
| `Opp2.CurrentIsPrinted` | src/CyranoHandler.cpp:45-59 | in a current cache the INFO string reads back as the converted state with the competition, for states without dividers |
| `Opp2.StepKeepsCurrent` | src/Opp2Handler.cpp:2059-2363 | every single event but a new piste name keeps the cache current |
| `Opp2.UnannouncedChangesNothing` | src/Opp2Handler.cpp:1555-1838 | a DISP message that raises no change flag leaves the state as it is |
| `Opp2.NewNameGoesStale` | src/Opp2Handler.cpp:321-324 | setting the piste name leaves the cache current exactly if the name is the same |
| `Opp2.WaitingEndsWithBegin` | src/Opp2Handler.cpp:817-841 | one event leaves WAITING only if it is the BEGIN button, and then to HALT |
| `Opp2.WaitingLeadsThroughHalt` | src/Opp2Handler.cpp:1164-1190 | over every run FENCING, PAUSE and ENDING are reached from WAITING only through HALT at a press of BEGIN |
| `Opp2.MessagesRespectTheBout` | src/Opp2Handler.cpp:2059-2167 | outside WAITING no OPP2 message changes fencers or match |
| `Opp2.AcknowledgedWaits` | src/Opp2Handler.cpp:1009-1023 | an acknowledgement puts the apparatus to WAITING and clears fencers and match; other commands change nothing |
| `Opp2.ActiveAfter` | src/Opp2Handler.cpp:328-361 | who holds the protocol lock after each event |
| `Opp2.CyranoLocksOpp2Out` | src/Opp2Handler.cpp:328-361 | once Cyrano has been passed to the check under auto-detection and until the reset button, the seven state messages of OPP2 are without effect, and an OPP2 message or control command leaves the state as it is if and only if it is not an acknowledgement with something left to clear |
| `Opp2.ControlIgnoresLock` | src/Opp2Handler.cpp:1009-1074 | whoever holds the lock, an acknowledgement changes the state unless there is nothing left to clear, and no other control command ever does |
| `Opp2.AckPassesTheLock` | src/Opp2Handler.cpp:1009-1023 | under the lock of Cyrano an OPP2 acknowledgement during a halt puts the apparatus to WAITING and clears fencers and match |
| `Opp2.CyranoMessagesDoNotLock` | src/CyranoHandler.cpp:148-192 | messages of the competition software never take that lock |
| `Opp2Items.DispSetsItsFields` | src/Opp2Handler.cpp:1555-1838 | a DISP message gives the item of every protocol index the value its own text stands for, keeps the items of empty fields, and changes nothing else |
| `Opp2Items.OneFieldSetsOneItem` | src/Opp2Handler.cpp:1555-1838 | a DISP message whose only given field is i changes exactly the item that index i names |
| `Opp2Items.NumberReadsBack` | src/Opp2Handler.cpp:2431-2638 | a number of at most seven digits is printed as a text that reads back as it |
| `Opp2Items.TimeReadsBack` | src/Opp2Handler.cpp:2431-2638 | a clock below ten thousand minutes is printed as minutes and seconds that read back as its whole seconds |
| `Opp2Items.StatusTells` | src/Opp2Handler.cpp:2431-2638 | each field of the status reads back as the state's own item of that index, right and left, scores, cards, lights, clock, letters and all |
| `Opp2Items.InfoTellsTheState` | src/CyranoHandler.cpp:45-59 | so do the fields of the cached INFO string once it is parsed, beside the command and the competition |
| `Opp2Items.DispCopiesTheStatus` | src/Opp2Handler.cpp:1555-1838 | a DISP message with the status of another state makes every item it sets that state's, as the status shows it |
| `Opp2Items.FsmSetsItsItems` | src/Opp2Handler.cpp:1099-1371 | every event of the match machine gives the items of its own side and kind their new values and touches no other |
| `Opp2Items.FsmSetsTheRest` | src/Opp2Handler.cpp:1099-1371 | and what it sets beside them: the running clock, the passivity time and the black cards |
| `Opp2Items.MessageSetsItsPart` | src/Opp2Handler.cpp:2059-2363 | an accepted OPP2 message makes its own part of the state what it carries and leaves the others |
| `Opp2Items.SwapCrossesItems` | src/Opp2Handler.cpp:693-758 | the swap button exchanges every item of the two fencers and turns the priority over |
| `Opp2Items.ButtonsMoveTheBout` | src/Opp2Handler.cpp:817-841 | BEGIN halts the bout, END ends it unless it waits, and no other button but the swap touches an item |
| `Opp2Machine.CyranoHandler.UpdateCachedStatus` | src/CyranoHandler.cpp:37-43 | the status is stored and the strings rebuilt from it |
| `Opp2Machine.CyranoHandler.RebuildCachedStrings` | src/CyranoHandler.cpp:45-59 | the three strings are those of the status with INFO and the competition |
| `Opp2Machine.CyranoHandler.Hello` | src/CyranoHandler.cpp:158-168 | the competition is stored and a valid cache rebuilt |
| `Opp2Machine.Opp2Handler.constructor` | src/Opp2Handler.cpp:67-235 | the handler begins with a current cache and no protocol lock |
| `Opp2Machine.Opp2Handler.PushCachedStatusToCyrano` | src/Opp2Handler.cpp:1876-1892 | the cache is rebuilt from the converted state |
| `Opp2Machine.Opp2Handler.UpdateLightsInternal` | src/Opp2Handler.cpp:1898-1920 | lights that differ are stored and pushed |
| `Opp2Machine.Opp2Handler.UpdateScoreInternal` | src/Opp2Handler.cpp:1922-1944 | a score that differs is stored and pushed |
| `Opp2Machine.Opp2Handler.UpdateClockInternal` | src/Opp2Handler.cpp:1946-1967 | a clock that differs is stored and pushed |
| `Opp2Machine.Opp2Handler.UpdateApparatusStateInternal` | src/Opp2Handler.cpp:1969-2005 | an apparatus state that differs is stored and pushed |
| `Opp2Machine.Opp2Handler.UpdateMatchInternal` | src/Opp2Handler.cpp:2007-2030 | match data that differ are stored and pushed |
| `Opp2Machine.Opp2Handler.UpdateUW2FInternal` | src/Opp2Handler.cpp:2032-2053 | P-cards and passivity time that differ are stored and pushed |
| `Opp2Machine.Opp2Handler.OnTimerState` | src/Opp2Handler.cpp:1164-1190 | the timer moves the apparatus between FENCING and HALT unless it waits or ends, and the clock with it |
| `Opp2Machine.Opp2Handler.Update` | src/Opp2Handler.cpp:1099-1371 | every event of the match machine does to state and cache what the step function says |
| `Opp2Machine.Opp2Handler.OnScoreEvent` | src/Opp2Handler.cpp:1148-1350 | what each score and card event of the match machine changes |
| `Opp2Machine.Opp2Handler.OnStateEvent` | src/Opp2Handler.cpp:1110-1365 | what every other event of the match machine changes |
| `Opp2Machine.Opp2Handler.IsProtocolAllowed` | src/Opp2Handler.cpp:328-361 | the answer and the new holder of the protocol lock |
| `Opp2Machine.Opp2Handler.OnOpp2Message` | src/Opp2Handler.cpp:2059-2363 | permission, guard, change detection and push as one step |
| `Opp2Machine.Opp2Handler.ProcessAck` | src/Opp2Handler.cpp:1076-1097 | to WAITING, fencers and match cleared, pushed |
| `Opp2Machine.Opp2Handler.UpdateFromCyranoMessage` | src/Opp2Handler.cpp:1555-1838 | the given fields of a DISP message are taken over, as `Opp2Items.DispSetsItsFields` spells out, and pushed if one of them counts as a change |
| `Opp2Machine.Opp2Handler.ProcessMessageFromSoftware` | src/CyranoHandler.cpp:148-192 | HELLO, DISP and ACK for this piste, and nothing for others |
| `Opp2Machine.Opp2Handler.SwapFencers` | src/Opp2Handler.cpp:693-758 | fencers, scores, priority, lights and P-cards change sides and are pushed |
| `Opp2Machine.Opp2Handler.ProcessButton` | src/Opp2Handler.cpp:685-860 | what each button does to state, lock and cache |
| `Opp2Machine.Opp2Handler.SetPisteID` | src/Opp2Handler.cpp:321-324 | the name changes and the cache does not |
| `FpaFrame.RS422_FPA_Message.CalculateSize` | src/RS422_FPA_Message.cpp:53-61 | the size is the index of the first EOT plus one |
| `FpaFrame.RS422_FPA_Message.GetEOTIndex` | src/RS422_FPA_Message.cpp:77-88 | the index of the first EOT; without one, -1, or the size of the buffer if an EOT stands in memory behind it |
| `FpaFrame.RS422_FPA_Message.SetSingleDigitNumberInAscii` | src/RS422_FPA_Message.cpp:63-66 | one byte changes, to the digit |
| `FpaFrame.RS422_FPA_Message.SetDoubleDigitNumberInAscii` | src/RS422_FPA_Message.cpp:68-76 | two bytes change, to a right-aligned number |
| `FpaFencer.RS422_FPA_Type5_6_Message.constructor` | src/RS422_FPA_Type5_Message.cpp:4-16 | an empty frame for the left side |
| `FpaFencer.RS422_FPA_Type5_6_Message.SetName` | src/RS422_FPA_Type5_Message.cpp:42-83 | the buffer is the old one with the cut-off name spliced in, the size that of the first EOT |
| `FpaFencer.RS422_FPA_Type5_6_Message.SetNOC` | src/RS422_FPA_Type5_Message.cpp:85-111 | the same for the first three bytes of the nation, or the end of the frame if it is empty |
| `FpaFencer.RS422_FPA_Type5_6_Message.SetUID` | src/RS422_FPA_Type5_Message.cpp:113-145 | the same for the identifier |
| `FpaFencer.NameEdit` | src/RS422_FPA_Type5_Message.cpp:42-83 | with an identifier of at most seven bytes setting the name changes the name and nothing else |
| `FpaFencer.NocEdit` | src/RS422_FPA_Type5_Message.cpp:85-111 | the same for the nation, empty or three letters |
| `FpaFencer.UidEdit` | src/RS422_FPA_Type5_Message.cpp:113-145 | the same for the identifier, old and new up to eight bytes |
| `FpaFencer.EditsRefineRecord` | src/RS422_FPA_Type5_Message.cpp:42-145 | after any sequence of allowed edits the buffer starts with the frame of the plainly edited record, and the size is the frame's |
| `FpaFencer.NameNeedsShortUid` | src/RS422_FPA_Type5_Message.cpp:52-58 | setting the name works if and only if the identifier has at most seven bytes or both names are empty |
| `FpaFencer.EightByteNoc` | src/RS422_FPA_Type5_Message.cpp:85-111 | past an identifier of eight bytes the nation is written over the name |
| `FpaFencer.NocNeedsShortUid` | src/RS422_FPA_Type5_Message.cpp:88-93 | setting the nation works if and only if the identifier has at most seven bytes, or the nation stands there already and the name begins with it, so that nothing changes |
| `FpaScore.RS422_FPA_Type3_Message.constructor` | src/RS422_FPA_Type3_Message.cpp:4-38 | an empty board in round one with two video calls each |
| `FpaScore.RS422_FPA_Type3_Message.Set` | src/RS422_FPA_Type3_Message.cpp:61-130 | each setter's bytes, size and request for transmission |
| `FpaScore.RS422_FPA_Type3_Message.EditRound` | src/RS422_FPA_Type3_Message.cpp:89-117 | the round with one or two digits, and a size that only grows |
| `FpaScore.RS422_FPA_Type3_Message.MakeRSingleDigit` | src/RS422_FPA_Type3_Message.cpp:79-88 | the second digit is taken out and the rest moves up |
| `FpaScore.RoundEdit` | src/RS422_FPA_Type3_Message.cpp:79-117 | widening and narrowing the round keeps video calls and everything else |
| `FpaScore.EditShows` | src/RS422_FPA_Type3_Message.cpp:61-130 | every setter changes the part it names, in either layout, and nothing else |
| `FpaScore.EditsRefineBoard` | src/RS422_FPA_Type3_Message.cpp:61-130 | after any sequence of edits the buffer starts with the frame of the plainly edited board; the size is 30 exactly if a two-digit round was ever set |
| `FpaPassivity.RS422_FPA_Type8_Message.constructor` | src/RS422_FPA_Type8_Message.cpp:5-36 | an empty frame without time |
| `FpaPassivity.RS422_FPA_Type8_Message.EditTime` | src/RS422_FPA_Type8_Message.cpp:48-65 | the layout is switched once and the time written |
| `FpaPassivity.RS422_FPA_Type8_Message.EditPCardRight` | src/RS422_FPA_Type8_Message.cpp:66-77 | the right P-card is written where the layout has it |
| `FpaPassivity.RS422_FPA_Type8_Message.EditPCardLeft` | src/RS422_FPA_Type8_Message.cpp:78-89 | the left P-card is written where the layout has it |
| `FpaPassivity.EditShows` | src/RS422_FPA_Type8_Message.cpp:48-89 | each setter changes what it names, across the switch of layouts too |
| `FpaPassivity.EditsRefineCards` | src/RS422_FPA_Type8_Message.cpp:48-89 | after any sequence of edits that sets no right P-card to 10 the buffer starts with the frame of the plainly edited record |
| `FpaPassivity.TimeNeedsDigit` | src/RS422_FPA_Type8_Message.cpp:51-60 | the first setting of the time works if and only if the right P-card is not 10 |
| `FpaPassivity.SwitchedSize` | src/RS422_FPA_Type8_Message.cpp:51-60 | the size found at the switch is that of the long frame |
| `Repeater.RepeaterSender.Update` | src/RepeaterSender.cpp:102-120 | a new event takes the next number, is sent at once and is due for four repetitions |
| `Repeater.RepeaterSender.RepeatLastMessage` | src/RepeaterSender.cpp:122-130 | a due repetition sends the same packet again |
| `Repeater.SentInOrder` | src/RepeaterSender.cpp:102-130 | in every run what goes on the air carries non-decreasing numbers, each above 0 with the event that its number counts |
| `Repeater.ReplicationIsFaithful` | src/RepeaterReceiver.cpp:14-31 | from sender to receiver over a lossy, duplicating link without overtaking: exactly the numbers above 0 of which a copy arrives are forwarded, once each, in order, with the event given under them |
| `Repeater.RepeaterReceiver.OnDataRecv` | src/RepeaterReceiver.cpp:14-31 | which packets are passed on, and the number remembered |
| `Repeater.ForwardedAreTheClimbs` | src/RepeaterReceiver.cpp:14-31 | whatever arrives in whatever order, an arrival is forwarded if and only if its number is above that of the piste's arrival before it |
| `Repeater.WhenNumbersAreForwarded` | src/RepeaterReceiver.cpp:14-31 | a number is forwarded if and only if the stream climbs to it, and more than once if and only if it climbs to it more than once |
| `Repeater.ForwardsOnceInOrder` | src/RepeaterReceiver.cpp:14-31 | over a lossy, duplicating link without reordering a number is forwarded if and only if a copy arrives and it is above the last, at most once and in order |
| `Repeater.ReorderingForwardsTwice` | src/RepeaterReceiver.cpp:24-29 | the stream 2, 1, 2 climbs to 2 twice, and so it is forwarded twice |
| `Repeater.SwapIsMirror` | src/RepeaterReceiver.cpp:49-70 | mirroring exchanges the sides of every hit light and is its own inverse |
| `Repeater.Broadcaster.TransmitFullStateToDisplay` | src/FencingStateMachine.cpp:123-161 | every call sends the lights, every seventh the state as well, if the clock stands still |
| `Repeater.StateEventsAgree` | src/RepeaterReceiver.cpp:71-133 | the state events bring any display into agreement, up to mirroring |
| `Repeater.BroadcastSynchronises` | src/FencingStateMachine.cpp:123-161 | after one loss-free full broadcast with a standing clock the display agrees with the machine whatever it had missed |
| `Adc.ResistorDividerCalibrator.VoltageToAdcRaw` | src/adc_calibrator.cpp:175-188 | on a nondecreasing curve the binary search returns the largest reading below the voltage, 0 if none |
| `Adc.ResistorDividerCalibrator.GetAdcThresholdForResistanceNonTip` | src/adc_calibrator.cpp:440-446 | the threshold of a resistance, -1 if not calibrated |
| `Adc.ResistorDividerCalibrator.GetAdcThresholdForResistanceTip` | src/adc_calibrator.cpp:448-454 | the same for the tip wires |
| `Adc.ThresholdSeparates` | src/adc_calibrator.cpp:440-454 | a reading exceeds the threshold of R if and only if its voltage is at least the divider's at R, that is, if the contact has at most resistance R |
| `Adc.ThresholdsFall` | src/adc_calibrator.cpp:440-454 | a larger resistance never has a larger threshold |
| `Mqtt.AtlasAsyncMqttClient.HandleData` | src/AtlasAsyncMqttClient.cpp:139-158 | what a fragment adds to the buffer and whether the callback fires |
| `Mqtt.MessageArrives` | src/AtlasAsyncMqttClient.cpp:139-158 | one message cut in any way fires once with its topic and whole payload |
| `Mqtt.StreamArrives` | src/AtlasAsyncMqttClient.cpp:139-158 | any stream of messages, each cut in any way, is delivered message by message, in order |

## Left out

- Wrap-around of the millisecond counter in the sensor and the passivity stopwatch; the automatic referee's and the packet window's 32-bit arithmetic is modelled.
- Several clock readings within one scan, one tick or one turn: each takes a single time; the referee's two readings of the match machine per turn are kept apart.
- The ADC: averaging of two epee readings and the thresholds are booleans to the scanners; the thresholds themselves are in `Adc`.
- The orange lights, the white wire lights and the parry check of sabre, automatic weapon detection (an input) and the composition of the light mask.
- Blocking and re-arming of hits by the match machine, its idle and sleep states, and its stream of notifications; each event's effect on the state is modelled.
- The legacy path by which the match machine reads a display message directly.
- The filter of equal light events in front of the automatic referee's queue, its light animations and delays.
- `first_fired_at_` of the long-hit detector, which is written and never read.
- Event words of lights, gestures and commands are data types; the words of the remote control and the repeater's counts are numbers taken apart as the code does.
- Score and cards of a fencer are one record per side in the match machine's object, and light, lock and scanner variables one record each in the sensor's; the firmware keeps single fields.
- The OPP2 library's types, JSON and topics are not part of this model: counts are bytes, texts have no length limit, sequence numbers and time stamps are one number that no comparison looks at.
- Boot recovery, timeouts of the state mutex, publishing, the clock throttle (an input) and the synchronisation of the match machine after OPP2 and Cyrano messages. Guard and write of an OPP2 message are one step.
- Conversions of numbers above the range of a C integer in DISP messages, where the C library leaves the result open, and negative numbers in a stop watch text.
- Copy construction of FPA frames, frames of other types, and the contents of a buffer behind its EOT.
- Wrap-around of the repeater's packet numbers after 2^31 events, the heartbeat, pairing and the watchdog.
- Topics with an embedded terminator in `Mqtt`, connection and subscription events.
- Rounding: voltages and resistances are real numbers; resistances are not negative.
- LED strip, displays, network setup, provisioning, preferences and over-the-air updates: user interface and plumbing over libraries that are not part of this model.
- Sensor.HitsBurnLongEnough: assumes that the weapon is not changed in the meantime, because a change puts all lights out at once.
- Sensor.LockedScansSetNoHit: assumes that new hits are not allowed again in the middle of a cycle, because that clears the signals the lock relies on.
- Sensor.HitsNeedContact: says nothing of a side that was already signalled, because epee no longer times it and may show what was complete before.
- Efp1.EFP1Message.FromString: requires an input with at least one area, because the constructor reads the first area unconditionally; `Efp1.WhenAreasAreMissing` says which inputs have none.
- Efp1.EFP1Message.SetField: requires that the index does not reach past the last left-fencer field, which the source does not check; what is written under an index that names no field, and read back under another such index, is not modelled.
- FpaFencer.RS422_FPA_Type5_6_Message.SetNOC: requires a nation that is not a single letter, because the third byte of one would be read behind its terminator.
- FpaFrame.RS422_FPA_Message.CalculateSize: requires an EOT in the buffer, because the source searches on in memory behind it.
- MatchLaws.PeriodsFollow: a reset and a new format are no steps of the rules and are left to `MatchLaws.ResetIsFresh` and `MatchLaws.FormatsInTurn`.
- SensorLaws.LightsGoOut: assumes scans of one weapon past the lock with the buzzer still on at the first of them, because a change of weapon puts the lights out anyway.
- Opp2Items.StatusTells: assumes counts that fit a byte, the number of the match in two and a clock below ten thousand minutes, which is what the state's own types and the texts hold.
- Opp2Items.MessageSetsItsPart: states equality as the handler compares it, because a message that passes for equal is not stored.
