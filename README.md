# smokestack-firmware, modelled in Dafny

Smokestack is the firmware of a Raspberry Pi pellet smoker. A Python main
loop reads the grill thermocouple and the food probe, follows a cooking
program, drives three relays and talks to a remote API server. The relays
are the auger that feeds pellets, the combustion fan and the hot-rod
igniter. This project models the control core of that firmware:

- `Smokestack.dfy` models the control loop of `Smokestack.py` as the class
  `Firmware`. Its methods are the module's functions: mode entry
  (`set_mode`), the per-tick mode actions (`run_mode`, `manage_igniter`,
  `manage_auger`, `update_pid`), program handling (`set_program`,
  `next_program`, `monitor_limits`, `handle_program_update`) and the
  throttled temperature read. The firmware's calls to the API server are
  recorded in a ghost `trace` of events. A `sys.exit` or an uncaught Python
  exception becomes the terminal `exit` outcome.
- `Smoker.dfy` models the smoker object of `Smoker.py` as the class
  `Smoker`. It holds the relay levels with their toggle stamps, the timers,
  the pause cycle and the moving average of grill readings fed to the PID.
- `PID.dfy` models the controller of `PID.py` in two parts. The class `PID`
  has the same fields as the Python object. The pure functions `Initial`,
  `Retarget`, `WithGains` and `Step` specify it. The lemmas state what one
  update computes.
- `TempSensor.dfy` models the bit-level decoding of the two sensor drivers
  in `TempSensor.py`. The MAX31855 (thermocouple) decoding covers the
  32-bit read, the internal temperature, the thermocouple count and the
  fault flags. The MAX31865 (RTD) decoding covers the ADC code, the fault
  flag and the fault register.
- `SmokeLog.dfy` models the two formatting helpers of `SmokeLog.py`.
- `Wrappers.dfy` holds the `Option` type.

Wall-clock time is a parameter `now` of every operation that reads it.
Sensor readings are parameters too: raw words for the drivers, and
temperatures for the smoker. The API server is not modelled. The requests
`put_state`, `patch_state` and `delete_program` appear as events in the
trace. `post_boot` and `post_heartbeat` are the methods `PostBoot` and
`PostHeartbeat`, which add their own events; the server's reply is a
parameter of each. The two lookups behind `CheckForProgram` add no event:
only their outcomes, given as parameters, matter.

## Model

| member | source | states |
|---|---|---|
| `PIDController.GainsFor` | PID.py:35-38 | Kp = -1/PB, Ki = Kp/Ti and Kd = Kp*Td, stated as products with PB; neither Kp nor Ki is zero |
| `PIDController.IntegralBound` | PID.py:29 | the integral clamp bound is positive |
| `PIDController.IntegralBoundScale` | PID.py:29 | bound * abs(Ki) = 0.5, so the clamped integral term contributes at most 0.5 either way |
| `PIDController.Clamp` | PID.py:50-51 | the max/min pair keeps the value in [-bound, bound], leaves in-range values alone and saturates at the nearer end |
| `PIDController.Initial` | PID.py:18-33 | a new controller has the gains of its tuning and a matching clamp bound; its target and previous reading are the target; its clock is `now`; its integral and output are 0 |
| `PIDController.Retarget` | PID.py:71-76 | a new target keeps gains, clamp bound, previous reading and output, sets the target, zeroes the integral and restarts the clock at `now`; a well-formed controller stays well formed |
| `PIDController.WithGains` | PID.py:79-84 | new gains recompute the clamp bound to match and keep the integral, the target and the clock |
| `PIDController.Step` | PID.py:41-69 | an update keeps gains, clamp bound and target; its integral lies within the clamp bound; it remembers the reading and stamps the clock; the controller stays well formed |
| `PIDController.IntegralTermBounded` | PID.py:49-53 | the I term of an update is always within [-0.5, 0.5] |
| `PIDController.DerivativeOnMeasurement` | PID.py:55-57 | the derivative is taken on the measurement: changing the target changes neither derv nor D of the next update, and D times the elapsed time is Kd times the change of reading |
| `PIDController.RetargetDropsStaleIntegral` | PID.py:71-76 | after a new target the next update integrates only the new error over the time since the retarget |
| `PIDController.InitialAtTargetGivesHalf` | PID.py:18-33 | a fresh controller that reads exactly its target gives error 0, P 0.5, I 0, D 0 and u 0.5 |
| `PIDController.ProportionalBand` | PID.py:7-11 | P is 1 half a band below target and 0 half a band above; P lies in [0, 1] exactly when the error lies inside the band |
| `PIDController.BootTuning` | Smoker.py:65-72 | the boot tuning (PB 60, Ti 180, Td 45) gives gains (-1/60, -1/10800, -0.75) and clamp bound 5400 |
| `PIDController.ResetTuning` | PID.py:90-91 | reset passes (60, 45, 180) as (PB, Ti, Td), giving gains (-1/60, -1/2700, -3) and bound 1350, which differ from the boot tuning |
| `PIDController.FreshControllerAt225` | PID.py:41-69 | a controller reset to target 225 that reads 225 asks for u = 0.5 |
| `PIDController.PID.constructor` | PID.py:18-33 | the new object is valid and equals `Initial` for its tuning, target and time |
| `PIDController.PID.Init` | PID.py:18-33 | re-initialising gives exactly `Initial` for the tuning, target and time |
| `PIDController.PID.CalculateGains` | PID.py:35-39 | the gain fields become `GainsFor(PB, Ti, Td)`; nothing else changes |
| `PIDController.PID.Update` | PID.py:41-69 | the new state is `Step` of the old one; validity is kept; the integral stays clamped; the result is the new u |
| `PIDController.PID.SetPidTarget` | PID.py:71-77 | the new state is `Retarget` of the old one: target set, error, integral and derivative zeroed, update time stamped |
| `PIDController.PID.SetGains` | PID.py:79-85 | the new state is `WithGains` of the old one: the gains and the clamp bound are recomputed and all else is kept |
| `PIDController.PID.Reset` | PID.py:90-91 | the new state is `Initial(60, 45, 180, target, now)` |
| `TempSensor.Read32` | TempSensor.py:32-40 | a word exists iff at least four bytes were read; its big-endian bytes are the first four read |
| `TempSensor.Read32IsBitwiseOr` | TempSensor.py:39 | the shift-and-or assembly of the four bytes equals the arithmetic word |
| `TempSensor.Read32OfWordBytes` | TempSensor.py:32-40 | reading the four bytes of any word gives that word back |
| `TempSensor.ReadInternal` | TempSensor.py:42-51 | the internal count is 0..2047 when bit 15 is clear and -4096..-2049 when it is set; its low 11 bits are bits 4-14 of the word |
| `TempSensor.ReadInternalIntended` | TempSensor.py:42-51 | bits 15..4 read as a 12-bit two's-complement count: in [-2048, 2047], negative iff bit 15 is set, and congruent to those 12 bits modulo 4096 |
| `TempSensor.ReadInternalOffByHalfRange` | TempSensor.py:48-50 | as written a negative count is exactly 2048 below the two's-complement value; the word 0xFFF0 reads -2049 instead of -1 |
| `TempSensor.ThermocoupleCount` | TempSensor.py:73-90 | no reading iff one of bits 0-2 is set; otherwise a count in [-8192, 8191] that is negative iff bit 31 is set and whose 14 bits are bits 18-31 of the word |
| `TempSensor.ReadState` | TempSensor.py:92-102 | an open circuit, a short to ground or a short to VCC is reported iff one of bits 0-2 of the word is set |
| `TempSensor.ThermocoupleFaultAgreesWithState` | TempSensor.py:92-102 | read_temp refuses a word exactly when read_state reports an open circuit or a short to ground or to VCC |
| `TempSensor.MAX31855.constructor` | TempSensor.py:19-30 | a new driver starts disconnected and ends with a first read, so it comes up connected exactly when that reading, scaled by 1.8 and rounded, is non-zero |
| `TempSensor.MAX31855.Read` | TempSensor.py:53-65 | the driver counts as connected exactly when the reading, scaled by 1.8 and rounded to two places, is non-zero |
| `TempSensor.MAX31855.ReadTemp` | TempSensor.py:79-90 | `connected` records whether the word decodes; the result is the count in quarter degrees, or 0 on a fault |
| `TempSensor.RtdConversion` | TempSensor.py:213-225 | the ADC code is msb*128 + lsb/2 in [0, 32767]; the fault flag is bit 0 of lsb; the measured resistance against the 4300 ohm reference lies in [0, 4300) |
| `TempSensor.RtdAdcCode` | TempSensor.py:224 | shifting (msb << 8) + lsb right by one gives the 15-bit code |
| `TempSensor.GetFaultAsWrittenMisreads` | TempSensor.py:244-261 | as written, register 0x08 reports two faults and register 0x10 reports none |
| `TempSensor.GetFaultAsWrittenIgnoresBit4` | TempSensor.py:256 | as written, setting or clearing bit 4 never changes the report |
| `TempSensor.GetFaultAsWritten` | TempSensor.py:244-261 | as written, RefInLow is reported iff bit 3 is set (the RtdInLow bit); every other fault iff its own register bit is set |
| `TempSensor.GetFault` | TempSensor.py:244-261 | each fault is reported iff its own bit is set; reports come in the driver's order, highest bit first, with no repeats; nothing is reported iff bits 2-7 are clear |
| `TempSensor.RtdRead` | TempSensor.py:213-233 | the sample is the conversion of the two bytes; with the fault flag set the report is get_fault as written, with it clear there is no report |
| `TempSensor.RtdReadIntended` | TempSensor.py:213-233 | with the intended fault masks, a fault is reported iff the fault flag and that fault's own register bit are both set |
| `TempSensor.GetFaultAsWrittenAgreement` | TempSensor.py:244-261 | get_fault as written agrees with the intended report exactly when register bits 3 and 4 are equal |
| `TempSensor.RtdReadAgreement` | TempSensor.py:213-233 | a read as written and as intended agree exactly when the fault flag is clear or register bits 3 and 4 are equal |
| `SmokeLog.RemoveNewlines` | SmokeLog.py:25 | the result has no newline, is no longer than the input, and a character occurs in it iff it is a non-newline character of the input |
| `SmokeLog.RemoveNewlinesAppend` | SmokeLog.py:25 | newline removal distributes over concatenation, so the other characters keep their order |
| `SmokeLog.RemoveNewlinesCounts` | SmokeLog.py:25 | every non-newline character occurs in the result as often as in the input, and no newline does |
| `SmokeLog.TokenLength` | SmokeLog.py:26 | the length of the leading run of non-whitespace, which is a token |
| `SmokeLog.TokenLengthOfToken` | SmokeLog.py:26 | the leading token of a token followed by whitespace is that token |
| `SmokeLog.Split` | SmokeLog.py:26 | `str.split()` yields only non-empty whitespace-free words |
| `SmokeLog.SplitKeepsText` | SmokeLog.py:26 | the words run together are the input with its whitespace deleted; there are no words iff the input is all whitespace |
| `SmokeLog.JoinEnds` | SmokeLog.py:26 | joining words with single spaces neither starts nor ends with whitespace |
| `SmokeLog.JoinIsCondensed` | SmokeLog.py:26 | joined words have only single spaces between words |
| `SmokeLog.SplitJoin` | SmokeLog.py:26 | splitting words joined with spaces gives back those words |
| `SmokeLog.RemoveNewlinesNoop` | SmokeLog.py:25 | removing newlines from newline-free text changes nothing |
| `SmokeLog.SyslogFormatted` | SmokeLog.py:19-26 | the syslog line has no newline, has single spaces between words and no space at either end, and has the same words as "sender: message" with newlines removed |
| `SmokeLog.CondensedHasNoNewline` | SmokeLog.py:25-26 | condensed text has no newline |
| `SmokeLog.CondenseIdempotent` | SmokeLog.py:19-26 | formatting an already formatted line changes nothing |
| `SmokeLog.NewlineJoinsText` | SmokeLog.py:25 | a newline inside a word is dropped, not turned into a space: "a\nb" becomes "ab" |
| `SmokeLog.PrettyRequest` | SmokeLog.py:61-66 | the summary is "Status ", then the code, then ": ", then the message, and nothing else |
| `SmokeLog.PrettyRequestInjective` | SmokeLog.py:65 | for codes without a colon, different (code, message) pairs give different summaries |
| `SmokerState.PauseCycle` | Smoker.py:105-113 | the cycle is 60 + 10p seconds, cycle length times duty is 15 s of auger run per cycle, and the duty lies in (0, 0.25] |
| `SmokerState.Window` | Smoker.py:121-122 | the history keeps the newest readings, at most six, ending with the new one |
| `SmokerState.DefaultPauseCycle` | Smoker.py:105-113 | p-setting 2 gives an 80 s cycle at duty 0.1875 |
| `SmokerState.SumBounds` | Smoker.py:123 | the sum of n readings in [lo, hi] lies in [n*lo, n*hi] |
| `SmokerState.MeanBounds` | Smoker.py:123 | when every reading lies in [lo, hi], so does the average fed to the PID |
| `SmokerState.SteadyReadingsMean` | Smoker.py:123 | readings that are all equal average to that reading |
| `SmokerState.WindowSlides` | Smoker.py:121-122 | with six readings stored, the oldest one is dropped and the new one appended |
| `SmokerState.Smoker.TimerExpired` | Smoker.py:96-103 | a timer has fired iff it was never stamped or more than `timeout` seconds have passed since its stamp |
| `SmokerState.ExpiredStaysExpired` | Smoker.py:96-103 | a timer that has fired stays fired as time goes on |
| `SmokerState.FreshStampNotExpired` | Smoker.py:96-103 | a timer just stamped has not fired; one never stamped has |
| `SmokerState.ToggleStampedTrans` | Smoker.py:87-94 | toggle stamps composed over two relay changes at one time are stamps of the combined change |
| `SmokerState.ExactlyStampedTrans` | Smoker.py:87-94 | two exact stampings at one time compose into an exact stamping when no relay changes level in both |
| `SmokerState.Smoker.constructor` | Smoker.py:19-76 | the smoker boots Idle with power off and every relay off; exactly the relays that were on at boot get a toggle stamp; u 0.15, cycle 20 s, p-setting 2; the PID starts at PB 60, Ti 180, Td 45, target 0 |
| `SmokerState.Smoker.AllRelaysOff` | Smoker.py:73-75 | afterwards every relay is off; exactly the relays that were on gain a stamp at `now`; every other stamp is kept |
| `SmokerState.Smoker.SetRelay` | Smoker.py:87-94 | only the named relay's level changes; its toggle stamp moves to now only when its level changes |
| `SmokerState.Smoker.SetPauseCycle` | Smoker.py:105-113 | the cycle timer and duty become `PauseCycle(p)` |
| `SmokerState.Smoker.ReadTemps` | Smoker.py:115-124 | the readings are stored; the history slides by one; the PID average is the mean of the new history |
| `Smokestack.ClampDuty` | Smokestack.py:322-323 | the duty lies in [U_MIN, U_MAX]; in-range values pass unchanged and others saturate at the nearer limit |
| `Smokestack.Firmware.constructor` | Smokestack.py:415 | the firmware starts valid, Idle, powered off, with no exit and no API call |
| `Smokestack.Firmware.SetMode` | Smokestack.py:264-304 | each mode has its exact entry actions on relays, settings and trace; Off patches power off and exits without touching the PID; in Smoke and Hold the igniter ends lit, out or as it was as the igniter rule says, or the smoker shuts down on a timeout; every other mode ends with a state push; exactly the relays whose level changed are stamped now and every other stamp is kept, except that on an igniter timeout the auger is stamped now |
| `Smokestack.Firmware.EnterShutdown` | Smokestack.py:273-282 | Shutdown powers off, drops the target and the program, runs only the fan, and asks the server to delete the program; exactly the relays whose level changed are stamped now |
| `Smokestack.Firmware.EnterStart` | Smokestack.py:283-290 | Start powers on, runs all three relays, sets a 60 s cycle at duty 0.25 and resets the PID to the grill target; exactly the relays whose level changed are stamped now |
| `Smokestack.Firmware.EnterSmoke` | Smokestack.py:291-296 | Smoke runs the fan, tends the igniter by the igniter rule and takes the pause cycle of the p-setting; the PID is untouched; exactly the relays whose level changed are stamped now, except that on an igniter timeout the auger is stamped now |
| `Smokestack.Firmware.EnterHold` | Smokestack.py:297-302 | Hold runs the fan, tends the igniter by the igniter rule and starts at a 20 s cycle and the minimum duty; the PID is untouched; exactly the relays whose level changed are stamped now, except that on an igniter timeout the auger is stamped now |
| `Smokestack.Firmware.StokeFire` | Smokestack.py:293-295 | the fan and the auger are switched on, then the igniter is lit, put out or left as the igniter rule says; an igniter timeout shuts the smoker down and leaves the auger stamped now; otherwise exactly the relays whose level changed are stamped now |
| `Smokestack.IgniterRule` | Smokestack.py:239-253 | a timeout or an extinguish happens only to a lit igniter, an ignition only to an unlit one |
| `Smokestack.Firmware.ManageIgniter` | Smokestack.py:239-253 | after the call the igniter has been on for at most 15 minutes; a timed-out igniter shuts the smoker down; a cold grill lights it, a hot grill puts it out, otherwise it is left alone; exactly the relays whose level changed are stamped now |
| `Smokestack.IgniterRuleCases` | Smokestack.py:239-253 | timeout iff on longer than 15 minutes; ignite iff off below 100; extinguish iff on within the timeout above 100; a kept igniter is within its timeout |
| `Smokestack.IgniterIdleAtThreshold` | Smokestack.py:247-252 | at exactly 100 degrees an igniter within its timeout is left as it is |
| `Smokestack.Firmware.ManageAuger` | Smokestack.py:255-262 | a KeyError ends the firmware iff the auger is off and was never toggled, and then no relay or stamp changes; otherwise the auger's new level is `AugerNext` of its level, the time since its stamp, the cycle and the duty, and nothing else changes; exactly the relays whose level changed are stamped now |
| `Smokestack.AugerNext` | Smokestack.py:255-262 | a running auger stops only after running longer than cycle*u, a resting one starts only after resting longer than cycle*(1-u) |
| `Smokestack.AugerContinuousAtFullDuty` | Smokestack.py:259-260 | at duty 1 a running auger is never stopped |
| `Smokestack.AugerPhases` | Smokestack.py:259-262 | below full duty the auger toggles exactly when its run time cycle*u or its rest time cycle*(1-u) is exceeded |
| `Smokestack.HoldMinimumDuty` | Smokestack.py:259-262 | at the Hold minimum the auger runs 3 s and rests 17 s of each 20 s cycle |
| `Smokestack.Firmware.UpdatePid` | Smokestack.py:316-325 | only in Hold with the PID timer expired: no average gives TypeError; no elapsed time gives ZeroDivision; otherwise the PID takes one `Step` on the average and the duty becomes the clamped output |
| `Smokestack.StartThenHoldAtTargetHalfDuty` | Smokestack.py:283-290 | a PID reset by Start and fed its target asks for duty 0.5, which the clamp passes unchanged |
| `Smokestack.Firmware.RunMode` | Smokestack.py:306-314 | Idle, Shutdown and Off change nothing; only Hold updates the PID; the only exits are KeyError, TypeError and ZeroDivision; in the heating modes the igniter timeout holds afterwards, KeyError happens iff the auger is off and was never toggled, and exactly the relays whose level changed are stamped now; an igniter timeout ends in the Shutdown state (power off, program dropped, fan on, igniter off, program start stamped, DeleteProgram and a state push) with PID and PID timer untouched, and unless it exits the auger is then on iff it was off and had rested longer than cycle*(1-u); without an igniter timeout the igniter takes the rule's level and the auger `AugerNext`, stamps are exact, and in Hold the PID steps only when its timer expired: no average gives TypeError, no elapsed time ZeroDivision, otherwise the PID state is `Step` of the old one on the average, the duty is the clamped output and the PID timer is stamped now; with the timer not expired the PID, the duty and the timer are unchanged |
| `Smokestack.Firmware.TendFire` | Smokestack.py:310-312 | manage_igniter then manage_auger: KeyError iff the auger is off and never toggled; exactly the relays whose level changed are stamped now; an igniter timeout ends in the Shutdown state (power off, program dropped, fan on, igniter off, program start stamped, DeleteProgram and a state push, PID untouched), after which the auger, unless it exits, is on iff it was off and had rested longer than cycle*(1-u); otherwise settings, trace and PID are unchanged, the igniter takes the rule's level and the auger `AugerNext`, and exactly the relays whose level changed are stamped now |
| `Smokestack.Firmware.TendFireIntended` | Smokestack.py:310-312 | with manage_auger skipped once the smoker has left the heating modes, an igniter timeout leaves exactly the Shutdown state with the auger off; otherwise KeyError iff the auger is off and never toggled, and settings, trace and PID are unchanged |
| `Smokestack.AugerRestartsInShutdown` | Smokestack.py:310-312 | as written, a Smoke pass at 1000 s with the igniter lit at 0 s and the auger stopped at 20 s (80 s cycle, duty 0.1875) ends in Shutdown with power off and the auger running |
| `Smokestack.Firmware.SetProgram` | Smokestack.py:349-383 | a running program applies its current step (its mode entered with that mode's entry actions, its targets set, the state pushed last), or fails with IndexError past the end; without a step it clears or shuts down; with power off, steps stored and a mode other than Idle, Start, Hold or Smoke only the program and the probe target are cleared, with relays, stamps, cycle, duty, PID and trace unchanged; unless it exits the program start is stamped now |
| `Smokestack.Firmware.ApplyStep` | Smokestack.py:353-365 | the step's mode is entered (Off exits; Smoke or Hold may instead shut down on an igniter timeout) with its entry actions: Start keeps power on, runs all three relays, sets cycle 60 and duty 0.25 and rebuilds the PID around the step's grill target; Smoke runs fan and auger at the pause cycle of the p-setting; Hold runs fan and auger at cycle 20 and the minimum duty; power stays on unless the step refused it or the smoker shut down; the last request pushes the final state; the grill target, the PID target and the probe target follow the step; a probe-triggered step without a probe is refused by a power patch |
| `Smokestack.Firmware.DropProgram` | Smokestack.py:366-381 | steps with power off are cleared and a heating smoker shuts down, while in any other mode only the program and the probe target are cleared and relays, stamps, cycle, duty, program start, PID and trace are unchanged; power on with no steps ends in Shutdown; otherwise a NameError ends the firmware |
| `Smokestack.Firmware.NextProgram` | Smokestack.py:385-397 | no index gives TypeError; a next step becomes current and, with power on, is applied as set_program applies it, with its mode's entry actions, with power off the program is cleared; after the last step the smoker shuts down; an index past the end exits |
| `Smokestack.StepFinished` | Smokestack.py:332-341 | a step finishes only if it is time-triggered or a probe reading exists |
| `Smokestack.TimeStepStaysFinished` | Smokestack.py:334-337 | a time-triggered step that has finished stays finished |
| `Smokestack.TempStepNeedsProbe` | Smokestack.py:338-341 | a probe-triggered step finishes iff a probe reading exceeds its limit |
| `Smokestack.Firmware.MonitorLimits` | Smokestack.py:327-347 | power on with no index gives TypeError; with power off, no step due or an index past the end it changes nothing, except that Shutdown turns Off after 10 minutes; a due step makes the next step current and applies it as set_program does, with its mode's entry actions, or shuts down after the last |
| `Smokestack.Firmware.HandleProgramUpdate` | Smokestack.py:172-188 | a known program id changes nothing; a new one is stored at index 0; with power on in Smoke or Hold a NameError ends the firmware; with power on in any other mode the first step is applied as set_program applies it, with its mode's entry actions, no steps shut the smoker down, and unless it exits the program start is stamped now; with power off only the steps are stored |
| `Smokestack.Firmware.ReadTemps` | Smokestack.py:232-237 | sensors are read only when the 10 s heartbeat timer has expired, and then the state changes only in its grill and probe readings, the history slides by the grill reading and the PID average is its mean; otherwise the smoker is unchanged |
| `Smokestack.Firmware.PostBoot` | Smokestack.py:37-58 | the smoker is marked online and its state posted; an accepted post marks it connected, a rejected one disconnected, and an unreachable service ends the process |
| `Smokestack.Firmware.PostHeartbeat` | Smokestack.py:60-87 | at most every 10 s the heartbeat is stamped now and the state posted, after which the read timer has not fired; an unreachable service disconnects, an accepted post connects, a rejected one leaves the flag alone |
| `Smokestack.Firmware.CheckForProgram` | Smokestack.py:120-152 | a program is adopted from its first step only when both the id lookup and the step fetch succeed; a failed request ends the process; a rejected one changes nothing |

## Left out

- The API server is not modelled. `put_state`, `patch_state` and `delete_program` appear as trace events; `post_boot`, `post_heartbeat`, `check_for_program_id` and `get_steps_for_id` are modelled by `PostBoot`, `PostHeartbeat` and `CheckForProgram`, with the server's reply as a parameter. A network exception in `put_state`, `patch_state` or `delete_program` (a `sys.exit`) is not modelled.
- `Smokestack.Firmware.PostHeartbeat`: the program and state the service may send back in its reply are not applied here. A program is applied by `HandleProgramUpdate`; `handle_state_update` is not modelled.
- `handle_state_update` and the diff of remote state it drives are not modelled. Nor are the YAML configuration, the boot loop and the main loop of `Smokestack.py`.
- Floating-point sensor mathematics is not modelled: the linearised thermocouple temperature (`read_linearized_temp`), the Callendar–Van Dusen conversion (`resistance_to_temp`), and the Celsius-to-Fahrenheit rounding in both `read` methods. The decoding is modelled on exact integers and reals instead.
- SPI transfers and `close` are not modelled. Raw bytes and words are parameters.
- Logging to syslog and `print` are not modelled, nor is the caller-name lookup of the log methods. The text formatting itself is modelled.
- The `last_state_push` and `last_program_push` timers only pace calls to the server, so they are not modelled.
- Time does not advance inside one operation. `PID.update` reads the clock twice, and the model uses one `now` for both reads.
- Mode strings outside the seven modes are not modelled.
- `PIDController.GainsFor`: a PB or Ti of 0 (a Python ZeroDivisionError) is excluded by a precondition, and so is the same case in the PID methods.
- `Smokestack.Firmware.SetMode`: Start requires a grill target. A PID built on a `None` target is not modelled.
- `SmokerState.PauseCycle`: the p-setting is a natural number. Negative settings are not modelled.
- `SmokeLog.PrettyRequest`: the status code is taken as text already formatted.
- `SmokeLog.Split`: that two neighbouring words were separated by whitespace in the input (the runs are maximal) is not stated. What is stated is that the words are whitespace-free, that they hold exactly the input's non-whitespace text in order (`SplitKeepsText`), and that splitting joined words gives them back (`SplitJoin`).
- `TempSensor.MAX31855.Read`: the reading itself comes from the linearised float path and is a parameter, and the Fahrenheit value `read` returns is not modelled.
- `Smokestack.Firmware.ReadTemps`: the guard on a missing grill reading is not modelled. The smoker stores a grill reading at boot, so the reading is never missing and only the heartbeat timer decides. The heartbeat timer is written only by `post_heartbeat` (Smokestack.py:71), modelled by `PostHeartbeat`.
- `Smokestack.Firmware.UpdatePid`: after a ZeroDivisionError the partial writes to the PID fields are not modelled, since the firmware has exited.

## Findings

| source | as written | input that shows it | evidently intended | confidence | as-written member | corrected member |
|---|---|---|---|---|---|---|
| TempSensor.py:256 | the RefInLow fault is tested with mask `0b0001000`, which is 8 (bit 3), the RtdInLow mask again | fault register 0x10 reports no fault; 0x08 reports both RefInLow and RtdInLow | mask `0b00010000` (bit 4), so each fault bit is reported once; `RtdReadIntended` reads with it | not executed | `TempSensor.GetFaultAsWrittenMisreads` | `TempSensor.GetFault` |
| Smokestack.py:310-312 | run_mode calls manage_auger after manage_igniter even when the igniter timeout has just switched the smoker to Shutdown and the auger off | Smoke at p-setting 2, igniter lit at 0 s, auger stopped at 20 s, a pass at 1000 s: the smoker ends in Shutdown with the auger running, and nothing in Shutdown stops it until Off | manage_auger runs only while the smoker is in a heating mode, so Shutdown keeps the auger off | not executed | `Smokestack.AugerRestartsInShutdown` | `Smokestack.Firmware.TendFireIntended` |
| TempSensor.py:48-50 | read_internal keeps 11 bits and subtracts 4096 when the sign bit is set | the word 0xFFF0 (bits 15..4 all set, -1 in 12-bit two's complement) reads -2049 counts | subtract 2048 (or keep 12 bits and subtract 4096), giving -2048..-1 for negative readings | not executed | `TempSensor.ReadInternalOffByHalfRange` | `TempSensor.ReadInternalIntended` |
