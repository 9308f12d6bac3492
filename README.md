# Nixie clock radio: wheel decoder, tube display and conductor

A Dafny model of the sequential core of a Raspberry Pi nixie-tube clock radio
written in Python 2. The model covers three parts:

- **`UserInput`** (`user_input.dfy`) is the quadrature decoder of the rotary knob, class `Wheel`.
  - `setup` rescales a user range onto a raw step counter.
  - Each pin interrupt drops glitches and duplicate edges.
  - An accepted edge picks a direction from a fixed table and moves the counter one clamped step.
  - It then reports the rescaled counter to a callback.
  - The class is proved against the pure step function `Step`. The properties are proved about `Step` and `Run`.
- **`Nixie`** (`nixie.dfy`) is the multiplexed four-tube display.
  - It holds the digit and tube pattern tables and the slot timing.
  - The pulse channel is modelled as the list of pulses it holds.
  - The classes are `Sequence` (apply and reset, as pulse lists), `StandardDisplay` (brightness and slot updates) and `DisplayThread`.
  - `DisplayThread` covers `display_number`, `blank` and `unblank`, and one pass of the render loop.
- **`Radio`** (`radio.dfy`) is the `Conductor` and the command-line mode selection.
  - The conductor's state methods are each proved against a pure handler.
  - The player and the display thread are one log of the calls made to them.
  - An invariant ties that log to the conductor's state.
- **`Py2`** (`py2.dfy`) holds Python 2 integer division, which rounds toward negative infinity, and `Option`.

Hardware is not modelled: GPIO, PWM set-up (the PWM channel is modelled as the list of pulses it holds), the touch sensor, GStreamer, the alarm manager, the HTTP server and the command-line shell. Threads are not modelled either. Wall-clock readings and pin levels are parameters. The callbacks the wheel invokes are a log of the values it hands over.

## Model

| member | source | states |
|---|---|---|
| `Py2.FloorDiv` | sw/user_input.py:63-65 | Python 2 `a / b` on integers: the quotient q with b*q <= a < b*q+b for b > 0, and the mirrored bounds for b < 0 |
| `UserInput.ConfigureSpan` | sw/user_input.py:59-69 | after setup, raw_max - raw_min equals turns*steps_per_turn exactly, for any user range with max != min |
| `UserInput.ConfigureInRange` | sw/user_input.py:63-65 | with min <= initial <= max, min < max and turns*steps_per_turn >= 0, setup leaves raw_min <= raw <= raw_max and keeps the recorded pin levels |
| `UserInput.DefaultConfiguration` | sw/user_input.py:42-54 | the constructor's setup(0, 50, 100, 1) with 96 steps per turn gives raw_min 0, raw 48, raw_max 96, and the callback would then report exactly 50 |
| `UserInput.ReportAfterSetup` | sw/user_input.py:59-65 | right after setup with min < max and turns*steps_per_turn > 0, the value the callback (line 100, and line 132 for phase B) reports for the counter is the initial value rounded down, by less than one counter step (max - min) / span plus one |
| `UserInput.TurnTable` | sw/user_input.py:80-121 | the direction table: A turns clockwise exactly when its new level differs from B's recorded level; B turns clockwise exactly when its new level equals A's |
| `UserInput.RejectedEdge` | sw/user_input.py:71-110 | an edge whose other phase moved (glitch) or whose level is already recorded (duplicate) changes nothing and fires no callback |
| `UserInput.AcceptedEdge` | sw/user_input.py:71-132 | an accepted edge records its level, keeps the other level and the configuration, moves raw by exactly one step or clamps it at the bound it moves towards, and fires the callback once with floor(raw*(max-min)/span), or not at all when span is 0 |
| `UserInput.StepInRange` | sw/user_input.py:91-98 | any edge keeps raw_min <= raw <= raw_max and the configuration |
| `UserInput.RunInRange` | sw/user_input.py:123-130 | any finite sequence of edges keeps raw within [raw_min, raw_max] |
| `UserInput.ClockwiseCycle` | sw/user_input.py:78-94 | from levels (1,1), A falls, B falls, A rises, B rises is four clockwise steps (raw + 4 when there is room) |
| `UserInput.CounterClockwiseCycle` | sw/user_input.py:110-130 | from levels (1,1), B falls, A falls, B rises, A rises is four counter-clockwise steps |
| `UserInput.EdgeThenOpposite` | sw/user_input.py:76-98 | an accepted edge followed by the opposite edge on the same phase is accepted and restores the state whenever the first edge does not clamp: raw in range, below raw_max for a clockwise edge, above raw_min for a counter-clockwise one |
| `UserInput.Wheel.constructor` | sw/user_input.py:42-54 | records both pin levels and installs the range 0..100 from 50 over one turn (raw 0..96 from 48 with the default 96 steps) |
| `UserInput.Wheel.Setup` | sw/user_input.py:59-69 | with max != min installs the rescaled range; with max == min the division raises first and nothing changes |
| `UserInput.Wheel.PinAChanged` | sw/user_input.py:71-100 | the new state is `Step` of the old one for an A edge, and the callback log grows by exactly that edge's callbacks |
| `UserInput.Wheel.PinBChanged` | sw/user_input.py:103-132 | the same for a B edge |
| `Nixie.DigitTable` | sw/nixie.py:32-43 | the ten digit patterns are 4-bit, carry the binary codes in the table, and are pairwise distinct |
| `Nixie.TubeTable` | sw/nixie.py:25-30 | the four tube patterns are distinct 3-bit patterns, none all zeros; the blank pattern is all zeros |
| `Nixie.SlotInside` | sw/nixie.py:82-97 | for every tube and every anode length 0..170, the anode pulse lies strictly inside the tube's digit pulse, and the digit pulse ends within the four 250-tick slots, which fill the channel's 10000 µs period exactly at 10 µs per tick |
| `Nixie.SlotsApart` | sw/nixie.py:82-97 | the slots of an earlier tube end before those of a later tube begin, for digits and anodes alike |
| `Nixie.TubeLength` | sw/nixie.py:110-114 | the anode length brightness*170/100 (floor) clamped to [0, 170] |
| `Nixie.BrightnessScale` | sw/nixie.py:109-114 | brightness 0..100 scales linearly, >= 100 saturates at 170, <= 0 gives 0, and the length is monotone in the brightness |
| `Nixie.EmittedExactly` | sw/nixie.py:61-69 | apply emits the pulse (gpio[i], start, width) exactly for the bits that are 1 in some slot's pattern, none for 0 bits |
| `Nixie.EmittedSound` | sw/nixie.py:61-69 | every pulse apply emits comes from a bit that is 1 in some slot, on that bit's line, at that slot's start and width |
| `Nixie.EmittedComplete` | sw/nixie.py:61-69 | every bit that is 1 in any slot gives its pulse |
| `Nixie.EmittedPrefix` | sw/nixie.py:62-69 | applying one more slot appends exactly that slot's pulses |
| `Nixie.EmittedOnLines` | sw/nixie.py:66-69 | every pulse a sequence emits is on one of its own lines |
| `Nixie.ClearedMembers` | sw/nixie.py:71-73 | clearing lines keeps exactly the pulses on the other lines |
| `Nixie.ClearedTwice` | sw/nixie.py:101-103 | clearing one set of lines and then another equals clearing both |
| `Nixie.PulseChannel.AddPulse` | sw/nixie.py:69 | adds one pulse to the channel |
| `Nixie.PulseChannel.ClearGpio` | sw/nixie.py:73 | removes every pulse of one line |
| `Nixie.Sequence.constructor` | sw/nixie.py:46-56 | a start-up pulse on each line, then reset: the channel ends with every pulse on the sequence's lines removed |
| `Nixie.Sequence.Claim` | sw/nixie.py:52-55 | appends one start-up pulse (line, 0, 1) per line, in line order |
| `Nixie.ClearedMarks` | sw/nixie.py:52-56 | resetting after the start-up pulses leaves none of them behind |
| `Nixie.Sequence.Apply` | sw/nixie.py:61-69 | appends exactly the pulses `Emitted` describes, slot by slot, bit by bit |
| `Nixie.Sequence.ApplySlot` | sw/nixie.py:66-69 | appends one pulse per set bit of one slot, in line order |
| `Nixie.Sequence.Reset` | sw/nixie.py:71-73 | the channel afterwards is the old one with the sequence's lines cleared |
| `Nixie.ClaimAndApply` | sw/nixie.py:87-99 | building the anode then the digit sequence leaves the anode pulses followed by the digit pulses on the channel |
| `Nixie.InitialSlots` | sw/nixie.py:87-97 | the initial slots are four well-formed anode slots lit at length 170 and four digit slots showing 0, all fitting their lines |
| `Nixie.ProgrammeOnLines` | sw/nixie.py:87-99 | anode pulses lie on anode lines only, digit pulses on cathode lines |
| `Nixie.StandardDisplay.constructor` | sw/nixie.py:85-99 | every tube lit at length 170 and showing 0, the display invariant holds, the channel holds the pulses the slots call for |
| `Nixie.StandardDisplay.Reset` | sw/nixie.py:101-103 | clears every display pulse from the channel |
| `Nixie.StandardDisplay.Apply` | sw/nixie.py:105-107 | appends the digit slots' pulses, then the anode slots' pulses |
| `Nixie.StandardDisplay.SetBrightness` | sw/nixie.py:109-117 | the corrected brightness change: length TubeLength(b), every anode slot at the new length, the channel re-programmed to match, digits unchanged |
| `Nixie.StandardDisplay.SetBrightnessAsWritten` | sw/nixie.py:109-117 | brightness as written: the length is stored, but the channel is re-programmed from the unchanged anode slots |
| `Nixie.RewidthEmitted` | sw/nixie.py:109-117 | corrected: re-programming the anode slots at the new length emits the same pulses, in the same order, with only their width replaced |
| `Nixie.AnodeWidthsFollowBrightness` | sw/nixie.py:109-117 | after the corrected brightness change every anode pulse has the new length |
| `Nixie.StaleAnodeWidth` | sw/nixie.py:109-117 | as written, brightness 50 on a new display stores length 85 but tube 0's anode pulse still lasts 170 ticks |
| `Nixie.StaleAnodeWidthOnDisplay` | sw/nixie.py:109-117 | the same on the as-written method itself: a new display set to brightness 50 stores length 85 while the channel still holds the pulse (line 8, start 1, 170 ticks) |
| `Nixie.StandardDisplay.SetTube` | sw/nixie.py:120-121 | only the digit slot of tube k changes, to digit d at k*250 for 240 ticks |
| `Nixie.StandardDisplay.BlankTube` | sw/nixie.py:123-124 | only the anode slot of tube k changes, to the blank pattern at the current length |
| `Nixie.StandardDisplay.UnblankTube` | sw/nixie.py:126-127 | only the anode slot of tube k changes, to tube k's pattern at the current length |
| `Nixie.DecimalTubes` | sw/nixie.py:223-237 | four entries, each in -1..9 when n < 10000 |
| `Nixie.DecimalTubesRoundTrip` | sw/nixie.py:223-237 | for 0 <= n < 10000 the entries are n's decimal digits with leading zeros blanked (-1 exactly below 1000, 100, 10), tube 3 is n % 10, and they read back as n |
| `Nixie.DisplayNumberExamples` | sw/nixie.py:223-237 | 7 gives [-1,-1,-1,7], 1234 gives [1,2,3,4], 50 gives [-1,-1,5,0] |
| `Nixie.ClockTubesShowTime` | sw/nixie.py:194-213 | the clock tubes read back as the hour and minute, all in -1..9, and tube 0 is blank exactly before 10 o'clock |
| `Nixie.EpochStampSkipsRedraw` | sw/nixie.py:144-194 | as written, with the epoch at local 00:00, a clock pass at 00:00:30 after a custom pass does not redraw, though the tubes show another number |
| `Nixie.DisplayThread.constructor` | sw/nixie.py:131-140 | the display built on a fresh channel with anode length 170, every tube lit with its own pattern and showing digit 0; nothing custom, not blanked, custom tubes [0,0,0,0] |
| `Nixie.NewDisplay` | sw/nixie.py:135-136 | a fresh display on a fresh channel of period 10000 µs that satisfies the display invariant: anode length 170, every anode slot lit with its tube's pattern at that length, every digit slot showing 0, and the constructor's pulses on the channel |
| `Nixie.DisplayThread.DisplayNumber` | sw/nixie.py:223-240 | the custom tubes become DecimalTubes(n), custom is set, the event is set, blanking unchanged |
| `Nixie.DisplayThread.Blank` | sw/nixie.py:242-246 | blanked set, custom cleared, event set |
| `Nixie.DisplayThread.Unblank` | sw/nixie.py:248-252 | blanked and custom cleared, event set |
| `Nixie.DisplayThread.ShowTube` | sw/nixie.py:155-159 | -1 blanks tube k and keeps its digit; otherwise tube k is lit and shows the digit |
| `Nixie.DisplayThread.ShowTubes` | sw/nixie.py:155-176 | the four tubes set in turn: the anode slots become TubeSlots(values) and the digit slots DigitSlots(values, previous digits) |
| `Nixie.DisplaysMeans` | sw/nixie.py:155-176 | per tube: -1 means the blank anode pattern and the previous digit; any other entry means tube k's pattern and digit slot for that entry |
| `Nixie.DisplayThread.Render` | sw/nixie.py:150-178 | reset, set the four tubes, apply: the display shows the values and the channel holds exactly the resulting programme |
| `Nixie.DisplayThread.CustomThenClock` | sw/nixie.py:144-221 | corrected: a custom pass, a wait that times out, then a clock pass leaves custom off and the tubes showing the clock's hour and minute, whatever the time |
| `Nixie.DisplayThread.RenderPass` | sw/nixie.py:142-215 | custom beats blanked beats clock; custom waits 3 s, blanked waits until woken, the clock waits 60 - seconds; the clock redraws only when no time is shown or the hour or minute changed, and otherwise touches nothing |
| `Nixie.DisplayThread.AfterWait` | sw/nixie.py:218-221 | a timed-out wait ends the custom display; the event is cleared |
| `Radio.PlayingChangeIdempotent` | sw/main.py:129-131 | asking for the current playing state changes nothing and makes no call; a second identical request is a no-op |
| `Radio.PlayingChangeEffect` | sw/main.py:129-142 | afterwards playing == on and nothing else changed; starting plays the current station at the volume, sets the volume and shows it; stopping stops |
| `Radio.PlayingToggleTwice` | sw/main.py:145-146 | a toggle flips playing; two toggles restore the state |
| `Radio.BlankingToggleTwice` | sw/main.py:148-153 | a toggle flips blanked and tells the display blank exactly when it becomes true; two toggles restore the state |
| `Radio.VolumeChangeEffect` | sw/main.py:156-166 | no-op for the current volume; otherwise stores and shows v, and the player gets v exactly when playing |
| `Radio.AlertPlays` | sw/main.py:169-177 | after the alarm the conductor is playing whatever it was doing, and nothing else changed |
| `Radio.PlayingChangeMirrors` | sw/main.py:129-142 | starting or stopping keeps the player on exactly while playing, at the conductor's volume |
| `Radio.BlankingToggleMirrors` | sw/main.py:148-153 | a blanking toggle keeps the display blanked exactly while the conductor is |
| `Radio.VolumeChangeMirrors` | sw/main.py:156-166 | a volume change keeps the displayed number and, while playing, the player volume equal to the volume |
| `Radio.HandleMirrors` | sw/main.py:129-187 | every entry point keeps the receivers in agreement with the state and keeps the station |
| `Radio.RunMirrors` | sw/main.py:107-187 | any sequence of entry-point calls keeps the receivers in agreement with the state |
| `Radio.Conductor.constructor` | sw/main.py:107-126 | stopped, unblanked, station 0, volume 50, and 50 is the only call made (it is displayed) |
| `Radio.Conductor.StatePlayingChange` | sw/main.py:129-142 | state and calls as `PlayingChange`; the invariant holds |
| `Radio.Conductor.StatePlayingToggle` | sw/main.py:145-146 | state and calls as `PlayingToggle` |
| `Radio.Conductor.StateBlankingToggle` | sw/main.py:148-153 | state and calls as `BlankingToggle` |
| `Radio.Conductor.StateVolumeChange` | sw/main.py:156-166 | state and calls as `VolumeChange` |
| `Radio.Conductor.Alert` | sw/main.py:169-177 | state and calls as `OnAlert`, so playing afterwards |
| `Radio.Conductor.WheelTurned` | sw/main.py:180-182 | a turn of the wheel is a volume change |
| `Radio.Conductor.WheelSwitchPressed` | sw/main.py:185-187 | a press of the wheel switch toggles playback |
| `Radio.ParsingArgs` | sw/main.py:191-229 | exits with status 0 exactly when a help flag is given; otherwise each of cli, server and both is a key exactly when its short or long flag is given, and no other key appears |
| `Radio.LaunchMode` | sw/main.py:232-253 | none on help; otherwise 'both' when its flag is given or neither cli nor server is, else 'cli' when its flag is given, else 'server' |

## Left out

- Hardware is not modelled: RPIO pin set-up, reads and interrupts, PWM channel set-up, and the touch sensor class `UI`. Pin levels are parameters. The PWM channel is the list of pulses it holds.
- The PWM library's pulse increment is not in the source. `PWM.setup()` at sw/nixie.py:77 keeps the library's default of 10 µs, which the model records as `Nixie.TICK_US`. The period given to `init_channel` at sw/nixie.py:78 is in µs.
- The wheel's callback object is not modelled. The values it receives are the log `reported`.
- `turns = 0.5` at sw/main.py:264 makes the wheel arithmetic floating point. Here `turns` is an integer.
- UserInput.ConfigureInRange: promised only for turns*steps_per_turn >= 0. With a negative span the scaled range is reversed, so raw_min <= raw <= raw_max fails (for turns = -1, setup(0, 50, 100) gives 0, -48, -96). Every caller in the source passes a positive number of turns.
- UserInput.ReportAfterSetup: promised only for turns*steps_per_turn > 0. With a span of zero the callback's division raises (Reported is None), and a negative span is outside the range the wheel is set up for.
- Threads are not modelled.
  - The render loop is one pass, `RenderPass`, followed by `AfterWait`. The event wait and the race at sw/nixie.py:220 are not modelled; the wait's result is a parameter.
  - `CliThread` and `thread.interrupt_main` are not modelled.
- `localtime()` is a `ClockTime` parameter.
- `print`, `sleep`, the `__main__` demonstration block and `ClockSequence`'s channel set-up are not modelled.
- `GstPlayer` (GStreamer, and the float volume `new_volume/100.0`), `AlarmManager`, `Server` and `AlarmCli` are not modelled. The player is the call log.
- `getopt` itself is not modelled. `ParsingArgs` receives the option names it returned. The getopt error exit, the printed help text and the warning printed when both cli and server are given are not modelled either.
- Nixie.DisplayThread.DisplayNumber: requires n < 10000. For larger n the source stores an entry of 10 or more for tube 0, and the render loop then indexes past the digit table.
- Nixie.DisplayThread.RenderPass: does not model the as-written epoch sentinel. It uses the corrected stamp (see Findings).
- Nixie.StandardDisplay.constructor and Nixie.DisplayThread.constructor: they state the channel contents in the constructor's order: anode pulses first, then digit pulses. `Showing` states the order `apply` issues them in.
- Radio.Conductor.StateVolumeChange: requires only a valid station. Its agreement invariant is stated conditionally, because the constructor calls it before any call has been made.

## Findings

| source | as written | input that shows it | evidently intended | confidence | as-written member | corrected member |
|---|---|---|---|---|---|---|
| sw/nixie.py:109-117 | `set_brightness` stores the new length, then resets and re-applies the anode slots, which still carry the old length | brightness 50 on a new display: the length becomes 85, but tube 0's anode pulse still lasts 170 ticks | the re-programmed anode pulses use the new length | medium, not executed | `Nixie.StaleAnodeWidthOnDisplay` (with `Nixie.StaleAnodeWidth` and `Nixie.StandardDisplay.SetBrightnessAsWritten`) | `Nixie.AnodeWidthsFollowBrightness` (with `Nixie.RewidthEmitted` and `Nixie.StandardDisplay.SetBrightness`) |
| sw/nixie.py:144-194 | after a custom or blanked pass the previous stamp is `localtime(0)`, an ordinary time, so the clock skips its redraw whenever the clock reads the epoch's local hh:mm | time zone UTC: the number 50 is shown, then at 00:00:30 the clock pass compares 00:00 with 00:00 and leaves 50 on the tubes | the first clock pass after an override always redraws | medium, not executed | `Nixie.EpochStampSkipsRedraw` | `Nixie.DisplayThread.CustomThenClock` (with `Nixie.DisplayThread.RenderPass`) |
