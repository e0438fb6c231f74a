# Three-mode light controller

A Dafny model of an Arduino sketch (`src/main.cpp`). The sketch drives a
three-mode light through one high-trigger relay. The fixture has three colour
modes: Yellow, White and Mix. Each power pulse (relay LOW for 400 ms, then
HIGH) moves the mode one step forward, modulo 3. Four active-high voice lines
(ON, OFF, WHITE, MIX) send the commands. A non-volatile store keeps the power
state and the mode across power loss.

The model has three files:

- `light_model.dfy` (module `LightModel`) defines the sketch's global state as a
  `State` value and one loop iteration as the pure function `Step`:
  - the pulse timer (`PulseStep`);
  - the debounced intent that an idle iteration acts on (`AcceptedIntent`);
  - the effect of that intent (`Apply`) and the latching of the samples (`Latch`).

  It also defines the controller invariant `Inv` and the relay levels written in
  one iteration (`RelayWrites`).
- `light_controller.dfy` (module `LightController`) defines the class
  `Controller`. Its fields are the sketch's globals, the relay line and the
  store's two keys. Its methods update those fields in place:
  - `Setup` models `setup()`;
  - `StartPowerCycle` models `startPowerCycle()`;
  - `Tick` models `loop()`. Each handler block of `loop()` is its own method.

  Every method is proved to leave the fields exactly as `Step`, `Restored` and
  the other model functions say. `Tick` also keeps `Valid()`.
- `light_properties.dfy` (module `LightProperties`) holds lemmas about `Step`
  and `Run` (a sequence of iterations).

Time is `unsigned long` milliseconds: a value in `[0, 2^32)`. Elapsed time is
`now - since` taken modulo 2^32, as in the sketch, so the clock may wrap. Each
loop iteration takes two clock readings:

- `now`, read at the top of `loop()` (line 78);
- `pulseClock`, the reading `startPowerCycle()` takes if it runs (line 44).

The store keys `power` and `mode` are `Option` fields. An absent key reads as
`false` or `0`. The relay is a field. A ghost trace `relayWrites` records every
level written to it. The trace shows that a pulse handing over to the next one
writes HIGH and then LOW in the same iteration.

Details of the code that the model keeps exactly:

- An accepted ON intent sets the mode straight to Yellow (line 111). So the
  mode does not move only by forward pulses.
- The debounce guard is strict: more than 50 ms must have passed (lines 109,
  125, 146, 160). The pulse guard is not strict: 400 ms or more (line 82).
- The edge latches are not updated during a cycling iteration (line 98). A
  line that rises during a cycle and stays HIGH is seen as an edge by the
  first idle iteration afterwards.
- All four handlers share one debounce timestamp (lines 119, 132, 154, 168).
  So one iteration acts on at most one intent.

## Model

| member | source | states |
|---|---|---|
| LightModel.Elapsed | src/main.cpp:109 | unsigned `now - since`: the plain difference when `since <= now`, otherwise the difference plus 2^32 (wrap-around) |
| LightModel.ForwardDistance | src/main.cpp:147 | `(target - mode + 3) % 3` is the unique d in {0,1,2} with `(mode + d) % 3 == target`; it is 0 exactly when the mode is already the target |
| LightModel.Get | src/main.cpp:61-62 | `getBool`/`getInt` with a default: the stored value when the key is present, otherwise the default |
| LightModel.PowerUp | src/main.cpp:27-39 | the globals' initial values: idle, light off, relay low, store untouched |
| LightModel.Restored | src/main.cpp:59-70 | the state after `setup()` satisfies the controller invariant, is idle, and leaves the store as it was |
| LightModel.Quiet | src/main.cpp:109 | the shared debounce guard: strictly more than 50 ms since the last accepted edge on any line |
| LightModel.AcceptedIntent | src/main.cpp:107-170 | each intent is characterised on its own terms: ON fires iff quiet and ON rises; OFF iff quiet, ON does not rise and OFF rises; WHITE iff quiet, light on, no power edge and WHITE rises; MIX iff the same with WHITE not rising and MIX rising. So ON beats OFF, OFF beats WHITE and WHITE beats MIX |
| LightModel.PulseStep | src/main.cpp:81-97 | the pulse timer keeps the invariant, the light on, the power key, the timestamp and the latches; it changes nothing exactly when the 400 ms are not yet over, and otherwise advances the mode one step and uses up one pulse |
| LightModel.Apply | src/main.cpp:110-168 | an accepted intent renews the timestamp; no intent changes nothing; only ON changes the mode (to Yellow); the latches are untouched; from an idle state the invariant is kept |
| LightModel.Latch | src/main.cpp:172-175 | the latches take the four samples, every other field stays, and the invariant is unaffected |
| LightModel.IdleStep | src/main.cpp:101-176 | an idle iteration keeps the invariant, latches all four samples, and starts cycling only on an accepted colour intent |
| LightModel.PulseWrites | src/main.cpp:83-91 | a completing pulse writes HIGH first, then LOW only when another pulse follows; a pending pulse writes nothing; the last write is the new relay level |
| LightModel.IdleWrites | src/main.cpp:113-165 | an idle iteration writes at most once, only for an accepted intent, and that write is the new relay level |
| LightModel.RelayWrites | src/main.cpp:77-176 | an iteration writes the relay at most twice, and the last level written is the relay's level afterwards |
| LightModel.Step | src/main.cpp:77-176 | one loop iteration keeps the invariant: mode in {0,1,2}; cycling ⇒ light on, 1–2 pulses left, relay LOW; idle ⇒ relay == power and no pulses left; the store reads back the live power and mode |
| LightModel.Run | src/main.cpp:77-176 | any run of loop iterations keeps the controller invariant |
| LightController.Controller.constructor | src/main.cpp:27-39 | the globals take their initialisers; the store holds what earlier runs wrote |
| LightController.Controller.DriveRelay | src/main.cpp:43 | a write to the relay line sets its level and appends the level to the write trace |
| LightController.Controller.StartPowerCycle | src/main.cpp:42-46 | relay LOW, the pulse is stamped with the second clock reading, cycling set; nothing else changes |
| LightController.Controller.Setup | src/main.cpp:49-74 | from the initial globals: power and mode are read from the store with defaults false/0, the relay is written to the restored power, and the invariant holds |
| LightController.Controller.Tick | src/main.cpp:77-176 | the fields become exactly `Step` of the old fields, the relay writes are those of `RelayWrites`, and the invariant is preserved |
| LightController.Controller.PulseTimer | src/main.cpp:81-99 | the cycling branch equals the pulse timer `PulseStep` and writes the relay by `PulseWrites` |
| LightController.Controller.HandleInputs | src/main.cpp:101-176 | the four sequential handlers with one shared debounce timestamp, plus the early return when the light is off, together equal acting on the single `AcceptedIntent` and then latching the samples |
| LightController.Controller.PowerLines | src/main.cpp:107-134 | the ON and OFF handlers in sequence apply the accepted intent unless it is a colour intent; OFF cannot fire after ON in the same iteration |
| LightController.Controller.ColourLines | src/main.cpp:144-170 | with the light on, the WHITE and MIX handlers in sequence apply the accepted colour intent; neither fires after ON, and MIX cannot fire after WHITE |
| LightController.Controller.OnLine | src/main.cpp:107-121 | a debounced rising ON edge applies the power-on effect; otherwise nothing changes |
| LightController.Controller.OffLine | src/main.cpp:123-134 | a debounced rising OFF edge applies the power-off effect; otherwise nothing changes |
| LightController.Controller.ColourLine | src/main.cpp:158-170 | a debounced rising WHITE/MIX edge arms the forward distance as pulses, if positive, and renews the timestamp; otherwise nothing changes |
| LightController.Controller.LatchSamples | src/main.cpp:172-175 | the four samples become the previous levels and nothing else changes |
| LightProperties.CyclingMasksInputs | src/main.cpp:81-98 | while cycling, a tick's outcome does not depend on the inputs; power, debounce timestamp and all four latches are unchanged; before 400 ms nothing changes at all |
| LightProperties.PulseCompletes | src/main.cpp:82-96 | a completed pulse: mode := (mode+1)%3 and persisted, one pulse used, then either a new pulse (relay written HIGH then LOW, new stamp) or idle with relay HIGH; light stays on |
| LightProperties.PulsesReachTarget | src/main.cpp:81-96 | k pending pulses with k adequately spaced ticks end idle, relay HIGH, mode advanced by k (mod 3) and persisted; latches and timestamp untouched |
| LightProperties.PendingTickIsSkipped | src/main.cpp:81-98 | a cycling iteration before the pulse delay is over can be dropped from any run without changing where it ends, so the pulse lemmas cover runs with waiting iterations |
| LightProperties.SelectArmsForwardDistance | src/main.cpp:145-156 | an accepted colour intent sets `cyclesRemaining` to the forward distance and starts cycling iff it is > 0; with distance 0 only the latches and the timestamp change |
| LightProperties.SelectReachesTarget | src/main.cpp:144-170 | selecting a target and completing the armed pulses leaves the controller idle in the target mode, persisted, light on, relay HIGH |
| LightProperties.MixFromWhiteTakesOnePulse | src/main.cpp:158-170 | from White, MIX arms one pulse: the relay goes LOW, then HIGH once, and the run ends idle in Mix with Mix persisted |
| LightProperties.WhiteFromMixTakesTwoPulses | src/main.cpp:144-156 | from Mix, WHITE arms two pulses; the mode passes through Yellow and ends in White |
| LightProperties.DebounceIgnoresEarlyEdges | src/main.cpp:109 | when 50 ms or less have passed since the last accepted edge, an idle tick only latches the samples and writes nothing |
| LightProperties.NoEdgeNoEffect | src/main.cpp:108 | without a rising edge (HIGH now, LOW before) on any line, an idle tick only latches the samples |
| LightProperties.PowerOnEffect | src/main.cpp:107-121 | ON: light on, mode Yellow, relay HIGH with no pulse, both keys persisted, timestamp renewed, whatever the other lines do |
| LightProperties.PowerOffEffect | src/main.cpp:123-134 | OFF (without an ON edge): light and relay off, mode and its stored copy unchanged, power key persisted false |
| LightProperties.WhiteBeatsMix | src/main.cpp:144-170 | with WHITE and MIX rising together, the pulses armed lead to White |
| LightProperties.LightOffOnlyViaOff | src/main.cpp:126 | the light goes from on to off only through an accepted OFF intent in an idle tick |
| LightProperties.DarkIgnoresColourLines | src/main.cpp:136-142 | with the light off no cycle starts, the WHITE/MIX samples only get latched, and all four latches take the samples |
| LightProperties.ModeChangesOnlyByPulseOrOn | src/main.cpp:85 | the mode stays the same, moves one step at a completed pulse, or is forced to Yellow by ON (line 111) |
| LightProperties.RelayIsLastWrite | src/main.cpp:83-93 | the relay's final level is the last level written in the tick; at most two writes, and two only as HIGH then LOW at a pulse hand-over |
| LightProperties.HeldOnEdgeFiresAfterCycle | src/main.cpp:98 | an ON line that is LOW-latched before the cycle and HIGH after it fires on the first debounced idle tick, because latches are frozen while cycling |
| LightProperties.BootWithEmptyStore | src/main.cpp:61-69 | an empty store restores power off, mode Yellow, relay LOW |
| LightProperties.RestoreReadsStore | src/main.cpp:61-65 | the restored power and mode are the stored values, or false/0 when absent, and the relay equals the power |

## Left out

- Serial output (`Serial.begin`, `print`, `println`): diagnostic only, with no effect on state.
- `pinMode`, `digitalRead`, `millis`: the input samples and both clock readings are parameters of `Tick`. `digitalWrite` on the relay is the `relay` field plus the ghost write trace.
- `Preferences` internals: the store is two `Option` fields. Write failures, flash wear and the namespace handling of `preferences.begin` are not modelled, so every put is assumed to succeed.
- LightController.Controller.Setup: requires a stored mode in {0,1,2}, because the sketch only ever writes such values. A corrupted value would give C++'s truncating `%` different results, and that is not modelled.
- LightModel.Restored: has the same requirement of a stored mode in {0,1,2}, for the same reason.
- LightController.Controller.Setup: requires the globals to hold their initialisers, as they do when the program starts; `setup()` runs only once.
- The real-time behaviour of the loop rate, and the electrical effect of the HIGH-then-LOW relay write within one iteration: only the order of the writes is recorded.
- C++ `int` overflow of `currentMode` and `cyclesRemaining`: it cannot occur, because the invariant keeps both in {0,1,2}.
