/**
 * Properties of the controller's loop iteration `Step`: the pulse timer,
 * the input mask while cycling, the debounced intents, mode selection by
 * forward distance, and the relay and store staying consistent with the
 * live power state and mode.
 */
module LightProperties {
  import opened LightModel

  // ---------------------------------------------------------------- cycling

  /**
   * While a pulse sequence is in flight the inputs are not read: the result
   * does not depend on the four samples, and the power state, the debounce
   * timestamp and the edge latches stay as they were. Before the pulse
   * delay is over nothing changes at all.
   */
  lemma CyclingMasksInputs(s: State, x: Sample, y: Sample)
    requires Inv(s) && s.cycling
    requires x.now == y.now && x.pulseClock == y.pulseClock
    ensures Step(s, x) == Step(s, y) && RelayWrites(s, x) == RelayWrites(s, y)
    ensures var r := Step(s, x);
      && r.lightState == s.lightState
      && r.lastTriggerTime == s.lastTriggerTime
      && r.lastOnState == s.lastOnState && r.lastOffState == s.lastOffState
      && r.lastWhiteState == s.lastWhiteState && r.lastMixState == s.lastMixState
    ensures Elapsed(x.now, s.cycleStartTime) < PowerCycleDelay ==> Step(s, x) == s && RelayWrites(s, x) == []
  {
  }

  /**
   * A completed pulse (at least 400 ms after it started) advances the mode by
   * one step modulo 3, persists it, uses up one pulse, and either starts the
   * next pulse (relay written HIGH then LOW, new start stamp) or ends the
   * sequence with the relay HIGH. The light stays on.
   */
  lemma PulseCompletes(s: State, x: Sample)
    requires Inv(s) && s.cycling
    requires Elapsed(x.now, s.cycleStartTime) >= PowerCycleDelay
    ensures var r := Step(s, x);
      && r.currentMode == (s.currentMode + 1) % 3
      && r.storedMode == Some(r.currentMode)
      && r.storedPower == s.storedPower
      && r.cyclesRemaining == s.cyclesRemaining - 1
      && r.cycling == (r.cyclesRemaining > 0)
      && r.lightState
      && (r.cycling ==> r.cycleStartTime == x.pulseClock && !r.relay && RelayWrites(s, x) == [true, false])
      && (!r.cycling ==> r.relay && RelayWrites(s, x) == [true])
  {
  }

  /**
   * A pulse sequence with k pulses left, driven by k iterations each at least
   * one pulse length after the previous pulse began, ends idle with the relay
   * HIGH and the mode k steps further on, persisted; the inputs were masked
   * throughout.
   */
  lemma {:induction false} PulsesReachTarget(s: State, xs: seq<Sample>)
    requires Inv(s) && s.cycling
    requires |xs| == s.cyclesRemaining
    requires Spaced(s.cycleStartTime, xs)
    decreases |xs|
    ensures var r := Run(s, xs);
      && !r.cycling && r.lightState && r.relay
      && r.currentMode == (s.currentMode + s.cyclesRemaining) % 3
      && r.storedMode == Some(r.currentMode)
      && r.lastTriggerTime == s.lastTriggerTime
      && r.lastOnState == s.lastOnState && r.lastOffState == s.lastOffState
      && r.lastWhiteState == s.lastWhiteState && r.lastMixState == s.lastMixState
  {
    var r1 := Step(s, xs[0]);
    PulseCompletes(s, xs[0]);
    CyclingMasksInputs(s, xs[0], xs[0]);
    assert Run(s, xs) == Run(r1, xs[1..]);
    if r1.cycling {
      PulsesReachTarget(r1, xs[1..]);
      assert (r1.currentMode + r1.cyclesRemaining) % 3 == (s.currentMode + s.cyclesRemaining) % 3;
    } else {
      assert xs[1..] == [];
    }
  }

  /**
   * A cycling iteration that comes before the pulse delay is over changes
   * nothing, so a real run, with any number of such not-yet-due iterations
   * between the completing ones, ends where the run without them ends.
   */
  lemma PendingTickIsSkipped(s: State, x: Sample, xs: seq<Sample>)
    requires Inv(s) && s.cycling
    requires Elapsed(x.now, s.cycleStartTime) < PowerCycleDelay
    ensures Run(s, [x] + xs) == Run(s, xs)
  {
    assert ([x] + xs)[1..] == xs;
  }

  // ---------------------------------------------------------- mode selection

  /**
   * An accepted WHITE or MIX edge (light on, idle) renews the debounce
   * timestamp, leaves power and mode alone, and arms exactly the forward
   * distance from the current mode to the target as pulses, starting a
   * pulse only when that distance is positive.
   */
  lemma SelectArmsForwardDistance(s: State, x: Sample)
    requires Inv(s) && !s.cycling && AcceptedIntent(s, x).SelectMode?
    ensures var d := ForwardDistance(s.currentMode, AcceptedIntent(s, x).target);
      var r := Step(s, x);
      && s.lightState && r.lightState
      && r.currentMode == s.currentMode
      && r.lastTriggerTime == x.now
      && r.cycling == (d > 0)
      && (d > 0 ==> r.cyclesRemaining == d && r.cycleStartTime == x.pulseClock && !r.relay)
      && (d == 0 ==> r == Latch(s, x).(lastTriggerTime := x.now))
  {
  }

  /**
   * Selecting a target mode and then letting the armed pulses complete, each
   * at least 400 ms after the previous one began, leaves the controller idle
   * in the target mode with the light on and the relay HIGH. When the target
   * is already the current mode no pulse is armed and none is needed.
   */
  lemma {:induction false} SelectReachesTarget(s: State, x: Sample, xs: seq<Sample>)
    requires Inv(s) && !s.cycling && AcceptedIntent(s, x).SelectMode?
    requires |xs| == ForwardDistance(s.currentMode, AcceptedIntent(s, x).target)
    requires Spaced(x.pulseClock, xs)
    ensures var r := Run(s, [x] + xs);
      && r.currentMode == AcceptedIntent(s, x).target
      && Get(r.storedMode, 0) == r.currentMode
      && !r.cycling && r.lightState && r.relay
  {
    var r1 := Step(s, x);
    SelectArmsForwardDistance(s, x);
    assert ([x] + xs)[1..] == xs;
    assert Run(s, [x] + xs) == Run(r1, xs);
    if r1.cycling {
      PulsesReachTarget(r1, xs);
    } else {
      assert xs == [];
    }
  }

  /** Scenario: idle in White, a MIX edge takes one pulse and ends in Mix. */
  lemma MixFromWhiteTakesOnePulse(s: State, x: Sample, p: Sample)
    requires Inv(s) && !s.cycling && s.lightState && s.currentMode == White
    requires Quiet(s, x) && !Rising(x.onState, s.lastOnState) && !Rising(x.offState, s.lastOffState)
    requires !Rising(x.whiteState, s.lastWhiteState) && Rising(x.mixState, s.lastMixState)
    requires Spaced(x.pulseClock, [p])
    ensures Step(s, x).cycling && Step(s, x).cyclesRemaining == 1
    ensures RelayWrites(s, x) == [false] && RelayWrites(Step(s, x), p) == [true]
    ensures Run(s, [x, p]).currentMode == Mix && !Run(s, [x, p]).cycling
    ensures Run(s, [x, p]).storedMode == Some(Mix)
  {
    assert AcceptedIntent(s, x) == SelectMode(Mix);
    PulseCompletes(Step(s, x), p);
    SelectReachesTarget(s, x, [p]);
    assert [x] + [p] == [x, p];
  }

  /**
   * Scenario: idle in Mix, a WHITE edge takes two pulses; the mode
   * passes through Yellow and ends in White.
   */
  lemma WhiteFromMixTakesTwoPulses(s: State, x: Sample, p1: Sample, p2: Sample)
    requires Inv(s) && !s.cycling && s.lightState && s.currentMode == Mix
    requires Quiet(s, x) && !Rising(x.onState, s.lastOnState) && !Rising(x.offState, s.lastOffState)
    requires Rising(x.whiteState, s.lastWhiteState)
    requires Spaced(x.pulseClock, [p1, p2])
    ensures Step(s, x).cycling && Step(s, x).cyclesRemaining == 2
    ensures Step(Step(s, x), p1).currentMode == Yellow && Step(Step(s, x), p1).cycling
    ensures Run(s, [x, p1, p2]).currentMode == White && !Run(s, [x, p1, p2]).cycling
  {
    assert AcceptedIntent(s, x) == SelectMode(White);
    PulseCompletes(Step(s, x), p1);
    SelectReachesTarget(s, x, [p1, p2]);
    assert [x] + [p1, p2] == [x, p1, p2];
  }

  // ------------------------------------------------------------ the intents

  /**
   * The debounce guard: an edge on any line less than (or exactly) 50 ms
   * after the last accepted edge on any line is ignored; only the latches
   * take the new samples.
   */
  lemma DebounceIgnoresEarlyEdges(s: State, x: Sample)
    requires Inv(s) && !s.cycling && !Quiet(s, x)
    ensures Step(s, x) == Latch(s, x) && RelayWrites(s, x) == []
  {
  }

  /** Without a rising edge on some line an idle iteration only latches the samples. */
  lemma NoEdgeNoEffect(s: State, x: Sample)
    requires Inv(s) && !s.cycling
    requires !Rising(x.onState, s.lastOnState) && !Rising(x.offState, s.lastOffState)
    requires !Rising(x.whiteState, s.lastWhiteState) && !Rising(x.mixState, s.lastMixState)
    ensures Step(s, x) == Latch(s, x) && RelayWrites(s, x) == []
  {
  }

  /**
   * ON: a debounced rising ON edge powers the light in Yellow with the relay
   * HIGH and no pulse, persists both keys and renews the debounce timestamp,
   * whatever the other lines do (so ON wins over OFF in the same iteration).
   */
  lemma PowerOnEffect(s: State, x: Sample)
    requires Inv(s) && !s.cycling
    requires Quiet(s, x) && Rising(x.onState, s.lastOnState)
    ensures var r := Step(s, x);
      && r.lightState && r.currentMode == Yellow && r.relay && !r.cycling
      && r.storedPower == Some(true) && r.storedMode == Some(Yellow)
      && r.lastTriggerTime == x.now
      && RelayWrites(s, x) == [true]
  {
  }

  /**
   * OFF: a debounced rising OFF edge (with no ON edge beside it) turns the
   * light and relay off, persists only the power key and keeps the mode;
   * the colour lines of that iteration are not acted on.
   */
  lemma PowerOffEffect(s: State, x: Sample)
    requires Inv(s) && !s.cycling
    requires Quiet(s, x) && !Rising(x.onState, s.lastOnState) && Rising(x.offState, s.lastOffState)
    ensures var r := Step(s, x);
      && !r.lightState && !r.relay && !r.cycling
      && r.currentMode == s.currentMode && r.storedMode == s.storedMode
      && r.storedPower == Some(false)
      && r.lastTriggerTime == x.now
      && RelayWrites(s, x) == [false]
  {
  }

  /**
   * WHITE wins over MIX: with both colour lines rising in one debounced idle
   * iteration (and no power edge), the pulses armed are those towards White.
   */
  lemma WhiteBeatsMix(s: State, x: Sample)
    requires Inv(s) && !s.cycling && s.lightState
    requires Quiet(s, x) && !Rising(x.onState, s.lastOnState) && !Rising(x.offState, s.lastOffState)
    requires Rising(x.whiteState, s.lastWhiteState) && Rising(x.mixState, s.lastMixState)
    ensures Step(s, x).cycling == (s.currentMode != White)
    ensures Step(s, x).cycling ==> Step(s, x).cyclesRemaining == ForwardDistance(s.currentMode, White)
  {
    assert AcceptedIntent(s, x) == SelectMode(White);
  }

  /**
   * The light goes from on to off only through an accepted OFF intent in an
   * idle iteration; cycling never turns it off.
   */
  lemma LightOffOnlyViaOff(s: State, x: Sample)
    requires Inv(s) && s.lightState && !Step(s, x).lightState
    ensures !s.cycling && AcceptedIntent(s, x) == PowerOff
  {
  }

  /**
   * With the light off, the colour lines have no effect: no pulse starts, the
   * iteration's outcome does not depend on the WHITE and MIX samples beyond
   * latching them, and all four latches take the current samples.
   */
  lemma DarkIgnoresColourLines(s: State, x: Sample, white: bool, mix: bool)
    requires Inv(s) && !s.cycling && !s.lightState
    ensures var r := Step(s, x);
      && !r.cycling
      && r.lastOnState == x.onState && r.lastOffState == x.offState
      && r.lastWhiteState == x.whiteState && r.lastMixState == x.mixState
    ensures Step(s, x.(whiteState := white, mixState := mix))
         == Step(s, x).(lastWhiteState := white, lastMixState := mix)
  {
  }

  /**
   * The mode never jumps: it stays, advances one step at a completed pulse,
   * or is forced to Yellow by an accepted ON intent.
   */
  lemma ModeChangesOnlyByPulseOrOn(s: State, x: Sample)
    requires Inv(s)
    ensures var r := Step(s, x);
      || r.currentMode == s.currentMode
      || (s.cycling && r.currentMode == (s.currentMode + 1) % 3)
      || (!s.cycling && AcceptedIntent(s, x) == PowerOn && r.currentMode == Yellow)
  {
  }

  /**
   * The last level written in an iteration is the relay's level afterwards;
   * an iteration writes at most twice, and only a pulse that hands over to the
   * next one writes twice, HIGH then LOW.
   */
  lemma RelayIsLastWrite(s: State, x: Sample)
    requires Inv(s)
    ensures var w := RelayWrites(s, x);
      && |w| <= 2
      && Step(s, x).relay == (if w == [] then s.relay else w[|w| - 1])
      && (|w| == 2 ==> w == [true, false] && s.cycling && Step(s, x).cycling)
  {
  }

  /**
   * An input that rises while pulses are in flight and stays HIGH is seen as
   * an edge by the first idle iteration afterwards, because the latches are
   * not updated while cycling.
   */
  lemma HeldOnEdgeFiresAfterCycle(s: State, xs: seq<Sample>, y: Sample)
    requires Inv(s) && s.cycling && !s.lastOnState
    requires |xs| == s.cyclesRemaining && Spaced(s.cycleStartTime, xs)
    requires y.onState && Quiet(s, y)
    ensures AcceptedIntent(Run(s, xs), y) == PowerOn
  {
    PulsesReachTarget(s, xs);
  }

  // ----------------------------------------------------------------- setup

  /**
   * Scenario: booting with an empty store restores power off in
   * Yellow with the relay held LOW.
   */
  lemma BootWithEmptyStore()
    ensures var r := Restored(None, None);
      !r.lightState && r.currentMode == Yellow && !r.relay && !r.cycling
  {
  }

  /** A restored controller reads back its store: power and mode as stored, defaults false and 0. */
  lemma RestoreReadsStore(power: Option<bool>, mode: Option<int>)
    requires StoredModeInRange(mode)
    ensures var r := Restored(power, mode);
      && (power.Some? ==> r.lightState == power.value) && (power.None? ==> !r.lightState)
      && (mode.Some? ==> r.currentMode == mode.value) && (mode.None? ==> r.currentMode == Yellow)
      && r.relay == r.lightState
  {
  }
}
