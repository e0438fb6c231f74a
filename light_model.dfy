/**
 * Value-level model of the three-mode light controller: the controller's
 * state as one record, the intent the debounced inputs produce in a loop
 * iteration, and the effect of one iteration (`Step`) as a pure function.
 * The class in light_controller.dfy is proved to update its fields exactly
 * as `Step` says.
 */
module LightModel {

  datatype Option<T> = None | Some(value: T)

  /** `unsigned long` milliseconds: the Arduino clock wraps at 2^32. */
  const ClockModulus: int := 0x1_0000_0000
  type Millis = t: int | 0 <= t < 0x1_0000_0000

  /** Minimum quiet time between two accepted trigger edges, on any line. */
  const DebounceInterval: int := 50
  /** Length of one de-energised window of the relay. */
  const PowerCycleDelay: int := 400

  /** The fixture's colour modes. */
  type ModeIndex = m: int | 0 <= m < 3
  const Yellow: ModeIndex := 0
  const White: ModeIndex := 1
  const Mix: ModeIndex := 2

  /** `now - since` on `unsigned long`: the difference taken modulo 2^32. */
  function Elapsed(now: Millis, since: Millis): (d: Millis)
    ensures since <= now ==> d == now - since
    ensures now < since ==> d == now - since + ClockModulus
  {
    (now - since) % ClockModulus
  }

  /**
   * Number of power pulses that take the fixture from `current` to `target`,
   * each pulse advancing the mode by one step modulo 3. The three ensures
   * clauses determine the result: it is the unique forward distance.
   */
  function ForwardDistance(current: ModeIndex, target: ModeIndex): (d: int)
    ensures 0 <= d < 3
    ensures (current + d) % 3 == target
    ensures d == 0 <==> current == target
  {
    (target - current + 3) % 3
  }

  /** Everything one loop iteration reads and writes besides the clock. */
  datatype State = State(
    lightState: bool,
    currentMode: int,
    cycling: bool,
    cyclesRemaining: int,
    cycleStartTime: Millis,
    lastTriggerTime: Millis,
    lastOnState: bool,
    lastOffState: bool,
    lastWhiteState: bool,
    lastMixState: bool,
    relay: bool,
    storedPower: Option<bool>,   // key "power" of the "light" namespace
    storedMode: Option<int>      // key "mode" of the "light" namespace
  )

  /** What one loop iteration observes: two clock readings and four input lines. */
  datatype Sample = Sample(
    now: Millis,         // millis() read at the top of the iteration
    pulseClock: Millis,  // millis() read again if a pulse starts in this iteration
    onState: bool,
    offState: bool,
    whiteState: bool,
    mixState: bool
  )

  /** The store's getters (`getBool`, `getInt`): an absent key reads as the given default. */
  function Get<T>(entry: Option<T>, default: T): (v: T)
    ensures entry.Some? ==> v == entry.value
    ensures entry.None? ==> v == default
  {
    match entry
    case Some(stored) => stored
    case None => default
  }

  /** Stored modes this program can have written. */
  predicate StoredModeInRange(entry: Option<int>) {
    entry.Some? ==> 0 <= entry.value < 3
  }

  /**
   * The controller's invariant: the mode is a colour, a pulse sequence in
   * flight has the light on, one or two pulses left and the relay low, an
   * idle controller drives the relay to the power state, and the store reads
   * back the live power state and mode.
   */
  ghost predicate Inv(s: State) {
    && 0 <= s.currentMode < 3
    && (s.cycling ==> s.lightState && 1 <= s.cyclesRemaining <= 2 && !s.relay)
    && (!s.cycling ==> s.relay == s.lightState && s.cyclesRemaining == 0)
    && Get(s.storedPower, false) == s.lightState
    && Get(s.storedMode, 0) == s.currentMode
  }

  /** The globals as their initialisers leave them, beside the store's contents. */
  function PowerUp(power: Option<bool>, mode: Option<int>): (s: State)
    ensures !s.cycling && !s.lightState && !s.relay
    ensures s.storedPower == power && s.storedMode == mode
  {
    State(false, 0, false, 0, 0, 0, false, false, false, false, false, power, mode)
  }

  /** The state `setup()` leaves: power and mode read back from the store. */
  function Restored(power: Option<bool>, mode: Option<int>): (s: State)
    requires StoredModeInRange(mode)
    ensures Inv(s) && !s.cycling
    ensures s.storedPower == power && s.storedMode == mode
  {
    var light := Get(power, false);
    PowerUp(power, mode).(lightState := light, currentMode := Get(mode, 0), relay := light)
  }

  /** A line reads HIGH now and read LOW in the previous idle iteration. */
  predicate Rising(level: bool, last: bool) {
    level && !last
  }

  /** What an idle iteration acts on. */
  datatype Intent = NoIntent | PowerOn | PowerOff | SelectMode(target: ModeIndex)

  /** The debounce guard: strictly more than 50 ms since the last accepted edge on any line. */
  predicate Quiet(s: State, x: Sample) {
    Elapsed(x.now, s.lastTriggerTime) > DebounceInterval
  }

  /**
   * The one intent an idle iteration acts on. The shared debounce timestamp is
   * renewed by whichever intent is accepted first, so the later handlers of
   * the same iteration always see a zero elapsed time: ON wins over OFF, OFF
   * over WHITE, WHITE over MIX, and the colour lines count only with the light on.
   */
  function AcceptedIntent(s: State, x: Sample): (i: Intent)
    ensures i != NoIntent ==> Quiet(s, x)
    ensures i == PowerOn <==> Quiet(s, x) && Rising(x.onState, s.lastOnState)
    ensures i == PowerOff <==> Quiet(s, x) && !Rising(x.onState, s.lastOnState) && Rising(x.offState, s.lastOffState)
    ensures i.SelectMode? ==> s.lightState && !Rising(x.onState, s.lastOnState) && !Rising(x.offState, s.lastOffState)
    ensures i == SelectMode(White) <==>
      Quiet(s, x) && s.lightState && !Rising(x.onState, s.lastOnState) && !Rising(x.offState, s.lastOffState)
      && Rising(x.whiteState, s.lastWhiteState)
    ensures i == SelectMode(Mix) <==>
      Quiet(s, x) && s.lightState && !Rising(x.onState, s.lastOnState) && !Rising(x.offState, s.lastOffState)
      && !Rising(x.whiteState, s.lastWhiteState) && Rising(x.mixState, s.lastMixState)
  {
    if !Quiet(s, x) then NoIntent
    else if Rising(x.onState, s.lastOnState) then PowerOn
    else if Rising(x.offState, s.lastOffState) then PowerOff
    else if !s.lightState then NoIntent
    else if Rising(x.whiteState, s.lastWhiteState) then SelectMode(White)
    else if Rising(x.mixState, s.lastMixState) then SelectMode(Mix)
    else NoIntent
  }

  /**
   * A cycling iteration: the pulse timer. The inputs are not even parameters;
   * power, debounce timestamp, latches and the stored power key stay, and the
   * invariant is kept with at most one step of mode change.
   */
  function PulseStep(s: State, now: Millis, pulseClock: Millis): (r: State)
    requires Inv(s) && s.cycling
    ensures Inv(r)
    ensures r.lightState && r.storedPower == s.storedPower && r.lastTriggerTime == s.lastTriggerTime
    ensures r.lastOnState == s.lastOnState && r.lastOffState == s.lastOffState
    ensures r.lastWhiteState == s.lastWhiteState && r.lastMixState == s.lastMixState
    ensures Elapsed(now, s.cycleStartTime) < PowerCycleDelay <==> r == s
    ensures r != s ==> r.currentMode == (s.currentMode + 1) % 3 && r.cyclesRemaining == s.cyclesRemaining - 1
  {
    if Elapsed(now, s.cycleStartTime) < PowerCycleDelay then s
    else
      var mode := (s.currentMode + 1) % 3;
      var u := s.(currentMode := mode, storedMode := Some(mode),
                  cyclesRemaining := s.cyclesRemaining - 1, relay := true);
      if u.cyclesRemaining > 0 then u.(relay := false, cycleStartTime := pulseClock)
      else u.(cycling := false)
  }

  /**
   * The effect of an accepted intent, before the samples are latched. Only an
   * accepted intent renews the debounce timestamp, only ON changes the mode
   * (to Yellow), none touches the latches, and from an idle state (light on
   * for a colour intent) the invariant is kept.
   */
  function Apply(s: State, i: Intent, x: Sample): (r: State)
    requires 0 <= s.currentMode < 3
    ensures i == NoIntent ==> r == s
    ensures i != NoIntent ==> r.lastTriggerTime == x.now
    ensures r.currentMode == if i == PowerOn then Yellow else s.currentMode
    ensures r.lastOnState == s.lastOnState && r.lastOffState == s.lastOffState
    ensures r.lastWhiteState == s.lastWhiteState && r.lastMixState == s.lastMixState
    ensures Inv(s) && !s.cycling && (i.SelectMode? ==> s.lightState) ==> Inv(r)
  {
    match i
    case NoIntent => s
    case PowerOn =>
      s.(lightState := true, currentMode := Yellow, relay := true,
         storedPower := Some(true), storedMode := Some(Yellow), lastTriggerTime := x.now)
    case PowerOff =>
      s.(lightState := false, relay := false, storedPower := Some(false), lastTriggerTime := x.now)
    case SelectMode(target) =>
      var d := ForwardDistance(s.currentMode, target);
      if d > 0 then
        s.(cyclesRemaining := d, relay := false, cycleStartTime := x.pulseClock, cycling := true,
           lastTriggerTime := x.now)
      else s.(lastTriggerTime := x.now)
  }

  /**
   * The four samples become the previous levels of the next idle iteration;
   * every other field stays, so the invariant is unaffected.
   */
  function Latch(s: State, x: Sample): (r: State)
    ensures r.lastOnState == x.onState && r.lastOffState == x.offState
    ensures r.lastWhiteState == x.whiteState && r.lastMixState == x.mixState
    ensures r.(lastOnState := s.lastOnState, lastOffState := s.lastOffState,
               lastWhiteState := s.lastWhiteState, lastMixState := s.lastMixState) == s
    ensures Inv(r) <==> Inv(s)
  {
    s.(lastOnState := x.onState, lastOffState := x.offState,
       lastWhiteState := x.whiteState, lastMixState := x.mixState)
  }

  /**
   * An idle iteration: apply the accepted intent and latch the samples. It
   * keeps the invariant, latches all four samples, and starts cycling only
   * on an accepted colour intent.
   */
  function IdleStep(s: State, x: Sample): (r: State)
    requires Inv(s) && !s.cycling
    ensures Inv(r)
    ensures r.lastOnState == x.onState && r.lastOffState == x.offState
    ensures r.lastWhiteState == x.whiteState && r.lastMixState == x.mixState
    ensures r.cycling ==> AcceptedIntent(s, x).SelectMode?
  {
    Latch(Apply(s, AcceptedIntent(s, x), x), x)
  }

  /** One iteration of the main loop; it keeps the invariant. */
  function Step(s: State, x: Sample): (r: State)
    requires Inv(s)
    ensures Inv(r)
  {
    if s.cycling then PulseStep(s, x.now, x.pulseClock) else IdleStep(s, x)
  }

  /**
   * The levels written to the relay line by a cycling iteration, in order:
   * nothing while the pulse is pending, otherwise HIGH first, then LOW again
   * only when another pulse follows. The last level is the relay's new level.
   */
  function PulseWrites(s: State, now: Millis): (w: seq<bool>)
    requires Inv(s) && s.cycling
    ensures |w| <= 2 && (w != [] ==> w[0])
    ensures w == [] <==> Elapsed(now, s.cycleStartTime) < PowerCycleDelay
    ensures |w| == 2 ==> !w[1] && s.cyclesRemaining > 1
    ensures forall pulseClock: Millis {:trigger PulseStep(s, now, pulseClock)} ::
      PulseStep(s, now, pulseClock).relay == if w == [] then s.relay else w[|w| - 1]
  {
    if Elapsed(now, s.cycleStartTime) < PowerCycleDelay then []
    else if s.cyclesRemaining > 1 then [true, false]
    else [true]
  }

  /**
   * The levels written to the relay line by an idle iteration, in order: at
   * most one write, made only for an accepted intent, and it is the relay's
   * new level.
   */
  function IdleWrites(s: State, x: Sample): (w: seq<bool>)
    requires Inv(s) && !s.cycling
    ensures |w| <= 1
    ensures w != [] ==> AcceptedIntent(s, x) != NoIntent
    ensures IdleStep(s, x).relay == if w == [] then s.relay else w[0]
  {
    match AcceptedIntent(s, x)
    case NoIntent => []
    case PowerOn => [true]
    case PowerOff => [false]
    case SelectMode(target) =>
      if ForwardDistance(s.currentMode, target) > 0 then [false] else []
  }

  /**
   * The levels written to the relay line during one iteration, in order: at
   * most two, and the last one is the relay's level after the iteration.
   */
  function RelayWrites(s: State, x: Sample): (w: seq<bool>)
    requires Inv(s)
    ensures |w| <= 2
    ensures Step(s, x).relay == if w == [] then s.relay else w[|w| - 1]
  {
    if s.cycling then PulseWrites(s, x.now) else IdleWrites(s, x)
  }

  /** A run of loop iterations. */
  function Run(s: State, xs: seq<Sample>): (r: State)
    requires Inv(s)
    ensures Inv(r)
    decreases |xs|
  {
    if xs == [] then s else Run(Step(s, xs[0]), xs[1..])
  }

  /**
   * Each iteration comes at least one pulse length after the previous pulse
   * started (`start` for the first one, then the clock reading each
   * iteration would stamp a new pulse with).
   */
  predicate Spaced(start: Millis, xs: seq<Sample>)
    decreases |xs|
  {
    xs == [] || (Elapsed(xs[0].now, start) >= PowerCycleDelay && Spaced(xs[0].pulseClock, xs[1..]))
  }
}
