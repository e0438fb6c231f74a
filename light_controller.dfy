/**
 * The sketch's global state as one controller object, with `setup()`,
 * `startPowerCycle()` and `loop()` as methods that update the fields in
 * place. Each method is proved to leave the fields as the value-level model
 * in light_model.dfy prescribes.
 */
module LightController {
  import opened LightModel

  class Controller {
    var lightState: bool
    var currentMode: int
    var cycling: bool
    var cyclesRemaining: int
    var cycleStartTime: Millis
    var lastTriggerTime: Millis
    var lastOnState: bool
    var lastOffState: bool
    var lastWhiteState: bool
    var lastMixState: bool
    /** Level of the relay output line (HIGH = fixture energised). */
    var relay: bool
    /** Every level ever written to the relay line, oldest first. */
    ghost var relayWrites: seq<bool>
    /** The non-volatile store's two keys; None when the key was never written. */
    var storedPower: Option<bool>
    var storedMode: Option<int>

    /** The fields as one value of the model. */
    function Abstract(): State
      reads this
    {
      State(lightState, currentMode, cycling, cyclesRemaining, cycleStartTime, lastTriggerTime,
            lastOnState, lastOffState, lastWhiteState, lastMixState, relay, storedPower, storedMode)
    }

    ghost predicate Valid()
      reads this
    {
      Inv(Abstract())
    }

    /** Reset: the globals take their initialisers; the store holds what earlier runs wrote. */
    constructor (power: Option<bool>, mode: Option<int>)
      ensures Abstract() == PowerUp(power, mode)
      ensures relayWrites == []
    {
      lightState, currentMode := false, 0;
      cycling, cyclesRemaining := false, 0;
      cycleStartTime, lastTriggerTime := 0, 0;
      lastOnState, lastOffState, lastWhiteState, lastMixState := false, false, false, false;
      relay := false;
      relayWrites := [];
      storedPower, storedMode := power, mode;
    }

    /** digitalWrite on the relay pin. */
    method DriveRelay(level: bool)
      modifies this`relay, this`relayWrites
      ensures relay == level
      ensures relayWrites == old(relayWrites) + [level]
    {
      relay := level;
      relayWrites := relayWrites + [level];
    }

    /** Begin one pulse: relay LOW, stamp the pulse with clock reading `t`. */
    method StartPowerCycle(t: Millis)
      modifies this`relay, this`relayWrites, this`cycleStartTime, this`cycling
      ensures Abstract() == old(Abstract()).(relay := false, cycleStartTime := t, cycling := true)
      ensures relayWrites == old(relayWrites) + [false]
    {
      DriveRelay(false);
      cycleStartTime := t;
      cycling := true;
    }

    /** Restore power and mode from the store and drive the relay to match. */
    method Setup()
      requires Abstract() == PowerUp(storedPower, storedMode)
      requires StoredModeInRange(storedMode)
      modifies this
      ensures Valid()
      ensures Abstract() == Restored(old(storedPower), old(storedMode))
      ensures relayWrites == old(relayWrites) + [lightState]
    {
      lightState := Get(storedPower, false);
      currentMode := Get(storedMode, 0);
      if lightState {
        DriveRelay(true);
      } else {
        DriveRelay(false);
      }
    }

    /** One pass of the main loop, with its clock readings and input samples. */
    method Tick(now: Millis, pulseClock: Millis, onState: bool, offState: bool, whiteState: bool, mixState: bool)
      requires Valid()
      modifies this
      ensures Valid()
      ensures Abstract() == Step(old(Abstract()), Sample(now, pulseClock, onState, offState, whiteState, mixState))
      ensures relayWrites == old(relayWrites) + RelayWrites(old(Abstract()), Sample(now, pulseClock, onState, offState, whiteState, mixState))
    {
      if cycling {
        PulseTimer(now, pulseClock);
        return;
      }
      HandleInputs(Sample(now, pulseClock, onState, offState, whiteState, mixState));
    }

    /** The cycling branch of the main loop: complete a pulse once its delay is over. */
    method PulseTimer(now: Millis, pulseClock: Millis)
      requires Valid() && cycling
      modifies this
      ensures Abstract() == PulseStep(old(Abstract()), now, pulseClock)
      ensures relayWrites == old(relayWrites) + PulseWrites(old(Abstract()), now)
    {
      if Elapsed(now, cycleStartTime) >= PowerCycleDelay {
        DriveRelay(true);
        currentMode := (currentMode + 1) % 3;
        storedMode := Some(currentMode);
        cyclesRemaining := cyclesRemaining - 1;
        if cyclesRemaining > 0 {
          StartPowerCycle(pulseClock);
        } else {
          cycling := false;
        }
      }
    }

    /** The idle branch of the main loop: debounced edges on the four lines. */
    method HandleInputs(x: Sample)
      requires Valid() && !cycling
      modifies this
      ensures Abstract() == IdleStep(old(Abstract()), x)
      ensures relayWrites == old(relayWrites) + IdleWrites(old(Abstract()), x)
    {
      ghost var s := Abstract();
      PowerLines(x);
      if !lightState {
        LatchSamples(x);
        return;
      }
      ColourLines(x, s);
      LatchSamples(x);
    }

    /**
     * The ON and OFF handlers in sequence. Whichever fires first renews the
     * shared timestamp, so OFF cannot fire after ON: together they apply the
     * accepted intent unless it is a colour intent.
     */
    method PowerLines(x: Sample)
      requires Valid() && !cycling
      modifies this
      ensures var i := AcceptedIntent(old(Abstract()), x);
        Abstract() == if i.SelectMode? then old(Abstract()) else Apply(old(Abstract()), i, x)
      ensures var i := AcceptedIntent(old(Abstract()), x);
        relayWrites == old(relayWrites) + if i.SelectMode? then [] else IdleWrites(old(Abstract()), x)
    {
      ghost var s := Abstract();
      OnLine(x);
      assert Abstract() == if AcceptedIntent(s, x) == PowerOn then Apply(s, PowerOn, x) else s;
      OffLine(x);
    }

    /**
     * The WHITE and MIX handlers in sequence, reached with the light on. After
     * an accepted ON the timestamp is already renewed and neither fires; a
     * WHITE that fires renews it so that MIX cannot fire after it.
     */
    method ColourLines(x: Sample, ghost s: State)
      requires Inv(s) && !s.cycling && lightState
      requires AcceptedIntent(s, x) != PowerOff
      requires Abstract() == if AcceptedIntent(s, x) == PowerOn then Apply(s, PowerOn, x) else s
      modifies this
      ensures Abstract() == Apply(s, AcceptedIntent(s, x), x)
      ensures relayWrites == old(relayWrites) + if AcceptedIntent(s, x).SelectMode? then IdleWrites(s, x) else []
    {
      ghost var p := Abstract();
      assert p.lastTriggerTime == x.now ==> Elapsed(x.now, p.lastTriggerTime) == 0;
      ColourLine(White, x.whiteState, lastWhiteState, x);
      assert Abstract() == if AcceptedIntent(s, x) == SelectMode(White) then Apply(s, SelectMode(White), x) else p;
      ColourLine(Mix, x.mixState, lastMixState, x);
    }

    /** The ON handler: on a debounced rising edge, power on in Yellow and persist both keys. */
    method OnLine(x: Sample)
      requires 0 <= currentMode < 3
      modifies this
      ensures var fires := Rising(x.onState, old(lastOnState)) && Quiet(old(Abstract()), x);
        Abstract() == if fires then Apply(old(Abstract()), PowerOn, x) else old(Abstract())
      ensures relayWrites == old(relayWrites) +
        if Rising(x.onState, old(lastOnState)) && Quiet(old(Abstract()), x)
        then [true] else []
    {
      if x.onState && !lastOnState {
        if Quiet(Abstract(), x) {
          lightState := true;
          currentMode := Yellow;
          DriveRelay(true);
          storedPower := Some(true);
          storedMode := Some(currentMode);
          lastTriggerTime := x.now;
        }
      }
    }

    /** The OFF handler: on a debounced rising edge, power off and persist the power key. */
    method OffLine(x: Sample)
      requires 0 <= currentMode < 3
      modifies this
      ensures var fires := Rising(x.offState, old(lastOffState)) && Quiet(old(Abstract()), x);
        Abstract() == if fires then Apply(old(Abstract()), PowerOff, x) else old(Abstract())
      ensures relayWrites == old(relayWrites) +
        if Rising(x.offState, old(lastOffState)) && Quiet(old(Abstract()), x)
        then [false] else []
    {
      if x.offState && !lastOffState {
        if Quiet(Abstract(), x) {
          lightState := false;
          DriveRelay(false);
          storedPower := Some(false);
          lastTriggerTime := x.now;
        }
      }
    }

    /** Remember this iteration's samples for the next edge detection. */
    method LatchSamples(x: Sample)
      modifies this`lastOnState, this`lastOffState, this`lastWhiteState, this`lastMixState
      ensures Abstract() == Latch(old(Abstract()), x)
    {
      lastOnState, lastOffState, lastWhiteState, lastMixState := x.onState, x.offState, x.whiteState, x.mixState;
    }

    /**
     * The handler of one colour line (WHITE or MIX): on a debounced rising
     * edge, start the pulses that reach `target`, if any, and renew the shared
     * debounce timestamp.
     */
    method ColourLine(target: ModeIndex, level: bool, last: bool, x: Sample)
      requires 0 <= currentMode < 3
      modifies this
      ensures var fires := Rising(level, last) && Quiet(old(Abstract()), x);
        Abstract() == if fires then Apply(old(Abstract()), SelectMode(target), x) else old(Abstract())
      ensures relayWrites == old(relayWrites) +
        if Rising(level, last) && Quiet(old(Abstract()), x)
           && ForwardDistance(old(currentMode), target) > 0
        then [false] else []
    {
      if level && !last {
        if Quiet(Abstract(), x) {
          var diff := (target - currentMode + 3) % 3;
          if diff > 0 {
            cyclesRemaining := diff;
            StartPowerCycle(x.pulseClock);
          }
          lastTriggerTime := x.now;
        }
      }
    }
  }
}
