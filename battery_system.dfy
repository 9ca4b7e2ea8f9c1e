/**
 * The per-car battery of AGVBatterySystem.cs: a charge that drains (faster while the car moves)
 * or charges every frame, clamped to [0, 100]; a timer that switches charging on and off on a
 * fixed cycle; and the colour band and slider value shown for the charge.
 *
 * Unity's `Update` becomes `Update(dt)`. The slider and the fill image are Inspector references
 * that may be unassigned, so each is an `Option` of the value it shows.
 */
module Battery {
  import opened UnityTypes
  import opened MovingObjectState

  /** The Inspector defaults of a freshly added component. */
  const DefaultInitialBattery := 100.0
  const DefaultDrainRateWhileMoving := 5.0
  const DefaultDrainRateWhileIdle := 0.1
  const DefaultLowBatteryThreshold := 20.0
  const DefaultChargingRate := 2.0

  /** The charging cycle's half period, in seconds (the private field `spawnIntervalS`). */
  const ChargingInterval := 5.0

  const FullCharge := 100.0

  /** The three colours of the fill image: fullBatteryColor, mediumBatteryColor, lowBatteryColor. */
  datatype BatteryColour = FullColour | MediumColour | LowColour

  // ------------------------------------------------------------------ charge

  /** The drain rate in force: the moving rate while the (copied) movement record says moving. */
  function DrainRate(isMoving: bool, drainRateWhileMoving: real, drainRateWhileIdle: real): (rate: real)
    ensures isMoving ==> rate == drainRateWhileMoving
    ensures !isMoving ==> rate == drainRateWhileIdle
  {
    if isMoving then drainRateWhileMoving else drainRateWhileIdle
  }

  /**
   * UpdateBatteryState's new charge: charging adds chargingRate·dt, otherwise the drain rate
   * times dt is taken away, and the result is clamped to [0, 100].
   */
  function NextBattery(battery: real, charging: bool, isMoving: bool, drainRateWhileMoving: real,
                       drainRateWhileIdle: real, chargingRate: real, dt: real): (b: real)
    ensures 0.0 <= b <= FullCharge
    ensures charging && 0.0 <= battery <= FullCharge && 0.0 <= chargingRate * dt ==> battery <= b
    ensures charging && 0.0 <= battery + chargingRate * dt <= FullCharge ==> b == battery + chargingRate * dt
    ensures charging && battery + chargingRate * dt > FullCharge ==> b == FullCharge
    ensures charging && battery + chargingRate * dt < 0.0 ==> b == 0.0
    ensures !charging && 0.0 <= battery <= FullCharge && 0.0 <= DrainRate(isMoving, drainRateWhileMoving, drainRateWhileIdle) * dt
            ==> b <= battery
    ensures !charging && 0.0 <= battery - DrainRate(isMoving, drainRateWhileMoving, drainRateWhileIdle) * dt <= FullCharge
            ==> b == battery - DrainRate(isMoving, drainRateWhileMoving, drainRateWhileIdle) * dt
    ensures !charging && battery - DrainRate(isMoving, drainRateWhileMoving, drainRateWhileIdle) * dt < 0.0 ==> b == 0.0
    ensures !charging && battery - DrainRate(isMoving, drainRateWhileMoving, drainRateWhileIdle) * dt > FullCharge
            ==> b == FullCharge
  {
    if charging then
      Clamp(battery + chargingRate * dt, 0.0, FullCharge)
    else
      Clamp(battery - DrainRate(isMoving, drainRateWhileMoving, drainRateWhileIdle) * dt, 0.0, FullCharge)
  }

  // ------------------------------------------------------------------ charging cycle

  /**
   * CheckChargingStatus on the timer: it counts down by dt and is reset to the interval once it
   * reaches −interval; charging is on exactly while the timer is not negative.
   */
  function ChargeCycle(timer: real, interval: real, dt: real): (r: (real, bool))
    ensures r.1 <==> 0.0 <= r.0
    ensures timer - dt <= -interval ==> r.0 == interval
    ensures -interval < timer - dt ==> r.0 == timer - dt
    ensures 0.0 < interval && 0.0 <= dt && -interval < timer <= interval ==> -interval < r.0 <= interval
  {
    var counted := timer - dt;
    var reset := if counted <= -interval then interval else counted;
    (reset, 0.0 <= reset)
  }

  /** The timer after `n` frames of length dt. */
  function TimerAfter(timer: real, interval: real, dt: real, n: nat): real {
    if n == 0 then timer else ChargeCycle(TimerAfter(timer, interval, dt, n - 1), interval, dt).0
  }

  /** A timer inside (−interval, interval] never leaves it, whatever the frame length. */
  lemma {:induction false} TimerStaysInWindow(timer: real, interval: real, dt: real, n: nat)
    requires 0.0 < interval && 0.0 <= dt && -interval < timer <= interval
    ensures -interval < TimerAfter(timer, interval, dt, n) <= interval
  {
    if n > 0 {
      TimerStaysInWindow(timer, interval, dt, n - 1);
    }
  }

  /**
   * With one-second frames, from the initial timer 0 charging stays off for four frames and comes
   * on in the fifth, when the timer is reset to 5. From then on the cycle repeats every ten
   * frames: six frames charging (timer 5 down to 0), four frames draining (timer −1 to −4).
   */
  lemma OneSecondFramesCycle()
    ensures forall k | 1 <= k <= 4 :: TimerAfter(0.0, ChargingInterval, 1.0, k) < 0.0
    ensures TimerAfter(0.0, ChargingInterval, 1.0, 5) == ChargingInterval
    ensures forall k | 0 <= k <= 5 :: 0.0 <= TimerAfter(ChargingInterval, ChargingInterval, 1.0, k)
    ensures forall k | 6 <= k <= 9 :: TimerAfter(ChargingInterval, ChargingInterval, 1.0, k) < 0.0
    ensures TimerAfter(ChargingInterval, ChargingInterval, 1.0, 10) == ChargingInterval
  {
    forall k | 0 <= k <= 4
      ensures TimerAfter(0.0, ChargingInterval, 1.0, k) == -(k as real)
    {
      TimerCountsDown(0.0, k);
    }
    forall k | 0 <= k <= 9
      ensures TimerAfter(ChargingInterval, ChargingInterval, 1.0, k) == ChargingInterval - k as real
    {
      TimerCountsDown(ChargingInterval, k);
    }
  }

  /** Before a reset, each one-second frame takes one off the timer. */
  lemma {:induction false} TimerCountsDown(timer: real, k: nat)
    requires timer - k as real > -ChargingInterval
    ensures TimerAfter(timer, ChargingInterval, 1.0, k) == timer - k as real
  {
    if k > 0 {
      TimerCountsDown(timer, k - 1);
    }
  }

  // ------------------------------------------------------------------ display

  /** The fill colour for a charge: above 50 full, above 20 medium, otherwise low. */
  function Band(battery: real): (c: BatteryColour)
    ensures c == FullColour <==> 50.0 < battery
    ensures c == MediumColour <==> 20.0 < battery <= 50.0
    ensures c == LowColour <==> battery <= 20.0
  {
    if battery > 50.0 then FullColour
    else if battery > 20.0 then MediumColour
    else LowColour
  }

  /** Colours ordered from low to full. */
  function Rank(c: BatteryColour): nat {
    match c
    case LowColour => 0
    case MediumColour => 1
    case FullColour => 2
  }

  /** More charge never shows a lower colour. */
  lemma BandMonotone(lower: real, higher: real)
    requires lower <= higher
    ensures Rank(Band(lower)) <= Rank(Band(higher))
  {
  }

  /** The slider position for a charge: the charge as a fraction of 100. */
  function SliderValue(battery: real): (v: real)
    ensures v * FullCharge == battery
    ensures 0.0 <= battery <= FullCharge ==> 0.0 <= v <= 1.0
  {
    battery / FullCharge
  }

  // ------------------------------------------------------------------ the component

  class AGVBatterySystem {
    const initialBattery: real
    const drainRateWhileMoving: real
    const drainRateWhileIdle: real
    const lowBatteryThreshold: real
    const chargingRate: real
    /** The length of each charging and draining phase (`spawnIntervalS`, 5). */
    const spawnIntervalS: real

    /** The slider, when one is assigned, with the value it shows. */
    var batterySlider: Option<real>
    /** The fill image, when one is assigned, with the colour it shows. */
    var batteryFill: Option<BatteryColour>

    var currentBattery: real
    var isCharging: bool
    /** A copy of the spawner's movement record, taken when SetMovingObject was last called. */
    var movingObject: MovingObject
    /** The charging-cycle timer (`spawnTimerS`). */
    var spawnTimerS: real

    /** The component as added to a car: field initialisers only; Start has not run yet. */
    constructor (initialBattery: real, drainRateWhileMoving: real, drainRateWhileIdle: real,
                 lowBatteryThreshold: real, chargingRate: real,
                 batterySlider: Option<real>, batteryFill: Option<BatteryColour>)
      requires 0.0 <= initialBattery <= FullCharge && 0.0 <= lowBatteryThreshold <= 30.0
      ensures this.initialBattery == initialBattery && this.drainRateWhileMoving == drainRateWhileMoving
      ensures this.drainRateWhileIdle == drainRateWhileIdle && this.lowBatteryThreshold == lowBatteryThreshold
      ensures this.chargingRate == chargingRate && spawnIntervalS == ChargingInterval
      ensures this.batterySlider == batterySlider && this.batteryFill == batteryFill
      ensures currentBattery == 0.0 && !isCharging && movingObject == Unset && spawnTimerS == 0.0
    {
      this.initialBattery := initialBattery;
      this.drainRateWhileMoving := drainRateWhileMoving;
      this.drainRateWhileIdle := drainRateWhileIdle;
      this.lowBatteryThreshold := lowBatteryThreshold;
      this.chargingRate := chargingRate;
      this.spawnIntervalS := ChargingInterval;
      this.batterySlider := batterySlider;
      this.batteryFill := batteryFill;
      currentBattery := 0.0;
      isCharging := false;
      movingObject := Unset;
      spawnTimerS := 0.0;
    }

    /** Start: the charge begins at initialBattery and the display shows it. */
    method Start()
      modifies this
      ensures currentBattery == initialBattery
      ensures batterySlider == (if old(batterySlider).Some? then Some(SliderValue(initialBattery)) else None)
      ensures batteryFill == (if old(batteryFill).Some? then Some(Band(initialBattery)) else None)
      ensures isCharging == old(isCharging) && movingObject == old(movingObject) && spawnTimerS == old(spawnTimerS)
    {
      currentBattery := initialBattery;
      UpdateBatteryUI();
    }

    /** One frame: the charge changes under the old charging flag, then the cycle sets the flag. */
    method Update(dt: real)
      modifies this
      ensures currentBattery == NextBattery(old(currentBattery), old(isCharging), movingObject.isMoving,
                                            drainRateWhileMoving, drainRateWhileIdle, chargingRate, dt)
      ensures (spawnTimerS, isCharging) == ChargeCycle(old(spawnTimerS), spawnIntervalS, dt)
      ensures batterySlider == (if old(batterySlider).Some? then Some(SliderValue(currentBattery)) else None)
      ensures batteryFill == (if old(batteryFill).Some? then Some(Band(currentBattery)) else None)
      ensures movingObject == old(movingObject)
    {
      UpdateBatteryState(dt);
      CheckChargingStatus(dt);
    }

    /** SetMovingObject: stores a copy of the record; later changes to the spawner's copy are not seen. */
    method SetMovingObject(obj: MovingObject)
      modifies this
      ensures movingObject == obj
      ensures currentBattery == old(currentBattery) && isCharging == old(isCharging) && spawnTimerS == old(spawnTimerS)
      ensures batterySlider == old(batterySlider) && batteryFill == old(batteryFill)
    {
      movingObject := obj;
    }

    /** UpdateBatteryState: charge or drain for dt, clamp, and refresh the display. */
    method UpdateBatteryState(dt: real)
      modifies this
      ensures currentBattery == NextBattery(old(currentBattery), isCharging, movingObject.isMoving,
                                            drainRateWhileMoving, drainRateWhileIdle, chargingRate, dt)
      ensures batterySlider == (if old(batterySlider).Some? then Some(SliderValue(currentBattery)) else None)
      ensures batteryFill == (if old(batteryFill).Some? then Some(Band(currentBattery)) else None)
      ensures isCharging == old(isCharging) && movingObject == old(movingObject) && spawnTimerS == old(spawnTimerS)
    {
      if isCharging {
        currentBattery := currentBattery + chargingRate * dt;
        currentBattery := Clamp(currentBattery, 0.0, FullCharge);
      } else {
        var drainRate := if movingObject.isMoving then drainRateWhileMoving else drainRateWhileIdle;
        currentBattery := currentBattery - drainRate * dt;
        currentBattery := Clamp(currentBattery, 0.0, FullCharge);
      }
      UpdateBatteryUI();
    }

    /** CheckChargingStatus: one step of the charging cycle. */
    method CheckChargingStatus(dt: real)
      modifies this
      ensures (spawnTimerS, isCharging) == ChargeCycle(old(spawnTimerS), spawnIntervalS, dt)
      ensures currentBattery == old(currentBattery) && movingObject == old(movingObject)
      ensures batterySlider == old(batterySlider) && batteryFill == old(batteryFill)
    {
      spawnTimerS := spawnTimerS - dt;
      if spawnTimerS <= -spawnIntervalS {
        spawnTimerS := spawnIntervalS;
      }
      if spawnTimerS <= 0.0 {
        isCharging := false;
      }
      if spawnTimerS >= 0.0 {
        isCharging := true;
      }
    }

    /** UpdateBatteryUI: every assigned widget shows the current charge. */
    method UpdateBatteryUI()
      modifies this
      ensures batterySlider == (if old(batterySlider).Some? then Some(SliderValue(currentBattery)) else None)
      ensures batteryFill == (if old(batteryFill).Some? then Some(Band(currentBattery)) else None)
      ensures currentBattery == old(currentBattery) && isCharging == old(isCharging)
      ensures movingObject == old(movingObject) && spawnTimerS == old(spawnTimerS)
    {
      if batterySlider.Some? {
        batterySlider := Some(currentBattery / 100.0);
      }
      if batteryFill.Some? {
        if currentBattery > 50.0 {
          batteryFill := Some(FullColour);
        } else if currentBattery > 20.0 {
          batteryFill := Some(MediumColour);
        } else {
          batteryFill := Some(LowColour);
        }
      }
    }

    /** GetCurrentBattery: reads the charge and changes nothing. */
    method GetCurrentBattery() returns (battery: real)
      ensures battery == currentBattery
    {
      battery := currentBattery;
    }

    /** IsCharging: reads the charging flag and changes nothing. */
    method IsCharging() returns (charging: bool)
      ensures charging == isCharging
    {
      charging := isCharging;
    }

    /**
     * IsLowBattery: the charge is under the threshold. With a threshold of at most 20, a low
     * battery always shows the low colour.
     */
    method IsLowBattery() returns (low: bool)
      ensures low <==> currentBattery < lowBatteryThreshold
      ensures low && lowBatteryThreshold <= 20.0 ==> Band(currentBattery) == LowColour
    {
      low := currentBattery < lowBatteryThreshold;
    }

    /** SetCharging: sets the charging flag and nothing else. */
    method SetCharging(charging: bool)
      modifies this
      ensures isCharging == charging
      ensures currentBattery == old(currentBattery) && movingObject == old(movingObject) && spawnTimerS == old(spawnTimerS)
      ensures batterySlider == old(batterySlider) && batteryFill == old(batteryFill)
    {
      isCharging := charging;
    }
  }
}
