/** The one-second time and power arithmetic of a shift and the cadence of the
    antagonist decisions. Power, drain and time are exact reals: every value
    is a finite sum of decimal constants. */
module TimePower {
  import opened Switches
  import opened Constants

  /** Milliseconds between two antagonist decisions: 500 ms faster per night,
      never faster than every 2000 ms. */
  function AiTickRate(night: int): (ms: int)
    ensures ms >= 2000 && ms >= 5000 - night * 500
    ensures ms == 2000 || ms == 5000 - night * 500
  {
    if 5000 - night * 500 > 2000 then 5000 - night * 500 else 2000
  }

  /** A later night decides at least as often; from night 6 on the cadence is
      the 2000 ms floor. */
  lemma AiTickRateNonIncreasing(n: int, m: int)
    requires n <= m
    ensures AiTickRate(m) <= AiTickRate(n)
    ensures m >= 6 ==> AiTickRate(m) == 2000
  {
  }

  // ---------------------------------------------------------------- power

  /** Power drained per second: a base that grows with the night, plus 0.3
      per closed door, 0.5 per lit light and 0.3 for the open monitor. */
  function Drain(night: int, a: Actuators): (d: real)
    ensures 0.15 + (night as real) * 0.05 <= d <= 0.15 + (night as real) * 0.05 + 1.9
    ensures a == ALL_OFF ==> d == 0.15 + (night as real) * 0.05
  {
    var base := 0.15 + (night as real) * 0.05;
    base
    + (if a.leftDoorClosed then 0.3 else 0.0)
    + (if a.rightDoorClosed then 0.3 else 0.0)
    + (if a.leftLightOn then 0.5 else 0.0)
    + (if a.rightLightOn then 0.5 else 0.0)
    + (if a.cameraOpen then 0.3 else 0.0)
  }

  /** Every switch that is on in `a` is on in `b`. */
  predicate Within(a: Actuators, b: Actuators) {
    (a.leftDoorClosed ==> b.leftDoorClosed) &&
    (a.rightDoorClosed ==> b.rightDoorClosed) &&
    (a.leftLightOn ==> b.leftLightOn) &&
    (a.rightLightOn ==> b.rightLightOn) &&
    (a.cameraOpen ==> b.cameraOpen)
  }

  /** Switching on any further actuator strictly increases the drain, and
      the drain never falls below the night's base rate. */
  lemma DrainStrictlyMonotone(night: int, a: Actuators, b: Actuators)
    requires Within(a, b) && a != b
    ensures Drain(night, a) < Drain(night, b)
    ensures Drain(night, ALL_OFF) == 0.15 + (night as real) * 0.05 <= Drain(night, a)
  {
  }

  /** On any real night the drain is positive. */
  lemma DrainPositive(night: int, a: Actuators)
    requires night >= 1
    ensures Drain(night, a) >= 0.2
  {
  }

  /** The least integer not below `x`. */
  function Ceil(x: real): (r: int)
    ensures r as real - 1.0 < x <= r as real
  {
    if x.Floor as real == x then x.Floor else x.Floor + 1
  }

  /** The usage indicator: the drain counted in quarter units, rounded up. */
  function Usage(drain: real): (u: int)
    ensures (u as real) - 1.0 < drain * 4.0 <= u as real
  {
    Ceil(drain * 4.0)
  }

  /** More drain never shows less usage. */
  lemma UsageMonotone(d1: real, d2: real)
    requires d1 <= d2
    ensures Usage(d1) <= Usage(d2)
  {
  }

  /** Some values of the usage indicator: an idle office on night 1 shows 1,
      on night 5 it shows 2; both doors shut and one light on night 1 shows 6. */
  lemma UsageExamples()
    ensures Usage(Drain(1, ALL_OFF)) == 1
    ensures Usage(Drain(5, ALL_OFF)) == 2
    ensures Usage(Drain(1, Actuators(true, true, true, false, false))) == 6
  {
    assert Drain(1, Actuators(true, true, true, false, false)) == 1.3;
  }

  /** The result of draining one second of power. */
  datatype PowerStep = PowerStep(power: real, blackout: bool)

  /** Subtracts the drain; when nothing would be left, power is clamped to 0
      and a blackout is signalled. */
  function DrainPower(p: real, drain: real): (r: PowerStep)
    ensures r.blackout <==> p - drain <= 0.0
    ensures r.power >= 0.0
    ensures 0.0 <= drain && 0.0 <= p ==> r.power <= p
    ensures !r.blackout ==> r.power == p - drain
    ensures r.blackout ==> r.power == 0.0
  {
    var newP := p - drain;
    if newP <= 0.0 then PowerStep(0.0, true) else PowerStep(newP, false)
  }

  /** Power left after `n` uninterrupted ticks at a fixed drain. */
  function PowerAfter(p: real, drain: real, n: nat): real {
    if n == 0 then p else DrainPower(PowerAfter(p, drain, n - 1), drain).power
  }

  /** At a fixed positive drain, power falls linearly until it would cross
      zero and then stays at exactly zero. */
  lemma {:induction false} PowerAfterClosedForm(p: real, drain: real, n: nat)
    requires p >= 0.0 && drain > 0.0
    ensures PowerAfter(p, drain, n)
         == if p - (n as real) * drain > 0.0 then p - (n as real) * drain else 0.0
  {
    if n > 0 {
      PowerAfterClosedForm(p, drain, n - 1);
      assert (n as real) * drain == ((n - 1) as real) * drain + drain;
    }
  }

  /** Fewer than Ceil(p / drain) ticks drain less than `p`; that many drain
      at least `p`. */
  lemma CeilTicks(p: real, drain: real, n: nat)
    requires p >= 0.0 && drain > 0.0
    ensures n < Ceil(p / drain) ==> (n as real) * drain < p
    ensures n == Ceil(p / drain) ==> (n as real) * drain >= p
  {
  }

  /** The blackout comes at tick Ceil(p / drain): power is still positive
      before it and exactly zero at it. */
  lemma BlackoutTick(p: real, drain: real)
    requires p >= 0.0 && drain > 0.0
    ensures Ceil(p / drain) >= 0
    ensures PowerAfter(p, drain, Ceil(p / drain) as nat) == 0.0
    ensures forall n: nat :: n < Ceil(p / drain) ==> PowerAfter(p, drain, n) > 0.0
  {
    var k := Ceil(p / drain);
    assert k >= 0;
    CeilTicks(p, drain, k as nat);
    PowerAfterClosedForm(p, drain, k as nat);
    forall n: nat | n < k
      ensures PowerAfter(p, drain, n) > 0.0
    {
      CeilTicks(p, drain, n);
      PowerAfterClosedForm(p, drain, n);
    }
  }

  /** Night 1, both doors shut and one light on: 1.3 per second, so a full
      battery lasts 76 ticks and the blackout falls on tick 77. */
  lemma FullBatteryBothDoorsOneLight()
    ensures Drain(1, Actuators(true, true, true, false, false)) == 1.3
    ensures Ceil(100.0 / 1.3) == 77
    ensures PowerAfter(100.0, 1.3, 76) > 0.0
    ensures PowerAfter(100.0, 1.3, 77) == 0.0
  {
    BlackoutTick(100.0, 1.3);
  }

  // ----------------------------------------------------------------- time

  /** In-game hours gained per one-second tick. */
  function HourIncrement(hourLengthMs: int): (inc: real)
    requires hourLengthMs > 0
    ensures inc > 0.0
    ensures inc * (hourLengthMs as real) == 1000.0
  {
    1000.0 / (hourLengthMs as real)
  }

  /** The result of one time tick. */
  datatype TimeStep = TimeStep(time: real, won: bool)

  /** Adds the increment; reaching hour 6 clamps the clock to exactly 6 and
      signals the end of the shift. */
  function AdvanceTime(t: real, inc: real): (r: TimeStep)
    ensures r.won <==> t + inc >= 6.0
    ensures r.time <= 6.0 && r.time <= t + inc
    ensures t <= 6.0 && inc >= 0.0 ==> t <= r.time
    ensures !r.won ==> r.time == t + inc
    ensures r.won ==> r.time == 6.0
  {
    var newTime := t + inc;
    if newTime >= 6.0 then TimeStep(6.0, true) else TimeStep(newTime, false)
  }

  /** The clock after `n` uninterrupted ticks. */
  function TimeAfter(t: real, inc: real, n: nat): real {
    if n == 0 then t else AdvanceTime(TimeAfter(t, inc, n - 1), inc).time
  }

  /** Whether tick number `n + 1` of an uninterrupted run ends the shift. */
  predicate WinsOnTick(t: real, inc: real, n: nat) {
    AdvanceTime(TimeAfter(t, inc, n), inc).won
  }

  /** The clock rises linearly and then stays at exactly 6. */
  lemma {:induction false} TimeAfterClosedForm(t: real, inc: real, n: nat)
    requires 0.0 <= t <= 6.0 && inc > 0.0
    ensures TimeAfter(t, inc, n)
         == if t + (n as real) * inc >= 6.0 then 6.0 else t + (n as real) * inc
  {
    if n > 0 {
      TimeAfterClosedForm(t, inc, n - 1);
      assert (n as real) * inc == ((n - 1) as real) * inc + inc;
    }
  }

  /** Tick `n + 1` ends the shift exactly when `n + 1` increments reach hour 6. */
  lemma WinsOnTickExactly(t: real, inc: real, n: nat)
    requires 0.0 <= t <= 6.0 && inc > 0.0
    ensures WinsOnTick(t, inc, n) <==> t + ((n + 1) as real) * inc >= 6.0
  {
    TimeAfterClosedForm(t, inc, n);
    assert ((n + 1) as real) * inc == (n as real) * inc + inc;
  }

  /** With the default hour length a night is exactly 48 ticks: ticks 1..47
      do not end it, tick 48 does and leaves the clock at 6. */
  lemma DefaultNightLasts48Ticks()
    ensures HourIncrement(HOUR_DURATION_MS) == HourIncrement(DEFAULT_SETTINGS.hourLengthMs) == 0.125
    ensures forall n: nat :: n < 47 ==> !WinsOnTick(0.0, 0.125, n)
    ensures WinsOnTick(0.0, 0.125, 47)
    ensures TimeAfter(0.0, 0.125, 48) == 6.0
  {
    forall n: nat | n < 47
      ensures !WinsOnTick(0.0, 0.125, n)
    {
      WinsOnTickExactly(0.0, 0.125, n);
    }
    WinsOnTickExactly(0.0, 0.125, 47);
    TimeAfterClosedForm(0.0, 0.125, 48);
  }
}
