/** The telemetry source of the CanSat dashboard: a simulated clock and four
    fixed-length history buffers (a static velocity time axis, the velocity
    samples, a scrolling g-force time axis and the g-force samples). Every tick
    advances the clock, produces one packet of readings and scrolls the buffers
    left by one sample.

    The sine, exponential and Gaussian terms of the readings are floating-point
    numerics and randomness; they are supplied to each tick as a `Draw` of
    opaque reals. */
module TelemetrySimulator {

  /** Number of samples in every history buffer. */
  const HistoryLength: nat := 100
  /** The step the dashboard passes to every tick. */
  const DefaultStep: real := 0.5
  /** Per-tick advance of the g-force time axis; it does not depend on the step. */
  const GForceAxisStep: real := 0.055
  const MinLatency: real := 10.0
  const MaxLatency: real := 100.0

  function Max(a: real, b: real): real { if a >= b then a else b }
  function Min(a: real, b: real): real { if a <= b then a else b }

  /** `max(lo, min(hi, x))`: saturate `x` to the closed interval [lo, hi]. */
  function Clamp(lo: real, hi: real, x: real): (r: real)
    requires lo <= hi
    ensures lo <= r <= hi
    ensures lo <= x <= hi ==> r == x
    ensures x <= lo ==> r == lo
    ensures hi <= x ==> r == hi
  {
    Max(lo, Min(hi, x))
  }

  /** `max(0, x)`: the clamp applied to velocity and g-force samples. */
  function NonNegative(x: real): (r: real)
    ensures r >= 0.0
    ensures x >= 0.0 ==> r == x
    ensures x <= 0.0 ==> r == 0.0
  {
    Max(0.0, x)
  }

  ghost predicate StrictlyIncreasing(s: seq<real>) {
    forall i, j :: 0 <= i < j < |s| ==> s[i] < s[j]
  }

  ghost predicate AllNonNegative(s: seq<real>) {
    forall i :: 0 <= i < |s| ==> s[i] >= 0.0
  }

  /** `np.linspace(lo, hi, n)`: n evenly spaced points from lo to hi inclusive. */
  function Linspace(lo: real, hi: real, n: nat): (r: seq<real>)
    requires n >= 2
    ensures |r| == n && r[0] == lo && r[n - 1] == hi
  {
    var step := (hi - lo) / ((n - 1) as real);
    seq(n, i requires 0 <= i < n => lo + (i as real) * step)
  }

  lemma LinspaceIncreasing(lo: real, hi: real, n: nat)
    requires n >= 2 && lo < hi
    ensures StrictlyIncreasing(Linspace(lo, hi, n))
  {
    var r := Linspace(lo, hi, n);
    var step := (hi - lo) / ((n - 1) as real);
    assert step > 0.0;
    forall i, j | 0 <= i < j < n
      ensures r[i] < r[j]
    {
      assert r[j] - r[i] == ((j - i) as real) * step;
      assert ((j - i) as real) * step > 0.0;
    }
  }

  function Zeros(n: nat): (r: seq<real>)
    ensures |r| == n && AllNonNegative(r)
  {
    seq(n, _ => 0.0)
  }

  /** The fixed velocity time axis: the last 120 seconds. */
  function VelocityAxis(): seq<real> { Linspace(-120.0, 0.0, HistoryLength) }

  /** The initial g-force time axis. */
  function GForceAxis(): seq<real> { Linspace(-1.5, 4.0, HistoryLength) }

  /** The opaque terms of one tick. Each `...Wave` is the value of the sine the
      `get_next` evaluates at the new clock (`sin(t/10)` for pressure, `sin(t/15 + 1)`
      for temperature, `sin(t/8)` for altitude, `sin(t/7)` for the altitude
      rate, `sin(t/20)` for velocity); `gforcePulse` is the value of
      `exp(-((t mod 30) - 15)^2 / 50)`; each `...Noise` is one normal draw
      (standard deviations 0.1, 0.2, 3, 1 and 0.3). */
  datatype Draw = Draw(
    pressureWave: real, pressureNoise: real,
    temperatureWave: real, temperatureNoise: real,
    altitudeWave: real,
    rateWave: real,
    latencyNoise: real,
    velocityWave: real, velocityNoise: real,
    gforcePulse: real, gforceNoise: real)

  /** The scalar fields of one telemetry packet. */
  datatype Reading = Reading(
    pressure: real, temperature: real, altitude: real, altitudeRate: real,
    latency: real, newVelocity: real, newGforce: real)

  /** The readings of the tick whose clock, after the advance, is `clock`. */
  function Sense(clock: real, d: Draw): (r: Reading)
    ensures MinLatency <= r.latency <= MaxLatency
    ensures MinLatency <= 24.0 + d.latencyNoise <= MaxLatency ==> r.latency == 24.0 + d.latencyNoise
    ensures r.newVelocity >= 0.0 && r.newGforce >= 0.0
    ensures 15.0 + 10.0 * d.velocityWave + d.velocityNoise >= 0.0 ==>
              r.newVelocity == 15.0 + 10.0 * d.velocityWave + d.velocityNoise
    ensures -1.0 <= d.rateWave <= 1.0 ==> 4.4 <= r.altitudeRate <= 20.4
    ensures -1.0 <= d.altitudeWave <= 1.0 ==>
              1195.8 + clock * 2.5 <= r.altitude <= 1295.8 + clock * 2.5
  {
    Reading(
      pressure := 101.3 + d.pressureWave * 2.0 + d.pressureNoise,
      temperature := 24.8 + d.temperatureWave * 3.0 + d.temperatureNoise,
      altitude := 1245.8 + clock * 2.5 + d.altitudeWave * 50.0,
      altitudeRate := 12.4 + d.rateWave * 8.0,
      latency := Clamp(MinLatency, MaxLatency, 24.0 + d.latencyNoise),
      newVelocity := NonNegative(15.0 + 10.0 * d.velocityWave + d.velocityNoise),
      newGforce := NonNegative(2.0 + 3.0 * d.gforcePulse + d.gforceNoise))
  }

  /** `np.roll(s, -1)`: every element moves one place left, the first wraps to the end. */
  function Rotated(s: seq<real>): (r: seq<real>)
    requires |s| > 0
    ensures |r| == |s| && r[|s| - 1] == s[0]
    ensures forall i :: 0 <= i < |s| - 1 ==> r[i] == s[i + 1]
  {
    s[1..] + [s[0]]
  }

  /** Rolling only reorders: the rolled buffer holds the same values, each as
      often as before. */
  lemma RotatedPermutes(s: seq<real>)
    requires |s| > 0
    ensures multiset(Rotated(s)) == multiset(s)
  {
    assert s == [s[0]] + s[1..];
  }

  /** Roll left, then overwrite the last slot with `x`: the oldest sample is
      dropped and `x` becomes the newest. */
  function Slide(s: seq<real>, x: real): (r: seq<real>)
    requires |s| > 0
    ensures |r| == |s| && r[|s| - 1] == x
    ensures forall i :: 0 <= i < |s| - 1 ==> r[i] == s[i + 1]
  {
    Rotated(s)[|s| - 1 := x]
  }

  /** The g-force time axis after one tick: roll left, then the last slot is the
      slot before it (the old last time) plus the fixed axis step. */
  function AxisStep(t: seq<real>): (r: seq<real>)
    requires |t| >= 2
    ensures r == Slide(t, t[|t| - 1] + GForceAxisStep)
  {
    var rolled := Rotated(t);
    rolled[|t| - 1 := rolled[|t| - 2] + GForceAxisStep]
  }

  /** The simulator's whole state as a value. */
  datatype SimState = SimState(
    elapsed: real,
    velocityTime: seq<real>, velocityData: seq<real>,
    gforceTime: seq<real>, gforceData: seq<real>)

  predicate WellFormed(s: SimState) {
    |s.velocityTime| == HistoryLength && |s.velocityData| == HistoryLength &&
    |s.gforceTime| == HistoryLength && |s.gforceData| == HistoryLength
  }

  /** What every reachable state satisfies: constant lengths, the static
      velocity axis, an increasing g-force axis and clamped samples. */
  ghost predicate Inv(s: SimState) {
    WellFormed(s) &&
    s.velocityTime == VelocityAxis() &&
    StrictlyIncreasing(s.gforceTime) &&
    AllNonNegative(s.velocityData) && AllNonNegative(s.gforceData)
  }

  /** The state after construction and after every reset. */
  function Startup(): (s: SimState)
    ensures s.elapsed == 0.0
    ensures |s.velocityTime| == |s.velocityData| == |s.gforceTime| == |s.gforceData| == HistoryLength
    ensures s.velocityTime[0] == -120.0 && s.velocityTime[HistoryLength - 1] == 0.0
    ensures s.gforceTime[0] == -1.5 && s.gforceTime[HistoryLength - 1] == 4.0
    ensures forall i :: 0 <= i < HistoryLength ==> s.velocityData[i] == 0.0 && s.gforceData[i] == 0.0
  {
    SimState(0.0, VelocityAxis(), Zeros(HistoryLength), GForceAxis(), Zeros(HistoryLength))
  }

  lemma StartupInv()
    ensures Inv(Startup()) && Startup().elapsed == 0.0
  {
    LinspaceIncreasing(-1.5, 4.0, HistoryLength);
  }

  /** One tick on values: what `get_next(dt)` does to the state. */
  function Step(s: SimState, dt: real, d: Draw): (r: SimState)
    requires WellFormed(s)
    ensures WellFormed(r)
    ensures r.elapsed == s.elapsed + dt
    ensures r.velocityTime == s.velocityTime
  {
    var clock := s.elapsed + dt;
    var reading := Sense(clock, d);
    SimState(
      clock,
      s.velocityTime,
      Slide(s.velocityData, reading.newVelocity),
      AxisStep(s.gforceTime),
      Slide(s.gforceData, reading.newGforce))
  }

  lemma SlideKeepsNonNegative(s: seq<real>, x: real)
    requires |s| > 0 && AllNonNegative(s) && x >= 0.0
    ensures AllNonNegative(Slide(s, x))
  {
    var r := Slide(s, x);
    forall i | 0 <= i < |r|
      ensures r[i] >= 0.0
    {
      if i < |s| - 1 {
        assert r[i] == s[i + 1];
      }
    }
  }

  lemma AxisStepIncreasing(t: seq<real>)
    requires |t| >= 2 && StrictlyIncreasing(t)
    ensures StrictlyIncreasing(AxisStep(t))
  {
    var r := AxisStep(t);
    var n := |t|;
    forall i, j | 0 <= i < j < n
      ensures r[i] < r[j]
    {
      assert r[i] == t[i + 1];
      if j < n - 1 {
        assert r[j] == t[j + 1];
      } else {
        assert r[j] == t[n - 1] + GForceAxisStep;
        assert t[i + 1] <= t[n - 1] by {
          if i + 1 < n - 1 { assert t[i + 1] < t[n - 1]; }
        }
      }
    }
  }

  /** A tick slides both data windows and the g-force axis by one place: the
      oldest entry drops out, every other entry moves one slot towards the
      front, and the last slot holds the fresh sample (the next axis time). */
  lemma StepShiftsWindows(s: SimState, dt: real, d: Draw)
    requires WellFormed(s)
    ensures var r := Step(s, dt, d);
            forall i :: 0 <= i < HistoryLength - 1 ==>
              r.velocityData[i] == s.velocityData[i + 1] &&
              r.gforceTime[i] == s.gforceTime[i + 1] &&
              r.gforceData[i] == s.gforceData[i + 1]
    ensures var r := Step(s, dt, d);
            var x := Sense(s.elapsed + dt, d);
            r.velocityData[HistoryLength - 1] == x.newVelocity &&
            r.gforceData[HistoryLength - 1] == x.newGforce &&
            r.gforceTime[HistoryLength - 1] == s.gforceTime[HistoryLength - 1] + GForceAxisStep
  {
  }

  /** A tick preserves the state invariant. */
  lemma StepPreservesInv(s: SimState, dt: real, d: Draw)
    requires Inv(s)
    ensures Inv(Step(s, dt, d))
  {
    var reading := Sense(s.elapsed + dt, d);
    SlideKeepsNonNegative(s.velocityData, reading.newVelocity);
    SlideKeepsNonNegative(s.gforceData, reading.newGforce);
    AxisStepIncreasing(s.gforceTime);
  }

  /** The g-force axis moves by exactly the fixed axis step, whatever the
      clock step and the draw. */
  lemma AxisIndependentOfStep(s: SimState, dt1: real, d1: Draw, dt2: real, d2: Draw)
    requires WellFormed(s)
    ensures Step(s, dt1, d1).gforceTime == Step(s, dt2, d2).gforceTime
    ensures Step(s, dt1, d1).gforceTime[HistoryLength - 1] == s.gforceTime[HistoryLength - 1] + GForceAxisStep
  {
  }

  function Sum(xs: seq<real>): real {
    if xs == [] then 0.0 else xs[0] + Sum(xs[1..])
  }

  /** A run of ticks, one per step and draw. */
  function Run(s: SimState, dts: seq<real>, draws: seq<Draw>): (r: SimState)
    requires WellFormed(s) && |dts| == |draws|
    ensures WellFormed(r)
    decreases |dts|
  {
    if dts == [] then s else Run(Step(s, dts[0], draws[0]), dts[1..], draws[1..])
  }

  /** The velocity samples a run generates, in order. */
  function VelocitySamples(s: SimState, dts: seq<real>, draws: seq<Draw>): (r: seq<real>)
    requires WellFormed(s) && |dts| == |draws|
    ensures |r| == |dts|
    decreases |dts|
  {
    if dts == [] then []
    else [Sense(s.elapsed + dts[0], draws[0]).newVelocity] +
         VelocitySamples(Step(s, dts[0], draws[0]), dts[1..], draws[1..])
  }

  /** The clock after a run is the start clock plus the sum of the steps,
      whatever was drawn. */
  lemma {:induction false} RunClock(s: SimState, dts: seq<real>, draws: seq<Draw>)
    requires WellFormed(s) && |dts| == |draws|
    ensures Run(s, dts, draws).elapsed == s.elapsed + Sum(dts)
    decreases |dts|
  {
    if dts != [] {
      RunClock(Step(s, dts[0], draws[0]), dts[1..], draws[1..]);
    }
  }

  /** A run keeps the state invariant. */
  lemma {:induction false} RunPreservesInv(s: SimState, dts: seq<real>, draws: seq<Draw>)
    requires Inv(s) && |dts| == |draws|
    ensures Inv(Run(s, dts, draws))
    decreases |dts|
  {
    if dts != [] {
      StepPreservesInv(s, dts[0], draws[0]);
      RunPreservesInv(Step(s, dts[0], draws[0]), dts[1..], draws[1..]);
    }
  }

  /** After n ticks the newest g-force time is the start one plus n axis steps. */
  lemma {:induction false} RunGForceAxis(s: SimState, dts: seq<real>, draws: seq<Draw>)
    requires WellFormed(s) && |dts| == |draws|
    ensures Run(s, dts, draws).gforceTime[HistoryLength - 1] ==
            s.gforceTime[HistoryLength - 1] + (|dts| as real) * GForceAxisStep
    decreases |dts|
  {
    if dts != [] {
      RunGForceAxis(Step(s, dts[0], draws[0]), dts[1..], draws[1..]);
    }
  }

  /** After n ticks the velocity buffer is the old buffer followed by the n
      new samples, with the n oldest entries dropped. */
  lemma {:induction false} RunVelocityWindow(s: SimState, dts: seq<real>, draws: seq<Draw>)
    requires WellFormed(s) && |dts| == |draws|
    ensures Run(s, dts, draws).velocityData == (s.velocityData + VelocitySamples(s, dts, draws))[|dts|..]
    decreases |dts|
  {
    if dts != [] {
      var s1 := Step(s, dts[0], draws[0]);
      var x := Sense(s.elapsed + dts[0], draws[0]).newVelocity;
      var rest := VelocitySamples(s1, dts[1..], draws[1..]);
      RunVelocityWindow(s1, dts[1..], draws[1..]);
      assert s1.velocityData == s.velocityData[1..] + [x];
      assert VelocitySamples(s, dts, draws) == [x] + rest;
      assert s1.velocityData + rest == (s.velocityData + ([x] + rest))[1..];
    }
  }

  /** After at least HistoryLength ticks no startup value is left in the
      velocity buffer: it holds exactly the newest HistoryLength samples. */
  lemma VelocityWindowReplaced(s: SimState, dts: seq<real>, draws: seq<Draw>)
    requires WellFormed(s) && |dts| == |draws| && |dts| >= HistoryLength
    ensures Run(s, dts, draws).velocityData ==
            VelocitySamples(s, dts, draws)[|dts| - HistoryLength..]
  {
    RunVelocityWindow(s, dts, draws);
    var samples := VelocitySamples(s, dts, draws);
    assert (s.velocityData + samples)[|dts|..] == samples[|dts| - HistoryLength..];
  }

  /** A fresh array holding `s`: `np.zeros_like`, `np.linspace`, `.copy()`
      and the new array `np.roll` returns. */
  method FromSeq(s: seq<real>) returns (a: array<real>)
    ensures fresh(a) && a[..] == s
  {
    a := new real[|s|](i requires 0 <= i < |s| => s[i]);
  }

  /** `b = np.roll(a, -1); b[-1] = x` */
  method RollAndSet(a: array<real>, x: real) returns (b: array<real>)
    requires a.Length > 0
    ensures fresh(b) && b[..] == Slide(a[..], x)
  {
    b := FromSeq(Rotated(a[..]));
    b[b.Length - 1] := x;
  }

  /** `b = np.roll(t, -1); b[-1] = b[-2] + 0.055` */
  method RollAxis(t: array<real>) returns (b: array<real>)
    requires t.Length >= 2
    ensures fresh(b) && b[..] == AxisStep(t[..])
  {
    b := FromSeq(Rotated(t[..]));
    b[b.Length - 1] := b[b.Length - 2] + GForceAxisStep;
  }

  /** The packet returned by `get_next`: the readings and copies of the four buffers. */
  datatype Packet = Packet(
    reading: Reading,
    velocityTime: array<real>, velocityData: array<real>,
    gforceTime: array<real>, gforceData: array<real>)

  class Simulator {
    var elapsed: real
    var velocityTime: array<real>
    var velocityData: array<real>
    var gforceTime: array<real>
    var gforceData: array<real>

    ghost function Repr(): set<object>
      reads this
    {
      {this, velocityTime, velocityData, gforceTime, gforceData}
    }

    ghost function State(): SimState
      reads this, velocityTime, velocityData, gforceTime, gforceData
    {
      SimState(elapsed, velocityTime[..], velocityData[..], gforceTime[..], gforceData[..])
    }

    ghost predicate Valid()
      reads this, velocityTime, velocityData, gforceTime, gforceData
    {
      Inv(State())
    }

    constructor ()
      ensures Valid() && State() == Startup()
    {
      var vt := FromSeq(VelocityAxis());
      var vd := FromSeq(Zeros(HistoryLength));
      var gt := FromSeq(GForceAxis());
      var gd := FromSeq(Zeros(HistoryLength));
      elapsed, velocityTime, velocityData, gforceTime, gforceData := 0.0, vt, vd, gt, gd;
      new;
      StartupInv();
    }

    /** Back to the startup state, on fresh arrays; the old state does not matter,
        so a second reset changes nothing. */
    method Reset()
      modifies this
      ensures Valid() && State() == Startup()
      ensures fresh(velocityTime) && fresh(velocityData) && fresh(gforceTime) && fresh(gforceData)
    {
      elapsed := 0.0;
      velocityTime := FromSeq(VelocityAxis());
      velocityData := FromSeq(Zeros(HistoryLength));
      gforceTime := FromSeq(GForceAxis());
      gforceData := FromSeq(Zeros(HistoryLength));
      StartupInv();
    }

    /** One tick. The velocity time axis is neither reassigned nor written; the
        other buffers are replaced by rolled copies whose last slot is then set.
        The packet holds copies that share no array with the simulator. */
    method GetNext(dt: real, d: Draw) returns (p: Packet)
      requires Valid()
      modifies this
      ensures Valid()
      ensures State() == Step(old(State()), dt, d)
      ensures velocityTime == old(velocityTime)
      ensures p.reading == Sense(elapsed, d)
      ensures fresh(p.velocityTime) && fresh(p.velocityData) && fresh(p.gforceTime) && fresh(p.gforceData)
      ensures p.velocityTime !in Repr() && p.velocityData !in Repr() &&
              p.gforceTime !in Repr() && p.gforceData !in Repr()
      ensures p.velocityTime[..] == State().velocityTime && p.velocityData[..] == State().velocityData
      ensures p.gforceTime[..] == State().gforceTime && p.gforceData[..] == State().gforceData
    {
      ghost var s0 := State();
      var clock := elapsed + dt;
      var reading := Sense(clock, d);
      var newVelocityData := RollAndSet(velocityData, reading.newVelocity);
      var newGforceTime := RollAxis(gforceTime);
      var newGforceData := RollAndSet(gforceData, reading.newGforce);
      ghost var s1 := Step(s0, dt, d);
      assert newVelocityData[..] == s1.velocityData;
      assert newGforceTime[..] == s1.gforceTime;
      assert newGforceData[..] == s1.gforceData;
      StepPreservesInv(s0, dt, d);

      elapsed, velocityData, gforceTime, gforceData := clock, newVelocityData, newGforceTime, newGforceData;
      assert State() == s1;

      p := Snapshot(reading);
    }

    /** The returned packet: the readings and a copy of each buffer. */
    method Snapshot(reading: Reading) returns (p: Packet)
      ensures p.reading == reading
      ensures fresh(p.velocityTime) && fresh(p.velocityData) && fresh(p.gforceTime) && fresh(p.gforceData)
      ensures p.velocityTime[..] == velocityTime[..] && p.velocityData[..] == velocityData[..]
      ensures p.gforceTime[..] == gforceTime[..] && p.gforceData[..] == gforceData[..]
    {
      var vt := FromSeq(velocityTime[..]);
      var vd := FromSeq(velocityData[..]);
      var gt := FromSeq(gforceTime[..]);
      var gd := FromSeq(gforceData[..]);
      p := Packet(reading, vt, vd, gt, gd);
    }
  }

  /** A consumer that takes two packets and scribbles on the second: the first
      packet still shows the first tick, and the simulator's state is what the
      two ticks made it. */
  method ConsumerSnapshots(sim: Simulator, dt1: real, d1: Draw, dt2: real, d2: Draw)
    returns (p1: Packet, p2: Packet)
    requires sim.Valid()
    modifies sim
    ensures sim.Valid()
    ensures p1.velocityData[..] == Step(old(sim.State()), dt1, d1).velocityData
    ensures p1.gforceData[..] == Step(old(sim.State()), dt1, d1).gforceData
    ensures sim.State() == Step(Step(old(sim.State()), dt1, d1), dt2, d2)
  {
    p1 := sim.GetNext(dt1, d1);
    p2 := sim.GetNext(dt2, d2);
    p2.velocityData[0] := -1.0;
    p2.gforceTime[0] := -1.0;
  }
}
