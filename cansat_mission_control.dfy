/** The control part of the CanSat mission-control dashboard: the start/stop
    state machine, the mission timer, the telemetry tick that pulls one packet
    from the simulator and derives the displayed values, and the command entry.
    Widgets are reduced to the values they show. */
module MissionControl {
  import opened TelemetrySimulator

  datatype Option<T> = None | Some(value: T)

  /** The text of a log line. The two periodic telemetry lines keep the values
      they print; their decimal formatting is not modelled. */
  datatype Message =
    | Text(text: string)
    | VelocityLine(velocity: real, gforce: real)
    | SensorLine(pressure: real, temperature: real, altitude: real)

  /** One line of the event log, without its wall-clock timestamp. */
  datatype LogEntry = LogEntry(kind: string, message: Message)

  /** The T+ HH:MM:SS mission timer. */
  datatype Hms = Hms(hours: int, minutes: int, seconds: int)

  /** What the telemetry tick puts on screen. */
  datatype Display = Display(
    pressure: real, pressureFill: real, pressureArc: real,
    temperature: real, temperatureFill: real, temperatureArc: real,
    altitude: real,
    altitudeRate: real, rateSign: string, rateColor: string,
    latency: int,
    gforceXMin: real, gforceXMax: real)

  const Placeholder: string := "Send Command..."
  const StartLabel: string := "\U{25B6} START"
  const StopLabel: string := "\U{23F8} STOP"
  const RisingColor: string := "#4ade80"
  const FallingColor: string := "#ff6b6b"
  /** Sweep of a full gauge arc, in degrees. */
  const FullArc: real := 359.9

  const StartMessage: LogEntry := LogEntry("INFO", Text("Mission START - All systems nominal"))
  const PauseMessage: LogEntry := LogEntry("INFO", Text("Mission PAUSED by operator"))

  /** The example lines the log panel is created with. */
  const SeedLog: seq<LogEntry> := [
    LogEntry("INFO", Text("Packet #14205 received (24 bytes)")),
    LogEntry("STAT", Text("P:101.32 T:24.84 A:1245.82")),
    LogEntry("WARN", Text("Minor jitter on IMU-Z axis")),
    LogEntry("INFO", Text("Frame_Synch OK - SD_Logging ACTIVE")),
    LogEntry("STAT", Text("P:101.30 T:24.88 A:1258.20")),
    LogEntry("DATA", Text("0x4A 0x35 0xFF 0x01 0x28 0x98 0x13")),
    LogEntry("INFO", Text("Payload orientation: STABLE")),
    LogEntry("RECV", Text("New Telemetry Burst Incoming..."))]

  /** Python's `int(x)` on a float: truncation toward zero. */
  function Truncate(x: real): (r: int)
    ensures x >= 0.0 ==> 0 <= r && r as real <= x < r as real + 1.0
    ensures x < 0.0 ==> r <= 0 && r as real - 1.0 < x <= r as real
  {
    if x >= 0.0 then x.Floor else -((-x).Floor)
  }

  /** `h = e // 3600; m = (e % 3600) // 60; s = e % 60` (floor division and
      modulo, which for a positive divisor agree with Dafny's on every int). */
  function SplitHms(e: int): (r: Hms)
    ensures r.hours * 3600 + r.minutes * 60 + r.seconds == e
    ensures 0 <= r.minutes < 60 && 0 <= r.seconds < 60
    ensures e >= 0 ==> r.hours >= 0
  {
    var rest := e % 3600;
    assert e % 60 == rest % 60 by {
      assert e == (e / 3600) * 3600 + rest;
      assert (e / 3600) * 3600 == ((e / 3600) * 60) * 60;
      ModuloShift(rest, (e / 3600) * 60);
    }
    Hms(e / 3600, rest / 60, e % 60)
  }

  lemma SplitZero()
    ensures SplitHms(0) == Hms(0, 0, 0)
  {
  }

  /** Adding a multiple of 60 does not change the seconds. */
  lemma ModuloShift(x: int, k: int)
    ensures (x + k * 60) % 60 == x % 60
  {
    var q, r := x / 60, x % 60;
    assert x + k * 60 == (q + k) * 60 + r;
  }

  /** The number of seconds a timer reading stands for. */
  function JoinHms(t: Hms): int {
    t.hours * 3600 + t.minutes * 60 + t.seconds
  }

  /** Splitting is the inverse of joining on every reading in range, so a
      reading determines the elapsed seconds and the split is the only one. */
  lemma SplitJoin(t: Hms)
    requires 0 <= t.minutes < 60 && 0 <= t.seconds < 60
    ensures SplitHms(JoinHms(t)) == t
  {
    var e := JoinHms(t);
    var r := SplitHms(e);
    var below := t.minutes * 60 + t.seconds;
    assert 0 <= below < 3600;
    DivUnique(e, 3600, t.hours, below);
    DivUnique(e, 3600, r.hours, r.minutes * 60 + r.seconds);
    DivUnique(below, 60, t.minutes, t.seconds);
    DivUnique(below, 60, r.minutes, r.seconds);
  }

  /** Quotient and remainder are unique. */
  lemma DivUnique(e: int, d: int, q: int, r: int)
    requires d > 0 && e == q * d + r && 0 <= r < d
    ensures e / d == q && e % d == r
  {
    var q', r' := e / d, e % d;
    assert e == q' * d + r';
    assert (q' - q) * d == r - r';
    if q' > q {
      MulAtLeast(q' - q, d);
      assert false;
    } else if q' < q {
      MulAtLeast(q - q', d);
      assert false;
    }
  }

  lemma MulAtLeast(k: int, d: int)
    requires k >= 1 && d > 0
    ensures k * d >= d
  {
    assert k * d == (k - 1) * d + d;
  }

  /** `max(0, min(1, (value - low) / span))`: how full a gauge is drawn. */
  function GaugeFill(value: real, low: real, span: real): (r: real)
    requires span > 0.0
    ensures 0.0 <= r <= 1.0
    ensures value <= low ==> r == 0.0
    ensures value >= low + span ==> r == 1.0
    ensures low <= value <= low + span ==> r * span == value - low
  {
    var ratio := (value - low) / span;
    assert ratio * span == value - low;
    assert value <= low ==> ratio <= 0.0;
    assert value >= low + span ==> ratio >= 1.0;
    Clamp(0.0, 1.0, ratio)
  }

  /** A higher reading never draws a less full gauge. */
  lemma GaugeFillMonotone(a: real, b: real, low: real, span: real)
    requires span > 0.0 && a <= b
    ensures GaugeFill(a, low, span) <= GaugeFill(b, low, span)
  {
    var ra, rb := (a - low) / span, (b - low) / span;
    assert rb - ra == (b - a) / span;
    assert ra <= rb;
  }

  /** The pressure gauge spans 95 to 110 kPa. */
  function PressureFill(p: real): (r: real)
    ensures 0.0 <= r <= 1.0
    ensures p <= 95.0 ==> r == 0.0
    ensures p >= 110.0 ==> r == 1.0
    ensures 95.0 <= p <= 110.0 ==> r * 15.0 == p - 95.0
  {
    GaugeFill(p, 95.0, 15.0)
  }

  /** The temperature gauge spans 15 to 40 degrees Celsius. */
  function TemperatureFill(t: real): (r: real)
    ensures 0.0 <= r <= 1.0
    ensures t <= 15.0 ==> r == 0.0
    ensures t >= 40.0 ==> r == 1.0
    ensures 15.0 <= t <= 40.0 ==> r * 25.0 == t - 15.0
  {
    GaugeFill(t, 15.0, 25.0)
  }

  /** The sweep of a gauge's progress arc. */
  function ArcExtent(fill: real): (r: real)
    requires 0.0 <= fill <= 1.0
    ensures 0.0 <= r <= FullArc
    ensures fill == 0.0 ==> r == 0.0
    ensures fill == 1.0 ==> r == FullArc
  {
    FullArc * fill
  }

  /** The prefix of the altitude-rate label. */
  function RateSign(rate: real): (r: string)
    ensures r == "+" <==> rate >= 0.0
    ensures r == "" <==> rate < 0.0
  {
    if rate >= 0.0 then "+" else ""
  }

  /** The colour of the altitude-rate label. */
  function RateColor(rate: real): (r: string)
    ensures r == RisingColor <==> rate >= 0.0
    ensures r == FallingColor <==> rate < 0.0
  {
    if rate >= 0.0 then RisingColor else FallingColor
  }

  /** Whether the command entry holds something to send. */
  function IsCommand(cmd: string): (b: bool)
    ensures b <==> |cmd| > 0 && cmd != Placeholder
  {
    cmd != "" && cmd != Placeholder
  }

  /** The values one packet puts on screen; the g-force plot's x-limits are the
      first and last times of the packet's g-force axis. */
  function Render(r: Reading, gforceXMin: real, gforceXMax: real): (v: Display)
    ensures 0.0 <= v.pressureFill <= 1.0 && 0.0 <= v.temperatureFill <= 1.0
    ensures 0.0 <= v.pressureArc <= FullArc && 0.0 <= v.temperatureArc <= FullArc
    ensures v.rateSign == "+" <==> r.altitudeRate >= 0.0
    ensures MinLatency <= r.latency <= MaxLatency ==> 10 <= v.latency <= 100
    ensures v.pressure == r.pressure && v.temperature == r.temperature && v.altitude == r.altitude
    ensures v.gforceXMin == gforceXMin && v.gforceXMax == gforceXMax
  {
    Display(
      pressure := r.pressure, pressureFill := PressureFill(r.pressure),
      pressureArc := ArcExtent(PressureFill(r.pressure)),
      temperature := r.temperature, temperatureFill := TemperatureFill(r.temperature),
      temperatureArc := ArcExtent(TemperatureFill(r.temperature)),
      altitude := r.altitude,
      altitudeRate := r.altitudeRate, rateSign := RateSign(r.altitudeRate),
      rateColor := RateColor(r.altitudeRate),
      latency := Truncate(r.latency),
      gforceXMin := gforceXMin, gforceXMax := gforceXMax)
  }

  /** Python's `x % m` on floats for a positive divisor: what is left of `x`
      after taking away a whole number of divisors, the number being the
      floor of `x / m`. */
  function FloatMod(x: real, m: real): (r: real)
    requires m > 0.0
    ensures (x / m).Floor as real * m + r == x
    ensures 0.0 <= r < m
  {
    var q := x / m;
    var g := q - q.Floor as real;
    assert 0.0 <= g < 1.0;
    assert x == m * q;
    assert x - m * (q.Floor as real) == m * g;
    assert m * g >= 0.0;
    assert m - m * g == m * (1.0 - g);
    assert m * (1.0 - g) > 0.0;
    x - m * (q.Floor as real)
  }

  /** For the two log periods the remainder lies in [0, period) and is zero
      exactly when the clock is a whole number of periods. */
  lemma CadenceRemainder(x: real)
    ensures 0.0 <= FloatMod(x, 3.0) < 3.0 && 0.0 <= FloatMod(x, 5.0) < 5.0
    ensures FloatMod(x, 3.0) == 0.0 <==> (x / 3.0).Floor as real == x / 3.0
    ensures FloatMod(x, 5.0) == 0.0 <==> (x / 5.0).Floor as real == x / 5.0
  {
  }

  /** A whole multiple of the divisor leaves no remainder. */
  lemma MultipleHasNoRemainder(k: int, m: real)
    requires m > 0.0
    ensures FloatMod(k as real * m, m) == 0.0
  {
    assert (k as real * m) / m == k as real;
    assert (k as real).Floor == k;
  }

  /** The periodic log lines of one telemetry tick at clock `clock`: a DATA
      line when the clock is a whole multiple of 3 seconds, then a STAT line
      when it is a whole multiple of 5 seconds. */
  function TickLog(clock: real, r: Reading): (entries: seq<LogEntry>)
    ensures |entries| <= 2
    ensures LogEntry("DATA", VelocityLine(r.newVelocity, r.newGforce)) in entries <==>
              FloatMod(clock, 3.0) == 0.0
    ensures LogEntry("STAT", SensorLine(r.pressure, r.temperature, r.altitude)) in entries <==>
              FloatMod(clock, 5.0) == 0.0
    ensures forall i :: 0 <= i < |entries| ==> entries[i].kind in {"DATA", "STAT"}
  {
    (if FloatMod(clock, 3.0) == 0.0 then [LogEntry("DATA", VelocityLine(r.newVelocity, r.newGforce))] else []) +
    (if FloatMod(clock, 5.0) == 0.0
     then [LogEntry("STAT", SensorLine(r.pressure, r.temperature, r.altitude))] else [])
  }

  /** The first tick after a start runs at clock 0.5 and logs nothing. */
  lemma QuietFirstTick(r: Reading)
    ensures TickLog(DefaultStep, r) == []
  {
    assert FloatMod(DefaultStep, 3.0) == DefaultStep;
    assert FloatMod(DefaultStep, 5.0) == DefaultStep;
  }

  /** Every fifteen simulated seconds a tick logs both lines, DATA first. */
  lemma FifteenSecondTickLogsBoth(k: int, r: Reading)
    ensures TickLog(k as real * 15.0, r) ==
              [LogEntry("DATA", VelocityLine(r.newVelocity, r.newGforce)),
               LogEntry("STAT", SensorLine(r.pressure, r.temperature, r.altitude))]
  {
    MultipleHasNoRemainder(5 * k, 3.0);
    MultipleHasNoRemainder(3 * k, 5.0);
    assert (5 * k) as real * 3.0 == k as real * 15.0;
    assert (3 * k) as real * 5.0 == k as real * 15.0;
  }

  /** With a genuine sine as its wave, the simulated altitude rate is always
      shown rising. */
  lemma RateAlwaysRising(clock: real, d: Draw)
    requires -1.0 <= d.rateWave <= 1.0
    ensures RateSign(Sense(clock, d).altitudeRate) == "+"
    ensures RateColor(Sense(clock, d).altitudeRate) == RisingColor
  {
    assert Sense(clock, d).altitudeRate >= 4.4;
  }

  /** On every reachable simulator state the packet shown has a non-empty
      g-force plot window and a latency readout within [10, 100]. */
  lemma ShownPacketInRange(s: SimState, d: Draw)
    requires Inv(s)
    ensures var v := Render(Sense(s.elapsed, d), s.gforceTime[0], s.gforceTime[HistoryLength - 1]);
            v.gforceXMin < v.gforceXMax && 10 <= v.latency <= 100
  {
  }

  class CanSatMissionControl {
    var missionRunning: bool
    var missionStartTime: Option<real>
    var elapsedSeconds: real
    var simulator: Simulator
    /** Text of the START/STOP button. */
    var buttonLabel: string
    /** What the T+ timer label shows. */
    var timer: Hms
    /** What the readouts and gauges show; None until the first packet. */
    var display: Option<Display>
    /** The history arrays handed to the two plots. */
    var velocityTime: array<real>
    var velocityData: array<real>
    var gforceTime: array<real>
    var gforceData: array<real>
    /** Text of the command entry; the operator edits it. */
    var entry: string
    var log: seq<LogEntry>

    ghost predicate Valid()
      reads this, simulator, simulator.velocityTime, simulator.velocityData, simulator.gforceTime, simulator.gforceData
    {
      simulator.Valid() &&
      (missionRunning ==> missionStartTime.Some?) &&
      buttonLabel == (if missionRunning then StopLabel else StartLabel)
    }

    /** What the widgets show after a telemetry tick that used draw `d`: the
        display rendered from that tick's reading at the current counter, with
        the g-force x-limits at the ends of the simulator's g-force axis, and
        the four plot arrays holding the simulator's buffers. */
    ghost predicate ShowsTick(d: Draw)
      reads this, velocityTime, velocityData, gforceTime, gforceData
      reads simulator, simulator.velocityTime, simulator.velocityData, simulator.gforceTime, simulator.gforceData
      requires simulator.Valid()
    {
      display == Some(Render(Sense(elapsedSeconds, d), simulator.State().gforceTime[0],
                             simulator.State().gforceTime[HistoryLength - 1])) &&
      velocityTime[..] == simulator.State().velocityTime &&
      velocityData[..] == simulator.State().velocityData &&
      gforceTime[..] == simulator.State().gforceTime &&
      gforceData[..] == simulator.State().gforceData
    }

    /** Build the dashboard and, as the Python constructor does, start the mission at once. */
    constructor (now: real, d: Draw)
      ensures Valid() && fresh(simulator)
      ensures missionRunning && missionStartTime == Some(now)
      ensures simulator.State() == Step(Startup(), DefaultStep, d)
      ensures elapsedSeconds == DefaultStep && timer == Hms(0, 0, 0) && ShowsTick(d)
      ensures entry == Placeholder && log == SeedLog + [StartMessage]
    {
      var sim := new Simulator();
      var vt := FromSeq(VelocityAxis());
      var vd := FromSeq(Zeros(HistoryLength));
      var gt := FromSeq(GForceAxis());
      var gd := FromSeq(Zeros(HistoryLength));
      missionRunning, missionStartTime, elapsedSeconds := false, None, 0.0;
      simulator := sim;
      velocityTime, velocityData, gforceTime, gforceData := vt, vd, gt, gd;
      buttonLabel, timer, display := StartLabel, Hms(0, 0, 0), None;
      entry, log := Placeholder, SeedLog;
      new;
      ToggleMission(now, d);
    }

    /** `send_command`: log a real command and put the placeholder back;
        anything else leaves entry and log as they were. */
    method SendCommand()
      requires Valid()
      modifies this`entry, this`log
      ensures Valid()
      ensures IsCommand(old(entry)) ==>
                log == old(log) + [LogEntry("INFO", Text("Command sent: " + old(entry)))] &&
                entry == Placeholder
      ensures !IsCommand(old(entry)) ==> log == old(log) && entry == old(entry)
      ensures !IsCommand(entry) || entry == old(entry)
    {
      var cmd := entry;
      if IsCommand(cmd) {
        log := log + [LogEntry("INFO", Text("Command sent: " + cmd))];
        entry := Placeholder;
      }
    }

    /** `toggle_mission`. Starting records the start time, zeroes the counter,
        resets the simulator, then runs the timer and telemetry handlers once
        (so the simulator has already ticked when the call returns). Stopping
        only clears the flag. */
    method ToggleMission(now: real, d: Draw)
      requires Valid()
      modifies this, simulator
      ensures Valid() && simulator == old(simulator)
      ensures missionRunning == !old(missionRunning)
      ensures entry == old(entry)
      ensures !old(missionRunning) ==>
                missionStartTime == Some(now) && timer == Hms(0, 0, 0) &&
                simulator.State() == Step(Startup(), DefaultStep, d) &&
                elapsedSeconds == DefaultStep && ShowsTick(d) &&
                log == old(log) + [StartMessage]
      ensures old(missionRunning) ==>
                missionStartTime == old(missionStartTime) && timer == old(timer) &&
                simulator.State() == old(simulator.State()) &&
                elapsedSeconds == old(elapsedSeconds) && display == old(display) &&
                unchanged(this`velocityTime, this`velocityData, this`gforceTime, this`gforceData) &&
                log == old(log) + [PauseMessage]
    {
      if !missionRunning {
        StartMission(now, d);
      } else {
        missionRunning, buttonLabel, log := false, StartLabel, log + [PauseMessage];
      }
    }

    /** The start branch of `toggle_mission`. */
    method StartMission(now: real, d: Draw)
      requires Valid() && !missionRunning
      modifies this, simulator
      ensures Valid() && simulator == old(simulator)
      ensures missionRunning && entry == old(entry)
      ensures missionStartTime == Some(now) && timer == Hms(0, 0, 0)
      ensures simulator.State() == Step(Startup(), DefaultStep, d) && elapsedSeconds == DefaultStep
      ensures ShowsTick(d) && log == old(log) + [StartMessage]
    {
      Arm(now);
      var tickQueued := UpdateTelemetry(d);
      QuietFirstTick(Sense(DefaultStep, d));
      log := log + [StartMessage];
    }

    /** The part of a start before the first telemetry tick: the flag, the
        start time, the zeroed counter, the simulator reset and the first
        timer run, which shows T+ 00:00:00. */
    method Arm(now: real)
      requires Valid() && !missionRunning
      modifies this, simulator
      ensures Valid() && simulator == old(simulator)
      ensures missionRunning && missionStartTime == Some(now)
      ensures simulator.State() == Startup() && elapsedSeconds == 0.0 && timer == Hms(0, 0, 0)
      ensures entry == old(entry) && log == old(log)
    {
      missionRunning, missionStartTime, elapsedSeconds, buttonLabel := true, Some(now), 0.0, StopLabel;
      simulator.Reset();
      assert Truncate(now - now) == 0;
      var timerQueued := UpdateMissionTimer(now);
      SplitZero();
    }

    /** `update_mission_timer` at wall-clock time `now` (seconds): while
        running, the counter becomes the whole seconds since the start and the
        timer shows their split. `rescheduled` says whether the handler queues
        itself again. */
    method UpdateMissionTimer(now: real) returns (rescheduled: bool)
      requires Valid()
      modifies this`elapsedSeconds, this`timer
      ensures Valid()
      ensures rescheduled == missionRunning
      ensures missionRunning ==>
                elapsedSeconds == Truncate(now - missionStartTime.value) as real &&
                timer == SplitHms(Truncate(now - missionStartTime.value))
      ensures !missionRunning ==> elapsedSeconds == old(elapsedSeconds) && timer == old(timer)
    {
      rescheduled := false;
      if missionRunning {
        var whole := Truncate(now - missionStartTime.value);
        elapsedSeconds := whole as real;
        timer := SplitHms(whole);
        rescheduled := true;
      }
    }

    /** `update_telemetry`: while running, take one packet with the default
        step, copy the simulator's clock, render the packet and hand its
        arrays to the plots; when stopped, do nothing and do not reschedule. */
    method UpdateTelemetry(d: Draw) returns (rescheduled: bool)
      requires Valid()
      modifies this, simulator
      ensures Valid() && simulator == old(simulator)
      ensures rescheduled == missionRunning
      ensures unchanged(this`missionRunning, this`missionStartTime, this`timer, this`entry)
      ensures missionRunning ==>
                simulator.State() == Step(old(simulator.State()), DefaultStep, d) &&
                elapsedSeconds == old(simulator.elapsed) + DefaultStep && ShowsTick(d) &&
                log == old(log) + TickLog(elapsedSeconds, Sense(elapsedSeconds, d))
      ensures !missionRunning ==>
                simulator.State() == old(simulator.State()) &&
                elapsedSeconds == old(elapsedSeconds) && display == old(display) &&
                unchanged(this`velocityTime, this`velocityData, this`gforceTime, this`gforceData) &&
                unchanged(this`log)
    {
      rescheduled := false;
      if missionRunning {
        var packet := simulator.GetNext(DefaultStep, d);
        Show(packet, simulator.elapsed);
        rescheduled := true;
      }
    }

    /** The widget half of `update_telemetry` for a packet taken at `clock`:
        readouts, gauges, the rate label, the latency readout, the plots, the
        g-force x-limits and the periodic log lines. */
    method Show(packet: Packet, clock: real)
      requires packet.gforceTime.Length == HistoryLength
      modifies this`elapsedSeconds, this`display, this`velocityTime, this`velocityData, this`gforceTime,
               this`gforceData, this`log
      ensures elapsedSeconds == clock
      ensures display == Some(Render(packet.reading, packet.gforceTime[0],
                                     packet.gforceTime[HistoryLength - 1]))
      ensures velocityTime == packet.velocityTime && velocityData == packet.velocityData
      ensures gforceTime == packet.gforceTime && gforceData == packet.gforceData
      ensures log == old(log) + TickLog(clock, packet.reading)
    {
      var xMin := packet.gforceTime[0];
      var xMax := packet.gforceTime[HistoryLength - 1];
      elapsedSeconds := clock;
      display := Some(Render(packet.reading, xMin, xMax));
      velocityTime, velocityData := packet.velocityTime, packet.velocityData;
      gforceTime, gforceData := packet.gforceTime, packet.gforceData;
      log := log + TickLog(clock, packet.reading);
    }
  }
}
