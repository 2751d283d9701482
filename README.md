# CanSat mission control: telemetry simulator and dashboard control

This project models the two parts of the CanSat ground-station dashboard that
hold logic rather than drawing.

- `telemetry_simulator.dfy` (module `TelemetrySimulator`) models the
  telemetry simulator. It is a class with a simulated clock and four
  length-100 history arrays: the velocity time axis and velocity samples,
  and the g-force time axis and g-force samples. `GetNext` advances the
  clock by `dt` and computes one packet of sensor values. It then replaces
  three buffers (the velocity samples, the g-force time axis and the g-force
  samples) with fresh arrays, each shifted one place left. The last slot of
  each sample buffer holds the new sample; the last slot of the g-force time
  axis holds the previous last time plus 0.055 s. The velocity time axis is
  never touched. The packet carries copies of the buffers. `Reset`
  restores the startup state.
  - The class is proved against a value-level definition: `Step` on a
    `SimState`. Lemmas about `Step` and its iteration `Run` give the
    invariants:
    - constant lengths;
    - a velocity time axis that never changes;
    - a strictly increasing g-force axis;
    - non-negative samples;
    - the clock is the sum of the steps;
    - the velocity window is the last 100 values of the old window followed
      by the new samples.
  - The sine, exponential and Gaussian terms are not computed. They enter
    as a `Draw` of opaque reals, one per term. The constants of every
    formula and every clamp are kept.
- `cansat_mission_control.dfy` (module `MissionControl`) models the control
  fragments of the dashboard class:
  - the start/stop state machine (`ToggleMission`);
  - the mission timer and its HH:MM:SS split;
  - the telemetry tick, which is gated on the running flag, pulls one packet,
    derives the displayed values and appends the periodic log lines;
  - the command entry with its placeholder filter.

  Widgets become the values they show. The button text, the timer reading,
  the readouts with gauge fills and arc sweeps, the rate sign and colour,
  the latency readout and the g-force x-limits each become a field. The
  event log becomes a sequence of entries.

Wall-clock readings and the noise draws are parameters. The current time
enters as `now` (seconds), and each telemetry tick takes a `Draw`. The
`root.after` rescheduling becomes a returned `rescheduled` flag.

On these points the model follows the code as written:
- `get_next` does not reject a non-positive `dt`; the model places no
  requirement on `dt`.
- `send_command` puts the placeholder back only when it has logged a
  command. Any other entry text (empty or the placeholder itself) is left
  as it is.
- `toggle_mission`, when starting, runs the timer and telemetry handlers
  once before it logs the start message. The simulator has therefore already
  ticked to 0.5 s when the toggle returns.
- The dashboard constructor ends by toggling. A freshly built dashboard is
  running.

## Model

| member | source | states |
|---|---|---|
| TelemetrySimulator.Clamp | telemetry_simulator.py:50 | `max(lo, min(hi, x))` lies in [lo, hi], equals x inside the range and the nearer bound outside it |
| TelemetrySimulator.NonNegative | telemetry_simulator.py:55-56 | `max(0, x)` is never negative and keeps a non-negative x |
| TelemetrySimulator.Linspace | telemetry_simulator.py:22 | `np.linspace(lo, hi, n)` has n points, starting at lo and ending at hi |
| TelemetrySimulator.LinspaceIncreasing | telemetry_simulator.py:25 | for lo < hi the points are strictly increasing (so the initial g-force axis is) |
| TelemetrySimulator.Zeros | telemetry_simulator.py:23 | `np.zeros_like` gives n samples, none negative |
| TelemetrySimulator.Sense | telemetry_simulator.py:45-64 | for any draw, latency lies in [10, 100] and is the raw 24 + noise when that is in range; the new velocity and g-force are never negative, and the velocity keeps its raw value when that is non-negative; with waves in [-1, 1] the altitude rate lies in [4.4, 20.4] and the altitude within 50 m of 1245.8 + 2.5 t |
| TelemetrySimulator.Rotated | telemetry_simulator.py:57 | `np.roll(·, -1)`: same length, entry i is old entry i + 1, and the first entry wraps to the end |
| TelemetrySimulator.RotatedPermutes | telemetry_simulator.py:57 | rolling is a permutation: the rolled buffer holds the same values with the same multiplicities |
| TelemetrySimulator.Slide | telemetry_simulator.py:57-58 | roll left then overwrite the last slot: same length, entry i is old entry i + 1, the last entry is the new sample |
| TelemetrySimulator.AxisStep | telemetry_simulator.py:61-62 | the g-force axis rolls left and its last time becomes the old last time plus 0.055 |
| TelemetrySimulator.Startup | telemetry_simulator.py:17-26 | the state `__init__` and `reset` build: clock 0, four length-100 buffers, a velocity axis from -120 to 0, a g-force axis from -1.5 to 4.0, and all samples 0 |
| TelemetrySimulator.StartupInv | telemetry_simulator.py:17-26 | the startup state has clock 0, four length-100 buffers, the fixed velocity axis, an increasing g-force axis and non-negative data |
| TelemetrySimulator.Step | telemetry_simulator.py:42-66 | one tick keeps all four lengths at 100, advances the clock by exactly dt and leaves the velocity time axis untouched |
| TelemetrySimulator.StepShiftsWindows | telemetry_simulator.py:57-66 | after a tick every data and g-force axis entry below the last is the old next entry; the last slots hold the fresh velocity and g-force samples and the old last time plus 0.055 |
| TelemetrySimulator.SlideKeepsNonNegative | telemetry_simulator.py:56-58 | sliding a non-negative sample into a non-negative window keeps it non-negative |
| TelemetrySimulator.AxisStepIncreasing | telemetry_simulator.py:61-62 | the axis step keeps a strictly increasing axis strictly increasing |
| TelemetrySimulator.StepPreservesInv | telemetry_simulator.py:42-66 | every tick preserves the simulator invariant |
| TelemetrySimulator.AxisIndependentOfStep | telemetry_simulator.py:61-62 | the new g-force axis is the same whatever dt and draw, and its last time advances by exactly 0.055 |
| TelemetrySimulator.Run | telemetry_simulator.py:36-66 | any sequence of ticks keeps the buffers at length 100 |
| TelemetrySimulator.VelocitySamples | telemetry_simulator.py:55-56 | a run yields one velocity sample per tick |
| TelemetrySimulator.RunClock | telemetry_simulator.py:42 | after a run the clock has advanced by the sum of the steps |
| TelemetrySimulator.RunPreservesInv | telemetry_simulator.py:42-66 | every run from a valid state ends in a valid state |
| TelemetrySimulator.RunGForceAxis | telemetry_simulator.py:61-62 | after k ticks the last g-force time has advanced by k times 0.055 |
| TelemetrySimulator.RunVelocityWindow | telemetry_simulator.py:57-58 | after k ticks the velocity window is the old window followed by the k new samples, with the first k dropped |
| TelemetrySimulator.VelocityWindowReplaced | telemetry_simulator.py:57-58 | after 100 or more ticks the velocity window holds exactly the last 100 samples |
| TelemetrySimulator.FromSeq | telemetry_simulator.py:22-26 | building an array (`np.linspace`, `np.zeros_like`, `.copy()`) gives a fresh array with exactly the given contents |
| TelemetrySimulator.RollAndSet | telemetry_simulator.py:57-58 | `np.roll` then an index write builds a fresh array holding the slid window |
| TelemetrySimulator.RollAxis | telemetry_simulator.py:61-62 | the same for the g-force axis, with the axis step |
| TelemetrySimulator.Simulator.constructor | telemetry_simulator.py:17-26 | a new simulator is valid and in the startup state |
| TelemetrySimulator.Simulator.Reset | telemetry_simulator.py:28-34 | reset from any state gives the startup state with fresh arrays, so resetting twice is the same as resetting once |
| TelemetrySimulator.Simulator.GetNext | telemetry_simulator.py:36-80 | the new state is one `Step` of the old; the velocity time array is not touched; the packet's reading is the tick's reading; the packet's arrays are fresh, outside the simulator's footprint, and equal to the new buffers |
| TelemetrySimulator.Simulator.Snapshot | telemetry_simulator.py:74-77 | the `.copy()` calls give fresh arrays with the current buffer contents |
| TelemetrySimulator.ConsumerSnapshots | telemetry_simulator.py:74-77 | writing into a later packet and ticking again leaves an earlier packet holding the first tick's data and does not disturb the simulator |
| MissionControl.Truncate | cansat_mission_control.py:747 | `int(x)` on a float truncates toward zero: the result is within 1 of x and no farther from 0 |
| MissionControl.SplitHms | cansat_mission_control.py:749-751 | hours·3600 + minutes·60 + seconds equals the elapsed seconds, with minutes and seconds in [0, 60) and hours non-negative for a non-negative count |
| MissionControl.SplitJoin | cansat_mission_control.py:749-751 | the split is the inverse of joining, so it is the only split with minutes and seconds in range |
| MissionControl.SplitZero | cansat_mission_control.py:749-753 | zero elapsed seconds shows T+ 00:00:00 |
| MissionControl.GaugeFill | cansat_mission_control.py:785-786 | the fill ratio lies in [0, 1], is 0 at or below the low end, 1 at or above the high end, and proportional in between |
| MissionControl.GaugeFillMonotone | cansat_mission_control.py:785-786 | a higher reading never gives a smaller fill |
| MissionControl.PressureFill | cansat_mission_control.py:785-786 | the pressure fill is (p − 95)/15 clamped to [0, 1]: 0 for p ≤ 95, 1 for p ≥ 110 |
| MissionControl.TemperatureFill | cansat_mission_control.py:798-799 | the temperature fill is (t − 15)/25 clamped to [0, 1]: 0 for t ≤ 15, 1 for t ≥ 40 |
| MissionControl.ArcExtent | cansat_mission_control.py:788 | the arc sweep lies in [0, 359.9]; it is 0 for an empty gauge and 359.9 for a full one |
| MissionControl.RateSign | cansat_mission_control.py:814 | the rate label gets "+" exactly when the rate is ≥ 0, and no prefix exactly when it is negative |
| MissionControl.RateColor | cansat_mission_control.py:815 | the label is green exactly when the rate is ≥ 0 and red exactly when it is negative |
| MissionControl.IsCommand | cansat_mission_control.py:717 | the entry counts as a command exactly when it is non-empty and is not the placeholder text |
| MissionControl.Render | cansat_mission_control.py:779-844 | both fills lie in [0, 1] and both arcs in [0, 359.9]; "+" is shown exactly for a non-negative rate; an in-range latency reads as an integer in [10, 100]; readings pass through; the g-force x-limits are the given first and last axis times |
| MissionControl.RateAlwaysRising | cansat_mission_control.py:814-815 | with a true sine as its wave the simulated rate is at least 4.4, so it is always shown with "+" in green |
| MissionControl.ShownPacketInRange | cansat_mission_control.py:818-844 | on any valid simulator state the g-force x-limits form a non-empty window and the latency readout is in [10, 100] |
| MissionControl.FloatMod | cansat_mission_control.py:848 | Python's float `%` with a positive divisor: the remainder lies in [0, m), and x is ⌊x/m⌋ divisors plus it |
| MissionControl.CadenceRemainder | cansat_mission_control.py:848-851 | for the periods 3 and 5 the remainder lies in [0, period) and is zero exactly when the clock is a whole number of periods |
| MissionControl.MultipleHasNoRemainder | cansat_mission_control.py:848-851 | a whole multiple of the divisor leaves remainder 0 |
| MissionControl.TickLog | cansat_mission_control.py:847-853 | a tick logs at most two lines: the DATA line exactly when the clock is a multiple of 3 s, the STAT line exactly when it is a multiple of 5 s, and nothing of any other kind |
| MissionControl.QuietFirstTick | cansat_mission_control.py:848-853 | the tick at 0.5 s that follows a start logs nothing |
| MissionControl.FifteenSecondTickLogsBoth | cansat_mission_control.py:848-853 | at every multiple of 15 s a tick logs DATA then STAT |
| MissionControl.CanSatMissionControl.constructor | cansat_mission_control.py:29-70 | the new dashboard is valid and already running since `now`; the simulator has ticked once from startup; the timer shows 00:00:00; the display and the four plots show that tick; the entry holds the placeholder; the log is the eight example lines plus the start message |
| MissionControl.CanSatMissionControl.SendCommand | cansat_mission_control.py:714-720 | a non-empty entry that is not the placeholder is logged as "Command sent: …" and replaced by the placeholder; otherwise entry and log are unchanged; afterwards the entry is never a different command |
| MissionControl.CanSatMissionControl.ToggleMission | cansat_mission_control.py:722-741 | the running flag flips; a start records `now` as the start time, resets and ticks the simulator once, zeroes the timer, renders that tick on the display and the four plots and logs the start message; a stop keeps start time, timer, simulator, counter, display and all four plot arrays, clears the flag and logs the pause message |
| MissionControl.CanSatMissionControl.StartMission | cansat_mission_control.py:724-736 | the start branch: running since `now`, simulator one tick past startup, counter 0.5, timer 00:00:00, the display rendered from the 0.5 s reading with the g-force axis ends as x-limits, the four plots holding the simulator's buffers, start message logged (the 0.5 s tick itself logs nothing) |
| MissionControl.CanSatMissionControl.Arm | cansat_mission_control.py:724-733 | flag, start time and zeroed counter are set, the simulator is in its startup state, the first timer run shows 00:00:00, and entry and log are untouched |
| MissionControl.CanSatMissionControl.UpdateMissionTimer | cansat_mission_control.py:743-754 | while running, the counter is the whole seconds since the start, truncated, and the timer is their split, and the handler reschedules; when stopped it changes nothing and does not reschedule |
| MissionControl.CanSatMissionControl.UpdateTelemetry | cansat_mission_control.py:766-856 | when stopped, neither the simulator nor the display nor the four plot arrays nor the log change and it does not reschedule; while running the simulator takes one default 0.5 s step, the counter copies its clock, the display is the packet rendered with the axis's first and last times, all four plots hold the simulator's new buffers, the periodic lines are logged, and it reschedules |
| MissionControl.CanSatMissionControl.Show | cansat_mission_control.py:777-853 | the counter takes the packet's clock, the display is the rendered packet, the plots take the packet's arrays, and the log gains the tick's periodic lines |

## Left out

- The sine, exponential and Gaussian terms: they are floating-point numerics and randomness. Each one is an opaque real in `Draw`. For `Sense`, the wave terms are bounded only when the caller says they lie in [-1, 1].
- IEEE float rounding: clocks, samples, fills and arc sweeps are exact reals. For example, the model's clock after 6 ticks is exactly 3.0. With floats, a sum of 0.5 steps is also exact, but other `dt` values may not be.
- Text formatting is not modelled:
  - `:.1f` and `:,.1f` readouts;
  - `:02d` timer text;
  - `:.2f` log values;
  - log timestamps.
  
  The model keeps the values that would be printed.
- Every Tkinter and matplotlib call is left out: widget construction, layout, arcs drawn on canvases, `fill_between`, `canvas.draw`, and the camera windows. The `if self.pressure_label` and `hasattr(self, 'pressure_canvas')` guards are always true after construction. The model takes that branch.
- `datetime.now()` and the `root.after` event loop. The time is the parameter `now`, and rescheduling is the returned flag. A stop followed by a quick restart can leave an old callback pending beside a new one; callbacks and their interleaving are not modelled.
- `update_sensor_data` and `update_graphs`: both only call `update_telemetry`.
- `CanSatMissionControl.Valid` does not state that the plot arrays are 100 long. They are always arrays handed over by the simulator; nothing in the model reads their length.
- MissionControl.CanSatMissionControl.constructor: does not state the button text outright; `Valid` gives it.
