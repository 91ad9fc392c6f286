/**
  The simulated telemetry engine of the ground-control dashboard: eight
  bounded sample histories advanced in lockstep once per tick, a timestamp
  history, the latest altitude, and the "set launch site" reset.
 */
module Telemetry {
  import opened BoundedDeque

  /** The engine's whole state: the module-level deques and `altitude`. */
  datatype State = State(
    times: seq<real>,
    accX: seq<real>, accY: seq<real>, accZ: seq<real>,
    gyroX: seq<real>, gyroY: seq<real>, gyroZ: seq<real>,
    speed: seq<real>, pressures: seq<real>,
    altitude: real)

  /**
    What one tick takes from the clock and from `random.uniform`: the
    timestamp, the altitude, the speed, the two random-walk steps, the three
    angular rates (yaw, pitch, roll) and the pressure.
   */
  datatype Draws = Draws(
    now: real, altitude: real, speed: real, dx: real, dz: real,
    yaw: real, pitch: real, roll: real, pressure: real)

  /** The ranges the generator draws from. */
  predicate InRange(d: Draws) {
    && 0.0 <= d.altitude <= 1000.0
    && 0.0 <= d.speed <= 300.0
    && -10.0 <= d.dx <= 10.0 && -10.0 <= d.dz <= 10.0
    && -180.0 <= d.yaw <= 180.0 && -180.0 <= d.pitch <= 180.0 && -180.0 <= d.roll <= 180.0
    && 900.0 <= d.pressure <= 1100.0
  }

  /** One invocation of the update callback: the reset input and the tick's draws. */
  datatype Input = Input(setlaunch: bool, draws: Draws)

  /** Every deque empty and `altitude = 0`, as at program start. */
  const Initial: State := State([], [], [], [], [], [], [], [], [], 0.0)

  /** The eight sample channels, in table order (the timestamps are not a channel). */
  function Channels(s: State): seq<seq<real>> {
    [s.accX, s.accY, s.accZ, s.gyroX, s.gyroY, s.gyroZ, s.pressures, s.speed]
  }

  /** No deque exceeds its capacity and the eight channels have equal length. */
  predicate Valid(s: State) {
    && |s.times| <= MaxLength
    && |s.accX| <= MaxLength
    && |s.accY| == |s.accX| && |s.accZ| == |s.accX|
    && |s.gyroX| == |s.accX| && |s.gyroY| == |s.accX| && |s.gyroZ| == |s.accX|
    && |s.speed| == |s.accX| && |s.pressures| == |s.accX|
  }

  function Min(a: int, b: int): int {
    if a < b then a else b
  }

  /**
    The reset branch: clear the eight channels, set `altitude = 0`, then
    append one 0 to each cleared channel (so each holds exactly `[0]`).
    The timestamp deque is left alone.
   */
  function Reset(s: State): (r: State)
    ensures forall c :: c in Channels(r) ==> c == [0.0]
    ensures r.times == s.times && r.altitude == 0.0
    ensures |s.times| <= MaxLength ==> Valid(r)
  {
    s.(accX := [0.0], accY := [0.0], accZ := [0.0],
       gyroX := [0.0], gyroY := [0.0], gyroZ := [0.0],
       speed := [0.0], pressures := [0.0],
       altitude := 0.0)
  }

  /**
    The tick proper: append one sample to every history. The X and Z
    positions are a random walk started at 0; the Y channel starts at 0 and
    then carries the altitude drawn in this tick.
   */
  function Advance(s: State, d: Draws): (r: State)
    requires Valid(s)
    ensures Valid(r)
    ensures |r.accX| == Min(|s.accX| + 1, MaxLength)
    ensures |r.times| == Min(|s.times| + 1, MaxLength)
  {
    var accX := if s.accX == [] then Append(s.accX, 0.0, MaxLength)
                else Append(s.accX, Last(s.accX) + d.dx, MaxLength);
    var accZ := if s.accX == [] then Append(s.accZ, 0.0, MaxLength)
                else Append(s.accZ, Last(s.accZ) + d.dz, MaxLength);
    var accY := if s.accY == [] then Append(s.accY, 0.0, MaxLength)
                else Append(s.accY, d.altitude, MaxLength);
    State(
      Append(s.times, d.now, MaxLength),
      accX, accY, accZ,
      Append(s.gyroX, d.yaw, MaxLength),
      Append(s.gyroY, d.pitch, MaxLength),
      Append(s.gyroZ, d.roll, MaxLength),
      Append(s.speed, d.speed, MaxLength),
      Append(s.pressures, d.pressure, MaxLength),
      d.altitude)
  }

  /** One call of the update callback: the reset branch first when `setlaunch` holds, then the tick. */
  function Tick(s: State, setlaunch: bool, d: Draws): (r: State)
    requires Valid(s)
    ensures Valid(r)
    ensures |r.accX| == if setlaunch then 2 else Min(|s.accX| + 1, MaxLength)
    ensures |r.times| == Min(|s.times| + 1, MaxLength)
  {
    Advance(if setlaunch then Reset(s) else s, d)
  }

  /** The state after a sequence of update callbacks. */
  function Run(s: State, inputs: seq<Input>): (r: State)
    requires Valid(s)
    ensures Valid(r)
    decreases |inputs|
  {
    if inputs == [] then s
    else Run(Tick(s, inputs[0].setlaunch, inputs[0].draws), inputs[1..])
  }

  /** The clock readings handed to a run, in order. */
  function Clock(inputs: seq<Input>): (r: seq<real>)
    ensures |r| == |inputs|
  {
    if inputs == [] then [] else [inputs[0].draws.now] + Clock(inputs[1..])
  }

  /** The speeds drawn during a run, in order. */
  function Speeds(inputs: seq<Input>): (r: seq<real>)
    ensures |r| == |inputs|
  {
    if inputs == [] then [] else [inputs[0].draws.speed] + Speeds(inputs[1..])
  }

  predicate NoReset(inputs: seq<Input>) {
    forall input :: input in inputs ==> !input.setlaunch
  }

  predicate AllInRange(inputs: seq<Input>) {
    forall input :: input in inputs ==> InRange(input.draws)
  }

  /** Every sample of `q` lies in `[lo, hi]`. */
  predicate Within(q: seq<real>, lo: real, hi: real) {
    forall i :: 0 <= i < |q| ==> lo <= q[i] <= hi
  }

  /** Every sample but the oldest lies in `[lo, hi]`; the oldest may also be the reseeded 0. */
  predicate WithinButSeed(q: seq<real>, lo: real, hi: real) {
    && (forall i :: 0 < i < |q| ==> lo <= q[i] <= hi)
    && (0 < |q| ==> q[0] == 0.0 || lo <= q[0] <= hi)
  }

  /** How far sample `i` moved from sample `i - 1`. */
  function Gap(q: seq<real>, i: int): real
    requires 0 < i < |q|
  {
    q[i] - q[i - 1]
  }

  /** Consecutive samples of `q` differ by at most `step`. */
  predicate Steps(q: seq<real>, step: real) {
    forall i :: 0 < i < |q| ==> -step <= Gap(q, i) <= step
  }

  /**
    The sample bands the generator keeps. Speed, angular rates and the Y
    channel stay within the drawn ranges (the reseeded 0 lies inside them);
    pressure is within [900, 1100] except that the oldest sample may be the
    reseeded 0; X and Z move by at most 10 between consecutive samples.
   */
  predicate InBand(s: State) {
    && Within(s.speed, 0.0, 300.0)
    && Within(s.gyroX, -180.0, 180.0)
    && Within(s.gyroY, -180.0, 180.0)
    && Within(s.gyroZ, -180.0, 180.0)
    && Within(s.accY, 0.0, 1000.0)
    && WithinButSeed(s.pressures, 900.0, 1100.0)
    && Steps(s.accX, 10.0)
    && Steps(s.accZ, 10.0)
  }

  /** From empty histories and no reset, the first tick puts exactly 0 in X, Y and Z. */
  lemma FirstTickStartsAtOrigin(s: State, d: Draws)
    requires Valid(s) && s.accX == []
    ensures Tick(s, false, d).accX == [0.0]
    ensures Tick(s, false, d).accY == [0.0]
    ensures Tick(s, false, d).accZ == [0.0]
  {
  }

  /**
    With `setlaunch`, every channel ends the update as `[0, sample]`, the
    timestamps are not cleared and still grow by this tick's time, and the
    altitude is this tick's draw.
   */
  lemma ResetTick(s: State, d: Draws)
    requires Valid(s)
    ensures forall c :: c in Channels(Tick(s, true, d)) ==> |c| == 2 && c[0] == 0.0
    ensures Tick(s, true, d).times == Append(s.times, d.now, MaxLength)
    ensures Tick(s, true, d).altitude == d.altitude
    ensures Tick(s, true, d).accX == [0.0, d.dx] && Tick(s, true, d).accZ == [0.0, d.dz]
    ensures Tick(s, true, d).accY == [0.0, d.altitude]
  {
    var s0 := Reset(s);
    var r := Advance(s0, d);
    assert r.accX == [0.0, 0.0 + d.dx] && r.accZ == [0.0, 0.0 + d.dz];
    assert r.accY == [0.0, d.altitude];
    assert r.gyroX == [0.0, d.yaw] && r.gyroY == [0.0, d.pitch] && r.gyroZ == [0.0, d.roll];
    assert r.speed == [0.0, d.speed] && r.pressures == [0.0, d.pressure];
    assert Channels(r) == [r.accX, r.accY, r.accZ, r.gyroX, r.gyroY, r.gyroZ, r.pressures, r.speed];
  }

  /**
    On an update that finds the histories non-empty, X and Z step from
    their previous values by the drawn deltas and Y takes the drawn altitude.
   */
  lemma WalkStep(s: State, d: Draws)
    requires Valid(s) && s.accX != []
    ensures Last(Tick(s, false, d).accX) == Last(s.accX) + d.dx
    ensures Last(Tick(s, false, d).accZ) == Last(s.accZ) + d.dz
    ensures Last(Tick(s, false, d).accY) == d.altitude
    ensures |s.accX| < MaxLength ==> Tick(s, false, d).accX == s.accX + [Last(s.accX) + d.dx]
  {
  }

  /**
    A launch-site reset and one more tick: the X travel restarts at 0 and
    holds the two drawn steps and their running sum, nothing from before.
   */
  lemma ResetThenWalk(s: State, d2: Draws, d3: Draws)
    requires Valid(s)
    ensures Tick(Tick(s, true, d2), false, d3).accX == [0.0, d2.dx, d2.dx + d3.dx]
  {
    var a := Tick(s, true, d2);
    assert a.accX == [0.0, d2.dx] by {
      ResetTick(s, d2);
    }
    assert Tick(a, false, d3).accX == a.accX + [Last(a.accX) + d3.dx] by {
      WalkStep(a, d3);
    }
  }

  /** Every tick ends with the fresh draws as the newest samples of their channels. */
  lemma TickNewest(s: State, setlaunch: bool, d: Draws)
    requires Valid(s)
    ensures var r := Tick(s, setlaunch, d);
      && (forall c :: c in Channels(r) ==> |c| > 0)
      && Last(r.times) == d.now && r.altitude == d.altitude
      && Last(r.speed) == d.speed && Last(r.pressures) == d.pressure
      && Last(r.gyroX) == d.yaw && Last(r.gyroY) == d.pitch && Last(r.gyroZ) == d.roll
  {
  }

  /** Appending an in-band value keeps a banded deque banded. */
  lemma AppendKeepsWithin(q: seq<real>, x: real, lo: real, hi: real)
    requires |q| <= MaxLength && Within(q, lo, hi) && lo <= x <= hi
    ensures Within(Append(q, x, MaxLength), lo, hi)
  {
    var r := Append(q, x, MaxLength);
    AppendIsNewest(q, x, MaxLength);
    forall i | 0 <= i < |r|
      ensures lo <= r[i] <= hi
    {
      assert r[i] == (q + [x])[|q| + 1 - |r| + i];
    }
  }

  /** Appending an in-band value keeps every sample but the oldest in band. */
  lemma AppendKeepsWithinButSeed(q: seq<real>, x: real, lo: real, hi: real)
    requires |q| <= MaxLength && WithinButSeed(q, lo, hi) && lo <= x <= hi
    ensures WithinButSeed(Append(q, x, MaxLength), lo, hi)
  {
    var r := Append(q, x, MaxLength);
    AppendIsNewest(q, x, MaxLength);
    forall i | 0 <= i < |r|
      ensures i > 0 ==> lo <= r[i] <= hi
      ensures r[i] == 0.0 || lo <= r[i] <= hi
    {
      assert r[i] == (q + [x])[|q| + 1 - |r| + i];
    }
  }

  /** Appending within `step` of the last value keeps a walk's steps bounded by `step`. */
  lemma AppendKeepsSteps(q: seq<real>, x: real, step: real)
    requires 0 < |q| <= MaxLength && Steps(q, step)
    requires -step <= x - Last(q) <= step
    ensures Steps(Append(q, x, MaxLength), step)
  {
    var r := Append(q, x, MaxLength);
    var off := |q| + 1 - |r|;
    AppendIsNewest(q, x, MaxLength);
    forall i | 0 < i < |r|
      ensures -step <= Gap(r, i) <= step
    {
      assert r[i] == (q + [x])[off + i] && r[i - 1] == (q + [x])[off + i - 1];
      if off + i < |q| {
        assert Gap(r, i) == Gap(q, off + i);
      }
    }
  }

  /** The reseeded state is within every band. */
  lemma ResetInBand(s: State)
    ensures InBand(Reset(s))
  {
  }

  /** A tick with in-range draws keeps the sample bands. */
  lemma AdvanceKeepsInBand(s: State, d: Draws)
    requires Valid(s) && InBand(s) && InRange(d)
    ensures InBand(Advance(s, d))
  {
    var r := Advance(s, d);
    assert r.speed == Append(s.speed, d.speed, MaxLength);
    assert r.gyroX == Append(s.gyroX, d.yaw, MaxLength);
    assert r.gyroY == Append(s.gyroY, d.pitch, MaxLength);
    assert r.gyroZ == Append(s.gyroZ, d.roll, MaxLength);
    assert r.pressures == Append(s.pressures, d.pressure, MaxLength);
    AppendKeepsWithin(s.speed, d.speed, 0.0, 300.0);
    AppendKeepsWithin(s.gyroX, d.yaw, -180.0, 180.0);
    AppendKeepsWithin(s.gyroY, d.pitch, -180.0, 180.0);
    AppendKeepsWithin(s.gyroZ, d.roll, -180.0, 180.0);
    AppendKeepsWithinButSeed(s.pressures, d.pressure, 900.0, 1100.0);
    if s.accX == [] {
      assert r.accX == [0.0] && r.accZ == [0.0] && r.accY == [0.0];
    } else {
      assert r.accY == Append(s.accY, d.altitude, MaxLength);
      AppendKeepsWithin(s.accY, d.altitude, 0.0, 1000.0);
      assert r.accX == Append(s.accX, Last(s.accX) + d.dx, MaxLength);
      AppendKeepsSteps(s.accX, Last(s.accX) + d.dx, 10.0);
      assert r.accZ == Append(s.accZ, Last(s.accZ) + d.dz, MaxLength);
      AppendKeepsSteps(s.accZ, Last(s.accZ) + d.dz, 10.0);
    }
  }

  /** An update, with or without reset, keeps the sample bands when its draws are in range. */
  lemma TickKeepsInBand(s: State, setlaunch: bool, d: Draws)
    requires Valid(s) && InBand(s) && InRange(d)
    ensures InBand(Tick(s, setlaunch, d))
  {
    if setlaunch {
      ResetInBand(s);
      AdvanceKeepsInBand(Reset(s), d);
    } else {
      AdvanceKeepsInBand(s, d);
    }
  }

  /** Every state reachable from program start with in-range draws keeps the bands. */
  lemma {:induction false} RunKeepsInBand(s: State, inputs: seq<Input>)
    requires Valid(s) && InBand(s) && AllInRange(inputs)
    ensures InBand(Run(s, inputs))
    decreases |inputs|
  {
    if inputs != [] {
      var s' := Tick(s, inputs[0].setlaunch, inputs[0].draws);
      TickKeepsInBand(s, inputs[0].setlaunch, inputs[0].draws);
      RunKeepsInBand(s', inputs[1..]);
    }
  }

  /**
    The timestamp deque always holds the 100 newest clock readings,
    whatever resets happened: `setlaunch` never clears it.
   */
  lemma {:induction false} RunTimes(s: State, inputs: seq<Input>)
    requires Valid(s)
    ensures Run(s, inputs).times == Newest(s.times + Clock(inputs), MaxLength)
    decreases |inputs|
  {
    if inputs == [] {
      assert s.times + Clock(inputs) == s.times;
    } else {
      var d := inputs[0].draws;
      var s' := Tick(s, inputs[0].setlaunch, d);
      RunTimes(s', inputs[1..]);
      TickTimes(s, inputs[0].setlaunch, d);
      AppendThenMore(s.times, d.now, Clock(inputs[1..]), MaxLength);
    }
  }

  /** Every update appends its clock reading to the timestamp deque, reset or not. */
  lemma TickTimes(s: State, setlaunch: bool, d: Draws)
    requires Valid(s)
    ensures Tick(s, setlaunch, d).times == Append(s.times, d.now, MaxLength)
  {
  }

  /** A tick without reset appends the drawn speed to the speed deque. */
  lemma TickSpeed(s: State, d: Draws)
    requires Valid(s)
    ensures Tick(s, false, d).speed == Append(s.speed, d.speed, MaxLength)
  {
  }

  /** Without a reset, the speed deque holds the 100 newest speeds. */
  lemma {:induction false} RunSpeeds(s: State, inputs: seq<Input>)
    requires Valid(s) && NoReset(inputs)
    ensures Run(s, inputs).speed == Newest(s.speed + Speeds(inputs), MaxLength)
    decreases |inputs|
  {
    if inputs == [] {
      assert s.speed + Speeds(inputs) == s.speed;
    } else {
      var d := inputs[0].draws;
      assert !inputs[0].setlaunch && NoReset(inputs[1..]);
      var s' := Tick(s, false, d);
      RunSpeeds(s', inputs[1..]);
      TickSpeed(s, d);
      AppendThenMore(s.speed, d.speed, Speeds(inputs[1..]), MaxLength);
    }
  }

  /** After N updates from program start without a reset, every history holds min(N, 100) samples. */
  lemma TicksFromStart(inputs: seq<Input>)
    requires NoReset(inputs)
    ensures forall c :: c in Channels(Run(Initial, inputs)) ==> |c| == Min(|inputs|, MaxLength)
    ensures |Run(Initial, inputs).times| == Min(|inputs|, MaxLength)
  {
    var r := Run(Initial, inputs);
    RunSpeeds(Initial, inputs);
    RunTimes(Initial, inputs);
    assert |r.speed| == Min(|inputs|, MaxLength);
    assert Channels(r) == [r.accX, r.accY, r.accZ, r.gyroX, r.gyroY, r.gyroZ, r.pressures, r.speed];
  }
}
