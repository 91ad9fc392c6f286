/**
  The ground-control program's module-level state and its update callback.
  The deques and `altitude` are fields of one object, and the callback
  rewrites them in place: clearing and reseeding on a launch-site reset,
  then appending one sample per history, before rendering the dashboard.
 */
module GroundStation {
  import opened BoundedDeque
  import opened Telemetry
  import opened Views

  class Station {
    var times: seq<real>
    var accX: seq<real>
    var accY: seq<real>
    var accZ: seq<real>
    var gyroX: seq<real>
    var gyroY: seq<real>
    var gyroZ: seq<real>
    var speed: seq<real>
    var pressures: seq<real>
    var altitude: real

    /** The fields as one telemetry state value. */
    function Snapshot(): State
      reads this
    {
      State(times, accX, accY, accZ, gyroX, gyroY, gyroZ, speed, pressures, altitude)
    }

    /** Capacities, lockstep lengths and sample bands. */
    ghost predicate Valid()
      reads this
    {
      Telemetry.Valid(Snapshot()) && InBand(Snapshot())
    }

    /** Program start: every deque empty, `altitude = 0`. */
    constructor ()
      ensures Valid() && Snapshot() == Initial
    {
      times, accX, accY, accZ := [], [], [], [];
      gyroX, gyroY, gyroZ := [], [], [];
      speed, pressures := [], [];
      altitude := 0.0;
    }

    /**
      `update_graphs`: with `setlaunch`, reset first; then one tick with the
      clock reading and random draws in `d`; then render. The new state is
      exactly `Tick` of the old one, so every property proved of `Tick`
      (capacity, lockstep, bands, first-sample and reset behaviour) holds of
      the fields, and the returned dashboard is `Render` of the new state,
      whose `[-1]` reads are safe because every history is non-empty.
     */
    method UpdateGraphs(setlaunch: bool, d: Draws) returns (out: Dashboard)
      requires Valid() && InRange(d)
      modifies this
      ensures Valid()
      ensures Snapshot() == Tick(old(Snapshot()), setlaunch, d)
      ensures |accX| > 0 && out == Render(Snapshot())
    {
      if setlaunch {
        ClearAndReseed();
      }
      AppendSamples(d);
      TickKeepsInBand(old(Snapshot()), setlaunch, d);
      out := Render(Snapshot());
    }

    /**
      The `if setlaunch:` block: each of the eight channels is cleared and
      then given a single 0 sample, which leaves it as `[0]`; `altitude`
      goes back to 0. `times` is not touched.
     */
    method ClearAndReseed()
      modifies this
      ensures Snapshot() == Reset(old(Snapshot()))
    {
      accX, accY, accZ := [0.0], [0.0], [0.0];
      gyroX, gyroY, gyroZ := [0.0], [0.0], [0.0];
      speed, pressures := [0.0], [0.0];
      altitude := 0.0;
    }

    /** The rest of the callback's state changes: one new sample in every history. */
    method AppendSamples(d: Draws)
      requires Telemetry.Valid(Snapshot())
      modifies this
      ensures Snapshot() == Advance(old(Snapshot()), d)
    {
      ghost var next := Advance(Snapshot(), d);
      AppendPosition(d);
      AppendReadings(d);
      assert Snapshot() == State(next.times, next.accX, next.accY, next.accZ, next.gyroX,
        next.gyroY, next.gyroZ, next.speed, next.pressures, next.altitude);
    }

    /**
      The three position channels: X and Z walk from their last value by the
      drawn steps, Y takes the drawn altitude; each starts at 0 when empty.
     */
    method AppendPosition(d: Draws)
      requires Telemetry.Valid(Snapshot())
      modifies this
      ensures var next := Advance(old(Snapshot()), d);
        accX == next.accX && accY == next.accY && accZ == next.accZ
      ensures times == old(times) && gyroX == old(gyroX) && gyroY == old(gyroY) && gyroZ == old(gyroZ)
      ensures speed == old(speed) && pressures == old(pressures) && altitude == old(altitude)
    {
      ghost var next := Advance(Snapshot(), d);
      var ax, az;
      if accX == [] {
        ax := Append(accX, 0.0, MaxLength);
        az := Append(accZ, 0.0, MaxLength);
      } else {
        ax := Append(accX, Last(accX) + d.dx, MaxLength);
        az := Append(accZ, Last(accZ) + d.dz, MaxLength);
      }
      var ay;
      if accY == [] {
        ay := Append(accY, 0.0, MaxLength);
      } else {
        ay := Append(accY, d.altitude, MaxLength);
      }
      assert ax == next.accX && ay == next.accY && az == next.accZ;
      accX, accY, accZ := ax, ay, az;
    }

    /** The timestamp, the angular rates, the speed and the pressure: each drawn value appended; `altitude` updated. */
    method AppendReadings(d: Draws)
      requires |times| <= MaxLength && |gyroX| <= MaxLength && |gyroY| <= MaxLength && |gyroZ| <= MaxLength
      requires |speed| <= MaxLength && |pressures| <= MaxLength
      modifies this
      ensures times == Append(old(times), d.now, MaxLength)
      ensures gyroX == Append(old(gyroX), d.yaw, MaxLength) && gyroY == Append(old(gyroY), d.pitch, MaxLength)
      ensures gyroZ == Append(old(gyroZ), d.roll, MaxLength)
      ensures speed == Append(old(speed), d.speed, MaxLength) && pressures == Append(old(pressures), d.pressure, MaxLength)
      ensures altitude == d.altitude
      ensures accX == old(accX) && accY == old(accY) && accZ == old(accZ)
    {
      times, speed, altitude := Append(times, d.now, MaxLength), Append(speed, d.speed, MaxLength), d.altitude;
      gyroX, gyroY, gyroZ := Append(gyroX, d.yaw, MaxLength), Append(gyroY, d.pitch, MaxLength), Append(gyroZ, d.roll, MaxLength);
      pressures := Append(pressures, d.pressure, MaxLength);
    }
  }

}
