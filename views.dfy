/**
  The read-only derivations the dashboard computes from the telemetry
  histories on every update: the auto-fitted axis ranges of the two scene
  plots, the "current position" markers, the attitude glyph inputs, the
  8-row telemetry table and the speed gauge value.
 */
module Views {
  import opened BoundedDeque
  import opened Telemetry

  /** The 10 % head-room factor (the source's `1.1`). */
  const Margin: real := 11.0 / 10.0

  /** Floor of the side-view axis ranges. */
  const SideFloor: real := 25.0

  /** Floor of the top-down axis range. */
  const TopDownFloor: real := 50.0

  function Abs(x: real): real {
    if x < 0.0 then -x else x
  }

  function Max(a: real, b: real): real {
    if a >= b then a else b
  }

  /** Python's `max(s)` over a non-empty history. */
  function SeqMax(s: seq<real>): (m: real)
    requires |s| > 0
    ensures exists i :: 0 <= i < |s| && s[i] == m
    ensures forall i :: 0 <= i < |s| ==> s[i] <= m
  {
    if |s| == 1 then s[0]
    else
      var rest := SeqMax(s[1..]);
      assert forall i :: 1 <= i < |s| ==> s[i] == s[1..][i - 1];
      Max(s[0], rest)
  }

  /** Python's `min(s)` over a non-empty history. */
  function SeqMin(s: seq<real>): (m: real)
    requires |s| > 0
    ensures exists i :: 0 <= i < |s| && s[i] == m
    ensures forall i :: 0 <= i < |s| ==> m <= s[i]
  {
    if |s| == 1 then s[0]
    else
      var rest := SeqMin(s[1..]);
      assert forall i :: 1 <= i < |s| ==> s[i] == s[1..][i - 1];
      if s[0] <= rest then s[0] else rest
  }

  /**
    `max(floor, max(abs(max(s)), abs(min(s))) * 1.1)`: the smallest value
    that is at least `floor` and at least 1.1 times the magnitude of every
    sample. (Python's `max` raises on an empty deque; the histories are
    never empty when this runs.)
   */
  function AxisRange(s: seq<real>, floor: real): (r: real)
    requires |s| > 0
    ensures r >= floor
    ensures forall i :: 0 <= i < |s| ==> r >= Margin * Abs(s[i])
    ensures r == floor || exists i :: 0 <= i < |s| && r == Margin * Abs(s[i])
  {
    var hi := SeqMax(s);
    var lo := SeqMin(s);
    Max(floor, Max(Abs(hi), Abs(lo)) * Margin)
  }

  /**
    The top-down plot's range: the 50 floor against 1.1 times the largest
    magnitude found in either the X or the Z history, so that the plot stays
    square.
   */
  function TopDownRange(xs: seq<real>, zs: seq<real>): (r: real)
    requires |xs| > 0 && |zs| > 0
    ensures r >= TopDownFloor
    ensures forall i :: 0 <= i < |xs| ==> r >= Margin * Abs(xs[i])
    ensures forall i :: 0 <= i < |zs| ==> r >= Margin * Abs(zs[i])
    ensures r == TopDownFloor
         || (exists i :: 0 <= i < |xs| && r == Margin * Abs(xs[i]))
         || (exists i :: 0 <= i < |zs| && r == Margin * Abs(zs[i]))
  {
    var m := Max(Max(Abs(SeqMax(xs)), Abs(SeqMin(xs))), Max(Abs(SeqMax(zs)), Abs(SeqMin(zs))));
    Max(TopDownFloor, m * Margin)
  }

  /**
    The top-down range is the ordinary axis range of both histories taken
    together: one range fits both axes.
   */
  lemma TopDownFitsBoth(xs: seq<real>, zs: seq<real>)
    requires |xs| > 0 && |zs| > 0
    ensures TopDownRange(xs, zs) == AxisRange(xs + zs, TopDownFloor)
  {
    var a := TopDownRange(xs, zs);
    var b := AxisRange(xs + zs, TopDownFloor);
    var both := xs + zs;
    assert forall i :: 0 <= i < |xs| ==> both[i] == xs[i];
    assert forall i :: 0 <= i < |zs| ==> both[|xs| + i] == zs[i];
    assert a >= b by {
      if b != TopDownFloor {
        var k :| 0 <= k < |both| && b == Margin * Abs(both[k]);
        if k < |xs| {
          assert both[k] == xs[k];
        } else {
          assert both[k] == zs[k - |xs|];
        }
      }
    }
    assert b >= a by {
      if a != TopDownFloor {
        if exists i :: 0 <= i < |xs| && a == Margin * Abs(xs[i]) {
          var k :| 0 <= k < |xs| && a == Margin * Abs(xs[k]);
          assert both[k] == xs[k];
        } else {
          var k :| 0 <= k < |zs| && a == Margin * Abs(zs[k]);
          assert both[|xs| + k] == zs[k];
        }
      }
    }
  }

  /** A path that reached 40 m on the negative side gets a 44 m range; small paths get the floor. */
  lemma AxisRangeExamples()
    ensures AxisRange([-40.0, 10.0], SideFloor) == 44.0
    ensures AxisRange([0.0], SideFloor) == SideFloor
    ensures AxisRange([-12.0, 20.0], TopDownFloor) == TopDownFloor
  {
    assert SeqMax([-40.0, 10.0]) == 10.0 by {
      assert [-40.0, 10.0][1..] == [10.0];
    }
    assert SeqMin([-40.0, 10.0]) == -40.0 by {
      assert [-40.0, 10.0][1..] == [10.0];
    }
    assert SeqMax([-12.0, 20.0]) == 20.0 by {
      assert [-12.0, 20.0][1..] == [20.0];
    }
    assert SeqMin([-12.0, 20.0]) == -12.0 by {
      assert [-12.0, 20.0][1..] == [20.0];
    }
  }

  /** The "current position" marker coordinate: the newest sample, or 0 for an empty history. */
  function Marker(s: seq<real>): real {
    if |s| > 0 then Last(s) else 0.0
  }

  /** A scene plot: the path, the current and start markers, and the two axis intervals. */
  datatype Scene = Scene(
    pathX: seq<real>, pathY: seq<real>,
    current: (real, real), start: (real, real),
    xAxis: (real, real), yAxis: (real, real))

  /**
    The side view: X travel against altitude. The X axis is symmetric about
    0 and the altitude axis starts at 0; both reach at least the floor and
    1.1 times every sample's magnitude, so the whole X path is in view. The
    markers are the newest X and Y samples and the start marker is the origin.
   */
  function HorizGraph(s: State): (r: Scene)
    requires |s.accX| > 0 && |s.accY| > 0
    ensures r.pathX == s.accX && r.pathY == s.accY
    ensures r.current == (Marker(s.accX), Marker(s.accY)) && r.start == (0.0, 0.0)
    ensures r.xAxis.0 == -r.xAxis.1 && r.yAxis.0 == 0.0
    ensures r.xAxis.1 >= SideFloor && r.yAxis.1 >= SideFloor
    ensures forall i :: 0 <= i < |s.accX| ==> r.xAxis.1 >= Margin * Abs(s.accX[i])
    ensures forall i :: 0 <= i < |s.accY| ==> r.yAxis.1 >= Margin * Abs(s.accY[i])
    ensures forall i :: 0 <= i < |s.accX| ==> r.xAxis.0 <= s.accX[i] <= r.xAxis.1
  {
    var xRange := AxisRange(s.accX, SideFloor);
    var yRange := AxisRange(s.accY, SideFloor);
    Scene(s.accX, s.accY, (Marker(s.accX), Marker(s.accY)), (0.0, 0.0),
          (-xRange, xRange), (0.0, yRange))
  }

  /**
    The top-down view: X against Z travel on one square range, symmetric
    about 0, at least 50 and at least 1.1 times every X and every Z
    magnitude, so the whole path is in view. The markers are the newest X
    and Z samples and the start marker is the origin.
   */
  function TopDownGraph(s: State): (r: Scene)
    requires |s.accX| > 0 && |s.accZ| > 0
    ensures r.pathX == s.accX && r.pathY == s.accZ
    ensures r.current == (Marker(s.accX), Marker(s.accZ)) && r.start == (0.0, 0.0)
    ensures r.xAxis == r.yAxis && r.xAxis.0 == -r.xAxis.1 && r.xAxis.1 >= TopDownFloor
    ensures forall i :: 0 <= i < |s.accX| ==> r.xAxis.1 >= Margin * Abs(s.accX[i])
    ensures forall i :: 0 <= i < |s.accZ| ==> r.xAxis.1 >= Margin * Abs(s.accZ[i])
    ensures forall i :: 0 <= i < |s.accX| ==> r.xAxis.0 <= s.accX[i] <= r.xAxis.1
    ensures forall i :: 0 <= i < |s.accZ| ==> r.yAxis.0 <= s.accZ[i] <= r.yAxis.1
  {
    var r := TopDownRange(s.accX, s.accZ);
    Scene(s.accX, s.accZ, (Marker(s.accX), Marker(s.accZ)), (0.0, 0.0), (-r, r), (-r, r))
  }

  /**
    The rocket-body glyph before rotation: the closed rectangle (five
    points, first repeated last) and the nose marker as the sixth point,
    with the angle it is turned by (the negated angular rate, in degrees).
   */
  datatype Glyph = Glyph(points: seq<(real, real)>, rotation: real)

  const Outline: seq<(real, real)> :=
    [(-0.5, -2.0), (0.5, -2.0), (0.5, 2.0), (-0.5, 2.0), (-0.5, -2.0), (0.0, 2.0)]

  function GyroVisual(rate: real): (g: Glyph)
    ensures |g.points| == 6 && g.points[0] == g.points[4]
    ensures g.points[5].1 == g.points[2].1 == g.points[3].1
    ensures g.points[5].0 == (g.points[2].0 + g.points[3].0) / 2.0
    ensures g.rotation == -rate
  {
    Glyph(Outline, -rate)
  }

  /** One row of the raw telemetry table; the value is left unformatted. */
  datatype Row = Row(sensor: string, value: real, unit: string)

  const SensorNames: seq<string> :=
    ["Acc X", "Acc Y", "Acc Z", "Yaw", "Pitch", "Roll", "Pressure", "Speed"]

  const Units: seq<string> :=
    ["m/s²", "m/s²", "m/s²", "°/s", "°/s", "°/s", "hPa", "m/s"]

  /** The table rows: the i-th sensor name and unit with the i-th argument's value. */
  function RawTelemetry(ax: real, ay: real, az: real, gx: real, gy: real, gz: real,
                        pressure: real, speed: real): (r: seq<Row>)
    ensures |r| == |SensorNames| == |Units| == 8
    ensures forall i :: 0 <= i < 8 ==>
      r[i] == Row(SensorNames[i], [ax, ay, az, gx, gy, gz, pressure, speed][i], Units[i])
  {
    [Row("Acc X", ax, "m/s²"), Row("Acc Y", ay, "m/s²"), Row("Acc Z", az, "m/s²"),
     Row("Yaw", gx, "°/s"), Row("Pitch", gy, "°/s"), Row("Roll", gz, "°/s"),
     Row("Pressure", pressure, "hPa"), Row("Speed", speed, "m/s")]
  }

  /** Everything one update hands to the page. */
  datatype Dashboard = Dashboard(
    horiz: Scene, topDown: Scene, yaw: Glyph, pitch: Glyph, gauge: real, table: seq<Row>)

  /**
    The bundle returned after a tick. The table always has the eight rows
    in the fixed order and units, each showing the newest sample of its
    channel, and the gauge shows the same speed as the table's Speed row.
   */
  function Render(s: State): (r: Dashboard)
    requires Valid(s) && |s.accX| > 0
    ensures |r.table| == 8
    ensures r.gauge == Last(s.speed) && r.table[7].value == r.gauge
    ensures r.horiz.xAxis.1 >= SideFloor && r.horiz.yAxis.1 >= SideFloor
    ensures r.topDown.xAxis == r.topDown.yAxis && r.topDown.xAxis.1 >= TopDownFloor
  {
    Dashboard(
      HorizGraph(s), TopDownGraph(s),
      GyroVisual(Last(s.gyroX)), GyroVisual(Last(s.gyroY)),
      Last(s.speed),
      RawTelemetry(Last(s.accX), Last(s.accY), Last(s.accZ),
                   Last(s.gyroX), Last(s.gyroY), Last(s.gyroZ),
                   Last(s.pressures), Last(s.speed)))
  }

  /**
    Row by row, the table names the channel, gives its unit and shows the
    channel's newest sample, in the fixed order of the dashboard.
   */
  lemma TableShowsNewest(s: State)
    requires Valid(s) && |s.accX| > 0
    ensures forall i :: 0 <= i < 8 ==>
      var row := Render(s).table[i];
      row.sensor == SensorNames[i] && row.unit == Units[i] && row.value == Last(Channels(s)[i])
  {
    var t := Render(s).table;
    var c := Channels(s);
    assert c == [s.accX, s.accY, s.accZ, s.gyroX, s.gyroY, s.gyroZ, s.pressures, s.speed];
    assert t == RawTelemetry(Last(s.accX), Last(s.accY), Last(s.accZ),
                             Last(s.gyroX), Last(s.gyroY), Last(s.gyroZ),
                             Last(s.pressures), Last(s.speed));
  }

  /**
    From program start, one update without reset shows the rocket at the
    origin in both scenes, and the gauge and the table's Speed row both
    show the speed just drawn.
   */
  lemma FirstUpdateDashboard(d: Draws)
    ensures var r := Render(Tick(Initial, false, d));
      && r.horiz.current == (0.0, 0.0) && r.topDown.current == (0.0, 0.0)
      && r.gauge == d.speed && r.table[7].value == d.speed
      && r.table[0].value == 0.0 && r.table[2].value == 0.0
  {
    FirstTickStartsAtOrigin(Initial, d);
    TickNewest(Initial, false, d);
  }

  /**
    A launch-site reset followed by one more update, from any valid state:
    the side view's X path restarts at 0 and has been walked by exactly the
    two drawn steps since, and the gauge shows the last speed drawn.
   */
  lemma ResetThenUpdate(s: State, d2: Draws, d3: Draws)
    requires Valid(s)
    ensures var r := Render(Tick(Tick(s, true, d2), false, d3));
      && r.horiz.pathX == [0.0, d2.dx, d2.dx + d3.dx]
      && r.horiz.current.0 == d2.dx + d3.dx
      && r.gauge == d3.speed
  {
    ResetThenWalk(s, d2, d3);
    TickNewest(Tick(s, true, d2), false, d3);
  }

  /**
    After any update, the current-position markers show where the update
    left the rocket: just the drawn step from 0 after a reset, 0 on the
    first update, and otherwise the previous position plus the drawn step
    in X and Z, with the drawn altitude in Y.
   */
  lemma MarkerAfterTick(s: State, setlaunch: bool, d: Draws)
    requires Valid(s)
    ensures Marker(Tick(s, setlaunch, d).accX) ==
      if setlaunch then d.dx else if s.accX == [] then 0.0 else Last(s.accX) + d.dx
    ensures Marker(Tick(s, setlaunch, d).accZ) ==
      if setlaunch then d.dz else if s.accX == [] then 0.0 else Last(s.accZ) + d.dz
    ensures Marker(Tick(s, setlaunch, d).accY) ==
      if !setlaunch && s.accY == [] then 0.0 else d.altitude
  {
    if setlaunch {
      ResetTick(s, d);
    } else if s.accX != [] {
      WalkStep(s, d);
    }
  }
}
