# Rocket ground-control telemetry and thrust-stand acquisition, in Dafny

This project models two pieces of state-keeping logic from a hobby rocketry
repository.

**The ground-control dashboard's simulated telemetry engine**
(`code/ground-control.py`).
- **State.** Eight bounded sample histories: accelerometer X/Y/Z, yaw, pitch,
  roll, speed and pressure. Each is a `deque(maxlen=100)`. There is also a
  timestamp deque and the latest altitude.
- **Update callback.** On each call, the engine optionally resets the launch
  site, then appends one sample to every history.
- **Rendering.** Each call produces the dashboard from the newest samples:
  - axis ranges fitted to the X/Y/Z paths;
  - "current position" markers;
  - the attitude glyph inputs;
  - the 8-row telemetry table;
  - the speed gauge.

**The thrust-stand window's acquisition state** (`code/thrust_plotter.py`).
- Lines from the load-cell controller are parsed into (thrust, time)
  readings.
- Readings are recorded in two lockstep lists.
- The window writes `TARE`, `START` and `STOP` commands.
- The samples can be exported as CSV rows.

Modules:
- `BoundedDeque` (`bounded_deque.dfy`): `deque.append` with a capacity,
  specified against the reference window "the `cap` newest of everything
  appended".
- `Telemetry` (`telemetry.dfy`): the engine's state as a value. The update
  step is `Tick`, which is the reset branch `Reset` followed by `Advance`.
  Runs of updates are `Run`. This module also proves the invariants (capacity,
  lockstep, sample bands, first-sample and reset behaviour) and the
  sliding-window facts.
- `Views` (`views.dfy`): the read-only derivations, which are the axis ranges,
  scenes, glyph inputs, table and gauge, bundled by `Render`.
- `GroundStation` (`ground_station.dfy`): the module-level globals as the
  fields of class `Station`. Its `UpdateGraphs` mutates them in place, and its
  contract ties the new fields to `Tick` of the old ones.
- `SerialLine` (`serial_line.dfy`): the line protocol: ASCII decoding,
  `str.strip()`, `str.split(',')` and `read_serial_data`.
- `ThrustStand` (`thrust_stand.dfy`): class `ThrustStandApp`, with its sample
  lists, scale flag and written command lines, and the CSV export loop.

How the non-deterministic and external parts are modelled:
- **Random draws and the clock.** The engine's `random.uniform` draws and
  `time.time()` are the fields of a `Draws` parameter. The predicate `InRange`
  gives the ranges they are drawn from.
- **Samples.** Samples are `real`, and the 1.1 margin is `11/10`.
- **Number parsing.** Python's `float()` on a field is a parameter
  `parse: string -> Option<real>`, where `None` stands for a `ValueError`.
- **The serial port.** A received line is a `seq<byte>` parameter. What is
  written is the sequence `sent` of lines.

## Model

| member | source | states |
|---|---|---|
| BoundedDeque.Append | code/ground-control.py:26-38 | appending to a deque of capacity `cap` grows it by one below capacity and otherwise keeps it at `cap`, and the appended value is the newest sample |
| BoundedDeque.AppendIsNewest | code/ground-control.py:26-38 | one append leaves exactly the `cap` newest of the old samples followed by the new value, oldest first |
| BoundedDeque.AppendToFull | code/ground-control.py:26-38 | appending to a full deque drops the oldest sample and keeps the `cap - 1` newest ones, then the new value, so the length stays `cap` |
| BoundedDeque.AppendAll | code/ground-control.py:26-38 | no number of appends makes a deque exceed its capacity |
| BoundedDeque.AppendAllIsNewest | code/ground-control.py:26-38 | any number of appends leaves exactly the `cap` newest of the prior contents and the appended values, in order |
| BoundedDeque.AppendThenMore | code/ground-control.py:26-38 | one append followed by more appends leaves the same window as taking all of them at once |
| BoundedDeque.NewestConcat | code/ground-control.py:26-38 | windowing the older samples first does not change the window of the whole history |
| Telemetry.Advance | code/ground-control.py:356-382 | the tick keeps every deque within 100, keeps the eight channels at equal length, and grows the channels and the timestamps by one unless they are full |
| Telemetry.Tick | code/ground-control.py:331-382 | one callback keeps capacity and lockstep. After a reset the channels hold exactly 2 samples, otherwise the channels grow by one up to 100, and the timestamps grow by one up to 100 either way |
| Telemetry.Run | code/ground-control.py:331-382 | any sequence of callbacks keeps capacity and lockstep |
| Telemetry.Clock | code/ground-control.py:356-357 | one clock reading per callback, in order |
| Telemetry.Speeds | code/ground-control.py:361 | one speed draw per callback, in order |
| Telemetry.FirstTickStartsAtOrigin | code/ground-control.py:364-366 | the first update from empty histories without reset puts exactly 0 in X, Y and Z |
| Telemetry.ResetTick | code/ground-control.py:334-382 | with `setlaunch`, every channel ends the update as two samples starting with 0: X is `[0, dx]`, Z is `[0, dz]` and Y is `[0, altitude]`. The timestamps are not cleared and gain this tick's time, and the altitude is this tick's draw |
| Telemetry.WalkStep | code/ground-control.py:367-371 | on a non-first update the new X and Z are the old ones plus the drawn deltas, and the new Y is the drawn altitude. Below capacity, X is the old path extended by that one step |
| Telemetry.ResetThenWalk | code/ground-control.py:334-371 | a reset followed by one more update leaves X as `[0, dx1, dx1 + dx2]`, with nothing from before the reset |
| Telemetry.TickNewest | code/ground-control.py:356-382 | after every update all eight channels are non-empty, so the `[-1]` reads are safe. The newest timestamp, speed, pressure and rates are this tick's draws, and so is the altitude |
| Telemetry.AppendKeepsWithin | code/ground-control.py:361 | appending an in-band value keeps a banded deque banded, even when the oldest sample is evicted |
| Telemetry.AppendKeepsWithinButSeed | code/ground-control.py:382 | appending an in-band value keeps every sample but the oldest in band, and the oldest either in band or 0 |
| Telemetry.AppendKeepsSteps | code/ground-control.py:368-371 | appending within `step` of the last sample keeps every consecutive difference within `step` |
| Telemetry.Reset | code/ground-control.py:334-354 | the reset branch leaves each of the eight channels as `[0]`, the altitude at 0 and the timestamps as they were, and keeps capacity and lockstep |
| Telemetry.ResetInBand | code/ground-control.py:346-354 | the reseeded zeros lie in every band |
| Telemetry.AdvanceKeepsInBand | code/ground-control.py:359-382 | with in-range draws, a tick keeps the bands. Speed stays in [0, 300], rates in [-180, 180], Y in [0, 1000] and pressure in [900, 1100] except for a reseeded 0 at the oldest position. X and Z move by at most 10 per sample |
| Telemetry.TickKeepsInBand | code/ground-control.py:331-382 | a callback, with or without reset, keeps the bands |
| Telemetry.RunKeepsInBand | code/ground-control.py:331-382 | every state reached by callbacks with in-range draws keeps the bands |
| Telemetry.TickTimes | code/ground-control.py:356-357 | every callback appends its clock reading to the timestamp deque, whether or not it resets |
| Telemetry.RunTimes | code/ground-control.py:334-357 | the timestamp deque always holds the 100 newest clock readings, whatever resets happened |
| Telemetry.TickSpeed | code/ground-control.py:361 | a callback without reset appends the drawn speed |
| Telemetry.RunSpeeds | code/ground-control.py:361 | without resets, the speed deque holds the 100 newest speeds drawn |
| Telemetry.TicksFromStart | code/ground-control.py:26-38 | after N callbacks from program start without reset, every channel and the timestamps hold min(N, 100) samples |
| Views.SeqMax | code/ground-control.py:129 | Python's `max` of a non-empty deque is one of its samples and no sample exceeds it |
| Views.SeqMin | code/ground-control.py:129 | Python's `min` of a non-empty deque is one of its samples and no sample is below it |
| Views.AxisRange | code/ground-control.py:128-130 | the side-view range is at least 25 and at least 1.1 times the magnitude of every sample. It is either the floor or exactly 1.1 times some sample's magnitude |
| Views.TopDownRange | code/ground-control.py:198-204 | the top-down range is at least 50 and at least 1.1 times every X and every Z magnitude. It is the floor or attained by one of them |
| Views.TopDownFitsBoth | code/ground-control.py:198-204 | the top-down range is the ordinary axis range of the X and Z samples taken together |
| Views.AxisRangeExamples | code/ground-control.py:128-130 | a path that reached -40 gets a range of 44, and paths that stay small get the floor |
| Views.MarkerAfterTick | code/ground-control.py:143-145 | after any update the current-position marker shows the position the update produced: the drawn step after a reset, 0 on the first update, otherwise the previous X (Z) plus the drawn step; in Y, 0 on the first update and the drawn altitude otherwise |
| Views.HorizGraph | code/ground-control.py:128-196 | the side view plots the X and Y paths. The X axis is symmetric about 0 and the altitude axis starts at 0; both half-ranges are at least 25 and at least 1.1 times every sample's magnitude, so every X sample lies inside the axis. The current marker is the newest X and Y and the start marker is the origin |
| Views.TopDownGraph | code/ground-control.py:198-272 | the top-down view plots X against Z on one square range, symmetric about 0, at least 50 and at least 1.1 times every X and Z magnitude, so the whole path is in view. The current marker is the newest X and Z and the start marker is the origin |
| Views.GyroVisual | code/ground-control.py:274-307 | the glyph is the closed body outline (first point repeated as the fifth) with the nose marker sixth, at the middle of the top edge, turned by the negated rate |
| Views.RawTelemetry | code/ground-control.py:309-319 | the table has eight rows; row i carries the i-th sensor name and unit of the fixed order and the i-th argument as its value |
| Views.Render | code/ground-control.py:434-439 | the dashboard has 8 table rows. The gauge is the newest speed and equals the table's Speed row. Both side-view axes reach at least 25, and the top-down plot is square with half-width at least 50 |
| Views.TableShowsNewest | code/ground-control.py:309-319 | row i names channel i in the order Acc X, Acc Y, Acc Z, Yaw, Pitch, Roll, Pressure, Speed, carries its fixed unit and shows that channel's newest sample |
| Views.FirstUpdateDashboard | code/ground-control.py:364-366 | the first update from program start shows the rocket at the origin in both scenes, and the gauge and Speed row show the speed just drawn |
| Views.ResetThenUpdate | code/ground-control.py:334-371 | after a reset and one more update, the side view's X path is `[0, dx1, dx1 + dx2]`, its marker is `dx1 + dx2` and the gauge shows the last speed |
| GroundStation.Station.constructor | code/ground-control.py:26-39 | program start: every deque empty, altitude 0, and the invariants hold |
| GroundStation.Station.UpdateGraphs | code/ground-control.py:331-439 | the fields after the callback are `Tick` of the fields before it, so capacity, lockstep and the bands are preserved. The returned dashboard is `Render` of the new fields, with every history non-empty |
| GroundStation.Station.ClearAndReseed | code/ground-control.py:334-354 | the reset block leaves every channel as `[0]`, the altitude at 0 and the timestamps untouched |
| GroundStation.Station.AppendSamples | code/ground-control.py:356-382 | the tick's in-place appends leave the fields equal to `Advance` of the old fields |
| GroundStation.Station.AppendPosition | code/ground-control.py:363-377 | X and Z step from their last values by the drawn deltas and Y takes the drawn altitude, each starting at 0 when empty. The other histories are untouched |
| GroundStation.Station.AppendReadings | code/ground-control.py:356-382 | the clock reading, the speed, the three rates and the pressure are each appended to their deque and `altitude` takes the drawn value. The position channels are untouched |
| SerialLine.Encode | code/thrust_plotter.py:55 | encoding ASCII text gives one byte per character with the same code |
| SerialLine.DecodeAscii | code/thrust_plotter.py:68 | decoding succeeds exactly when every byte is below 128, and encoding the decoded text gives the bytes back |
| SerialLine.DecodeEncode | code/thrust_plotter.py:68 | decoding encoded ASCII text gives the text back |
| SerialLine.StripStart | code/thrust_plotter.py:68 | removes exactly the leading run of whitespace |
| SerialLine.StripEnd | code/thrust_plotter.py:68 | removes exactly the trailing run of whitespace |
| SerialLine.Strip | code/thrust_plotter.py:68 | the stripped text neither starts nor ends with whitespace |
| SerialLine.StripTrailing | code/thrust_plotter.py:68 | a line terminator after trimmed text is stripped away and the text is kept whole |
| SerialLine.StripIdempotent | code/thrust_plotter.py:68 | stripping twice is stripping once |
| SerialLine.Split | code/thrust_plotter.py:68 | splitting never gives an empty list, no field holds the separator, and joining the fields with it gives the text back |
| SerialLine.SplitCount | code/thrust_plotter.py:68-69 | there is one field more than there are commas |
| SerialLine.SplitJoin | code/thrust_plotter.py:68 | splitting a comma-joined list of comma-free fields gives the list back |
| SerialLine.NoSeparatorIsOneField | code/thrust_plotter.py:68-69 | text without a comma is a single field |
| SerialLine.Fields | code/thrust_plotter.py:68-69 | the field count of a decoded line is the number of commas in its stripped text plus one |
| SerialLine.ReadSerialData | code/thrust_plotter.py:65-73 | a reading is only ever produced from an ASCII line |
| SerialLine.ReadFields | code/thrust_plotter.py:69-73 | a reading needs exactly two fields |
| SerialLine.ReadEncoded | code/thrust_plotter.py:65-73 | reading the bytes of ASCII text is reading the fields of its stripped text |
| SerialLine.ReadSerialDataAccepts | code/thrust_plotter.py:65-73 | a line gives a reading exactly when it is ASCII, its stripped text has exactly one comma and both fields parse. The reading is then the two parsed values, first field first |
| SerialLine.NonAsciiRejected | code/thrust_plotter.py:68-73 | a line with a byte of 128 or above gives no reading instead of raising |
| SerialLine.WrongFieldCountRejected | code/thrust_plotter.py:69-73 | a line whose stripped text has no comma, or more than one, gives no reading |
| SerialLine.ReadsWhatWasSent | code/thrust_plotter.py:65-73 | two comma-free, trimmed numeric fields joined by a comma and followed by a line ending are read back as the two parsed values in order |
| SerialLine.SingleFieldRejected | code/thrust_plotter.py:69-73 | a lone comma-free value followed by a line ending gives no reading |
| ThrustStand.ThrustStandApp.constructor | code/thrust_plotter.py:18-19 | a new window has no samples, the scale off and nothing written |
| ThrustStand.ThrustStandApp.SendCommand | code/thrust_plotter.py:54-55 | one line, the command followed by a line feed, is written, and nothing else changes |
| ThrustStand.ThrustStandApp.TareScale | code/thrust_plotter.py:57-58 | writes exactly `TARE\n` and changes neither the flag nor the samples |
| ThrustStand.ThrustStandApp.ToggleScale | code/thrust_plotter.py:60-63 | negates the flag, then writes `START\n` if it is now on and `STOP\n` otherwise. The samples are unchanged |
| ThrustStand.ThrustStandApp.UpdateGraph | code/thrust_plotter.py:75-81 | without a reading, the samples are unchanged. With a reading, its first value is appended to the thrusts and its second to the times. The lists stay in lockstep, and the flag and the written lines are untouched |
| ThrustStand.ThrustStandApp.ExportCsv | code/thrust_plotter.py:84-91 | with a file name chosen, the rows are the header `Time,Thrust` followed by one `(time, thrust)` row per sample position, in insertion order. A cancelled dialog writes nothing |
| ThrustStand.ToggleTwice | code/thrust_plotter.py:60-63 | toggling twice restores the flag and writes the two commands in order |

Modelling choices that follow the code closely:
- **Histories are never empty when plotted.** Python's `max` and `min` raise
  on an empty deque (`code/ground-control.py:129-130`, `200-204`), so
  `AxisRange`, `HorizGraph` and `TopDownGraph` require non-empty histories.
  `UpdateGraphs` and `TickNewest` show that they are never empty at that
  point.
- **The reset input.** `setlaunch` is the launch-site button's cumulative
  click count, and nothing sets it back to 0 (`code/ground-control.py:328`,
  `334`), so once the button has been clicked every later call resets
  again. It is modelled as a plain boolean input of each call.
- **Reset and tick in one call.** A call with a reset clears and reseeds the
  channels and then appends this call's samples, so `Tick` is `Advance`
  after `Reset` and a reset call leaves two samples per channel.
- **Timestamps on reset.** The reset clears the eight channels and
  `altitude` but not `times`.

## Left out

- Plotly figures, page layout, the Dash/Flask server, PyQt widgets, the
  `QTimer`, pyqtgraph plotting and the Stop/Start button label: these are
  presentation and wiring only.
- Views.GyroVisual: does not model the rotation itself. Only the unrotated
  6-point outline, with the nose marker last, and the negated rate it is
  turned by are kept, because the rotation is floating-point trigonometry
  with no exact statement.
- Views.RawTelemetry: keeps the unformatted sample value, not the `:.2f`
  string, because decimal rendering of floats is outside the model.
- Floating point in general: samples are exact reals and 1.1 is `11/10`, so
  rounding in `abs(...) * 1.1` and in the random walk is not modelled.
- `random.uniform` and `time.time()` are not modelled as generators. Their
  results are parameters whose ranges are preconditions (`InRange`), and the
  band lemmas assume them.
- The callback's `n` (interval count) argument is unused by the code and is
  not modelled.
- The serial port is not modelled: opening the device, baud rate, `readline`
  timeouts and disconnects. A received line is a parameter, and writes are
  recorded as text lines rather than bytes.
- SerialLine.ReadSerialData: Python's `float` is a parameter. Its acceptance
  of `nan`, `inf`, underscores and surrounding whitespace inside a field is
  whatever that parameter says.
- SerialLine.IsSpace: covers only the ASCII whitespace that `str.strip()`
  removes, because the text reaching it has already been decoded as ASCII.
- ThrustStand.ThrustStandApp.ExportCsv: the file dialog is the `filename`
  parameter. Opening the file, the `csv` module's quoting and the float to
  text conversion are not modelled, so the result is the sequence of rows.
- The `print` in `update_graph` is not modelled: console output only.
- Concurrent callbacks: the Dash server started at `code/ground-control.py:442`
  may run `update_graphs` calls on several threads at once over the same
  module-level deques, and an interleaved reset could break lockstep.
  Callbacks are modelled as running one at a time, and `Valid`, the bands
  and the run lemmas are proved only under that assumption.
- The deques and lists are modelled as sequence values held in fields, so
  aliasing of the module-level deques is not captured. Nothing in the code
  aliases them.
