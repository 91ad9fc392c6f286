/**
  The thrust-stand window's acquisition state: the recorded (time, thrust)
  samples, the scale's on/off flag, and the command lines written to the
  load-cell controller. The serial port is split into its two directions:
  each received line is a parameter, and what is written is kept as the
  sequence of lines sent so far.
 */
module ThrustStand {
  import opened SerialLine

  /** The controller command for the scale's new state: start when on, stop when off. */
  function ToggleCommand(on: bool): string {
    if on then "START" else "STOP"
  }

  /** A command as it goes down the line: the text and a line feed. */
  function CommandLine(command: string): string {
    command + "\n"
  }

  /** One row of the exported CSV file: the header, or one sample. */
  datatype CsvRow = HeaderRow(names: seq<string>) | SampleRow(time: real, thrust: real)

  const Header: CsvRow := HeaderRow(["Time", "Thrust"])

  class ThrustStandApp {
    var times: seq<real>
    var thrusts: seq<real>
    var scaleOn: bool
    /** Every line written to the controller, oldest first. */
    var sent: seq<string>

    /** The two histories are filled in lockstep. */
    ghost predicate Valid()
      reads this
    {
      |times| == |thrusts|
    }

    /** A new window: no samples, the scale off, nothing written yet. */
    constructor ()
      ensures Valid()
      ensures times == [] && thrusts == [] && !scaleOn && sent == []
    {
      times, thrusts := [], [];
      scaleOn := false;
      sent := [];
    }

    /** `send_command`: one line written; nothing else changes. */
    method SendCommand(command: string)
      modifies this
      ensures sent == old(sent) + [CommandLine(command)]
      ensures times == old(times) && thrusts == old(thrusts) && scaleOn == old(scaleOn)
    {
      sent := sent + [CommandLine(command)];
    }

    /** `tare_scale`: writes `TARE` and leaves the flag and the samples alone. */
    method TareScale()
      modifies this
      ensures sent == old(sent) + ["TARE\n"]
      ensures times == old(times) && thrusts == old(thrusts) && scaleOn == old(scaleOn)
    {
      SendCommand("TARE");
      assert CommandLine("TARE") == "TARE\n";
    }

    /** `toggle_scale`: flips the flag, then writes `START` if it is now on and `STOP` if off. */
    method ToggleScale()
      modifies this
      ensures scaleOn == !old(scaleOn)
      ensures sent == old(sent) + [if scaleOn then "START\n" else "STOP\n"]
      ensures times == old(times) && thrusts == old(thrusts)
    {
      scaleOn := !scaleOn;
      SendCommand(ToggleCommand(scaleOn));
      assert CommandLine("START") == "START\n" && CommandLine("STOP") == "STOP\n";
    }

    /**
      `update_graph`: read one line; if it is a reading, append its first
      value to the thrusts and its second to the times, otherwise change
      nothing. The flag does not gate recording, and nothing is written.
     */
    method UpdateGraph(line: seq<byte>, parse: string -> Option<real>)
      requires Valid()
      modifies this
      ensures Valid()
      ensures ReadSerialData(line, parse).None? ==> times == old(times) && thrusts == old(thrusts)
      ensures ReadSerialData(line, parse).Some? ==>
        var (thrust, time) := ReadSerialData(line, parse).value;
        thrusts == old(thrusts) + [thrust] && times == old(times) + [time]
      ensures scaleOn == old(scaleOn) && sent == old(sent)
    {
      var data := ReadSerialData(line, parse);
      if data.Some? {
        var (thrust, time) := data.value;
        thrusts := thrusts + [thrust];
        times := times + [time];
      }
    }

    /**
      `export_csv`: when a file name was chosen, the header and then one row
      per sample, pairing the two histories position by position in the
      order the samples arrived (as `zip` does, up to the shorter one); a
      cancelled dialog (empty name) writes nothing.
     */
    method ExportCsv(filename: string) returns (file: Option<seq<CsvRow>>)
      ensures filename == "" <==> file.None?
      ensures file.Some? ==>
        var rows := file.value;
        var n := if |times| <= |thrusts| then |times| else |thrusts|;
        |rows| == n + 1 && rows[0] == Header
        && forall i :: 0 <= i < n ==> rows[i + 1] == SampleRow(times[i], thrusts[i])
    {
      if filename == "" {
        return None;
      }
      var n := if |times| <= |thrusts| then |times| else |thrusts|;
      var rows := [Header];
      var i := 0;
      while i < n
        invariant 0 <= i <= n
        invariant |rows| == i + 1 && rows[0] == Header
        invariant forall k :: 0 <= k < i ==> rows[k + 1] == SampleRow(times[k], thrusts[k])
      {
        rows := rows + [SampleRow(times[i], thrusts[i])];
        i := i + 1;
      }
      return Some(rows);
    }
  }

  /**
    Two presses of Start/Stop bring the flag back to where it was, with a
    `START` and a `STOP` written in the order the new states call for.
   */
  method ToggleTwice(app: ThrustStandApp)
    modifies app
    ensures app.scaleOn == old(app.scaleOn)
    ensures app.sent == old(app.sent) + (if old(app.scaleOn) then ["STOP\n", "START\n"] else ["START\n", "STOP\n"])
    ensures app.times == old(app.times) && app.thrusts == old(app.thrusts)
  {
    ghost var before := app.sent;
    app.ToggleScale();
    ghost var first := app.sent[|app.sent| - 1];
    app.ToggleScale();
    assert app.sent == before + [first] + [app.sent[|app.sent| - 1]];
  }
}
