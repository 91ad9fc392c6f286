/**
  The thrust stand's line protocol, as the desktop program reads it: one
  line of bytes from the load-cell controller is decoded as ASCII, stripped
  of surrounding whitespace and split on commas; it is a reading only when
  there are exactly two fields and both parse as numbers.
 */
module SerialLine {

  newtype byte = x: int | 0 <= x < 256

  datatype Option<T> = None | Some(value: T)

  /** Every byte is below 128, so `bytes.decode('ascii')` succeeds. */
  predicate IsAscii(line: seq<byte>) {
    forall i :: 0 <= i < |line| ==> line[i] < 128
  }

  /** Every character is in the ASCII range. */
  predicate IsAsciiText(s: string) {
    forall i :: 0 <= i < |s| ==> s[i] as int < 128
  }

  /** `str.encode()` of an ASCII string: one byte per character. */
  function Encode(s: string): (r: seq<byte>)
    requires IsAsciiText(s)
    ensures |r| == |s| && IsAscii(r)
    ensures forall i :: 0 <= i < |s| ==> r[i] as int == s[i] as int
  {
    seq(|s|, i requires 0 <= i < |s| => s[i] as int as byte)
  }

  /**
    `line.decode('ascii')`: fails (the source's `UnicodeDecodeError`) as
    soon as one byte is 128 or above; otherwise one character per byte,
    and encoding the text gives the line back.
   */
  function DecodeAscii(line: seq<byte>): (r: Option<string>)
    ensures r.Some? <==> IsAscii(line)
    ensures r.Some? ==> IsAsciiText(r.value) && Encode(r.value) == line
    ensures r.Some? ==> |r.value| == |line| && forall i :: 0 <= i < |line| ==> r.value[i] == line[i] as int as char
  {
    if IsAscii(line) then
      var text := seq(|line|, i requires 0 <= i < |line| => line[i] as int as char);
      assert Encode(text) == line;
      Some(text)
    else None
  }

  /** Decoding an encoded ASCII string gives the string back. */
  lemma DecodeEncode(s: string)
    requires IsAsciiText(s)
    ensures DecodeAscii(Encode(s)) == Some(s)
  {
    var t := DecodeAscii(Encode(s)).value;
    assert |t| == |s|;
    forall i | 0 <= i < |s|
      ensures t[i] == s[i]
    {
      assert t[i] == Encode(s)[i] as int as char;
      assert t[i] as int == s[i] as int;
    }
    assert t == s;
  }

  /**
    The characters Python's `str.strip()` removes from ASCII text: tab,
    line feed, vertical tab, form feed, carriage return, the four
    information separators (28 to 31) and space.
   */
  predicate IsSpace(c: char) {
    ('\t' <= c <= '\r') || ('\U{1C}' <= c <= ' ')
  }

  /** Nothing but whitespace. */
  predicate AllSpace(t: string) {
    forall k :: 0 <= k < |t| ==> IsSpace(t[k])
  }

  /** Drops the leading whitespace: the result is the suffix that starts at the first non-space. */
  function StripStart(s: string): (r: string)
    ensures |r| <= |s| && r == s[|s| - |r|..]
    ensures forall k :: 0 <= k < |s| - |r| ==> IsSpace(s[k])
    ensures r == [] || !IsSpace(r[0])
  {
    if s != [] && IsSpace(s[0]) then StripStart(s[1..]) else s
  }

  /** Drops the trailing whitespace: the result is the prefix that ends at the last non-space. */
  function StripEnd(s: string): (r: string)
    ensures |r| <= |s| && r == s[..|r|]
    ensures forall k :: |r| <= k < |s| ==> IsSpace(s[k])
    ensures r == [] || !IsSpace(r[|r| - 1])
  {
    if s != [] && IsSpace(s[|s| - 1]) then StripEnd(s[..|s| - 1]) else s
  }

  /** `str.strip()`: both ends; the result neither starts nor ends with whitespace. */
  function Strip(s: string): (r: string)
    ensures r == [] || (!IsSpace(r[0]) && !IsSpace(r[|r| - 1]))
  {
    var t := StripStart(s);
    var r := StripEnd(t);
    assert r != [] ==> r[0] == t[0];
    r
  }

  /** Text that does not start or end with whitespace is left as it is. */
  lemma StripTrimmed(s: string)
    requires s == [] || (!IsSpace(s[0]) && !IsSpace(s[|s| - 1]))
    ensures Strip(s) == s
  {
  }

  /** Whitespace appended after trimmed text, such as a line terminator, is removed again. */
  lemma StripTrailing(s: string, tail: string)
    requires s == [] || (!IsSpace(s[0]) && !IsSpace(s[|s| - 1]))
    requires AllSpace(tail)
    ensures Strip(s + tail) == s
  {
    var u := s + tail;
    if s == [] {
      assert u == tail;
    } else {
      assert StripStart(u) == u;
      var r := StripEnd(u);
      assert r == u[..|s|] == s;
    }
  }

  /** Stripping twice is stripping once. */
  lemma StripIdempotent(s: string)
    ensures Strip(Strip(s)) == Strip(s)
  {
    StripTrimmed(Strip(s));
  }

  /** `sep.join(fields)` for a non-empty list of fields. */
  function Join(fields: seq<string>, sep: char): string
    requires |fields| > 0
  {
    if |fields| == 1 then fields[0]
    else fields[0] + [sep] + Join(fields[1..], sep)
  }

  /**
    `s.split(sep)` for a one-character separator: never an empty list (the
    empty string splits into one empty field), one field more than there
    are separators, no field holds the separator, and joining the fields
    with the separator gives `s` back.
   */
  function Split(s: string, sep: char): (fields: seq<string>)
    ensures |fields| > 0
    ensures forall i :: 0 <= i < |fields| ==> sep !in fields[i]
    ensures Join(fields, sep) == s
  {
    if s == [] then [[]]
    else
      var rest := Split(s[1..], sep);
      assert s == [s[0]] + s[1..];
      if s[0] == sep then
        [[]] + rest
      else
        var fields := [[s[0]] + rest[0]] + rest[1..];
        assert fields[1..] == rest[1..];
        assert Join(fields, sep) == [s[0]] + Join(rest, sep);
        fields
  }

  /** Splitting a joined list gives the list back when no field holds the separator. */
  lemma {:induction false} SplitJoin(fields: seq<string>, sep: char)
    requires |fields| > 0
    requires forall i :: 0 <= i < |fields| ==> sep !in fields[i]
    ensures Split(Join(fields, sep), sep) == fields
    decreases |fields|, |fields[0]|
  {
    var s := Join(fields, sep);
    if |fields| == 1 {
      NoSeparatorIsOneField(fields[0], sep);
    } else if fields[0] == [] {
      SplitJoin(fields[1..], sep);
      assert s == [sep] + Join(fields[1..], sep);
      assert s[1..] == Join(fields[1..], sep);
    } else {
      var c := fields[0][0];
      var shorter := [fields[0][1..]] + fields[1..];
      assert shorter[1..] == fields[1..];
      SplitJoin(shorter, sep);
      assert s == [c] + Join(shorter, sep);
      assert s[1..] == Join(shorter, sep);
      assert c != sep by {
        assert c == fields[0][0];
      }
      assert [c] + fields[0][1..] == fields[0];
    }
  }

  /** There is one field more than there are separators. */
  lemma {:induction false} SplitCount(s: string, sep: char)
    ensures |Split(s, sep)| == multiset(s)[sep] + 1
  {
    if s != [] {
      SplitCount(s[1..], sep);
      assert s == [s[0]] + s[1..];
      assert multiset(s) == multiset([s[0]]) + multiset(s[1..]);
    }
  }

  /** Text without the separator splits into itself alone. */
  lemma NoSeparatorIsOneField(s: string, sep: char)
    requires sep !in s
    ensures Split(s, sep) == [s]
  {
    SplitCount(s, sep);
    assert multiset(s)[sep] == 0;
  }

  /** The fields of a received line: decoded, stripped, split on commas. */
  function Fields(text: string): (fields: seq<string>)
    ensures |fields| == multiset(Strip(text))[','] + 1
  {
    SplitCount(Strip(text), ',');
    Split(Strip(text), ',')
  }

  /**
    `read_serial_data` on one received line. `parse` stands for Python's
    `float` on one field: `None` where `float` raises `ValueError`.
    Undecodable bytes, a field count other than two, or a field that does
    not parse all give `None`.
   */
  function ReadSerialData(line: seq<byte>, parse: string -> Option<real>): (r: Option<(real, real)>)
    ensures r.Some? ==> IsAscii(line)
  {
    match DecodeAscii(line)
    case None => None
    case Some(text) => ReadFields(Fields(text), parse)
  }

  /** `list(map(float, data))` when `len(data) == 2`: both fields must parse. */
  function ReadFields(data: seq<string>, parse: string -> Option<real>): (r: Option<(real, real)>)
    ensures r.Some? ==> |data| == 2
  {
    if |data| == 2 && parse(data[0]).Some? && parse(data[1]).Some? then
      Some((parse(data[0]).value, parse(data[1]).value))
    else None
  }

  /** An encoded ASCII line is read from its own fields. */
  lemma ReadEncoded(text: string, parse: string -> Option<real>)
    requires IsAsciiText(text)
    ensures ReadSerialData(Encode(text), parse) == ReadFields(Fields(text), parse)
  {
    DecodeEncode(text);
  }

  /**
    A line is accepted exactly when it is ASCII, its stripped text holds
    exactly one comma, and the text on each side of that comma parses; the
    reading is then the two parsed values, first field first.
   */
  lemma ReadSerialDataAccepts(line: seq<byte>, parse: string -> Option<real>)
    ensures ReadSerialData(line, parse).Some? <==>
      IsAscii(line) &&
      var text := DecodeAscii(line).value;
      multiset(Strip(text))[','] == 1 && parse(Fields(text)[0]).Some? && parse(Fields(text)[1]).Some?
    ensures ReadSerialData(line, parse).Some? ==>
      var fields := Fields(DecodeAscii(line).value);
      ReadSerialData(line, parse).value == (parse(fields[0]).value, parse(fields[1]).value)
  {
    if IsAscii(line) {
      var text := DecodeAscii(line).value;
      assert ReadSerialData(line, parse) == ReadFields(Fields(text), parse);
    }
  }

  /** A line with a byte of 128 or above is dropped, whatever it says. */
  lemma NonAsciiRejected(line: seq<byte>, parse: string -> Option<real>)
    requires exists i :: 0 <= i < |line| && line[i] >= 128
    ensures ReadSerialData(line, parse) == None
  {
  }

  /** A line whose stripped text has no comma, or more than one, is dropped. */
  lemma WrongFieldCountRejected(line: seq<byte>, parse: string -> Option<real>)
    requires IsAscii(line)
    requires multiset(Strip(DecodeAscii(line).value))[','] != 1
    ensures ReadSerialData(line, parse) == None
  {
  }

  /**
    What the controller sends, read back: two ASCII fields that do not
    contain a comma and carry no surrounding whitespace, joined by a comma
    and terminated by a line ending, give the two parsed values in order.
   */
  lemma ReadsWhatWasSent(thrust: string, time: string, ending: string, parse: string -> Option<real>)
    requires IsAsciiText(thrust) && IsAsciiText(time) && IsAsciiText(ending)
    requires ',' !in thrust && ',' !in time
    requires thrust != [] && !IsSpace(thrust[0])
    requires time != [] && !IsSpace(time[|time| - 1])
    requires AllSpace(ending)
    requires parse(thrust).Some? && parse(time).Some?
    ensures var line := thrust + "," + time + ending;
      IsAsciiText(line)
      && ReadSerialData(Encode(line), parse) == Some((parse(thrust).value, parse(time).value))
  {
    var line := thrust + "," + time + ending;
    SentLineIsAscii(thrust, time, ending);
    ReadEncoded(line, parse);
    SentLineFields(thrust, time, ending);
  }

  /** A line built from ASCII fields, a comma and an ASCII ending is ASCII. */
  lemma SentLineIsAscii(thrust: string, time: string, ending: string)
    requires IsAsciiText(thrust) && IsAsciiText(time) && IsAsciiText(ending)
    ensures IsAsciiText(thrust + "," + time + ending)
  {
    var body := thrust + "," + time;
    var line := body + ending;
    forall i | 0 <= i < |line|
      ensures line[i] as int < 128
    {
      if i < |thrust| {
        assert line[i] == thrust[i];
      } else if i == |thrust| {
        assert line[i] == ',';
      } else if i < |body| {
        assert line[i] == time[i - |thrust| - 1];
      } else {
        assert line[i] == ending[i - |body|];
      }
    }
  }

  /** The fields of such a line are the two values as sent. */
  lemma SentLineFields(thrust: string, time: string, ending: string)
    requires ',' !in thrust && ',' !in time
    requires thrust != [] && !IsSpace(thrust[0])
    requires time != [] && !IsSpace(time[|time| - 1])
    requires AllSpace(ending)
    ensures Fields(thrust + "," + time + ending) == [thrust, time]
  {
    var body := thrust + "," + time;
    assert thrust + "," + time + ending == body + ending;
    assert Strip(body + ending) == body by {
      assert body[0] == thrust[0] && body[|body| - 1] == time[|time| - 1];
      StripTrailing(body, ending);
    }
    assert Join([thrust, time], ',') == body;
    SplitJoin([thrust, time], ',');
  }

  /**
    A lone value without a comma, as from a controller that sends only the
    thrust, is no reading, whatever the value and the line ending.
   */
  lemma SingleFieldRejected(field: string, ending: string, parse: string -> Option<real>)
    requires IsAsciiText(field + ending)
    requires ',' !in field
    requires field == [] || (!IsSpace(field[0]) && !IsSpace(field[|field| - 1]))
    requires AllSpace(ending)
    ensures ReadSerialData(Encode(field + ending), parse) == None
  {
    ReadEncoded(field + ending, parse);
    StripTrailing(field, ending);
    NoSeparatorIsOneField(field, ',');
  }
}
