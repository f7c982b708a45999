/** The ASCII protocol of the RS-232 bus: decimal text, the command grammar
    the host writes, and the way the host checks and decodes an answer. */
module Wire {
  import opened Common

  /** Line feed, the end of every command and of every data answer. */
  const LF: byte := 10
  /** The single byte a device answers to a command that returns no data. */
  const ACK: byte := 6

  // ---------------------------------------------------------------------
  // Decimal text

  predicate IsDigit(c: char)
  {
    '0' <= c <= '9'
  }

  predicate AllDigits(s: string)
  {
    forall i :: 0 <= i < |s| ==> IsDigit(s[i])
  }

  function DigitChar(d: nat): (c: char)
    requires d < 10
    ensures IsDigit(c) && c as int - '0' as int == d
  {
    ('0' as int + d) as char
  }

  /** The decimal text of a natural number, without leading zeros. */
  function NatToString(n: nat): (s: string)
    ensures |s| >= 1 && AllDigits(s)
    ensures s[0] == '0' ==> n == 0
  {
    if n < 10 then [DigitChar(n)] else NatToString(n / 10) + [DigitChar(n % 10)]
  }

  /** str(i), which "{}".format(i) puts into a command. */
  function IntToString(i: int): (s: string)
    ensures |s| >= 1
    ensures forall k :: 0 <= k < |s| ==> s[k] == '-' || IsDigit(s[k])
  {
    if i < 0 then "-" + NatToString(-i) else NatToString(i)
  }

  function DigitsValue(s: string): nat
    requires AllDigits(s)
  {
    if s == [] then 0
    else 10 * DigitsValue(s[..|s| - 1]) + (s[|s| - 1] as int - '0' as int)
  }

  /** The value of a nonempty run of decimal digits; None for anything else. */
  function ParseNat(s: string): (r: Option<nat>)
    ensures r.Some? <==> |s| > 0 && AllDigits(s)
  {
    if |s| > 0 && AllDigits(s) then Some(DigitsValue(s)) else None
  }

  /** An optional minus sign followed by decimal digits. */
  function ParseInt(s: string): Option<int>
  {
    if |s| > 0 && s[0] == '-' then
      match ParseNat(s[1..])
      case Some(n) => Some(-(n as int))
      case None => None
    else
      match ParseNat(s)
      case Some(n) => Some(n)
      case None => None
  }

  lemma {:induction false} DigitsValueOfNatToString(n: nat)
    ensures DigitsValue(NatToString(n)) == n
  {
    if n >= 10 {
      var s := NatToString(n / 10);
      var c := DigitChar(n % 10);
      DigitsValueOfNatToString(n / 10);
      assert NatToString(n) == s + [c];
      assert (s + [c])[..|s|] == s;
    }
  }

  /** Reading back the decimal text of a number gives the number. */
  lemma ParseNatToString(n: nat)
    ensures ParseNat(NatToString(n)) == Some(n)
  {
    DigitsValueOfNatToString(n);
  }

  /** Reading back str(i) gives i. */
  lemma ParseIntToString(i: int)
    ensures ParseInt(IntToString(i)) == Some(i)
  {
    if i < 0 {
      var s := IntToString(i);
      assert s[1..] == NatToString(-i);
      ParseNatToString(-i);
    } else {
      ParseNatToString(i);
    }
  }

  /** str is injective. */
  lemma IntToStringInjective(i: int, j: int)
    requires IntToString(i) == IntToString(j)
    ensures i == j
  {
    ParseIntToString(i);
    ParseIntToString(j);
  }

  // ---------------------------------------------------------------------
  // Bytes and characters

  /** The characters of ASCII bytes, as int() reads a bytes object. */
  function AsciiChars(bs: seq<byte>): (s: string)
    ensures |s| == |bs|
    ensures forall i :: 0 <= i < |bs| ==> s[i] as int == bs[i] as int
  {
    seq(|bs|, i requires 0 <= i < |bs| => bs[i] as int as char)
  }

  predicate IsAscii(s: string)
  {
    forall i :: 0 <= i < |s| ==> s[i] as int < 128
  }

  /** bytes(s, 'ascii'). */
  function AsciiBytes(s: string): (bs: seq<byte>)
    requires IsAscii(s)
    ensures |bs| == |s|
    ensures AsciiChars(bs) == s
  {
    var bs := seq(|s|, i requires 0 <= i < |s| => s[i] as int as byte);
    assert forall i :: 0 <= i < |s| ==> AsciiChars(bs)[i] == s[i];
    bs
  }

  // ---------------------------------------------------------------------
  // The command grammar

  /** The eight commands the host sends, with the integers they carry.
      The range in WriteRange is the device's 1-based range number. */
  datatype Command =
    | ReadVoltage(address: int)
    | WriteVoltage(address: int, volts: int)
    | ReadRange(address: int)
    | WriteRange(address: int, range: int)
    | ReadOffset(address: int)
    | WriteOffset(address: int, offset: int)
    | Reset(address: int)
    | Measure(address: int)

  /** The text the host writes for a command. */
  function Format(c: Command): (s: string)
    ensures |s| > 0 && s[|s| - 1] == '\n'
    ensures s[0] == if c.Reset? then '*' else ':'
  {
    match c
    case ReadVoltage(a) => ":CONF" + IntToString(a) + ":VOLT?\n"
    case WriteVoltage(a, v) => ":CONF" + IntToString(a) + ":VOLT " + IntToString(v) + "\n"
    case ReadRange(a) => ":CONF" + IntToString(a) + ":CURR:RANG?\n"
    case WriteRange(a, n) => ":CONF" + IntToString(a) + ":CURR:RANG " + IntToString(n) + "\n"
    case ReadOffset(a) => ":CONF" + IntToString(a) + ":CURR:OFFS?\n"
    case WriteOffset(a, n) => ":CONF" + IntToString(a) + ":CURR:OFFS " + IntToString(n) + "\n"
    case Reset(a) => "*RST" + IntToString(a) + "\n"
    case Measure(a) => ":READ" + IntToString(a) + ":CURR?\n"
  }

  /** A single line: a line feed at the end and nowhere else. */
  predicate IsOneLine(s: string)
  {
    |s| > 0 && s[|s| - 1] == '\n' && forall i :: 0 <= i < |s| - 1 ==> s[i] != '\n'
  }

  predicate EndsWith(s: string, t: string)
  {
    |t| <= |s| && s[|s| - |t|..] == t
  }

  /** The index of the first c in s. */
  function Find(s: string, c: char): (r: Option<nat>)
    ensures r.Some? ==> r.value < |s| && s[r.value] == c && forall i :: 0 <= i < r.value ==> s[i] != c
    ensures r.None? ==> forall i :: 0 <= i < |s| ==> s[i] != c
  {
    if s == [] then None
    else if s[0] == c then Some(0)
    else match Find(s[1..], c)
      case None => None
      case Some(k) => Some(k + 1)
  }

  /** How a device reads a line of the grammar back into a command. */
  function ParseCommand(s: string): Option<Command>
  {
    if |s| == 0 || s[|s| - 1] != '\n' then None
    else
      var line := s[..|s| - 1];
      if "*RST" <= line then
        match ParseInt(line[4..])
        case Some(a) => Some(Reset(a))
        case None => None
      else if ":READ" <= line then
        if |line| >= 11 && EndsWith(line, ":CURR?") then
          match ParseInt(line[5..|line| - 6])
          case Some(a) => Some(Measure(a))
          case None => None
        else None
      else if ":CONF" <= line then ParseConf(line[5..])
      else None
  }

  /** The part of a :CONF line after ":CONF": an address, then a setting. */
  function ParseConf(body: string): Option<Command>
  {
    match Find(body, ':')
    case None => None
    case Some(k) =>
      match ParseInt(body[..k])
      case None => None
      case Some(a) => ParseSetting(a, body[k..])
  }

  function ParseSetting(a: int, tail: string): Option<Command>
  {
    if tail == ":VOLT?" then Some(ReadVoltage(a))
    else if tail == ":CURR:RANG?" then Some(ReadRange(a))
    else if tail == ":CURR:OFFS?" then Some(ReadOffset(a))
    else if ":VOLT " <= tail then
      match ParseInt(tail[6..])
      case Some(v) => Some(WriteVoltage(a, v))
      case None => None
    else if ":CURR:RANG " <= tail then
      match ParseInt(tail[11..])
      case Some(n) => Some(WriteRange(a, n))
      case None => None
    else if ":CURR:OFFS " <= tail then
      match ParseInt(tail[11..])
      case Some(n) => Some(WriteOffset(a, n))
      case None => None
    else None
  }

  lemma FindAfter(x: string, t: string, c: char)
    requires forall i :: 0 <= i < |x| ==> x[i] != c
    requires |t| > 0 && t[0] == c
    ensures Find(x + t, c) == Some(|x|)
  {
    var s := x + t;
    assert s[|x|] == c;
    assert forall i :: 0 <= i < |x| ==> s[i] != c;
  }

  lemma ParseConfSetting(a: int, tail: string)
    requires |tail| > 0 && tail[0] == ':'
    ensures ParseConf(IntToString(a) + tail) == ParseSetting(a, tail)
  {
    var x := IntToString(a);
    FindAfter(x, tail, ':');
    assert (x + tail)[..|x|] == x;
    assert (x + tail)[|x|..] == tail;
    ParseIntToString(a);
  }

  /** Every command is one line a device reads back as the same command:
      the grammar is unambiguous. */
  lemma ParseFormat(c: Command)
    ensures IsOneLine(Format(c))
    ensures ParseCommand(Format(c)) == Some(c)
  {
    OneLine(c);
    match c {
      case Reset(a) => ParseReset(a);
      case Measure(a) => ParseMeasure(a);
      case ReadVoltage(a) => ParseRead(c, ":VOLT?");
      case ReadRange(a) => ParseRead(c, ":CURR:RANG?");
      case ReadOffset(a) => ParseRead(c, ":CURR:OFFS?");
      case WriteVoltage(a, v) => ParseWriteVoltage(a, v);
      case WriteRange(a, n) => ParseWriteRange(a, n);
      case WriteOffset(a, n) => ParseWriteOffset(a, n);
    }
  }

  lemma ParseRead(c: Command, tail: string)
    requires c.ReadVoltage? || c.ReadRange? || c.ReadOffset?
    requires tail == (if c.ReadVoltage? then ":VOLT?" else if c.ReadRange? then ":CURR:RANG?" else ":CURR:OFFS?")
    ensures ParseCommand(Format(c)) == Some(c)
  {
    var a := c.address;
    assert ParseSetting(a, tail) == Some(c);
    ParseConfCommand(a, tail, c);
    assert Format(c) == ":CONF" + IntToString(a) + tail + "\n";
  }

  lemma ParseReset(a: int)
    ensures ParseCommand(Format(Reset(a))) == Some(Reset(a))
  {
    var x := IntToString(a);
    var s := Format(Reset(a));
    var line := s[..|s| - 1];
    assert line == "*RST" + x;
    assert line[4..] == x;
    ParseIntToString(a);
  }

  lemma ParseMeasure(a: int)
    ensures ParseCommand(Format(Measure(a))) == Some(Measure(a))
  {
    var x := IntToString(a);
    var s := Format(Measure(a));
    var line := s[..|s| - 1];
    assert line == ":READ" + x + ":CURR?";
    assert !("*RST" <= line) by { assert line[0] == ':'; }
    assert line[5..|line| - 6] == x;
    ParseIntToString(a);
  }

  /** A :CONF command: ":CONF" + str(a) + tail + LF. */
  lemma ParseConfCommand(a: int, tail: string, c: Command)
    requires |tail| > 0 && tail[0] == ':'
    requires ParseSetting(a, tail) == Some(c)
    ensures ParseCommand(":CONF" + IntToString(a) + tail + "\n") == Some(c)
  {
    var x := IntToString(a);
    var s := ":CONF" + x + tail + "\n";
    var line := s[..|s| - 1];
    assert line == ":CONF" + (x + tail);
    ConfLine(line, x + tail);
    ParseConfSetting(a, tail);
  }

  lemma ParseWriteVoltage(a: int, v: int)
    ensures ParseCommand(Format(WriteVoltage(a, v))) == Some(WriteVoltage(a, v))
  {
    var t := ":VOLT " + IntToString(v);
    SettingVoltage(a, v);
    ParseConfCommand(a, t, WriteVoltage(a, v));
    assert Format(WriteVoltage(a, v)) == ":CONF" + IntToString(a) + t + "\n";
  }

  lemma ParseWriteRange(a: int, n: int)
    ensures ParseCommand(Format(WriteRange(a, n))) == Some(WriteRange(a, n))
  {
    var t := ":CURR:RANG " + IntToString(n);
    SettingRange(a, n);
    ParseConfCommand(a, t, WriteRange(a, n));
    assert Format(WriteRange(a, n)) == ":CONF" + IntToString(a) + t + "\n";
  }

  lemma ParseWriteOffset(a: int, n: int)
    ensures ParseCommand(Format(WriteOffset(a, n))) == Some(WriteOffset(a, n))
  {
    var t := ":CURR:OFFS " + IntToString(n);
    SettingOffset(a, n);
    ParseConfCommand(a, t, WriteOffset(a, n));
    assert Format(WriteOffset(a, n)) == ":CONF" + IntToString(a) + t + "\n";
  }

  lemma SettingVoltage(a: int, v: int)
    ensures ParseSetting(a, ":VOLT " + IntToString(v)) == Some(WriteVoltage(a, v))
  {
    var y := IntToString(v);
    var t := ":VOLT " + y;
    assert t != ":VOLT?" by { assert t[5] != ":VOLT?"[5]; }
    assert t != ":CURR:RANG?" && t != ":CURR:OFFS?" by { assert t[1] == 'V'; }
    assert t[..6] == ":VOLT ";
    assert t[6..] == y;
    ParseIntToString(v);
  }

  lemma SettingRange(a: int, n: int)
    ensures ParseSetting(a, ":CURR:RANG " + IntToString(n)) == Some(WriteRange(a, n))
  {
    var y := IntToString(n);
    var t := ":CURR:RANG " + y;
    assert t != ":VOLT?" by { assert t[1] != ":VOLT?"[1]; }
    assert t != ":CURR:RANG?" by { assert t[10] != ":CURR:RANG?"[10]; }
    assert t != ":CURR:OFFS?" by { assert t[6] != ":CURR:OFFS?"[6]; }
    assert !(":VOLT " <= t) by { assert t[1] != ":VOLT "[1]; }
    assert t[..11] == ":CURR:RANG ";
    assert t[11..] == y;
    ParseIntToString(n);
  }

  lemma SettingOffset(a: int, n: int)
    ensures ParseSetting(a, ":CURR:OFFS " + IntToString(n)) == Some(WriteOffset(a, n))
  {
    var y := IntToString(n);
    var t := ":CURR:OFFS " + y;
    assert t != ":VOLT?" by { assert t[1] != ":VOLT?"[1]; }
    assert t != ":CURR:RANG?" by { assert t[6] != ":CURR:RANG?"[6]; }
    assert t != ":CURR:OFFS?" by { assert t[10] != ":CURR:OFFS?"[10]; }
    assert !(":VOLT " <= t) by { assert t[1] != ":VOLT "[1]; }
    assert !(":CURR:RANG " <= t) by { assert t[6] != ":CURR:RANG "[6]; }
    assert t[..11] == ":CURR:OFFS ";
    assert t[11..] == y;
    ParseIntToString(n);
  }

  lemma ConfLine(line: string, body: string)
    requires line == ":CONF" + body
    ensures !("*RST" <= line) && !(":READ" <= line) && ":CONF" <= line
    ensures line[5..] == body
  {
    assert line[0] == ':' && line[1] == 'C';
  }

  /** No line feed anywhere in s. */
  predicate NoLineFeed(s: string)
  {
    forall i :: 0 <= i < |s| ==> s[i] != '\n'
  }

  lemma JoinNoLineFeed(s: string, t: string)
    requires NoLineFeed(s) && NoLineFeed(t)
    ensures NoLineFeed(s + t)
  {
    assert forall i :: |s| <= i < |s + t| ==> (s + t)[i] == t[i - |s|];
  }

  /** A number between two pieces of text, the second a line, is a line. */
  lemma Framed(pre: string, x: string, post: string)
    requires NoLineFeed(pre) && NoLineFeed(x) && IsOneLine(post)
    ensures IsOneLine(pre + x + post)
  {
    JoinNoLineFeed(pre, x);
    var s := pre + x;
    assert forall i :: |s| <= i < |s + post| ==> (s + post)[i] == post[i - |s|];
  }

  lemma OneLine(c: Command)
    ensures IsOneLine(Format(c))
  {
    var x := IntToString(c.address);
    assert NoLineFeed(x);
    match c {
      case ReadVoltage(a) => Framed(":CONF", x, ":VOLT?\n");
      case ReadRange(a) => Framed(":CONF", x, ":CURR:RANG?\n");
      case ReadOffset(a) => Framed(":CONF", x, ":CURR:OFFS?\n");
      case Reset(a) => Framed("*RST", x, "\n");
      case Measure(a) => Framed(":READ", x, ":CURR?\n");
      case WriteVoltage(a, v) =>
        var y := IntToString(v);
        assert NoLineFeed(y);
        JoinNoLineFeed(":CONF", x);
        JoinNoLineFeed(":CONF" + x, ":VOLT ");
        Framed(":CONF" + x + ":VOLT ", y, "\n");
      case WriteRange(a, n) =>
        var y := IntToString(n);
        assert NoLineFeed(y);
        JoinNoLineFeed(":CONF", x);
        JoinNoLineFeed(":CONF" + x, ":CURR:RANG ");
        Framed(":CONF" + x + ":CURR:RANG ", y, "\n");
      case WriteOffset(a, n) =>
        var y := IntToString(n);
        assert NoLineFeed(y);
        JoinNoLineFeed(":CONF", x);
        JoinNoLineFeed(":CONF" + x, ":CURR:OFFS ");
        Framed(":CONF" + x + ":CURR:OFFS ", y, "\n");
    }
  }

  /** Distinct commands are distinct text. */
  lemma FormatInjective(c: Command, d: Command)
    requires Format(c) == Format(d)
    ensures c == d
  {
    ParseFormat(c);
    ParseFormat(d);
  }

  // ---------------------------------------------------------------------
  // Answers

  /** query's test of an answer, as written: too short when data is expected,
      not exactly the acknowledgement byte when none is, or empty at all.
      The final "or not answer" adds nothing: the test is its two cases,
      and the empty answer falls in both. */
  predicate Rejected(answer: seq<byte>, dataExpected: bool)
    ensures Rejected(answer, dataExpected) <==> if dataExpected then |answer| < 3 else answer != [ACK]
    ensures answer == [] ==> Rejected(answer, dataExpected)
  {
    ((|answer| < 3 && dataExpected) || (answer != [ACK] && !dataExpected)) || |answer| == 0
  }

  /** The bytes between the first and the last byte of a data answer. */
  function Payload(answer: seq<byte>): (p: seq<byte>)
    requires |answer| >= 2
    ensures |p| == |answer| - 2
  {
    answer[1..|answer| - 1]
  }

  /** What query returns for an answer: -1 for a rejected answer, 0 for an
      acknowledgement, otherwise int() of the payload, whose failure raises
      ValueError. */
  function DecodeReply(answer: seq<byte>, dataExpected: bool): (r: Outcome<int>)
    ensures r == Done(-1) <==> Rejected(answer, dataExpected)
    ensures r == Done(0) && !dataExpected <==> answer == [ACK] && !dataExpected
    ensures r.Raised? <==>
      dataExpected && |answer| >= 3 && !AllDigits(AsciiChars(answer[1..|answer| - 1]))
    ensures r.Raised? ==> r.error == ValueFault
    ensures r.Done? && r.value != -1 && dataExpected ==>
      |answer| >= 3 && ParseNat(AsciiChars(Payload(answer))) == Some(r.value)
  {
    if Rejected(answer, dataExpected) then Done(-1)
    else if !dataExpected then Done(0)
    else
      match ParseNat(AsciiChars(Payload(answer)))
      case Some(n) => Done(n as int)
      case None => Raised(ValueFault)
  }

  /** A data line: a framing byte, the decimal digits of n, a line feed. */
  function DataLine(lead: byte, n: nat): seq<byte>
  {
    [lead] + AsciiBytes(NatToString(n)) + [LF]
  }

  /** A device that answers with the digits of n makes query return n. */
  lemma DecodeDataLine(lead: byte, n: nat)
    ensures DecodeReply(DataLine(lead, n), true) == Done(n)
  {
    var digits := AsciiBytes(NatToString(n));
    var answer := DataLine(lead, n);
    assert Payload(answer) == digits;
    ParseNatToString(n);
  }

  /** A data line carries its value only if no line feed is among the digits. */
  lemma DataLineIsOneLine(lead: byte, n: nat)
    requires lead != LF
    ensures forall i :: 0 <= i < |DataLine(lead, n)| - 1 ==> DataLine(lead, n)[i] != LF
    ensures DataLine(lead, n)[|DataLine(lead, n)| - 1] == LF
  {
    var s := NatToString(n);
    var digits := AsciiBytes(s);
    assert forall i :: 0 <= i < |digits| ==> digits[i] as int == s[i] as int;
  }
}
