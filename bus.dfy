/** FMBICPlusHost: the device that owns the serial port and serves up to 16
    addressed channels over it. Every command goes through Query, one
    write-then-read exchange at a time. The port is simulated: it records
    what is written and hands out one scripted delivery per exchange. */
module Bus {
  import opened Common
  import opened Wire
  import ValueClamp

  /** FMBICPlusHost.MAX_CHANNELS: the highest address on the bus. */
  const MAX_CHANNELS: int := 15

  predicate ValidChannel(a: int)
  {
    0 <= a <= MAX_CHANNELS
  }

  // ---------------------------------------------------------------------
  // The simulated line

  /** What the line delivers during one exchange: bytes, or a serial exception. */
  datatype Incoming = Line(bytes: seq<byte>) | Broken

  /** The delivery of the next exchange. When the script is used up nothing
      arrives and the read times out empty. */
  function First(script: seq<Incoming>): Incoming
  {
    if script == [] then Line([]) else script[0]
  }

  function Drop(script: seq<Incoming>, k: nat): (rest: seq<Incoming>)
    ensures k <= |script| ==> rest == script[k..]
    ensures k > |script| ==> rest == []
  {
    if k <= |script| then script[k..] else []
  }

  function Take(script: seq<Incoming>, k: nat): seq<Incoming>
  {
    if k <= |script| then script[..k] else script
  }

  /** The delivery of the exchange k places ahead. */
  function Nth(script: seq<Incoming>, k: nat): Incoming
  {
    First(Drop(script, k))
  }

  /** serial.readline(): the bytes up to and including the first line feed,
      or all of them when no line feed arrives before the timeout. */
  function ReadLine(bs: seq<byte>): (line: seq<byte>)
    ensures line <= bs
    ensures forall i :: 0 <= i < |line| - 1 ==> line[i] != LF
    ensures line == bs || (|line| > 0 && line[|line| - 1] == LF)
  {
    if bs == [] then []
    else if bs[0] == LF then [LF]
    else [bs[0]] + ReadLine(bs[1..])
  }

  /** serial.read(): one byte, or none at the timeout. */
  function ReadByte(bs: seq<byte>): (b: seq<byte>)
    ensures b <= bs && |b| == (if bs == [] then 0 else 1)
  {
    if bs == [] then [] else bs[..1]
  }

  /** What the port's read call gives for a delivery. */
  function Received(inc: Incoming, dataExpected: bool): Outcome<seq<byte>>
  {
    match inc
    case Broken => Raised(SerialFault)
    case Line(bs) => Done(if dataExpected then ReadLine(bs) else ReadByte(bs))
  }

  /** What query returns for a delivery: -1, 0 or the decoded value, or the
      exception it raises. */
  function Exchange(inc: Incoming, dataExpected: bool): (r: Outcome<int>)
    ensures r == Raised(SerialFault) <==> inc == Broken
  {
    match Received(inc, dataExpected)
    case Raised(e) => Raised(e)
    case Done(answer) => DecodeReply(answer, dataExpected)
  }

  lemma {:induction false} ReadLineStopsAtLineFeed(line: seq<byte>, rest: seq<byte>)
    requires |line| > 0 && line[|line| - 1] == LF
    requires forall i :: 0 <= i < |line| - 1 ==> line[i] != LF
    ensures ReadLine(line + rest) == line
  {
    var bs := line + rest;
    if |line| > 1 {
      assert bs[1..] == line[1..] + rest;
      ReadLineStopsAtLineFeed(line[1..], rest);
    }
  }

  /** A device answering a data command with a framed number makes query
      return that number, whatever follows the line. */
  lemma ExchangeDataLine(lead: byte, n: nat, rest: seq<byte>)
    requires lead != LF
    ensures Exchange(Line(DataLine(lead, n) + rest), true) == Done(n)
  {
    DataLineIsOneLine(lead, n);
    ReadLineStopsAtLineFeed(DataLine(lead, n), rest);
    DecodeDataLine(lead, n);
  }

  /** A device acknowledging a command makes query return 0. */
  lemma ExchangeAck(rest: seq<byte>)
    ensures Exchange(Line([ACK] + rest), false) == Done(0)
  {
    assert ReadByte([ACK] + rest) == [ACK];
  }

  /** Silence until the timeout is a rejected answer, -1, either way. */
  lemma ExchangeSilence(dataExpected: bool)
    ensures Exchange(Line([]), dataExpected) == Done(-1)
  {
  }

  /** A data command answered by fewer than three bytes, or a command without
      data answered by anything but the acknowledgement byte, gives -1. */
  lemma ExchangeRejects(bs: seq<byte>, dataExpected: bool)
    requires dataExpected ==> |ReadLine(bs)| < 3
    requires !dataExpected ==> ReadByte(bs) != [ACK]
    ensures Exchange(Line(bs), dataExpected) == Done(-1)
  {
  }

  // ---------------------------------------------------------------------
  // The commands, as what they write and what they return

  /** The commands one call writes to the port, and what the call returns
      or raises. */
  datatype Call<T> = Call(cmds: seq<string>, reply: Outcome<T>)

  /** read_voltage, read_range and read_offset: -1 for an address off the
      bus, otherwise one query that expects data. */
  function ReadCall(c: Command, inc: Incoming): (call: Call<int>)
    requires c.ReadVoltage? || c.ReadRange? || c.ReadOffset?
    ensures call.cmds == [] <==> !ValidChannel(c.address)
    ensures call.cmds == [] ==> call.reply == Done(-1)
    ensures forall k :: 0 <= k < |call.cmds| ==>
      IsOneLine(call.cmds[k]) && ParseCommand(call.cmds[k]) == Some(c)
    ensures call.cmds != [] ==> call.cmds == [Format(c)] && call.reply == Exchange(inc, true)
  {
    ParseFormat(c);
    if ValidChannel(c.address) then Call([Format(c)], Exchange(inc, true))
    else Call([], Done(-1))
  }

  /** write_voltage's guard on its payload [channel, volts]. */
  predicate WriteVoltageAccepts(data: seq<int>)
  {
    |data| == 2 && ValidChannel(data[0]) &&
    ValueClamp.MIN_VOLTAGE <= data[1] <= ValueClamp.MAX_VOLTAGE
  }

  /** write_voltage: one query without data when the guard holds, otherwise
      nothing. The query's -1 or 0 is dropped. */
  function WriteVoltageCall(data: seq<int>, inc: Incoming): (call: Call<()>)
    ensures call.cmds != [] <==> WriteVoltageAccepts(data)
    ensures WriteVoltageAccepts(data) ==>
      call.cmds == [Format(WriteVoltage(data[0], data[1]))] &&
      call.reply == Discard(Exchange(inc, false))
    ensures !WriteVoltageAccepts(data) ==> call.reply == Done(())
  {
    if WriteVoltageAccepts(data) then
      Call([Format(WriteVoltage(data[0], data[1]))], Discard(Exchange(inc, false)))
    else Call([], Done(()))
  }

  /** write_offset's guard on its payload [channel, offset]; the upper bound
      is strict. */
  predicate WriteOffsetAccepts(data: seq<int>)
  {
    |data| == 2 && ValidChannel(data[0]) &&
    ValueClamp.MIN_OFFSET <= data[1] < ValueClamp.MAX_OFFSET
  }

  /** write_offset: one query without data when the guard holds, otherwise
      nothing. */
  function WriteOffsetCall(data: seq<int>, inc: Incoming): (call: Call<()>)
    ensures call.cmds != [] <==> WriteOffsetAccepts(data)
    ensures WriteOffsetAccepts(data) ==>
      call.cmds == [Format(WriteOffset(data[0], data[1]))] &&
      call.reply == Discard(Exchange(inc, false))
    ensures !WriteOffsetAccepts(data) ==> call.reply == Done(())
  {
    if WriteOffsetAccepts(data) then
      Call([Format(WriteOffset(data[0], data[1]))], Discard(Exchange(inc, false)))
    else Call([], Done(()))
  }

  /** write_range: no guard; a payload shorter than two raises IndexError
      before anything is written, extra elements are ignored. */
  function WriteRangeCall(data: seq<int>, inc: Incoming): (call: Call<()>)
    ensures |data| < 2 <==> call.reply == Raised(IndexFault)
    ensures |data| < 2 ==> call.cmds == []
    ensures |data| >= 2 ==>
      call.cmds == [Format(WriteRange(data[0], data[1]))] &&
      call.reply == Discard(Exchange(inc, false))
  {
    if |data| < 2 then Call([], Raised(IndexFault))
    else Call([Format(WriteRange(data[0], data[1]))], Discard(Exchange(inc, false)))
  }

  /** reset: no guard at all, one query without data. */
  function ResetCall(channel: int, inc: Incoming): (call: Call<()>)
    ensures call.cmds == [Format(Reset(channel))]
    ensures call.reply.Raised? <==> inc == Broken
  {
    Call([Format(Reset(channel))], Discard(Exchange(inc, false)))
  }

  /** measure: for a payload [channel, hint] with a channel on the bus, one
      query that expects data; -1 for any other payload. */
  function MeasureCall(data: seq<int>, inc: Incoming): (call: Call<int>)
    ensures call.cmds == [] <==> !(|data| == 2 && ValidChannel(data[0]))
    ensures call.cmds == [] ==> call.reply == Done(-1)
    ensures call.cmds != [] ==>
      call.cmds == [Format(Measure(data[0]))] && call.reply == Exchange(inc, true)
  {
    if |data| == 2 && ValidChannel(data[0]) then Call([Format(Measure(data[0]))], Exchange(inc, true))
    else Call([], Done(-1))
  }

  /** The strict bound of write_offset: offset 99 is in the attribute's range
      and fit_offset_range keeps it, yet it is never sent. */
  lemma WriteOffsetNeverSendsMaximum(channel: int, inc: Incoming)
    ensures ValueClamp.FitOffsetRange(ValueClamp.MAX_OFFSET) == ValueClamp.MAX_OFFSET
    ensures WriteOffsetCall([channel, ValueClamp.MAX_OFFSET], inc) == Call([], Done(()))
  {
  }

  /** What write_voltage and write_offset let through is exactly what needs
      no clamping (up to the strict bound of the offset). */
  lemma WriteGuardsAgreeWithClamps(a: int, v: int, o: int, inc: Incoming)
    requires ValidChannel(a)
    ensures WriteVoltageCall([a, v], inc).cmds != [] <==> ValueClamp.FitVoltageRange(v) == v
    ensures WriteOffsetCall([a, o], inc).cmds != [] <==>
      (ValueClamp.FitOffsetRange(o) == o && o != ValueClamp.MAX_OFFSET)
  {
  }

  // ---------------------------------------------------------------------
  // The port and the host

  /** The commands written so far, the deliveries still to come and the
      host's state. */
  datatype PortLog = PortLog(written: seq<string>, script: seq<Incoming>, state: DevState)

  /** b is a after the exchanges of cmds: the commands are appended, one
      delivery is used per command, and the host is in FAULT if and only if
      it was already or one of those deliveries broke. */
  ghost predicate Follows(a: PortLog, b: PortLog, cmds: seq<string>)
  {
    && b.written == a.written + cmds
    && b.script == Drop(a.script, |cmds|)
    && b.state == (if Broken in Take(a.script, |cmds|) then FAULT else a.state)
  }

  lemma FollowsNothing(a: PortLog)
    ensures Follows(a, a, [])
  {
    assert Take(a.script, 0) == [];
  }

  /** Exchanges done one after the other add up. */
  lemma FollowsCompose(a: PortLog, b: PortLog, c: PortLog, x: seq<string>, y: seq<string>)
    requires Follows(a, b, x) && Follows(b, c, y)
    ensures Follows(a, c, x + y)
  {
    var s := a.script;
    var k := |x|;
    var m := |y|;
    assert c.written == a.written + (x + y);
    assert Drop(Drop(s, k), m) == Drop(s, k + m);
    assert Take(s, k + m) == Take(s, k) + Take(Drop(s, k), m);
    assert (Broken in Take(s, k + m)) <==> (Broken in Take(s, k) || Broken in Take(Drop(s, k), m));
  }

  /** A serial port that records every command written to it and delivers
      one scripted Incoming per read. */
  class SerialPort {
    var written: seq<string>
    var script: seq<Incoming>

    constructor (script: seq<Incoming>)
      ensures written == [] && this.script == script
    {
      written := [];
      this.script := script;
    }

    /** port.write(bytes(cmd, 'ascii')). */
    method Write(cmd: string)
      modifies this
      ensures written == old(written) + [cmd] && script == old(script)
    {
      written := written + [cmd];
    }

    /** port.readline() when data is expected, port.read() otherwise. */
    method Read(dataExpected: bool) returns (r: Outcome<seq<byte>>)
      modifies this
      ensures written == old(written) && script == Drop(old(script), 1)
      ensures r == Received(First(old(script)), dataExpected)
    {
      var inc := First(script);
      script := Drop(script, 1);
      r := Received(inc, dataExpected);
    }
  }

  class Host {
    const port: SerialPort
    var state: DevState

    /** init_device once the port is open (opening it is not modelled). */
    constructor (port: SerialPort)
      ensures this.port == port && state == ON
    {
      this.port := port;
      state := ON;
    }

    /** What the host and its port have done so far. */
    ghost function Log(): PortLog
      reads this, port
    {
      PortLog(port.written, port.script, state)
    }

    /** Since the pre-state the port saw exactly cmds, one exchange each. */
    twostate predicate Issued(cmds: seq<string>)
      reads this, port
    {
      Follows(old(Log()), Log(), cmds)
    }

    /** query: write the command, read one line (data expected) or one byte,
        check and decode the answer. A serial exception sets FAULT and is
        raised on. */
    method Query(cmd: string, dataExpected: bool) returns (r: Outcome<int>)
      modifies this, port
      ensures Issued([cmd])
      ensures r == Exchange(First(old(port.script)), dataExpected)
    {
      port.Write(cmd);
      var answer := port.Read(dataExpected);
      match answer {
        case Raised(e) =>
          state := FAULT;
          r := Raised(e);
        case Done(bs) =>
          r := DecodeReply(bs, dataExpected);
      }
    }

    method ReadVoltage(channel: int) returns (r: Outcome<int>)
      modifies this, port
      ensures var call := ReadCall(Command.ReadVoltage(channel), First(old(port.script)));
        Issued(call.cmds) && r == call.reply
    {
      if ValidChannel(channel) {
        r := Query(Format(Command.ReadVoltage(channel)), true);
      } else {
        r := Done(-1);
      }
    }

    method WriteVoltage(data: seq<int>) returns (r: Status)
      modifies this, port
      ensures var call := WriteVoltageCall(data, First(old(port.script)));
        Issued(call.cmds) && r == call.reply
    {
      r := Done(());
      if WriteVoltageAccepts(data) {
        var q := Query(Format(Command.WriteVoltage(data[0], data[1])), false);
        r := Discard(q);
      }
    }

    method ReadRange(channel: int) returns (r: Outcome<int>)
      modifies this, port
      ensures var call := ReadCall(Command.ReadRange(channel), First(old(port.script)));
        Issued(call.cmds) && r == call.reply
    {
      if ValidChannel(channel) {
        r := Query(Format(Command.ReadRange(channel)), true);
      } else {
        r := Done(-1);
      }
    }

    method WriteRange(data: seq<int>) returns (r: Status)
      modifies this, port
      ensures var call := WriteRangeCall(data, First(old(port.script)));
        Issued(call.cmds) && r == call.reply
    {
      if |data| < 2 {
        r := Raised(IndexFault);
      } else {
        var q := Query(Format(Command.WriteRange(data[0], data[1])), false);
        r := Discard(q);
      }
    }

    method ReadOffset(channel: int) returns (r: Outcome<int>)
      modifies this, port
      ensures var call := ReadCall(Command.ReadOffset(channel), First(old(port.script)));
        Issued(call.cmds) && r == call.reply
    {
      if ValidChannel(channel) {
        r := Query(Format(Command.ReadOffset(channel)), true);
      } else {
        r := Done(-1);
      }
    }

    method WriteOffset(data: seq<int>) returns (r: Status)
      modifies this, port
      ensures var call := WriteOffsetCall(data, First(old(port.script)));
        Issued(call.cmds) && r == call.reply
    {
      r := Done(());
      if WriteOffsetAccepts(data) {
        var q := Query(Format(Command.WriteOffset(data[0], data[1])), false);
        r := Discard(q);
      }
    }

    method Reset(channel: int) returns (r: Status)
      modifies this, port
      ensures var call := ResetCall(channel, First(old(port.script)));
        Issued(call.cmds) && r == call.reply
    {
      var q := Query(Format(Command.Reset(channel)), false);
      r := Discard(q);
    }

    /** measure: the payload's second element only stretches the read
        timeout in the source, which is not modelled. */
    method Measure(data: seq<int>) returns (r: Outcome<int>)
      modifies this, port
      ensures var call := MeasureCall(data, First(old(port.script)));
        Issued(call.cmds) && r == call.reply
    {
      if |data| == 2 && ValidChannel(data[0]) {
        r := Query(Format(Command.Measure(data[0])), true);
      } else {
        r := Done(-1);
      }
    }
  }
}
