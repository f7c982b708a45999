/** FMBICPlusChannel: one picoammeter on the bus. It caches the chamber's
    settings, lets each attribute be read or written only in the states that
    allow it, and averages the measurements it takes through its host. */
module ChannelDevice {
  import opened Common
  import opened Wire
  import opened Bus
  import opened RangeTable
  import opened ValueClamp

  /** The states in which the attributes can be read and stop is accepted. */
  predicate Active(s: DevState)
  {
    s == ON || s == RUNNING
  }

  /** RangeEnum(n): the range with ordinal n, ValueError for any other n. */
  function ToRange(n: int): (r: Outcome<Range>)
    ensures r.Done? <==> 0 <= n <= 5
    ensures r.Done? ==> r.value == n
    ensures r.Raised? ==> r.error == ValueFault
  {
    if 0 <= n <= 5 then Done(n) else Raised(ValueFault)
  }

  /** The second element of the measure payload: int(t / MIN_EXPOSITION_TIME),
      Python's int() truncating toward zero. */
  function CycleHint(t: real): (h: int)
    ensures t >= 0.0 ==> 0 <= h && h as real <= t / MIN_EXPOSITION_TIME < h as real + 1.0
  {
    var q := t / MIN_EXPOSITION_TIME;
    if q >= 0.0 then q.Floor else -((-q).Floor)
  }

  // ---------------------------------------------------------------------
  // Reading the chamber's settings (get_ic_chamber_parameters)

  /** What fetching the settings writes to the bus, the values it stores
      (None: not reached, or the read raised) and how it ends. */
  datatype Fetched = Fetched(
    cmds: seq<string>,
    voltage: Option<int>,
    range: Option<Range>,
    offset: Option<int>,
    status: Status)

  /** read_voltage, then read_range shifted down by one and turned into a
      RangeEnum, then read_offset; the first exception ends the fetch and the
      values read before it stay stored. */
  function Fetch(a: int, script: seq<Incoming>): (f: Fetched)
    ensures f.status.Done? <==> f.offset.Some?
    ensures f.offset.Some? ==> f.range.Some?
    ensures f.range.Some? ==> f.voltage.Some?
    ensures |f.cmds| <= 3
    ensures f.cmds != [] <==> ValidChannel(a)
  {
    var c1 := ReadCall(Command.ReadVoltage(a), First(script));
    match c1.reply
    case Raised(e) => Fetched(c1.cmds, None, None, None, Raised(e))
    case Done(v) => FetchRange(a, v, c1.cmds, Drop(script, |c1.cmds|))
  }

  /** The fetch once the voltage v is read and `sent` is written. */
  function FetchRange(a: int, v: int, sent: seq<string>, script: seq<Incoming>): (f: Fetched)
    ensures f.voltage == Some(v)
    ensures f.status.Done? <==> f.offset.Some?
    ensures f.offset.Some? ==> f.range.Some?
    ensures sent <= f.cmds && |f.cmds| <= |sent| + 2
    ensures |f.cmds| > |sent| <==> ValidChannel(a)
  {
    var c2 := ReadCall(Command.ReadRange(a), First(script));
    match c2.reply
    case Raised(e) => Fetched(sent + c2.cmds, Some(v), None, None, Raised(e))
    case Done(n) =>
      match ToRange(n - 1)
      case Raised(e) => Fetched(sent + c2.cmds, Some(v), None, None, Raised(e))
      case Done(rg) => FetchOffset(a, v, rg, sent + c2.cmds, Drop(script, |c2.cmds|))
  }

  /** The fetch once the voltage v and the range rg are read. */
  function FetchOffset(a: int, v: int, rg: Range, sent: seq<string>, script: seq<Incoming>): (f: Fetched)
    ensures f.voltage == Some(v) && f.range == Some(rg)
    ensures f.status.Done? <==> f.offset.Some?
    ensures sent <= f.cmds && |f.cmds| <= |sent| + 1
    ensures |f.cmds| > |sent| <==> ValidChannel(a)
  {
    var c3 := ReadCall(Command.ReadOffset(a), First(script));
    match c3.reply
    case Raised(e) => Fetched(sent + c3.cmds, Some(v), Some(rg), None, Raised(e))
    case Done(o) => Fetched(sent + c3.cmds, Some(v), Some(rg), Some(o), Done(()))
  }

  /** A chamber that answers the three reads stores exactly what it reports;
      a range reported as k stands for the ordinal k - 1, so the r + 1 that
      the range setter writes reads back as r. The answers can be any
      deliveries that decode to the numbers, such as the framed lines of
      ExchangeDataLine. */
  lemma FetchAnswered(a: int, v: nat, r: Range, o: nat, script: seq<Incoming>)
    requires ValidChannel(a)
    requires Exchange(Nth(script, 0), true) == Done(v)
    requires Exchange(Nth(script, 1), true) == Done(r + 1)
    requires Exchange(Nth(script, 2), true) == Done(o)
    ensures Fetch(a, script) == Fetched(
      [Format(Command.ReadVoltage(a)), Format(Command.ReadRange(a)), Format(Command.ReadOffset(a))],
      Some(v), Some(r), Some(o), Done(()))
  {
    var s2 := Drop(script, 1);
    var s3 := Drop(s2, 1);
    assert Nth(script, 0) == First(script);
    assert Nth(script, 1) == First(s2);
    assert Nth(script, 2) == First(s3);
    var x, y, z := Format(Command.ReadVoltage(a)), Format(Command.ReadRange(a)), Format(Command.ReadOffset(a));
    assert Fetch(a, script) == FetchRange(a, v, [x], s2);
    assert ToRange(r + 1 - 1) == Done(r);
    assert FetchRange(a, v, [x], s2) == FetchOffset(a, v, r, [x] + [y], s3);
    assert [x] + [y] + [z] == [x, y, z];
  }

  /** A chamber address off the bus makes every read return -1 without
      writing anything, and RangeEnum(-2) then raises ValueError: the
      voltage is stored as -1 and the fetch fails. */
  lemma FetchOffBus(a: int, script: seq<Incoming>)
    requires !ValidChannel(a)
    ensures Fetch(a, script) == Fetched([], Some(-1), None, None, Raised(ValueFault))
  {
  }

  /** A range answer other than 1..6 raises ValueError after the voltage is
      stored; the offset is not read. */
  lemma FetchRejectsRange(a: int, v: nat, n: nat, script: seq<Incoming>)
    requires ValidChannel(a)
    requires Exchange(Nth(script, 0), true) == Done(v)
    requires Exchange(Nth(script, 1), true) == Done(n) && !(1 <= n <= 6)
    ensures Fetch(a, script) == Fetched(
      [Format(Command.ReadVoltage(a)), Format(Command.ReadRange(a))],
      Some(v), None, None, Raised(ValueFault))
  {
    var s2 := Drop(script, 1);
    assert Nth(script, 0) == First(script);
    assert Nth(script, 1) == First(s2);
    var x := Format(Command.ReadVoltage(a));
    assert Fetch(a, script) == FetchRange(a, v, [x], s2);
  }

  /** A serial exception on the first read stores nothing. */
  lemma FetchBroken(a: int, rest: seq<Incoming>)
    requires ValidChannel(a)
    ensures Fetch(a, [Broken] + rest) ==
      Fetched([Format(Command.ReadVoltage(a))], None, None, None, Raised(SerialFault))
  {
  }

  /** reset: *RST is written whatever the address, then the settings are
      fetched again unless the reset raised. */
  function ResetEffect(a: int, script: seq<Incoming>): (f: Fetched)
    ensures |f.cmds| >= 1 && f.cmds[0] == Format(Reset(a))
    ensures First(script) == Broken ==> f == Fetched([Format(Reset(a))], None, None, None, Raised(SerialFault))
  {
    var rc := ResetCall(a, First(script));
    if rc.reply.Raised? then Fetched(rc.cmds, None, None, None, rc.reply)
    else
      var f := Fetch(a, Drop(script, 1));
      f.(cmds := rc.cmds + f.cmds)
  }

  /** Whatever a chamber answers to *RST short of a broken line, the reply is
      dropped (a silent chamber's -1 included) and the fetch runs on the
      deliveries that follow. */
  lemma ResetIgnoresAnswer(a: int, inc: Incoming, rest: seq<Incoming>)
    requires inc != Broken
    ensures var f := Fetch(a, rest);
      ResetEffect(a, [inc] + rest) == f.(cmds := [Format(Reset(a))] + f.cmds)
  {
    assert Drop([inc] + rest, 1) == rest;
  }

  /** A chamber on the bus that survives *RST and answers the three reads
      v, r + 1 and o has those settings stored again after the reset. */
  lemma ResetAnswered(a: int, v: nat, r: Range, o: nat, inc: Incoming, rest: seq<Incoming>)
    requires ValidChannel(a) && inc != Broken
    requires Exchange(Nth(rest, 0), true) == Done(v)
    requires Exchange(Nth(rest, 1), true) == Done(r + 1)
    requires Exchange(Nth(rest, 2), true) == Done(o)
    ensures ResetEffect(a, [inc] + rest) == Fetched(
      [Format(Reset(a)), Format(Command.ReadVoltage(a)), Format(Command.ReadRange(a)), Format(Command.ReadOffset(a))],
      Some(v), Some(r), Some(o), Done(()))
  {
    ResetIgnoresAnswer(a, inc, rest);
    FetchAnswered(a, v, r, o, rest);
    var x, y, z := Format(Command.ReadVoltage(a)), Format(Command.ReadRange(a)), Format(Command.ReadOffset(a));
    assert [Format(Reset(a))] + [x, y, z] == [Format(Reset(a)), x, y, z];
  }

  /** Resetting a channel off the bus still writes *RST to the line, and the
      fetch that follows fails. */
  lemma ResetOffBus(a: int, script: seq<Incoming>)
    requires !ValidChannel(a) && First(script) != Broken
    ensures ResetEffect(a, script) ==
      Fetched([Format(Reset(a))], Some(-1), None, None, Raised(ValueFault))
  {
    FetchOffBus(a, Drop(script, 1));
  }

  // ---------------------------------------------------------------------
  // The offset setter

  /** What setting the offset writes, the offset it leaves stored and how it
      ends. */
  datatype OffsetWrite = OffsetWrite(cmds: seq<string>, stored: int, status: Status)

  /** The clamped request is stored, write_offset is called with the request
      as given, and then the offset is read back and stored instead. */
  function OffsetUpdate(a: int, o: int, script: seq<Incoming>): (w: OffsetWrite)
    ensures w.status.Raised? ==> w.stored == FitOffsetRange(o)
  {
    var cw := WriteOffsetCall([a, o], First(script));
    if cw.reply.Raised? then OffsetWrite(cw.cmds, FitOffsetRange(o), cw.reply)
    else
      var cr := ReadCall(Command.ReadOffset(a), First(Drop(script, |cw.cmds|)));
      match cr.reply
      case Raised(e) => OffsetWrite(cw.cmds + cr.cmds, FitOffsetRange(o), Raised(e))
      case Done(back) => OffsetWrite(cw.cmds + cr.cmds, back, Done(()))
  }

  /** What the chamber reports after the write is what is stored, whether or
      not the write was sent; the maximum offset 99 is never sent. */
  lemma OffsetStoresReadBack(a: int, o: int, lead: byte, back: nat, rest: seq<Incoming>)
    requires ValidChannel(a) && lead != LF
    ensures
      var sent := WriteOffsetAccepts([a, o]);
      var script := (if sent then [Line([ACK])] else []) + [Line(DataLine(lead, back))] + rest;
      OffsetUpdate(a, o, script) == OffsetWrite(
        (if sent then [Format(WriteOffset(a, o))] else []) + [Format(Command.ReadOffset(a))],
        back, Done(()))
  {
    var sent := WriteOffsetAccepts([a, o]);
    var script := (if sent then [Line([ACK])] else []) + [Line(DataLine(lead, back))] + rest;
    ExchangeAck([]);
    assert [ACK] + [] == [ACK];
    ExchangeDataLine(lead, back, []);
    assert DataLine(lead, back) + [] == DataLine(lead, back);
    var k := if sent then 1 else 0;
    assert First(Drop(script, k)) == Line(DataLine(lead, back));
  }

  /** For a channel off the bus the offset read back is -1, and -1 is what
      stays stored, outside the attribute's own range. */
  lemma OffsetOffBusStoresMinusOne(a: int, o: int, script: seq<Incoming>)
    requires !ValidChannel(a)
    ensures OffsetUpdate(a, o, script) == OffsetWrite([], -1, Done(()))
  {
  }

  /** The voltage setter stores the clamped request but forwards the request
      as given, which write_voltage drops when it is out of range: the stored
      and the chamber's voltage can then differ. */
  lemma VoltageOutOfRangeIsNotSent(a: int, v: int, inc: Incoming)
    requires !(MIN_VOLTAGE <= v <= MAX_VOLTAGE)
    ensures FitVoltageRange(v) != v
    ensures WriteVoltageCall([a, v], inc) == Call([], Done(()))
  {
  }

  // ---------------------------------------------------------------------
  // The measuring loop

  /** What happens at one check of the measuring loop: time is left and the
      loop goes round once more (Tick), or a client calls stop() (Cancel).
      The end of the sequence is the end of the exposition time. */
  datatype Event = Tick | Cancel

  /** The replies the loop's measure calls get and the commands they write. */
  datatype Polling = Polling(replies: seq<Outcome<int>>, cmds: seq<string>)

  /** The measure calls the loop makes: one per Tick until the stop flag is
      seen or a call raises. */
  function Polled(a: int, hint: int, events: seq<Event>, script: seq<Incoming>, stopped: bool): (p: Polling)
    ensures |p.cmds| <= |p.replies| <= |events|
    ensures forall k :: 0 <= k < |p.replies| - 1 ==> p.replies[k].Done?
    ensures forall k :: 0 <= k < |p.replies| && p.replies[k].Done? ==> p.replies[k].value >= -1
    ensures ValidChannel(a) ==>
      |p.cmds| == |p.replies| && forall k :: 0 <= k < |p.cmds| ==> p.cmds[k] == Format(Measure(a))
    ensures !ValidChannel(a) ==>
      p.cmds == [] && forall k :: 0 <= k < |p.replies| ==> p.replies[k] == Done(-1)
    decreases |events|
  {
    if events == [] then Polling([], [])
    else match events[0]
      case Cancel => Polled(a, hint, events[1..], script, true)
      case Tick =>
        if stopped then Polling([], [])
        else
          var call := MeasureCall([a, hint], First(script));
          ExchangeValue(First(script));
          if call.reply.Raised? then Polling([call.reply], call.cmds)
          else
            var rest := Polled(a, hint, events[1..], Drop(script, |call.cmds|), false);
            Polling([call.reply] + rest.replies, call.cmds + rest.cmds)
  }

  /** A data reply is -1 or an unsigned number. */
  lemma ExchangeValue(inc: Incoming)
    ensures Exchange(inc, true).Done? ==> Exchange(inc, true).value >= -1
  {
  }

  /** Once the stop flag is set the loop makes no further call. */
  lemma {:induction false} PolledWhenStopped(a: int, hint: int, events: seq<Event>, script: seq<Incoming>)
    ensures Polled(a, hint, events, script, true) == Polling([], [])
    decreases |events|
  {
    if events != [] && events[0] == Cancel {
      PolledWhenStopped(a, hint, events[1..], script);
    }
  }

  /** Nothing after a stop() matters. */
  lemma {:induction false} PolledStopsAtCancel(a: int, hint: int, events: seq<Event>, more: seq<Event>,
                                              script: seq<Incoming>, stopped: bool)
    ensures Polled(a, hint, events + [Cancel] + more, script, stopped) == Polled(a, hint, events, script, stopped)
    decreases |events|
  {
    var all := events + [Cancel] + more;
    if events == [] {
      assert all[1..] == more;
      PolledWhenStopped(a, hint, more, script);
    } else {
      assert all[0] == events[0];
      assert all[1..] == events[1..] + [Cancel] + more;
      match events[0]
      case Cancel =>
        PolledStopsAtCancel(a, hint, events[1..], more, script, true);
      case Tick =>
        if !stopped {
          var call := MeasureCall([a, hint], First(script));
          PolledStopsAtCancel(a, hint, events[1..], more, Drop(script, |call.cmds|), false);
        }
    }
  }

  /** Raw counts summed, converted currents summed, and the number of them. */
  datatype Tally = Tally(amps: real, raw: int, cycles: nat)

  const NoTally: Tally := Tally(0.0, 0, 0)

  function Join(t: Tally, u: Tally): Tally
  {
    Tally(t.amps + u.amps, t.raw + u.raw, t.cycles + u.cycles)
  }

  /** One accepted count: its current in the range, the count, one cycle. */
  function Single(r: Range, v: int): Tally
  {
    Tally(ToAmperes(r, v), v, 1)
  }

  /** How the loop ends: with its totals, or by an exception. */
  datatype End = Finished(tally: Tally) | Aborted(error: Error)

  /** The loop's bookkeeping, reply by reply: -1 is skipped, anything else
      is converted and added, an exception ends the measurement. */
  function Accumulate(r: Range, replies: seq<Outcome<int>>, t: Tally): (e: End)
    ensures e.Aborted? <==> FirstFailure(replies).Some?
    ensures e.Finished? ==> t.cycles <= e.tally.cycles <= t.cycles + |replies|
    decreases |replies|
  {
    if replies == [] then Finished(t)
    else match replies[0]
      case Raised(e) => Aborted(e)
      case Done(v) => Accumulate(r, replies[1..], Step(r, t, v))
  }

  /** The counts that enter the average, in order. */
  function Accepted(replies: seq<Outcome<int>>): (xs: seq<int>)
    ensures |xs| <= |replies|
  {
    if replies == [] then []
    else if replies[0].Done? && replies[0].value != -1 then [replies[0].value] + Accepted(replies[1..])
    else Accepted(replies[1..])
  }

  /** The first exception among the replies. */
  function FirstFailure(replies: seq<Outcome<int>>): (e: Option<Error>)
    ensures e.None? <==> forall k :: 0 <= k < |replies| ==> replies[k].Done?
  {
    if replies == [] then None
    else if replies[0].Raised? then Some(replies[0].error)
    else FirstFailure(replies[1..])
  }

  function Sum(xs: seq<int>): int
  {
    if xs == [] then 0 else xs[0] + Sum(xs[1..])
  }

  /** The totals of a batch of counts, stated at once: the raw sum, the sum
      converted in one go, and the number of counts. */
  function Batch(r: Range, xs: seq<int>): Tally
  {
    Tally(AmperesPerCount(r) * Sum(xs) as real, Sum(xs), |xs|)
  }

  /** The loop's running totals are the batch totals of the accepted counts,
      and it aborts exactly when a reply is an exception, with the first one. */
  lemma {:induction false} AccumulateMeaning(r: Range, replies: seq<Outcome<int>>, t: Tally)
    ensures FirstFailure(replies).Some? ==> Accumulate(r, replies, t) == Aborted(FirstFailure(replies).value)
    ensures FirstFailure(replies).None? ==>
      Accumulate(r, replies, t) == Finished(Join(t, Batch(r, Accepted(replies))))
    decreases |replies|
  {
    if replies != [] && replies[0].Done? {
      var v := replies[0].value;
      AccumulateMeaning(r, replies[1..], Step(r, t, v));
      if v != -1 {
        JoinSingleBatch(r, t, v, Accepted(replies[1..]));
      }
    }
  }

  /** Adding one count to the running totals and then a batch is adding the
      longer batch. */
  lemma JoinSingleBatch(r: Range, t: Tally, v: int, xs: seq<int>)
    ensures Join(Join(t, Single(r, v)), Batch(r, xs)) == Join(t, Batch(r, [v] + xs))
  {
    assert ([v] + xs)[1..] == xs;
    ToAmperesIsLinear(r, v);
    var g := AmperesPerCount(r);
    assert g * v as real + g * Sum(xs) as real == g * (v + Sum(xs)) as real;
  }

  /** The averaged current; None stands for NaN, when no cycle was counted. */
  function MeanCurrent(t: Tally): (m: Option<real>)
    ensures m.None? <==> t.cycles == 0
    ensures m.Some? ==> m.value * t.cycles as real == t.amps
  {
    if t.cycles > 0 then Some(t.amps / t.cycles as real) else None
  }

  /** The averaged raw count; -1 when no cycle was counted. */
  function MeanRaw(t: Tally): (m: real)
    ensures t.cycles == 0 ==> m == -1.0
    ensures t.cycles > 0 ==> m * t.cycles as real == t.raw as real
  {
    if t.cycles > 0 then t.raw as real / t.cycles as real else -1.0
  }

  /** Averaging the converted currents is converting the averaged count. */
  lemma MeanCurrentOfBatch(r: Range, xs: seq<int>)
    requires |xs| > 0
    ensures MeanCurrent(Batch(r, xs)) == Some(AmperesPerCount(r) * MeanRaw(Batch(r, xs)))
  {
    MeanOfScaled(Batch(r, xs), AmperesPerCount(r));
  }

  /** Totals whose current is g times their raw count average the same way. */
  lemma MeanOfScaled(t: Tally, g: real)
    requires t.cycles > 0 && t.amps == g * t.raw as real
    ensures MeanCurrent(t) == Some(g * MeanRaw(t))
  {
    MulDivAssoc(t.amps, g, t.raw as real, t.cycles as real);
    assert MeanCurrent(t).value == g * MeanRaw(t);
  }

  /** Totals of c copies of the count n average to n. */
  lemma MeanOfConstant(t: Tally, g: real, n: nat)
    requires t.cycles > 0 && t.raw == t.cycles * n && t.amps == g * t.raw as real
    ensures MeanRaw(t) == n as real && MeanCurrent(t) == Some(g * n as real)
  {
    MeanOfScaled(t, g);
    DivideOut(t.cycles, n);
    assert MeanRaw(t) == n as real;
    assert MeanCurrent(t).value == g * n as real;
  }

  lemma {:induction false} SumBounds(xs: seq<int>, hi: int)
    requires forall k :: 0 <= k < |xs| ==> 0 <= xs[k] <= hi
    ensures 0 <= Sum(xs) <= |xs| * hi
    decreases |xs|
  {
    if xs != [] {
      SumBounds(xs[1..], hi);
    }
  }

  /** Counts on the instrument's scale average to a count on the scale and a
      current within the range. */
  lemma MeanWithinRange(r: Range, xs: seq<int>)
    requires |xs| > 0
    requires forall k :: 0 <= k < |xs| ==> 0 <= xs[k] <= FULL_SCALE
    ensures 0.0 <= MeanRaw(Batch(r, xs)) <= FULL_SCALE as real
    ensures MeanCurrent(Batch(r, xs)).Some?
    ensures 0.0 <= MeanCurrent(Batch(r, xs)).value <= MaxFA(r) as real * FEMTO
  {
    SumBounds(xs, FULL_SCALE);
    QuotientBounds(Sum(xs), |xs|, FULL_SCALE);
    var m := MeanRaw(Batch(r, xs));
    MeanCurrentOfBatch(r, xs);
    var g := AmperesPerCount(r);
    ScaleMonotone(g, 0.0, m);
    ScaleMonotone(g, m, FULL_SCALE as real);
    ToAmperesEndpoints(r);
    ToAmperesIsLinear(r, FULL_SCALE);
  }

  // Real arithmetic for the averages, one step at a time.

  lemma MulDivAssoc(a: real, g: real, s: real, n: real)
    requires n > 0.0 && a == g * s
    ensures a / n == g * (s / n)
  {
    var q := s / n;
    assert q * n == s;
    assert (g * q) * n == g * s;
  }

  lemma QuotientBounds(s: int, n: nat, hi: nat)
    requires n > 0 && 0 <= s <= n * hi
    ensures 0.0 <= s as real / n as real <= hi as real
  {
    var q := s as real / n as real;
    assert q * n as real == s as real;
    assert (n * hi) as real == n as real * hi as real;
    assert (hi as real - q) * n as real == (n * hi - s) as real;
  }

  lemma QuotientNonNegative(s: int, n: nat)
    requires n > 0 && s >= 0
    ensures s as real / n as real >= 0.0
  {
    var q := s as real / n as real;
    assert q * n as real == s as real;
  }

  lemma ScaleMonotone(g: real, x: real, y: real)
    requires g >= 0.0 && x <= y
    ensures g * x <= g * y
  {
    assert g * y - g * x == g * (y - x);
  }

  /** The attributes a measurement sets, and the state. */
  datatype Measured = Measured(state: DevState, current: Option<real>, rawCurrent: real, stop: bool)

  /** The end of __measure as evidently intended: the averages and ON after
      the loop, FAULT when a call raised. */
  function Conclude(before: Measured, end: End): (m: Measured)
    ensures end.Finished? ==> m.state == ON && !m.stop && (m.current.None? <==> end.tally.cycles == 0)
    ensures end.Aborted? ==>
      m.state == FAULT && m.current == before.current && m.rawCurrent == before.rawCurrent && m.stop == before.stop
  {
    match end
    case Finished(t) => Measured(ON, MeanCurrent(t), MeanRaw(t), false)
    case Aborted(_) => before.(state := FAULT)
  }

  /** The end of __measure as written: the exception the host raises is not
      the serial exception the loop catches, so it leaves the loop's thread
      with the state still RUNNING. */
  /** Conclude never looks at the state it replaces, nor at `stop` on a completed run. */
  lemma ConcludeIgnoresState(b1: Measured, b2: Measured, end: End)
    requires b1.current == b2.current && b1.rawCurrent == b2.rawCurrent
    requires end.Aborted? ==> b1.stop == b2.stop
    ensures Conclude(b1, end) == Conclude(b2, end)
  {
  }

  function ConcludeAsWritten(before: Measured, end: End): (m: Measured)
    ensures end.Finished? ==> m.state == ON && !m.stop && (m.current.None? <==> end.tally.cycles == 0)
    ensures end.Aborted? ==>
      m.state == RUNNING && m.current == before.current && m.rawCurrent == before.rawCurrent && m.stop == before.stop
  {
    match end
    case Finished(t) => Measured(ON, MeanCurrent(t), MeanRaw(t), false)
    case Aborted(_) => before.(state := RUNNING)
  }

  /** As written, no measurement ever ends in FAULT: a failed one leaves a
      channel that reports RUNNING until the next command; a start then
      sets FAULT and raises. */
  lemma AsWrittenNeverFaults(before: Measured, end: End)
    ensures ConcludeAsWritten(before, end).state != FAULT
    ensures end.Aborted? ==> ConcludeAsWritten(before, end).state == RUNNING
  {
  }

  /** A broken line at the first measure call, as written and as intended. */
  lemma BrokenLineDuringMeasurement(a: int, hint: int, r: Range, more: seq<Event>,
                                    rest: seq<Incoming>, before: Measured)
    requires ValidChannel(a)
    ensures
      var end := Accumulate(r, Polled(a, hint, [Tick] + more, [Broken] + rest, false).replies, NoTally);
      end == Aborted(SerialFault) &&
      ConcludeAsWritten(before, end).state == RUNNING &&
      Conclude(before, end).state == FAULT
  {
    var p := Polled(a, hint, [Tick] + more, [Broken] + rest, false);
    assert p.replies == [Raised(SerialFault)];
  }

  /** As intended, a measurement ends in FAULT exactly when it aborts, and
      otherwise in ON with the flag cleared. */
  lemma ConcludeFaultsExactlyOnAbort(before: Measured, end: End)
    ensures Conclude(before, end).state == FAULT <==> end.Aborted?
    ensures end.Finished? ==> Conclude(before, end).state == ON && !Conclude(before, end).stop
  {
  }

  /** The arithmetic mean of some counts. */
  function Mean(xs: seq<int>): real
    requires |xs| > 0
  {
    Sum(xs) as real / |xs| as real
  }

  /** The mean of some counts, converted to amperes in range r. */
  function MeanAmperes(r: Range, xs: seq<int>): real
    requires |xs| > 0
  {
    AmperesPerCount(r) * Mean(xs)
  }

  /** Whatever the replies, a loop that counted some cycles stores as raw
      current the mean of the accepted counts and as current that mean
      converted, and ends ON with the flag cleared. */
  lemma AveragesOfAnyRun(r: Range, replies: seq<Outcome<int>>, before: Measured)
    requires FirstFailure(replies).None? && |Accepted(replies)| > 0
    ensures
      var m := Conclude(before, Accumulate(r, replies, NoTally));
      m.state == ON && !m.stop && m.rawCurrent == Mean(Accepted(replies)) &&
      m.current == Some(MeanAmperes(r, Accepted(replies)))
  {
    FinishedRun(r, replies);
    ConcludeBatch(r, Accepted(replies), before, Accumulate(r, replies, NoTally));
  }

  /** A loop started from nothing that does not abort ends with the batch
      totals of the accepted counts. */
  lemma FinishedRun(r: Range, replies: seq<Outcome<int>>)
    requires FirstFailure(replies).None?
    ensures Accumulate(r, replies, NoTally) == Finished(Batch(r, Accepted(replies)))
  {
    AccumulateMeaning(r, replies, NoTally);
    JoinFromNothing(Batch(r, Accepted(replies)));
  }

  lemma JoinFromNothing(t: Tally)
    ensures Join(NoTally, t) == t
  {
  }

  /** The end of a finished loop whose accepted counts are xs. */
  lemma ConcludeBatch(r: Range, xs: seq<int>, before: Measured, end: End)
    requires |xs| > 0 && end == Finished(Batch(r, xs))
    ensures
      var m := Conclude(before, end);
      m.state == ON && !m.stop && m.rawCurrent == Mean(xs) &&
      m.current == Some(MeanAmperes(r, xs))
  {
    MeansOfBatch(r, xs);
  }

  /** The two averages of a batch of counts, as Mean and MeanAmperes. */
  lemma MeansOfBatch(r: Range, xs: seq<int>)
    requires |xs| > 0
    ensures MeanRaw(Batch(r, xs)) == Mean(xs)
    ensures MeanCurrent(Batch(r, xs)) == Some(MeanAmperes(r, xs))
  {
    var t := Batch(r, xs);
    var g, sum, n := AmperesPerCount(r), Sum(xs) as real, |xs| as real;
    MulDivAssoc(t.amps, g, sum, n);
    assert MeanCurrent(t).value == MeanAmperes(r, xs);
  }

  /** After a measurement the current is NaN exactly when the raw current is
      -1, if that held before. */
  lemma ConcludePairsNaN(a: int, hint: int, events: seq<Event>, script: seq<Incoming>, stopped: bool,
                         r: Range, before: Measured)
    requires before.current.None? <==> before.rawCurrent == -1.0
    ensures
      var m := Conclude(before, Accumulate(r, Polled(a, hint, events, script, stopped).replies, NoTally));
      m.current.None? <==> m.rawCurrent == -1.0
  {
    var replies := Polled(a, hint, events, script, stopped).replies;
    AccumulateMeaning(r, replies, NoTally);
    if FirstFailure(replies).None? {
      var xs := Accepted(replies);
      AcceptedOfPolled(replies);
      SumNonNegative(xs);
      if |xs| > 0 {
        QuotientNonNegative(Sum(xs), |xs|);
      }
    }
  }

  /** Replies no lower than -1 leave only unsigned counts. */
  lemma {:induction false} AcceptedOfPolled(replies: seq<Outcome<int>>)
    requires forall k :: 0 <= k < |replies| && replies[k].Done? ==> replies[k].value >= -1
    ensures forall k :: 0 <= k < |Accepted(replies)| ==> Accepted(replies)[k] >= 0
    decreases |replies|
  {
    if replies != [] {
      AcceptedOfPolled(replies[1..]);
    }
  }

  lemma {:induction false} SumNonNegative(xs: seq<int>)
    requires forall k :: 0 <= k < |xs| ==> xs[k] >= 0
    ensures Sum(xs) >= 0
    decreases |xs|
  {
    if xs != [] {
      SumNonNegative(xs[1..]);
    }
  }

  function Ticks(k: nat): (e: seq<Event>)
    ensures |e| == k && forall i :: 0 <= i < k ==> e[i] == Tick
  {
    seq(k, _ => Tick)
  }

  /** A chamber that answers every measure call with the same count n. */
  lemma {:induction false} PolledSteady(a: int, hint: int, k: nat, lead: byte, n: nat)
    requires ValidChannel(a) && lead != LF
    ensures Polled(a, hint, Ticks(k), seq(k, _ => Line(DataLine(lead, n))), false).replies ==
      seq(k, _ => Done(n as int))
    decreases k
  {
    if k > 0 {
      var script := seq(k, _ => Line(DataLine(lead, n)));
      ExchangeDataLine(lead, n, []);
      assert DataLine(lead, n) + [] == DataLine(lead, n);
      assert Ticks(k)[1..] == Ticks(k - 1);
      assert Drop(script, 1) == seq(k - 1, _ => Line(DataLine(lead, n)));
      PolledSteady(a, hint, k - 1, lead, n);
      assert seq(k, _ => Done(n as int)) == [Done(n as int)] + seq(k - 1, _ => Done(n as int));
    }
  }

  /** Replies that all carry the count n are accepted as k copies of n. */
  lemma {:induction false} AcceptedSteady(k: nat, n: nat)
    ensures Accepted(seq(k, _ => Done(n as int))) == seq(k, _ => n as int)
    ensures Sum(seq(k, _ => n as int)) == k * n
    decreases k
  {
    if k > 0 {
      var replies := seq(k, _ => Done(n as int));
      assert replies[1..] == seq(k - 1, _ => Done(n as int));
      AcceptedSteady(k - 1, n);
      assert seq(k, _ => n as int) == [n as int] + seq(k - 1, _ => n as int);
      assert seq(k, _ => n as int)[1..] == seq(k - 1, _ => n as int);
    }
  }

  /** k > 0 polls of a chamber that always reports the count n give that
      count as the raw current and its conversion as the current. */
  lemma SteadyMeasurement(a: int, hint: int, r: Range, k: nat, lead: byte, n: nat, before: Measured)
    requires ValidChannel(a) && lead != LF && k > 0
    ensures
      var p := Polled(a, hint, Ticks(k), seq(k, _ => Line(DataLine(lead, n))), false);
      Conclude(before, Accumulate(r, p.replies, NoTally)) ==
        Measured(ON, Some(ToAmperes(r, n)), n as real, false)
  {
    PolledSteady(a, hint, k, lead, n);
    SteadyAverage(r, k, n, before);
  }

  /** k equal counts average to themselves. */
  lemma SteadyAverage(r: Range, k: nat, n: nat, before: Measured)
    requires k > 0
    ensures Conclude(before, Accumulate(r, seq(k, _ => Done(n as int)), NoTally)) ==
      Measured(ON, Some(ToAmperes(r, n)), n as real, false)
  {
    var replies := seq(k, _ => Done(n as int));
    AcceptedSteady(k, n);
    AccumulateMeaning(r, replies, NoTally);
    assert FirstFailure(replies).None?;
    var b := Batch(r, seq(k, _ => n as int));
    assert Join(NoTally, b) == b;
    ConstantBatchMean(r, k, n);
    assert MeanCurrent(b).value == ToAmperes(r, n);
    assert MeanRaw(b) == n as real;
  }

  /** The batch of k copies of n has mean n, converted or not. */
  lemma ConstantBatchMean(r: Range, k: nat, n: nat)
    requires k > 0
    ensures MeanRaw(Batch(r, seq(k, _ => n as int))) == n as real
    ensures MeanCurrent(Batch(r, seq(k, _ => n as int))) == Some(ToAmperes(r, n))
  {
    AcceptedSteady(k, n);
    var b := Batch(r, seq(k, _ => n as int));
    MeanOfConstant(b, AmperesPerCount(r), n);
    ToAmperesIsLinear(r, n);
    assert MeanCurrent(b).value == ToAmperes(r, n);
  }

  lemma DivideOut(k: nat, n: nat)
    requires k > 0
    ensures (k * n) as real / k as real == n as real
  {
    assert (k * n) as real == k as real * n as real;
  }

  /** A stop() after k > 0 counted rounds does not make the current NaN: the
      loop breaks and the rounds already counted are averaged. */
  lemma StoppedMeasurementKeepsAverage(a: int, hint: int, r: Range, k: nat, lead: byte, n: nat,
                                        more: seq<Event>, before: Measured)
    requires ValidChannel(a) && lead != LF && k > 0
    ensures
      var p := Polled(a, hint, Ticks(k) + [Cancel] + more, seq(k, _ => Line(DataLine(lead, n))), false);
      Conclude(before, Accumulate(r, p.replies, NoTally)) ==
        Measured(ON, Some(ToAmperes(r, n)), n as real, false)
  {
    PolledStopsAtCancel(a, hint, Ticks(k), more, seq(k, _ => Line(DataLine(lead, n))), false);
    SteadyMeasurement(a, hint, r, k, lead, n, before);
  }

  /** A chamber that never answers: -1 on every call, no cycle counted, the
      current NaN and the raw current -1. */
  lemma {:induction false} SilentMeasurement(a: int, hint: int, r: Range, k: nat, before: Measured)
    ensures
      var p := Polled(a, hint, Ticks(k), [], false);
      Conclude(before, Accumulate(r, p.replies, NoTally)) == Measured(ON, None, -1.0, false)
  {
    SilentPolls(a, hint, k);
    var replies := Polled(a, hint, Ticks(k), [], false).replies;
    AccumulateMeaning(r, replies, NoTally);
    NothingAccepted(replies);
  }

  lemma {:induction false} SilentPolls(a: int, hint: int, k: nat)
    ensures forall i :: 0 <= i < |Polled(a, hint, Ticks(k), [], false).replies| ==>
      Polled(a, hint, Ticks(k), [], false).replies[i] == Done(-1)
    decreases k
  {
    if k > 0 {
      ExchangeSilence(true);
      assert Ticks(k)[1..] == Ticks(k - 1);
      SilentPolls(a, hint, k - 1);
    }
  }

  lemma {:induction false} NothingAccepted(replies: seq<Outcome<int>>)
    requires forall i :: 0 <= i < |replies| ==> replies[i] == Done(-1)
    ensures Accepted(replies) == [] && FirstFailure(replies).None?
    decreases |replies|
  {
    if replies != [] {
      NothingAccepted(replies[1..]);
    }
  }

  /** What one reply does to the running totals: -1 leaves them alone, any
      other count adds one cycle, the count and its current. */
  function Step(r: Range, t: Tally, x: int): (u: Tally)
    ensures x == -1 ==> u == t
    ensures x != -1 ==> u == Tally(t.amps + ToAmperes(r, x), t.raw + x, t.cycles + 1)
  {
    if x == -1 then t else Join(t, Single(r, x))
  }

  /** How a run of the loop ends and the commands written up to then. */
  datatype Run = Run(end: End, cmds: seq<string>)

  /** The loop round by round, with the totals t and the commands sent so
      far: the shape of __measure's while loop. */
  function Measuring(a: int, hint: int, r: Range, events: seq<Event>, script: seq<Incoming>,
                     stopped: bool, t: Tally, sent: seq<string>): (run: Run)
    ensures run.end.Finished? ==> t.cycles <= run.end.tally.cycles
    decreases |events|
  {
    if events == [] then Run(Finished(t), sent)
    else match events[0]
      case Cancel => Measuring(a, hint, r, events[1..], script, true, t, sent)
      case Tick =>
        if stopped then Run(Finished(t), sent)
        else
          var call := MeasureCall([a, hint], First(script));
          match call.reply
          case Raised(e) => Run(Aborted(e), sent + call.cmds)
          case Done(x) =>
            Measuring(a, hint, r, events[1..], Drop(script, |call.cmds|), false, Step(r, t, x), sent + call.cmds)
  }

  /** The loop only appends to what was written, at most one command a round. */
  lemma {:induction false} MeasuringWrites(a: int, hint: int, r: Range, events: seq<Event>, script: seq<Incoming>,
                                           stopped: bool, t: Tally, sent: seq<string>)
    ensures var run := Measuring(a, hint, r, events, script, stopped, t, sent);
      sent <= run.cmds && |run.cmds| <= |sent| + |events|
    decreases |events|
  {
    if events != [] {
      match events[0]
      case Cancel =>
        MeasuringWrites(a, hint, r, events[1..], script, true, t, sent);
      case Tick =>
        if !stopped {
          var call := MeasureCall([a, hint], First(script));
          if call.reply.Done? {
            MeasuringWrites(a, hint, r, events[1..], Drop(script, |call.cmds|), false,
                            Step(r, t, call.reply.value), sent + call.cmds);
          }
        }
    }
  }

  lemma {:induction false} MeasuringWhenStopped(a: int, hint: int, r: Range, events: seq<Event>,
                                                script: seq<Incoming>, t: Tally, sent: seq<string>)
    ensures Measuring(a, hint, r, events, script, true, t, sent) == Run(Finished(t), sent)
    decreases |events|
  {
    if events != [] && events[0] == Cancel {
      MeasuringWhenStopped(a, hint, r, events[1..], script, t, sent);
    }
  }

  /** A run from no totals and no commands, as __measure starts it. */
  lemma FreshRunIsAccumulatedPolling(a: int, hint: int, r: Range, events: seq<Event>,
                                     script: seq<Incoming>, stopped: bool)
    ensures
      var p := Polled(a, hint, events, script, stopped);
      Measuring(a, hint, r, events, script, stopped, NoTally, []) == Run(Accumulate(r, p.replies, NoTally), p.cmds)
  {
    var p := Polled(a, hint, events, script, stopped);
    MeasuringIsAccumulatedPolling(a, hint, r, events, script, stopped, NoTally, []);
    assert [] + p.cmds == p.cmds;
  }

  /** The round-by-round loop is the accumulation of the polled replies. */
  lemma {:induction false} MeasuringIsAccumulatedPolling(a: int, hint: int, r: Range, events: seq<Event>,
                                                        script: seq<Incoming>, stopped: bool,
                                                        t: Tally, sent: seq<string>)
    ensures
      var p := Polled(a, hint, events, script, stopped);
      Measuring(a, hint, r, events, script, stopped, t, sent) == Run(Accumulate(r, p.replies, t), sent + p.cmds)
    decreases |events|
  {
    if events == [] {
      assert sent + [] == sent;
    } else {
      match events[0]
      case Cancel =>
        MeasuringIsAccumulatedPolling(a, hint, r, events[1..], script, true, t, sent);
      case Tick =>
        if stopped {
          assert sent + [] == sent;
        } else {
          var call := MeasureCall([a, hint], First(script));
          if call.reply.Done? {
            var x := call.reply.value;
            var s' := Drop(script, |call.cmds|);
            var rest := Polled(a, hint, events[1..], s', false);
            MeasuringIsAccumulatedPolling(a, hint, r, events[1..], s', false, Step(r, t, x), sent + call.cmds);
            assert Polled(a, hint, events, script, false) ==
              Polling([call.reply] + rest.replies, call.cmds + rest.cmds);
            assert ([call.reply] + rest.replies)[1..] == rest.replies;
            assert sent + call.cmds + rest.cmds == sent + (call.cmds + rest.cmds);
          }
        }
    }
  }

  // ---------------------------------------------------------------------
  // The device

  class Channel {
    /** The address set on the chamber's switches. */
    const address: int
    /** The FMBICPlusHost serving the bus. */
    const host: Host

    var state: DevState
    var highVoltage: int
    var range: Range
    var offset: int
    var expositionTime: real
    /** The last averaged current in A; None stands for NaN. */
    var current: Option<real>
    /** The last averaged raw count; -1 when no cycle was counted. */
    var rawCurrent: real
    var stop: bool

    /** The device as Tango creates it, before init_device. */
    constructor (address: int, host: Host)
      ensures this.address == address && this.host == host && state == UNKNOWN
      ensures highVoltage == 0 && range == 0 && offset == 0 && expositionTime == 0.0
      ensures current == Some(0.0) && rawCurrent == 0.0 && !stop
    {
      this.address := address;
      this.host := host;
      state := UNKNOWN;
      highVoltage := 0;
      range := 0;
      offset := 0;
      expositionTime := 0.0;
      current := Some(0.0);
      rawCurrent := 0.0;
      stop := false;
    }

    function Snapshot(): Measured
      reads this
    {
      Measured(state, current, rawCurrent, stop)
    }

    /** The host saw f's commands and the settings f reached are stored. */
    twostate predicate Applied(f: Fetched)
      reads this, host, host.port
    {
      && host.Issued(f.cmds)
      && highVoltage == f.voltage.GetOr(old(highVoltage))
      && range == f.range.GetOr(old(range))
      && offset == f.offset.GetOr(old(offset))
    }

    method GetIcChamberParameters() returns (r: Status)
      modifies this`highVoltage, this`range, this`offset, host, host.port
      ensures var f := Fetch(address, old(host.port.script)); Applied(f) && r == f.status
    {
      ghost var l0 := host.Log();
      var v := host.ReadVoltage(address);
      ghost var c1 := ReadCall(Command.ReadVoltage(address), First(l0.script));
      if v.Raised? {
        return Raised(v.error);
      }
      highVoltage := v.value;
      ghost var l1 := host.Log();
      var n := host.ReadRange(address);
      ghost var c2 := ReadCall(Command.ReadRange(address), First(l1.script));
      FollowsCompose(l0, l1, host.Log(), c1.cmds, c2.cmds);
      if n.Raised? {
        return Raised(n.error);
      }
      var rg := ToRange(n.value - 1);
      if rg.Raised? {
        return Raised(rg.error);
      }
      range := rg.value;
      ghost var l2 := host.Log();
      var o := host.ReadOffset(address);
      ghost var c3 := ReadCall(Command.ReadOffset(address), First(l2.script));
      FollowsCompose(l0, l2, host.Log(), c1.cmds + c2.cmds, c3.cmds);
      if o.Raised? {
        return Raised(o.error);
      }
      offset := o.value;
      r := Done(());
    }

    /** init_device once the host is found: fetch the settings, then ON. */
    method InitDevice() returns (r: Status)
      modifies this`state, this`highVoltage, this`range, this`offset, host, host.port
      ensures var f := Fetch(address, old(host.port.script));
        Applied(f) && r == f.status && state == (if r.Done? then ON else old(state))
    {
      r := GetIcChamberParameters();
      if r.Done? {
        state := ON;
      }
    }

    method GetHighVoltage() returns (r: Outcome<int>)
      modifies this`state
      ensures Active(old(state)) ==> state == old(state) && r == Done(highVoltage)
      ensures !Active(old(state)) ==> state == FAULT && r == Raised(StateFault)
    {
      if Active(state) {
        r := Done(highVoltage);
      } else {
        state := FAULT;
        r := Raised(StateFault);
      }
    }

    /** Stores the clamped voltage, forwards the request as given. */
    method SetHighVoltage(v: int) returns (r: Status)
      modifies this`state, this`highVoltage, host, host.port
      ensures old(state) == ON ==>
        var call := WriteVoltageCall([address, v], First(old(host.port.script)));
        state == ON && highVoltage == FitVoltageRange(v) && host.Issued(call.cmds) && r == call.reply
      ensures old(state) != ON ==>
        state == FAULT && r == Raised(StateFault) && highVoltage == old(highVoltage) &&
        unchanged(host, host.port)
    {
      if state == ON {
        highVoltage := FitVoltageRange(v);
        r := host.WriteVoltage([address, v]);
      } else {
        state := FAULT;
        r := Raised(StateFault);
      }
    }

    method GetRange() returns (r: Outcome<Range>)
      modifies this`state
      ensures Active(old(state)) ==> state == old(state) && r == Done(range)
      ensures !Active(old(state)) ==> state == FAULT && r == Raised(StateFault)
    {
      if Active(state) {
        r := Done(range);
      } else {
        state := FAULT;
        r := Raised(StateFault);
      }
    }

    /** Stores RangeEnum(n) and writes the wire range n + 1. */
    method SetRange(n: int) returns (r: Status)
      modifies this`state, this`range, host, host.port
      ensures old(state) == ON && ToRange(n).Raised? ==>
        state == ON && r == Raised(ValueFault) && range == old(range) && unchanged(host, host.port)
      ensures old(state) == ON && ToRange(n).Done? ==>
        var call := WriteRangeCall([address, n + 1], First(old(host.port.script)));
        state == ON && range == n && host.Issued(call.cmds) && r == call.reply
      ensures old(state) != ON ==>
        state == FAULT && r == Raised(StateFault) && range == old(range) && unchanged(host, host.port)
    {
      if state == ON {
        var rg := ToRange(n);
        if rg.Raised? {
          return Raised(rg.error);
        }
        range := rg.value;
        r := host.WriteRange([address, n + 1]);
      } else {
        state := FAULT;
        r := Raised(StateFault);
      }
    }

    method GetOffset() returns (r: Outcome<int>)
      modifies this`state
      ensures Active(old(state)) ==> state == old(state) && r == Done(offset)
      ensures !Active(old(state)) ==> state == FAULT && r == Raised(StateFault)
    {
      if Active(state) {
        r := Done(offset);
      } else {
        state := FAULT;
        r := Raised(StateFault);
      }
    }

    /** Stores the clamped offset, forwards the request as given, then
        stores the offset read back. */
    method SetOffset(o: int) returns (r: Status)
      modifies this`state, this`offset, host, host.port
      ensures old(state) == ON ==>
        var w := OffsetUpdate(address, o, old(host.port.script));
        state == ON && offset == w.stored && host.Issued(w.cmds) && r == w.status
      ensures old(state) != ON ==>
        state == FAULT && r == Raised(StateFault) && offset == old(offset) && unchanged(host, host.port)
    {
      if state == ON {
        offset := FitOffsetRange(o);
        ghost var l0 := host.Log();
        r := host.WriteOffset([address, o]);
        ghost var cw := WriteOffsetCall([address, o], First(l0.script));
        if r.Done? {
          ghost var l1 := host.Log();
          var back := host.ReadOffset(address);
          ghost var cr := ReadCall(Command.ReadOffset(address), First(l1.script));
          FollowsCompose(l0, l1, host.Log(), cw.cmds, cr.cmds);
          match back {
            case Raised(e) =>
              r := Raised(e);
            case Done(b) =>
              offset := b;
          }
        }
      } else {
        state := FAULT;
        r := Raised(StateFault);
      }
    }

    method GetExpositionTime() returns (r: Outcome<real>)
      modifies this`state
      ensures Active(old(state)) ==> state == old(state) && r == Done(expositionTime)
      ensures !Active(old(state)) ==> state == FAULT && r == Raised(StateFault)
    {
      if Active(state) {
        r := Done(expositionTime);
      } else {
        state := FAULT;
        r := Raised(StateFault);
      }
    }

    method SetExpositionTime(t: real) returns (r: Status)
      modifies this`state, this`expositionTime
      ensures old(state) == ON ==> state == ON && expositionTime == FitExpTimeRange(t) && r == Done(())
      ensures old(state) != ON ==>
        state == FAULT && r == Raised(StateFault) && expositionTime == old(expositionTime)
    {
      if state == ON {
        expositionTime := FitExpTimeRange(t);
        r := Done(());
      } else {
        state := FAULT;
        r := Raised(StateFault);
      }
    }

    /** The current getter answers NaN instead of raising when refused. */
    method GetCurrent() returns (r: Option<real>)
      modifies this`state
      ensures Active(old(state)) ==> state == old(state) && r == current
      ensures !Active(old(state)) ==> state == FAULT && r == None
    {
      if Active(state) {
        r := current;
      } else {
        state := FAULT;
        r := None;
      }
    }

    /** The raw current getter answers NaN instead of raising when refused. */
    method GetRawCurrent() returns (r: Option<real>)
      modifies this`state
      ensures Active(old(state)) ==> state == old(state) && r == Some(rawCurrent)
      ensures !Active(old(state)) ==> state == FAULT && r == None
    {
      if Active(state) {
        r := Some(rawCurrent);
      } else {
        state := FAULT;
        r := None;
      }
    }

    /** reset: allowed in ON only; the state stays ON whatever the bus does. */
    method Reset() returns (r: Status)
      modifies this`state, this`highVoltage, this`range, this`offset, host, host.port
      ensures old(state) == ON ==>
        var f := ResetEffect(address, old(host.port.script));
        state == ON && Applied(f) && r == f.status
      ensures old(state) != ON ==>
        state == FAULT && r == Raised(StateFault) && unchanged(host, host.port) &&
        highVoltage == old(highVoltage) && range == old(range) && offset == old(offset)
    {
      if state == ON {
        ghost var l0 := host.Log();
        r := host.Reset(address);
        ghost var rc := ResetCall(address, First(l0.script));
        if r.Done? {
          ghost var l1 := host.Log();
          r := GetIcChamberParameters();
          ghost var f := Fetch(address, l1.script);
          FollowsCompose(l0, l1, host.Log(), rc.cmds, f.cmds);
        }
      } else {
        state := FAULT;
        r := Raised(StateFault);
      }
    }

    /** stop: sets the flag the loop checks; from RUNNING it also turns ON at
        once. */
    method Stop() returns (r: Status)
      modifies this`state, this`stop
      ensures Active(old(state)) ==> stop && state == ON && r == Done(())
      ensures !Active(old(state)) ==> state == FAULT && stop == old(stop) && r == Raised(StateFault)
    {
      if state == RUNNING {
        stop := true;
        state := ON;
        r := Done(());
      } else if state == ON {
        stop := true;
        r := Done(());
      } else {
        state := FAULT;
        r := Raised(StateFault);
      }
    }

    /** start: allowed in ON only; clears the flag and runs the measuring
        loop. The loop's thread is run to its end here, the events standing
        for what happens meanwhile; start itself never fails once allowed. */
    method Start(events: seq<Event>) returns (r: Status)
      modifies this`state, this`current, this`rawCurrent, this`stop, host, host.port
      ensures old(state) == ON ==>
        var p := Polled(address, CycleHint(expositionTime), events, old(host.port.script), false);
        r == Done(()) && host.Issued(p.cmds) &&
        Snapshot() == Conclude(old(Snapshot()).(stop := false), Accumulate(range, p.replies, NoTally))
      ensures old(state) != ON ==>
        r == Raised(StateFault) && Snapshot() == old(Snapshot()).(state := FAULT) && unchanged(host, host.port)
    {
      if state == ON {
        stop := false;
        RunMeasurement(events);
        r := Done(());
      } else {
        state := FAULT;
        r := Raised(StateFault);
      }
    }

    /** __measure, with a failed call ending in FAULT as evidently intended. */
    method RunMeasurement(events: seq<Event>)
      modifies this`state, this`current, this`rawCurrent, this`stop, host, host.port
      ensures var p := Polled(address, CycleHint(expositionTime), events, old(host.port.script), old(stop));
        host.Issued(p.cmds) && Snapshot() == Conclude(old(Snapshot()), Accumulate(range, p.replies, NoTally))
    {
      state := RUNNING;
      var end := Poll(events, CycleHint(expositionTime));
      ghost var p := Polled(address, CycleHint(expositionTime), events, old(host.port.script), old(stop));
      FreshRunIsAccumulatedPolling(address, CycleHint(expositionTime), range, events, old(host.port.script), old(stop));
      assert end == Accumulate(range, p.replies, NoTally) && host.Issued(p.cmds);
      ConcludeIgnoresState(Snapshot(), old(Snapshot()), end);
      Finish(end);
    }

    /** The end of __measure as evidently intended: the averages and ON
        after the loop, FAULT when a call raised. */
    method Finish(end: End)
      modifies this`state, this`current, this`rawCurrent, this`stop
      ensures Snapshot() == Conclude(old(Snapshot()), end)
    {
      match end {
        case Aborted(_) =>
          state := FAULT;
        case Finished(t) =>
          current := MeanCurrent(t);
          rawCurrent := MeanRaw(t);
          stop := false;
          state := ON;
      }
    }

    /** The loop of __measure: one measure call per round until the time is
        up, the stop flag is seen or a call raises; returns the totals or the
        exception. */
    method Poll(events: seq<Event>, hint: int) returns (end: End)
      requires state == RUNNING
      modifies this`state, this`stop, host, host.port
      ensures var run := Measuring(address, hint, range, events, old(host.port.script), old(stop), NoTally, []);
        host.Issued(run.cmds) && end == run.end
      ensures end.Aborted? ==> stop == old(stop)
    {
      ghost var run := Measuring(address, hint, range, events, host.port.script, stop, NoTally, []);
      ghost var l0 := host.Log();
      ghost var done: seq<string> := [];
      FollowsNothing(l0);
      var result := 0.0;
      var resultRaw := 0;
      var cycles: nat := 0;
      var i := 0;
      while i < |events| && !stop
        invariant 0 <= i <= |events|
        invariant run == Measuring(address, hint, range, events[i..], host.port.script, stop,
                                   Tally(result, resultRaw, cycles), done)
        invariant Follows(l0, host.Log(), done)
        invariant !stop ==> state == RUNNING && !old(stop)
        decreases |events| - i
      {
        assert events[i..][1..] == events[i + 1..];
        match events[i] {
          case Cancel =>
            var _ := Stop();
          case Tick =>
            ghost var l1 := host.Log();
            ghost var call := MeasureCall([address, hint], First(l1.script));
            var v := host.Measure([address, hint]);
            FollowsCompose(l0, l1, host.Log(), done, call.cmds);
            done := done + call.cmds;
            match v {
              case Raised(e) =>
                return Aborted(e);
              case Done(x) =>
                if x != -1 {
                  result := result + ToAmperes(range, x);
                  resultRaw := resultRaw + x;
                  cycles := cycles + 1;
                }
            }
        }
        i := i + 1;
      }
      if stop {
        MeasuringWhenStopped(address, hint, range, events[i..], host.port.script, Tally(result, resultRaw, cycles), done);
      }
      end := Finished(Tally(result, resultRaw, cycles));
    }
  }
}
