# FMB Oxford IC Plus ionisation chambers, modelled in Dafny

The Tango device server `fmb_ic_plus` drives FMB Oxford YMCS0004/5
picoammeters. Up to 16 of them, each with an ionisation chamber, share one
RS-232 line. The server has two device classes:

- **FMBICPlusHost** owns the serial port. It builds the ASCII commands of
  the chambers' protocol: read or write the high voltage, the measuring
  range and the current offset, reset a chamber, read a current. Every
  command goes through one `query`. `query` writes the command, reads one
  line (when data is expected) or one byte, checks the answer and decodes
  it as -1 (a rejected answer), 0 (an acknowledgement) or the integer
  between the answer's first and last byte.
- **FMBICPlusChannel** stands for one chamber on the bus:
  - it caches the chamber's settings;
  - it lets each attribute be read only in ON or RUNNING, and written only in ON;
  - it clamps requested values into their limits;
  - `start` runs a measuring loop that polls the chamber through the host
    during the exposition time and averages the counts it accepts,
    converting them to amperes with the range table `RangeEnum`.

The files:

| file | module | what it holds |
|---|---|---|
| `common.dfy` | `Common` | bytes, the Tango states, the exceptions a command can raise, `Option`, `Outcome` |
| `range_table.dfy` | `RangeTable` | `RangeEnum`: the six ranges, their limits in fA, the conversion to amperes |
| `value_clamp.dfy` | `ValueClamp` | the limits of voltage, offset and exposition time and the `fit_*` clamps |
| `wire.dfy` | `Wire` | decimal text, the command grammar and its parser, `query`'s check and decoding of an answer |
| `bus.dfy` | `Bus` | the simulated line, each host command as what it writes and returns, the `SerialPort` and `Host` classes |
| `channel.dfy` | `ChannelDevice` | the channel's settings fetch and offset write-back, the measuring loop as a function, the `Channel` class |

Pure parts of the source are functions with lemmas: the range table, the
clamps, the grammar and the answer check. Parts that work by mutation are
classes:

- `Host`: its `state` field and a `SerialPort` whose `written` list grows
  and whose `script` of deliveries is used up one per exchange.
- `Channel`, with the fields the source updates.

Each method is proved against a specification function of the old state:
- `ReadCall`, `WriteVoltageCall`, ... for the host;
- `Fetch`, `ResetEffect`, `OffsetUpdate` for the channel;
- `Polled`, `Accumulate`, `Conclude` and the loop-shaped `Measuring` for the measurement.

Lemmas then state what the source promises about those functions. The
twostate predicate `Host.Issued(cmds)` says the port saw exactly `cmds`,
one exchange each. `Channel.Applied(f)` also says which settings were stored.

The measuring loop runs on wall-clock time in a separate thread, where a
client's `stop()` can also arrive. It is modelled by a finite sequence of
events:
- `Tick`: time is left and the loop goes round once more;
- `Cancel`: `stop()` is called;
- the end of the sequence: the exposition time is up.

`Start` runs the loop to its end before returning.

## Model

| member | source | states |
|---|---|---|
| RangeTable.MinFA | fmb/fmb_ic_plus.py:26-32 | RangeEnum.min: the lower limit lies between 100 fA (RANGE_1) and 10^7 fA (RANGE_6) |
| RangeTable.MaxFA | fmb/fmb_ic_plus.py:34-40 | RangeEnum.max: the upper limit lies between 10^6 fA (RANGE_1) and 10^11 fA (RANGE_6) |
| RangeTable.ToAmperes | fmb/fmb_ic_plus.py:42-48 | to_amperes keeps the sign of the count: zero exactly for count 0, positive exactly for a positive count |
| RangeTable.AmperesPerCount | fmb/fmb_ic_plus.py:42-48 | one raw count is worth a positive current in every range |
| RangeTable.MaxIsTenThousandTimesMin | fmb/fmb_ic_plus.py:26-40 | max(r) = 10^4 * min(r) and min(r) < max(r) for every ordinal |
| RangeTable.NextRangeIsTenfold | fmb/fmb_ic_plus.py:26-40 | the next range's min and max are ten times this range's |
| RangeTable.ToAmperesIsLinear | fmb/fmb_ic_plus.py:42-48 | to_amperes(raw) is the per-count current times raw |
| RangeTable.ToAmperesEndpoints | fmb/fmb_ic_plus.py:42-48 | to_amperes(0) = 0 and to_amperes(262144000) = max(r) * 1e-15 |
| RangeTable.ToAmperesMonotone | fmb/fmb_ic_plus.py:42-48 | a larger count never converts to a smaller current |
| RangeTable.ToAmperesWithinRange | fmb/fmb_ic_plus.py:42-48 | a count in 0..262144000 converts to a current between 0 and max(r) * 1e-15 |
| RangeTable.ToAmperesNextRange | fmb/fmb_ic_plus.py:14-48 | the same count reads ten times the current one range up |
| RangeTable.FirstRangeFullScale | fmb/fmb_ic_plus.py:14-48 | full scale in RANGE_1 is 1 nA |
| ValueClamp.FitVoltageRange | fmb/fmb_ic_plus.py:74-81 | result in [0, 1700]; an in-range voltage is unchanged; below gives 0, above gives 1700 |
| ValueClamp.FitOffsetRange | fmb/fmb_ic_plus.py:83-90 | result in [0, 99]; an in-range offset is unchanged; below gives 0, above gives 99 |
| ValueClamp.FitExpTimeRange | fmb/fmb_ic_plus.py:92-102 | result in [1e-6, 86400]; an in-range time is unchanged; below gives 1e-6, above gives 86400 |
| ValueClamp.FitIsIdempotent | fmb/fmb_ic_plus.py:74-102 | clamping twice is clamping once, for all three clamps |
| ValueClamp.FitVoltageIsNearest | fmb/fmb_ic_plus.py:74-81 | the clamped voltage is no farther from the request than any allowed voltage |
| ValueClamp.FitOffsetIsNearest | fmb/fmb_ic_plus.py:83-90 | the clamped offset is no farther from the request than any allowed offset |
| ValueClamp.FitExpTimeIsNearest | fmb/fmb_ic_plus.py:92-102 | the clamped time is no farther from the request than any allowed time |
| ValueClamp.NonPositiveExpTimeBecomesMinimum | fmb/fmb_ic_plus.py:92-102 | a zero or negative exposition time becomes 1e-6 |
| Wire.ParseNatToString | fmb/fmb_ic_plus.py:620 | digits-only int() of a number's decimal text gives the number back |
| Wire.ParseIntToString | fmb/fmb_ic_plus.py:498 | the decimal text that format() writes for any integer reads back as that integer |
| Wire.IntToStringInjective | fmb/fmb_ic_plus.py:498 | distinct integers are written as distinct text |
| Wire.Format | fmb/fmb_ic_plus.py:491-585 | the command strings the host builds: each ends in a line feed and starts with `*` for the reset, `:` otherwise |
| Wire.ParseFormat | fmb/fmb_ic_plus.py:491-585 | every command the host formats is one line ending in a line feed, and parses back to the same command and arguments |
| Wire.FormatInjective | fmb/fmb_ic_plus.py:491-585 | distinct commands (kind, address or value) are written as distinct text |
| Wire.Rejected | fmb/fmb_ic_plus.py:613-614 | the answer check rejects exactly a data answer shorter than 3 bytes, or a non-data answer other than the single byte 0x06; the empty answer is rejected either way, so the final `not answer` adds nothing |
| Wire.DecodeReply | fmb/fmb_ic_plus.py:609-624 | -1 exactly for a rejected answer; 0 exactly for an acknowledgement; a ValueError exactly when a long enough data answer has non-digits between its first and last byte; otherwise the number those bytes spell |
| Wire.DecodeDataLine | fmb/fmb_ic_plus.py:620-624 | a framing byte, the digits of n and a line feed decode to n |
| Wire.DataLineIsOneLine | fmb/fmb_ic_plus.py:609 | such a data line holds its only line feed at its end |
| Bus.ReadLine | fmb/fmb_ic_plus.py:609 | readline returns a prefix of the incoming bytes that ends at the first line feed, or all of them |
| Bus.ReadByte | fmb/fmb_ic_plus.py:610 | read() gives the first incoming byte, or nothing when none arrives |
| Bus.Exchange | fmb/fmb_ic_plus.py:625-630 | a query raises the serial fault exactly when the line breaks |
| Bus.ExchangeDataLine | fmb/fmb_ic_plus.py:609-624 | a chamber answering with a framed number makes query return it, whatever follows the line feed |
| Bus.ExchangeAck | fmb/fmb_ic_plus.py:609-624 | an acknowledgement byte makes query return 0 |
| Bus.ExchangeSilence | fmb/fmb_ic_plus.py:613-619 | no answer before the timeout gives -1, with or without data expected |
| Bus.ExchangeRejects | fmb/fmb_ic_plus.py:613-619 | a short data answer or a wrong acknowledgement gives -1 |
| Bus.ReadCall | fmb/fmb_ic_plus.py:492-544 | read_voltage/read_range/read_offset: off-bus address gives -1 and writes nothing; otherwise exactly the one line Format(c), which parses back to the command, with query's result |
| Bus.WriteVoltageCall | fmb/fmb_ic_plus.py:501-513 | a command is written iff the payload has length 2, the address is 0..15 and the voltage is in [0, 1700]; otherwise nothing is written |
| Bus.WriteOffsetCall | fmb/fmb_ic_plus.py:546-558 | a command is written iff the payload has length 2, the address is 0..15 and the offset is in [0, 99); otherwise nothing is written |
| Bus.WriteRangeCall | fmb/fmb_ic_plus.py:525-534 | no guard: a payload shorter than 2 raises IndexError with nothing written, any other writes the range command |
| Bus.ResetCall | fmb/fmb_ic_plus.py:560-566 | *RST is written for any address; it raises exactly when the line breaks |
| Bus.MeasureCall | fmb/fmb_ic_plus.py:568-585 | -1 with nothing written unless the payload has length 2 with an address in 0..15; otherwise one :READ command with query's result |
| Bus.WriteOffsetNeverSendsMaximum | fmb/fmb_ic_plus.py:553-555 | offset 99 survives the clamp but write_offset never sends it |
| Bus.WriteGuardsAgreeWithClamps | fmb/fmb_ic_plus.py:508-555 | for an address on the bus, write_voltage sends exactly the voltages the clamp leaves unchanged, write_offset exactly those offsets except 99 |
| Bus.FollowsCompose | fmb/fmb_ic_plus.py:587-632 | exchanges one after the other add up: the commands concatenate, the deliveries are used in order, a break anywhere gives FAULT |
| Bus.SerialPort.Write | fmb/fmb_ic_plus.py:607 | the command is appended to what the port has written |
| Bus.SerialPort.Read | fmb/fmb_ic_plus.py:609-610 | one delivery is used: a line or a byte, or a serial exception |
| Bus.Host.constructor | fmb/fmb_ic_plus.py:634-650 | a host with an open port is ON |
| Bus.Host.Query | fmb/fmb_ic_plus.py:587-632 | exactly the command is written and one delivery used; the result is the answer check and decoding of that delivery; a serial exception sets FAULT and is raised on |
| Bus.Host.ReadVoltage | fmb/fmb_ic_plus.py:492-499 | the port log and result are those of ReadCall for the voltage |
| Bus.Host.WriteVoltage | fmb/fmb_ic_plus.py:501-513 | the port log and result are those of WriteVoltageCall |
| Bus.Host.ReadRange | fmb/fmb_ic_plus.py:515-523 | the port log and result are those of ReadCall for the range |
| Bus.Host.WriteRange | fmb/fmb_ic_plus.py:525-534 | the port log and result are those of WriteRangeCall |
| Bus.Host.ReadOffset | fmb/fmb_ic_plus.py:536-544 | the port log and result are those of ReadCall for the offset |
| Bus.Host.WriteOffset | fmb/fmb_ic_plus.py:546-558 | the port log and result are those of WriteOffsetCall |
| Bus.Host.Reset | fmb/fmb_ic_plus.py:560-566 | the port log and result are those of ResetCall |
| Bus.Host.Measure | fmb/fmb_ic_plus.py:568-585 | the port log and result are those of MeasureCall |
| ChannelDevice.ToRange | fmb/fmb_ic_plus.py:181 | RangeEnum(n) is the ordinal n for n in 0..5 and a ValueError otherwise |
| ChannelDevice.CycleHint | fmb/fmb_ic_plus.py:371-373 | the measure hint is the exposition time in microseconds truncated: non-negative, within one below the exact quotient |
| ChannelDevice.Fetch | fmb/fmb_ic_plus.py:326-334 | at most three reads; the settings are stored in order up to the first exception and none after it; the fetch succeeds exactly when the offset is stored; nothing is written for an address off the bus |
| ChannelDevice.FetchRange | fmb/fmb_ic_plus.py:333-334 | the fetch after the voltage keeps it and adds at most the range and offset reads |
| ChannelDevice.FetchOffset | fmb/fmb_ic_plus.py:334 | the fetch after voltage and range keeps both and adds at most the offset read |
| ChannelDevice.FetchAnswered | fmb/fmb_ic_plus.py:326-334 | a chamber that answers v, r + 1 and o makes the channel store v, ordinal r and o after exactly the three reads: the range written as r + 1 reads back as r |
| ChannelDevice.FetchOffBus | fmb/fmb_ic_plus.py:326-334 | an address off the bus stores voltage -1, writes nothing, and fails with ValueError from RangeEnum(-2) |
| ChannelDevice.FetchRejectsRange | fmb/fmb_ic_plus.py:333 | a range answer outside 1..6 raises ValueError after storing the voltage; the offset is not read |
| ChannelDevice.FetchBroken | fmb/fmb_ic_plus.py:332 | a broken line at the first read stores nothing and raises |
| ChannelDevice.ResetEffect | fmb/fmb_ic_plus.py:447-463 | reset writes *RST first, whatever the address; a line broken at *RST writes only that line, stores no voltage, range or offset and raises the serial fault |
| ChannelDevice.ResetIgnoresAnswer | fmb/fmb_ic_plus.py:457-458 | whatever the chamber answers to *RST, short of a broken line, is dropped: the voltage, range and offset are fetched from the rest of the exchange exactly as a plain fetch would |
| ChannelDevice.ResetAnswered | fmb/fmb_ic_plus.py:447-463 | a reset the chamber answers, followed by answers v, r + 1 and o, writes *RST and the three reads in order and stores v, ordinal r and o |
| ChannelDevice.ResetOffBus | fmb/fmb_ic_plus.py:447-463 | resetting a channel off the bus writes *RST, stores voltage -1 and fails |
| ChannelDevice.OffsetUpdate | fmb/fmb_ic_plus.py:220-226 | when the write or the read-back raises, the clamped request is what stays stored |
| ChannelDevice.OffsetStoresReadBack | fmb/fmb_ic_plus.py:220-226 | the stored offset is the chamber's read-back, whether or not the write was sent |
| ChannelDevice.OffsetOffBusStoresMinusOne | fmb/fmb_ic_plus.py:220-226 | off the bus nothing is written and -1 is stored as the offset |
| ChannelDevice.VoltageOutOfRangeIsNotSent | fmb/fmb_ic_plus.py:136-142 | an out-of-range voltage is stored clamped but the raw request is forwarded and dropped, so nothing is sent |
| ChannelDevice.Polled | fmb/fmb_ic_plus.py:365-385 | one measure call per round until the stop flag or an exception; only the last reply can be an exception; replies are at least -1; every command is the :READ of the address |
| ChannelDevice.PolledWhenStopped | fmb/fmb_ic_plus.py:367-368 | with the stop flag set the loop makes no call |
| ChannelDevice.PolledStopsAtCancel | fmb/fmb_ic_plus.py:367-368 | nothing after a stop() affects the loop |
| ChannelDevice.Step | fmb/fmb_ic_plus.py:374-379 | one reply of the loop: -1 leaves the totals alone; any other count adds one cycle, the count to result_raw and its conversion to result |
| ChannelDevice.Accumulate | fmb/fmb_ic_plus.py:365-385 | the loop's bookkeeping reply by reply: it aborts exactly when some reply is an exception; otherwise it counts at most one cycle per reply |
| ChannelDevice.FirstFailure | fmb/fmb_ic_plus.py:380-385 | no failure is found exactly when every reply returned a value |
| ChannelDevice.AccumulateMeaning | fmb/fmb_ic_plus.py:358-379 | the loop aborts with the first exception if there is one; otherwise cycles is the number of non-(-1) replies, result_raw their sum and result the sum of their conversions |
| ChannelDevice.MeanCurrent | fmb/fmb_ic_plus.py:391-395 | the averaged current is NaN exactly when no cycle was counted; otherwise times the cycles it gives the summed current back |
| ChannelDevice.MeanRaw | fmb/fmb_ic_plus.py:391-396 | the averaged raw count is -1 when no cycle was counted; otherwise times the cycles it gives the summed count back |
| ChannelDevice.MeanCurrentOfBatch | fmb/fmb_ic_plus.py:391-393 | the averaged current is the conversion of the averaged raw count |
| ChannelDevice.MeansOfBatch | fmb/fmb_ic_plus.py:391-393 | for a non-empty batch of counts, result_raw / cycles is their arithmetic mean and result / cycles the range's amperes per count times that mean |
| ChannelDevice.FinishedRun | fmb/fmb_ic_plus.py:358-379 | replies with no exception among them end the loop with the tally of exactly the accepted (non-(-1)) counts |
| ChannelDevice.AveragesOfAnyRun | fmb/fmb_ic_plus.py:358-398 | for any replies with no exception and at least one accepted count, the channel ends ON with stop cleared, the raw average equal to the mean of the accepted counts and the current average equal to the amperes per count times that mean |
| ChannelDevice.MeanWithinRange | fmb/fmb_ic_plus.py:391-393 | counts on the instrument's scale average to a count on the scale and a current within the range |
| ChannelDevice.Conclude | fmb/fmb_ic_plus.py:380-398 | the end of the measurement as intended: after a finished loop ON, the flag cleared, the current NaN exactly when no cycle was counted; after an abort FAULT with the previous averages and flag kept |
| ChannelDevice.ConcludeAsWritten | fmb/fmb_ic_plus.py:380-398 | the end of the measurement as written: the same after a finished loop; after an abort the state stays RUNNING with the previous averages and flag kept |
| ChannelDevice.AsWrittenNeverFaults | fmb/fmb_ic_plus.py:380-385 | as written, a measurement never ends in FAULT; one that aborts stays RUNNING |
| ChannelDevice.BrokenLineDuringMeasurement | fmb/fmb_ic_plus.py:380-385 | a broken line at the first poll aborts the loop: RUNNING as written, FAULT as intended |
| ChannelDevice.ConcludeFaultsExactlyOnAbort | fmb/fmb_ic_plus.py:380-398 | as intended, FAULT exactly when the loop aborts; otherwise ON with the stop flag cleared |
| ChannelDevice.ConcludePairsNaN | fmb/fmb_ic_plus.py:391-396 | after a measurement the current is NaN exactly when the raw current is -1 |
| ChannelDevice.SteadyMeasurement | fmb/fmb_ic_plus.py:351-398 | k > 0 polls answered with the count n give raw current n and current to_amperes(n), state ON |
| ChannelDevice.StoppedMeasurementKeepsAverage | fmb/fmb_ic_plus.py:423-433 | a stop() after k > 0 counted rounds keeps their average instead of NaN |
| ChannelDevice.SilentMeasurement | fmb/fmb_ic_plus.py:391-398 | a chamber that never answers gives current NaN, raw current -1 and state ON |
| ChannelDevice.Measuring | fmb/fmb_ic_plus.py:365-385 | the while loop round by round: the cycle count of a completed run never falls below the count it started from |
| ChannelDevice.MeasuringWrites | fmb/fmb_ic_plus.py:365-385 | the loop only appends to the port log: commands already written stay a prefix and at most one command per round is added |
| ChannelDevice.FreshRunIsAccumulatedPolling | fmb/fmb_ic_plus.py:358-385 | a loop started from zeroed totals and an empty log ends with the accumulation of its polls' replies and writes exactly the polls' commands |
| ChannelDevice.MeasuringIsAccumulatedPolling | fmb/fmb_ic_plus.py:365-379 | the round-by-round loop is the accumulation of the replies its polls get, with the same commands written |
| ChannelDevice.Channel.constructor | fmb/fmb_ic_plus.py:104-349 | a new channel holds the class defaults: voltage 0, RANGE_1, offset 0, time 0, current 0 |
| ChannelDevice.Channel.GetIcChamberParameters | fmb/fmb_ic_plus.py:326-334 | the port log, stored settings and result are those of Fetch |
| ChannelDevice.Channel.InitDevice | fmb/fmb_ic_plus.py:336-347 | the settings are fetched; ON only if the fetch succeeded |
| ChannelDevice.Channel.GetHighVoltage | fmb/fmb_ic_plus.py:110-125 | in ON or RUNNING the voltage is returned and nothing changes; otherwise FAULT and an exception |
| ChannelDevice.Channel.SetHighVoltage | fmb/fmb_ic_plus.py:128-147 | in ON the clamped voltage is stored and the request forwarded as given; otherwise FAULT, nothing stored or sent |
| ChannelDevice.Channel.GetRange | fmb/fmb_ic_plus.py:153-168 | in ON or RUNNING the range is returned; otherwise FAULT and an exception |
| ChannelDevice.Channel.SetRange | fmb/fmb_ic_plus.py:171-187 | in ON a valid ordinal is stored and sent as ordinal + 1; an invalid one raises with nothing stored or sent; otherwise FAULT |
| ChannelDevice.Channel.GetOffset | fmb/fmb_ic_plus.py:194-209 | in ON or RUNNING the offset is returned; otherwise FAULT and an exception |
| ChannelDevice.Channel.SetOffset | fmb/fmb_ic_plus.py:212-231 | in ON the port log, stored offset and result are those of OffsetUpdate; otherwise FAULT, nothing stored or sent |
| ChannelDevice.Channel.GetExpositionTime | fmb/fmb_ic_plus.py:239-254 | in ON or RUNNING the time is returned; otherwise FAULT and an exception |
| ChannelDevice.Channel.SetExpositionTime | fmb/fmb_ic_plus.py:257-278 | in ON the clamped time is stored; otherwise FAULT and nothing stored |
| ChannelDevice.Channel.GetCurrent | fmb/fmb_ic_plus.py:284-301 | in ON or RUNNING the last current is returned; otherwise FAULT and NaN, no exception |
| ChannelDevice.Channel.GetRawCurrent | fmb/fmb_ic_plus.py:307-324 | in ON or RUNNING the last raw current is returned; otherwise FAULT and NaN, no exception |
| ChannelDevice.Channel.Reset | fmb/fmb_ic_plus.py:447-463 | in ON the port log, stored settings and result are those of ResetEffect and the state stays ON; otherwise FAULT and nothing sent |
| ChannelDevice.Channel.Stop | fmb/fmb_ic_plus.py:423-444 | from RUNNING: flag set, state ON; from ON: flag set, stays ON; otherwise FAULT and an exception |
| ChannelDevice.Channel.Start | fmb/fmb_ic_plus.py:400-420 | from ON the flag is cleared and the measurement's commands, averages and state are those of Conclude over the polled replies, so a loop aborted by an exception ends in FAULT (the corrected form; as written the channel stays RUNNING, see Findings); otherwise FAULT, nothing else changes |
| ChannelDevice.Channel.RunMeasurement | fmb/fmb_ic_plus.py:351-398 | the commands written, the averages and the state are those of Conclude(Accumulate(Polled)), so an aborted loop ends in FAULT (the corrected form; as written the channel stays RUNNING, see Findings) |
| ChannelDevice.Channel.Finish | fmb/fmb_ic_plus.py:380-398 | after the loop the state, averages and stop flag are those Conclude gives: the averages and ON for a completed run, FAULT and nothing else changed for an aborted one |
| ChannelDevice.Channel.Poll | fmb/fmb_ic_plus.py:365-385 | the loop's commands and its totals or exception are those of Measuring, round by round |

## Left out

- The Tango framework is not modelled: the `Device` base class, the
  attribute and command decorators, device properties, `run` and `main`.
  The attribute limits (`min_value`/`max_value` at :108, :192 and
  :237-238) make Tango reject an out-of-range write before the setter
  runs. The clamps' saturating branches, `VoltageOutOfRangeIsNotSent` and
  `NonPositiveExpTimeBecomesMinimum` are then reached only when the
  setter is called directly, as the model does.
- `Database`, `Util` and `DeviceProxy` are not modelled either. The
  channel calls its `Host` object directly.
- ChannelDevice.Channel.InitDevice: the host lookup in init_device is not
  modelled. When no host is found, the source sets FAULT and then fails on
  `hosts[0]`. The model starts from a channel that has a host.
- Bus.Host.constructor: opening the serial port and its failure are not
  modelled, nor the port name, baud rate and port timeout properties.
  The host starts ON with an open port.
- Bus.Host.Query: the read timeout (`command_timeout` plus the execution
  time) is not modelled. A delivery is either bytes, which may be empty
  (a timeout with nothing read), or a serial exception. Bytes left unread
  after one exchange are dropped. Only the read can break: a serial
  exception raised by `port.write` is not modelled, so a command whose
  write failed would still appear in the port's `written` list.
- Bus.Host.Measure: the payload's second element only stretches the read
  timeout, so it has no effect in the model.
- The `RLock` around `query` is not modelled, nor the `Thread` that
  `start` spawns. Exchanges are sequential.
- ChannelDevice.Channel.Start: runs the measuring loop to completion before returning.
  What can happen meanwhile is given as the `Tick`/`Cancel` event
  sequence: the loop's rounds and a concurrent `stop()`. Other interleavings
  are not modelled, such as a setter or a reset during the measurement.
- `time.perf_counter` is not modelled: the end of the event sequence
  stands for the end of the exposition time, so time passing is abstract.
- Floating point is idealised: currents, averages and exposition times are
  exact reals. `None` stands for NaN: for the current, and for the
  raw current that the refused `raw_current` getter returns. A raw
  current of `-1.0` is the source's own -1, stored when no cycle was
  counted.
  NaN or infinite requests to the clamps are not modelled.
- Wire.ParseNat: the decoding of an answer accepts decimal digits only.
  Python's `int()` also accepts surrounding whitespace, a sign and
  underscores; such answers raise a ValueError in the model.
- The log streams (`debug_stream`, `info_stream`, `warn_stream`,
  `error_stream`) produce no state and are not modelled.
- `DevFailed` and its wrapping of a serial exception are not modelled
  separately. A call that fails keeps the kind of its cause (`Error`):
  serial, value, index or state.
- `setup.py` holds packaging metadata only; it is not part of this model.

The model follows the code where the docstrings say otherwise:
- SetExpositionTime: the docstring says non-positive values are not
  applied, but the code clamps them to 1e-6, as stated in
  `NonPositiveExpTimeBecomesMinimum`. Through Tango such a write is
  refused by the attribute's `min_value` before the setter runs; the
  clamp applies to a direct call of the setter.
- Start: the docstring promises FAULT when no data arrives. The code ends
  in ON with current NaN and raw current -1, as stated in `SilentMeasurement`.
- Stop: the docstring says the current becomes NaN. The code averages the
  rounds already counted, as stated in `StoppedMeasurementKeepsAverage`.
- GetCurrent: the docstring says a current never measured reads NaN. The
  class default, which the code returns, is 0.0.

## Findings

| source | as written | input that shows it | evidently intended | confidence | as-written member | corrected member |
|---|---|---|---|---|---|---|
| fmb/fmb_ic_plus.py:380-385 | `__measure` catches `serial.SerialException`, but its calls go through the host, whose `query` turns a serial exception into `DevFailed` (:625-630). The handler never runs: the exception ends the measuring thread, and the channel stays RUNNING until the next command. A `start` then sets FAULT and raises (:415-420). Only a `stop` issued before that returns the channel to ON (:430-434) | a line that breaks at the first measure call of a running measurement (`BrokenLineDuringMeasurement`) | a failed poll sets the channel to FAULT, as the handler does | not executed | ChannelDevice.ConcludeAsWritten, shown by ChannelDevice.BrokenLineDuringMeasurement and ChannelDevice.AsWrittenNeverFaults | ChannelDevice.Conclude, with ChannelDevice.ConcludeFaultsExactlyOnAbort, used by ChannelDevice.Channel.RunMeasurement |
