/** Types shared by the host (bus) and channel devices. */
module Common {

  /** One byte on the serial line. */
  newtype byte = b: int | 0 <= b < 256

  /** The Tango device states the two device classes use. UNKNOWN is the
      state of a device whose init_device has not finished yet. */
  datatype DevState = UNKNOWN | ON | RUNNING | FAULT

  /** The exceptions that can leave a command.
      - SerialFault: DevFailed raised by the host after a serial exception;
      - ValueFault: ValueError, from int() on a reply or from RangeEnum(n);
      - IndexFault: IndexError, from indexing a payload that is too short;
      - StateFault: DevFailed raised because the device state forbids the call. */
  datatype Error = SerialFault | ValueFault | IndexFault | StateFault

  datatype Option<+T> = None | Some(value: T)
  {
    function GetOr(default: T): T
    {
      if Some? then value else default
    }
  }

  /** A value returned normally, or an exception raised. */
  datatype Outcome<+T> = Done(value: T) | Raised(error: Error)

  /** What a command that returns None gives back. */
  type Status = Outcome<()>

  /** Forget the value of an outcome, keep its exception. */
  function Discard<T>(o: Outcome<T>): (s: Status)
    ensures s.Raised? <==> o.Raised?
    ensures o.Raised? ==> s.error == o.error
  {
    match o
    case Done(_) => Done(())
    case Raised(e) => Raised(e)
  }
}
