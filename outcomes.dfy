/** The ways an instrument operation can fail, and the value/error wrappers used throughout. */
module Outcomes {

  /** Every exception the modelled code raises or lets through, one constructor per cause. */
  datatype Error =
    | ConnectionFailed                      // open_resource raised: wrong address, busy, absent
    | WriteFailed(command: string)          // a session write raised VisaIOError
    | AutoscaleFailed(enable: bool, command: string)  // RuntimeError wrapping a failed autoscale write
    | Timeout                               // a read found nothing queued by the instrument
    | MissingHash                           // ValueError: block header does not start with '#'
    | BadNumber                             // ValueError: int() refused a header field
    | InvalidTimebase                       // ValueError: seconds_per_division <= 0

  datatype Option<+T> = None | Some(value: T) {
    function GetOr(default: T): T {
      match this
      case Some(v) => v
      case None => default
    }
  }

  datatype Result<+T> = Ok(value: T) | Err(error: Error)
}
