/** Option and Result values shared by every part of the model, and the error
    conditions the backends and the driver raise. */
module Outcomes {

  datatype Option<+T> = None | Some(value: T)

  /** The exceptions raised by the modelled code, one constructor per cause. */
  datatype Error =
    | NotInitialized        // RuntimeError("Backend not initialized")
    | NotWriter             // RuntimeError("Only writer can call ...")
    | CapacityExceeded      // ValueError("Data too large ...") in the shared-memory write
    | ShortHeader           // struct.error: fewer than 8 header bytes to unpack
    | SegmentTooSmall       // ValueError: a memoryview slice shorter than the bytes assigned to it
    | FieldOverflow         // struct.error: a header field does not fit in an unsigned 32-bit int
    | NotFound              // FileNotFoundError: no shared-memory segment under that name
    | InvalidSize           // ValueError: a segment must be created with a positive size
    | UnknownScenario(name: string)  // ValueError("Unknown scenario: ...")
    | NoMatchingBroadcast   // a receiving rank joins a broadcast the root never issues (it blocks forever)

  datatype Result<+T> = Ok(value: T) | Err(error: Error)

  function Max0(x: int): (r: nat)
    ensures r >= x && (x >= 0 ==> r == x)
  {
    if x < 0 then 0 else x
  }
}
