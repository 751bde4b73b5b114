// Shared vocabulary: buffer geometry, results, and the ways the program can panic.

module Common {

  newtype byte = x: int | 0 <= x < 256

  // src/tcp_stream/ent_streaming_hugetlb.rs:81-82, 304, 370: 256 buffers of 8192 bytes fill one 2 MiB page.
  const BUF_SIZE: nat := 8192
  const BUF_COUNT: nat := 256
  const REGION: nat := 2097152

  datatype Option<+T> = None | Some(value: T)

  /** Every way a modelled operation can panic instead of returning. */
  datatype Panic =
    | Underflow            // unsigned subtraction below zero
    | InOverCapacity       // left_set_lens, line 348
    | OutOverCapacity      // left_set_lens, line 351
    | RevolutionDetected   // cb_recv_multi, line 306
    | EndNotUpdated        // cb_recv_multi, line 319
    | RecycledAhead        // try_free_buffers, line 234
    | SliceOutOfRange      // an index or copy_from_slice outside its buffer
    | ToDo                 // todo!()
    | Unreachable          // unreachable!()
    | BadCompletion        // a completion the collection closure refuses
    | UnwrapFailed         // unwrap() on an error

  datatype Outcome<+T> = Done(value: T) | Panicked(why: Panic)

  /** YaoiError, where an operation returns it. */
  datatype Error = BpNeedBuffers | LimitHugeTlbU16 | HugeTlbReqFixedId | Bearer | HugeTlb | RingBuf

  datatype Reply<+T> = Ok(value: T) | Err(error: Error) | Panics(why: Panic)

  const U16_MAX: nat := 65535

  /** The buffer group of a fixed descriptor; 65535 itself is refused. */
  function SlotU16FromFixedFd(fixedFd: Option<nat>): Reply<nat> {
    match fixedFd
    case None => Err(HugeTlbReqFixedId)
    case Some(fd) => if fd < U16_MAX then Ok(fd) else Err(LimitHugeTlbU16)
  }

  function Min(a: nat, b: nat): nat { if a <= b then a else b }
}
