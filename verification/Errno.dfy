/** The error numbers of src/avrtos/errno.h, as the kernel returns them. */
module Errno {
  const ENOENT := -2
  const EAGAIN := -11
  const ENOMEM := -12
  const EINVAL := -22
  const ENOMSG := -35
  const ENOTSUP := -95
  const ETIMEDOUT := -110
  const ECANCELED := -125

  /** The value of a cast to int8_t. */
  function Int8(n: nat): int {
    (n + 128) % 256 - 128
  }

  /** What a call that may block did: it returned a code, or it blocked the calling thread. */
  datatype Outcome = Done(code: int) | Blocked
}
