/**
  Numeric constants the cam tool returns. Error codes are the Linux errno
  values (asm-generic/errno-base.h); functions return them negated, as the
  C++ code does. EXIT_FAILURE is the value glibc's <stdlib.h> gives it.
 */
module Errno {

  /** Interrupted system call; the tool uses it to mean "help was shown". */
  const EINTR: int := 4

  /** No such device; capture requested without a camera. */
  const ENODEV: int := 19

  /** Invalid argument. */
  const EINVAL: int := 22

  /** Process exit status for any failure. */
  const EXIT_FAILURE: int := 1
}
