/** Constants that several parts of the kernel share. */
module Kernel {
  const MAX_RT_PRIO: nat := 100
  const EPERM: int := 1
  const EBUSY: int := 16
  const EINVAL: int := 22
  const ERESTARTSYS: int := 512

  const WORD: nat := 0x1_0000_0000   // unsigned long of the 32-bit target
  const DOUBLE_WORD: nat := 0x1_0000_0000_0000_0000

  /** The runtime that stands for "no limit": an unsigned 64-bit integer of all ones. */
  const RUNTIME_INF: nat := 0xFFFF_FFFF_FFFF_FFFF
}
