/** Vocabulary shared by every module: optional values and the 32-bit words of the command stream. */
module Basics {

  datatype Option<+T> = None | Some(value: T)

  /** A word of a command stream or of a page of memory shared with the device. */
  type Word = bv32

  /** Number of slots of the device. */
  const NUM_SLOTS := 16

  type Slot = n: nat | n < NUM_SLOTS

  /** Bytes in a page, and words in a page. */
  const PAGE_SIZE := 4096
  const PAGE_WORDS := 1024
}
