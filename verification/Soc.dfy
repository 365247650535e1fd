/** Register offsets, bit positions, memory map and limits of the SoC. */
module Soc {
  import opened Words

  /** An aligned offset inside the 64-word register window. */
  type Offset = o: nat | o % 4 == 0 && o / 4 < REGISTER_WORDS

  const REGISTER_WORDS := 64

  const REG_CTRL: Offset := 0x008
  const REG_IRQ_STATUS: Offset := 0x010
  const REG_IRQ_ENABLE: Offset := 0x014
  const REG_TIMER_CTRL: Offset := 0x018
  const REG_DMA_SRC_ADDR: Offset := 0x020
  const REG_DMA_DST_ADDR: Offset := 0x024
  const REG_DMA_LEN_BYTES: Offset := 0x028
  const REG_DMA_CTRL: Offset := 0x02C
  const REG_DMA_STATUS: Offset := 0x030
  const REG_CMD_OPCODE: Offset := 0x034
  const REG_CMD_SRC0_ADDR: Offset := 0x038
  const REG_CMD_SRC1_ADDR: Offset := 0x03C
  const REG_CMD_DST_ADDR: Offset := 0x040
  const REG_CMD_LEN: Offset := 0x044
  const REG_CMD_M: Offset := 0x048
  const REG_CMD_N: Offset := 0x04C
  const REG_CMD_K: Offset := 0x050
  const REG_CMD_FLAGS: Offset := 0x054
  const REG_CMD_PRIORITY: Offset := 0x058
  const REG_CMD_SUBMIT: Offset := 0x05C
  const REG_CMD_STATUS: Offset := 0x060
  const REG_ERROR_STATUS: Offset := 0x070
  const REG_CMD_ID: Offset := 0x074

  const CTRL_ENABLE_BIT := 0
  const TIMER_ENABLE_BIT := 0
  const TIMER_PERIODIC_BIT := 1
  const TIMER_INTERVAL_LSB := 8
  const MAX_TIMER_INTERVAL := 0xFF_FFFF
  const DMA_CTRL_START_BIT := 0
  const DMA_CTRL_IRQ_ENABLE_BIT := 1
  const DMA_STATUS_BUSY_BIT := 0
  const DMA_STATUS_DONE_BIT := 1
  const DMA_STATUS_ERROR_BIT := 2
  const CMD_SUBMIT_BIT := 0
  const CMD_STATUS_DONE_BIT := 0
  const CMD_STATUS_ERROR_BIT := 1
  const CMD_STATUS_PENDING_BIT := 4

  const IRQ_DMA_DONE_BIT := 0
  const IRQ_CMD_DONE_BIT := 1
  const IRQ_ACCEL_DONE_BIT := 2
  const IRQ_ERROR_BIT := 3
  const IRQ_TIMER_BIT := 4

  const CMD_OP_INVALID: U32 := 0
  const CMD_OP_DMA_COPY: U32 := 1
  const CMD_OP_VECTOR_ADD: U32 := 2
  const CMD_OP_VECTOR_MULTIPLY: U32 := 3
  const CMD_OP_VECTOR_SCALE: U32 := 4
  const CMD_OP_VECTOR_RELU: U32 := 5
  const CMD_OP_VECTOR_CLAMP: U32 := 6
  const CMD_OP_REDUCE_SUM: U32 := 7
  const CMD_OP_REDUCE_MAX: U32 := 8
  const CMD_OP_GEMM: U32 := 9

  const FLAG_SIGNED_BIT := 0
  const FLAG_SATURATE_BIT := 1
  const FLAG_IRQ_ON_DONE_BIT := 2

  const DATA_BYTES := 4
  const ELEMENT_BYTES: U32 := 2
  const MAX_VECTOR_LENGTH := 256
  const MAX_REDUCTION_LENGTH := 256
  const MAX_GEMM_M := 8
  const MAX_GEMM_N := 8
  const MAX_GEMM_K := 8

  const SPM_BASE_ADDR: U32 := 0x1000_0000
  const SPM_SIZE_BYTES := 65536
  const DRAM_BASE_ADDR: U32 := 0x8000_0000
  const DRAM_SIZE_BYTES := 1048576
  const TASK_SLOT_BYTES := 4096
  const SOURCE0_OFFSET := 0
  const SOURCE1_OFFSET := 1024
  const DESTINATION_OFFSET := 2048
  const TASK_SLOT_COUNT := SPM_SIZE_BYTES / TASK_SLOT_BYTES
  const COMMAND_ID_BASE := 0x1000

  /** [address, address + length) lies wholly inside [base, base + size). */
  predicate Inside(address: int, length: nat, base: int, size: nat) {
    base <= address && address + length <= base + size
  }

  predicate InScratchpad(address: int, length: nat) {
    Inside(address, length, SPM_BASE_ADDR, SPM_SIZE_BYTES)
  }

  predicate InDram(address: int, length: nat) {
    Inside(address, length, DRAM_BASE_ADDR, DRAM_SIZE_BYTES)
  }

  /** The byte ranges [a, a + m) and [b, b + n) share no address. */
  predicate Disjoint(a: int, m: nat, b: int, n: nat) {
    m == 0 || n == 0 || a + m <= b || b + n <= a
  }
}
