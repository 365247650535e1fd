/** The register protocols of the DMA, accelerator and interrupt drivers as functions on the device. */
module DriverProtocol {
  import opened Words
  import opened Soc
  import opened DeviceModel
  import opened Tasks

  /** The device after a driver call and the exception the call ended with, if any. */
  datatype DriverOutcome = DriverOutcome(device: Device, thrown: Option<Exception>)

  datatype RegisterWrite = RegisterWrite(offset: Offset, value: U32)

  /** The writes in order, each preceded by an environment step. */
  function WriteAll(env: Env, d: Device, writes: seq<RegisterWrite>): Device
    decreases |writes|
  {
    if |writes| == 0 then d
    else
      var last := writes[|writes| - 1];
      Write(env, WriteAll(env, d, writes[..|writes| - 1]), last.offset, last.value)
  }

  lemma WriteAllStep(env: Env, d: Device, writes: seq<RegisterWrite>, k: nat)
    requires k < |writes|
    ensures WriteAll(env, d, writes[..k + 1])
         == Write(env, WriteAll(env, d, writes[..k]), writes[k].offset, writes[k].value)
  {
    assert writes[..k + 1][..k] == writes[..k];
  }

  function ClearDmaStatus(env: Env, d: Device): Device {
    Write(env, d, REG_DMA_STATUS, Or(RegisterBit(DMA_STATUS_DONE_BIT), RegisterBit(DMA_STATUS_ERROR_BIT)))
  }

  function ClearCommandStatus(env: Env, d: Device): Device {
    Write(env, d, REG_CMD_STATUS, Or(RegisterBit(CMD_STATUS_DONE_BIT), RegisterBit(CMD_STATUS_ERROR_BIT)))
  }

  function DmaWrites(r: DmaRequest): seq<RegisterWrite> {
    [RegisterWrite(REG_DMA_SRC_ADDR, r.source),
     RegisterWrite(REG_DMA_DST_ADDR, r.destination),
     RegisterWrite(REG_DMA_LEN_BYTES, r.length)]
  }

  /** `DmaDriver::start`. */
  function DmaStart(env: Env, d: Device, r: DmaRequest): DriverOutcome {
    if r.length == 0 then DriverOutcome(d, Some(InvalidArgument))
    else
      var d1 := Tick(env, d);
      if DmaStatus(d1).busy then DriverOutcome(d1, Some(DeviceBusy))
      else
        var d2 := WriteAll(env, ClearDmaStatus(env, d1), DmaWrites(r));
        var go := Or(RegisterBit(DMA_CTRL_START_BIT), RegisterBit(DMA_CTRL_IRQ_ENABLE_BIT));
        DriverOutcome(Write(env, d2, REG_DMA_CTRL, go), None)
  }

  function CommandWrites(c: Command): seq<RegisterWrite> {
    [RegisterWrite(REG_CMD_OPCODE, c.opcode),
     RegisterWrite(REG_CMD_SRC0_ADDR, c.source0),
     RegisterWrite(REG_CMD_SRC1_ADDR, c.source1),
     RegisterWrite(REG_CMD_DST_ADDR, c.destination),
     RegisterWrite(REG_CMD_LEN, c.length),
     RegisterWrite(REG_CMD_M, c.rows),
     RegisterWrite(REG_CMD_N, c.columns),
     RegisterWrite(REG_CMD_K, c.inner),
     RegisterWrite(REG_CMD_FLAGS, c.flags),
     RegisterWrite(REG_CMD_PRIORITY, c.priority),
     RegisterWrite(REG_CMD_ID, c.commandId)]
  }

  /** The first five of eleven staging writes: opcode, addresses and length. */
  predicate StartsCommand(writes: seq<RegisterWrite>, c: Command) {
    && |writes| == 11
    && writes[0] == RegisterWrite(REG_CMD_OPCODE, c.opcode)
    && writes[1] == RegisterWrite(REG_CMD_SRC0_ADDR, c.source0)
    && writes[2] == RegisterWrite(REG_CMD_SRC1_ADDR, c.source1)
    && writes[3] == RegisterWrite(REG_CMD_DST_ADDR, c.destination)
    && writes[4] == RegisterWrite(REG_CMD_LEN, c.length)
  }

  /** The other six: dimensions, flags, priority and id. */
  predicate EndsCommand(writes: seq<RegisterWrite>, c: Command) {
    && |writes| == 11
    && writes[5] == RegisterWrite(REG_CMD_M, c.rows)
    && writes[6] == RegisterWrite(REG_CMD_N, c.columns)
    && writes[7] == RegisterWrite(REG_CMD_K, c.inner)
    && writes[8] == RegisterWrite(REG_CMD_FLAGS, c.flags)
    && writes[9] == RegisterWrite(REG_CMD_PRIORITY, c.priority)
    && writes[10] == RegisterWrite(REG_CMD_ID, c.commandId)
  }

  /** `AcceleratorDriver::submit`. */
  function AcceleratorSubmit(env: Env, d: Device, c: Command): DriverOutcome {
    if c.opcode == CMD_OP_INVALID then DriverOutcome(d, Some(InvalidArgument))
    else
      var d1 := Tick(env, d);
      if CommandStatus(d1).busy then DriverOutcome(d1, Some(DeviceBusy))
      else
        var d2 := WriteAll(env, ClearCommandStatus(env, d1), CommandWrites(c));
        DriverOutcome(Write(env, d2, REG_CMD_SUBMIT, RegisterBit(CMD_SUBMIT_BIT)), None)
  }

  /** The control word of a periodic timer: enabled, periodic, and the interval in the upper 24 bits. */
  function TimerWord(interval: U32): (word: U32)
    requires interval <= MAX_TIMER_INTERVAL
    ensures forall b: nat :: Test(word, b) <==>
      b == TIMER_ENABLE_BIT || b == TIMER_PERIODIC_BIT
      || (b >= TIMER_INTERVAL_LSB && Test(interval, b - TIMER_INTERVAL_LSB))
  {
    assert Pow2(8) == 256;
    var shifted: U32 := ShiftLeft(interval, TIMER_INTERVAL_LSB);
    assert forall b: nat :: Test(shifted, b) <==> b >= TIMER_INTERVAL_LSB && Test(interval, b - TIMER_INTERVAL_LSB) by {
      forall b: nat
        ensures Test(shifted, b) <==> b >= TIMER_INTERVAL_LSB && Test(interval, b - TIMER_INTERVAL_LSB)
      {
        ShiftLeftBit(interval, TIMER_INTERVAL_LSB, b);
      }
    }
    Or(Or(RegisterBit(TIMER_ENABLE_BIT), RegisterBit(TIMER_PERIODIC_BIT)), shifted)
  }

  /** `TimerDriver::start_periodic`. */
  function TimerStart(env: Env, d: Device, interval: U32): DriverOutcome {
    if interval == 0 || interval > MAX_TIMER_INTERVAL then DriverOutcome(d, Some(InvalidArgument))
    else DriverOutcome(Write(env, d, REG_TIMER_CTRL, TimerWord(interval)), None)
  }

  function TimerStop(env: Env, d: Device): Device {
    Write(env, d, REG_TIMER_CTRL, 0)
  }
}
