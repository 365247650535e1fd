/** The drivers as objects issuing one register access after another. */
module Drivers {
  import opened Words
  import opened Soc
  import opened DeviceModel
  import opened Tasks
  import opened DriverProtocol
  import opened RegisterMap
  import opened Mmio

  class DmaDriver {
    const mmio: FakeMmio

    constructor (mmio: FakeMmio)
      ensures this.mmio == mmio
    {
      this.mmio := mmio;
    }

    method Start(source: U32, destination: U32, lengthBytes: U32) returns (thrown: Option<Exception>)
      requires mmio.Valid()
      modifies mmio, mmio.registers
      ensures DriverOutcome(mmio.State(), thrown)
           == DmaStart(mmio.env, old(mmio.State()), DmaRequest(source, destination, lengthBytes))
      ensures thrown == Some(InvalidArgument) <==> lengthBytes == 0
      ensures thrown == Some(DeviceBusy) <==> lengthBytes != 0 && DmaBusy(Tick(mmio.env, old(mmio.State())))
      ensures lengthBytes != 0 && !DmaBusy(Tick(mmio.env, old(mmio.State()))) ==>
        && thrown == None
        && mmio.State() == WriteAll(mmio.env, Tick(mmio.env, old(mmio.State())),
                                    StartWrites(DmaRequest(source, destination, lengthBytes)))
    {
      StartAccesses(mmio.env, mmio.State(), DmaRequest(source, destination, lengthBytes));
      if lengthBytes == 0 {
        return Some(InvalidArgument);
      }
      var status := Status();
      if status.busy {
        return Some(DeviceBusy);
      }
      ClearStatus();
      StageTransfer(source, destination, lengthBytes);
      mmio.Write(REG_DMA_CTRL, Or(RegisterBit(DMA_CTRL_START_BIT), RegisterBit(DMA_CTRL_IRQ_ENABLE_BIT)));
      return None;
    }

    /** The three staging writes. */
    method StageTransfer(source: U32, destination: U32, lengthBytes: U32)
      requires mmio.Valid()
      modifies mmio, mmio.registers
      ensures mmio.State()
           == WriteAll(mmio.env, old(mmio.State()), DmaWrites(DmaRequest(source, destination, lengthBytes)))
    {
      ghost var d := mmio.State();
      ghost var writes := DmaWrites(DmaRequest(source, destination, lengthBytes));
      WriteAllStep(mmio.env, d, writes, 0);
      mmio.Write(REG_DMA_SRC_ADDR, source);
      WriteAllStep(mmio.env, d, writes, 1);
      mmio.Write(REG_DMA_DST_ADDR, destination);
      WriteAllStep(mmio.env, d, writes, 2);
      mmio.Write(REG_DMA_LEN_BYTES, lengthBytes);
      assert writes[..3] == writes;
    }

    method Status() returns (status: CompletionStatus)
      requires mmio.Valid()
      modifies mmio, mmio.registers
      ensures mmio.State() == Tick(mmio.env, old(mmio.State())) && status == DmaStatus(mmio.State())
    {
      var value := mmio.Read(REG_DMA_STATUS);
      return CompletionStatus(Test(value, DMA_STATUS_BUSY_BIT), Test(value, DMA_STATUS_DONE_BIT),
                              Test(value, DMA_STATUS_ERROR_BIT));
    }

    method ClearStatus()
      requires mmio.Valid()
      modifies mmio, mmio.registers
      ensures mmio.State() == ClearDmaStatus(mmio.env, old(mmio.State()))
    {
      mmio.Write(REG_DMA_STATUS, Or(RegisterBit(DMA_STATUS_DONE_BIT), RegisterBit(DMA_STATUS_ERROR_BIT)));
    }
  }

  class AcceleratorDriver {
    const mmio: FakeMmio

    constructor (mmio: FakeMmio)
      ensures this.mmio == mmio
    {
      this.mmio := mmio;
    }

    method Submit(c: Command) returns (thrown: Option<Exception>)
      requires mmio.Valid()
      modifies mmio, mmio.registers
      ensures DriverOutcome(mmio.State(), thrown) == AcceleratorSubmit(mmio.env, old(mmio.State()), c)
      ensures thrown == Some(InvalidArgument) <==> c.opcode == 0
      ensures thrown == Some(DeviceBusy) <==> c.opcode != 0 && CommandBusy(Tick(mmio.env, old(mmio.State())))
      ensures c.opcode != 0 && !CommandBusy(Tick(mmio.env, old(mmio.State()))) ==>
        && thrown == None
        && mmio.State() == WriteAll(mmio.env, Tick(mmio.env, old(mmio.State())), SubmitWrites(c))
    {
      SubmitAccesses(mmio.env, mmio.State(), c);
      if c.opcode == CMD_OP_INVALID {
        return Some(InvalidArgument);
      }
      var status := Status();
      if status.busy {
        return Some(DeviceBusy);
      }
      ClearStatus();
      StageOperands(c);
      mmio.Write(REG_CMD_SUBMIT, RegisterBit(CMD_SUBMIT_BIT));
      return None;
    }

    /** Staging write `k` of the sequence. */
    method Stage(ghost d: Device, ghost writes: seq<RegisterWrite>, ghost k: nat, offset: Offset, value: U32)
      requires mmio.Valid() && k < |writes| && writes[k] == RegisterWrite(offset, value)
      requires mmio.State() == WriteAll(mmio.env, d, writes[..k])
      modifies mmio, mmio.registers
      ensures mmio.State() == WriteAll(mmio.env, d, writes[..k + 1])
    {
      WriteAllStep(mmio.env, d, writes, k);
      mmio.Write(offset, value);
    }

    /** The eleven staging writes. */
    method StageOperands(c: Command)
      requires mmio.Valid()
      modifies mmio, mmio.registers
      ensures mmio.State() == WriteAll(mmio.env, old(mmio.State()), CommandWrites(c))
    {
      StageAll(c, CommandWrites(c));
    }

    method StageAll(c: Command, ghost writes: seq<RegisterWrite>)
      requires mmio.Valid() && StartsCommand(writes, c) && EndsCommand(writes, c)
      modifies mmio, mmio.registers
      ensures mmio.State() == WriteAll(mmio.env, old(mmio.State()), writes)
    {
      ghost var d := mmio.State();
      StageAddresses(c, d, writes);
      StageShape(c, d, writes);
      StageIdentity(c, d, writes);
      assert writes[..|writes|] == writes;
    }

    method StageAddresses(c: Command, ghost d: Device, ghost writes: seq<RegisterWrite>)
      requires mmio.Valid() && StartsCommand(writes, c) && mmio.State() == d
      modifies mmio, mmio.registers
      ensures mmio.State() == WriteAll(mmio.env, d, writes[..5])
    {
      Stage(d, writes, 0, REG_CMD_OPCODE, c.opcode);
      Stage(d, writes, 1, REG_CMD_SRC0_ADDR, c.source0);
      Stage(d, writes, 2, REG_CMD_SRC1_ADDR, c.source1);
      Stage(d, writes, 3, REG_CMD_DST_ADDR, c.destination);
      Stage(d, writes, 4, REG_CMD_LEN, c.length);
    }

    method StageShape(c: Command, ghost d: Device, ghost writes: seq<RegisterWrite>)
      requires mmio.Valid() && EndsCommand(writes, c) && mmio.State() == WriteAll(mmio.env, d, writes[..5])
      modifies mmio, mmio.registers
      ensures mmio.State() == WriteAll(mmio.env, d, writes[..9])
    {
      Stage(d, writes, 5, REG_CMD_M, c.rows);
      Stage(d, writes, 6, REG_CMD_N, c.columns);
      Stage(d, writes, 7, REG_CMD_K, c.inner);
      Stage(d, writes, 8, REG_CMD_FLAGS, c.flags);
    }

    method StageIdentity(c: Command, ghost d: Device, ghost writes: seq<RegisterWrite>)
      requires mmio.Valid() && EndsCommand(writes, c) && mmio.State() == WriteAll(mmio.env, d, writes[..9])
      modifies mmio, mmio.registers
      ensures mmio.State() == WriteAll(mmio.env, d, writes[..11])
    {
      ghost var k := 9;
      Stage(d, writes, k, REG_CMD_PRIORITY, c.priority);
      Stage(d, writes, k + 1, REG_CMD_ID, c.commandId);
    }

    method Status() returns (status: CompletionStatus)
      requires mmio.Valid()
      modifies mmio, mmio.registers
      ensures mmio.State() == Tick(mmio.env, old(mmio.State())) && status == CommandStatus(mmio.State())
    {
      var value := mmio.Read(REG_CMD_STATUS);
      return CompletionStatus(Test(value, CMD_STATUS_PENDING_BIT), Test(value, CMD_STATUS_DONE_BIT),
                              Test(value, CMD_STATUS_ERROR_BIT));
    }

    method ClearStatus()
      requires mmio.Valid()
      modifies mmio, mmio.registers
      ensures mmio.State() == ClearCommandStatus(mmio.env, old(mmio.State()))
    {
      mmio.Write(REG_CMD_STATUS, Or(RegisterBit(CMD_STATUS_DONE_BIT), RegisterBit(CMD_STATUS_ERROR_BIT)));
    }
  }

  class InterruptDriver {
    const mmio: FakeMmio

    constructor (mmio: FakeMmio)
      ensures this.mmio == mmio
    {
      this.mmio := mmio;
    }

    method Enable(mask: U32)
      requires mmio.Valid()
      modifies mmio, mmio.registers
      ensures mmio.State() == Write(mmio.env, old(mmio.State()), REG_IRQ_ENABLE, mask)
    {
      mmio.Write(REG_IRQ_ENABLE, mask);
    }

    method Pending() returns (pending: U32)
      requires mmio.Valid()
      modifies mmio, mmio.registers
      ensures mmio.State() == Tick(mmio.env, old(mmio.State())) && pending == mmio.State().irqPending
    {
      pending := mmio.Read(REG_IRQ_STATUS);
    }

    method Acknowledge(mask: U32)
      requires mmio.Valid()
      modifies mmio, mmio.registers
      ensures mmio.State() == Write(mmio.env, old(mmio.State()), REG_IRQ_STATUS, mask)
    {
      mmio.Write(REG_IRQ_STATUS, mask);
    }

    method Asserted() returns (asserted: bool)
      requires mmio.Valid()
      modifies mmio, mmio.registers
      ensures mmio.State() == Tick(mmio.env, old(mmio.State())) && asserted == IrqAsserted(mmio.State())
    {
      asserted := mmio.IrqAsserted();
    }
  }

  class TimerDriver {
    const mmio: FakeMmio

    constructor (mmio: FakeMmio)
      ensures this.mmio == mmio
    {
      this.mmio := mmio;
    }

    method StartPeriodic(interval: U32) returns (thrown: Option<Exception>)
      requires mmio.Valid()
      modifies mmio, mmio.registers
      ensures DriverOutcome(mmio.State(), thrown) == TimerStart(mmio.env, old(mmio.State()), interval)
      ensures thrown == if 0 < interval < 0x100_0000 then None else Some(InvalidArgument)
      ensures mmio.State() == if 0 < interval < 0x100_0000
                              then Write(mmio.env, old(mmio.State()), 0x018, 3 + 256 * interval)
                              else old(mmio.State())
    {
      if interval == 0 || interval > MAX_TIMER_INTERVAL {
        return Some(InvalidArgument);
      }
      TimerWordValue(interval);
      mmio.Write(REG_TIMER_CTRL, TimerWord(interval));
      return None;
    }

    method Stop()
      requires mmio.Valid()
      modifies mmio, mmio.registers
      ensures mmio.State() == TimerStop(mmio.env, old(mmio.State()))
    {
      mmio.Write(REG_TIMER_CTRL, 0);
    }
  }
}
