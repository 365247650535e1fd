/** The mutable register model. */
module Mmio {
  import opened Words
  import opened Soc
  import opened DeviceModel

  class FakeMmio {
    const env: Env
    const registers: array<U32>
    var time: nat
    var irqPending: U32
    var dma: DmaRequest
    var command: Command
    var dmaSince: nat
    var commandSince: nat
    var retired: seq<Retired>
    var events: seq<MemoryEvent>

    ghost predicate Valid() {
      registers.Length == REGISTER_WORDS
    }

    ghost function State(): Device
      requires Valid()
      reads this, registers
    {
      Device(time, registers[..], irqPending, dma, command, dmaSince, commandSince, retired, events)
    }

    constructor (env: Env)
      ensures Valid() && fresh(registers) && this.env == env
      ensures irqPending == 0 && retired == [] && events == []
      ensures forall i :: 0 <= i < REGISTER_WORDS ==> registers[i] == 0
    {
      this.env := env;
      registers := new U32[REGISTER_WORDS](_ => 0);
      time := 0;
      irqPending := 0;
      dma := DmaRequest(0, 0, 0);
      command := Command(0, 0, 0, 0, 0, 0, 0, 0, 0, 0, 0);
      dmaSince := 0;
      commandSince := 0;
      retired := [];
      events := [];
    }

    /** The transfer in flight completes. */
    method CompleteDma(verdict: Verdict)
      requires Valid() && !verdict.Waiting?
      modifies this`irqPending, this`retired, this`events, registers
      ensures State() == DeviceModel.CompleteDma(old(State()), verdict)
    {
      var ok := verdict.Finish? && DmaLegal(dma);
      var status := RegisterBit(DMA_STATUS_DONE_BIT);
      var entry := DmaDone(dma);
      if !ok {
        status := Or(status, RegisterBit(DMA_STATUS_ERROR_BIT));
        entry := DmaFault(dma, if verdict.Fault? && DmaLegal(dma) then verdict.junk else map[]);
      }
      retired := retired + [entry];
      events := events + [Leaving(entry, dmaSince, Moments(verdict))];
      registers[REG_DMA_STATUS / 4] := status;
      irqPending := Or(irqPending, RegisterBit(IRQ_DMA_DONE_BIT));
    }

    /** The accelerator command in flight completes. */
    method CompleteAccelerator(verdict: Verdict)
      requires Valid() && !verdict.Waiting?
      modifies this`irqPending, this`retired, this`events, registers
      ensures State() == DeviceModel.CompleteAccelerator(old(State()), verdict)
    {
      var ok := verdict.Finish? && CommandLegal(command);
      var status := RegisterBit(CMD_STATUS_DONE_BIT);
      var entry := CommandDone(command);
      if !ok {
        status := Or(status, RegisterBit(CMD_STATUS_ERROR_BIT));
        entry := CommandFault(command, if verdict.Fault? && CommandLegal(command) then verdict.junk else map[]);
      }
      retired := retired + [entry];
      events := events + [Leaving(entry, commandSince, Moments(verdict))];
      registers[REG_CMD_STATUS / 4] := status;
      irqPending := Or(irqPending, RegisterBit(IRQ_CMD_DONE_BIT));
      irqPending := Or(irqPending, RegisterBit(IRQ_ACCEL_DONE_BIT));
    }

    /** The operations in flight write some bytes, finish or fault. */
    method AdvanceDma(verdict: Verdict)
      requires Valid()
      modifies this`irqPending, this`retired, this`events, registers
      ensures State() == TickDma(old(State()), verdict)
    {
      if Test(registers[REG_DMA_STATUS / 4], DMA_STATUS_BUSY_BIT) {
        if verdict.Waiting? {
          events := events + [Transferring(dma, verdict.bytes)];
        } else {
          var pending := irqPending;
          CompleteDma(verdict);
          if !Test(registers[REG_DMA_CTRL / 4], DMA_CTRL_IRQ_ENABLE_BIT) {
            irqPending := pending;
          }
        }
      }
    }

    method AdvanceAccelerator(verdict: Verdict)
      requires Valid()
      modifies this`irqPending, this`retired, this`events, registers
      ensures State() == TickAccelerator(old(State()), verdict)
    {
      var enabled := Test(registers[REG_CTRL / 4], CTRL_ENABLE_BIT);
      if enabled && Test(registers[REG_CMD_STATUS / 4], CMD_STATUS_PENDING_BIT) {
        if verdict.Waiting? {
          events := events + [Computing(command, verdict.bytes)];
        } else {
          CompleteAccelerator(verdict);
        }
      }
    }

    method ExpireTimer(expired: bool)
      requires Valid()
      modifies this`irqPending
      ensures State() == TickTimer(old(State()), expired)
    {
      if expired {
        irqPending := Or(irqPending, RegisterBit(IRQ_TIMER_BIT));
      }
    }

    method RaiseErrors(errors: U32)
      requires Valid()
      modifies this`irqPending, registers
      ensures State() == TickErrors(old(State()), errors)
    {
      if errors != 0 {
        registers[REG_ERROR_STATUS / 4] := Or(registers[REG_ERROR_STATUS / 4], errors);
        irqPending := Or(irqPending, RegisterBit(IRQ_ERROR_BIT));
      }
    }

    /** What the environment does before the next access. */
    method Interfere()
      requires Valid()
      modifies this, registers
      ensures State() == Tick(env, old(State()))
    {
      var step := env(time);
      AdvanceDma(step.dma);
      AdvanceAccelerator(step.accelerator);
      ExpireTimer(step.timer);
      RaiseErrors(step.errors);
      time := time + 1;
    }

    method Read(offset: Offset) returns (value: U32)
      requires Valid()
      modifies this, registers
      ensures State() == Tick(env, old(State()))
      ensures value == Peek(State(), offset)
    {
      Interfere();
      if offset == REG_IRQ_STATUS {
        return irqPending;
      }
      value := registers[offset / 4];
    }

    method Write(offset: Offset, value: U32)
      requires Valid()
      modifies this, registers
      ensures State() == DeviceModel.Write(env, old(State()), offset, value)
    {
      Interfere();
      if offset == REG_IRQ_STATUS {
        irqPending := AndNot(irqPending, value);
        return;
      }
      if offset == REG_DMA_STATUS || offset == REG_CMD_STATUS {
        registers[offset / 4] := AndNot(registers[offset / 4], value);
        return;
      }
      registers[offset / 4] := value;
      if offset == REG_DMA_CTRL && Test(value, DMA_CTRL_START_BIT) {
        StartTransfer();
      }
      if offset == REG_CMD_SUBMIT && Test(value, CMD_SUBMIT_BIT) {
        SubmitCommand();
      }
    }

    /** The start bit latches the staged transfer and raises the busy bit. */
    method StartTransfer()
      requires Valid()
      modifies this`dma, this`dmaSince, registers
      ensures State() == DeviceModel.StartTransfer(old(State()))
    {
      dma := DmaRequest(registers[REG_DMA_SRC_ADDR / 4], registers[REG_DMA_DST_ADDR / 4],
                        registers[REG_DMA_LEN_BYTES / 4]);
      dmaSince := |events|;
      registers[REG_DMA_STATUS / 4] := RegisterBit(DMA_STATUS_BUSY_BIT);
    }

    /** The submit bit latches the staged command and raises the pending bit. */
    method SubmitCommand()
      requires Valid()
      modifies this`command, this`commandSince, registers
      ensures State() == DeviceModel.SubmitCommand(old(State()))
    {
      command := Command(registers[REG_CMD_OPCODE / 4], registers[REG_CMD_SRC0_ADDR / 4],
                         registers[REG_CMD_SRC1_ADDR / 4],
                         registers[REG_CMD_DST_ADDR / 4], registers[REG_CMD_LEN / 4], registers[REG_CMD_M / 4],
                         registers[REG_CMD_N / 4], registers[REG_CMD_K / 4], registers[REG_CMD_FLAGS / 4],
                         registers[REG_CMD_PRIORITY / 4], registers[REG_CMD_ID / 4]);
      commandSince := |events|;
      registers[REG_CMD_STATUS / 4] := RegisterBit(CMD_STATUS_PENDING_BIT);
    }

    method IrqAsserted() returns (asserted: bool)
      requires Valid()
      modifies this, registers
      ensures State() == Tick(env, old(State()))
      ensures asserted == DeviceModel.IrqAsserted(State())
    {
      Interfere();
      asserted := And(irqPending, registers[REG_IRQ_ENABLE / 4]) != 0;
    }
  }
}
