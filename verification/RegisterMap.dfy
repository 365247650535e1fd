/** The registers as the hardware documents them, bit by bit, and what the drivers write to them, in numbers. */
module RegisterMap {
  import opened Words
  import opened Soc
  import opened DeviceModel
  import opened Tasks
  import opened DriverProtocol
  import opened SchedulerSpec

  // ---- What a write does ----

  /** Every register after a write, bit by bit: writing one clears a bit of the interrupt and status registers; the
      start and submit bits replace the status by busy or pending; anything else is stored; no other register
      changes. */
  lemma WriteMeaning(d: Device, o: Offset, value: U32, p: Offset, b: nat)
    ensures var d' := Poke(d, o, value);
      Test(Peek(d', p), b) <==>
        if o == p && (o == REG_IRQ_STATUS || o == REG_DMA_STATUS || o == REG_CMD_STATUS) then
          Test(Peek(d, p), b) && !Test(value, b)
        else if o == REG_DMA_CTRL && Test(value, 0) && p == REG_DMA_STATUS then b == 0
        else if o == REG_CMD_SUBMIT && Test(value, 0) && p == REG_CMD_STATUS then b == 4
        else if o == p then Test(value, b)
        else Test(Peek(d, p), b)
  {
  }

  /** A transfer that leaves the engine: the status is DONE alone or DONE and ERROR, the interrupt becomes pending if
      the engine signals it, and nothing else changes. */
  lemma TransferEndMeaning(d: Device, verdict: Verdict, p: Offset, b: nat)
    requires DmaBusy(d) && !verdict.Waiting?
    ensures var d' := TickDma(d, verdict);
      Test(Peek(d', p), b) <==>
        if p == REG_DMA_STATUS then b == 1 || (b == 2 && (verdict.Fault? || !DmaLegal(d.dma)))
        else Test(Peek(d, p), b) || (p == REG_IRQ_STATUS && b == 0 && Test(Peek(d, REG_DMA_CTRL), 1))
  {
  }

  /** The same for a command, with its two interrupts; without the global enable it stays where it is. */
  lemma CommandEndMeaning(d: Device, verdict: Verdict, p: Offset, b: nat)
    requires CommandBusy(d) && !verdict.Waiting?
    ensures var d' := TickAccelerator(d, verdict);
      Test(Peek(d', p), b) <==>
        if !Test(Peek(d, REG_CTRL), 0) then Test(Peek(d, p), b)
        else if p == REG_CMD_STATUS then b == 0 || (b == 1 && (verdict.Fault? || !CommandLegal(d.command)))
        else Test(Peek(d, p), b) || (p == REG_IRQ_STATUS && (b == 1 || b == 2))
  {
  }

  /** A timer tick makes the timer source pending, errors are recorded and make the error source pending; neither
      changes any other bit. */
  lemma OtherEventsMeaning(d: Device, expired: bool, errors: U32, p: Offset, b: nat)
    ensures Test(Peek(TickTimer(d, expired), p), b) <==>
      Test(Peek(d, p), b) || (expired && p == REG_IRQ_STATUS && b == 4)
    ensures Test(Peek(TickErrors(d, errors), p), b) <==>
      || Test(Peek(d, p), b)
      || (p == REG_ERROR_STATUS && Test(errors, b))
      || (errors != 0 && p == REG_IRQ_STATUS && b == 3)
  {
    ZeroHasNoBits(b);
  }

  predicate Raises(d: Device, b: nat) {
    Test(d.irqPending, b) && Test(Peek(d, REG_IRQ_ENABLE), b)
  }

  /** The interrupt line is up exactly when some source is pending and enabled. */
  lemma LineMeaning(d: Device)
    ensures IrqAsserted(d) <==> exists b: nat :: Raises(d, b)
  {
    var word := And(d.irqPending, Peek(d, REG_IRQ_ENABLE));
    if word != 0 {
      var b := NonzeroHasBit(word);
      assert Raises(d, b);
    }
    forall b: nat | Raises(d, b)
      ensures word != 0
    {
      ZeroHasNoBits(b);
      assert Test(word, b);
    }
  }

  // ---- The words written ----

  lemma ControlWords()
    ensures RegisterBit(0) == 1
    ensures Or(RegisterBit(DMA_CTRL_START_BIT), RegisterBit(DMA_CTRL_IRQ_ENABLE_BIT)) == 3
    ensures Or(RegisterBit(DMA_STATUS_DONE_BIT), RegisterBit(DMA_STATUS_ERROR_BIT)) == 6
    ensures Or(RegisterBit(CMD_STATUS_DONE_BIT), RegisterBit(CMD_STATUS_ERROR_BIT)) == 3
  {
    assert RegisterBit(0) == 1 && RegisterBit(1) == 2 && RegisterBit(2) == 4;
    OrOfParts(1, 1, 1, 2);
    OrOfParts(2, 1, 2, 4);
  }

  lemma SourcesWord()
    ensures InterruptMask() == 31
  {
    assert Pow2(3) == 8 && Pow2(4) == 16;
    OrOfParts(1, 1, 1, 2);
    OrOfParts(3, 1, 2, 4);
    OrOfParts(7, 1, 3, 8);
    OrOfParts(15, 1, 4, 16);
  }

  lemma TimerWordValue(interval: U32)
    requires interval < 0x100_0000
    ensures TimerWord(interval) == 3 + 256 * interval
  {
    assert Pow2(8) == 256;
    OrOfParts(1, 1, 1, 2);
    OrOfParts(3, interval, 8, 256 * interval);
  }

  lemma LowBits(x: nat, b: nat)
    ensures Test(x % 32, b) <==> b < 5 && Test(x, b)
  {
    assert Pow2(5) == 32 && x == x % 32 + 32 * (x / 32);
    PartBits(x % 32, x / 32, 5, b);
    if b >= 5 {
      HighBitsClear(x % 32, 5, b);
    }
  }

  lemma AcknowledgedWord(pending: U32)
    ensures Acknowledged(pending) == pending % 32
  {
    Pow2Values();
    forall b: nat | b < 32
      ensures Test(Acknowledged(pending), b) <==> Test(pending % 32, b)
    {
      LowBits(pending, b);
    }
    BitsDetermine(Acknowledged(pending), pending % 32, 32);
  }

  // ---- The accesses of the drivers ----

  lemma {:induction false} WritesJoin(env: Env, d: Device, first: seq<RegisterWrite>, second: seq<RegisterWrite>)
    ensures WriteAll(env, d, first + second) == WriteAll(env, WriteAll(env, d, first), second)
    decreases |second|
  {
    if |second| == 0 {
      assert first + second == first;
    } else {
      var n := |second| - 1;
      assert (first + second)[..|first + second| - 1] == first + second[..n];
      WritesJoin(env, d, first, second[..n]);
    }
  }

  lemma OneWrite(env: Env, d: Device, o: Offset, value: U32)
    ensures WriteAll(env, d, [RegisterWrite(o, value)]) == Write(env, d, o, value)
  {
    assert [RegisterWrite(o, value)][..0] == [];
  }

  /** A write, a list of writes, and a last write. */
  lemma WritesInOrder(env: Env, d: Device, o: Offset, value: U32, writes: seq<RegisterWrite>, p: Offset, last: U32)
    ensures WriteAll(env, d, [RegisterWrite(o, value)] + writes + [RegisterWrite(p, last)])
         == Write(env, WriteAll(env, Write(env, d, o, value), writes), p, last)
  {
    var first := [RegisterWrite(o, value)];
    WritesJoin(env, d, first + writes, [RegisterWrite(p, last)]);
    WritesJoin(env, d, first, writes);
    OneWrite(env, d, o, value);
    OneWrite(env, WriteAll(env, d, first + writes), p, last);
  }

  /** What `start` writes after it has found the engine idle. */
  function StartWrites(r: DmaRequest): seq<RegisterWrite> {
    [RegisterWrite(0x030, 6)]
    + [RegisterWrite(0x020, r.source), RegisterWrite(0x024, r.destination), RegisterWrite(0x028, r.length)]
    + [RegisterWrite(0x02C, 3)]
  }

  /** `DmaDriver::start` in register accesses: one read of the status, then, if the engine is idle, five writes. */
  lemma StartAccesses(env: Env, d: Device, r: DmaRequest)
    ensures DmaStart(env, d, r) ==
      if r.length == 0 then DriverOutcome(d, Some(InvalidArgument))
      else if Test(Peek(Tick(env, d), 0x030), 0) then DriverOutcome(Tick(env, d), Some(DeviceBusy))
      else DriverOutcome(WriteAll(env, Tick(env, d), StartWrites(r)), None)
  {
    ControlWords();
    WritesInOrder(env, Tick(env, d), 0x030, 6, DmaWrites(r), 0x02C, 3);
  }

  /** What `submit` writes after it has found the command processor idle. */
  function SubmitWrites(c: Command): seq<RegisterWrite> {
    [RegisterWrite(0x060, 3)]
    + [RegisterWrite(0x034, c.opcode), RegisterWrite(0x038, c.source0), RegisterWrite(0x03C, c.source1),
       RegisterWrite(0x040, c.destination), RegisterWrite(0x044, c.length), RegisterWrite(0x048, c.rows),
       RegisterWrite(0x04C, c.columns), RegisterWrite(0x050, c.inner), RegisterWrite(0x054, c.flags),
       RegisterWrite(0x058, c.priority), RegisterWrite(0x074, c.commandId)]
    + [RegisterWrite(0x05C, 1)]
  }

  /** `AcceleratorDriver::submit` in register accesses: one read of the status, then thirteen writes. */
  lemma SubmitAccesses(env: Env, d: Device, c: Command)
    ensures AcceleratorSubmit(env, d, c) ==
      if c.opcode == 0 then DriverOutcome(d, Some(InvalidArgument))
      else if Test(Peek(Tick(env, d), 0x060), 4) then DriverOutcome(Tick(env, d), Some(DeviceBusy))
      else DriverOutcome(WriteAll(env, Tick(env, d), SubmitWrites(c)), None)
  {
    ControlWords();
    WritesInOrder(env, Tick(env, d), 0x060, 3, CommandWrites(c), 0x05C, 1);
  }

  /** What `boot` writes: global enable, the five sources, and the timer unless its interval is out of range. */
  function BootWrites(interval: U32): seq<RegisterWrite> {
    [RegisterWrite(0x008, 1)] + [RegisterWrite(0x014, 31)]
    + if interval < 0x100_0000
      then [RegisterWrite(0x018, if interval == 0 then 0 else 3 + 256 * interval)]
      else []
  }

  lemma BootAccesses(env: Env, d: Device, interval: U32)
    ensures Boot(env, d, interval)
         == DriverOutcome(WriteAll(env, d, BootWrites(interval)),
                          if interval < 0x100_0000 then None else Some(InvalidArgument))
  {
    ControlWords();
    SourcesWord();
    var enabled := EnableSources(env, d);
    WritesJoin(env, d, [RegisterWrite(0x008, 1)], [RegisterWrite(0x014, 31)]);
    OneWrite(env, d, 0x008, 1);
    OneWrite(env, WriteAll(env, d, [RegisterWrite(0x008, 1)]), 0x014, 31);
    if interval < 0x100_0000 {
      var word: U32 := if interval == 0 then 0 else 3 + 256 * interval;
      TimerWordValue(interval);
      WritesJoin(env, d, [RegisterWrite(0x008, 1)] + [RegisterWrite(0x014, 31)], [RegisterWrite(0x018, word)]);
      OneWrite(env, enabled, 0x018, word);
    }
  }

  /** Serving a sampled DMA completion: a read of the status if there is an owner, and a write that clears it. */
  function DmaAccesses(env: Env, d: Device, owned: bool, pending: U32): Device {
    if !Test(pending, 0) then d else Write(env, if owned then Tick(env, d) else d, 0x030, 6)
  }

  /** The same for a command completion. */
  function CommandAccesses(env: Env, d: Device, owned: bool, pending: U32): Device {
    if !Test(pending, 1) then d else Write(env, if owned then Tick(env, d) else d, 0x060, 3)
  }

  /** The error bits are read, and written back if there are any. */
  function ErrorAccesses(env: Env, d: Device, pending: U32): Device {
    if !Test(pending, 3) then d
    else
      var read := Tick(env, d);
      if Peek(read, 0x070) == 0 then read else Write(env, read, 0x070, Peek(read, 0x070))
  }

  /** The sampled bits of the five sources, if any, are acknowledged. */
  function AcknowledgeAccesses(env: Env, d: Device, pending: U32): Device {
    if pending % 32 == 0 then d else Write(env, d, 0x010, pending % 32)
  }

  lemma DmaServiceAccesses(env: Env, sys: System, pending: U32)
    requires Indexed(sys.sched) && ServiceDma(env, sys, pending).thrown.None?
    ensures ServiceDma(env, sys, pending).system.device
         == DmaAccesses(env, sys.device, sys.sched.dmaOwner.Some?, pending)
  {
    ControlWords();
  }

  lemma CommandServiceAccesses(env: Env, sys: System, pending: U32)
    requires Indexed(sys.sched)
    ensures ServiceCommand(env, sys, pending).device
         == CommandAccesses(env, sys.device, sys.sched.accelOwner.Some?, pending)
  {
    ControlWords();
  }

  lemma ErrorServiceAccesses(env: Env, sys: System, pending: U32)
    ensures ServiceErrors(env, sys, pending).device == ErrorAccesses(env, sys.device, pending)
  {
  }

  lemma AcknowledgeServiceAccesses(env: Env, sys: System, pending: U32)
    ensures Acknowledge(env, sys, Acknowledged(pending)).device == AcknowledgeAccesses(env, sys.device, pending)
  {
    AcknowledgedWord(pending);
  }

  lemma OthersInOrder(env: Env, sys: System, pending: U32)
    requires Indexed(sys.sched)
    ensures ServiceOthers(env, sys, pending).device
         == AcknowledgeAccesses(
              env,
              ErrorAccesses(env, CommandAccesses(env, sys.device, sys.sched.accelOwner.Some?, pending), pending),
              pending)
  {
    CommandServiceAccesses(env, sys, pending);
    var timed := ServiceTimer(ServiceCommand(env, sys, pending), pending);
    ErrorServiceAccesses(env, timed, pending);
    AcknowledgeServiceAccesses(env, ServiceErrors(env, timed, pending), pending);
  }

  /** The accesses of `service_interrupts` after the sample, in order and in numbers: DMA status, command status, error
      bits, acknowledgement. */
  lemma ServiceInOrder(env: Env, sys: System, pending: U32)
    requires Indexed(sys.sched) && ServiceSampled(env, sys, pending).thrown.None?
    ensures var served := ServiceDma(env, sys, pending).system.sched;
      var first := DmaAccesses(env, sys.device, sys.sched.dmaOwner.Some?, pending);
      var second := CommandAccesses(env, first, served.accelOwner.Some?, pending);
      ServiceSampled(env, sys, pending).system.device
      == AcknowledgeAccesses(env, ErrorAccesses(env, second, pending), pending)
  {
    DmaServiceAccesses(env, sys, pending);
    OthersInOrder(env, ServiceDma(env, sys, pending).system, pending);
  }
}
