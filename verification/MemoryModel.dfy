/** Byte memory, the effect of retired operations on it, and what each workload should compute. */
module MemoryModel {
  import opened Words
  import opened Soc
  import opened DeviceModel
  import opened Tasks
  import opened Layout
  import opened VectorModel
  import opened ReductionModel
  import opened GemmModel

  /** The content of every byte address. */
  type Memory = nat -> Byte

  function ReadBytes(m: Memory, address: nat, n: nat): (bytes: seq<Byte>)
    ensures |bytes| == n
  {
    seq(n, k requires 0 <= k => m(address + k))
  }

  function WriteBytes(m: Memory, address: nat, data: seq<Byte>): Memory {
    (a: nat) => if address <= a < address + |data| then data[a - address] else m(a)
  }

  /** Some bytes of a range replaced by junk. */
  function Scribble(m: Memory, address: nat, n: nat, junk: map<nat, Byte>): Memory {
    (a: nat) => if address <= a < address + n && a - address in junk then junk[a - address] else m(a)
  }

  // ---- Elements ----

  function Element(low: int, high: int): int {
    low + 256 * high
  }

  /** Little-endian 16-bit elements. */
  function Decode(bytes: seq<Byte>, n: nat): (elements: seq<U16>)
    requires |bytes| == 2 * n
    ensures |elements| == n
  {
    seq(n, k requires 0 <= k < n => Element(bytes[2 * k], bytes[2 * k + 1]))
  }

  function Encode(elements: seq<U16>): (bytes: seq<Byte>)
    ensures |bytes| == 2 * |elements|
  {
    seq(2 * |elements|, k requires 0 <= k < 2 * |elements| =>
      if k % 2 == 0 then elements[k / 2] % 256 else elements[k / 2] / 256)
  }

  predicate LowByteFirst(elements: seq<U16>, bytes: seq<Byte>, k: nat)
    requires k < |elements| && 2 * |elements| == |bytes|
  {
    var low: int := bytes[2 * k];
    var high: int := bytes[2 * k + 1];
    elements[k] == low + 256 * high
  }

  /** Decoding undoes encoding, and each element is its first byte and 256 times its second one. */
  lemma DecodeEncode(elements: seq<U16>)
    ensures Decode(Encode(elements), |elements|) == elements
    ensures forall k :: 0 <= k < |elements| ==> LowByteFirst(elements, Encode(elements), k)
  {
    forall k | 0 <= k < |elements|
      ensures LowByteFirst(elements, Encode(elements), k)
    {
      EncodedPair(elements, k);
    }
  }

  lemma EncodedPair(elements: seq<U16>, k: nat)
    requires k < |elements|
    ensures LowByteFirst(elements, Encode(elements), k)
  {
    assert (2 * k) / 2 == k && (2 * k + 1) / 2 == k;
  }

  /** Encoding undoes decoding, and each element is its first byte and 256 times its second one. */
  lemma EncodeDecode(bytes: seq<Byte>, n: nat)
    requires |bytes| == 2 * n
    ensures Encode(Decode(bytes, n)) == bytes
    ensures forall k :: 0 <= k < n ==> LowByteFirst(Decode(bytes, n), bytes, k)
  {
    forall k | 0 <= k < 2 * n
      ensures Encode(Decode(bytes, n))[k] == bytes[k]
    {
      DecodedByte(bytes, n, k);
    }
    forall k | 0 <= k < n
      ensures LowByteFirst(Decode(bytes, n), bytes, k)
    {
      DecodedPair(bytes, n, k);
    }
  }

  lemma DecodedByte(bytes: seq<Byte>, n: nat, k: nat)
    requires |bytes| == 2 * n && k < 2 * n
    ensures Encode(Decode(bytes, n))[k] == bytes[k]
  {
    assert Decode(bytes, n)[k / 2] == Element(bytes[2 * (k / 2)], bytes[2 * (k / 2) + 1]);
  }

  lemma DecodedPair(bytes: seq<Byte>, n: nat, k: nat)
    requires |bytes| == 2 * n && k < n
    ensures LowByteFirst(Decode(bytes, n), bytes, k)
  {
  }

  // ---- Operations ----

  /** The shape and mode of an accelerator operation. */
  datatype Operation = Operation(opcode: U32, length: nat, rows: nat, columns: nat, inner: nat, flags: U32)

  predicate Performable(o: Operation) {
    if o.opcode == CMD_OP_GEMM then true
    else if o.opcode == CMD_OP_REDUCE_SUM || o.opcode == CMD_OP_REDUCE_MAX then o.length != 0
    else VectorOpcode(o.opcode)
  }

  function LeftCount(o: Operation): nat {
    if o.opcode == CMD_OP_GEMM then o.rows * o.inner else o.length
  }

  function RightCount(o: Operation): nat {
    if o.opcode == CMD_OP_GEMM then o.inner * o.columns
    else if o.opcode == CMD_OP_REDUCE_SUM || o.opcode == CMD_OP_REDUCE_MAX || o.opcode == CMD_OP_VECTOR_RELU then 0
    else if o.opcode == CMD_OP_VECTOR_SCALE then 1
    else o.length
  }

  function OutputCount(o: Operation): nat {
    if o.opcode == CMD_OP_GEMM then o.rows * o.columns
    else if o.opcode == CMD_OP_REDUCE_SUM || o.opcode == CMD_OP_REDUCE_MAX then 1
    else o.length
  }

  /** The reference result of an operation on its operands. */
  function Perform(o: Operation, left: seq<U16>, right: seq<U16>): (result: seq<U16>)
    requires Performable(o) && |left| == LeftCount(o) && |right| == RightCount(o)
    ensures |result| == OutputCount(o)
  {
    var signedMode := Test(o.flags, FLAG_SIGNED_BIT);
    var saturate := Test(o.flags, FLAG_SATURATE_BIT);
    if o.opcode == CMD_OP_GEMM then GemmSpec(left, right, o.rows, o.columns, o.inner, signedMode, saturate)
    else if o.opcode == CMD_OP_REDUCE_SUM || o.opcode == CMD_OP_REDUCE_MAX then
      [ReductionSpec(o.opcode, left, signedMode, saturate)]
    else
      VectorSpec(o.opcode, left, right, if o.opcode == CMD_OP_VECTOR_SCALE then right[0] else 0, signedMode, saturate)
  }

  // ---- Memory events ----

  function CommandOperation(c: Command): Operation {
    Operation(c.opcode, c.length, c.rows, c.columns, c.inner, c.flags)
  }

  /** The bytes a completed command writes, its operands being those in `m`. */
  function CommandOutput(c: Command, m: Memory): seq<Byte>
    requires Performable(CommandOperation(c))
  {
    var o := CommandOperation(c);
    Encode(Perform(o, Decode(ReadBytes(m, c.source0, 2 * LeftCount(o)), LeftCount(o)),
                      Decode(ReadBytes(m, c.source1, 2 * RightCount(o)), RightCount(o))))
  }

  /** What an operation that leaves the hardware does to memory `m`, its operands being those in `seen`. */
  function Effect(m: Memory, seen: Memory, r: Retired): Memory {
    match r
    case DmaDone(q) => WriteBytes(m, q.destination, ReadBytes(seen, q.source, q.length))
    case DmaFault(q, junk) => Scribble(m, q.destination, q.length, junk)
    case CommandDone(c) =>
      if Performable(CommandOperation(c)) then WriteBytes(m, c.destination, CommandOutput(c, seen)) else m
    case CommandFault(c, junk) => Scribble(m, c.destination, 2 * OutputCount(CommandOperation(c)), junk)
  }

  /** A transfer writes to its destination before it is complete, unless it copies a range onto itself. */
  predicate WritesEarly(q: DmaRequest) {
    DmaLegal(q) && q.source != q.destination
  }

  /** A command writes its output before it is complete, unless it works in place. */
  predicate ComputesEarly(c: Command) {
    var o := CommandOperation(c);
    && CommandLegal(c)
    && Disjoint(c.source0, 2 * LeftCount(o), c.destination, 2 * OutputCount(o))
    && Disjoint(c.source1, 2 * RightCount(o), c.destination, 2 * OutputCount(o))
  }

  /** The memory after one more event, if an operation that leaves has seen its operands in `seen`. */
  function Happening(m: Memory, seen: Memory, e: MemoryEvent): Memory {
    match e
    case Transferring(q, bytes) => if WritesEarly(q) then Scribble(m, q.destination, q.length, bytes) else m
    case Computing(c, bytes) =>
      if ComputesEarly(c) then Scribble(m, c.destination, 2 * OutputCount(CommandOperation(c)), bytes) else m
    case Leaving(r, _, _) => Effect(m, seen, r)
  }

  /** The moment at which an address is read: any of the flight, and by default the last one. */
  function Moment(moments: map<nat, nat>, since: nat, now: nat, a: nat): (t: nat)
    ensures t <= now && (since <= now ==> since <= t)
  {
    if a in moments && since <= moments[a] <= now then moments[a] else now
  }

  /** The memory after the events, in order. */
  function Replay(base: Memory, events: seq<MemoryEvent>): Memory
    decreases |events|, 0
  {
    if |events| == 0 then base
    else
      var before := events[..|events| - 1];
      Happening(Replay(base, before), Seen(base, before, events[|events| - 1]), events[|events| - 1])
  }

  /** What an operation that leaves after the events has read at each address. */
  function Seen(base: Memory, events: seq<MemoryEvent>, e: MemoryEvent): Memory
    decreases |events|, 1
  {
    match e
    case Leaving(_, since, moments) =>
      (a: nat) => Replay(base, events[..Moment(moments, since, |events|, a)])(a)
    case _ => base
  }

  lemma ReplayAppend(base: Memory, events: seq<MemoryEvent>, e: MemoryEvent)
    ensures Replay(base, events + [e]) == Happening(Replay(base, events), Seen(base, events, e), e)
  {
    assert (events + [e])[..|events|] == events;
  }

  /** The range has had the same bytes ever since. */
  predicate Steady(base: Memory, events: seq<MemoryEvent>, since: nat, address: nat, n: nat) {
    && since <= |events|
    && forall t: nat :: since <= t <= |events| ==>
      ReadBytes(Replay(base, events[..t]), address, n) == ReadBytes(Replay(base, events), address, n)
  }

  /** Whenever an operation has read a steady range, it has seen its present bytes. */
  lemma SeenIsNow(base: Memory, events: seq<MemoryEvent>, e: MemoryEvent, address: nat, n: nat)
    requires e.Leaving? && Steady(base, events, e.since, address, n)
    ensures ReadBytes(Seen(base, events, e), address, n) == ReadBytes(Replay(base, events), address, n)
  {
    var seen, now := ReadBytes(Seen(base, events, e), address, n), ReadBytes(Replay(base, events), address, n);
    forall k | 0 <= k < n
      ensures seen[k] == now[k]
    {
      var t := Moment(e.moments, e.since, |events|, address + k);
      assert ReadBytes(Replay(base, events[..t]), address, n)[k] == now[k];
    }
  }

  /** A range that the next event leaves alone stays steady. */
  lemma SteadyAppend(base: Memory, events: seq<MemoryEvent>, e: MemoryEvent, since: nat, address: nat, n: nat)
    requires Steady(base, events, since, address, n)
    requires ReadBytes(Replay(base, events + [e]), address, n) == ReadBytes(Replay(base, events), address, n)
    ensures Steady(base, events + [e], since, address, n)
  {
    forall t: nat | since <= t <= |events| + 1
      ensures ReadBytes(Replay(base, (events + [e])[..t]), address, n)
           == ReadBytes(Replay(base, events + [e]), address, n)
    {
      if t <= |events| {
        assert (events + [e])[..t] == events[..t];
      } else {
        assert (events + [e])[..t] == events + [e];
      }
    }
  }

  // ---- What a workload should compute ----

  function WorkloadOperation(w: Workload): Operation {
    Operation(w.opcode, w.length, w.rows, w.columns, w.inner, w.flags)
  }

  /** The counts of an accepted workload are those of its operation. */
  lemma AcceptedCounts(w: Workload)
    requires Accepted(w) && !w.kind.DmaCopy?
    ensures var o := WorkloadOperation(w);
      Performable(o) && LeftCount(o) == Source0Elements(w) && RightCount(o) == Source1Elements(w)
      && OutputCount(o) == OutputElements(w)
  {
  }

  /** External byte counts of a workload. */
  function LeftBytes(w: Workload): nat {
    if w.kind.DmaCopy? then w.length else 2 * Source0Elements(w)
  }

  function RightBytes(w: Workload): nat {
    if w.kind.DmaCopy? then 0 else 2 * Source1Elements(w)
  }

  function ResultBytes(w: Workload): nat {
    if w.kind.DmaCopy? then w.length else 2 * OutputElements(w)
  }

  /** The bytes the reference model puts at the destination: the source for a copy, and otherwise the
      reference operation on the decoded source elements. */
  function Reference(w: Workload, m: Memory): (bytes: seq<Byte>)
    requires Accepted(w)
    ensures |bytes| == ResultBytes(w)
  {
    if w.kind.DmaCopy? then ReadBytes(m, w.source0, w.length)
    else
      AcceptedCounts(w);
      Encode(Perform(WorkloadOperation(w),
                     Decode(ReadBytes(m, w.source0, LeftBytes(w)), Source0Elements(w)),
                     Decode(ReadBytes(m, w.source1, RightBytes(w)), Source1Elements(w))))
  }

  // ---- Frames ----

  /** The two memories agree everywhere outside a range. */
  ghost predicate AgreeOutside(m: Memory, m': Memory, span: Span) {
    forall a: nat :: !(span.start <= a < span.start + span.size) ==> m'(a) == m(a)
  }

  lemma ReadFrame(m: Memory, m': Memory, span: Span, address: nat, n: nat)
    requires AgreeOutside(m, m', span) && Disjoint(span.start, span.size, address, n)
    ensures ReadBytes(m', address, n) == ReadBytes(m, address, n)
  {
  }

  lemma ReadWritten(m: Memory, address: nat, data: seq<Byte>)
    ensures ReadBytes(WriteBytes(m, address, data), address, |data|) == data
  {
  }

  lemma WriteAgrees(m: Memory, address: nat, data: seq<Byte>)
    ensures AgreeOutside(m, WriteBytes(m, address, data), Span(address, |data|))
  {
  }
}
