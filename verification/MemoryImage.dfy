/** The memory image of the DMA bench: scratchpad and external memory as byte buffers. */
module MemoryImage {
  import opened Words
  import opened Soc
  import opened ByteLanes

  /** `range_fits`, with its 64-bit offset and its subtraction-only comparison. */
  function RangeFits(address: U32, length: nat, base: U32, size: nat): (fits: bool)
    ensures fits <==> Inside(address, length, base, size)
  {
    if address < base then false
    else
      var offset := address - base;
      offset <= size && length <= size - offset
  }

  class Image {
    const scratchpad: array<Byte>
    const dram: array<Byte>

    ghost predicate Valid() {
      scratchpad != dram && scratchpad.Length == SPM_SIZE_BYTES && dram.Length == DRAM_SIZE_BYTES
    }

    constructor ()
      ensures Valid() && fresh(scratchpad) && fresh(dram)
      ensures forall i :: 0 <= i < SPM_SIZE_BYTES ==> scratchpad[i] == 0
      ensures forall i :: 0 <= i < DRAM_SIZE_BYTES ==> dram[i] == 0
    {
      scratchpad := new Byte[SPM_SIZE_BYTES](_ => 0);
      dram := new Byte[DRAM_SIZE_BYTES](_ => 0);
    }

    /** The region holding the whole range and the offset in it, or None outside both regions. */
    method Locate(address: U32, length: nat) returns (place: Option<(array<Byte>, nat)>)
      requires Valid()
      ensures place.Some? <==> InScratchpad(address, length) || InDram(address, length)
      ensures InScratchpad(address, length) ==> place == Some((scratchpad, address - SPM_BASE_ADDR))
      ensures InDram(address, length) ==> place == Some((dram, address - DRAM_BASE_ADDR))
      ensures place.Some? ==> place.value.1 + length <= place.value.0.Length
    {
      if RangeFits(address, length, SPM_BASE_ADDR, SPM_SIZE_BYTES) {
        return Some((scratchpad, address - SPM_BASE_ADDR));
      }
      if RangeFits(address, length, DRAM_BASE_ADDR, DRAM_SIZE_BYTES) {
        return Some((dram, address - DRAM_BASE_ADDR));
      }
      return None;
    }

    /** The bytes stored in a legal range. */
    ghost function Bytes(address: U32, length: nat): (bytes: seq<Byte>)
      requires Valid() && (InScratchpad(address, length) || InDram(address, length))
      reads scratchpad, dram
      ensures |bytes| == length
    {
      if InScratchpad(address, length)
      then scratchpad[address - SPM_BASE_ADDR..address - SPM_BASE_ADDR + length]
      else dram[address - DRAM_BASE_ADDR..address - DRAM_BASE_ADDR + length]
    }

    /** `read_bytes`; None is the out-of-range exception. */
    method ReadBytes(address: U32, length: nat) returns (bytes: Option<seq<Byte>>)
      requires Valid()
      ensures bytes.Some? <==> InScratchpad(address, length) || InDram(address, length)
      ensures bytes.Some? ==> bytes.value == Bytes(address, length)
    {
      var place := Locate(address, length);
      match place
      case None => bytes := None;
      case Some((region, offset)) => bytes := Some(region[offset..offset + length]);
    }

    /** `read_word`: the little-endian word, or failure and 0 outside the regions. */
    method ReadWord(address: U32) returns (ok: bool, data: U32)
      requires Valid()
      ensures ok <==> InScratchpad(address, DATA_BYTES) || InDram(address, DATA_BYTES)
      ensures ok ==> data == WordOf(Bytes(address, DATA_BYTES), LANES)
      ensures !ok ==> data == 0
    {
      var bytes := ReadBytes(address, DATA_BYTES);
      data := 0;
      if bytes.None? {
        return false, 0;
      }
      for lane := 0 to |bytes.value|
        invariant data == WordOf(bytes.value, lane)
      {
        data := Or(data, Place(bytes.value[lane], lane));
      }
      ok := true;
    }

    /** `write_word`: only the strobed bytes of the word change; outside the regions nothing does. */
    method WriteWord(address: U32, data: U32, strobe: U32) returns (ok: bool)
      requires Valid()
      modifies scratchpad, dram
      ensures ok <==> InScratchpad(address, DATA_BYTES) || InDram(address, DATA_BYTES)
      ensures ok ==> Bytes(address, DATA_BYTES) == MaskedBytes(old(Bytes(address, DATA_BYTES)), data, strobe)
      ensures ok ==>
        WordOf(Bytes(address, DATA_BYTES), LANES)
          == ApplyStrobe(WordOf(old(Bytes(address, DATA_BYTES)), LANES), data, strobe)
      ensures forall i :: 0 <= i < SPM_SIZE_BYTES && !(address <= SPM_BASE_ADDR + i < address + DATA_BYTES) ==>
        scratchpad[i] == old(scratchpad[i])
      ensures forall i :: 0 <= i < DRAM_SIZE_BYTES && !(address <= DRAM_BASE_ADDR + i < address + DATA_BYTES) ==>
        dram[i] == old(dram[i])
      ensures !ok ==> scratchpad[..] == old(scratchpad[..]) && dram[..] == old(dram[..])
    {
      var place := Locate(address, DATA_BYTES);
      match place
      case None => ok := false;
      case Some((region, offset)) =>
        ghost var bytes := Bytes(address, DATA_BYTES);
        WriteLanes(region, offset, data, strobe);
        assert Bytes(address, DATA_BYTES) == MaskedBytes(bytes, data, strobe);
        MaskedWord(bytes, data, strobe);
        ok := true;
    }

    /** The byte loop of `write_word`. */
    method WriteLanes(region: array<Byte>, offset: nat, data: U32, strobe: U32)
      requires offset + DATA_BYTES <= region.Length
      modifies region
      ensures region[offset..offset + DATA_BYTES] == MaskedBytes(old(region[offset..offset + DATA_BYTES]), data, strobe)
      ensures forall i :: 0 <= i < region.Length && !(offset <= i < offset + DATA_BYTES) ==> region[i] == old(region[i])
    {
      for lane := 0 to DATA_BYTES
        invariant forall k :: 0 <= k < lane ==>
          region[offset + k] == if Test(strobe, k) then Lane(data, k) else old(region[offset + k])
        invariant forall i :: 0 <= i < region.Length && !(offset <= i < offset + lane) ==> region[i] == old(region[i])
      {
        if Test(strobe, lane) {
          region[offset + lane] := Lane(data, lane);
        }
      }
      ghost var was := old(region[offset..offset + DATA_BYTES]);
      forall k | 0 <= k < DATA_BYTES
        ensures region[offset..offset + DATA_BYTES][k] == MaskedBytes(was, data, strobe)[k]
      {
        assert region[offset + k] == if Test(strobe, k) then Lane(data, k) else was[k];
      }
    }
  }
}
