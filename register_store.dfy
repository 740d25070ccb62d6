/**
 * The register store used by the unit tests in place of memory-mapped
 * registers: a value map and a written-flag map keyed by 32-bit address,
 * read-modify-write bit operations, and a reset.
 *
 * This module is the pure specification of that store.
 */
module RegisterStore {
  import opened Bits

  /** Contents of the store: the value map and the written-flag map. */
  datatype Store = Store(memory: map<U32, bv32>, written: map<U32, bool>)

  /** The store right after construction or `reset`. */
  const Empty: Store := Store(map[], map[])

  /**
   * `read_register`: the stored value, 0 for an address never stored. What a
   * read returns after writes and after a reset is stated by Write,
   * EmptyStore and RunWritten.
   */
  function Read(s: Store, address: U32): (r: bv32)
    ensures address !in s.memory ==> r == 0
    ensures address in s.memory ==> r == s.memory[address]
  {
    if address in s.memory then s.memory[address] else 0
  }

  /**
   * `was_register_written`: the flag, false for an address never flagged.
   * Which addresses end up flagged is stated by Write, Apply, RunWritten and
   * WrittenFromResetIffTouched.
   */
  function WasWritten(s: Store, address: U32): (r: bool)
    ensures r <==> address in s.written && s.written[address]
  {
    address in s.written && s.written[address]
  }

  /** Two stores agree on every address other than `address`. */
  ghost predicate SameElsewhere(s: Store, t: Store, address: U32)
  {
    forall b: U32 :: b != address ==> Read(s, b) == Read(t, b) && WasWritten(s, b) == WasWritten(t, b)
  }

  /** `write_register`: stores the value and marks the address written. */
  function Write(s: Store, address: U32, value: bv32): (r: Store)
    ensures Read(r, address) == value && WasWritten(r, address)
    ensures SameElsewhere(r, s, address)
  {
    Store(s.memory[address := value], s.written[address := true])
  }

  /** Or-ing in a mask sets its bits and keeps every other bit. */
  lemma OrMask(x: bv32, mask: bv32)
    ensures (x | mask) & mask == mask
    ensures (x | mask) & !mask == x & !mask
  {
  }

  /** And-ing with a mask's complement clears its bits and keeps every other bit. */
  lemma AndNotMask(x: bv32, mask: bv32)
    ensures (x & !mask) & mask == 0
    ensures mask != 0 ==> (x & !mask) & mask != mask
    ensures (x & !mask) & !mask == x & !mask
  {
  }

  /** `set_bit`: writes back the current value or'ed with the mask. */
  function SetBit(s: Store, address: U32, mask: bv32): (r: Store)
    ensures Read(r, address) == Read(s, address) | mask
    ensures WasWritten(r, address)
    ensures SameElsewhere(r, s, address)
  {
    Write(s, address, Read(s, address) | mask)
  }

  /** `clear_bit`: writes back the current value and'ed with the mask's complement. */
  function ClearBit(s: Store, address: U32, mask: bv32): (r: Store)
    ensures Read(r, address) == Read(s, address) & !mask
    ensures WasWritten(r, address)
    ensures SameElsewhere(r, s, address)
  {
    Write(s, address, Read(s, address) & !mask)
  }

  /** Every bit of `mask` is set in `value`. */
  predicate MaskSet(value: bv32, mask: bv32)
  {
    value & mask == mask
  }

  /** `is_bit_set`: every bit of the mask is set in the stored value. */
  predicate IsBitSet(s: Store, address: U32, mask: bv32)
  {
    MaskSet(Read(s, address), mask)
  }

  /** After a reset every address reads 0 and none is marked written. */
  lemma EmptyStore(address: U32)
    ensures Read(Empty, address) == 0
    ensures !WasWritten(Empty, address)
  {
  }

  /** The empty mask is always set, on any store. */
  lemma EmptyMaskIsSet(s: Store, address: U32)
    ensures IsBitSet(s, address, 0)
  {
  }

  /** `set_bit` twice with the same mask gives the store `set_bit` once gives. */
  lemma SetBitIdempotent(s: Store, address: U32, mask: bv32)
    ensures SetBit(SetBit(s, address, mask), address, mask) == SetBit(s, address, mask)
  {
    var once := SetBit(s, address, mask);
    assert Read(once, address) | mask == Read(once, address);
    assert once.memory[address := Read(once, address)] == once.memory;
    assert once.written[address := true] == once.written;
  }

  /** `set_bit` sets every bit of the mask and keeps every other bit of the register. */
  lemma SetBitBits(s: Store, address: U32, mask: bv32)
    ensures IsBitSet(SetBit(s, address, mask), address, mask)
    ensures Read(SetBit(s, address, mask), address) & !mask == Read(s, address) & !mask
  {
    OrMask(Read(s, address), mask);
  }

  /** `clear_bit` clears every bit of the mask; a nonzero mask then no longer tests as set. */
  lemma ClearBitClears(s: Store, address: U32, mask: bv32)
    ensures Read(ClearBit(s, address, mask), address) & mask == 0
    ensures mask != 0 ==> !IsBitSet(ClearBit(s, address, mask), address, mask)
  {
    AndNotMask(Read(s, address), mask);
  }

  /** `clear_bit` keeps every bit of the register outside the mask. */
  lemma ClearBitKeeps(s: Store, address: U32, mask: bv32)
    ensures Read(ClearBit(s, address, mask), address) & !mask == Read(s, address) & !mask
  {
    AndNotMask(Read(s, address), mask);
  }

  /** One store operation, as the tests issue them. */
  datatype StoreOp =
    | WriteOp(address: U32, value: bv32)
    | SetBitOp(address: U32, mask: bv32)
    | ClearBitOp(address: U32, mask: bv32)

  function Apply(s: Store, op: StoreOp): (r: Store)
    ensures WasWritten(r, op.address)
    ensures SameElsewhere(r, s, op.address)
  {
    match op
    case WriteOp(a, v) => Write(s, a, v)
    case SetBitOp(a, m) => SetBit(s, a, m)
    case ClearBitOp(a, m) => ClearBit(s, a, m)
  }

  /** The store after the operations, in order. */
  function Run(s: Store, ops: seq<StoreOp>): Store
    decreases |ops|
  {
    if ops == [] then s else Run(Apply(s, ops[0]), ops[1..])
  }

  ghost predicate Touches(ops: seq<StoreOp>, address: U32)
  {
    exists i :: 0 <= i < |ops| && ops[i].address == address
  }

  /**
   * An address is marked written after a run exactly when it was before or
   * some operation of the run names it; an address no operation names keeps
   * its value.
   */
  lemma {:induction false} RunWritten(s: Store, ops: seq<StoreOp>, address: U32)
    ensures WasWritten(Run(s, ops), address) <==> WasWritten(s, address) || Touches(ops, address)
    ensures !Touches(ops, address) ==> Read(Run(s, ops), address) == Read(s, address)
    decreases |ops|
  {
    if ops != [] {
      var next := Apply(s, ops[0]);
      RunWritten(next, ops[1..], address);
      if Touches(ops, address) && ops[0].address != address {
        var i :| 0 <= i < |ops| && ops[i].address == address;
        assert ops[1..][i - 1] == ops[i];
      }
      if Touches(ops[1..], address) {
        var i :| 0 <= i < |ops[1..]| && ops[1..][i].address == address;
        assert ops[i + 1] == ops[1..][i];
      }
    }
  }

  /** Starting from a reset store, an address is written exactly when some operation names it. */
  lemma WrittenFromResetIffTouched(ops: seq<StoreOp>, address: U32)
    ensures WasWritten(Run(Empty, ops), address) <==> Touches(ops, address)
    ensures !Touches(ops, address) ==> Read(Run(Empty, ops), address) == 0
  {
    RunWritten(Empty, ops, address);
  }
}
