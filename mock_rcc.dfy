/**
 * The unit-test override of the GPIO clock-enable macros: each one sets its
 * port's enable bit in the RCC AHB2 enable register of the register store.
 */
module MockRcc {
  import opened Bits
  import opened RegisterStore
  import opened MemoryMock

  /** Base of the reset and clock control block in the STM32L4 memory map. */
  const RccBase: U32 := 0x4002_1000
  /** The AHB2 peripheral clock enable register, at offset 0x4C. */
  const RccAhb2Enr: U32 := RccBase + 0x4C

  const GpioAEn: bv32 := 0x0000_0001
  const GpioBEn: bv32 := 0x0000_0002
  const GpioCEn: bv32 := 0x0000_0004

  /** The ports whose clock-enable macro is overridden. */
  datatype ClockPort = PortA | PortB | PortC

  function EnableBit(p: ClockPort): bv32
  {
    match p
    case PortA => GpioAEn
    case PortB => GpioBEn
    case PortC => GpioCEn
  }

  /** A value with exactly one bit set. */
  predicate SingleBit(x: bv32)
  {
    x != 0 && x & (x - 1) == 0
  }

  /** The register address, and the enable bits as pairwise disjoint single bits. */
  lemma RegisterLayout()
    ensures RccAhb2Enr == 0x4002_104C
    ensures forall p :: SingleBit(EnableBit(p))
    ensures forall p, q :: p != q ==> EnableBit(p) & EnableBit(q) == 0
  {
  }

  /** The store after the macro for port `p`. */
  function ClockEnabled(s: Store, p: ClockPort): (r: Store)
    ensures Read(r, RccAhb2Enr) == Read(s, RccAhb2Enr) | EnableBit(p)
    ensures WasWritten(r, RccAhb2Enr)
    ensures SameElsewhere(r, s, RccAhb2Enr)
  {
    RegisterStore.SetBit(s, RccAhb2Enr, EnableBit(p))
  }

  method GpioBClkEnable(mock: STM32MemoryMock)
    modifies mock
    ensures mock.State() == ClockEnabled(old(mock.State()), PortB)
  {
    MockMemorySetBit(mock, RccAhb2Enr, GpioBEn);
  }

  method GpioAClkEnable(mock: STM32MemoryMock)
    modifies mock
    ensures mock.State() == ClockEnabled(old(mock.State()), PortA)
  {
    MockMemorySetBit(mock, RccAhb2Enr, GpioAEn);
  }

  method GpioCClkEnable(mock: STM32MemoryMock)
    modifies mock
    ensures mock.State() == ClockEnabled(old(mock.State()), PortC)
  {
    MockMemorySetBit(mock, RccAhb2Enr, GpioCEn);
  }

  /** From a reset store, one macro leaves the register written and holding just its bit. */
  lemma EnableFromReset(p: ClockPort)
    ensures Read(ClockEnabled(Empty, p), RccAhb2Enr) == EnableBit(p)
    ensures WasWritten(ClockEnabled(Empty, p), RccAhb2Enr)
    ensures Read(ClockEnabled(Empty, PortB), RccAhb2Enr) == 0x2
  {
    EmptyStore(RccAhb2Enr);
  }

  /** Running a macro twice leaves the store it leaves when run once. */
  lemma EnableIdempotent(s: Store, p: ClockPort)
    ensures ClockEnabled(ClockEnabled(s, p), p) == ClockEnabled(s, p)
  {
    SetBitIdempotent(s, RccAhb2Enr, EnableBit(p));
  }

  /** A macro sets its own bit and leaves another port's bit as it was. */
  lemma EnableKeepsOthers(s: Store, p: ClockPort, q: ClockPort)
    ensures IsBitSet(ClockEnabled(s, p), RccAhb2Enr, EnableBit(p))
    ensures p != q ==>
              IsBitSet(ClockEnabled(s, p), RccAhb2Enr, EnableBit(q)) == IsBitSet(s, RccAhb2Enr, EnableBit(q))
  {
    var x := Read(s, RccAhb2Enr);
    SetBitBits(s, RccAhb2Enr, EnableBit(p));
    if p != q {
      OtherBitKept(x, EnableBit(p), EnableBit(q));
    }
  }

  lemma OtherBitKept(x: bv32, b: bv32, c: bv32)
    requires b & c == 0
    ensures (x | b) & c == x & c
  {
  }

  /** The macros for the ports of `ps`, in order. */
  function EnableAll(s: Store, ps: seq<ClockPort>): Store
    decreases |ps|
  {
    if ps == [] then s else EnableAll(ClockEnabled(s, ps[0]), ps[1..])
  }

  /** The enable bits of the ports of `ps`, or'ed together. */
  function MaskOf(ps: seq<ClockPort>): bv32
    decreases |ps|
  {
    if ps == [] then 0 else EnableBit(ps[0]) | MaskOf(ps[1..])
  }

  /** After a run of macros the register holds its old value or'ed with their bits. */
  lemma {:induction false} EnableAllValue(s: Store, ps: seq<ClockPort>)
    ensures Read(EnableAll(s, ps), RccAhb2Enr) == Read(s, RccAhb2Enr) | MaskOf(ps)
    decreases |ps|
  {
    if ps != [] {
      EnableAllValue(ClockEnabled(s, ps[0]), ps[1..]);
      OrAssociative(Read(s, RccAhb2Enr), EnableBit(ps[0]), MaskOf(ps[1..]));
    }
  }

  lemma OrAssociative(x: bv32, y: bv32, z: bv32)
    ensures (x | y) | z == x | (y | z)
  {
  }

  /** The register bits for the ports flagged present. */
  function Combine(a: bool, b: bool, c: bool): bv32
  {
    (if a then GpioAEn else 0) | (if b then GpioBEn else 0) | (if c then GpioCEn else 0)
  }

  /** Or-ing one port's bit into a combination flags that port present. */
  lemma CombineStep(p: ClockPort, a: bool, b: bool, c: bool)
    ensures EnableBit(p) | Combine(a, b, c) == Combine(a || p == PortA, b || p == PortB, c || p == PortC)
  {
  }

  /** The mask of a run depends only on which ports occur in it, not on order or repetition. */
  lemma {:induction false} MaskOfMembers(ps: seq<ClockPort>)
    ensures MaskOf(ps) == Combine(PortA in ps, PortB in ps, PortC in ps)
    decreases |ps|
  {
    if ps != [] {
      var rest := ps[1..];
      MaskOfMembers(rest);
      assert ps == [ps[0]] + rest;
      CombineStep(ps[0], PortA in rest, PortB in rest, PortC in rest);
    }
  }

  /** Enabling A, B and C from a reset store, in any order and with repeats, leaves 0x7. */
  lemma AnyOrderEnablesAll(ps: seq<ClockPort>)
    requires PortA in ps && PortB in ps && PortC in ps
    ensures Read(EnableAll(Empty, ps), RccAhb2Enr) == 0x7
  {
    EnableAllValue(Empty, ps);
    MaskOfMembers(ps);
    EmptyStore(RccAhb2Enr);
  }
}
