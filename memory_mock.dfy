/**
 * The test double for memory-mapped registers: `STM32MemoryMock` keeps the
 * value map and the written-flag map as fields and is proved against the
 * pure store of module RegisterStore.
 */
module MemoryMock {
  import opened Bits
  import opened RegisterStore

  /** The test double: two maps updated in place. */
  class STM32MemoryMock {
    var memory: map<U32, bv32>
    var writtenFlags: map<U32, bool>

    /** The store the fields hold. */
    function State(): Store
      reads this
    {
      Store(memory, writtenFlags)
    }

    constructor()
      ensures State() == Empty
    {
      memory := map[];
      writtenFlags := map[];
    }

    method WriteRegister(address: U32, value: bv32)
      modifies this
      ensures State() == Write(old(State()), address, value)
    {
      memory := memory[address := value];
      writtenFlags := writtenFlags[address := true];
    }

    method ReadRegister(address: U32) returns (value: bv32)
      ensures value == Read(State(), address)
    {
      if address in memory {
        value := memory[address];
      } else {
        value := 0;
      }
    }

    method SetBit(address: U32, mask: bv32)
      modifies this
      ensures State() == RegisterStore.SetBit(old(State()), address, mask)
    {
      var current := ReadRegister(address);
      WriteRegister(address, current | mask);
    }

    method ClearBit(address: U32, mask: bv32)
      modifies this
      ensures State() == RegisterStore.ClearBit(old(State()), address, mask)
    {
      var current := ReadRegister(address);
      WriteRegister(address, current & !mask);
    }

    method WasRegisterWritten(address: U32) returns (r: bool)
      ensures r == WasWritten(State(), address)
    {
      if address in writtenFlags {
        r := writtenFlags[address];
      } else {
        r := false;
      }
    }

    method IsBitSet(address: U32, mask: bv32) returns (r: bool)
      ensures r == RegisterStore.IsBitSet(State(), address, mask)
    {
      var value := ReadRegister(address);
      r := MaskSet(value, mask);
    }

    method GetRegisterValue(address: U32) returns (value: bv32)
      ensures value == Read(State(), address)
    {
      value := ReadRegister(address);
    }

    method Reset()
      modifies this
      ensures State() == Empty
    {
      memory := map[];
      writtenFlags := map[];
    }
  }

  /*
   * The C entry points. They act on the process-wide instance, which the
   * model passes explicitly.
   */

  method MockMemoryWrite(mock: STM32MemoryMock, address: U32, value: bv32)
    modifies mock
    ensures mock.State() == Write(old(mock.State()), address, value)
  {
    mock.WriteRegister(address, value);
  }

  method MockMemoryRead(mock: STM32MemoryMock, address: U32) returns (value: bv32)
    ensures value == Read(mock.State(), address)
  {
    value := mock.ReadRegister(address);
  }

  method MockMemorySetBit(mock: STM32MemoryMock, address: U32, mask: bv32)
    modifies mock
    ensures mock.State() == SetBit(old(mock.State()), address, mask)
  {
    mock.SetBit(address, mask);
  }
}
