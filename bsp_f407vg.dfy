/**
 * The board-support package of the STM32F4-Discovery board
 * (src/bsp/stm32f4xx/bsp_stm32f407vg.cpp). Its configuration and pin records
 * carry fields of their own (function_index, description, max_clock_mhz,
 * ...), so they get record types of their own; its lookup matches a stored
 * function_index instead of counting matches.
 */
module BspF407VG {
  import opened Wrappers
  import opened Bits
  import opened VendorHal
  import opened BspTypes

  /** The supply-voltage range of the board configuration; this board uses 1.8 V to 3.6 V. */
  datatype VoltageRange = Voltage1V8To3V6

  /** The board configuration record as this file initialises it. */
  datatype F4BoardConfig = F4BoardConfig(
    mcuFamily: McuFamily,
    flashSizeKb: U32,
    ramSizeKb: U32,
    maxClockMhz: U32,
    hasFpu: bool,
    hasDsp: bool,
    voltageRange: VoltageRange)

  /** A pin record as this file initialises it. */
  datatype F4PinConfig = F4PinConfig(
    portName: string,
    pin: PinNumber,
    pinFunction: PinFunction,
    functionIndex: U8,
    activeHigh: bool,
    description: string)

  /** bsp_config_f407vg. */
  const Config := F4BoardConfig(Stm32F4xx, 1024, 192, 168, true, true, Voltage1V8To3V6)

  const BoardName := "STM32F4-Discovery"
  const McuName := "STM32F407VGT6"

  /** pin_configs_f407vg, in table order. */
  const Table: seq<F4PinConfig> := [
    F4PinConfig("GPIOD", 12, Led, 0, true, "User LED Green"),
    F4PinConfig("GPIOD", 13, Led, 1, true, "User LED Orange"),
    F4PinConfig("GPIOD", 14, Led, 2, true, "User LED Red"),
    F4PinConfig("GPIOD", 15, Led, 3, true, "User LED Blue"),
    F4PinConfig("GPIOA", 0, Button, 0, true, "User Button B1"),
    F4PinConfig("GPIOA", 2, UartTx, 0, true, "USART2 TX"),
    F4PinConfig("GPIOA", 3, UartRx, 0, true, "USART2 RX"),
    F4PinConfig("GPIOA", 5, SpiSck, 0, true, "SPI1 SCK"),
    F4PinConfig("GPIOA", 6, SpiMiso, 0, true, "SPI1 MISO"),
    F4PinConfig("GPIOA", 7, SpiMosi, 0, true, "SPI1 MOSI"),
    F4PinConfig("GPIOB", 8, I2cScl, 0, true, "I2C1 SCL"),
    F4PinConfig("GPIOB", 9, I2cSda, 0, true, "I2C1 SDA")
  ]

  /**
   * The function tags of a table, in table order: BspTypes.Tags for the
   * Discovery board's own pin_config_t, which also carries function_index.
   */
  function F4Tags(pins: seq<F4PinConfig>): (t: seq<PinFunction>)
    ensures |t| == |pins|
    ensures forall i :: 0 <= i < |pins| ==> t[i] == pins[i].pinFunction
  {
    seq(|pins|, i requires 0 <= i < |pins| => pins[i].pinFunction)
  }

  /** Whether an entry has function `f` and function_index `index`. */
  predicate Matches(p: F4PinConfig, f: PinFunction, index: nat)
  {
    p.pinFunction == f && p.functionIndex == index
  }

  /** The position of the first entry with function `f` and function_index `index`, or None. */
  function FieldMatch(pins: seq<F4PinConfig>, f: PinFunction, index: nat): (r: Option<nat>)
    ensures r.Some? ==> r.value < |pins| && Matches(pins[r.value], f, index)
    ensures r.Some? ==> forall j :: 0 <= j < r.value ==> !Matches(pins[j], f, index)
    ensures r.None? ==> forall j :: 0 <= j < |pins| ==> !Matches(pins[j], f, index)
  {
    if pins == [] then None
    else if Matches(pins[0], f, index) then Some(0)
    else Shift(FieldMatch(pins[1..], f, index), 1)
  }

  /**
   * The scan of bsp_get_pin_config_by_function over a table: the first
   * entry whose function is `f` and whose function_index is `index`, or
   * nullptr.
   */
  method ScanFieldMatch(pins: seq<F4PinConfig>, f: PinFunction, index: U8) returns (r: Option<F4PinConfig>)
    ensures r == At(pins, FieldMatch(pins, f, index))
  {
    var i := 0;
    while i < |pins|
      invariant 0 <= i <= |pins|
      invariant forall j :: 0 <= j < i ==> !Matches(pins[j], f, index)
    {
      if pins[i].pinFunction == f && pins[i].functionIndex == index {
        assert FieldMatch(pins, f, index) == Some(i);
        return Some(pins[i]);
      }
      i := i + 1;
    }
    return None;
  }

  /** bsp_get_pin_config_by_function on this board's table. */
  method GetPinConfigByFunction(f: PinFunction, index: U8) returns (r: Option<F4PinConfig>)
    ensures r == At(Table, FieldMatch(Table, f, index))
  {
    r := ScanFieldMatch(Table, f, index);
  }

  /** A size_t the caller passes by pointer. */
  class SizeCell {
    var value: nat

    constructor (v: nat)
      ensures value == v
    {
      value := v;
    }
  }

  /** bsp_get_pin_configs: stores the table length through `count` when it is non-null, and returns the table. */
  method GetPinConfigs(count: SizeCell?) returns (pins: seq<F4PinConfig>)
    modifies count
    ensures pins == Table
    ensures count != null ==> count.value == 12
  {
    if count != null {
      count.value := |Table|;
    }
    return Table;
  }

  /**
   * Every entry's function_index is its ordinal among the entries of the
   * same function before it.
   */
  predicate IndexedByOrdinal(pins: seq<F4PinConfig>)
  {
    forall i :: 0 <= i < |pins| ==> pins[i].functionIndex == CountOf(F4Tags(pins)[..i], pins[i].pinFunction)
  }

  /**
   * On a table indexed by ordinal, matching on the stored function_index
   * finds the same entry as counting matches in table order.
   */
  lemma FieldMatchIsNthMatch(pins: seq<F4PinConfig>, f: PinFunction, k: nat)
    requires IndexedByOrdinal(pins)
    ensures FieldMatch(pins, f, k) == NthMatch(F4Tags(pins), f, k)
  {
    var tags := F4Tags(pins);
    var r := FieldMatch(pins, f, k);
    if r.Some? {
      NthMatchAtCount(tags, f, k, r.value);
    } else {
      NthMatchCounts(tags, f, k);
    }
  }

  /** The function tags of the Discovery table, entry by entry. */
  lemma TableTags()
    ensures F4Tags(Table) ==
              [Led, Led, Led, Led, Button, UartTx, UartRx, SpiSck, SpiMiso, SpiMosi, I2cScl, I2cSda]
  {
  }

  /** Past the four LEDs each entry's function occurs nowhere earlier in the table. */
  lemma TagFreshAfterLeds(i: nat)
    requires 4 <= i < |Table|
    ensures forall j :: 0 <= j < i ==> F4Tags(Table)[j] != F4Tags(Table)[i]
  {
    TableTags();
  }

  /** The Discovery table is indexed by ordinal. */
  lemma TableIndexedByOrdinal()
    ensures IndexedByOrdinal(Table)
  {
    var tags := F4Tags(Table);
    forall i | 0 <= i < |Table|
      ensures Table[i].functionIndex == CountOf(tags[..i], Table[i].pinFunction)
    {
      if i < 4 {
        assert forall j :: 0 <= j < i ==> tags[..i][j] == Led;
        CountOfUniform(tags[..i], Led);
      } else {
        TagFreshAfterLeds(i);
        CountOfAbsent(tags[..i], tags[i]);
      }
    }
  }

  /** On this board the field-based lookup agrees with the ordinal lookup of the L432KC package. */
  lemma TableAgreesWithOrdinalLookup(f: PinFunction, k: nat)
    ensures FieldMatch(Table, f, k) == NthMatch(F4Tags(Table), f, k)
  {
    TableIndexedByOrdinal();
    FieldMatchIsNthMatch(Table, f, k);
  }

  /** An entry that matches and has no earlier match is the one found. */
  lemma FieldMatchAt(pins: seq<F4PinConfig>, f: PinFunction, index: nat, i: nat)
    requires i < |pins| && Matches(pins[i], f, index)
    requires forall j :: 0 <= j < i ==> !Matches(pins[j], f, index)
    ensures FieldMatch(pins, f, index) == Some(i)
  {
  }

  /** LED indices 0..3 are the GPIOD pins 12..15, all active high. */
  lemma LedsResolve(k: nat)
    requires k < 4
    ensures At(Table, FieldMatch(Table, Led, k)) == Some(Table[k])
    ensures Table[k].portName == "GPIOD" && Table[k].pin == 12 + k && Table[k].activeHigh
  {
    assert forall j :: 0 <= j < 4 ==> Table[j].pinFunction == Led && Table[j].functionIndex == j;
    FieldMatchAt(Table, Led, k, k);
  }

  /** There is no LED with index 4 or above. */
  lemma NoFifthLed(k: nat)
    requires k >= 4
    ensures FieldMatch(Table, Led, k).None?
  {
    assert forall j :: 0 <= j < |Table| && Table[j].pinFunction == Led ==> Table[j].functionIndex < 4;
  }

  /** The user button is PA0, active high. */
  lemma ButtonScenario()
    ensures At(Table, FieldMatch(Table, Button, 0)) == Some(Table[4])
    ensures Table[4].portName == "GPIOA" && Table[4].pin == 0 && Table[4].activeHigh
  {
    assert forall j :: 0 <= j < 4 ==> Table[j].pinFunction == Led;
    FieldMatchAt(Table, Button, 0, 4);
  }

  /** The UART receive pin is PA3. */
  lemma UartRxScenario()
    ensures At(Table, FieldMatch(Table, UartRx, 0)) == Some(Table[6])
    ensures Table[6].portName == "GPIOA" && Table[6].pin == 3
  {
    assert forall j :: 0 <= j < 6 ==> Table[j].pinFunction != UartRx;
    FieldMatchAt(Table, UartRx, 0, 6);
  }

  /**
   * bsp_init's return code: -1 when HAL_Init fails, -2 when the clock
   * configuration fails, else 0.
   */
  function InitCode(halInit: HalStatus, clockRc: int): (rc: int)
    ensures rc == 0 <==> halInit == HalOk && clockRc == 0
    ensures rc == -1 <==> halInit != HalOk
    ensures rc == -2 <==> halInit == HalOk && clockRc != 0
  {
    if halInit != HalOk then -1
    else if clockRc != 0 then -2
    else 0
  }

  /**
   * bsp_init: HAL_Init (its status is `halInit`), then the clock
   * configuration (its code is `clockRc`), stopping at the first failure;
   * on success HAL_InitTick is called and its status ignored.
   */
  method BspInit(hw: Hardware, halInit: HalStatus, clockRc: int) returns (rc: int)
    modifies hw
    ensures rc == InitCode(halInit, clockRc)
    ensures hw.calls == old(hw.calls) + [HalInitCall] + (if rc == 0 then [HalInitTickCall] else [])
    ensures hw.odr == old(hw.odr)
  {
    hw.Issue(HalInitCall);
    if halInit != HalOk {
      return -1;
    }
    if clockRc != 0 {
      return -2;
    }
    hw.Issue(HalInitTickCall);
    return 0;
  }

  /** The clock tree of configure_system_clock_f407vg: an 8 MHz HSE into the main PLL. */
  const HseHz: nat := 8000000
  const PllM: nat := 8
  const PllN: nat := 336
  const PllP: nat := 2
  const PllQ: nat := 7
  const AhbDivider: nat := 1
  const Apb1Divider: nat := 4
  const Apb2Divider: nat := 2

  function VcoInputHz(): nat { HseHz / PllM }
  function VcoOutputHz(): nat { VcoInputHz() * PllN }
  function SysclkHz(): nat { VcoOutputHz() / PllP }
  function UsbClockHz(): nat { VcoOutputHz() / PllQ }
  function HclkHz(): nat { SysclkHz() / AhbDivider }
  function Pclk1Hz(): nat { HclkHz() / Apb1Divider }
  function Pclk2Hz(): nat { HclkHz() / Apb2Divider }

  /**
   * The arithmetic stated beside the PLL settings: a 1 MHz VCO input, a
   * 336 MHz VCO output, a 168 MHz system and AHB clock equal to the
   * configuration's max_clock_mhz, 48 MHz for USB, and buses at 42 and
   * 84 MHz, each dividing the system clock exactly.
   */
  lemma PllArithmetic()
    ensures VcoInputHz() == 1000000 && VcoOutputHz() == 336000000
    ensures SysclkHz() == 168000000 == Config.maxClockMhz * 1000000
    ensures UsbClockHz() == 48000000
    ensures HclkHz() == SysclkHz()
    ensures Pclk1Hz() == 42000000 && Pclk2Hz() == 84000000
    ensures Pclk1Hz() * Apb1Divider == HclkHz() && Pclk2Hz() * Apb2Divider == HclkHz()
  {
  }
}
