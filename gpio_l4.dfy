/**
 * The STM32L4 implementation of the portable GPIO layer
 * (src/hal/stm32l4xx/hal_gpio_stm32l4xx.c): the eight port handles, the
 * lookups over them, the enum-to-vendor conversions, and the argument guards
 * in front of each vendor call.
 */
module GpioL4 {
  import opened Wrappers
  import opened Bits
  import opened VendorHal
  import opened GpioTypes

  /** The symbolic name of each port block. */
  function PortName(p: HwPort): string
  {
    match p
    case GPIOA => "GPIOA"
    case GPIOB => "GPIOB"
    case GPIOC => "GPIOC"
    case GPIOD => "GPIOD"
    case GPIOE => "GPIOE"
    case GPIOF => "GPIOF"
    case GPIOG => "GPIOG"
    case GPIOH => "GPIOH"
  }

  /** GPIOx_BASE on STM32L4 devices: 0x4800_0000 plus 0x400 per port. */
  function BaseAddress(p: HwPort): U32
  {
    match p
    case GPIOA => 0x4800_0000
    case GPIOB => 0x4800_0400
    case GPIOC => 0x4800_0800
    case GPIOD => 0x4800_0C00
    case GPIOE => 0x4800_1000
    case GPIOF => 0x4800_1400
    case GPIOG => 0x4800_1800
    case GPIOH => 0x4800_1C00
  }

  /** One entry of the handle table; a port the device header does not define has no hardware handle. */
  function Entry(p: HwPort, present: bool): PortHandle
  {
    if present then PortHandle(Some(p), PortName(p), BaseAddress(p))
    else PortHandle(None, PortName(p), 0)
  }

  /**
   * gpio_port_handles. `defined` is the set of ports among GPIOD..GPIOH that
   * the device header defines; GPIOA, GPIOB and GPIOC are always present.
   */
  function PortHandles(defined: set<HwPort>): seq<PortHandle>
  {
    [ Entry(GPIOA, true), Entry(GPIOB, true), Entry(GPIOC, true),
      Entry(GPIOD, GPIOD in defined), Entry(GPIOE, GPIOE in defined),
      Entry(GPIOF, GPIOF in defined), Entry(GPIOG, GPIOG in defined),
      Entry(GPIOH, GPIOH in defined) ]
  }

  /**
   * The position of the first handle named `name`, or None. It is the port
   * table's counterpart of BspTypes.FirstNamed: the GPIO layer and the BSP
   * each scan their own table (hal_gpio_get_port and bsp_get_pin_config),
   * over different record types.
   */
  function FirstPortNamed(t: seq<PortHandle>, name: string): (r: Option<nat>)
    ensures r.Some? ==> r.value < |t| && t[r.value].name == name
    ensures r.Some? ==> forall j :: 0 <= j < r.value ==> t[j].name != name
    ensures r.None? ==> forall j :: 0 <= j < |t| ==> t[j].name != name
  {
    if t == [] then None
    else if t[0].name == name then Some(0)
    else Shift(FirstPortNamed(t[1..], name), 1)
  }

  /** The handle hal_gpio_get_port yields for a non-NULL name. */
  function PortNamed(defined: set<HwPort>, name: string): Option<PortHandle>
  {
    At(PortHandles(defined), FirstPortNamed(PortHandles(defined), name))
  }

  /** Whether the device provides port `p`: GPIOA..GPIOC always, the others when the header defines them. */
  predicate Present(defined: set<HwPort>, p: HwPort)
  {
    p == GPIOA || p == GPIOB || p == GPIOC || p in defined
  }

  /** The port at each table position. */
  function PortAt(i: nat): HwPort
    requires i < 8
  {
    [GPIOA, GPIOB, GPIOC, GPIOD, GPIOE, GPIOF, GPIOG, GPIOH][i]
  }

  /** The table position of each port. */
  function PortIndex(p: HwPort): (i: nat)
    ensures i < 8 && PortAt(i) == p
  {
    match p
    case GPIOA => 0
    case GPIOB => 1
    case GPIOC => 2
    case GPIOD => 3
    case GPIOE => 4
    case GPIOF => 5
    case GPIOG => 6
    case GPIOH => 7
  }

  /** The port a name denotes, independently of the table. */
  function PortOfName(name: string): (r: Option<HwPort>)
    ensures r.Some? ==> PortName(r.value) == name
    ensures r.None? ==> forall p: HwPort :: PortName(p) != name
  {
    if name == "GPIOA" then Some(GPIOA)
    else if name == "GPIOB" then Some(GPIOB)
    else if name == "GPIOC" then Some(GPIOC)
    else if name == "GPIOD" then Some(GPIOD)
    else if name == "GPIOE" then Some(GPIOE)
    else if name == "GPIOF" then Some(GPIOF)
    else if name == "GPIOG" then Some(GPIOG)
    else if name == "GPIOH" then Some(GPIOH)
    else None
  }

  /** Table position `i` holds port `i`, with its hardware handle exactly when the device provides it. */
  lemma PortHandlesShape(defined: set<HwPort>)
    ensures |PortHandles(defined)| == 8
    ensures forall i :: 0 <= i < 8 ==> PortHandles(defined)[i] == Entry(PortAt(i), Present(defined, PortAt(i)))
  {
  }

  lemma PortNamesDistinct(i: nat, j: nat)
    requires i < 8 && j < 8 && i != j
    ensures PortName(PortAt(i)) != PortName(PortAt(j))
  {
    assert PortName(PortAt(i))[4] != PortName(PortAt(j))[4];
  }

  /**
   * Looking a port up by the name of table entry i finds entry i: the name
   * and index lookups agree on every index below 8.
   */
  lemma NameLookupFindsIndex(defined: set<HwPort>, i: nat)
    requires i < 8
    ensures FirstPortNamed(PortHandles(defined), PortName(PortAt(i))) == Some(i)
    ensures PortNamed(defined, PortName(PortAt(i))) == GetPortByIndex(defined, i)
  {
    var t := PortHandles(defined);
    var n := PortName(PortAt(i));
    PortHandlesShape(defined);
    forall j | 0 <= j < 8 && j != i
      ensures t[j].name != n
    {
      PortNamesDistinct(i, j);
    }
    UniqueNameFound(t, n, i);
  }

  /** A name carried by exactly one handle is found at that handle. */
  lemma UniqueNameFound(t: seq<PortHandle>, name: string, i: nat)
    requires i < |t| && t[i].name == name
    requires forall j :: 0 <= j < |t| && j != i ==> t[j].name != name
    ensures FirstPortNamed(t, name) == Some(i)
  {
  }

  /** A name that is none of GPIOA..GPIOH finds no port. */
  lemma UnknownNameFindsNothing(defined: set<HwPort>, name: string)
    requires forall p: HwPort :: PortName(p) != name
    ensures PortNamed(defined, name).None?
  {
    PortHandlesShape(defined);
  }

  /**
   * The table scan agrees with the reference reading of a port name: a name
   * of one of the eight ports finds that port's entry, with a hardware handle
   * exactly when the device provides the port, and any other name finds
   * nothing.
   */
  lemma PortNamedMeaning(defined: set<HwPort>, name: string)
    ensures PortOfName(name).None? ==> PortNamed(defined, name).None?
    ensures PortOfName(name).Some? ==>
              PortNamed(defined, name) == Some(Entry(PortOfName(name).value, Present(defined, PortOfName(name).value)))
    ensures HasHw(PortNamed(defined, name)) <==> PortOfName(name).Some? && Present(defined, PortOfName(name).value)
    ensures HasHw(PortNamed(defined, name)) ==> HwOf(PortNamed(defined, name)) == PortOfName(name).value
  {
    PortHandlesShape(defined);
    var o := PortOfName(name);
    if o.Some? {
      NameLookupFindsIndex(defined, PortIndex(o.value));
    } else {
      UnknownNameFindsNothing(defined, name);
    }
  }

  /**
   * hal_gpio_get_port: NULL for a NULL name, otherwise the first handle whose
   * name equals the argument, or NULL when there is none.
   */
  method GetPort(defined: set<HwPort>, portName: Option<string>) returns (port: Option<PortHandle>)
    ensures portName.None? ==> port.None?
    ensures portName.Some? ==> port == PortNamed(defined, portName.value)
  {
    if portName.None? {
      return None;
    }
    var t := PortHandles(defined);
    var i := 0;
    while i < 8
      invariant 0 <= i <= 8 == |t|
      invariant forall j :: 0 <= j < i ==> t[j].name != portName.value
    {
      if t[i].name == portName.value {
        assert FirstPortNamed(t, portName.value) == Some(i) by {
          var r := FirstPortNamed(t, portName.value);
          assert r.Some?;
        }
        return Some(t[i]);
      }
      i := i + 1;
    }
    return None;
  }

  /** hal_gpio_get_port_by_index: NULL for an index of 8 or more, otherwise handle `index`. */
  function GetPortByIndex(defined: set<HwPort>, index: U8): (port: Option<PortHandle>)
    ensures port.Some? <==> index < 8
    ensures port.Some? ==> port.value == Entry(PortAt(index), Present(defined, PortAt(index)))
  {
    PortHandlesShape(defined);
    if index >= 8 then None else Some(PortHandles(defined)[index])
  }

  /** convert_gpio_mode: the six basic modes map to their vendor constants, the interrupt modes to input. */
  function ConvertMode(mode: GpioMode): (r: U32)
    ensures r == GPIO_MODE_INPUT <==>
              mode == ModeInput || mode == ModeItRising || mode == ModeItFalling || mode == ModeItRisingFalling
    ensures r in {GPIO_MODE_INPUT, GPIO_MODE_OUTPUT_PP, GPIO_MODE_OUTPUT_OD, GPIO_MODE_AF_PP, GPIO_MODE_AF_OD, GPIO_MODE_ANALOG}
  {
    match mode
    case ModeInput => GPIO_MODE_INPUT
    case ModeOutputPP => GPIO_MODE_OUTPUT_PP
    case ModeOutputOD => GPIO_MODE_OUTPUT_OD
    case ModeAfPP => GPIO_MODE_AF_PP
    case ModeAfOD => GPIO_MODE_AF_OD
    case ModeAnalog => GPIO_MODE_ANALOG
    case _ => GPIO_MODE_INPUT
  }

  /** convert_gpio_pull. */
  function ConvertPull(pull: GpioPull): (r: U32)
    ensures r in {GPIO_NOPULL, GPIO_PULLUP, GPIO_PULLDOWN}
  {
    match pull
    case NoPull => GPIO_NOPULL
    case PullUp => GPIO_PULLUP
    case PullDown => GPIO_PULLDOWN
  }

  /** convert_gpio_speed. */
  function ConvertSpeed(speed: GpioSpeed): (r: U32)
    ensures r in {GPIO_SPEED_FREQ_LOW, GPIO_SPEED_FREQ_MEDIUM, GPIO_SPEED_FREQ_HIGH, GPIO_SPEED_FREQ_VERY_HIGH}
  {
    match speed
    case SpeedLow => GPIO_SPEED_FREQ_LOW
    case SpeedMedium => GPIO_SPEED_FREQ_MEDIUM
    case SpeedHigh => GPIO_SPEED_FREQ_HIGH
    case SpeedVeryHigh => GPIO_SPEED_FREQ_VERY_HIGH
  }

  /**
   * The conversion tables: each basic mode, pull and speed setting goes to
   * the vendor constant of the same name, and the interrupt modes to input.
   */
  lemma ConversionTables()
    ensures ConvertMode(ModeInput) == GPIO_MODE_INPUT
    ensures ConvertMode(ModeOutputPP) == GPIO_MODE_OUTPUT_PP
    ensures ConvertMode(ModeOutputOD) == GPIO_MODE_OUTPUT_OD
    ensures ConvertMode(ModeAfPP) == GPIO_MODE_AF_PP
    ensures ConvertMode(ModeAfOD) == GPIO_MODE_AF_OD
    ensures ConvertMode(ModeAnalog) == GPIO_MODE_ANALOG
    ensures ConvertMode(ModeItRising) == ConvertMode(ModeItFalling) == ConvertMode(ModeItRisingFalling) == GPIO_MODE_INPUT
    ensures ConvertPull(NoPull) == GPIO_NOPULL && ConvertPull(PullUp) == GPIO_PULLUP && ConvertPull(PullDown) == GPIO_PULLDOWN
    ensures ConvertSpeed(SpeedLow) == GPIO_SPEED_FREQ_LOW && ConvertSpeed(SpeedMedium) == GPIO_SPEED_FREQ_MEDIUM
    ensures ConvertSpeed(SpeedHigh) == GPIO_SPEED_FREQ_HIGH && ConvertSpeed(SpeedVeryHigh) == GPIO_SPEED_FREQ_VERY_HIGH
  {
  }

  /** No two non-interrupt modes share a vendor constant, and pull and speed settings are kept apart. */
  lemma ConversionsInjective(m1: GpioMode, m2: GpioMode, p1: GpioPull, p2: GpioPull, s1: GpioSpeed, s2: GpioSpeed)
    ensures ConvertMode(m1) == ConvertMode(m2) && ConvertMode(m1) != GPIO_MODE_INPUT ==> m1 == m2
    ensures ConvertPull(p1) == ConvertPull(p2) ==> p1 == p2
    ensures ConvertSpeed(s1) == ConvertSpeed(s2) ==> s1 == s2
  {
  }

  /** The GPIO_InitTypeDef hal_gpio_init builds: Pin is `1U << init.pin`. */
  function VendorInitOf(init: GpioInit): VendorInit
  {
    VendorInit(CShl1(init.pin), ConvertMode(init.mode), ConvertPull(init.pull), ConvertSpeed(init.speed), init.alternate)
  }

  /** A non-NULL handle with a non-NULL hardware port. */
  predicate HasHw(port: Option<PortHandle>)
  {
    port.Some? && port.value.hwPort.Some?
  }

  function HwOf(port: Option<PortHandle>): HwPort
    requires HasHw(port)
  {
    port.value.hwPort.value
  }

  /** The arguments deinit, write_pin, read_pin and toggle_pin accept. */
  predicate PinArgsOk(port: Option<PortHandle>, pin: U16)
  {
    HasHw(port) && pin <= 15
  }

  /** hal_gpio_enable_port_clock: -1 without a hardware port, otherwise the port's clock-enable and 0. */
  method EnablePortClock(hw: Hardware, port: Option<PortHandle>) returns (rc: int)
    modifies hw
    ensures rc == (if HasHw(port) then 0 else -1)
    ensures hw.calls == old(hw.calls) + (if HasHw(port) then [GpioClkEnableCall(HwOf(port))] else [])
    ensures hw.odr == old(hw.odr)
  {
    if port.None? || port.value.hwPort.None? {
      return -1;
    }
    hw.Issue(GpioClkEnableCall(port.value.hwPort.value));
    return 0;
  }

  /** hal_gpio_disable_port_clock: -1 without a hardware port, otherwise the port's clock-disable and 0. */
  method DisablePortClock(hw: Hardware, port: Option<PortHandle>) returns (rc: int)
    modifies hw
    ensures rc == (if HasHw(port) then 0 else -1)
    ensures hw.calls == old(hw.calls) + (if HasHw(port) then [GpioClkDisableCall(HwOf(port))] else [])
    ensures hw.odr == old(hw.odr)
  {
    if port.None? || port.value.hwPort.None? {
      return -1;
    }
    hw.Issue(GpioClkDisableCall(port.value.hwPort.value));
    return 0;
  }

  /** The vendor calls hal_gpio_init makes. */
  function InitCalls(port: Option<PortHandle>, init: Option<GpioInit>): seq<VendorCall>
  {
    if HasHw(port) && init.Some? then [GpioInitCall(HwOf(port), VendorInitOf(init.value))] else []
  }

  /**
   * hal_gpio_init: -1 on a NULL port, hardware port or configuration;
   * otherwise one HAL_GPIO_Init with Pin = 1U << init.pin and the converted
   * mode, pull and speed, and 0.
   */
  method Init(hw: Hardware, port: Option<PortHandle>, init: Option<GpioInit>) returns (rc: int)
    modifies hw
    ensures rc == (if HasHw(port) && init.Some? then 0 else -1)
    ensures hw.calls == old(hw.calls) + InitCalls(port, init)
    ensures hw.odr == old(hw.odr)
  {
    if port.None? || port.value.hwPort.None? || init.None? {
      return -1;
    }
    var cfg := init.value;
    var gpioInit := VendorInit(CShl1(cfg.pin), ConvertMode(cfg.mode), ConvertPull(cfg.pull), ConvertSpeed(cfg.speed), cfg.alternate);
    hw.Issue(GpioInitCall(port.value.hwPort.value, gpioInit));
    return 0;
  }

  /** hal_gpio_deinit: -1 on bad arguments, otherwise HAL_GPIO_DeInit with mask 1 << pin and 0. */
  method DeInit(hw: Hardware, port: Option<PortHandle>, pin: U16) returns (rc: int)
    modifies hw
    ensures rc == (if PinArgsOk(port, pin) then 0 else -1)
    ensures hw.calls == old(hw.calls) + (if PinArgsOk(port, pin) then [GpioDeInitCall(HwOf(port), Pow2(pin))] else [])
    ensures hw.odr == old(hw.odr)
  {
    if port.None? || port.value.hwPort.None? || pin > 15 {
      return -1;
    }
    hw.Issue(GpioDeInitCall(port.value.hwPort.value, Pow2(pin)));
    return 0;
  }

  /** The vendor level hal_gpio_write_pin passes for a portable pin state. */
  function VendorLevel(state: GpioPinState): (r: VendorPinState)
    ensures r == GpioPinSet <==> state == PinSet
  {
    if state == PinSet then GpioPinSet else GpioPinReset
  }

  /** The vendor calls hal_gpio_write_pin makes. */
  function WritePinCalls(port: Option<PortHandle>, pin: U16, state: GpioPinState): seq<VendorCall>
  {
    if PinArgsOk(port, pin) then [GpioWritePinCall(HwOf(port), Pow2(pin), VendorLevel(state))] else []
  }

  /** hal_gpio_write_pin: -1 on bad arguments, otherwise HAL_GPIO_WritePin with mask 1 << pin and 0. */
  method WritePin(hw: Hardware, port: Option<PortHandle>, pin: U16, state: GpioPinState) returns (rc: int)
    modifies hw
    ensures rc == (if PinArgsOk(port, pin) then 0 else -1)
    ensures hw.calls == old(hw.calls) + WritePinCalls(port, pin, state)
    ensures hw.odr == old(hw.odr)
  {
    if port.None? || port.value.hwPort.None? || pin > 15 {
      return -1;
    }
    var pinState := if state == PinSet then GpioPinSet else GpioPinReset;
    hw.Issue(GpioWritePinCall(port.value.hwPort.value, Pow2(pin), pinState));
    return 0;
  }

  /**
   * hal_gpio_read_pin. `level` is what HAL_GPIO_ReadPin reports. RESET on bad
   * arguments, with no vendor call; otherwise SET exactly when the vendor
   * reports GPIO_PIN_SET.
   */
  method ReadPin(hw: Hardware, port: Option<PortHandle>, pin: U16, level: VendorPinState) returns (state: GpioPinState)
    modifies hw
    ensures state == PinSet <==> PinArgsOk(port, pin) && level == GpioPinSet
    ensures hw.calls == old(hw.calls) + (if PinArgsOk(port, pin) then [GpioReadPinCall(HwOf(port), Pow2(pin))] else [])
    ensures hw.odr == old(hw.odr)
  {
    if port.None? || port.value.hwPort.None? || pin > 15 {
      return PinReset;
    }
    hw.Issue(GpioReadPinCall(port.value.hwPort.value, Pow2(pin)));
    state := if level == GpioPinSet then PinSet else PinReset;
  }

  /** The vendor calls hal_gpio_toggle_pin makes. */
  function TogglePinCalls(port: Option<PortHandle>, pin: U16): seq<VendorCall>
  {
    if PinArgsOk(port, pin) then [GpioTogglePinCall(HwOf(port), Pow2(pin))] else []
  }

  /** hal_gpio_toggle_pin: -1 on bad arguments, otherwise HAL_GPIO_TogglePin with mask 1 << pin and 0. */
  method TogglePin(hw: Hardware, port: Option<PortHandle>, pin: U16) returns (rc: int)
    modifies hw
    ensures rc == (if PinArgsOk(port, pin) then 0 else -1)
    ensures hw.calls == old(hw.calls) + TogglePinCalls(port, pin)
    ensures hw.odr == old(hw.odr)
  {
    if port.None? || port.value.hwPort.None? || pin > 15 {
      return -1;
    }
    hw.Issue(GpioTogglePinCall(port.value.hwPort.value, Pow2(pin)));
    return 0;
  }

  /** hal_gpio_write_port: stores the value into the port's ODR; nothing on a NULL port. */
  method WritePort(hw: Hardware, port: Option<PortHandle>, value: bv16)
    modifies hw
    ensures hw.odr == if HasHw(port) then old(hw.odr)[HwOf(port) := value as bv32] else old(hw.odr)
    ensures hw.calls == old(hw.calls)
  {
    if port.None? || port.value.hwPort.None? {
      return;
    }
    hw.odr := hw.odr[port.value.hwPort.value := value as bv32];
  }

  /**
   * hal_gpio_read_port. `idr` is the value of the port's input data
   * register: its low 16 bits, or 0 on a NULL port.
   */
  method ReadPort(port: Option<PortHandle>, idr: bv32) returns (value: bv16)
    ensures HasHw(port) ==> value as bv32 == idr & 0xFFFF
    ensures !HasHw(port) ==> value == 0
  {
    if port.None? || port.value.hwPort.None? {
      return 0;
    }
    value := (idr & 0xFFFF) as bv16;
  }
}
