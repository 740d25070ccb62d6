/**
 * The board-support package of the NUCLEO-L432KC board
 * (src/bsp/stm32l4xx/bsp_stm32l432kc.cpp): its pin table, the two pin
 * lookups, the function-to-configuration policy of bsp_configure_pin, and the
 * return-code sequencing of bsp_init and bsp_init_debug_uart.
 */
module BspL432KC {
  import opened Wrappers
  import opened Bits
  import opened VendorHal
  import opened GpioTypes
  import opened BspTypes
  import opened GpioL4

  const LedUserPin := PinDescriptor("LED_USER", "GPIOB", 3, Led, 0, true)
  const DebugTxPin := PinDescriptor("DEBUG_TX", "GPIOA", 2, DebugTx, 7, true)
  const DebugRxPin := PinDescriptor("DEBUG_RX", "GPIOA", 15, DebugRx, 3, true)
  const Spi1SckPin := PinDescriptor("SPI1_SCK", "GPIOA", 5, SpiSck, 5, true)
  const Spi1MisoPin := PinDescriptor("SPI1_MISO", "GPIOA", 6, SpiMiso, 5, true)
  const Spi1MosiPin := PinDescriptor("SPI1_MOSI", "GPIOA", 7, SpiMosi, 5, true)
  const I2c1SclPin := PinDescriptor("I2C1_SCL", "GPIOB", 6, I2cScl, 4, true)
  const I2c1SdaPin := PinDescriptor("I2C1_SDA", "GPIOB", 7, I2cSda, 4, true)

  /** stm32l432kc_pins, in table order. */
  const Pins: seq<PinDescriptor> :=
    [LedUserPin, DebugTxPin, DebugRxPin, Spi1SckPin, Spi1MisoPin, Spi1MosiPin, I2c1SclPin, I2c1SdaPin]

  /** stm32l432kc_clock_config: 16 MHz HSI, no external crystals, 80 MHz on every bus. */
  const Clocks := ClockConfig(16000000, 0, 32000, 0, 80000000, 80000000, 80000000, 80000000, false, false)

  /** stm32l432kc_config; pin_count is the number of table entries. */
  const Config := BoardConfig("NUCLEO-L432KC", "STM32L432KC", Stm32L4xx, 256, 64, |Pins|, Pins, Clocks)

  /** The descriptor bsp_get_pin_config returns for a name. */
  function PinNamed(pinName: string): Option<PinDescriptor>
  {
    At(Pins, FirstNamed(Pins, pinName))
  }

  /** The descriptor bsp_get_pin_config_by_function returns for a function and instance. */
  function PinByFunction(f: PinFunction, instance: nat): Option<PinDescriptor>
  {
    At(Pins, NthMatch(Tags(Pins), f, instance))
  }

  /** bsp_get_pin_config on this board's table. */
  method GetPinConfig(pinName: string) returns (r: Option<PinDescriptor>)
    ensures r == PinNamed(pinName)
  {
    r := ScanByName(Config, pinName);
  }

  /** bsp_get_pin_config_by_function on this board's table. */
  method GetPinConfigByFunction(f: PinFunction, instance: U8) returns (r: Option<PinDescriptor>)
    ensures r == PinByFunction(f, instance)
  {
    r := ScanByFunction(Config, f, instance);
  }

  /** Functions driven as high-speed alternate-function outputs. */
  predicate HighSpeedFunction(f: PinFunction)
  {
    f == DebugTx || f == UartTx || f == SpiSck || f == SpiMosi || f == I2cScl || f == I2cSda
  }

  /** Functions configured as alternate-function inputs with a pull-up. */
  predicate PulledUpFunction(f: PinFunction)
  {
    f == DebugRx || f == UartRx || f == SpiMiso
  }

  /** The hal_gpio_init_t bsp_configure_pin builds for a descriptor (its meaning is PinPolicy). */
  function PinConfigFor(d: PinDescriptor): GpioInit
  {
    Pow2Below16(d.pin);
    var base := GpioInit(Pow2(d.pin), ModeInput, NoPull, SpeedLow, d.alternateFunction);
    match d.pinFunction
    case Led => base.(mode := ModeOutputPP)
    case DebugTx => base.(mode := ModeAfPP, speed := SpeedHigh)
    case UartTx => base.(mode := ModeAfPP, speed := SpeedHigh)
    case SpiSck => base.(mode := ModeAfPP, speed := SpeedHigh)
    case SpiMosi => base.(mode := ModeAfPP, speed := SpeedHigh)
    case I2cScl => base.(mode := ModeAfPP, speed := SpeedHigh)
    case I2cSda => base.(mode := ModeAfPP, speed := SpeedHigh)
    case DebugRx => base.(mode := ModeAfPP, pull := PullUp)
    case UartRx => base.(mode := ModeAfPP, pull := PullUp)
    case SpiMiso => base.(mode := ModeAfPP, pull := PullUp)
    case Button => base.(mode := ModeInput, pull := if d.activeHigh then PullDown else PullUp)
    case _ => base.(mode := ModeInput)
  }

  /**
   * The configuration policy of bsp_configure_pin: pin is the mask
   * 1U << pin (not the pin number) and alternate is copied; LED pins are
   * push-pull outputs; TX-like pins are high-speed alternate functions;
   * RX-like pins are alternate functions with a pull-up; a BUTTON is an
   * input pulled away from its active level; every other function is an
   * input; pull is NOPULL and speed LOW unless stated.
   */
  lemma PinPolicy(d: PinDescriptor)
    ensures PinConfigFor(d).pin == Pow2(d.pin) && PinConfigFor(d).alternate == d.alternateFunction
    ensures PinConfigFor(d).mode == ModeOutputPP <==> d.pinFunction == Led
    ensures PinConfigFor(d).mode == ModeAfPP <==> HighSpeedFunction(d.pinFunction) || PulledUpFunction(d.pinFunction)
    ensures PinConfigFor(d).mode == ModeInput <==> d.pinFunction == Button || d.pinFunction == SpiCs || d.pinFunction == Custom
    ensures PinConfigFor(d).speed == SpeedHigh <==> HighSpeedFunction(d.pinFunction)
    ensures PinConfigFor(d).speed == SpeedLow <==> !HighSpeedFunction(d.pinFunction)
    ensures PinConfigFor(d).pull == PullUp <==> PulledUpFunction(d.pinFunction) || (d.pinFunction == Button && !d.activeHigh)
    ensures PinConfigFor(d).pull == PullDown <==> d.pinFunction == Button && d.activeHigh
  {
  }

  /** The port lookup bsp_configure_pin performs for a descriptor. */
  function PortFor(defined: set<HwPort>, d: PinDescriptor): Option<PortHandle>
  {
    PortNamed(defined, d.portName)
  }

  /**
   * bsp_configure_pin's return code: -1 for a NULL descriptor, -2 for an
   * unknown port name, otherwise hal_gpio_init's result, which is also -1
   * when the port exists but the device does not provide it.
   */
  function ConfigureCode(defined: set<HwPort>, desc: Option<PinDescriptor>): (rc: int)
    ensures rc == -1 || rc == -2 || rc == 0
  {
    if desc.None? then -1
    else
      var port := PortFor(defined, desc.value);
      if port.None? then -2
      else if port.value.hwPort.None? then -1
      else 0
  }

  /**
   * The codes in terms of the descriptor's port name: -2 exactly for a name
   * that is none of GPIOA..GPIOH, 0 exactly for a port the device provides,
   * and -1 for a NULL descriptor and for a port the device lacks.
   */
  lemma ConfigureCodeMeaning(defined: set<HwPort>, desc: Option<PinDescriptor>)
    ensures ConfigureCode(defined, desc) == -2 <==> desc.Some? && PortOfName(desc.value.portName).None?
    ensures ConfigureCode(defined, desc) == 0 <==>
              desc.Some? && PortOfName(desc.value.portName).Some? && Present(defined, PortOfName(desc.value.portName).value)
    ensures desc.None? ==> ConfigureCode(defined, desc) == -1
  {
    if desc.Some? {
      PortNamedMeaning(defined, desc.value.portName);
    }
  }

  /** The vendor calls bsp_configure_pin makes: the port clock-enable, then the GPIO init. */
  function ConfigureCalls(defined: set<HwPort>, desc: Option<PinDescriptor>): seq<VendorCall>
  {
    if desc.Some? && HasHw(PortFor(defined, desc.value)) then
      var p := HwOf(PortFor(defined, desc.value));
      [GpioClkEnableCall(p), GpioInitCall(p, VendorInitOf(PinConfigFor(desc.value)))]
    else []
  }

  /**
   * bsp_configure_pin has a vendor effect exactly when it succeeds: the
   * named port's clock is enabled, and only then is the pin initialised with
   * the converted policy configuration.
   */
  lemma ConfigureEffect(defined: set<HwPort>, desc: Option<PinDescriptor>)
    ensures ConfigureCode(defined, desc) != 0 ==> ConfigureCalls(defined, desc) == []
    ensures ConfigureCode(defined, desc) == 0 ==>
              var p := PortOfName(desc.value.portName).value;
              ConfigureCalls(defined, desc) == [GpioClkEnableCall(p), GpioInitCall(p, VendorInitOf(PinConfigFor(desc.value)))]
  {
    if desc.Some? {
      PortNamedMeaning(defined, desc.value.portName);
    }
  }

  /**
   * bsp_configure_pin: look up the port, enable its clock (ignoring the
   * result), build the policy configuration and return hal_gpio_init's code.
   */
  method ConfigurePin(defined: set<HwPort>, hw: Hardware, desc: Option<PinDescriptor>) returns (rc: int)
    modifies hw
    ensures rc == ConfigureCode(defined, desc)
    ensures hw.calls == old(hw.calls) + ConfigureCalls(defined, desc)
    ensures hw.odr == old(hw.odr)
  {
    if desc.None? {
      return -1;
    }
    var d := desc.value;
    var port := GetPort(defined, Some(d.portName));
    if port.None? {
      return -2;
    }
    var _ := EnablePortClock(hw, port);
    var gpioConfig := PinConfigFor(d);
    rc := Init(hw, port, Some(gpioConfig));
  }

  /**
   * The pin field is shifted twice, once by bsp_configure_pin and again by
   * hal_gpio_init, so the vendor mask never selects the descriptor's pin:
   * it is 1 << (1 << pin), and it is undefined (a shift by 32 or more) for
   * pins 5 and above.
   */
  lemma VendorMaskMissesPin(d: PinDescriptor)
    ensures VendorInitOf(PinConfigFor(d)).pin == CShl1(Pow2(d.pin))
    ensures VendorInitOf(PinConfigFor(d)).pin != Some(Pow2(d.pin))
    ensures VendorInitOf(PinConfigFor(d)).pin.Some? <==> d.pin < 5
  {
    Pow2ExceedsExponent(d.pin);
    if VendorInitOf(PinConfigFor(d)).pin == Some(Pow2(d.pin)) {
      Pow2Injective(Pow2(d.pin), d.pin);
    }
    if d.pin < 4 {
      Pow2Monotone(d.pin, 4);
    } else if d.pin > 5 {
      Pow2Monotone(5, d.pin);
    }
  }

  /** The user LED on PB3 is configured with vendor mask 1 << 8, i.e. pin 8. */
  lemma LedUserVendorMask()
    ensures VendorInitOf(PinConfigFor(LedUserPin)).pin == Some(0x100)
  {
    assert Pow2(3) == 8;
    assert Pow2(8) == 0x100;
  }

  /** Every entry of the table names GPIOA or GPIOB, so each configures to 0 on any device. */
  lemma TableConfigures(defined: set<HwPort>)
    ensures forall i :: 0 <= i < |Pins| ==> ConfigureCode(defined, Some(Pins[i])) == 0
  {
    forall i | 0 <= i < |Pins|
      ensures ConfigureCode(defined, Some(Pins[i])) == 0
    {
      ConfigureCodeMeaning(defined, Some(Pins[i]));
      assert PortOfName(Pins[i].portName) == Some(GPIOA) || PortOfName(Pins[i].portName) == Some(GPIOB);
    }
  }

  /** The table has 8 entries; the first (and only) LED is LED_USER on PB3, active high. */
  lemma LedLookup()
    ensures Config.pinCount == 8
    ensures PinByFunction(Led, 0) == Some(LedUserPin) == PinNamed("LED_USER")
    ensures LedUserPin.name == "LED_USER" && LedUserPin.portName == "GPIOB" && LedUserPin.pin == 3 && LedUserPin.activeHigh
    ensures forall k :: k >= 1 ==> PinByFunction(Led, k).None?
  {
    var t := Tags(Pins);
    var rest := t[1..];
    assert forall j :: 0 <= j < |rest| ==> rest[j] != Led;
    FirstNamedAt(Pins, "LED_USER", 0);
  }

  /** The board has no BUTTON and no UART_TX pin. */
  lemma AbsentFunctions()
    ensures forall k :: PinByFunction(Button, k).None?
    ensures forall k :: PinByFunction(UartTx, k).None?
  {
    var t := Tags(Pins);
    assert forall j :: 0 <= j < |t| ==> t[j] != Button && t[j] != UartTx;
  }

  /** DEBUG_TX and DEBUG_RX are the second and third entries. */
  lemma DebugPinLookups()
    ensures PinNamed("DEBUG_TX") == Some(DebugTxPin)
    ensures PinNamed("DEBUG_RX") == Some(DebugRxPin)
  {
    assert Pins[0].name[0] != "DEBUG_TX"[0];
    FirstNamedAt(Pins, "DEBUG_TX", 1);
    assert Pins[1].name[6] != "DEBUG_RX"[6];
    FirstNamedAt(Pins, "DEBUG_RX", 2);
  }

  /** The vendor calls bsp_init_debug_uart makes, given the results of its two name lookups. */
  function DebugUartCalls(defined: set<HwPort>, tx: Option<PinDescriptor>, rx: Option<PinDescriptor>): seq<VendorCall>
  {
    [Usart2ClkEnableCall] + (if tx.Some? && rx.Some? then ConfigureCalls(defined, tx) + ConfigureCalls(defined, rx) else [])
  }

  /**
   * On this table bsp_init_debug_uart enables USART2's clock and then the
   * GPIOA clock and pin configuration of DEBUG_TX, then of DEBUG_RX.
   */
  lemma DebugUartSequence(defined: set<HwPort>)
    ensures DebugUartCalls(defined, PinNamed("DEBUG_TX"), PinNamed("DEBUG_RX")) ==
              [ Usart2ClkEnableCall,
                GpioClkEnableCall(GPIOA), GpioInitCall(GPIOA, VendorInitOf(PinConfigFor(DebugTxPin))),
                GpioClkEnableCall(GPIOA), GpioInitCall(GPIOA, VendorInitOf(PinConfigFor(DebugRxPin))) ]
  {
    DebugPinLookups();
    ConfigureEffect(defined, Some(DebugTxPin));
    ConfigureEffect(defined, Some(DebugRxPin));
  }

  /** PA2 becomes a high-speed AF7 output and PA15 an AF3 input with pull-up. */
  lemma DebugPinConfigs()
    ensures PinConfigFor(DebugTxPin) == GpioInit(4, ModeAfPP, NoPull, SpeedHigh, 7)
    ensures PinConfigFor(DebugRxPin) == GpioInit(0x8000, ModeAfPP, PullUp, SpeedLow, 3)
  {
    assert Pow2(2) == 4;
    assert Pow2(8) == 0x100;
    Pow2Add(8, 7);
    assert Pow2(7) == 0x80;
  }

  /**
   * bsp_init_debug_uart: enable USART2's clock, look up DEBUG_TX and
   * DEBUG_RX, configure TX then RX only when both are found, ignore their
   * codes, and return 0.
   */
  method InitDebugUart(defined: set<HwPort>, hw: Hardware) returns (rc: int)
    modifies hw
    ensures rc == 0
    ensures hw.calls == old(hw.calls) + DebugUartCalls(defined, PinNamed("DEBUG_TX"), PinNamed("DEBUG_RX"))
    ensures hw.odr == old(hw.odr)
  {
    DebugPinLookups();
    hw.Issue(Usart2ClkEnableCall);
    var txPin := GetPinConfig("DEBUG_TX");
    var rxPin := GetPinConfig("DEBUG_RX");
    if txPin.Some? && rxPin.Some? {
      var _ := ConfigurePin(defined, hw, txPin);
      var _ := ConfigurePin(defined, hw, rxPin);
    }
    return 0;
  }

  /**
   * bsp_init's return code: -1 when HAL_Init fails, -2 when the clock setup
   * fails, -3 when the debug UART setup fails (which it never does), else 0.
   */
  function InitCode(halInit: HalStatus, clockRc: int, uartRc: int): (rc: int)
    ensures rc == 0 <==> halInit == HalOk && clockRc == 0 && uartRc == 0
    ensures rc == -1 <==> halInit != HalOk
    ensures rc == -2 <==> halInit == HalOk && clockRc != 0
    ensures rc == -3 <==> halInit == HalOk && clockRc == 0 && uartRc != 0
  {
    if halInit != HalOk then -1
    else if clockRc != 0 then -2
    else if uartRc != 0 then -3
    else 0
  }

  /**
   * bsp_init: HAL_Init (its status is `halInit`), then the clock setup (its
   * code is `clockRc`), then the debug UART, stopping at the first failure.
   */
  method BspInit(defined: set<HwPort>, hw: Hardware, halInit: HalStatus, clockRc: int) returns (rc: int)
    modifies hw
    ensures rc == InitCode(halInit, clockRc, 0)
    ensures hw.calls == old(hw.calls) + [HalInitCall] +
              (if halInit == HalOk && clockRc == 0
               then DebugUartCalls(defined, PinNamed("DEBUG_TX"), PinNamed("DEBUG_RX"))
               else [])
    ensures hw.odr == old(hw.odr)
  {
    hw.Issue(HalInitCall);
    if halInit != HalOk {
      return -1;
    }
    if clockRc != 0 {
      return -2;
    }
    var uartRc := InitDebugUart(defined, hw);
    if uartRc != 0 {
      return -3;
    }
    return 0;
  }
}
