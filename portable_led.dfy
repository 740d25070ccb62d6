/**
 * The portable LED application: it finds the board's first LED through the
 * BSP, configures it through the portable GPIO layer, and drives it with
 * the board's polarity. The two file-scope handles it keeps are the fields
 * of `PortableLedApp`.
 *
 * The pin argument the application hands to hal_gpio_init, hal_gpio_write_pin
 * and hal_gpio_toggle_pin is the mask 1U << pin, not the pin number; the
 * model keeps that, and `MaskAsPin` states its consequence.
 */
module PortableLed {
  import opened Wrappers
  import opened Bits
  import opened VendorHal
  import opened GpioTypes
  import opened BspTypes
  import opened GpioL4
  import opened BspL432KC

  /** FreeRTOS's pdPASS. */
  const PdPass: int := 1

  /** The mask 1U << pin the application computes from a descriptor. */
  function Mask(d: PinDescriptor): (m: U16)
    ensures m == Pow2(d.pin)
  {
    Pow2Below16(d.pin);
    Pow2(d.pin)
  }

  /** The hal_gpio_init_t portable_led_init fills. */
  function LedConfig(d: PinDescriptor): GpioInit
  {
    GpioInit(Mask(d), ModeOutputPP, NoPull, SpeedLow, 0)
  }

  /** The level that shows the LED as `on` under the board's polarity. */
  function DriveLevel(activeHigh: bool, on: bool): (r: GpioPinState)
    ensures r == PinSet <==> on == activeHigh
  {
    if activeHigh then
      (if on then PinSet else PinReset)
    else
      (if on then PinReset else PinSet)
  }

  /** The LED descriptor the BSP's function lookup yields for a board table. */
  function LedOf(board: BoardConfig): Option<PinDescriptor>
  {
    At(board.pins, NthMatch(Tags(board.pins), Led, 0))
  }

  /**
   * portable_led_init's return code: -1 without an LED, -2 when its port
   * name is unknown, -3 when the port has no hardware block so the clock
   * enable fails; hal_gpio_init then cannot fail, so -4 never occurs.
   */
  function LedInitCode(defined: set<HwPort>, led: Option<PinDescriptor>): (rc: int)
    ensures rc in {-1, -2, -3, 0}
    ensures rc == -1 <==> led.None?
  {
    if led.None? then -1
    else
      var port := PortNamed(defined, led.value.portName);
      if port.None? then -2
      else if !HasHw(port) then -3
      else 0
  }

  /** The codes in terms of the port name: unknown name -2, known but absent port -3. */
  lemma LedInitCodeMeaning(defined: set<HwPort>, d: PinDescriptor)
    ensures LedInitCode(defined, Some(d)) == -2 <==> PortOfName(d.portName).None?
    ensures LedInitCode(defined, Some(d)) == 0 <==>
              PortOfName(d.portName).Some? && Present(defined, PortOfName(d.portName).value)
  {
    PortNamedMeaning(defined, d.portName);
  }

  /**
   * The vendor calls of portable_led_init: none on failure; otherwise the
   * port clock enable, the HAL_GPIO_Init of LedConfig, and then the write of
   * the "off" level with the mask passed as the pin number.
   */
  function LedInitCalls(defined: set<HwPort>, led: Option<PinDescriptor>): seq<VendorCall>
  {
    if LedInitCode(defined, led) != 0 then []
    else
      var d := led.value;
      var port := PortNamed(defined, d.portName);
      [GpioClkEnableCall(HwOf(port)), GpioInitCall(HwOf(port), VendorInitOf(LedConfig(d)))]
      + WritePinCalls(port, Mask(d), DriveLevel(d.activeHigh, false))
  }

  /** The vendor calls of portable_led_set. */
  function SetCalls(port: Option<PortHandle>, config: Option<PinDescriptor>, on: bool): seq<VendorCall>
  {
    if port.None? || config.None? then []
    else WritePinCalls(port, Mask(config.value), DriveLevel(config.value.activeHigh, on))
  }

  /** The vendor calls of portable_led_toggle. */
  function ToggleCalls(port: Option<PortHandle>, config: Option<PinDescriptor>): seq<VendorCall>
  {
    if port.None? || config.None? then [] else TogglePinCalls(port, Mask(config.value))
  }

  /** portable_app_init's return code: the first failure among the BSP, the LED and the task. */
  function AppCode(bspRc: int, ledRc: int, taskResult: int): (rc: int)
    ensures rc == -1 <==> bspRc != 0
    ensures rc == -2 <==> bspRc == 0 && ledRc != 0
    ensures rc == -3 <==> bspRc == 0 && ledRc == 0 && taskResult != PdPass
    ensures rc == 0 <==> bspRc == 0 && ledRc == 0 && taskResult == PdPass
  {
    if bspRc != 0 then -1
    else if ledRc != 0 then -2
    else if taskResult != PdPass then -3
    else 0
  }

  class PortableLedApp {
    var ledPort: Option<PortHandle>
    var ledPinConfig: Option<PinDescriptor>

    /** Both handles start out NULL. */
    constructor()
      ensures ledPort == None && ledPinConfig == None
    {
      ledPort := None;
      ledPinConfig := None;
    }

    /**
     * portable_led_init against a board's pin table. The descriptor handle
     * is always overwritten; the port handle only once an LED was found.
     */
    method LedInit(defined: set<HwPort>, hw: Hardware, board: BoardConfig) returns (rc: int)
      requires WellCounted(board)
      modifies this, hw
      ensures rc == LedInitCode(defined, LedOf(board))
      ensures hw.calls == old(hw.calls) + LedInitCalls(defined, LedOf(board))
      ensures hw.odr == old(hw.odr)
      ensures ledPinConfig == LedOf(board)
      ensures ledPort == if LedOf(board).None? then old(ledPort) else PortNamed(defined, LedOf(board).value.portName)
    {
      ledPinConfig := ScanByFunction(board, Led, 0);
      if ledPinConfig.None? {
        return -1;
      }
      var d := ledPinConfig.value;
      ledPort := GetPort(defined, Some(d.portName));
      if ledPort.None? {
        return -2;
      }
      var clockRc := EnablePortClock(hw, ledPort);
      if clockRc != 0 {
        return -3;
      }
      var initRc := Init(hw, ledPort, Some(LedConfig(d)));
      if initRc != 0 {
        return -4;
      }
      var initial := if d.activeHigh then PinReset else PinSet;
      var _ := WritePin(hw, ledPort, Mask(d), initial);
      return 0;
    }

    /** portable_led_set: nothing without both handles; otherwise one write with the mask as pin. */
    method LedSet(hw: Hardware, on: bool)
      modifies hw
      ensures hw.calls == old(hw.calls) + SetCalls(ledPort, ledPinConfig, on)
      ensures hw.odr == old(hw.odr)
    {
      if ledPort.None? || ledPinConfig.None? {
        return;
      }
      var d := ledPinConfig.value;
      var level: GpioPinState;
      if d.activeHigh {
        level := if on then PinSet else PinReset;
      } else {
        level := if on then PinReset else PinSet;
      }
      var _ := WritePin(hw, ledPort, Mask(d), level);
    }

    /** portable_led_toggle: nothing without both handles; otherwise one toggle with the mask as pin. */
    method LedToggle(hw: Hardware)
      modifies hw
      ensures hw.calls == old(hw.calls) + ToggleCalls(ledPort, ledPinConfig)
      ensures hw.odr == old(hw.odr)
    {
      if ledPort.None? || ledPinConfig.None? {
        return;
      }
      var _ := TogglePin(hw, ledPort, Mask(ledPinConfig.value));
    }

    /**
     * portable_app_init on the NUCLEO-L432KC build: bsp_init, then the LED,
     * then the task creation, whose result is `taskResult`.
     */
    method AppInit(defined: set<HwPort>, hw: Hardware, halInit: HalStatus, clockRc: int, taskResult: int)
      returns (rc: int)
      modifies this, hw
      ensures rc == AppCode(InitCode(halInit, clockRc, 0), LedInitCode(defined, LedOf(Config)), taskResult)
      ensures hw.calls == old(hw.calls) + [HalInitCall] +
                (if halInit == HalOk && clockRc == 0
                 then DebugUartCalls(defined, PinNamed("DEBUG_TX"), PinNamed("DEBUG_RX"))
                      + LedInitCalls(defined, LedOf(Config))
                 else [])
      ensures hw.odr == old(hw.odr)
      ensures !(halInit == HalOk && clockRc == 0) ==> ledPort == old(ledPort) && ledPinConfig == old(ledPinConfig)
      ensures halInit == HalOk && clockRc == 0 ==>
                ledPinConfig == LedOf(Config) &&
                ledPort == if LedOf(Config).None? then old(ledPort) else PortNamed(defined, LedOf(Config).value.portName)
    {
      var bspRc := BspInit(defined, hw, halInit, clockRc);
      if bspRc != 0 {
        return -1;
      }
      var ledRc := LedInit(defined, hw, Config);
      if ledRc != 0 {
        return -2;
      }
      if taskResult != PdPass {
        return -3;
      }
      return 0;
    }
  }

  /**
   * The mask handed over as a pin number never addresses the LED's own pin:
   * for pins 4 and above it exceeds 15 and the HAL refuses it without a
   * vendor call; below that the vendor mask is 1 << (1 << pin).
   */
  lemma MaskAsPin(port: Option<PortHandle>, d: PinDescriptor, level: GpioPinState)
    ensures d.pin >= 4 ==> WritePinCalls(port, Mask(d), level) == [] && TogglePinCalls(port, Mask(d)) == []
    ensures forall c :: c in WritePinCalls(port, Mask(d), level) ==> c.pinMask != Pow2(d.pin)
    ensures forall c :: c in TogglePinCalls(port, Mask(d)) ==> c.pinMask != Pow2(d.pin)
  {
    if d.pin > 4 {
      Pow2Monotone(4, d.pin);
    }
    assert Pow2(4) == 16;
    Pow2ExceedsExponent(d.pin);
    if Pow2(Pow2(d.pin)) == Pow2(d.pin) {
      Pow2Injective(Pow2(d.pin), d.pin);
    }
  }

  /** LedConfig's pin goes through hal_gpio_init's shift again, so HAL_GPIO_Init never gets 1 << pin. */
  lemma LedConfigMissesPin(d: PinDescriptor)
    ensures VendorInitOf(LedConfig(d)).pin == CShl1(Pow2(d.pin))
    ensures VendorInitOf(LedConfig(d)).pin != Some(Pow2(d.pin))
  {
    Pow2ExceedsExponent(d.pin);
    if VendorInitOf(LedConfig(d)).pin == Some(Pow2(d.pin)) {
      Pow2Injective(Pow2(d.pin), d.pin);
    }
  }

  /**
   * On the NUCLEO-L432KC the LED is PB3, so initialisation succeeds, and the
   * configuration and the "off" write both address pin 8 (mask 0x100) of GPIOB.
   */
  lemma L432LedInit(defined: set<HwPort>)
    ensures LedOf(Config) == Some(LedUserPin)
    ensures LedInitCode(defined, LedOf(Config)) == 0
    ensures LedInitCalls(defined, LedOf(Config)) ==
              [GpioClkEnableCall(GPIOB),
               GpioInitCall(GPIOB, VendorInit(Some(0x100), GPIO_MODE_OUTPUT_PP, GPIO_NOPULL, GPIO_SPEED_FREQ_LOW, 0)),
               GpioWritePinCall(GPIOB, 0x100, GpioPinReset)]
  {
    LedLookup();
    LedInitCodeMeaning(defined, LedUserPin);
    PortNamedMeaning(defined, "GPIOB");
    assert Pow2(3) == 8;
    assert Pow2(8) == 0x100;
  }

  /** After a successful init on this board, setting the LED writes mask 0x100 of GPIOB, SET for on. */
  lemma L432LedSet(defined: set<HwPort>, on: bool)
    ensures SetCalls(PortNamed(defined, "GPIOB"), Some(LedUserPin), on) ==
              [GpioWritePinCall(GPIOB, 0x100, if on then GpioPinSet else GpioPinReset)]
  {
    PortNamedMeaning(defined, "GPIOB");
    assert Pow2(3) == 8;
    assert Pow2(8) == 0x100;
  }
}
