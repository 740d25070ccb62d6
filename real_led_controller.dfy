/**
 * The LED controller of the unit-test fixtures that drives the vendor HAL:
 * the same one-bit state as LedController, with one vendor call per command.
 * `pin` is handed to the vendor unchanged, as its Pin mask.
 */
module RealLedController {
  import opened Wrappers
  import opened Bits
  import opened VendorHal
  import opened LedController

  /** The GPIO_InitTypeDef init fills: the pin, push-pull output, no pull, low speed, the rest zero. */
  function InitRecord(pin: U16): (r: VendorInit)
    ensures r.pin == Some(pin)
    ensures r.mode == GPIO_MODE_OUTPUT_PP && r.pull == GPIO_NOPULL && r.speed == GPIO_SPEED_FREQ_LOW
    ensures r.alternate == 0
  {
    VendorInit(Some(pin), GPIO_MODE_OUTPUT_PP, GPIO_NOPULL, GPIO_SPEED_FREQ_LOW, 0)
  }

  /** The vendor call that accompanies a command. */
  function CommandCall(port: HwPort, pin: U16, c: LedCommand): (r: VendorCall)
    ensures c == Toggle ==> r == GpioTogglePinCall(port, pin)
    ensures c == TurnOn ==> r == GpioWritePinCall(port, pin, GpioPinSet)
    ensures c == TurnOff ==> r == GpioWritePinCall(port, pin, GpioPinReset)
  {
    match c
    case Toggle => GpioTogglePinCall(port, pin)
    case TurnOn => GpioWritePinCall(port, pin, GpioPinSet)
    case TurnOff => GpioWritePinCall(port, pin, GpioPinReset)
  }

  /** The vendor calls accompanying a command sequence, in order. */
  function CommandCalls(port: HwPort, pin: U16, cs: seq<LedCommand>): (r: seq<VendorCall>)
    ensures |r| == |cs|
    ensures forall i :: 0 <= i < |cs| ==> r[i] == CommandCall(port, pin, cs[i])
  {
    if cs == [] then [] else [CommandCall(port, pin, cs[0])] + CommandCalls(port, pin, cs[1..])
  }

  /** A write call, as opposed to an init, toggle or read. */
  predicate IsWrite(c: VendorCall)
  {
    c.GpioWritePinCall?
  }

  /** Only turnOn and turnOff write the pin, and they write the level the new state names. */
  lemma WritesFollowState(port: HwPort, pin: U16, on: bool, c: LedCommand)
    ensures IsWrite(CommandCall(port, pin, c)) <==> c != Toggle
    ensures IsWrite(CommandCall(port, pin, c)) ==>
              (CommandCall(port, pin, c).state == GpioPinSet <==> Step(on, c))
  {
  }

  class RealLedController {
    const port: HwPort
    const pin: U16
    var state: bool

    /** A new controller is off and has made no vendor call. */
    constructor(port: HwPort, pin: U16)
      ensures this.port == port && this.pin == pin && !state
    {
      this.port := port;
      this.pin := pin;
      state := false;
    }

    /** init makes exactly one HAL_GPIO_Init call and leaves the state alone. */
    method Init(hw: Hardware)
      modifies hw
      ensures hw.calls == old(hw.calls) + [GpioInitCall(port, InitRecord(pin))]
      ensures hw.odr == old(hw.odr)
      ensures state == old(state)
    {
      hw.Issue(GpioInitCall(port, InitRecord(pin)));
    }

    method Toggle(hw: Hardware)
      modifies this, hw
      ensures state == Step(old(state), LedCommand.Toggle)
      ensures hw.calls == old(hw.calls) + [CommandCall(port, pin, LedCommand.Toggle)]
      ensures hw.odr == old(hw.odr)
    {
      state := !state;
      hw.Issue(GpioTogglePinCall(port, pin));
    }

    method TurnOn(hw: Hardware)
      modifies this, hw
      ensures state == Step(old(state), LedCommand.TurnOn)
      ensures hw.calls == old(hw.calls) + [CommandCall(port, pin, LedCommand.TurnOn)]
      ensures hw.odr == old(hw.odr)
    {
      state := true;
      hw.Issue(GpioWritePinCall(port, pin, GpioPinSet));
    }

    method TurnOff(hw: Hardware)
      modifies this, hw
      ensures state == Step(old(state), LedCommand.TurnOff)
      ensures hw.calls == old(hw.calls) + [CommandCall(port, pin, LedCommand.TurnOff)]
      ensures hw.odr == old(hw.odr)
    {
      state := false;
      hw.Issue(GpioWritePinCall(port, pin, GpioPinReset));
    }

    /**
     * isOn reports the tracked state and makes no vendor call; it is the
     * same accessor as LedController's, on a class of its own as in the source.
     */
    method IsOn() returns (on: bool)
      ensures on == state
    {
      on := state;
    }

    /**
     * readHardwareState makes one HAL_GPIO_ReadPin call and reports whether
     * the vendor answered GPIO_PIN_SET (`level`); the tracked state does not
     * follow it.
     */
    method ReadHardwareState(hw: Hardware, level: VendorPinState) returns (on: bool)
      modifies hw
      ensures on <==> level == GpioPinSet
      ensures hw.calls == old(hw.calls) + [GpioReadPinCall(port, pin)]
      ensures hw.odr == old(hw.odr)
      ensures state == old(state)
    {
      hw.Issue(GpioReadPinCall(port, pin));
      on := level == GpioPinSet;
    }
  }
}
