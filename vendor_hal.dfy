/**
 * The vendor HAL boundary as seen by the host-side test build
 * (tests/fixtures/stm32l4xx_hal.h): status and pin-state types, the numeric
 * GPIO constants, the eight GPIO port blocks, and a record of every vendor
 * entry point the portable layers call.
 */
module VendorHal {
  import opened Wrappers
  import opened Bits

  /** HAL_StatusTypeDef. */
  datatype HalStatus = HalOk | HalError | HalBusy | HalTimeout

  /** GPIO_PinState. */
  datatype VendorPinState = GpioPinReset | GpioPinSet

  // GPIO_mode_define
  const GPIO_MODE_INPUT: U32 := 0x00
  const GPIO_MODE_OUTPUT_PP: U32 := 0x01
  const GPIO_MODE_OUTPUT_OD: U32 := 0x11
  const GPIO_MODE_AF_PP: U32 := 0x02
  const GPIO_MODE_AF_OD: U32 := 0x12
  const GPIO_MODE_ANALOG: U32 := 0x03

  // GPIO_pull_define
  const GPIO_NOPULL: U32 := 0x00
  const GPIO_PULLUP: U32 := 0x01
  const GPIO_PULLDOWN: U32 := 0x02

  // GPIO_speed_define
  const GPIO_SPEED_FREQ_LOW: U32 := 0x00
  const GPIO_SPEED_FREQ_MEDIUM: U32 := 0x01
  const GPIO_SPEED_FREQ_HIGH: U32 := 0x02
  const GPIO_SPEED_FREQ_VERY_HIGH: U32 := 0x03

  /** The GPIO port register blocks GPIOA..GPIOH (GPIO_TypeDef pointers). */
  datatype HwPort = GPIOA | GPIOB | GPIOC | GPIOD | GPIOE | GPIOF | GPIOG | GPIOH

  /**
   * GPIO_InitTypeDef as handed to HAL_GPIO_Init. `pin` is the Pin mask; None
   * records that the caller computed it with a C shift whose count was 32 or
   * more, so the value passed is undefined.
   */
  datatype VendorInit = VendorInit(pin: Option<nat>, mode: U32, pull: U32, speed: U32, alternate: U32)

  /** One call into the vendor HAL (or one vendor clock-enable macro). */
  datatype VendorCall =
    | HalInitCall
    | HalInitTickCall
    | GpioInitCall(port: HwPort, init: VendorInit)
    | GpioDeInitCall(port: HwPort, pinMask: nat)
    | GpioWritePinCall(port: HwPort, pinMask: nat, state: VendorPinState)
    | GpioReadPinCall(port: HwPort, pinMask: nat)
    | GpioTogglePinCall(port: HwPort, pinMask: nat)
    | GpioClkEnableCall(port: HwPort)
    | GpioClkDisableCall(port: HwPort)
    | Usart2ClkEnableCall

  /**
   * The vendor side of the target: `calls` is the sequence of vendor calls
   * made so far, `odr` the output data registers written directly by the
   * portable layer. What the calls do to the silicon is not modelled.
   */
  class Hardware {
    ghost var calls: seq<VendorCall>
    var odr: map<HwPort, bv32>

    constructor ()
      ensures calls == [] && odr == map[]
    {
      calls := [];
      odr := map[];
    }

    /** Makes one vendor call. */
    method Issue(c: VendorCall)
      modifies this
      ensures calls == old(calls) + [c]
      ensures odr == old(odr)
    {
      calls := calls + [c];
    }
  }
}
