/** The portable GPIO interface types (src/hal/interfaces/hal_gpio.h). */
module GpioTypes {
  import opened Wrappers
  import opened Bits
  import opened VendorHal

  /** hal_gpio_pin_state_t. */
  datatype GpioPinState = PinReset | PinSet

  /** hal_gpio_mode_t. */
  datatype GpioMode =
    | ModeInput | ModeOutputPP | ModeOutputOD | ModeAfPP | ModeAfOD | ModeAnalog
    | ModeItRising | ModeItFalling | ModeItRisingFalling

  /** hal_gpio_pull_t. */
  datatype GpioPull = NoPull | PullUp | PullDown

  /** hal_gpio_speed_t. */
  datatype GpioSpeed = SpeedLow | SpeedMedium | SpeedHigh | SpeedVeryHigh

  /** hal_gpio_init_t: the transient configuration passed to hal_gpio_init. */
  datatype GpioInit = GpioInit(pin: U16, mode: GpioMode, pull: GpioPull, speed: GpioSpeed, alternate: U32)

  /**
   * hal_gpio_port_t: a port's hardware handle (None where the device header
   * does not define the port), its name and its base address.
   */
  datatype PortHandle = PortHandle(hwPort: Option<HwPort>, name: string, baseAddress: U32)
}
