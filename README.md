# STM32 board-support and GPIO core, modelled in Dafny

This project models the portable firmware layer of a small STM32 code base, with these parts:

- The NUCLEO-L432KC board-support package (BSP):
  - its constant pin table;
  - lookup by pin name and by "n-th pin with this function";
  - the function→GPIO configuration policy of `bsp_configure_pin`;
  - the return-code sequencing of `bsp_init` and `bsp_init_debug_uart`.
- The portable GPIO layer for STM32L4:
  - the eight-entry port-handle table and its lookups;
  - the enum→vendor-constant conversions;
  - the argument guards and return codes of every GPIO entry point;
  - the direct ODR/IDR port accesses.
- The STM32F4-Discovery BSP:
  - its own pin record with a stored `function_index`;
  - the function+index lookup, `bsp_get_pin_configs` and `bsp_init`;
  - the PLL constant arithmetic.
- The register store that the unit tests put in place of memory-mapped registers, and the test override of the GPIO clock-enable macros, which set bits in RCC_AHB2ENR of that store.
- The portable LED application and the two LED controllers of the test fixtures.

Every call into the vendor HAL is recorded in a ghost log, `VendorHal.Hardware.calls`:
- `HAL_Init`, `HAL_GPIO_Init`, `HAL_GPIO_WritePin` and the other GPIO entry points;
- the clock-enable macros.

What the calls do to the silicon is not modelled. Values that come back from outside the modelled code are parameters:
- the HAL status;
- the clock set-up result;
- the level a pin read reports;
- the IDR contents;
- the result of `xTaskCreate`.

Some ports have hardware blocks only on some devices (the `#ifdef GPIOD`…`GPIOH` entries of the port table). This is the parameter `defined: set<HwPort>`.

The core has two cross-file quirks, and the model keeps both as written:
- `bsp_configure_pin` and the LED application store the mask `1U << pin` in `hal_gpio_init_t.pin`.
- `hal_gpio_init` shifts that value again.
- The LED application also passes the mask where `hal_gpio_write_pin` and `hal_gpio_toggle_pin` expect a pin number.

Lemmas state the consequences:
- the vendor mask never selects the descriptor's pin;
- on the NUCLEO-L432KC the user LED PB3 is configured and driven as pin 8;
- for pins 4 and above the write and toggle are refused.

Modules, one per source file, plus one per header:

| file | module | models |
|---|---|---|
| wrappers.dfy | Wrappers | `Option`, index shift and table access helpers |
| bits.dfy | Bits | C unsigned widths, `1U << n` (defined only for n < 32) |
| vendor_hal.dfy | VendorHal | vendor constants, port blocks, the vendor-call log |
| gpio_types.dfy | GpioTypes | the portable GPIO enums, init record and port handle |
| bsp_types.dfy | BspTypes | BSP enums and records; the two generic table scans |
| gpio_l4.dfy | GpioL4 | the portable GPIO layer for STM32L4 |
| bsp_l432kc.dfy | BspL432KC | the NUCLEO-L432KC BSP |
| bsp_f407vg.dfy | BspF407VG | the STM32F4-Discovery BSP |
| register_store.dfy | RegisterStore | the register store as a pure value |
| memory_mock.dfy | MemoryMock | the register mock class and its C entry points |
| mock_rcc.dfy | MockRcc | RCC_AHB2ENR and the clock-enable macro overrides |
| led_controller.dfy | LedController | the state-only LED controller |
| real_led_controller.dfy | RealLedController | the LED controller that calls the vendor HAL |
| portable_led.dfy | PortableLed | the portable LED application |

## Model

| member | source | states |
|---|---|---|
| BspTypes.Tags | src/bsp/common/bsp.h:57-95 | the function tags of a pin table, one per entry, in table order |
| BspTypes.NthMatch | src/bsp/stm32l4xx/bsp_stm32l432kc.cpp:222-234 | the k-th (0-based) index whose tag is f: a found index is in range and has tag f (the counts are stated by NthMatchCounts) |
| BspTypes.NthMatchCounts | src/bsp/stm32l4xx/bsp_stm32l432kc.cpp:222-234 | the k-th match exists exactly when more than k entries carry the function |
| BspTypes.NthMatchAtCount | src/bsp/stm32l4xx/bsp_stm32l432kc.cpp:222-234 | an entry with function f preceded by exactly k entries with f is the k-th match |
| BspTypes.CountOfAbsent | src/bsp/stm32l4xx/bsp_stm32l432kc.cpp:222-234 | a function no entry carries is counted 0 times |
| BspTypes.CountOfUniform | src/bsp/stm32l4xx/bsp_stm32l432kc.cpp:222-234 | when every entry carries f, the count of f is the table length |
| BspTypes.NthMatchAdvance | src/bsp/stm32l4xx/bsp_stm32l432kc.cpp:225-233 | one step of the scan: a match at i with no instances left is the answer; a match uses up one instance; a non-match moves on |
| BspTypes.FirstNamed | src/bsp/stm32l4xx/bsp_stm32l432kc.cpp:213-220 | the first index whose name equals the argument, with no earlier match; None exactly when no entry has that name |
| BspTypes.FirstNamedAt | src/bsp/stm32l4xx/bsp_stm32l432kc.cpp:213-220 | an entry named n with no earlier entry named n is the one the name lookup returns |
| BspTypes.ScanByName | src/bsp/stm32l4xx/bsp_stm32l432kc.cpp:213-220 | the loop of bsp_get_pin_config returns the first entry with the given name, or NULL |
| BspTypes.ScanByFunction | src/bsp/stm32l4xx/bsp_stm32l432kc.cpp:222-234 | the loop with `found_count` and early return yields exactly the instance-th entry with the function, or NULL |
| BspL432KC.GetPinConfig | src/bsp/stm32l4xx/bsp_stm32l432kc.cpp:213-220 | bsp_get_pin_config on the board table is the first entry with that name, or NULL |
| BspL432KC.GetPinConfigByFunction | src/bsp/stm32l4xx/bsp_stm32l432kc.cpp:222-234 | bsp_get_pin_config_by_function on the board table is the instance-th entry with that function, or NULL |
| BspL432KC.LedLookup | src/bsp/stm32l4xx/bsp_stm32l432kc.cpp:118-128 | pin_count is 8; (LED, 0) is LED_USER on GPIOB pin 3, active high, and is also what the lookup by the name "LED_USER" gives; (LED, k) is NULL for every k ≥ 1 |
| BspL432KC.AbsentFunctions | src/bsp/stm32l4xx/bsp_stm32l432kc.cpp:23-95 | (BUTTON, k) and (UART_TX, k) are NULL for every k |
| BspL432KC.DebugPinLookups | src/bsp/stm32l4xx/bsp_stm32l432kc.cpp:203-204 | the lookups of "DEBUG_TX" and "DEBUG_RX" find PA2 and PA15 |
| BspL432KC.PinPolicy | src/bsp/stm32l4xx/bsp_stm32l432kc.cpp:251-287 | the configuration table: LED push-pull output; DEBUG_TX/UART_TX/SPI_SCK/SPI_MOSI/I2C_SCL/I2C_SDA high-speed AF; DEBUG_RX/UART_RX/SPI_MISO AF with pull-up; BUTTON input pulled down when active high, else up; other functions inputs; pull NOPULL and speed LOW unless stated; pin is the mask 1 << pin; alternate is copied |
| BspL432KC.ConfigureCode | src/bsp/stm32l4xx/bsp_stm32l432kc.cpp:236-289 | the return code of bsp_configure_pin is -1, -2 or 0 |
| BspL432KC.ConfigureCodeMeaning | src/bsp/stm32l4xx/bsp_stm32l432kc.cpp:236-289 | a NULL descriptor gives -1; -2 exactly for an unknown port name; 0 exactly when the named port has a hardware block (a known port without one also gives -1) |
| BspL432KC.ConfigureEffect | src/bsp/stm32l4xx/bsp_stm32l432kc.cpp:236-290 | on failure no vendor call is made; on success exactly the port clock enable followed by one HAL_GPIO_Init on the named port |
| BspL432KC.ConfigurePin | src/bsp/stm32l4xx/bsp_stm32l432kc.cpp:236-290 | returns that code and appends those vendor calls; the clock enable comes before hal_gpio_init and its result is ignored |
| BspL432KC.VendorMaskMissesPin | src/bsp/stm32l4xx/bsp_stm32l432kc.cpp:252 | the mask reaching HAL_GPIO_Init is 1 << (1 << pin); it is never 1 << pin, and it is undefined (shift by 32 or more) exactly for pins 5 and above |
| BspL432KC.LedUserVendorMask | src/bsp/stm32l4xx/bsp_stm32l432kc.cpp:23-32 | the user LED PB3 reaches HAL_GPIO_Init as mask 0x100, i.e. pin 8 |
| BspL432KC.TableConfigures | src/bsp/stm32l4xx/bsp_stm32l432kc.cpp:236-290 | every entry of the table names GPIOA or GPIOB and configures with code 0 on every device |
| BspL432KC.DebugPinConfigs | src/bsp/stm32l4xx/bsp_stm32l432kc.cpp:251-277 | TX gets {mask 4, AF_PP, NOPULL, HIGH, AF7}; RX gets {mask 0x8000, AF_PP, PULLUP, LOW, AF3} |
| BspL432KC.DebugUartSequence | src/bsp/stm32l4xx/bsp_stm32l432kc.cpp:197-211 | the debug UART set-up is the USART2 clock enable, then GPIOA clock and init for TX, then GPIOA clock and init for RX |
| BspL432KC.InitDebugUart | src/bsp/stm32l4xx/bsp_stm32l432kc.cpp:197-211 | always returns 0; enables USART2's clock, then configures TX and then RX only when both lookups succeed |
| BspL432KC.InitCode | src/bsp/stm32l4xx/bsp_stm32l432kc.cpp:134-151 | -1 exactly when HAL_Init fails; -2 when it succeeds and the clock set-up fails; -3 when both succeed and the debug UART fails; 0 when all succeed |
| BspL432KC.BspInit | src/bsp/stm32l4xx/bsp_stm32l432kc.cpp:134-151 | returns the code of the first failing step and makes no later call; the debug UART returns 0, so -3 never occurs |
| GpioL4.FirstPortNamed | src/hal/stm32l4xx/hal_gpio_stm32l4xx.c:160-172 | the first handle whose name equals the argument; None exactly when no handle has that name |
| GpioL4.PortIndex | src/hal/stm32l4xx/hal_gpio_stm32l4xx.c:15-44 | each hardware port sits at its own index below 8 of the handle table |
| GpioL4.PortOfName | src/hal/stm32l4xx/hal_gpio_stm32l4xx.c:15-44 | a name is a port's name exactly when it is one of "GPIOA".."GPIOH", and then names that port |
| GpioL4.PortHandlesShape | src/hal/stm32l4xx/hal_gpio_stm32l4xx.c:15-44 | the table has 8 entries GPIOA..GPIOH in order; entry i has a hardware block exactly when it is A, B or C or its port is defined on the device |
| GpioL4.PortNamesDistinct | src/hal/stm32l4xx/hal_gpio_stm32l4xx.c:15-44 | the eight port names are pairwise distinct |
| GpioL4.NameLookupFindsIndex | src/hal/stm32l4xx/hal_gpio_stm32l4xx.c:160-179 | looking up the name of entry i finds entry i, and gives the handle that the lookup by index i returns |
| GpioL4.UnknownNameFindsNothing | src/hal/stm32l4xx/hal_gpio_stm32l4xx.c:160-172 | a name that is no port's name finds NULL |
| GpioL4.PortNamedMeaning | src/hal/stm32l4xx/hal_gpio_stm32l4xx.c:160-172 | the lookup by name gives the port's entry for a port name and NULL otherwise; the result has a hardware block exactly when the port is present |
| GpioL4.GetPort | src/hal/stm32l4xx/hal_gpio_stm32l4xx.c:160-172 | NULL for a NULL name; otherwise the loop returns the first handle with that name, or NULL |
| GpioL4.GetPortByIndex | src/hal/stm32l4xx/hal_gpio_stm32l4xx.c:174-179 | NULL exactly for index ≥ 8; otherwise entry index of the table |
| GpioL4.ConvertMode | src/hal/stm32l4xx/hal_gpio_stm32l4xx.c:109-126 | the result is one of the six vendor mode constants, and it is GPIO_MODE_INPUT exactly for INPUT and the three IT_* modes; which constant each basic mode gets is stated by ConversionTables |
| GpioL4.ConvertPull | src/hal/stm32l4xx/hal_gpio_stm32l4xx.c:129-140 | every pull setting maps to one of the three vendor pull constants; with ConversionsInjective the map is one-to-one |
| GpioL4.ConvertSpeed | src/hal/stm32l4xx/hal_gpio_stm32l4xx.c:143-156 | every speed setting maps to one of the four vendor speed constants; with ConversionsInjective the map is one-to-one |
| GpioL4.ConversionTables | src/hal/stm32l4xx/hal_gpio_stm32l4xx.c:109-156 | each basic mode, pull and speed setting maps to the vendor constant of the same name; the three IT_* modes map to GPIO_MODE_INPUT |
| GpioL4.ConversionsInjective | src/hal/stm32l4xx/hal_gpio_stm32l4xx.c:109-156 | the conversions are injective apart from the IT_* modes, which share INPUT's constant |
| GpioL4.EnablePortClock | src/hal/stm32l4xx/hal_gpio_stm32l4xx.c:181-188 | -1 with no vendor call for a NULL port or hardware block; otherwise one clock enable of that port and 0 |
| GpioL4.DisablePortClock | src/hal/stm32l4xx/hal_gpio_stm32l4xx.c:190-197 | -1 with no vendor call for a NULL port or hardware block; otherwise one clock disable of that port and 0 |
| GpioL4.Init | src/hal/stm32l4xx/hal_gpio_stm32l4xx.c:199-216 | -1 with no call for a NULL port, hardware block or init; otherwise one HAL_GPIO_Init with Pin = 1 << init.pin and the converted mode, pull and speed, and 0 |
| GpioL4.DeInit | src/hal/stm32l4xx/hal_gpio_stm32l4xx.c:218-225 | -1 with no call on a NULL port or hardware block or pin > 15; otherwise HAL_GPIO_DeInit with mask 1 << pin and 0 |
| GpioL4.VendorLevel | src/hal/stm32l4xx/hal_gpio_stm32l4xx.c:232 | SET maps to GPIO_PIN_SET and RESET to GPIO_PIN_RESET |
| GpioL4.WritePin | src/hal/stm32l4xx/hal_gpio_stm32l4xx.c:227-236 | -1 with no call on bad arguments; otherwise HAL_GPIO_WritePin with mask 1 << pin and the mapped level, and 0 |
| GpioL4.ReadPin | src/hal/stm32l4xx/hal_gpio_stm32l4xx.c:238-245 | RESET with no call on bad arguments; otherwise one HAL_GPIO_ReadPin, and SET exactly when the vendor reports GPIO_PIN_SET |
| GpioL4.TogglePin | src/hal/stm32l4xx/hal_gpio_stm32l4xx.c:247-254 | -1 with no call on bad arguments; otherwise HAL_GPIO_TogglePin with mask 1 << pin and 0 |
| GpioL4.WritePort | src/hal/stm32l4xx/hal_gpio_stm32l4xx.c:256-263 | stores the value into the port's ODR, and leaves every other ODR and the call log alone; does nothing on a NULL port |
| GpioL4.ReadPort | src/hal/stm32l4xx/hal_gpio_stm32l4xx.c:265-271 | IDR & 0xFFFF for a port with a hardware block, 0 otherwise |
| BspF407VG.F4Tags | src/bsp/stm32f4xx/bsp_stm32f407vg.cpp:27-133 | the function tags of the F4 table, one per entry, in order |
| BspF407VG.FieldMatch | src/bsp/stm32f4xx/bsp_stm32f407vg.cpp:192-203 | the first entry whose function is f and whose stored function_index is i, with no earlier such entry; None exactly when there is none |
| BspF407VG.ScanFieldMatch | src/bsp/stm32f4xx/bsp_stm32f407vg.cpp:192-203 | the loop returns the first entry matching function and index, or nullptr |
| BspF407VG.GetPinConfigByFunction | src/bsp/stm32f4xx/bsp_stm32f407vg.cpp:192-203 | bsp_get_pin_config_by_function on the F4 table is that first match, or nullptr |
| BspF407VG.GetPinConfigs | src/bsp/stm32f4xx/bsp_stm32f407vg.cpp:205-210 | always returns the table; writes 12 into the count cell exactly when it is given one |
| BspF407VG.FieldMatchIsNthMatch | src/bsp/stm32f4xx/bsp_stm32f407vg.cpp:192-203 | in a table whose every function_index is its ordinal among same-function entries, the field match is the ordinal (k-th) match |
| BspF407VG.TableIndexedByOrdinal | src/bsp/stm32f4xx/bsp_stm32f407vg.cpp:27-133 | the F4 table has that property: the LEDs carry 0..3 and every other function occurs once with index 0 |
| BspF407VG.TableAgreesWithOrdinalLookup | src/bsp/stm32f4xx/bsp_stm32f407vg.cpp:192-203 | on the F4 table the field-based lookup agrees with the L4 ordinal lookup for every function and index |
| BspF407VG.FieldMatchAt | src/bsp/stm32f4xx/bsp_stm32f407vg.cpp:192-203 | an entry matching with no earlier match is the one returned |
| BspF407VG.LedsResolve | src/bsp/stm32f4xx/bsp_stm32f407vg.cpp:29-60 | LED index k < 4 is GPIOD pin 12 + k, active high |
| BspF407VG.NoFifthLed | src/bsp/stm32f4xx/bsp_stm32f407vg.cpp:29-60 | LED index 4 or more is nullptr |
| BspF407VG.ButtonScenario | src/bsp/stm32f4xx/bsp_stm32f407vg.cpp:63-68 | (BUTTON, 0) is GPIOA pin 0, active high |
| BspF407VG.UartRxScenario | src/bsp/stm32f4xx/bsp_stm32f407vg.cpp:80-88 | (UART_RX, 0) is GPIOA pin 3 |
| BspF407VG.InitCode | src/bsp/stm32f4xx/bsp_stm32f407vg.cpp:212-227 | -1 exactly when HAL_Init fails, -2 when it succeeds and the clock set-up fails, 0 otherwise |
| BspF407VG.BspInit | src/bsp/stm32f4xx/bsp_stm32f407vg.cpp:212-227 | returns that code; HAL_InitTick is called only when both earlier steps succeed |
| BspF407VG.PllArithmetic | src/bsp/stm32f4xx/bsp_stm32f407vg.cpp:150-165 | 8 MHz / 8 · 336 = 336 MHz VCO; /2 = 168 MHz SYSCLK, the board's maximum; /7 = 48 MHz USB; AHB 168 MHz; APB1 42 MHz; APB2 84 MHz |
| RegisterStore.Read | tests/fixtures/stm32_memory_mock.cpp:14-17 | an address never stored reads 0; a stored one reads its value |
| RegisterStore.WasWritten | tests/fixtures/stm32_memory_mock.cpp:29-32 | true exactly when the address carries a true flag |
| RegisterStore.Write | tests/fixtures/stm32_memory_mock.cpp:9-12 | after a write the address reads the value and is marked written; every other address keeps its value and flag |
| RegisterStore.SetBit | tests/fixtures/stm32_memory_mock.cpp:19-22 | the address then reads old \| mask and is marked written; every other address is unchanged |
| RegisterStore.ClearBit | tests/fixtures/stm32_memory_mock.cpp:24-27 | the address then reads old & ~mask and is marked written; every other address is unchanged |
| RegisterStore.EmptyStore | tests/fixtures/stm32_memory_mock.cpp:43-46 | after a reset every address reads 0 and none is marked written |
| RegisterStore.EmptyMaskIsSet | tests/fixtures/stm32_memory_mock.cpp:34-37 | the empty mask always tests as set |
| RegisterStore.SetBitIdempotent | tests/fixtures/stm32_memory_mock.cpp:19-22 | set_bit twice with one mask leaves the store that set_bit once leaves |
| RegisterStore.SetBitBits | tests/fixtures/stm32_memory_mock.cpp:19-22 | after set_bit the mask tests as set and the bits outside it are the old ones |
| RegisterStore.ClearBitClears | tests/fixtures/stm32_memory_mock.cpp:24-27 | after clear_bit the bits of the mask are 0, so a nonzero mask no longer tests as set |
| RegisterStore.ClearBitKeeps | tests/fixtures/stm32_memory_mock.cpp:24-27 | after clear_bit the bits outside the mask are the old ones |
| RegisterStore.Apply | tests/fixtures/stm32_memory_mock.cpp:9-27 | each of write, set_bit and clear_bit marks its address written and leaves the others alone |
| RegisterStore.RunWritten | tests/fixtures/stm32_memory_mock.cpp:9-32 | after any run of operations an address is marked written exactly when it was before or an operation named it; an address no operation names keeps its value |
| RegisterStore.WrittenFromResetIffTouched | tests/fixtures/stm32_memory_mock.cpp:9-46 | from a reset store, was_register_written is true exactly for the addresses some operation named, and the others read 0 |
| MemoryMock.STM32MemoryMock.constructor | tests/fixtures/stm32_memory_mock.cpp:4-7 | a new mock holds the empty store |
| MemoryMock.STM32MemoryMock.WriteRegister | tests/fixtures/stm32_memory_mock.cpp:9-12 | the two maps now hold the store that Write gives |
| MemoryMock.STM32MemoryMock.ReadRegister | tests/fixtures/stm32_memory_mock.cpp:14-17 | returns Read of the current store |
| MemoryMock.STM32MemoryMock.SetBit | tests/fixtures/stm32_memory_mock.cpp:19-22 | the read-modify-write leaves the store that SetBit gives |
| MemoryMock.STM32MemoryMock.ClearBit | tests/fixtures/stm32_memory_mock.cpp:24-27 | the read-modify-write leaves the store that ClearBit gives |
| MemoryMock.STM32MemoryMock.WasRegisterWritten | tests/fixtures/stm32_memory_mock.cpp:29-32 | returns the written flag, false when absent |
| MemoryMock.STM32MemoryMock.IsBitSet | tests/fixtures/stm32_memory_mock.cpp:34-37 | returns IsBitSet of the current store |
| MemoryMock.STM32MemoryMock.GetRegisterValue | tests/fixtures/stm32_memory_mock.cpp:39-41 | equals read_register |
| MemoryMock.STM32MemoryMock.Reset | tests/fixtures/stm32_memory_mock.cpp:43-46 | both maps are empty again |
| MemoryMock.MockMemoryWrite | tests/fixtures/stm32_memory_mock.cpp:50-52 | delegates to write_register on the instance |
| MemoryMock.MockMemoryRead | tests/fixtures/stm32_memory_mock.cpp:54-56 | delegates to read_register on the instance |
| MemoryMock.MockMemorySetBit | tests/fixtures/stm32_memory_mock.cpp:58-60 | delegates to set_bit on the instance |
| MockRcc.RegisterLayout | tests/fixtures/stm32_memory_mock.h:11-17 | RCC_AHB2ENR = 0x4002104C; the GPIOA/B/C enable bits are single bits and pairwise disjoint |
| MockRcc.ClockEnabled | tests/fixtures/stm32_memory_mock.h:87-103 | a clock-enable macro ors its port's bit into RCC_AHB2ENR, marks it written and touches no other address |
| MockRcc.GpioBClkEnable | tests/fixtures/stm32_memory_mock.h:87-91 | the GPIOB macro leaves the store ClockEnabled gives for port B |
| MockRcc.GpioAClkEnable | tests/fixtures/stm32_memory_mock.h:93-97 | the GPIOA macro leaves the store ClockEnabled gives for port A |
| MockRcc.GpioCClkEnable | tests/fixtures/stm32_memory_mock.h:99-103 | the GPIOC macro leaves the store ClockEnabled gives for port C |
| MockRcc.EnableFromReset | tests/fixtures/stm32_memory_mock.h:87-91 | from a reset store a macro leaves RCC_AHB2ENR written and holding just its bit (0x2 for GPIOB) |
| MockRcc.EnableIdempotent | tests/fixtures/stm32_memory_mock.h:87-103 | enabling a port twice leaves the store that enabling it once leaves |
| MockRcc.EnableKeepsOthers | tests/fixtures/stm32_memory_mock.h:87-103 | enabling a port sets its bit and leaves every other port's bit as it was |
| MockRcc.EnableAllValue | tests/fixtures/stm32_memory_mock.h:87-103 | after any run of macros the register holds its old value or'ed with the bits of the ports run |
| MockRcc.MaskOfMembers | tests/fixtures/stm32_memory_mock.h:87-103 | those bits depend only on which ports occur, not on order or repetition |
| MockRcc.AnyOrderEnablesAll | tests/fixtures/stm32_memory_mock.h:93-103 | enabling A, B and C from reset in any order, with repeats, leaves RCC_AHB2ENR = 0x7 |
| LedController.Step | tests/fixtures/led_controller.cpp:11-24 | turnOn leaves the LED on, turnOff leaves it off, toggle flips it |
| LedController.RunAppend | tests/fixtures/led_controller.cpp:11-24 | running two command sequences in turn is running their concatenation |
| LedController.TogglesParity | tests/unit/test_led_controller.cpp:48-57 | n toggles flip the state exactly when n is odd; from a new controller the LED is on exactly when n is odd |
| LedController.CommandAlgebra | tests/fixtures/led_controller.cpp:11-24 | two toggles restore the state; turnOn twice is on, turnOff twice is off |
| LedController.LastCommandWins | tests/fixtures/led_controller.cpp:16-24 | after a final turnOn or turnOff the state is that command's, whatever came before |
| LedController.LedController.constructor | tests/fixtures/led_controller.cpp:3-4 | a new controller keeps its pin and is off |
| LedController.LedController.Init | tests/fixtures/led_controller.cpp:6-9 | init leaves the state unchanged |
| LedController.LedController.Toggle | tests/fixtures/led_controller.cpp:11-14 | the state takes one toggle step |
| LedController.LedController.TurnOn | tests/fixtures/led_controller.cpp:16-19 | the state takes one turnOn step |
| LedController.LedController.TurnOff | tests/fixtures/led_controller.cpp:21-24 | the state takes one turnOff step |
| LedController.LedController.IsOn | tests/fixtures/led_controller.cpp:26-28 | returns the tracked state and changes nothing |
| RealLedController.InitRecord | tests/fixtures/real_led_controller.cpp:7-16 | init hands the vendor Pin = pin_, push-pull output, no pull, low speed, alternate 0 |
| RealLedController.CommandCall | tests/fixtures/real_led_controller.cpp:18-34 | toggle calls HAL_GPIO_TogglePin(port_, pin_); turnOn writes SET; turnOff writes RESET |
| RealLedController.CommandCalls | tests/fixtures/real_led_controller.cpp:18-34 | a command sequence makes one vendor call per command, in order |
| RealLedController.WritesFollowState | tests/fixtures/real_led_controller.cpp:18-34 | only turnOn and turnOff write the pin, and the level written is SET exactly when the new tracked state is on |
| RealLedController.RealLedController.constructor | tests/fixtures/real_led_controller.cpp:3-5 | a new controller keeps its port and pin and is off |
| RealLedController.RealLedController.Init | tests/fixtures/real_led_controller.cpp:7-16 | exactly one HAL_GPIO_Init with that record; the state is unchanged |
| RealLedController.RealLedController.Toggle | tests/fixtures/real_led_controller.cpp:18-22 | flips the state and makes exactly one toggle call |
| RealLedController.RealLedController.TurnOn | tests/fixtures/real_led_controller.cpp:24-28 | sets the state and makes one SET write |
| RealLedController.RealLedController.TurnOff | tests/fixtures/real_led_controller.cpp:30-34 | clears the state and makes one RESET write |
| RealLedController.RealLedController.IsOn | tests/fixtures/real_led_controller.cpp:36-38 | returns the tracked state with no vendor call |
| RealLedController.RealLedController.ReadHardwareState | tests/fixtures/real_led_controller.cpp:40-44 | true exactly when the vendor read reports SET; one read call, nothing written, the tracked state unchanged |
| PortableLed.Mask | src/app/portable_led_example.cpp:57 | the application's pin argument is 1 << pin, which fits in 16 bits |
| PortableLed.DriveLevel | src/app/portable_led_example.cpp:85-92 | the level written is SET exactly when the requested state equals the board's polarity |
| PortableLed.LedInitCode | src/app/portable_led_example.cpp:36-73 | the code is -1, -2, -3 or 0, never -4; -1 exactly when there is no LED |
| PortableLed.LedInitCodeMeaning | src/app/portable_led_example.cpp:44-65 | -2 exactly for an unknown port name; 0 exactly when the LED's port has a hardware block, so hal_gpio_init cannot fail after the clock enable succeeded |
| PortableLed.AppCode | src/app/portable_led_example.cpp:168-197 | -1 when bsp_init fails; -2 when the LED init then fails; -3 when the task creation then does not return pdPASS; 0 otherwise |
| PortableLed.PortableLedApp.constructor | src/app/portable_led_example.cpp:26-28 | both file-scope handles start NULL |
| PortableLed.PortableLedApp.LedInit | src/app/portable_led_example.cpp:36-73 | returns the first failing step's code; on success: clock enable, then HAL_GPIO_Init of {1 << pin, OUTPUT_PP, NOPULL, LOW, 0}, then the write of the "off" level (RESET when active high) with the mask as pin; the descriptor handle is always overwritten and the port handle once an LED was found |
| PortableLed.PortableLedApp.LedSet | src/app/portable_led_example.cpp:80-95 | no call without both handles; otherwise the write that hal_gpio_write_pin makes for the mask and DriveLevel |
| PortableLed.PortableLedApp.LedToggle | src/app/portable_led_example.cpp:100-106 | no call without both handles; otherwise the toggle that hal_gpio_toggle_pin makes for the mask |
| PortableLed.PortableLedApp.AppInit | src/app/portable_led_example.cpp:168-197 | returns AppCode of the BSP, LED and task results; the LED is initialised only after bsp_init succeeded; the handles are unchanged when it failed |
| PortableLed.MaskAsPin | src/app/portable_led_example.cpp:70-105 | with the mask passed as pin, pins 4 and above are refused with no vendor call, and no write or toggle ever addresses the LED's own pin |
| PortableLed.LedConfigMissesPin | src/app/portable_led_example.cpp:56-63 | the LED configuration reaches HAL_GPIO_Init as 1 << (1 << pin), never 1 << pin |
| PortableLed.L432LedInit | src/app/portable_led_example.cpp:36-73 | on the NUCLEO-L432KC the LED is LED_USER and initialisation returns 0 after enabling GPIOB, configuring mask 0x100 and writing RESET to mask 0x100, i.e. pin 8 rather than PB3 |
| PortableLed.L432LedSet | src/app/portable_led_example.cpp:80-95 | on that board setting the LED writes mask 0x100 of GPIOB, SET for on and RESET for off |

## Left out

- Vendor HAL semantics: what `HAL_Init`, `HAL_GPIO_Init`, `HAL_GPIO_WritePin`, `HAL_RCC_OscConfig` and the other vendor entry points do to the hardware is not modelled. Their calls are logged, and their results are parameters.
- `bsp_init_system_clock` (L432KC) and `configure_system_clock_f407vg` are not modelled beyond the F4 PLL constants. They fill vendor structs and call the vendor clock API. Their result is the `clockRc` parameter of `BspInit`, and their vendor calls do not appear in the log.
- `src/hal/interfaces/hal_rcc.h` is not part of this model: it declares an interface with no implementation here.
- `src/app/freertos_stm32l4xx_it.c`, `src/app/main.cpp` and `src/syscalls.c` are not part of this model, nor are the LED and heartbeat task loops and `print_system_info`. They consist of interrupt-driven ticks, endless RTOS loops, newlib stubs, and a function with no effect.
- The FreeRTOS task itself: `xTaskCreate`'s result is the `taskResult` parameter, and `led_task_handle` is not modelled.
- `bsp_get_config`, `bsp_get_board_name`, `bsp_get_mcu_name` and `bsp_get_mcu_family` return constants, so they are not separate operations. On the NUCLEO-L432KC they are the fields of `BspL432KC.Config`. On the STM32F4-Discovery they are `BspF407VG.Config`, `BoardName` and `McuName`. `bsp_delay_ms` and `bsp_get_tick` forward to the vendor tick and are left out.
- The gmock mocks, the vendor HAL stub `stm32l4xx_hal.cpp` and the test fixture headers are not part of this model. The unit tests only serve as the source of several stated properties.
- `GpioL4.ConvertPull`, `GpioL4.ConvertSpeed`, `GpioL4.WritePin`: out-of-range C enum values cannot be represented, so the `default` branches of the conversions and write_pin's "any other state means RESET" are not reachable in the model.
- `GpioL4.GetPort`: a NULL port name is `None`. A name is compared as a whole string, as `strcmp` compares it.
- `BspL432KC.GetPinConfig`: a NULL `pin_name` is not modelled, because `strcmp` on NULL is undefined in the source.
- `BspTypes.PinNumber`: the descriptor's pin is typed below 16, as every table entry is. The source's `uint16_t` would also admit larger values, which the model does not cover. For pins 16..31, `1U << pin` is defined on the 32-bit `unsigned int` but truncates to 0 when stored in a `uint16_t` pin field. That happens in `bsp_configure_pin`'s `gpio_config.pin` and in the portable LED app's mask arguments, and `hal_gpio_init` would then configure vendor mask 1. For pins of 32 and above the shift is undefined.
- The single `STM32MemoryMock` instance, the file-scope `led_port`/`led_pin_config`, and the vendor hardware are explicit parameters and objects rather than globals.
- The clock enable that `BspL432KC.ConfigureEffect` logs as `GpioClkEnableCall(GPIOB)` is not interpreted against `MockRcc`'s register store. The GPIO layer's source does not include the RCC override header, so the two are linked in neither the source nor the model. "The GPIOB enable bit is set after enabling LED_USER" therefore holds only in two halves: the logged call (`ConfigureEffect`) and the bit the macro sets (`MockRcc.EnableFromReset`).
- Concurrency: nothing in the core locks, and no concurrent use is modelled.
- The device header's peripheral base addresses are the STM32L4 memory map values 0x48000000 + 0x400·k for GPIOA..GPIOH. The RCC base follows the test header.
