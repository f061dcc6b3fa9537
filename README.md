# STM32F4 BlackPill clock bring-up, in Dafny

A model of the clock bring-up code of the BlackPill target (an STM32F4
board with a 25 MHz crystal). At boot, `SystemInit` resets the clock-control
registers and opens the FPU. `SetSysClock` then starts the PLL: first from
the external crystal (HSE path), and if that is not compiled in or fails,
from the 16 MHz internal oscillator (HSI path). If no compiled-in path
succeeds, it raises a fatal error.

The model has four modules:

- `Registers` (`registers.dfy`): the five 32-bit registers `SystemInit`
  writes, as a class `CoreRegisters` whose `SystemInit` method uses the
  source's own masks. The method is proved against `AfterSystemInit`, which
  is written with the named bits (HSION, HSEON, HSEBYP, CSSON, PLLON,
  CP10/CP11). `TreeOf` reads the reset registers as a clock tree.
- `ClockTree` (`clock_tree.dfy`): the HAL's oscillator record (`OscInit`)
  and bus record (`ClkInit`), the clock-tree state, and frequencies in exact
  integer Hz. It also holds the header comment's frequency table as
  `HeaderTable`.
- `Hal` (`hal.dfy`): the vendor HAL as an object `Rcc`. It holds the clock
  tree and a log of the calls made on it. `Rcc.Valid()` says the tree is
  what `Replay` of the log makes of the starting tree. Whether a
  configuring call succeeds is an oracle answer (`HalAnswers`): a function
  of the current tree and the request.
- `SystemClock` (`system_clock.dfy`): the two paths and `SetSysClock`.
  The build flags are parameters: the `CLOCK_SOURCE` bitmask (0x4 for HSE,
  0x2 for HSI) and `CLOCK_SOURCE_USB`. The fatal `error()` becomes the
  terminal value `Fatal("SetSysClock failed\n")`.

Frequencies are exact integer Hz. For every PLL setting the bring-up
requests, `ExactPll` proves that f_in·N is divisible by M·P and by M·Q.
SYSCLK = f_in·N/(M·P), the 48 MHz-domain clock = f_in·N/(M·Q),
AHB = SYSCLK/HPRE, APB1 = AHB/PPRE1 and APB2 = AHB/PPRE2.

## Model

| member | source | states |
|---|---|---|
| `Registers.AfterSystemInit` | TARGET_BLACKPILL/system_clock.c:58-78 | After the reset, CFGR = 0, CIR = 0 and PLLCFGR = 0x24003010. HSION (bit 0) is set, and HSEON, HSEBYP, CSSON and PLLON (bits 16, 18, 19, 24) are clear. Without the FPU, CPACR is unchanged. |
| `Registers.CoreRegisters.SystemInit` | TARGET_BLACKPILL/system_clock.c:55-83 | The source's masks (`3UL << 10*2` and `3UL << 11*2` for CPACR; 0x00000001, 0xFEF6FFFF and 0xFFFBFFFF for CR), applied in place in the source's order, give exactly `AfterSystemInit` of the old registers. |
| `Registers.SystemInitCrBit` | TARGET_BLACKPILL/system_clock.c:63-75 | For each bit of CR: bit 0 ends set; bits 16, 18, 19 and 24 end clear; every other bit keeps its old value. |
| `Registers.SystemInitCpacrBit` | TARGET_BLACKPILL/system_clock.c:58-60 | For each bit of CPACR: with the FPU used, bits 20-23 (CP10 and CP11 full access) end set; every other bit keeps its old value. |
| `Registers.SystemInitIdempotent` | TARGET_BLACKPILL/system_clock.c:55-83 | Running the reset twice leaves the same registers as running it once. |
| `Registers.SystemInitForgetsPriorContents` | TARGET_BLACKPILL/system_clock.c:66-78 | CFGR, PLLCFGR and CIR after the reset do not depend on their old contents. CR and CPACR after the reset depend only on their own old values. |
| `Registers.PllcfgrFactors` | TARGET_BLACKPILL/system_clock.c:72 | Decodes a PLLCFGR value into M < 64, N < 512, P in {2, 4, 6, 8}, Q < 16, and the source given by bit 22. |
| `Registers.PllcfgrResetFactors` | TARGET_BLACKPILL/system_clock.c:71-72 | The value written, 0x24003010, encodes PLL source HSI with M = 16, N = 192, P = 2, Q = 4. |
| `Registers.SystemInitClockTree` | TARGET_BLACKPILL/system_clock.c:61-78 | Whatever the registers held, after the reset HSI is on, HSE and the PLL are off, SYSCLK comes from HSI, and SYSCLK, AHB, APB1 and APB2 all run at 16 MHz. |
| `ClockTree.HeaderTableShape` | TARGET_BLACKPILL/system_clock.c:21-29 | In every column of the header table, AHB = APB2 = SYSCLK, APB1 = SYSCLK/2, and SYSCLK is at most 100 MHz. |
| `Hal.Replay` | TARGET_BLACKPILL/system_clock.c:158-171 | A sequence of HAL calls without `HAL_RCC_ClockConfig` leaves the SYSCLK source, the three bus dividers and the flash latency unchanged. |
| `Hal.Rcc.GetOscConfig` | TARGET_BLACKPILL/system_clock.c:131-135 | `HAL_RCC_GetOscConfig` reports the current tree, with the PLL state ON exactly when the PLL runs. It changes nothing. |
| `Hal.Rcc.OscConfig` | TARGET_BLACKPILL/system_clock.c:153-155 | `HAL_RCC_OscConfig` returns the oracle's status. The tree takes the request exactly when that status is HAL_OK. |
| `Hal.Rcc.ClockConfig` | TARGET_BLACKPILL/system_clock.c:215-217 | `HAL_RCC_ClockConfig` returns the oracle's status. The bus record and the flash latency take effect exactly when that status is HAL_OK. |
| `SystemClock.HseOscRequest` | TARGET_BLACKPILL/system_clock.c:137-152 | The HSE request names only the HSE and turns it on, with the PLL on from HSE. The HSI fields keep what `HAL_RCC_GetOscConfig` returned. SYSCLK is exactly 60 MHz (USB build) or 100 MHz, and the USB clock is exactly 48 MHz or 40 MHz. |
| `SystemClock.HsiOscRequest` | TARGET_BLACKPILL/system_clock.c:190-204 | The HSI request turns HSI on with the default trim and HSE explicitly off, with the PLL on from HSI. SYSCLK is exactly 96 MHz (USB build) or 100 MHz, and the USB clock is exactly 48 MHz or 50 MHz. |
| `SystemClock.PllBusConfigFrequencies` | TARGET_BLACKPILL/system_clock.c:209-214 | Applying the bus record (AHB /1, APB1 /2, APB2 /1, SYSCLK from PLL) to a PLL at a table column's SYSCLK gives that column's AHB, APB1 and APB2. |
| `SystemClock.SetSysClockPllHse` | TARGET_BLACKPILL/system_clock.c:120-172 | If the PLL already runs, it returns 1 after the query alone and the tree is unchanged. Otherwise it sends the HSE request and returns 0 exactly when the HAL refuses; on refusal the tree is unchanged. It never calls `HAL_RCC_ClockConfig`, so the SYSCLK source, bus dividers and flash latency are unchanged. When the PLL was off and the HAL accepts the request, the PLL runs at the table's SYSCLK, with a 48 MHz USB clock in a USB build (40 MHz otherwise). |
| `SystemClock.SetSysClockPllHsi` | TARGET_BLACKPILL/system_clock.c:179-223 | It sends the HSI request. On refusal it returns 0, makes no clock call and leaves the tree unchanged. Otherwise it applies the bus record with latency 3 and returns 0 exactly when that is refused. On success SYSCLK comes from the PLL, latency is 3, the buses run at the table's HSI column, and a USB build has a 48 MHz USB clock. |
| `SystemClock.SetSysClock` | TARGET_BLACKPILL/system_clock.c:94-114 | The HSE calls come first when HSE is compiled in. The HSI calls follow only when HSE is not compiled in or returned 0. The outcome is HSE exactly when HSE is compiled in and succeeds; HSI exactly when HSE did not succeed and HSI is compiled in and succeeds. The outcome is `Fatal("SetSysClock failed\n")` exactly when no compiled-in path succeeds, including a build with neither path. An HSI outcome runs at the table's frequencies with latency 3. |
| `SystemClock.HseAsWrittenMissesHeaderTable` | TARGET_BLACKPILL/system_clock.c:158-171 | After `SystemInit`, an HSE path that succeeds leaves the PLL at the table's SYSCLK, but SYSCLK itself stays on HSI at 16 MHz. That is never the table's 100 or 60 MHz. |
| `SystemClock.SetSysClockPllHseCorrected` | TARGET_BLACKPILL/system_clock.c:158-171 | The as-written HSE path followed by the bus record applied at latency 3, which is the only difference. It returns 1 exactly when the HSE path succeeds and the clock call is accepted. Starting with the PLL off, success gives the table's HSE column and, in a USB build, a 48 MHz USB clock. |

## Findings

| source | as written | input that shows it | evidently intended | confidence | as-written member | corrected member |
|---|---|---|---|---|---|---|
| TARGET_BLACKPILL/system_clock.c:158-171 | `SetSysClock_PLL_HSE` fills `RCC_ClkInitStruct` and returns 1 without calling `HAL_RCC_ClockConfig`. SYSCLK is never switched to the PLL and no flash latency is set. | `CLOCK_SOURCE` = 0x4 (or 0x6), PLL off after `SystemInit`, crystal accepted by the HAL: SYSCLK = 16 MHz, not the 100 MHz (60 MHz with USB) of the table at lines 21-29 | Apply the record with `HAL_RCC_ClockConfig(&RCC_ClkInitStruct, FLASH_LATENCY_3)` and return 0 if it fails, as the HSI path does at lines 215-217 | medium; not executed | `SystemClock.HseAsWrittenMissesHeaderTable` | `SystemClock.SetSysClockPllHseCorrected` |

`SetSysClock` composes the paths as the source does, so it calls the
as-written `SetSysClockPllHse`. The corrected path is a separate method that
calls the as-written one and then applies the bus record.

## Left out

- `SystemInit_ExtMemCtl` (line 81): the external-memory set-up is not part of this model.
- `__HAL_RCC_PWR_CLK_ENABLE` and `__HAL_PWR_VOLTAGESCALING_CONFIG` (lines 128-129, 187-188): hardware side effects with no stated contract. They are not modelled.
- HAL internals: when `HAL_RCC_OscConfig` and `HAL_RCC_ClockConfig` succeed is an oracle input. Their timeouts, parameter checks and register encodings (`RCC_PLLP_DIV4`, `RCC_HCLK_DIV2`, …) are not modelled. Dividers are plain division factors.
- A HAL call that fails is modelled as changing nothing. The real HAL may have partly changed the registers, for example an HSE left enabled but not ready.
- The HAL's answers depend only on the current tree and the request. Elapsed time and other hardware state are not inputs.
- The LSE and LSI fields of the oscillator record are not modelled. No path of the bring-up selects them.
- `error()` does not return. The model stops at the `Fatal` outcome; the platform's halting and message printing are left out.
- The commented-out MCO clock-output calls (lines 113, 220) are left out.
- The fractional MHz figures in the source comments (for example the 1.667 MHz VCO input) are replaced by exact integer Hz.
- `gen.py` writes a Makefile fragment of build targets (lines 40-51). It is build tooling with no behaviour to verify.
