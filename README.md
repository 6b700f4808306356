# STM32G4 clock tree and ChibiOS/RT memory pools

This project is a Dafny model of two pieces of ChibiOS. Both are modelled here and proved.

**The STM32G4 clock configuration of the HAL port** (`hal_lld.h`). The header takes:

- the settings of a board's `mcuconf.h`: voltage range, oscillator switches, SW, PLLSRC, PLLM/N/P/Q/R, the prescalers and the clock selectors;
- the crystal frequencies from `board.h`.

From these it derives:

- the voltage-range limits;
- the PLL input, VCO and outputs;
- SYSCLK, HCLK, PCLK1 and PCLK2;
- the MCO and RTC clocks;
- the PLLCFGR field encodings and the PLL output enable bits;
- the flash wait states.

It rejects a bad configuration with `#error`. In the model:

- every derived quantity is a function of a `Config` value;
- a quantity the header cannot define (an `#error` in its chain, or a division by zero) is `None`;
- the predicate `Stm32g4Checks.ValidAsWritten` holds exactly when none of the modelled `#error` guards fires;
- the predicate `Stm32g4Checks.Valid` is the corrected acceptance: the same guards with the corrections listed under Findings.

The two differ on the configurations the findings exhibit. The lemmas below are about `Valid`; `Stm32g4Checks.ValidAsWrittenWhenAgreeing` carries them over to `ValidAsWritten` wherever the corrected parts agree with the header's.

The lemmas show what a valid configuration guarantees: fields in range, the PLL within the limits of its voltage range, bus clocks within their maxima, and the fewest sufficient wait states. Modules:

- `Stm32g4Limits`: the voltage-range limits.
- `Stm32g4Fields`: the register field codes.
- `Stm32g4Clocks`: the configuration and the derived clocks.
- `Stm32g4Checks`: the guards and what they imply.
- `Stm32g4Findings`: concrete configurations, and the six places where the header as written departs from its own tables; see Findings below.

**The fixed-block memory pool and the guarded memory pool of the RT kernel**, as test sequence 010 (`rt_test_sequence_010.c`) exercises them.

- `MemoryPools.MemoryPool` is `memory_pool_t`:
  - a free list, head first;
  - the object size and alignment;
  - an optional provider that is asked for memory when the free list is empty.
- `MemoryPools.GuardedMemoryPool` is `guarded_memory_pool_t`: a provider-less pool plus the counter of its semaphore. Its invariant is that the counter equals the length of the free list.
- Objects are abstract block ids.
- `MemoryPoolTests` holds test cases 10.1, 10.2 and 10.3 as methods. They mirror the test's own loops, and their contracts prove that:
  - the allocations succeed and hand out the loaded objects, last one first;
  - the pool is empty afterwards;
  - freeing restores the same cycle;
  - the null provider yields nothing;
  - a fresh guarded pool fails with a finite timeout.

`chmempools.c` and `chmempools.h`, which implement the pools, are not part of this model. Pool operations therefore follow what the test relies on and the documented behaviour:

- LIFO push and pop;
- the provider is consulted only for an empty free list, and its block does not enter the list;
- the semaphore is signalled on each add and waited on before each guarded allocation.

The time source, `TIME_MS2I`, is a parameter: a timeout is a tick count, and 0 is `TIME_IMMEDIATE`.

The definitions the lemmas below are about, with the lines they model:

- `Stm32g4Checks.Valid` (hal_lld.h:857-1700): the guards with the corrections listed under Findings. `Stm32g4Checks.ValidAsWritten` is the same guards as the header writes them.
- Its parts are:
  - `Hsi16Checks`, `Hsi48Checks`, `HseChecks`, `LsiChecks` and `LseChecks` (857-1027), under `OscillatorChecks`;
  - `PllChecks` (1032-1236);
  - `PllSourceEnabled` (the added check of finding 4);
  - `BusChecks` (1241-1361) and `OutputChecks` (1366-1433);
  - `SerialClockChecks`, `KernelClockChecks` and `KernelClockChecksAsWritten` (1438-1700).
- `Stm32g4Checks.Required` and its parts `PllSource`, `SysClkSources`, `McoSources`, `BackupSources` and `KernelSources` are an independent statement of which oscillators each selection runs from. `OscillatorGuardsRequired` and `ValidEnablesRequired` relate the guards to it.
- `Stm32g4Clocks`:
  - `PllClkIn` (1042-1053, pinned down by `PllInputIsSourceOverM`);
  - `PllVco` (1189), and `PllPOut`, `PllQOut` and `PllROut` (1202-1212) through `PllOut`;
  - `ActivatePll` and `ActivatePllAsWritten` (1066-1075);
  - `PllPEnabled`, `PllQEnabled`, `PllQEnabledAsWritten`, `PllREnabled`, `EnableBit` and `PllEnableBits` (1151-1184, pinned down by `PllEnableBitsFields`);
  - `SysClk` (1241-1255, `ValidSysClk`);
  - `Hclk`, `Pclk1` and `Pclk2` (1267-1354) through `Prescaled` (`ValidBusClocks`);
  - `McoDivClk` and `McoClk` (1366-1414, `McoClkIsPrescaled`);
  - `RtcClk` (1419-1433, `ValidRtcClk`);
  - `FirstWithin` and `FlashWaitStates` (the wait-state table, `ValidFlashWaitStates`), and `FlashBitsAsWritten` (1733-1762, `FlashBitsAsWrittenShifted`).
- `Stm32g4Fields`:
  - `HpreCode` and `HpreDivisor` (1267-1296, `HpreRoundTrip`);
  - `PpreCode` and `PpreDivisor` (1305-1354, `PpreRoundTrip`);
  - `QrCode` (1115-1148, `QrCodeClosedForm`).
- `Stm32g4Fields.Pow2`, `Shl`, `FieldOf`, `Within`, `Pow2Add` and `Pow2High`, and `MemoryPools.Reversed`, are arithmetic and list helpers. They are not results.

## Model

| member | source | states |
|---|---|---|
| Stm32g4Limits.LimitsFor | os/hal/ports/STM32/STM32G4xx/hal_lld.h:685-852 | Limits exist exactly for VOS Range 1 and Range 2 (else "invalid STM32_VOS"). Each table is well formed: minima ≤ maxima, PCLK maxima ≤ SYSCLK_MAX, nine wait-state thresholds strictly increasing up to one equal to SYSCLK_MAX. SYSCLK_MAX is 170 MHz or 26 MHz. |
| Stm32g4Fields.PllmField | os/hal/ports/STM32/STM32G4xx/hal_lld.h:1032-1037 | PLLM is accepted exactly for 1..16. Its encoding occupies only bits 4-7 and decodes back to M - 1. |
| Stm32g4Fields.PllnField | os/hal/ports/STM32/STM32G4xx/hal_lld.h:1092-1097 | PLLN is accepted exactly for 8..127. Its encoding occupies only bits 8-14 and decodes back to N. |
| Stm32g4Fields.PllpField | os/hal/ports/STM32/STM32G4xx/hal_lld.h:1102-1110 | PLLP is accepted exactly for 7 and 17. Its encoding occupies only bit 17, which is set iff P = 17. |
| Stm32g4Fields.QrCodeClosedForm | os/hal/ports/STM32/STM32G4xx/hal_lld.h:1115-1148 | The PLLQ/PLLR chains accept exactly 2, 4, 6, 8 and give the two-bit code v/2 - 1. |
| Stm32g4Fields.PllqField | os/hal/ports/STM32/STM32G4xx/hal_lld.h:1115-1129 | PLLQ is accepted exactly for 2, 4, 6, 8. Its encoding occupies only bits 21-22 and decodes to Q/2 - 1. |
| Stm32g4Fields.PllrField | os/hal/ports/STM32/STM32G4xx/hal_lld.h:1134-1148 | PLLR is accepted exactly for 2, 4, 6, 8. Its encoding occupies only bits 25-26 and decodes to R/2 - 1. |
| Stm32g4Fields.HpreRoundTrip | os/hal/ports/STM32/STM32G4xx/hal_lld.h:1267-1296 | The HPRE codes of the STM32_HCLK chain and the STM32_HPRE_DIVd encodings are mutually inverse. The accepted divisors are exactly 1, 2, 4, 8, 16, 64, 128, 256, 512; the accepted codes are 0 and 8..15. |
| Stm32g4Fields.PpreRoundTrip | os/hal/ports/STM32/STM32G4xx/hal_lld.h:1305-1354 | The PPRE1/PPRE2 codes of the PCLK chains and the DIVd encodings are mutually inverse. The accepted divisors are exactly 1, 2, 4, 8, 16; the accepted codes are 0 and 4..7. |
| Stm32g4Fields.McopreDivisor | os/hal/ports/STM32/STM32G4xx/hal_lld.h:1397-1414 | MCOPRE is accepted exactly for codes 0..4, and it divides by 2^code. |
| Stm32g4Clocks.EnableBit | os/hal/ports/STM32/STM32G4xx/hal_lld.h:1153-1184 | An enable bit that is on occupies exactly its bit position; one that is off is 0. |
| Stm32g4Clocks.PllEnableBitsFields | os/hal/ports/STM32/STM32G4xx/hal_lld.h:1151-1184 | Bits 16, 20 and 24 of the enable word are set exactly when the P, Q and R outputs are enabled, and the word has no bits outside 16..24. |
| Stm32g4Clocks.PllOut | os/hal/ports/STM32/STM32G4xx/hal_lld.h:1189-1212 | A PLL output is defined exactly when the VCO is and the divisor is nonzero. It is then the integer quotient of the VCO by the divisor. |
| Stm32g4Clocks.Prescaled | os/hal/ports/STM32/STM32G4xx/hal_lld.h:1267-1354 | HCLK, PCLK1 and PCLK2 are defined exactly when the input clock and a nonzero divisor are. Each is then the integer quotient of its input by its divisor. |
| Stm32g4Checks.PllInputIsSourceOverM | os/hal/ports/STM32/STM32G4xx/hal_lld.h:1042-1053 | STM32_PLLCLKIN is defined exactly for NOCLOCK (value 0) or for HSE/HSI16 with M ≠ 0. It is then the integer quotient of the source frequency by M; any other PLLSRC is an error. |
| Stm32g4Checks.ValidPllFields | os/hal/ports/STM32/STM32G4xx/hal_lld.h:1032-1148 | A valid configuration has M in 1..16, N in 8..127, P in {7,17}, and Q, R in {2,4,6,8}. Its PLL input is 0 or lies in [2.66 MHz, 16 MHz]. |
| Stm32g4Checks.ActivatedPllInRange | os/hal/ports/STM32/STM32G4xx/hal_lld.h:1189-1236 | When the PLL is activated in a valid configuration: its input is nonzero and in range; VCO = input × N within the VCO limits; the P, Q and R outputs within their limits; Q, R ≤ VCO/2 and P ≤ VCO/7. |
| Stm32g4Checks.PllOutBound | os/hal/ports/STM32/STM32G4xx/hal_lld.h:1202-1212 | A PLL output whose divisor is at least k is defined and at most a k-th of the VCO. |
| Stm32g4Checks.ValidSysClk | os/hal/ports/STM32/STM32G4xx/hal_lld.h:1241-1262 | SYSCLK is HSI16 under NO_INIT or SW=HSI16, the HSE frequency (with HSE enabled) for SW=HSE, and the R output (at least 8 MHz) for SW=PLLRCLK. SW is one of those three and SYSCLK never exceeds 170 MHz or 26 MHz. |
| Stm32g4Checks.ValidBusClocks | os/hal/ports/STM32/STM32G4xx/hal_lld.h:1267-1361 | HCLK is SYSCLK divided by one of the nine AHB divisors. PCLK1 and PCLK2 are HCLK divided by one of the five APB divisors. HCLK ≤ SYSCLK ≤ SYSCLK_MAX, and each PCLK is ≤ HCLK and ≤ its maximum. |
| Stm32g4Checks.FirstWithinMonotone | os/hal/ports/STM32/STM32G4xx/hal_lld.h:1733-1762 | The first threshold that HCLK does not exceed moves only upward as HCLK grows. |
| Stm32g4Checks.FlashWaitStatesMonotone | os/hal/ports/STM32/STM32G4xx/hal_lld.h:1733-1762 | A faster HCLK never gets fewer wait states. |
| Stm32g4Checks.ValidFlashWaitStates | os/hal/ports/STM32/STM32G4xx/hal_lld.h:1733-1762 | In a valid configuration, HCLK is within the threshold of the chosen wait-state count, and above the threshold of every smaller count: the fewest sufficient wait states. |
| Stm32g4Checks.PllOutputsNeedActivation | os/hal/ports/STM32/STM32G4xx/hal_lld.h:1066-1087 | Any PLL output that is enabled (P, Q or R) implies that the PLL is activated. |
| Stm32g4Checks.OscillatorGuardsRequired | os/hal/ports/STM32/STM32G4xx/hal_lld.h:857-1027 | The HSI16, HSI48 and LSI guards pass exactly when that oscillator is enabled or nothing selected requires it. With HSE or LSE disabled, its guards pass exactly when nothing selected requires it. "Required" is the independent source map `Required`. |
| Stm32g4Checks.ValidEnablesRequired | os/hal/ports/STM32/STM32G4xx/hal_lld.h:857-1079 | In a valid configuration the oscillators that SW, MCOSEL, RTCSEL, LSCOSEL and the guarded kernel clock selectors select are enabled, and so is the input oscillator of an activated PLL. Under NO_INIT, SYSCLK is HSI16 whatever SW selects, and neither the header nor `Valid` checks HSI16 for it. |
| Stm32g4Checks.ValidAsWrittenWhenAgreeing | os/hal/ports/STM32/STM32G4xx/hal_lld.h:857-1700 | Where the two activation conditions agree and the two SAI1/I2S23/ADC chains agree, the corrected acceptance implies the as-written one. The as-written one plus the PLL source check implies the corrected one. |
| Stm32g4Checks.ActivatedPllNeedsInput | os/hal/ports/STM32/STM32G4xx/hal_lld.h:1066-1079 | A valid configuration that activates the PLL has a defined, nonzero PLL input ("PLL activation required but no PLL clock selected"). |
| Stm32g4Checks.PllChecksReadPll | os/hal/ports/STM32/STM32G4xx/hal_lld.h:1032-1236 | The PLL checks depend only on the PLL settings and the board. |
| Stm32g4Checks.ChecksIgnoreMux | os/hal/ports/STM32/STM32G4xx/hal_lld.h:941-1027 | The bus, MCO/RTC, HSE, LSI and LSE checks do not depend on the kernel clock selectors. |
| Stm32g4Checks.McoClkIsPrescaled | os/hal/ports/STM32/STM32G4xx/hal_lld.h:1366-1414 | STM32_MCOCLK is defined exactly when STM32_MCODIVCLK is and MCOPRE is 0..4, and it is then MCODIVCLK / 2^MCOPRE. In a valid configuration it is defined and at most MCODIVCLK. |
| Stm32g4Checks.ValidRtcClk | os/hal/ports/STM32/STM32G4xx/hal_lld.h:1419-1433 | In a valid configuration STM32_RTCCLK is defined. It is 0 for NOCLOCK, the LSE frequency with LSE enabled, LSI (32 kHz) with LSI enabled, or HSE / 32 with HSE enabled. |
| Stm32g4Findings.DefaultsRejected | os/hal/ports/STM32/STM32G4xx/hal_lld.h:343-624 | The header's own defaults fail validation on every board: the PLL takes HSI16 while HSI16 is disabled, and PLLP = 4 is not accepted. |
| Stm32g4Findings.Pll170MHzClocks | os/hal/ports/STM32/STM32G4xx/hal_lld.h:1042-1361 | HSI16/4 × 85 gives a 4 MHz PLL input, a 340 MHz VCO, a 170 MHz SYSCLK/HCLK/PCLK1/PCLK2, and 48571428 Hz on P. |
| Stm32g4Findings.Pll170MHzPll | os/hal/ports/STM32/STM32G4xx/hal_lld.h:1032-1236 | That configuration activates the PLL and passes the PLL checks with it activated. |
| Stm32g4Findings.Pll170MHzOscillators | os/hal/ports/STM32/STM32G4xx/hal_lld.h:857-1027 | That configuration is in Range 1, passes every oscillator check, and its PLL source HSI16 is enabled. |
| Stm32g4Findings.Pll170MHzBus | os/hal/ports/STM32/STM32G4xx/hal_lld.h:1241-1700 | It passes the bus, MCO/RTC and kernel clock checks. |
| Stm32g4Findings.Pll170MHzAccepted | os/hal/ports/STM32/STM32G4xx/hal_lld.h:857-1700 | That 170 MHz configuration passes every modelled check. |
| Stm32g4Findings.Pll170MHzFlash | os/hal/ports/STM32/STM32G4xx/hal_lld.h:1733-1762 | At 170 MHz, Range 1 requires 8 wait states; the header's chain programs 7. |
| Stm32g4Findings.Hse30MHzClocks | os/hal/ports/STM32/STM32G4xx/hal_lld.h:1241-1433 | A 30 MHz HSE as SYSCLK gives 30 MHz on HCLK and both APBs. The PLL input is NOCLOCK = 0, the PLL is not activated, and MCO and RTC are 0. |
| Stm32g4Findings.Hse30MHzPll | os/hal/ports/STM32/STM32G4xx/hal_lld.h:1032-1236 | That configuration passes the PLL checks. |
| Stm32g4Findings.Hse30MHzBus | os/hal/ports/STM32/STM32G4xx/hal_lld.h:1241-1433 | That configuration passes the bus-clock and MCO/RTC checks. |
| Stm32g4Findings.Hse30MHzOscillators | os/hal/ports/STM32/STM32G4xx/hal_lld.h:857-1027 | That configuration is in Range 1 and passes every oscillator check. |
| Stm32g4Findings.Hse30MHzSelectors | os/hal/ports/STM32/STM32G4xx/hal_lld.h:1064-1700 | Neither activation condition activates the PLL, and the kernel clock chains accept its selectors both as corrected and as written. |
| Stm32g4Findings.Hse30MHzAccepted | os/hal/ports/STM32/STM32G4xx/hal_lld.h:857-1700 | That configuration passes every modelled check, both corrected and as written. |
| Stm32g4Findings.FirstWithinIs | os/hal/ports/STM32/STM32G4xx/hal_lld.h:1733-1762 | An index below which every threshold is exceeded, and whose own threshold is not exceeded, is the index the wait-state search returns. |
| Stm32g4Findings.FlashBitsAsWrittenShifted | os/hal/ports/STM32/STM32G4xx/hal_lld.h:1733-1762 | The header's chain yields the index of the first non-exceeded threshold minus one, floored at 0 (8 above all). |
| Stm32g4Findings.FlashBitsAsWrittenMonotone | os/hal/ports/STM32/STM32G4xx/hal_lld.h:1733-1762 | The header's chain is still monotone in HCLK. |
| Stm32g4Findings.FlashBitsAsWrittenTooFew | os/hal/ports/STM32/STM32G4xx/hal_lld.h:1733-1762 | For every HCLK above the 0-wait-state threshold and within SYSCLK_MAX, the chain programs exactly one wait state fewer than the table requires, and HCLK exceeds that count's threshold. |
| Stm32g4Findings.Hse30MHzFlashTooFast | os/hal/ports/STM32/STM32G4xx/hal_lld.h:1733-1762 | At 30 MHz in Range 1 the chain programs 0 wait states (rated for 20 MHz); the table requires 1. |
| Stm32g4Findings.PllQEnabledAsWrittenAlways | os/hal/ports/STM32/STM32G4xx/hal_lld.h:1164-1173 | The PLLQEN condition as written holds for every configuration. |
| Stm32g4Findings.Hse30MHzEnablesQ | os/hal/ports/STM32/STM32G4xx/hal_lld.h:1164-1173 | A valid configuration that runs no PLL and clocks nothing from Q still gets PLLQEN set as written. The corrected condition is off. |
| Stm32g4Findings.Adc34FromPllMissed | os/hal/ports/STM32/STM32G4xx/hal_lld.h:1064-1087 | With ADC3/4 on PLL-P, ADC1/2 on NOCLK, SW = HSE and PLLSRC = NOCLOCK, the P output is enabled but the activation check as written does not fire, so the configuration passes every check as written. The corrected activation condition activates the PLL, and the configuration is rejected. |
| Stm32g4Findings.Adc34FromPllSelectors | os/hal/ports/STM32/STM32G4xx/hal_lld.h:1064-1079 | That configuration enables P, is activated only by the corrected condition, has a PLL input of 0, and passes the kernel clock chains as written. |
| Stm32g4Findings.Adc34FromPllOscillators | os/hal/ports/STM32/STM32G4xx/hal_lld.h:857-935 | It passes the HSI16 and HSI48 checks. |
| Stm32g4Findings.PllOnDisabledHsi16Checks | os/hal/ports/STM32/STM32G4xx/hal_lld.h:1032-1236 | SW = HSE, HSI16 disabled, ADCs on PLL-P, and the PLL on HSI16 / 4 × 85: it passes the PLL checks with the PLL activated. |
| Stm32g4Findings.PllOnDisabledHsi16Bus | os/hal/ports/STM32/STM32G4xx/hal_lld.h:1241-1433 | It runs SYSCLK, HCLK, PCLK1 and PCLK2 at 8 MHz and passes the bus and MCO/RTC checks. |
| Stm32g4Findings.PllOnDisabledHsi16Oscillators | os/hal/ports/STM32/STM32G4xx/hal_lld.h:857-1027 | It passes every oscillator check and the kernel clock chains as written, but fails the PLL source check. |
| Stm32g4Findings.PllOnDisabledHsi16Accepted | os/hal/ports/STM32/STM32G4xx/hal_lld.h:857-1079 | Both conditions activate its PLL, whose source HSI16 is disabled, yet the header as written accepts it. The corrected acceptance rejects it. |
| Stm32g4Findings.KernelAsWrittenRefusesPllq | os/hal/ports/STM32/STM32G4xx/hal_lld.h:1635-1667 | As written, the SAI1 and I2S23 chains reject PLLQCLK. |
| Stm32g4Findings.KernelAsWrittenRefusesAdcSysclk | os/hal/ports/STM32/STM32G4xx/hal_lld.h:1673-1700 | As written, the ADC12 and ADC34 chains reject SYSCLK. |
| Stm32g4Findings.MuxOnlyChange | os/hal/ports/STM32/STM32G4xx/hal_lld.h:857-1700 | A valid configuration stays valid when only its kernel clock selectors change. The new ones must pass the chains, must not change whether the PLL is activated, and must not select a disabled HSI16 or HSI48. |
| Stm32g4Findings.MuxOnlyChangeAsWritten | os/hal/ports/STM32/STM32G4xx/hal_lld.h:857-1700 | The same, for the checks as written. |
| Stm32g4Findings.Sai1FromPllqSelectors | os/hal/ports/STM32/STM32G4xx/hal_lld.h:1064-1173 | With SAI1 and I2S23 on PLL-Q at 170 MHz, the PLL is activated and Q enabled. The corrected chains accept the selectors, the chains as written do not, and the HSI16/HSI48 checks pass. |
| Stm32g4Findings.Sai1FromPllqAccepted | os/hal/ports/STM32/STM32G4xx/hal_lld.h:1635-1667 | That configuration is valid with Q enabled, and the header as written rejects it. |
| Stm32g4Findings.AdcFromSysclkSelectors | os/hal/ports/STM32/STM32G4xx/hal_lld.h:1673-1700 | With both ADC pairs on SYSCLK and the 30 MHz HSE, the PLL is not activated. The corrected chains accept the selectors, the chains as written do not, and the HSI16/HSI48 checks pass. |
| Stm32g4Findings.AdcFromSysclkAccepted | os/hal/ports/STM32/STM32G4xx/hal_lld.h:1673-1700 | That configuration is valid, and the header as written rejects it. |
| MemoryPools.NullProvider | test/rt/source/test/rt_test_sequence_010.c:61-67 | null_provider returns NULL for every size and alignment. |
| MemoryPools.NoDuplicatesPrefix | test/rt/source/test/rt_test_sequence_010.c:54 | In a list of distinct objects (the addresses of `objects[]`), no object occurs before its own position. |
| MemoryPools.ReversedIndex | test/rt/source/test/rt_test_sequence_010.c:99-103 | Position i of the free-list order that a load produces holds object n-1-i. |
| MemoryPools.ReversedMembers | test/rt/source/test/rt_test_sequence_010.c:99-103 | That order holds exactly the loaded objects: none is added and none dropped. |
| MemoryPools.LoadStep | test/rt/source/test/rt_test_sequence_010.c:99-103 | Adding object i of a load puts it in front of what objects 0..i-1 gave, and it was not yet on the list. |
| MemoryPools.MemoryPool.ProviderResult | test/rt/source/test/rt_test_sequence_010.c:138-144 | With no provider, an allocation from an empty pool yields nothing. |
| MemoryPools.MemoryPool.Decl | test/rt/source/test/rt_test_sequence_010.c:55 | MEMORYPOOL_DECL gives an empty pool with the given object size, alignment and provider. |
| MemoryPools.MemoryPool.ObjectInit | test/rt/source/test/rt_test_sequence_010.c:92-94 | chPoolObjectInit empties the pool: size as given, alignment PORT_NATURAL_ALIGN, provider as given. |
| MemoryPools.MemoryPool.Free | test/rt/source/test/rt_test_sequence_010.c:118-123 | chPoolFree puts an object that is not on the free list at its head. Nothing else changes and the list stays duplicate-free. |
| MemoryPools.MemoryPool.LoadArray | test/rt/source/test/rt_test_sequence_010.c:99-103 | chPoolLoadArray puts distinct objects, not already free, in front of the free list, last object first. |
| MemoryPools.MemoryPool.Alloc | test/rt/source/test/rt_test_sequence_010.c:105-116 | chPoolAlloc returns and removes the head of a non-empty free list. On an empty one it returns the provider's answer (NULL without a provider) and leaves the list empty. |
| MemoryPools.GuardedMemoryPool.Decl | test/rt/source/test/rt_test_sequence_010.c:58 | GUARDEDMEMORYPOOL_DECL gives an empty, provider-less pool with the semaphore at 0. |
| MemoryPools.GuardedMemoryPool.ObjectInit | test/rt/source/test/rt_test_sequence_010.c:180-182 | chGuardedPoolObjectInit empties the pool and sets the semaphore counter to 0. |
| MemoryPools.GuardedMemoryPool.Free | test/rt/source/test/rt_test_sequence_010.c:207-213 | chGuardedPoolFree puts the object at the head of the free list and raises the counter by one. The counter keeps equal to the free-list length. |
| MemoryPools.GuardedMemoryPool.LoadArray | test/rt/source/test/rt_test_sequence_010.c:187-192 | chGuardedPoolLoadArray puts the objects in front, last first, and raises the counter by their number. |
| MemoryPools.GuardedMemoryPool.AllocTimeout | test/rt/source/test/rt_test_sequence_010.c:194-205 | When the counter is 0, chGuardedPoolAllocTimeout returns NULL and changes nothing, for any timeout. Otherwise it returns and removes the head and lowers the counter by one. |
| MemoryPoolTests.LastFirstDrains | test/rt/source/test/rt_test_sequence_010.c:105-110 | Allocations that hand out the loaded objects last-first are all non-NULL and pairwise distinct, and together cover every object. |
| MemoryPoolTests.LoadedLastFirst | test/rt/source/test/rt_test_sequence_010.c:105-110 | Allocations that hand out a freshly loaded free list in order hand out the objects last one first. |
| MemoryPoolTests.AllocEach | test/rt/source/test/rt_test_sequence_010.c:106-110 | Four chPoolAlloc calls return the first four free objects in order and remove them. |
| MemoryPoolTests.FreeEach | test/rt/source/test/rt_test_sequence_010.c:119-123 | Freeing objects[0..3] into an empty pool leaves the free list as the objects last first. |
| MemoryPoolTests.LoadingAndEmptyingPool | test/rt/source/test/rt_test_sequence_010.c:96-145 | Test 10.1: both drains (steps 2 and 5) return the four objects, last first. Steps 3 and 6 and the null-provider step 7 each return NULL. |
| MemoryPoolTests.GuardedAllocEach | test/rt/source/test/rt_test_sequence_010.c:196-199 | Four immediate guarded allocations return the first four free objects in order and lower the counter by four. |
| MemoryPoolTests.GuardedFreeEach | test/rt/source/test/rt_test_sequence_010.c:209-213 | Four guarded frees into an empty guarded pool leave the objects last first. |
| MemoryPoolTests.LoadingAndEmptyingGuardedPool | test/rt/source/test/rt_test_sequence_010.c:184-228 | Test 10.2: both TIME_IMMEDIATE drains return the four objects, last first, and the fifth allocation after each returns NULL. |
| MemoryPoolTests.GuardedPoolTimeout | test/rt/source/test/rt_test_sequence_010.c:257-269 | Test 10.3: allocating from a freshly initialised guarded pool returns NULL whatever the timeout, TIME_MS2I(100) included. |

## Left out

- Shifted selector values: clock selectors and VOS are held as their field codes before the header's `<< k`, so register masks and positions of CFGR/CCIPR/PWR_CR1 are not modelled. PLLCFGR is the exception: its fields are modelled with their positions.
- Peripheral kernel clock frequencies (hal_lld.h:1435-1728): the frequencies of the USARTx/UARTx/LPUART1, I2Cx, LPTIM1, SAI1, I2S23, ADC and timer chains. They depend on `STM32_PCLK` and other names the header never defines, and `STM32_ADCCLK` is defined twice. Their "invalid source selected" guards are modelled.
- FDCANSEL, CLK48SEL and QSPISEL: the header defines no frequency and no check of a valid code for them. They appear only in the HSI16 and HSI48 guards, the activation condition and STM32_PLLQEN. So `Valid`, like the header, leaves their codes otherwise unconstrained.
- Oscillators selected only as kernel clocks, for example FDCANSEL = HSE or USART1SEL = LSE: the header does not check that they are enabled, and neither does `Valid`. `Required` does not list them either.
- The definedness checks for the device, `mcuconf.h` and `board.h` (hal_lld.h:639-682), platform strings, register bit masks, the `#include`s, and the bodiless `hal_lld_init` and `stm32_clock_init`.
- `FLASH_ACR_LATENCY_kWS` values, which are defined outside the header: a latency is the index k.
- The LSE bypass limits (`STM32_LSECLK_BYP_MIN/MAX`) are defined but never checked by the header, so the model does not check them either.
- `STM32_PPRE1` and `STM32_PPRE2` have no default in the header (only an unused `STM32_PPRE`). They are configuration fields, and a missing one reads as 0, which is DIV1, as in the preprocessor.
- Preprocessor integer width: the model uses unbounded naturals. Every quantity of an accepted configuration is far below 2^32, so no wrap-around is involved.
- `chmempools.c`/`chmempools.h` are not part of this model. The block-size rounding to the alignment, the debug checks of object size and alignment, and the partitioning of the `objects` array into addresses are not modelled; blocks are abstract ids.
- MemoryPools.MemoryPool.Free: a double free is undefined behaviour in the kernel. The model requires the object not to be on the free list.
- MemoryPools.MemoryPool.Alloc: a provider's result is not checked against the free list. A provider is a total function, so a stateful provider that hands out different blocks on successive calls is not modelled.
- MemoryPools.GuardedMemoryPool.AllocTimeout: does not model waiting, thread suspension, wake-up by another thread's free, elapsed time or `TIME_INFINITE`. With no other thread, a wait on a zero counter ends in timeout, which is the only outcome the model gives.
- Critical sections, interrupt masking and concurrent callers of the pools.
- The test harness bookkeeping (`test_set_step`, `test_assert` messages, `testcase_t` tables), and `testmsg.c`, whose point is thread messaging.

## Findings

| source | as written | input that shows it | evidently intended | confidence | as-written member | corrected member |
|---|---|---|---|---|---|---|
| os/hal/ports/STM32/STM32G4xx/hal_lld.h:1733-1762 | Each `#elif STM32_HCLK <= STM32_kWS_THRESHOLD` defines `FLASH_ACR_LATENCY_(k-1)WS`, one wait state too few. | Range 1, HSE 30 MHz as SYSCLK: HCLK 30 MHz > 0WS threshold 20 MHz, yet latency 0 | the latency whose threshold HCLK first does not exceed (1 here) | high; not executed | Stm32g4Findings.FlashBitsAsWrittenTooFew | Stm32g4Checks.ValidFlashWaitStates |
| os/hal/ports/STM32/STM32G4xx/hal_lld.h:1168 | STM32_PLLQEN tests `STM32_I2S23SELL == STM32_I2S23SEL__PLLQCLK`; both names are undefined, so it reads `0 == 0`. | HSE 30 MHz as SYSCLK, no PLL consumer: PLLQEN set | `STM32_I2S23SEL == STM32_I2S23SEL_PLLQCLK` | high; not executed | Stm32g4Findings.Hse30MHzEnablesQ | Stm32g4Checks.PllOutputsNeedActivation |
| os/hal/ports/STM32/STM32G4xx/hal_lld.h:1069 | The PLL activation check compares `STM32_ADC12SEL` with `STM32_ADC34SEL_PLLPCLK`, so ADC34SEL never activates the PLL. STM32_PLLPEN at 1153-1154 uses ADC34SEL. | ADC34SEL = PLLPCLK, ADC12SEL = NOCLK, SW = HSE, PLLSRC = NOCLOCK: passes every check, with PLLPEN set | `STM32_ADC34SEL == STM32_ADC34SEL_PLLPCLK` | high; not executed | Stm32g4Findings.Adc34FromPllMissed | Stm32g4Checks.ActivatedPllNeedsInput |
| os/hal/ports/STM32/STM32G4xx/hal_lld.h:864-871 | The HSI16 and HSE guards reject a disabled PLL source only when SW or MCOSEL takes the R output, so a PLL activated for ADC, SAI1, I2S23, FDCAN, CLK48 or QSPI may run from a disabled oscillator. | SW = HSE, HSI16 disabled, PLLSRC = HSI16, ADC12SEL = PLLPCLK: passes every check | an activated PLL's source oscillator must be enabled | medium; not executed | Stm32g4Findings.PllOnDisabledHsi16Accepted | Stm32g4Checks.ValidEnablesRequired |
| os/hal/ports/STM32/STM32G4xx/hal_lld.h:1638-1663 | The SAI1 and I2S23 chains test the undefined `STM32_SAI1SEL_PLLPCLK`/`STM32_I2S23SEL_PLLPCLK`, which read as 0 (SYSCLK), so PLLQCLK is "invalid source selected" though the activation check and STM32_PLLQEN list it. | SAI1SEL = I2S23SEL = PLLQCLK on the 170 MHz PLL: rejected | a `PLLQCLK` branch in each chain | high; not executed | Stm32g4Findings.KernelAsWrittenRefusesPllq | Stm32g4Findings.Sai1FromPllqAccepted |
| os/hal/ports/STM32/STM32G4xx/hal_lld.h:1679-1695 | The ADC chains test the undefined `STM32_ADC12SEL_HSI16`/`STM32_ADC34SEL_HSI16`, which read as 0 (NOCLK), so SYSCLK, a source the header defines, is "invalid source selected". | ADC12SEL = ADC34SEL = SYSCLK with a 30 MHz HSE: rejected | a `SYSCLK` branch in each chain | medium; not executed | Stm32g4Findings.KernelAsWrittenRefusesAdcSysclk | Stm32g4Findings.AdcFromSysclkAccepted |

`Stm32g4Checks.Valid` and the enable bits (`Stm32g4Clocks.PllEnableBits`) use the corrected definitions:

- `Stm32g4Clocks.ActivatePll` and `Stm32g4Clocks.PllQEnabled`;
- `Stm32g4Checks.PllSourceEnabled`;
- `Stm32g4Checks.KernelClockChecks`.

The as-written ones are kept beside them for the findings: `Stm32g4Checks.ValidAsWritten`, `Stm32g4Clocks.ActivatePllAsWritten`, `Stm32g4Clocks.PllQEnabledAsWritten`, `Stm32g4Checks.KernelClockChecksAsWritten` and `Stm32g4Clocks.FlashBitsAsWritten`.
