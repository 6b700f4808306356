/** Concrete configurations, and the places where hal_lld.h as written departs
    from what its own tables and checks call for. */
module Stm32g4Findings {
  import opened Wrappers
  import opened Stm32g4Limits
  import opened Stm32g4Fields
  import opened Stm32g4Clocks
  import opened Stm32g4Checks

  /** The settings the header falls back to when mcuconf.h leaves them undefined;
      STM32_PPRE1 and STM32_PPRE2 have no default and read as 0 (DIV1). */
  function HeaderDefaults(b: Board): Config {
    Config(
      noInit := false, vos := VosRange1,
      enabled := Sources(hsi16 := false, hsi48 := false, hse := false, lsi := false, lse := false),
      board := b,
      sw := SwPllrclk,
      pll := Pll(src := PllsrcHsi16, m := 2, n := 16, p := 4, q := 4, r := 2),
      hpre := 0, ppre1 := 0, ppre2 := 0,
      mcosel := McoselNoclock, mcopre := 0, lscosel := LscoselNoclock, rtcsel := RtcselNoclock,
      mux := Mux(usart1 := 1, usart2 := 1, usart3 := 1, uart4 := 1, uart5 := 1, lpuart1 := 1,
                 i2c1 := 0, i2c2 := 0, i2c3 := 0, i2c4 := 0, lptim1 := 0,
                 sai1 := 0, i2s23 := 0, fdcan := 0, clk48 := Clk48selHsi48,
                 adc12 := AdcselPllpclk, adc34 := AdcselPllpclk, qspi := 0))
  }

  /** The defaults alone are rejected whatever the board: the PLL takes HSI16,
      which is disabled, and PLLP = 4 is not one of 7, 17. */
  lemma DefaultsRejected(b: Board)
    ensures !Valid(HeaderDefaults(b))
    ensures !Hsi16Checks(HeaderDefaults(b)) && PllpField(HeaderDefaults(b).pll.p).None?
  {
  }

  /** HSI16 / 4 * 85 / 2: a 170 MHz SYSCLK in Range 1. */
  const Pll170MHz: Config :=
    HeaderDefaults(Board(hseClk := 8000000, hseBypass := false, lseClk := 32768)).(
      enabled := Sources(hsi16 := true, hsi48 := true, hse := false, lsi := false, lse := false),
      pll := Pll(src := PllsrcHsi16, m := 4, n := 85, p := 7, q := 2, r := 2))

  /** The index FirstWithin picks is the one its contract characterises. */
  lemma FirstWithinIs(h: nat, ts: seq<nat>, i: nat)
    requires i < |ts| && h <= ts[i] && forall j :: 0 <= j < i ==> ts[j] < h
    ensures FirstWithin(h, ts) == i
  {
  }

  lemma Pll170MHzClocks()
    ensures PllClkIn(Pll170MHz) == Some(4000000) && PllVco(Pll170MHz) == Some(340000000)
    ensures PllPOut(Pll170MHz) == Some(48571428) && PllQOut(Pll170MHz) == Some(170000000)
    ensures SysClk(Pll170MHz) == Some(170000000) && Hclk(Pll170MHz) == Some(170000000)
    ensures Pclk1(Pll170MHz) == Some(170000000) && Pclk2(Pll170MHz) == Some(170000000)
  {
  }

  lemma Pll170MHzPll()
    ensures ActivatePll(Pll170MHz) && PllChecks(Pll170MHz, Range1, true)
  {
    Pll170MHzClocks();
  }

  lemma Pll170MHzOscillators()
    ensures LimitsFor(Pll170MHz.vos) == Some(Range1)
    ensures OscillatorChecks(Pll170MHz, Range1) && PllSourceEnabled(Pll170MHz)
  {
  }

  lemma Pll170MHzBus()
    ensures BusChecks(Pll170MHz, Range1) && OutputChecks(Pll170MHz)
    ensures KernelClockChecks(Pll170MHz)
  {
    Pll170MHzClocks();
  }

  /** The 170 MHz configuration is accepted. */
  lemma Pll170MHzAccepted()
    ensures Valid(Pll170MHz)
  {
    Pll170MHzOscillators();
    Pll170MHzPll();
    Pll170MHzBus();
    ValidFromParts(Pll170MHz, Range1);
  }

  /** At 170 MHz the table requires 8 wait states; the header's chain gives 7. */
  lemma Pll170MHzFlash()
    ensures FlashWaitStates(170000000, Range1) == 8
    ensures FlashBitsAsWritten(170000000, Range1) == 7
  {
    FirstWithinIs(170000000, Range1.thresholds, 8);
  }

  /** A 30 MHz HSE crystal as SYSCLK, with the PLL off. */
  const Hse30MHz: Config :=
    Config(
      noInit := false, vos := VosRange1,
      enabled := Sources(hsi16 := false, hsi48 := true, hse := true, lsi := false, lse := false),
      board := Board(hseClk := 30000000, hseBypass := false, lseClk := 32768),
      sw := SwHse,
      pll := Pll(src := PllsrcNoclock, m := 1, n := 8, p := 7, q := 2, r := 2),
      hpre := 0, ppre1 := 0, ppre2 := 0,
      mcosel := McoselNoclock, mcopre := 0, lscosel := LscoselNoclock, rtcsel := RtcselNoclock,
      mux := Mux(usart1 := 1, usart2 := 1, usart3 := 1, uart4 := 1, uart5 := 1, lpuart1 := 1,
                 i2c1 := 0, i2c2 := 0, i2c3 := 0, i2c4 := 0, lptim1 := 0,
                 sai1 := 0, i2s23 := 0, fdcan := 0, clk48 := Clk48selHsi48,
                 adc12 := AdcselNoclk, adc34 := AdcselNoclk, qspi := 0))

  // ------------------------------------------------ flash wait states (finding 1)

  /** The header's chain picks one latency below the first threshold HCLK does not
      exceed (never below 0). */
  lemma FlashBitsAsWrittenShifted(hclk: nat, l: Limits)
    requires |l.thresholds| == WaitStateCount
    ensures var k := FirstWithin(hclk, l.thresholds);
      FlashBitsAsWritten(hclk, l) == if k == 0 then 0 else k - 1
  {
  }

  lemma FlashBitsAsWrittenMonotone(h1: nat, h2: nat, l: Limits)
    requires |l.thresholds| == WaitStateCount && h1 <= h2
    ensures FlashBitsAsWritten(h1, l) <= FlashBitsAsWritten(h2, l)
  {
    FlashBitsAsWrittenShifted(h1, l);
    FlashBitsAsWrittenShifted(h2, l);
    FirstWithinMonotone(h1, h2, l.thresholds);
  }

  /** For every HCLK above the 0-wait-state threshold and within SYSCLK_MAX, the
      header programs one wait state fewer than the table requires, so HCLK is
      above the threshold of the latency actually programmed. */
  lemma FlashBitsAsWrittenTooFew(hclk: nat, l: Limits)
    requires WellFormed(l) && l.thresholds[0] < hclk <= l.sysclkMax
    ensures FlashBitsAsWritten(hclk, l) + 1 == FlashWaitStates(hclk, l)
    ensures l.thresholds[FlashBitsAsWritten(hclk, l)] < hclk
  {
    FlashBitsAsWrittenShifted(hclk, l);
    var top :| 0 <= top < |l.thresholds| && l.thresholds[top] == l.sysclkMax;
    assert hclk <= l.thresholds[top];
  }

  lemma Hse30MHzClocks()
    ensures SysClk(Hse30MHz) == Some(30000000) && Hclk(Hse30MHz) == Some(30000000)
    ensures Pclk1(Hse30MHz) == Some(30000000) && Pclk2(Hse30MHz) == Some(30000000)
    ensures PllClkIn(Hse30MHz) == Some(0) && !ActivatePll(Hse30MHz)
    ensures McoDivClk(Hse30MHz) == Some(0) && RtcClk(Hse30MHz) == Some(0)
  {
  }

  lemma Hse30MHzPll()
    ensures PllChecks(Hse30MHz, Range1, false)
  {
    Hse30MHzClocks();
  }

  lemma Hse30MHzBus()
    ensures BusChecks(Hse30MHz, Range1) && OutputChecks(Hse30MHz)
  {
    Hse30MHzClocks();
  }

  lemma Hse30MHzOscillators()
    ensures LimitsFor(Hse30MHz.vos) == Some(Range1) && OscillatorChecks(Hse30MHz, Range1)
  {
    var c := Hse30MHz;
    assert Hsi16Checks(c) && Hsi48Checks(c) && HseChecks(c, Range1);
    assert LsiChecks(c) && LseChecks(c, Range1);
  }

  lemma Hse30MHzSelectors()
    ensures !ActivatePll(Hse30MHz) && !ActivatePllAsWritten(Hse30MHz)
    ensures KernelClockChecks(Hse30MHz) && KernelClockChecksAsWritten(Hse30MHz)
  {
  }

  /** Accepted both as written and as corrected. */
  lemma Hse30MHzAccepted()
    ensures Valid(Hse30MHz) && ValidAsWritten(Hse30MHz)
  {
    var c := Hse30MHz;
    Hse30MHzOscillators();
    Hse30MHzSelectors();
    Hse30MHzPll();
    Hse30MHzBus();
    ValidFromParts(c, Range1);
    ValidAsWrittenFromParts(c, Range1);
  }

  /** The accepted 30 MHz configuration runs the flash with 0 wait states, whose
      limit is 20 MHz. */
  lemma Hse30MHzFlashTooFast()
    ensures FlashBitsAsWritten(30000000, Range1) == 0 && Range1.thresholds[0] < 30000000
    ensures FlashWaitStates(30000000, Range1) == 1
  {
    FirstWithinIs(30000000, Range1.thresholds, 1);
  }

  // ------------------------------------------ PLL output enable bits (findings 2, 3)

  /** STM32_PLLQEN as written is set in every configuration. */
  lemma PllQEnabledAsWrittenAlways(c: Config)
    ensures PllQEnabledAsWritten(c)
  {
  }

  /** So the accepted 30 MHz configuration, which runs no PLL and clocks nothing
      from PLL-Q, still enables the Q output. */
  lemma Hse30MHzEnablesQ()
    ensures Valid(Hse30MHz) && !ActivatePll(Hse30MHz) && !PllQEnabled(Hse30MHz)
    ensures PllQEnabledAsWritten(Hse30MHz)
  {
    Hse30MHzAccepted();
  }

  /** ADC3/4 clocked from PLL-P while nothing else uses the PLL. */
  const Adc34FromPll: Config := Hse30MHz.(mux := Hse30MHz.mux.(adc34 := AdcselPllpclk))

  /** The header enables the P output for it (STM32_PLLPEN) but, comparing
      ADC12SEL twice, does not activate the PLL, so the check that an activated
      PLL has an input clock is skipped although PLLSRC is NOCLOCK: the header
      accepts the configuration. With ADC34SEL in the activation test it is
      rejected. */
  lemma Adc34FromPllMissed()
    ensures PllPEnabled(Adc34FromPll) && !ActivatePllAsWritten(Adc34FromPll)
    ensures PllClkIn(Adc34FromPll) == Some(0)
    ensures ValidAsWritten(Adc34FromPll)
    ensures ActivatePll(Adc34FromPll) && !Valid(Adc34FromPll)
  {
    Hse30MHzAccepted();
    Hse30MHzSelectors();
    Adc34FromPllSelectors();
    Adc34FromPllOscillators();
    MuxOnlyChangeAsWritten(Hse30MHz, Adc34FromPll.mux);
    ActivatedPllNeedsInput(Adc34FromPll);
  }

  lemma Adc34FromPllSelectors()
    ensures PllPEnabled(Adc34FromPll) && !ActivatePllAsWritten(Adc34FromPll) && ActivatePll(Adc34FromPll)
    ensures PllClkIn(Adc34FromPll) == Some(0) && KernelClockChecksAsWritten(Adc34FromPll)
  {
  }

  lemma Adc34FromPllOscillators()
    ensures Hsi16Checks(Adc34FromPll) && Hsi48Checks(Adc34FromPll)
  {
  }

  // ------------------------------------------------ PLL source check (finding 4)

  /** SYSCLK from an 8 MHz HSE, HSI16 disabled, and the ADCs on PLL-P with the
      PLL taking HSI16 / 4 * 85. */
  const PllOnDisabledHsi16: Config :=
    Pll170MHz.(
      enabled := Sources(hsi16 := false, hsi48 := true, hse := true, lsi := false, lse := false),
      sw := SwHse)

  lemma PllOnDisabledHsi16Checks()
    ensures PllChecks(PllOnDisabledHsi16, Range1, true)
  {
    Pll170MHzPll();
    PllChecksReadPll(PllOnDisabledHsi16, Pll170MHz, Range1, true);
  }

  lemma PllOnDisabledHsi16Bus()
    ensures LimitsFor(PllOnDisabledHsi16.vos) == Some(Range1)
    ensures BusChecks(PllOnDisabledHsi16, Range1) && OutputChecks(PllOnDisabledHsi16)
  {
    var c := PllOnDisabledHsi16;
    assert SysClk(c) == Some(8000000) && Hclk(c) == Some(8000000);
    assert Pclk1(c) == Some(8000000) && Pclk2(c) == Some(8000000);
  }

  lemma PllOnDisabledHsi16Oscillators()
    ensures OscillatorChecks(PllOnDisabledHsi16, Range1)
    ensures KernelClockChecksAsWritten(PllOnDisabledHsi16)
    ensures !PllSourceEnabled(PllOnDisabledHsi16)
  {
  }

  /** The header accepts it: its HSI16 guards look at the PLL source only when
      SW or MCOSEL takes the PLL. So the PLL it activates for the ADCs has no
      running input oscillator. The corrected check rejects the configuration. */
  lemma PllOnDisabledHsi16Accepted()
    ensures ActivatePll(PllOnDisabledHsi16) && ActivatePllAsWritten(PllOnDisabledHsi16)
    ensures Hsi16Osc in PllSource(PllOnDisabledHsi16) && !PllOnDisabledHsi16.enabled.hsi16
    ensures ValidAsWritten(PllOnDisabledHsi16)
    ensures !Valid(PllOnDisabledHsi16)
  {
    PllOnDisabledHsi16Oscillators();
    PllOnDisabledHsi16Checks();
    PllOnDisabledHsi16Bus();
    ValidAsWrittenFromParts(PllOnDisabledHsi16, Range1);
  }

  // --------------------------------------- SAI1, I2S23 and ADC chains (findings 5, 6)

  /** As written, the SAI1 and I2S23 chains refuse their PLL-Q source, so the
      SAI1 and I2S23 terms of the activation check and of STM32_PLLQEN can
      never hold in an accepted configuration. */
  lemma KernelAsWrittenRefusesPllq(c: Config)
    requires KernelClockChecksAsWritten(c)
    ensures c.mux.sai1 != Sai1selPllqclk && c.mux.i2s23 != I2s23selPllqclk
  {
  }

  /** As written, the ADC chains refuse STM32_ADC12SEL_SYSCLK and
      STM32_ADC34SEL_SYSCLK. */
  lemma KernelAsWrittenRefusesAdcSysclk(c: Config)
    requires KernelClockChecksAsWritten(c)
    ensures c.mux.adc12 != AdcselSysclk && c.mux.adc34 != AdcselSysclk
  {
  }

  /** A valid configuration stays valid when only its kernel clock selectors
      change, as long as the new ones are accepted, the PLL's activation does
      not change, and no newly selected HSI16 or HSI48 is disabled. */
  lemma MuxOnlyChange(c: Config, m: Mux)
    requires Valid(c)
    requires KernelClockChecks(c.(mux := m)) && ActivatePll(c.(mux := m)) == ActivatePll(c)
    requires Hsi16Checks(c.(mux := m)) && Hsi48Checks(c.(mux := m))
    ensures Valid(c.(mux := m))
  {
    var d := c.(mux := m);
    var l := LimitsFor(c.vos).value;
    PllChecksReadPll(d, c, l, ActivatePll(c));
    ChecksIgnoreMux(c, m, l);
    ValidFromParts(d, l);
  }

  /** The same holds of the checks as written. */
  lemma MuxOnlyChangeAsWritten(c: Config, m: Mux)
    requires ValidAsWritten(c)
    requires KernelClockChecksAsWritten(c.(mux := m))
    requires ActivatePllAsWritten(c.(mux := m)) == ActivatePllAsWritten(c)
    requires Hsi16Checks(c.(mux := m)) && Hsi48Checks(c.(mux := m))
    ensures ValidAsWritten(c.(mux := m))
  {
    var d := c.(mux := m);
    var l := LimitsFor(c.vos).value;
    PllChecksReadPll(d, c, l, ActivatePllAsWritten(c));
    ChecksIgnoreMux(c, m, l);
    ValidAsWrittenFromParts(d, l);
  }

  /** SAI1 and I2S23 clocked from PLL-Q at 170 MHz. */
  const Sai1FromPllq: Config := Pll170MHz.(mux := Pll170MHz.mux.(sai1 := Sai1selPllqclk, i2s23 := I2s23selPllqclk))

  lemma Sai1FromPllqSelectors()
    ensures ActivatePll(Sai1FromPllq) && PllQEnabled(Sai1FromPllq)
    ensures KernelClockChecks(Sai1FromPllq) && !KernelClockChecksAsWritten(Sai1FromPllq)
    ensures Hsi16Checks(Sai1FromPllq) && Hsi48Checks(Sai1FromPllq)
  {
  }

  /** With the corrected chains, the PLL-Q consumers that the activation check
      and STM32_PLLQEN list are accepted, and they enable the Q output. */
  lemma Sai1FromPllqAccepted()
    ensures Valid(Sai1FromPllq) && PllQEnabled(Sai1FromPllq)
    ensures !ValidAsWritten(Sai1FromPllq)
  {
    Pll170MHzAccepted();
    Pll170MHzPll();
    Sai1FromPllqSelectors();
    MuxOnlyChange(Pll170MHz, Sai1FromPllq.mux);
  }

  /** Both ADC pairs clocked from SYSCLK, with the 30 MHz HSE. */
  const AdcFromSysclk: Config := Hse30MHz.(mux := Hse30MHz.mux.(adc12 := AdcselSysclk, adc34 := AdcselSysclk))

  lemma AdcFromSysclkSelectors()
    ensures !ActivatePll(AdcFromSysclk)
    ensures KernelClockChecks(AdcFromSysclk) && !KernelClockChecksAsWritten(AdcFromSysclk)
    ensures Hsi16Checks(AdcFromSysclk) && Hsi48Checks(AdcFromSysclk)
  {
  }

  /** With the corrected chains the SYSCLK source of the ADCs is accepted. */
  lemma AdcFromSysclkAccepted()
    ensures Valid(AdcFromSysclk) && !ValidAsWritten(AdcFromSysclk)
  {
    Hse30MHzAccepted();
    Hse30MHzSelectors();
    AdcFromSysclkSelectors();
    MuxOnlyChange(Hse30MHz, AdcFromSysclk.mux);
  }
}
