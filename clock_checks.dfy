/** The configuration checks of hal_lld.h. `ValidAsWritten` holds exactly when
    none of the header's modelled `#error` guards on the clock tree fires; `Valid`
    is the same acceptance with the header's defects corrected. Lemmas tie
    validity to bounds on the derived frequencies. */
module Stm32g4Checks {
  import opened Wrappers
  import opened Stm32g4Limits
  import opened Stm32g4Fields
  import opened Stm32g4Clocks

  predicate InRange(x: Option<nat>, lo: nat, hi: nat) {
    x.Some? && lo <= x.value <= hi
  }

  predicate AtMost(x: Option<nat>, hi: nat) {
    x.Some? && x.value <= hi
  }

  /** "HSI16 related checks": with HSI16 disabled, nothing may select it. */
  predicate Hsi16Checks(c: Config) {
    !c.enabled.hsi16 ==>
      && c.sw != SwHsi16
      && !(c.sw == SwPllrclk && c.pll.src == PllsrcHsi16)
      && c.mcosel != McoselHsi16
      && !(c.mcosel == McoselPllrclk && c.pll.src == PllsrcHsi16)
      && c.mux.usart1 != SelHsi16 && c.mux.usart2 != SelHsi16 && c.mux.usart3 != SelHsi16
      && c.mux.uart4 != SelHsi16 && c.mux.uart5 != SelHsi16 && c.mux.lpuart1 != SelHsi16
      && c.mux.i2c1 != SelHsi16 && c.mux.i2c2 != SelHsi16
      && c.mux.i2c3 != SelHsi16 && c.mux.i2c4 != SelHsi16
      && c.mux.sai1 != Sai1selHsi16 && c.mux.i2s23 != I2s23selHsi16
      && c.mux.lptim1 != SelHsi16
      && c.mux.qspi != QspiselHsi16
  }

  /** "HSI48 related checks". */
  predicate Hsi48Checks(c: Config) {
    !c.enabled.hsi48 ==> c.mcosel != McoselHsi48 && c.mux.clk48 != Clk48selHsi48
  }

  /** "HSE related checks": an enabled HSE needs a frequency within the (bypass)
      limits; a disabled one may not be selected. */
  predicate HseChecks(c: Config, l: Limits) {
    if c.enabled.hse then
      && c.board.hseClk != 0
      && (if c.board.hseBypass then l.hseclkBypMin <= c.board.hseClk <= l.hseclkBypMax
          else l.hseclkMin <= c.board.hseClk <= l.hseclkMax)
    else
      && c.sw != SwHse
      && !(c.sw == SwPllrclk && c.pll.src == PllsrcHse)
      && c.mcosel != McoselHse
      && !(c.mcosel == McoselPllrclk && c.pll.src == PllsrcHse)
      && c.rtcsel != RtcselHsediv
  }

  /** "LSI related checks". */
  predicate LsiChecks(c: Config) {
    !c.enabled.lsi ==>
      c.rtcsel != RtcselLsi && c.mcosel != McoselLsi && c.lscosel != LscoselLsi
  }

  /** "LSE related checks": the non-bypass limits apply whether or not the LSE is bypassed. */
  predicate LseChecks(c: Config, l: Limits) {
    if c.enabled.lse then
      c.board.lseClk != 0 && l.lseclkMin <= c.board.lseClk <= l.lseclkMax
    else
      c.rtcsel != RtcselLse && c.mcosel != McoselLse && c.lscosel != LscoselLse
  }

  /** All five oscillators' checks. */
  predicate OscillatorChecks(c: Config, l: Limits) {
    Hsi16Checks(c) && Hsi48Checks(c) && HseChecks(c, l) && LsiChecks(c) && LseChecks(c, l)
  }

  /** The PLL checks: PLLM, PLLSRC, the input range, the activation check, the
      N/P/Q/R fields, and, when the PLL is activated, the VCO and output ranges.
      Whether the PLL is activated is a parameter, so that the header's own
      activation condition and the corrected one can both be checked. */
  predicate PllChecks(c: Config, l: Limits, activate: bool) {
    && PllmField(c.pll.m).Some?
    && PllClkIn(c).Some?
    && (PllClkIn(c).value != 0 ==> l.pllinMin <= PllClkIn(c).value <= l.pllinMax)
    && (activate ==> PllClkIn(c).value != 0)
    && PllnField(c.pll.n).Some?
    && PllpField(c.pll.p).Some?
    && PllqField(c.pll.q).Some?
    && PllrField(c.pll.r).Some?
    && (activate ==>
          && InRange(PllVco(c), l.pllvcoMin, l.pllvcoMax)
          && InRange(PllPOut(c), l.pllpMin, l.pllpMax)
          && InRange(PllQOut(c), l.pllqMin, l.pllqMax)
          && InRange(PllROut(c), l.pllrMin, l.pllrMax))
  }

  /** An activated PLL must have its input oscillator enabled. The header checks
      this only when SW or MCOSEL takes the R output (see Hsi16Checks and
      HseChecks), not when only a peripheral activates the PLL. */
  predicate PllSourceEnabled(c: Config) {
    ActivatePll(c) ==>
      && (c.pll.src == PllsrcHsi16 ==> c.enabled.hsi16)
      && (c.pll.src == PllsrcHse ==> c.enabled.hse)
  }

  /** The SW selection, the HPRE/PPRE1/PPRE2 codes, and the SYSCLK, HCLK,
      PCLK1 and PCLK2 maxima. */
  predicate BusChecks(c: Config, l: Limits) {
    && AtMost(SysClk(c), l.sysclkMax)
    && HpreDivisor(c.hpre).Some?
    && AtMost(Hclk(c), l.sysclkMax)
    && PpreDivisor(c.ppre1).Some?
    && AtMost(Pclk1(c), l.pclk1Max)
    && PpreDivisor(c.ppre2).Some?
    && AtMost(Pclk2(c), l.pclk2Max)
  }

  /** The MCOSEL, MCOPRE and RTCSEL codes must be known ones. */
  predicate OutputChecks(c: Config) {
    McoDivClk(c).Some? && McopreDivisor(c.mcopre).Some? && RtcClk(c).Some?
  }

  /** The kernel clock chains that end in "invalid source selected" and accept
      every code they define: USARTx, UARTx, LPUART1 and LPTIM1 have four
      sources, I2Cx three. */
  predicate SerialClockChecks(c: Config) {
    && c.mux.usart1 <= 3 && c.mux.usart2 <= 3 && c.mux.usart3 <= 3
    && c.mux.uart4 <= 3 && c.mux.uart5 <= 3 && c.mux.lpuart1 <= 3
    && c.mux.i2c1 <= 2 && c.mux.i2c2 <= 2 && c.mux.i2c3 <= 2 && c.mux.i2c4 <= 2
    && c.mux.lptim1 <= 3
  }

  /** The SAI1, I2S23 and ADC chains as the header writes them. SAI1 and I2S23
      compare with a PLLPCLK code that is never defined, and ADC12/ADC34 with an
      HSI16 code that is never defined; the preprocessor reads each as 0, so
      PLLQCLK is refused for SAI1 and I2S23, and SYSCLK for the ADCs. */
  predicate KernelClockChecksAsWritten(c: Config) {
    var undefined := 0;
    && SerialClockChecks(c)
    && c.mux.sai1 in {Sai1selSysclk, undefined, Sai1selHsi16, Sai1selCkin}
    && c.mux.i2s23 in {I2s23selSysclk, undefined, I2s23selHsi16, I2s23selCkin}
    && c.mux.adc12 in {AdcselNoclk, AdcselPllpclk, undefined}
    && c.mux.adc34 in {AdcselNoclk, AdcselPllpclk, undefined}
  }

  /** The same chains with every code the header defines for these selectors. */
  predicate KernelClockChecks(c: Config) {
    && SerialClockChecks(c)
    && c.mux.sai1 in {Sai1selSysclk, Sai1selPllqclk, Sai1selHsi16, Sai1selCkin}
    && c.mux.i2s23 in {I2s23selSysclk, I2s23selPllqclk, I2s23selHsi16, I2s23selCkin}
    && c.mux.adc12 in {AdcselNoclk, AdcselPllpclk, AdcselSysclk}
    && c.mux.adc34 in {AdcselNoclk, AdcselPllpclk, AdcselSysclk}
  }

  /** A configuration the header accepts, with the corrections of its activation
      condition, of its PLL source check and of its SAI1, I2S23 and ADC chains. */
  predicate Valid(c: Config) {
    && LimitsFor(c.vos).Some?
    && var l := LimitsFor(c.vos).value;
    && OscillatorChecks(c, l)
    && PllSourceEnabled(c)
    && PllChecks(c, l, ActivatePll(c))
    && BusChecks(c, l)
    && OutputChecks(c)
    && KernelClockChecks(c)
  }

  /** A configuration the header accepts as it is written. */
  predicate ValidAsWritten(c: Config) {
    && LimitsFor(c.vos).Some?
    && var l := LimitsFor(c.vos).value;
    && OscillatorChecks(c, l)
    && PllChecks(c, l, ActivatePllAsWritten(c))
    && BusChecks(c, l)
    && OutputChecks(c)
    && KernelClockChecksAsWritten(c)
  }

  // ------------------------------------------------------ required oscillators

  datatype Osc = Hsi16Osc | Hsi48Osc | HseOsc | LsiOsc | LseOsc

  predicate IsEnabled(s: Sources, o: Osc) {
    match o
    case Hsi16Osc => s.hsi16
    case Hsi48Osc => s.hsi48
    case HseOsc => s.hse
    case LsiOsc => s.lsi
    case LseOsc => s.lse
  }

  /** The oscillator the PLL input is taken from, if any. */
  function PllSource(c: Config): set<Osc> {
    if c.pll.src == PllsrcHsi16 then {Hsi16Osc}
    else if c.pll.src == PllsrcHse then {HseOsc}
    else {}
  }

  /** The oscillators SYSCLK runs from, as SW selects it. */
  function SysClkSources(c: Config): set<Osc> {
    if c.sw == SwHsi16 then {Hsi16Osc}
    else if c.sw == SwHse then {HseOsc}
    else if c.sw == SwPllrclk then PllSource(c)
    else {}
  }

  /** The oscillators the MCO pin is driven from, as MCOSEL selects it. */
  function McoSources(c: Config): set<Osc> {
    if c.mcosel == McoselHsi16 then {Hsi16Osc}
    else if c.mcosel == McoselHse then {HseOsc}
    else if c.mcosel == McoselPllrclk then PllSource(c)
    else if c.mcosel == McoselLsi then {LsiOsc}
    else if c.mcosel == McoselLse then {LseOsc}
    else if c.mcosel == McoselHsi48 then {Hsi48Osc}
    else {}
  }

  /** The oscillators of the RTC and of the LSCO pin. */
  function BackupSources(c: Config): set<Osc> {
    (if c.rtcsel == RtcselLse then {LseOsc}
     else if c.rtcsel == RtcselLsi then {LsiOsc}
     else if c.rtcsel == RtcselHsediv then {HseOsc}
     else {})
    + (if c.lscosel == LscoselLsi then {LsiOsc}
       else if c.lscosel == LscoselLse then {LseOsc}
       else {})
  }

  /** The kernel clocks taken from HSI16, and the 48 MHz clock taken from HSI48. */
  function KernelSources(c: Config): set<Osc> {
    var m := c.mux;
    (if m.usart1 == SelHsi16 || m.usart2 == SelHsi16 || m.usart3 == SelHsi16
        || m.uart4 == SelHsi16 || m.uart5 == SelHsi16 || m.lpuart1 == SelHsi16
        || m.i2c1 == SelHsi16 || m.i2c2 == SelHsi16 || m.i2c3 == SelHsi16
        || m.i2c4 == SelHsi16 || m.lptim1 == SelHsi16
        || m.sai1 == Sai1selHsi16 || m.i2s23 == I2s23selHsi16 || m.qspi == QspiselHsi16
     then {Hsi16Osc} else {})
    + (if m.clk48 == Clk48selHsi48 then {Hsi48Osc} else {})
  }

  /** The oscillators some selected clock runs from: SYSCLK, MCO, RTC, LSCO and
      the kernel clocks the header guards. */
  function Required(c: Config): set<Osc> {
    SysClkSources(c) + McoSources(c) + BackupSources(c) + KernelSources(c)
  }

  // ---------------------------------------------------------------- lemmas

  /** A quotient by a divisor of at least k is at most a k-th of the dividend. */
  lemma QuotientBound(a: nat, b: nat, k: nat)
    requires 1 <= k <= b
    ensures (a / b) * k <= a
  {
    var q := a / b;
    assert q * b <= a;
    assert q * k <= q * b;
  }

  /** The PLL input is the quotient of the selected source by M; NOCLOCK gives 0;
      any other PLLSRC, or M = 0 with a real source, is rejected. */
  lemma PllInputIsSourceOverM(c: Config)
    ensures PllClkIn(c).Some? <==>
              c.pll.src == PllsrcNoclock
              || ((c.pll.src == PllsrcHse || c.pll.src == PllsrcHsi16) && c.pll.m != 0)
    ensures c.pll.src == PllsrcNoclock ==> PllClkIn(c) == Some(0)
    ensures PllClkIn(c).Some? && c.pll.src == PllsrcHse ==>
              PllClkIn(c).value * c.pll.m <= c.board.hseClk < (PllClkIn(c).value + 1) * c.pll.m
    ensures PllClkIn(c).Some? && c.pll.src == PllsrcHsi16 ==>
              PllClkIn(c).value * c.pll.m <= Hsi16Clk < (PllClkIn(c).value + 1) * c.pll.m
  {
  }

  /** In a valid configuration every PLL field is in its documented range, and a
      nonzero PLL input lies in [PLLIN_MIN, PLLIN_MAX] = [2660000, 16000000]. */
  lemma ValidPllFields(c: Config)
    requires Valid(c)
    ensures 1 <= c.pll.m <= 16 && 8 <= c.pll.n <= 127
    ensures c.pll.p in {7, 17} && c.pll.q in {2, 4, 6, 8} && c.pll.r in {2, 4, 6, 8}
    ensures PllClkIn(c) == Some(0) || InRange(PllClkIn(c), 2660000, 16000000)
  {
  }

  /** A valid configuration passes the PLL checks with the PLL activated when it is. */
  lemma ValidActivatedPll(c: Config)
    requires Valid(c) && ActivatePll(c)
    ensures PllChecks(c, LimitsFor(c.vos).value, true)
  {
  }

  /** An activated PLL has a nonzero input in range, its VCO and its three outputs
      within the limits of the voltage range, and each output at most half the VCO. */
  lemma ActivatedPllInRange(c: Config)
    requires Valid(c) && ActivatePll(c)
    ensures InRange(PllClkIn(c), 2660000, 16000000)
    ensures var l := LimitsFor(c.vos).value;
      && InRange(PllVco(c), l.pllvcoMin, l.pllvcoMax)
      && InRange(PllPOut(c), l.pllpMin, l.pllpMax)
      && InRange(PllQOut(c), l.pllqMin, l.pllqMax)
      && InRange(PllROut(c), l.pllrMin, l.pllrMax)
    ensures PllVco(c).value == PllClkIn(c).value * c.pll.n
    ensures 2 * PllQOut(c).value <= PllVco(c).value && 2 * PllROut(c).value <= PllVco(c).value
    ensures 7 * PllPOut(c).value <= PllVco(c).value
  {
    ValidPllFields(c);
    ValidActivatedPll(c);
    PllOutBound(c, c.pll.p, 7);
    PllOutBound(c, c.pll.q, 2);
    PllOutBound(c, c.pll.r, 2);
  }

  /** A PLL output divided by at least k is at most a k-th of the VCO. */
  lemma PllOutBound(c: Config, divisor: nat, k: nat)
    requires 1 <= k <= divisor && PllVco(c).Some?
    ensures PllOut(c, divisor).Some? && k * PllOut(c, divisor).value <= PllVco(c).value
  {
    QuotientBound(PllVco(c).value, divisor, k);
  }

  /** SYSCLK follows SW (HSI16 under NO_INIT), never exceeds SYSCLK_MAX, which is
      170000000 in Range 1 and 26000000 in Range 2, and taken from the PLL it is at
      least PLLR_MIN. */
  lemma ValidSysClk(c: Config)
    requires Valid(c)
    ensures SysClk(c).Some?
    ensures c.noInit || c.sw in {SwHsi16, SwHse, SwPllrclk}
    ensures c.noInit || c.sw == SwHsi16 ==> SysClk(c).value == Hsi16Clk
    ensures !c.noInit && c.sw == SwHse ==> SysClk(c).value == c.board.hseClk && c.enabled.hse
    ensures !c.noInit && c.sw == SwPllrclk ==>
              SysClk(c) == PllROut(c) && 8000000 <= SysClk(c).value
    ensures SysClk(c).value <= (if c.vos == VosRange1 then 170000000 else 26000000)
  {
  }

  /** HCLK is SYSCLK divided by one of 1, 2, 4, 8, 16, 64, 128, 256, 512, and both
      APB clocks are HCLK divided by one of 1, 2, 4, 8, 16; none exceeds its maximum. */
  lemma ValidBusClocks(c: Config)
    requires Valid(c)
    ensures var l := LimitsFor(c.vos).value;
      && Hclk(c).Some? && Pclk1(c).Some? && Pclk2(c).Some?
      && Hclk(c).value <= SysClk(c).value <= l.sysclkMax
      && Pclk1(c).value <= Hclk(c).value && Pclk1(c).value <= l.pclk1Max
      && Pclk2(c).value <= Hclk(c).value && Pclk2(c).value <= l.pclk2Max
    ensures exists d :: d in {1, 2, 4, 8, 16, 64, 128, 256, 512} && Hclk(c).value == SysClk(c).value / d
    ensures exists d :: d in {1, 2, 4, 8, 16} && Pclk1(c).value == Hclk(c).value / d
    ensures exists d :: d in {1, 2, 4, 8, 16} && Pclk2(c).value == Hclk(c).value / d
  {
    var l := LimitsFor(c.vos).value;
    assert BusChecks(c, l);
    HpreRoundTrip(1, c.hpre);
    PpreRoundTrip(1, c.ppre1);
    var d1 := PpreDivisor(c.ppre1).value;
    PpreRoundTrip(1, c.ppre2);
    var d2 := PpreDivisor(c.ppre2).value;
    var dh := HpreDivisor(c.hpre).value;
    assert Hclk(c).value == SysClk(c).value / dh;
    assert Pclk1(c).value == Hclk(c).value / d1;
    assert Pclk2(c).value == Hclk(c).value / d2;
    QuotientBound(SysClk(c).value, dh, 1);
    QuotientBound(Hclk(c).value, d1, 1);
    QuotientBound(Hclk(c).value, d2, 1);
  }

  /** A larger HCLK never needs fewer wait states. */
  lemma {:induction false} FirstWithinMonotone(h1: nat, h2: nat, ts: seq<nat>)
    requires h1 <= h2
    ensures FirstWithin(h1, ts) <= FirstWithin(h2, ts)
  {
    if ts != [] && h1 > ts[0] {
      FirstWithinMonotone(h1, h2, ts[1..]);
    }
  }

  lemma FlashWaitStatesMonotone(h1: nat, h2: nat, l: Limits)
    requires |l.thresholds| == WaitStateCount && h1 <= h2
    ensures FlashWaitStates(h1, l) <= FlashWaitStates(h2, l)
  {
    FirstWithinMonotone(h1, h2, l.thresholds);
  }

  /** In a valid configuration the chosen wait states are the fewest whose
      threshold HCLK does not exceed. */
  lemma ValidFlashWaitStates(c: Config)
    requires Valid(c)
    ensures var l := LimitsFor(c.vos).value;
      var ws := FlashWaitStates(Hclk(c).value, l);
      && Hclk(c).value <= l.thresholds[ws]
      && forall j :: 0 <= j < ws ==> l.thresholds[j] < Hclk(c).value
  {
    var l := LimitsFor(c.vos).value;
    ValidBusClocks(c);
    var top :| 0 <= top < |l.thresholds| && l.thresholds[top] == l.sysclkMax;
    assert Hclk(c).value <= l.thresholds[top];
  }

  /** Each PLL output is enabled only when the PLL is activated. */
  lemma PllOutputsNeedActivation(c: Config)
    ensures PllPEnabled(c) || PllQEnabled(c) || PllREnabled(c) ==> ActivatePll(c)
  {
  }

  /** Each oscillator's "not enabled" guards pass exactly when no selected clock
      requires it; for HSI16, HSI48 and LSI there are no other guards. */
  lemma OscillatorGuardsRequired(c: Config, l: Limits)
    ensures Hsi16Checks(c) <==> (Hsi16Osc in Required(c) ==> c.enabled.hsi16)
    ensures Hsi48Checks(c) <==> (Hsi48Osc in Required(c) ==> c.enabled.hsi48)
    ensures LsiChecks(c) <==> (LsiOsc in Required(c) ==> c.enabled.lsi)
    ensures !c.enabled.hse ==> (HseChecks(c, l) <==> HseOsc !in Required(c))
    ensures !c.enabled.lse ==> (LseChecks(c, l) <==> LseOsc !in Required(c))
  {
  }

  /** In a valid configuration every oscillator a selector selects is enabled,
      and so is the input of an activated PLL. (Under NO_INIT SYSCLK is HSI16
      whatever SW selects; that is not checked.) */
  lemma ValidEnablesRequired(c: Config)
    requires Valid(c)
    ensures forall o :: o in Required(c) ==> IsEnabled(c.enabled, o)
    ensures ActivatePll(c) ==> forall o :: o in PllSource(c) ==> IsEnabled(c.enabled, o)
  {
    var l := LimitsFor(c.vos).value;
    assert OscillatorChecks(c, l) && PllSourceEnabled(c);
    OscillatorGuardsRequired(c, l);
    forall o | o in Required(c) ensures IsEnabled(c.enabled, o) {
      match o
      case Hsi16Osc =>
      case Hsi48Osc =>
      case HseOsc =>
      case LsiOsc =>
      case LseOsc =>
    }
  }

  /** The two acceptances differ only in the activation condition and in the
      SAI1, I2S23 and ADC chains, and in the PLL source check. */
  lemma ValidAsWrittenWhenAgreeing(c: Config)
    requires ActivatePll(c) == ActivatePllAsWritten(c)
    requires KernelClockChecksAsWritten(c) == KernelClockChecks(c)
    ensures Valid(c) ==> ValidAsWritten(c)
    ensures ValidAsWritten(c) && PllSourceEnabled(c) ==> Valid(c)
  {
  }

  /** Validity from its parts, for configurations whose parts are proved one by one. */
  lemma ValidFromParts(c: Config, l: Limits)
    requires LimitsFor(c.vos) == Some(l) && OscillatorChecks(c, l) && PllSourceEnabled(c)
    requires PllChecks(c, l, ActivatePll(c)) && BusChecks(c, l) && OutputChecks(c)
    requires KernelClockChecks(c)
    ensures Valid(c)
  {
  }

  lemma ValidAsWrittenFromParts(c: Config, l: Limits)
    requires LimitsFor(c.vos) == Some(l) && OscillatorChecks(c, l)
    requires PllChecks(c, l, ActivatePllAsWritten(c)) && BusChecks(c, l) && OutputChecks(c)
    requires KernelClockChecksAsWritten(c)
    ensures ValidAsWritten(c)
  {
  }

  /** An activated PLL of a valid configuration has a running input. */
  lemma ActivatedPllNeedsInput(c: Config)
    ensures Valid(c) && ActivatePll(c) ==> PllClkIn(c).Some? && PllClkIn(c).value != 0
  {
  }

  /** The PLL checks read only the PLL settings and the board. */
  lemma PllChecksReadPll(c: Config, d: Config, l: Limits, activate: bool)
    requires c.pll == d.pll && c.board == d.board
    ensures PllChecks(c, l, activate) == PllChecks(d, l, activate)
  {
    assert PllClkIn(c) == PllClkIn(d);
  }

  /** Only the selectors read the kernel clock selectors: the PLL, bus and
      output checks and the HSE, LSI and LSE checks do not. */
  lemma ChecksIgnoreMux(c: Config, m: Mux, l: Limits)
    ensures BusChecks(c.(mux := m), l) == BusChecks(c, l)
    ensures OutputChecks(c.(mux := m)) == OutputChecks(c)
    ensures HseChecks(c.(mux := m), l) == HseChecks(c, l)
    ensures LsiChecks(c.(mux := m)) == LsiChecks(c) && LseChecks(c.(mux := m), l) == LseChecks(c, l)
  {
    var d := c.(mux := m);
    assert SysClk(d) == SysClk(c) && McoDivClk(d) == McoDivClk(c);
  }

  /** STM32_MCOCLK is the MCOSEL clock divided by 2^MCOPRE; in a valid
      configuration it is defined and no faster than that clock. */
  lemma McoClkIsPrescaled(c: Config)
    ensures McoClk(c).Some? <==> McoDivClk(c).Some? && c.mcopre <= 4
    ensures McoClk(c).Some? ==> McoClk(c).value == McoDivClk(c).value / Pow2(c.mcopre)
    ensures Valid(c) ==> McoClk(c).Some? && McoClk(c).value <= McoDivClk(c).value
  {
    if McoClk(c).Some? {
      var f, d := McoDivClk(c).value, McopreDivisor(c.mcopre).value;
      assert McoClk(c).value == f / d;
      QuotientBound(f, d, 1);
    }
    if Valid(c) {
      assert OutputChecks(c);
    }
  }

  /** In a valid configuration the RTC clock is defined and taken from an
      enabled oscillator: LSE, LSI, or HSE divided by 32. */
  lemma ValidRtcClk(c: Config)
    requires Valid(c)
    ensures RtcClk(c).Some?
    ensures c.rtcsel == RtcselNoclock ==> RtcClk(c).value == 0
    ensures c.rtcsel == RtcselLse ==> RtcClk(c).value == c.board.lseClk && c.enabled.lse
    ensures c.rtcsel == RtcselLsi ==> RtcClk(c).value == LsiClk && c.enabled.lsi
    ensures c.rtcsel == RtcselHsediv ==> RtcClk(c).value == c.board.hseClk / 32 && c.enabled.hse
  {
  }
}
