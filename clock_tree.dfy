/** The STM32G4 clock configuration (the settings a board's mcuconf.h gives
    hal_lld.h) and the clock frequencies and register bits the header derives
    from it. A selector holds its field code before the header shifts it into
    place (STM32_SW_PLLRCLK is 3, STM32_MCOSEL_HSI48 is 8, STM32_VOS_RANGE2 is 2).
    A derived quantity is `None` where the header reaches `#error` instead of
    defining it. */
module Stm32g4Clocks {
  import opened Wrappers
  import opened Stm32g4Limits
  import opened Stm32g4Fields

  // RCC_CFGR.SW
  const SwHsi16: nat := 1
  const SwHse: nat := 2
  const SwPllrclk: nat := 3

  // RCC_PLLCFGR.PLLSRC
  const PllsrcNoclock: nat := 0
  const PllsrcHsi16: nat := 2
  const PllsrcHse: nat := 3

  // RCC_CFGR.MCOSEL
  const McoselNoclock: nat := 0
  const McoselSysclk: nat := 1
  const McoselHsi16: nat := 3
  const McoselHse: nat := 4
  const McoselPllrclk: nat := 5
  const McoselLsi: nat := 6
  const McoselLse: nat := 7
  const McoselHsi48: nat := 8

  // RCC_BDCR.RTCSEL and RCC_BDCR.LSCOSEL
  const RtcselNoclock: nat := 0
  const RtcselLse: nat := 1
  const RtcselLsi: nat := 2
  const RtcselHsediv: nat := 3
  const LscoselNoclock: nat := 0
  const LscoselLsi: nat := 1
  const LscoselLse: nat := 3

  // RCC_CCIPR / RCC_CCIPR2 kernel clock selectors
  /** HSI16 code of USARTx, UARTx, LPUART1, I2Cx and LPTIM1 selectors. */
  const SelHsi16: nat := 2
  const Sai1selSysclk: nat := 0
  const Sai1selPllqclk: nat := 1
  const Sai1selCkin: nat := 2
  const Sai1selHsi16: nat := 3
  const I2s23selSysclk: nat := 0
  const I2s23selPllqclk: nat := 1
  const I2s23selCkin: nat := 2
  const I2s23selHsi16: nat := 3
  const FdcanselPllqclk: nat := 2
  const Clk48selHsi48: nat := 0
  const Clk48selPllqclk: nat := 2
  const AdcselNoclk: nat := 0
  const AdcselPllpclk: nat := 1
  const AdcselSysclk: nat := 2
  const QspiselHsi16: nat := 1
  const QspiselPllqclk: nat := 2

  /** STM32_xxx_ENABLED switches of the oscillators. */
  datatype Sources = Sources(hsi16: bool, hsi48: bool, hse: bool, lsi: bool, lse: bool)

  /** What board.h supplies: the external crystal frequencies and STM32_HSE_BYPASS. */
  datatype Board = Board(hseClk: nat, hseBypass: bool, lseClk: nat)

  /** STM32_PLLSRC and the STM32_PLLx_VALUE settings. */
  datatype Pll = Pll(src: nat, m: nat, n: nat, p: nat, q: nat, r: nat)

  /** Kernel clock selectors of the peripherals. */
  datatype Mux = Mux(
    usart1: nat, usart2: nat, usart3: nat, uart4: nat, uart5: nat, lpuart1: nat,
    i2c1: nat, i2c2: nat, i2c3: nat, i2c4: nat, lptim1: nat,
    sai1: nat, i2s23: nat, fdcan: nat, clk48: nat, adc12: nat, adc34: nat, qspi: nat)

  datatype Config = Config(
    noInit: bool,
    vos: nat,
    enabled: Sources,
    board: Board,
    sw: nat,
    pll: Pll,
    hpre: nat, ppre1: nat, ppre2: nat,
    mcosel: nat, mcopre: nat, lscosel: nat, rtcsel: nat,
    mux: Mux)

  /** An integer quotient in a `#if`; the preprocessor rejects division by zero. */
  function Div(a: nat, b: nat): (r: Option<nat>)
    ensures r.Some? <==> b != 0
    ensures r.Some? ==> r.value * b <= a < (r.value + 1) * b
  {
    if b == 0 then None else Some(a / b)
  }

  // ------------------------------------------------------------------------ PLL

  /** STM32_PLLCLKIN: the PLL input, the selected source divided by PLLM. */
  function PllClkIn(c: Config): Option<nat> {
    if c.pll.src == PllsrcHse then Div(c.board.hseClk, c.pll.m)
    else if c.pll.src == PllsrcHsi16 then Div(Hsi16Clk, c.pll.m)
    else if c.pll.src == PllsrcNoclock then Some(0)
    else None
  }

  /** The PLL inputs the model reads, in the order the header's activation
      check lists them: SW, MCOSEL, ADC12SEL, ADC34SEL, SAI1SEL, I2S23SEL,
      FDCANSEL, CLK48SEL, QSPISEL. */
  predicate ActivatePll(c: Config) {
    || c.sw == SwPllrclk
    || c.mcosel == McoselPllrclk
    || c.mux.adc12 == AdcselPllpclk
    || c.mux.adc34 == AdcselPllpclk
    || c.mux.sai1 == Sai1selPllqclk
    || c.mux.i2s23 == I2s23selPllqclk
    || c.mux.fdcan == FdcanselPllqclk
    || c.mux.clk48 == Clk48selPllqclk
    || c.mux.qspi == QspiselPllqclk
  }

  /** STM32_ACTIVATE_PLL as the header writes it: its fourth term compares
      ADC12SEL a second time, so ADC34SEL never activates the PLL. */
  predicate ActivatePllAsWritten(c: Config) {
    || c.sw == SwPllrclk
    || c.mcosel == McoselPllrclk
    || c.mux.adc12 == AdcselPllpclk
    || c.mux.adc12 == AdcselPllpclk
    || c.mux.sai1 == Sai1selPllqclk
    || c.mux.i2s23 == I2s23selPllqclk
    || c.mux.fdcan == FdcanselPllqclk
    || c.mux.clk48 == Clk48selPllqclk
    || c.mux.qspi == QspiselPllqclk
  }

  /** STM32_PLLVCO = STM32_PLLCLKIN * STM32_PLLN_VALUE. */
  function PllVco(c: Config): Option<nat> {
    match PllClkIn(c)
    case None => None
    case Some(f) => Some(f * c.pll.n)
  }

  /** VCO / divisor: STM32_PLL_P_CLKOUT, STM32_PLL_Q_CLKOUT, STM32_PLL_R_CLKOUT. */
  function PllOut(c: Config, divisor: nat): (r: Option<nat>)
    ensures r.Some? <==> PllVco(c).Some? && divisor != 0
    ensures r.Some? ==> r.value * divisor <= PllVco(c).value < (r.value + 1) * divisor
  {
    match PllVco(c)
    case None => None
    case Some(vco) => Div(vco, divisor)
  }

  function PllPOut(c: Config): Option<nat> { PllOut(c, c.pll.p) }
  function PllQOut(c: Config): Option<nat> { PllOut(c, c.pll.q) }
  function PllROut(c: Config): Option<nat> { PllOut(c, c.pll.r) }

  /** STM32_PLLPEN: the P output is enabled when an ADC is clocked from it. */
  predicate PllPEnabled(c: Config) {
    c.mux.adc12 == AdcselPllpclk || c.mux.adc34 == AdcselPllpclk
  }

  /** STM32_PLLQEN: the Q output is enabled when QSPI, FDCAN, CLK48, SAI1 or
      I2S23 is clocked from it. */
  predicate PllQEnabled(c: Config) {
    || c.mux.qspi == QspiselPllqclk
    || c.mux.fdcan == FdcanselPllqclk
    || c.mux.clk48 == Clk48selPllqclk
    || c.mux.sai1 == Sai1selPllqclk
    || c.mux.i2s23 == I2s23selPllqclk
  }

  /** STM32_PLLQEN as the header writes it: its last term compares two names
      that are never defined (STM32_I2S23SELL, STM32_I2S23SEL__PLLQCLK); the
      preprocessor reads both as 0, so the term, and the condition, always hold. */
  predicate PllQEnabledAsWritten(c: Config) {
    var undefinedLeft, undefinedRight := 0, 0;
    || c.mux.qspi == QspiselPllqclk
    || c.mux.fdcan == FdcanselPllqclk
    || c.mux.clk48 == Clk48selPllqclk
    || c.mux.sai1 == Sai1selPllqclk
    || undefinedLeft == undefinedRight
  }

  /** STM32_PLLREN: the R output is enabled when SYSCLK or MCO is taken from it. */
  predicate PllREnabled(c: Config) {
    c.sw == SwPllrclk || c.mcosel == McoselPllrclk
  }

  /** The value of an enable bit: `(1 << pos)` or `(0 << pos)`. */
  function EnableBit(on: bool, pos: nat): (r: nat)
    ensures on ==> Within(r, pos, 1) && FieldOf(r, pos, 1) == 1
    ensures !on ==> r == 0
  {
    Pow2Add(pos, 1);
    if on then Shl(1, pos) else Shl(0, pos)
  }

  /** STM32_PLLPEN, STM32_PLLQEN and STM32_PLLREN as register values (bits 16, 20, 24). */
  function PllEnableBits(c: Config): nat {
    EnableBit(PllPEnabled(c), 16) + EnableBit(PllQEnabled(c), 20) + EnableBit(PllREnabled(c), 24)
  }

  /** The three enable bits decode back to the three conditions, and nothing
      outside bits 16 .. 24 is set. */
  lemma PllEnableBitsFields(c: Config)
    ensures FieldOf(PllEnableBits(c), 16, 1) == 1 <==> PllPEnabled(c)
    ensures FieldOf(PllEnableBits(c), 20, 1) == 1 <==> PllQEnabled(c)
    ensures FieldOf(PllEnableBits(c), 24, 1) == 1 <==> PllREnabled(c)
    ensures Within(PllEnableBits(c), 16, 9)
  {
    Pow2High();
    assert Pow2(1) == 2;
    assert Pow2(16) == 65536 by { assert Pow2(10) == 1024; }
    assert Pow2(20) == 1048576;
    assert Pow2(24) == 16777216;
    var p := if PllPEnabled(c) then 1 else 0;
    var q := if PllQEnabled(c) then 1 else 0;
    var r := if PllREnabled(c) then 1 else 0;
    var bits := PllEnableBits(c);
    assert bits == 65536 * p + 1048576 * q + 16777216 * r;
    assert bits / 65536 == p + 16 * q + 256 * r;
    assert bits / 1048576 == q + 16 * r;
    assert bits / 16777216 == r;
  }

  // --------------------------------------------------------------- system clocks

  /** STM32_SYSCLK: HSI16 when STM32_NO_INIT is set, otherwise the source SW
      selects; an unknown SW is "invalid STM32_SW value specified". */
  function SysClk(c: Config): Option<nat> {
    if c.noInit then Some(Hsi16Clk)
    else if c.sw == SwHsi16 then Some(Hsi16Clk)
    else if c.sw == SwHse then Some(c.board.hseClk)
    else if c.sw == SwPllrclk then PllROut(c)
    else None
  }

  /** A clock divided by the divisor a prescaler code selects; undefined when
      either is, or when the divisor is 0. */
  function Prescaled(clk: Option<nat>, divisor: Option<nat>): (r: Option<nat>)
    ensures r.Some? <==> clk.Some? && divisor.Some? && divisor.value != 0
    ensures r.Some? ==> r.value * divisor.value <= clk.value < (r.value + 1) * divisor.value
  {
    match (clk, divisor)
    case (Some(f), Some(d)) => Div(f, d)
    case _ => None
  }

  /** STM32_HCLK = STM32_SYSCLK / HPRE divisor. */
  function Hclk(c: Config): Option<nat> {
    Prescaled(SysClk(c), HpreDivisor(c.hpre))
  }

  /** STM32_PCLK1 = STM32_HCLK / PPRE1 divisor. */
  function Pclk1(c: Config): Option<nat> {
    Prescaled(Hclk(c), PpreDivisor(c.ppre1))
  }

  /** STM32_PCLK2 = STM32_HCLK / PPRE2 divisor. */
  function Pclk2(c: Config): Option<nat> {
    Prescaled(Hclk(c), PpreDivisor(c.ppre2))
  }

  /** STM32_MCODIVCLK: the clock MCOSEL routes to the MCO prescaler. */
  function McoDivClk(c: Config): Option<nat> {
    if c.mcosel == McoselNoclock then Some(0)
    else if c.mcosel == McoselSysclk then SysClk(c)
    else if c.mcosel == McoselHsi16 then Some(Hsi16Clk)
    else if c.mcosel == McoselHse then Some(c.board.hseClk)
    else if c.mcosel == McoselPllrclk then PllROut(c)
    else if c.mcosel == McoselLsi then Some(LsiClk)
    else if c.mcosel == McoselLse then Some(c.board.lseClk)
    else if c.mcosel == McoselHsi48 then Some(Hsi48Clk)
    else None
  }

  /** STM32_MCOCLK = STM32_MCODIVCLK / MCOPRE divisor. */
  function McoClk(c: Config): Option<nat> {
    Prescaled(McoDivClk(c), McopreDivisor(c.mcopre))
  }

  /** STM32_RTCCLK: none, LSE, LSI or HSE / 32. */
  function RtcClk(c: Config): Option<nat> {
    if c.rtcsel == RtcselNoclock then Some(0)
    else if c.rtcsel == RtcselLse then Some(c.board.lseClk)
    else if c.rtcsel == RtcselLsi then Some(LsiClk)
    else if c.rtcsel == RtcselHsediv then Some(c.board.hseClk / 32)
    else None
  }

  // ---------------------------------------------------------------- flash bits

  /** The index of the first threshold that `h` does not exceed, |ts| if it exceeds all. */
  function FirstWithin(h: nat, ts: seq<nat>): (k: nat)
    ensures k <= |ts|
    ensures k < |ts| ==> h <= ts[k]
    ensures forall j :: 0 <= j < k ==> ts[j] < h
  {
    if ts == [] then 0
    else if h <= ts[0] then 0
    else 1 + FirstWithin(h, ts[1..])
  }

  /** Flash wait states for HCLK: the least k whose k-wait-state threshold HCLK
      does not exceed; above every threshold, the largest count, 8. */
  function FlashWaitStates(hclk: nat, l: Limits): (ws: nat)
    requires |l.thresholds| == WaitStateCount
    ensures ws < WaitStateCount
  {
    var k := FirstWithin(hclk, l.thresholds);
    if k < WaitStateCount then k else WaitStateCount - 1
  }

  /** STM32_FLASHBITS exactly as the header's chain writes it, as a latency index
      (FLASH_ACR_LATENCY_kWS is k): the first test yields 0 and each later test
      yields the latency of the test before it. */
  function FlashBitsAsWritten(hclk: nat, l: Limits): nat
    requires |l.thresholds| == WaitStateCount
  {
    var t := l.thresholds;
    if hclk <= t[0] then 0
    else if hclk <= t[1] then 0
    else if hclk <= t[2] then 1
    else if hclk <= t[3] then 2
    else if hclk <= t[4] then 3
    else if hclk <= t[5] then 4
    else if hclk <= t[6] then 5
    else if hclk <= t[7] then 6
    else if hclk <= t[8] then 7
    else 8
  }
}
