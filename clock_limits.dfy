/** Voltage-range dependent limits of the STM32G4 clock tree (hal_lld.h,
    "Voltage related limits"), and the fixed internal oscillator frequencies. */
module Stm32g4Limits {
  import opened Wrappers

  /** Internal clock sources, in Hz. */
  const Hsi16Clk: nat := 16000000
  const Hsi48Clk: nat := 48000000
  const LsiClk: nat := 32000

  /** PWR_CR1 VOS field codes (the register value is the code shifted left by 9). */
  const VosRange1: nat := 1
  const VosRange2: nat := 2

  /** Number of flash wait-state thresholds (0WS .. 8WS). */
  const WaitStateCount: nat := 9

  datatype Limits = Limits(
    sysclkMax: nat,
    hseclkMax: nat, hseclkBypMax: nat, hseclkMin: nat, hseclkBypMin: nat,
    lseclkMax: nat, lseclkBypMax: nat, lseclkMin: nat, lseclkBypMin: nat,
    pllinMax: nat, pllinMin: nat,
    pllvcoMax: nat, pllvcoMin: nat,
    pllpMax: nat, pllpMin: nat,
    pllqMax: nat, pllqMin: nat,
    pllrMax: nat, pllrMin: nat,
    pclk1Max: nat, pclk2Max: nat,
    adcclkMax: nat,
    /** thresholds[k] is STM32_<k>WS_THRESHOLD: the highest HCLK allowed with k wait states. */
    thresholds: seq<nat>)

  /** For one voltage range: every range has a lower bound at most its upper bound,
      the table has one threshold per wait-state count, the top used threshold is
      SYSCLK_MAX, and the thresholds that are in use increase strictly. */
  predicate WellFormed(l: Limits) {
    && l.hseclkMin <= l.hseclkMax && l.hseclkBypMin <= l.hseclkBypMax
    && l.lseclkMin <= l.lseclkMax && l.lseclkBypMin <= l.lseclkBypMax
    && l.pllinMin <= l.pllinMax && l.pllvcoMin <= l.pllvcoMax
    && l.pllpMin <= l.pllpMax && l.pllqMin <= l.pllqMax && l.pllrMin <= l.pllrMax
    && l.pclk1Max <= l.sysclkMax && l.pclk2Max <= l.sysclkMax
    && |l.thresholds| == WaitStateCount
    && (exists top :: 0 <= top < |l.thresholds| && l.thresholds[top] == l.sysclkMax
          && forall i :: 0 < i <= top ==> l.thresholds[i - 1] < l.thresholds[i])
  }

  const Range1: Limits := Limits(
    170000000,
    48000000, 48000000, 8000000, 8000000,
    32768, 1000000, 32768, 32768,
    16000000, 2660000,
    344000000, 96000000,
    170000000, 2064500,
    170000000, 8000000,
    170000000, 8000000,
    170000000, 170000000,
    60000000,
    [20000000, 40000000, 60000000, 80000000, 100000000,
     120000000, 140000000, 160000000, 170000000])

  const Range2: Limits := Limits(
    26000000,
    26000000, 26000000, 8000000, 8000000,
    32768, 1000000, 32768, 32768,
    16000000, 2660000,
    128000000, 96000000,
    26000000, 2064500,
    26000000, 8000000,
    26000000, 8000000,
    26000000, 26000000,
    26000000,
    [8000000, 16000000, 26000000, 0, 0, 0, 0, 0, 0])

  /** The limits selected by STM32_VOS; any code other than RANGE1 or RANGE2 is
      "invalid STM32_VOS value specified". */
  function LimitsFor(vos: nat): (r: Option<Limits>)
    ensures r.Some? <==> vos == VosRange1 || vos == VosRange2
    ensures r.Some? ==> WellFormed(r.value)
    ensures r.Some? ==> r.value.sysclkMax == (if vos == VosRange1 then 170000000 else 26000000)
  {
    if vos == VosRange1 then
      assert Range1.thresholds[8] == Range1.sysclkMax;
      Some(Range1)
    else if vos == VosRange2 then
      assert Range2.thresholds[2] == Range2.sysclkMax;
      Some(Range2)
    else None
  }
}
