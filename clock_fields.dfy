/** Register field encodings of the STM32G4 RCC configuration (hal_lld.h):
    the PLL divider/multiplier fields of RCC_PLLCFGR and the prescaler codes of
    RCC_CFGR. Shifts are written out as multiplication by a power of two. */
module Stm32g4Fields {
  import opened Wrappers

  function Pow2(k: nat): (r: nat)
    ensures r >= 1
  {
    if k == 0 then 1 else 2 * Pow2(k - 1)
  }

  /** `v << k` */
  function Shl(v: nat, k: nat): nat {
    v * Pow2(k)
  }

  /** The `width`-bit field of `reg` that starts at bit `pos`. */
  function FieldOf(reg: nat, pos: nat, width: nat): nat {
    (reg / Pow2(pos)) % Pow2(width)
  }

  /** `reg` has no bit set outside bits pos .. pos + width - 1. */
  predicate Within(reg: nat, pos: nat, width: nat) {
    reg % Pow2(pos) == 0 && reg < Pow2(pos + width)
  }

  lemma {:induction false} Pow2Add(a: nat, b: nat)
    ensures Pow2(a + b) == Pow2(a) * Pow2(b)
  {
    if a > 0 {
      Pow2Add(a - 1, b);
      assert Pow2(a + b) == 2 * Pow2(a - 1 + b);
    }
  }

  /** The powers of two that the PLLCFGR field positions use. */
  lemma Pow2High()
    ensures Pow2(17) == 131072 && Pow2(18) == 262144
    ensures Pow2(21) == 2097152 && Pow2(23) == 8388608
    ensures Pow2(25) == 33554432 && Pow2(27) == 134217728
  {
    assert Pow2(10) == 1024;
    assert Pow2(17) == 131072;
    assert Pow2(21) == 2097152;
    assert Pow2(25) == 33554432;
  }

  // ---------------------------------------------------------------- RCC_PLLCFGR

  /** STM32_PLLM: accepted for 1..16 and encoded as (M - 1) << 4. */
  function PllmField(m: nat): (r: Option<nat>)
    ensures r.Some? <==> 1 <= m <= 16
    ensures r.Some? ==> Within(r.value, 4, 4) && FieldOf(r.value, 4, 4) + 1 == m
  {
    if 1 <= m <= 16 then
      Some(Shl(m - 1, 4))
    else None
  }

  /** STM32_PLLN: accepted for 8..127 and encoded as N << 8. */
  function PllnField(n: nat): (r: Option<nat>)
    ensures r.Some? <==> 8 <= n <= 127
    ensures r.Some? ==> Within(r.value, 8, 7) && FieldOf(r.value, 8, 7) == n
  {
    if 8 <= n <= 127 then
      Some(Shl(n, 8))
    else None
  }

  /** STM32_PLLP: only 7 (bit 17 clear) and 17 (bit 17 set) are accepted. */
  function PllpField(p: nat): (r: Option<nat>)
    ensures r.Some? <==> p == 7 || p == 17
    ensures r.Some? ==> Within(r.value, 17, 1) && (FieldOf(r.value, 17, 1) == 1 <==> p == 17)
  {
    Pow2High();
    if p == 7 then
      Some(Shl(0, 17))
    else if p == 17 then
      Some(Shl(1, 17))
    else None
  }

  /** The two-bit code of the PLLQ and PLLR dividers, as the chains of `#elif`
      write it: 2, 4, 6, 8 map to 0, 1, 2, 3. */
  function QrCode(v: nat): Option<nat> {
    if v == 2 then Some(0)
    else if v == 4 then Some(1)
    else if v == 6 then Some(2)
    else if v == 8 then Some(3)
    else None
  }

  /** The code of a PLLQ/PLLR divider is v / 2 - 1, and only the even values 2..8 have one. */
  lemma QrCodeClosedForm(v: nat)
    ensures QrCode(v).Some? <==> v in {2, 4, 6, 8}
    ensures QrCode(v).Some? ==> QrCode(v).value == v / 2 - 1 && QrCode(v).value < 4
  {
  }

  /** STM32_PLLQ: (Q / 2 - 1) << 21 for Q in {2, 4, 6, 8}. */
  function PllqField(q: nat): (r: Option<nat>)
    ensures r.Some? <==> q in {2, 4, 6, 8}
    ensures r.Some? ==> Within(r.value, 21, 2) && FieldOf(r.value, 21, 2) == q / 2 - 1
  {
    QrCodeClosedForm(q);
    Pow2High();
    match QrCode(q)
    case None => None
    case Some(code) =>
      Some(Shl(code, 21))
  }

  /** STM32_PLLR: (R / 2 - 1) << 25 for R in {2, 4, 6, 8}. */
  function PllrField(rdiv: nat): (r: Option<nat>)
    ensures r.Some? <==> rdiv in {2, 4, 6, 8}
    ensures r.Some? ==> Within(r.value, 25, 2) && FieldOf(r.value, 25, 2) == rdiv / 2 - 1
  {
    QrCodeClosedForm(rdiv);
    Pow2High();
    match QrCode(rdiv)
    case None => None
    case Some(code) =>
      Some(Shl(code, 25))
  }

  // ------------------------------------------------------------------ RCC_CFGR

  /** STM32_HPRE_DIVd: the HPRE field code for an AHB divisor d. */
  function HpreCode(d: nat): Option<nat> {
    if d == 1 then Some(0)
    else if d == 2 then Some(8)
    else if d == 4 then Some(9)
    else if d == 8 then Some(10)
    else if d == 16 then Some(11)
    else if d == 64 then Some(12)
    else if d == 128 then Some(13)
    else if d == 256 then Some(14)
    else if d == 512 then Some(15)
    else None
  }

  /** The AHB divisor selected by an HPRE field code (the STM32_HCLK chain);
      any other code is "invalid STM32_HPRE value specified". */
  function HpreDivisor(code: nat): Option<nat> {
    if code == 0 then Some(1)
    else if code == 8 then Some(2)
    else if code == 9 then Some(4)
    else if code == 10 then Some(8)
    else if code == 11 then Some(16)
    else if code == 12 then Some(64)
    else if code == 13 then Some(128)
    else if code == 14 then Some(256)
    else if code == 15 then Some(512)
    else None
  }

  /** HPRE decoding inverts the STM32_HPRE_DIVd encoding, in both directions,
      and the divisors are exactly 1, 2, 4, 8, 16, 64, 128, 256, 512. */
  lemma HpreRoundTrip(d: nat, code: nat)
    ensures HpreCode(d).Some? <==> d in {1, 2, 4, 8, 16, 64, 128, 256, 512}
    ensures HpreCode(d).Some? ==> HpreDivisor(HpreCode(d).value) == Some(d)
    ensures HpreDivisor(code).Some? ==> HpreCode(HpreDivisor(code).value) == Some(code)
    ensures HpreDivisor(code).Some? <==> code == 0 || 8 <= code <= 15
  {
  }

  /** STM32_PPRE1_DIVd / STM32_PPRE2_DIVd: the APB prescaler field code for a divisor d. */
  function PpreCode(d: nat): Option<nat> {
    if d == 1 then Some(0)
    else if d == 2 then Some(4)
    else if d == 4 then Some(5)
    else if d == 8 then Some(6)
    else if d == 16 then Some(7)
    else None
  }

  /** The APB divisor selected by a PPRE1/PPRE2 field code (the STM32_PCLK1 and
      STM32_PCLK2 chains); any other code is an "invalid STM32_PPREx value". */
  function PpreDivisor(code: nat): Option<nat> {
    if code == 0 then Some(1)
    else if code == 4 then Some(2)
    else if code == 5 then Some(4)
    else if code == 6 then Some(8)
    else if code == 7 then Some(16)
    else None
  }

  lemma PpreRoundTrip(d: nat, code: nat)
    ensures PpreCode(d).Some? <==> d in {1, 2, 4, 8, 16}
    ensures PpreCode(d).Some? ==> PpreDivisor(PpreCode(d).value) == Some(d)
    ensures PpreDivisor(code).Some? ==> PpreCode(PpreDivisor(code).value) == Some(code)
    ensures PpreDivisor(code).Some? <==> code == 0 || 4 <= code <= 7
  {
  }

  /** The MCO prescaler selected by an MCOPRE field code: 2^code for codes 0..4. */
  function McopreDivisor(code: nat): (r: Option<nat>)
    ensures r.Some? <==> code <= 4
    ensures r.Some? ==> r.value == Pow2(code)
  {
    if code == 0 then Some(1)
    else if code == 1 then Some(2)
    else if code == 2 then Some(4)
    else if code == 3 then Some(8)
    else if code == 4 then Some(16)
    else None
  }
}
