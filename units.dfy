/** Unit conversions and small numeric helpers shared by the score calculators. */
module Units {
  import opened Wrappers

  /** Creatinine conversion factor: 1 mg/dL is about 88.4 µmol/L. */
  const CreatinineUmolPerMgdl: real := 88.4

  /** Bilirubin conversion factor: 1 mg/dL is about 17.1 µmol/L. */
  const BilirubinUmolPerMgdl: real := 17.1

  /** µmol/L of creatinine to mg/dL. Negative inputs pass through unchecked. */
  function CreatinineToMgdl(v: real): (mg: real)
    ensures mg * CreatinineUmolPerMgdl == v
    ensures (mg < 0.0 <==> v < 0.0) && (mg == 0.0 <==> v == 0.0)
  {
    v / CreatinineUmolPerMgdl
  }

  /** µmol/L of bilirubin to mg/dL. Negative inputs pass through unchecked. */
  function BilirubinToMgdl(v: real): (mg: real)
    ensures mg * BilirubinUmolPerMgdl == v
    ensures (mg < 0.0 <==> v < 0.0) && (mg == 0.0 <==> v == 0.0)
  {
    v / BilirubinUmolPerMgdl
  }

  /** Both conversions preserve order, so a banded score reads the same
      ranking in either unit. */
  lemma ConversionsMonotone(a: real, b: real)
    requires a <= b
    ensures CreatinineToMgdl(a) <= CreatinineToMgdl(b)
    ensures BilirubinToMgdl(a) <= BilirubinToMgdl(b)
  {
  }

  /** `x` forced into [lo, hi]. */
  function Clamp(x: real, lo: real, hi: real): (r: real)
    requires lo <= hi
    ensures lo <= r <= hi
    ensures lo <= x <= hi ==> r == x
    ensures x < lo ==> r == lo
    ensures x > hi ==> r == hi
  {
    if x < lo then lo else if x > hi then hi else x
  }

  /** Clamping preserves order. */
  lemma ClampMonotone(x: real, y: real, lo: real, hi: real)
    requires lo <= hi && x <= y
    ensures Clamp(x, lo, hi) <= Clamp(y, lo, hi)
  {
  }

  /** JavaScript's `Math.round`: the nearest integer, halves rounded up. */
  function Round(x: real): (n: int)
    ensures x - 0.5 < n as real <= x + 0.5
  {
    (x + 0.5).Floor
  }

  /** Rounding an integral value changes nothing. */
  lemma RoundIntegral(n: int)
    ensures Round(n as real) == n
  {
  }

  /** A form number read as a JavaScript condition: present and non-zero. */
  predicate Truthy(x: Option<real>) {
    x.Some? && x.value != 0.0
  }

  /** `x || 0`: a blank number reads as 0. */
  function OrZero(x: Option<real>): (r: real)
    ensures x.Some? ==> r == x.value
    ensures x.None? ==> r == 0.0
  {
    x.GetOr(0.0)
  }

  /** `x || 1` on a number: 0 is replaced by 1, so the result is a safe divisor. */
  function OrOne(x: real): (r: real)
    ensures r != 0.0
    ensures x != 0.0 ==> r == x
    ensures x == 0.0 ==> r == 1.0
  {
    if x != 0.0 then x else 1.0
  }
}
