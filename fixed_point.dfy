/**
 * The 18-decimal fixed-point arithmetic the extend validator performs on
 * `BigNumber`s: arbitrary-precision integers whose `div` truncates toward
 * zero (unlike Dafny's Euclidean `/`).
 */
module FixedPoint {

  /** 10^18, the denominator of the market's fee fractions. */
  const WAD: int := 1_000_000_000_000_000_000

  /** 2^256: one more than the largest Solidity `uint256`. */
  const UINT256_LIMIT: int := 0x1_0000_0000_0000_0000_0000_0000_0000_0000_0000_0000_0000_0000_0000_0000_0000_0000_0000_0000_0000_0000

  /** The range a Solidity `uint256` can hold. */
  predicate IsUint256(x: int)
  {
    0 <= x < UINT256_LIMIT
  }

  /**
   * `BigNumber.div` by a positive divisor: the quotient truncated toward zero.
   * For a non-negative dividend it is the floor of a / b, for a negative one
   * the ceiling.
   */
  function TruncDiv(a: int, b: int): (q: int)
    requires b > 0
    ensures a >= 0 ==> 0 <= q && q * b <= a < q * b + b
    ensures a < 0 ==> q <= 0 && q * b - b < a <= q * b
  {
    if a >= 0 then
      DivBounds(a, b);
      a / b
    else
      DivBounds(-a, b);
      assert -((-a) / b) * b == -(((-a) / b) * b);
      -((-a) / b)
  }

  /** Euclidean division of a non-negative dividend: the quotient is non-negative and within one divisor. */
  lemma DivBounds(a: int, b: int)
    requires a >= 0 && b > 0
    ensures 0 <= a / b && (a / b) * b <= a < (a / b) * b + b
  {
    assert a == (a / b) * b + a % b;
    if a / b < 0 {
      MulLeMul(a / b, -1, b);
    }
  }

  /** `amount.mul(fee).div(10^18)`: the part of `amount` a fee fraction takes. */
  function FeeOf(amount: int, fee: int): int
  {
    TruncDiv(amount * fee, WAD)
  }

  /** `amount - frontend_fee - protocol_fee`. */
  function AfterFees(amount: int, frontendFee: int, protocolFee: int): int
  {
    amount - FeeOf(amount, frontendFee) - FeeOf(amount, protocolFee)
  }

  lemma MulLeMul(x: int, y: int, d: int)
    requires x <= y && d >= 0
    ensures x * d <= y * d
  {
    assert y * d - x * d == (y - x) * d;
  }

  /**
   * The truncated quotient reaches a rate `r` exactly when the dividend covers
   * `r` for the whole divisor; for a rate of zero or less truncation toward
   * zero lets a dividend up to `b - 1` short of `r * b` through.
   */
  lemma TruncDivAtLeast(a: int, b: int, r: int)
    requires b > 0
    ensures r >= 1 ==> (TruncDiv(a, b) >= r <==> a >= r * b)
    ensures r <= 0 ==> (TruncDiv(a, b) >= r <==> a > r * b - b)
  {
    var q := TruncDiv(a, b);
    if q >= r {
      MulLeMul(r, q, b);
    } else {
      MulLeMul(q + 1, r, b);
    }
  }

  /**
   * With fee fractions that are non-negative and together at most one
   * (10^18), the fees never exceed the amount: what is left after fees lies
   * between zero and the amount.
   */
  lemma AfterFeesBounds(amount: int, frontendFee: int, protocolFee: int)
    requires amount >= 0 && frontendFee >= 0 && protocolFee >= 0
    requires frontendFee + protocolFee <= WAD
    ensures 0 <= FeeOf(amount, frontendFee) && 0 <= FeeOf(amount, protocolFee)
    ensures 0 <= AfterFees(amount, frontendFee, protocolFee) <= amount
  {
    var f := FeeOf(amount, frontendFee);
    var p := FeeOf(amount, protocolFee);
    assert amount * frontendFee >= 0 && amount * protocolFee >= 0;
    assert f * WAD <= amount * frontendFee;
    assert p * WAD <= amount * protocolFee;
    assert amount * frontendFee + amount * protocolFee == amount * (frontendFee + protocolFee);
    MulLeMul(frontendFee + protocolFee, WAD, amount);
    assert (f + p) * WAD <= amount * WAD;
    if f + p > amount {
      MulLeMul(amount + 1, f + p, WAD);
    }
  }
}
