/** The floating-point time codes of IGMPv3 and MLDv2 queries
    (internal/multicast/query_build.go; sections 4.1.1 and 4.1.7 of RFC 3376, section 5.1.3 of RFC 3810). */
module FloatingCode {
  import opened Arithmetic
  import opened PowersOfTwo

  /** The number of mantissa values: four bits in an octet code, twelve in a 16-bit code. */
  const OCTET_MANTISSAS: nat := 16
  const WORD_MANTISSAS: nat := 4096

  /** Both code widths: values below 8*m stand for themselves; above, a three-bit exponent
      scales a mantissa with an implicit leading one. */
  function Decode(m: nat, code: nat): nat
    requires m > 0
  {
    if code < 8 * m then code
    else (code % m + m) * Pow2(code / m % 8 + 3)
  }

  function DecodeFloating8(code: nat): nat { Decode(OCTET_MANTISSAS, code) }

  function DecodeFloating16(code: nat): nat { Decode(WORD_MANTISSAS, code) }

  lemma NextCode(m: nat, code: nat)
    requires m > 0 && code + 1 < 16 * m
    ensures Decode(m, code) < Decode(m, code + 1)
  {
    hide Decode;
    if code < 8 * m {
      DecodeLinear(m, code);
      if code + 1 < 8 * m {
        DecodeLinear(m, code + 1);
      } else {
        DecodeScaled(m, 8, 0);
        assert Pow2(3) == 8;
      }
    } else {
      QuotientRange(code, m);
      if code % m + 1 < m {
        NextMantissa(m, code / m, code % m);
      } else {
        QuotientRange(code + 1, m);
        NextExponent(m, code / m, code);
      }
    }
  }

  lemma DecodeLinear(m: nat, code: nat)
    requires m > 0 && code < 8 * m
    ensures Decode(m, code) == code
  {}

  lemma NextMantissa(m: nat, q: nat, r: nat)
    requires r + 1 < m && 8 <= q < 16
    ensures Decode(m, q * m + r) < Decode(m, q * m + r + 1)
  {
    hide Decode;
    DecodeScaled(m, q, r);
    DecodeScaled(m, q, r + 1);
    Distribute(r + m, Pow2(q - 5));
  }

  lemma NextExponent(m: nat, q: nat, code: nat)
    requires m > 0 && 8 <= q < 15 && code == q * m + (m - 1)
    ensures Decode(m, code) < Decode(m, code + 1)
  {
    hide Decode;
    DecodeScaled(m, q, m - 1);
    assert code + 1 == (q + 1) * m + 0;
    DecodeScaled(m, q + 1, 0);
    Distribute(m - 1 + m, Pow2(q - 5));
    Double(m, Pow2(q - 5));
  }

  lemma Double(m: nat, p: nat)
    ensures m * (2 * p) == (m - 1 + m + 1) * p
  {}

  /** Above the linear range the exponent is the quotient of the code less five. */
  lemma DecodeScaled(m: nat, q: nat, r: nat)
    requires r < m && 8 <= q < 16
    ensures q * m + r >= 8 * m
    ensures Decode(m, q * m + r) == (r + m) * Pow2(q - 5)
  {
    DivMod(q, r, m);
    MulMonotone(8, q, m);
  }

  lemma QuotientRange(code: nat, m: nat)
    requires m > 0 && 8 * m <= code < 16 * m
    ensures 8 <= code / m < 16 && code == (code / m) * m + code % m
    ensures code % m == m - 1 && code + 1 < 16 * m ==> code / m < 15
  {
    var q := code / m;
    assert code == q * m + code % m;
    MulMonotone(15, q, m);
    MulMonotone(q + 1, 8, m);
    MulMonotone(16, q, m);
  }

  /** A larger code always stands for a strictly larger time. */
  lemma {:induction false} DecodeStrictlyIncreases(m: nat, low: nat, high: nat)
    requires m > 0 && low < high < 16 * m
    ensures Decode(m, low) < Decode(m, high)
    decreases high
  {
    NextCode(m, high - 1);
    if low < high - 1 {
      DecodeStrictlyIncreases(m, low, high - 1);
    }
  }

  /** `code` is the least code for `value`: it reaches the value if any code does, and no smaller code does. */
  ghost predicate IsLeastCode(m: nat, code: nat, value: nat)
    requires m > 0
  {
    && code < 16 * m
    && (forall c :: 0 <= c < code ==> Decode(m, c) < value)
    && (Decode(m, code) >= value || code == 16 * m - 1)
  }

  method EncodeFloating8(value: nat) returns (code: nat)
    ensures IsLeastCode(OCTET_MANTISSAS, code, value)
  {
    if value < 128 {
      return value;
    }
    code := 128;
    while code <= 255
      invariant 128 <= code <= 256
      invariant forall c :: 0 <= c < code ==> Decode(OCTET_MANTISSAS, c) < value
    {
      if DecodeFloating8(code) >= value {
        return code;
      }
      code := code + 1;
    }
    return 255;
  }

  method EncodeFloating16(value: nat) returns (code: nat)
    ensures IsLeastCode(WORD_MANTISSAS, code, value)
  {
    if value < 0x8000 {
      return value;
    }
    code := 0x8000;
    while code <= 0xffff
      invariant 0x8000 <= code <= 0x1_0000
      invariant forall c :: 0 <= c < code ==> Decode(WORD_MANTISSAS, c) < value
    {
      if DecodeFloating16(code) >= value {
        return code;
      }
      code := code + 1;
    }
    return 0xffff;
  }

  /** The least code of a value is unique, so encoding undoes decoding for every code. */
  lemma EncodeUndoesDecode(m: nat, code: nat, again: nat)
    requires m > 0 && code < 16 * m && IsLeastCode(m, again, Decode(m, code))
    ensures again == code
  {
    if again < code {
      DecodeStrictlyIncreases(m, again, code);
    }
  }

  /** Encoding never shortens a time that has a code, and lengthens it by less than one mantissa step. */
  lemma EncodeRoundsUp(m: nat, value: nat, code: nat)
    requires m > 0 && IsLeastCode(m, code, value) && value <= Decode(m, 16 * m - 1)
    ensures value <= Decode(m, code)
    ensures code > 0 ==> Decode(m, code - 1) < value
    ensures value < 8 * m ==> Decode(m, code) == value
  {
    if value < 8 * m && code < value {
      DecodeStrictlyIncreases(m, code, value);
    }
  }
}
