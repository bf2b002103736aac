/** The cache-key fingerprint of a bearer token: a 31-multiplier rolling hash
    over the token's UTF-16 code units, kept in signed 32-bit range and
    rendered as a decimal numeral (src/contexts/SupabaseContext.tsx,
    `hashToken`). */
module TokenHash {
  import opened Wrappers

  /** A UTF-16 code unit, the value `charCodeAt` returns. */
  newtype CodeUnit = x: int | 0 <= x < 0x1_0000

  /** A JavaScript string, as the sequence of its UTF-16 code units. */
  type Token = seq<CodeUnit>

  const TWO_32: int := 0x1_0000_0000
  const TWO_31: int := 0x8000_0000

  predicate IsInt32(x: int)
  {
    -TWO_31 <= x < TWO_31
  }

  /** ECMAScript ToInt32 on an integral number: the signed 32-bit value
      congruent to `x` modulo 2^32. */
  function ToInt32(x: int): (r: int)
    ensures IsInt32(r)
    ensures (r - x) % TWO_32 == 0
  {
    (x + TWO_31) % TWO_32 - TWO_31
  }

  /** `x << 5` on a JavaScript number: the operand is converted to int32,
      shifted, and the low 32 bits are read back as a signed value. */
  function ShiftLeft5(x: int): (r: int)
    ensures IsInt32(r)
    ensures (r - 32 * ToInt32(x)) % TWO_32 == 0
  {
    ToInt32(ToInt32(x) * 32)
  }

  /** `x & x` on a JavaScript number whose value is integral: ToInt32 of both
      operands, and the bitwise and of a value with itself is the value. */
  function SelfAnd(x: int): (r: int)
    ensures IsInt32(r)
    ensures (r - x) % TWO_32 == 0
    ensures IsInt32(x) ==> r == x
  {
    ToInt32(x)
  }

  /** Adding a multiple of 2^32 does not change the int32 value. */
  lemma ToInt32Shift(y: int, j: int)
    ensures ToInt32(y + TWO_32 * j) == ToInt32(y)
  {
  }

  /** The specification of one hashing step: h := int32(31 * h + c). */
  function HashStep(h: int, c: CodeUnit): int
  {
    ToInt32(31 * h + c as int)
  }

  /** The hash of a token, defined by the recurrence h := int32(31 * h + c)
      over its code units, starting from 0. */
  function HashValue(s: Token): (h: int)
    ensures IsInt32(h)
  {
    if s == [] then 0 else HashStep(HashValue(s[..|s| - 1]), s[|s| - 1])
  }

  /** The polynomial sum of the code units in base 31, without wrapping:
      the reference value the 32-bit hash approximates. */
  function Polynomial(s: Token): int
  {
    if s == [] then 0 else 31 * Polynomial(s[..|s| - 1]) + s[|s| - 1] as int
  }

  /** Wrapping at every step gives the same result as wrapping once at the
      end. */
  lemma HashStepCongruent(x: int, c: CodeUnit)
    ensures HashStep(ToInt32(x), c) == ToInt32(31 * x + c as int)
  {
    var q := (ToInt32(x) - x) / TWO_32;
    assert ToInt32(x) - x == TWO_32 * q;
    assert 31 * ToInt32(x) + c as int == 31 * x + c as int + TWO_32 * (31 * q);
    ToInt32Shift(31 * x + c as int, 31 * q);
  }

  /** The hash is the base-31 polynomial of the code units reduced to int32. */
  lemma {:induction false} HashIsPolynomial(s: Token)
    ensures HashValue(s) == ToInt32(Polynomial(s))
  {
    if s != [] {
      var init := s[..|s| - 1];
      HashIsPolynomial(init);
      HashStepCongruent(Polynomial(init), s[|s| - 1]);
    }
  }

  /** One pass of the source's loop body, `(hash << 5) - hash + char`
      followed by `hash & hash`, is the specified step. */
  lemma LoopBodyIsHashStep(h: int, c: CodeUnit)
    requires IsInt32(h)
    ensures SelfAnd(ShiftLeft5(h) - h + c as int) == HashStep(h, c)
  {
    var q := (ShiftLeft5(h) - 32 * h) / TWO_32;
    assert ShiftLeft5(h) - 32 * h == TWO_32 * q;
    assert ShiftLeft5(h) - h + c as int == 31 * h + c as int + TWO_32 * q;
    ToInt32Shift(31 * h + c as int, q);
  }

  /** Different tokens can hash alike:
      "Aa" and "BB" have the same hash, so the hash is not injective. */
  lemma HashCollides()
    ensures HashValue([65, 97]) == HashValue([66, 66])
  {
    var aa: Token, bb: Token := [65, 97], [66, 66];
    assert aa[..1][..0] == [] && bb[..1][..0] == [];
    assert ToInt32(65) == 65 && ToInt32(66) == 66 && ToInt32(2112) == 2112;
    assert HashValue(aa[..1]) == 65;
    assert HashValue(bb[..1]) == 66;
  }

  // ---- Decimal rendering (Number.prototype.toString on an integer) ----

  predicate IsDigit(c: char)
  {
    '0' <= c <= '9'
  }

  predicate AllDigits(s: string)
  {
    forall i :: 0 <= i < |s| ==> IsDigit(s[i])
  }

  function DigitChar(d: nat): (c: char)
    requires d < 10
    ensures IsDigit(c) && (c as int) - ('0' as int) == d
  {
    "0123456789"[d]
  }

  /** The decimal digits of a natural number, most significant first, with no
      leading zero. */
  function NatToDecimal(n: nat): (s: string)
    ensures |s| >= 1 && AllDigits(s)
    ensures n > 0 ==> s[0] != '0'
    decreases n
  {
    if n < 10 then [DigitChar(n)] else NatToDecimal(n / 10) + [DigitChar(n % 10)]
  }

  /** The decimal numeral of an integer, with a leading minus sign when it is
      negative. */
  function IntToDecimal(n: int): (s: string)
    ensures |s| >= 1
    ensures s[0] == '-' || IsDigit(s[0])
  {
    if n < 0 then "-" + NatToDecimal(-n) else NatToDecimal(n)
  }

  /** Reads a string of decimal digits back as a number. */
  function ParseNat(s: string): nat
    requires |s| >= 1 && AllDigits(s)
  {
    var last := (s[|s| - 1] as int) - ('0' as int);
    if |s| == 1 then last else 10 * ParseNat(s[..|s| - 1]) + last
  }

  /** Reads a decimal numeral, optionally negative, back as an integer. */
  function ParseDecimal(s: string): Option<int>
  {
    if |s| >= 2 && s[0] == '-' && AllDigits(s[1..]) then Some(0 - ParseNat(s[1..]))
    else if |s| >= 1 && AllDigits(s) then Some(ParseNat(s))
    else None
  }

  lemma {:induction false} NatDecimalRoundTrip(n: nat)
    ensures ParseNat(NatToDecimal(n)) == n
    decreases n
  {
    if n >= 10 {
      var s := NatToDecimal(n);
      assert s[..|s| - 1] == NatToDecimal(n / 10);
      NatDecimalRoundTrip(n / 10);
    }
  }

  /** The rendered numeral determines the integer: different hash values give
      different keys. */
  lemma DecimalRoundTrip(n: int)
    ensures ParseDecimal(IntToDecimal(n)) == Some(n)
  {
    var s := IntToDecimal(n);
    if n < 0 {
      var t := NatToDecimal(-n);
      assert s == "-" + t;
      assert s[1..] == t;
      NatDecimalRoundTrip(-n);
      assert AllDigits(s[1..]);
    } else {
      assert s == NatToDecimal(n);
      assert s[0] != '-';
      NatDecimalRoundTrip(n);
    }
  }

  /** The source's `hashToken`: a loop over the code units that updates
      `hash` with a shift, a subtraction, an addition and a self-and, then
      `hash.toString()`. */
  method HashToken(token: Token) returns (key: string)
    ensures key == IntToDecimal(HashValue(token))
    ensures ParseDecimal(key) == Some(HashValue(token))
  {
    var hash := 0;
    var i := 0;
    while i < |token|
      invariant 0 <= i <= |token|
      invariant hash == HashValue(token[..i])
    {
      var code := token[i];
      LoopBodyIsHashStep(hash, code);
      hash := ShiftLeft5(hash) - hash + code as int;
      hash := SelfAnd(hash);
      assert token[..i + 1][..i] == token[..i];
      i := i + 1;
    }
    assert token[..|token|] == token;
    key := IntToDecimal(hash);
    DecimalRoundTrip(hash);
  }
}
