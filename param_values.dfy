/**
 * `ParamValue` of src/optimizers/traits.rs: a hyperparameter is either a
 * float or a signed machine integer (`isize`, taken to be 64 bits wide).
 * `Display` prints it for humans and `Serialize` hands it to the JSON
 * serialiser; an integer is serialised through the cast `c as u64`.
 */
module ParamValues {
  import opened Wrappers

  /** 2^64 and 2^63, the moduli of the 64-bit integer types. */
  const TWO_64: int := 0x1_0000_0000_0000_0000
  const TWO_63: int := 0x8000_0000_0000_0000

  /** Rust's `isize` on a 64-bit target. */
  type Isize = c: int | -0x8000_0000_0000_0000 <= c < 0x8000_0000_0000_0000

  /** Rust's `u64`. */
  type U64 = n: int | 0 <= n < 0x1_0000_0000_0000_0000

  datatype ParamValue = Float(x: real) | Int(c: Isize)

  /** The JSON number a `ParamValue` is serialised as: an f64 or a u64. */
  datatype JsonNumber = F64(x: real) | U64Number(n: U64)

  // ---------------------------------------------------------------------
  // The cast `c as u64` and its inverse `n as isize`
  // ---------------------------------------------------------------------

  /** `c as u64`: the unique u64 congruent to `c` modulo 2^64. */
  function AsU64(c: Isize): (n: U64)
    ensures (n - c) % TWO_64 == 0
    ensures c < 0 ==> TWO_63 <= n
  {
    if c >= 0 then c else c + TWO_64
  }

  /** `n as isize`: the unique isize congruent to `n` modulo 2^64. */
  function AsIsize(n: U64): (c: Isize)
    ensures (n - c) % TWO_64 == 0
  {
    if n < TWO_63 then n else n - TWO_64
  }

  /** Serialising an integer through `as u64` loses nothing: casting back gives it again. */
  lemma CastRoundTrip(c: Isize)
    ensures AsIsize(AsU64(c)) == c
  {
  }

  /** A u64 that was produced by the cast is recovered from its isize reading. */
  lemma CastRoundTripUnsigned(n: U64)
    ensures AsU64(AsIsize(n)) == n
  {
  }

  /** `ParamValue::serialize`: floats unchanged, integers through `as u64`. */
  function Serialize(p: ParamValue): (j: JsonNumber)
    ensures p.Float? <==> j.F64?
    ensures p.Float? ==> j.x == p.x
    ensures p.Int? ==> AsIsize(j.n) == p.c
    ensures p.Int? && p.c >= 0 ==> j.n == p.c
  {
    match p
    case Float(x) => F64(x)
    case Int(c) => U64Number(AsU64(c))
  }

  /** Reads a serialised parameter back: a u64 is taken as the isize it was cast from. */
  function Deserialize(j: JsonNumber): ParamValue {
    match j
    case F64(x) => Float(x)
    case U64Number(n) => Int(AsIsize(n))
  }

  lemma SerializeRoundTrip(p: ParamValue)
    ensures Deserialize(Serialize(p)) == p
  {
  }

  /** Two distinct parameter values never serialise to the same JSON number. */
  lemma SerializeInjective(p: ParamValue, q: ParamValue)
    requires Serialize(p) == Serialize(q)
    ensures p == q
  {
    SerializeRoundTrip(p);
    SerializeRoundTrip(q);
  }

  // ---------------------------------------------------------------------
  // Decimal text, as `write!(f, "{}", c)` prints an integer
  // ---------------------------------------------------------------------

  predicate IsDigit(ch: char) {
    '0' <= ch <= '9'
  }

  predicate AllDigits(s: string) {
    forall i :: 0 <= i < |s| ==> IsDigit(s[i])
  }

  function DigitChar(d: nat): (ch: char)
    requires d < 10
    ensures IsDigit(ch)
  {
    (('0' as int) + d) as char
  }

  function DigitValue(ch: char): (d: nat)
    requires IsDigit(ch)
    ensures d < 10
  {
    (ch as int) - ('0' as int)
  }

  /** The decimal digits of `n`, most significant first, without leading zeros. */
  function NatDigits(n: nat): (s: string)
    ensures |s| >= 1 && AllDigits(s)
    ensures s[0] == '0' ==> n == 0 && |s| == 1
  {
    if n < 10 then [DigitChar(n)] else NatDigits(n / 10) + [DigitChar(n % 10)]
  }

  /** The number a string of decimal digits denotes (0 for the empty string). */
  function DigitsValue(s: string): nat
    requires AllDigits(s)
  {
    if s == [] then 0 else DigitsValue(s[..|s| - 1]) * 10 + DigitValue(s[|s| - 1])
  }

  lemma {:induction false} NatDigitsRoundTrip(n: nat)
    ensures DigitsValue(NatDigits(n)) == n
  {
    if n >= 10 {
      var s := NatDigits(n / 10);
      var t := NatDigits(n);
      assert t == s + [DigitChar(n % 10)];
      assert t[..|t| - 1] == s;
      NatDigitsRoundTrip(n / 10);
    } else {
      var t := NatDigits(n);
      assert t[..|t| - 1] == [];
    }
  }

  /**
   * How Rust's `{}` prints a signed integer: a '-' for negatives, then the
   * digits of its magnitude, with no leading zero unless the integer is 0.
   */
  function Decimal(c: int): (text: string)
    ensures |text| >= 1 && (text[0] == '-' <==> c < 0)
    ensures var digits := if c < 0 then text[1..] else text;
      |digits| >= 1 && AllDigits(digits) && (digits[0] == '0' ==> c == 0 && |digits| == 1)
  {
    if c < 0 then
      var digits := NatDigits(-c);
      assert ("-" + digits)[1..] == digits;
      "-" + digits
    else NatDigits(c)
  }

  /** Reads back an optional '-' followed by at least one decimal digit. */
  function ParseDecimal(s: string): Option<int> {
    if |s| >= 2 && s[0] == '-' && AllDigits(s[1..]) then Some(0 - DigitsValue(s[1..]))
    else if |s| >= 1 && AllDigits(s) then Some(DigitsValue(s))
    else None
  }

  lemma DecimalRoundTrip(c: int)
    ensures ParseDecimal(Decimal(c)) == Some(c)
  {
    var s := Decimal(c);
    if c < 0 {
      var digits := NatDigits(-c);
      assert s == "-" + digits;
      assert s[1..] == digits;
      NatDigitsRoundTrip(-c);
    } else {
      assert s == NatDigits(c);
      assert IsDigit(s[0]);
      NatDigitsRoundTrip(c);
    }
  }

  /** Distinct integers print differently. */
  lemma DecimalInjective(c: int, d: int)
    requires Decimal(c) == Decimal(d)
    ensures c == d
  {
    DecimalRoundTrip(c);
    DecimalRoundTrip(d);
  }

  /**
   * `ParamValue::fmt`. A float is printed with two decimals (`{:.2}`); that
   * floating-point formatting is outside the model and is the parameter
   * `fixed2`. An integer is printed as plain decimal text.
   */
  function Display(p: ParamValue, fixed2: real -> string): (text: string)
    ensures p.Float? ==> text == fixed2(p.x)
    ensures p.Int? ==> ParseDecimal(text) == Some(p.c)
    ensures p.Int? ==> (text[0] == '-' <==> p.c < 0)
    ensures p.Int? ==> var digits := if p.c < 0 then text[1..] else text;
      |digits| >= 1 && AllDigits(digits) && (digits[0] == '0' ==> p.c == 0 && |digits| == 1)
  {
    match p
    case Float(x) => fixed2(x)
    case Int(c) => DecimalRoundTrip(c); Decimal(c)
  }
}
