/** Bytes, NUL-terminated C strings and the C library's `atoi`, as the firmware's
    receive handler uses them. */
module CText {

  /** A C `char` on the target: one unsigned byte. */
  newtype Byte = x: int | 0 <= x < 256

  const NUL: Byte := 0

  /** The C string a buffer holds: every byte before the first NUL. */
  function CStr(buf: seq<Byte>): (s: seq<Byte>)
    ensures |s| <= |buf| && s == buf[..|s|]
    ensures NUL !in s
    ensures |s| < |buf| ==> buf[|s|] == NUL
  {
    if buf == [] || buf[0] == NUL then [] else [buf[0]] + CStr(buf[1..])
  }

  /** `isspace` in the C locale: space, \t, \n, \v, \f, \r. */
  predicate IsSpace(b: Byte) { b == 32 || 9 <= b <= 13 }

  predicate IsDigit(b: Byte) { 48 <= b <= 57 }

  predicate AllDigits(d: seq<Byte>) { forall i | 0 <= i < |d| :: IsDigit(d[i]) }

  function Pow10(n: nat): (p: nat)
    ensures p >= 1
  {
    if n == 0 then 1 else 10 * Pow10(n - 1)
  }

  lemma {:induction false} Pow10Monotone(m: nat, n: nat)
    requires m <= n
    ensures Pow10(m) <= Pow10(n)
  {
    if m < n { Pow10Monotone(m, n - 1); }
  }

  /** `s` with its leading white space removed. */
  function SkipSpace(s: seq<Byte>): (r: seq<Byte>)
    ensures |r| <= |s| && r == s[|s| - |r|..]
    ensures forall i | 0 <= i < |s| - |r| :: IsSpace(s[i])
    ensures r == [] || !IsSpace(r[0])
  {
    if s != [] && IsSpace(s[0]) then SkipSpace(s[1..]) else s
  }

  /** The longest prefix of `s` made of decimal digits. */
  function LeadingDigits(s: seq<Byte>): (d: seq<Byte>)
    ensures |d| <= |s| && d == s[..|d|]
    ensures AllDigits(d)
    ensures |d| < |s| ==> !IsDigit(s[|d|])
  {
    if s != [] && IsDigit(s[0]) then [s[0]] + LeadingDigits(s[1..]) else []
  }

  /** The number a run of decimal digits spells, most significant first. */
  function DigitsValue(d: seq<Byte>): (v: nat)
    requires AllDigits(d)
    ensures v < Pow10(|d|)
  {
    if d == [] then 0 else DigitsValue(d[..|d| - 1]) * 10 + (d[|d| - 1] - 48) as int
  }

  /** `s` without its leading '+' or '-', if it has one. */
  function StripSign(t: seq<Byte>): seq<Byte>
  {
    if t != [] && (t[0] == 45 || t[0] == 43) then t[1..] else t
  }

  /** `atoi`: skip white space, read an optional sign, then as many decimal digits
      as follow; anything else ends the number, and no digits at all give 0. */
  function Atoi(s: seq<Byte>): (v: int)
    ensures -(Pow10(|s|) - 1) <= v <= Pow10(|s|) - 1
    ensures LeadingDigits(StripSign(SkipSpace(s))) == [] ==> v == 0
  {
    var t := SkipSpace(s);
    var d := LeadingDigits(StripSign(t));
    Pow10Monotone(|d|, |s|);
    if t != [] && t[0] == 45 then -(DigitsValue(d) as int) else DigitsValue(d)
  }

  const Int32Max := 0x7fff_ffff

  predicate InInt32(v: int) { -Int32Max - 1 <= v <= Int32Max }

  /** `atoi` of at most nine bytes cannot leave the range of a 32-bit `int`. */
  lemma {:induction false} AtoiFitsInt32(s: seq<Byte>)
    requires |s| <= 9
    ensures InInt32(Atoi(s))
  {
    Pow10Monotone(|s|, 9);
    assert Pow10(9) == 1_000_000_000 by {
      assert Pow10(0) == 1;
      assert Pow10(3) == 1000;
      assert Pow10(6) == 1_000_000;
    }
  }

  /** A C string of decimal digits reads back as the number it spells. */
  lemma {:induction false} AtoiOfDigits(d: seq<Byte>)
    requires d != [] && AllDigits(d)
    ensures Atoi(d) == DigitsValue(d)
  {
    assert !IsSpace(d[0]);
    assert SkipSpace(d) == d;
    DigitsAreLeading(d);
  }

  lemma {:induction false} DigitsAreLeading(d: seq<Byte>)
    requires AllDigits(d)
    ensures LeadingDigits(d) == d
  {
    if d != [] {
      DigitsAreLeading(d[1..]);
    }
  }
}
