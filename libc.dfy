/** Models of the C library routines that the mount code and the example
    filesystem call: string copies and comparisons, sscanf("%u"), strtol and
    bounded snprintf.

    A C string is modelled by its text, the characters before the terminating
    NUL; a fixed-size char buffer holding a C string is modelled the same way,
    with the buffer's capacity stated as a bound on the text's length. */
module LibC {

  datatype Option<+T> = None | Some(value: T)

  const NUL: char := '\0'

  /** The text of a C string: it cannot contain its own terminator. */
  type CStr = s: string | NUL !in s

  /** `uint32_t`. */
  type U32 = x: nat | x < 0x1_0000_0000

  function Min(a: nat, b: nat): nat { if a <= b then a else b }

  /** Character `i` of a C string, where reading at its length yields the terminator. */
  function At(s: CStr, i: nat): char
  {
    if i < |s| then s[i] else NUL
  }

  /** The first `n` characters of `s` (all of them when `s` is shorter). */
  function Take(s: string, n: nat): (t: string)
    ensures |t| == Min(n, |s|) && t <= s
  {
    s[..Min(n, |s|)]
  }

  /** `strncmp(a, b, n) == 0`: compare character by character, stopping
      after `n` characters or at a terminator both strings share. */
  function StrnEq(a: CStr, b: CStr, n: nat): (r: bool)
    ensures a == b ==> r
    decreases n
  {
    n == 0 || (At(a, 0) == At(b, 0) && (At(a, 0) == NUL || StrnEq(a[1..], b[1..], n - 1)))
  }

  /** `strncmp` finds two C strings equal exactly when their first `n`
      characters agree, counting a shorter string's end as a difference. */
  lemma {:induction false} StrnEqIsTakeEq(a: CStr, b: CStr, n: nat)
    ensures StrnEq(a, b, n) <==> Take(a, n) == Take(b, n)
    decreases n
  {
    if n > 0 && a != [] && b != [] {
      StrnEqIsTakeEq(a[1..], b[1..], n - 1);
      assert Take(a, n) == [a[0]] + Take(a[1..], n - 1);
      assert Take(b, n) == [b[0]] + Take(b[1..], n - 1);
    } else if n > 0 && a != [] {
      assert Take(a, n) != [];
    } else if n > 0 && b != [] {
      assert Take(b, n) != [];
    }
  }

  /** `strncmp(s, p, strlen(p)) == 0` is a prefix test. */
  lemma StrnEqPrefix(s: CStr, p: CStr)
    ensures StrnEq(s, p, |p|) <==> p <= s
  {
    StrnEqIsTakeEq(s, p, |p|);
  }

  /** `strchr(s, c)` for a character other than NUL: the index of the first `c`. */
  function StrChr(s: string, c: char): (r: Option<nat>)
    ensures r.Some? ==> r.value < |s| && s[r.value] == c && c !in s[..r.value]
    ensures r.None? <==> c !in s
  {
    if s == [] then None
    else if s[0] == c then Some(0)
    else match StrChr(s[1..], c)
      case None => None
      case Some(i) => Some(i + 1)
  }

  /** `strlcpy(dst, src, size)` with `size > 0`: the text left in `dst`
      (at most `size - 1` characters of `src`) and the value returned, the
      length of `src`. */
  function StrlCpy(src: CStr, size: nat): (r: (CStr, nat))
    requires size > 0
    ensures r.1 == |src|
    ensures |r.0| < size
    ensures r.0 <= src && (|src| < size ==> r.0 == src)
  {
    (Take(src, size - 1), |src|)
  }

  /** The text `snprintf(buf, size, ...)` leaves in a buffer of `size > 0`
      characters when the formatted text is `s`. */
  function Bounded(s: CStr, size: nat): (t: CStr)
    requires size > 0
    ensures |t| < size && t <= s
    ensures |s| < size ==> t == s
  {
    Take(s, size - 1)
  }

  // ---- decimal digits ----

  predicate IsDigit(c: char) { '0' <= c <= '9' }

  predicate AllDigits(s: string) { forall i | 0 <= i < |s| :: IsDigit(s[i]) }

  /** `isspace` in the C locale. */
  predicate IsSpace(c: char)
  {
    c == ' ' || c == '\t' || c == '\n' || c == '\r' || c as int == 11 || c as int == 12
  }

  function DigitValue(c: char): (d: nat)
    requires IsDigit(c)
    ensures d < 10
  {
    (c as int) - ('0' as int)
  }

  function DigitChar(d: nat): (c: char)
    requires d < 10
    ensures IsDigit(c) && DigitValue(c) == d
  {
    (('0' as int) + d) as char
  }

  /** The number a run of decimal digits denotes. */
  function ValueOf(s: string): nat
    requires AllDigits(s)
  {
    if s == [] then 0 else ValueOf(s[..|s| - 1]) * 10 + DigitValue(s[|s| - 1])
  }

  /** `printf("%d", n)` for `n >= 0`: the shortest decimal numeral. */
  function Decimal(n: nat): (s: CStr)
    ensures s != [] && AllDigits(s)
    ensures |s| > 1 ==> s[0] != '0'
  {
    if n < 10 then [DigitChar(n)] else Decimal(n / 10) + [DigitChar(n % 10)]
  }

  /** Reading back a numeral printed by `Decimal` gives the number printed. */
  lemma {:induction false} DecimalValue(n: nat)
    ensures ValueOf(Decimal(n)) == n
  {
    if n >= 10 {
      DecimalValue(n / 10);
      var s := Decimal(n);
      assert s[..|s| - 1] == Decimal(n / 10);
    }
  }

  /** Two numbers print the same numeral only if they are equal, so
      names built from distinct indices differ. */
  lemma DecimalInjective(m: nat, n: nat)
    ensures Decimal(m) == Decimal(n) ==> m == n
  {
    DecimalValue(m);
    DecimalValue(n);
  }

  /** Length of the run of digits at the start of `s`. */
  function DigitRun(s: string): (k: nat)
    ensures k <= |s| && AllDigits(s[..k])
    ensures k < |s| ==> !IsDigit(s[k])
  {
    if s == [] || !IsDigit(s[0]) then 0
    else
      var k := 1 + DigitRun(s[1..]);
      assert s[..k] == [s[0]] + s[1..][..k - 1];
      k
  }

  /** Length of the run of white space at the start of `s`. */
  function SpaceRun(s: string): (k: nat)
    ensures k <= |s|
    ensures forall i | 0 <= i < k :: IsSpace(s[i])
    ensures k < |s| ==> !IsSpace(s[k])
  {
    if s == [] || !IsSpace(s[0]) then 0 else 1 + SpaceRun(s[1..])
  }

  // ---- sscanf("...%u") ----

  /** What `sscanf(arg, lit "%u", &v)` reports: `EOF` when the input ends
      before a conversion is attempted, 0 when a character fails to match
      (and `v` is not written), 1 with the converted value otherwise. */
  datatype Scan = ScanEof | ScanNoMatch | Scanned(value: U32)

  /** The store into an `unsigned` keeps the residue modulo 2^32. */
  function Wrap32(x: int): U32
  {
    x % 0x1_0000_0000
  }

  /** A value that already fits is kept. */
  lemma Wrap32Fits(x: int)
    requires 0 <= x < 0x1_0000_0000
    ensures Wrap32(x) == x
  {
  }

  const UINTMAX_MAX: nat := 0xFFFF_FFFF_FFFF_FFFF

  /** `%u` hands its digits to `strtoumax`: a magnitude above `UINTMAX_MAX`
      saturates to `UINTMAX_MAX` whatever the sign, a minus sign negates
      modulo 2^64, and the store keeps the low 32 bits. */
  function UnsignedOf(negative: bool, v: nat): U32
  {
    if v > UINTMAX_MAX then 0xFFFF_FFFF else Wrap32(if negative then -(v as int) else v)
  }

  /** The `%u` conversion on what follows the literal: white space, an
      optional sign and at least one digit. Input that ends in the white
      space is an input failure (`EOF`); a sign without a digit after it is
      a matching failure (0). */
  function ConvertUnsigned(s: string): (r: Scan)
    ensures r == ScanEof <==> forall i | 0 <= i < |s| :: IsSpace(s[i])
  {
    var t := s[SpaceRun(s)..];
    var signed := t != [] && (t[0] == '+' || t[0] == '-');
    var u := if signed then t[1..] else t;
    if t == [] then ScanEof
    else if u == [] || !IsDigit(u[0]) then ScanNoMatch
    else Scanned(UnsignedOf(signed && t[0] == '-', ValueOf(u[..DigitRun(u)])))
  }

  /** `sscanf(arg, lit "%u", &v)` where `lit` holds no white space and no `%`. */
  function ScanUnsigned(arg: string, lit: string): (r: Scan)
    ensures r.Scanned? ==> lit <= arg
    ensures r == ScanEof && lit <= arg ==> forall i | |lit| <= i < |arg| :: IsSpace(arg[i])
  {
    if |arg| < |lit| && arg == lit[..|arg|] then ScanEof
    else if !(lit <= arg) then ScanNoMatch
    else ConvertUnsigned(arg[|lit|..])
  }

  /** A plain numeral below 2^32 after the literal is read back exactly. */
  lemma ScanNumeral(lit: string, n: nat)
    requires n < 0x1_0000_0000
    ensures ScanUnsigned(lit + Decimal(n), lit) == Scanned(n)
  {
    var arg := lit + Decimal(n);
    assert arg[|lit|..] == Decimal(n);
    var s := Decimal(n);
    assert SpaceRun(s) == 0;
    assert s[0..] == s;
    assert DigitRun(s) == |s|;
    assert s[..|s|] == s;
    DecimalValue(n);
    Wrap32Fits(n);
  }

  /** A numeral too large for `uintmax_t` saturates, and its low 32 bits
      are all ones. */
  lemma ScanSaturates(lit: string, n: nat)
    requires n > UINTMAX_MAX
    ensures ScanUnsigned(lit + Decimal(n), lit) == Scanned(0xFFFF_FFFF)
  {
    var arg := lit + Decimal(n);
    assert arg[|lit|..] == Decimal(n);
    var s := Decimal(n);
    assert SpaceRun(s) == 0;
    assert s[0..] == s;
    assert DigitRun(s) == |s|;
    assert s[..|s|] == s;
    DecimalValue(n);
  }

  /** Only white space (or nothing) after the literal makes `sscanf` return EOF. */
  lemma ScanEofOnBlank(lit: string, rest: string)
    requires forall i | 0 <= i < |rest| :: IsSpace(rest[i])
    ensures ScanUnsigned(lit + rest, lit) == ScanEof
  {
    var arg := lit + rest;
    assert arg[|lit|..] == rest;
    assert SpaceRun(rest) == |rest|;
  }

  // ---- strtol(s, NULL, 10) ----

  const LONG_MAX: int := 0x7FFF_FFFF_FFFF_FFFF
  const LONG_MIN: int := -0x8000_0000_0000_0000

  /** What `strtol(s, NULL, 10)` reports: `errno == EINVAL` when no digits
      could be converted, `errno == ERANGE` when the value does not fit a
      64-bit `long`, the value otherwise. */
  datatype Conversion = NoConversion | OutOfRange | Converted(value: int)

  function StrToL(s: string): (r: Conversion)
    ensures r.Converted? ==> LONG_MIN <= r.value <= LONG_MAX
  {
    var t := s[SpaceRun(s)..];
    var signed := t != [] && (t[0] == '+' || t[0] == '-');
    var u := if signed then t[1..] else t;
    var k := DigitRun(u);
    if k == 0 then NoConversion
    else
      var v: int := if signed && t[0] == '-' then -(ValueOf(u[..k]) as int) else ValueOf(u[..k]);
      if v < LONG_MIN || LONG_MAX < v then OutOfRange else Converted(v)
  }

  /** A plain numeral that fits a `long` converts to its value. */
  lemma StrToLNumeral(n: nat)
    requires n <= LONG_MAX
    ensures StrToL(Decimal(n)) == Converted(n)
  {
    var s := Decimal(n);
    assert SpaceRun(s) == 0;
    assert s[0..] == s;
    assert DigitRun(s) == |s|;
    assert s[..|s|] == s;
    DecimalValue(n);
  }

  /** A numeral has no character other than digits. */
  lemma DecimalHasNo(n: nat, c: char)
    requires !IsDigit(c)
    ensures c !in Decimal(n)
  {
  }

  // ---- arithmetic ----

  function Abs(x: int): nat { if x < 0 then -x else x }

  /** C's `/` on a non-negative divisor: the quotient truncated toward zero. */
  function CDiv(a: int, b: nat): (q: int)
    requires b > 0
    ensures (a >= 0 ==> q >= 0) && (a < 0 ==> q <= 0)
    ensures Abs(q) == Abs(a) / b
  {
    var m := Abs(a) / b;
    if a >= 0 then m else -m
  }
}
