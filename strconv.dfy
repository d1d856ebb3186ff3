/** Models of the parts of Go's standard library the client leans on for text:
    strconv.Atoi (decimal parsing with 64-bit saturation), fmt's "%d" and
    strings.Split on a one-character separator. */
module Strconv {

  const MaxInt64: int := 0x7fff_ffff_ffff_ffff
  const MinInt64: int := -0x8000_0000_0000_0000
  const MaxUint64: int := 0xffff_ffff_ffff_ffff

  /** Go's `int` on a 64-bit platform. */
  type Int = x: int | MinInt64 <= x <= MaxInt64

  predicate IsDigit(c: char) { '0' <= c <= '9' }

  function DigitValue(c: char): nat
    requires IsDigit(c)
  {
    c as int - '0' as int
  }

  function DigitChar(d: nat): (c: char)
    requires d < 10
    ensures IsDigit(c) && DigitValue(c) == d
  {
    ('0' as int + d) as char
  }

  /** How the unsigned scan of the text after an optional sign ends. */
  datatype Scan = Value(v: nat) | Syntax | Overflow

  /** strconv.ParseUint in base 10: digits are consumed left to right; the first
      non-digit is a syntax error, and the first digit that pushes the value past
      the uint64 range is a range error, whichever comes first. */
  function ScanDigits(s: string, acc: nat): Scan
  {
    if s == [] then Value(acc)
    else if !IsDigit(s[0]) then Syntax
    else if acc * 10 + DigitValue(s[0]) > MaxUint64 then Overflow
    else ScanDigits(s[1..], acc * 10 + DigitValue(s[0]))
  }

  /** Well-formed input for Atoi: an optional sign, then one or more digits. */
  predicate IsDecimal(s: string)
  {
    var body := if |s| > 0 && (s[0] == '-' || s[0] == '+') then s[1..] else s;
    body != [] && forall i :: 0 <= i < |body| ==> IsDigit(body[i])
  }

  function Pow10(k: nat): (p: nat)
    ensures p >= 1
  {
    if k == 0 then 1 else 10 * Pow10(k - 1)
  }

  lemma {:induction false} Pow10Monotone(a: nat, b: nat)
    requires a <= b
    ensures Pow10(a) <= Pow10(b)
    decreases b
  {
    if a < b {
      Pow10Monotone(a, b - 1);
    }
  }

  /** 10^19 still fits in a uint64, so 19 digits never overflow. */
  lemma Pow10Nineteen()
    ensures Pow10(19) <= MaxUint64 + 1
  {
    assert Pow10(4) == 10_000;
    assert Pow10(8) == 100_000_000;
    assert Pow10(12) == 1_000_000_000_000;
    assert Pow10(16) == 10_000_000_000_000_000;
  }

  /** A scan that has read k digits so far and meets a non-digit within 19 - k
      more characters reports a syntax error: too few digits to overflow first. */
  lemma {:induction false} ScanDigitsSyntax(s: string, acc: nat, k: nat, j: nat)
    requires j < |s| && !IsDigit(s[j]) && k + j <= 19
    requires acc < Pow10(k)
    ensures ScanDigits(s, acc) == Syntax
    decreases j
  {
    if IsDigit(s[0]) {
      var next := acc * 10 + DigitValue(s[0]);
      assert next < Pow10(k + 1);
      Pow10Monotone(k + 1, 19);
      Pow10Nineteen();
      ScanDigitsSyntax(s[1..], next, k + 1, j - 1);
    }
  }

  /** The text after the sign of an input of at most 20 characters that is not
      a decimal scans as a syntax error. */
  lemma ScanShortSyntax(body: string)
    requires |body| <= 20
    requires exists i :: 0 <= i < |body| && !IsDigit(body[i])
    ensures ScanDigits(body, 0) == Syntax
  {
    var j :| 0 <= j < |body| && !IsDigit(body[j]);
    ScanDigitsSyntax(body, 0, 0, j);
  }

  /** strconv.Atoi with its error discarded, as the client always does: an optional
      '+' or '-', then decimal digits. A syntax error yields 0; a value outside the
      int64 range yields the nearest bound (Go returns it together with a range error). */
  function Atoi(s: string): (n: Int)
    ensures (forall i :: 0 <= i < |s| ==> !IsDigit(s[i])) ==> n == 0
    ensures |s| <= 20 && !IsDecimal(s) ==> n == 0
  {
    if s == [] then 0
    else
      var neg := s[0] == '-';
      var body := if s[0] == '-' || s[0] == '+' then s[1..] else s;
      if body == [] then 0
      else
        assert body[0] in s;
        assert |s| <= 20 && !IsDecimal(s) ==> ScanDigits(body, 0) == Syntax by {
          if |s| <= 20 && !IsDecimal(s) {
            ScanShortSyntax(body);
          }
        }
        var r: int :=
          match ScanDigits(body, 0)
          case Syntax => 0
          case Overflow => if neg then MinInt64 else MaxInt64
          case Value(v) =>
            if neg then (if v > -MinInt64 then MinInt64 else -(v as int))
            else (if v > MaxInt64 then MaxInt64 else v);
        r
  }

  /** The decimal digits of a natural number, most significant first. */
  function Digits(v: nat): (s: string)
    ensures |s| >= 1 && forall i :: 0 <= i < |s| ==> IsDigit(s[i])
    decreases v
  {
    if v < 10 then [DigitChar(v)] else Digits(v / 10) + [DigitChar(v % 10)]
  }

  /** fmt.Sprintf("%d", n). */
  function FormatInt(n: int): (s: string)
    ensures s != [] && (s[0] == '-' <==> n < 0)
  {
    if n < 0 then "-" + Digits(-n) else Digits(n)
  }

  lemma {:induction false} ScanDigitsAppend(a: string, b: string, acc: nat)
    ensures ScanDigits(a + b, acc) ==
            match ScanDigits(a, acc)
            case Value(v) => ScanDigits(b, v)
            case other => other
  {
    if a == [] {
      assert a + b == b;
    } else {
      assert (a + b)[0] == a[0];
      assert (a + b)[1..] == a[1..] + b;
      if IsDigit(a[0]) && acc * 10 + DigitValue(a[0]) <= MaxUint64 {
        ScanDigitsAppend(a[1..], b, acc * 10 + DigitValue(a[0]));
      }
    }
  }

  /** Scanning the digits of v gives v back, or a range error once v exceeds uint64. */
  lemma {:induction false} ScanDigitsOfDigits(v: nat)
    ensures ScanDigits(Digits(v), 0) == if v <= MaxUint64 then Value(v) else Overflow
    decreases v
  {
    if v >= 10 {
      ScanDigitsOfDigits(v / 10);
      ScanDigitsAppend(Digits(v / 10), [DigitChar(v % 10)], 0);
      if v / 10 <= MaxUint64 {
        ScanDigitsAppend(Digits(v / 10), [DigitChar(v % 10)], v / 10);
        assert [DigitChar(v % 10)][1..] == [];
      }
    }
  }

  /** Parsing what "%d" printed gives the number back, for every Go int. */
  lemma AtoiFormatInt(n: Int)
    ensures Atoi(FormatInt(n)) == n
  {
    var s := FormatInt(n);
    if n < 0 {
      ScanDigitsOfDigits(-(n as int));
      assert s[1..] == Digits(-(n as int));
    } else {
      ScanDigitsOfDigits(n);
    }
  }

  /** A decimal beyond the int64 range reads as the nearest bound, not as 0:
      MaxInt64 above it (with or without '+'), MinInt64 below it. */
  lemma AtoiClampsLarge(v: nat)
    requires v > MaxInt64
    ensures Atoi(Digits(v)) == MaxInt64
    ensures Atoi("+" + Digits(v)) == MaxInt64
    ensures v > -MinInt64 ==> Atoi("-" + Digits(v)) == MinInt64
  {
    ScanDigitsOfDigits(v);
    assert ("+" + Digits(v))[1..] == Digits(v);
    assert ("-" + Digits(v))[1..] == Digits(v);
  }

  /** strings.Join with a one-character separator; the inverse of Split. */
  function Join(parts: seq<string>, sep: char): string
    requires |parts| >= 1
  {
    if |parts| == 1 then parts[0] else parts[0] + [sep] + Join(parts[1..], sep)
  }

  /** strings.Split(s, sep) for a one-character separator: the separator-free
      pieces between separators, at least one (Split("", ".") is [""]). */
  function Split(s: string, sep: char): (parts: seq<string>)
    ensures |parts| >= 1
    ensures Join(parts, sep) == s
    ensures forall i :: 0 <= i < |parts| ==> sep !in parts[i]
  {
    if s == [] then [[]]
    else if s[0] == sep then
      var rest := Split(s[1..], sep);
      assert ([[]] + rest)[1..] == rest;
      [[]] + rest
    else
      var rest := Split(s[1..], sep);
      var parts := [[s[0]] + rest[0]] + rest[1..];
      assert parts[1..] == rest[1..];
      assert forall i :: 1 <= i < |parts| ==> parts[i] == rest[i];
      parts
  }

  /** Split undoes Join whenever no piece holds the separator. */
  lemma {:induction false} SplitJoin(parts: seq<string>, sep: char)
    requires |parts| >= 1
    requires forall i :: 0 <= i < |parts| ==> sep !in parts[i]
    ensures Split(Join(parts, sep), sep) == parts
  {
    var s := Join(parts, sep);
    var r := Split(s, sep);
    JoinInjective(r, parts, sep);
  }

  /** Two separator-free decompositions of one string are the same. */
  lemma {:induction false} JoinInjective(p: seq<string>, q: seq<string>, sep: char)
    requires |p| >= 1 && |q| >= 1
    requires forall i :: 0 <= i < |p| ==> sep !in p[i]
    requires forall i :: 0 <= i < |q| ==> sep !in q[i]
    requires Join(p, sep) == Join(q, sep)
    ensures p == q
    decreases |p|
  {
    var s := Join(p, sep);
    var n := FirstSep(s, sep);
    JoinFirstSep(p, sep);
    JoinFirstSep(q, sep);
    if |p| > 1 {
      assert |q| > 1;
      assert p[0] == s[..n] == q[0];
      assert Join(p[1..], sep) == s[n + 1..] == Join(q[1..], sep);
      JoinInjective(p[1..], q[1..], sep);
      assert p == [p[0]] + p[1..];
      assert q == [q[0]] + q[1..];
    }
  }

  /** The index of the first separator, or |s| when there is none. */
  function FirstSep(s: string, sep: char): (n: nat)
    ensures n <= |s|
    ensures forall i :: 0 <= i < n ==> s[i] != sep
    ensures n < |s| ==> s[n] == sep
  {
    if s == [] || s[0] == sep then 0 else 1 + FirstSep(s[1..], sep)
  }

  lemma {:induction false} JoinFirstSep(p: seq<string>, sep: char)
    requires |p| >= 1
    requires forall i :: 0 <= i < |p| ==> sep !in p[i]
    ensures var s := Join(p, sep);
            var n := FirstSep(s, sep);
            (|p| == 1 ==> n == |s| && s == p[0]) &&
            (|p| > 1 ==> n == |p[0]| && s[..n] == p[0] && s[n + 1..] == Join(p[1..], sep))
  {
    var s := Join(p, sep);
    if |p| == 1 {
      FirstSepAbsent(s, sep);
    } else {
      assert s == p[0] + [sep] + Join(p[1..], sep);
      FirstSepAt(p[0], Join(p[1..], sep), sep);
      assert s[|p[0]| + 1..] == Join(p[1..], sep);
    }
  }

  lemma {:induction false} FirstSepAbsent(s: string, sep: char)
    requires sep !in s
    ensures FirstSep(s, sep) == |s|
  {
    if s != [] {
      assert s[0] in s;
      assert forall c :: c in s[1..] ==> c in s;
      FirstSepAbsent(s[1..], sep);
    }
  }

  lemma {:induction false} FirstSepAt(a: string, b: string, sep: char)
    requires sep !in a
    ensures FirstSep(a + [sep] + b, sep) == |a|
  {
    var s := a + [sep] + b;
    if a == [] {
      assert s[0] == sep;
    } else {
      assert a[0] in a;
      assert s[0] == a[0];
      assert s[1..] == a[1..] + [sep] + b;
      assert forall c :: c in a[1..] ==> c in a;
      FirstSepAt(a[1..], b, sep);
    }
  }

  /** Only the first separator matters for the first piece. */
  lemma SplitAtFirst(a: string, b: string, sep: char)
    requires sep !in a
    ensures Split(a + [sep] + b, sep) == [a] + Split(b, sep)
  {
    var parts := [a] + Split(b, sep);
    assert parts[1..] == Split(b, sep);
    assert Join(parts, sep) == a + [sep] + b;
    SplitJoin(parts, sep);
  }

  /** A string without the separator is one piece. */
  lemma SplitNoSeparator(s: string, sep: char)
    requires sep !in s
    ensures Split(s, sep) == [s]
  {
    SplitJoin([s], sep);
  }
}
