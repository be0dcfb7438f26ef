/**
 * The pieces of Go's `strings` and `strconv` packages the core relies on:
 * `strings.TrimRight` with a one-character cutset, `strings.Join`,
 * `strconv.ParseInt(s, 10, 64)` (also what `strconv.Atoi` does on a 64-bit
 * platform), decimal formatting (`%d`), and the byte-wise order Go uses to
 * compare and sort strings.
 */
module Strings {
  import opened Wrappers

  // ---------------------------------------------------------------------
  // strings.TrimRight and strings.Join
  // ---------------------------------------------------------------------

  /** `strings.TrimRight(s, string(c))`: drop every trailing `c`. */
  function TrimRight(s: string, c: char): (r: string)
    ensures |r| <= |s| && r == s[..|r|]
    ensures r == [] || r[|r| - 1] != c
    ensures forall i :: |r| <= i < |s| ==> s[i] == c
  {
    if |s| > 0 && s[|s| - 1] == c then TrimRight(s[..|s| - 1], c) else s
  }

  /** Trimming twice is trimming once. */
  lemma TrimRightIdempotent(s: string, c: char)
    ensures TrimRight(TrimRight(s, c), c) == TrimRight(s, c)
  {
  }

  /** `strings.Join(parts, sep)`. */
  function Join(parts: seq<string>, sep: string): string
  {
    if |parts| == 0 then ""
    else if |parts| == 1 then parts[0]
    else parts[0] + sep + Join(parts[1..], sep)
  }

  /** Joining one more part in front puts the part and one separator before the rest. */
  lemma {:induction false} JoinCons(p: string, rest: seq<string>, sep: string)
    requires |rest| > 0
    ensures Join([p] + rest, sep) == p + sep + Join(rest, sep)
  {
    assert ([p] + rest)[1..] == rest;
  }

  /** Three parts joined: the parts with one separator between each pair. */
  lemma Join3(a: string, b: string, c: string, sep: string)
    ensures Join([a, b, c], sep) == a + sep + b + sep + c
  {
    JoinCons(a, [b, c], sep);
    JoinCons(b, [c], sep);
  }

  /** Four parts joined: the parts with one separator between each pair. */
  lemma Join4(a: string, b: string, c: string, d: string, sep: string)
    ensures Join([a, b, c, d], sep) == a + sep + b + sep + c + sep + d
  {
    JoinCons(a, [b, c, d], sep);
    Join3(b, c, d, sep);
  }

  /** The separator count of a join: n parts, n - 1 separators. */
  lemma {:induction false} JoinLength(parts: seq<string>, sep: string)
    requires |parts| > 0
    ensures |Join(parts, sep)| == SumLengths(parts) + (|parts| - 1) * |sep|
  {
    if |parts| > 1 {
      JoinLength(parts[1..], sep);
      assert SumLengths(parts) == |parts[0]| + SumLengths(parts[1..]);
    }
  }

  function SumLengths(parts: seq<string>): nat
  {
    if |parts| == 0 then 0 else |parts[0]| + SumLengths(parts[1..])
  }

  // ---------------------------------------------------------------------
  // strconv.ParseInt(s, 10, 64) and decimal formatting
  // ---------------------------------------------------------------------

  const MinInt64: int := -0x8000_0000_0000_0000
  const MaxInt64: int := 0x7fff_ffff_ffff_ffff

  predicate IsDigit(c: char) { '0' <= c <= '9' }

  predicate AllDigits(s: string) { forall i :: 0 <= i < |s| ==> IsDigit(s[i]) }

  /** The value of a decimal digit string read most-significant first. */
  function DigitsValue(s: string): nat
    requires AllDigits(s)
  {
    if |s| == 0 then 0
    else DigitsValue(s[..|s| - 1]) * 10 + ((s[|s| - 1] as int) - ('0' as int))
  }

  /** The decimal digits of a signed integer's magnitude, with its sign. */
  function Unsigned(s: string): string
  {
    if |s| > 0 && (s[0] == '+' || s[0] == '-') then s[1..] else s
  }

  /**
   * `strconv.ParseInt(s, 10, 64)`: an optional sign followed by at least one
   * decimal digit, and a value within the range of int64; anything else is a
   * syntax or range error (None).
   */
  function ParseInt(s: string): (r: Option<int>)
    ensures r.Some? <==>
      (|Unsigned(s)| > 0 && AllDigits(Unsigned(s)) &&
       MinInt64 <= (if s[0] == '-' then -(DigitsValue(Unsigned(s)) as int) else DigitsValue(Unsigned(s))) <= MaxInt64)
    ensures r.Some? ==> MinInt64 <= r.value <= MaxInt64
    ensures r.Some? && s[0] != '-' ==> r.value >= 0
  {
    var digits := Unsigned(s);
    if |digits| == 0 || !AllDigits(digits) then None
    else
      var v := if s[0] == '-' then -(DigitsValue(digits) as int) else DigitsValue(digits);
      if MinInt64 <= v <= MaxInt64 then Some(v) else None
  }

  /** The decimal digits of a natural number, most significant first (`%d`). */
  function FormatNat(n: nat): (r: string)
    ensures |r| > 0 && AllDigits(r)
    ensures DigitsValue(r) == n
  {
    var d := [('0' as int + n % 10) as char];
    if n < 10 then d
    else
      var r := FormatNat(n / 10) + d;
      assert r[..|r| - 1] == FormatNat(n / 10);
      r
  }

  /** `%d` / `strconv.Itoa`: decimal with a leading minus for negatives. */
  function FormatInt(n: int): string
  {
    if n < 0 then "-" + FormatNat(-n) else FormatNat(n)
  }

  /** Parsing what `%d` printed gives back the number, for every int64. */
  lemma ParseFormatRoundTrip(n: int)
    requires MinInt64 <= n <= MaxInt64
    ensures ParseInt(FormatInt(n)) == Some(n)
  {
    var s := FormatInt(n);
    if n < 0 {
      assert Unsigned(s) == FormatNat(-n);
    } else {
      assert Unsigned(s) == FormatNat(n);
    }
  }

  /** The empty string and a lone sign are syntax errors. */
  lemma ParseIntRejectsEmpty()
    ensures ParseInt("") == None && ParseInt("-") == None && ParseInt("+") == None
  {
  }

  /** A number printed with `%d` outside the int64 range is a range error. */
  lemma ParseIntOutOfRange(n: int)
    requires n < MinInt64 || n > MaxInt64
    ensures ParseInt(FormatInt(n)) == None
  {
    var s := FormatInt(n);
    if n < 0 {
      assert Unsigned(s) == FormatNat(-n);
    } else {
      assert Unsigned(s) == FormatNat(n);
    }
  }

  // ---------------------------------------------------------------------
  // Go's string order
  // ---------------------------------------------------------------------

  /**
   * Go's `a <= b` on strings: byte-wise lexicographic order. Over Unicode
   * scalar values the order of code points is the order of their UTF-8 bytes.
   */
  predicate LexLe(a: string, b: string)
  {
    |a| == 0 || (|b| > 0 && (a[0] < b[0] || (a[0] == b[0] && LexLe(a[1..], b[1..]))))
  }

  lemma {:induction false} LexLeTotal(a: string, b: string)
    ensures LexLe(a, b) || LexLe(b, a)
  {
    if |a| > 0 && |b| > 0 && a[0] == b[0] {
      LexLeTotal(a[1..], b[1..]);
    }
  }

  lemma {:induction false} LexLeTransitive(a: string, b: string, c: string)
    requires LexLe(a, b) && LexLe(b, c)
    ensures LexLe(a, c)
  {
    if |a| > 0 && a[0] == b[0] && b[0] == c[0] {
      LexLeTransitive(a[1..], b[1..], c[1..]);
    }
  }

  lemma {:induction false} LexLeAntisymmetric(a: string, b: string)
    requires LexLe(a, b) && LexLe(b, a)
    ensures a == b
  {
    if |a| > 0 {
      LexLeAntisymmetric(a[1..], b[1..]);
      assert a == [a[0]] + a[1..] && b == [b[0]] + b[1..];
    }
  }
}
