/**
 * The JavaScript string operations the application relies on, written out
 * over `seq<char>`: whitespace as the regular-expression class `\s` and
 * `String.prototype.trim` define it, `startsWith`, `includes`, `split` on a
 * one-character separator, ASCII case mapping, decimal formatting of whole
 * numbers and the decimal subset of `Number.parseFloat`.
 */
module Text {
  import opened Common

  /** The characters of `\s` (and of `trim`): white space and line terminators. */
  predicate IsWhitespace(c: char) {
    var n := c as int;
    n == 0x09 || n == 0x0A || n == 0x0B || n == 0x0C || n == 0x0D || n == 0x20
    || n == 0xA0 || n == 0x1680 || (0x2000 <= n <= 0x200A)
    || n == 0x2028 || n == 0x2029 || n == 0x202F || n == 0x205F || n == 0x3000 || n == 0xFEFF
  }

  predicate AllWhitespace(s: string) {
    forall i :: 0 <= i < |s| ==> IsWhitespace(s[i])
  }

  function TrimStart(s: string): (r: string)
    ensures |r| <= |s| && r == s[|s| - |r|..]
    ensures r == [] || !IsWhitespace(r[0])
    ensures AllWhitespace(s[..|s| - |r|])
  {
    if s != [] && IsWhitespace(s[0]) then TrimStart(s[1..]) else s
  }

  function TrimEnd(s: string): (r: string)
    ensures |r| <= |s| && r == s[..|r|]
    ensures r == [] || !IsWhitespace(r[|r| - 1])
    ensures AllWhitespace(s[|r|..])
  {
    if s != [] && IsWhitespace(s[|s| - 1]) then TrimEnd(s[..|s| - 1]) else s
  }

  /** `s.trim()`: white space removed from both ends. */
  function Trim(s: string): string {
    TrimEnd(TrimStart(s))
  }

  /** A string is blank after trimming exactly when it consists of white space only. */
  lemma TrimEmptyIff(s: string)
    ensures Trim(s) == [] <==> AllWhitespace(s)
  {
    var t := TrimStart(s);
    var k := |s| - |t|;
    if Trim(s) == [] {
      assert AllWhitespace(t[0..]);
      assert t == [];
      assert s[..k] == s;
    }
  }

  predicate StartsWith(s: string, prefix: string) {
    |prefix| <= |s| && s[..|prefix|] == prefix
  }

  /** `s.includes(t)`: `t` occurs somewhere in `s` as a contiguous piece. */
  predicate Contains(s: string, t: string)
    decreases |s|
  {
    StartsWith(s, t) || (s != [] && Contains(s[1..], t))
  }

  predicate OccursAt(s: string, t: string, i: int) {
    0 <= i <= |s| - |t| && s[i..i + |t|] == t
  }

  /** Contains agrees with the direct statement "t is the slice of s at some offset". */
  lemma {:induction false} ContainsIff(s: string, t: string)
    ensures Contains(s, t) <==> exists i :: OccursAt(s, t, i)
    decreases |s|
  {
    if StartsWith(s, t) {
      assert OccursAt(s, t, 0);
    }
    if s != [] {
      ContainsIff(s[1..], t);
      if Contains(s[1..], t) {
        var i :| OccursAt(s[1..], t, i);
        assert s[1..][i..i + |t|] == s[i + 1..i + 1 + |t|];
        assert OccursAt(s, t, i + 1);
      }
      if exists i :: OccursAt(s, t, i) {
        var i :| OccursAt(s, t, i);
        if i > 0 {
          assert s[1..][i - 1..i - 1 + |t|] == s[i..i + |t|];
          assert OccursAt(s[1..], t, i - 1);
        } else {
          assert StartsWith(s, t);
        }
      }
    } else if exists i :: OccursAt(s, t, i) {
      var i :| OccursAt(s, t, i);
      assert t == [];
    }
  }

  function ToLowerChar(c: char): char {
    if 'A' <= c <= 'Z' then (c as int + 32) as char else c
  }

  function ToUpperChar(c: char): char {
    if 'a' <= c <= 'z' then (c as int - 32) as char else c
  }

  /** `s.toLowerCase()` on the ASCII letters. */
  function ToLower(s: string): (r: string)
    ensures |r| == |s|
    ensures forall i :: 0 <= i < |s| ==> r[i] == ToLowerChar(s[i])
  {
    seq(|s|, i requires 0 <= i < |s| => ToLowerChar(s[i]))
  }

  /** `s.toUpperCase()` on the ASCII letters. */
  function ToUpper(s: string): (r: string)
    ensures |r| == |s|
    ensures forall i :: 0 <= i < |s| ==> r[i] == ToUpperChar(s[i])
  {
    seq(|s|, i requires 0 <= i < |s| => ToUpperChar(s[i]))
  }

  /** The UTF-16 code units of a character: two outside the Basic Multilingual Plane, else one. */
  function CodeUnits(c: char): nat {
    if c as int >= 0x10000 then 2 else 1
  }

  /** `s.length`: the number of UTF-16 code units of `s`. */
  function Utf16Length(s: string): (n: nat)
    ensures |s| <= n <= 2 * |s|
    ensures n == 0 <==> s == []
  {
    if s == [] then 0 else Utf16Length(s[..|s| - 1]) + CodeUnits(s[|s| - 1])
  }

  /** For text inside the Basic Multilingual Plane, `length` counts the characters. */
  lemma {:induction false} BmpLength(s: string)
    requires forall i :: 0 <= i < |s| ==> s[i] as int < 0x10000
    ensures Utf16Length(s) == |s|
  {
    if s != [] {
      BmpLength(s[..|s| - 1]);
    }
  }

  /** `name.substring(0, 2).toUpperCase()`: the avatar initials of a name. */
  function Initials(name: string): (r: string)
    ensures |r| == Min(2, |name|)
    ensures forall i :: 0 <= i < |r| ==> r[i] == ToUpperChar(name[i])
  {
    ToUpper(name[..Min(2, |name|)])
  }

  /** The pieces `s.split(sep)` returns, re-joined with `sep`. */
  function Join(parts: seq<string>, sep: char): string
    requires |parts| >= 1
  {
    if |parts| == 1 then parts[0] else parts[0] + [sep] + Join(parts[1..], sep)
  }

  /**
   * `s.split(sep)` for a one-character separator: the maximal pieces between
   * separators, so there is always at least one piece, no piece holds the
   * separator, and joining the pieces back with the separator gives `s`.
   */
  function Split(s: string, sep: char): (parts: seq<string>)
    ensures |parts| >= 1
    ensures forall k :: 0 <= k < |parts| ==> sep !in parts[k]
    ensures Join(parts, sep) == s
  {
    if s == [] then [""]
    else
      var rest := Split(s[1..], sep);
      if s[0] == sep then
        assert Join([""] + rest, sep) == [sep] + Join(rest, sep);
        [""] + rest
      else
        var parts := [[s[0]] + rest[0]] + rest[1..];
        assert parts[1..] == rest[1..];
        parts
  }

  /** The text before the first `sep`, or all of `s` when there is none. */
  function Before(s: string, sep: char): (r: string)
    ensures |r| <= |s| && r == s[..|r|] && sep !in r
    ensures |r| < |s| ==> s[|r|] == sep
  {
    if s == [] || s[0] == sep then [] else [s[0]] + Before(s[1..], sep)
  }

  /** `s.split(sep)[0]` is the text before the first separator. */
  lemma {:induction false} FirstPieceIsBefore(s: string, sep: char)
    ensures Split(s, sep)[0] == Before(s, sep)
  {
    if s != [] && s[0] != sep {
      FirstPieceIsBefore(s[1..], sep);
    }
  }

  /** Splitting a string without the separator gives the string itself. */
  lemma {:induction false} SplitWithoutSeparator(s: string, sep: char)
    requires sep !in s
    ensures Split(s, sep) == [s]
  {
    if s != [] {
      SplitWithoutSeparator(s[1..], sep);
    }
  }

  /** Splitting at the first separator: the first piece is everything before it. */
  lemma {:induction false} SplitAtFirst(s: string, sep: char, k: nat)
    requires k < |s| && s[k] == sep && sep !in s[..k]
    ensures Split(s, sep) == [s[..k]] + Split(s[k + 1..], sep)
  {
    if k > 0 {
      assert s[1..][k - 1] == sep;
      assert s[1..][..k - 1] == s[1..k];
      SplitAtFirst(s[1..], sep, k - 1);
      assert s[1..][k..] == s[k + 1..];
      assert [s[0]] + s[1..k] == s[..k];
    }
  }

  function DigitChar(d: nat): char
    requires d < 10
  {
    ('0' as int + d) as char
  }

  predicate IsDigit(c: char) {
    '0' <= c <= '9'
  }

  function DigitOf(c: char): nat
    requires IsDigit(c)
  {
    c as int - '0' as int
  }

  /** The value of a string of decimal digits, most significant first. */
  function DigitsValue(ds: string): nat
    requires forall i :: 0 <= i < |ds| ==> IsDigit(ds[i])
  {
    if ds == [] then 0 else DigitsValue(ds[..|ds| - 1]) * 10 + DigitOf(ds[|ds| - 1])
  }

  /** `${n}` for a whole number n >= 0: its decimal digits, without leading zeros. */
  function NatToString(n: nat): (s: string)
    ensures |s| >= 1 && forall i :: 0 <= i < |s| ==> IsDigit(s[i])
    ensures n > 0 ==> s[0] != '0'
  {
    if n < 10 then [DigitChar(n)] else NatToString(n / 10) + [DigitChar(n % 10)]
  }

  /** Reading the formatted digits back gives the number: formatting loses nothing. */
  lemma {:induction false} NatToStringRoundTrip(n: nat)
    ensures DigitsValue(NatToString(n)) == n
  {
    if n >= 10 {
      NatToStringRoundTrip(n / 10);
      assert NatToString(n)[..|NatToString(n)| - 1] == NatToString(n / 10);
    }
  }

  /** Distinct numbers are formatted differently. */
  lemma NatToStringInjective(a: nat, b: nat)
    requires NatToString(a) == NatToString(b)
    ensures a == b
  {
    NatToStringRoundTrip(a);
    NatToStringRoundTrip(b);
  }

  /**
   * `Number.parseFloat(s)` on decimal notation: leading white space is
   * skipped, an optional sign is read, then the longest prefix of the form
   * `digits[.digits]` with at least one digit; None stands for NaN.
   */
  function ParseFloat(s: string): Option<real> {
    var t := TrimStart(s);
    if t != [] && t[0] == '-' then
      match ScanWhole(t[1..], 0, false)
      case Some(v) => Some(-v)
      case None => None
    else if t != [] && t[0] == '+' then ScanWhole(t[1..], 0, false)
    else ScanWhole(t, 0, false)
  }

  /**
   * Reads the digits before the decimal point; `acc` is the value of the
   * digits read so far and `seen` whether there was one.
   */
  function ScanWhole(t: string, acc: nat, seen: bool): Option<real>
    decreases |t|
  {
    if t != [] && IsDigit(t[0]) then ScanWhole(t[1..], acc * 10 + DigitOf(t[0]), true)
    else if t != [] && t[0] == '.' then ScanFraction(t[1..], acc as real, 0.1, seen)
    else if seen then Some(acc as real)
    else None
  }

  /** Reads the digits after the decimal point, the next one worth `scale`. */
  function ScanFraction(t: string, value: real, scale: real, seen: bool): Option<real>
    decreases |t|
  {
    if t != [] && IsDigit(t[0]) then ScanFraction(t[1..], value + DigitOf(t[0]) as real * scale, scale / 10.0, true)
    else if seen then Some(value)
    else None
  }

  /** `Number.parseFloat(s) || 0`: NaN (and zero) become 0. */
  function NumberOrZero(s: string): real {
    ParseFloat(s).GetOr(0.0)
  }

  /** Scanning the rest of a digit string after its first k digits yields the value of the whole. */
  lemma {:induction false} ScanDigits(s: string, k: nat)
    requires k <= |s| && s != [] && forall i :: 0 <= i < |s| ==> IsDigit(s[i])
    ensures ScanWhole(s[k..], DigitsValue(s[..k]), k > 0) == Some(DigitsValue(s) as real)
    decreases |s| - k
  {
    if k == |s| {
      assert s[..k] == s;
    } else {
      assert s[..k + 1][..k] == s[..k];
      assert s[k..][1..] == s[k + 1..];
      ScanDigits(s, k + 1);
    }
  }

  /** A whole number formatted by NatToString parses back to itself. */
  lemma ParseFormattedNat(n: nat)
    ensures ParseFloat(NatToString(n)) == Some(n as real)
  {
    ParseDigits(NatToString(n));
    NatToStringRoundTrip(n);
  }

  /** A non-empty string of digits parses as its decimal value. */
  lemma ParseDigits(s: string)
    requires s != [] && forall i :: 0 <= i < |s| ==> IsDigit(s[i])
    ensures ParseFloat(s) == Some(DigitsValue(s) as real)
  {
    assert !IsWhitespace(s[0]);
    assert TrimStart(s) == s;
    ScanDigits(s, 0);
    assert s[0..] == s && s[..0] == [];
  }

  /** Text without a digit does not parse, so the figure it stands for is zero. */
  lemma NoDigitsIsZero(s: string)
    requires forall i :: 0 <= i < |s| ==> !IsDigit(s[i])
    ensures ParseFloat(s).None? && NumberOrZero(s) == 0.0
  {
    var t := TrimStart(s);
    assert forall i :: 0 <= i < |t| ==> t[i] == s[|s| - |t| + i];
    NoDigitsScans(t);
    if t != [] {
      NoDigitsScans(t[1..]);
    }
  }

  /** Scanning text whose first two characters are not digits finds no number. */
  lemma NoDigitsScans(t: string)
    requires forall i :: 0 <= i < |t| ==> !IsDigit(t[i])
    ensures ScanWhole(t, 0, false).None?
  {
    if t != [] && t[0] == '.' {
      assert t[1..] == [] || !IsDigit(t[1..][0]);
    }
  }
}
