/** The few pieces of java.lang.String behaviour the transaction record relies on:
    `trim()`, `String.join`, `String.valueOf` on a possibly-null reference and
    `String.valueOf(int)` on a non-negative value. A Java `null` is `None`.
 */
module JavaText {

  datatype Option<+T> = None | Some(value: T)

  /** `String.trim()` removes every leading and trailing character whose code is at most U+0020. */
  predicate IsTrimmed(c: char) {
    c <= ' '
  }

  /** True if `s` holds a character that `trim()` keeps. */
  ghost predicate HasVisibleChar(s: string) {
    exists i | 0 <= i < |s| :: !IsTrimmed(s[i])
  }

  /** Leading part of `trim()`: drop characters up to the first one above U+0020. */
  function TrimStart(s: string): (r: string)
    ensures |r| <= |s| && r == s[|s| - |r|..]
    ensures forall i | 0 <= i < |s| - |r| :: IsTrimmed(s[i])
    ensures r != [] ==> !IsTrimmed(r[0])
  {
    if s != [] && IsTrimmed(s[0]) then TrimStart(s[1..]) else s
  }

  /** Trailing part of `trim()`: drop characters after the last one above U+0020. */
  function TrimEnd(s: string): (r: string)
    ensures |r| <= |s| && r == s[..|r|]
    ensures forall i | |r| <= i < |s| :: IsTrimmed(s[i])
    ensures r != [] ==> !IsTrimmed(r[|r| - 1])
  {
    if s != [] && IsTrimmed(s[|s| - 1]) then TrimEnd(s[..|s| - 1]) else s
  }

  /** `String.trim()`: no longer than its input, and a non-empty result begins and ends with a
      character above U+0020 (`TrimEmptyIff` says when it is empty). */
  function Trim(s: string): (r: string)
    ensures |r| <= |s|
    ensures r != [] ==> !IsTrimmed(r[0]) && !IsTrimmed(r[|r| - 1])
  {
    var a := TrimStart(s);
    var r := TrimEnd(a);
    assert r != [] ==> r[0] == a[0];
    r
  }

  /** `trim()` yields the empty string exactly when every character is at most U+0020. */
  lemma TrimEmptyIff(s: string)
    ensures Trim(s) == [] <==> !HasVisibleChar(s)
  {
    var a := TrimStart(s);
    if Trim(s) == [] {
      assert a == [];
    } else {
      assert a != [] && s[|s| - |a|] == a[0];
    }
  }

  /** The private helper `isNotEmpty`: non-null, and not blank after `trim()`. */
  function IsNotEmpty(v: Option<string>): (b: bool)
    ensures b ==> v.Some? && v.value != []
  {
    match v
    case None => false
    case Some(s) => Trim(s) != []
  }

  lemma IsNotEmptyIff(v: Option<string>)
    ensures IsNotEmpty(v) <==> v.Some? && HasVisibleChar(v.value)
  {
    if v.Some? {
      TrimEmptyIff(v.value);
    }
  }

  /** A string that starts with a character above U+0020 is not empty after `trim()`. */
  lemma NotEmptyWhenFirstVisible(s: string)
    requires s != [] && !IsTrimmed(s[0])
    ensures IsNotEmpty(Some(s))
  {
    IsNotEmptyIff(Some(s));
  }

  /** How `String.join` and `String.format("%s")` render a string reference: null becomes "null". */
  function ValueOf(v: Option<string>): string {
    match v
    case None => "null"
    case Some(s) => s
  }

  /** Total number of characters in a sequence of strings. */
  function TotalLength(parts: seq<string>): nat {
    if parts == [] then 0 else |parts[0]| + TotalLength(parts[1..])
  }

  /** `String.join` with a one-character delimiter; no quoting or escaping of any element.
      The result holds every character of the parts plus one delimiter between each two, and
      starts with the first part. */
  function Join(parts: seq<string>, sep: char): (r: string)
    ensures parts != [] ==> |r| == TotalLength(parts) + |parts| - 1
    ensures |parts| >= 2 ==> r[..|parts[0]| + 1] == parts[0] + [sep]
  {
    if |parts| == 0 then ""
    else if |parts| == 1 then parts[0]
    else parts[0] + [sep] + Join(parts[1..], sep)
  }

  /** Reference reader for a joined text: cut at every `sep`, keeping empty pieces. */
  function Split(s: string, sep: char): (r: seq<string>)
    ensures |r| >= 1
  {
    if s == [] then [[]]
    else
      var rest := Split(s[1..], sep);
      if s[0] == sep then [[]] + rest else [[s[0]] + rest[0]] + rest[1..]
  }

  lemma {:induction false} SplitNoSep(p: string, sep: char)
    requires sep !in p
    ensures Split(p, sep) == [p]
  {
    if p != [] {
      SplitNoSep(p[1..], sep);
      assert [p[0]] + p[1..] == p;
    }
  }

  lemma {:induction false} SplitAfterPiece(p: string, sep: char, rest: string)
    requires sep !in p
    ensures Split(p + [sep] + rest, sep) == [p] + Split(rest, sep)
  {
    var s := p + [sep] + rest;
    if p == [] {
      assert s[1..] == rest;
    } else {
      assert s[1..] == p[1..] + [sep] + rest;
      SplitAfterPiece(p[1..], sep, rest);
      assert [p[0]] + p[1..] == p;
    }
  }

  /** Reading a joined text back gives the pieces, as long as no piece holds the delimiter. */
  lemma {:induction false} SplitJoin(parts: seq<string>, sep: char)
    requires |parts| >= 1
    requires forall k | 0 <= k < |parts| :: sep !in parts[k]
    ensures Split(Join(parts, sep), sep) == parts
  {
    if |parts| == 1 {
      SplitNoSep(parts[0], sep);
    } else {
      SplitJoin(parts[1..], sep);
      SplitAfterPiece(parts[0], sep, Join(parts[1..], sep));
      assert [parts[0]] + parts[1..] == parts;
    }
  }

  predicate IsDigit(c: char) {
    '0' <= c <= '9'
  }

  function Digit(d: nat): (c: char)
    requires d < 10
    ensures IsDigit(c) && c as int - '0' as int == d
  {
    (d + '0' as int) as char
  }

  function DigitValue(c: char): (d: nat)
    requires IsDigit(c)
    ensures d < 10 && Digit(d) == c
  {
    c as int - '0' as int
  }

  function Pow10(k: nat): (p: nat)
    ensures p >= 1
  {
    if k == 0 then 1 else 10 * Pow10(k - 1)
  }

  /** `String.valueOf(int)` on a non-negative value: decimal digits, no sign, no leading zero. */
  function DecimalString(n: nat): (r: string)
    ensures |r| >= 1
    ensures forall i | 0 <= i < |r| :: IsDigit(r[i])
    ensures r[0] == '0' ==> n == 0
  {
    if n < 10 then [Digit(n)] else DecimalString(n / 10) + [Digit(n % 10)]
  }

  /** Reference reader: the decimal value of a digit string. */
  function DecimalValue(s: string): nat
    requires forall i | 0 <= i < |s| :: IsDigit(s[i])
  {
    if s == [] then 0 else 10 * DecimalValue(s[..|s| - 1]) + DigitValue(s[|s| - 1])
  }

  lemma {:induction false} DecimalRoundTrip(n: nat)
    ensures DecimalValue(DecimalString(n)) == n
  {
    if n >= 10 {
      DecimalRoundTrip(n / 10);
      var r := DecimalString(n);
      assert r[..|r| - 1] == DecimalString(n / 10);
    }
  }

  /** A value with k digits renders as exactly k characters. */
  lemma {:induction false} DecimalLength(n: nat, k: nat)
    requires k >= 1 && Pow10(k - 1) <= n < Pow10(k)
    ensures |DecimalString(n)| == k
  {
    if k > 1 {
      assert Pow10(k - 1) == 10 * Pow10(k - 2);
      DecimalLength(n / 10, k - 1);
    }
  }
}
