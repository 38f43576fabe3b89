/**
 * The pieces of Python's string semantics that the core relies on:
 * `str.strip`, the regex classes `\s`, `\w` and `\d`, `str.split` on one
 * character, `str.join`, `str.lower`, `in`, `startswith`, the format
 * specifications `<n` and `0n`, and `int()` applied to text.
 */
module Text {
  import opened Results

  /** Python's `str.isspace`, which is also what `\s` and `str.strip()` use. */
  predicate IsSpace(c: char) {
    || ('\t' <= c <= '\r') || ('\U{1C}' <= c <= '\U{1F}') || c == ' '
    || c == '\U{85}' || c == '\U{A0}' || c == '\U{1680}'
    || ('\U{2000}' <= c <= '\U{200A}') || c == '\U{2028}' || c == '\U{2029}'
    || c == '\U{202F}' || c == '\U{205F}' || c == '\U{3000}'
  }

  /** `\d`, restricted to ASCII digits. */
  predicate IsDigit(c: char) {
    '0' <= c <= '9'
  }

  /** `\w`, restricted to ASCII letters, digits and the underscore. */
  predicate IsWordChar(c: char) {
    ('a' <= c <= 'z') || ('A' <= c <= 'Z') || IsDigit(c) || c == '_'
  }

  predicate AllSpace(s: string) {
    forall k :: 0 <= k < |s| ==> IsSpace(s[k])
  }

  /** Text that `strip()` leaves as it is. */
  predicate IsTrimmed(s: string) {
    s == "" || (!IsSpace(s[0]) && !IsSpace(s[|s| - 1]))
  }

  /** Neither a newline nor a carriage return (both end a line when a file is read). */
  predicate SingleLine(s: string) {
    '\n' !in s && '\r' !in s
  }

  function TrimStart(s: string): (r: string)
    ensures |r| <= |s| && r == s[|s| - |r|..]
    ensures AllSpace(s[..|s| - |r|])
    ensures r == "" || !IsSpace(r[0])
  {
    if s != "" && IsSpace(s[0]) then TrimStart(s[1..]) else s
  }

  function TrimEnd(s: string): (r: string)
    ensures |r| <= |s| && r == s[..|r|]
    ensures AllSpace(s[|r|..])
    ensures r == "" || !IsSpace(r[|r| - 1])
  {
    if s != "" && IsSpace(s[|s| - 1]) then
      var r := TrimEnd(s[..|s| - 1]);
      assert s[|r|..] == s[..|s| - 1][|r|..] + [s[|s| - 1]];
      r
    else s
  }

  /** `str.strip()` with no argument. */
  function Trim(s: string): (r: string)
    ensures IsTrimmed(r)
  {
    var t := TrimStart(s);
    var r := TrimEnd(t);
    assert r != "" ==> r[0] == t[0];
    r
  }

  lemma {:induction false} TrimStartSpaces(a: string, x: string)
    requires AllSpace(a)
    requires x == "" || !IsSpace(x[0])
    ensures TrimStart(a + x) == x
  {
    if a != "" {
      assert (a + x)[1..] == a[1..] + x;
      TrimStartSpaces(a[1..], x);
    } else {
      assert a + x == x;
    }
  }

  lemma {:induction false} TrimEndSpaces(x: string, b: string)
    requires AllSpace(b)
    requires x == "" || !IsSpace(x[|x| - 1])
    ensures TrimEnd(x + b) == x
  {
    if b != "" {
      assert (x + b)[..|x + b| - 1] == x + b[..|b| - 1];
      TrimEndSpaces(x, b[..|b| - 1]);
    } else {
      assert x + b == x;
    }
  }

  /** Surrounding whitespace is exactly what `strip()` removes. */
  lemma TrimPadded(a: string, x: string, b: string)
    requires AllSpace(a) && AllSpace(b) && IsTrimmed(x)
    ensures Trim(a + x + b) == x
  {
    if x == "" {
      assert a + x + b == (a + b) + "";
      TrimStartSpaces(a + b, "");
    } else {
      assert a + x + b == a + (x + b);
      TrimStartSpaces(a, x + b);
      TrimEndSpaces(x, b);
    }
  }

  lemma TrimTrimmed(x: string)
    requires IsTrimmed(x)
    ensures Trim(x) == x
  {
    TrimPadded("", x, "");
    assert "" + x + "" == x;
  }

  /** `strip()` only removes characters. */
  lemma TrimSubset(s: string, c: char)
    requires c in Trim(s)
    ensures c in s
  {
    var t := TrimStart(s);
    var r := TrimEnd(t);
    var k :| 0 <= k < |r| && r[k] == c;
    assert t[k] == c;
    assert s[|s| - |t| + k] == c;
  }

  /** Text that `strip()` reduces to nothing is whitespace only. */
  lemma TrimEmpty(s: string)
    ensures Trim(s) == "" <==> AllSpace(s)
  {
    var t := TrimStart(s);
    if Trim(s) == "" {
      assert AllSpace(t[0..]);
      assert t == "";
    }
    if AllSpace(s) && s != "" {
      assert t == "";
    }
  }

  function LowerChar(c: char): char {
    if 'A' <= c <= 'Z' then (c as int + 32) as char else c
  }

  /** `str.lower()`, restricted to ASCII letters. */
  function Lower(s: string): (r: string)
    ensures |r| == |s|
  {
    seq(|s|, k requires 0 <= k < |s| => LowerChar(s[k]))
  }

  /** `s.startswith(p)`. */
  predicate StartsWith(s: string, p: string) {
    |p| <= |s| && s[..|p|] == p
  }

  /** p occurs in s at index k. */
  predicate OccursAt(s: string, p: string, k: nat) {
    k + |p| <= |s| && s[k..k + |p|] == p
  }

  /** `p in s` for two strings. */
  predicate Contains(s: string, p: string) {
    exists k: nat :: k <= |s| && OccursAt(s, p, k)
  }

  /** `s.split(sep)` for a one-character separator: every occurrence splits. */
  function Split(s: string, sep: char): (parts: seq<string>)
    ensures |parts| >= 1
    ensures forall k :: 0 <= k < |parts| ==> sep !in parts[k]
    ensures sep !in s ==> parts == [s]
  {
    if s == "" then [""]
    else
      var rest := Split(s[1..], sep);
      assert s == [s[0]] + s[1..];
      if s[0] == sep then [""] + rest else [[s[0]] + rest[0]] + rest[1..]
  }

  lemma {:induction false} SplitAtFirst(a: string, b: string, sep: char)
    requires sep !in a
    ensures Split(a + [sep] + b, sep) == [a] + Split(b, sep)
  {
    if a == "" {
      assert (a + [sep] + b)[1..] == b;
    } else {
      assert (a + [sep] + b)[1..] == a[1..] + [sep] + b;
      SplitAtFirst(a[1..], b, sep);
      assert [a[0]] + a[1..] == a;
    }
  }

  /** Text with exactly one separator splits into the two pieces around it. */
  lemma SplitOnce(a: string, b: string, sep: char)
    requires sep !in a && sep !in b
    ensures Split(a + [sep] + b, sep) == [a, b]
  {
    SplitAtFirst(a, b, sep);
  }

  /** `s.split(sep)` has one part more than s has separators. */
  lemma {:induction false} SplitCount(s: string, sep: char)
    ensures |Split(s, sep)| == multiset(s)[sep] + 1
  {
    if s != "" {
      SplitCount(s[1..], sep);
      assert s == [s[0]] + s[1..];
      assert multiset(s) == multiset{s[0]} + multiset(s[1..]);
    }
  }

  /** `sep.join(parts)`. */
  function Join(parts: seq<string>, sep: string): string
    decreases |parts|
  {
    if |parts| == 0 then ""
    else if |parts| == 1 then parts[0]
    else parts[0] + sep + Join(parts[1..], sep)
  }

  /** `split` and `join` on the same character are inverse. */
  lemma {:induction false} JoinSplit(s: string, sep: char)
    ensures Join(Split(s, sep), [sep]) == s
  {
    if s != "" {
      var rest := Split(s[1..], sep);
      JoinSplit(s[1..], sep);
      assert s == [s[0]] + s[1..];
      if s[0] == sep {
        JoinCons("", rest, [sep]);
      } else {
        JoinExtend(s[0], rest, [sep]);
      }
    }
  }

  lemma JoinCons(a: string, rest: seq<string>, sep: string)
    requires rest != []
    ensures Join([a] + rest, sep) == a + sep + Join(rest, sep)
  {
    assert ([a] + rest)[1..] == rest;
  }

  /** A character put in front of the first part goes in front of the joined text. */
  lemma JoinExtend(c: char, rest: seq<string>, sep: string)
    requires rest != []
    ensures Join([[c] + rest[0]] + rest[1..], sep) == [c] + Join(rest, sep)
  {
    if |rest| > 1 {
      assert rest == [rest[0]] + rest[1..];
      JoinCons(rest[0], rest[1..], sep);
      JoinCons([c] + rest[0], rest[1..], sep);
    }
  }

  function Spaces(n: nat): (r: string)
    ensures |r| == n && AllSpace(r)
  {
    seq(n, _ => ' ')
  }

  /** The format specification `<n`: pad on the right to at least n characters. */
  function PadRight(s: string, n: nat): (r: string)
    ensures |r| == if |s| < n then n else |s|
    ensures r[..|s|] == s && AllSpace(r[|s|..])
  {
    if |s| < n then s + Spaces(n - |s|) else s
  }

  /** The slice `s[n:]`. */
  function Drop(s: string, n: nat): (r: string)
    ensures |s| <= n ==> r == ""
    ensures n < |s| ==> r == s[n..]
  {
    if |s| <= n then "" else s[n..]
  }

  /** The slice `s[1:-1]`. */
  function Inner(s: string): (r: string)
    ensures |s| < 2 ==> r == ""
    ensures |s| >= 2 ==> r == s[1..|s| - 1]
  {
    if |s| < 2 then "" else s[1..|s| - 1]
  }

  /** The slice `s[:n]`. */
  function Take(s: string, n: nat): (r: string)
    ensures |r| == if |s| < n then |s| else n
    ensures StartsWith(s, r)
  {
    if |s| <= n then s else s[..n]
  }

  predicate AllDigits(s: string) {
    forall k :: 0 <= k < |s| ==> IsDigit(s[k])
  }

  function DigitChar(d: nat): (c: char)
    requires d < 10
    ensures IsDigit(c)
  {
    ('0' as int + d) as char
  }

  /** The decimal digits of n, as `str(n)` writes them. */
  function Decimal(n: nat): (r: string)
    ensures |r| >= 1 && AllDigits(r)
  {
    if n < 10 then [DigitChar(n)] else Decimal(n / 10) + [DigitChar(n % 10)]
  }

  function DigitsValue(s: string): nat
    requires AllDigits(s)
  {
    if s == "" then 0 else DigitsValue(s[..|s| - 1]) * 10 + (s[|s| - 1] as int - '0' as int)
  }

  lemma {:induction false} DigitsValueOfDecimal(n: nat)
    ensures DigitsValue(Decimal(n)) == n
  {
    if n >= 10 {
      var s := Decimal(n);
      assert s[..|s| - 1] == Decimal(n / 10);
      DigitsValueOfDecimal(n / 10);
    }
  }

  function Pow10(k: nat): nat {
    if k == 0 then 1 else 10 * Pow10(k - 1)
  }

  lemma {:induction false} DecimalBelow(n: nat, k: nat)
    requires k >= 1 && n < Pow10(k)
    ensures |Decimal(n)| <= k
  {
    if n >= 10 {
      DecimalBelow(n / 10, k - 1);
    }
  }

  function Zeros(n: nat): (r: string)
    ensures |r| == n && AllDigits(r)
  {
    seq(n, _ => '0')
  }

  /** The format specification `0n` on a non-negative integer. */
  function ZeroPad(n: nat, width: nat): (r: string)
    ensures AllDigits(r) && |r| >= 1
  {
    var d := Decimal(n);
    if |d| < width then Zeros(width - |d|) + d else d
  }

  lemma {:induction false} DigitsValueLeadingZeros(z: string, s: string)
    requires AllDigits(s) && |z| >= 0 && forall k :: 0 <= k < |z| ==> z[k] == '0'
    ensures AllDigits(z + s) && DigitsValue(z + s) == DigitsValue(s)
  {
    if s == "" {
      assert z + s == z;
      ZerosValue(z);
    } else {
      assert (z + s)[..|z + s| - 1] == z + s[..|s| - 1];
      DigitsValueLeadingZeros(z, s[..|s| - 1]);
    }
  }

  lemma {:induction false} ZerosValue(z: string)
    requires forall k :: 0 <= k < |z| ==> z[k] == '0'
    ensures AllDigits(z) && DigitsValue(z) == 0
  {
    if z != "" {
      ZerosValue(z[..|z| - 1]);
    }
  }

  lemma ZeroPadValue(n: nat, width: nat)
    ensures DigitsValue(ZeroPad(n, width)) == n
  {
    var d := Decimal(n);
    DigitsValueOfDecimal(n);
    if |d| < width {
      DigitsValueLeadingZeros(Zeros(width - |d|), d);
    }
  }

  /** Digits with single underscores between them, as `int()` accepts them. */
  predicate DigitGroups(b: string) {
    && |b| > 0 && IsDigit(b[0]) && IsDigit(b[|b| - 1])
    && (forall k :: 0 <= k < |b| ==> IsDigit(b[k]) || b[k] == '_')
    && (forall k :: 0 <= k < |b| - 1 ==> b[k] == '_' ==> b[k + 1] != '_')
  }

  function DropUnderscores(b: string): (r: string)
    requires forall k :: 0 <= k < |b| ==> IsDigit(b[k]) || b[k] == '_'
    ensures AllDigits(r)
    ensures AllDigits(b) ==> r == b
  {
    if b == "" then ""
    else if b[0] == '_' then DropUnderscores(b[1..])
    else [b[0]] + DropUnderscores(b[1..])
  }

  /** `int(text)` in base 10: surrounding whitespace, an optional sign, digit groups. */
  function ParseInt(text: string): Result<int> {
    var t := Trim(text);
    if t == "" then Err(InvalidInteger)
    else
      var negative := t[0] == '-';
      var body := if t[0] == '-' || t[0] == '+' then t[1..] else t;
      if !DigitGroups(body) then Err(InvalidInteger)
      else
        var v: int := DigitsValue(DropUnderscores(body));
        Ok(if negative then -v else v)
  }

  /**
   * What `int()` accepts: after stripping, a non-empty text that is digit groups after one
   * optional sign. A success is negative only after a minus sign, and its magnitude is the
   * value of the digits.
   */
  lemma ParseIntAccepts(text: string)
    ensures ParseInt(text).Err? ==> ParseInt(text) == Err(InvalidInteger)
    ensures ParseInt(text).Ok? <==> var t := Trim(text);
      t != "" && DigitGroups(if t[0] == '-' || t[0] == '+' then t[1..] else t)
    ensures ParseInt(text).Ok? ==> var t := Trim(text); var body := if t[0] == '-' || t[0] == '+' then t[1..] else t;
      var v := ParseInt(text).value;
      && (v < 0 ==> t[0] == '-')
      && (if v < 0 then -v else v) == DigitsValue(DropUnderscores(body))
  {
  }

  /** A word, a lone sign, a doubled underscore and a decimal point are not integers. */
  lemma NotIntegerExamples(t: string)
    requires t == "abc" || t == "" || t == "-" || t == "1__0" || t == "1.5"
    ensures ParseInt(t) == Err(InvalidInteger)
  {
    if t == "abc" {
      NotIntegerAt(t, 0);
    } else if t == "" {
      TrimTrimmed(t);
    } else if t == "-" {
      TrimTrimmed(t);
    } else if t == "1__0" {
      NotIntegerUnderscores(t, 1);
    } else {
      NotIntegerAt(t, 1);
    }
  }

  /** A trimmed text with a character other than a digit or an underscore after its first is not an integer. */
  lemma NotIntegerAt(t: string, k: nat)
    requires k < |t| && !IsSpace(t[0]) && !IsSpace(t[|t| - 1])
    requires !IsDigit(t[k]) && t[k] != '_' && (k == 0 ==> t[0] != '-' && t[0] != '+')
    ensures ParseInt(t) == Err(InvalidInteger)
  {
    TrimTrimmed(t);
    if k > 0 && (t[0] == '-' || t[0] == '+') {
      assert t[1..][k - 1] == t[k];
    }
  }

  /** Two underscores in a row are not an integer. */
  lemma NotIntegerUnderscores(t: string, k: nat)
    requires 0 < k && k + 1 < |t| && !IsSpace(t[0]) && !IsSpace(t[|t| - 1])
    requires t[k] == '_' && t[k + 1] == '_'
    ensures ParseInt(t) == Err(InvalidInteger)
  {
    TrimTrimmed(t);
    if t[0] == '-' || t[0] == '+' {
      assert t[1..][k - 1] == t[k] && t[1..][k] == t[k + 1];
    }
  }

  /** `int()` reads a run of digits with surrounding whitespace as its decimal value. */
  lemma ParseIntDigits(a: string, d: string, b: string)
    requires AllSpace(a) && AllSpace(b) && AllDigits(d) && d != ""
    ensures ParseInt(a + d + b) == Ok(DigitsValue(d))
  {
    assert IsDigit(d[0]) && IsDigit(d[|d| - 1]);
    TrimPadded(a, d, b);
    ParseIntOfDigits(a + d + b, d);
  }

  lemma ParseIntOfDigits(text: string, d: string)
    requires Trim(text) == d && AllDigits(d) && d != ""
    ensures ParseInt(text) == Ok(DigitsValue(d))
  {
    assert IsDigit(d[0]) && IsDigit(d[|d| - 1]);
    assert DigitGroups(d);
    assert DropUnderscores(d) == d;
  }

  /** The same with whitespace on one side only. */
  lemma ParseIntDigitsBefore(a: string, d: string)
    requires AllSpace(a) && AllDigits(d) && d != ""
    ensures ParseInt(a + d) == Ok(DigitsValue(d))
  {
    assert a + d + "" == a + d;
    TrimPadded(a, d, "");
    ParseIntOfDigits(a + d, d);
  }

  lemma ParseIntDigitsAfter(d: string, b: string)
    requires AllSpace(b) && AllDigits(d) && d != ""
    ensures ParseInt(d + b) == Ok(DigitsValue(d))
  {
    assert IsDigit(d[0]) && IsDigit(d[|d| - 1]);
    TrimTrailing(d, b);
    ParseIntOfDigits(d + b, d);
  }

  /** Whitespace after a trimmed text strips away. */
  lemma TrimTrailing(x: string, b: string)
    requires IsTrimmed(x) && AllSpace(b)
    ensures Trim(x + b) == x
  {
    assert "" + x + b == x + b;
    TrimPadded("", x, b);
  }

  lemma ParseIntDigitsOnly(d: string)
    requires AllDigits(d) && d != ""
    ensures ParseInt(d) == Ok(DigitsValue(d))
  {
    assert "" + d + "" == d;
    ParseIntDigits("", d, "");
  }

  /** `int()` reads back what the format specification `0n` writes. */
  lemma ParseIntZeroPad(a: string, n: nat, width: nat, b: string)
    requires AllSpace(a) && AllSpace(b)
    ensures ParseInt(a + ZeroPad(n, width) + b) == Ok(n)
  {
    ParseIntDigits(a, ZeroPad(n, width), b);
    ZeroPadValue(n, width);
  }

  /** The decimal text of an integer, as `f"{n}"` writes it. */
  function IntText(n: int): string {
    if n < 0 then "-" + Decimal(-n) else Decimal(n)
  }

  /** The concatenation of a sequence of strings. */
  function Concat(parts: seq<string>): string {
    if parts == [] then "" else parts[0] + Concat(parts[1..])
  }

  lemma {:induction false} ConcatAppend(a: seq<string>, b: seq<string>)
    ensures Concat(a + b) == Concat(a) + Concat(b)
  {
    if a != [] {
      assert (a + b)[1..] == a[1..] + b;
      ConcatAppend(a[1..], b);
    } else {
      assert a + b == b;
    }
  }
}
