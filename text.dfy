/**
 * The pieces of Python's string built-ins the plugin relies on: `str.strip()`,
 * `str(int)`, `int(str)` in base 10, `str.rfind`, `sep.join(...)` and `s * n`.
 * Characters are Unicode scalar values, as Python's code points are.
 */
module Text {
  import opened Wrappers

  /** `c.isspace()` in Python: the ASCII separators, the C1 next-line, no-break space and the Unicode spaces. */
  predicate IsSpace(c: char) {
    var n := c as int;
    n == 0x20 || 0x09 <= n <= 0x0D || 0x1C <= n <= 0x1F || n == 0x85 || n == 0xA0 || n == 0x1680
    || 0x2000 <= n <= 0x200A || n == 0x2028 || n == 0x2029 || n == 0x202F || n == 0x205F || n == 0x3000
  }

  /**
   * The white space `int()` skips around a number: every `isspace` character except the four ASCII
   * information separators U+001C..U+001F, which CPython neither maps to a blank nor skips.
   */
  predicate IsIntSpace(c: char) {
    IsSpace(c) && !(0x1C <= c as int <= 0x1F)
  }

  /** Every character of `s` is white space in the sense of `ws`. */
  predicate AllSpace(s: string, ws: char -> bool) {
    forall i :: 0 <= i < |s| ==> ws(s[i])
  }

  /** Neither end is white space in the sense of `ws`. */
  predicate Trimmed(s: string, ws: char -> bool) {
    s == "" || (!ws(s[0]) && !ws(s[|s| - 1]))
  }

  /** The suffix left once the leading white space is gone; `s.lstrip()` when `ws` is `IsSpace`. */
  function LStrip(s: string, ws: char -> bool): (r: string)
    ensures |r| <= |s| && r == s[|s| - |r|..]
    ensures forall i :: 0 <= i < |s| - |r| ==> ws(s[i])
    ensures r != "" ==> !ws(r[0])
    decreases |s|
  {
    if s != "" && ws(s[0]) then
      var r := LStrip(s[1..], ws);
      assert r == s[|s| - |r|..];
      forall i | 0 < i < |s| - |r| ensures ws(s[i]) { assert s[i] == s[1..][i - 1]; }
      r
    else s
  }

  /** The prefix left once the trailing white space is gone; `s.rstrip()` when `ws` is `IsSpace`. */
  function RStrip(s: string, ws: char -> bool): (r: string)
    ensures |r| <= |s| && r == s[..|r|]
    ensures forall i :: |r| <= i < |s| ==> ws(s[i])
    ensures r != "" ==> !ws(r[|r| - 1])
    decreases |s|
  {
    if s != "" && ws(s[|s| - 1]) then
      var r := RStrip(s[..|s| - 1], ws);
      assert r == s[..|r|];
      forall i | |r| <= i < |s| - 1 ensures ws(s[i]) { assert s[i] == s[..|s| - 1][i]; }
      r
    else s
  }

  /** The number of white-space characters the left strip removes. */
  function LeadingSpace(s: string, ws: char -> bool): (n: nat)
    ensures n <= |s|
  {
    |s| - |LStrip(s, ws)|
  }

  /** What is left once white space in the sense of `ws` is gone from both ends. */
  function StripBy(s: string, ws: char -> bool): (r: string)
    ensures Trimmed(r, ws) && |r| <= |s|
  {
    var l := LStrip(s, ws);
    var r := RStrip(l, ws);
    assert r != "" ==> r[0] == l[0];
    r
  }

  /** `s.strip()`. */
  function Strip(s: string): (r: string)
    ensures Trimmed(r, IsSpace) && |r| <= |s|
  {
    StripBy(s, IsSpace)
  }

  /** `s` is white space, then its strip, then white space. */
  lemma StripInfix(s: string, ws: char -> bool)
    ensures var r, a := StripBy(s, ws), LeadingSpace(s, ws);
      && a + |r| <= |s| && r == s[a..a + |r|]
      && AllSpace(s[..a], ws) && AllSpace(s[a + |r|..], ws)
  {
    LStripPrefix(s, ws);
    RStripSuffix(LStrip(s, ws), ws);
    InfixOfSuffix(s, LeadingSpace(s, ws), LStrip(s, ws), StripBy(s, ws), ws);
  }

  /** The start `r` of the suffix `l == s[a..]`, followed by white space, is the slice of `s` from `a`, followed by white space. */
  lemma InfixOfSuffix(s: string, a: nat, l: string, r: string, ws: char -> bool)
    requires a <= |s| && l == s[a..] && |r| <= |l| && r == l[..|r|] && AllSpace(l[|r|..], ws)
    ensures a + |r| <= |s| && r == s[a..a + |r|] && AllSpace(s[a + |r|..], ws)
  {
    assert s[a..][|r|..] == s[a + |r|..];
  }

  /** What `LStrip` removes is white space, and what it keeps is the rest of the text. */
  lemma LStripPrefix(s: string, ws: char -> bool)
    ensures var a := LeadingSpace(s, ws); LStrip(s, ws) == s[a..] && AllSpace(s[..a], ws)
  {
    var a := LeadingSpace(s, ws);
    forall i | 0 <= i < a ensures ws(s[..a][i]) { assert s[..a][i] == s[i]; }
  }

  /** What `RStrip` removes is white space, and what it keeps is the start of the text. */
  lemma RStripSuffix(l: string, ws: char -> bool)
    ensures var r := RStrip(l, ws); r == l[..|r|] && AllSpace(l[|r|..], ws)
  {
    var r := RStrip(l, ws);
    var tail := l[|r|..];
    forall i | 0 <= i < |tail| ensures ws(tail[i]) { assert tail[i] == l[|r| + i]; }
  }

  lemma {:induction false} LStripSkips(w: string, u: string, ws: char -> bool)
    requires AllSpace(w, ws) && (u == "" || !ws(u[0]))
    ensures LStrip(w + u, ws) == u
    decreases |w|
  {
    if w == "" {
      assert w + u == u;
    } else {
      assert (w + u)[1..] == w[1..] + u;
      LStripSkips(w[1..], u, ws);
    }
  }

  lemma {:induction false} RStripSkips(u: string, w: string, ws: char -> bool)
    requires AllSpace(w, ws) && (u == "" || !ws(u[|u| - 1]))
    ensures RStrip(u + w, ws) == u
    decreases |w|
  {
    if w == "" {
      assert u + w == u;
    } else {
      assert (u + w)[..|u + w| - 1] == u + w[..|w| - 1];
      RStripSkips(u, w[..|w| - 1], ws);
    }
  }

  /** Stripping undoes any white-space padding of an already trimmed text. */
  lemma StripPadded(w1: string, t: string, w2: string, ws: char -> bool)
    requires AllSpace(w1, ws) && AllSpace(w2, ws) && Trimmed(t, ws)
    ensures StripBy(w1 + t + w2, ws) == t
  {
    assert w1 + t + w2 == w1 + (t + w2);
    if t == "" {
      assert AllSpace(w1 + w2, ws) by {
        forall i | 0 <= i < |w1 + w2| ensures ws((w1 + w2)[i]) {
          if i >= |w1| { assert (w1 + w2)[i] == w2[i - |w1|]; }
        }
      }
      assert w1 + t + w2 == (w1 + w2) + "";
      LStripSkips(w1 + w2, "", ws);
    } else {
      LStripSkips(w1, t + w2, ws);
      RStripSkips(t, w2, ws);
    }
  }

  /** A trimmed text is its own strip. */
  lemma StripTrimmed(t: string, ws: char -> bool)
    requires Trimmed(t, ws)
    ensures StripBy(t, ws) == t
  {
    assert "" + t + "" == t;
    StripPadded("", t, "", ws);
  }

  /** Stripping is idempotent. */
  lemma StripIdempotent(s: string, ws: char -> bool)
    ensures StripBy(StripBy(s, ws), ws) == StripBy(s, ws)
  {
    var t := StripBy(s, ws);
    assert "" + t + "" == t;
    StripPadded("", t, "", ws);
  }

  /** A text strips to nothing exactly when it is all white space. */
  lemma StripEmptyIff(s: string, ws: char -> bool)
    ensures StripBy(s, ws) == "" <==> AllSpace(s, ws)
  {
    if AllSpace(s, ws) {
      assert s + "" + "" == s;
      StripPadded(s, "", "", ws);
    }
    if StripBy(s, ws) == "" {
      StripInfix(s, ws);
      assert s[..LeadingSpace(s, ws)] == s;
    }
  }

  // ----- decimal numbers -----

  predicate IsDigit(c: char) {
    '0' <= c <= '9'
  }

  function DigitChar(d: nat): (c: char)
    requires d < 10
    ensures IsDigit(c)
  {
    ('0' as int + d) as char
  }

  function DigitValue(c: char): nat
    requires IsDigit(c)
  {
    c as int - '0' as int
  }

  /** `str(n)` for a non-negative integer: its decimal digits, most significant first, without leading zeros. */
  function NatToString(n: nat): (s: string)
    ensures s != "" && forall i :: 0 <= i < |s| ==> IsDigit(s[i])
    ensures |s| > 1 ==> s[0] != '0'
  {
    if n < 10 then [DigitChar(n)] else NatToString(n / 10) + [DigitChar(n % 10)]
  }

  /** `str(i)` for any integer: a minus sign before the digits of a negative number. */
  function IntToString(i: int): (s: string)
    ensures s != "" && Trimmed(s, IsSpace) && IsDigit(s[|s| - 1])
    ensures forall k :: 0 <= k < |s| ==> IsDigit(s[k]) || (k == 0 && s[k] == '-')
  {
    if i < 0 then "-" + NatToString(-i) else NatToString(i)
  }

  /** The digits `int()` accepts in base 10: a digit, then digits each optionally preceded by one underscore. */
  predicate IsDigitGroup(d: string)
    decreases |d|
  {
    if |d| <= 1 then d != "" && IsDigit(d[0])
    else (IsDigit(d[|d| - 1]) &&
          (IsDigitGroup(d[..|d| - 1]) || (d[|d| - 2] == '_' && IsDigitGroup(d[..|d| - 2]))))
  }

  /** The number the digits of a digit group spell, underscores ignored. */
  function DigitsValue(d: string): nat
    requires IsDigitGroup(d)
    decreases |d|
  {
    if |d| == 1 then DigitValue(d[0])
    else if IsDigitGroup(d[..|d| - 1]) then 10 * DigitsValue(d[..|d| - 1]) + DigitValue(d[|d| - 1])
    else 10 * DigitsValue(d[..|d| - 2]) + DigitValue(d[|d| - 1])
  }

  /**
   * CPython's default `int_max_str_digits`: `int()` raises `ValueError` on a decimal text of more digits,
   * and `str()` on an integer of more digits.
   */
  const MaxStrDigits := 4300

  /** The number of decimal digits in `s`; in a digit group, the underscores do not count. */
  function DigitCount(s: string): (n: nat)
    ensures n <= |s|
  {
    if s == "" then 0 else (if IsDigit(s[0]) then 1 else 0) + DigitCount(s[1..])
  }

  /** `s` has no more digits than CPython converts between text and integers. */
  predicate WithinDigitLimit(s: string) {
    DigitCount(s) <= MaxStrDigits
  }

  /**
   * `int(s)` in base 10: surrounding white space in the sense of `IsIntSpace` is ignored, an optional sign, then a digit group
   * of at most `MaxStrDigits` digits; anything else is the `ValueError` Python raises, here `None`.
   */
  function ParseInt(s: string): Option<int> {
    ParseSigned(StripBy(s, IsIntSpace))
  }

  /** What `int()` makes of the text once stripped: an optional sign, then a digit group within the digit limit. */
  function ParseSigned(t: string): Option<int> {
    if t != "" && (t[0] == '+' || t[0] == '-') then
      if IsDigitGroup(t[1..]) && WithinDigitLimit(t[1..]) then
        var v: int := DigitsValue(t[1..]);
        Some(if t[0] == '-' then -v else v)
      else None
    else if IsDigitGroup(t) && WithinDigitLimit(t) then Some(DigitsValue(t))
    else None
  }

  lemma {:induction false} NatToStringValue(n: nat)
    ensures IsDigitGroup(NatToString(n)) && DigitsValue(NatToString(n)) == n
    decreases n
  {
    var s := NatToString(n);
    if n >= 10 {
      NatToStringValue(n / 10);
      assert s[..|s| - 1] == NatToString(n / 10);
    }
  }

  /** `str(i)` starts with a digit or a minus sign and ends with a digit, none of which `int()` skips. */
  lemma IntToStringTrimmed(i: int)
    ensures Trimmed(IntToString(i), IsIntSpace)
  {
    var t := IntToString(i);
    assert IsDigit(t[0]) || t[0] == '-';
    assert !IsIntSpace(t[0]) && !IsIntSpace(t[|t| - 1]);
  }

  /** `int(str(i)) == i` for every integer of at most `MaxStrDigits` digits; a longer one is refused with `ValueError`. */
  lemma ParseIntToString(i: int)
    ensures ParseInt(IntToString(i)) == if WithinDigitLimit(IntToString(i)) then Some(i) else None
  {
    IntToStringTrimmed(i);
    StripTrimmed(IntToString(i), IsIntSpace);
    ParseSignedIntToString(i);
  }

  /** The sign and the digits of `str(i)` read back as `i`. */
  lemma ParseSignedIntToString(i: int)
    ensures ParseSigned(IntToString(i)) == if WithinDigitLimit(IntToString(i)) then Some(i) else None
  {
    if i < 0 {
      ParseSignedNegative(-i);
    } else {
      ParseSignedNatural(i);
    }
  }

  /** The digits of `n` after a minus sign read back as `-n`. */
  lemma ParseSignedNegative(n: nat)
    ensures ParseSigned("-" + NatToString(n)) == if WithinDigitLimit("-" + NatToString(n)) then Some(0 - n as int) else None
  {
    NatToStringValue(n);
    ParseSignedMinus(NatToString(n));
  }

  /** A minus sign before a digit group negates its value. */
  lemma ParseSignedMinus(d: string)
    requires IsDigitGroup(d)
    ensures ParseSigned("-" + d) == if WithinDigitLimit("-" + d) then Some(0 - DigitsValue(d)) else None
  {
    var t := "-" + d;
    assert t[0] == '-' && t[1..] == d;
    assert DigitCount(t) == DigitCount(d);
  }

  /** The digits of `n`, unsigned, read back as `n`. */
  lemma ParseSignedNatural(n: nat)
    ensures ParseSigned(NatToString(n)) == if WithinDigitLimit(NatToString(n)) then Some(n) else None
  {
    var d := NatToString(n);
    NatToStringValue(n);
    assert d[0] != '+' && d[0] != '-' by { assert IsDigit(d[0]); }
  }

  /** A digit group holds nothing but digits and underscores. */
  lemma {:induction false} DigitGroupChars(d: string)
    requires IsDigitGroup(d)
    ensures forall i :: 0 <= i < |d| ==> IsDigit(d[i]) || d[i] == '_'
    decreases |d|
  {
    if |d| > 1 {
      var n := if IsDigitGroup(d[..|d| - 1]) then |d| - 1 else |d| - 2;
      DigitGroupChars(d[..n]);
      forall i | 0 <= i < n ensures IsDigit(d[i]) || d[i] == '_' { assert d[i] == d[..n][i]; }
    }
  }

  /** A character that is no digit, underscore or sign makes the stripped text no number. */
  lemma RejectsNonNumeral(t: string, k: nat)
    requires k < |t| && !IsDigit(t[k]) && t[k] !in "_+-"
    ensures ParseSigned(t) == None
  {
    if t[0] == '+' || t[0] == '-' {
      if IsDigitGroup(t[1..]) {
        DigitGroupChars(t[1..]);
      }
    } else if IsDigitGroup(t) {
      DigitGroupChars(t);
    }
  }

  /** `int()` ignores the white space it skips around a decimal text: the padded text parses as the text alone does. */
  lemma ParseIntPadded(w1: string, i: int, w2: string)
    requires AllSpace(w1, IsIntSpace) && AllSpace(w2, IsIntSpace)
    ensures ParseInt(w1 + IntToString(i) + w2) == if WithinDigitLimit(IntToString(i)) then Some(i) else None
  {
    var t := IntToString(i);
    IntToStringTrimmed(i);
    StripPadded(w1, t, w2, IsIntSpace);
    ParseIntToString(i);
  }

  /** `int()` rejects a number next to an information separator, although `isspace` holds for it. */
  lemma ParseIntRejectsSeparator(i: int, c: char)
    requires 0x1C <= c as int <= 0x1F
    ensures IsSpace(c)
    ensures ParseInt([c] + IntToString(i)) == None
    ensures ParseInt(IntToString(i) + [c]) == None
  {
    var t := IntToString(i);
    IntToStringTrimmed(i);
    assert !IsIntSpace(c) && !IsDigit(c) && c !in "_+-";
    ParseIntRejectsTrimmed([c] + t, 0);
    ParseIntRejectsTrimmed(t + [c], |t|);
  }

  /** A text `int()` has nothing to skip in is no number once it holds a character other than digits, `_` and signs. */
  lemma ParseIntRejectsTrimmed(l: string, k: nat)
    requires Trimmed(l, IsIntSpace) && k < |l| && !IsDigit(l[k]) && l[k] !in "_+-"
    ensures ParseInt(l) == None
  {
    StripTrimmed(l, IsIntSpace);
    RejectsNonNumeral(l, k);
  }

  /** A digit group followed by a digit is a digit group worth ten times as much plus that digit. */
  lemma DigitGroupExtend(d: string, c: char)
    requires IsDigitGroup(d) && IsDigit(c)
    ensures IsDigitGroup(d + [c]) && DigitsValue(d + [c]) == 10 * DigitsValue(d) + DigitValue(c)
  {
    var e := d + [c];
    assert e[..|e| - 1] == d;
  }

  /** An underscore between a digit group and a digit does not change the value. */
  lemma DigitGroupUnderscore(d: string, c: char)
    requires IsDigitGroup(d) && IsDigit(c)
    ensures IsDigitGroup(d + ['_', c]) && DigitsValue(d + ['_', c]) == 10 * DigitsValue(d) + DigitValue(c)
  {
    var e := d + ['_', c];
    assert e[..|e| - 1] == d + ['_'];
    assert !IsDigitGroup(d + ['_']);
    assert e[..|e| - 2] == d;
  }

  /** `int()` reads single underscores between digits. */
  lemma ParseIntUnderscore()
    ensures ParseInt("1_000") == Some(1000)
  {
    StripTrimmed("1_000", IsIntSpace);
    assert IsDigitGroup("1");
    DigitGroupUnderscore("1", '0');
    assert "1" + ['_', '0'] == "1_0";
    DigitGroupExtend("1_0", '0');
    assert "1_0" + ['0'] == "1_00";
    DigitGroupExtend("1_00", '0');
    assert "1_00" + ['0'] == "1_000";
  }

  /** `10^k`. */
  function Pow10(k: nat): (p: nat)
    ensures p >= 1
  {
    if k == 0 then 1 else 10 * Pow10(k - 1)
  }

  /** `str(10^k)` is a one and `k` zeros: `k + 1` digits. */
  lemma {:induction false} Pow10Digits(k: nat)
    ensures DigitCount(IntToString(Pow10(k))) == k + 1
    decreases k
  {
    if k > 0 {
      Pow10Digits(k - 1);
      var p := Pow10(k);
      assert p / 10 == Pow10(k - 1) && p % 10 == 0;
      DigitCountAppend(NatToString(Pow10(k - 1)), DigitChar(0));
    }
  }

  /** One more character adds one to the digit count exactly when it is a digit. */
  lemma {:induction false} DigitCountAppend(s: string, c: char)
    ensures DigitCount(s + [c]) == DigitCount(s) + if IsDigit(c) then 1 else 0
    decreases |s|
  {
    if s != "" {
      assert (s + [c])[1..] == s[1..] + [c];
      DigitCountAppend(s[1..], c);
    } else {
      assert [c][1..] == "";
    }
  }

  /** `int(str(10^4300))` raises `ValueError`: its 4301 digits exceed the digit limit. */
  lemma ParseIntRejectsLongNumeral()
    ensures ParseInt(IntToString(Pow10(MaxStrDigits))) == None
  {
    Pow10Digits(MaxStrDigits);
    ParseIntToString(Pow10(MaxStrDigits));
  }

  /** `int()` rejects a doubled underscore. */
  lemma ParseIntRejectsDoubleUnderscore()
    ensures ParseInt("1__0") == None
  {
    StripTrimmed("1__0", IsIntSpace);
    assert "1__0"[..3] == "1__" && "1__0"[..2] == "1_";
  }

  /** `int()` rejects letters. */
  lemma ParseIntRejectsLetters()
    ensures ParseInt("abc") == None
  {
    var t := "abc";
    StripTrimmed(t, IsIntSpace);
    assert t[|t| - 1] == 'c' && !IsDigit('c');
    assert !IsDigitGroup(t);
  }

  // ----- searching, joining, repeating -----

  /** The first position of `c` in `s`, or `|s|` when there is none. */
  function IndexOf(s: string, c: char): (k: nat)
    ensures k <= |s|
    ensures k < |s| ==> s[k] == c
    ensures forall i :: 0 <= i < k ==> s[i] != c
  {
    if s == "" then 0 else if s[0] == c then 0 else 1 + IndexOf(s[1..], c)
  }

  /** `s.rfind(c)`: the last position of `c` in `s`, or -1. */
  function RFind(s: string, c: char): (k: int)
    ensures -1 <= k < |s|
    ensures k >= 0 ==> s[k] == c
    ensures forall i :: k < i < |s| ==> s[i] != c
  {
    if s == "" then -1 else if s[|s| - 1] == c then |s| - 1 else RFind(s[..|s| - 1], c)
  }

  /** When `b` holds no `c`, the last `c` of `a + [c] + b` is the one between them, and splitting there gives back `a` and `b`. */
  lemma RFindSeparator(a: string, c: char, b: string)
    requires c !in b
    ensures var s := a + [c] + b; RFind(s, c) == |a| && s[..|a|] == a && s[|a| + 1..] == b
  {
    var s := a + [c] + b;
    assert s[|a|] == c;
    assert s[..|a|] == a && s[|a| + 1..] == b;
  }

  /** `sep.join(parts)`. */
  function JoinWith(parts: seq<string>, sep: string): string {
    if parts == [] then "" else if |parts| == 1 then parts[0] else parts[0] + sep + JoinWith(parts[1..], sep)
  }

  /** `s * n`. */
  function Repeat(s: string, n: nat): (r: string)
    ensures |r| == n * |s|
  {
    if n == 0 then "" else s + Repeat(s, n - 1)
  }
}
