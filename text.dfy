/** String helpers standing in for the JavaScript string methods the sources use. */
module Text {
  import opened Wrappers

  /** The characters `String.prototype.trim` removes. */
  predicate IsSpace(c: char)
  {
    c == ' ' || c == '\t' || c == '\n' || c == '\r' || c == '\U{000B}' || c == '\U{000C}'
    || c == '\U{00A0}' || c == '\U{1680}' || ('\U{2000}' <= c <= '\U{200A}')
    || c == '\U{2028}' || c == '\U{2029}' || c == '\U{202F}' || c == '\U{205F}'
    || c == '\U{3000}' || c == '\U{FEFF}'
  }

  /** The line terminators at which a multiline `^` or `$` matches. */
  predicate IsLineTerminator(c: char) { c == '\n' || c == '\r' || c == '\U{2028}' || c == '\U{2029}' }

  predicate IsAsciiLetter(c: char) { ('a' <= c <= 'z') || ('A' <= c <= 'Z') }
  predicate IsDigit(c: char) { '0' <= c <= '9' }
  /** The regex class `\w`. */
  predicate IsWordChar(c: char) { IsAsciiLetter(c) || IsDigit(c) || c == '_' }

  function LowerChar(c: char): (r: char)
    ensures 'A' <= c <= 'Z' ==> 'a' <= r <= 'z'
    ensures !('A' <= c <= 'Z') ==> r == c
  {
    if 'A' <= c <= 'Z' then (c as int + 32) as char else c
  }

  function UpperChar(c: char): (r: char)
    ensures 'a' <= c <= 'z' ==> 'A' <= r <= 'Z'
    ensures !('a' <= c <= 'z') ==> r == c
  {
    if 'a' <= c <= 'z' then (c as int - 32) as char else c
  }

  /** ASCII case folding, the part of `toLowerCase` the sources rely on. */
  function Lower(s: string): (r: string)
    ensures |r| == |s|
    ensures forall i :: 0 <= i < |s| ==> r[i] == LowerChar(s[i])
  {
    if s == [] then [] else [LowerChar(s[0])] + Lower(s[1..])
  }

  predicate StartsWith(s: string, p: string) { |p| <= |s| && s[..|p|] == p }
  predicate EndsWith(s: string, p: string) { |p| <= |s| && s[|s| - |p|..] == p }

  predicate OccursAt(s: string, t: string, i: nat) { i + |t| <= |s| && s[i..i + |t|] == t }

  /** `s.indexOf(t, from)`: the first position at or after `from` where `t` occurs. */
  function IndexOfFrom(s: string, t: string, from: nat): (r: Option<nat>)
    decreases |s| - from
    ensures r.Some? ==> from <= r.value && OccursAt(s, t, r.value)
    ensures r.Some? ==> forall k :: from <= k < r.value ==> !OccursAt(s, t, k)
    ensures r.None? ==> forall k :: from <= k ==> !OccursAt(s, t, k)
  {
    if from + |t| > |s| then None
    else if s[from..from + |t|] == t then Some(from)
    else IndexOfFrom(s, t, from + 1)
  }

  function IndexOf(s: string, t: string): (r: Option<nat>)
    ensures r.Some? ==> OccursAt(s, t, r.value)
    ensures r.None? ==> forall k :: !OccursAt(s, t, k)
  {
    IndexOfFrom(s, t, 0)
  }

  predicate Contains(s: string, t: string) { IndexOf(s, t).Some? }

  /** Case-insensitive (ASCII) substring test, the `/…/i` regex alternative. */
  predicate ContainsCI(s: string, t: string) { Contains(Lower(s), Lower(t)) }

  function TrimStart(s: string): (r: string)
    ensures |r| <= |s| && r == s[|s| - |r|..]
    ensures r == [] || !IsSpace(r[0])
  {
    if s != [] && IsSpace(s[0]) then TrimStart(s[1..]) else s
  }

  function TrimEnd(s: string): (r: string)
    ensures |r| <= |s| && r == s[..|r|]
    ensures r == [] || !IsSpace(r[|r| - 1])
  {
    if s != [] && IsSpace(s[|s| - 1]) then TrimEnd(s[..|s| - 1]) else s
  }

  /** `String.prototype.trim`. */
  function Trim(s: string): (r: string)
    ensures |r| <= |s|
    ensures r == [] || (!IsSpace(r[0]) && !IsSpace(r[|r| - 1]))
  {
    TrimEnd(TrimStart(s))
  }

  function Join(parts: seq<string>, sep: string): string
  {
    if parts == [] then ""
    else if |parts| == 1 then parts[0]
    else parts[0] + sep + Join(parts[1..], sep)
  }

  function DigitChar(d: nat): char
    requires d < 10
  {
    ['0','1','2','3','4','5','6','7','8','9'][d]
  }

  /** The decimal rendering `String(n)` of a natural number. */
  function NatToString(n: nat): (r: string)
    ensures |r| > 0
    ensures forall i :: 0 <= i < |r| ==> IsDigit(r[i])
  {
    if n < 10 then [DigitChar(n)] else NatToString(n / 10) + [DigitChar(n % 10)]
  }

  /** The digit character of `d` is the `d`-th character after `'0'`. */
  lemma DigitCharValue(d: nat)
    requires d < 10
    ensures DigitChar(d) as int == '0' as int + d
  {
  }

  /** Different numbers have different decimal renderings. */
  lemma {:induction false} NatToStringInjective(a: nat, b: nat)
    requires NatToString(a) == NatToString(b)
    ensures a == b
  {
    if a < 10 && b < 10 {
      DigitCharValue(a);
      DigitCharValue(b);
    } else if a < 10 || b < 10 {
      assert false;
    } else {
      var sa := NatToString(a);
      var sb := NatToString(b);
      assert sa[|sa| - 1] == DigitChar(a % 10) && sb[|sb| - 1] == DigitChar(b % 10);
      DigitCharValue(a % 10);
      DigitCharValue(b % 10);
      assert sa[..|sa| - 1] == NatToString(a / 10) && sb[..|sb| - 1] == NatToString(b / 10);
      NatToStringInjective(a / 10, b / 10);
    }
  }

  /** `String(n)` of an integer: a minus sign before the digits of a negative number. */
  function IntToString(n: int): string
  {
    if n < 0 then "-" + NatToString(-n) else NatToString(n)
  }

  // ---------------------------------------------------------------- Number(s)

  predicate AllDigits(s: string) { forall i :: 0 <= i < |s| ==> IsDigit(s[i]) }

  /** The value of a run of decimal digits. */
  function DigitsValue(s: string): nat
    requires AllDigits(s)
  {
    if s == [] then 0 else DigitsValue(s[..|s| - 1]) * 10 + (s[|s| - 1] as int - '0' as int)
  }

  /** The value of the digits after a decimal point. */
  function FractionValue(s: string): real
    requires AllDigits(s)
  {
    if s == [] then 0.0 else ((s[0] as int - '0' as int) as real + FractionValue(s[1..])) / 10.0
  }

  /** The length of the run of digits that `s` starts with. */
  function DigitRun(s: string): (n: nat)
    ensures n <= |s| && AllDigits(s[..n]) && (n < |s| ==> !IsDigit(s[n]))
  {
    if s != [] && IsDigit(s[0]) then
      var m := DigitRun(s[1..]);
      assert forall i :: 1 <= i < 1 + m ==> s[i] == s[1..][..m][i - 1];
      1 + m
    else 0
  }

  /** An unsigned decimal literal without exponent (`12`, `12.`, `12.5`, `.5`) and its value. */
  function UnsignedDecimal(s: string): Option<real>
  {
    var n := DigitRun(s);
    var whole := DigitsValue(s[..n]) as real;
    if n == |s| then (if n > 0 then Some(whole) else None)
    else if s[n] == '.' && AllDigits(s[n + 1..]) && (n > 0 || n + 1 < |s|) then Some(whole + FractionValue(s[n + 1..]))
    else None
  }

  /**
   * `Number(s)` of a string: white space around it is ignored, a blank string is 0, and an
   * optionally signed decimal literal is its value; anything else is NaN (`None`).
   */
  function StringToNumber(s: string): Option<real>
  {
    SignedDecimal(Trim(s))
  }

  /** A trimmed numeric string: empty is 0, and a decimal literal may carry a sign. */
  function SignedDecimal(t: string): Option<real>
  {
    if t == "" then Some(0.0)
    else if t[0] == '-' then (match UnsignedDecimal(t[1..]) case Some(x) => Some(-x) case None => None)
    else if t[0] == '+' then UnsignedDecimal(t[1..])
    else UnsignedDecimal(t)
  }

  /** A text with no white space at either end trims to itself. */
  lemma TrimmedAlready(s: string)
    requires s == [] || (!IsSpace(s[0]) && !IsSpace(s[|s| - 1]))
    ensures Trim(s) == s
  {
  }

  /** The digit run of an all-digit text is the whole text. */
  lemma {:induction false} DigitRunAll(s: string)
    requires AllDigits(s)
    ensures DigitRun(s) == |s|
  {
    if s != [] {
      DigitRunAll(s[1..]);
    }
  }

  /** The digits of `String(n)` read back as `n`. */
  lemma {:induction false} DigitsOfNat(n: nat)
    ensures DigitsValue(NatToString(n)) == n
  {
    var s := NatToString(n);
    if n < 10 {
      DigitCharValue(n);
    } else {
      DigitsOfNat(n / 10);
      DigitCharValue(n % 10);
      assert s[..|s| - 1] == NatToString(n / 10);
    }
  }

  /** The digits of `String(n)` form a decimal literal of value `n`. */
  lemma NatDecimal(n: nat)
    ensures UnsignedDecimal(NatToString(n)) == Some(n as real)
  {
    var d := NatToString(n);
    DigitRunAll(d);
    DigitsOfNat(n);
    assert d[..|d|] == d;
  }

  /** A minus sign before a decimal literal negates its value. */
  lemma NegatedRead(s: string, d: string, v: real)
    requires s == "-" + d && d != [] && IsDigit(d[|d| - 1]) && UnsignedDecimal(d) == Some(v)
    ensures StringToNumber(s) == Some(-v)
  {
    assert s[1..] == d && s[|s| - 1] == d[|d| - 1];
    TrimmedNumber(s);
  }

  /** `Number(String(n))` is `n` for every integer: the decimal rendering round-trips. */
  lemma IntRoundTrip(n: int)
    ensures StringToNumber(IntToString(n)) == Some(n as real)
  {
    if n < 0 {
      NegativeIntRead(n);
    } else {
      NatIntRead(n);
    }
  }

  lemma NegativeIntRead(n: int)
    requires n < 0
    ensures StringToNumber(IntToString(n)) == Some(n as real)
  {
    NegativeText(n);
    MinusDigitsRead(n);
  }

  lemma NegativeText(n: int)
    requires n < 0
    ensures IntToString(n) == "-" + NatToString(-n)
  {
  }

  lemma MinusDigitsRead(n: int)
    requires n < 0
    ensures StringToNumber("-" + NatToString(-n)) == Some(n as real)
  {
    NatDecimal(-n);
    var v := (-n) as real;
    assert -v == n as real;
    MinusDecimalRead(NatToString(-n), v);
  }

  /** A minus sign before digits that read as `v` reads as `-v`. */
  lemma MinusDecimalRead(d: string, v: real)
    requires d != [] && AllDigits(d) && UnsignedDecimal(d) == Some(v)
    ensures StringToNumber("-" + d) == Some(-v)
  {
    assert IsDigit(d[|d| - 1]);
    NegatedRead("-" + d, d, v);
  }

  lemma NatIntRead(n: int)
    requires n >= 0
    ensures StringToNumber(IntToString(n)) == Some(n as real)
  {
    NatRead(n);
    assert IntToString(n) == NatToString(n);
  }

  lemma NatRead(n: nat)
    ensures StringToNumber(NatToString(n)) == Some(n as real)
  {
    var d := NatToString(n);
    assert IsDigit(d[0]) && IsDigit(d[|d| - 1]);
    UnsignedRead(d);
    NatDecimal(n);
  }

  /** Digits, a point and digits read as the whole part plus the fraction. */
  lemma PointSplit(s: string, n: nat)
    requires DigitRun(s) == n < |s| && s[n] == '.' && AllDigits(s[n + 1..]) && n > 0
    ensures UnsignedDecimal(s) == Some(DigitsValue(s[..n]) as real + FractionValue(s[n + 1..]))
  {
  }

  /** `d.e` as an unsigned decimal literal. */
  lemma PointDigits(s: string)
    requires |s| == 3 && IsDigit(s[0]) && s[1] == '.' && IsDigit(s[2])
    ensures UnsignedDecimal(s) == Some((s[0] as int - '0' as int) as real + (s[2] as int - '0' as int) as real / 10.0)
  {
    assert s[1..][1..] == [s[2]];
    assert DigitRun(s[1..]) == 0;
    assert DigitRun(s) == 1 by { assert DigitRun(s) == 1 + DigitRun(s[1..]); }
    PointSplit(s, 1);
    assert DigitsValue(s[..1]) == s[0] as int - '0' as int by { assert s[..1][..0] == []; }
    assert FractionValue(s[2..]) == (s[2] as int - '0' as int) as real / 10.0 by { assert s[2..][1..] == []; }
  }

  /** A string without blanks at its ends converts as it stands. */
  lemma TrimmedNumber(s: string)
    requires s == [] || (!IsSpace(s[0]) && !IsSpace(s[|s| - 1]))
    ensures StringToNumber(s) == SignedDecimal(s)
  {
    TrimmedAlready(s);
  }

  /** An unsigned decimal literal with no blanks around it converts to its value. */
  lemma UnsignedRead(s: string)
    requires s != [] && IsDigit(s[0]) && !IsSpace(s[|s| - 1])
    ensures StringToNumber(s) == UnsignedDecimal(s)
  {
    assert !IsSpace(s[0]);
    TrimmedNumber(s);
    SignedDigit(s);
  }

  lemma SignedDigit(s: string)
    requires s != [] && IsDigit(s[0])
    ensures SignedDecimal(s) == UnsignedDecimal(s)
  {
  }

  lemma TenText()
    ensures IntToString(10) == "10"
  {
    assert NatToString(10) == NatToString(1) + "0";
  }

  /** `Number("10")` is 10. */
  lemma TenRead()
    ensures StringToNumber("10") == Some(10.0)
  {
    TenText();
    IntRoundTrip(10);
  }

  /** `Number("9")` is 9. */
  lemma NineRead()
    ensures StringToNumber("9") == Some(9.0)
  {
    IntRoundTrip(9);
  }

  /** A one-digit decimal fraction is read: `Number("1.5")` is 1.5. */
  lemma FractionRead(s: string)
    requires |s| == 3 && IsDigit(s[0]) && s[1] == '.' && IsDigit(s[2])
    ensures StringToNumber(s) == Some((s[0] as int - '0' as int) as real + (s[2] as int - '0' as int) as real / 10.0)
  {
    UnsignedRead(s);
    PointDigits(s);
  }

  /** A string that starts with a letter, after its blanks, is NaN. */
  lemma WordIsNaN(s: string)
    requires Trim(s) != "" && IsAsciiLetter(Trim(s)[0])
    ensures StringToNumber(s) == None
  {
  }

  /** `a < b` on two strings: the first difference decides, and a proper prefix is smaller. */
  predicate StringLess(s: string, t: string)
  {
    if s == [] then t != []
    else t != [] && (if s[0] == t[0] then StringLess(s[1..], t[1..]) else s[0] < t[0])
  }

  lemma {:induction false} StringLessIrreflexive(s: string)
    ensures !StringLess(s, s)
  {
    if s != [] {
      StringLessIrreflexive(s[1..]);
    }
  }

  lemma {:induction false} StringLessTransitive(s: string, t: string, u: string)
    requires StringLess(s, t) && StringLess(t, u)
    ensures StringLess(s, u)
  {
    if s != [] && s[0] == t[0] && t[0] == u[0] {
      StringLessTransitive(s[1..], t[1..], u[1..]);
    }
  }

  function HexDigitUpper(d: nat): char
    requires d < 16
  {
    ['0','1','2','3','4','5','6','7','8','9','A','B','C','D','E','F'][d]
  }

  /** `n.toString(16).toUpperCase()`. */
  function NatToHexUpper(n: nat): (r: string)
    ensures |r| > 0
  {
    if n < 16 then [HexDigitUpper(n)] else NatToHexUpper(n / 16) + [HexDigitUpper(n % 16)]
  }

  /** Every character of `s` kept when `keep` holds, in order (a filter). */
  function Filter(s: string, keep: char -> bool): (r: string)
    ensures |r| <= |s|
    ensures forall i :: 0 <= i < |r| ==> keep(r[i])
  {
    if s == [] then [] else (if keep(s[0]) then [s[0]] else []) + Filter(s[1..], keep)
  }

  /** `s.replace(/c/g, with)` for a single character `c`. */
  function ReplaceChar(s: string, c: char, with: string): (r: string)
    ensures c !in with ==> c !in r
  {
    if s == [] then [] else (if s[0] == c then with else [s[0]]) + ReplaceChar(s[1..], c, with)
  }

  /** `s.split(sep)` for a single-character separator. */
  function Split(s: string, sep: char): (r: seq<string>)
    ensures |r| >= 1
    ensures forall i :: 0 <= i < |r| ==> sep !in r[i]
    decreases |s|
  {
    if sep !in s then [s]
    else
      var k := FirstIndexOfChar(s, sep);
      [s[..k]] + Split(s[k + 1..], sep)
  }

  function FirstIndexOfChar(s: string, c: char): (k: nat)
    requires c in s
    ensures k < |s| && s[k] == c && c !in s[..k]
  {
    if s[0] == c then 0 else 1 + FirstIndexOfChar(s[1..], c)
  }

  /** The length of the longest run of `IsSpace` characters starting at `i` (a greedy `\s*`). */
  function SpaceRun(s: string, i: nat): (r: nat)
    requires i <= |s|
    ensures i + r <= |s|
    ensures forall k :: i <= k < i + r ==> IsSpace(s[k])
    ensures i + r == |s| || !IsSpace(s[i + r])
    decreases |s| - i
  {
    if i == |s| || !IsSpace(s[i]) then 0 else 1 + SpaceRun(s, i + 1)
  }

  /** `s.lastIndexOf(c)`, as an option. */
  function LastIndexOfChar(s: string, c: char): (r: Option<nat>)
    ensures r.Some? ==> r.value < |s| && s[r.value] == c && forall k :: r.value < k < |s| ==> s[k] != c
    ensures r.None? ==> c !in s
  {
    if s == [] then None
    else if s[|s| - 1] == c then Some(|s| - 1)
    else LastIndexOfChar(s[..|s| - 1], c)
  }

  /** The length of the longest run of `IsWordChar` characters starting at `i` (a greedy `\w*`). */
  function WordRun(s: string, i: nat): (r: nat)
    requires i <= |s|
    ensures i + r <= |s|
    ensures forall k :: i <= k < i + r ==> IsWordChar(s[k])
    ensures i + r == |s| || !IsWordChar(s[i + r])
    decreases |s| - i
  {
    if i == |s| || !IsWordChar(s[i]) then 0 else 1 + WordRun(s, i + 1)
  }

  /** Some literal of `lits` occurs in `s`, ignoring ASCII case (a `/a|b|c/i` test). */
  predicate AnyCI(s: string, lits: seq<string>)
  {
    exists k :: 0 <= k < |lits| && ContainsCI(s, lits[k])
  }

  /** Some literal of `lits` occurs in `s` (a `/a|b|c/` test). */
  predicate Any(s: string, lits: seq<string>)
  {
    exists k :: 0 <= k < |lits| && Contains(s, lits[k])
  }

  /** `w` occurs in `s` ignoring ASCII case and is followed by a word boundary (`/w\b/i` for a `w` ending in a word character). */
  predicate ContainsWordCI(s: string, w: string)
  {
    exists i :: 0 <= i <= |s| && OccursAt(Lower(s), Lower(w), i) && (i + |w| == |s| || !IsWordChar(s[i + |w|]))
  }
}


