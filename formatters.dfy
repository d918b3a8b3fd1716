/**
 * Value formatters applied to user input before it replaces a placeholder: capital Chinese
 * numerals (大写), small Chinese numerals, date layouts and the whitelist `applyFormat` consults.
 * Numbers are the integers `Number(value)` yields (None for NaN); `new Date(value)` is an oracle.
 */
module Formatters {
  import opened Wrappers
  import opened Text

  // ---------------------------------------------------------------- capital numerals

  const CAPITAL: seq<char> := ['零', '壹', '贰', '叁', '肆', '伍', '陆', '柒', '捌', '玖']

  /** `units[i]`, with the text `undefined` that JavaScript concatenates past the table. */
  function UnitName(i: nat): string
  {
    if i < 4 then ["", "拾", "佰", "仟"][i] else "undefined"
  }

  /** `bigUnits[i]`, likewise: 万, 亿 and 兆 for the second to fourth group of four digits. */
  function BigUnitName(i: nat): string
  {
    if i < 4 then ["", "万", "亿", "兆"][i] else "undefined"
  }

  predicate IsBigUnit(c: char) { c == '万' || c == '亿' || c == '兆' }

  /** The inner loop over the digits of one group of four, lowest digit first: a non-zero digit
      puts digit and unit in front; a zero puts one `零` in front only after a non-zero digit and
      not right after another zero. */
  function Inner(n: nat, li: nat, hasZero: bool, s: string): string
    decreases n
  {
    if n == 0 then s
    else if n % 10 == 0 then Inner(n / 10, li + 1, true, if !hasZero && s != "" then "零" + s else s)
    else Inner(n / 10, li + 1, false, [CAPITAL[n % 10]] + UnitName(li) + s)
  }

  /** The outer loop over the groups of four digits, lowest group first: a non-zero group puts its
      numeral and big unit in front; a zero group adds nothing. */
  function Outer(n: nat, ui: nat, result: string): string
    decreases n
  {
    if n == 0 then result
    else
      var section := n % 10000;
      Outer(n / 10000, ui + 1, if section > 0 then Inner(section, 0, false, "") + BigUnitName(ui) + result else result)
  }

  /** `replace(/零+/g, '零')`. */
  function CollapseZeros(s: string): (r: string)
    ensures |s| > 0 ==> |r| > 0 && r[0] == s[0]
  {
    if |s| <= 1 then s
    else if s[0] == '零' && s[1] == '零' then CollapseZeros(s[1..])
    else [s[0]] + CollapseZeros(s[1..])
  }

  /** `replace(/零([万亿兆])/g, '$1')`, matching left to right without overlap. */
  function DropZeroBeforeBig(s: string): (r: string)
    ensures |s| > 0 ==> |r| > 0 && (r[0] == s[0] || (s[0] == '零' && IsBigUnit(r[0])))
  {
    if |s| == 0 then s
    else if |s| >= 2 && s[0] == '零' && IsBigUnit(s[1]) then [s[1]] + DropZeroBeforeBig(s[2..])
    else [s[0]] + DropZeroBeforeBig(s[1..])
  }

  /** `replace(/零+$/, '')`. */
  function DropTrailingZeros(s: string): (r: string)
    ensures |r| <= |s| && s[..|r|] == r
    ensures forall k :: |r| <= k < |s| ==> s[k] == '零'
    ensures r == [] || r[|r| - 1] != '零'
  {
    if s != [] && s[|s| - 1] == '零' then DropTrailingZeros(s[..|s| - 1]) else s
  }

  /** `replace(/^壹拾/, '拾')`: 10 to 19 read 拾… rather than 壹拾…. */
  function DropLeadingOne(s: string): string
  {
    if |s| >= 2 && s[0] == '壹' && s[1] == '拾' then "拾" + s[2..] else s
  }

  function Cleanup(s: string): string
  {
    DropLeadingOne(DropTrailingZeros(DropZeroBeforeBig(CollapseZeros(s))))
  }

  /** `numberToChinese` on an integer: `零` for 0, `负` before the numeral of `-num` for a negative
      number, else the groups of four read with their units and cleaned up (`'零'` when the
      cleanup leaves nothing). */
  function NumberToChinese(num: int): string
    decreases if num < 0 then 1 else 0
  {
    if num == 0 then "零"
    else if num < 0 then "负" + NumberToChinese(-num)
    else
      var r := Cleanup(Outer(num, 0, ""));
      if r == "" then "零" else r
  }

  /** The loops of `numberToChinese`, as written. */
  method NumberToChineseLoop(num: int) returns (r: string)
    ensures r == NumberToChinese(num)
    decreases if num < 0 then 1 else 0
  {
    if num == 0 {
      return "零";
    }
    if num < 0 {
      var t := NumberToChineseLoop(-num);
      return "负" + t;
    }
    var result := "";
    var unitIndex: nat := 0;
    var n: nat := num;
    while n > 0
      invariant Outer(n, unitIndex, result) == Outer(num, 0, "")
      decreases n
    {
      var section := n % 10000;
      if section > 0 {
        var sectionStr := SectionLoop(section);
        result := sectionStr + BigUnitName(unitIndex) + result;
      }
      n := n / 10000;
      unitIndex := unitIndex + 1;
    }
    result := Cleanup(result);
    r := if result == "" then "零" else result;
  }

  /** The inner loop of `numberToChinese`, over the digits of one group of four. */
  method SectionLoop(section: nat) returns (sectionStr: string)
    ensures sectionStr == Inner(section, 0, false, "")
  {
    sectionStr := "";
    var sectionNum: nat := section;
    var localUnitIndex: nat := 0;
    var hasZero := false;
    while sectionNum > 0
      invariant Inner(sectionNum, localUnitIndex, hasZero, sectionStr) == Inner(section, 0, false, "")
      decreases sectionNum
    {
      var digit := sectionNum % 10;
      if digit == 0 {
        if !hasZero && sectionStr != "" {
          sectionStr := [CAPITAL[0]] + sectionStr;
        }
        hasZero := true;
      } else {
        sectionStr := [CAPITAL[digit]] + UnitName(localUnitIndex) + sectionStr;
        hasZero := false;
      }
      sectionNum := sectionNum / 10;
      localUnitIndex := localUnitIndex + 1;
    }
  }

  /** The number of characters other than `零`. */
  function Significant(s: string): nat
  {
    if s == [] then 0 else (if s[0] != '零' then 1 else 0) + Significant(s[1..])
  }

  predicate NoDoubleZero(s: string)
  {
    forall i :: 0 <= i < |s| - 1 ==> !(s[i] == '零' && s[i + 1] == '零')
  }

  lemma {:induction false} SignificantAppend(a: string, b: string)
    ensures Significant(a + b) == Significant(a) + Significant(b)
  {
    if a == [] {
      assert a + b == b;
    } else {
      assert (a + b)[0] == a[0] && (a + b)[1..] == a[1..] + b;
      SignificantAppend(a[1..], b);
    }
  }

  /** A group with a non-zero digit contributes a non-zero digit. */
  lemma {:induction false} InnerSignificant(n: nat, li: nat, hasZero: bool, s: string)
    ensures Significant(Inner(n, li, hasZero, s)) >= Significant(s) + (if n > 0 then 1 else 0)
    decreases n
  {
    if n == 0 {
    } else if n % 10 == 0 {
      var s' := if !hasZero && s != "" then "零" + s else s;
      SignificantAppend("零", s);
      InnerSignificant(n / 10, li + 1, true, s');
    } else {
      var d := [CAPITAL[n % 10]];
      SignificantAppend(d + UnitName(li), s);
      SignificantAppend(d, UnitName(li));
      InnerSignificant(n / 10, li + 1, false, d + UnitName(li) + s);
    }
  }

  lemma {:induction false} OuterSignificant(n: nat, ui: nat, result: string)
    ensures Significant(Outer(n, ui, result)) >= Significant(result) + (if n > 0 then 1 else 0)
    decreases n
  {
    if n > 0 {
      var section := n % 10000;
      if section > 0 {
        var g := Inner(section, 0, false, "");
        InnerSignificant(section, 0, false, "");
        SignificantAppend(g + BigUnitName(ui), result);
        SignificantAppend(g, BigUnitName(ui));
        OuterSignificant(n / 10000, ui + 1, g + BigUnitName(ui) + result);
      } else {
        OuterSignificant(n / 10000, ui + 1, result);
      }
    }
  }

  /** Collapsing runs of `零` leaves no two in a row and keeps every other character. */
  lemma {:induction false} CollapseShape(s: string)
    ensures NoDoubleZero(CollapseZeros(s))
    ensures Significant(CollapseZeros(s)) == Significant(s)
  {
    if |s| > 1 {
      CollapseShape(s[1..]);
      if !(s[0] == '零' && s[1] == '零') {
        var t := CollapseZeros(s[1..]);
        assert ([s[0]] + t)[1..] == t;
        forall i | 0 <= i < |[s[0]] + t| - 1
          ensures !(([s[0]] + t)[i] == '零' && ([s[0]] + t)[i + 1] == '零')
        {
          if i > 0 {
            assert ([s[0]] + t)[i] == t[i - 1];
          }
        }
      }
    }
  }

  /** Dropping a `零` before a big unit keeps the other characters and creates no `零零`. */
  lemma {:induction false} DropZeroShape(s: string)
    requires NoDoubleZero(s)
    ensures NoDoubleZero(DropZeroBeforeBig(s))
    ensures Significant(DropZeroBeforeBig(s)) == Significant(s)
  {
    if |s| == 0 {
    } else if |s| >= 2 && s[0] == '零' && IsBigUnit(s[1]) {
      var t := DropZeroBeforeBig(s[2..]);
      assert NoDoubleZero(s[2..]) by {
        forall i | 0 <= i < |s[2..]| - 1
          ensures !(s[2..][i] == '零' && s[2..][i + 1] == '零')
        {
          assert s[2..][i] == s[i + 2] && s[2..][i + 1] == s[i + 3];
        }
      }
      DropZeroShape(s[2..]);
      assert s == [s[0]] + ([s[1]] + s[2..]);
      assert ([s[1]] + t)[1..] == t;
      forall i | 0 <= i < |[s[1]] + t| - 1
        ensures !(([s[1]] + t)[i] == '零' && ([s[1]] + t)[i + 1] == '零')
      {
        if i > 0 {
          assert ([s[1]] + t)[i] == t[i - 1];
        }
      }
    } else {
      var t := DropZeroBeforeBig(s[1..]);
      assert NoDoubleZero(s[1..]) by {
        forall i | 0 <= i < |s[1..]| - 1
          ensures !(s[1..][i] == '零' && s[1..][i + 1] == '零')
        {
          assert s[1..][i] == s[i + 1] && s[1..][i + 1] == s[i + 2];
        }
      }
      DropZeroShape(s[1..]);
      assert ([s[0]] + t)[1..] == t;
      forall i | 0 <= i < |[s[0]] + t| - 1
        ensures !(([s[0]] + t)[i] == '零' && ([s[0]] + t)[i + 1] == '零')
      {
        if i > 0 {
          assert ([s[0]] + t)[i] == t[i - 1];
        } else if s[0] == '零' {
          assert s[1] != '零';
        }
      }
    }
  }

  /** Dropping trailing `零`s keeps every other character. */
  lemma {:induction false} DropTrailingSignificant(s: string)
    ensures Significant(DropTrailingZeros(s)) == Significant(s)
    decreases |s|
  {
    if s != [] && s[|s| - 1] == '零' {
      assert s == s[..|s| - 1] + [s[|s| - 1]];
      SignificantAppend(s[..|s| - 1], [s[|s| - 1]]);
      DropTrailingSignificant(s[..|s| - 1]);
    }
  }

  /** The cleanup of a text with some digit in it is not empty, has no `零零` and no trailing `零`. */
  lemma CleanupShape(raw: string)
    requires Significant(raw) > 0
    ensures var r := Cleanup(raw);
            r != "" && NoDoubleZero(r) && r[|r| - 1] != '零'
  {
    CollapseShape(raw);
    var c := CollapseZeros(raw);
    DropZeroShape(c);
    var d := DropZeroBeforeBig(c);
    DropTrailingSignificant(d);
    var t := DropTrailingZeros(d);
    assert t != [];
    assert NoDoubleZero(t) by {
      forall i | 0 <= i < |t| - 1
        ensures !(t[i] == '零' && t[i + 1] == '零')
      {
        assert t[i] == d[i] && t[i + 1] == d[i + 1];
      }
    }
    LeadingOneShape(t);
  }

  lemma LeadingOneShape(t: string)
    requires t != [] && NoDoubleZero(t) && t[|t| - 1] != '零'
    ensures var r := DropLeadingOne(t);
            r != "" && NoDoubleZero(r) && r[|r| - 1] != '零'
  {
    var r := DropLeadingOne(t);
    if |t| >= 2 && t[0] == '壹' && t[1] == '拾' {
      assert r == "拾" + t[2..];
      assert r[|r| - 1] == t[|t| - 1];
      forall i | 0 <= i < |r| - 1
        ensures !(r[i] == '零' && r[i + 1] == '零')
      {
        if i > 0 {
          assert r[i] == t[i + 1] && r[i + 1] == t[i + 2];
        }
      }
    }
  }

  /** For a positive number the numeral is not empty, never has two `零` in a row and never ends
      with `零`. */
  lemma PositiveNumeralShape(n: int)
    requires n > 0
    ensures var r := NumberToChinese(n);
            r != "" && NoDoubleZero(r) && r[|r| - 1] != '零'
  {
    OuterSignificant(n, 0, "");
    CleanupShape(Outer(n, 0, ""));
  }

  /** A text without `零` and without 壹拾 in front comes through the cleanup unchanged. */
  lemma {:induction false} CleanupKeeps(s: string)
    requires forall i :: 0 <= i < |s| ==> s[i] != '零'
    ensures CollapseZeros(s) == s && DropZeroBeforeBig(s) == s && DropTrailingZeros(s) == s
  {
    if |s| > 1 {
      CleanupKeeps(s[1..]);
      assert s == [s[0]] + s[1..];
    } else if |s| == 1 {
      assert DropZeroBeforeBig(s) == [s[0]] + DropZeroBeforeBig([]);
    }
  }

  lemma SingleDigitRaw(n: nat)
    requires 1 <= n <= 9
    ensures Outer(n, 0, "") == [CAPITAL[n]]
  {
    assert n % 10 == n && n / 10 == 0 && n % 10000 == n && n / 10000 == 0;
    assert Inner(n, 0, false, "") == Inner(0, 1, false, [CAPITAL[n]] + "" + "");
  }

  /** One to nine are a single capital digit. */
  lemma SingleDigits(n: int)
    requires 1 <= n <= 9
    ensures NumberToChinese(n) == [CAPITAL[n]]
  {
    SingleDigitRaw(n);
    var c := CAPITAL[n];
    assert c != '零';
    CleanupKeeps([c]);
  }

  /** Ten to nineteen read 拾, then the ones digit unless it is zero. */
  lemma Teens(n: int)
    requires 10 <= n <= 19
    ensures NumberToChinese(n) == if n == 10 then "拾" else "拾" + [CAPITAL[n - 10]]
  {
    var d := n - 10;
    var raw := "壹拾" + (if d == 0 then "" else [CAPITAL[d]]);
    TeensRaw(n);
    CleanupKeeps(raw);
    assert raw[0] == '壹' && raw[1] == '拾' && raw[2..] == (if d == 0 then "" else [CAPITAL[d]]);
    assert Cleanup(raw) == "拾" + raw[2..];
  }

  /** The loops read ten to nineteen as 壹拾 and the ones digit unless it is zero. */
  lemma TeensRaw(n: int)
    requires 10 <= n <= 19
    ensures Outer(n, 0, "") == "壹拾" + (if n == 10 then "" else [CAPITAL[n - 10]])
  {
    var d := n - 10;
    var raw := "壹拾" + (if d == 0 then "" else [CAPITAL[d]]);
    assert n / 10 == 1 && n % 10 == d && n % 10000 == n && n / 10000 == 0;
    if d == 0 {
      assert Inner(n, 0, false, "") == Inner(1, 1, true, "");
    } else {
      assert Inner(n, 0, false, "") == Inner(1, 1, false, [CAPITAL[d]]);
    }
    assert Inner(n, 0, false, "") == raw;
    assert Outer(n, 0, "") == Outer(0, 1, raw);
  }

  // ---------------------------------------------------------------- small numerals

  const SMALL: seq<char> := ['零', '一', '二', '三', '四', '五', '六', '七', '八', '九', '十']

  /** `digits[i]`: the small numeral, or `undefined` off the table. */
  function SmallDigit(i: int): string
  {
    if 0 <= i <= 10 then [SMALL[i]] else "undefined"
  }

  /** JavaScript's `%` on a positive divisor: the remainder takes the sign of the dividend. */
  function JsRem(a: int, b: int): int
    requires b > 0
  {
    if a >= 0 then a % b else -((-a) % b)
  }

  /** `toChineseNumber`: the table for 0 to 10, 十 and the ones digit below 20, tens digit, 十 and
      ones digit below 100, the capital numeral from 100 on. */
  function ToChineseNumber(num: int): string
  {
    if 0 <= num <= 10 then [SMALL[num]]
    else if num < 20 then "十" + (if JsRem(num, 10) == 0 then "" else SmallDigit(JsRem(num, 10)))
    else if num < 100 then SmallDigit(num / 10) + "十" + (if num % 10 == 0 then "" else SmallDigit(num % 10))
    else NumberToChinese(num)
  }

  /** The value of a small digit character 零…九. */
  function SmallValue(c: char): Option<nat>
  {
    if c == '零' then Some(0) else if c == '一' then Some(1) else if c == '二' then Some(2)
    else if c == '三' then Some(3) else if c == '四' then Some(4) else if c == '五' then Some(5)
    else if c == '六' then Some(6) else if c == '七' then Some(7) else if c == '八' then Some(8)
    else if c == '九' then Some(9) else None
  }

  /** Reading a small numeral below 100: 十 alone, a digit, 十 and a digit, a digit and 十, or a
      digit, 十 and a digit. */
  function ReadSmall(s: string): Option<nat>
  {
    if |s| == 1 then (if s[0] == '十' then Some(10) else SmallValue(s[0]))
    else if |s| == 2 && s[0] == '十' && SmallValue(s[1]).Some? && SmallValue(s[1]).value > 0 then
      Some(10 + SmallValue(s[1]).value)
    else if |s| == 2 && s[1] == '十' && SmallValue(s[0]).Some? && SmallValue(s[0]).value > 1 then
      Some(10 * SmallValue(s[0]).value)
    else if |s| == 3 && s[1] == '十' && SmallValue(s[0]).Some? && SmallValue(s[0]).value > 1
            && SmallValue(s[2]).Some? && SmallValue(s[2]).value > 0 then
      Some(10 * SmallValue(s[0]).value + SmallValue(s[2]).value)
    else None
  }

  lemma SmallDigitValues()
    ensures forall k :: 0 <= k <= 9 ==> SmallValue(SMALL[k]) == Some(k)
  {
  }

  /** Below 100 the small numeral reads back as the number. */
  lemma SmallRoundTrip(n: int)
    requires 0 <= n < 100
    ensures ReadSmall(ToChineseNumber(n)) == Some(n)
  {
    SmallDigitValues();
    if n > 10 {
      assert n / 10 <= 9 && n % 10 <= 9;
      if n < 20 {
        assert JsRem(n, 10) == n % 10 && n / 10 == 1;
      }
      assert n == 10 * (n / 10) + n % 10;
    }
  }

  /** A negative number falls into the below-20 branch, whose remainder is negative: the result
      is 十 for a multiple of ten and 十undefined otherwise. */
  lemma NegativeSmall(n: int)
    requires n < 0
    ensures ToChineseNumber(n) == if n % 10 == 0 then "十" else "十undefined"
  {
    assert JsRem(n, 10) == 0 <==> n % 10 == 0;
  }

  // ---------------------------------------------------------------- formatters and whitelist

  /** A calendar date as `new Date(value)` reads it. */
  datatype Date = Date(year: nat, month: nat, day: nat)

  /** `String(k).padStart(2, '0')`. */
  function Pad2(k: nat): (r: string)
    ensures |r| >= 2
  {
    var s := NatToString(k);
    if |s| < 2 then "0" + s else s
  }

  /** `formatDate(value, 'YYYY年MM月DD日')`: `''` when the date is invalid. */
  function FormatDateUnderline(date: Option<Date>): string
  {
    if date.None? then "" else NatToString(date.value.year) + "年" + Pad2(date.value.month) + "月" + Pad2(date.value.day) + "日"
  }

  /** `formatDate(value, 'YYYY年MM月')`. */
  function FormatDateYearMonth(date: Option<Date>): string
  {
    if date.None? then "" else NatToString(date.value.year) + "年" + Pad2(date.value.month) + "月"
  }

  /** The three capital-numeral formatters: the value unchanged when it is not a number, else
      `cn（num）`, `cn（num）万元` or `人民币num元（大写：cn元整）`. */
  function FormatChineseNumber(value: string, num: Option<int>): (r: string)
    ensures num.None? ==> r == value
    ensures num.Some? ==> StartsWith(r, NumberToChinese(num.value)) && EndsWith(r, "（" + IntToString(num.value) + "）")
  {
    if num.None? then value
    else
      var head := NumberToChinese(num.value);
      var tail := "（" + IntToString(num.value) + "）";
      assert (head + tail)[..|head|] == head;
      assert (head + tail)[|head + tail| - |tail|..] == tail;
      head + tail
  }

  function FormatChineseNumberWan(value: string, num: Option<int>): (r: string)
    ensures num.None? ==> r == value
    ensures num.Some? ==> r == FormatChineseNumber(value, num) + "万元"
  {
    if num.None? then value else NumberToChinese(num.value) + "（" + IntToString(num.value) + "）万元"
  }

  function FormatAmountWithChinese(value: string, num: Option<int>): (r: string)
    ensures num.None? ==> r == value
    ensures num.Some? ==> StartsWith(r, "人民币" + IntToString(num.value) + "元（大写：")
                          && EndsWith(r, NumberToChinese(num.value) + "元整）")
  {
    if num.None? then value
    else
      var head := "人民币" + IntToString(num.value) + "元（大写：";
      var tail := NumberToChinese(num.value) + "元整）";
      assert (head + tail)[..|head|] == head;
      assert (head + tail)[|head + tail| - |tail|..] == tail;
      head + tail
  }

  /** `第…条` and `百分之…` with the small numeral. */
  function FormatArticleNumber(value: string, num: Option<int>): (r: string)
    ensures num.None? ==> r == value
  {
    if num.None? then value else "第" + ToChineseNumber(num.value) + "条"
  }

  function FormatPercentageChinese(value: string, num: Option<int>): (r: string)
    ensures num.None? ==> r == value
  {
    if num.None? then value else "百分之" + ToChineseNumber(num.value)
  }

  /** Clause numbers and percentages below 100 read back from the formatted text. */
  lemma SmallFormatsRead(value: string, n: int)
    requires 0 <= n < 100
    ensures var a := FormatArticleNumber(value, Some(n));
            |a| >= 2 && a[..1] == "第" && a[|a| - 1..] == "条" && ReadSmall(a[1..|a| - 1]) == Some(n)
    ensures var p := FormatPercentageChinese(value, Some(n));
            |p| >= 3 && p[..3] == "百分之" && ReadSmall(p[3..]) == Some(n)
  {
    SmallRoundTrip(n);
    var s := ToChineseNumber(n);
    assert ("第" + s + "条")[1..|s| + 1] == s;
    assert ("百分之" + s)[3..] == s;
  }

  const FORMAT_KEYS: seq<string> := ["none", "dateUnderline", "dateYearMonth", "chineseNumber",
                                     "chineseNumberWan", "amountWithChinese", "articleNumber",
                                     "percentageChinese"]

  /** The members every plain object inherits from `Object.prototype`. */
  const OBJECT_PROTOTYPE_MEMBERS: seq<string> := ["constructor", "hasOwnProperty", "isPrototypeOf",
                                                  "propertyIsEnumerable", "toLocaleString", "toString",
                                                  "valueOf", "__proto__", "__defineGetter__",
                                                  "__defineSetter__", "__lookupGetter__", "__lookupSetter__"]

  /** `formatFn in FORMAT_FUNCTIONS` as written: the `in` operator also finds inherited members. */
  predicate IsValidFormatFnAsWritten(formatFn: string)
  {
    formatFn in FORMAT_KEYS || formatFn in OBJECT_PROTOTYPE_MEMBERS
  }

  /** The whitelist as intended: exactly the eight formatter names. */
  predicate IsValidFormatFn(formatFn: string)
  {
    formatFn in FORMAT_KEYS
  }

  /** `toString` passes the whitelist as written but is no formatter; `applyFormat` would call
      `Object.prototype.toString` on the table. */
  lemma InheritedNamePasses()
    ensures IsValidFormatFnAsWritten("toString") && !IsValidFormatFn("toString")
  {
    assert OBJECT_PROTOTYPE_MEMBERS[5] == "toString";
  }

  /** The intended whitelist holds for exactly the eight names, and the written one for them and
      nothing else but inherited members. */
  lemma WhitelistExact(formatFn: string)
    ensures IsValidFormatFn(formatFn) <==> formatFn in FORMAT_KEYS
    ensures IsValidFormatFnAsWritten(formatFn) <==> IsValidFormatFn(formatFn) || formatFn in OBJECT_PROTOTYPE_MEMBERS
    ensures |FORMAT_KEYS| == 8
  {
  }

  /** `applyFormat(value, formatFn)`: the value unchanged for a name outside the whitelist, else the
      named formatter. `num` is `Number(value)` and `date` is `new Date(value)`. */
  function ApplyFormat(value: string, formatFn: string, num: Option<int>, date: Option<Date>): (r: string)
    ensures !IsValidFormatFn(formatFn) ==> r == value
    ensures formatFn == "none" ==> r == value
  {
    if !IsValidFormatFn(formatFn) then value
    else if formatFn == "none" then value
    else if formatFn == "dateUnderline" then FormatDateUnderline(date)
    else if formatFn == "dateYearMonth" then FormatDateYearMonth(date)
    else if formatFn == "chineseNumber" then FormatChineseNumber(value, num)
    else if formatFn == "chineseNumberWan" then FormatChineseNumberWan(value, num)
    else if formatFn == "amountWithChinese" then FormatAmountWithChinese(value, num)
    else if formatFn == "articleNumber" then FormatArticleNumber(value, num)
    else FormatPercentageChinese(value, num)
  }

  /** Every numeric formatter leaves a value that is not a number as it is. */
  lemma NotANumberUnchanged(value: string, formatFn: string, date: Option<Date>)
    requires formatFn != "dateUnderline" && formatFn != "dateYearMonth"
    ensures ApplyFormat(value, formatFn, None, date) == value
  {
  }
}
