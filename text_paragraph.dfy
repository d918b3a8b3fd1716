/**
 * The text and paragraph skills: the colour packing they share with the table
 * skills, the merging of paragraph indices into ranges, the executor that calls
 * a skill once per range, and the host properties each skill writes.
 *
 * The host is not modelled: a skill's effect on one range is the list of
 * property writes (and method calls) it performs, in order.
 */
module TextParagraph {
  import opened Wrappers
  import opened Text
  import opened JsonValue
  import opened Seqs
  import SkillRegistry

  // ---------------------------------------------------------------- JavaScript numbers

  /** The value of a hexadecimal digit, either case. */
  function HexDigitValue(c: char): (r: Option<nat>)
    ensures r.Some? ==> r.value < 16
  {
    if '0' <= c <= '9' then Some(c as nat - '0' as nat)
    else if 'a' <= c <= 'f' then Some(c as nat - 'a' as nat + 10)
    else if 'A' <= c <= 'F' then Some(c as nat - 'A' as nat + 10)
    else None
  }

  /** How many hexadecimal digits `s` starts with. */
  function HexRun(s: string): (n: nat)
    ensures n <= |s|
    ensures forall i :: 0 <= i < n ==> HexDigitValue(s[i]).Some?
    ensures n < |s| ==> HexDigitValue(s[n]).None?
  {
    if s != [] && HexDigitValue(s[0]).Some? then 1 + HexRun(s[1..]) else 0
  }

  /** The number that a string of hexadecimal digits denotes. */
  function HexValue(digits: string): nat
    requires forall i :: 0 <= i < |digits| ==> HexDigitValue(digits[i]).Some?
  {
    if digits == [] then 0
    else 16 * HexValue(digits[..|digits| - 1]) + HexDigitValue(digits[|digits| - 1]).value
  }

  /** Drops a leading `0x` or `0X`, as `parseInt` does with radix 16. */
  function DropHexPrefix(s: string): string
  {
    if |s| >= 2 && s[0] == '0' && (s[1] == 'x' || s[1] == 'X') then s[2..] else s
  }

  /**
   * `parseInt(s, 16)`: leading white space is skipped, then one optional sign, then an optional
   * `0x`, then the longest run of hexadecimal digits; `None` is NaN (no digit at all).
   */
  function ParseIntHex(s: string): Option<int>
  {
    var t := TrimStart(s);
    var negative := t != [] && t[0] == '-';
    var unsigned := if t != [] && (t[0] == '-' || t[0] == '+') then t[1..] else t;
    var body := DropHexPrefix(unsigned);
    var n := HexRun(body);
    if n == 0 then None
    else
      var v: int := HexValue(body[..n]);
      Some(if negative then -v else v)
  }

  /** `parseInt(s, 16) || 0`: NaN and zero (also minus zero) both give 0. */
  function HexOrZero(s: string): int
  {
    match ParseIntHex(s)
    case None => 0
    case Some(v) => v
  }

  /** `s.substring(from, to)` for `0 <= from <= to`: both ends are clamped to the length. */
  function Substring(s: string, from: nat, to: nat): (r: string)
    requires from <= to
    ensures |r| <= to - from
  {
    var a := if from < |s| then from else |s|;
    var b := if to < |s| then to else |s|;
    s[a..b]
  }

  // ---------------------------------------------------------------- 32-bit bitwise operators

  const TWO_32: int := 0x1_0000_0000

  /** `ToUint32`: the value modulo 2^32. */
  function Uint32(x: int): (r: nat)
    ensures r < TWO_32
  {
    x % TWO_32
  }

  /** `ToInt32` of an unsigned 32-bit value: the top bit is the sign. */
  function Int32(u: nat): int
    requires u < TWO_32
  {
    if u < 0x8000_0000 then u else u - TWO_32
  }

  /** Bitwise or of two non-negative integers, bit by bit from the lowest. */
  function BitOr(a: nat, b: nat): (r: nat)
    decreases a + b
  {
    if a == 0 then b
    else if b == 0 then a
    else 2 * BitOr(a / 2, b / 2) + (if a % 2 == 1 || b % 2 == 1 then 1 else 0)
  }

  function Pow2(k: nat): (r: nat)
    ensures r >= 1
  {
    if k == 0 then 1 else 2 * Pow2(k - 1)
  }

  /** `x << k` on 32-bit values: the low 32 bits of `x * 2^k`. */
  function ShiftLeft(x: nat, k: nat): (r: nat)
    ensures r < TWO_32
  {
    (x * Pow2(k)) % TWO_32
  }

  /** `(b << 16) | (g << 8) | r`, the WPS colour word, as JavaScript evaluates it. */
  function PackBgr(r: int, g: int, b: int): int
  {
    var high := BitOr(ShiftLeft(Uint32(b), 16), ShiftLeft(Uint32(g), 8));
    Pow2Values();
    BitOrBound(ShiftLeft(Uint32(b), 16), ShiftLeft(Uint32(g), 8), 32);
    BitOrBound(high, Uint32(r), 32);
    Int32(BitOr(high, Uint32(r)))
  }

  lemma {:induction false} BitOrBound(a: nat, b: nat, k: nat)
    requires a < Pow2(k) && b < Pow2(k)
    ensures BitOr(a, b) < Pow2(k)
    decreases a + b
  {
    if a != 0 && b != 0 {
      assert k > 0;
      BitOrBound(a / 2, b / 2, k - 1);
    }
  }

  // ---------------------------------------------------------------- hexToWpsColor

  /** A colour argument: the parameter value, absent when the key is missing. */
  function HexToWpsColor(color: Option<Value>): real
  {
    match color
    case Some(Num(n)) => n
    case Some(Str(s)) => PackBgr(HexOrZero(Channel(s, 0)), HexOrZero(Channel(s, 2)), HexOrZero(Channel(s, 4))) as real
    case _ => 0.0
  }

  /** The string after one leading `#` is removed and a three-digit form is doubled. */
  function Expanded(s: string): (r: string)
  {
    var h := if s != [] && s[0] == '#' then s[1..] else s;
    if |h| == 3 then [h[0], h[0], h[1], h[1], h[2], h[2]] else h
  }

  /** The two characters of one colour channel, starting at `at`. */
  function Channel(s: string, at: nat): string
  {
    Substring(Expanded(s), at, at + 2)
  }

  // ---------------------------------------------------------------- colour lemmas

  /** Two hexadecimal digits parse to the byte they spell. */
  lemma HexPair(c1: char, c2: char)
    requires HexDigitValue(c1).Some? && HexDigitValue(c2).Some?
    ensures HexOrZero([c1, c2]) == 16 * HexDigitValue(c1).value + HexDigitValue(c2).value
  {
    var s := [c1, c2];
    assert !IsSpace(c1);
    assert TrimStart(s) == s;
    assert DropHexPrefix(s) == s;
    assert HexRun(s[1..][1..]) == 0;
    assert HexRun(s[1..]) == 1;
    assert HexRun(s) == 2;
    assert s[..2] == s;
    assert s[..1] == [c1];
    assert HexValue([c1]) == HexDigitValue(c1).value;
  }

  lemma {:induction false} BitOrZero(a: nat)
    ensures BitOr(a, 0) == a
  {
  }

  /** Or-ing a value below `2^k` into a multiple of `2^k` adds it. */
  lemma {:induction false} BitOrDisjoint(a: nat, c: nat, k: nat)
    requires c < Pow2(k)
    ensures BitOr(a * Pow2(k), c) == a * Pow2(k) + c
    decreases k
  {
    if k == 0 {
      assert c == 0;
    } else if a != 0 && c != 0 {
      var p := Pow2(k - 1);
      assert a * Pow2(k) == 2 * (a * p);
      assert (a * Pow2(k)) / 2 == a * p;
      assert (a * Pow2(k)) % 2 == 0;
      BitOrDisjoint(a, c / 2, k - 1);
    }
  }

  /** For bytes, the packed word is `b * 65536 + g * 256 + r`. */
  lemma PackBytes(r: int, g: int, b: int)
    requires 0 <= r < 256 && 0 <= g < 256 && 0 <= b < 256
    ensures PackBgr(r, g, b) == b * 65536 + g * 256 + r
  {
    var high := HighBytes(g, b);
    SmallUint32(r);
    var hg := b * 256 + g;
    assert high == hg * 256;
    OrLowByte(hg, r);
  }

  lemma SmallUint32(x: int)
    requires 0 <= x < TWO_32
    ensures Uint32(x) == x
  {
  }

  /** Or-ing a byte into a multiple of 256 adds it. */
  lemma OrLowByte(a: nat, c: nat)
    requires c < 256
    ensures BitOr(a * 256, c) == a * 256 + c
  {
    Pow2Values();
    BitOrDisjoint(a, c, 8);
  }

  /** `(b << 16) | (g << 8)` for bytes is `b * 65536 + g * 256`. */
  lemma HighBytes(g: int, b: int) returns (high: int)
    requires 0 <= g < 256 && 0 <= b < 256
    ensures high == BitOr(ShiftLeft(Uint32(b), 16), ShiftLeft(Uint32(g), 8))
    ensures high == b * 65536 + g * 256
  {
    ShiftByte(b, 16);
    ShiftByte(g, 8);
    Pow2Values();
    BitOrDisjoint(b, g * 256, 16);
    high := BitOr(ShiftLeft(Uint32(b), 16), ShiftLeft(Uint32(g), 8));
  }

  lemma Pow2Values()
    ensures Pow2(8) == 256 && Pow2(16) == 65536 && Pow2(32) == TWO_32
  {
    assert Pow2(4) == 16;
    assert Pow2(8) == 256 by { Pow2Add(4, 4); }
    assert Pow2(16) == 65536 by { Pow2Add(8, 8); }
    assert Pow2(32) == TWO_32 by { Pow2Add(16, 16); }
  }

  /** A byte shifted by 8 or 16 does not wrap. */
  lemma ShiftByte(x: int, k: nat)
    requires 0 <= x < 256 && (k == 8 || k == 16)
    ensures Uint32(x) == x && ShiftLeft(Uint32(x), k) == x * Pow2(k)
  {
    Pow2Values();
    assert x * Pow2(k) < TWO_32;
  }

  lemma {:induction false} Pow2Add(i: nat, j: nat)
    ensures Pow2(i + j) == Pow2(i) * Pow2(j)
    decreases i
  {
    if i > 0 {
      Pow2Add(i - 1, j);
    }
  }

  /** The byte in each channel of a packed word: red lowest, blue highest. */
  function Unpack(word: int): (int, int, int)
  {
    (word % 256, word / 256 % 256, word / 65536)
  }

  /** The six digits of `#rrggbb`, two per channel. */
  lemma Channels(s: string)
    requires |s| == 7 && s[0] == '#'
    ensures Channel(s, 0) == [s[1], s[2]] && Channel(s, 2) == [s[3], s[4]] && Channel(s, 4) == [s[5], s[6]]
  {
    assert Expanded(s) == s[1..];
  }

  /** `#rrggbb` packs the three bytes it spells, red lowest. */
  lemma ColorOfHex(s: string)
    requires |s| == 7 && s[0] == '#'
    requires forall i :: 1 <= i < 7 ==> HexDigitValue(s[i]).Some?
    ensures var r := 16 * HexDigitValue(s[1]).value + HexDigitValue(s[2]).value;
            var g := 16 * HexDigitValue(s[3]).value + HexDigitValue(s[4]).value;
            var b := 16 * HexDigitValue(s[5]).value + HexDigitValue(s[6]).value;
            HexToWpsColor(Some(Str(s))) == (b * 65536 + g * 256 + r) as real
  {
    var r := 16 * HexDigitValue(s[1]).value + HexDigitValue(s[2]).value;
    var g := 16 * HexDigitValue(s[3]).value + HexDigitValue(s[4]).value;
    var b := 16 * HexDigitValue(s[5]).value + HexDigitValue(s[6]).value;
    assert HexToWpsColor(Some(Str(s))) == PackBgr(r, g, b) as real by {
      Channels(s);
      assert HexOrZero(Channel(s, 0)) == r by { HexPair(s[1], s[2]); }
      assert HexOrZero(Channel(s, 2)) == g by { HexPair(s[3], s[4]); }
      assert HexOrZero(Channel(s, 4)) == b by { HexPair(s[5], s[6]); }
    }
    PackBytes(r, g, b);
  }

  /** The packed word gives its three bytes back. */
  lemma UnpackPack(r: int, g: int, b: int)
    requires 0 <= r < 256 && 0 <= g < 256 && 0 <= b < 256
    ensures Unpack(b * 65536 + g * 256 + r) == (r, g, b)
  {
    var w := b * 65536 + g * 256 + r;
    assert w == (b * 256 + g) * 256 + r;
    assert w % 256 == r && w / 256 == b * 256 + g;
    assert (b * 256 + g) % 256 == g && (b * 256 + g) / 256 == b;
    assert w / 65536 == w / 256 / 256;
  }

  /** A three-digit colour is the six-digit colour with every digit doubled, with or without `#`. */
  lemma ShortColor(a: char, b: char, c: char)
    requires a != '#'
    ensures HexToWpsColor(Some(Str(['#', a, b, c]))) == HexToWpsColor(Some(Str([a, a, b, b, c, c])))
    ensures HexToWpsColor(Some(Str([a, b, c]))) == HexToWpsColor(Some(Str([a, a, b, b, c, c])))
  {
    assert Expanded(['#', a, b, c]) == [a, a, b, b, c, c];
    assert Expanded([a, b, c]) == [a, a, b, b, c, c];
  }

  /** Numbers pass through; anything that is neither a number nor a string gives 0. */
  lemma ColorNonString(v: Option<Value>)
    ensures v.Some? && v.value.Num? ==> HexToWpsColor(v) == v.value.n
    ensures v.None? || !(v.value.Num? || v.value.Str?) ==> HexToWpsColor(v) == 0.0
  {
  }

  // ---------------------------------------------------------------- mergeContiguousIndices

  /** A run of paragraphs `from..to`, both ends included. */
  datatype Group = Group(from: int, to: int)

  predicate SortedAsc(s: seq<int>)
  {
    forall i, j :: 0 <= i < j < |s| ==> s[i] <= s[j]
  }

  /** `x` put into a sorted sequence before the first element not smaller than it. */
  function InsertSorted(x: int, s: seq<int>): (r: seq<int>)
    requires SortedAsc(s)
    ensures SortedAsc(r) && multiset(r) == multiset(s) + multiset{x}
    ensures |r| == |s| + 1
  {
    if s == [] || x <= s[0] then
      assert SortedAsc([x] + s) by { LowerBoundSorted(x, s); }
      [x] + s
    else
      var rest := InsertSorted(x, s[1..]);
      assert multiset(s) == multiset{s[0]} + multiset(s[1..]) by { assert s == [s[0]] + s[1..]; }
      assert SortedAsc([s[0]] + rest) by {
        AboveHead(s, x, rest);
        LowerBoundSorted(s[0], rest);
      }
      [s[0]] + rest
  }

  /** Every element of the tail of a sorted sequence, and a larger `x`, lie above its head. */
  lemma AboveHead(s: seq<int>, x: int, rest: seq<int>)
    requires SortedAsc(s) && s != [] && s[0] < x
    requires multiset(rest) == multiset(s[1..]) + multiset{x}
    ensures forall j | 0 <= j < |rest| :: s[0] <= rest[j]
  {
    forall j | 0 <= j < |rest|
      ensures s[0] <= rest[j]
    {
      assert rest[j] in multiset(rest);
      if rest[j] != x {
        assert rest[j] in multiset(s[1..]);
        var k :| 0 <= k < |s[1..]| && s[1..][k] == rest[j];
        assert s[k + 1] == rest[j];
      }
    }
  }

  /** A value not above the first element of a sorted sequence can go in front of it. */
  lemma LowerBoundSorted(x: int, s: seq<int>)
    requires SortedAsc(s) && forall j | 0 <= j < |s| :: x <= s[j]
    ensures SortedAsc([x] + s)
  {
    var t := [x] + s;
    forall i, j | 0 <= i < j < |t|
      ensures t[i] <= t[j]
    {
      if i > 0 {
        assert t[i] == s[i - 1] && t[j] == s[j - 1];
      } else {
        assert t[j] == s[j - 1];
      }
    }
  }

  /** The ascending numeric sort `slice().sort((a, b) => a - b)`. */
  function SortAsc(s: seq<int>): (r: seq<int>)
    ensures SortedAsc(r) && multiset(r) == multiset(s)
    ensures |r| == |s|
  {
    if s == [] then []
    else
      assert s == [s[0]] + s[1..];
      InsertSorted(s[0], SortAsc(s[1..]))
  }

  /** The groups the loop produces from position `i` of `sorted`, with the group `start..end` open. */
  function MergeFrom(sorted: seq<int>, i: nat, start: int, end: int): (r: seq<Group>)
    requires i <= |sorted|
    decreases |sorted| - i
    ensures r != [] && r[0].from == start
  {
    if i == |sorted| then [Group(start, end)]
    else if sorted[i] == end + 1 then MergeFrom(sorted, i + 1, start, sorted[i])
    else [Group(start, end)] + MergeFrom(sorted, i + 1, sorted[i], sorted[i])
  }

  /** `mergeContiguousIndices`: the sorted indices cut into runs of consecutive numbers. */
  function MergeContiguous(indices: seq<int>): seq<Group>
  {
    if indices == [] then []
    else
      var sorted := SortAsc(indices);
      MergeFrom(sorted, 1, sorted[0], sorted[0])
  }

  /** The merge loop as written: extend the open group while the next index follows it. */
  method MergeContiguousIndices(indices: seq<int>) returns (groups: seq<Group>)
    ensures groups == MergeContiguous(indices)
  {
    if |indices| == 0 {
      return [];
    }
    var sorted := SortAsc(indices);
    groups := [];
    var start, end := sorted[0], sorted[0];
    var i := 1;
    while i < |sorted|
      invariant 1 <= i <= |sorted|
      invariant groups + MergeFrom(sorted, i, start, end) == MergeFrom(sorted, 1, sorted[0], sorted[0])
      decreases |sorted| - i
    {
      if sorted[i] == end + 1 {
        end := sorted[i];
      } else {
        AppendAssoc(groups, [Group(start, end)], MergeFrom(sorted, i + 1, sorted[i], sorted[i]));
        groups := groups + [Group(start, end)];
        start, end := sorted[i], sorted[i];
      }
      i := i + 1;
    }
    groups := groups + [Group(start, end)];
  }

  /** `x` lies in one of the groups. */
  predicate InGroups(x: int, gs: seq<Group>)
  {
    exists k :: 0 <= k < |gs| && gs[k].from <= x <= gs[k].to
  }

  /** Each group is a proper run, and the runs follow one another at least `gap` apart. */
  predicate Chained(gs: seq<Group>, gap: int)
  {
    (forall k :: 0 <= k < |gs| ==> gs[k].from <= gs[k].to)
    && (forall k :: 0 <= k < |gs| - 1 ==> gs[k].to + gap <= gs[k + 1].from)
  }

  predicate StrictlyAsc(s: seq<int>)
  {
    forall i, j :: 0 <= i < j < |s| ==> s[i] < s[j]
  }

  /** The groups from position `i` cover the open group and the rest of the input, and nothing else. */
  lemma {:induction false} MergeFromCover(sorted: seq<int>, i: nat, start: int, end: int)
    requires 1 <= i <= |sorted| && SortedAsc(sorted) && start <= end == sorted[i - 1]
    requires forall x :: start <= x <= end ==> x in sorted
    ensures forall x :: InGroups(x, MergeFrom(sorted, i, start, end)) <==> (start <= x <= end || x in sorted[i..])
    decreases |sorted| - i
  {
    var r := MergeFrom(sorted, i, start, end);
    if i == |sorted| {
      forall x ensures InGroups(x, r) <==> start <= x <= end || x in sorted[i..] {
        if InGroups(x, r) {
          var k :| 0 <= k < |r| && r[k].from <= x <= r[k].to;
          assert k == 0;
        }
        if start <= x <= end {
          assert r[0].from <= x <= r[0].to;
        }
      }
    } else if sorted[i] == end + 1 {
      MergeFromCover(sorted, i + 1, start, sorted[i]);
      assert sorted[i..] == [sorted[i]] + sorted[i + 1..];
      forall x | start <= x <= sorted[i] ensures x in sorted {
        if x == sorted[i] {
          assert sorted[i] in sorted;
        }
      }
    } else {
      var rest := MergeFrom(sorted, i + 1, sorted[i], sorted[i]);
      assert sorted[i] in sorted;
      MergeFromCover(sorted, i + 1, sorted[i], sorted[i]);
      assert r == [Group(start, end)] + rest;
      assert sorted[i..] == [sorted[i]] + sorted[i + 1..];
      forall x ensures InGroups(x, r) <==> start <= x <= end || x in sorted[i..] {
        if InGroups(x, r) {
          var k :| 0 <= k < |r| && r[k].from <= x <= r[k].to;
          if k > 0 {
            assert rest[k - 1] == r[k];
            assert InGroups(x, rest);
          }
        }
        if InGroups(x, rest) {
          var k :| 0 <= k < |rest| && rest[k].from <= x <= rest[k].to;
          assert r[k + 1] == rest[k];
        }
        if start <= x <= end {
          assert r[0].from <= x <= r[0].to;
        }
      }
    }
  }

  /** The union of the groups is exactly the set of input indices. */
  lemma MergeCoversInput(indices: seq<int>)
    ensures forall x :: InGroups(x, MergeContiguous(indices)) <==> x in indices
  {
    if indices != [] {
      var sorted := SortAsc(indices);
      assert sorted[0] in multiset(indices);
      assert forall x :: x in sorted <==> x in indices by {
        forall x ensures x in sorted <==> x in indices {
          assert x in sorted <==> x in multiset(sorted);
          assert x in indices <==> x in multiset(indices);
        }
      }
      MergeFromCover(sorted, 1, sorted[0], sorted[0]);
      assert sorted == [sorted[0]] + sorted[1..];
    }
  }

  /** The groups from position `i` are proper runs in ascending order; for distinct input they are
      separated by at least one missing index. */
  lemma {:induction false} MergeFromChained(sorted: seq<int>, i: nat, start: int, end: int, gap: int)
    requires 1 <= i <= |sorted| && SortedAsc(sorted) && start <= end == sorted[i - 1]
    requires gap == 0 || (gap == 2 && StrictlyAsc(sorted))
    ensures Chained(MergeFrom(sorted, i, start, end), gap)
    decreases |sorted| - i
  {
    if i < |sorted| {
      if sorted[i] == end + 1 {
        MergeFromChained(sorted, i + 1, start, sorted[i], gap);
      } else {
        var rest := MergeFrom(sorted, i + 1, sorted[i], sorted[i]);
        MergeFromChained(sorted, i + 1, sorted[i], sorted[i], gap);
        var r := MergeFrom(sorted, i, start, end);
        assert r == [Group(start, end)] + rest;
        assert sorted[i - 1] <= sorted[i];
        assert gap == 2 ==> sorted[i - 1] < sorted[i];
        forall k | 0 <= k < |r| - 1 ensures r[k].to + gap <= r[k + 1].from {
          if k > 0 {
            assert r[k] == rest[k - 1] && r[k + 1] == rest[k];
          }
        }
        forall k | 0 <= k < |r| ensures r[k].from <= r[k].to {
          if k > 0 {
            assert r[k] == rest[k - 1];
          }
        }
      }
    }
  }

  /** No input, no groups; any input gives ascending proper runs, at least 2 apart when duplicate-free. */
  lemma MergeShape(indices: seq<int>)
    ensures indices == [] <==> MergeContiguous(indices) == []
    ensures Chained(MergeContiguous(indices), 0)
    ensures (forall i, j :: 0 <= i < j < |indices| ==> indices[i] != indices[j])
            ==> Chained(MergeContiguous(indices), 2)
  {
    if indices != [] {
      var sorted := SortAsc(indices);
      MergeFromChained(sorted, 1, sorted[0], sorted[0], 0);
      if forall i, j :: 0 <= i < j < |indices| ==> indices[i] != indices[j] {
        DistinctSorted(indices, sorted);
        MergeFromChained(sorted, 1, sorted[0], sorted[0], 2);
      }
    }
  }

  /** Sorting a duplicate-free sequence gives a strictly ascending one. */
  lemma DistinctSorted(s: seq<int>, sorted: seq<int>)
    requires forall i, j :: 0 <= i < j < |s| ==> s[i] != s[j]
    requires SortedAsc(sorted) && multiset(sorted) == multiset(s)
    ensures StrictlyAsc(sorted)
  {
    assert forall x :: multiset(s)[x] <= 1 by {
      forall x ensures multiset(s)[x] <= 1 {
        DistinctCount(s, x);
      }
    }
    forall i, j | 0 <= i < j < |sorted| ensures sorted[i] < sorted[j] {
      if sorted[i] == sorted[j] {
        TwoCopies(sorted, i, j);
      }
    }
  }

  lemma TwoCopies(s: seq<int>, i: nat, j: nat)
    requires i < j < |s| && s[i] == s[j]
    ensures multiset(s)[s[i]] >= 2
  {
    assert s == s[..i] + [s[i]] + s[i + 1..j] + [s[j]] + s[j + 1..];
  }

  lemma {:induction false} DistinctCount(s: seq<int>, x: int)
    requires forall i, j :: 0 <= i < j < |s| ==> s[i] != s[j]
    ensures multiset(s)[x] <= 1
  {
    if s != [] {
      assert s == [s[0]] + s[1..];
      DistinctCount(s[1..], x);
      if s[0] == x {
        assert x !in s[1..];
      }
    }
  }

  // ---------------------------------------------------------------- executeOnTarget

  /** A host range by character positions. */
  datatype Range = Range(start: int, end: int)

  /** What a skill is applied to: a list of 1-based paragraph indices, a range, or nothing. */
  datatype Target = Indices(indices: seq<int>) | Given(range: Range) | NoTarget

  /** The host document as the executor sees it: each paragraph's range and the whole content. */
  datatype Host = Host(paragraph: int -> Range, content: Range)

  /** The range of one merged group: from the first paragraph's start to the last one's end. */
  function GroupRange(host: Host, g: Group): Range
  {
    Range(host.paragraph(g.from).start, host.paragraph(g.to).end)
  }

  /** The ranges the executor passes to the skill's callback, in call order. */
  function TargetRanges(host: Host, target: Target): (r: seq<Range>)
    ensures target.Indices? ==> |r| == |MergeContiguous(target.indices)|
    ensures !target.Indices? ==> |r| == 1
  {
    match target
    case Indices(indices) =>
      var groups := MergeContiguous(indices);
      seq(|groups|, g requires 0 <= g < |groups| => GroupRange(host, groups[g]))
    case Given(range) => [range]
    case NoTarget => [host.content]
  }

  /** `executeOnTarget` as written: one callback per merged group, else the given range, else the
      whole document. The callbacks' ranges are returned in order. */
  method ExecuteOnTarget(host: Host, target: Target) returns (calls: seq<Range>)
    ensures calls == TargetRanges(host, target)
  {
    match target {
      case Indices(indices) =>
        var groups := MergeContiguousIndices(indices);
        calls := [];
        var g := 0;
        while g < |groups|
          invariant 0 <= g <= |groups|
          invariant calls == seq(g, j requires 0 <= j < g => GroupRange(host, groups[j]))
          decreases |groups| - g
        {
          calls := calls + [GroupRange(host, groups[g])];
          g := g + 1;
        }
      case Given(range) =>
        calls := [range];
      case NoTarget =>
        calls := [host.content];
    }
  }

  /** Each merged group becomes one callback over its span; an empty index list calls nothing, not
      even the whole document. */
  lemma TargetCalls(host: Host, indices: seq<int>)
    ensures var r := TargetRanges(host, Indices(indices));
            var groups := MergeContiguous(indices);
            forall g :: 0 <= g < |r| ==>
              r[g] == Range(host.paragraph(groups[g].from).start, host.paragraph(groups[g].to).end)
    ensures indices == [] ==> TargetRanges(host, Indices(indices)) == []
  {
    MergeShape(indices);
  }

  // ---------------------------------------------------------------- property writes

  /** A value written to a host property: a parameter value, `undefined`, NaN, or the colour
      word `HexToWpsColor(color)` of a colour argument. */
  datatype Written = Val(v: Value) | Undefined | NaN | Packed(color: Option<Value>)

  /** One effect of a skill on a range: a property write or a method call. */
  datatype Action = Put(prop: string, value: Written) | Call(name: string)

  function Num(n: real): Written { Val(Value.Num(n)) }

  /** The host's tri-state boolean: true is -1, false is 0. */
  function TriState(v: Value): Written
  {
    if Truthy(v) then Num(-1.0) else Num(0.0)
  }

  /** The font-name writes: `zhFont` sets the Chinese name, and the Latin name too when no
      `enFont` is given; `enFont` sets the ASCII and other names. */
  function FontNameActions(params: Value): seq<Action>
  {
    var zh := Get(params, "zhFont");
    var en := Get(params, "enFont");
    (if TruthyOpt(zh) then [Put("NameFarEast", Val(zh.value))] + (if TruthyOpt(en) then [] else [Put("Name", Val(zh.value))]) else [])
    + (if TruthyOpt(en) then [Put("NameAscii", Val(en.value)), Put("NameOther", Val(en.value))] else [])
  }

  /** `if (params[key] !== undefined) font[prop] = params[key] ? on : 0`. */
  function FlagAction(params: Value, key: string, prop: string, on: real): seq<Action>
  {
    match Get(params, key) case Some(v) => [Put(prop, if Truthy(v) then Num(on) else Num(0.0))] case None => []
  }

  /** `setFontOnRange`: the writes for each font parameter that is given, in the order written. */
  function FontActions(params: Value): seq<Action>
  {
    FontNameActions(params) + FontStyleActions(params)
  }

  /** The writes after the font names: size, bold, italic, underline, colour, strike-through. */
  function FontStyleActions(params: Value): (r: seq<Action>)
    ensures forall a :: a in r ==> a.Put? && a.prop in {"Size", "Bold", "Italic", "Underline", "Color", "StrikeThrough"}
  {
    SizeAction(params)
    + FlagAction(params, "bold", "Bold", -1.0)
    + FlagAction(params, "italic", "Italic", -1.0)
    + FlagAction(params, "underline", "Underline", 1.0)
    + ColorAction(params)
    + FlagAction(params, "strikethrough", "StrikeThrough", -1.0)
  }

  /** The size is written when it is neither undefined nor null. */
  function SizeAction(params: Value): seq<Action>
  {
    match Get(params, "fontSize") case Some(v) => if v.Null? then [] else [Put("Size", Val(v))] case None => []
  }

  function ColorAction(params: Value): seq<Action>
  {
    if Get(params, "color").Some? then [Put("Color", Packed(Get(params, "color")))] else []
  }

  /** The position of a style write in `setFontOnRange`'s order: size, bold, italic, underline,
      colour, strike-through; anything else comes last. */
  function StyleRank(a: Action): nat
  {
    if !a.Put? then 6
    else match a.prop
      case "Size" => 0
      case "Bold" => 1
      case "Italic" => 2
      case "Underline" => 3
      case "Color" => 4
      case "StrikeThrough" => 5
      case _ => 6
  }

  /** Writes in strictly increasing style order, so each property at most once. */
  ghost predicate Ranked(r: seq<Action>)
  {
    forall i, j :: 0 <= i < j < |r| ==> StyleRank(r[i]) < StyleRank(r[j])
  }

  /** The values written to `prop`, in order. */
  function WritesOf(r: seq<Action>, prop: string): seq<Written>
  {
    if r == [] then []
    else (if r[0].Put? && r[0].prop == prop then [r[0].value] else []) + WritesOf(r[1..], prop)
  }

  lemma {:induction false} WritesOfAppend(a: seq<Action>, b: seq<Action>, prop: string)
    ensures WritesOf(a + b, prop) == WritesOf(a, prop) + WritesOf(b, prop)
    decreases |a|
  {
    if a == [] {
      assert a + b == b;
    } else {
      assert (a + b)[1..] == a[1..] + b;
      WritesOfAppend(a[1..], b, prop);
    }
  }

  lemma RankedAppend(a: seq<Action>, b: seq<Action>, k: nat)
    requires Ranked(a) && |b| <= 1
    requires forall x :: x in a ==> StyleRank(x) < k
    requires forall y :: y in b ==> StyleRank(y) == k
    ensures Ranked(a + b)
    ensures forall x :: x in a + b ==> StyleRank(x) <= k
  {
    forall i, j | 0 <= i < j < |a + b|
      ensures StyleRank((a + b)[i]) < StyleRank((a + b)[j])
    {
      if j >= |a| {
        assert (a + b)[i] in a;
        assert (a + b)[j] in b;
      }
    }
  }

  /** The style writes come in the order size, bold, italic, underline, colour, strike-through,
      each at most once. */
  lemma FontStyleRanked(params: Value)
    ensures Ranked(FontStyleActions(params))
  {
    var s0 := SizeAction(params);
    var s1 := FlagAction(params, "bold", "Bold", -1.0);
    var s2 := FlagAction(params, "italic", "Italic", -1.0);
    var s3 := FlagAction(params, "underline", "Underline", 1.0);
    var s4 := ColorAction(params);
    var s5 := FlagAction(params, "strikethrough", "StrikeThrough", -1.0);
    RankedAppend([], s0, 0);
    assert [] + s0 == s0;
    RankedAppend(s0, s1, 1);
    RankedAppend(s0 + s1, s2, 2);
    RankedAppend(s0 + s1 + s2, s3, 3);
    RankedAppend(s0 + s1 + s2 + s3, s4, 4);
    RankedAppend(s0 + s1 + s2 + s3 + s4, s5, 5);
  }

  /** The writes to one property are those of the six parts in turn. */
  lemma FontStyleParts(params: Value, prop: string)
    ensures WritesOf(FontStyleActions(params), prop)
            == WritesOf(SizeAction(params), prop)
               + WritesOf(FlagAction(params, "bold", "Bold", -1.0), prop)
               + WritesOf(FlagAction(params, "italic", "Italic", -1.0), prop)
               + WritesOf(FlagAction(params, "underline", "Underline", 1.0), prop)
               + WritesOf(ColorAction(params), prop)
               + WritesOf(FlagAction(params, "strikethrough", "StrikeThrough", -1.0), prop)
  {
    var s0 := SizeAction(params);
    var s1 := FlagAction(params, "bold", "Bold", -1.0);
    var s2 := FlagAction(params, "italic", "Italic", -1.0);
    var s3 := FlagAction(params, "underline", "Underline", 1.0);
    var s4 := ColorAction(params);
    var s5 := FlagAction(params, "strikethrough", "StrikeThrough", -1.0);
    WritesOfAppend(s0, s1, prop);
    WritesOfAppend(s0 + s1, s2, prop);
    WritesOfAppend(s0 + s1 + s2, s3, prop);
    WritesOfAppend(s0 + s1 + s2 + s3, s4, prop);
    WritesOfAppend(s0 + s1 + s2 + s3 + s4, s5, prop);
  }

  /** A flag writes its own property, -1/1 when truthy and 0 when falsy, and no other. */
  lemma FlagWrites(params: Value, key: string, prop: string, on: real, other: string)
    ensures var v := Get(params, key);
            WritesOf(FlagAction(params, key, prop, on), prop) == if v.Some? then [if Truthy(v.value) then Num(on) else Num(0.0)] else []
    ensures other != prop ==> WritesOf(FlagAction(params, key, prop, on), other) == []
  {
    var a := FlagAction(params, key, prop, on);
    if a != [] {
      assert a[1..] == [];
    }
  }

  lemma SizeColorWrites(params: Value, other: string)
    ensures var v := Get(params, "fontSize");
            WritesOf(SizeAction(params), "Size") == if v.Some? && !v.value.Null? then [Val(v.value)] else []
    ensures other != "Size" ==> WritesOf(SizeAction(params), other) == []
    ensures var v := Get(params, "color");
            WritesOf(ColorAction(params), "Color") == if v.Some? then [Packed(v)] else []
    ensures other != "Color" ==> WritesOf(ColorAction(params), other) == []
  {
    var a := SizeAction(params);
    if a != [] {
      assert a[1..] == [];
    }
    var c := ColorAction(params);
    if c != [] {
      assert c[1..] == [];
    }
  }

  /** Bold, italic and strike-through write -1 for a truthy flag and 0 for a falsy one, underline
      writes 1 or 0; each flag is written once exactly when it is given, the size once exactly
      when it is given and not null, and the colour once as its packed word when it is given. */
  lemma FontStyleWrites(params: Value)
    ensures var v := Get(params, "fontSize");
            WritesOf(FontStyleActions(params), "Size") == if v.Some? && !v.value.Null? then [Val(v.value)] else []
    ensures var v := Get(params, "bold");
            WritesOf(FontStyleActions(params), "Bold") == if v.Some? then [if Truthy(v.value) then Num(-1.0) else Num(0.0)] else []
    ensures var v := Get(params, "italic");
            WritesOf(FontStyleActions(params), "Italic") == if v.Some? then [if Truthy(v.value) then Num(-1.0) else Num(0.0)] else []
    ensures var v := Get(params, "underline");
            WritesOf(FontStyleActions(params), "Underline") == if v.Some? then [if Truthy(v.value) then Num(1.0) else Num(0.0)] else []
    ensures var v := Get(params, "color");
            WritesOf(FontStyleActions(params), "Color") == if v.Some? then [Packed(v)] else []
    ensures var v := Get(params, "strikethrough");
            WritesOf(FontStyleActions(params), "StrikeThrough") == if v.Some? then [if Truthy(v.value) then Num(-1.0) else Num(0.0)] else []
  {
    FontStyleProp(params, "Size");
    FontStyleProp(params, "Bold");
    FontStyleProp(params, "Italic");
    FontStyleProp(params, "Underline");
    FontStyleProp(params, "Color");
    FontStyleProp(params, "StrikeThrough");
    SizeColorWrites(params, "");
    FlagWrites(params, "bold", "Bold", -1.0, "");
    FlagWrites(params, "italic", "Italic", -1.0, "");
    FlagWrites(params, "underline", "Underline", 1.0, "");
    FlagWrites(params, "strikethrough", "StrikeThrough", -1.0, "");
  }

  /** The writes to `prop` are those of the one part that writes it. */
  lemma FontStyleProp(params: Value, prop: string)
    requires prop in {"Size", "Bold", "Italic", "Underline", "Color", "StrikeThrough"}
    ensures WritesOf(FontStyleActions(params), prop)
            == if prop == "Size" then WritesOf(SizeAction(params), prop)
               else if prop == "Bold" then WritesOf(FlagAction(params, "bold", "Bold", -1.0), prop)
               else if prop == "Italic" then WritesOf(FlagAction(params, "italic", "Italic", -1.0), prop)
               else if prop == "Underline" then WritesOf(FlagAction(params, "underline", "Underline", 1.0), prop)
               else if prop == "Color" then WritesOf(ColorAction(params), prop)
               else WritesOf(FlagAction(params, "strikethrough", "StrikeThrough", -1.0), prop)
  {
    FontStyleParts(params, prop);
    SizeColorWrites(params, prop);
    FlagWrites(params, "bold", "Bold", -1.0, prop);
    FlagWrites(params, "italic", "Italic", -1.0, prop);
    FlagWrites(params, "underline", "Underline", 1.0, prop);
    FlagWrites(params, "strikethrough", "StrikeThrough", -1.0, prop);
  }

  /** The value a sequence of writes leaves in `prop`, if any write touched it. */
  function Final(actions: seq<Action>, prop: string): Option<Written>
  {
    if actions == [] then None
    else
      var last := actions[|actions| - 1];
      if last.Put? && last.prop == prop then Some(last.value) else Final(actions[..|actions| - 1], prop)
  }

  lemma {:induction false} FinalAppend(a: seq<Action>, b: seq<Action>, prop: string)
    ensures Final(a + b, prop) == if Final(b, prop).Some? then Final(b, prop) else Final(a, prop)
    decreases |b|
  {
    if b == [] {
      assert a + b == a;
    } else {
      assert (a + b)[..|a + b| - 1] == a + b[..|b| - 1];
      FinalAppend(a, b[..|b| - 1], prop);
    }
  }

  /** `zhFont` sets the Chinese name, and the Latin name only when no `enFont` is given, in
      which case the Latin names come from `enFont` alone. */
  lemma ZhFontSetsName(params: Value)
    requires TruthyOpt(Get(params, "zhFont"))
    ensures var z := Val(Get(params, "zhFont").value);
            var en := Get(params, "enFont");
            FontNameActions(params)
            == if TruthyOpt(en) then [Put("NameFarEast", z), Put("NameAscii", Val(en.value)), Put("NameOther", Val(en.value))]
               else [Put("NameFarEast", z), Put("Name", z)]
  {
  }

  /** A write of the font names is never followed by a later write of the same property. */
  lemma FontFinal(params: Value, prop: string)
    requires prop == "Name" || prop == "NameFarEast"
    ensures Final(FontActions(params), prop) == Final(FontNameActions(params), prop)
  {
    FinalUntouched(FontNameActions(params), FontStyleActions(params), prop);
  }

  /** Writes that leave `prop` alone do not change the value it was left with. */
  lemma {:induction false} FinalUntouched(a: seq<Action>, b: seq<Action>, prop: string)
    requires forall x :: x in b ==> !(x.Put? && x.prop == prop)
    ensures Final(a + b, prop) == Final(a, prop)
    decreases |b|
  {
    if b == [] {
      assert a + b == a;
    } else {
      assert (a + b)[..|a + b| - 1] == a + b[..|b| - 1];
      assert b[|b| - 1] in b;
      FinalUntouched(a, b[..|b| - 1], prop);
    }
  }

  /** The highlight skill's colour map: names to host colour indices, `none` to 0. */
  function HighlightEntry(name: string): Option<int>
  {
    match name
    case "yellow" => Some(7)
    case "green" => Some(4)
    case "cyan" => Some(5)
    case "magenta" => Some(6)
    case "blue" => Some(2)
    case "red" => Some(3)
    case "darkBlue" => Some(9)
    case "teal" => Some(10)
    case "none" => Some(0)
    case _ => None
  }

  /** `colorMap[params.color] || 7`. */
  function HighlightIndex(color: Option<Value>): (r: int)
  {
    var found := if color.Some? && color.value.Str? then HighlightEntry(color.value.s) else None;
    if found.Some? && found.value != 0 then found.value else 7
  }

  /** A missing colour, an unknown one and 'none' (whose 0 is falsy) all highlight in yellow;
      every other listed name keeps its own index, and the result is never 0. */
  lemma HighlightDefaults(color: Option<Value>)
    ensures HighlightIndex(None) == 7 && HighlightIndex(Some(Str("none"))) == 7
    ensures HighlightIndex(color) != 0
    ensures color.Some? && color.value.Str? && color.value.s != "none" && HighlightEntry(color.value.s).Some?
            ==> HighlightIndex(color) == HighlightEntry(color.value.s).value
    ensures !(color.Some? && color.value.Str? && HighlightEntry(color.value.s).Some?) ==> HighlightIndex(color) == 7
  {
  }

  /** `ALIGNMENT_MAP[params.alignment]`, justify (3) when the name is unknown or missing. */
  function AlignmentValue(alignment: Option<Value>): int
  {
    var found := if alignment.Some? && alignment.value.Str? then SkillRegistry.Find(SkillRegistry.ALIGNMENTS, alignment.value.s) else None;
    if found.Some? then found.value else 3
  }

  /** A listed alignment keeps its constant, including left's 0; anything else justifies. */
  lemma AlignmentDefault(alignment: Option<Value>)
    ensures AlignmentValue(Some(Str("left"))) == 0
    ensures AlignmentValue(Some(Str("center"))) == 1
    ensures AlignmentValue(Some(Str("right"))) == 2
    ensures AlignmentValue(alignment) == 3 <==>
            !(alignment.Some? && alignment.value.Str? && alignment.value.s in ["left", "center", "right"])
  {
    if alignment.Some? && alignment.value.Str? {
      var s := alignment.value.s;
      var found := SkillRegistry.Find(SkillRegistry.ALIGNMENTS, s);
      if found.Some? {
        var i :| 0 <= i < 4 && SkillRegistry.ALIGNMENTS[i] == (s, found.value);
      }
    }
  }

  /** `paragraph.line_spacing.set`: the rule from LINE_SPACING_RULE_MAP (multiple, 5, when the
      mode is unknown) and the spacing, in lines times 12 only for the mode `multiple`. */
  function LineSpacingActions(params: Value): seq<Action>
  {
    var mode := Get(params, "mode");
    var found := if mode.Some? && mode.value.Str? then SkillRegistry.Find(SkillRegistry.LINE_SPACING_RULES, mode.value.s) else None;
    var rule := if found.Some? then found.value else 5;
    var value := Get(params, "value");
    var spacing :=
      if mode == Some(Str("multiple")) then
        (match value case Some(v) => Lines(ToNumber(v)) case None => NaN)
      else if value.Some? then Val(value.value) else Undefined;
    [Put("LineSpacingRule", Num(rule as real)), Put("LineSpacing", spacing)]
  }

  /** A number of lines in points, 12 to a line; NaN stays NaN. */
  function Lines(n: Option<real>): Written
  {
    match n case Some(x) => Num(x * 12.0) case None => NaN
  }

  lemma ModeAndValue(mode: string, value: Value)
    ensures var p := Obj([("mode", Str(mode)), ("value", value)]);
            Get(p, "mode") == Some(Str(mode)) && Get(p, "value") == Some(value)
  {
    var f := [("mode", Str(mode)), ("value", value)];
    assert "mode"[0] != "value"[0];
    assert f[1..] == [("value", value)];
    assert Lookup(f[1..], "value") == Some(value);
  }

  /** The multiple mode writes rule 5 and the value, as `Number` reads it (numeric strings
      included), in lines times 12 points; a value that reads as NaN writes NaN. */
  lemma LineSpacingMultiple(value: Value)
    ensures LineSpacingActions(Obj([("mode", Str("multiple")), ("value", value)]))
            == [Put("LineSpacingRule", Num(5.0)),
                Put("LineSpacing", if ToNumber(value).Some? then Num(ToNumber(value).value * 12.0) else NaN)]
  {
    SkillRegistry.LineSpacingRules();
    ModeAndValue("multiple", value);
    MultipleSpacing(Obj([("mode", Str("multiple")), ("value", value)]), value);
  }

  lemma MultipleSpacing(p: Value, value: Value)
    requires Get(p, "mode") == Some(Str("multiple")) && Get(p, "value") == Some(value)
    requires SkillRegistry.Find(SkillRegistry.LINE_SPACING_RULES, "multiple") == Some(5)
    ensures LineSpacingActions(p) == [Put("LineSpacingRule", Num(5.0)), Put("LineSpacing", Lines(ToNumber(value)))]
  {
  }

  /** `"1.5"` lines in the multiple mode is 18 points. */
  lemma LineSpacingMultipleText()
    ensures LineSpacingActions(Obj([("mode", Str("multiple")), ("value", Str("1.5"))]))
            == [Put("LineSpacingRule", Num(5.0)), Put("LineSpacing", Num(18.0))]
  {
    FractionRead("1.5");
    LineSpacingMultiple(Str("1.5"));
  }

  /** The exact mode writes rule 4 and the points as given. */
  lemma LineSpacingExact(value: Value)
    ensures LineSpacingActions(Obj([("mode", Str("exact")), ("value", value)]))
            == [Put("LineSpacingRule", Num(4.0)), Put("LineSpacing", Val(value))]
  {
    SkillRegistry.LineSpacingRules();
    ModeAndValue("exact", value);
  }

  /** An unknown mode uses the multiple rule, 5, but writes the raw value, not the value times 12. */
  lemma LineSpacingUnknown(value: Value, mode: string)
    requires mode !in ["multiple", "exact", "atLeast"]
    ensures LineSpacingActions(Obj([("mode", Str(mode)), ("value", value)]))
            == [Put("LineSpacingRule", Num(5.0)), Put("LineSpacing", Val(value))]
  {
    ModeAndValue(mode, value);
  }

  /** The write of `params[key]` to `prop` when the key is present. */
  function PutIfGiven(params: Value, key: string, prop: string): seq<Action>
  {
    match Get(params, key) case Some(v) => [Put(prop, Val(v))] case None => []
  }

  /** `-Math.abs(params.hanging)` into the character indent, when `hanging` is present. */
  function HangingAction(params: Value): seq<Action>
  {
    match Get(params, "hanging")
    case Some(v) => [Put("CharacterUnitFirstLineIndent", HangingIndent(v))]
    case None => []
  }

  /** `paragraph.indent.set`: each indent given is written, `hanging` after `firstLineChars`. */
  function IndentActions(params: Value): seq<Action>
  {
    PutIfGiven(params, "firstLineChars", "CharacterUnitFirstLineIndent")
    + PutIfGiven(params, "firstLinePoints", "FirstLineIndent")
    + HangingAction(params)
    + PutIfGiven(params, "left", "LeftIndent")
    + PutIfGiven(params, "right", "RightIndent")
  }

  function Abs(x: real): real { if x < 0.0 then -x else x }

  /** The character indent `hanging` leaves behind: minus its size as `Number` reads it
      (numeric strings included), NaN when it reads as NaN. */
  function HangingIndent(v: Value): Written
  {
    match ToNumber(v) case Some(n) => Num(-Abs(n)) case None => NaN
  }

  /** A hanging indent wins over `firstLineChars`: the character indent left behind is minus its
      size; without it, the character indent is `firstLineChars` as given. */
  lemma HangingOverrides(params: Value)
    ensures Get(params, "hanging").Some? ==>
            Final(IndentActions(params), "CharacterUnitFirstLineIndent") == Some(HangingIndent(Get(params, "hanging").value))
    ensures Get(params, "hanging").None? && Get(params, "firstLineChars").Some? ==>
            Final(IndentActions(params), "CharacterUnitFirstLineIndent") == Some(Val(Get(params, "firstLineChars").value))
  {
    var prop := "CharacterUnitFirstLineIndent";
    var a := PutIfGiven(params, "firstLineChars", prop);
    var b := PutIfGiven(params, "firstLinePoints", "FirstLineIndent");
    var h := HangingAction(params);
    var l := PutIfGiven(params, "left", "LeftIndent");
    var r := PutIfGiven(params, "right", "RightIndent");
    assert Final(IndentActions(params), prop) == Final((a + b) + h, prop) by {
      FinalOtherProp(params, "left", "LeftIndent", prop);
      FinalOtherProp(params, "right", "RightIndent", prop);
      FinalAppend(((a + b) + h), l, prop);
      FinalAppend(((a + b) + h) + l, r, prop);
    }
    FinalAppend(a + b, h, prop);
    if Get(params, "hanging").Some? {
      var w := HangingIndent(Get(params, "hanging").value);
      assert h == [Put(prop, w)];
      assert Final(h, prop) == Some(w) by { assert h[..0] == []; }
    } else if Get(params, "hanging").None? {
      assert h == [];
      FinalOtherProp(params, "firstLinePoints", "FirstLineIndent", prop);
      FinalAppend(a, b, prop);
    }
  }

  /** A hanging indent given as the decimal string of `k`, such as `"2"`, leaves `-|k|`. */
  lemma HangingText(params: Value, k: int)
    requires Get(params, "hanging") == Some(Str(IntToString(k)))
    ensures Final(IndentActions(params), "CharacterUnitFirstLineIndent") == Some(Num(-Abs(k as real)))
  {
    HangingOverrides(params);
    NumberText(k);
    HangingIndentOf(Str(IntToString(k)), k as real);
  }

  lemma HangingIndentOf(v: Value, n: real)
    requires ToNumber(v) == Some(n)
    ensures HangingIndent(v) == Num(-Abs(n))
  {
  }

  lemma NumberText(k: int)
    ensures ToNumber(Str(IntToString(k))) == Some(k as real)
  {
    IntRoundTrip(k);
  }

  /** A write to another property leaves the final value of `prop` unset. */
  lemma FinalOtherProp(params: Value, key: string, other: string, prop: string)
    requires other != prop
    ensures Final(PutIfGiven(params, key, other), prop).None?
  {
    var w := PutIfGiven(params, key, other);
    if w != [] {
      assert w[..0] == [];
    }
  }

  /** The writes of every skill of this layer on one range; columns act on the document, not here. */
  function SkillActions(skill: string, params: Value): Option<seq<Action>>
  {
    match skill
    case "text.font.set" => Some(FontActions(params))
    case "text.font.set_zh" => Some([Put("NameFarEast", ParamOrUndefined(params, "fontName")), Put("Name", ParamOrUndefined(params, "fontName"))])
    case "text.font.set_en" => Some([Put("NameAscii", ParamOrUndefined(params, "fontName")), Put("NameOther", ParamOrUndefined(params, "fontName"))])
    case "text.font.set_size" => Some([Put("Size", ParamOrUndefined(params, "size"))])
    case "text.font.set_bold" => Some([Put("Bold", TriStateOpt(Get(params, "bold")))])
    case "text.font.set_color" => Some([Put("Color", Packed(Get(params, "color")))])
    case "text.clear_formatting" => Some([Call("Font.Reset"), Call("ParagraphFormat.Reset")])
    case "text.superscript" => Some([Put("Superscript", TriStateOpt(Get(params, "enabled")))])
    case "text.subscript" => Some([Put("Subscript", TriStateOpt(Get(params, "enabled")))])
    case "text.highlight" => Some([Put("HighlightColorIndex", Num(HighlightIndex(Get(params, "color")) as real))])
    case "paragraph.alignment.set" => Some([Put("Alignment", Num(AlignmentValue(Get(params, "alignment")) as real))])
    case "paragraph.spacing.set" =>
      Some((match Get(params, "spaceBefore") case Some(v) => [Put("SpaceBefore", Val(v))] case None => [])
           + (match Get(params, "spaceAfter") case Some(v) => [Put("SpaceAfter", Val(v))] case None => []))
    case "paragraph.line_spacing.set" => Some(LineSpacingActions(params))
    case "paragraph.indent.set" => Some(IndentActions(params))
    case "paragraph.borders.set" => Some(if Get(params, "borderType") == Some(Str("box")) then [Put("Borders.Enable", Val(Bool(true)))] else [])
    case "paragraph.numbering.set" => Some([Call("ListFormat.ApplyNumberDefault")])
    case "paragraph.bullets.set" => Some([Call("ListFormat.ApplyBulletDefault")])
    case _ => None
  }

  function ParamOrUndefined(params: Value, key: string): Written
  {
    match Get(params, key) case Some(v) => Val(v) case None => Undefined
  }

  /** `x ? -1 : 0` where `undefined` is falsy. */
  function TriStateOpt(v: Option<Value>): Written
  {
    if TruthyOpt(v) then Num(-1.0) else Num(0.0)
  }

  /** Running a skill: its writes, once on each range the executor hands to it. */
  function Effects(host: Host, skill: string, params: Value, target: Target): (r: Option<seq<(Range, seq<Action>)>>)
  {
    match SkillActions(skill, params)
    case None => None
    case Some(actions) =>
      var ranges := TargetRanges(host, target);
      Some(seq(|ranges|, i requires 0 <= i < |ranges| => (ranges[i], actions)))
  }

  /** `paragraph.columns.set` acts on the whole document for an index list, else on the range. */
  function ColumnsRange(host: Host, target: Target): Range
  {
    match target
    case Given(range) => range
    case _ => host.content
  }

  /** Every skill of the layer writes the same thing to every range; an index target costs one
      host range per run of consecutive paragraphs. */
  lemma EffectsPerRange(host: Host, skill: string, params: Value, target: Target)
    requires SkillActions(skill, params).Some?
    ensures var r := Effects(host, skill, params, target).value;
            (target.Indices? ==> |r| == |MergeContiguous(target.indices)|)
            && (!target.Indices? ==> |r| == 1)
            && forall i :: 0 <= i < |r| ==> r[i].1 == SkillActions(skill, params).value
  {
  }
}
