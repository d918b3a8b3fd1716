/**
 * The table skills: choosing the table, the line-width and enum maps, the border
 * styles with their dashed-line fallback, and cell shading over one cell, one row
 * or the whole table. The colour packing is `TextParagraph.HexToWpsColor`, which
 * this layer repeats verbatim.
 */
module TableSkills {
  import opened Wrappers
  import opened JsonValue
  import opened TextParagraph
  import Text
  import SkillRegistry
  import PageSection

  // ---------------------------------------------------------------- choosing the table

  /** `getTable` returning null, which each skill turns into "table … does not exist". */
  datatype TableError = TableMissing(index: Option<Value>)

  /** `getTable`: the index, 1 when falsy; unlike a section, an index out of range has no fallback. */
  function GetTable(tableIndex: Option<Value>, tableCount: nat): (r: Result<real, TableError>)
    ensures r.Ok? ==> 1.0 <= r.value <= tableCount as real
    ensures r.Err? ==> r.error == TableMissing(tableIndex)
  {
    var idx := if TruthyOpt(tableIndex) then ToNumber(tableIndex.value) else Some(1.0);
    if idx.Some? && 1.0 <= idx.value <= tableCount as real then Ok(idx.value) else Err(TableMissing(tableIndex))
  }

  /** A missing or zero index means the first table, which fails only in a document without
      tables; any other index is used, as `Number` reads it, exactly when it is within
      1..count, so a numeric string such as `"2"` picks the second table. */
  lemma GetTableCases(tableIndex: Option<Value>, tableCount: nat)
    ensures !TruthyOpt(tableIndex) ==> (GetTable(tableIndex, tableCount).Ok? <==> tableCount >= 1)
    ensures !TruthyOpt(tableIndex) && tableCount >= 1 ==> GetTable(tableIndex, tableCount) == Ok(1.0)
    ensures forall n: real :: tableIndex == Some(Value.Num(n)) && n != 0.0 ==>
              (GetTable(tableIndex, tableCount) == Ok(n) <==> 1.0 <= n <= tableCount as real)
    ensures TruthyOpt(tableIndex) ==>
              (GetTable(tableIndex, tableCount).Ok? <==>
                 ToNumber(tableIndex.value).Some? && 1.0 <= ToNumber(tableIndex.value).value <= tableCount as real)
    ensures TruthyOpt(tableIndex) && GetTable(tableIndex, tableCount).Ok? ==>
              GetTable(tableIndex, tableCount).value == ToNumber(tableIndex.value).value
  {
  }

  /** Any numeric string `IntToString(n)` names table `n`: with three tables, `"2"` is the
      second. */
  lemma GetTableNumericString(n: int, tableCount: nat)
    ensures GetTable(Some(Str(Text.IntToString(n))), tableCount).Ok? <==> 1 <= n <= tableCount
    ensures 1 <= n <= tableCount ==> GetTable(Some(Str(Text.IntToString(n))), tableCount) == Ok(n as real)
  {
    var s := Text.IntToString(n);
    assert |s| > 0 by {
      if n >= 0 { assert s == Text.NatToString(n); }
    }
    Text.IntRoundTrip(n);
    assert ToNumber(Str(s)) == Some(n as real);
    GetTableCases(Some(Str(s)), tableCount);
  }

  // ---------------------------------------------------------------- line widths

  /** WD_LINE_WIDTH: width labels to the host's line-width constants. */
  function LineWidthEntry(name: string): Option<int>
  {
    match name
    case "0.25pt" => Some(2)
    case "0.5pt" => Some(4)
    case "0.75pt" => Some(6)
    case "1pt" => Some(8)
    case "1.5pt" => Some(12)
    case "2.25pt" => Some(18)
    case "3pt" => Some(24)
    case "4.5pt" => Some(36)
    case "6pt" => Some(48)
    case _ => None
  }

  /** The thickness each label names, in points. */
  function LabelPoints(name: string): Option<real>
  {
    match name
    case "0.25pt" => Some(0.25)
    case "0.5pt" => Some(0.5)
    case "0.75pt" => Some(0.75)
    case "1pt" => Some(1.0)
    case "1.5pt" => Some(1.5)
    case "2.25pt" => Some(2.25)
    case "3pt" => Some(3.0)
    case "4.5pt" => Some(4.5)
    case "6pt" => Some(6.0)
    case _ => None
  }

  /** Each line-width constant counts eighths of a point: the table agrees with its labels. */
  lemma LineWidthEighths(name: string)
    ensures LineWidthEntry(name).Some? <==> LabelPoints(name).Some?
    ensures LineWidthEntry(name).Some? ==> LineWidthEntry(name).value as real == 8.0 * LabelPoints(name).value
  {
  }

  /** `parseLineWidth`: a number passes through, a listed label becomes its constant, and
      anything else (absent, unlisted, another type) is 8, the constant for 1pt. */
  function ParseLineWidth(w: Option<Value>): (r: real)
  {
    if w.Some? && w.value.Num? then w.value.n
    else if w.Some? && w.value.Str? && LineWidthEntry(w.value.s).Some? then LineWidthEntry(w.value.s).value as real
    else 8.0
  }

  /** A number passes through, a label parses to eight times its points, and everything else
      is 1pt. */
  lemma ParseLineWidthMeaning(w: Option<Value>)
    ensures w.Some? && w.value.Num? ==> ParseLineWidth(w) == w.value.n
    ensures w.Some? && w.value.Str? && LabelPoints(w.value.s).Some? ==> ParseLineWidth(w) == 8.0 * LabelPoints(w.value.s).value
    ensures !(w.Some? && w.value.Num?) && !(w.Some? && w.value.Str? && LabelPoints(w.value.s).Some?) ==>
              ParseLineWidth(w) == 8.0 * LabelPoints("1pt").value
  {
    if w.Some? && w.value.Str? {
      LineWidthEighths(w.value.s);
    }
  }

  // ---------------------------------------------------------------- enum maps

  /** `ruleMap[params.rule || 'atLeast'] || 1`. */
  function RowHeightRule(rule: Option<Value>): int
  {
    var name := if TruthyOpt(rule) && rule.value.Str? then rule.value.s else if TruthyOpt(rule) then "" else "atLeast";
    match name
    case "auto" => 1      // 0, falsy, becomes 1
    case "atLeast" => 1
    case "exact" => 2
    case _ => 1
  }

  /** Only `'exact'` gives the exact rule 2; `'auto'` is coerced to at-least, so rule 0 is never written. */
  lemma RowHeightRuleCases(rule: Option<Value>)
    ensures RowHeightRule(rule) == 2 <==> rule == Some(Str("exact"))
    ensures RowHeightRule(rule) == 1 || RowHeightRule(rule) == 2
    ensures RowHeightRule(Some(Str("auto"))) == RowHeightRule(None) == 1
  {
  }

  /** `modeMap[params.mode] || 2`: content 1, window 2, and fixed's 0 becomes 2. */
  function AutofitBehavior(mode: Option<Value>): int
  {
    var name := if mode.Some? && mode.value.Str? then mode.value.s else "";
    match name
    case "content" => 1
    case "window" => 2
    case "fixed" => 2
    case _ => 2
  }

  lemma AutofitCases(mode: Option<Value>)
    ensures AutofitBehavior(mode) == 1 <==> mode == Some(Str("content"))
    ensures AutofitBehavior(mode) != 0
    ensures AutofitBehavior(Some(Str("fixed"))) == AutofitBehavior(Some(Str("window")))
  {
  }

  /** `alignMap[params.alignment] || 1`: the row alignment; left's 0 becomes centre. */
  function RowAlignment(alignment: Option<Value>): int
  {
    var name := if alignment.Some? && alignment.value.Str? then alignment.value.s else "";
    match name
    case "left" => 1
    case "center" => 1
    case "right" => 2
    case _ => 1
  }

  lemma RowAlignmentCases(alignment: Option<Value>)
    ensures RowAlignment(alignment) == 2 <==> alignment == Some(Str("right"))
    ensures RowAlignment(alignment) != 2 ==> RowAlignment(alignment) == 1
  {
  }

  /** The vertical cell alignments; the skill checks for a missing entry, so top's 0 is kept. */
  function VerticalEntry(name: string): Option<int>
  {
    match name
    case "top" => Some(0)
    case "center" => Some(1)
    case "bottom" => Some(3)
    case _ => None
  }

  /** What `applyAlignment` writes to each cell: a listed horizontal and a listed vertical alignment. */
  function CellAlignmentActions(params: Value): (r: seq<Action>)
    ensures |r| <= 2
  {
    var h := Get(params, "horizontal");
    var v := Get(params, "vertical");
    var ha := if TruthyOpt(h) && h.value.Str? then SkillRegistry.Find(SkillRegistry.ALIGNMENTS, h.value.s) else None;
    var va := if TruthyOpt(v) && v.value.Str? then VerticalEntry(v.value.s) else None;
    (if ha.Some? then [Put("Range.ParagraphFormat.Alignment", TextParagraph.Num(ha.value as real))] else [])
    + (if va.Some? then [Put("VerticalAlignment", TextParagraph.Num(va.value as real))] else [])
  }

  /** A top vertical alignment is written as 0, not dropped, and unlisted names write nothing. */
  lemma CellAlignmentCases(params: Value)
    requires Get(params, "horizontal").None?
    ensures Get(params, "vertical") == Some(Str("top")) ==> CellAlignmentActions(params) == [Put("VerticalAlignment", TextParagraph.Num(0.0))]
    ensures (Get(params, "vertical").Some? && Get(params, "vertical").value.Str?
             && VerticalEntry(Get(params, "vertical").value.s).None?) ==> CellAlignmentActions(params) == []
  {
  }

  /** What `applyFont` writes: the Chinese font to the far-east name, and to the main name only
      when no Western font is given; the Western font to the ASCII and other names; size; bold. */
  function TableFontActions(params: Value): seq<Action>
  {
    var zh := Get(params, "zhFont");
    var en := Get(params, "enFont");
    var size := Get(params, "fontSize");
    var bold := Get(params, "bold");
    (if TruthyOpt(zh) then [Put("Font.NameFarEast", Val(zh.value))] + (if !TruthyOpt(en) then [Put("Font.Name", Val(zh.value))] else []) else [])
    + (if TruthyOpt(en) then [Put("Font.NameAscii", Val(en.value)), Put("Font.NameOther", Val(en.value))] else [])
    + (if size.Some? then [Put("Font.Size", Val(size.value))] else [])
    + (if bold.Some? then [Put("Font.Bold", TextParagraph.Num(if Truthy(bold.value) then -1.0 else 0.0))] else [])
  }

  /** The main font name is written exactly when a Chinese font is given and a Western one is not. */
  lemma TableFontName(params: Value)
    ensures (exists i :: 0 <= i < |TableFontActions(params)| && TableFontActions(params)[i].Put? && TableFontActions(params)[i].prop == "Font.Name")
            <==> TruthyOpt(Get(params, "zhFont")) && !TruthyOpt(Get(params, "enFont"))
  {
    var zh := Get(params, "zhFont");
    var en := Get(params, "enFont");
    var r := TableFontActions(params);
    if TruthyOpt(zh) && !TruthyOpt(en) {
      assert r[1] == Put("Font.Name", Val(zh.value));
    }
  }

  // ---------------------------------------------------------------- borders

  /** WD_BORDER: top, left, bottom, right, inside horizontal, inside vertical. */
  const TOP := -1
  const LEFT := -2
  const BOTTOM := -3
  const RIGHT := -4
  const HORIZONTAL := -5
  const VERTICAL := -6
  const ALL_BORDERS: seq<int> := [TOP, BOTTOM, LEFT, RIGHT, HORIZONTAL, VERTICAL]

  /** WD_LINE_STYLE values the skills use. */
  const NONE := 0
  const SINGLE := 1
  const DASHED := 3

  /** One border's line: style, width and colour. */
  datatype Line = Line(style: int, width: real, color: real)

  /** The first dash style that reads back after it is written. A host that rejects a style
      throws on the write, which skips the read-back, so only an accepted style is kept. */
  function FirstKept(candidates: seq<int>, supported: set<int>): (r: Option<int>)
    ensures r.Some? ==> r.value in candidates && r.value in supported
    ensures r.None? <==> forall i :: 0 <= i < |candidates| ==> candidates[i] !in supported
  {
    if candidates == [] then None
    else if candidates[0] in supported then Some(candidates[0])
    else
      assert forall i :: 0 < i < |candidates| ==> candidates[i] == candidates[1..][i - 1];
      FirstKept(candidates[1..], supported)
  }

  /** The style `setBorderLine` leaves: a dashed request tries 3, 4 and 2 and falls back to single;
      any other request is written, and if the host rejects it, single is tried unless it was none. */
  function BorderStyle(current: int, lineStyle: int, supported: set<int>): int
  {
    if lineStyle == DASHED then
      var kept := FirstKept([DASHED, 4, 2], supported);
      if kept.Some? then kept.value else if SINGLE in supported then SINGLE else current
    else if lineStyle in supported then lineStyle
    else if lineStyle != NONE && SINGLE in supported then SINGLE
    else current
  }

  /** `setBorderLine`'s whole effect on one border: width and a truthy colour are set only when the
      requested style is not none. */
  function BorderLine(line: Line, lineStyle: int, lineWidth: real, color: real, supported: set<int>): Line
  {
    Line(BorderStyle(line.style, lineStyle, supported),
         if lineStyle != NONE then lineWidth else line.width,
         if lineStyle != NONE && color != 0.0 then color else line.color)
  }

  /** The dashed fallback is the ladder 3, else 4, else 2, else single, else the style the border
      already had, each step taken exactly when the host accepts that style. */
  lemma DashedFallback(current: int, supported: set<int>)
    ensures 3 in supported ==> BorderStyle(current, DASHED, supported) == 3
    ensures 3 !in supported && 4 in supported ==> BorderStyle(current, DASHED, supported) == 4
    ensures 3 !in supported && 4 !in supported && 2 in supported ==> BorderStyle(current, DASHED, supported) == 2
    ensures 3 !in supported && 4 !in supported && 2 !in supported && SINGLE in supported ==>
              BorderStyle(current, DASHED, supported) == SINGLE
    ensures 3 !in supported && 4 !in supported && 2 !in supported && SINGLE !in supported ==>
              BorderStyle(current, DASHED, supported) == current
  {
    var cs := [DASHED, 4, 2];
    assert cs[1..] == [4, 2] && [4, 2][1..] == [2] && [2][1..] == [];
    if 3 !in supported {
      assert FirstKept(cs, supported) == FirstKept([4, 2], supported);
      if 4 !in supported {
        assert FirstKept([4, 2], supported) == FirstKept([2], supported);
        if 2 !in supported {
          assert FirstKept([2], supported) == FirstKept([], supported) == None;
        }
      }
    }
  }

  /** A requested none writes no width or colour. */
  lemma NoneKeepsWidth(line: Line, lineWidth: real, color: real, supported: set<int>)
    ensures BorderLine(line, NONE, lineWidth, color, supported).width == line.width
    ensures BorderLine(line, NONE, lineWidth, color, supported).color == line.color
    ensures NONE in supported ==> BorderLine(line, NONE, lineWidth, color, supported).style == NONE
  {
  }

  /** `tryDashed`: write each candidate and read it back, stopping at the first that sticks. */
  method TryDashed(current: int, supported: set<int>) returns (ok: bool, style: int)
    ensures ok <==> FirstKept([DASHED, 4, 2], supported).Some?
    ensures ok ==> style == FirstKept([DASHED, 4, 2], supported).value
    ensures !ok ==> style == current
  {
    var candidates := [DASHED, 4, 2];
    var i := 0;
    style := current;
    while i < |candidates|
      invariant 0 <= i <= |candidates| && style == current
      invariant FirstKept(candidates, supported) == FirstKept(candidates[i..], supported)
      decreases |candidates| - i
    {
      var c := candidates[i];
      // a write the host rejects throws, which skips the read-back and moves on
      if c in supported {
        style := c;
        ok := true;
        return;
      }
      i := i + 1;
    }
    ok := false;
  }

  /** `setBorderLine` on one border, with the host's accepted styles as `supported`. */
  method SetBorderLine(line: Line, lineStyle: int, lineWidth: real, color: real, supported: set<int>) returns (r: Line)
    ensures r == BorderLine(line, lineStyle, lineWidth, color, supported)
  {
    r := line;
    if lineStyle == DASHED {
      var dashedOk, style := TryDashed(line.style, supported);
      if dashedOk {
        r := r.(style := style);
      } else if SINGLE in supported {
        r := r.(style := SINGLE);
      }
    } else {
      if lineStyle in supported {
        r := r.(style := lineStyle);
      } else if lineStyle != NONE && SINGLE in supported {
        r := r.(style := SINGLE);
      }
    }
    if lineStyle != NONE {
      r := r.(width := lineWidth);
      if color != 0.0 {
        r := r.(color := color);
      }
    }
  }

  /** The borders named by `ids`, each replaced by `f` of itself; the others as they were. */
  function Updated(m: map<int, Line>, ids: seq<int>, f: Line -> Line): (r: map<int, Line>)
    requires forall k :: k in ids ==> k in m
    ensures r.Keys == m.Keys
  {
    if ids == [] then m
    else
      var k := ids[0];
      assert k in ids;
      assert forall j :: j in ids[1..] ==> j in ids;
      Updated(m[ids[0] := f(m[ids[0]])], ids[1..], f)
  }

  /** Updating distinct borders applies `f` once to each named one and leaves every other alone. */
  lemma {:induction false} UpdatedAt(m: map<int, Line>, ids: seq<int>, f: Line -> Line, k: int)
    requires forall j :: j in ids ==> j in m
    requires forall i, j :: 0 <= i < j < |ids| ==> ids[i] != ids[j]
    requires k in m
    ensures Updated(m, ids, f)[k] == if k in ids then f(m[k]) else m[k]
  {
    if ids != [] {
      assert ids[0] in m by { assert ids[0] in ids; }
      var m' := m[ids[0] := f(m[ids[0]])];
      assert forall j :: j in ids[1..] ==> j in m';
      UpdatedAt(m', ids[1..], f, k);
      assert k in ids <==> k == ids[0] || k in ids[1..];
    }
  }

  /** `table.borders.set` style names; a falsy or non-string style means `'all'`. */
  function BorderStyleName(style: Option<Value>): string
  {
    if style.Some? && style.value.Str? && style.value.s != "" then style.value.s else "all"
  }

  /** A line set directly to single with a width, and the colour when it is truthy. */
  function Single(width: real, color: real): Line -> Line
  {
    (l: Line) => Line(SINGLE, width, if color != 0.0 then color else l.color)
  }

  /** A line cleared to none. */
  function Cleared(): Line -> Line
  {
    (l: Line) => l.(style := NONE)
  }

  /** The six table borders and the first row's bottom border after `table.borders.set`. */
  function BordersAfter(borders: map<int, Line>, headerRule: Line, rowCount: nat, style: string,
                        width: real, color: real, supported: set<int>): (map<int, Line>, Line)
    requires forall k :: k in ALL_BORDERS ==> k in borders
  {
    if style == "none" then (Updated(borders, ALL_BORDERS, Cleared()), headerRule)
    else if style == "dashed" then
      (Updated(borders, ALL_BORDERS, (l: Line) => BorderLine(l, DASHED, width, color, supported)), headerRule)
    else if style == "three_line" then
      var cleared := Updated(borders, ALL_BORDERS, Cleared());
      (Updated(cleared, [TOP, BOTTOM], Single(12.0, color)),
       if rowCount > 1 then Single(6.0, color)(headerRule) else headerRule)
    else if style == "box" then
      var inner := Updated(borders, [HORIZONTAL, VERTICAL], Cleared());
      (Updated(inner, [TOP, BOTTOM, LEFT, RIGHT], Single(width, color)), headerRule)
    else (Updated(borders, ALL_BORDERS, Single(width, color)), headerRule)
  }

  /** A three-line table has no side or inner lines, a 1.5pt top and bottom, and a 0.75pt rule
      under the first row only when there is more than one row. */
  lemma ThreeLine(borders: map<int, Line>, headerRule: Line, rowCount: nat, width: real, color: real, supported: set<int>)
    requires forall k :: k in ALL_BORDERS ==> k in borders
    ensures var (b, h) := BordersAfter(borders, headerRule, rowCount, "three_line", width, color, supported);
            b[LEFT].style == NONE && b[RIGHT].style == NONE && b[HORIZONTAL].style == NONE && b[VERTICAL].style == NONE
            && b[TOP].style == SINGLE && b[TOP].width == 12.0 && b[BOTTOM].style == SINGLE && b[BOTTOM].width == 12.0
            && (rowCount > 1 ==> h.style == SINGLE && h.width == 6.0)
            && (rowCount <= 1 ==> h == headerRule)
  {
    var cleared := Updated(borders, ALL_BORDERS, Cleared());
    forall k | k in ALL_BORDERS
      ensures cleared[k] == borders[k].(style := NONE)
    {
      UpdatedAt(borders, ALL_BORDERS, Cleared(), k);
    }
    UpdatedAt(cleared, [TOP, BOTTOM], Single(12.0, color), TOP);
    UpdatedAt(cleared, [TOP, BOTTOM], Single(12.0, color), BOTTOM);
    UpdatedAt(cleared, [TOP, BOTTOM], Single(12.0, color), LEFT);
    UpdatedAt(cleared, [TOP, BOTTOM], Single(12.0, color), RIGHT);
    UpdatedAt(cleared, [TOP, BOTTOM], Single(12.0, color), HORIZONTAL);
    UpdatedAt(cleared, [TOP, BOTTOM], Single(12.0, color), VERTICAL);
  }

  /** A box keeps only the four outer lines, single at the given width. */
  lemma Box(borders: map<int, Line>, headerRule: Line, rowCount: nat, width: real, color: real, supported: set<int>)
    requires forall k :: k in ALL_BORDERS ==> k in borders
    ensures var (b, h) := BordersAfter(borders, headerRule, rowCount, "box", width, color, supported);
            b[HORIZONTAL].style == NONE && b[VERTICAL].style == NONE && h == headerRule
            && forall k :: k in [TOP, BOTTOM, LEFT, RIGHT] ==> b[k].style == SINGLE && b[k].width == width
  {
    var inner := Updated(borders, [HORIZONTAL, VERTICAL], Cleared());
    UpdatedAt(borders, [HORIZONTAL, VERTICAL], Cleared(), HORIZONTAL);
    UpdatedAt(borders, [HORIZONTAL, VERTICAL], Cleared(), VERTICAL);
    forall k | k in ALL_BORDERS
      ensures Updated(inner, [TOP, BOTTOM, LEFT, RIGHT], Single(width, color))[k]
              == if k in [TOP, BOTTOM, LEFT, RIGHT] then Single(width, color)(inner[k]) else inner[k]
    {
      UpdatedAt(inner, [TOP, BOTTOM, LEFT, RIGHT], Single(width, color), k);
    }
  }

  /** Dashed borders go through the fallback one by one, each from the style it had. */
  lemma Dashed(borders: map<int, Line>, headerRule: Line, rowCount: nat, width: real, color: real, supported: set<int>, k: int)
    requires forall j :: j in ALL_BORDERS ==> j in borders
    requires k in ALL_BORDERS
    ensures BordersAfter(borders, headerRule, rowCount, "dashed", width, color, supported).0[k].style
            == BorderStyle(borders[k].style, DASHED, supported)
  {
    UpdatedAt(borders, ALL_BORDERS, (l: Line) => BorderLine(l, DASHED, width, color, supported), k);
  }

  /** `table.borders.set`'s loops: each listed border replaced by `f` of itself, in list order. */
  method ApplyEach(m: map<int, Line>, ids: seq<int>, f: Line -> Line) returns (r: map<int, Line>)
    requires forall k :: k in ids ==> k in m
    ensures r == Updated(m, ids, f)
  {
    r := m;
    var i := 0;
    while i < |ids|
      invariant 0 <= i <= |ids|
      invariant forall k :: k in ids[i..] ==> k in r
      invariant Updated(r, ids[i..], f) == Updated(m, ids, f)
      decreases |ids| - i
    {
      assert ids[i..][0] == ids[i] && ids[i..][1..] == ids[i + 1..];
      r := r[ids[i] := f(r[ids[i]])];
      i := i + 1;
    }
  }

  /** The body of `table.borders.set`: one loop over the borders each style names. */
  method SetBorderLines(borders: map<int, Line>, headerRule: Line, rowCount: nat, name: string,
                        width: real, color: real, supported: set<int>) returns (b: map<int, Line>, h: Line)
    requires forall k :: k in ALL_BORDERS ==> k in borders
    ensures (b, h) == BordersAfter(borders, headerRule, rowCount, name, width, color, supported)
  {
    h := headerRule;
    if name == "none" {
      b := ApplyEach(borders, ALL_BORDERS, Cleared());
    } else if name == "dashed" {
      b := ApplyEach(borders, ALL_BORDERS, (l: Line) => BorderLine(l, DASHED, width, color, supported));
    } else if name == "three_line" {
      b := ApplyEach(borders, ALL_BORDERS, Cleared());
      b := ApplyEach(b, [TOP, BOTTOM], Single(12.0, color));
      if rowCount > 1 {
        h := Single(6.0, color)(headerRule);
      }
    } else if name == "box" {
      b := ApplyEach(borders, [HORIZONTAL, VERTICAL], Cleared());
      b := ApplyEach(b, [TOP, BOTTOM, LEFT, RIGHT], Single(width, color));
    } else {
      b := ApplyEach(borders, ALL_BORDERS, Single(width, color));
    }
  }

  // ---------------------------------------------------------------- cells

  /** Which cells a skill touches: one cell when row and column are truthy, one row when only the
      row is, else the whole table. */
  datatype Scope = OneCell(row: int, col: int) | OneRow(row: int) | WholeTable

  function ScopeOf(row: Option<Value>, col: Option<Value>): Scope
  {
    var r := if TruthyOpt(row) && row.value.Num? then row.value.n.Floor else 0;
    var c := if TruthyOpt(col) && col.value.Num? then col.value.n.Floor else 0;
    if TruthyOpt(row) && TruthyOpt(col) then OneCell(r, c)
    else if TruthyOpt(row) then OneRow(r)
    else WholeTable
  }

  /** The cells of row `r`, columns 1..`cols`. */
  function RowCells(r: int, cols: nat): set<(int, int)>
  {
    set c | 1 <= c <= cols :: (r, c)
  }

  /** A shading map with the given cells painted and the rest kept. */
  function Painted(m: map<(int, int), real>, cells: set<(int, int)>, color: real): (r: map<(int, int), real>)
    ensures r.Keys == m.Keys + cells
    ensures forall k :: k in cells ==> r[k] == color
    ensures forall k :: k in m && k !in cells ==> r[k] == m[k]
  {
    map k | k in m.Keys + cells :: if k in cells then color else m[k]
  }

  /** The row loop: paint cells (r, 1) … (r, cols); a row outside the table throws on every cell
      and each throw is caught, so nothing changes. */
  method PaintRow(m: map<(int, int), real>, r: int, rows: nat, cols: nat, color: real) returns (m': map<(int, int), real>)
    ensures 1 <= r <= rows ==> m' == Painted(m, RowCells(r, cols), color)
    ensures !(1 <= r <= rows) ==> m' == m
  {
    m' := m;
    if 1 <= r <= rows {
      var c := 1;
      while c <= cols
        invariant 1 <= c <= cols + 1
        invariant m' == Painted(m, RowCells(r, c - 1), color)
        decreases cols + 1 - c
      {
        assert RowCells(r, c) == RowCells(r, c - 1) + {(r, c)};
        m' := m'[(r, c) := color];
        c := c + 1;
      }
    }
  }

  /** The cells of rows 1..`n`. */
  function TableCells(n: nat, cols: nat): set<(int, int)>
  {
    set r, c | 1 <= r <= n && 1 <= c <= cols :: (r, c)
  }

  lemma TableCellsStep(r: nat, cols: nat)
    requires r >= 1
    ensures TableCells(r, cols) == TableCells(r - 1, cols) + RowCells(r, cols)
  {
  }

  /** Painting two sets of cells in turn is painting their union. */
  lemma PaintMore(m: map<(int, int), real>, a: set<(int, int)>, b: set<(int, int)>, color: real)
    ensures Painted(Painted(m, a, color), b, color) == Painted(m, a + b, color)
  {
  }

  /** The whole-table loop: row by row. */
  method PaintTable(m: map<(int, int), real>, rows: nat, cols: nat, color: real) returns (m': map<(int, int), real>)
    ensures m' == Painted(m, TableCells(rows, cols), color)
  {
    m' := m;
    var r := 1;
    while r <= rows
      invariant 1 <= r <= rows + 1
      invariant m' == Painted(m, TableCells(r - 1, cols), color)
      decreases rows + 1 - r
    {
      m' := PaintRow(m', r, rows, cols, color);
      PaintMore(m, TableCells(r - 1, cols), RowCells(r, cols), color);
      TableCellsStep(r, cols);
      r := r + 1;
    }
  }

  /** A table as the skills see it: a fixed size, the line styles its host accepts, the six
      borders, the first row's bottom border, and each cell's background colour. */
  class Table {
    const rowCount: nat
    const colCount: nat
    const supported: set<int>
    var borders: map<int, Line>
    var headerRule: Line
    var shading: map<(int, int), real>

    ghost predicate Valid()
      reads this
    {
      (forall k :: k in ALL_BORDERS ==> k in borders)
      && forall k :: k in shading ==> 1 <= k.0 <= rowCount && 1 <= k.1 <= colCount
    }

    constructor(rows: nat, cols: nat, supported: set<int>, line: Line)
      ensures Valid() && rowCount == rows && colCount == cols && this.supported == supported
      ensures borders == map k | k in ALL_BORDERS :: line
      ensures headerRule == line && shading == map[]
    {
      rowCount := rows;
      colCount := cols;
      this.supported := supported;
      borders := map k | k in ALL_BORDERS :: line;
      headerRule := line;
      shading := map[];
    }

    /** `table.borders.set` once the table is found; `width` and `color` are already parsed. */
    method SetBorders(style: Option<Value>, width: real, color: real)
      requires Valid()
      modifies this
      ensures Valid() && shading == old(shading)
      ensures (borders, headerRule) == BordersAfter(old(borders), old(headerRule), rowCount, BorderStyleName(style), width, color, supported)
    {
      borders, headerRule := SetBorderLines(borders, headerRule, rowCount, BorderStyleName(style), width, color, supported);
    }

    /** `table.shading.set` once the table is found: a single cell out of range throws, a row out
        of range changes nothing, and otherwise every cell in scope gets the colour. */
    method Shade(scope: Scope, color: real) returns (ok: bool)
      requires Valid()
      modifies this
      ensures Valid() && borders == old(borders) && headerRule == old(headerRule)
      ensures scope.OneCell? ==> (ok <==> 1 <= scope.row <= rowCount && 1 <= scope.col <= colCount)
      ensures scope.OneCell? && ok ==> shading == old(shading)[(scope.row, scope.col) := color]
      ensures !ok ==> shading == old(shading)
      ensures scope.OneRow? ==> ok && shading == (if 1 <= scope.row <= rowCount then Painted(old(shading), RowCells(scope.row, colCount), color) else old(shading))
      ensures scope.WholeTable? ==> ok && shading == Painted(old(shading), TableCells(rowCount, colCount), color)
    {
      ok := true;
      match scope {
        case OneCell(r, c) =>
          if 1 <= r <= rowCount && 1 <= c <= colCount {
            shading := shading[(r, c) := color];
          } else {
            ok := false;
          }
        case OneRow(r) =>
          shading := PaintRow(shading, r, rowCount, colCount, color);
        case WholeTable =>
          shading := PaintTable(shading, rowCount, colCount, color);
      }
    }
  }

  /** Painting a whole table colours exactly its cells and leaves shading outside it as it was. */
  lemma WholeTableShading(m: map<(int, int), real>, rows: nat, cols: nat, color: real, r: int, c: int)
    ensures (r, c) in Painted(m, TableCells(rows, cols), color) <==> (r, c) in m || (1 <= r <= rows && 1 <= c <= cols)
    ensures 1 <= r <= rows && 1 <= c <= cols ==> Painted(m, TableCells(rows, cols), color)[(r, c)] == color
  {
    if 1 <= r <= rows && 1 <= c <= cols {
      assert (r, c) in TableCells(rows, cols);
    }
  }

  // ---------------------------------------------------------------- rows and columns

  /** The rows (or columns) a height (or width) skill writes: the one named when truthy, else all. */
  function Lines(index: Option<Value>, count: nat): (r: seq<int>)
    ensures !TruthyOpt(index) ==> |r| == count && forall k :: 0 <= k < count ==> r[k] == k + 1
    ensures TruthyOpt(index) ==> |r| == 1
  {
    if TruthyOpt(index) then [if index.value.Num? then index.value.n.Floor else 0]
    else PageSection.Upto(count)
  }

  /** `table.header_row.set`: the first row repeats as a heading when `repeat` is truthy. */
  function HeadingFormat(repeat: Option<Value>): (r: int)
    ensures r == -1 <==> TruthyOpt(repeat)
    ensures r == 0 || r == -1
  {
    if TruthyOpt(repeat) then -1 else 0
  }
}
