/**
 * The skill registry: constant lookup tables and the parameter schema of every
 * skill, which the compiler, the validator and the skill layers consult.
 */
module SkillRegistry {
  import opened Wrappers

  /** A parameter schema entry: `{type, required, values?}`. */
  datatype ParamDef = ParamDef(ptype: string, required: bool, values: Option<seq<string>>)

  /**
   * A skill definition as passed to `defineSkill`: `ownId` is an `id` key the
   * definition object itself carries (the spread then overrides the key).
   */
  datatype Definition = Definition(ownId: Option<string>, layer: nat, params: seq<(string, ParamDef)>)

  /** A registry entry; `hasExecute` is whether an `execute` function is attached. */
  datatype Skill = Skill(id: string, layer: nat, params: seq<(string, ParamDef)>, hasExecute: bool)

  function Find<V>(table: seq<(string, V)>, key: string): (r: Option<V>)
    ensures r.Some? <==> exists i :: 0 <= i < |table| && table[i].0 == key
    ensures r.Some? ==> exists i :: 0 <= i < |table| && table[i] == (key, r.value)
  {
    if table == [] then None
    else if table[0].0 == key then Some(table[0].1)
    else
      var r := Find(table[1..], key);
      assert r.Some? ==> table[1..][0].0 == key || exists i :: 1 <= i < |table| && table[i] == (key, r.value) by {
        if r.Some? {
          var i :| 0 <= i < |table[1..]| && table[1..][i] == (key, r.value);
          assert table[i + 1] == (key, r.value);
        }
      }
      r
  }

  function Keys<V>(table: seq<(string, V)>): (r: seq<string>)
    ensures |r| == |table| && forall i :: 0 <= i < |table| ==> r[i] == table[i].0
  {
    if table == [] then [] else [table[0].0] + Keys(table[1..])
  }

  // ---------------------------------------------------------------- tables

  /** Chinese font-size names to points, in the order the table lists them. */
  const CHINESE_FONT_SIZES: seq<(string, real)> := [
    ("初号", 42.0), ("小初", 36.0), ("一号", 26.0), ("小一", 24.0),
    ("二号", 22.0), ("小二", 18.0), ("三号", 16.0), ("小三", 15.0),
    ("四号", 14.0), ("小四", 12.0), ("五号", 10.5), ("小五", 9.0),
    ("六号", 7.5), ("小六", 6.5), ("七号", 5.5), ("八号", 5.0)
  ]

  /** Chinese font names to the API font names. */
  const FONT_NAMES: seq<(string, string)> := [
    ("宋体", "SimSun"), ("黑体", "SimHei"), ("楷体", "KaiTi"), ("仿宋", "FangSong"),
    ("微软雅黑", "Microsoft YaHei"), ("华文中宋", "STZhongsong"), ("华文仿宋", "STFangsong"),
    ("华文楷体", "STKaiti"), ("华文宋体", "STSong"), ("华文细黑", "STXihei"),
    ("等线", "DengXian"), ("新宋体", "NSimSun"), ("方正小标宋", "FZXiaoBiaoSong-B05"),
    ("方正仿宋", "FZFangSong-Z02")
  ]

  /** Paper names to (width, height) in points. */
  const PAPER_SIZES: seq<(string, (real, real))> := [
    ("A3", (841.9, 1190.5)), ("A4", (595.3, 841.9)), ("A5", (419.5, 595.3)),
    ("B5", (498.9, 708.7)), ("Letter", (612.0, 792.0)), ("Legal", (612.0, 1008.0)),
    ("16K", (546.7, 787.4))
  ]

  /** Alignment names to the host's paragraph alignment constants. */
  const ALIGNMENTS: seq<(string, int)> := [("left", 0), ("center", 1), ("right", 2), ("justify", 3)]

  /** Line-spacing modes to the host's line-spacing rule constants. */
  const LINE_SPACING_RULES: seq<(string, int)> := [("multiple", 5), ("exact", 4), ("atLeast", 3)]

  /** Structural roles to the detection skill that finds them. */
  const ROLE_DETECT: seq<(string, string)> := [
    ("title", "detect.title"),
    ("heading_1", "detect.headings"), ("heading_2", "detect.headings"),
    ("heading_3", "detect.headings"), ("heading_4", "detect.headings"),
    ("abstract", "detect.abstract"), ("keywords", "detect.keywords"),
    ("body", "detect.body_paragraphs"), ("figure_caption", "detect.figure_captions"),
    ("table_caption", "detect.table_captions"), ("references", "detect.references"),
    ("acknowledgment", "detect.acknowledgment"), ("toc", "detect.toc_area"),
    ("footnotes", "detect.footnotes")
  ]

  // ---------------------------------------------------------------- schemas

  function Opt(t: string): ParamDef { ParamDef(t, false, None) }
  function Req(t: string): ParamDef { ParamDef(t, true, None) }
  function ReqEnum(values: seq<string>): ParamDef { ParamDef("enum", true, Some(values)) }
  function OptEnum(values: seq<string>): ParamDef { ParamDef("enum", false, Some(values)) }

  function Def(layer: nat, params: seq<(string, ParamDef)>): Definition
  {
    Definition(None, layer, params)
  }

  const TARGET := ("target", Opt("object"))
  const SECTION := ("section", Opt("number"))

  const MARGINS_PARAMS := [SECTION, ("top", Req("number")), ("bottom", Req("number")),
    ("left", Req("number")), ("right", Req("number")), ("gutter", Opt("number"))]
  const CUSTOM_PARAMS := [("code", Req("string")), ("description", Req("string")), TARGET]

  /** Every `defineSkill` call of the registry file, in order. */
  const DEFINITIONS: seq<(string, Definition)> := [
    ("detect.title", Def(1, [])),
    ("detect.headings", Def(1, [("levels", Opt("array"))])),
    ("detect.abstract", Def(1, [])),
    ("detect.keywords", Def(1, [])),
    ("detect.toc_area", Def(1, [])),
    ("detect.body_paragraphs", Def(1, [])),
    ("detect.figure_captions", Def(1, [])),
    ("detect.table_captions", Def(1, [])),
    ("detect.images", Def(1, [])),
    ("detect.tables", Def(1, [])),
    ("detect.references", Def(1, [])),
    ("detect.acknowledgment", Def(1, [])),
    ("detect.footnotes", Def(1, [])),
    ("text.font.set", Def(2, [TARGET, ("zhFont", Opt("string")), ("enFont", Opt("string")),
      ("fontSize", Opt("number")), ("bold", Opt("boolean")), ("italic", Opt("boolean")),
      ("underline", Opt("boolean")), ("color", Opt("string")), ("strikethrough", Opt("boolean"))])),
    ("text.font.set_zh", Def(2, [TARGET, ("fontName", Req("string"))])),
    ("text.font.set_en", Def(2, [TARGET, ("fontName", Req("string"))])),
    ("text.font.set_size", Def(2, [TARGET, ("size", Req("number"))])),
    ("text.font.set_bold", Def(2, [TARGET, ("bold", Req("boolean"))])),
    ("text.font.set_color", Def(2, [TARGET, ("color", Req("string"))])),
    ("text.clear_formatting", Def(2, [TARGET])),
    ("text.superscript", Def(2, [TARGET, ("enabled", Req("boolean"))])),
    ("text.subscript", Def(2, [TARGET, ("enabled", Req("boolean"))])),
    ("text.highlight", Def(2, [TARGET, ("color", Req("string"))])),
    ("paragraph.alignment.set", Def(2, [TARGET, ("alignment", ReqEnum(["left", "center", "right", "justify"]))])),
    ("paragraph.spacing.set", Def(2, [TARGET, ("spaceBefore", Opt("number")), ("spaceAfter", Opt("number"))])),
    ("paragraph.line_spacing.set", Def(2, [TARGET, ("mode", ReqEnum(["multiple", "exact", "atLeast"])),
      ("value", Req("number"))])),
    ("paragraph.indent.set", Def(2, [TARGET, ("firstLineChars", Opt("number")), ("firstLinePoints", Opt("number")),
      ("hanging", Opt("number")), ("left", Opt("number")), ("right", Opt("number"))])),
    ("paragraph.columns.set", Def(2, [TARGET, ("count", Req("number")), ("spacing", Opt("number"))])),
    ("paragraph.borders.set", Def(2, [TARGET, ("borderType", Req("string")), ("lineWidth", Opt("number")),
      ("color", Opt("string"))])),
    ("paragraph.numbering.set", Def(2, [TARGET, ("format", Req("string")), ("startAt", Opt("number"))])),
    ("paragraph.bullets.set", Def(2, [TARGET, ("symbol", Opt("string"))])),
    ("page.margins.set", Def(3, MARGINS_PARAMS)),
    ("page.size.set", Def(3, [SECTION, ("paperSize", ReqEnum(["A3", "A4", "A5", "B5", "Letter", "Legal", "16K"])),
      ("width", Opt("number")), ("height", Opt("number"))])),
    ("page.orientation.set", Def(3, [SECTION, ("orientation", ReqEnum(["portrait", "landscape"]))])),
    ("header.set", Def(3, [SECTION, ("text", Req("string")), ("alignment", OptEnum(["left", "center", "right"])),
      ("fontName", Opt("string")), ("fontSize", Opt("number"))])),
    ("header.clear", Def(3, [SECTION])),
    ("footer.set", Def(3, [SECTION, ("text", Req("string")), ("alignment", OptEnum(["left", "center", "right"])),
      ("fontName", Opt("string")), ("fontSize", Opt("number"))])),
    ("footer.clear", Def(3, [SECTION])),
    ("page_number.set", Def(3, [SECTION, ("format", ReqEnum(["arabic", "roman_lower", "roman_upper"])),
      ("position", ReqEnum(["bottom_left", "bottom_center", "bottom_right", "top_left", "top_center", "top_right"]))])),
    ("page_number.restart", Def(3, [("section", Req("number")), ("startFrom", Req("number")),
      ("format", OptEnum(["arabic", "roman_lower", "roman_upper"]))])),
    ("section.break.insert", Def(3, [("target", Req("object")),
      ("breakType", ReqEnum(["nextPage", "continuous", "evenPage", "oddPage"]))])),
    ("section.page_break_before", Def(3, [("target", Req("object"))])),
    ("section.keep_with_next", Def(3, [("target", Req("object"))])),
    ("custom.execute", Def(6, CUSTOM_PARAMS))
  ]

  // ---------------------------------------------------------------- defineSkill

  /** The entry `defineSkill(id, def)` stores: `{id, ...def}` with `execute: null`. */
  function Entry(id: string, def: Definition): (s: Skill)
    ensures def.ownId.None? ==> s.id == id
    ensures def.ownId.Some? ==> s.id == def.ownId.value
    ensures s.params == def.params && !s.hasExecute
  {
    Skill(def.ownId.GetOr(id), def.layer, def.params, false)
  }

  /** The table after `defineSkill(id, def)`: only the entry under `id` changes. */
  function Define(table: map<string, Skill>, id: string, def: Definition): (t: map<string, Skill>)
    ensures id in t && t[id] == Entry(id, def)
    ensures forall k :: k != id ==> (k in t <==> k in table) && (k in table ==> t[k] == table[k])
  {
    table[id := Entry(id, def)]
  }

  function DefineAll(table: map<string, Skill>, defs: seq<(string, Definition)>): map<string, Skill>
    decreases |defs|
  {
    if defs == [] then table else DefineAll(Define(table, defs[0].0, defs[0].1), defs[1..])
  }

  /** The table once the registry file has run. */
  function Builtin(): map<string, Skill>
  {
    DefineAll(map[], DEFINITIONS)
  }

  /** Every definition of the registry file comes without an `id` of its own. */
  lemma NoOwnIds()
    ensures forall i :: 0 <= i < |DEFINITIONS| ==> DEFINITIONS[i].1.ownId.None?
  {
  }

  /**
   * Folding `defineSkill` over definitions that carry no `id` of their own:
   * the keys are the old keys plus the defined ids, every defined id maps to an
   * entry whose `id` is that key and that has no execute yet, and every other
   * key keeps its old entry.
   */
  lemma {:induction false} DefineAllEntries(table: map<string, Skill>, defs: seq<(string, Definition)>)
    requires forall i :: 0 <= i < |defs| ==> defs[i].1.ownId.None?
    ensures forall k :: k in DefineAll(table, defs) <==> (k in table || k in Keys(defs))
    ensures forall k :: k in Keys(defs) ==>
      (DefineAll(table, defs)[k].id == k && !DefineAll(table, defs)[k].hasExecute)
    ensures forall k :: k in table && k !in Keys(defs) ==> DefineAll(table, defs)[k] == table[k]
    decreases |defs|
  {
    if defs != [] {
      DefineAllEntries(Define(table, defs[0].0, defs[0].1), defs[1..]);
    }
  }

  /** A property of parameter schemas that holds of the old table and of every definition holds of the result. */
  lemma {:induction false} DefineAllKeeps(table: map<string, Skill>, defs: seq<(string, Definition)>,
                                          P: seq<(string, ParamDef)> -> bool)
    requires forall k :: k in table ==> P(table[k].params)
    requires forall i :: 0 <= i < |defs| ==> P(defs[i].1.params)
    ensures forall k :: k in DefineAll(table, defs) ==> P(DefineAll(table, defs)[k].params)
    decreases |defs|
  {
    if defs != [] {
      DefineAllKeeps(Define(table, defs[0].0, defs[0].1), defs[1..], P);
    }
  }

  /** Every skill the registry file defines: the key is the id and no execute is attached yet. */
  lemma BuiltinEntries()
    ensures forall k :: k in Builtin() <==> k in Keys(DEFINITIONS)
    ensures forall k :: k in Builtin() ==> Builtin()[k].id == k && !Builtin()[k].hasExecute
  {
    NoOwnIds();
    DefineAllEntries(map[], DEFINITIONS);
  }

  predicate EnumsListed(params: seq<(string, ParamDef)>)
  {
    forall j :: 0 <= j < |params| && params[j].1.ptype == "enum" ==>
      params[j].1.values.Some? && |params[j].1.values.value| > 0
  }

  /** Every enum parameter of every defined skill has a non-empty list of values. */
  lemma BuiltinEnumsNonEmpty()
    ensures forall k :: k in Builtin() ==> EnumsListed(Builtin()[k].params)
  {
    forall i | 0 <= i < |DEFINITIONS| ensures EnumsListed(DEFINITIONS[i].1.params) {
      EnumsNonEmptyAt(i);
    }
    DefineAllKeeps(map[], DEFINITIONS, EnumsListed);
  }

  lemma EnumsNonEmptyAt(i: nat)
    requires i < |DEFINITIONS|
    ensures EnumsListed(DEFINITIONS[i].1.params)
  {
  }

  /** Later definitions win: the entry under an id is the one from its last `defineSkill`. */
  lemma {:induction false} DefineAllLast(table: map<string, Skill>, defs: seq<(string, Definition)>, i: nat)
    requires i < |defs|
    requires forall j :: i < j < |defs| ==> defs[j].0 != defs[i].0
    ensures defs[i].0 in DefineAll(table, defs)
    ensures DefineAll(table, defs)[defs[i].0] == Entry(defs[i].0, defs[i].1)
    decreases |defs|
  {
    if i == 0 {
      DefineAllUntouched(Define(table, defs[0].0, defs[0].1), defs[1..], defs[0].0);
    } else {
      DefineAllLast(Define(table, defs[0].0, defs[0].1), defs[1..], i - 1);
    }
  }

  lemma {:induction false} DefineAllUntouched(table: map<string, Skill>, defs: seq<(string, Definition)>, k: string)
    requires k in table
    requires forall j :: 0 <= j < |defs| ==> defs[j].0 != k
    ensures k in DefineAll(table, defs) && DefineAll(table, defs)[k] == table[k]
    decreases |defs|
  {
    if defs != [] {
      DefineAllUntouched(Define(table, defs[0].0, defs[0].1), defs[1..], k);
    }
  }

  /** `custom.execute` requires `code` and `description`. */
  lemma CustomExecuteRequires()
    ensures "custom.execute" in Builtin()
    ensures Find(Builtin()["custom.execute"].params, "code") == Some(Req("string"))
    ensures Find(Builtin()["custom.execute"].params, "description") == Some(Req("string"))
  {
    var defs := DEFINITIONS;
    assert defs[43].0 == "custom.execute" && |defs| == 44;
    DefineAllLast(map[], defs, 43);
    assert Builtin()["custom.execute"].params == CUSTOM_PARAMS;
  }

  lemma MarginsDefinedOnce()
    ensures |DEFINITIONS| == 44 && DEFINITIONS[31] == ("page.margins.set", Def(3, MARGINS_PARAMS))
    ensures forall j :: 31 < j < |DEFINITIONS| ==> DEFINITIONS[j].0 != "page.margins.set"
  {
  }

  /** Find returns the value of the first entry carrying the key. */
  lemma {:induction false} FindFirst<V>(table: seq<(string, V)>, key: string, i: nat)
    requires i < |table| && table[i].0 == key
    requires forall j :: 0 <= j < i ==> table[j].0 != key
    ensures Find(table, key) == Some(table[i].1)
  {
    if i > 0 {
      FindFirst(table[1..], key, i - 1);
    }
  }

  lemma MarginsParamsRequired()
    ensures forall side :: side in ["top", "bottom", "left", "right"] ==> Find(MARGINS_PARAMS, side) == Some(Req("number"))
  {
    var p := MARGINS_PARAMS;
    assert p[0].0 == "section" && p[1].0 == "top" && p[2].0 == "bottom" && p[3].0 == "left" && p[4].0 == "right";
    assert p[1].1 == p[2].1 == p[3].1 == p[4].1 == Req("number");
    forall side | side in ["top", "bottom", "left", "right"]
      ensures Find(p, side) == Some(Req("number"))
    {
      if side == "top" {
        MarginSide(side, 1);
      } else if side == "bottom" {
        MarginSide(side, 2);
      } else if side == "left" {
        MarginSide(side, 3);
      } else {
        MarginSide(side, 4);
      }
    }
  }

  /** The margin entry at `i` is the first one carrying its name. */
  lemma MarginSide(side: string, i: nat)
    requires 1 <= i <= 4 && MARGINS_PARAMS[i].0 == side
    requires forall j :: 0 <= j < i ==> MARGINS_PARAMS[j].0[0] != side[0]
    ensures Find(MARGINS_PARAMS, side) == Some(MARGINS_PARAMS[i].1)
  {
    FindFirst(MARGINS_PARAMS, side, i);
  }

  /** `page.margins.set` requires all four margins. */
  lemma MarginsRequire()
    ensures "page.margins.set" in Builtin()
    ensures forall side :: side in ["top", "bottom", "left", "right"] ==>
      Find(Builtin()["page.margins.set"].params, side) == Some(Req("number"))
  {
    MarginsDefinedOnce();
    DefineAllLast(map[], DEFINITIONS, 31);
    MarginsParamsRequired();
  }

  // ---------------------------------------------------------------- table lemmas

  /** ALIGNMENT_MAP is one-to-one from the four names onto 0..3. */
  lemma AlignmentBijective()
    ensures Keys(ALIGNMENTS) == ["left", "center", "right", "justify"]
    ensures forall i :: 0 <= i < 4 ==> Find(ALIGNMENTS, Keys(ALIGNMENTS)[i]) == Some(i)
    ensures forall a, b :: a in Keys(ALIGNMENTS) && b in Keys(ALIGNMENTS) && a != b ==>
      Find(ALIGNMENTS, a) != Find(ALIGNMENTS, b)
  {
  }

  /** LINE_SPACING_RULE_MAP: multiple, exact, atLeast to 5, 4, 3. */
  lemma LineSpacingRules()
    ensures Find(LINE_SPACING_RULES, "multiple") == Some(5)
    ensures Find(LINE_SPACING_RULES, "exact") == Some(4)
    ensures Find(LINE_SPACING_RULES, "atLeast") == Some(3)
    ensures |LINE_SPACING_RULES| == 3
  {
  }

  /** CHINESE_FONT_SIZE_MAP: 16 names, sizes strictly decreasing from 42 down to 5. */
  lemma FontSizesDecreasing()
    ensures |CHINESE_FONT_SIZES| == 16
    ensures CHINESE_FONT_SIZES[0].1 == 42.0 && CHINESE_FONT_SIZES[15].1 == 5.0
    ensures forall i, j :: 0 <= i < j < 16 ==> CHINESE_FONT_SIZES[i].1 > CHINESE_FONT_SIZES[j].1
  {
  }

  /**
   * ROLE_DETECT_MAP: 14 distinct roles, each finding its own detection
   * skill, and the heading roles all share `detect.headings`.
   */
  lemma RoleDetectCoverage()
    ensures |ROLE_DETECT| == 14
    ensures forall i, j :: 0 <= i < j < |ROLE_DETECT| ==> ROLE_DETECT[i].0 != ROLE_DETECT[j].0
    ensures forall k :: 0 <= k < |ROLE_DETECT| ==> Find(ROLE_DETECT, ROLE_DETECT[k].0) == Some(ROLE_DETECT[k].1)
  {
    RoleDetectDistinct();
    forall k | 0 <= k < |ROLE_DETECT| ensures Find(ROLE_DETECT, ROLE_DETECT[k].0) == Some(ROLE_DETECT[k].1) {
      DistinctKeysFind(ROLE_DETECT, k);
    }
  }

  /** The four heading roles sit at positions 1 to 4 and share `detect.headings`. */
  lemma RoleDetectHeadings()
    ensures ROLE_DETECT[1] == ("heading_1", "detect.headings") && ROLE_DETECT[2] == ("heading_2", "detect.headings")
    ensures ROLE_DETECT[3] == ("heading_3", "detect.headings") && ROLE_DETECT[4] == ("heading_4", "detect.headings")
  {
  }

  lemma RoleDetectDistinct()
    ensures forall i, j :: 0 <= i < j < |ROLE_DETECT| ==> ROLE_DETECT[i].0 != ROLE_DETECT[j].0
  {
  }

  /** In a table without repeated keys, every entry is what its key finds. */
  lemma DistinctKeysFind<V>(table: seq<(string, V)>, i: nat)
    requires i < |table|
    requires forall a, b :: 0 <= a < b < |table| ==> table[a].0 != table[b].0
    ensures Find(table, table[i].0) == Some(table[i].1)
  {
    FindFirst(table, table[i].0, i);
  }

  // ---------------------------------------------------------------- the live table

  /**
   * The mutable `skills` table. The registry file fills it; the skill layers
   * later attach `execute` functions or store whole entries of their own.
   */
  class Registry {
    var skills: map<string, Skill>

    constructor ()
      ensures skills == Builtin()
    {
      skills := Builtin();
    }

    /** `defineSkill(id, def)`. */
    method DefineSkill(id: string, def: Definition)
      modifies this
      ensures skills == Define(old(skills), id, def)
    {
      skills := skills[id := Entry(id, def)];
    }

    /**
     * `registry.skills[id].execute = fn`: a missing entry makes the
     * assignment throw, reported here as `false`.
     */
    method AttachExecute(id: string) returns (ok: bool)
      modifies this
      ensures ok == (id in old(skills))
      ensures ok ==> skills == old(skills)[id := old(skills)[id].(hasExecute := true)]
      ensures !ok ==> skills == old(skills)
    {
      ok := id in skills;
      if ok {
        skills := skills[id := skills[id].(hasExecute := true)];
      }
    }

    /** `registry.skills[id] = {...}`: a whole entry stored by a skill layer. */
    method Register(id: string, entry: Skill)
      modifies this
      ensures skills == old(skills)[id := entry]
    {
      skills := skills[id := entry];
    }
  }
}
