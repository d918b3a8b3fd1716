/**
 * The validator: five phases over the compiled commands (structure,
 * semantics, custom-code safety, fallback policy, feasibility). Validation
 * stops after the first phase that reports an error; warnings accumulate
 * over the phases reached.
 *
 * The registry's skill table and the document host are inputs: `skills` is
 * None when no registry is loaded, `host` None when the host application is
 * absent or cannot be reached.
 */
module FormatValidator {
  import opened Wrappers
  import opened Text
  import opened JsonValue
  import opened FormatCompiler
  import SkillRegistry

  /** What one phase reports for one command, or for all of them. */
  datatype Findings = Findings(errors: seq<Issue>, warnings: seq<Issue>)

  const NONE := Findings([], [])

  function ErrorIssue(code: string, i: nat): Issue
  {
    Issue(Some("error"), code, Some(i), None, None, None, None)
  }

  function WarningIssue(code: string, i: nat): Issue
  {
    Issue(Some("warning"), code, Some(i), None, None, None, None)
  }

  /** The findings for the first `n` commands, in command order (the body of each phase loop). */
  function Gather(f: (Command, nat) -> Findings, cmds: seq<Command>, n: nat): Findings
    requires n <= |cmds|
  {
    if n == 0 then NONE
    else
      var before := Gather(f, cmds, n - 1);
      var here := f(cmds[n - 1], n - 1);
      Findings(before.errors + here.errors, before.warnings + here.warnings)
  }

  /** An issue is gathered exactly when one of the first `n` commands reports it. */
  lemma {:induction false} GatherMembers(f: (Command, nat) -> Findings, cmds: seq<Command>, n: nat, x: Issue)
    requires n <= |cmds|
    ensures x in Gather(f, cmds, n).errors <==> exists k :: 0 <= k < n && x in f(cmds[k], k).errors
    ensures x in Gather(f, cmds, n).warnings <==> exists k :: 0 <= k < n && x in f(cmds[k], k).warnings
  {
    if n > 0 {
      GatherMembers(f, cmds, n - 1, x);
    }
  }

  // ---------------------------------------------------------------- phase 1: structure

  predicate HasStringSkill(c: Command)
  {
    TruthyOpt(c.skill) && c.skill.value.Str?
  }

  /** `!cmd.params || typeof cmd.params !== 'object'`. */
  predicate ParamsMissing(c: Command)
  {
    !Truthy(c.params) || !IsObjectLike(c.params)
  }

  function StructureOf(c: Command, i: nat): (r: Findings)
    ensures r.warnings == []
  {
    Findings(
      (if !HasStringSkill(c) then [ErrorIssue("MISSING_SKILL", i)] else []) +
      (if ParamsMissing(c) then [ErrorIssue("MISSING_PARAMS", i)] else []),
      [])
  }

  /** `_validateStructure`. */
  method ValidateStructure(cmds: seq<Command>) returns (errors: seq<Issue>)
    ensures errors == Gather(StructureOf, cmds, |cmds|).errors
  {
    errors := [];
    if |cmds| == 0 {
      return;
    }
    var i := 0;
    while i < |cmds|
      invariant i <= |cmds|
      invariant errors == Gather(StructureOf, cmds, i).errors
    {
      var c := cmds[i];
      if !HasStringSkill(c) {
        errors := errors + [ErrorIssue("MISSING_SKILL", i)];
      }
      if ParamsMissing(c) {
        errors := errors + [ErrorIssue("MISSING_PARAMS", i)];
      }
      i := i + 1;
    }
  }

  /** The structure phase flags command `i` exactly when its skill or its params are missing. */
  lemma StructureFlags(cmds: seq<Command>, i: nat)
    requires i < |cmds|
    ensures ErrorIssue("MISSING_SKILL", i) in Gather(StructureOf, cmds, |cmds|).errors <==> !HasStringSkill(cmds[i])
    ensures ErrorIssue("MISSING_PARAMS", i) in Gather(StructureOf, cmds, |cmds|).errors <==> ParamsMissing(cmds[i])
  {
    GatherMembers(StructureOf, cmds, |cmds|, ErrorIssue("MISSING_SKILL", i));
    GatherMembers(StructureOf, cmds, |cmds|, ErrorIssue("MISSING_PARAMS", i));
    forall k | 0 <= k < |cmds|
      ensures ErrorIssue("MISSING_SKILL", i) in StructureOf(cmds[k], k).errors <==> k == i && !HasStringSkill(cmds[i])
      ensures ErrorIssue("MISSING_PARAMS", i) in StructureOf(cmds[k], k).errors <==> k == i && ParamsMissing(cmds[i])
    {
      StructureAt(cmds[k], k, i);
    }
  }

  lemma StructureAt(c: Command, k: nat, i: nat)
    ensures ErrorIssue("MISSING_SKILL", i) in StructureOf(c, k).errors <==> k == i && !HasStringSkill(c)
    ensures ErrorIssue("MISSING_PARAMS", i) in StructureOf(c, k).errors <==> k == i && ParamsMissing(c)
  {
    var a := if !HasStringSkill(c) then [ErrorIssue("MISSING_SKILL", k)] else [];
    var b := if ParamsMissing(c) then [ErrorIssue("MISSING_PARAMS", k)] else [];
    assert StructureOf(c, k).errors == a + b;
  }

  /** Structure checks report errors only. */
  lemma {:induction false} StructureWarnsNothing(cmds: seq<Command>, n: nat)
    requires n <= |cmds|
    ensures Gather(StructureOf, cmds, n).warnings == []
  {
    if n > 0 {
      StructureWarnsNothing(cmds, n - 1);
    }
  }

  // ---------------------------------------------------------------- phase 2: semantics

  const VALID_TARGET_TYPES: seq<string> := [
    "selection", "document", "all_paragraphs", "paragraph_index", "paragraph_range",
    "search", "heading_level", "role", "section_index", "table_index"
  ]

  predicate IsTargetType(t: Value, ty: string)
  {
    Get(t, "type") == Some(Str(ty))
  }

  /** `_validateTarget`: at most one error, an unknown type excluding the field checks. */
  function TargetIssues(t: Value, i: nat): (r: seq<Issue>)
    ensures |r| <= 1
    ensures forall x :: x in r ==> x == ErrorIssue("INVALID_TARGET", i) || x == ErrorIssue("MISSING_TARGET_PARAM", i)
    ensures r == [ErrorIssue("INVALID_TARGET", i)] <==>
      !(TruthyOpt(Get(t, "type")) && Get(t, "type").value.Str? && Get(t, "type").value.s in VALID_TARGET_TYPES)
    ensures r == [ErrorIssue("MISSING_TARGET_PARAM", i)] <==>
      ((IsTargetType(t, "paragraph_index") && !TruthyOpt(Get(t, "index"))) ||
       (IsTargetType(t, "paragraph_range") && (!TruthyOpt(Get(t, "from")) || !TruthyOpt(Get(t, "to")))) ||
       (IsTargetType(t, "search") && !TruthyOpt(Get(t, "text"))) ||
       (IsTargetType(t, "role") && !TruthyOpt(Get(t, "role"))))
  {
    var ty := Get(t, "type");
    if !TruthyOpt(ty) || !ty.value.Str? || ty.value.s !in VALID_TARGET_TYPES then [ErrorIssue("INVALID_TARGET", i)]
    else if ty.value.s == "paragraph_index" && !TruthyOpt(Get(t, "index")) then [ErrorIssue("MISSING_TARGET_PARAM", i)]
    else if ty.value.s == "paragraph_range" && (!TruthyOpt(Get(t, "from")) || !TruthyOpt(Get(t, "to"))) then [ErrorIssue("MISSING_TARGET_PARAM", i)]
    else if ty.value.s == "search" && !TruthyOpt(Get(t, "text")) then [ErrorIssue("MISSING_TARGET_PARAM", i)]
    else if ty.value.s == "role" && !TruthyOpt(Get(t, "role")) then [ErrorIssue("MISSING_TARGET_PARAM", i)]
    else []
  }

  function MissingParam(i: nat, key: string): Issue
  {
    Issue(Some("error"), "MISSING_PARAM", Some(i), Some(key), None, None, None)
  }

  function InvalidEnum(i: nat, key: string): Issue
  {
    Issue(Some("error"), "INVALID_ENUM", Some(i), Some(key), None, None, None)
  }

  /** The required-parameter loop: one MISSING_PARAM per required schema key absent from `params`. */
  function MissingParams(schema: seq<(string, SkillRegistry.ParamDef)>, params: Value, i: nat): (r: seq<Issue>)
    ensures forall k :: 0 <= k < |schema| && schema[k].1.required && !Has(params, schema[k].0) ==> MissingParam(i, schema[k].0) in r
    ensures forall x :: x in r ==> exists k :: 0 <= k < |schema| && schema[k].1.required && !Has(params, schema[k].0) && x == MissingParam(i, schema[k].0)
  {
    if schema == [] then []
    else
      var rest := MissingParams(schema[1..], params, i);
      assert forall k :: 1 <= k < |schema| ==> schema[k] == schema[1..][k - 1];
      (if schema[0].1.required && !Has(params, schema[0].0) then [MissingParam(i, schema[0].0)] else []) + rest
  }

  /** A present parameter whose schema is an enum with a values list must hold one of the listed strings. */
  predicate EnumViolation(schema: seq<(string, SkillRegistry.ParamDef)>, key: string, v: Value)
  {
    match SkillRegistry.Find(schema, key)
    case None => false
    case Some(d) => d.ptype == "enum" && d.values.Some? && !(v.Str? && v.s in d.values.value)
  }

  /** The enum loop over the command's own parameters, in key order. */
  function InvalidEnums(schema: seq<(string, SkillRegistry.ParamDef)>, fields: seq<(string, Value)>, i: nat): (r: seq<Issue>)
    ensures forall k :: 0 <= k < |fields| && EnumViolation(schema, fields[k].0, fields[k].1) ==> InvalidEnum(i, fields[k].0) in r
    ensures forall x :: x in r ==> exists k :: 0 <= k < |fields| && EnumViolation(schema, fields[k].0, fields[k].1) && x == InvalidEnum(i, fields[k].0)
  {
    if fields == [] then []
    else
      var rest := InvalidEnums(schema, fields[1..], i);
      assert forall k :: 1 <= k < |fields| ==> fields[k] == fields[1..][k - 1];
      (if EnumViolation(schema, fields[0].0, fields[0].1) then [InvalidEnum(i, fields[0].0)] else []) + rest
  }

  /** `fontSize`/`size` present, truthy and outside [5, 96] under JavaScript comparison. */
  predicate UnusualSize(params: Value, key: string)
  {
    TruthyOpt(Get(params, key)) && (LessThan(Get(params, key), 5.0) || GreaterThan(Get(params, key), 96.0))
  }

  /** The skill a command names in the registry, if any; only a string names one. */
  function SkillOf(c: Command, skills: map<string, SkillRegistry.Skill>): Option<SkillRegistry.Skill>
  {
    if c.skill.Some? && c.skill.value.Str? && c.skill.value.s in skills then Some(skills[c.skill.value.s]) else None
  }

  /** The body of the semantic loop for command `c` at position `i`. */
  function SemanticsOf(skills: map<string, SkillRegistry.Skill>, c: Command, i: nat): Findings
  {
    match SkillOf(c, skills)
    case None => Findings([ErrorIssue("UNKNOWN_SKILL", i)], [])
    case Some(def) =>
      var missing := MissingParams(def.params, c.params, i);
      var enums := if Truthy(c.params) && c.params.Obj? then InvalidEnums(def.params, c.params.fields, i) else [];
      var target := Get(c.params, "target");
      var targetIssues := if Truthy(c.params) && TruthyOpt(target) then TargetIssues(target.value, i) else [];
      var warnings :=
        (if Truthy(c.params) && UnusualSize(c.params, "fontSize") then [WarningIssue("UNUSUAL_VALUE", i)] else []) +
        (if Truthy(c.params) && UnusualSize(c.params, "size") then [WarningIssue("UNUSUAL_VALUE", i)] else []);
      Findings(missing + enums + targetIssues, warnings)
  }

  function SemanticsFor(skills: map<string, SkillRegistry.Skill>): (Command, nat) -> Findings
  {
    (c: Command, i: nat) => SemanticsOf(skills, c, i)
  }

  /** `_validateSemantics`; without a registry it reports nothing. */
  method ValidateSemantics(cmds: seq<Command>, skills: Option<map<string, SkillRegistry.Skill>>) returns (f: Findings)
    ensures skills.None? ==> f == NONE
    ensures skills.Some? ==> f == Gather(SemanticsFor(skills.value), cmds, |cmds|)
  {
    if skills.None? {
      return NONE;
    }
    var errors := [];
    var warnings := [];
    var i := 0;
    while i < |cmds|
      invariant i <= |cmds|
      invariant Findings(errors, warnings) == Gather(SemanticsFor(skills.value), cmds, i)
    {
      var here := SemanticsOf(skills.value, cmds[i], i);
      errors := errors + here.errors;
      warnings := warnings + here.warnings;
      i := i + 1;
    }
    return Findings(errors, warnings);
  }

  /** An unknown skill yields exactly one UNKNOWN_SKILL and no other semantic finding for that command. */
  lemma UnknownSkillOnly(skills: map<string, SkillRegistry.Skill>, c: Command, i: nat)
    requires !(c.skill.Some? && c.skill.value.Str? && c.skill.value.s in skills)
    ensures SemanticsOf(skills, c, i) == Findings([ErrorIssue("UNKNOWN_SKILL", i)], [])
  {
  }

  /**
   * For a known skill: MISSING_PARAM names exactly the required schema keys
   * absent from params, INVALID_ENUM exactly the present keys holding an
   * unlisted enum value, and an out-of-range size is only ever a warning.
   */
  lemma KnownSkillChecks(skills: map<string, SkillRegistry.Skill>, c: Command, i: nat, key: string)
    requires c.skill.Some? && c.skill.value.Str? && c.skill.value.s in skills
    requires c.params.Obj?
    ensures var def := skills[c.skill.value.s];
      (MissingParam(i, key) in SemanticsOf(skills, c, i).errors <==>
        exists k :: 0 <= k < |def.params| && def.params[k].0 == key && def.params[k].1.required && !Has(c.params, key))
    ensures var def := skills[c.skill.value.s];
      (InvalidEnum(i, key) in SemanticsOf(skills, c, i).errors <==>
        exists k :: 0 <= k < |c.params.fields| && c.params.fields[k].0 == key && EnumViolation(def.params, key, c.params.fields[k].1))
    ensures forall x :: x in SemanticsOf(skills, c, i).warnings ==> x == WarningIssue("UNUSUAL_VALUE", i)
  {
    var def := skills[c.skill.value.s];
    KnownSkillErrors(skills, c, i);
    KnownSkillWarnings(skills, c, i);
    var missing := MissingParams(def.params, c.params, i);
    var enums := InvalidEnums(def.params, c.params.fields, i);
    var target := Get(c.params, "target");
    var targetIssues := if TruthyOpt(target) then TargetIssues(target.value, i) else [];
    assert forall x :: x in targetIssues ==> x.code == "INVALID_TARGET" || x.code == "MISSING_TARGET_PARAM";
    MissingParamsIff(def.params, c.params, i, key);
    InvalidEnumsIff(def.params, c.params.fields, i, key);
  }

  /** The required-parameter loop reports `key` exactly when the schema requires it and it is absent. */
  lemma MissingParamsIff(schema: seq<(string, SkillRegistry.ParamDef)>, params: Value, i: nat, key: string)
    ensures forall x :: x in MissingParams(schema, params, i) ==> x.code == "MISSING_PARAM"
    ensures MissingParam(i, key) in MissingParams(schema, params, i) <==>
      exists k :: 0 <= k < |schema| && schema[k].0 == key && schema[k].1.required && !Has(params, key)
  {
  }

  /** The enum loop reports `key` exactly when a present field of that name holds an unlisted value. */
  lemma InvalidEnumsIff(schema: seq<(string, SkillRegistry.ParamDef)>, fields: seq<(string, Value)>, i: nat, key: string)
    ensures forall x :: x in InvalidEnums(schema, fields, i) ==> x.code == "INVALID_ENUM"
    ensures InvalidEnum(i, key) in InvalidEnums(schema, fields, i) <==>
      exists k :: 0 <= k < |fields| && fields[k].0 == key && EnumViolation(schema, key, fields[k].1)
  {
  }

  /** A known skill's errors: the missing parameters, the invalid enums, then the target check. */
  lemma KnownSkillErrors(skills: map<string, SkillRegistry.Skill>, c: Command, i: nat)
    requires c.skill.Some? && c.skill.value.Str? && c.skill.value.s in skills
    requires c.params.Obj?
    ensures var def := skills[c.skill.value.s];
      var target := Get(c.params, "target");
      SemanticsOf(skills, c, i).errors == MissingParams(def.params, c.params, i) + InvalidEnums(def.params, c.params.fields, i)
        + (if TruthyOpt(target) then TargetIssues(target.value, i) else [])
  {
  }

  /** A known skill's only warnings are UNUSUAL_VALUE. */
  lemma KnownSkillWarnings(skills: map<string, SkillRegistry.Skill>, c: Command, i: nat)
    requires c.skill.Some? && c.skill.value.Str? && c.skill.value.s in skills
    ensures forall x :: x in SemanticsOf(skills, c, i).warnings ==> x == WarningIssue("UNUSUAL_VALUE", i)
  {
  }

  // ---------------------------------------------------------------- phase 2.5: custom-code safety

  const BANNED_APIS: seq<string> := [
    "fetch", "XMLHttpRequest", "eval", "require", "import",
    "process", "setTimeout", "setInterval", "Function(",
    "WebSocket", "ActiveXObject", "localStorage", "document.cookie"
  ]

  const MAX_CODE_LENGTH := 2000

  /** `code.replace(/skills\.\w+/g, 'SKILLS_CALL')`: every skill-helper call is masked before the scan. */
  function MaskSkillsCalls(code: string): string
    decreases |code|
  {
    if code == [] then []
    else if StartsWith(code, "skills.") && |code| > 7 && IsWordChar(code[7]) then
      "SKILLS_CALL" + MaskSkillsCalls(code[7 + WordRun(code, 7)..])
    else [code[0]] + MaskSkillsCalls(code[1..])
  }

  /** Code that never mentions `skills.` is scanned as written. */
  lemma {:induction false} MaskWithoutSkillsCalls(code: string)
    requires forall i :: !OccursAt(code, "skills.", i)
    ensures MaskSkillsCalls(code) == code
    decreases |code|
  {
    if code != [] {
      assert !OccursAt(code, "skills.", 0);
      forall i: nat ensures !OccursAt(code[1..], "skills.", i) {
        assert !OccursAt(code, "skills.", i + 1);
        if i + 8 <= |code| {
          assert code[i + 1..i + 8] == code[1..][i..i + 7];
        }
      }
      MaskWithoutSkillsCalls(code[1..]);
    }
  }

  /** A helper call `skills.<word>` followed by a non-word character is masked as a whole. */
  lemma SkillsCallMasked(w: string, tail: string)
    requires |w| > 0 && forall k :: 0 <= k < |w| ==> IsWordChar(w[k])
    requires tail == [] || !IsWordChar(tail[0])
    ensures MaskSkillsCalls("skills." + w + tail) == "SKILLS_CALL" + MaskSkillsCalls(tail)
  {
    var code := "skills." + w + tail;
    assert code[7] == w[0];
    assert WordRun(code, 7) == |w| by {
      WordRunOver(code, 7, |w|);
    }
    assert code[7 + |w|..] == tail;
  }

  lemma {:induction false} WordRunOver(s: string, i: nat, n: nat)
    requires i + n <= |s|
    requires forall k :: i <= k < i + n ==> IsWordChar(s[k])
    requires i + n == |s| || !IsWordChar(s[i + n])
    ensures WordRun(s, i) == n
    decreases n
  {
    if n > 0 {
      WordRunOver(s, i + 1, n - 1);
    }
  }

  function UnsafeCode(i: nat, api: string): Issue
  {
    Issue(Some("error"), "UNSAFE_CODE", Some(i), None, Some(api), None, None)
  }

  /** The banned-API loop: one UNSAFE_CODE per listed API found in the masked code, in list order. */
  function BannedFound(masked: string, apis: seq<string>, i: nat): (r: seq<Issue>)
    ensures |r| <= |apis|
  {
    if apis == [] then []
    else (if Contains(masked, apis[0]) then [UnsafeCode(i, apis[0])] else []) + BannedFound(masked, apis[1..], i)
  }

  /** An API is reported exactly when it is listed and occurs in the masked code; nothing else is reported. */
  lemma {:induction false} BannedFoundMembers(masked: string, apis: seq<string>, i: nat, api: string)
    ensures UnsafeCode(i, api) in BannedFound(masked, apis, i) <==> api in apis && Contains(masked, api)
    ensures forall x :: x in BannedFound(masked, apis, i) ==> x.code == "UNSAFE_CODE" && x.bannedApi.Some? && x.bannedApi.value in apis
  {
    if apis != [] {
      BannedFoundMembers(masked, apis[1..], i, api);
      assert apis == [apis[0]] + apis[1..];
    }
  }

  /** The `code` parameter as a non-empty string, or None (MISSING_CODE). */
  function CodeOf(c: Command): Option<string>
  {
    if !Truthy(c.params) then None
    else match Get(c.params, "code")
      case Some(Str(x)) => if x != "" then Some(x) else None
      case _ => None
  }

  predicate IsCustomExecute(c: Command)
  {
    c.skill == Some(Str("custom.execute"))
  }

  /** The body of the safety loop for command `c` at position `i`. */
  function SafetyOf(c: Command, i: nat): Findings
  {
    if !IsCustomExecute(c) then NONE
    else match CodeOf(c)
      case None => Findings([ErrorIssue("MISSING_CODE", i)], [])
      case Some(code) =>
        if |code| > MAX_CODE_LENGTH then Findings([ErrorIssue("CODE_TOO_LONG", i)], [])
        else Findings(BannedFound(MaskSkillsCalls(code), BANNED_APIS, i), [WarningIssue("CUSTOM_CODE", i)])
  }

  /** The banned-API scan of one masked code string. */
  method ScanBannedApis(masked: string, apis: seq<string>, i: nat) returns (unsafe: seq<Issue>)
    ensures unsafe == BannedFound(masked, apis, i)
  {
    unsafe := [];
    var b := 0;
    while b < |apis|
      invariant b <= |apis|
      invariant unsafe + BannedFound(masked, apis[b..], i) == BannedFound(masked, apis, i)
    {
      assert apis[b..][1..] == apis[b + 1..];
      if Contains(masked, apis[b]) {
        unsafe := unsafe + [UnsafeCode(i, apis[b])];
      }
      b := b + 1;
    }
    assert apis[b..] == [];
  }

  /** `_validateCustomCodeSafety`. */
  method ValidateCustomCodeSafety(cmds: seq<Command>) returns (f: Findings)
    ensures f == Gather(SafetyOf, cmds, |cmds|)
  {
    var errors := [];
    var warnings := [];
    var i := 0;
    while i < |cmds|
      invariant i <= |cmds|
      invariant Findings(errors, warnings) == Gather(SafetyOf, cmds, i)
    {
      var c := cmds[i];
      if IsCustomExecute(c) {
        var code := CodeOf(c);
        if code.None? {
          errors := errors + [ErrorIssue("MISSING_CODE", i)];
        } else if |code.value| > MAX_CODE_LENGTH {
          errors := errors + [ErrorIssue("CODE_TOO_LONG", i)];
        } else {
          var unsafe := ScanBannedApis(MaskSkillsCalls(code.value), BANNED_APIS, i);
          errors := errors + unsafe;
          warnings := warnings + [WarningIssue("CUSTOM_CODE", i)];
        }
      }
      i := i + 1;
    }
    return Findings(errors, warnings);
  }

  /**
   * Safety for a `custom.execute` with usable code: one UNSAFE_CODE per banned
   * API found after masking, and always the CUSTOM_CODE reminder.
   */
  lemma SafetyOfUsableCode(c: Command, i: nat, api: string)
    requires IsCustomExecute(c) && CodeOf(c).Some? && |CodeOf(c).value| <= MAX_CODE_LENGTH
    ensures UnsafeCode(i, api) in SafetyOf(c, i).errors <==> api in BANNED_APIS && Contains(MaskSkillsCalls(CodeOf(c).value), api)
    ensures SafetyOf(c, i).warnings == [WarningIssue("CUSTOM_CODE", i)]
  {
    BannedFoundMembers(MaskSkillsCalls(CodeOf(c).value), BANNED_APIS, i, api);
  }

  /** Code with `fetch(` and no helper call is rejected with `bannedApi` "fetch". */
  lemma FetchOutsideHelperRejected(c: Command, i: nat)
    requires IsCustomExecute(c) && CodeOf(c).Some? && |CodeOf(c).value| <= MAX_CODE_LENGTH
    requires Contains(CodeOf(c).value, "fetch(") && forall k :: !OccursAt(CodeOf(c).value, "skills.", k)
    ensures UnsafeCode(i, "fetch") in SafetyOf(c, i).errors
  {
    var code := CodeOf(c).value;
    MaskWithoutSkillsCalls(code);
    var k := IndexOf(code, "fetch(").value;
    assert code[k..k + 5] == code[k..k + 6][..5];
    assert OccursAt(code, "fetch", k);
    assert BANNED_APIS[0] == "fetch";
    BannedFoundMembers(code, BANNED_APIS, i, "fetch");
  }

  // ---------------------------------------------------------------- phase 2.6: fallback policy

  const BUILTIN_REFERENCES: seq<string> := ["内置技能", "table.", "text.", "paragraph.", "page.", "style.", "toc.", "watermark."]
  const LIMITATIONS: seq<string> := ["不支持", "无法", "不能", "受限", "缺少", "暂无", "覆盖不了", "无法表达"]

  /** `_hasExplicitFallbackReason`: the description names a built-in category and a limitation. */
  predicate HasExplicitFallbackReason(c: Command)
  {
    Truthy(c.params) &&
    match Get(c.params, "description")
    case Some(Str(d)) => d != "" && AnyCI(d, BUILTIN_REFERENCES) && Any(d, LIMITATIONS)
    case _ => false
  }

  /**
   * One entry of the policy table: its code, the case-insensitive literals
   * of its pattern, the literals that must end at a word boundary, and the hint.
   */
  datatype PolicyRule = PolicyRule(code: string, words: seq<string>, wholeWords: seq<string>, hint: string)

  const POLICY_RULES: seq<PolicyRule> := [
    PolicyRule("CUSTOM_TABLE_STYLE",
      ["table.", "tables.", "border.", "borders.", "cell(", "row.", "rows.", "column.", "columns.",
       "autofit", "shading", "表格", "边框", "单元格", "三线表"],
      [],
      "表格样式请改用 table.*（如 table.borders.set / table.cell_alignment.set）"),
    PolicyRule("CUSTOM_TEXT_STYLE",
      ["font.", "fontsize", "字体", "字号", "加粗", "斜体", "下划线"],
      ["bold", "italic", "underline"],
      "字体样式请改用 text.font.* 内置技能"),
    PolicyRule("CUSTOM_PARAGRAPH_STYLE",
      ["paragraphformat", "linespacing", "spacebefore", "spaceafter", "firstlineindent", "alignment",
       "行距", "缩进", "段前", "段后", "两端对齐", "居中", "右对齐"],
      [],
      "段落样式请改用 paragraph.*（alignment/spacing/line_spacing/indent）"),
    PolicyRule("CUSTOM_PAGE_STYLE",
      ["pagesetup", "页边距", "纸张", "横向", "纵向", "页眉", "页脚", "页码", "分节", "目录", "水印", "样式"],
      [],
      "页面与样式请改用 page.* / header.* / footer.* / page_number.* / style.* / toc.* / watermark.*")
  ]

  /** `rule.pattern.test(text)`. */
  predicate RuleMatches(rule: PolicyRule, text: string)
  {
    AnyCI(text, rule.words) || exists k :: 0 <= k < |rule.wholeWords| && ContainsWordCI(text, rule.wholeWords[k])
  }

  /** The first rule from `k` on whose pattern matches the text. */
  function FirstRule(rules: seq<PolicyRule>, text: string, k: nat): (r: Option<nat>)
    requires k <= |rules|
    ensures r.Some? ==> k <= r.value < |rules|
    decreases |rules| - k
  {
    if k == |rules| then None
    else if RuleMatches(rules[k], text) then Some(k)
    else FirstRule(rules, text, k + 1)
  }

  /** The rule found matches and no earlier rule does; when none is found, none matches. */
  lemma {:induction false} FirstRuleIsFirst(rules: seq<PolicyRule>, text: string, k: nat)
    requires k <= |rules|
    ensures var r := FirstRule(rules, text, k);
      (r.Some? ==> RuleMatches(rules[r.value], text) && forall j :: k <= j < r.value ==> !RuleMatches(rules[j], text)) &&
      (r.None? ==> forall j :: k <= j < |rules| ==> !RuleMatches(rules[j], text))
    decreases |rules| - k
  {
    if k < |rules| && !RuleMatches(rules[k], text) {
      FirstRuleIsFirst(rules, text, k + 1);
    }
  }

  /** One piece of the scope text: `x || ''` where only a string contributes text. */
  function Piece(v: Option<Value>): string
  {
    match v
    case Some(Str(s)) => s
    case _ => ""
  }

  /** The text the policy patterns are tested on: description, params.description and code, one per line. */
  function ScopeText(c: Command): string
  {
    var params := if Truthy(c.params) then c.params else Obj([]);
    Piece(c.description) + "\n" + Piece(Get(params, "description")) + "\n" + Piece(Get(params, "code"))
  }

  /** The policy patterns see a string description at the start of the scope text and a
      string `params.code` at its end, each on a line of its own. */
  lemma ScopeTextHolds(c: Command)
    ensures c.description.Some? && c.description.value.Str? ==>
              StartsWith(ScopeText(c), c.description.value.s + "\n")
    ensures Truthy(c.params) && Get(c.params, "code").Some? && Get(c.params, "code").value.Str? ==>
              EndsWith(ScopeText(c), "\n" + Get(c.params, "code").value.s)
  {
    var params := if Truthy(c.params) then c.params else Obj([]);
    var a, b, d := Piece(c.description), Piece(Get(params, "description")), Piece(Get(params, "code"));
    assert ScopeText(c) == (a + "\n") + (b + "\n" + d);
    assert ScopeText(c) == (a + "\n" + b) + ("\n" + d);
  }

  function NotFallback(i: nat, rule: PolicyRule): Issue
  {
    Issue(Some("error"), "CUSTOM_NOT_FALLBACK", Some(i), None, None, Some(rule.code), Some(rule.hint))
  }

  /** CUSTOM_REASON_MISSING: a string description naming none of 内置技能, 无法, 兜底. */
  predicate ReasonMissing(c: Command)
  {
    Truthy(c.params) &&
    match Get(c.params, "description")
    case Some(Str(d)) => !Contains(d, "内置技能") && !Contains(d, "无法") && !Contains(d, "兜底")
    case _ => false
  }

  /** The verdict of the first matching rule: table style, or no stated reason, is refused. */
  function Verdict(rules: seq<PolicyRule>, c: Command, i: nat): Findings
  {
    match FirstRule(rules, ScopeText(c), 0)
    case None => NONE
    case Some(k) =>
      if rules[k].code == "CUSTOM_TABLE_STYLE" || !HasExplicitFallbackReason(c) then Findings([NotFallback(i, rules[k])], [])
      else Findings([], [WarningIssue("CUSTOM_FALLBACK_ACCEPTED", i)])
  }

  /** The body of the policy loop for command `c` at position `i`. */
  function PolicyOf(rules: seq<PolicyRule>, c: Command, i: nat): Findings
  {
    if !IsCustomExecute(c) then NONE
    else
      var verdict := Verdict(rules, c, i);
      Findings(verdict.errors, verdict.warnings + (if ReasonMissing(c) then [WarningIssue("CUSTOM_REASON_MISSING", i)] else []))
  }

  function PolicyFor(rules: seq<PolicyRule>): (Command, nat) -> Findings
  {
    (c: Command, i: nat) => PolicyOf(rules, c, i)
  }

  /** The rule loop: the first policy rule whose pattern matches the scope text. */
  method MatchPolicyRule(rules: seq<PolicyRule>, scope: string) returns (rule: Option<nat>)
    ensures rule == FirstRule(rules, scope, 0)
  {
    var p := 0;
    while p < |rules|
      invariant p <= |rules| && FirstRule(rules, scope, 0) == FirstRule(rules, scope, p)
    {
      if RuleMatches(rules[p], scope) {
        return Some(p);
      }
      p := p + 1;
    }
    return None;
  }

  /** One pass of the policy loop: the first matching rule's verdict, then the reason reminder. */
  method CheckPolicy(rules: seq<PolicyRule>, c: Command, i: nat) returns (f: Findings)
    ensures f == PolicyOf(rules, c, i)
  {
    if !IsCustomExecute(c) {
      return NONE;
    }
    var errors := [];
    var warnings := [];
    var reason := HasExplicitFallbackReason(c);
    var rule := MatchPolicyRule(rules, ScopeText(c));
    if rule.Some? {
      if rules[rule.value].code == "CUSTOM_TABLE_STYLE" || !reason {
        errors := errors + [NotFallback(i, rules[rule.value])];
      } else {
        warnings := warnings + [WarningIssue("CUSTOM_FALLBACK_ACCEPTED", i)];
      }
    }
    if ReasonMissing(c) {
      warnings := warnings + [WarningIssue("CUSTOM_REASON_MISSING", i)];
    }
    return Findings(errors, warnings);
  }

  /** `_validateCustomFallbackPolicy` over a policy table. */
  method ValidateCustomFallbackPolicy(cmds: seq<Command>, rules: seq<PolicyRule>) returns (f: Findings)
    ensures f == Gather(PolicyFor(rules), cmds, |cmds|)
  {
    var errors := [];
    var warnings := [];
    var i := 0;
    while i < |cmds|
      invariant i <= |cmds|
      invariant Findings(errors, warnings) == Gather(PolicyFor(rules), cmds, i)
    {
      var here := CheckPolicy(rules, cmds[i], i);
      errors := errors + here.errors;
      warnings := warnings + here.warnings;
      i := i + 1;
    }
    return Findings(errors, warnings);
  }

  /** A match of a table-style rule is never accepted as a fallback, whatever the description says. */
  lemma TableStyleAlwaysRejected(rules: seq<PolicyRule>, c: Command, i: nat, k: nat)
    requires IsCustomExecute(c) && FirstRule(rules, ScopeText(c), 0) == Some(k)
    requires rules[k].code == "CUSTOM_TABLE_STYLE"
    ensures PolicyOf(rules, c, i).errors == [NotFallback(i, rules[k])]
  {
  }

  /**
   * With any other first matching rule, the command is accepted (with a
   * CUSTOM_FALLBACK_ACCEPTED warning) exactly when the description names a
   * built-in category and a limitation.
   */
  lemma OtherCategoryNeedsReason(rules: seq<PolicyRule>, c: Command, i: nat, k: nat)
    requires IsCustomExecute(c) && FirstRule(rules, ScopeText(c), 0) == Some(k)
    requires rules[k].code != "CUSTOM_TABLE_STYLE"
    ensures PolicyOf(rules, c, i).errors == [] <==> HasExplicitFallbackReason(c)
    ensures HasExplicitFallbackReason(c) ==> WarningIssue("CUSTOM_FALLBACK_ACCEPTED", i) in PolicyOf(rules, c, i).warnings
  {
  }

  /** In the shipped table the table-style rule is tried first and is the only one of its code. */
  lemma PolicyTableOrder()
    ensures POLICY_RULES[0].code == "CUSTOM_TABLE_STYLE"
    ensures forall k :: 1 <= k < |POLICY_RULES| ==> POLICY_RULES[k].code != "CUSTOM_TABLE_STYLE"
  {
    assert |POLICY_RULES[1].code| != 18 && |POLICY_RULES[2].code| != 18 && |POLICY_RULES[3].code| != 18;
  }

  /** A command whose text matches no rule draws no policy error. */
  lemma NoRuleNoError(c: Command, i: nat)
    requires forall k :: 0 <= k < |POLICY_RULES| ==> !RuleMatches(POLICY_RULES[k], ScopeText(c))
    ensures PolicyOf(POLICY_RULES, c, i).errors == []
  {
    FirstRuleIsFirst(POLICY_RULES, ScopeText(c), 0);
  }

  // ---------------------------------------------------------------- phase 3: feasibility

  /**
   * What the feasibility phase reads from the host: whether a document is
   * open, its paragraph and table counts (0 when unreadable) and whether the
   * selection is empty (None when it cannot be read).
   */
  datatype Host = Host(hasDocument: bool, paragraphCount: nat, tableCount: nat, selectionEmpty: Option<bool>)

  /** The body of the feasibility loop for command `c` at position `i`. */
  function FeasibilityOf(h: Host, c: Command, i: nat): Findings
  {
    var target := if Truthy(c.params) then Get(c.params, "target") else None;
    if !TruthyOpt(target) then NONE
    else
      var t := target.value;
      var errors :=
        (if IsTargetType(t, "paragraph_index") && GreaterThan(Get(t, "index"), h.paragraphCount as real) then [ErrorIssue("TARGET_OUT_OF_RANGE", i)] else []) +
        (if IsTargetType(t, "paragraph_range") && GreaterThan(Get(t, "to"), h.paragraphCount as real) then [ErrorIssue("TARGET_OUT_OF_RANGE", i)] else []) +
        (if IsTargetType(t, "table_index") && GreaterThan(Get(t, "index"), h.tableCount as real) then [ErrorIssue("TARGET_OUT_OF_RANGE", i)] else []);
      var warnings :=
        (if IsTargetType(t, "selection") && h.selectionEmpty == Some(true) then [WarningIssue("EMPTY_SELECTION", i)] else []) +
        (if IsTargetType(t, "all_paragraphs") && h.paragraphCount > 200 then [WarningIssue("LARGE_RANGE", i)] else []);
      Findings(errors, warnings)
  }

  function FeasibilityFor(h: Host): (Command, nat) -> Findings
  {
    (c: Command, i: nat) => FeasibilityOf(h, c, i)
  }

  const NO_DOCUMENT := Issue(Some("error"), "NO_DOCUMENT", None, None, None, None, None)

  /** `_validateFeasibility`: skipped without a host, NO_DOCUMENT alone without a document. */
  method ValidateFeasibility(cmds: seq<Command>, host: Option<Host>) returns (f: Findings)
    ensures host.None? ==> f == NONE
    ensures host.Some? && !host.value.hasDocument ==> f == Findings([NO_DOCUMENT], [])
    ensures host.Some? && host.value.hasDocument ==> f == Gather(FeasibilityFor(host.value), cmds, |cmds|)
  {
    if host.None? {
      return NONE;
    }
    var h := host.value;
    if !h.hasDocument {
      return Findings([NO_DOCUMENT], []);
    }
    var errors := [];
    var warnings := [];
    var i := 0;
    while i < |cmds|
      invariant i <= |cmds|
      invariant Findings(errors, warnings) == Gather(FeasibilityFor(h), cmds, i)
    {
      var here := FeasibilityOf(h, cmds[i], i);
      errors := errors + here.errors;
      warnings := warnings + here.warnings;
      i := i + 1;
    }
    return Findings(errors, warnings);
  }

  /** The target a command names, when its params are truthy. */
  function TargetOf(c: Command): Option<Value>
  {
    if Truthy(c.params) then Get(c.params, "target") else None
  }

  /** The count field of the target exceeds the count its type is checked against. */
  predicate OutOfRange(h: Host, t: Value)
  {
    || (IsTargetType(t, "paragraph_index") && GreaterThan(Get(t, "index"), h.paragraphCount as real))
    || (IsTargetType(t, "paragraph_range") && GreaterThan(Get(t, "to"), h.paragraphCount as real))
    || (IsTargetType(t, "table_index") && GreaterThan(Get(t, "index"), h.tableCount as real))
  }

  /** A target has one type, so one command draws at most one error and one warning: a
      TARGET_OUT_OF_RANGE error exactly when its count field is past the end, EMPTY_SELECTION
      for a selection target over an empty selection, LARGE_RANGE for an all-paragraphs
      target over more than 200 paragraphs; a command without a target draws nothing. */
  lemma FeasibilityMeaning(h: Host, c: Command, i: nat)
    ensures var f := FeasibilityOf(h, c, i);
            && (!TruthyOpt(TargetOf(c)) ==> f == NONE)
            && |f.errors| <= 1 && |f.warnings| <= 1
            && (forall e :: e in f.errors ==> e == ErrorIssue("TARGET_OUT_OF_RANGE", i))
            && (f.errors != [] <==> TruthyOpt(TargetOf(c)) && OutOfRange(h, TargetOf(c).value))
            && (WarningIssue("EMPTY_SELECTION", i) in f.warnings <==>
                  TruthyOpt(TargetOf(c)) && IsTargetType(TargetOf(c).value, "selection") && h.selectionEmpty == Some(true))
            && (WarningIssue("LARGE_RANGE", i) in f.warnings <==>
                  TruthyOpt(TargetOf(c)) && IsTargetType(TargetOf(c).value, "all_paragraphs") && h.paragraphCount > 200)
  {
    assert "paragraph_index"[10] != "paragraph_range"[10];
    assert "EMPTY_SELECTION"[0] != "LARGE_RANGE"[0];
  }

  /** A paragraph index past the end of the document is out of range; one within it is not.
      The index is compared as `Number` reads it, so a numeric string counts by its value and
      an index that reads as NaN is never out of range. */
  lemma ParagraphIndexRange(h: Host, c: Command, i: nat, index: Value)
    requires Truthy(c.params) && Get(c.params, "target") == Some(Obj([("type", Str("paragraph_index")), ("index", index)]))
    ensures ErrorIssue("TARGET_OUT_OF_RANGE", i) in FeasibilityOf(h, c, i).errors <==>
              ToNumber(index).Some? && ToNumber(index).value > h.paragraphCount as real
  {
    var t := Obj([("type", Str("paragraph_index")), ("index", index)]);
    ParagraphIndexTarget(index);
    FeasibilityParagraphIndex(h, c, i, t);
  }

  /** The fields of a `paragraph_index` target. */
  lemma ParagraphIndexTarget(index: Value)
    ensures var t := Obj([("type", Str("paragraph_index")), ("index", index)]);
      && Get(t, "index") == Some(index) && IsTargetType(t, "paragraph_index")
      && !IsTargetType(t, "paragraph_range") && !IsTargetType(t, "table_index")
  {
    var t := Obj([("type", Str("paragraph_index")), ("index", index)]);
    assert "type"[0] != "index"[0];
    assert t.fields[1..] == [("index", index)];
    assert Lookup(t.fields[1..], "index") == Some(index);
    assert Get(t, "type") == Some(Str("paragraph_index")) && Get(t, "index") == Some(index);
    assert "paragraph_index"[10] != "paragraph_range"[10] && "paragraph_index"[0] != "table_index"[0];
  }

  /** A `paragraph_index` target is out of range exactly when its index exceeds the count. */
  lemma FeasibilityParagraphIndex(h: Host, c: Command, i: nat, t: Value)
    requires Truthy(c.params) && Get(c.params, "target") == Some(t) && t.Obj?
    requires IsTargetType(t, "paragraph_index") && !IsTargetType(t, "paragraph_range") && !IsTargetType(t, "table_index")
    ensures ErrorIssue("TARGET_OUT_OF_RANGE", i) in FeasibilityOf(h, c, i).errors <==>
              GreaterThan(Get(t, "index"), h.paragraphCount as real)
  {
  }

  /** An index written as the decimal string of `k`, such as `"5"`, is out of range exactly
      when `k` exceeds the paragraph count. */
  lemma ParagraphIndexText(h: Host, c: Command, i: nat, k: int)
    requires Truthy(c.params) && Get(c.params, "target") == Some(Obj([("type", Str("paragraph_index")), ("index", Str(IntToString(k)))]))
    ensures ErrorIssue("TARGET_OUT_OF_RANGE", i) in FeasibilityOf(h, c, i).errors <==> k > h.paragraphCount
  {
    IntRoundTrip(k);
    ParagraphIndexRange(h, c, i, Str(IntToString(k)));
  }

  // ---------------------------------------------------------------- the pipeline

  /** The result of `validate`: `{valid, errors, warnings}`. */
  datatype Validation = Validation(valid: bool, errors: seq<Issue>, warnings: seq<Issue>)

  /** The phase results in pipeline order, for a registry table and a host. */
  function Phases(cmds: seq<Command>, skills: Option<map<string, SkillRegistry.Skill>>, host: Option<Host>): (r: seq<Findings>)
    ensures |r| == 5
  {
    [
      Gather(StructureOf, cmds, |cmds|),
      if skills.None? then NONE else Gather(SemanticsFor(skills.value), cmds, |cmds|),
      Gather(SafetyOf, cmds, |cmds|),
      Gather(PolicyFor(POLICY_RULES), cmds, |cmds|),
      match host
      case None => NONE
      case Some(h) => if !h.hasDocument then Findings([NO_DOCUMENT], []) else Gather(FeasibilityFor(h), cmds, |cmds|)
    ]
  }

  /** The warnings of the first `n` phases, in order. */
  function WarningsUpTo(phases: seq<Findings>, n: nat): seq<Issue>
    requires n <= |phases|
  {
    if n == 0 then [] else WarningsUpTo(phases, n - 1) + phases[n - 1].warnings
  }

  /** Running the phases from `k` on: stop at the first with errors, keeping the warnings so far. */
  function RunPhases(phases: seq<Findings>, k: nat): (r: Validation)
    requires k <= |phases|
    decreases |phases| - k
  {
    if k == |phases| then Validation(true, [], WarningsUpTo(phases, k))
    else if phases[k].errors != [] then Validation(false, phases[k].errors, WarningsUpTo(phases, k + 1))
    else RunPhases(phases, k + 1)
  }

  /** What `validate` returns for a compile result. */
  function ValidationOf(compiled: Compiled, skills: Option<map<string, SkillRegistry.Skill>>, host: Option<Host>): Validation
  {
    if compiled.errors != [] then Validation(false, compiled.errors, [])
    else RunPhases(Phases(compiled.commands, skills, host), 0)
  }

  /** `validate`. */
  method Validate(compiled: Compiled, skills: Option<map<string, SkillRegistry.Skill>>, host: Option<Host>) returns (r: Validation)
    ensures r == ValidationOf(compiled, skills, host)
  {
    if compiled.errors != [] {
      return Validation(false, compiled.errors, []);
    }
    var cmds := compiled.commands;
    ghost var phases := Phases(cmds, skills, host);
    var structure := ValidateStructure(cmds);
    StructureWarnsNothing(cmds, |cmds|);
    assert phases[0].errors == structure && WarningsUpTo(phases, 1) == [];
    if structure != [] {
      return Validation(false, structure, []);
    }
    assert RunPhases(phases, 0) == RunPhases(phases, 1);
    var semantics := ValidateSemantics(cmds, skills);
    var warnings := semantics.warnings;
    assert phases[1] == semantics && warnings == WarningsUpTo(phases, 2);
    if semantics.errors != [] {
      return Validation(false, semantics.errors, warnings);
    }
    assert RunPhases(phases, 1) == RunPhases(phases, 2);
    var safety := ValidateCustomCodeSafety(cmds);
    warnings := warnings + safety.warnings;
    assert phases[2] == safety && warnings == WarningsUpTo(phases, 3);
    if safety.errors != [] {
      return Validation(false, safety.errors, warnings);
    }
    assert RunPhases(phases, 2) == RunPhases(phases, 3);
    var policy := ValidateCustomFallbackPolicy(cmds, POLICY_RULES);
    warnings := warnings + policy.warnings;
    assert phases[3] == policy && warnings == WarningsUpTo(phases, 4);
    if policy.errors != [] {
      return Validation(false, policy.errors, warnings);
    }
    assert RunPhases(phases, 3) == RunPhases(phases, 4);
    var feasibility := ValidateFeasibility(cmds, host);
    warnings := warnings + feasibility.warnings;
    assert phases[4] == feasibility && warnings == WarningsUpTo(phases, 5);
    assert RunPhases(phases, 4) == if feasibility.errors == [] then RunPhases(phases, 5) else Validation(false, feasibility.errors, warnings);
    return Validation(feasibility.errors == [], feasibility.errors, warnings);
  }

  /**
   * The stopping rule: the result is invalid exactly when some phase reports
   * an error, its errors are those of the first such phase, and its warnings
   * are those of every phase up to and including that one.
   */
  lemma {:induction false} RunPhasesStopsAtFirstError(phases: seq<Findings>, k: nat)
    requires k <= |phases|
    ensures var r := RunPhases(phases, k);
      (r.valid <==> forall j :: k <= j < |phases| ==> phases[j].errors == []) &&
      (r.valid ==> r.errors == [] && r.warnings == WarningsUpTo(phases, |phases|)) &&
      (!r.valid ==> exists j :: (k <= j < |phases| && phases[j].errors != [] && r.errors == phases[j].errors &&
        r.warnings == WarningsUpTo(phases, j + 1) && forall m :: k <= m < j ==> phases[m].errors == []))
    decreases |phases| - k
  {
    if k < |phases| && phases[k].errors == [] {
      RunPhasesStopsAtFirstError(phases, k + 1);
    }
  }

  /** Compile errors pass through unchanged and no phase runs. */
  lemma CompileErrorsPassThrough(compiled: Compiled, skills: Option<map<string, SkillRegistry.Skill>>, host: Option<Host>)
    requires compiled.errors != []
    ensures ValidationOf(compiled, skills, host) == Validation(false, compiled.errors, [])
  {
  }

  /** An empty command list passes every phase but feasibility's document check. */
  lemma EmptyPlanValid(skills: Option<map<string, SkillRegistry.Skill>>, host: Option<Host>)
    requires host.None? || host.value.hasDocument
    ensures ValidationOf(Compiled(Some(Str("")), [], []), skills, host) == Validation(true, [], [])
  {
    var phases := Phases([], skills, host);
    assert forall j :: 0 <= j < 5 ==> phases[j] == NONE;
    forall n | 0 <= n <= 5
      ensures WarningsUpTo(phases, n) == []
    {
      NoWarningsUpTo(phases, n);
    }
    RunPhasesStopsAtFirstError(phases, 0);
  }

  /** Phases without warnings contribute none. */
  lemma {:induction false} NoWarningsUpTo(phases: seq<Findings>, n: nat)
    requires n <= |phases| && forall j :: 0 <= j < n ==> phases[j].warnings == []
    ensures WarningsUpTo(phases, n) == []
  {
    if n > 0 {
      NoWarningsUpTo(phases, n - 1);
    }
  }
}
