/**
 * The execution engine: the run over the compiled commands, the dispatch of one command to
 * its skill, the targets a command resolves to, the sandbox helpers `custom.execute` code is
 * given, and the effect accounting that flags a successful step which changed nothing.
 *
 * The host document is outside the model. Executing one command, with the snapshots taken
 * around it and its timings, is the oracle `step`. The structure cache is the model's
 * `StructureCache`. The host's text search is the sequence of matches it would yield.
 */
module ExecutionEngine {
  import opened Wrappers
  import opened Text
  import opened JsonValue
  import ComparisonLog
  import StructureDetect

  type State = ComparisonLog.State
  type Entry = ComparisonLog.Entry

  const CUSTOM_EXECUTE := "custom.execute"
  const ZERO_EFFECT := "SUCCESS_ZERO_EFFECT"

  function Abs(x: real): (r: real)
    ensures r >= 0.0 && (r == x || r == -x)
  {
    if x < 0.0 then -x else x
  }

  /** `Number(v)` for a value that may be `undefined`; `None` stands for NaN. */
  function NumberOf(v: Option<Value>): Option<real>
  {
    match v
    case None => None
    case Some(x) => ToNumber(x)
  }

  /** `target.type` as a string, `''` when it is missing or not a string. */
  function TypeName(target: Option<Value>): string
  {
    if target.Some? then
      match Get(target.value, "type")
      case Some(Str(t)) => t
      case _ => ""
    else ""
  }

  /** `params.target`. */
  function TargetOf(params: Value): Option<Value>
  {
    Get(params, "target")
  }

  // ---------------------------------------------------------------- targets

  /** Where `_resolveTarget` points a command; indices go to the host as given. */
  datatype Place =
    | WholeContent
    | CurrentSelection
    | ParagraphAt(index: Option<Value>)
    | ParagraphSpan(from: Option<Value>, to: Option<Value>)
    | SectionAt(index: Option<Value>)
    | TableAt(index: Option<Value>)

  /** The target types `_resolveTarget` gives a place other than the whole document. */
  const PLACE_TYPES := ["selection", "paragraph_index", "paragraph_range", "section_index", "table_index"]

  /** `_resolveTarget`: the whole document for a missing target, for `document` and
      `all_paragraphs`, and for any type it does not know. */
  function ResolveTarget(target: Option<Value>): (r: Place)
    ensures r != WholeContent <==> TruthyOpt(target) && TypeName(target) in PLACE_TYPES
    ensures r.ParagraphAt? || r.SectionAt? || r.TableAt? ==> r.index == Get(target.value, "index")
    ensures r.ParagraphSpan? ==> r.from == Get(target.value, "from") && r.to == Get(target.value, "to")
  {
    if !TruthyOpt(target) then WholeContent
    else
      var t := target.value;
      match TypeName(target)
      case "selection" => CurrentSelection
      case "paragraph_index" => ParagraphAt(Get(t, "index"))
      case "paragraph_range" => ParagraphSpan(Get(t, "from"), Get(t, "to"))
      case "section_index" => SectionAt(Get(t, "index"))
      case "table_index" => TableAt(Get(t, "index"))
      case _ => WholeContent
  }

  /** The error a role that detection cannot find raises. */
  function RoleMissing(role: string): string
  {
    "未检测到角色 \"" + role + "\" 对应的段落"
  }

  /**
   * `_resolveRoleTarget` over the structure cache: the cached indices when the role is cached,
   * else a detection and a second lookup. Returns the result and the cache state afterwards.
   */
  function RoleOutcome(st: StructureDetect.CacheState, role: string, doc: Option<StructureDetect.Document>)
    : (Result<seq<nat>, string>, StructureDetect.CacheState)
  {
    var first := StructureDetect.IndicesOutcome(st, role, doc);
    if first.0.Some? then (Ok(first.0.value), first.1)
    else
      var detected := StructureDetect.DetectOutcome(first.1, role, StructureDetect.DocKey(doc),
                                                    StructureDetect.PassTable(doc),
                                                    StructureDetect.ScannerOf(role, doc)).1;
      var again := StructureDetect.IndicesOutcome(detected, role, doc);
      if again.0.None? || again.0.value == [] then (Err(RoleMissing(role)), again.1)
      else (Ok(again.0.value), again.1)
  }

  /** A cache hit is returned as it is, even when it lists no paragraph; after a miss, an empty
      or absent detection is an error; and any indices returned are the ones the cache holds. */
  lemma RoleOutcomeMeaning(st: StructureDetect.CacheState, role: string, doc: Option<StructureDetect.Document>)
    ensures var hit := StructureDetect.IndicesOutcome(st, role, doc).0;
            hit.Some? ==> RoleOutcome(st, role, doc).0 == Ok(hit.value)
    ensures var hit := StructureDetect.IndicesOutcome(st, role, doc).0;
            hit.None? && RoleOutcome(st, role, doc).0.Ok? ==> RoleOutcome(st, role, doc).0.value != []
    ensures var (r, after) := RoleOutcome(st, role, doc);
            r.Ok? ==> role in after.entries && after.entries[role].indices == r.value
    ensures RoleOutcome(st, role, doc).0.Err? ==> RoleOutcome(st, role, doc).0.error == RoleMissing(role)
  {
  }

  /** `_resolveRoleTarget`. */
  method ResolveRoleTarget(cache: StructureDetect.StructureCache, role: string, doc: Option<StructureDetect.Document>)
    returns (r: Result<seq<nat>, string>)
    modifies cache
    ensures (r, cache.State()) == RoleOutcome(old(cache.State()), role, doc)
  {
    var hit := cache.GetIndices(role, doc);
    if hit.Some? {
      return Ok(hit.value);
    }
    var _ := cache.Detect(role, doc);
    var again := cache.GetIndices(role, doc);
    if again.None? || again.value == [] {
      return Err(RoleMissing(role));
    }
    return Ok(again.value);
  }

  /** `_resolveHeadingTarget`: level `k` is the role `heading_k`, `k` as `String(level)` writes it. */
  function HeadingRole(level: string): (r: string)
    ensures StartsWith(r, "heading_") && r[|"heading_"|..] == level
  {
    "heading_" + level
  }

  /** Different levels name different roles. */
  lemma HeadingRoleInjective(a: string, b: string)
    requires HeadingRole(a) == HeadingRole(b)
    ensures a == b
  {
    assert a == HeadingRole(a)[8..] && b == HeadingRole(b)[8..];
  }

  /** `target.occurrence || 0` as the search loop compares it: NaN compares like 0. */
  function OccurrenceOf(v: Option<Value>): real
  {
    if !TruthyOpt(v) then 0.0 else NumberOf(v).GetOr(0.0)
  }

  /** The least count that reaches a positive `occurrence`. */
  function Limit(occurrence: real): (n: nat)
    requires occurrence > 0.0
    ensures n >= 1 && n as real >= occurrence && (n - 1) as real < occurrence
  {
    if occurrence.Floor as real == occurrence then occurrence.Floor else occurrence.Floor + 1
  }

  /** How many of `total` matches the search loop keeps. */
  function Taken(total: nat, occurrence: real): (n: nat)
    ensures n <= total
    ensures total > 0 ==> n > 0
  {
    if occurrence <= 0.0 || total <= Limit(occurrence) then total else Limit(occurrence)
  }

  /** The error a search without a match raises. */
  function NotFound(text: string): string
  {
    "未找到文本: \"" + text + "\""
  }

  /**
   * `_resolveSearchTarget` over the matches the host's forward, non-wrapping search yields in
   * order (`found`): it keeps matches until their count reaches a positive occurrence.
   */
  method ResolveSearchTarget<T>(found: seq<T>, occurrence: real, text: string) returns (r: Result<seq<T>, string>)
    ensures r.Err? <==> found == []
    ensures r.Err? ==> r.error == NotFound(text)
    ensures r.Ok? ==> r.value == found[..Taken(|found|, occurrence)]
    ensures r.Ok? && occurrence > 0.0 ==> |r.value| as real <= occurrence + 1.0 && |r.value| <= Limit(occurrence)
  {
    var ranges: seq<T> := [];
    var i := 0;
    while i < |found|
      invariant 0 <= i <= |found|
      invariant ranges == found[..i]
      invariant occurrence > 0.0 ==> (i as real) < occurrence
      decreases |found| - i
    {
      ranges := ranges + [found[i]];
      i := i + 1;
      if occurrence > 0.0 && i as real >= occurrence {
        break;
      }
    }
    if ranges == [] {
      return Err(NotFound(text));
    }
    return Ok(ranges);
  }

  /** With a whole positive occurrence `n`, the search keeps the first `min(n, matches)` matches. */
  lemma TakenWhole(total: nat, n: nat)
    requires n > 0
    ensures Taken(total, n as real) == if total <= n then total else n
  {
    assert Limit(n as real) == n;
  }

  // ---------------------------------------------------------------- dispatch

  /** What the registry knows of a skill: whether it has an `execute` function. */
  datatype SkillDef = SkillDef(hasExecute: bool)

  /** How `_executeOneCommand` runs a command. */
  datatype Plan =
    | QueueDetect
    | QueueCustom(customPlace: Option<Place>)
    | OnRole(role: Option<Value>)
    | OnHeading(level: Option<Value>)
    | OnSearch(target: Value)
    | OnPlace(place: Place)

  function Unregistered(skill: string): string { "技能 \"" + skill + "\" 未注册" }
  function Unimplemented(skill: string): string { "技能 \"" + skill + "\" 未实现" }

  /** A registered built-in skill with an `execute`, neither a detection nor `custom.execute`. */
  predicate Builtin(skill: string, def: Option<SkillDef>)
  {
    def.Some? && def.value.hasExecute && skill != CUSTOM_EXECUTE && !StartsWith(skill, "detect.")
  }

  /** `_executeOneCommand`'s choice of path for a command whose registry entry is `def`. */
  function Dispatch(skill: string, def: Option<SkillDef>, params: Value): (r: Result<Plan, string>)
    ensures r.Err? <==> def.None? || (skill != CUSTOM_EXECUTE && !def.value.hasExecute)
    ensures def.None? ==> r == Err(Unregistered(skill))
    ensures def.Some? && r.Err? ==> r == Err(Unimplemented(skill))
    ensures r.Ok? && StartsWith(skill, "detect.") ==> r.value == QueueDetect
    ensures r.Ok? && skill == CUSTOM_EXECUTE ==> r.value.QueueCustom?
    ensures r.Ok? && (r.value.OnRole? || r.value.OnHeading?) ==> TruthyOpt(TargetOf(params))
    ensures var t := TargetOf(params);
            (r.Ok? && r.value.OnRole?) <==> Builtin(skill, def) && TruthyOpt(t) && TypeName(t) == "role"
    ensures var t := TargetOf(params);
            r.Ok? && r.value.OnRole? ==> r.value.role == Get(t.value, "role")
    ensures var t := TargetOf(params);
            (r.Ok? && r.value.OnHeading?) <==> Builtin(skill, def) && TruthyOpt(t) && TypeName(t) == "heading_level"
    ensures var t := TargetOf(params);
            r.Ok? && r.value.OnHeading? ==> r.value.level == Get(t.value, "level")
    ensures var t := TargetOf(params);
            (r.Ok? && r.value.OnSearch?) <==> Builtin(skill, def) && TruthyOpt(t) && TypeName(t) == "search"
    ensures var t := TargetOf(params);
            r.Ok? && r.value.OnSearch? ==> r.value.target == t.value
    ensures var t := TargetOf(params);
            (r.Ok? && r.value.OnPlace?) <==>
              Builtin(skill, def) && !(TruthyOpt(t) && TypeName(t) in {"role", "heading_level", "search"})
    ensures r.Ok? && r.value.OnPlace? ==> r.value.place == ResolveTarget(TargetOf(params))
  {
    if def.None? then Err(Unregistered(skill))
    else if skill != CUSTOM_EXECUTE && !def.value.hasExecute then Err(Unimplemented(skill))
    else if StartsWith(skill, "detect.") then
      assert skill != CUSTOM_EXECUTE by { assert skill[0] != CUSTOM_EXECUTE[0]; }
      Ok(QueueDetect)
    else if skill == CUSTOM_EXECUTE then
      Ok(QueueCustom(if TruthyOpt(TargetOf(params)) then Some(ResolveTarget(TargetOf(params))) else None))
    else
      var target := TargetOf(params);
      if TruthyOpt(target) && TypeName(target) == "role" then Ok(OnRole(Get(target.value, "role")))
      else if TruthyOpt(target) && TypeName(target) == "heading_level" then Ok(OnHeading(Get(target.value, "level")))
      else if TruthyOpt(target) && TypeName(target) == "search" then Ok(OnSearch(target.value))
      else Ok(OnPlace(ResolveTarget(target)))
  }

  // ---------------------------------------------------------------- snapshots

  const CUSTOM_PROPERTIES := ["Font.Name", "Font.Size", "ParagraphFormat.Alignment"]
  const FONT_PROPERTIES := ["Font.Name", "Font.NameFarEast", "Font.NameAscii", "Font.Size", "Font.Bold", "Font.Color"]
  const PARAGRAPH_PROPERTIES := ["ParagraphFormat.Alignment", "ParagraphFormat.LineSpacing",
                                "ParagraphFormat.SpaceBefore", "ParagraphFormat.SpaceAfter",
                                "ParagraphFormat.FirstLineIndent"]
  const PAGE_PROPERTIES := ["PageSetup.TopMargin", "PageSetup.BottomMargin",
                           "PageSetup.LeftMargin", "PageSetup.RightMargin"]

  /** `_getRelevantProperties`: the properties snapshotted around a skill. */
  function RelevantProperties(skill: string): seq<string>
  {
    if skill == CUSTOM_EXECUTE then CUSTOM_PROPERTIES
    else if StartsWith(skill, "text.font") || StartsWith(skill, "text.") then FONT_PROPERTIES
    else if StartsWith(skill, "paragraph.") then PARAGRAPH_PROPERTIES
    else if StartsWith(skill, "page.") then PAGE_PROPERTIES
    else []
  }

  /** The skill families the engine snapshots. */
  predicate Snapshotted(skill: string)
  {
    skill == CUSTOM_EXECUTE || StartsWith(skill, "text.") || StartsWith(skill, "paragraph.") || StartsWith(skill, "page.")
  }

  /** Exactly the snapshotted families get properties, and each family its own list. */
  lemma RelevantPropertiesCases(skill: string)
    ensures RelevantProperties(skill) != [] <==> Snapshotted(skill)
    ensures skill == CUSTOM_EXECUTE ==> RelevantProperties(skill) == CUSTOM_PROPERTIES
    ensures StartsWith(skill, "text.") ==> RelevantProperties(skill) == FONT_PROPERTIES
    ensures StartsWith(skill, "paragraph.") ==> RelevantProperties(skill) == PARAGRAPH_PROPERTIES
    ensures StartsWith(skill, "page.") ==> RelevantProperties(skill) == PAGE_PROPERTIES
  {
    if StartsWith(skill, "text.font") {
      assert skill[..5] == skill[..9][..5];
    }
    if StartsWith(skill, "text.") || StartsWith(skill, "paragraph.") || StartsWith(skill, "page.") {
      assert skill != CUSTOM_EXECUTE by {
        assert skill[0] != CUSTOM_EXECUTE[0];
      }
    }
    if StartsWith(skill, "paragraph.") || StartsWith(skill, "page.") {
      assert skill[0] == 'p';
      assert !StartsWith(skill, "text.font") && !StartsWith(skill, "text.");
    }
    if StartsWith(skill, "page.") {
      assert skill[2] == 'g' && !StartsWith(skill, "paragraph.");
    }
  }

  /** Where `_captureStateDirect` reads the properties. */
  datatype Site = DocumentContent | FirstRoleParagraph(index: nat) | TargetPlace(place: Place)

  /**
   * `_captureStateDirect`'s choice of range: none for a skill without properties, the whole
   * content for page skills, the first cached paragraph of a role target, else the target's
   * place. `cached` is what the cache lists for the target's role.
   */
  function SnapshotSite(skill: string, target: Option<Value>, cached: Option<seq<nat>>): (r: Option<Site>)
  {
    if RelevantProperties(skill) == [] then None
    else if StartsWith(skill, "page.") then Some(DocumentContent)
    else if TruthyOpt(target) && TypeName(target) == "role" && cached.Some? && |cached.value| > 0 then
      Some(FirstRoleParagraph(cached.value[0]))
    else Some(TargetPlace(ResolveTarget(target)))
  }

  /** The snapshot itself: `captureState` of the relevant properties at the site, read by
      `read`, or `{}` when there is no site. */
  function Snapshot(skill: string, target: Option<Value>, cached: Option<seq<nat>>,
                    read: Site -> string -> ComparisonLog.Readout): State
  {
    var props := RelevantProperties(skill);
    match SnapshotSite(skill, target, cached)
    case None => []
    case Some(site) => ComparisonLog.StateOf(props, read(site), |props|)
  }

  /** A snapshot records exactly the skill's relevant properties, and is empty for a skill outside
      the snapshotted families; a heading-level target is read over the whole document, since
      only role targets are narrowed. */
  lemma SnapshotMeaning(skill: string, target: Option<Value>, cached: Option<seq<nat>>,
                        read: Site -> string -> ComparisonLog.Readout, p: string)
    ensures p in ComparisonLog.KeysOf(Snapshot(skill, target, cached, read)) <==> p in RelevantProperties(skill)
    ensures !Snapshotted(skill) ==> Snapshot(skill, target, cached, read) == []
    ensures Snapshotted(skill) && !StartsWith(skill, "page.") && TypeName(target) == "heading_level" ==>
              SnapshotSite(skill, target, cached) == Some(TargetPlace(WholeContent))
  {
    RelevantPropertiesCases(skill);
    var props := RelevantProperties(skill);
    if props != [] {
      ComparisonLog.StateKeys(props, read(SnapshotSite(skill, target, cached).value), |props|, p);
      assert props[..|props|] == props;
    }
  }

  // ---------------------------------------------------------------- sandbox helpers

  /** A call `custom.execute` code makes on its `skills` helper, with the arguments it passes. */
  datatype HelperCall =
    | FontCall(index: Option<Value>, params: Option<Value>)
    | AlignmentCall(index: Option<Value>, align: Option<Value>)
    | SpacingCall(index: Option<Value>, params: Option<Value>)
    | LineSpacingCall(index: Option<Value>, mode: Option<Value>, value: Option<Value>)
    | IndentCall(index: Option<Value>, params: Option<Value>)

  function HelperName(c: HelperCall): string
  {
    match c
    case FontCall(_, _) => "font"
    case AlignmentCall(_, _) => "alignment"
    case SpacingCall(_, _) => "spacing"
    case LineSpacingCall(_, _, _) => "lineSpacing"
    case IndentCall(_, _) => "indent"
  }

  const HELPER_NAMES: set<string> := {"font", "alignment", "spacing", "lineSpacing", "indent"}
  const ALIGNMENT_NAMES := ["left", "center", "right", "justify"]
  const LINE_SPACING_MODES := ["multiple", "exact", "atLeast"]

  /** `checkIndex`: a number from 1 to the paragraph count; NaN fails every comparison. */
  function CheckIndex(index: Option<Value>, count: nat, name: string): (r: Result<real, string>)
    ensures r.Ok? <==> NumberOf(index).Some? && 1.0 <= NumberOf(index).value <= count as real
    ensures r.Ok? ==> r.value == NumberOf(index).value
  {
    match NumberOf(index)
    case None => Err(IndexError(name, count))
    case Some(n) => if n < 1.0 || n > count as real then Err(IndexError(name, count)) else Ok(n)
  }

  function IndexError(name: string, count: nat): string
  {
    "skills." + name + ": index 必须是 1 到 " + NatToString(count) + " 的整数"
  }

  /** `allowed.indexOf(x) === -1`: only an exact string of the list is allowed. */
  predicate Allowed(x: Option<Value>, allowed: seq<string>)
  {
    x.Some? && x.value.Str? && x.value.s in allowed
  }

  /** The argument check a helper makes after tracking the call; `None` when it passes. */
  function ArgumentError(c: HelperCall): Option<string>
  {
    match c
    case AlignmentCall(_, align) =>
      if !Allowed(align, ALIGNMENT_NAMES) then Some("skills.alignment: alignment 必须是 left/center/right/justify") else None
    case LineSpacingCall(_, mode, value) =>
      if !Allowed(mode, LINE_SPACING_MODES) then Some("skills.lineSpacing: mode 必须是 multiple/exact/atLeast")
      else if NumberOf(value).None? then Some("skills.lineSpacing: value 必须是数字")
      else None
    case _ => None
  }

  /** `{ k: p.k, ... }` over `params || {}`; a key the caller left undefined is absent. */
  function Pick(p: Option<Value>, keys: seq<string>): (r: Value)
    ensures r.Obj?
    ensures forall k :: k !in keys ==> Get(r, k).None?
    ensures forall k :: k in keys && p.Some? ==> Get(r, k) == Get(p.value, k)
    ensures forall k :: k in keys && p.None? ==> Get(r, k).None?
  {
    if keys == [] then Obj([])
    else
      var rest := Pick(p, keys[1..]);
      var v := if p.Some? then Get(p.value, keys[0]) else None;
      assert forall k :: k in keys <==> k == keys[0] || k in keys[1..];
      if v.Some? then Obj([(keys[0], v.value)] + rest.fields) else rest
  }

  /** A built-in skill run on one paragraph on the helper's behalf. */
  datatype Invocation = Invocation(skill: string, params: Value, paragraph: real)

  /** The skill a passing call runs, with the parameters it forwards. */
  function InvocationOf(c: HelperCall, i: real): Invocation
  {
    match c
    case FontCall(_, p) =>
      Invocation("text.font.set", Pick(p, ["zhFont", "enFont", "fontSize", "bold", "italic", "underline", "color"]), i)
    case AlignmentCall(_, align) =>
      Invocation("paragraph.alignment.set", Obj(if align.Some? then [("alignment", align.value)] else []), i)
    case SpacingCall(_, p) =>
      Invocation("paragraph.spacing.set", Pick(p, ["spaceBefore", "spaceAfter"]), i)
    case LineSpacingCall(_, mode, value) =>
      Invocation("paragraph.line_spacing.set",
                 Obj((if mode.Some? then [("mode", mode.value)] else []) + [("value", Num(NumberOf(value).GetOr(0.0)))]), i)
    case IndentCall(_, p) =>
      Invocation("paragraph.indent.set", Pick(p, ["firstLineChars", "firstLinePoints", "hanging", "left", "right"]), i)
  }

  /** What a helper call ends in: the paragraph it ran on, or the error it throws. */
  function HelperOutcome(c: HelperCall, count: nat): (r: Result<real, string>)
    ensures r.Ok? <==> CheckIndex(c.index, count, HelperName(c)).Ok? && ArgumentError(c).None?
    ensures r.Ok? ==> 1.0 <= r.value <= count as real
  {
    match CheckIndex(c.index, count, HelperName(c))
    case Err(e) => Err(e)
    case Ok(i) => if ArgumentError(c).Some? then Err(ArgumentError(c).value) else Ok(i)
  }

  /** The paragraphs a list of tracked calls touched. */
  function TouchedBy(tracked: seq<(string, real)>): set<real>
  {
    if tracked == [] then {} else TouchedBy(tracked[..|tracked| - 1]) + {tracked[|tracked| - 1].1}
  }

  /** The number of tracked calls made through helper `name`. */
  function CallsOf(tracked: seq<(string, real)>, name: string): nat
  {
    if tracked == [] then 0
    else CallsOf(tracked[..|tracked| - 1], name) + (if tracked[|tracked| - 1].0 == name then 1 else 0)
  }

  /** What tracking one more call does to the touched set and the per-helper counts. */
  lemma TrackStep(tracked: seq<(string, real)>, name: string, i: real)
    ensures TouchedBy(tracked + [(name, i)]) == TouchedBy(tracked) + {i}
    ensures |TouchedBy(tracked + [(name, i)])| <= |tracked| + 1
    ensures forall n :: CallsOf(tracked + [(name, i)], n) == CallsOf(tracked, n) + (if n == name then 1 else 0)
  {
    var next := tracked + [(name, i)];
    assert next[..|next| - 1] == tracked;
    TouchedAtMostCalls(next);
  }

  /** No more paragraphs are touched than calls are made. */
  lemma {:induction false} TouchedAtMostCalls(tracked: seq<(string, real)>)
    ensures |TouchedBy(tracked)| <= |tracked|
  {
    if tracked != [] {
      TouchedAtMostCalls(tracked[..|tracked| - 1]);
    }
  }

  /**
   * The `skills` helper and its `helperTracker`. A call is tracked once its index passes the
   * check, even when its other arguments then fail; `invoked` lists the skills it ran.
   */
  class Sandbox {
    const count: nat
    var totalCalls: nat
    var byMethod: map<string, nat>
    var touched: set<real>
    var invoked: seq<Invocation>
    /** The tracked calls, as (helper name, paragraph). */
    ghost var tracked: seq<(string, real)>

    ghost predicate Valid()
      reads this
    {
      && totalCalls == |tracked|
      && touched == TouchedBy(tracked)
      && |touched| <= totalCalls
      && byMethod.Keys == HELPER_NAMES
      && (forall n :: n in byMethod ==> byMethod[n] == CallsOf(tracked, n))
    }

    constructor(count: nat)
      ensures Valid() && this.count == count
      ensures totalCalls == 0 && touched == {} && invoked == []
      ensures byMethod == map["font" := 0, "alignment" := 0, "spacing" := 0, "lineSpacing" := 0, "indent" := 0]
    {
      this.count := count;
      totalCalls := 0;
      byMethod := map["font" := 0, "alignment" := 0, "spacing" := 0, "lineSpacing" := 0, "indent" := 0];
      touched := {};
      invoked := [];
      tracked := [];
    }

    /** One helper call: the index check, the tracking, the argument check, the skill run. */
    method Call(c: HelperCall) returns (r: Result<real, string>)
      requires Valid()
      modifies this
      ensures Valid()
      ensures r == HelperOutcome(c, count)
      ensures CheckIndex(c.index, count, HelperName(c)).Err? ==>
                tracked == old(tracked) && totalCalls == old(totalCalls) && byMethod == old(byMethod) && touched == old(touched)
      ensures CheckIndex(c.index, count, HelperName(c)).Ok? ==>
                var i := CheckIndex(c.index, count, HelperName(c)).value;
                && tracked == old(tracked) + [(HelperName(c), i)]
                && totalCalls == old(totalCalls) + 1
                && touched == old(touched) + {i}
      ensures invoked == old(invoked) + (if r.Ok? then [InvocationOf(c, r.value)] else [])
    {
      var checked := CheckIndex(c.index, count, HelperName(c));
      if checked.Err? {
        return Err(checked.error);
      }
      var i := checked.value;
      Track(HelperName(c), i);
      var bad := ArgumentError(c);
      if bad.Some? {
        return Err(bad.value);
      }
      Record(InvocationOf(c, i));
      r := Ok(i);
    }

    /** The skill run a checked call ends with. */
    method Record(inv: Invocation)
      requires Valid()
      modifies this
      ensures Valid() && invoked == old(invoked) + [inv]
      ensures tracked == old(tracked) && totalCalls == old(totalCalls) && byMethod == old(byMethod) && touched == old(touched)
    {
      invoked := invoked + [inv];
    }

    /** `trackHelperCall`. */
    method Track(name: string, i: real)
      requires Valid() && name in HELPER_NAMES
      modifies this
      ensures Valid()
      ensures tracked == old(tracked) + [(name, i)] && invoked == old(invoked)
      ensures totalCalls == old(totalCalls) + 1 && touched == old(touched) + {i}
      ensures byMethod == old(byMethod)[name := old(byMethod)[name] + 1]
    {
      TrackStep(tracked, name, i);
      var counts := byMethod[name := byMethod[name] + 1];
      assert counts.Keys == HELPER_NAMES;
      tracked, totalCalls, byMethod, touched := tracked + [(name, i)], totalCalls + 1, counts, touched + {i};
    }
  }

  // ---------------------------------------------------------------- effect accounting

  /** `_captureDocStats`: counts, content length and the border signature of the first tables. */
  datatype DocStats = DocStats(paragraphCount: nat, tableCount: nat, contentLength: nat, borderSignature: string)

  datatype Delta = Delta(paragraphs: int, tables: int, contentLength: int, tableBorderChanged: bool)

  /** The `customEffects` record of a `custom.execute` step. */
  datatype CustomEffects = CustomEffects(helperCalls: nat, helperCallBreakdown: map<string, nat>,
                                         touchedParagraphs: nat, documentDelta: Delta,
                                         userReportedEffects: seq<(string, Value)>,
                                         manualEffectCount: real, estimatedChanged: real)

  /** What one user-reported effect adds: its magnitude for a number, 1 for `true`. */
  function EffectWeight(v: Value): (r: real)
    ensures r >= 0.0
    ensures r > 0.0 <==> (v.Num? && v.n != 0.0) || v == Bool(true)
  {
    match v
    case Num(n) => Abs(n)
    case Bool(b) => if b then 1.0 else 0.0
    case _ => 0.0
  }

  /** The weight of the first `n` user effects. */
  function ManualCount(effects: seq<(string, Value)>, n: nat): (r: real)
    requires n <= |effects|
    ensures r >= 0.0
    ensures r == 0.0 <==> forall k :: 0 <= k < n ==> EffectWeight(effects[k].1) == 0.0
  {
    if n == 0 then 0.0 else ManualCount(effects, n - 1) + EffectWeight(effects[n - 1].1)
  }

  /** The loop of `_summarizeCustomEffects` over the user effects. */
  method ManualEffectCount(effects: seq<(string, Value)>) returns (total: real)
    ensures total == ManualCount(effects, |effects|)
  {
    total := 0.0;
    var i := 0;
    while i < |effects|
      invariant 0 <= i <= |effects|
      invariant total == ManualCount(effects, i)
      decreases |effects| - i
    {
      total := total + EffectWeight(effects[i].1);
      i := i + 1;
    }
  }

  /** Both signatures are non-empty and differ. */
  predicate BorderChanged(before: string, after: string)
  {
    before != "" && after != "" && before != after
  }

  function DeltaOf(before: DocStats, after: DocStats): Delta
  {
    Delta(after.paragraphCount - before.paragraphCount, after.tableCount - before.tableCount,
          after.contentLength - before.contentLength, BorderChanged(before.borderSignature, after.borderSignature))
  }

  /** The weight of a document delta. */
  function DeltaWeight(d: Delta): (r: real)
    ensures r >= 0.0
    ensures r == 0.0 <==> d == Delta(0, 0, 0, false)
  {
    Abs(d.paragraphs as real) + Abs(d.tables as real) + Abs(d.contentLength as real) + (if d.tableBorderChanged then 1.0 else 0.0)
  }

  /** `_summarizeCustomEffects`. */
  method SummarizeCustomEffects(before: DocStats, after: DocStats, helperCalls: nat, breakdown: map<string, nat>,
                                touched: set<real>, userEffects: seq<(string, Value)>) returns (e: CustomEffects)
    ensures e.helperCalls == helperCalls && e.helperCallBreakdown == breakdown && e.userReportedEffects == userEffects
    ensures e.touchedParagraphs == |touched|
    ensures e.documentDelta == DeltaOf(before, after)
    ensures e.manualEffectCount == ManualCount(userEffects, |userEffects|)
    ensures e.estimatedChanged == DeltaWeight(e.documentDelta) + |touched| as real + e.manualEffectCount
  {
    var manual := ManualEffectCount(userEffects);
    var delta := DeltaOf(before, after);
    e := CustomEffects(helperCalls, breakdown, |touched|, delta, userEffects, manual,
                       DeltaWeight(delta) + |touched| as real + manual);
  }

  /** `_estimateEffectCount`: the number of changed properties when there are any, else the
      weight of the custom effects, else 0. */
  function EstimateEffectCount(changes: nat, custom: Option<CustomEffects>): (r: real)
    ensures r >= 0.0
    ensures changes > 0 ==> r == changes as real
    ensures changes == 0 && custom.None? ==> r == 0.0
  {
    if changes > 0 then changes as real
    else if custom.None? then 0.0
    else
      var e := custom.value;
      DeltaWeight(e.documentDelta) + e.helperCalls as real + e.touchedParagraphs as real + Abs(e.manualEffectCount)
  }

  /** For effects summarised from a sandbox whose touched paragraphs do not outnumber its calls,
      the estimate is the summary's own estimate plus the helper calls, and it is 0 exactly when
      the document statistics did not move, no helper was called and nothing was reported. */
  lemma EstimateOfSummary(e: CustomEffects, before: DocStats, after: DocStats, touched: set<real>,
                          userEffects: seq<(string, Value)>)
    requires |touched| <= e.helperCalls
    requires e.touchedParagraphs == |touched| && e.documentDelta == DeltaOf(before, after)
    requires e.manualEffectCount == ManualCount(userEffects, |userEffects|)
    requires e.estimatedChanged == DeltaWeight(e.documentDelta) + |touched| as real + e.manualEffectCount
    ensures EstimateEffectCount(0, Some(e)) == e.estimatedChanged + e.helperCalls as real
    ensures EstimateEffectCount(0, Some(e)) == 0.0 <==>
              && DeltaOf(before, after) == Delta(0, 0, 0, false)
              && e.helperCalls == 0
              && forall k :: 0 <= k < |userEffects| ==> EffectWeight(userEffects[k].1) == 0.0
  {
  }

  /** A step can be measured when either snapshot has a property or custom effects were reported. */
  predicate MeasurementAvailable(before: State, after: State, custom: Option<CustomEffects>)
  {
    before != [] || after != [] || custom.Some?
  }

  // ---------------------------------------------------------------- the run

  /** A compiled command as the engine reads it. */
  datatype Command = Command(id: Option<string>, skill: string, description: Option<string>, params: Value)

  /** What `_executeOneCommand` reports back. */
  datatype Meta = Meta(queueWaitMs: real, queueTaskMs: real, customEffects: Option<CustomEffects>)

  /** The clock readings of one step. */
  datatype Timings = Timings(captureBeforeMs: real, executeMs: real, captureAfterMs: real,
                             compareMs: real, totalMs: real, durationMs: real)

  /** How one command's execution ends, with the snapshots around it when it completes. */
  datatype StepOutcome =
    | Completed(before: State, after: State, meta: Meta, timings: Timings)
    | Threw(message: string, durationMs: real)

  /** One element of `results`. */
  datatype StepResult =
    | Succeeded(index: nat, skill: string, comparison: Entry, meta: Meta)
    | FailedStep(index: nat, skill: string, error: string)

  /** The comparison entry of a completed step, finished with the run's ids, the timings, the
      effect count and the zero-effect warning. */
  function Finished(created: Entry, runId: string, stepId: nat, before: State, after: State,
                    meta: Meta, t: Timings): Entry
  {
    var effect := EstimateEffectCount(|created.changes|, meta.customEffects);
    created.(runId := Some(runId), stepId := Some(stepId),
             performance := Some(ComparisonLog.Performance(meta.queueWaitMs, meta.queueTaskMs, t.totalMs,
                                                           t.captureBeforeMs, t.executeMs, t.captureAfterMs, t.compareMs)),
             customEffects := meta.customEffects.Some?,
             effectCount := effect,
             warnings := created.warnings + (if MeasurementAvailable(before, after, meta.customEffects) && effect == 0.0
                                             then [ZERO_EFFECT] else []))
  }

  /** The entry logged for a step that threw: no run id, no changes, status failed. */
  function ErrorEntry(cmd: Command, message: string, durationMs: real): (e: Entry)
    ensures e.status == ComparisonLog.Failed && e.changes == [] && e.error == Some(message) && e.runId.None?
  {
    ComparisonLog.Entry(None, None, cmd.id, Some(cmd.skill),
                        if cmd.description.Some? && cmd.description.value != "" then cmd.description.value else cmd.skill,
                        [], ComparisonLog.Failed, Some(message), [], None, 0.0, false, durationMs)
  }

  /** Step `i` of a run: its result and the entry it logs. */
  function StepOf(cmd: Command, i: nat, runId: string, o: StepOutcome): (r: (StepResult, Entry))
    ensures r.0.index == i && r.0.skill == cmd.skill
    ensures r.0.Succeeded? <==> o.Completed?
    ensures r.0.Succeeded? ==> r.0.comparison == r.1 && r.1.runId == Some(runId) && r.1.stepId == Some(i + 1)
    ensures r.1.status == (if o.Completed? then ComparisonLog.Success else ComparisonLog.Failed)
  {
    match o
    case Completed(before, after, meta, t) =>
      var e := Finished(ComparisonLog.Created(cmd.id, cmd.skill, cmd.description, before, after, t.durationMs),
                        runId, i + 1, before, after, meta, t);
      (Succeeded(i, cmd.skill, e, meta), e)
    case Threw(message, d) => (FailedStep(i, cmd.skill, message), ErrorEntry(cmd, message, d))
  }

  /** A completed step carries the zero-effect warning exactly when its effect count is 0 and it
      could be measured; in particular never for an unmeasured step. */
  lemma ZeroEffectRule(cmd: Command, i: nat, runId: string, o: StepOutcome)
    requires o.Completed?
    ensures var e := StepOf(cmd, i, runId, o).1;
            (ZERO_EFFECT in e.warnings <==> e.effectCount == 0.0 && MeasurementAvailable(o.before, o.after, o.meta.customEffects))
    ensures var e := StepOf(cmd, i, runId, o).1;
            e.effectCount == EstimateEffectCount(|ComparisonLog.ChangesOf(ComparisonLog.KeysOf(o.before), o.before, o.after)|,
                                                 o.meta.customEffects)
  {
  }

  /** A step that throws counts as failed in the summary but, lacking a run id, in no run's counts. */
  lemma FailedStepOutsideRuns(s: ComparisonLog.Summary, cmd: Command, message: string, d: real)
    ensures var t := ComparisonLog.SummaryStep(s, Some(ErrorEntry(cmd, message, d)));
            t.runs == s.runs && t.failedCount == s.failedCount + 1 && t.successCount == s.successCount
  {
  }

  /** `results` and the entries logged agree, step by step, with the first `n` commands. */
  ghost predicate Recorded(results: seq<StepResult>, logged: seq<Option<Entry>>, commands: seq<Command>,
                           runId: string, step: nat -> StepOutcome, n: nat)
  {
    && n <= |commands| && |results| == n && |logged| == n
    && forall k :: 0 <= k < n ==>
         results[k] == StepOf(commands[k], k, runId, step(k)).0 && logged[k] == Some(StepOf(commands[k], k, runId, step(k)).1)
  }

  /** The loop of `run`: one result and one log entry per command, in order; a command that
      throws is recorded and the loop goes on. */
  method RunSteps(log: ComparisonLog.Log, commands: seq<Command>, runId: string, step: nat -> StepOutcome)
    returns (results: seq<StepResult>)
    modifies log
    ensures |log.entries| == |old(log.entries)| + |commands| && log.entries[..|old(log.entries)|] == old(log.entries)
    ensures Recorded(results, log.entries[|old(log.entries)|..], commands, runId, step, |commands|)
  {
    results := [];
    ghost var before := log.entries;
    var i := 0;
    while i < |commands|
      invariant 0 <= i <= |commands|
      invariant |log.entries| == |before| + i && log.entries[..|before|] == before
      invariant Recorded(results, log.entries[|before|..], commands, runId, step, i)
      decreases |commands| - i
    {
      var cmd := commands[i];
      ghost var logged := log.entries[|before|..];
      match step(i) {
        case Completed(b, a, meta, t) =>
          var created := ComparisonLog.CreateEntry(cmd.id, cmd.skill, cmd.description, b, a, t.durationMs);
          var e := Finished(created, runId, i + 1, b, a, meta, t);
          log.AddEntry(Some(e));
          results := results + [Succeeded(i, cmd.skill, e, meta)];
        case Threw(message, d) =>
          log.AddEntry(Some(ErrorEntry(cmd, message, d)));
          results := results + [FailedStep(i, cmd.skill, message)];
      }
      assert log.entries[|before|..] == logged + [Some(StepOf(cmd, i, runId, step(i)).1)];
      i := i + 1;
    }
  }

  /** The host application's screen-updating switch. */
  class Application {
    var screenUpdating: bool

    constructor(on: bool)
      ensures screenUpdating == on
    {
      screenUpdating := on;
    }
  }

  /** The engine's module state: the id of the run in progress. */
  class Engine {
    var currentRunId: Option<string>

    constructor()
      ensures currentRunId.None?
    {
      currentRunId := None;
    }

    /**
     * `run`: screen updating off while there are commands to run, one result per command,
     * screen updating restored and the run id cleared at the end. `runId` is the generated id.
     */
    method Run(log: ComparisonLog.Log, app: Application, commands: seq<Command>, runId: string,
               step: nat -> StepOutcome)
      returns (finishedRunId: string, results: seq<StepResult>, updatingDuringRun: bool)
      modifies this, log, app
      ensures finishedRunId == runId && currentRunId.None?
      ensures updatingDuringRun == (old(app.screenUpdating) && |commands| == 0)
      ensures app.screenUpdating == old(app.screenUpdating)
      ensures |log.entries| == |old(log.entries)| + |commands| && log.entries[..|old(log.entries)|] == old(log.entries)
      ensures Recorded(results, log.entries[|old(log.entries)|..], commands, runId, step, |commands|)
      ensures forall k :: 0 <= k < |results| ==> results[k].index == k && (results[k].Succeeded? <==> step(k).Completed?)
    {
      currentRunId := Some(runId);
      var wasOn := app.screenUpdating;
      var changed := false;
      if |commands| > 0 && wasOn {
        app.screenUpdating := false;
        changed := true;
      }
      updatingDuringRun := app.screenUpdating;
      results := RunSteps(log, commands, runId, step);
      if changed {
        app.screenUpdating := wasOn;
      }
      finishedRunId := runId;
      currentRunId := None;
    }
  }

  /** Whether any command targets a role or a heading level, which makes `run` fill the cache first. */
  predicate NeedsRoleDetect(commands: seq<Command>)
  {
    exists k :: 0 <= k < |commands| && TruthyOpt(TargetOf(commands[k].params)) &&
                (TypeName(TargetOf(commands[k].params)) == "role" || TypeName(TargetOf(commands[k].params)) == "heading_level")
  }

  /** The cache pre-fill before the loop: one detection of `body`, only when some command needs roles. */
  method Prefill(cache: StructureDetect.StructureCache, commands: seq<Command>, doc: Option<StructureDetect.Document>)
    modifies cache
    ensures NeedsRoleDetect(commands) ==>
              cache.State() == StructureDetect.DetectOutcome(old(cache.State()), "body", StructureDetect.DocKey(doc),
                                                             StructureDetect.PassTable(doc),
                                                             StructureDetect.ScannerOf("body", doc)).1
    ensures !NeedsRoleDetect(commands) ==> cache.State() == old(cache.State())
  {
    if NeedsRoleDetect(commands) {
      var _ := cache.Detect("body", doc);
    }
  }
}
