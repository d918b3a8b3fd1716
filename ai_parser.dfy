/**
 * Checking the variables an AI run returns and turning the valid ones into one form
 * section. Error and warning texts are represented by their kind and the 1-based index of
 * the variable they name.
 */
module AiParser {
  import opened Wrappers
  import opened Text
  import opened JsonValue
  import opened Seqs

  const VALID_FORMAT_FNS: seq<string> := ["none", "dateUnderline", "dateYearMonth", "chineseNumber",
                                          "chineseNumberWan", "amountWithChinese", "articleNumber", "percentageChinese"]
  const VALID_TYPES: seq<string> := ["text", "number", "date", "select", "radio", "textarea"]
  const VALID_MODES: seq<string> := ["insert", "paragraph"]
  const REQUIRED_FIELDS: seq<string> := ["context", "placeholder", "label", "tag", "type", "formatFn", "mode"]

  /** The message `TypeError` raised by `field in variable` on a value that is not an object. */
  const IN_OPERATOR_ERROR := "Cannot use 'in' operator"

  /** `list.includes(v)` for a list of strings. */
  predicate IncludesStr(list: seq<string>, v: Value) { v.Str? && v.s in list }

  // ---------------------------------------------------------------- one variable

  /** The kinds of error `validateVariable` reports. */
  datatype VarError =
    | MissingField(field: string)   // a required field that is absent, null or ''
    | NoPrefixKey                   // no `prefix` property at all
    | NoSuffixKey                   // no `suffix` property at all
    | InvalidType
    | InvalidMode
    | MissingOptions

  /** The outcome of each check `validateVariable` makes on one variable. */
  datatype VarCheck = VarCheck(missing: seq<string>, noPrefix: bool, noSuffix: bool, badType: bool,
                               badMode: bool, noOptions: bool, formatWarning: bool)
  {
    /** `errors.length === 0`; an unknown formatFn is only a warning. */
    predicate Valid() { missing == [] && !noPrefix && !noSuffix && !badType && !badMode && !noOptions }

    /** The `errors` array, in the order the checks run. */
    function Errors(): (r: seq<VarError>)
      ensures r == [] <==> Valid()
      ensures forall f :: MissingField(f) in r <==> f in missing
    {
      NamedMissing(missing);
      FlagsMeaning(this);
      Map(missing, MissingFieldOf) + Flags()
    }

    /** The errors after the missing fields, one per other failed check. */
    function Flags(): seq<VarError>
    {
      (if noPrefix then [NoPrefixKey] else []) + (if noSuffix then [NoSuffixKey] else [])
      + (if badType then [InvalidType] else []) + (if badMode then [InvalidMode] else [])
      + (if noOptions then [MissingOptions] else [])
    }
  }

  /** One `MissingField` error per missing field, and no other. */
  lemma NamedMissing(missing: seq<string>)
    ensures Map(missing, MissingFieldOf) == [] <==> missing == []
    ensures forall f :: MissingField(f) in Map(missing, MissingFieldOf) <==> f in missing
  {
    var named := Map(missing, MissingFieldOf);
    MapAt(missing, MissingFieldOf);
    forall f | f in missing ensures MissingField(f) in named {
      var i :| 0 <= i < |missing| && missing[i] == f;
      assert named[i] == MissingField(f);
    }
  }

  /** The other checks add no `MissingField`, and nothing exactly when they all pass. */
  lemma FlagsMeaning(c: VarCheck)
    ensures c.Flags() == [] <==> !c.noPrefix && !c.noSuffix && !c.badType && !c.badMode && !c.noOptions
    ensures forall x :: x in c.Flags() ==> !x.MissingField?
  {
  }

  function MissingFieldOf(f: string): VarError { MissingField(f) }

  /** A property read `variable[key]`; `None` is `undefined`. */
  type Props = string -> Option<Value>

  /** The property reads of a variable. */
  function PropsOf(v: Value): Props { key => Get(v, key) }

  /** A required field is present and neither null nor `''`. */
  predicate Filled(get: Props, field: string)
  {
    get(field).Some? && get(field).value != Null && get(field).value != Str("")
  }

  /** The required fields that are not filled, in the order of `fields`. */
  function Unfilled(get: Props, fields: seq<string>): (r: seq<string>)
    ensures |r| <= |fields|
    ensures forall f :: f in r <==> f in fields && !Filled(get, f)
  {
    var checks := seq(|fields|, i requires 0 <= i < |fields| => if Filled(get, fields[i]) then None else Some(fields[i]));
    assert forall f :: f in fields && !Filled(get, f) ==> Some(f) in checks by {
      forall f | f in fields && !Filled(get, f) ensures Some(f) in checks {
        var i :| 0 <= i < |fields| && fields[i] == f;
        assert checks[i] == Some(f);
      }
    }
    Somes(checks)
  }

  /** `variable.type === 'select' || 'radio'` with no non-empty options array. */
  predicate NeedsOptions(get: Props)
  {
    (get("type") == Some(Str("select")) || get("type") == Some(Str("radio")))
    && !(TruthyOpt(get("options")) && get("options").value.Arr? && |get("options").value.items| > 0)
  }

  /** A truthy value outside its list. */
  predicate Outside(o: Option<Value>, list: seq<string>) { TruthyOpt(o) && !IncludesStr(list, o.value) }

  /** `validateVariable` on an object, through its property reads, given the required fields. */
  function CheckProps(get: Props, required: seq<string>): (r: VarCheck)
    ensures forall f :: f in r.missing <==> f in required && !Filled(get, f)
    ensures r.noPrefix <==> get("prefix").None?
    ensures r.noSuffix <==> get("suffix").None?
    ensures r.badType <==> Outside(get("type"), VALID_TYPES)
    ensures r.badMode <==> Outside(get("mode"), VALID_MODES)
    ensures r.noOptions <==> NeedsOptions(get)
    ensures r.formatWarning <==> Outside(get("formatFn"), VALID_FORMAT_FNS)
    ensures r.Valid() <==>
              (forall f :: f in required ==> Filled(get, f)) && get("prefix").Some? && get("suffix").Some?
              && !Outside(get("type"), VALID_TYPES) && !Outside(get("mode"), VALID_MODES) && !NeedsOptions(get)
  {
    var missing := Unfilled(get, required);
    assert missing == [] <==> forall f :: f in required ==> Filled(get, f) by {
      if missing != [] { assert missing[0] in missing; }
    }
    VarCheck(missing, get("prefix").None?, get("suffix").None?, Outside(get("type"), VALID_TYPES),
             Outside(get("mode"), VALID_MODES), NeedsOptions(get), Outside(get("formatFn"), VALID_FORMAT_FNS))
  }

  function CheckVariable(v: Value): VarCheck { CheckProps(PropsOf(v), REQUIRED_FIELDS) }

  /** Each required field is reported at most once, so a variable has at most twelve errors. */
  lemma AtMostTwelveErrors(get: Props)
    ensures |CheckProps(get, REQUIRED_FIELDS).Errors()| <= 12
  {
  }

  /** `validateVariable`: `field in variable` throws on anything but an object or array. */
  function ValidateVariable(v: Value): (r: Result<VarCheck, string>)
    ensures r.Err? <==> !IsObjectLike(v)
    ensures r.Ok? ==> r.value == CheckVariable(v)
  {
    if IsObjectLike(v) then Ok(CheckVariable(v)) else Err(IN_OPERATOR_ERROR)
  }

  predicate ValidVariable(v: Value) { IsObjectLike(v) && CheckVariable(v).Valid() }

  // ---------------------------------------------------------------- the whole output

  /** The errors `validateAIOutput` reports. */
  datatype OutputError = NotObject | NoVariables | NotArray | BadVariable(index: nat, errors: seq<VarError>)

  datatype OutputCheck = OutputCheck(valid: bool, errors: seq<OutputError>, warnings: seq<nat>)

  /** The variables array, or the error that stops the check before it. */
  function VariablesOf(aiOutput: Option<Value>): (r: Result<seq<Value>, OutputError>)
  {
    if !TruthyOpt(aiOutput) || !IsObjectLike(aiOutput.value) then Err(NotObject)
    else if !Has(aiOutput.value, "variables") then Err(NoVariables)
    else if !Get(aiOutput.value, "variables").value.Arr? then Err(NotArray)
    else Ok(Get(aiOutput.value, "variables").value.items)
  }

  predicate AllObjects(vs: seq<Value>) { forall k :: 0 <= k < |vs| ==> IsObjectLike(vs[k]) }

  /** The per-variable errors, in order, each with the 1-based index of its variable. */
  function VariableErrors<V>(vs: seq<V>, check: V -> VarCheck): (r: seq<OutputError>)
    ensures |r| <= |vs|
  {
    if vs == [] then []
    else
      var c := check(vs[|vs| - 1]);
      VariableErrors(vs[..|vs| - 1], check) + (if c.Valid() then [] else [BadVariable(|vs|, c.Errors())])
  }

  /** The errors name exactly the invalid variables, by their 1-based index. */
  lemma VariableErrorsMeaning<V>(vs: seq<V>, check: V -> VarCheck)
    ensures VariableErrors(vs, check) == [] <==> forall k :: 0 <= k < |vs| ==> check(vs[k]).Valid()
    ensures forall e :: e in VariableErrors(vs, check) ==>
              e.BadVariable? && 1 <= e.index <= |vs| && !check(vs[e.index - 1]).Valid() && e.errors == check(vs[e.index - 1]).Errors()
  {
    VariableErrorsEmpty(vs, check);
    VariableErrorsSound(vs, check);
  }

  /** Error `e` is the report on an invalid variable of `vs`. */
  predicate Reports<V>(e: OutputError, vs: seq<V>, check: V -> VarCheck)
  {
    e.BadVariable? && 1 <= e.index <= |vs| && !check(vs[e.index - 1]).Valid() && e.errors == check(vs[e.index - 1]).Errors()
  }

  lemma {:induction false} VariableErrorsEmpty<V>(vs: seq<V>, check: V -> VarCheck)
    ensures VariableErrors(vs, check) == [] <==> forall k :: 0 <= k < |vs| ==> check(vs[k]).Valid()
  {
    if vs != [] {
      var init := vs[..|vs| - 1];
      VariableErrorsEmpty(init, check);
      assert forall k :: 0 <= k < |init| ==> init[k] == vs[k];
    }
  }

  lemma {:induction false} VariableErrorsSound<V>(vs: seq<V>, check: V -> VarCheck)
    ensures forall e :: e in VariableErrors(vs, check) ==> Reports(e, vs, check)
  {
    if vs != [] {
      var init := vs[..|vs| - 1];
      VariableErrorsSound(init, check);
      var c := check(vs[|vs| - 1]);
      var last: seq<OutputError> := if c.Valid() then [] else [BadVariable(|vs|, c.Errors())];
      assert VariableErrors(vs, check) == VariableErrors(init, check) + last;
      forall e | e in VariableErrors(init, check) ensures Reports(e, vs, check) {
        assert init[e.index - 1] == vs[e.index - 1];
      }
    }
  }

  /** The 1-based indices of the variables with an unknown `formatFn`. */
  function FormatWarnings<V>(vs: seq<V>, check: V -> VarCheck): (r: seq<nat>)
    ensures |r| <= |vs|
  {
    if vs == [] then []
    else FormatWarnings(vs[..|vs| - 1], check) + (if check(vs[|vs| - 1]).formatWarning then [|vs|] else [])
  }

  /** A warning is raised for exactly the variables whose `formatFn` is unknown. */
  lemma {:induction false} FormatWarningsMeaning<V>(vs: seq<V>, check: V -> VarCheck)
    ensures forall i :: i in FormatWarnings(vs, check) <==> 1 <= i <= |vs| && check(vs[i - 1]).formatWarning
  {
    if vs != [] {
      var init := vs[..|vs| - 1];
      FormatWarningsMeaning(init, check);
      assert forall k :: 0 <= k < |init| ==> init[k] == vs[k];
    }
  }

  /** `variables.filter(v => validateVariable(v).valid)`: the valid variables, in order. */
  function Passing<V>(vs: seq<V>, check: V -> VarCheck): (r: seq<V>)
    ensures |r| <= |vs|
  {
    if vs == [] then []
    else Passing(vs[..|vs| - 1], check) + (if check(vs[|vs| - 1]).Valid() then [vs[|vs| - 1]] else [])
  }

  /** The filter keeps exactly the valid variables. */
  lemma {:induction false} PassingMeaning<V(!new)>(vs: seq<V>, check: V -> VarCheck)
    ensures forall v :: v in Passing(vs, check) <==> v in vs && check(v).Valid()
  {
    if vs != [] {
      var init := vs[..|vs| - 1];
      PassingMeaning(init, check);
      assert forall v :: v in vs <==> v in init || v == vs[|vs| - 1];
    }
  }

  /** What one pass of `validateVariable` over the variables finds. */
  datatype Scan<V> = Scan(errors: seq<OutputError>, warnings: seq<nat>, valid: seq<V>)

  function ScanOf<V>(vs: seq<V>, check: V -> VarCheck): Scan<V>
  {
    Scan(VariableErrors(vs, check), FormatWarnings(vs, check), Passing(vs, check))
  }

  /** The scan after variable `i + 1` (1-based) with outcome `c`. */
  function ScanNext<V>(s: Scan<V>, i: nat, v: V, c: VarCheck): Scan<V>
  {
    Scan(s.errors + (if c.Valid() then [] else [BadVariable(i + 1, c.Errors())]),
         s.warnings + (if c.formatWarning then [i + 1] else []),
         s.valid + (if c.Valid() then [v] else []))
  }

  /** One more variable adds its error, its warning and itself (when valid) at the end. */
  lemma ScanStep<V>(vs: seq<V>, i: nat, check: V -> VarCheck)
    requires i < |vs|
    ensures ScanOf(vs[..i + 1], check) == ScanNext(ScanOf(vs[..i], check), i, vs[i], check(vs[i]))
  {
    TakeTake(vs, i);
  }

  /**
   * The `forEach` over the variables that `validateAIOutput` and `parseAIOutput` share:
   * it stops with the `in` error at the first variable that is not an object.
   */
  method ScanVariables<V>(vs: seq<V>, isObject: V -> bool, check: V -> VarCheck) returns (r: Result<Scan<V>, string>)
    ensures r.Err? <==> exists k :: 0 <= k < |vs| && !isObject(vs[k])
    ensures r.Err? ==> r.error == IN_OPERATOR_ERROR
    ensures r.Ok? ==> r.value == ScanOf(vs, check)
  {
    var acc := Scan([], [], []);
    for i := 0 to |vs|
      invariant forall k :: 0 <= k < i ==> isObject(vs[k])
      invariant acc == ScanOf(vs[..i], check)
    {
      if !isObject(vs[i]) {
        return Err(IN_OPERATOR_ERROR);
      }
      ScanStep(vs, i, check);
      acc := ScanNext(acc, i, vs[i], check(vs[i]));
    }
    assert vs[..|vs|] == vs;
    r := Ok(acc);
  }

  /** What `validateAIOutput` returns, or the error it throws. */
  function OutputCheckOf(aiOutput: Option<Value>): (r: Result<OutputCheck, string>)
  {
    match VariablesOf(aiOutput)
    case Err(e) => Ok(OutputCheck(false, [e], []))
    case Ok(vs) =>
      if !AllObjects(vs) then Err(IN_OPERATOR_ERROR)
      else
        var errors := VariableErrors(vs, CheckVariable);
        Ok(OutputCheck(errors == [], errors, FormatWarnings(vs, CheckVariable)))
  }

  /** The output is valid exactly when it holds a variables array whose every entry is valid. */
  lemma OutputValidIff(aiOutput: Option<Value>)
    requires OutputCheckOf(aiOutput).Ok?
    ensures OutputCheckOf(aiOutput).value.valid <==>
              VariablesOf(aiOutput).Ok? && forall k :: 0 <= k < |VariablesOf(aiOutput).value| ==> ValidVariable(VariablesOf(aiOutput).value[k])
  {
    if VariablesOf(aiOutput).Ok? {
      VariableErrorsMeaning(VariablesOf(aiOutput).value, CheckVariable);
    }
  }

  /** `validateAIOutput`: the `forEach` over the variables. */
  method ValidateAIOutput(aiOutput: Option<Value>) returns (r: Result<OutputCheck, string>)
    ensures r == OutputCheckOf(aiOutput)
  {
    var found := VariablesOf(aiOutput);
    if found.Err? {
      return Ok(OutputCheck(false, [found.error], []));
    }
    var scan := ScanVariables(found.value, IsObjectLike, CheckVariable);
    if scan.Err? {
      return Err(scan.error);
    }
    r := Ok(OutputCheck(scan.value.errors == [], scan.value.errors, scan.value.warnings));
  }

  // ---------------------------------------------------------------- conversion

  /** `generateFieldId`: the tag with its first character lower-cased. */
  function FieldId(tag: string): (id: string)
    ensures |id| == |tag|
    ensures tag != "" ==> id[0] == LowerChar(tag[0]) && id[1..] == tag[1..]
  {
    if tag == "" then "" else [LowerChar(tag[0])] + tag[1..]
  }

  /** `_aiContext` of a field. */
  datatype AiContext = AiContext(context: Option<Value>, prefix: Option<Value>, placeholder: Option<Value>,
                                 suffix: Option<Value>, layer: Value, confidence: Value, reason: Value)

  /** A form field; a `None` formatFn is `null`. */
  datatype Field = Field(id: string, name: Option<Value>, tag: string, fieldType: Option<Value>,
                         formatFn: Option<Value>, placeholder: Option<Value>, aiContext: AiContext,
                         options: Option<Value>, hasParagraphToggle: bool)

  /** `v || fallback`. */
  function OrElse(o: Option<Value>, fallback: Value): (r: Value)
    ensures TruthyOpt(o) ==> r == o.value
    ensures !TruthyOpt(o) ==> r == fallback
  {
    if TruthyOpt(o) then o.value else fallback
  }

  /** The formatFn a field keeps: an unknown one becomes `'none'`, and `'none'` becomes null. */
  function FieldFormat(f: Option<Value>): (r: Option<Value>)
    ensures r.Some? ==> r == f && (!TruthyOpt(f) || IncludesStr(VALID_FORMAT_FNS, f.value)) && f != Some(Str("none"))
    ensures Outside(f, VALID_FORMAT_FNS) || f == Some(Str("none")) ==> r.None?
  {
    var g := if Outside(f, VALID_FORMAT_FNS) then Some(Str("none")) else f;
    if g == Some(Str("none")) then None else g
  }

  /** `variable.options && variable.options.length > 0`. */
  predicate HasOptions(o: Option<Value>)
  {
    TruthyOpt(o) && ((o.value.Arr? && |o.value.items| > 0) || (o.value.Str? && |o.value.s| > 0))
  }

  /** `convertVariableToField`; the id needs a string tag, anything else throws. */
  function ConvertVariable(v: Value): (r: Result<Field, string>)
    ensures r.Ok? <==> Get(v, "tag").Some? && Get(v, "tag").value.Str?
    ensures r.Ok? ==> var f := r.value;
              && f.tag == Get(v, "tag").value.s && f.id == FieldId(f.tag)
              && f.formatFn == FieldFormat(Get(v, "formatFn"))
              && f.hasParagraphToggle == (Get(v, "mode") == Some(Str("paragraph")))
              && f.aiContext.layer == OrElse(Get(v, "layer"), Num(1.0))
              && f.aiContext.confidence == OrElse(Get(v, "confidence"), Str("medium"))
              && f.aiContext.reason == OrElse(Get(v, "reason"), Str(""))
              && (f.options.Some? <==> HasOptions(Get(v, "options")))
  {
    var tag := Get(v, "tag");
    if tag.None? || !tag.value.Str? then Err("tag.charAt is not a function")
    else
      var ctx := AiContext(Get(v, "context"), Get(v, "prefix"), Get(v, "placeholder"), Get(v, "suffix"),
                           OrElse(Get(v, "layer"), Num(1.0)), OrElse(Get(v, "confidence"), Str("medium")),
                           OrElse(Get(v, "reason"), Str("")));
      Ok(Field(FieldId(tag.value.s), Get(v, "label"), tag.value.s, Get(v, "type"), FieldFormat(Get(v, "formatFn")),
               Get(v, "placeholder"), ctx, if HasOptions(Get(v, "options")) then Get(v, "options") else None,
               Get(v, "mode") == Some(Str("paragraph"))))
  }

  /** The one section `groupVariablesBySection` builds. */
  datatype Section = Section(id: string, headerLabel: string, headerTag: string, fields: seq<Field>)

  function DefaultSection(fields: seq<Field>): Section
  {
    Section("ai_recognized_fields", "AI 识别的变量", "Section_AIRecognized", fields)
  }

  /** `groupVariablesBySection`: every variable becomes a field of the one default section. */
  method GroupVariables(vs: seq<Value>) returns (r: Result<seq<Section>, string>)
    ensures r.Ok? <==> MapResult(ConvertVariable, vs).Ok?
    ensures r.Ok? ==> r.value == [DefaultSection(MapResult(ConvertVariable, vs).value)]
    ensures r.Err? ==> r.error == MapResult(ConvertVariable, vs).error
  {
    var fields := MapPush(ConvertVariable, vs);
    if fields.Err? {
      return Err(fields.error);
    }
    r := Ok([DefaultSection(fields.value)]);
  }

  // ---------------------------------------------------------------- parseAIOutput

  datatype ParseError = NotAnObject | NoVariablesArray | NoValidVariables | ConversionFailed(message: string)

  datatype ParseWarning = UnknownFormatFn(index: nat) | SkippedInvalid(count: nat)

  /** The statistics of a successful parse: counts by layer 1..3, by mode, and by type. */
  datatype Stats = Stats(total: nat, skipped: nat, byLayer: seq<nat>, byMode: seq<nat>, byType: seq<nat>)

  datatype Parsed =
    | Failed(errors: seq<ParseError>, warnings: seq<ParseWarning>)
    | Succeeded(config: Option<seq<Section>>, stats: Option<Stats>, warnings: seq<ParseWarning>)

  predicate FieldIs(v: Value, key: string, x: Value) { Get(v, key) == Some(x) }

  /** The number of valid variables whose `key` is exactly `x`. */
  function CountWith(vs: seq<Value>, key: string, x: Value): (n: nat)
    ensures n <= |vs|
  {
    if vs == [] then 0 else CountWith(vs[..|vs| - 1], key, x) + (if FieldIs(vs[|vs| - 1], key, x) then 1 else 0)
  }

  function StatsOf(valid: seq<Value>, skipped: nat): (s: Stats)
    ensures s.total == |valid| && s.skipped == skipped
    ensures |s.byLayer| == 3 && |s.byMode| == 2 && |s.byType| == |VALID_TYPES|
  {
    Stats(|valid|, skipped,
          [CountWith(valid, "layer", Num(1.0)), CountWith(valid, "layer", Num(2.0)), CountWith(valid, "layer", Num(3.0))],
          [CountWith(valid, "mode", Str("insert")), CountWith(valid, "mode", Str("paragraph"))],
          Map(VALID_TYPES, t => CountWith(valid, "type", Str(t))))
  }

  function UnknownFormatFnOf(i: nat): ParseWarning { UnknownFormatFn(i) }

  /** The warnings `parseAIOutput` collects: one per unknown `formatFn`, then the skipped count. */
  function ParseWarnings<V>(vs: seq<V>, check: V -> VarCheck): seq<ParseWarning>
  {
    var skipped := |vs| - |Passing(vs, check)|;
    Map(FormatWarnings(vs, check), UnknownFormatFnOf) + (if skipped > 0 then [SkippedInvalid(skipped)] else [])
  }

  /** What `parseAIOutput` returns, or the error it throws. */
  function ParseOf(aiOutput: Option<Value>, validateOnly: bool): (r: Result<Parsed, string>)
  {
    if !TruthyOpt(aiOutput) || !IsObjectLike(aiOutput.value) then Ok(Failed([NotAnObject], []))
    else if !Has(aiOutput.value, "variables") || !Get(aiOutput.value, "variables").value.Arr? then Ok(Failed([NoVariablesArray], []))
    else
      var vs := Get(aiOutput.value, "variables").value.items;
      if !AllObjects(vs) then Err(IN_OPERATOR_ERROR)
      else
        var valid := Passing(vs, CheckVariable);
        var skipped := |vs| - |valid|;
        var warnings := ParseWarnings(vs, CheckVariable);
        if valid == [] then Ok(Failed([NoValidVariables], warnings))
        else if validateOnly then Ok(Succeeded(None, None, warnings))
        else
          match MapResult(ConvertVariable, valid)
          case Err(e) => Ok(Failed([ConversionFailed(e)], warnings))
          case Ok(fields) => Ok(Succeeded(Some([DefaultSection(fields)]), Some(StatsOf(valid, skipped)), warnings))
  }

  /** `parseAIOutput`. */
  method ParseAIOutput(aiOutput: Option<Value>, validateOnly: bool) returns (r: Result<Parsed, string>)
    ensures r == ParseOf(aiOutput, validateOnly)
  {
    if !TruthyOpt(aiOutput) || !IsObjectLike(aiOutput.value) {
      return Ok(Failed([NotAnObject], []));
    }
    if !Has(aiOutput.value, "variables") || !Get(aiOutput.value, "variables").value.Arr? {
      return Ok(Failed([NoVariablesArray], []));
    }
    var vs := Get(aiOutput.value, "variables").value.items;
    var scan := ScanVariables(vs, IsObjectLike, CheckVariable);
    if scan.Err? {
      return Err(scan.error);
    }
    var valid, skipped, indices := scan.value.valid, |vs| - |scan.value.valid|, scan.value.warnings;
    var warnings := Map(indices, UnknownFormatFnOf) + (if skipped > 0 then [SkippedInvalid(skipped)] else []);
    assert warnings == ParseWarnings(vs, CheckVariable);
    if |valid| == 0 {
      return Ok(Failed([NoValidVariables], warnings));
    }
    if validateOnly {
      return Ok(Succeeded(None, None, warnings));
    }
    var sections := GroupVariables(valid);
    if sections.Err? {
      return Ok(Failed([ConversionFailed(sections.error)], warnings));
    }
    r := Ok(Succeeded(Some(sections.value), Some(StatsOf(valid, skipped)), warnings));
  }

  /**
   * A successful full parse has one section with one field per valid variable, in order;
   * its statistics count the valid variables as the total and the others as skipped. A
   * parse with no valid variable fails, and a check-only parse carries no configuration.
   */
  lemma ParseMeaning(aiOutput: Option<Value>, validateOnly: bool)
    requires ParseOf(aiOutput, validateOnly).Ok?
    ensures var p := ParseOf(aiOutput, validateOnly).value;
            p.Succeeded? ==>
              && TruthyOpt(aiOutput) && Has(aiOutput.value, "variables")
              && var vs := Get(aiOutput.value, "variables").value.items;
                 var valid := Passing(vs, CheckVariable);
                 && valid != []
                 && (forall v :: v in valid ==> v in vs && CheckVariable(v).Valid())
                 && (validateOnly <==> p.config.None?)
                 && (p.config.Some? ==>
                       |p.config.value| == 1 && |p.config.value[0].fields| == |valid|
                       && (forall k :: 0 <= k < |valid| ==> ConvertVariable(valid[k]) == Ok(p.config.value[0].fields[k]))
                       && p.stats.Some? && p.stats.value.total + p.stats.value.skipped == |vs|)
  {
    var p := ParseOf(aiOutput, validateOnly).value;
    if p.Succeeded? {
      PassingMeaning(Get(aiOutput.value, "variables").value.items, CheckVariable);
    }
  }

  /**
   * The warnings of a parse name, by 1-based index, exactly the variables with an unknown
   * `formatFn`, and report the skipped variables when there are any.
   */
  lemma WarningsMeaning<V>(vs: seq<V>, check: V -> VarCheck)
    ensures forall i: nat :: UnknownFormatFn(i) in ParseWarnings(vs, check) <==> 1 <= i <= |vs| && check(vs[i - 1]).formatWarning
    ensures (exists n :: SkippedInvalid(n) in ParseWarnings(vs, check)) <==> exists k :: 0 <= k < |vs| && !check(vs[k]).Valid()
  {
    FormatWarningsMeaning(vs, check);
    PassingAll(vs, check);
    var ws := FormatWarnings(vs, check);
    var named := Map(ws, UnknownFormatFnOf);
    MapAt(ws, UnknownFormatFnOf);
    assert forall i: nat :: UnknownFormatFn(i) in named <==> i in ws by {
      forall i: nat ensures UnknownFormatFn(i) in named <==> i in ws {
        if i in ws {
          var j :| 0 <= j < |ws| && ws[j] == i;
          assert named[j] == UnknownFormatFn(i);
        }
      }
    }
    assert forall n :: SkippedInvalid(n) !in named;
  }

  /** The filter keeps everything exactly when no variable fails. */
  lemma {:induction false} PassingAll<V>(vs: seq<V>, check: V -> VarCheck)
    ensures |Passing(vs, check)| == |vs| <==> forall k :: 0 <= k < |vs| ==> check(vs[k]).Valid()
  {
    if vs != [] {
      var init := vs[..|vs| - 1];
      PassingAll(init, check);
      assert forall k :: 0 <= k < |init| ==> init[k] == vs[k];
    }
  }

  // ---------------------------------------------------------------- embed info

  const EMBED_KEYS: seq<string> := ["tag", "label", "context", "prefix", "placeholder", "suffix",
                                    "mode", "type", "formatFn", "layer", "confidence"]

  /** The embed record of one variable: the listed keys with their values, absent ones as `undefined`. */
  function EmbedOf(v: Value): (r: Result<seq<(string, Option<Value>)>, string>)
    ensures r.Err? <==> v.Null?
    ensures r.Ok? ==> |r.value| == |EMBED_KEYS| && forall k :: 0 <= k < |EMBED_KEYS| ==> r.value[k] == (EMBED_KEYS[k], Get(v, EMBED_KEYS[k]))
  {
    if v.Null? then Err("Cannot read properties of null")
    else
      MapAt(EMBED_KEYS, key => (key, Get(v, key)));
      Ok(Map(EMBED_KEYS, key => (key, Get(v, key))))
  }

  /** `generateEmbedInfo`: nothing without variables; `.map` throws on a non-array. */
  function GenerateEmbedInfo(aiOutput: Option<Value>): (r: Result<seq<seq<(string, Option<Value>)>>, string>)
    ensures !TruthyOpt(aiOutput) || !TruthyOpt(Get(aiOutput.value, "variables")) ==> r == Ok([])
    ensures r.Ok? && TruthyOpt(aiOutput) && TruthyOpt(Get(aiOutput.value, "variables")) ==>
              var vs := Get(aiOutput.value, "variables").value;
              vs.Arr? && |r.value| == |vs.items| && forall k :: 0 <= k < |vs.items| ==> EmbedOf(vs.items[k]) == Ok(r.value[k])
  {
    if !TruthyOpt(aiOutput) || !TruthyOpt(Get(aiOutput.value, "variables")) then Ok([])
    else
      var vs := Get(aiOutput.value, "variables").value;
      if !vs.Arr? then Err("variables.map is not a function")
      else MapResult(EmbedOf, vs.items)
  }
}
