/**
 * The checker script of the contract-template skill: it reads the skill's JSON output and
 * reports every schema violation of every variable, printing an OK line only when there is
 * none. The file read and `JSON.parse` are an oracle: the input is the parsed value, or
 * `None` when reading or parsing failed.
 */
module ValidateOutput {
  import opened Wrappers
  import opened JsonValue
  import opened Seqs

  const VALID_TYPES: seq<string> := ["text", "number", "date", "select", "radio", "textarea"]
  const VALID_FORMATS: seq<string> :=
    ["none", "dateUnderline", "dateYearMonth", "chineseNumber", "chineseNumberWan",
     "amountWithChinese", "articleNumber", "percentageChinese"]
  const VALID_MODES: seq<string> := ["insert", "paragraph"]
  const REQUIRED_FIELDS: seq<string> :=
    ["context", "prefix", "placeholder", "suffix", "label", "tag", "type", "formatFn", "mode"]

  /** One `ERROR:` line; `index` is the `i` of `variables[i]`. */
  datatype Failure =
    | NoVariables
    | MissingField(index: nat, key: string)
    | DuplicateTag(index: nat, tag: string)
    | InvalidType(index: nat, value: Value)
    | InvalidFormatFn(index: nat, value: Value)
    | InvalidMode(index: nat, value: Value)
    | MissingOptions(index: nat, kind: string)
  {
    predicate About(i: nat) { !NoVariables? && index == i }
  }

  /**
   * How the run ends: the OK line with the number of variables, exit code 1 after failures,
   * an uncaught TypeError from `key in v` on a variable that is not an object, or exit code 2
   * when the file could not be read or parsed.
   */
  datatype Outcome = Passed(count: nat) | Failed | Crashed(index: nat) | Unreadable

  datatype Report = Report(failures: seq<Failure>, outcome: Outcome)

  /** The process exit code. */
  function ExitCode(o: Outcome): (r: nat)
    ensures r == 0 <==> o.Passed?
    ensures r == 2 <==> o.Unreadable?
  {
    match o
    case Passed(_) => 0
    case Failed => 1
    case Crashed(_) => 1
    case Unreadable => 2
  }

  /** The property reads of one variable (`v[key]`, `undefined` is `None`). */
  type Props = string -> Option<Value>

  function PropsOf(v: Value): Props { key => Get(v, key) }

  /** `typeof v.tag === 'string'`. */
  function TagOf(v: Value): Option<string>
  {
    match Get(v, "tag")
    case Some(Str(t)) => Some(t)
    case _ => None
  }

  /** `Set.has` on a string set: only a string can be a member. */
  predicate InSet(x: Value, set_: seq<string>) { x.Str? && x.s in set_ }

  /** The required keys for which `key in v` is false, in the order of `keys`. */
  function MissingKeys(get: Props, keys: seq<string>): seq<string>
  {
    Somes(seq(|keys|, k requires 0 <= k < |keys| => if get(keys[k]).Some? then None else Some(keys[k])))
  }

  /** Each absent key is listed, once, and no present key is. */
  lemma MissingKeysMeaning(get: Props, keys: seq<string>)
    requires Distinct(keys)
    ensures forall key :: key in MissingKeys(get, keys) <==> key in keys && get(key).None?
    ensures Distinct(MissingKeys(get, keys))
  {
    var os := seq(|keys|, k requires 0 <= k < |keys| => if get(keys[k]).Some? then None else Some(keys[k]));
    forall key | key in keys && get(key).None? ensures Some(key) in os {
      var k :| 0 <= k < |keys| && keys[k] == key;
      assert os[k] == Some(key);
    }
    SomesDistinct(os);
  }

  /** `v.type === 'select' || v.type === 'radio'` without a non-empty options array. */
  function OptionsMissing(get: Props): Option<string>
  {
    match get("type")
    case Some(Str(t)) =>
      if (t == "select" || t == "radio") && !(get("options").Some? && get("options").value.Arr? && |get("options").value.items| > 0)
      then Some(t) else None
    case _ => None
  }

  /** `v.key && !SET.has(v.key)`: the value read, when it must be reported. */
  function Invalid(o: Option<Value>, allowed: seq<string>): (r: Option<Value>)
  {
    match o
    case Some(x) => if Truthy(x) && !InSet(x, allowed) then o else None
    case None => None
  }

  /** The outcome of each check on one variable. */
  datatype VarCheck = VarCheck(
    missing: seq<string>,       // required keys that are absent
    duplicate: Option<string>,  // a string tag seen before
    badType: Option<Value>,
    badFormat: Option<Value>,
    badMode: Option<Value>,
    noOptions: Option<string>)  // select or radio without options
  {
    /** The `ERROR:` lines for `variables[i]`, in the order the checks run. */
    function Failures(i: nat): seq<Failure>
    {
      Map(missing, key => MissingField(i, key)) + Flagged(i)
    }

    /** The lines after the missing fields: one per other failed check. */
    function Flagged(i: nat): seq<Failure>
    {
      (if duplicate.Some? then [DuplicateTag(i, duplicate.value)] else [])
      + (if badType.Some? then [InvalidType(i, badType.value)] else [])
      + (if badFormat.Some? then [InvalidFormatFn(i, badFormat.value)] else [])
      + (if badMode.Some? then [InvalidMode(i, badMode.value)] else [])
      + (if noOptions.Some? then [MissingOptions(i, noOptions.value)] else [])
    }
  }

  /** Whether the check record `c` of `variables[i]` calls for the failure line `f`. */
  predicate Reports(c: VarCheck, i: nat, f: Failure)
  {
    match f
    case NoVariables => false
    case MissingField(j, key) => j == i && key in c.missing
    case DuplicateTag(j, t) => j == i && c.duplicate == Some(t)
    case InvalidType(j, x) => j == i && c.badType == Some(x)
    case InvalidFormatFn(j, x) => j == i && c.badFormat == Some(x)
    case InvalidMode(j, x) => j == i && c.badMode == Some(x)
    case MissingOptions(j, t) => j == i && c.noOptions == Some(t)
  }

  /**
   * Each outcome becomes its own failure line and nothing else does: a line is printed exactly
   * when the record calls for it, so every line names `variables[i]`.
   */
  lemma FailuresMeaning(c: VarCheck, i: nat)
    ensures forall f :: f in c.Failures(i) <==> Reports(c, i, f)
  {
    var ms := Map(c.missing, key => MissingField(i, key));
    MissingLines(c.missing, i);
    FlaggedMeaning(c, i);
    forall f ensures f in c.Failures(i) <==> Reports(c, i, f) {
      assert f in c.Failures(i) <==> f in ms || f in c.Flagged(i);
      if f.MissingField? && f.index == i {
        assert f == MissingField(i, f.key);
      }
    }
  }

  lemma FlaggedMeaning(c: VarCheck, i: nat)
    ensures forall f :: f in c.Flagged(i) <==> !f.MissingField? && Reports(c, i, f)
  {
  }

  /** The `MissingField` lines are about `variables[i]` and name exactly the missing keys. */
  lemma MissingLines(missing: seq<string>, i: nat)
    ensures forall f :: f in Map(missing, key => MissingField(i, key)) ==> f.MissingField? && f.index == i && f.key in missing
    ensures forall key :: MissingField(i, key) in Map(missing, key => MissingField(i, key)) <==> key in missing
  {
    var ms := Map(missing, key => MissingField(i, key));
    MapAt(missing, key => MissingField(i, key));
    forall f | f in ms ensures f.MissingField? && f.index == i && f.key in missing {
      var k :| 0 <= k < |ms| && ms[k] == f;
    }
    forall key | key in missing ensures MissingField(i, key) in ms {
      var k :| 0 <= k < |missing| && missing[k] == key;
      assert ms[k] == MissingField(i, key);
    }
  }

  /** The checks of one variable, given the string tags seen before it. */
  function CheckOf(get: Props, seen: set<string>): VarCheck
  {
    VarCheck(
      MissingKeys(get, REQUIRED_FIELDS),
      match get("tag") case Some(Str(t)) => if t in seen then Some(t) else None case _ => None,
      Invalid(get("type"), VALID_TYPES),
      Invalid(get("formatFn"), VALID_FORMATS),
      Invalid(get("mode"), VALID_MODES),
      OptionsMissing(get))
  }

  /** Exactly the absent required keys are reported, each once. */
  lemma CheckOfMissing(get: Props, seen: set<string>)
    ensures forall key :: key in CheckOf(get, seen).missing <==> key in REQUIRED_FIELDS && get(key).None?
    ensures Distinct(CheckOf(get, seen).missing)
  {
    MissingKeysMeaning(get, REQUIRED_FIELDS);
  }

  /** What the tag, `type`, `formatFn` and `mode` checks find, stated on the property reads. */
  lemma CheckOfValues(get: Props, seen: set<string>)
    ensures forall t :: CheckOf(get, seen).duplicate == Some(t) <==> get("tag") == Some(Str(t)) && t in seen
    ensures forall x :: CheckOf(get, seen).badType == Some(x) <==> get("type") == Some(x) && Truthy(x) && !InSet(x, VALID_TYPES)
    ensures forall x :: CheckOf(get, seen).badFormat == Some(x) <==> get("formatFn") == Some(x) && Truthy(x) && !InSet(x, VALID_FORMATS)
    ensures forall x :: CheckOf(get, seen).badMode == Some(x) <==> get("mode") == Some(x) && Truthy(x) && !InSet(x, VALID_MODES)
  {
  }

  /** A missing-field line for each absent required key. */
  lemma MissingReported(get: Props, i: nat, seen: set<string>, key: string)
    ensures MissingField(i, key) in CheckOf(get, seen).Failures(i) <==> key in REQUIRED_FIELDS && get(key).None?
  {
    FailuresMeaning(CheckOf(get, seen), i);
    CheckOfMissing(get, seen);
  }

  /** A duplicate-tag line for a string tag already seen. */
  lemma DuplicateReported(get: Props, i: nat, seen: set<string>, t: string)
    ensures DuplicateTag(i, t) in CheckOf(get, seen).Failures(i) <==> get("tag") == Some(Str(t)) && t in seen
  {
    FailuresMeaning(CheckOf(get, seen), i);
    assert Reports(CheckOf(get, seen), i, DuplicateTag(i, t)) <==> CheckOf(get, seen).duplicate == Some(t);
  }

  /** An invalid-value line for each truthy `type`, `formatFn` or `mode` outside its set. */
  lemma ValueReported(get: Props, i: nat, seen: set<string>, x: Value)
    ensures InvalidType(i, x) in CheckOf(get, seen).Failures(i) <==> get("type") == Some(x) && Truthy(x) && !InSet(x, VALID_TYPES)
    ensures InvalidFormatFn(i, x) in CheckOf(get, seen).Failures(i) <==> get("formatFn") == Some(x) && Truthy(x) && !InSet(x, VALID_FORMATS)
    ensures InvalidMode(i, x) in CheckOf(get, seen).Failures(i) <==> get("mode") == Some(x) && Truthy(x) && !InSet(x, VALID_MODES)
  {
    var c := CheckOf(get, seen);
    FailuresMeaning(c, i);
    assert Reports(c, i, InvalidType(i, x)) <==> c.badType == Some(x);
    assert Reports(c, i, InvalidFormatFn(i, x)) <==> c.badFormat == Some(x);
    assert Reports(c, i, InvalidMode(i, x)) <==> c.badMode == Some(x);
  }

  /** A missing-options line exactly when the options check fails. */
  lemma OptionsReported(get: Props, i: nat, seen: set<string>, t: string)
    ensures MissingOptions(i, t) in CheckOf(get, seen).Failures(i) <==> OptionsMissing(get) == Some(t)
  {
    FailuresMeaning(CheckOf(get, seen), i);
  }

  /** The failures of `variables[i]` in the order the checks run, given the string tags seen before it. */
  function VariableFailures(get: Props, i: nat, seen: set<string>): seq<Failure>
  {
    CheckOf(get, seen).Failures(i)
  }

  /** Every failure of a variable carries its index. */
  lemma VariableFailuresAbout(get: Props, i: nat, seen: set<string>)
    ensures forall f :: f in VariableFailures(get, i, seen) ==> f.About(i)
  {
    FailuresMeaning(CheckOf(get, seen), i);
  }

  /** What the loop carries: the failures so far and `seenTags`. */
  datatype Scan = Scan(failures: seq<Failure>, seen: set<string>)

  type Check<!V> = (V, nat, set<string>) -> seq<Failure>

  /** One turn of `forEach` on `variables[i]`. */
  function ScanNext<V>(s: Scan, v: V, i: nat, check: Check<V>, tag: V -> Option<string>): Scan
  {
    Scan(s.failures + check(v, i, s.seen), if tag(v).Some? then s.seen + {tag(v).value} else s.seen)
  }

  /** The state after the turns over `vs`. */
  function ScanOf<V>(vs: seq<V>, check: Check<V>, tag: V -> Option<string>): Scan
  {
    if vs == [] then Scan([], {})
    else ScanNext(ScanOf(vs[..|vs| - 1], check, tag), vs[|vs| - 1], |vs| - 1, check, tag)
  }

  lemma ScanStep<V>(vs: seq<V>, i: nat, check: Check<V>, tag: V -> Option<string>)
    requires i < |vs|
    ensures ScanOf(vs[..i + 1], check, tag) == ScanNext(ScanOf(vs[..i], check, tag), vs[i], i, check, tag)
  {
    TakeTake(vs, i);
  }

  /** `seenTags` holds exactly the string tags of the variables visited. */
  lemma {:induction false} ScanSeen<V>(vs: seq<V>, check: Check<V>, tag: V -> Option<string>)
    ensures forall t :: t in ScanOf(vs, check, tag).seen <==> exists k :: 0 <= k < |vs| && tag(vs[k]) == Some(t)
  {
    if vs != [] {
      var init := vs[..|vs| - 1];
      ScanSeen(init, check, tag);
      assert forall k :: 0 <= k < |init| ==> init[k] == vs[k];
    }
  }

  /**
   * The `forEach` over the variables with the growing `seenTags` set. The first variable on
   * which `key in v` throws ends the run; its index is returned with the failures before it.
   */
  method ScanVariables<V>(vs: seq<V>, isObject: V -> bool, check: Check<V>, tag: V -> Option<string>)
    returns (s: Scan, crashed: Option<nat>)
    ensures crashed.None? <==> forall k :: 0 <= k < |vs| ==> isObject(vs[k])
    ensures crashed.None? ==> s == ScanOf(vs, check, tag)
    ensures crashed.Some? ==>
      && crashed.value < |vs| && !isObject(vs[crashed.value])
      && (forall k :: 0 <= k < crashed.value ==> isObject(vs[k]))
      && s == ScanOf(vs[..crashed.value], check, tag)
  {
    var failures: seq<Failure> := [];
    var seenTags: set<string> := {};
    var i := 0;
    while i < |vs|
      invariant i <= |vs|
      invariant forall k :: 0 <= k < i ==> isObject(vs[k])
      invariant Scan(failures, seenTags) == ScanOf(vs[..i], check, tag)
    {
      if !isObject(vs[i]) {
        return Scan(failures, seenTags), Some(i);
      }
      ScanStep(vs, i, check, tag);
      failures := failures + check(vs[i], i, seenTags);
      if tag(vs[i]).Some? {
        seenTags := seenTags + {tag(vs[i]).value};
      }
      i := i + 1;
    }
    assert vs[..i] == vs;
    return Scan(failures, seenTags), None;
  }

  function CheckVariable(v: Value, i: nat, seen: set<string>): seq<Failure> { VariableFailures(PropsOf(v), i, seen) }

  /** `parsed.variables` when the root is an object holding an array there. */
  function VariablesOf(root: Value): Option<seq<Value>>
  {
    match Get(root, "variables")
    case Some(Arr(vs)) => Some(vs)
    case _ => None
  }

  /** The first variable that is not an object, if any. */
  function FirstNonObject(vs: seq<Value>): (r: Option<nat>)
    ensures r.None? <==> forall k :: 0 <= k < |vs| ==> IsObjectLike(vs[k])
    ensures r.Some? ==> r.value < |vs| && !IsObjectLike(vs[r.value]) && forall k :: 0 <= k < r.value ==> IsObjectLike(vs[k])
  {
    if vs == [] then None
    else if !IsObjectLike(vs[0]) then Some(0)
    else
      var r := FirstNonObject(vs[1..]);
      assert forall k :: 1 <= k < |vs| ==> vs[k] == vs[1..][k - 1];
      if r.Some? then Some(r.value + 1) else None
  }

  /** What the script reports for the parsed file. */
  function ReportOf(parsed: Option<Value>): Report
  {
    if parsed.None? then Report([], Unreadable)
    else match VariablesOf(parsed.value)
      case None => Report([NoVariables], Failed)
      case Some(vs) =>
        match FirstNonObject(vs)
        case Some(c) => Report(ScanOf(vs[..c], CheckVariable, TagOf).failures, Crashed(c))
        case None =>
          var failures := ScanOf(vs, CheckVariable, TagOf).failures;
          Report(failures, if failures == [] then Passed(|vs|) else Failed)
  }

  /** `main` after the file has been read and parsed. */
  method Validate(parsed: Option<Value>) returns (r: Report)
    ensures r == ReportOf(parsed)
  {
    if parsed.None? {
      return Report([], Unreadable);
    }
    var root := parsed.value;
    var variables := VariablesOf(root);
    if variables.None? {
      return Report([NoVariables], Failed);
    }
    var vs := variables.value;
    var s, crashed := ScanVariables(vs, IsObjectLike, CheckVariable, TagOf);
    if crashed.Some? {
      return Report(s.failures, Crashed(crashed.value));
    }
    if s.failures == [] {
      return Report([], Passed(|vs|));
    }
    return Report(s.failures, Failed);
  }

  /** Every failure the turn on `vs[k]` reports is about `variables[k]`. */
  predicate TurnsAbout<V>(vs: seq<V>, check: Check<V>, tag: V -> Option<string>)
  {
    forall k, f :: 0 <= k < |vs| && f in check(vs[k], k, ScanOf(vs[..k], check, tag).seen) ==> f.About(k)
  }

  /** A failure about `variables[j]` comes from the turn on that variable alone. */
  lemma {:induction false} FailureAt<V>(vs: seq<V>, j: nat, f: Failure, check: Check<V>, tag: V -> Option<string>)
    requires f.About(j) && TurnsAbout(vs, check, tag)
    ensures f in ScanOf(vs, check, tag).failures <==>
      j < |vs| && f in check(vs[j], j, ScanOf(vs[..j], check, tag).seen)
  {
    if vs != [] {
      var n := |vs| - 1;
      var init := vs[..n];
      assert forall k :: 0 <= k < n ==> init[k] == vs[k] && init[..k] == vs[..k];
      FailureAt(init, j, f, check, tag);
      assert vs[..n] == init;
    }
  }

  /** The checks of this script report only failures about the variable checked. */
  lemma CheckAbout(vs: seq<Value>)
    ensures TurnsAbout(vs, CheckVariable, TagOf)
  {
    forall k, f | 0 <= k < |vs| && f in CheckVariable(vs[k], k, ScanOf(vs[..k], CheckVariable, TagOf).seen) ensures f.About(k) {
      VariableFailuresAbout(PropsOf(vs[k]), k, ScanOf(vs[..k], CheckVariable, TagOf).seen);
    }
  }

  /** No per-variable failure is the root failure. */
  lemma {:induction false} NoRootFailureInScan(vs: seq<Value>)
    ensures NoVariables !in ScanOf(vs, CheckVariable, TagOf).failures
  {
    if vs != [] {
      var n := |vs| - 1;
      NoRootFailureInScan(vs[..n]);
      VariableFailuresAbout(PropsOf(vs[n]), n, ScanOf(vs[..n], CheckVariable, TagOf).seen);
    }
  }

  /** A root without a `variables` array gets the one root failure and nothing else. */
  lemma RootFailure(parsed: Option<Value>)
    ensures parsed.Some? && VariablesOf(parsed.value).None? <==> ReportOf(parsed) == Report([NoVariables], Failed)
    ensures parsed.Some? && VariablesOf(parsed.value).None? <==> NoVariables in ReportOf(parsed).failures
  {
    if parsed.Some? && VariablesOf(parsed.value).Some? {
      var vs := VariablesOf(parsed.value).value;
      var c := FirstNonObject(vs);
      if c.Some? {
        NoRootFailureInScan(vs[..c.value]);
      } else {
        NoRootFailureInScan(vs);
      }
    }
  }

  /** The OK line is printed, with the variable count, exactly when nothing failed. */
  lemma PassedIff(parsed: Option<Value>)
    ensures ReportOf(parsed).outcome.Passed? <==>
      parsed.Some? && ReportOf(parsed).failures == [] && !ReportOf(parsed).outcome.Crashed?
    ensures ReportOf(parsed).outcome.Passed? ==> ReportOf(parsed).outcome.count == |VariablesOf(parsed.value).value|
  {
  }

  /** `seenTags` at the turn on `variables[j]` holds the string tags of the variables before it. */
  lemma SeenBefore(vs: seq<Value>, j: nat, t: string)
    requires j <= |vs|
    ensures t in ScanOf(vs[..j], CheckVariable, TagOf).seen <==> exists i :: 0 <= i < j && TagOf(vs[i]) == Some(t)
  {
    var prefix := vs[..j];
    ScanSeen(prefix, CheckVariable, TagOf);
    assert forall k :: 0 <= k < j ==> prefix[k] == vs[k];
  }

  /** The duplicate check of `variables[j]` against the string tags of the variables before it. */
  lemma DuplicateAt(vs: seq<Value>, j: nat, t: string)
    requires j < |vs|
    ensures DuplicateTag(j, t) in CheckVariable(vs[j], j, ScanOf(vs[..j], CheckVariable, TagOf).seen) <==>
      TagOf(vs[j]) == Some(t) && exists i :: 0 <= i < j && TagOf(vs[i]) == Some(t)
  {
    var prefix := vs[..j];
    var seen := ScanOf(prefix, CheckVariable, TagOf).seen;
    DuplicateReported(PropsOf(vs[j]), j, seen, t);
    assert PropsOf(vs[j])("tag") == Some(Str(t)) <==> TagOf(vs[j]) == Some(t);
    SeenBefore(vs, j, t);
  }

  /** A string tag is reported as a duplicate at each later variable that repeats it, and only there. */
  lemma DuplicateIff(vs: seq<Value>, j: nat, t: string)
    ensures DuplicateTag(j, t) in ScanOf(vs, CheckVariable, TagOf).failures <==>
      j < |vs| && TagOf(vs[j]) == Some(t) && exists i :: 0 <= i < j && TagOf(vs[i]) == Some(t)
  {
    CheckAbout(vs);
    FailureAt(vs, j, DuplicateTag(j, t), CheckVariable, TagOf);
    if j < |vs| {
      DuplicateAt(vs, j, t);
    }
  }

  /** One failure per absent required key of each variable, and none for present keys. */
  lemma MissingIff(vs: seq<Value>, j: nat, key: string)
    ensures MissingField(j, key) in ScanOf(vs, CheckVariable, TagOf).failures <==>
      j < |vs| && key in REQUIRED_FIELDS && !Has(vs[j], key)
    ensures j < |vs| ==> Distinct(MissingKeys(PropsOf(vs[j]), REQUIRED_FIELDS))
  {
    CheckAbout(vs);
    FailureAt(vs, j, MissingField(j, key), CheckVariable, TagOf);
    if j < |vs| {
      var seen := ScanOf(vs[..j], CheckVariable, TagOf).seen;
      MissingReported(PropsOf(vs[j]), j, seen, key);
      CheckOfMissing(PropsOf(vs[j]), seen);
    }
  }

  /** A truthy `type`, `formatFn` or `mode` outside its set is reported, and only such a value. */
  lemma InvalidValueIff(vs: seq<Value>, j: nat, x: Value)
    ensures InvalidType(j, x) in ScanOf(vs, CheckVariable, TagOf).failures <==>
      j < |vs| && Get(vs[j], "type") == Some(x) && Truthy(x) && !InSet(x, VALID_TYPES)
    ensures InvalidFormatFn(j, x) in ScanOf(vs, CheckVariable, TagOf).failures <==>
      j < |vs| && Get(vs[j], "formatFn") == Some(x) && Truthy(x) && !InSet(x, VALID_FORMATS)
    ensures InvalidMode(j, x) in ScanOf(vs, CheckVariable, TagOf).failures <==>
      j < |vs| && Get(vs[j], "mode") == Some(x) && Truthy(x) && !InSet(x, VALID_MODES)
  {
    CheckAbout(vs);
    FailureAt(vs, j, InvalidType(j, x), CheckVariable, TagOf);
    FailureAt(vs, j, InvalidFormatFn(j, x), CheckVariable, TagOf);
    FailureAt(vs, j, InvalidMode(j, x), CheckVariable, TagOf);
    if j < |vs| {
      var seen := ScanOf(vs[..j], CheckVariable, TagOf).seen;
      ValueReported(PropsOf(vs[j]), j, seen, x);
    }
  }

  /** The options check read on the variable itself. */
  lemma OptionsMissingOf(v: Value, t: string)
    ensures OptionsMissing(PropsOf(v)) == Some(t) <==>
      (t == "select" || t == "radio") && Get(v, "type") == Some(Str(t))
      && !(match Get(v, "options") case Some(Arr(items)) => |items| > 0 case _ => false)
  {
  }

  /** A select or radio variable without a non-empty options array is reported. */
  lemma OptionsIff(vs: seq<Value>, j: nat, t: string)
    ensures MissingOptions(j, t) in ScanOf(vs, CheckVariable, TagOf).failures <==>
      j < |vs| && (t == "select" || t == "radio") && Get(vs[j], "type") == Some(Str(t))
      && !(match Get(vs[j], "options") case Some(Arr(items)) => |items| > 0 case _ => false)
  {
    CheckAbout(vs);
    FailureAt(vs, j, MissingOptions(j, t), CheckVariable, TagOf);
    if j < |vs| {
      var seen := ScanOf(vs[..j], CheckVariable, TagOf).seen;
      OptionsReported(PropsOf(vs[j]), j, seen, t);
      OptionsMissingOf(vs[j], t);
    }
  }
}
