/**
 * The command compiler: recovers a JSON plan from AI output, turns each raw
 * command into a numbered command record, normalises sizes and font names and
 * gives non-page commands a default target.
 *
 * `JSON.parse` is the oracle `parse` (None when it throws) and `parseFloat`
 * the oracle `parseFloat` (None when it yields NaN).
 */
module FormatCompiler {
  import opened Wrappers
  import opened Text
  import opened JsonValue
  import SkillRegistry

  // ---------------------------------------------------------------- fence stripping

  /** Where `/^```json\s*\n?/m` can match: "```json" at the start of a line. */
  predicate OpenFenceAt(s: string, p: nat)
  {
    (p == 0 || (p <= |s| && IsLineTerminator(s[p - 1]))) && OccursAt(s, "```json", p)
  }

  function FirstOpenFence(s: string, from: nat): (r: Option<nat>)
    ensures r.Some? ==> from <= r.value && OpenFenceAt(s, r.value)
    ensures r.Some? ==> forall p :: from <= p < r.value ==> !OpenFenceAt(s, p)
    ensures r.None? ==> forall p :: from <= p ==> !OpenFenceAt(s, p)
    decreases |s| - from
  {
    if from + 7 > |s| then None
    else if OpenFenceAt(s, from) then Some(from)
    else FirstOpenFence(s, from + 1)
  }

  /** `s.replace(/^```json\s*\n?/m, '')`: the first opening fence and the blanks after it go. */
  function StripOpenFence(s: string): string
  {
    match FirstOpenFence(s, 0)
    case None => s
    case Some(p) => s[..p] + s[p + 7 + SpaceRun(s, p + 7)..]
  }

  /**
   * Where a "```" at `q` followed by `\s*$` (multiline) ends its match: the
   * greedy blank run backs off to the last line terminator inside it unless
   * it reaches the end of the text.
   */
  function FenceTailEnd(s: string, q: nat): (r: Option<nat>)
    requires q + 3 <= |s|
    ensures r.Some? ==> q + 3 <= r.value <= |s|
  {
    var e := q + 3;
    var run := SpaceRun(s, e);
    if e + run == |s| then Some(|s|) else LastTerminatorIn(s, e, e + run)
  }

  /** The last index `k` in `[lo, hi)` holding a line terminator. */
  function LastTerminatorIn(s: string, lo: nat, hi: nat): (r: Option<nat>)
    requires lo <= hi <= |s|
    ensures r.Some? ==> lo <= r.value < hi && IsLineTerminator(s[r.value])
    ensures r.Some? ==> forall k :: r.value < k < hi ==> !IsLineTerminator(s[k])
    ensures r.None? ==> forall k :: lo <= k < hi ==> !IsLineTerminator(s[k])
    decreases hi - lo
  {
    if lo == hi then None
    else if IsLineTerminator(s[hi - 1]) then Some(hi - 1)
    else LastTerminatorIn(s, lo, hi - 1)
  }

  /** The end of a `/\n?```\s*$/m` match starting at `p`, if one starts there. */
  function CloseFenceAt(s: string, p: nat): (r: Option<nat>)
    ensures r.Some? ==> p < r.value <= |s|
  {
    if p < |s| && s[p] == '\n' then
      (if OccursAt(s, "```", p + 1) then FenceTailEnd(s, p + 1) else None)
    else if OccursAt(s, "```", p) then FenceTailEnd(s, p)
    else None
  }

  function FirstCloseFence(s: string, from: nat): (r: Option<(nat, nat)>)
    ensures r.Some? ==> from <= r.value.0 && CloseFenceAt(s, r.value.0) == Some(r.value.1)
    ensures r.Some? ==> forall p :: from <= p < r.value.0 ==> CloseFenceAt(s, p).None?
    decreases |s| - from
  {
    if from >= |s| then None
    else match CloseFenceAt(s, from)
      case Some(e) => Some((from, e))
      case None => FirstCloseFence(s, from + 1)
  }

  /** `s.replace(/\n?```\s*$/m, '')`. */
  function StripCloseFence(s: string): string
  {
    match FirstCloseFence(s, 0)
    case None => s
    case Some((p, e)) => s[..p] + s[e..]
  }

  /** The text `_attemptJsonFix` works on once the Markdown fences are gone. */
  function Cleaned(s: string): string
  {
    StripCloseFence(StripOpenFence(s))
  }

  /** A fenced block whose body holds no backtick and starts with a non-blank comes out as its body. */
  lemma FencedBodyRecovered(b: string)
    requires |b| > 0 && !IsSpace(b[0]) && '`' !in b
    ensures Cleaned("```json\n" + b + "\n```") == b
  {
    var t := b + "\n```";
    OpenFenceStripped(b);
    CloseFenceAtEnd(b);
    forall p | 0 <= p < |b|
      ensures CloseFenceAt(t, p).None?
    {
      NoCloseFenceInBody(b, p);
    }
    FirstCloseFenceFrom(t, 0, |b|, |t|);
    assert t[..|b|] + t[|t|..] == b;
  }

  /** The opening fence and the line break after it go, leaving the body and the closing fence. */
  lemma OpenFenceStripped(b: string)
    requires |b| > 0 && !IsSpace(b[0])
    ensures StripOpenFence("```json\n" + b + "\n```") == b + "\n```"
  {
    var s := "```json\n" + b + "\n```";
    assert OpenFenceAt(s, 0);
    assert SpaceRun(s, 7) == 1 by {
      assert s[7] == '\n';
      assert s[8] == b[0];
    }
    assert s[8..] == b + "\n```";
  }

  /** The closing fence after the body matches and runs to the end. */
  lemma CloseFenceAtEnd(b: string)
    ensures CloseFenceAt(b + "\n```", |b|) == Some(|b| + 4)
  {
    var t := b + "\n```";
    var n := |b|;
    assert t[n] == '\n';
    assert t[n + 1..n + 4] == "```";
  }

  /** No closing fence starts inside a body without backticks. */
  lemma NoCloseFenceInBody(b: string, p: nat)
    requires '`' !in b && p < |b|
    ensures CloseFenceAt(b + "\n```", p).None?
  {
    var t := b + "\n```";
    var n := |b|;
    assert t[p] == b[p] && b[p] in b;
    if p + 1 < n {
      assert t[p + 1] == b[p + 1] && b[p + 1] in b;
      assert !OccursAt(t, "```", p + 1) by { assert t[p + 1] != '`'; }
    } else {
      assert t[p + 1] == '\n';
    }
    assert !OccursAt(t, "```", p) by { assert t[p] != '`'; }
  }

  lemma {:induction false} FirstCloseFenceFrom(s: string, from: nat, p: nat, e: nat)
    requires from <= p < |s| && CloseFenceAt(s, p) == Some(e)
    requires forall k :: from <= k < p ==> CloseFenceAt(s, k).None?
    ensures FirstCloseFence(s, from) == Some((p, e))
    decreases p - from
  {
    if from < p {
      FirstCloseFenceFrom(s, from + 1, p, e);
      SkipNoCloseFence(s, from);
    } else {
      CloseFenceHere(s, p, e);
    }
  }

  lemma CloseFenceHere(s: string, p: nat, e: nat)
    requires p < |s| && CloseFenceAt(s, p) == Some(e)
    ensures FirstCloseFence(s, p) == Some((p, e))
  {
  }

  lemma SkipNoCloseFence(s: string, from: nat)
    requires from < |s| && CloseFenceAt(s, from).None?
    ensures FirstCloseFence(s, from) == FirstCloseFence(s, from + 1)
  {
  }

  // ---------------------------------------------------------------- greedy slice

  /** `s.match(/\{[\s\S]*\}/)`: from the first `{` to the last `}` after it. */
  function GreedySlice(s: string): (r: Option<string>)
    ensures r.Some? ==> |r.value| >= 2 && r.value[0] == '{' && r.value[|r.value| - 1] == '}'
  {
    match IndexOf(s, "{")
    case None => None
    case Some(a) =>
      match LastIndexOfChar(s, '}')
      case None => None
      case Some(b) => if a < b then Some(s[a..b + 1]) else None
  }

  // ---------------------------------------------------------------- brace-depth scan

  /**
   * The inner loop of the brace scan from position `i` in state
   * (`depth`, `inString`, `escaped`): the index at which the depth returns
   * to zero outside a string, if it does.
   */
  function ScanFrom(s: string, i: nat, depth: int, inString: bool, escaped: bool): (r: Option<nat>)
    decreases |s| - i
  {
    if i >= |s| then None
    else if inString then
      if escaped then ScanFrom(s, i + 1, depth, true, false)
      else if s[i] == '\\' then ScanFrom(s, i + 1, depth, true, true)
      else if s[i] == '"' then ScanFrom(s, i + 1, depth, false, escaped)
      else ScanFrom(s, i + 1, depth, true, escaped)
    else if s[i] == '"' then ScanFrom(s, i + 1, depth, true, escaped)
    else
      var d := depth + (if s[i] == '{' then 1 else if s[i] == '}' then -1 else 0);
      if d == 0 then Some(i) else ScanFrom(s, i + 1, d, false, escaped)
  }

  /** Where the object opened at `start` closes, by the brace-depth scan. */
  function ScanEnd(s: string, start: nat): Option<nat>
  {
    ScanFrom(s, start, 0, false, false)
  }

  /** The inner loop of `_attemptJsonFix`: scans from the `{` at `start`. */
  method FindBalancedEnd(s: string, start: nat) returns (e: Option<nat>)
    requires start < |s| && s[start] == '{'
    ensures e == ScanEnd(s, start)
  {
    var depth := 0;
    var inString := false;
    var escaped := false;
    var i := start;
    while i < |s|
      invariant start <= i <= |s|
      invariant ScanFrom(s, i, depth, inString, escaped) == ScanEnd(s, start)
      decreases |s| - i
    {
      var ch := s[i];
      if inString {
        if escaped {
          escaped := false;
        } else if ch == '\\' {
          escaped := true;
        } else if ch == '"' {
          inString := false;
        }
        i := i + 1;
        continue;
      }
      if ch == '"' {
        inString := true;
        i := i + 1;
        continue;
      }
      if ch == '{' {
        depth := depth + 1;
      }
      if ch == '}' {
        depth := depth - 1;
      }
      if depth == 0 {
        return Some(i);
      }
      i := i + 1;
    }
    return None;
  }

  /** The body of a JSON string literal: no bare quote, and every backslash escapes one character. */
  predicate StringBody(t: string)
    decreases |t|
  {
    t == [] ||
    (t[0] == '\\' && |t| >= 2 && StringBody(t[2..])) ||
    (t[0] != '\\' && t[0] != '"' && StringBody(t[1..]))
  }

  /**
   * A quoted string is skipped as a unit: the braces in it do not count, and
   * an escaped quote does not end it.
   */
  lemma {:induction false} StringSkipped(s: string, i: nat, t: string, depth: int)
    requires StringBody(t) && i + |t| < |s| && s[i..i + |t|] == t && s[i + |t|] == '"'
    ensures ScanFrom(s, i, depth, true, false) == ScanFrom(s, i + |t| + 1, depth, false, false)
    decreases |t|
  {
    if t == [] {
    } else if t[0] == '\\' && |t| >= 2 && StringBody(t[2..]) {
      assert s[i] == '\\';
      assert s[i + 2..i + 2 + |t[2..]|] == t[2..];
      StringSkipped(s, i + 2, t[2..], depth);
    } else {
      assert s[i] == t[0];
      assert s[i + 1..i + 1 + |t[1..]|] == t[1..];
      StringSkipped(s, i + 1, t[1..], depth);
    }
  }

  /** A balanced end, when found, is a `}` after the opening brace. */
  lemma ScanEndIsClosingBrace(s: string, start: nat)
    requires start < |s| && s[start] == '{'
    ensures ScanEnd(s, start).Some? ==> start < ScanEnd(s, start).value < |s| && s[ScanEnd(s, start).value] == '}'
  {
    ScanFromClosing(s, start + 1, 1, false, false);
  }

  lemma {:induction false} ScanFromClosing(s: string, i: nat, depth: int, inString: bool, escaped: bool)
    requires depth >= 1
    ensures ScanFrom(s, i, depth, inString, escaped).Some? ==>
      i <= ScanFrom(s, i, depth, inString, escaped).value < |s| && s[ScanFrom(s, i, depth, inString, escaped).value] == '}'
    decreases |s| - i
  {
    if i >= |s| {
    } else if inString {
      if escaped {
        ScanFromClosing(s, i + 1, depth, true, false);
      } else if s[i] == '\\' {
        ScanFromClosing(s, i + 1, depth, true, true);
      } else if s[i] == '"' {
        ScanFromClosing(s, i + 1, depth, false, escaped);
      } else {
        ScanFromClosing(s, i + 1, depth, true, escaped);
      }
    } else if s[i] == '"' {
      ScanFromClosing(s, i + 1, depth, true, escaped);
    } else {
      var d := depth + (if s[i] == '{' then 1 else if s[i] == '}' then -1 else 0);
      if d != 0 {
        ScanFromClosing(s, i + 1, d, false, escaped);
      }
    }
  }

  /** The balanced slice the scan offers for the position `start`, if any. */
  function ScanCandidateAt(s: string, start: nat): (r: seq<string>)
    requires start < |s|
    ensures |r| <= 1
    ensures forall k :: 0 <= k < |r| ==> |r[k]| >= 2 && r[k][0] == '{' && r[k][|r[k]| - 1] == '}'
  {
    if s[start] == '{' then
      match ScanEnd(s, start)
      case Some(e) =>
        ScanEndIsClosingBrace(s, start);
        [s[start..e + 1]]
      case None => []
    else []
  }

  /** The balanced slices the scan offers, one per `{` at or after `start` that closes. */
  function ScanCandidates(s: string, start: nat): seq<string>
    decreases |s| - start
  {
    if start >= |s| then [] else ScanCandidateAt(s, start) + ScanCandidates(s, start + 1)
  }

  /** Every scan candidate is a brace-delimited slice. */
  lemma {:induction false} ScanCandidatesBraced(s: string, start: nat)
    ensures forall k :: 0 <= k < |ScanCandidates(s, start)| ==>
      var c := ScanCandidates(s, start)[k]; |c| >= 2 && c[0] == '{' && c[|c| - 1] == '}'
    decreases |s| - start
  {
    if start < |s| {
      ScanCandidatesBraced(s, start + 1);
      var here := ScanCandidateAt(s, start);
      var rest := ScanCandidates(s, start + 1);
      assert ScanCandidates(s, start) == here + rest;
      forall k | 0 <= k < |here + rest|
        ensures var c := (here + rest)[k]; |c| >= 2 && c[0] == '{' && c[|c| - 1] == '}'
      {
        if k >= |here| {
          assert (here + rest)[k] == rest[k - |here|];
        }
      }
    }
  }

  // ---------------------------------------------------------------- recovery

  /** The first candidate the parser accepts, trying them in order. */
  function FirstParse(parse: string -> Option<Value>, cs: seq<string>): Option<Value>
  {
    if cs == [] then None
    else if parse(cs[0]).Some? then parse(cs[0])
    else FirstParse(parse, cs[1..])
  }

  /**
   * Nothing is returned exactly when every candidate is rejected; otherwise
   * the result is the parse of some candidate all of whose predecessors are rejected.
   */
  lemma {:induction false} FirstParseIsFirst(parse: string -> Option<Value>, cs: seq<string>)
    ensures FirstParse(parse, cs).None? <==> forall k :: 0 <= k < |cs| ==> parse(cs[k]).None?
    ensures FirstParse(parse, cs).Some? ==>
      exists k :: 0 <= k < |cs| && parse(cs[k]) == FirstParse(parse, cs) && forall j :: 0 <= j < k ==> parse(cs[j]).None?
  {
    if cs != [] && parse(cs[0]).None? {
      FirstParseIsFirst(parse, cs[1..]);
      var r := FirstParse(parse, cs[1..]);
      assert forall k :: 1 <= k < |cs| ==> cs[k] == cs[1..][k - 1];
      if r.Some? {
        var k :| 0 <= k < |cs[1..]| && parse(cs[1..][k]) == r && forall j :: 0 <= j < k ==> parse(cs[1..][j]).None?;
        assert parse(cs[k + 1]) == r;
        assert forall j :: 1 <= j < k + 1 ==> parse(cs[j]).None? by {
          forall j | 1 <= j < k + 1 ensures parse(cs[j]).None? {
            assert cs[j] == cs[1..][j - 1];
          }
        }
      }
    }
  }

  /**
   * Everything `_attemptJsonFix` tries, in order: the fence-stripped text, the
   * greedy slice, then each balanced slice by starting position.
   */
  function FixCandidates(c: string): seq<string>
  {
    [c] + (match GreedySlice(c) case Some(g) => [g] case None => []) + ScanCandidates(c, 0)
  }

  /** What `_attemptJsonFix` returns (None for `null`). */
  function FixOf(s: string, parse: string -> Option<Value>): Option<Value>
  {
    if s == "" then None else FirstParse(parse, FixCandidates(Cleaned(s)))
  }

  /** `_attemptJsonFix`: the fence strip, the greedy slice, then the brace-depth scan. */
  method AttemptJsonFix(s: string, parse: string -> Option<Value>) returns (r: Option<Value>)
    ensures r == FixOf(s, parse)
  {
    if s == "" {
      return None;
    }
    var cleaned := Cleaned(s);
    var greedy := GreedySlice(cleaned);
    var tried := [cleaned] + (match greedy case Some(g) => [g] case None => []);
    assert FixCandidates(cleaned) == tried + ScanCandidates(cleaned, 0);
    r := parse(cleaned);
    if r.Some? {
      return;
    }
    if greedy.Some? {
      r := parse(greedy.value);
      if r.Some? {
        assert tried + ScanCandidates(cleaned, 0) == [cleaned] + ([greedy.value] + ScanCandidates(cleaned, 0));
        FirstParseAfterFailures(parse, [cleaned], [greedy.value] + ScanCandidates(cleaned, 0));
        assert ([greedy.value] + ScanCandidates(cleaned, 0))[0] == greedy.value;
        return;
      }
    }
    FirstParseAfterFailures(parse, tried, ScanCandidates(cleaned, 0));
    r := ScanForObject(cleaned, parse);
  }

  /** The outer loop of the brace scan: each `{` in turn, abandoning a slice that does not parse. */
  method ScanForObject(cleaned: string, parse: string -> Option<Value>) returns (r: Option<Value>)
    ensures r == FirstParse(parse, ScanCandidates(cleaned, 0))
  {
    var start := 0;
    while start < |cleaned|
      invariant start <= |cleaned|
      invariant FirstParse(parse, ScanCandidates(cleaned, 0)) == FirstParse(parse, ScanCandidates(cleaned, start))
    {
      var rest := ScanCandidates(cleaned, start + 1);
      if cleaned[start] == '{' {
        var e := FindBalancedEnd(cleaned, start);
        if e.Some? {
          ScanEndIsClosingBrace(cleaned, start);
          var slice := cleaned[start..e.value + 1];
          assert ScanCandidates(cleaned, start) == [slice] + rest;
          assert ([slice] + rest)[0] == slice && ([slice] + rest)[1..] == rest;
          r := parse(slice);
          if r.Some? {
            return;
          }
          start := start + 1;
          continue;
        }
      }
      assert ScanCandidates(cleaned, start) == [] + rest == rest;
      start := start + 1;
    }
    return None;
  }

  /** Candidates the parser rejects do not change which one is accepted first. */
  lemma {:induction false} FirstParseAfterFailures(parse: string -> Option<Value>, failed: seq<string>, rest: seq<string>)
    requires forall k :: 0 <= k < |failed| ==> parse(failed[k]).None?
    ensures FirstParse(parse, failed + rest) == FirstParse(parse, rest)
    decreases |failed|
  {
    if failed == [] {
      assert failed + rest == rest;
    } else {
      assert (failed + rest)[0] == failed[0];
      assert (failed + rest)[1..] == failed[1..] + rest;
      FirstParseAfterFailures(parse, failed[1..], rest);
    }
  }

  /** Recovery order: a fence-stripped text that parses wins over every slice. */
  lemma CleanedTriedFirst(s: string, parse: string -> Option<Value>)
    requires s != "" && parse(Cleaned(s)).Some?
    ensures FixOf(s, parse) == parse(Cleaned(s))
  {
    assert FixCandidates(Cleaned(s))[0] == Cleaned(s);
  }

  // ---------------------------------------------------------------- commands

  /** A compiled command: `{id, skill, params, description, _index}`; absent keys are None. */
  datatype Command = Command(id: Value, skill: Option<Value>, params: Value, description: Option<Value>, index: nat)

  /**
   * A diagnostic record `{level, code, index, ...}` as the compiler and the
   * validator push them. The human-readable message is not modelled; `param`
   * is the parameter name a MISSING_PARAM or INVALID_ENUM message names.
   */
  datatype Issue = Issue(
    level: Option<string>, code: string, index: Option<nat>, param: Option<string>,
    bannedApi: Option<string>, policyCode: Option<string>, policyHint: Option<string>)

  /** The only error `compile` itself reports: `{code: 'PARSE_ERROR', message}`. */
  const PARSE_ERROR := Issue(None, "PARSE_ERROR", None, None, None, None, None)

  /** The value `compile` returns: `{plan, commands, errors}`; a `null` plan is None. */
  datatype Compiled = Compiled(plan: Option<Value>, commands: seq<Command>, errors: seq<Issue>)

  /** The `map` callback of `compile` for raw command `cmd` at position `i`; reading a key of `null` throws. */
  function BuildCommand(cmd: Value, i: nat): (r: Result<Command, string>)
    ensures r.Ok? <==> !cmd.Null?
    ensures r.Ok? ==> r.value.index == i && r.value.skill == Get(cmd, "skill")
    ensures r.Ok? ==> r.value.id == (if TruthyOpt(Get(cmd, "id")) then Get(cmd, "id").value else Str("cmd_" + NatToString(i + 1)))
    ensures r.Ok? ==> r.value.params == (if TruthyOpt(Get(cmd, "params")) then Get(cmd, "params").value else Obj([]))
    ensures r.Ok? ==> r.value.description == (if TruthyOpt(Get(cmd, "description")) then Get(cmd, "description") else Get(cmd, "skill"))
  {
    if cmd.Null? then Err("TypeError")
    else
      var id := Get(cmd, "id");
      var params := Get(cmd, "params");
      var description := Get(cmd, "description");
      Ok(Command(
        if TruthyOpt(id) then id.value else Str("cmd_" + NatToString(i + 1)),
        Get(cmd, "skill"),
        if TruthyOpt(params) then params.value else Obj([]),
        if TruthyOpt(description) then description else Get(cmd, "skill"),
        i))
  }

  /** `commands.map(...)` from position `from` on: the first `null` command throws. */
  function BuildAll(items: seq<Value>, from: nat): (r: Result<seq<Command>, string>)
    requires from <= |items|
    ensures r.Ok? <==> forall k :: from <= k < |items| ==> !items[k].Null?
    ensures r.Ok? ==> |r.value| == |items| - from
    ensures r.Ok? ==> forall k :: from <= k < |items| ==> Ok(r.value[k - from]) == BuildCommand(items[k], k)
    decreases |items| - from
  {
    if from == |items| then Ok([])
    else match BuildCommand(items[from], from)
      case Err(e) => Err(e)
      case Ok(c) =>
        match BuildAll(items, from + 1)
        case Err(e) => Err(e)
        case Ok(rest) => Ok([c] + rest)
  }

  /**
   * The registry tables `_normalizeUnits` reads: the Chinese size names and
   * the font names, both empty when the registry is not loaded.
   */
  datatype Tables = Tables(sizes: seq<(string, real)>, fonts: seq<(string, string)>)

  const REGISTRY_TABLES := Tables(SkillRegistry.CHINESE_FONT_SIZES, SkillRegistry.FONT_NAMES)
  const NO_REGISTRY := Tables([], [])

  /** A size given as a string: the Chinese size table, else a non-zero `parseFloat`, else 12. */
  function SizeValue(x: string, tables: Tables, parseFloat: string -> Option<real>): (r: real)
    ensures SkillRegistry.Find(tables.sizes, x).Some? ==> r == SkillRegistry.Find(tables.sizes, x).value
    ensures SkillRegistry.Find(tables.sizes, x).None? && parseFloat(x).Some? && parseFloat(x).value != 0.0 ==> r == parseFloat(x).value
    ensures SkillRegistry.Find(tables.sizes, x).None? && (parseFloat(x).None? || parseFloat(x).value == 0.0) ==> r == 12.0
  {
    match SkillRegistry.Find(tables.sizes, x)
    case Some(pt) => pt
    case None =>
      match parseFloat(x)
      case Some(y) => if y != 0.0 then y else 12.0
      case None => 12.0
  }

  /** What the size rule makes of a property read: a string becomes its point value. */
  function SizeResult(v: Option<Value>, tables: Tables, parseFloat: string -> Option<real>): Option<Value>
  {
    match v
    case Some(Str(x)) => Some(Num(SizeValue(x, tables, parseFloat)))
    case _ => v
  }

  /** What the font rule makes of a property read: only a FONT_NAME_MAP key is replaced. */
  function FontResult(v: Option<Value>, tables: Tables): Option<Value>
  {
    match v
    case Some(Str(x)) =>
      (match SkillRegistry.Find(tables.fonts, x)
       case Some(api) => Some(Str(api))
       case None => v)
    case _ => v
  }

  /** The size rule of `_normalizeUnits` for `key`, relating params `p` before and `r` after. */
  predicate SizeRule(p: Value, r: Value, key: string, tables: Tables, parseFloat: string -> Option<real>)
  {
    Get(r, key) == SizeResult(Get(p, key), tables, parseFloat)
  }

  /** The font rule of `_normalizeUnits` for `key`. */
  predicate FontRule(p: Value, r: Value, key: string, tables: Tables)
  {
    Get(r, key) == FontResult(Get(p, key), tables)
  }

  /** One line of `_normalizeUnits` for a size key. */
  function NormalizeSizeKey(p: Value, key: string, tables: Tables, parseFloat: string -> Option<real>): (r: Value)
    requires p.Obj?
    ensures r.Obj? && SizeRule(p, r, key, tables, parseFloat)
    ensures forall k :: k != key ==> Get(r, k) == Get(p, k)
  {
    match Get(p, key)
    case Some(Str(x)) => Set(p, key, Num(SizeValue(x, tables, parseFloat)))
    case _ => p
  }

  /** One line of `_normalizeUnits` for a font key. */
  function NormalizeFontKey(p: Value, key: string, tables: Tables): (r: Value)
    requires p.Obj?
    ensures r.Obj? && FontRule(p, r, key, tables)
    ensures forall k :: k != key ==> Get(r, k) == Get(p, k)
  {
    match Get(p, key)
    case Some(Str(x)) =>
      (match SkillRegistry.Find(tables.fonts, x)
       case Some(api) => Set(p, key, Str(api))
       case None => p)
    case _ => p
  }

  /** The size keys and the font keys `_normalizeUnits` rewrites, in the order it rewrites them. */
  const SIZE_KEYS: seq<string> := ["fontSize", "size"]
  const FONT_KEYS: seq<string> := ["zhFont", "enFont", "fontName"]

  predicate Distinct(keys: seq<string>)
  {
    forall a, b :: 0 <= a < b < |keys| ==> keys[a] != keys[b]
  }

  /** The size lines of `_normalizeUnits`, one per key, in order. */
  function NormalizeSizeKeys(p: Value, keys: seq<string>, tables: Tables, parseFloat: string -> Option<real>): (r: Value)
    requires p.Obj?
    ensures r.Obj?
    decreases |keys|
  {
    if keys == [] then p
    else NormalizeSizeKeys(NormalizeSizeKey(p, keys[0], tables, parseFloat), keys[1..], tables, parseFloat)
  }

  /** The font-name lines of `_normalizeUnits`, one per key, in order. */
  function NormalizeFontKeys(p: Value, keys: seq<string>, tables: Tables): (r: Value)
    requires p.Obj?
    ensures r.Obj?
    decreases |keys|
  {
    if keys == [] then p
    else NormalizeFontKeys(NormalizeFontKey(p, keys[0], tables), keys[1..], tables)
  }

  lemma {:induction false} SizeKeysFrame(p: Value, keys: seq<string>, tables: Tables, parseFloat: string -> Option<real>, k: string)
    requires p.Obj? && k !in keys
    ensures Get(NormalizeSizeKeys(p, keys, tables, parseFloat), k) == Get(p, k)
    decreases |keys|
  {
    if keys != [] {
      SizeKeysFrame(NormalizeSizeKey(p, keys[0], tables, parseFloat), keys[1..], tables, parseFloat, k);
    }
  }

  lemma {:induction false} FontKeysFrame(p: Value, keys: seq<string>, tables: Tables, k: string)
    requires p.Obj? && k !in keys
    ensures Get(NormalizeFontKeys(p, keys, tables), k) == Get(p, k)
    decreases |keys|
  {
    if keys != [] {
      FontKeysFrame(NormalizeFontKey(p, keys[0], tables), keys[1..], tables, k);
    }
  }

  /** With distinct keys, each size line obeys its rule and the later lines leave its key alone. */
  lemma {:induction false} SizeKeysRule(p: Value, keys: seq<string>, tables: Tables, parseFloat: string -> Option<real>, j: nat)
    requires p.Obj? && Distinct(keys) && j < |keys|
    ensures SizeRule(p, NormalizeSizeKeys(p, keys, tables, parseFloat), keys[j], tables, parseFloat)
    decreases |keys|
  {
    var p1 := NormalizeSizeKey(p, keys[0], tables, parseFloat);
    if j == 0 {
      assert keys[0] !in keys[1..] by {
        forall b | 0 <= b < |keys[1..]| ensures keys[1..][b] != keys[0] {
          assert keys[1..][b] == keys[b + 1];
        }
      }
      SizeKeysFrame(p1, keys[1..], tables, parseFloat, keys[0]);
    } else {
      assert keys[j] == keys[1..][j - 1];
      assert Distinct(keys[1..]) by {
        forall a, b | 0 <= a < b < |keys[1..]| ensures keys[1..][a] != keys[1..][b] {
          assert keys[1..][a] == keys[a + 1] && keys[1..][b] == keys[b + 1];
        }
      }
      SizeKeysRule(p1, keys[1..], tables, parseFloat, j - 1);
    }
  }

  /** With distinct keys, each font line obeys its rule and the later lines leave its key alone. */
  lemma {:induction false} FontKeysRule(p: Value, keys: seq<string>, tables: Tables, j: nat)
    requires p.Obj? && Distinct(keys) && j < |keys|
    ensures FontRule(p, NormalizeFontKeys(p, keys, tables), keys[j], tables)
    decreases |keys|
  {
    var p1 := NormalizeFontKey(p, keys[0], tables);
    if j == 0 {
      assert keys[0] !in keys[1..] by {
        forall b | 0 <= b < |keys[1..]| ensures keys[1..][b] != keys[0] {
          assert keys[1..][b] == keys[b + 1];
        }
      }
      FontKeysFrame(p1, keys[1..], tables, keys[0]);
    } else {
      assert keys[j] == keys[1..][j - 1];
      assert Distinct(keys[1..]) by {
        forall a, b | 0 <= a < b < |keys[1..]| ensures keys[1..][a] != keys[1..][b] {
          assert keys[1..][a] == keys[a + 1] && keys[1..][b] == keys[b + 1];
        }
      }
      FontKeysRule(p1, keys[1..], tables, j - 1);
    }
  }

  /** The five keys are pairwise different. */
  lemma UnitKeysDistinct()
    ensures Distinct(SIZE_KEYS) && Distinct(FONT_KEYS)
    ensures forall k :: k in SIZE_KEYS ==> k !in FONT_KEYS
  {
    assert |"size"| == 4 && |"fontSize"| == 8 && |"zhFont"| == 6 && |"enFont"| == 6 && |"fontName"| == 8;
    assert "zhFont"[0] != "enFont"[0] && "fontSize"[4] != "fontName"[4];
  }

  /** `_normalizeUnits` on a command's params; non-object params carry none of its keys. */
  function NormalizeUnits(p: Value, tables: Tables, parseFloat: string -> Option<real>): (r: Value)
    ensures p.Obj? <==> r.Obj?
    ensures !p.Obj? ==> r == p
  {
    if !p.Obj? then p else NormalizeFontKeys(NormalizeSizeKeys(p, SIZE_KEYS, tables, parseFloat), FONT_KEYS, tables)
  }

  /** A string size becomes a point value; a size of any other type is untouched. */
  lemma UnitsSizes(p: Value, tables: Tables, parseFloat: string -> Option<real>)
    ensures SizeRule(p, NormalizeUnits(p, tables, parseFloat), "fontSize", tables, parseFloat)
    ensures SizeRule(p, NormalizeUnits(p, tables, parseFloat), "size", tables, parseFloat)
  {
    if p.Obj? {
      var q := NormalizeSizeKeys(p, SIZE_KEYS, tables, parseFloat);
      UnitKeysDistinct();
      SizeKeysRule(p, SIZE_KEYS, tables, parseFloat, 0);
      SizeKeysRule(p, SIZE_KEYS, tables, parseFloat, 1);
      FontKeysFrame(q, FONT_KEYS, tables, "fontSize");
      FontKeysFrame(q, FONT_KEYS, tables, "size");
    }
  }

  /** A font name is replaced exactly when it is a key of the font table. */
  lemma UnitsFonts(p: Value, tables: Tables, parseFloat: string -> Option<real>)
    ensures FontRule(p, NormalizeUnits(p, tables, parseFloat), "zhFont", tables)
    ensures FontRule(p, NormalizeUnits(p, tables, parseFloat), "enFont", tables)
    ensures FontRule(p, NormalizeUnits(p, tables, parseFloat), "fontName", tables)
  {
    if p.Obj? {
      var q := NormalizeSizeKeys(p, SIZE_KEYS, tables, parseFloat);
      UnitKeysDistinct();
      SizeKeysFrame(p, SIZE_KEYS, tables, parseFloat, "zhFont");
      SizeKeysFrame(p, SIZE_KEYS, tables, parseFloat, "enFont");
      SizeKeysFrame(p, SIZE_KEYS, tables, parseFloat, "fontName");
      FontKeysRule(q, FONT_KEYS, tables, 0);
      FontKeysRule(q, FONT_KEYS, tables, 1);
      FontKeysRule(q, FONT_KEYS, tables, 2);
    }
  }

  /** Every other parameter is left as it was. */
  lemma UnitsOtherKeys(p: Value, tables: Tables, parseFloat: string -> Option<real>, k: string)
    requires k != "fontSize" && k != "size" && k != "zhFont" && k != "enFont" && k != "fontName"
    ensures Get(NormalizeUnits(p, tables, parseFloat), k) == Get(p, k)
  {
    if p.Obj? {
      SizeKeysFrame(p, SIZE_KEYS, tables, parseFloat, k);
      FontKeysFrame(NormalizeSizeKeys(p, SIZE_KEYS, tables, parseFloat), FONT_KEYS, tables, k);
    }
  }

  /** Skill-id prefixes whose commands act on the page and get no target. */
  const PAGE_PREFIXES: seq<string> := ["page.", "header.", "footer.", "page_number.", "detect."]

  predicate PageLevel(skill: string)
  {
    exists k :: 0 <= k < |PAGE_PREFIXES| && StartsWith(skill, PAGE_PREFIXES[k])
  }

  /** Whether `_normalizeTarget` leaves the command alone whatever its target. */
  predicate TargetExempt(skill: string)
  {
    skill == "custom.execute" || PageLevel(skill)
  }

  const DOCUMENT_TARGET: Value := Obj([("type", Str("document"))])

  /**
   * `_normalizeTarget`. A truthy non-string skill has no `startsWith` and
   * throws; so does creating `target` on primitive params under strict mode.
   * A property added to array params is not part of the value model, so
   * array params come back unchanged.
   */
  function NormalizeTarget(c: Command): (r: Result<Command, string>)
    ensures r.Ok? ==> r.value.id == c.id && r.value.skill == c.skill && r.value.description == c.description && r.value.index == c.index
    ensures r.Ok? && TruthyOpt(c.skill) ==> c.skill.value.Str?
    ensures r.Ok? && TruthyOpt(c.skill) && TargetExempt(c.skill.value.s) ==> r.value.params == c.params
    ensures r.Ok? && TruthyOpt(Get(c.params, "target")) ==> r.value.params == c.params
    ensures (TruthyOpt(c.skill) ==> c.skill.value.Str? && !TargetExempt(c.skill.value.s)) && !TruthyOpt(Get(c.params, "target")) && c.params.Obj? ==>
      r.Ok? && Get(r.value.params, "target") == Some(DOCUMENT_TARGET) &&
      forall k :: k != "target" ==> Get(r.value.params, k) == Get(c.params, k)
  {
    var skill := if TruthyOpt(c.skill) then c.skill.value else Str("");
    if !skill.Str? then Err("TypeError")
    else if skill.s == "custom.execute" || PageLevel(skill.s) then Ok(c)
    else if StartsWith(skill.s, "section.") && TruthyOpt(Get(c.params, "target")) then Ok(c)
    else if TruthyOpt(Get(c.params, "target")) then Ok(c)
    else if c.params.Obj? then Ok(c.(params := Set(c.params, "target", DOCUMENT_TARGET)))
    else if c.params.Arr? then Ok(c)
    else Err("TypeError")
  }

  /** The body of the normalisation loop for one command. */
  function NormalizeCommand(c: Command, tables: Tables, parseFloat: string -> Option<real>): Result<Command, string>
  {
    NormalizeTarget(c.(params := NormalizeUnits(c.params, tables, parseFloat)))
  }

  /** The normalisation loop over all commands; a throw ends it. */
  function NormalizeAll(cs: seq<Command>, tables: Tables, parseFloat: string -> Option<real>): Result<seq<Command>, string>
  {
    MapResult(c => NormalizeCommand(c, tables, parseFloat), cs)
  }

  /** The value `compile` works on: the strict parse, else a truthy repair; None means PARSE_ERROR. */
  function ParsedOf(json: string, parse: string -> Option<Value>): Option<Value>
  {
    if parse(json).Some? then parse(json)
    else
      var fixed := FixOf(json, parse);
      if TruthyOpt(fixed) then fixed else None
  }

  /** `parsed.commands || []`: a truthy non-array has no `map` and throws; so does reading a key of `null`. */
  function CommandItems(parsed: Value): (r: Result<seq<Value>, string>)
    ensures r.Ok? ==> !parsed.Null?
  {
    if parsed.Null? then Err("TypeError")
    else
      var cs := Get(parsed, "commands");
      if !TruthyOpt(cs) then Ok([])
      else if cs.value.Arr? then Ok(cs.value.items)
      else Err("TypeError")
  }

  /** What `compile` returns, or the error it throws. */
  function Compilation(json: string, tables: Tables, parse: string -> Option<Value>, parseFloat: string -> Option<real>): Result<Compiled, string>
  {
    match ParsedOf(json, parse)
    case None => Ok(Compiled(None, [], [PARSE_ERROR]))
    case Some(parsed) =>
      match CommandItems(parsed)
      case Err(e) => Err(e)
      case Ok(items) =>
        match BuildAll(items, 0)
        case Err(e) => Err(e)
        case Ok(cs) =>
          match NormalizeAll(cs, tables, parseFloat)
          case Err(e) => Err(e)
          case Ok(normalized) =>
            var plan := Get(parsed, "plan");
            Ok(Compiled(Some(if TruthyOpt(plan) then plan.value else Str("")), normalized, []))
  }

  /** The loop of `compile` that normalises each command in place; the first throw ends it. */
  method NormalizeCommands(cs: seq<Command>, tables: Tables, parseFloat: string -> Option<real>) returns (r: Result<seq<Command>, string>)
    ensures r == NormalizeAll(cs, tables, parseFloat)
  {
    r := MapInPlace(c => NormalizeCommand(c, tables, parseFloat), cs);
  }

  /** `compile`: parse or repair, build the commands, then normalise them one by one in place. */
  method Compile(json: string, tables: Tables, parse: string -> Option<Value>, parseFloat: string -> Option<real>)
    returns (r: Result<Compiled, string>)
    ensures r == Compilation(json, tables, parse, parseFloat)
  {
    var parsed := parse(json);
    if parsed.None? {
      parsed := AttemptJsonFix(json, parse);
      if !TruthyOpt(parsed) {
        return Ok(Compiled(None, [], [PARSE_ERROR]));
      }
    }
    var items := CommandItems(parsed.value);
    if items.Err? {
      return Err(items.error);
    }
    var built := BuildAll(items.value, 0);
    if built.Err? {
      return Err(built.error);
    }
    var normalized := NormalizeCommands(built.value, tables, parseFloat);
    if normalized.Err? {
      return Err(normalized.error);
    }
    var commands := normalized.value;
    var plan := Get(parsed.value, "plan");
    r := Ok(Compiled(Some(if TruthyOpt(plan) then plan.value else Str("")), commands, []));
  }

  // ---------------------------------------------------------------- compile properties

  /** Input that cannot be recovered yields exactly one PARSE_ERROR, no plan and no commands. */
  lemma UnrecoverableIsParseError(json: string, tables: Tables, parse: string -> Option<Value>, parseFloat: string -> Option<real>)
    requires parse(json).None? && !TruthyOpt(FixOf(json, parse))
    ensures Compilation(json, tables, parse, parseFloat) == Ok(Compiled(None, [], [PARSE_ERROR]))
  {
  }

  /**
   * On success every command keeps its position as `_index`, gets `cmd_{i+1}`
   * when it has no id and its skill as description when it has none; the plan
   * defaults to `''` and there are no errors.
   */
  lemma CompiledCommands(json: string, tables: Tables, parse: string -> Option<Value>, parseFloat: string -> Option<real>)
    requires Compilation(json, tables, parse, parseFloat).Ok?
    requires Compilation(json, tables, parse, parseFloat).value.errors != [PARSE_ERROR]
    ensures var c := Compilation(json, tables, parse, parseFloat).value;
      var parsed := ParsedOf(json, parse).value;
      var items := CommandItems(parsed).value;
      c.errors == [] && c.plan.Some? && |c.commands| == |items| &&
      (c.plan.value == Str("") <==> !TruthyOpt(Get(parsed, "plan")) || Get(parsed, "plan") == Some(Str(""))) &&
      forall k :: 0 <= k < |items| ==>
        c.commands[k].index == k &&
        c.commands[k].skill == Get(items[k], "skill") &&
        c.commands[k].id == (if TruthyOpt(Get(items[k], "id")) then Get(items[k], "id").value else Str("cmd_" + NatToString(k + 1))) &&
        c.commands[k].description == (if TruthyOpt(Get(items[k], "description")) then Get(items[k], "description") else Get(items[k], "skill"))
  {
    var c := Compilation(json, tables, parse, parseFloat).value;
    var parsed := ParsedOf(json, parse).value;
    var items := CommandItems(parsed).value;
    var cs := BuildAll(items, 0).value;
    var normalized := NormalizeAll(cs, tables, parseFloat).value;
    assert c.commands == normalized;
    forall k | 0 <= k < |items|
      ensures c.commands[k].index == k && c.commands[k].skill == Get(items[k], "skill")
    {
      assert Ok(cs[k]) == BuildCommand(items[k], k);
      assert Ok(normalized[k]) == NormalizeCommand(cs[k], tables, parseFloat);
    }
  }

  /**
   * Target defaults: exempt skills never get a target, a truthy target is
   * kept, and any other command with object params ends up targeting the
   * whole document.
   */
  lemma TargetDefaults(c: Command, tables: Tables, parseFloat: string -> Option<real>)
    requires c.params.Obj?
    requires NormalizeCommand(c, tables, parseFloat).Ok?
    ensures var n := NormalizeCommand(c, tables, parseFloat).value;
      if TruthyOpt(c.skill) && TargetExempt(c.skill.value.s) then Get(n.params, "target") == Get(c.params, "target")
      else if TruthyOpt(Get(c.params, "target")) then Get(n.params, "target") == Get(c.params, "target")
      else Get(n.params, "target") == Some(DOCUMENT_TARGET)
  {
  }
}
