/**
 * The chat pane's state outside the page: the bounded session history sent as context,
 * the retry patch derived from a failed validation, the plan waiting for confirmation,
 * and the HTML escaping of message text. The AI calls, the intent dispatch and the
 * rendering are outside the model.
 */
module FormatChat {
  import opened Wrappers
  import opened Text
  import opened JsonValue
  import opened Seqs
  import FormatCompiler

  // ---------------------------------------------------------------- session turns

  /** `SESSION_CONFIG.maxTurns`. */
  const MAX_TURNS: nat := 30

  /** A session turn `{role, content, skill?, result?, error?, intent?}`; the timestamp is not kept. */
  datatype Turn = Turn(role: string, content: string,
                       skill: Option<Value>, result: Option<Value>, error: Option<Value>, intent: Option<Value>)

  /** `meta[key]` when `meta` and it are both truthy. */
  function MetaField(meta: Option<Value>, key: string): (r: Option<Value>)
    ensures r.Some? <==> TruthyOpt(meta) && TruthyOpt(Get(meta.value, key))
    ensures r.Some? ==> r == Get(meta.value, key)
  {
    if TruthyOpt(meta) && TruthyOpt(Get(meta.value, key)) then Get(meta.value, key) else None
  }

  /** The turn `_appendSessionTurn` builds: each meta key is copied only when truthy. */
  function TurnOf(role: string, content: string, meta: Option<Value>): (t: Turn)
    ensures t.role == role && t.content == content
    ensures t.skill.Some? <==> TruthyOpt(meta) && TruthyOpt(Get(meta.value, "skill"))
    ensures t.result.Some? <==> TruthyOpt(meta) && TruthyOpt(Get(meta.value, "result"))
    ensures t.error.Some? <==> TruthyOpt(meta) && TruthyOpt(Get(meta.value, "error"))
    ensures t.intent.Some? <==> TruthyOpt(meta) && TruthyOpt(Get(meta.value, "intent"))
  {
    Turn(role, content, MetaField(meta, "skill"), MetaField(meta, "result"), MetaField(meta, "error"), MetaField(meta, "intent"))
  }

  /** The `{role, content}` messages of the last turns, in order. */
  function ContextOf(turns: seq<Turn>): (r: seq<(string, string)>)
    ensures |r| <= MAX_TURNS
    ensures |r| == |LastN(turns, MAX_TURNS)|
    ensures forall k :: 0 <= k < |r| ==>
              r[k] == (LastN(turns, MAX_TURNS)[k].role, LastN(turns, MAX_TURNS)[k].content)
  {
    var recent := LastN(turns, MAX_TURNS);
    seq(|recent|, k requires 0 <= k < |recent| => (recent[k].role, recent[k].content))
  }

  /** `_sessionContext` with its turns, last intent and last plan summary. */
  class Session {
    var turns: seq<Turn>
    var lastIntent: Option<Value>
    var lastPlanSummary: Option<Value>
    /** Every turn appended since the session was last cleared. */
    ghost var history: seq<Turn>

    /** The turns kept are the last `MAX_TURNS` of the history. */
    ghost predicate Valid()
      reads this
    {
      turns == LastN(history, MAX_TURNS)
    }

    constructor()
      ensures Valid() && turns == [] && lastIntent == None && lastPlanSummary == None
    {
      turns := [];
      lastIntent := None;
      lastPlanSummary := None;
      history := [];
      new;
      assert LastN(history, MAX_TURNS) == [];
    }

    /** `_appendSessionTurn`: push, then drop the oldest turn beyond the limit. */
    method AppendTurn(role: string, content: string, meta: Option<Value>)
      requires Valid()
      modifies this
      ensures Valid()
      ensures history == old(history) + [TurnOf(role, content, meta)]
      ensures |turns| <= MAX_TURNS && turns != [] && turns[|turns| - 1] == TurnOf(role, content, meta)
      ensures lastIntent == old(lastIntent) && lastPlanSummary == old(lastPlanSummary)
    {
      var turn := TurnOf(role, content, meta);
      history := history + [turn];
      turns := turns + [turn];
      if |turns| > MAX_TURNS {
        turns := turns[1..];
      }
    }

    /** `_buildSessionContextForAI`. */
    method BuildContext() returns (messages: seq<(string, string)>)
      ensures messages == ContextOf(turns)
    {
      messages := [];
      var recent := if |turns| <= MAX_TURNS then turns else turns[|turns| - MAX_TURNS..];
      for i := 0 to |recent|
        invariant |messages| == i
        invariant forall k :: 0 <= k < i ==> messages[k] == (recent[k].role, recent[k].content)
      {
        messages := messages + [(recent[i].role, recent[i].content)];
      }
    }

    /** `_clearSessionContext`. */
    method Clear()
      modifies this
      ensures Valid() && turns == [] && history == []
      ensures lastIntent == None && lastPlanSummary == None
    {
      turns := [];
      lastIntent := None;
      lastPlanSummary := None;
      history := [];
    }
  }

  /** The context sent to the AI holds the last turns of the whole history, whatever was dropped. */
  lemma ContextOfHistory(history: seq<Turn>)
    ensures ContextOf(LastN(history, MAX_TURNS)) == ContextOf(history)
  {
  }

  /** After an append, the context ends with the new turn's role and content. */
  lemma ContextEndsWithLatest(turns: seq<Turn>, t: Turn)
    ensures var c := ContextOf(turns + [t]);
            c != [] && c[|c| - 1] == (t.role, t.content)
  {
  }

  // ---------------------------------------------------------------- retry patch

  /** The retry context `{bannedApis?, forceBuiltinSkills?, policyHints?}` of a resent message. */
  datatype RetryContext = RetryContext(bannedApis: Option<seq<string>>, forceBuiltinSkills: bool, policyHints: Option<seq<string>>)

  /** `_retryContext || {}` on the first attempt. */
  const NO_RETRY := RetryContext(None, false, None)

  /** `retryContext.bannedApis && retryContext.bannedApis.length > 0`. */
  predicate HasBanned(ctx: RetryContext) { ctx.bannedApis.Some? && |ctx.bannedApis.value| > 0 }

  function IssuesWithCode(errors: seq<FormatCompiler.Issue>, code: string): (r: seq<FormatCompiler.Issue>)
    ensures |r| <= |errors|
    ensures forall e :: e in r <==> e in errors && e.code == code
  {
    if errors == [] then []
    else (if errors[0].code == code then [errors[0]] else []) + IssuesWithCode(errors[1..], code)
  }

  /** `e.bannedApi || 'unknown'`. */
  function BannedApiName(e: FormatCompiler.Issue): (r: string)
    ensures r != ""
  {
    if e.bannedApi.Some? && e.bannedApi.value != "" then e.bannedApi.value else "unknown"
  }

  /** `e.policyHint || ''`. */
  function PolicyHintOf(e: FormatCompiler.Issue): string
  {
    if e.policyHint.Some? then e.policyHint.value else ""
  }

  /** `.filter((h, idx, arr) => h && arr.indexOf(h) === idx)`: non-empty hints at their first occurrence. */
  function FirstOccurrences(hints: seq<string>): (r: seq<string>)
    ensures forall h :: h in r <==> h in hints && h != ""
    ensures forall i, j :: 0 <= i < j < |r| ==> r[i] != r[j]
  {
    if hints == [] then []
    else
      var init := FirstOccurrences(hints[..|hints| - 1]);
      var h := hints[|hints| - 1];
      assert forall x :: x in hints <==> x in hints[..|hints| - 1] || x == h;
      if h != "" && h !in hints[..|hints| - 1] then init + [h] else init
  }

  /** The position of the first occurrence of `h` in `hints`. */
  function FirstIndexOf(hints: seq<string>, h: string): (k: nat)
    requires h in hints
    ensures k < |hints| && hints[k] == h
    ensures forall j :: 0 <= j < k ==> hints[j] != h
  {
    if hints[0] == h then 0 else 1 + FirstIndexOf(hints[1..], h)
  }

  /** A first occurrence within a prefix is the first occurrence in the whole list. */
  lemma FirstIndexPrefix(hints: seq<string>, n: nat, h: string)
    requires n <= |hints| && h in hints[..n]
    ensures h in hints && FirstIndexOf(hints, h) == FirstIndexOf(hints[..n], h)
  {
    var k := FirstIndexOf(hints[..n], h);
    assert hints[k] == h;
    var m := FirstIndexOf(hints, h);
    assert m <= k;
    assert hints[..n][m] == h;
  }

  /** `r` lists hints of `hints` in the order of their first occurrences there. */
  ghost predicate InFirstOrder(r: seq<string>, hints: seq<string>)
  {
    forall i, j :: 0 <= i < j < |r| ==> r[i] in hints && r[j] in hints && FirstIndexOf(hints, r[i]) < FirstIndexOf(hints, r[j])
  }

  lemma OrderExtend(r: seq<string>, hints: seq<string>, n: nat)
    requires n <= |hints| && InFirstOrder(r, hints[..n]) && forall x :: x in r ==> x in hints[..n]
    ensures InFirstOrder(r, hints)
    ensures forall x :: x in r ==> x in hints && FirstIndexOf(hints, x) < n
  {
    forall x | x in r
      ensures x in hints && FirstIndexOf(hints, x) == FirstIndexOf(hints[..n], x)
    {
      FirstIndexPrefix(hints, n, x);
    }
    forall i, j | 0 <= i < j < |r|
      ensures r[i] in hints && r[j] in hints && FirstIndexOf(hints, r[i]) < FirstIndexOf(hints, r[j])
    {
      assert r[i] in r && r[j] in r;
    }
  }

  lemma OrderSnoc(r: seq<string>, hints: seq<string>, h: string)
    requires h in hints && InFirstOrder(r, hints)
    requires forall x :: x in r ==> x in hints && FirstIndexOf(hints, x) < FirstIndexOf(hints, h)
    ensures InFirstOrder(r + [h], hints)
  {
    var r' := r + [h];
    forall i, j | 0 <= i < j < |r'|
      ensures r'[i] in hints && r'[j] in hints && FirstIndexOf(hints, r'[i]) < FirstIndexOf(hints, r'[j])
    {
      assert r'[i] == r[i] && r[i] in r;
      if j < |r| {
        assert r'[j] == r[j];
      }
    }
  }

  /** The kept hints are in the order of their first occurrences. */
  lemma {:induction false} FirstOccurrencesOrder(hints: seq<string>)
    ensures InFirstOrder(FirstOccurrences(hints), hints)
  {
    if hints != [] {
      var n := |hints| - 1;
      var init := hints[..n];
      var h := hints[n];
      var ri := FirstOccurrences(init);
      FirstOccurrencesOrder(init);
      OrderExtend(ri, hints, n);
      if h != "" && h !in init {
        assert FirstOccurrences(hints) == ri + [h];
        assert FirstIndexOf(hints, h) == n by {
          forall j | 0 <= j < n ensures hints[j] != h { assert hints[j] == init[j]; }
        }
        OrderSnoc(ri, hints, h);
      }
    }
  }

  /** The keys `retryPatch` receives. */
  datatype Patch = Patch(bannedApis: Option<seq<string>>, forceBuiltinSkills: bool, policyHints: Option<seq<string>>)

  /** `Object.keys(retryPatch).length > 0`. */
  predicate NonEmpty(p: Patch) { p.bannedApis.Some? || p.forceBuiltinSkills }

  /**
   * The patch for a failed validation: the banned APIs of the unsafe-code errors unless some
   * are already banned, and the builtin-skills flag with the distinct policy hints of the
   * custom-not-fallback errors unless the flag is already set.
   */
  function RetryPatch(ctx: RetryContext, errors: seq<FormatCompiler.Issue>): (p: Patch)
    ensures p.bannedApis.Some? <==> !HasBanned(ctx) && exists e :: e in errors && e.code == "UNSAFE_CODE"
    ensures p.bannedApis.Some? ==>
              |p.bannedApis.value| == |IssuesWithCode(errors, "UNSAFE_CODE")| > 0
              && forall a :: a in p.bannedApis.value ==> a != ""
    ensures p.bannedApis.Some? ==> p.bannedApis.value == Map(IssuesWithCode(errors, "UNSAFE_CODE"), BannedApiName)
    ensures p.policyHints.Some? ==>
              p.policyHints.value == FirstOccurrences(Map(IssuesWithCode(errors, "CUSTOM_NOT_FALLBACK"), PolicyHintOf))
    ensures p.forceBuiltinSkills <==> !ctx.forceBuiltinSkills && exists e :: e in errors && e.code == "CUSTOM_NOT_FALLBACK"
    ensures p.policyHints.Some? <==> p.forceBuiltinSkills
    ensures p.policyHints.Some? ==>
              forall h :: h in p.policyHints.value <==>
                h != "" && exists e :: e in errors && e.code == "CUSTOM_NOT_FALLBACK" && e.policyHint == Some(h)
  {
    var unsafe := IssuesWithCode(errors, "UNSAFE_CODE");
    var fallback := IssuesWithCode(errors, "CUSTOM_NOT_FALLBACK");
    assert (exists e :: e in errors && e.code == "UNSAFE_CODE") <==> unsafe != [] by {
      if unsafe != [] { assert unsafe[0] in unsafe; }
    }
    assert (exists e :: e in errors && e.code == "CUSTOM_NOT_FALLBACK") <==> fallback != [] by {
      if fallback != [] { assert fallback[0] in fallback; }
    }
    var banned := if unsafe != [] && !HasBanned(ctx) then Some(Map(unsafe, BannedApiName)) else None;
    MapMembers(unsafe, BannedApiName);
    if fallback != [] && !ctx.forceBuiltinSkills then
      var raw := Map(fallback, PolicyHintOf);
      MapMembers(fallback, PolicyHintOf);
      Patch(banned, true, Some(FirstOccurrences(raw)))
    else Patch(banned, false, None)
  }

  lemma {:induction false} MapMembers<B, C>(xs: seq<B>, g: B -> C)
    ensures forall y :: y in Map(xs, g) <==> exists x :: x in xs && g(x) == y
  {
    if xs != [] {
      var init := xs[..|xs| - 1];
      MapMembers(init, g);
      assert Map(xs, g) == Map(init, g) + [g(xs[|xs| - 1])];
      assert forall x :: x in xs <==> x in init || x == xs[|xs| - 1];
    }
  }

  /** `Object.assign({}, retryContext, retryPatch)`: the patch's keys win. */
  function Merge(ctx: RetryContext, p: Patch): RetryContext
  {
    RetryContext(if p.bannedApis.Some? then p.bannedApis else ctx.bannedApis,
                 ctx.forceBuiltinSkills || p.forceBuiltinSkills,
                 if p.policyHints.Some? then p.policyHints else ctx.policyHints)
  }

  /** How many retry kinds a context has already used. */
  function Level(ctx: RetryContext): nat
  {
    (if HasBanned(ctx) then 1 else 0) + (if ctx.forceBuiltinSkills then 1 else 0)
  }

  /** A retry uses up at least one kind. */
  lemma RetryRaisesLevel(ctx: RetryContext, errors: seq<FormatCompiler.Issue>)
    requires NonEmpty(RetryPatch(ctx, errors))
    ensures Level(Merge(ctx, RetryPatch(ctx, errors))) > Level(ctx)
  {
  }

  /**
   * The number of times `sendUserMessage` runs for one message, when the attempt made with
   * context `ctx` fails validation with `errorsOf(ctx)` (the empty list when it passes or
   * stops earlier). A non-empty patch resends with the merged context.
   */
  function Attempts(ctx: RetryContext, errorsOf: RetryContext -> seq<FormatCompiler.Issue>): (n: nat)
    ensures 1 <= n <= 3 - Level(ctx)
    decreases 2 - Level(ctx)
  {
    var p := RetryPatch(ctx, errorsOf(ctx));
    if !NonEmpty(p) then 1
    else
      RetryRaisesLevel(ctx, errorsOf(ctx));
      1 + Attempts(Merge(ctx, p), errorsOf)
  }

  /** Whatever the AI answers, a message is sent at most three times: two retries. */
  lemma AtMostTwoRetries(errorsOf: RetryContext -> seq<FormatCompiler.Issue>)
    ensures Attempts(NO_RETRY, errorsOf) <= 3
  {
  }

  const BANNED_PREFIX := "【安全修正】上次生成的代码被拦截，禁止使用以下 API: "
  const BANNED_SUFFIX := "。请重新生成不含这些 API 的代码。"
  const POLICY_PREFIX := "【策略修正】custom.execute 仅可兜底，当前需求必须优先使用内置技能。禁止把字体/段落/页面/表格/样式类操作写成 custom.execute。"

  /** The correction prefixes of a retried message: banned APIs first, then the policy hint. */
  function RetryPrefixes(ctx: Option<RetryContext>): (r: seq<string>)
    ensures |r| == if ctx.None? then 0 else Level(ctx.value)
    ensures ctx.Some? && HasBanned(ctx.value) ==> StartsWith(r[0], BANNED_PREFIX)
    ensures ctx.Some? && ctx.value.forceBuiltinSkills ==> StartsWith(r[|r| - 1], POLICY_PREFIX)
  {
    if ctx.None? then []
    else
      var c := ctx.value;
      var hints := if c.policyHints.Some? then c.policyHints.value else [];
      (if HasBanned(c) then [BANNED_PREFIX + Join(c.bannedApis.value, ", ") + BANNED_SUFFIX] else [])
      + (if c.forceBuiltinSkills then [POLICY_PREFIX + (if |hints| > 0 then "\n提示: " + Join(hints, "；") else "")] else [])
  }

  /** The text sent to the AI: the prefixes joined by a line break, a blank line, the message. */
  function AiText(ctx: Option<RetryContext>, text: string): (r: string)
  {
    var prefixes := RetryPrefixes(ctx);
    if |prefixes| > 0 then Join(prefixes, "\n") + "\n\n" + text else text
  }

  /** The message always ends the AI text, and is all of it exactly on a first attempt or a
      retry with nothing to correct. */
  lemma AiTextKeepsMessage(ctx: Option<RetryContext>, text: string)
    ensures EndsWith(AiText(ctx, text), text)
    ensures AiText(ctx, text) == text <==> ctx.None? || Level(ctx.value) == 0
  {
    var prefixes := RetryPrefixes(ctx);
    var r := AiText(ctx, text);
    if |prefixes| > 0 {
      var head := Join(prefixes, "\n") + "\n\n";
      assert r == head + text;
      assert r[|r| - |text|..] == text;
      assert |r| > |text|;
    }
  }

  // ---------------------------------------------------------------- plans

  /** The summary of a run: `{success, failed, total}`. */
  datatype Summary = Summary(success: nat, failed: nat, total: nat)

  function CountTrue(flags: seq<bool>, want: bool): (r: nat)
    ensures r <= |flags|
  {
    if flags == [] then 0 else CountTrue(flags[..|flags| - 1], want) + (if flags[|flags| - 1] == want then 1 else 0)
  }

  /** `onComplete`'s counts over the step results' `success` flags. */
  function SummaryOf(results: seq<bool>): (s: Summary)
    ensures s.total == |results|
    ensures s.success + s.failed == s.total
  {
    CountsPartition(results);
    Summary(CountTrue(results, true), CountTrue(results, false), |results|)
  }

  lemma {:induction false} CountsPartition(flags: seq<bool>)
    ensures CountTrue(flags, true) + CountTrue(flags, false) == |flags|
  {
    if flags != [] {
      CountsPartition(flags[..|flags| - 1]);
    }
  }

  /** The plan shown for confirmation. */
  class PlanHolder {
    var currentPlan: Option<FormatCompiler.Compiled>

    constructor()
      ensures currentPlan == None
    {
      currentPlan := None;
    }

    /** The end of `sendUserMessage`: a validated plan waits for confirmation. */
    method Offer(compiled: FormatCompiler.Compiled)
      modifies this
      ensures currentPlan == Some(compiled)
    {
      currentPlan := Some(compiled);
    }

    /**
     * `executePlan`: without a plan nothing happens; otherwise the plan is taken (so a second
     * click cannot run it again) and run, with `run` standing for the engine.
     */
    method Execute(run: FormatCompiler.Compiled -> seq<bool>) returns (summary: Option<Summary>)
      modifies this
      ensures currentPlan == None
      ensures old(currentPlan).None? <==> summary.None?
      ensures old(currentPlan).Some? ==> summary == Some(SummaryOf(run(old(currentPlan).value)))
    {
      if currentPlan.None? {
        return None;
      }
      var compiled := currentPlan.value;
      currentPlan := None;
      summary := Some(SummaryOf(run(compiled)));
    }

    /** `cancelPlan`. */
    method Cancel()
      modifies this
      ensures currentPlan == None
    {
      currentPlan := None;
    }
  }

  // ---------------------------------------------------------------- escaping

  /** The replacement chain of `_escapeHtml`: `&` first, then `<`, `>`, `"`, and line breaks. */
  function EscapeChain(s: string): string
  {
    ReplaceChar(ReplaceChar(ReplaceChar(ReplaceChar(ReplaceChar(s, '&', "&amp;"), '<', "&lt;"), '>', "&gt;"), '"', "&quot;"), '\n', "<br>")
  }

  /** `_escapeHtml` of a string; the empty string is falsy and gives `''`. */
  function EscapeHtml(s: string): string
  {
    if s == "" then "" else EscapeChain(s)
  }

  /** What each character becomes. */
  function EscapeChar(c: char): string
  {
    if c == '&' then "&amp;"
    else if c == '<' then "&lt;"
    else if c == '>' then "&gt;"
    else if c == '"' then "&quot;"
    else if c == '\n' then "<br>"
    else [c]
  }

  function EscapeEach(s: string): string
  {
    if s == [] then [] else EscapeChar(s[0]) + EscapeEach(s[1..])
  }

  lemma {:induction false} ReplaceCharAppend(a: string, b: string, c: char, w: string)
    ensures ReplaceChar(a + b, c, w) == ReplaceChar(a, c, w) + ReplaceChar(b, c, w)
  {
    if a != [] {
      assert (a + b)[0] == a[0] && (a + b)[1..] == a[1..] + b;
      ReplaceCharAppend(a[1..], b, c, w);
      var x := if a[0] == c then w else [a[0]];
      assert ReplaceChar(a + b, c, w) == x + (ReplaceChar(a[1..], c, w) + ReplaceChar(b, c, w));
      assert ReplaceChar(a, c, w) == x + ReplaceChar(a[1..], c, w);
    } else {
      assert a + b == b;
    }
  }

  lemma EscapeChainAppend(a: string, b: string)
    ensures EscapeChain(a + b) == EscapeChain(a) + EscapeChain(b)
  {
    var s1a, s1b := ReplaceChar(a, '&', "&amp;"), ReplaceChar(b, '&', "&amp;");
    ReplaceCharAppend(a, b, '&', "&amp;");
    var s2a, s2b := ReplaceChar(s1a, '<', "&lt;"), ReplaceChar(s1b, '<', "&lt;");
    ReplaceCharAppend(s1a, s1b, '<', "&lt;");
    var s3a, s3b := ReplaceChar(s2a, '>', "&gt;"), ReplaceChar(s2b, '>', "&gt;");
    ReplaceCharAppend(s2a, s2b, '>', "&gt;");
    var s4a, s4b := ReplaceChar(s3a, '"', "&quot;"), ReplaceChar(s3b, '"', "&quot;");
    ReplaceCharAppend(s3a, s3b, '"', "&quot;");
    ReplaceCharAppend(s4a, s4b, '\n', "<br>");
  }

  /** One character through the chain. */
  lemma EscapeChainChar(c: char)
    ensures EscapeChain([c]) == EscapeChar(c)
  {
    var s1 := ReplaceChar([c], '&', "&amp;");
    ReplaceCharSingle(c, '&', "&amp;");
    if c == '&' {
      ReplaceCharsAbsent("&amp;");
    } else {
      var s2 := ReplaceChar(s1, '<', "&lt;");
      ReplaceCharSingle(c, '<', "&lt;");
      if c == '<' {
        StagesAfterLt("&lt;");
      } else {
        StagesAfterLt([c]);
        ChainTail(c);
      }
    }
  }

  /** The last three stages on one character other than `&` and `<`. */
  lemma ChainTail(c: char)
    requires c != '&' && c != '<'
    ensures ReplaceChar(ReplaceChar(ReplaceChar([c], '>', "&gt;"), '"', "&quot;"), '\n', "<br>") == EscapeChar(c)
  {
    ReplaceCharSingle(c, '>', "&gt;");
    if c == '>' {
      ReplaceCharNone("&gt;", '"', "&quot;");
      ReplaceCharNone("&gt;", '\n', "<br>");
    } else {
      ReplaceCharSingle(c, '"', "&quot;");
      if c == '"' {
        ReplaceCharNone("&quot;", '\n', "<br>");
      } else {
        ReplaceCharSingle(c, '\n', "<br>");
      }
    }
  }

  /** The stages after `<` leave text without `>`, `"` and line breaks alone, and are the
      tail of the chain otherwise. */
  lemma StagesAfterLt(e: string)
    ensures '>' !in e && '"' !in e && '\n' !in e ==>
              ReplaceChar(ReplaceChar(ReplaceChar(e, '>', "&gt;"), '"', "&quot;"), '\n', "<br>") == e
  {
    ReplaceCharNone(e, '>', "&gt;");
    ReplaceCharNone(e, '"', "&quot;");
    ReplaceCharNone(e, '\n', "<br>");
  }

  /** The later replacements leave an entity alone. */
  lemma ReplaceCharsAbsent(e: string)
    requires '<' !in e && '>' !in e && '"' !in e && '\n' !in e
    ensures ReplaceChar(ReplaceChar(ReplaceChar(ReplaceChar(e, '<', "&lt;"), '>', "&gt;"), '"', "&quot;"), '\n', "<br>") == e
  {
    ReplaceCharNone(e, '<', "&lt;");
    ReplaceCharNone(e, '>', "&gt;");
    ReplaceCharNone(e, '"', "&quot;");
    ReplaceCharNone(e, '\n', "<br>");
  }

  lemma ReplaceCharNone(s: string, c: char, w: string)
    ensures c !in s ==> ReplaceChar(s, c, w) == s
  {
  }

  lemma ReplaceCharSingle(c: char, x: char, w: string)
    ensures ReplaceChar([c], x, w) == if c == x then w else [c]
  {
    assert [c][1..] == [];
  }

  /** The chain of replacements escapes each character on its own: a later replacement
      never touches the text an earlier one produced. */
  lemma {:induction false} EscapeHtmlPerChar(s: string)
    ensures EscapeHtml(s) == EscapeEach(s)
  {
    if s != [] {
      assert s == [s[0]] + s[1..];
      EscapeChainAppend([s[0]], s[1..]);
      EscapeChainChar(s[0]);
      EscapeHtmlPerChar(s[1..]);
    }
  }

  /** Reading the entities back. */
  function Unescape(t: string): string
    decreases |t|
  {
    if t == [] then []
    else if StartsWith(t, "&amp;") then ['&'] + Unescape(t[5..])
    else if StartsWith(t, "&lt;") then ['<'] + Unescape(t[4..])
    else if StartsWith(t, "&gt;") then ['>'] + Unescape(t[4..])
    else if StartsWith(t, "&quot;") then ['"'] + Unescape(t[6..])
    else if StartsWith(t, "<br>") then ['\n'] + Unescape(t[4..])
    else [t[0]] + Unescape(t[1..])
  }

  /** Escaping loses nothing: the entities read back to the original text. */
  lemma {:induction false} EscapeRoundTrip(s: string)
    ensures Unescape(EscapeHtml(s)) == s
  {
    EscapeHtmlPerChar(s);
    EscapeEachRoundTrip(s);
  }

  lemma {:induction false} EscapeEachRoundTrip(s: string)
    ensures Unescape(EscapeEach(s)) == s
  {
    if s != [] {
      EscapeEachRoundTrip(s[1..]);
      UnescapeChar(s[0], EscapeEach(s[1..]));
      assert s == [s[0]] + s[1..];
    }
  }

  /** The entity of one character reads back to it, whatever follows. */
  lemma UnescapeChar(c: char, rest: string)
    ensures Unescape(EscapeChar(c) + rest) == [c] + Unescape(rest)
  {
    var t := EscapeChar(c) + rest;
    var e := EscapeChar(c);
    assert t[..|e|] == e && t[|e|..] == rest && t[0] == e[0];
    if c !in "&<>\"\n" {
      assert t[0] == c;
      assert !StartsWith(t, "&amp;") && !StartsWith(t, "&lt;") && !StartsWith(t, "&gt;");
      assert !StartsWith(t, "&quot;") && !StartsWith(t, "<br>");
    } else if c == '&' {
      assert StartsWith(t, "&amp;");
    } else if c == '<' {
      NotPrefix(t, "&amp;", 1);
      assert StartsWith(t, "&lt;");
    } else if c == '>' {
      NotPrefix(t, "&amp;", 1);
      NotPrefix(t, "&lt;", 1);
      assert StartsWith(t, "&gt;");
    } else if c == '"' {
      NotPrefix(t, "&amp;", 1);
      NotPrefix(t, "&lt;", 1);
      NotPrefix(t, "&gt;", 1);
      assert StartsWith(t, "&quot;");
    } else {
      NotPrefix(t, "&amp;", 0);
      NotPrefix(t, "&lt;", 0);
      NotPrefix(t, "&gt;", 0);
      NotPrefix(t, "&quot;", 0);
      assert StartsWith(t, "<br>");
    }
  }

  lemma NotPrefix(t: string, p: string, k: nat)
    requires k < |p| && k < |t| && t[k] != p[k]
    ensures !StartsWith(t, p)
  {
  }

  /** The escaped text has no raw quote or line break, and no angle bracket unless the
      original had a line break, which becomes `<br>`. */
  lemma {:induction false} EscapedIsSafe(s: string)
    ensures '"' !in EscapeHtml(s) && '\n' !in EscapeHtml(s)
    ensures '\n' !in s ==> '<' !in EscapeHtml(s) && '>' !in EscapeHtml(s)
  {
    EscapeHtmlPerChar(s);
    EscapeEachSafe(s);
  }

  lemma {:induction false} EscapeEachSafe(s: string)
    ensures '"' !in EscapeEach(s) && '\n' !in EscapeEach(s)
    ensures '\n' !in s ==> '<' !in EscapeEach(s) && '>' !in EscapeEach(s)
  {
    if s != [] {
      EscapeEachSafe(s[1..]);
      EscapeCharSafe(s[0]);
      assert EscapeEach(s) == EscapeChar(s[0]) + EscapeEach(s[1..]);
      assert '\n' !in s ==> s[0] != '\n' && '\n' !in s[1..];
    }
  }

  lemma EscapeCharSafe(c: char)
    ensures '"' !in EscapeChar(c) && '\n' !in EscapeChar(c)
    ensures c != '\n' ==> '<' !in EscapeChar(c) && '>' !in EscapeChar(c)
  {
  }
}
