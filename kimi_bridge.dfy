/**
 * The local bridge between the add-in's task pane and the chat-completion API: the normalisers that
 * turn whatever the model returned into variables the add-in accepts. `JSON.parse` is an
 * oracle `parse`; the HTTP server, the API calls and their timers are not modelled.
 */
module KimiBridge {
  import opened Wrappers
  import opened Text
  import opened JsonValue
  import opened Seqs
  import AiParser

  // ---------------------------------------------------------------- environment and retry

  predicate IsQuote(c: char) { c == '\'' || c == '"' }

  /** `s.replace(/^['"]+/, '')`. */
  function DropLeadingQuotes(s: string): (r: string)
    ensures |r| <= |s| && r == s[|s| - |r|..]
    ensures r == [] || !IsQuote(r[0])
    ensures forall i :: 0 <= i < |s| - |r| ==> IsQuote(s[i])
  {
    if s != [] && IsQuote(s[0]) then DropLeadingQuotes(s[1..]) else s
  }

  /** `s.replace(/['"]+$/, '')`. */
  function DropTrailingQuotes(s: string): (r: string)
    ensures |r| <= |s| && r == s[..|r|]
    ensures r == [] || !IsQuote(r[|r| - 1])
    ensures forall i :: |r| <= i < |s| ==> IsQuote(s[i])
  {
    if s != [] && IsQuote(s[|s| - 1]) then DropTrailingQuotes(s[..|s| - 1]) else s
  }

  /** The position of the first whitespace character, or the length when there is none. */
  function FirstSpace(s: string): (k: nat)
    ensures k <= |s|
    ensures forall i :: 0 <= i < k ==> !IsSpace(s[i])
    ensures k < |s| ==> IsSpace(s[k])
  {
    if s == [] || IsSpace(s[0]) then 0 else 1 + FirstSpace(s[1..])
  }

  /**
   * `sanitizeEnv`: a value that is not a string gives `''`; otherwise the value is trimmed,
   * surrounding quotes are removed and only the text before the first whitespace is kept.
   * `None` stands for a value that is not a string.
   */
  function SanitizeEnv(value: Option<string>): (r: string)
    ensures value.None? ==> r == ""
    ensures forall i :: 0 <= i < |r| ==> !IsSpace(r[i])
    ensures r == [] || !IsQuote(r[0])
    ensures value.Some? ==>
              |r| <= |Dequoted(value.value)| && r == Dequoted(value.value)[..|r|]
              && (|r| < |Dequoted(value.value)| ==> IsSpace(Dequoted(value.value)[|r|]))
  {
    if value.None? then ""
    else
      var stripped := Dequoted(value.value);
      if stripped == "" then "" else stripped[..FirstSpace(stripped)]
  }

  /** The value trimmed, with its leading and trailing quote runs removed. */
  function Dequoted(s: string): (r: string)
    ensures r == [] || !IsQuote(r[0])
  {
    DropTrailingQuotes(DropLeadingQuotes(Trim(s)))
  }

  /** A clean token, one with no whitespace and no quotes, comes through unchanged. */
  lemma SanitizeEnvToken(s: string)
    requires forall i :: 0 <= i < |s| ==> !IsSpace(s[i]) && !IsQuote(s[i])
    ensures SanitizeEnv(Some(s)) == s
  {
    assert TrimStart(s) == s by { if s != [] { assert !IsSpace(s[0]); } }
    assert TrimEnd(s) == s by { if s != [] { assert !IsSpace(s[|s| - 1]); } }
    assert DropLeadingQuotes(s) == s by { if s != [] { assert !IsQuote(s[0]); } }
    assert DropTrailingQuotes(s) == s by { if s != [] { assert !IsQuote(s[|s| - 1]); } }
    assert FirstSpace(s) == |s|;
  }

  const TRUE_WORDS: seq<string> := ["1", "true", "yes", "on"]
  const FALSE_WORDS: seq<string> := ["0", "false", "no", "off"]

  /** `parseBoolEnv` on the raw environment value (`None` when the variable is unset). */
  function ParseBoolEnv(raw: Option<string>, fallback: bool): (r: bool)
  {
    var word := SanitizeEnv(if raw.Some? && raw.value != "" then raw else Some(""));
    if word == "" then fallback
    else if Lower(word) in TRUE_WORDS then true
    else if Lower(word) in FALSE_WORDS then false
    else fallback
  }

  /** Only a recognised word overrides the fallback; an unset variable keeps it. */
  lemma ParseBoolEnvMeaning(raw: Option<string>, fallback: bool)
    ensures ParseBoolEnv(raw, fallback) != fallback ==>
      raw.Some? && Lower(SanitizeEnv(raw)) in (if fallback then FALSE_WORDS else TRUE_WORDS)
    ensures raw.None? ==> ParseBoolEnv(raw, fallback) == fallback
  {
  }

  /**
   * `shouldRetryRequest`: with a numeric status, exactly the timeout, conflict,
   * too-many-requests and server-error statuses (sections 15.5.9, 15.5.10, 15.6 of RFC 9110
   * and section 4 of RFC 6585); without one, a network failure named in the error message.
   */
  function ShouldRetryRequest(message: string, status: Option<int>): (r: bool)
    ensures status.Some? ==> (r <==> status.value in {408, 409, 429} || 500 <= status.value <= 599)
    ensures status.None? && message == "" ==> !r
  {
    if status.Some? then
      var s := status.value;
      s == 408 || s == 409 || s == 429 || (s >= 500 && s <= 599)
    else
      var msg := Lower(message);
      msg != "" && (Contains(msg, "fetch failed") || Contains(msg, "econnreset") || Contains(msg, "etimedout") || Contains(msg, "network"))
  }

  /** A client error other than 408, 409 and 429 is never retried. */
  lemma NoRetryOnClientError(message: string, status: int)
    requires 400 <= status < 500 && status !in {408, 409, 429}
    ensures !ShouldRetryRequest(message, Some(status))
  {
  }

  /** `resolveTemperatureForModel`: a `kimi-k2.5` model runs at temperature 1 whatever was asked. */
  function ResolveTemperature(model: string, requested: real): (r: real)
    ensures Contains(Lower(Trim(model)), "kimi-k2.5") ==> r == 1.0
    ensures !Contains(Lower(Trim(model)), "kimi-k2.5") ==> r == requested
  {
    if Contains(Lower(Trim(model)), "kimi-k2.5") && requested != 1.0 then 1.0 else requested
  }

  // ---------------------------------------------------------------- text fields

  /** `typeof v === 'string' && v.trim()`. */
  predicate NonBlank(o: Option<Value>) { o.Some? && o.value.Str? && Trim(o.value.s) != "" }

  /** The position of the first non-blank string. */
  function FirstNonBlank(values: seq<Option<Value>>): (r: Option<nat>)
    ensures r.Some? ==> r.value < |values| && NonBlank(values[r.value]) && forall k :: 0 <= k < r.value ==> !NonBlank(values[k])
    ensures r.None? ==> forall k :: 0 <= k < |values| ==> !NonBlank(values[k])
  {
    FirstFrom(values, NonBlank, 0)
  }

  /** `firstNonEmpty(...values)`: the first non-blank string, trimmed, else `''`. */
  function FirstNonEmpty(values: seq<Option<Value>>): (r: string)
    ensures r == [] || (!IsSpace(r[0]) && !IsSpace(r[|r| - 1]))
    ensures r == "" <==> FirstNonBlank(values).None?
    ensures FirstNonBlank(values).Some? ==> r == Trim(values[FirstNonBlank(values).value].value.s)
  {
    match FirstNonBlank(values)
    case Some(k) => Trim(values[k].value.s)
    case None => ""
  }

  /** `v.replace(/\u0000/g, '')`. */
  function DropNul(s: string): (r: string)
    ensures |r| <= |s|
    ensures '\0' !in r
  {
    Filter(s, c => c != '\0')
  }

  /** Trimming only removes characters. */
  lemma TrimKeeps(s: string, c: char)
    requires c !in s
    ensures c !in Trim(s)
  {
    var u := TrimStart(s);
    NotInSlice(s, |s| - |u|, |s|, c);
    var t := TrimEnd(u);
    NotInSlice(u, 0, |t|, c);
  }

  lemma NotInSlice(s: string, lo: nat, hi: nat, c: char)
    requires lo <= hi <= |s| && c !in s
    ensures c !in s[lo..hi]
  {
    forall i | 0 <= i < hi - lo ensures s[lo..hi][i] != c {
      assert s[lo..hi][i] == s[lo + i];
    }
  }

  /** `sanitizeText(value, maxLen)` on a string: NUL removed, trimmed, cut to `maxLen`. */
  function SanitizeText(s: string, maxLen: nat): (r: string)
    ensures |r| <= maxLen && |r| <= |Trim(DropNul(s))|
    ensures r == Trim(DropNul(s))[..|r|]
    ensures |Trim(DropNul(s))| <= maxLen ==> r == Trim(DropNul(s))
    ensures '\0' !in r
  {
    var t := Trim(DropNul(s));
    TrimKeeps(DropNul(s), '\0');
    if |t| <= maxLen then t else t[..maxLen]
  }

  /** `String(value)` in JavaScript, with `numText` rendering numbers. */
  function JsString(v: Value, numText: real -> string): string
  {
    match v
    case Null => "null"
    case Bool(b) => if b then "true" else "false"
    case Num(n) => numText(n)
    case Str(s) => s
    case Arr(items) => ArrayString(items, numText)
    case Obj(_) => "[object Object]"
  }

  /** `Array.prototype.toString`: elements joined by `,`, with `null` as an empty string. */
  function ArrayString(items: seq<Value>, numText: real -> string): string
    decreases items
  {
    if items == [] then ""
    else
      var first := if items[0].Null? then "" else JsString(items[0], numText);
      if |items| == 1 then first else first + "," + ArrayString(items[1..], numText)
  }

  /** `sanitizeText(String(item || ''), 80)` for one option. */
  function OptionText(item: Value, numText: real -> string): (r: string)
    ensures |r| <= 80
  {
    SanitizeText(if Truthy(item) then JsString(item, numText) else "", 80)
  }

  /** `.filter(Boolean)` on strings: the non-empty ones, in order. */
  function NonEmpty(ts: seq<string>): (r: seq<string>)
    ensures |r| <= |ts|
    ensures forall t :: t in r <==> t in ts && t != ""
  {
    if ts == [] then [] else (if ts[0] != "" then [ts[0]] else []) + NonEmpty(ts[1..])
  }

  lemma {:induction false} NonEmptyAll(ts: seq<string>)
    requires forall k :: 0 <= k < |ts| ==> ts[k] != ""
    ensures NonEmpty(ts) == ts
  {
    if ts != [] {
      NonEmptyAll(ts[1..]);
    }
  }

  /** Texts no longer than `bound` stay so after `map` and `filter(Boolean)`. */
  lemma NonEmptyMapBounded<B>(xs: seq<B>, f: B -> string, bound: nat)
    requires forall x :: |f(x)| <= bound
    ensures forall t :: t in NonEmpty(Map(xs, f)) ==> t != "" && |t| <= bound
  {
    MapAt(xs, f);
  }

  /** `normalizeOptions`: at most 50 non-empty options of at most 80 characters, in order. */
  function NormalizeOptions(value: Option<Value>, numText: real -> string): (r: seq<string>)
    ensures |r| <= 50
    ensures forall k :: 0 <= k < |r| ==> r[k] != "" && |r[k]| <= 80
    ensures !(value.Some? && value.value.Arr?) ==> r == []
  {
    if value.Some? && value.value.Arr? then
      var f := item => OptionText(item, numText);
      var all := NonEmpty(Map(value.value.items, f));
      NonEmptyMapBounded(value.value.items, f, 80);
      var r := if |all| <= 50 then all else all[..50];
      assert forall k :: 0 <= k < |r| ==> r[k] in all;
      r
    else []
  }

  /** A clean string option is its own option text. */
  lemma OptionTextClean(s: string, numText: real -> string)
    requires Clean(s, 80)
    ensures OptionText(Str(s), numText) == s
  {
    assert Truthy(Str(s)) && JsString(Str(s), numText) == s;
    CleanTextUnchanged(s, 80);
  }

  /** Up to fifty clean string options come through unchanged and in order. */
  lemma NormalizeOptionsClean(options: seq<string>, numText: real -> string)
    requires |options| <= 50
    requires forall k :: 0 <= k < |options| ==> Clean(options[k], 80)
    ensures NormalizeOptions(Some(Arr(seq(|options|, k requires 0 <= k < |options| => Str(options[k])))), numText) == options
  {
    var items := seq(|options|, k requires 0 <= k < |options| => Str(options[k]));
    var f := item => OptionText(item, numText);
    var texts := Map(items, f);
    MapAt(items, f);
    forall k | 0 <= k < |options| ensures texts[k] == options[k] {
      OptionTextClean(options[k], numText);
    }
    assert texts == options;
    NonEmptyAll(options);
    assert NonEmpty(texts) == options;
  }

  /** Non-empty text with no NUL, no surrounding whitespace and at most `maxLen` characters. */
  predicate Clean(s: string, maxLen: nat)
  {
    s != [] && |s| <= maxLen && '\0' !in s && !IsSpace(s[0]) && !IsSpace(s[|s| - 1])
  }

  /** Text that is already clean and short enough is left as it is. */
  lemma CleanTextUnchanged(s: string, maxLen: nat)
    requires Clean(s, maxLen)
    ensures SanitizeText(s, maxLen) == s
  {
    assert DropNul(s) == s by { FilterAll(s, c => c != '\0'); }
    assert TrimStart(s) == s;
    assert TrimEnd(s) == s;
  }

  lemma {:induction false} FilterAll(s: string, keep: char -> bool)
    requires forall i :: 0 <= i < |s| ==> keep(s[i])
    ensures Filter(s, keep) == s
  {
    if s != [] {
      FilterAll(s[1..], keep);
    }
  }

  /** `s.replace(/[：:]+$/, '')`. */
  function DropTrailingColons(s: string): (r: string)
    ensures |r| <= |s| && r == s[..|r|]
    ensures r == [] || (r[|r| - 1] != ':' && r[|r| - 1] != '：')
    ensures forall i :: |r| <= i < |s| ==> s[i] == ':' || s[i] == '：'
  {
    if s != [] && (s[|s| - 1] == ':' || s[|s| - 1] == '：') then DropTrailingColons(s[..|s| - 1]) else s
  }

  /** `firstNonEmpty(rawLabel)`: the explicit label, trimmed, when it is a non-blank string. */
  function ExplicitLabel(rawLabel: Option<Value>): (r: string)
    ensures r == "" <==> !NonBlank(rawLabel)
  {
    if NonBlank(rawLabel) then Trim(rawLabel.value.s) else ""
  }

  /**
   * `inferLabel`: the explicit label; else the prefix without trailing colons; else the first
   * 24 characters of the context; else `字段{index+1}`.
   */
  function InferLabel(rawLabel: Option<Value>, prefix: string, context: string, index: nat): (r: string)
    ensures ExplicitLabel(rawLabel) != "" ==> r == SanitizeText(ExplicitLabel(rawLabel), 120)
    ensures ExplicitLabel(rawLabel) == "" ==> r != ""
    ensures ExplicitLabel(rawLabel) == "" && DropTrailingColons(SanitizeText(prefix, 120)) != "" ==>
      |r| <= |SanitizeText(prefix, 120)| && r == SanitizeText(prefix, 120)[..|r|] && !IsColon(r[|r| - 1])
    ensures ExplicitLabel(rawLabel) == "" && DropTrailingColons(SanitizeText(prefix, 120)) != "" ==>
      r == DropTrailingColons(SanitizeText(prefix, 120))
    ensures ExplicitLabel(rawLabel) == "" && DropTrailingColons(SanitizeText(prefix, 120)) == "" && SanitizeText(context, 120) == "" ==>
      r == "字段" + NatToString(index + 1)
  {
    var given := ExplicitLabel(rawLabel);
    if given != "" then SanitizeText(given, 120)
    else
      var fromPrefix := DropTrailingColons(SanitizeText(prefix, 120));
      if fromPrefix != "" then fromPrefix
      else
        var context120 := SanitizeText(context, 120);
        var fromContext := if |context120| <= 24 then context120 else context120[..24];
        if fromContext != "" then fromContext
        else "字段" + NatToString(index + 1)
  }

  /** Without an explicit label or a usable prefix, the label is the first (at most) 24
      characters of the sanitised context. */
  lemma InferLabelFromContext(rawLabel: Option<Value>, prefix: string, context: string, index: nat)
    requires ExplicitLabel(rawLabel) == ""
    requires DropTrailingColons(SanitizeText(prefix, 120)) == "" && SanitizeText(context, 120) != ""
    ensures var r := InferLabel(rawLabel, prefix, context, index);
      0 < |r| <= 24 && |r| <= |SanitizeText(context, 120)| && r == SanitizeText(context, 120)[..|r|]
    ensures var c := SanitizeText(context, 120);
      InferLabel(rawLabel, prefix, context, index) == c[..if |c| < 24 then |c| else 24]
  {
    var context120 := SanitizeText(context, 120);
    var fromContext := if |context120| <= 24 then context120 else context120[..24];
    assert InferLabel(rawLabel, prefix, context, index) == fromContext;
  }

  // ---------------------------------------------------------------- placeholder markers

  /** The length of the run of `c` starting at `p`. */
  function RunOf(s: string, p: nat, c: char): (r: nat)
    requires p <= |s|
    ensures p + r <= |s|
    ensures forall k :: p <= k < p + r ==> s[k] == c
    ensures p + r == |s| || s[p + r] != c
    decreases |s| - p
  {
    if p == |s| || s[p] != c then 0 else 1 + RunOf(s, p + 1, c)
  }

  /** `open\s*close` at `p`, the closing character right after the spaces. */
  function EnclosedAt(s: string, p: nat, close: char): Option<nat>
    requires p < |s|
  {
    var q := p + 1 + SpaceRun(s, p + 1);
    if q < |s| && s[q] == close then Some(q + 1 - p) else None
  }

  /**
   * The length of the match of `EXPLICIT_PLACEHOLDER_RE` starting at `p`, if any:
   * `【…】` with at most 80 characters between, `__…`, `[ ]`, `( )`, `（ )`, `﹍﹍…` or `**…`.
   * The alternatives start with different characters, so at most one applies at `p`.
   */
  function MatchAt(s: string, p: nat): (r: Option<nat>)
    requires p < |s|
    ensures r.Some? ==> 0 < r.value && p + r.value <= |s|
  {
    var c := s[p];
    if c == '【' then
      match IndexOfFrom(s, "】", p + 1)
      case Some(k) => if k - (p + 1) <= 80 then Some(k + 1 - p) else None
      case None => None
    else if c == '_' || c == '﹍' || c == '*' then
      var n := RunOf(s, p, c);
      if n >= 2 then Some(n) else None
    else if c == '[' then EnclosedAt(s, p, ']')
    else if c == '(' || c == '（' then EnclosedAt(s, p, ')')
    else None
  }

  /** The leftmost match of `EXPLICIT_PLACEHOLDER_RE` at or after `p`, as start and length. */
  function FirstMatchFrom(s: string, p: nat): (r: Option<(nat, nat)>)
    requires p <= |s|
    ensures r.Some? ==> p <= r.value.0 < |s| && MatchAt(s, r.value.0) == Some(r.value.1)
    ensures r.Some? ==> forall k :: p <= k < r.value.0 ==> MatchAt(s, k).None?
    ensures r.None? ==> forall k :: p <= k < |s| ==> MatchAt(s, k).None?
    decreases |s| - p
  {
    if p == |s| then None
    else match MatchAt(s, p)
      case Some(n) => Some((p, n))
      case None => FirstMatchFrom(s, p + 1)
  }

  /** `match[0]` of `EXPLICIT_PLACEHOLDER_RE` on `s`. */
  function ExplicitMarker(s: string): (r: Option<string>)
    ensures r.Some? ==> r.value != "" && Contains(s, r.value)
  {
    match FirstMatchFrom(s, 0)
    case Some((p, n)) =>
      assert OccursAt(s, s[p..p + n], p);
      Some(s[p..p + n])
    case None => None
  }

  predicate IsColon(c: char) { c == ':' || c == '：' }

  /** `/[:：]\s{2,}/` or `/[:：]\s*$/`: a colon followed by two spaces, or by spaces to the end. */
  predicate ColonGap(s: string)
  {
    exists i :: 0 <= i < |s| && IsColon(s[i]) && (SpaceRun(s, i + 1) >= 2 || i + 1 + SpaceRun(s, i + 1) == |s|)
  }

  datatype Marker = Marker(marker: string, explicit: bool)

  /** `detectPlaceholderMarker`. */
  function DetectPlaceholderMarker(raw: string): (r: Marker)
    ensures r.explicit <==> ExplicitMarker(raw).Some? || ColonGap(raw)
    ensures r.explicit ==> r.marker != ""
    ensures !r.explicit ==> r.marker == ""
    ensures ExplicitMarker(raw).Some? ==> Contains(raw, r.marker)
  {
    match ExplicitMarker(raw)
    case Some(m) => Marker(m, true)
    case None => if ColonGap(raw) then Marker("____", true) else Marker("", false)
  }

  /** Two underscores are a marker; a single one is not. */
  lemma MarkerExamples()
    ensures ExplicitMarker("__") == Some("__")
    ensures ExplicitMarker("_") == None
  {
    assert RunOf("__", 0, '_') == 2;
    assert MatchAt("__", 0) == Some(2);
    assert FirstMatchFrom("__", 0) == Some((0, 2));
    assert "__"[0..2] == "__";
    assert RunOf("_", 0, '_') == 1;
  }

  // ---------------------------------------------------------------- type, format and mode

  const DATE_HINTS: seq<string> := ["日期", "年月日", "签署日", "生效日"]
  const NUMBER_HINTS: seq<string> := ["金额", "价款", "税点", "税率", "数量", "比例", "百分", "违约金", "小时", "日", "月", "年", "批次"]
  const TEXTAREA_HINTS: seq<string> := ["信息如下", "说明", "方案", "整改", "附件", "账户信息", "开票信息"]
  const DYNAMIC_HINTS: seq<string> :=
    ["合同编号", "订单编号", "编号", "日期", "年", "月", "日", "期限", "工作日", "小时", "金额", "价款", "单价",
     "税点", "税号", "账户", "账号", "开户行", "收款人", "联系人", "手机", "电话", "邮箱", "电子邮件", "地址",
     "交货", "批次", "比例", "违约金", "购货方", "采购人员", "审批人"]

  /** `guessType`: date, number and long-text hints in that order, else `text`. */
  function GuessType(value: string): (r: string)
    ensures r in AiParser.VALID_TYPES && r != "select" && r != "radio"
    ensures r == "date" <==> Any(value, DATE_HINTS)
  {
    if value == "" then "text"
    else if Any(value, DATE_HINTS) then "date"
    else if Any(value, NUMBER_HINTS) then "number"
    else if Any(value, TEXTAREA_HINTS) then "textarea"
    else "text"
  }

  /** `normalizeType`: a known type, trimmed, else the guess from the hint text. */
  function NormalizeType(value: string, hint: string): (r: string)
    ensures r in AiParser.VALID_TYPES
    ensures Trim(value) in AiParser.VALID_TYPES ==> r == Trim(value)
  {
    if Trim(value) in AiParser.VALID_TYPES then Trim(value) else GuessType(hint)
  }

  /** `normalizeFormatFn`: a known formatter, else `dateUnderline` for a date hint, else `none`. */
  function NormalizeFormatFn(value: string, hint: string): (r: string)
    ensures r in AiParser.VALID_FORMAT_FNS
    ensures Trim(value) in AiParser.VALID_FORMAT_FNS ==> r == Trim(value)
  {
    if Trim(value) in AiParser.VALID_FORMAT_FNS then Trim(value)
    else if Any(hint, DATE_HINTS) then "dateUnderline"
    else "none"
  }

  /** `normalizeMode`: a known mode, else `insert`. */
  function NormalizeMode(value: string): (r: string)
    ensures r in AiParser.VALID_MODES
    ensures r == "paragraph" <==> Trim(value) == "paragraph"
  {
    if Trim(value) in AiParser.VALID_MODES then Trim(value) else "insert"
  }

  // ---------------------------------------------------------------- keeping a variable

  /** `s.replace(/\s+/g, ' ')`. */
  function CollapseSpaces(s: string): (r: string)
    ensures |r| <= |s|
    decreases |s|
  {
    if s == [] then []
    else if IsSpace(s[0]) then " " + CollapseSpaces(s[SpaceRun(s, 0)..])
    else [s[0]] + CollapseSpaces(s[1..])
  }

  /** `String(v).replace(/\s+/g, ' ').trim()`: the length `shouldKeepVariable` compares. */
  function Compact(s: string): (r: string)
    ensures |r| <= |s|
  {
    Trim(CollapseSpaces(s))
  }

  /**
   * `shouldKeepVariable`: paragraph variables and explicit markers are kept; otherwise a
   * variable needs a dynamic-field hint in its label or context and a short placeholder and
   * context.
   */
  predicate ShouldKeep(explicitMarker: bool, name: string, context: string, placeholder: string, mode: string)
  {
    mode == "paragraph" || explicitMarker
    || (Any(name + " " + context, DYNAMIC_HINTS) && |Compact(placeholder)| <= 120 && |Compact(context)| <= 120)
  }

  /** A hint-only variable whose raw placeholder and context fit in 120 characters is kept. */
  lemma ShortHintedKept(name: string, context: string, placeholder: string, mode: string)
    requires Any(name + " " + context, DYNAMIC_HINTS) && |placeholder| <= 120 && |context| <= 120
    ensures ShouldKeep(false, name, context, placeholder, mode)
  {
  }

  // ---------------------------------------------------------------- the variable list

  /** `target` is `v` or a value nested in it. */
  predicate Within(target: Value, v: Value)
    decreases v
  {
    target == v
    || (v.Obj? && exists i :: 0 <= i < |v.fields| && Within(target, v.fields[i].1))
    || (v.Arr? && exists i :: 0 <= i < |v.items| && Within(target, v.items[i]))
  }

  /** A property value is nested in its object. */
  lemma GetWithin(v: Value, key: string)
    requires Get(v, key).Some?
    ensures Within(Get(v, key).value, v)
    ensures Get(v, key).value < v
  {
    var x := Get(v, key).value;
    var i :| 0 <= i < |v.fields| && v.fields[i].1 == x;
    assert Within(x, v.fields[i].1);
  }

  /** An array property, if there is one. */
  function ArrayAt(v: Value, key: string): Option<seq<Value>>
  {
    match Get(v, key)
    case Some(Arr(items)) => Some(items)
    case _ => None
  }

  /**
   * `normalizeListFromOutput`: the array itself, else the first of `variables`, `items`,
   * `fields` and `candidates` that is an array, else the same search inside `output`.
   */
  function NormalizeList(raw: Value): (r: seq<Value>)
    ensures r != [] ==> Within(Arr(r), raw)
    ensures raw.Arr? ==> r == raw.items
    decreases raw
  {
    if raw.Arr? then raw.items
    else if !raw.Obj? then []
    else if ArrayAt(raw, "variables").Some? then GetWithin(raw, "variables"); ArrayAt(raw, "variables").value
    else if ArrayAt(raw, "items").Some? then GetWithin(raw, "items"); ArrayAt(raw, "items").value
    else if ArrayAt(raw, "fields").Some? then GetWithin(raw, "fields"); ArrayAt(raw, "fields").value
    else if ArrayAt(raw, "candidates").Some? then GetWithin(raw, "candidates"); ArrayAt(raw, "candidates").value
    else match Get(raw, "output")
      case Some(o) =>
        if o.Arr? || o.Obj? then
          GetWithin(raw, "output");
          var r := NormalizeList(o);
          assert r != [] ==> Within(Arr(r), raw) by {
            if r != [] { WithinTrans(Arr(r), o, raw); }
          }
          r
        else []
      case None => []
  }

  lemma {:induction false} WithinTrans(a: Value, b: Value, c: Value)
    requires Within(a, b) && Within(b, c)
    ensures Within(a, c)
    decreases c
  {
    if b != c {
      if c.Obj? && exists i :: 0 <= i < |c.fields| && Within(b, c.fields[i].1) {
        var i :| 0 <= i < |c.fields| && Within(b, c.fields[i].1);
        WithinTrans(a, b, c.fields[i].1);
      } else {
        var i :| 0 <= i < |c.items| && Within(b, c.items[i]);
        WithinTrans(a, b, c.items[i]);
      }
    }
  }

  // ---------------------------------------------------------------- tags

  /** `s.replace(/[^A-Za-z0-9_]/g, '_')`. */
  function WordOnly(s: string): (r: string)
    ensures |r| == |s|
    ensures forall i :: 0 <= i < |r| ==> IsWordChar(r[i])
    ensures forall i :: 0 <= i < |r| ==> (r[i] == s[i] <==> IsWordChar(s[i]))
  {
    seq(|s|, i requires 0 <= i < |s| => if IsWordChar(s[i]) then s[i] else '_')
  }

  /** A tag may start with a letter or `_` (`/^[A-Za-z_]/`). */
  predicate TagStart(c: char) { IsAsciiLetter(c) || c == '_' }

  /** A tag the add-in accepts as a content-control tag: word characters, not starting with a digit. */
  predicate WellFormedTag(t: string)
  {
    t != [] && TagStart(t[0]) && forall i :: 0 <= i < |t| ==> IsWordChar(t[i])
  }

  /** `Field_{n}`. */
  function FieldTag(n: nat): (r: string)
    ensures WellFormedTag(r)
  {
    "Field_" + NatToString(n)
  }

  /**
   * The tag `normalizeTag` starts from: the value cut to 64 characters with every other
   * character made `_`; `Field_{index+1}` when that is empty; `Field_` in front when it starts
   * with a digit.
   */
  function BaseTag(value: string, index: nat): (r: string)
    ensures WellFormedTag(r)
    ensures var w := WordOnly(SanitizeText(value, 64)); w != "" && TagStart(w[0]) ==> r == w
    ensures WordOnly(SanitizeText(value, 64)) == "" ==> r == FieldTag(index + 1)
    ensures var w := WordOnly(SanitizeText(value, 64)); w != "" && !TagStart(w[0]) ==> r == "Field_" + w
  {
    var w := WordOnly(SanitizeText(value, 64));
    var t := if w == "" then FieldTag(index + 1) else w;
    if TagStart(t[0]) then t else "Field_" + t
  }

  /** `${tag}_${counter}`. */
  function Suffixed(tag: string, counter: nat): (r: string)
    ensures WellFormedTag(tag) ==> WellFormedTag(r)
  {
    tag + "_" + NatToString(counter)
  }

  /** Two suffixes of one tag are the same string only for the same counter. */
  lemma SuffixedInjective(tag: string, a: nat, b: nat)
    requires Suffixed(tag, a) == Suffixed(tag, b)
    ensures a == b
  {
    assert NatToString(a) == Suffixed(tag, a)[|tag| + 1..];
    assert NatToString(b) == Suffixed(tag, b)[|tag| + 1..];
    NatToStringInjective(a, b);
  }

  /**
   * `tag` is what `normalizeTag` picks from `base` against the used tags: `base` itself when
   * it is free, else `base_c` for the smallest `c >= 2` that is free.
   */
  ghost predicate FirstFree(base: string, used: set<string>, tag: string)
  {
    (base !in used && tag == base)
    || (base in used && exists c :: c >= 2 && tag == Suffixed(base, c) && tag !in used && TakenBelow(base, used, c))
  }

  /** `base_2` .. `base_{c-1}` are all used. */
  ghost predicate TakenBelow(base: string, used: set<string>, c: nat)
  {
    forall k :: 2 <= k < c ==> Suffixed(base, k) in used
  }

  /** There is only one first free tag. */
  lemma FirstFreeUnique(base: string, used: set<string>, t1: string, t2: string)
    requires FirstFree(base, used, t1) && FirstFree(base, used, t2)
    ensures t1 == t2
  {
    if base in used {
      var c1 :| c1 >= 2 && t1 == Suffixed(base, c1) && t1 !in used && forall k :: 2 <= k < c1 ==> Suffixed(base, k) in used;
      var c2 :| c2 >= 2 && t2 == Suffixed(base, c2) && t2 !in used && forall k :: 2 <= k < c2 ==> Suffixed(base, k) in used;
    }
  }

  /** The candidate `normalizeTag` tests before its counter reaches `counter`. */
  function Candidate(base: string, counter: nat): string
  {
    if counter <= 2 then base else Suffixed(base, counter - 1)
  }

  /** Distinct counters (from 2 on) give distinct candidates. */
  lemma CandidateInjective(base: string, a: nat, b: nat)
    requires 2 <= a && 2 <= b && Candidate(base, a) == Candidate(base, b)
    ensures a == b
  {
    if a > 2 && b > 2 {
      SuffixedInjective(base, a - 1, b - 1);
    }
  }

  /** The set of tags handed out so far, shared by the calls of one response (`usedTags`). */
  class UsedTags {
    var tags: set<string>

    constructor()
      ensures tags == {}
    {
      tags := {};
    }

    /** `normalizeTag(value, index, usedTags)`: the first free tag from `BaseTag`, now used. */
    method Normalize(value: string, index: nat) returns (tag: string)
      modifies this
      ensures FirstFree(BaseTag(value, index), old(tags), tag)
      ensures WellFormedTag(tag) && tag !in old(tags)
      ensures tags == old(tags) + {tag}
    {
      var base := BaseTag(value, index);
      var unique := base;
      var counter := 2;
      ghost var tried: set<string> := {};
      while unique in tags
        invariant counter >= 2 && unique == Candidate(base, counter)
        invariant tried == set c | 2 <= c < counter :: Candidate(base, c)
        invariant tried <= tags
        invariant counter > 2 ==> base in tags
        invariant forall k :: 2 <= k < counter - 1 ==> Suffixed(base, k) in tags
        decreases tags - tried
      {
        assert unique !in tried by {
          if unique in tried {
            var c :| 2 <= c < counter && Candidate(base, c) == unique;
            CandidateInjective(base, c, counter);
          }
        }
        tried := tried + {unique};
        assert tried == set c | 2 <= c < counter + 1 :: Candidate(base, c);
        unique := Suffixed(base, counter);
        counter := counter + 1;
      }
      if counter > 2 {
        assert FirstFree(base, tags, unique) by {
          assert unique == Suffixed(base, counter - 1) && counter - 1 >= 2;
        }
      }
      tags := tags + {unique};
      tag := unique;
    }

    /** `normalizeTag("", index, usedTags)` when `Field_{index+1}` is still free: that tag. */
    method NormalizeEmpty(index: nat) returns (tag: string)
      modifies this
      requires FieldTag(index + 1) !in tags
      ensures tag == FieldTag(index + 1) && tags == old(tags) + {tag}
    {
      EmptyBaseTag(index);
      tag := Normalize("", index);
      FreeBaseTaken(FieldTag(index + 1), old(tags), tag);
    }

    /**
     * `normalizeVariable(raw, index, sourceText, usedTags)`: the draft with a fresh tag, or
     * `None` when the variable is dropped. The tag is taken even for a dropped variable.
     */
    method NormalizeVariable(raw: Value, index: nat, numText: real -> string) returns (r: Option<Variable>)
      modifies this
      ensures r.None? <==> !DraftOf(raw, index, numText).keep
      ensures r.Some? ==> r.value == DraftOf(raw, index, numText).variable.(tag := r.value.tag)
      ensures r.Some? ==> WellShaped(r.value) && r.value.tag !in old(tags) && r.value.tag in tags
      ensures r.Some? ==> FirstFree(BaseTag(TagSource(raw), index), old(tags), r.value.tag) && tags == old(tags) + {r.value.tag}
      ensures old(tags) < tags
    {
      r := TagDraft(DraftOf(raw, index, numText), TagSource(raw), index);
    }

    /**
     * The tagging half of `normalizeVariable`: `draft` with the first free tag from `tagSource`,
     * or `None` when the draft is dropped. The tag is taken either way.
     */
    method TagDraft(draft: Draft, tagSource: string, index: nat) returns (r: Option<Variable>)
      modifies this
      requires DraftShaped(draft.variable)
      ensures r.None? <==> !draft.keep
      ensures r.Some? ==> r.value == draft.variable.(tag := r.value.tag)
      ensures r.Some? ==> WellShaped(r.value) && r.value.tag !in old(tags) && r.value.tag in tags
      ensures r.Some? ==> FirstFree(BaseTag(tagSource, index), old(tags), r.value.tag) && tags == old(tags) + {r.value.tag}
      ensures old(tags) < tags
    {
      var tag := Normalize(tagSource, index);
      r := if draft.keep then Some(draft.variable.(tag := tag)) else None;
    }

    /**
     * The `map` and `filter` of `coerceOutputShape`: each entry of `list`, in order, drafted by
     * `draft` and tagged; the kept ones are returned.
     */
    method NormalizeAll(list: seq<Value>, draft: (Value, nat) -> Draft) returns (kept: seq<Variable>)
      modifies this
      requires forall x, i :: DraftShaped(draft(x, i).variable)
      ensures Retagged(kept, KeptBy(list, draft)) && AllWellShaped(kept) && DistinctTags(kept)
    {
      kept := [];
      var k := 0;
      while k < |list|
        invariant 0 <= k <= |list|
        invariant Retagged(kept, KeptBy(list[..k], draft)) && AllWellShaped(kept) && DistinctTags(kept)
        invariant TagsIn(kept, tags)
      {
        ghost var before := tags;
        var v := TagDraft(draft(list[k], k), TagSource(list[k]), k);
        NormalizeTurn(list, k, draft, kept, v, before, tags);
        if v.Some? {
          kept := kept + [v.value];
        }
        k := k + 1;
      }
      assert list[..k] == list;
    }
  }

  /** `firstNonEmpty(source.tag, source.tag_hint, source.name)`: where a variable's tag comes from. */
  function TagSource(source: Value): string
  {
    Pick(source, ["tag", "tag_hint", "name"])
  }

  // ---------------------------------------------------------------- one variable

  /**
   * A variable as the bridge returns it. `name` is the `label` property; `options` is `[]` when
   * the property is absent.
   */
  datatype Variable = Variable(
    context: string, prefix: string, placeholder: string, suffix: string, name: string,
    tag: string, kind: string, formatFn: string, mode: string, options: seq<string>)

  predicate IsChoice(kind: string) { kind == "select" || kind == "radio" }

  /** What a variable satisfies before its tag is given. */
  predicate DraftShaped(v: Variable)
  {
    v.context != "" && v.placeholder != ""
    && v.kind in AiParser.VALID_TYPES && v.formatFn in AiParser.VALID_FORMAT_FNS && v.mode in AiParser.VALID_MODES
    && (IsChoice(v.kind) <==> v.options != [])
  }

  /**
   * What every variable the bridge returns satisfies: the required texts are filled, the tag is
   * well formed, the type, formatter and mode are known, and options are present exactly for a
   * choice type.
   */
  predicate WellShaped(v: Variable)
  {
    v.context != "" && v.placeholder != "" && WellFormedTag(v.tag)
    && v.kind in AiParser.VALID_TYPES && v.formatFn in AiParser.VALID_FORMAT_FNS && v.mode in AiParser.VALID_MODES
    && (IsChoice(v.kind) <==> v.options != [])
  }

  /** The properties every variable object carries, in the order the bridge writes them. */
  const FIELD_KEYS: seq<string> := ["context", "prefix", "placeholder", "suffix", "label", "tag", "type", "formatFn", "mode"]

  function FieldValues(v: Variable): (r: seq<Value>)
    ensures |r| == |FIELD_KEYS|
  {
    [Str(v.context), Str(v.prefix), Str(v.placeholder), Str(v.suffix), Str(v.name), Str(v.tag),
     Str(v.kind), Str(v.formatFn), Str(v.mode)]
  }

  function BaseFields(v: Variable): seq<(string, Value)>
  {
    seq(|FIELD_KEYS|, i requires 0 <= i < |FIELD_KEYS| => (FIELD_KEYS[i], FieldValues(v)[i]))
  }

  /** The JSON object the bridge sends back for a variable; `options` comes last when present. */
  function ToValue(v: Variable): Value
  {
    if v.options == [] then Obj(BaseFields(v))
    else Obj(BaseFields(v) + [("options", Arr(seq(|v.options|, i requires 0 <= i < |v.options| => Str(v.options[i]))))])
  }

  /**
   * A well-shaped variable passes the add-in's own `validateVariable` exactly when its label is
   * not empty: the bridge's normalisers produce what the plugin schema demands.
   */
  lemma WellShapedPassesPlugin(v: Variable)
    requires WellShaped(v)
    ensures AiParser.ValidVariable(ToValue(v)) <==> v.name != ""
  {
    ToValueReads(v);
    ReadsPassPlugin(v, ToValue(v));
  }

  /** Property reads of `x` that carry the variable `v`. */
  predicate Carries(x: Value, v: Variable)
  {
    x.Obj?
    && (forall i :: 0 <= i < |FIELD_KEYS| ==> Get(x, FIELD_KEYS[i]) == Some(FieldValues(v)[i]))
    && (v.options == [] <==> Get(x, "options").None?)
    && (v.options != [] ==> Get(x, "options").value.Arr? && |Get(x, "options").value.items| == |v.options|)
  }

  /** Any object carrying a well-shaped variable passes `validateVariable` iff the label is filled. */
  lemma ReadsPassPlugin(v: Variable, x: Value)
    requires WellShaped(v) && Carries(x, v)
    ensures AiParser.ValidVariable(x) <==> v.name != ""
  {
    var get := AiParser.PropsOf(x);
    FilledTexts(v, x);
    FilledChoices(v, x);
    FilledLabel(v, x);
    OtherReads(v, x);
    RequiredFilled(get);
  }

  lemma FilledLabel(v: Variable, x: Value)
    requires Carries(x, v)
    ensures AiParser.Filled(AiParser.PropsOf(x), "label") <==> v.name != ""
  {
    assert AiParser.PropsOf(x)(FIELD_KEYS[4]) == Some(Str(v.name));
  }

  lemma FilledTexts(v: Variable, x: Value)
    requires WellShaped(v) && Carries(x, v)
    ensures var get := AiParser.PropsOf(x);
      AiParser.Filled(get, "context") && AiParser.Filled(get, "placeholder") && AiParser.Filled(get, "tag")
  {
    var get := AiParser.PropsOf(x);
    assert get(FIELD_KEYS[0]) == Some(Str(v.context)) && get(FIELD_KEYS[2]) == Some(Str(v.placeholder));
    assert get(FIELD_KEYS[5]) == Some(Str(v.tag));
  }

  lemma FilledChoices(v: Variable, x: Value)
    requires WellShaped(v) && Carries(x, v)
    ensures var get := AiParser.PropsOf(x);
      AiParser.Filled(get, "type") && AiParser.Filled(get, "formatFn") && AiParser.Filled(get, "mode")
  {
    var get := AiParser.PropsOf(x);
    assert get(FIELD_KEYS[6]) == Some(Str(v.kind)) && get(FIELD_KEYS[7]) == Some(Str(v.formatFn));
    assert get(FIELD_KEYS[8]) == Some(Str(v.mode));
  }

  /**
   * With the other six required fields filled and the rest of the checks passed, a variable is
   * valid exactly when its label is filled.
   */
  lemma RequiredFilled(get: AiParser.Props)
    requires AiParser.Filled(get, "type") && AiParser.Filled(get, "formatFn") && AiParser.Filled(get, "mode")
    requires AiParser.Filled(get, "context") && AiParser.Filled(get, "placeholder") && AiParser.Filled(get, "tag")
    requires get("prefix").Some? && get("suffix").Some? && !AiParser.Outside(get("type"), AiParser.VALID_TYPES)
    requires !AiParser.Outside(get("mode"), AiParser.VALID_MODES) && !AiParser.NeedsOptions(get)
    ensures AiParser.CheckProps(get, AiParser.REQUIRED_FIELDS).Valid() <==> AiParser.Filled(get, "label")
  {
    assert AiParser.Filled(get, "label") <==> forall f :: f in AiParser.REQUIRED_FIELDS ==> AiParser.Filled(get, f);
  }

  /** Prefix and suffix are present, the type and mode are known and a choice type has options. */
  lemma OtherReads(v: Variable, x: Value)
    requires WellShaped(v) && Carries(x, v)
    ensures var get := AiParser.PropsOf(x);
      get("prefix").Some? && get("suffix").Some? && !AiParser.Outside(get("type"), AiParser.VALID_TYPES)
      && !AiParser.Outside(get("mode"), AiParser.VALID_MODES) && !AiParser.NeedsOptions(get)
  {
    var get := AiParser.PropsOf(x);
    assert get(FIELD_KEYS[6]) == Some(Str(v.kind)) && get(FIELD_KEYS[8]) == Some(Str(v.mode));
    assert get(FIELD_KEYS[1]).Some? && get(FIELD_KEYS[3]).Some?;
  }

  /** The property reads of the object `ToValue` builds. */
  lemma ToValueReads(v: Variable)
    ensures Carries(ToValue(v), v)
  {
    var fields := BaseFields(v);
    BaseReads(v);
    NoOptionsRead(v);
    if v.options != [] {
      AppendLookup(fields, "options", ToValue(v).fields[9].1);
      assert ToValue(v).fields == fields + [("options", ToValue(v).fields[9].1)];
    }
  }

  lemma BaseReads(v: Variable)
    ensures forall i :: 0 <= i < |FIELD_KEYS| ==> Lookup(BaseFields(v), FIELD_KEYS[i]) == Some(FieldValues(v)[i])
  {
    var fields := BaseFields(v);
    assert Distinct(FIELD_KEYS);
    forall i | 0 <= i < |FIELD_KEYS|
      ensures Lookup(fields, FIELD_KEYS[i]) == Some(FieldValues(v)[i])
    {
      LookupFirst(fields, FIELD_KEYS[i], i);
    }
  }

  lemma NoOptionsRead(v: Variable)
    ensures Lookup(BaseFields(v), "options").None?
  {
    var fields := BaseFields(v);
    assert Distinct(FIELD_KEYS + ["options"]);
    assert forall i :: 0 <= i < |fields| ==> fields[i].0 != (FIELD_KEYS + ["options"])[9];
  }

  /** `a || b` on property reads: `a` when it is truthy, else `b`. */
  function Or(a: Option<Value>, b: Option<Value>): (r: Option<Value>)
    ensures r == a || r == b
    ensures TruthyOpt(a) ==> r == a
  {
    if TruthyOpt(a) then a else b
  }

  /** `firstNonEmpty(source[k1], source[k2], …)`. */
  function Pick(source: Value, keys: seq<string>): string
  {
    FirstNonEmpty(seq(|keys|, i requires 0 <= i < |keys| => Get(source, keys[i])))
  }

  /** `select` or `radio` without options becomes `text`. */
  function Downgrade(kind: string, options: seq<string>): (r: string)
    ensures IsChoice(r) <==> IsChoice(kind) && options != []
    ensures kind in AiParser.VALID_TYPES ==> r in AiParser.VALID_TYPES
  {
    if IsChoice(kind) && options == [] then "text" else kind
  }

  /** The texts of a raw variable, sanitised: context, prefix, suffix and the given placeholder. */
  datatype Texts = Texts(context: string, prefix: string, suffix: string, placeholder: string)

  function TextsOf(source: Value): (r: Texts)
    ensures |r.context| <= 600 && |r.prefix| <= 220 && |r.suffix| <= 220 && |r.placeholder| <= 600
  {
    Texts(SanitizeText(Pick(source, ["context", "anchor", "sentence", "text"]), 600),
          SanitizeText(Pick(source, ["prefix", "left", "head"]), 220),
          SanitizeText(Pick(source, ["suffix", "right", "tail"]), 220),
          SanitizeText(Pick(source, ["placeholder", "value", "blank", "variable"]), 600))
  }

  /** The context shown when the raw one is empty: prefix, placeholder and suffix, else a default. */
  function ShownContext(t: Texts, placeholder: string): (r: string)
    ensures r != ""
    ensures t.context != "" ==> r == t.context
  {
    if t.context != "" then t.context
    else
      var joined := SanitizeText(t.prefix + placeholder + t.suffix, 600);
      if joined != "" then joined else "未命名上下文"
  }

  /** The placeholder: the given one, else the marker found in the text, else `____`. */
  function PlaceholderOf(t: Texts): (r: string)
    ensures r != ""
    ensures t.placeholder != "" ==> r == t.placeholder
  {
    var fromText := DetectPlaceholderMarker(t.context + " " + t.prefix + " " + t.suffix);
    if t.placeholder != "" then t.placeholder
    else if fromText.marker != "" then fromText.marker
    else "____"
  }

  /** A normalised variable before its tag is chosen, and whether `normalizeVariable` keeps it. */
  datatype Draft = Draft(variable: Variable, keep: bool)

  /**
   * `normalizeVariable` apart from the tag. A value that is not an object reads as `{}`.
   * `numText` renders numbers found among the options.
   */
  function DraftOf(source: Value, index: nat, numText: real -> string): (r: Draft)
    ensures r.variable.tag == ""
    ensures r.variable.context != "" && r.variable.placeholder != ""
    ensures r.variable.kind in AiParser.VALID_TYPES && r.variable.formatFn in AiParser.VALID_FORMAT_FNS
    ensures r.variable.mode in AiParser.VALID_MODES
    ensures IsChoice(r.variable.kind) <==> r.variable.options != []
  {
    var t := TextsOf(source);
    var name := InferLabel(Or(Get(source, "label"), Or(Get(source, "name"), Get(source, "field"))), t.prefix, t.context, index);
    var placeholder := PlaceholderOf(t);
    var mode := NormalizeMode(Pick(source, ["mode", "mode_hint"]));
    var options := NormalizeOptions(Get(source, "options"), numText);
    var kind := Downgrade(NormalizeType(Pick(source, ["type", "type_hint"]), name + " " + t.context + " " + t.prefix), options);
    var formatFn := NormalizeFormatFn(Pick(source, ["formatFn", "format_hint"]), name + " " + t.context + " " + placeholder);
    var context := ShownContext(t, placeholder);
    var explicit := DetectPlaceholderMarker(t.context + " " + t.prefix + " " + t.suffix).explicit || ExplicitMarker(t.placeholder).Some?;
    Draft(Variable(context, t.prefix, placeholder, t.suffix, name, "", kind, formatFn, mode, if IsChoice(kind) then options else []),
          ShouldKeep(explicit, name, context, placeholder, mode))
  }

  /** A `select` or `radio` variable keeps the normalised options; other types have none. */
  lemma DraftOptions(source: Value, index: nat, numText: real -> string)
    ensures var v := DraftOf(source, index, numText).variable;
      IsChoice(v.kind) ==> v.options == NormalizeOptions(Get(source, "options"), numText)
  {
  }

  /** A paragraph variable, and one whose given placeholder is an explicit marker, is kept. */
  lemma DraftKept(source: Value, index: nat, numText: real -> string)
    ensures Trim(Pick(source, ["mode", "mode_hint"])) == "paragraph" ==> DraftOf(source, index, numText).keep
    ensures ExplicitMarker(TextsOf(source).placeholder).Some? ==> DraftOf(source, index, numText).keep
  {
  }

  /** A variable with no marker, no dynamic hint and an insert mode is dropped. */
  lemma DraftDropped(source: Value, index: nat, numText: real -> string)
    requires DraftOf(source, index, numText).variable.mode != "paragraph"
    requires ExplicitMarker(TextsOf(source).placeholder).None?
    requires var t := TextsOf(source); !DetectPlaceholderMarker(t.context + " " + t.prefix + " " + t.suffix).explicit
    requires var v := DraftOf(source, index, numText).variable; !Any(v.name + " " + v.context, DYNAMIC_HINTS)
    ensures !DraftOf(source, index, numText).keep
  {
  }

  // ---------------------------------------------------------------- the line-based fallback

  /** `s.replace(/\r\n/g, '\n').replace(/\r/g, '\n')`. */
  function UnifyNewlines(s: string): (r: string)
    ensures '\r' !in r
    decreases |s|
  {
    if s == [] then []
    else if s[0] == '\r' then "\n" + UnifyNewlines(if |s| > 1 && s[1] == '\n' then s[2..] else s[1..])
    else [s[0]] + UnifyNewlines(s[1..])
  }

  /** The lines of the source text, trimmed, without the empty ones. */
  function Lines(text: string): (r: seq<string>)
    ensures forall t :: t in r ==> t != ""
  {
    NonEmpty(Map(Split(UnifyNewlines(text), '\n'), Trim))
  }

  predicate HasColon(s: string) { ':' in s || '：' in s }

  /** `prefix` and `suffix` around the first occurrence of `marker`, or the whole line as prefix. */
  function SplitAt(line: string, marker: string): (r: (string, string))
    ensures IndexOf(line, marker).Some? ==> r.0 + marker + r.1 == line
    ensures IndexOf(line, marker).None? ==> r == (line, "")
  {
    match IndexOf(line, marker)
    case Some(idx) => (line[..idx], line[idx + |marker|..])
    case None => (line, "")
  }

  /**
   * A line the fallback turns into a variable: one with an explicit marker always; otherwise
   * one with a dynamic hint, at most 60 characters and a colon.
   */
  predicate Qualifies(line: string)
  {
    DetectPlaceholderMarker(line).explicit || (Any(line, DYNAMIC_HINTS) && |line| <= 60 && HasColon(line))
  }

  /**
   * What every variable of the fallback satisfies as the `n`-th: the tag `Field_{n+1}`, insert
   * mode, no options, a placeholder and a type and formatter guessed from its text.
   */
  predicate FallbackShaped(v: Variable, n: nat)
  {
    v.tag == FieldTag(n + 1) && v.mode == "insert" && v.options == [] && v.placeholder != ""
    && v.kind in AiParser.VALID_TYPES && !IsChoice(v.kind) && v.formatFn in AiParser.VALID_FORMAT_FNS
  }

  /** The variable the fallback makes of a qualifying line, as the `n`-th. */
  function LineVariable(line: string, n: nat): (r: Variable)
    ensures FallbackShaped(r, n)
  {
    var m := DetectPlaceholderMarker(line);
    var marker := if m.marker != "" then m.marker else "____";
    var parts := SplitAt(line, marker);
    var name := InferLabel(Some(Str("")), parts.0, line, n);
    Variable(SanitizeText(line, 600), SanitizeText(parts.0, 220), marker, SanitizeText(parts.1, 220), name,
             FieldTag(n + 1), GuessedKind(name + " " + line), GuessedFormat(name + " " + line), "insert", [])
  }

  /** `normalizeType('', hint)`: the type guessed from the hint alone. */
  function GuessedKind(hint: string): (r: string)
    ensures r in AiParser.VALID_TYPES && !IsChoice(r)
  {
    assert "" !in AiParser.VALID_TYPES;
    NormalizeType("", hint)
  }

  /** `normalizeFormatFn('', hint)`: the formatter guessed from the hint alone. */
  function GuessedFormat(hint: string): (r: string)
    ensures r in AiParser.VALID_FORMAT_FNS
    ensures r == "dateUnderline" <==> Any(hint, DATE_HINTS)
  {
    assert "" !in AiParser.VALID_FORMAT_FNS;
    NormalizeFormatFn("", hint)
  }

  /**
   * `make(line, n)` for each line `keep` accepts, in order, `n` counting the values already
   * made, until there are `cap` of them.
   */
  function Collect<V>(lines: seq<string>, keep: string -> bool, make: (string, nat) -> V, cap: nat): (r: seq<V>)
    ensures |r| <= cap
    decreases |lines|
  {
    if lines == [] then []
    else
      var done := Collect(lines[..|lines| - 1], keep, make, cap);
      if |done| >= cap then done
      else if keep(lines[|lines| - 1]) then done + [make(lines[|lines| - 1], |done|)]
      else done
  }

  /** A property every `make(line, n)` has as the `n`-th value holds of every collected value. */
  lemma {:induction false} CollectShaped<V>(lines: seq<string>, keep: string -> bool, make: (string, nat) -> V, cap: nat,
                                            shaped: (V, nat) -> bool)
    requires forall line, n :: shaped(make(line, n), n)
    ensures forall i :: 0 <= i < |Collect(lines, keep, make, cap)| ==> shaped(Collect(lines, keep, make, cap)[i], i)
    decreases |lines|
  {
    if lines != [] {
      var done := Collect(lines[..|lines| - 1], keep, make, cap);
      CollectShaped(lines[..|lines| - 1], keep, make, cap, shaped);
      var r := Collect(lines, keep, make, cap);
      assert forall i :: 0 <= i < |done| ==> r[i] == done[i];
    }
  }

  /**
   * `fallbackExtractVariablesFromText` on the lines: each qualifying line in turn, numbered by
   * the variables already made, until there are 80.
   */
  function FallbackOf(lines: seq<string>): (r: seq<Variable>)
    ensures |r| <= 80
    ensures forall i :: 0 <= i < |r| ==> FallbackShaped(r[i], i)
  {
    CollectShaped(lines, Qualifies, LineVariable, 80, FallbackShaped);
    Collect(lines, Qualifies, LineVariable, 80)
  }

  /** One more line: the value it makes, if it is accepted and the cap is not reached. */
  lemma CollectStep<V>(lines: seq<string>, k: nat, keep: string -> bool, make: (string, nat) -> V, cap: nat)
    requires k < |lines|
    ensures var done := Collect(lines[..k], keep, make, cap);
      Collect(lines[..k + 1], keep, make, cap)
      == if |done| >= cap || !keep(lines[k]) then done else done + [make(lines[k], |done|)]
  {
    TakeTake(lines, k);
  }

  /** Once `cap` values are made, further lines change nothing. */
  lemma {:induction false} CollectSaturated<V>(lines: seq<string>, k: nat, keep: string -> bool, make: (string, nat) -> V, cap: nat)
    requires k <= |lines| && |Collect(lines[..k], keep, make, cap)| >= cap
    ensures Collect(lines, keep, make, cap) == Collect(lines[..k], keep, make, cap)
    decreases |lines| - k
  {
    if k < |lines| {
      CollectStep(lines, k, keep, make, cap);
      CollectSaturated(lines, k + 1, keep, make, cap);
    } else {
      assert lines[..k] == lines;
    }
  }

  /** The fallback's tags are all different. */
  lemma FallbackTagsDistinct(lines: seq<string>)
    ensures var r := FallbackOf(lines); forall i, j :: 0 <= i < j < |r| ==> r[i].tag != r[j].tag
  {
    var r := FallbackOf(lines);
    forall i, j | 0 <= i < j < |r| ensures r[i].tag != r[j].tag {
      if r[i].tag == r[j].tag {
        FieldTagInjective(i + 1, j + 1);
      }
    }
  }

  lemma FieldTagInjective(a: nat, b: nat)
    requires FieldTag(a) == FieldTag(b)
    ensures a == b
  {
    assert NatToString(a) == FieldTag(a)[6..];
    assert NatToString(b) == FieldTag(b)[6..];
    NatToStringInjective(a, b);
  }

  /** The fallback tags `Field_1` .. `Field_n`. */
  function FieldTags(n: nat): (r: set<string>)
    ensures forall i :: 1 <= i <= n ==> FieldTag(i) in r
  {
    if n == 0 then {} else FieldTags(n - 1) + {FieldTag(n)}
  }

  /** With the first `n` fallback tags used, an empty value takes the next one. */
  method TakeFieldTag(used: UsedTags, n: nat) returns (tag: string)
    modifies used
    requires used.tags == FieldTags(n)
    ensures tag == FieldTag(n + 1) && used.tags == FieldTags(n + 1)
  {
    FieldTagsFresh(n, n + 1);
    tag := used.NormalizeEmpty(n);
    FieldTagsNext(n);
  }

  lemma FieldTagsNext(n: nat)
    ensures FieldTags(n + 1) == FieldTags(n) + {FieldTag(n + 1)}
  {
  }

  /** A later fallback tag is not among the earlier ones. */
  lemma {:induction false} FieldTagsFresh(n: nat, m: nat)
    requires n < m
    ensures FieldTag(m) !in FieldTags(n)
  {
    if n > 0 {
      FieldTagsFresh(n - 1, m);
      if FieldTag(n) == FieldTag(m) {
        FieldTagInjective(n, m);
      }
    }
  }

  /** An empty tag value gives `Field_{index+1}`. */
  lemma EmptyBaseTag(index: nat)
    ensures BaseTag("", index) == FieldTag(index + 1)
  {
    assert SanitizeText("", 64) == "";
  }

  /** A free base tag is taken as it is. */
  lemma FreeBaseTaken(base: string, used: set<string>, tag: string)
    requires base !in used && FirstFree(base, used, tag)
    ensures tag == base
  {
  }

  /** `fallbackExtractVariablesFromText(text)`. */
  method FallbackExtract(text: string) returns (r: seq<Variable>)
    ensures r == FallbackOf(Lines(text))
  {
    r := FallbackFromLines(Lines(text));
  }

  /** The loop of `fallbackExtractVariablesFromText` over the trimmed non-empty lines. */
  method FallbackFromLines(lines: seq<string>) returns (r: seq<Variable>)
    ensures r == FallbackOf(lines)
  {
    r := CollectTagged(lines, Qualifies, LineVariable);
  }

  /**
   * The fallback loop for any line test `keep` and any `make` that tags the `n`-th variable
   * `Field_{n+1}`: each accepted line takes the next free fallback tag, up to 80 variables.
   */
  method CollectTagged(lines: seq<string>, keep: string -> bool, make: (string, nat) -> Variable)
    returns (r: seq<Variable>)
    requires forall line: string, n: nat :: make(line, n).tag == FieldTag(n + 1)
    ensures r == Collect(lines, keep, make, 80)
  {
    var used := new UsedTags();
    r := [];
    var k := 0;
    while k < |lines|
      invariant 0 <= k <= |lines|
      invariant r == Collect(lines[..k], keep, make, 80)
      invariant used.tags == FieldTags(|r|)
    {
      if |r| >= 80 {
        CollectSaturated(lines, k, keep, make, 80);
        break;
      }
      CollectStep(lines, k, keep, make, 80);
      var line := lines[k];
      if keep(line) {
        var n := |r|;
        var tag := TakeFieldTag(used, n);
        var v := make(line, n);
        assert v.tag == tag;
        r := r + [v];
      }
      k := k + 1;
    }
    if k == |lines| {
      assert lines[..k] == lines;
    }
  }

  // ---------------------------------------------------------------------------
  // Coercing the model's answer
  // ---------------------------------------------------------------------------

  /** The variables `coerceOutputShape` keeps from `list`, in order, before tags are given. */
  function Kept(list: seq<Value>, numText: real -> string): (r: seq<Variable>)
  {
    KeptBy(list, Drafter(numText))
  }

  lemma DrafterShaped(numText: real -> string)
    ensures forall x, i :: DraftShaped(Drafter(numText)(x, i).variable)
  {
  }

  /** `DraftOf` as a function of the entry and its index. */
  function Drafter(numText: real -> string): (Value, nat) -> Draft
  {
    (x: Value, i: nat) => DraftOf(x, i, numText)
  }

  /** The variables of the kept drafts that `draft` makes of `list`'s entries, in order. */
  function KeptBy(list: seq<Value>, draft: (Value, nat) -> Draft): (r: seq<Variable>)
    ensures |r| <= |list|
  {
    if list == [] then []
    else
      var d := draft(list[|list| - 1], |list| - 1);
      KeptBy(list[..|list| - 1], draft) + (if d.keep then [d.variable] else [])
  }

  lemma KeptStep(list: seq<Value>, k: nat, draft: (Value, nat) -> Draft)
    requires k < |list|
    ensures KeptBy(list[..k + 1], draft)
            == KeptBy(list[..k], draft) + (if draft(list[k], k).keep then [draft(list[k], k).variable] else [])
  {
    TakeTake(list, k);
  }

  /** Nothing is kept exactly when every entry's draft is dropped. */
  lemma {:induction false} KeptEmpty(list: seq<Value>, draft: (Value, nat) -> Draft)
    ensures KeptBy(list, draft) == [] <==> forall i :: 0 <= i < |list| ==> !draft(list[i], i).keep
  {
    if list != [] {
      var n := |list| - 1;
      KeptEmpty(list[..n], draft);
      assert forall i :: 0 <= i < n ==> list[..n][i] == list[i];
    }
  }

  /** `vs` is `spec` with the tags filled in. */
  predicate Retagged(vs: seq<Variable>, spec: seq<Variable>)
  {
    |vs| == |spec| && forall i :: 0 <= i < |vs| ==> vs[i] == spec[i].(tag := vs[i].tag)
  }

  predicate AllWellShaped(vs: seq<Variable>)
  {
    forall i :: 0 <= i < |vs| ==> WellShaped(vs[i])
  }

  predicate DistinctTags(vs: seq<Variable>)
  {
    forall i, j :: 0 <= i < j < |vs| ==> vs[i].tag != vs[j].tag
  }

  /** Every tag of `vs` is in `used`. */
  predicate TagsIn(vs: seq<Variable>, used: set<string>)
  {
    forall i :: 0 <= i < |vs| ==> vs[i].tag in used
  }

  lemma TagsInGrows(vs: seq<Variable>, used: set<string>, now: set<string>)
    requires TagsIn(vs, used) && used <= now
    ensures TagsIn(vs, now)
  {
  }

  /** One turn of the normalising loop: the entry's draft, tagged or dropped, extends the kept list. */
  lemma NormalizeTurn(list: seq<Value>, k: nat, draft: (Value, nat) -> Draft, kept: seq<Variable>,
                      v: Option<Variable>, used: set<string>, now: set<string>)
    requires k < |list|
    requires Retagged(kept, KeptBy(list[..k], draft)) && AllWellShaped(kept) && DistinctTags(kept) && TagsIn(kept, used)
    requires v.None? <==> !draft(list[k], k).keep
    requires v.Some? ==> v.value == draft(list[k], k).variable.(tag := v.value.tag) && WellShaped(v.value)
                         && v.value.tag !in used && v.value.tag in now
    requires used <= now
    ensures var next := if v.Some? then kept + [v.value] else kept;
            Retagged(next, KeptBy(list[..k + 1], draft)) && AllWellShaped(next) && DistinctTags(next) && TagsIn(next, now)
  {
    KeptStep(list, k, draft);
    var spec := KeptBy(list[..k], draft);
    if v.Some? {
      KeepOne(kept, spec, v.value, draft(list[k], k).variable, used, now);
    } else {
      TagsInGrows(kept, used, now);
    }
  }

  /** Keeping `v`, with a tag fresh before it was taken, keeps the tags distinct. */
  lemma KeepOne(vs: seq<Variable>, spec: seq<Variable>, v: Variable, w: Variable, used: set<string>, now: set<string>)
    requires Retagged(vs, spec) && AllWellShaped(vs) && DistinctTags(vs) && TagsIn(vs, used)
    requires v == w.(tag := v.tag) && WellShaped(v) && v.tag !in used && used <= now && v.tag in now
    ensures Retagged(vs + [v], spec + [w]) && AllWellShaped(vs + [v]) && DistinctTags(vs + [v])
    ensures TagsIn(vs + [v], now)
  {
    var ws := vs + [v];
    assert forall i :: 0 <= i < |vs| ==> ws[i] == vs[i];
  }

  /**
   * `coerceOutputShape(rawParsed, sourceText)`: the kept variables of the model's list, each
   * with a fresh tag taken in list order (dropped entries take theirs too); when none is kept,
   * the variables read off the source text's lines.
   */
  method CoerceOutputShape(rawParsed: Value, sourceText: string, numText: real -> string) returns (r: seq<Variable>)
    ensures Kept(NormalizeList(rawParsed), numText) != [] ==>
              Retagged(r, Kept(NormalizeList(rawParsed), numText)) && AllWellShaped(r)
    ensures Kept(NormalizeList(rawParsed), numText) == [] ==> r == FallbackOf(Lines(sourceText))
    ensures DistinctTags(r)
  {
    var used := new UsedTags();
    DrafterShaped(numText);
    var kept := used.NormalizeAll(NormalizeList(rawParsed), Drafter(numText));
    if kept != [] {
      r := kept;
    } else {
      r := FallbackExtract(sourceText);
      FallbackTagsDistinct(Lines(sourceText));
    }
  }

  // ---------------------------------------------------------------------------
  // Reading a JSON value out of the model's reply
  // ---------------------------------------------------------------------------

  const FENCE := "```"
  const PARSE_FAILURE := "Unable to parse JSON from Kimi response"

  /** A case-insensitive `json` at `k`. */
  predicate JsonTagAt(text: string, k: nat)
  {
    k + 4 <= |text| && LowerChar(text[k]) == 'j' && LowerChar(text[k + 1]) == 's'
    && LowerChar(text[k + 2]) == 'o' && LowerChar(text[k + 3]) == 'n'
  }

  /** Where the body of a fence opened at `p` starts: past the fence, the optional `json` and `\s*`. */
  function BodyStart(text: string, p: nat): (r: nat)
    requires p + 3 <= |text|
    ensures p + 3 <= r <= |text|
    ensures forall k :: p + 3 <= k < r ==> text[k] != '`'
  {
    var k := if JsonTagAt(text, p + 3) then p + 7 else p + 3;
    k + SpaceRun(text, k)
  }

  /** An occurrence inside a slice is an occurrence in the whole text. */
  lemma OccursInSlice(s: string, t: string, b: nat, e: nat, k: nat)
    requires b <= e <= |s| && OccursAt(s[b..e], t, k)
    ensures OccursAt(s, t, b + k)
  {
    var inner, outer := s[b..e][k..k + |t|], s[b + k..b + k + |t|];
    assert forall i :: 0 <= i < |t| ==> inner[i] == outer[i];
  }

  /** No fence occurs in `s`. */
  predicate FenceFree(s: string)
  {
    forall k :: 0 <= k < |s| ==> !OccursAt(s, FENCE, k)
  }

  /**
   * Group 1 of the leftmost match of ```` /```(?:json)?\s*([\s\S]*?)```/i ```` at or after `p`:
   * the text between the first fence that has a later one and that later fence.
   */
  function FenceFrom(text: string, p: nat): (r: Option<string>)
    decreases |text| - p
    ensures r.Some? ==> FenceFree(r.value)
  {
    if p + 3 > |text| then None
    else if OccursAt(text, FENCE, p) && IndexOfFrom(text, FENCE, BodyStart(text, p)).Some? then
      var b := BodyStart(text, p);
      var e := IndexOfFrom(text, FENCE, b).value;
      assert FenceFree(text[b..e]) by {
        forall k: nat | k < e - b && OccursAt(text[b..e], FENCE, k) ensures false {
          OccursInSlice(text, FENCE, b, e, k);
        }
      }
      Some(text[b..e])
    else FenceFrom(text, p + 1)
  }

  /** A fenced body is found only where there are two fences that do not overlap. */
  lemma {:induction false} FenceHasTwo(text: string, from: nat)
    requires FenceFrom(text, from).Some?
    ensures exists p, q :: from <= p && p + 3 <= q && OccursAt(text, FENCE, p) && OccursAt(text, FENCE, q)
    decreases |text| - from
  {
    if OccursAt(text, FENCE, from) && IndexOfFrom(text, FENCE, BodyStart(text, from)).Some? {
      var q := IndexOfFrom(text, FENCE, BodyStart(text, from)).value;
      assert from + 3 <= q && OccursAt(text, FENCE, from) && OccursAt(text, FENCE, q);
    } else {
      FenceHasTwo(text, from + 1);
    }
  }

  /** Two fences that do not overlap always give a fenced body. */
  lemma {:induction false} FenceOfTwo(text: string, from: nat, p: nat, q: nat)
    requires from <= p && p + 3 <= q && OccursAt(text, FENCE, p) && OccursAt(text, FENCE, q)
    ensures FenceFrom(text, from).Some?
    decreases p - from
  {
    if from < p {
      if !(OccursAt(text, FENCE, from) && IndexOfFrom(text, FENCE, BodyStart(text, from)).Some?) {
        FenceOfTwo(text, from + 1, p, q);
      }
    } else {
      assert text[q] == text[q..q + 3][0];
    }
  }

  /** A fenced body is found exactly when the text holds two fences that do not overlap. */
  lemma FenceFound(text: string)
    ensures FenceFrom(text, 0).Some?
            <==> exists p, q :: p + 3 <= q && OccursAt(text, FENCE, p) && OccursAt(text, FENCE, q)
  {
    if FenceFrom(text, 0).Some? {
      FenceHasTwo(text, 0);
    } else if exists p, q :: p + 3 <= q && OccursAt(text, FENCE, p) && OccursAt(text, FENCE, q) {
      var p: nat, q: nat :| p + 3 <= q && OccursAt(text, FENCE, p) && OccursAt(text, FENCE, q);
      FenceOfTwo(text, 0, p, q);
    }
  }

  /** The brace scan's state: nesting depth, inside a string literal, after a backslash there. */
  datatype ScanState = ScanState(depth: int, inString: bool, escaped: bool)

  const SCAN_START := ScanState(0, false, false)

  /** One character of the brace scan: the next state, and whether the object closes here. */
  function ScanStep(st: ScanState, c: char): (ScanState, bool)
  {
    if st.inString then
      (if st.escaped then st.(escaped := false)
       else if c == '\\' then st.(escaped := true)
       else if c == '"' then st.(inString := false)
       else st, false)
    else if c == '"' then (st.(inString := true), false)
    else
      var d := if c == '{' then st.depth + 1 else if c == '}' then st.depth - 1 else st.depth;
      (st.(depth := d), d == 0)
  }

  /** The index at which the scan, in state `st` at `i`, reaches depth 0 outside a string. */
  function CloseFrom(text: string, i: nat, st: ScanState): (r: Option<nat>)
    decreases |text| - i
    ensures r.Some? ==> i <= r.value < |text|
  {
    if i >= |text| then None
    else
      var next := ScanStep(st, text[i]);
      if next.1 then Some(i) else CloseFrom(text, i + 1, next.0)
  }

  /** From a positive depth, the scan can only close on a `}`. */
  lemma {:induction false} ClosesOnBrace(text: string, i: nat, st: ScanState)
    requires st.depth >= 1
    ensures CloseFrom(text, i, st).Some? ==> text[CloseFrom(text, i, st).value] == '}'
    decreases |text| - i
  {
    if i < |text| && !ScanStep(st, text[i]).1 {
      ClosesOnBrace(text, i + 1, ScanStep(st, text[i]).0);
    }
  }

  /** A candidate opened at a `{` ends, later, on a `}`. */
  lemma CandidateShape(text: string, start: nat)
    requires start < |text| && text[start] == '{'
    ensures CloseFrom(text, start, SCAN_START).Some? ==>
              start < CloseFrom(text, start, SCAN_START).value && text[CloseFrom(text, start, SCAN_START).value] == '}'
  {
    ClosesOnBrace(text, start + 1, ScanState(1, false, false));
  }

  /**
   * The brace scan from `start`: the first `{` at or after it whose balanced candidate parses;
   * a candidate that fails to parse, or a `{` that never closes, moves on to the next `{`.
   */
  function BraceScanFrom(text: string, parse: string -> Option<Value>, start: nat): (r: Option<Value>)
    decreases |text| - start
  {
    if start >= |text| then None
    else if text[start] != '{' then BraceScanFrom(text, parse, start + 1)
    else match CloseFrom(text, start, SCAN_START)
      case Some(j) => if parse(text[start..j + 1]).Some? then parse(text[start..j + 1]) else BraceScanFrom(text, parse, start + 1)
      case None => BraceScanFrom(text, parse, start + 1)
  }

  /** What the brace scan returns is the parse of a candidate that starts with `{` and ends with `}`. */
  lemma {:induction false} BraceScanFound(text: string, parse: string -> Option<Value>, start: nat)
    requires BraceScanFrom(text, parse, start).Some?
    ensures exists c :: Braced(c) && parse(c) == BraceScanFrom(text, parse, start)
    decreases |text| - start
  {
    if text[start] == '{' && CloseFrom(text, start, SCAN_START).Some?
       && parse(text[start..CloseFrom(text, start, SCAN_START).value + 1]).Some? {
      CandidateShape(text, start);
      var j := CloseFrom(text, start, SCAN_START).value;
      var c := text[start..j + 1];
      assert Braced(c) && parse(c) == BraceScanFrom(text, parse, start);
    } else {
      BraceScanFound(text, parse, start + 1);
    }
  }

  /** The brace scan finds nothing exactly when no candidate it tries parses. */
  lemma {:induction false} BraceScanNone(text: string, parse: string -> Option<Value>, start: nat)
    ensures BraceScanFrom(text, parse, start).None? <==>
              forall s :: start <= s < |text| && text[s] == '{' && CloseFrom(text, s, SCAN_START).Some? ==>
                parse(text[s..CloseFrom(text, s, SCAN_START).value + 1]).None?
    decreases |text| - start
  {
    if start < |text| {
      BraceScanNone(text, parse, start + 1);
    }
  }

  /** A `{`…`}` candidate's shape. */
  predicate Braced(c: string)
  {
    |c| >= 2 && c[0] == '{' && c[|c| - 1] == '}'
  }

  /** The second attempt: the parse of the trimmed first fenced body, if there is one. */
  function FencedParse(text: string, parse: string -> Option<Value>): (r: Option<Value>)
    ensures r.Some? ==> exists s :: FenceFree(s) && parse(s) == r
    ensures FenceFrom(text, 0).None? ==> r.None?
  {
    if FenceFrom(text, 0).Some? then
      var body := Trim(FenceFrom(text, 0).value);
      TrimFenceFree(FenceFrom(text, 0).value);
      parse(body)
    else None
  }

  /**
   * `tryParseJsonObject(rawText)`: the strict parse of the trimmed text, else that of the
   * trimmed first fenced body, else the brace scan; `Err` when all three fail. `parse` stands
   * for `JSON.parse`, `None` for a throw.
   */
  function TryParseOf(raw: string, parse: string -> Option<Value>): (r: Result<Value, string>)
  {
    var text := Trim(raw);
    if parse(text).Some? then Ok(parse(text).value)
    else if FencedParse(text, parse).Some? then Ok(FencedParse(text, parse).value)
    else match BraceScanFrom(text, parse, 0)
      case Some(v) => Ok(v)
      case None => Err(PARSE_FAILURE)
  }

  /** `v` is the parse of `s`, which is the trimmed text, fence-free, or a `{`…`}` candidate. */
  predicate ReadFrom(raw: string, parse: string -> Option<Value>, s: string, v: Value)
  {
    parse(s) == Some(v) && (s == Trim(raw) || FenceFree(s) || Braced(s))
  }

  /**
   * A successful read is the parse of the trimmed text, of a fence-free text, or of a
   * `{`…`}` candidate.
   */
  lemma TryParseSource(raw: string, parse: string -> Option<Value>)
    requires TryParseOf(raw, parse).Ok?
    ensures exists s :: ReadFrom(raw, parse, s, TryParseOf(raw, parse).value)
  {
    var text := Trim(raw);
    var v := TryParseOf(raw, parse).value;
    if parse(text).Some? {
      assert parse(text) == Some(v) && text == Trim(raw);
      assert ReadFrom(raw, parse, text, v);
    } else if FencedParse(text, parse).Some? {
      var w :| FenceFree(w) && parse(w) == FencedParse(text, parse);
      assert ReadFrom(raw, parse, w, v);
    } else {
      BraceScanFound(text, parse, 0);
      var c :| Braced(c) && parse(c) == BraceScanFrom(text, parse, 0);
      assert ReadFrom(raw, parse, c, v);
    }
  }

  /** A read fails exactly when no candidate the scan tries parses. */
  lemma TryParseFails(raw: string, parse: string -> Option<Value>)
    ensures TryParseOf(raw, parse).Err? <==>
              parse(Trim(raw)).None? && FencedParse(Trim(raw), parse).None?
              && forall s :: 0 <= s < |Trim(raw)| && Trim(raw)[s] == '{' && CloseFrom(Trim(raw), s, SCAN_START).Some? ==>
                   parse(Trim(raw)[s..CloseFrom(Trim(raw), s, SCAN_START).value + 1]).None?
  {
    BraceScanNone(Trim(raw), parse, 0);
  }

  /** Trimming keeps a text fence-free. */
  lemma TrimFenceFree(s: string)
    requires FenceFree(s)
    ensures FenceFree(Trim(s))
  {
    var u := TrimStart(s);
    InfixFenceFree(s, u, |s| - |u|);
    InfixFenceFree(u, TrimEnd(u), 0);
  }

  /** A piece of a fence-free text is fence-free. */
  lemma InfixFenceFree(s: string, t: string, off: nat)
    requires FenceFree(s) && off + |t| <= |s| && t == s[off..off + |t|]
    ensures FenceFree(t)
  {
    forall k | 0 <= k < |t| ensures !OccursAt(t, FENCE, k) {
      if OccursAt(t, FENCE, k) {
        var n := |FENCE|;
        var a, b := t[k..k + n], s[off + k..off + k + n];
        forall j | 0 <= j < n ensures a[j] == b[j] {
          assert t[k + j] == s[off..off + |t|][k + j];
        }
        assert a == b;
        assert OccursAt(s, FENCE, off + k);
      }
    }
  }

  /**
   * The inner loop of `tryParseJsonObject`'s brace scan: the index at which the object opened
   * at `start` closes, if it does.
   */
  method ScanClose(text: string, start: nat) returns (close: Option<nat>)
    requires start < |text|
    ensures close == CloseFrom(text, start, SCAN_START)
  {
    var depth := 0;
    var inString := false;
    var escaped := false;
    for i := start to |text|
      invariant CloseFrom(text, start, SCAN_START) == CloseFrom(text, i, ScanState(depth, inString, escaped))
    {
      var ch := text[i];
      if inString {
        if escaped {
          escaped := false;
        } else if ch == '\\' {
          escaped := true;
        } else if ch == '"' {
          inString := false;
        }
        continue;
      }
      if ch == '"' {
        inString := true;
        continue;
      }
      if ch == '{' {
        depth := depth + 1;
      }
      if ch == '}' {
        depth := depth - 1;
      }
      if depth == 0 {
        return Some(i);
      }
    }
    return None;
  }

  /**
   * The outer loop of the brace scan: each `{` in turn, the candidate up to where it closes
   * parsed, the first that parses returned.
   */
  method BraceScan(text: string, parse: string -> Option<Value>) returns (r: Option<Value>)
    ensures r == BraceScanFrom(text, parse, 0)
  {
    for start := 0 to |text|
      invariant BraceScanFrom(text, parse, 0) == BraceScanFrom(text, parse, start)
    {
      if text[start] != '{' {
        continue;
      }
      var close := ScanClose(text, start);
      if close.Some? {
        var parsed := parse(text[start..close.value + 1]);
        if parsed.Some? {
          return parsed;
        }
      }
    }
    return None;
  }

  /** `tryParseJsonObject(rawText)`. */
  method TryParseJsonObject(raw: string, parse: string -> Option<Value>) returns (r: Result<Value, string>)
    ensures r == TryParseOf(raw, parse)
  {
    var text := Trim(raw);
    var strict := parse(text);
    if strict.Some? {
      return Ok(strict.value);
    }
    var fence := FenceFrom(text, 0);
    if fence.Some? {
      var fenced := parse(Trim(fence.value));
      if fenced.Some? {
        assert fenced == FencedParse(text, parse);
        return Ok(fenced.value);
      }
    }
    assert FencedParse(text, parse).None?;
    var found := BraceScan(text, parse);
    if found.Some? {
      return Ok(found.value);
    }
    return Err(PARSE_FAILURE);
  }
}
