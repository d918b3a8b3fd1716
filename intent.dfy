/**
 * Intent routing: a user message is classified as a formatting request, a content edit or a
 * question by counting keyword hits, with a heuristic fallback for low-confidence results.
 */
module IntentRouter {
  import opened Wrappers
  import opened Text

  datatype Intent = Format | ContentEdit | GeneralQa

  /** The number of keyword hits of each intent, in the order the intents are declared. */
  datatype Scores = Scores(format: nat, contentEdit: nat, qa: nat)
  {
    function Of(i: Intent): nat
    {
      match i
      case Format => format
      case ContentEdit => contentEdit
      case GeneralQa => qa
    }

    function Total(): nat { format + contentEdit + qa }
  }

  /** A classification: the intent, its confidence, the reason and, for a keyword result, the scores. */
  datatype Decision = Decision(intent: Intent, confidence: real, reason: string, scores: Option<Scores>)

  const HIGH: real := 0.8
  const LOW: real := 0.5

  const FORMAT_KEYWORDS: seq<string> := [
    "格式", "排版", "样式", "字体", "字号", "加粗", "斜体", "下划线",
    "对齐", "居中", "左对齐", "右对齐", "两端对齐",
    "行距", "行间距", "段落", "缩进", "首行缩进",
    "页边距", "页眉", "页脚", "页码",
    "标题", "正文", "目录", "大纲",
    "表格", "边框", "虚线", "底纹",
    "颜色", "背景", "高亮",
    "宋体", "黑体", "楷体", " Times ", " Arial ",
    "三号", "四号", "五号", "小五",
    "1.5", "2倍", "单倍", "固定值",
    "毕业论文", "论文格式", "合同格式", "排版"]

  const CONTENT_EDIT_KEYWORDS: seq<string> := [
    "插入", "添加", "新增",
    "删除", "去掉", "移除", "清除",
    "替换", "修改", "更改", "改",
    "追加", "补充", "在最后",
    "在开头", "在前面", "在后面",
    "在第", "第几段", "第几行",
    "这句话", "这个词", "这段话", "这部分",
    "改成", "改为", "变成", "改成"]

  const QA_KEYWORDS: seq<string> := [
    "是什么", "什么是", "怎么", "如何",
    "为什么", "原因", "原理",
    "介绍一下", "说明", "解释",
    "有没有", "是否可以", "能否",
    "帮助", "使用", "用法", "教程"]

  function KeywordsOf(i: Intent): seq<string>
  {
    match i
    case Format => FORMAT_KEYWORDS
    case ContentEdit => CONTENT_EDIT_KEYWORDS
    case GeneralQa => QA_KEYWORDS
  }

  /** `matchKeywords`: the keywords that occur in `text`, ignoring case, in list order; a keyword
      listed twice is matched twice. */
  function Matches(text: string, keywords: seq<string>): (r: seq<string>)
    ensures |r| <= |keywords|
    ensures forall k :: k in r ==> k in keywords && ContainsCI(text, k)
  {
    if keywords == [] then []
    else
      var rest := Matches(text, keywords[1..]);
      if ContainsCI(text, keywords[0]) then [keywords[0]] + rest else rest
  }

  /** A keyword is among the matches exactly when it is listed and occurs in the text. */
  lemma {:induction false} MatchesMembers(text: string, keywords: seq<string>, k: string)
    ensures k in Matches(text, keywords) <==> k in keywords && ContainsCI(text, k)
  {
    if keywords != [] {
      MatchesMembers(text, keywords[1..], k);
      assert keywords == [keywords[0]] + keywords[1..];
    }
  }

  /** Matching a concatenated list matches each part in turn, so every listed copy of a keyword
      counts. */
  lemma {:induction false} MatchesAppend(text: string, a: seq<string>, b: seq<string>)
    ensures Matches(text, a + b) == Matches(text, a) + Matches(text, b)
  {
    if a != [] {
      assert (a + b)[0] == a[0] && (a + b)[1..] == a[1..] + b;
      MatchesAppend(text, a[1..], b);
    } else {
      assert a + b == b;
    }
  }

  function ScoresOf(text: string): Scores
  {
    Scores(|Matches(text, FORMAT_KEYWORDS)|, |Matches(text, CONTENT_EDIT_KEYWORDS)|,
           |Matches(text, QA_KEYWORDS)|)
  }

  /** The scan for the highest score: an intent replaces the current one only with a strictly
      higher score, so ties go to the earlier intent. Starts from FORMAT with score 0. */
  function Top(s: Scores): (Intent, nat)
  {
    var (t1, m1) := if s.format > 0 then (Format, s.format) else (Format, 0);
    var (t2, m2) := if s.contentEdit > m1 then (ContentEdit, s.contentEdit) else (t1, m1);
    if s.qa > m2 then (GeneralQa, s.qa) else (t2, m2)
  }

  /** The top intent has the highest score; with a positive score it is the first intent, in
      FORMAT, CONTENT_EDIT, GENERAL_QA order, reaching that score. */
  lemma TopIsFirstMax(s: Scores)
    ensures var (t, m) := Top(s);
            s.format <= m && s.contentEdit <= m && s.qa <= m
            && s.Of(t) == m
            && (t == ContentEdit ==> s.format < m)
            && (t == GeneralQa ==> s.format < m && s.contentEdit < m)
  {
  }

  /** `classifyByKeywords`: the top intent with confidence `max / total * 0.8`, or FORMAT with 0.3
      when no keyword matched. */
  function ClassifyByKeywords(text: string): Decision
  {
    var s := ScoresOf(text);
    var (top, max) := Top(s);
    var total := s.Total();
    var confidence: real := if total > 0 then (max as real / total as real) * 0.8 else 0.5;
    if max > 0 then
      Decision(top, confidence, "关键词匹配: " + Join(Matches(text, KeywordsOf(top)), ", "), Some(s))
    else
      Decision(Format, 0.3, "无明确关键词匹配，默认走格式链路", Some(s))
  }

  /** The share of the matches won by the top intent, scaled by 0.8: in (0, 0.8], and 0.8 exactly
      when every match belongs to that intent. */
  lemma ShareConfidence(max: nat, total: nat)
    requires 0 < max <= total
    ensures 0.0 < (max as real / total as real) * 0.8 <= HIGH
    ensures (max as real / total as real) * 0.8 == HIGH <==> max == total
  {
    var q := max as real / total as real;
    assert q * total as real == max as real;
    if q == 1.0 {
      assert max as real == total as real;
    }
  }

  /** A keyword result names the top intent with the share confidence; without any match it is
      FORMAT with 0.3. */
  lemma KeywordConfidence(text: string)
    ensures var s := ScoresOf(text);
            var d := ClassifyByKeywords(text);
            if s.Total() == 0 then d.intent == Format && d.confidence == 0.3
            else
              s.Of(d.intent) == Top(s).1 && 0.0 < d.confidence <= HIGH
              && (d.confidence == HIGH <==> s.Of(d.intent) == s.Total())
  {
    var s := ScoresOf(text);
    TopIsFirstMax(s);
    var (top, max) := Top(s);
    if s.Total() > 0 {
      assert max > 0;
      ShareConfidence(max, s.Total());
    }
  }

  /** `fallbackHeuristic`: CONTENT_EDIT 0.7 on two content-edit hits, else GENERAL_QA 0.7 on two
      question hits, else FORMAT 0.5. */
  function Fallback(text: string): (d: Decision)
    ensures |Matches(text, CONTENT_EDIT_KEYWORDS)| >= 2 ==> d.intent == ContentEdit && d.confidence == 0.7
    ensures |Matches(text, CONTENT_EDIT_KEYWORDS)| < 2 && |Matches(text, QA_KEYWORDS)| >= 2
            ==> d.intent == GeneralQa && d.confidence == 0.7
    ensures |Matches(text, CONTENT_EDIT_KEYWORDS)| < 2 && |Matches(text, QA_KEYWORDS)| < 2
            ==> d.intent == Format && d.confidence == LOW
    ensures d.scores.None?
  {
    if |Matches(text, CONTENT_EDIT_KEYWORDS)| >= 2 then
      Decision(ContentEdit, 0.7, "兜底策略: 检测到多个内容编辑关键词", None)
    else if |Matches(text, QA_KEYWORDS)| >= 2 then
      Decision(GeneralQa, 0.7, "兜底策略: 检测到多个问答关键词", None)
    else
      Decision(Format, 0.5, "兜底策略: 默认走格式链路", None)
  }

  /** `classifyIntent`: FORMAT with confidence 0 for blank input; the keyword result when its
      confidence is at least 0.5; the fallback otherwise. `text` is `params.text || ''`. */
  function ClassifyIntent(text: string): (d: Decision)
    ensures Trim(text) == "" ==> d == Decision(Format, 0.0, "空输入", None)
    ensures Trim(text) != "" && ClassifyByKeywords(text).confidence >= LOW ==> d == ClassifyByKeywords(text)
    ensures Trim(text) != "" && ClassifyByKeywords(text).confidence < LOW ==> d == Fallback(text)
  {
    if Trim(text) == "" then Decision(Format, 0.0, "空输入", None)
    else
      var k := ClassifyByKeywords(text);
      if k.confidence >= HIGH then k
      else if k.confidence >= LOW then k
      else Fallback(text)
  }

  /** A non-blank message is classified with confidence at least 0.5 and at most 0.8, only blank
      input gets 0, and 0.8 is reached only by a keyword result whose matches all belong to the
      chosen intent. */
  lemma ConfidenceBounds(text: string)
    ensures Trim(text) == "" <==> ClassifyIntent(text).confidence == 0.0
    ensures Trim(text) != "" ==> LOW <= ClassifyIntent(text).confidence <= HIGH
    ensures ClassifyIntent(text).confidence == HIGH ==>
              var s := ScoresOf(text); s.Total() > 0 && s.Of(ClassifyIntent(text).intent) == s.Total()
  {
    KeywordConfidence(text);
  }

  /** When no keyword matches, the keyword result (0.3) is too weak and the fallback decides:
      with no hits at all it is FORMAT at 0.5. */
  lemma NoMatchFallsBack(text: string)
    requires Trim(text) != "" && ScoresOf(text).Total() == 0
    ensures ClassifyIntent(text) == Decision(Format, 0.5, "兜底策略: 默认走格式链路", None)
  {
    KeywordConfidence(text);
  }
}
