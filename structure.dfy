/**
 * Document structure detection: the one-slot role cache, the one-pass paragraph classifier
 * that fills it, and the per-role scanners the cache falls back to.
 *
 * The host document is abstract: a document is its identity (full name and name) and its
 * paragraphs, each paragraph being the record the detector reads through the host API.
 * Paragraph indices are 1-based, as in the host.
 */
module StructureDetect {
  import opened Wrappers
  import opened Text

  /** The font properties of a paragraph's range. */
  datatype Font = Font(size: real, bold: bool)

  /**
   * One paragraph as the detector sees it. `text` is the range text with CR/LF removed and
   * trimmed; `styleLocal`/`styleName` are the style's local and English names; `font` and
   * `alignment` are None when reading them from the host throws.
   */
  datatype Paragraph = Paragraph(text: string, styleLocal: string, styleName: string,
                                 font: Option<Font>, alignment: Option<int>)

  datatype Document = Document(fullName: string, name: string, paragraphs: seq<Paragraph>)

  datatype Confidence = Low | Medium | High

  /** The record a detection returns for one role. */
  datatype Detection = Detection(role: string, indices: seq<nat>, confidence: Confidence, evidence: string)

  function Min(a: int, b: int): int { if a <= b then a else b }

  predicate Increasing(s: seq<nat>) { forall a, b :: 0 <= a < b < |s| ==> s[a] < s[b] }

  /** `NameLocal || Name || ''`. */
  function StyleOf(p: Paragraph): string
  {
    if p.styleLocal != "" then p.styleLocal else p.styleName
  }

  /** The identity the cache is keyed by: `FullName || Name || 'unknown'`, or null without a document. */
  function DocKey(doc: Option<Document>): (r: Option<string>)
    ensures r.None? <==> doc.None?
  {
    if doc.None? then None
    else if doc.value.fullName != "" then Some(doc.value.fullName)
    else if doc.value.name != "" then Some(doc.value.name)
    else Some("unknown")
  }

  // ---------------------------------------------------------------------------------------
  // The regular expressions of the detector, as predicates on strings
  // ---------------------------------------------------------------------------------------

  /** The length of the longest run of characters satisfying `ok` from position `i`. */
  function RunOf(s: string, i: nat, ok: char -> bool): (r: nat)
    requires i <= |s|
    ensures i + r <= |s|
    ensures forall k :: i <= k < i + r ==> ok(s[k])
    ensures i + r == |s| || !ok(s[i + r])
    decreases |s| - i
  {
    if i == |s| || !ok(s[i]) then 0 else 1 + RunOf(s, i + 1, ok)
  }

  /** `/a\s*b/` matching at position `i`. */
  predicate SpacedAt(s: string, a: string, b: string, i: nat)
  {
    OccursAt(s, a, i) && OccursAt(s, b, i + |a| + SpaceRun(s, i + |a|))
  }

  /** `/a\s*b/` anywhere in `s`. */
  predicate ContainsSpaced(s: string, a: string, b: string)
  {
    exists i: nat | i <= |s| :: SpacedAt(s, a, b, i)
  }

  /** `/a\s*[lo-hi]/` matching at position `i`. */
  predicate SpacedRangeAt(s: string, a: string, lo: char, hi: char, i: nat)
  {
    OccursAt(s, a, i) && i + |a| + SpaceRun(s, i + |a|) < |s|
    && lo <= s[i + |a| + SpaceRun(s, i + |a|)] <= hi
  }

  /** `/a\s*[lo-hi]/` anywhere in `s`. */
  predicate ContainsSpacedRange(s: string, a: string, lo: char, hi: char)
  {
    exists i: nat | i <= |s| :: SpacedRangeAt(s, a, lo, hi, i)
  }

  /** `/^a\s*\d/`. */
  predicate StartsSpacedDigit(s: string, a: string)
  {
    SpacedRangeAt(s, a, '0', '9', 0)
  }

  /** `\d+(\.\d+)*\s` with `parts` digit groups, matching at position `i`. */
  predicate DottedNumberAt(s: string, i: nat, parts: nat)
    decreases parts
  {
    i <= |s| && parts >= 1 && RunOf(s, i, IsDigit) > 0
    && i + RunOf(s, i, IsDigit) < |s|
    && if parts == 1 then IsSpace(s[i + RunOf(s, i, IsDigit)])
       else s[i + RunOf(s, i, IsDigit)] == '.' && DottedNumberAt(s, i + RunOf(s, i, IsDigit) + 1, parts - 1)
  }

  predicate IsChineseNumeral(c: char) { c in "一二三四五六七八九十百" }

  /** `/^第[一二三四五六七八九十百]+[ends]/`. */
  predicate ChineseChapter(s: string, ends: string)
  {
    OccursAt(s, "第", 0) && RunOf(s, 1, IsChineseNumeral) > 0
    && 1 + RunOf(s, 1, IsChineseNumeral) < |s| && s[1 + RunOf(s, 1, IsChineseNumeral)] in ends
  }

  /** `/标题|Title/i` and not `/标题\s*[2-9]|Heading\s*[2-9]/i`. */
  predicate TitleStyle(st: string)
  {
    var l := Lower(st);
    (Contains(l, "标题") || Contains(l, "title"))
    && !(ContainsSpacedRange(l, "标题", '2', '9') || ContainsSpacedRange(l, "heading", '2', '9'))
  }

  /** `new RegExp('标题\\s*' + level, 'i')` or `new RegExp('Heading\\s*' + level, 'i')`. */
  predicate StyleLevelMatch(st: string, level: nat)
  {
    var l := Lower(st);
    ContainsSpaced(l, "标题", NatToString(level)) || ContainsSpaced(l, "heading", NatToString(level))
  }

  /** `/标题\s*1|Heading\s*1/i`. */
  predicate Heading1Style(st: string) { StyleLevelMatch(st, 1) }

  /** `/标题|Heading/i`. */
  predicate HeadingLikeStyle(st: string)
  {
    var l := Lower(st);
    Contains(l, "标题") || Contains(l, "heading")
  }

  /** `/目录|TOC/i`. */
  predicate TocStyle(st: string)
  {
    var l := Lower(st);
    Contains(l, "目录") || Contains(l, "toc")
  }

  /** `/标题|Heading|Title|TOC|目录/i`: styles whose paragraphs are never body text. */
  predicate BodyExcludedStyle(st: string)
  {
    Any(Lower(st), ["标题", "heading", "title", "toc", "目录"])
  }

  /** `/^目\s*录$/`. */
  predicate TocText(t: string)
  {
    SpacedAt(t, "目", "录", 0) && 2 + SpaceRun(t, 1) == |t|
  }

  /** `/^摘\s*要|^Abstract/i`. */
  predicate AbstractMarker(t: string)
  {
    SpacedAt(t, "摘", "要", 0) || StartsWith(Lower(t), "abstract")
  }

  /** `/^关键词|^Keywords|^Key\s*words/i`. */
  predicate KeywordsMarker(t: string)
  {
    StartsWith(t, "关键词") || StartsWith(Lower(t), "keywords") || SpacedAt(Lower(t), "key", "words", 0)
  }

  /** `/^参考文献|^References/i`. */
  predicate RefMarker(t: string)
  {
    StartsWith(t, "参考文献") || StartsWith(Lower(t), "references")
  }

  /** `/^致\s*谢|^Acknowledgment/i`. */
  predicate AckMarker(t: string)
  {
    SpacedAt(t, "致", "谢", 0) || StartsWith(Lower(t), "acknowledgment")
  }

  /** `/^附\s*录|^Appendix/i`. */
  predicate AppendixMarker(t: string)
  {
    SpacedAt(t, "附", "录", 0) || StartsWith(Lower(t), "appendix")
  }

  /** `/^致\s*谢|^附\s*录|^Acknowledgment|^Appendix/i`: what ends the references section. */
  predicate RefCloser(t: string) { AckMarker(t) || AppendixMarker(t) }

  /** `/^图\s*\d|^Figure\s*\d/i`. */
  predicate FigureMarker(t: string)
  {
    StartsSpacedDigit(t, "图") || StartsSpacedDigit(Lower(t), "figure")
  }

  /** `/^表\s*\d|^Table\s*\d/i`. */
  predicate TableMarker(t: string)
  {
    StartsSpacedDigit(t, "表") || StartsSpacedDigit(Lower(t), "table")
  }

  /** The numbering patterns of heading levels 1 to 4. */
  predicate ChapterMatch(t: string, level: nat)
  {
    if level == 1 then ChineseChapter(t, "章节")
    else if level == 2 then ChineseChapter(t, "条款") || DottedNumberAt(t, 0, 2)
    else if level == 3 then DottedNumberAt(t, 0, 3)
    else if level == 4 then DottedNumberAt(t, 0, 4)
    else false
  }

  /** The first level in 1..4 satisfying `StyleLevelMatch`. */
  function StyleLevel(st: string): (r: Option<nat>)
    ensures r.Some? ==> 1 <= r.value <= 4
  {
    if StyleLevelMatch(st, 1) then Some(1)
    else if StyleLevelMatch(st, 2) then Some(2)
    else if StyleLevelMatch(st, 3) then Some(3)
    else if StyleLevelMatch(st, 4) then Some(4)
    else None
  }

  /** The first level in 1..4 whose numbering pattern the text matches. */
  function ChapterLevel(t: string): (r: Option<nat>)
    ensures r.Some? ==> 1 <= r.value <= 4
  {
    if ChapterMatch(t, 1) then Some(1)
    else if ChapterMatch(t, 2) then Some(2)
    else if ChapterMatch(t, 3) then Some(3)
    else if ChapterMatch(t, 4) then Some(4)
    else None
  }

  // ---------------------------------------------------------------------------------------
  // Paragraph predicates shared by the pass and the scanners
  // ---------------------------------------------------------------------------------------

  /** Bold, with a readable font of at least `size` points. */
  predicate BoldAtLeast(p: Paragraph, size: real)
  {
    p.font.Some? && p.font.value.bold && p.font.value.size >= size
  }

  /** Size 18 or more, bold and centred (alignment 1). */
  predicate BigCentredBold(p: Paragraph)
  {
    p.font.Some? && p.alignment.Some? && p.font.value.size >= 18.0 && p.font.value.bold
    && p.alignment.value == 1
  }

  /** A non-empty paragraph with a title style, or big, bold and centred. */
  predicate TitleCandidate(p: Paragraph)
  {
    p.text != "" && (TitleStyle(StyleOf(p)) || BigCentredBold(p))
  }

  /** The heading level the one-pass classifier gives a paragraph: style first, then bold
      and size for short text (levels 1 and 2 only), then the numbering pattern. */
  function HeadingLevel(p: Paragraph): Option<nat>
  {
    if StyleLevel(StyleOf(p)).Some? then StyleLevel(StyleOf(p))
    else if p.text == "" then None
    else if |p.text| < 60 && BoldAtLeast(p, 16.0) then Some(1)
    else if |p.text| < 60 && BoldAtLeast(p, 14.0) then Some(2)
    else ChapterLevel(p.text)
  }

  // ---------------------------------------------------------------------------------------
  // Index selection over the paragraphs
  // ---------------------------------------------------------------------------------------

  /** The 1-based indices `j <= n`, in order, whose paragraph satisfies `keep`. */
  function Where(ps: seq<Paragraph>, keep: (Paragraph, nat) -> bool, n: nat): seq<nat>
    requires n <= |ps|
  {
    if n == 0 then [] else Where(ps, keep, n - 1) + (if keep(ps[n - 1], n) then [n] else [])
  }

  lemma {:induction false} WhereMembers(ps: seq<Paragraph>, keep: (Paragraph, nat) -> bool, n: nat, j: nat)
    requires n <= |ps|
    ensures j in Where(ps, keep, n) <==> j <= n && KeepsAt(ps, keep, j)
  {
    if n > 0 {
      WhereMembers(ps, keep, n - 1, j);
    }
  }

  lemma {:induction false} WhereIncreasing(ps: seq<Paragraph>, keep: (Paragraph, nat) -> bool, n: nat)
    requires n <= |ps|
    ensures Increasing(Where(ps, keep, n))
    ensures forall x :: x in Where(ps, keep, n) ==> 1 <= x <= n
  {
    if n > 0 {
      WhereIncreasing(ps, keep, n - 1);
      var w := Where(ps, keep, n - 1);
      assert forall a :: 0 <= a < |w| ==> w[a] in w;
    }
  }

  /** Paragraph `j` (1-based) exists and satisfies `keep`. */
  predicate KeepsAt(ps: seq<Paragraph>, keep: (Paragraph, nat) -> bool, j: nat)
  {
    1 <= j <= |ps| && keep(ps[j - 1], j)
  }

  /** The first index in [lo, hi] whose paragraph satisfies `keep`. */
  function FirstWhere(ps: seq<Paragraph>, keep: (Paragraph, nat) -> bool, lo: nat, hi: nat): (r: Option<nat>)
    requires 1 <= lo && hi <= |ps|
    ensures r.Some? ==> lo <= r.value <= hi && KeepsAt(ps, keep, r.value)
    ensures r.Some? ==> forall k :: lo <= k < r.value ==> !KeepsAt(ps, keep, k)
    ensures r.None? ==> forall k :: lo <= k <= hi ==> !KeepsAt(ps, keep, k)
    decreases hi + 1 - lo
  {
    if lo > hi then None
    else if keep(ps[lo - 1], lo) then Some(lo)
    else FirstWhere(ps, keep, lo + 1, hi)
  }

  function AsList(o: Option<nat>): seq<nat>
  {
    if o.Some? then [o.value] else []
  }

  predicate HasText(p: Paragraph, i: nat) { p.text != "" }
  predicate TitleKeep(p: Paragraph, i: nat) { TitleCandidate(p) }
  predicate KeywordsKeep(p: Paragraph, i: nat) { KeywordsMarker(p.text) }
  predicate AbstractKeep(p: Paragraph, i: nat) { AbstractMarker(p.text) }
  predicate TocKeep(p: Paragraph, i: nat) { TocStyle(StyleOf(p)) || TocText(p.text) }

  /** `sizeThresholds[level] || 12`. */
  function Threshold(level: nat): real
  {
    if level == 1 then 16.0 else if level == 2 then 14.0 else if level == 3 then 12.0
    else if level == 4 then 11.0 else 12.0
  }

  /** A paragraph the level scanner takes for a heading of `level`. */
  predicate LevelCandidate(p: Paragraph, level: nat)
  {
    StyleLevelMatch(StyleOf(p), level)
    || (p.text != ""
        && ((level <= 2 && |p.text| < 60 && BoldAtLeast(p, Threshold(level))) || ChapterMatch(p.text, level)))
  }

  function LevelKeep(level: nat): (Paragraph, nat) -> bool
  {
    (p: Paragraph, i: nat) => LevelCandidate(p, level)
  }

  function TextKeep(pattern: string -> bool): (Paragraph, nat) -> bool
  {
    (p: Paragraph, i: nat) => pattern(p.text)
  }

  /** A paragraph the body scanner keeps: not excluded, non-empty, no heading-like style and
      no caption, references or acknowledgment marker. */
  predicate BodyCandidate(p: Paragraph)
  {
    p.text != "" && !BodyExcludedStyle(StyleOf(p)) && !FigureMarker(p.text) && !TableMarker(p.text)
    && !RefMarker(p.text) && !AckMarker(p.text)
  }

  function BodyKeep(excluded: set<nat>): (Paragraph, nat) -> bool
  {
    (p: Paragraph, i: nat) => i !in excluded && BodyCandidate(p)
  }

  /** Collects the indices in 1..n satisfying `keep`: the shape of every filtering scanner loop. */
  method Collect(ps: seq<Paragraph>, keep: (Paragraph, nat) -> bool, n: nat) returns (indices: seq<nat>)
    requires n <= |ps|
    ensures indices == Where(ps, keep, n)
  {
    indices := [];
    var i := 1;
    while i <= n
      invariant 1 <= i <= n + 1
      invariant indices == Where(ps, keep, i - 1)
    {
      if keep(ps[i - 1], i) {
        indices := indices + [i];
      }
      i := i + 1;
    }
  }

  /** Scans 1..n and stops at the first index satisfying `keep`. */
  method FindFirst(ps: seq<Paragraph>, keep: (Paragraph, nat) -> bool, n: nat) returns (r: Option<nat>)
    requires n <= |ps|
    ensures r == FirstWhere(ps, keep, 1, n)
  {
    var i := 1;
    while i <= n
      invariant 1 <= i <= n + 1
      invariant FirstWhere(ps, keep, 1, n) == FirstWhere(ps, keep, i, n)
    {
      if keep(ps[i - 1], i) {
        return Some(i);
      }
      i := i + 1;
    }
    return None;
  }

  // ---------------------------------------------------------------------------------------
  // The one-pass classifier
  // ---------------------------------------------------------------------------------------

  /** Every test one iteration of the pass makes on its paragraph, evaluated once. */
  datatype Features = Features(
    hasText: bool, longText: bool, titleLike: bool, toc: bool,
    abstractMarker: bool, keywordsMarker: bool, headingLikeStyle: bool,
    refMarker: bool, refCloser: bool, heading1Style: bool, ackMarker: bool, appendixMarker: bool,
    figure: bool, table: bool, heading: Option<nat>, bodyStyle: bool)

  function FeaturesOf(p: Paragraph): Features
  {
    Features(p.text != "", |p.text| >= 10, TitleCandidate(p), TocStyle(StyleOf(p)) || TocText(p.text),
             AbstractMarker(p.text), KeywordsMarker(p.text), HeadingLikeStyle(StyleOf(p)),
             RefMarker(p.text), RefCloser(p.text), Heading1Style(StyleOf(p)), AckMarker(p.text),
             AppendixMarker(p.text), FigureMarker(p.text), TableMarker(p.text), HeadingLevel(p),
             !BodyExcludedStyle(StyleOf(p)))
  }

  /** The flags the pass carries from one paragraph to the next. */
  datatype Flags = Flags(titleFound: bool, inAbstract: bool, abstractStart: int,
                         inReferences: bool, inAcknowledgment: bool)

  const INITIAL_FLAGS := Flags(false, false, -1, false, false)

  /** The roles one paragraph is given in one iteration of the pass. `heading` is the level, if any. */
  datatype Claim = Claim(title: bool, toc: bool, abstractText: bool, keywords: bool, references: bool,
                         acknowledgment: bool, figure: bool, table: bool, heading: Option<nat>, body: bool)

  /** One iteration's outcome: the paragraph's roles and the flags for the next paragraph. */
  datatype Step = Step(claim: Claim, flags: Flags)

  /** The abstract check of one iteration: whether the paragraph is pushed, whether it is excluded
      from the body, and the new `inAbstract`/`abstractStart`. */
  datatype AbstractStep = AbstractStep(claim: bool, excluded: bool, inAbstract: bool, start: int)

  function AbstractPart(inAbstract: bool, start: int, x: Features, i: nat): AbstractStep
  {
    if i > 30 then AbstractStep(false, false, inAbstract, start)
    else if !inAbstract && x.abstractMarker then AbstractStep(x.longText, true, true, i + 1)
    else if inAbstract && i >= start then
      if !x.hasText || x.keywordsMarker || x.headingLikeStyle then AbstractStep(false, false, false, start)
      else AbstractStep(true, true, true, start)
    else AbstractStep(false, false, inAbstract, start)
  }

  /** A section check of one iteration: whether the paragraph is pushed, and the new
      `inReferences`/`inAcknowledgment`. */
  datatype SectionStep = SectionStep(claim: bool, inReferences: bool, inAcknowledgment: bool)

  function ReferencesPart(inReferences: bool, inAcknowledgment: bool, x: Features): SectionStep
  {
    if x.refMarker then SectionStep(true, true, false)
    else if inReferences then
      if x.heading1Style || x.refCloser then SectionStep(false, false, inAcknowledgment)
      else SectionStep(x.hasText, true, inAcknowledgment)
    else SectionStep(false, inReferences, inAcknowledgment)
  }

  function AcknowledgmentPart(inReferences: bool, inAcknowledgment: bool, x: Features): SectionStep
  {
    if x.ackMarker then SectionStep(true, false, true)
    else if inAcknowledgment then
      if x.heading1Style || x.appendixMarker then SectionStep(false, inReferences, false)
      else SectionStep(x.hasText, inReferences, true)
    else SectionStep(false, inReferences, inAcknowledgment)
  }

  /** One iteration of the pass over paragraph `i` (1-based): every check in source order. A
      paragraph any check claims (or that opens an abstract) is excluded from the body. */
  function Classify(f: Flags, x: Features, i: nat): Step
  {
    var title := !f.titleFound && i <= 10 && x.titleLike;
    var toc := i <= 50 && x.toc;
    var ab := AbstractPart(f.inAbstract, f.abstractStart, x, i);
    var kw := i <= 30 && x.keywordsMarker;
    var rf := ReferencesPart(f.inReferences, f.inAcknowledgment, x);
    var ak := AcknowledgmentPart(rf.inReferences, rf.inAcknowledgment, x);
    var excluded := title || toc || ab.excluded || kw || rf.claim || ak.claim || x.figure || x.table
                    || x.heading.Some?;
    var body := !excluded && x.hasText && x.bodyStyle;
    Step(Claim(title, toc, ab.claim, kw, rf.claim, ak.claim, x.figure, x.table, x.heading, body),
         Flags(f.titleFound || title, ab.inAbstract, ab.start, ak.inReferences, ak.inAcknowledgment))
  }

  /** The 13 index lists the loop pushes into. */
  datatype Lists = Lists(title: seq<nat>, heading1: seq<nat>, heading2: seq<nat>, heading3: seq<nat>,
                         heading4: seq<nat>, abstractText: seq<nat>, keywords: seq<nat>, body: seq<nat>,
                         figure: seq<nat>, table: seq<nat>, references: seq<nat>,
                         acknowledgment: seq<nat>, toc: seq<nat>)

  const NO_LISTS := Lists([], [], [], [], [], [], [], [], [], [], [], [], [])

  /** The roles the loop assigns. */
  datatype Role = Title | Heading1 | Heading2 | Heading3 | Heading4 | Abstract | Keywords | Body
                | FigureCaption | TableCaption | References | Acknowledgment | Toc

  function ListOf(l: Lists, role: Role): seq<nat>
  {
    match role
    case Title => l.title
    case Heading1 => l.heading1
    case Heading2 => l.heading2
    case Heading3 => l.heading3
    case Heading4 => l.heading4
    case Abstract => l.abstractText
    case Keywords => l.keywords
    case Body => l.body
    case FigureCaption => l.figure
    case TableCaption => l.table
    case References => l.references
    case Acknowledgment => l.acknowledgment
    case Toc => l.toc
  }

  predicate Claimed(c: Claim, role: Role)
  {
    match role
    case Title => c.title
    case Heading1 => c.heading == Some(1)
    case Heading2 => c.heading == Some(2)
    case Heading3 => c.heading == Some(3)
    case Heading4 => c.heading == Some(4)
    case Abstract => c.abstractText
    case Keywords => c.keywords
    case Body => c.body
    case FigureCaption => c.figure
    case TableCaption => c.table
    case References => c.references
    case Acknowledgment => c.acknowledgment
    case Toc => c.toc
  }

  function Push(b: bool, i: nat): seq<nat> { if b then [i] else [] }

  /** Appends `i` to the list of every role the claim names. */
  function Absorb(l: Lists, c: Claim, i: nat): Lists
  {
    Lists(l.title + Push(c.title, i), l.heading1 + Push(c.heading == Some(1), i),
          l.heading2 + Push(c.heading == Some(2), i), l.heading3 + Push(c.heading == Some(3), i),
          l.heading4 + Push(c.heading == Some(4), i), l.abstractText + Push(c.abstractText, i),
          l.keywords + Push(c.keywords, i), l.body + Push(c.body, i), l.figure + Push(c.figure, i),
          l.table + Push(c.table, i), l.references + Push(c.references, i),
          l.acknowledgment + Push(c.acknowledgment, i), l.toc + Push(c.toc, i))
  }

  /** The lists and flags after iterations 1..n of the loop. */
  datatype Run = Run(lists: Lists, flags: Flags)

  /** The loop over paragraphs 1..n, given the outcome `feat` of each paragraph's tests (the pass
      itself uses `FeaturesOf`). */
  function PassRun(ps: seq<Paragraph>, feat: Paragraph -> Features, n: nat): Run
    requires n <= |ps|
  {
    if n == 0 then Run(NO_LISTS, INITIAL_FLAGS)
    else
      var r := PassRun(ps, feat, n - 1);
      var s := Classify(r.flags, feat(ps[n - 1]), n);
      Run(Absorb(r.lists, s.claim, n), s.flags)
  }

  /** The roles iteration `j` gives its paragraph, under the flags the earlier iterations left. */
  function ClaimAt(ps: seq<Paragraph>, feat: Paragraph -> Features, j: nat): Claim
    requires 1 <= j <= |ps|
  {
    Classify(PassRun(ps, feat, j - 1).flags, feat(ps[j - 1]), j).claim
  }

  /** The lists the loop leaves for a document's paragraphs. */
  function LoopLists(ps: seq<Paragraph>): Lists
  {
    PassRun(ps, FeaturesOf, |ps|).lists
  }

  /** The lists after the loop and the title fallback (the first non-empty paragraph among 1..3). */
  function FinalLists(ps: seq<Paragraph>): Lists
  {
    var l := LoopLists(ps);
    if l.title == [] then l.(title := AsList(FirstWhere(ps, HasText, 1, Min(|ps|, 3)))) else l
  }

  const ROLE_SET: set<string> := {"title", "heading_1", "heading_2", "heading_3", "heading_4", "abstract",
                                  "keywords", "body", "figure_caption", "table_caption", "references",
                                  "acknowledgment", "toc", "footnotes"}

  const FOOTNOTES := Detection("footnotes", [], Low, "not applicable")

  /** The table of 14 role results the pass returns. */
  function TableOf(l: Lists, f: Flags): (r: map<string, Detection>)
    ensures r.Keys == ROLE_SET
    ensures r["footnotes"].indices == []
  {
    map["title" := Detection("title", l.title, if |l.title| > 0 then Medium else Low, "unified"),
        "heading_1" := Detection("heading_1", l.heading1, Medium, "unified"),
        "heading_2" := Detection("heading_2", l.heading2, Medium, "unified"),
        "heading_3" := Detection("heading_3", l.heading3, Medium, "unified"),
        "heading_4" := Detection("heading_4", l.heading4, Medium, "unified"),
        "abstract" := Detection("abstract", l.abstractText, if |l.abstractText| > 0 then High else Low, "unified"),
        "keywords" := Detection("keywords", l.keywords, if |l.keywords| > 0 then High else Low, "unified"),
        "body" := Detection("body", l.body, Medium, "unified"),
        "figure_caption" := Detection("figure_caption", l.figure, High, "unified"),
        "table_caption" := Detection("table_caption", l.table, High, "unified"),
        "references" := Detection("references", l.references,
                                  if f.inReferences || |l.references| > 0 then High else Low, "unified"),
        "acknowledgment" := Detection("acknowledgment", l.acknowledgment,
                                      if f.inAcknowledgment || |l.acknowledgment| > 0 then High else Low, "unified"),
        "toc" := Detection("toc", l.toc, Medium, "unified"),
        "footnotes" := FOOTNOTES]
  }

  /** What the pass returns: null without a document, else the table of all 14 roles. */
  function PassTable(doc: Option<Document>): (r: Option<map<string, Detection>>)
    ensures r.Some? <==> doc.Some?
    ensures r.Some? ==> r.value.Keys == ROLE_SET && r.value["footnotes"].indices == []
  {
    if doc.None? then None
    else
      var ps := doc.value.paragraphs;
      Some(TableOf(FinalLists(ps), PassRun(ps, FeaturesOf, |ps|).flags))
  }

  /** The loop of the pass: reads each paragraph once and pushes its index into the lists of the
      roles it is given. */
  method ScanParagraphs(ps: seq<Paragraph>) returns (lists: Lists, flags: Flags)
    ensures Run(lists, flags) == PassRun(ps, FeaturesOf, |ps|)
  {
    var count := |ps|;
    var title: seq<nat>, h1: seq<nat>, h2: seq<nat>, h3: seq<nat>, h4: seq<nat> := [], [], [], [], [];
    var abstractIndices: seq<nat>, keywords: seq<nat>, body: seq<nat> := [], [], [];
    var figure: seq<nat>, table: seq<nat>, references: seq<nat> := [], [], [];
    var acknowledgment: seq<nat>, toc: seq<nat> := [], [];
    flags := INITIAL_FLAGS;
    var i := 1;
    while i <= count
      invariant 1 <= i <= count + 1
      invariant Run(Lists(title, h1, h2, h3, h4, abstractIndices, keywords, body, figure, table,
                          references, acknowledgment, toc), flags) == PassRun(ps, FeaturesOf, i - 1)
    {
      var s := Classify(flags, FeaturesOf(ps[i - 1]), i);
      var c := s.claim;
      title := title + Push(c.title, i);
      toc := toc + Push(c.toc, i);
      abstractIndices := abstractIndices + Push(c.abstractText, i);
      keywords := keywords + Push(c.keywords, i);
      references := references + Push(c.references, i);
      acknowledgment := acknowledgment + Push(c.acknowledgment, i);
      figure := figure + Push(c.figure, i);
      table := table + Push(c.table, i);
      h1 := h1 + Push(c.heading == Some(1), i);
      h2 := h2 + Push(c.heading == Some(2), i);
      h3 := h3 + Push(c.heading == Some(3), i);
      h4 := h4 + Push(c.heading == Some(4), i);
      body := body + Push(c.body, i);
      flags := s.flags;
      i := i + 1;
    }
    lists := Lists(title, h1, h2, h3, h4, abstractIndices, keywords, body, figure, table,
                   references, acknowledgment, toc);
  }

  /** The single pass: the loop, then the title fallback, then the table of results. */
  method DetectAllInOnePass(doc: Option<Document>) returns (r: Option<map<string, Detection>>)
    ensures r == PassTable(doc)
  {
    if doc.None? {
      return None;
    }
    var ps := doc.value.paragraphs;
    var lists, flags := ScanParagraphs(ps);
    if |lists.title| == 0 {
      var first := FindFirst(ps, HasText, Min(|ps|, 3));
      lists := lists.(title := AsList(first));
    }
    r := Some(TableOf(lists, flags));
  }

  // ---------------------------------------------------------------------------------------
  // Properties of the pass, first on the paragraphs' features, then on the paragraphs
  // ---------------------------------------------------------------------------------------

  lemma AbsorbList(l: Lists, c: Claim, i: nat, role: Role)
    ensures ListOf(Absorb(l, c, i), role) == ListOf(l, role) + Push(Claimed(c, role), i)
  {
  }

  /** Index `j` is in a role's list after n iterations exactly when iteration `j` claimed that role. */
  lemma {:induction false} RunMembers(ps: seq<Paragraph>, feat: Paragraph -> Features, n: nat, role: Role, j: nat)
    requires n <= |ps|
    ensures j in ListOf(PassRun(ps, feat, n).lists, role) <==> 1 <= j <= n && Claimed(ClaimAt(ps, feat, j), role)
  {
    if n > 0 {
      RunMembers(ps, feat, n - 1, role, j);
      var b := Claimed(ClaimAt(ps, feat, n), role);
      AbsorbList(PassRun(ps, feat, n - 1).lists, ClaimAt(ps, feat, n), n, role);
      assert j in Push(b, n) <==> b && j == n;
    }
  }

  /** Every list is strictly increasing and holds 1-based indices of paragraphs seen so far. */
  lemma {:induction false} RunIncreasing(ps: seq<Paragraph>, feat: Paragraph -> Features, n: nat, role: Role)
    requires n <= |ps|
    ensures Increasing(ListOf(PassRun(ps, feat, n).lists, role))
    ensures forall x :: x in ListOf(PassRun(ps, feat, n).lists, role) ==> 1 <= x <= n
  {
    if n > 0 {
      var w := ListOf(PassRun(ps, feat, n - 1).lists, role);
      RunIncreasing(ps, feat, n - 1, role);
      AbsorbList(PassRun(ps, feat, n - 1).lists, ClaimAt(ps, feat, n), n, role);
      if Claimed(ClaimAt(ps, feat, n), role) {
        AppendIncreasing(w, n);
      }
    }
  }

  lemma AppendIncreasing(w: seq<nat>, n: nat)
    requires Increasing(w)
    requires forall x :: x in w ==> x < n
    ensures Increasing(w + [n])
  {
    assert forall a :: 0 <= a < |w| ==> w[a] in w;
  }

  /** Once an iteration claims the title, `titleFound` stays set. */
  lemma {:induction false} TitleFoundAfter(ps: seq<Paragraph>, feat: Paragraph -> Features, j: nat, m: nat)
    requires 1 <= j <= m <= |ps| && ClaimAt(ps, feat, j).title
    ensures PassRun(ps, feat, m).flags.titleFound
  {
    if j < m {
      TitleFoundAfter(ps, feat, j, m - 1);
    }
  }

  /** At most one iteration claims the title, and only one among the first 10. */
  lemma RunTitle(ps: seq<Paragraph>, feat: Paragraph -> Features, n: nat)
    requires n <= |ps|
    ensures |PassRun(ps, feat, n).lists.title| <= 1
    ensures forall x :: x in PassRun(ps, feat, n).lists.title ==> 1 <= x <= 10 && x <= n
  {
    var t := PassRun(ps, feat, n).lists.title;
    forall x | x in t ensures 1 <= x <= 10 && x <= n {
      RunMembers(ps, feat, n, Title, x);
    }
    if |t| >= 2 {
      RunIncreasing(ps, feat, n, Title);
      assert t[0] in t && t[1] in t;
      RunMembers(ps, feat, n, Title, t[0]);
      RunMembers(ps, feat, n, Title, t[1]);
      TitleFoundAfter(ps, feat, t[0], t[1] - 1);
      assert false;
    }
  }

  /** A body claim is made only for a paragraph with text, no heading-like style and no other claim. */
  lemma BodyClaimExclusive(f: Flags, x: Features, i: nat, role: Role)
    requires role != Body && Classify(f, x, i).claim.body
    ensures x.hasText && x.bodyStyle && !Claimed(Classify(f, x, i).claim, role)
  {
  }

  lemma RunBody(ps: seq<Paragraph>, feat: Paragraph -> Features, n: nat, j: nat, role: Role)
    requires n <= |ps| && role != Body
    ensures j in PassRun(ps, feat, n).lists.body ==>
              1 <= j <= n && feat(ps[j - 1]).hasText && feat(ps[j - 1]).bodyStyle && j !in ListOf(PassRun(ps, feat, n).lists, role)
  {
    RunMembers(ps, feat, n, Body, j);
    RunMembers(ps, feat, n, role, j);
    if j in PassRun(ps, feat, n).lists.body {
      BodyClaimExclusive(PassRun(ps, feat, j - 1).flags, feat(ps[j - 1]), j, role);
    }
  }

  lemma RunWindows(ps: seq<Paragraph>, feat: Paragraph -> Features, n: nat, j: nat)
    requires n <= |ps|
    ensures j in PassRun(ps, feat, n).lists.abstractText ==> 1 <= j <= 30
    ensures j in PassRun(ps, feat, n).lists.keywords <==> 1 <= j <= Min(n, 30) && feat(ps[j - 1]).keywordsMarker
  {
    RunMembers(ps, feat, n, Abstract, j);
    RunMembers(ps, feat, n, Keywords, j);
  }

  lemma RunToc(ps: seq<Paragraph>, feat: Paragraph -> Features, n: nat, j: nat)
    requires n <= |ps|
    ensures j in PassRun(ps, feat, n).lists.toc <==> 1 <= j <= Min(n, 50) && feat(ps[j - 1]).toc
  {
    RunMembers(ps, feat, n, Toc, j);
  }

  lemma RunHeadings(ps: seq<Paragraph>, feat: Paragraph -> Features, n: nat, role: Role, j: nat)
    requires n <= |ps| && LevelOf(role) > 0
    ensures j in ListOf(PassRun(ps, feat, n).lists, role) <==> 1 <= j <= n && feat(ps[j - 1]).heading == Some(LevelOf(role))
  {
    RunMembers(ps, feat, n, role, j);
  }

  /** The lists the pass returns, title fallback included, are strictly increasing within [1, count]. */
  lemma FinalListsShape(ps: seq<Paragraph>, role: Role)
    ensures Increasing(ListOf(FinalLists(ps), role))
    ensures forall x :: x in ListOf(FinalLists(ps), role) ==> 1 <= x <= |ps|
  {
    var l := LoopLists(ps);
    RunIncreasing(ps, FeaturesOf, |ps|, role);
    if l.title == [] {
      var o := FirstWhere(ps, HasText, 1, Min(|ps|, 3));
      assert FinalLists(ps) == l.(title := AsList(o));
    }
  }

  /** The title list has at most one index: one of the first 10 paragraphs, or, when the loop found
      none, the first non-empty one of the first 3. */
  lemma FinalTitle(ps: seq<Paragraph>)
    ensures |FinalLists(ps).title| <= 1
    ensures forall x :: x in FinalLists(ps).title ==> 1 <= x <= Min(|ps|, 10)
    ensures LoopLists(ps).title == [] ==> FinalLists(ps).title == AsList(FirstWhere(ps, HasText, 1, Min(|ps|, 3)))
  {
    RunTitle(ps, FeaturesOf, |ps|);
  }

  function LevelOf(role: Role): nat
  {
    match role
    case Heading1 => 1
    case Heading2 => 2
    case Heading3 => 3
    case Heading4 => 4
    case _ => 0
  }

  /** The heading lists partition the paragraphs by `HeadingLevel`: a paragraph is in the list of level
      k exactly when its level is k, so it lands in at most one heading list. */
  lemma PassHeadings(ps: seq<Paragraph>, role: Role, j: nat)
    requires LevelOf(role) > 0
    ensures j in ListOf(FinalLists(ps), role) <==> 1 <= j <= |ps| && HeadingLevel(ps[j - 1]) == Some(LevelOf(role))
  {
    RunHeadings(ps, FeaturesOf, |ps|, role, j);
  }

  /** Heading precedence: a style match decides the level; otherwise bold and size decide it, only for
      text shorter than 60 characters and only at levels 1 and 2; otherwise the numbering pattern. */
  lemma HeadingPrecedence(p: Paragraph)
    ensures StyleLevel(StyleOf(p)).Some? ==> HeadingLevel(p) == StyleLevel(StyleOf(p))
    ensures HeadingLevel(p).Some? ==> 1 <= HeadingLevel(p).value <= 4
    ensures StyleLevel(StyleOf(p)).None? && p.text == "" ==> HeadingLevel(p).None?
    ensures StyleLevel(StyleOf(p)).None? && HeadingLevel(p).Some? && !ChapterMatch(p.text, HeadingLevel(p).value)
            ==> HeadingLevel(p).value <= 2 && |p.text| < 60 && BoldAtLeast(p, 14.0)
  {
  }

  /** Body paragraphs have text, no heading-like style, and no other role the loop assigns. */
  lemma BodyExclusive(ps: seq<Paragraph>, j: nat, role: Role)
    requires role != Body
    ensures j in LoopLists(ps).body ==>
              1 <= j <= |ps| && ps[j - 1].text != "" && !BodyExcludedStyle(StyleOf(ps[j - 1]))
              && j !in ListOf(LoopLists(ps), role)
  {
    RunBody(ps, FeaturesOf, |ps|, j, role);
  }

  /** The abstract, keywords and table-of-contents checks only look at the first 30, 30 and 50
      paragraphs; keywords and TOC are exactly the paragraphs there matching their patterns. */
  lemma Windows(ps: seq<Paragraph>, j: nat)
    ensures j in FinalLists(ps).abstractText ==> 1 <= j <= 30
    ensures j in FinalLists(ps).keywords <==> 1 <= j <= Min(|ps|, 30) && KeywordsMarker(ps[j - 1].text)
    ensures j in FinalLists(ps).toc <==>
              1 <= j <= Min(|ps|, 50) && (TocStyle(StyleOf(ps[j - 1])) || TocText(ps[j - 1].text))
  {
    RunWindows(ps, FeaturesOf, |ps|, j);
    RunToc(ps, FeaturesOf, |ps|, j);
  }

  /** The references region opens at its marker; while open, an empty line neither closes it nor is
      claimed, and a Heading 1 style or an acknowledgment/appendix marker closes it unclaimed. */
  lemma ReferencesRegion(f: Flags, x: Features, i: nat)
    ensures x.refMarker ==> Classify(f, x, i).claim.references && Classify(f, x, i).flags.inReferences == !x.ackMarker
    ensures !x.refMarker && f.inReferences && !x.hasText && !x.heading1Style && !x.refCloser && !x.ackMarker
            ==> !Classify(f, x, i).claim.references && Classify(f, x, i).flags.inReferences
    ensures !x.refMarker && (x.heading1Style || x.refCloser)
            ==> !Classify(f, x, i).claim.references && !Classify(f, x, i).flags.inReferences
    ensures !x.refMarker && !f.inReferences ==> !Classify(f, x, i).claim.references
  {
  }

  // ---------------------------------------------------------------------------------------
  // The per-role scanners the cache falls back to
  // ---------------------------------------------------------------------------------------

  /** `_detect_title`: the first title-like paragraph among the first 10, else the first non-empty
      one among the first 3. */
  function TitleScan(ps: seq<Paragraph>): (d: Detection)
    ensures |d.indices| <= 1
    ensures d.confidence == (if d.indices == [] then Low else Medium)
  {
    var found := FirstWhere(ps, TitleKeep, 1, Min(|ps|, 10));
    var indices := if found.Some? then [found.value] else AsList(FirstWhere(ps, HasText, 1, Min(|ps|, 3)));
    Detection("title", indices, if |indices| > 0 then Medium else Low, "heuristic")
  }

  /** `_detect_headings_level`: every paragraph the level scanner takes for a heading of `level`. */
  function HeadingsScan(ps: seq<Paragraph>, level: nat): Detection
  {
    Detection("heading_" + NatToString(level), Where(ps, LevelKeep(level), |ps|), Medium, "style+heuristic")
  }

  /** What ends the abstract's content: an empty line, a keywords line or a heading style (local name). */
  predicate AbstractStop(p: Paragraph)
  {
    p.text == "" || KeywordsMarker(p.text) || HeadingLikeStyle(p.styleLocal)
  }

  /** The indices `j`, `j + 1`, ... up to `hi` of the paragraphs before the first one that satisfies
      `stop`. */
  function RunUntil(ps: seq<Paragraph>, stop: Paragraph -> bool, j: nat, hi: nat): (r: seq<nat>)
    requires 1 <= j && hi <= |ps|
    ensures j + |r| <= hi + 1 || r == []
    ensures forall k :: 0 <= k < |r| ==> r[k] == j + k && !stop(ps[j + k - 1])
    ensures j + |r| <= hi ==> stop(ps[j + |r| - 1])
    decreases hi + 1 - j
  {
    if j > hi || stop(ps[j - 1]) then [] else [j] + RunUntil(ps, stop, j + 1, hi)
  }

  /** The loop that collects `RunUntil(ps, stop, j0, hi)`. */
  method TakeUntil(ps: seq<Paragraph>, stop: Paragraph -> bool, j0: nat, hi: nat) returns (r: seq<nat>)
    requires 1 <= j0 && hi <= |ps|
    ensures r == RunUntil(ps, stop, j0, hi)
  {
    r := [];
    var j := j0;
    while j <= hi
      invariant j0 <= j && r + RunUntil(ps, stop, j, hi) == RunUntil(ps, stop, j0, hi)
      decreases hi + 1 - j
    {
      if stop(ps[j - 1]) {
        break;
      }
      r := r + [j];
      j := j + 1;
    }
  }

  /** `_detect_abstract`: the marker among the first 30 paragraphs, kept when its own text is 10
      characters or longer, then up to five (long marker) or six (bare marker) content lines. */
  function AbstractScan(ps: seq<Paragraph>): Detection
  {
    var count := Min(|ps|, 30);
    var marker := FirstWhere(ps, AbstractKeep, 1, count);
    var indices :=
      if marker.None? then []
      else
        var i := marker.value;
        if |ps[i - 1].text| < 10 then RunUntil(ps, AbstractStop, i + 1, Min(count, i + 6))
        else [i] + RunUntil(ps, AbstractStop, i + 1, Min(count, i + 5));
    Detection("abstract", indices, if |indices| > 0 then High else Low, "text pattern")
  }

  /** `_detect_keywords`: the first keywords line among the first 30 paragraphs. */
  function KeywordsScan(ps: seq<Paragraph>): Detection
  {
    var indices := AsList(FirstWhere(ps, KeywordsKeep, 1, Min(|ps|, 30)));
    Detection("keywords", indices, if |indices| > 0 then High else Low, "text pattern")
  }

  /** `_detect_toc_area`: every TOC-styled or TOC-titled paragraph among the first 50. */
  function TocScan(ps: seq<Paragraph>): Detection
  {
    Detection("toc", Where(ps, TocKeep, Min(|ps|, 50)), Medium, "style+text")
  }

  /** `_detect_body_paragraphs`: body candidates outside the indices already cached for other roles. */
  function BodyScan(ps: seq<Paragraph>, excluded: set<nat>): Detection
  {
    Detection("body", Where(ps, BodyKeep(excluded), |ps|), Medium, "exclusion")
  }

  /** `_detect_simple_text_pattern`: every paragraph whose text matches `pattern`. */
  function PatternScan(ps: seq<Paragraph>, role: string, pattern: string -> bool): Detection
  {
    Detection(role, Where(ps, TextKeep(pattern), |ps|), High, "text pattern")
  }

  /** A section scanner from paragraph `i`: a marker (re)opens the section and is kept; inside it,
      empty lines are skipped, a closer stops the whole scan, and other lines are kept. */
  function SectionFrom(ps: seq<Paragraph>, i: nat, inside: bool, open: Paragraph -> bool,
                       close: Paragraph -> bool): (r: seq<nat>)
    requires 1 <= i
    ensures forall x :: x in r ==> i <= x <= |ps|
    decreases |ps| + 1 - i
  {
    if i > |ps| then []
    else if open(ps[i - 1]) then [i] + SectionFrom(ps, i + 1, true, open, close)
    else if !inside then SectionFrom(ps, i + 1, false, open, close)
    else if ps[i - 1].text == "" then SectionFrom(ps, i + 1, true, open, close)
    else if close(ps[i - 1]) then []
    else [i] + SectionFrom(ps, i + 1, true, open, close)
  }

  predicate RefOpen(p: Paragraph) { RefMarker(p.text) }
  predicate RefClose(p: Paragraph) { Heading1Style(p.styleLocal) || RefCloser(p.text) }
  predicate AckOpen(p: Paragraph) { AckMarker(p.text) }
  predicate AckClose(p: Paragraph) { Heading1Style(p.styleLocal) || AppendixMarker(p.text) }

  /** `_detect_references`. */
  function ReferencesScan(ps: seq<Paragraph>): Detection
  {
    var indices := SectionFrom(ps, 1, false, RefOpen, RefClose);
    Detection("references", indices, if |indices| > 0 then High else Low, "text pattern")
  }

  /** `_detect_acknowledgment`. */
  function AcknowledgmentScan(ps: seq<Paragraph>): Detection
  {
    var indices := SectionFrom(ps, 1, false, AckOpen, AckClose);
    Detection("acknowledgment", indices, if |indices| > 0 then High else Low, "text pattern")
  }

  /** The references scanner's loop. */
  method ScanSection(ps: seq<Paragraph>, open: Paragraph -> bool, close: Paragraph -> bool)
    returns (indices: seq<nat>, inSection: bool)
    ensures indices == SectionFrom(ps, 1, false, open, close)
    ensures inSection <==> indices != []
  {
    indices := [];
    inSection := false;
    var i := 1;
    while i <= |ps|
      invariant 1 <= i <= |ps| + 1
      invariant inSection <==> indices != []
      invariant indices + SectionFrom(ps, i, inSection, open, close) == SectionFrom(ps, 1, false, open, close)
    {
      var p := ps[i - 1];
      if open(p) {
        inSection := true;
        indices := indices + [i];
      } else if inSection && p.text != "" {
        if close(p) {
          assert SectionFrom(ps, i, inSection, open, close) == [];
          break;
        }
        indices := indices + [i];
      }
      i := i + 1;
    }
  }

  /** The section scanner keeps its marker and the non-empty lines after it, and stops at a closer. */
  lemma {:induction false} SectionMembers(ps: seq<Paragraph>, i: nat, inside: bool, open: Paragraph -> bool,
                                          close: Paragraph -> bool, x: nat)
    requires 1 <= i
    ensures x in SectionFrom(ps, i, inside, open, close) ==> ps[x - 1].text != "" || open(ps[x - 1])
    ensures x in SectionFrom(ps, i, inside, open, close) ==> open(ps[x - 1]) || !close(ps[x - 1])
    decreases |ps| + 1 - i
  {
    if i <= |ps| {
      SectionMembers(ps, i + 1, true, open, close, x);
      SectionMembers(ps, i + 1, false, open, close, x);
    }
  }

  /** The abstract scanner's loop: the marker search, then the content lines until a stop. */
  method ScanAbstract(ps: seq<Paragraph>) returns (d: Detection)
    ensures d == AbstractScan(ps)
  {
    var count := Min(|ps|, 30);
    var marker := FindFirst(ps, AbstractKeep, count);
    var indices: seq<nat> := [];
    if marker.Some? {
      var i := marker.value;
      var hi := if |ps[i - 1].text| < 10 then Min(count, i + 6) else Min(count, i + 5);
      if |ps[i - 1].text| >= 10 {
        indices := [i];
      }
      var content := TakeUntil(ps, AbstractStop, i + 1, hi);
      indices := indices + content;
    }
    d := Detection("abstract", indices, if |indices| > 0 then High else Low, "text pattern");
  }

  /** The scanner roles, in the order `_runDetect` switches over them. */
  const SCANNED_ROLES: seq<string> := ["title", "heading_1", "heading_2", "heading_3", "heading_4",
                                       "abstract", "keywords", "body", "figure_caption", "table_caption",
                                       "references", "acknowledgment", "toc", "footnotes"]

  /** The roles whose cached indices the body scanner excludes. */
  const EXCLUDED_ROLES: seq<string> := ["title", "heading_1", "heading_2", "heading_3", "heading_4",
                                        "abstract", "keywords", "figure_caption", "table_caption",
                                        "references", "acknowledgment", "toc"]

  /** The indices cached for `roles`. */
  function CachedIndices(cache: map<string, Detection>, roles: seq<string>): set<nat>
  {
    if roles == [] then {}
    else (if roles[0] in cache then set x | x in cache[roles[0]].indices else {})
         + CachedIndices(cache, roles[1..])
  }

  /** `_runDetect(role)`: null without a document or for a role no scanner handles. */
  function RunDetect(role: string, doc: Option<Document>, cache: map<string, Detection>): (r: Option<Detection>)
    ensures r.Some? ==> doc.Some? && role in ROLE_SET
  {
    if doc.None? then None
    else
      var ps := doc.value.paragraphs;
      if role == "title" then Some(TitleScan(ps))
      else if role == "heading_1" then Some(HeadingsScan(ps, 1))
      else if role == "heading_2" then Some(HeadingsScan(ps, 2))
      else if role == "heading_3" then Some(HeadingsScan(ps, 3))
      else if role == "heading_4" then Some(HeadingsScan(ps, 4))
      else if role == "abstract" then Some(AbstractScan(ps))
      else if role == "keywords" then Some(KeywordsScan(ps))
      else if role == "body" then Some(BodyScan(ps, CachedIndices(cache, EXCLUDED_ROLES)))
      else if role == "figure_caption" then Some(PatternScan(ps, "figure_caption", FigureMarker))
      else if role == "table_caption" then Some(PatternScan(ps, "table_caption", TableMarker))
      else if role == "references" then Some(ReferencesScan(ps))
      else if role == "acknowledgment" then Some(AcknowledgmentScan(ps))
      else if role == "toc" then Some(TocScan(ps))
      else if role == "footnotes" then Some(FOOTNOTES)
      else None
  }

  // ---------------------------------------------------------------------------------------
  // The cache
  // ---------------------------------------------------------------------------------------

  /** The cache's two fields as a value. */
  datatype CacheState = CacheState(entries: map<string, Detection>, docKey: Option<string>)

  /** `_checkDocChanged`: a different document key empties the cache and is recorded. */
  function Checked(st: CacheState, key: Option<string>): (r: CacheState)
    ensures r.docKey == key
    ensures key != st.docKey ==> r.entries == map[]
    ensures key == st.docKey ==> r == st
  {
    if key != st.docKey then CacheState(map[], key) else st
  }

  /**
   * `detect(role)` given the document key, what the pass returns (`pass`) and what the role's own
   * scanner returns over a given cache (`scan`): the result and the cache state afterwards.
   */
  function DetectOutcome(st: CacheState, role: string, key: Option<string>,
                         pass: Option<map<string, Detection>>,
                         scan: map<string, Detection> -> Option<Detection>): (Option<Detection>, CacheState)
  {
    var s := Checked(st, key);
    if role in s.entries then (Some(s.entries[role]), s)
    else
      var filled := if s.entries == map[] && pass.Some? then s.(entries := pass.value) else s;
      if s.entries == map[] && role in filled.entries then (Some(filled.entries[role]), filled)
      else
        var r := scan(filled.entries);
        if r.Some? then (r, filled.(entries := filled.entries[role := r.value])) else (None, filled)
  }

  /** The scanner `_runDetect` uses for `role` over a given cache. */
  function ScannerOf(role: string, doc: Option<Document>): map<string, Detection> -> Option<Detection>
  {
    (cache: map<string, Detection>) => RunDetect(role, doc, cache)
  }

  /** A document-key change empties the cache before the lookup: detection then behaves as on a
      fresh cache for the new key. */
  lemma DetectAfterKeyChange(st: CacheState, role: string, key: Option<string>,
                             pass: Option<map<string, Detection>>, scan: map<string, Detection> -> Option<Detection>)
    requires key != st.docKey
    ensures DetectOutcome(st, role, key, pass, scan) == DetectOutcome(CacheState(map[], key), role, key, pass, scan)
    ensures DetectOutcome(st, role, key, pass, scan).1.docKey == key
  {
  }

  /** A cache hit returns the stored result and changes nothing. */
  lemma DetectHit(st: CacheState, role: string, pass: Option<map<string, Detection>>,
                  scan: map<string, Detection> -> Option<Detection>)
    requires role in st.entries
    ensures DetectOutcome(st, role, st.docKey, pass, scan) == (Some(st.entries[role]), st)
  {
  }

  /** A query on an empty cache for an open document runs the pass, which fills all 14 roles
      (footnotes with an empty list) and answers every one of them from the pass; the role's own
      scanner runs only for a role the pass does not produce. */
  lemma DetectFillsAllRoles(st: CacheState, role: string, doc: Option<Document>)
    requires doc.Some? && (DocKey(doc) != st.docKey || st.entries == map[])
    ensures var (r, s) := DetectOutcome(st, role, DocKey(doc), PassTable(doc), ScannerOf(role, doc));
            s.entries.Keys >= ROLE_SET && s.entries["footnotes"].indices == [] && s.docKey == DocKey(doc)
            && (role in ROLE_SET ==> r == Some(PassTable(doc).value[role]) && s.entries == PassTable(doc).value)
            && (role !in ROLE_SET ==> r.None?)
  {
  }

  /** A null result is not cached: the state is the one the document-key check left, plus the
      pass's results if it ran. */
  lemma DetectNullNotCached(st: CacheState, role: string, key: Option<string>,
                            pass: Option<map<string, Detection>>, scan: map<string, Detection> -> Option<Detection>)
    requires DetectOutcome(st, role, key, pass, scan).0.None?
    ensures role !in DetectOutcome(st, role, key, pass, scan).1.entries
    ensures Checked(st, key).entries != map[] ==> DetectOutcome(st, role, key, pass, scan).1 == Checked(st, key)
  {
  }

  /** `getIndices(role)`: null for an uncached role, else the cached list (an empty list stays empty). */
  function IndicesOutcome(st: CacheState, role: string, doc: Option<Document>): (r: (Option<seq<nat>>, CacheState))
    ensures r.1 == Checked(st, DocKey(doc))
    ensures r.0.None? <==> role !in r.1.entries
    ensures r.0.Some? ==> r.0.value == r.1.entries[role].indices
  {
    var s := Checked(st, DocKey(doc));
    if role in s.entries then (Some(s.entries[role].indices), s) else (None, s)
  }

  /** The cache object: `_cache` and `_docKey`, with the active document passed in. */
  class StructureCache {
    var entries: map<string, Detection>
    var docKey: Option<string>

    constructor ()
      ensures entries == map[] && docKey == None
    {
      entries := map[];
      docKey := None;
    }

    function State(): CacheState
      reads this
    {
      CacheState(entries, docKey)
    }

    method CheckDocChanged(doc: Option<Document>)
      modifies this
      ensures State() == Checked(old(State()), DocKey(doc))
    {
      var key := DocKey(doc);
      if key != docKey {
        entries := map[];
        docKey := key;
      }
    }

    method Detect(role: string, doc: Option<Document>) returns (r: Option<Detection>)
      modifies this
      ensures (r, State()) == DetectOutcome(old(State()), role, DocKey(doc), PassTable(doc), ScannerOf(role, doc))
    {
      CheckDocChanged(doc);
      if role in entries {
        return Some(entries[role]);
      }
      if entries == map[] {
        var all := DetectAllInOnePass(doc);
        if all.Some? {
          entries := all.value;
        }
        if role in entries {
          return Some(entries[role]);
        }
      }
      r := RunDetect(role, doc, entries);
      if r.Some? {
        entries := entries[role := r.value];
      }
    }

    method GetIndices(role: string, doc: Option<Document>) returns (r: Option<seq<nat>>)
      modifies this
      ensures (r, State()) == IndicesOutcome(old(State()), role, doc)
    {
      CheckDocChanged(doc);
      if role !in entries {
        return None;
      }
      r := Some(entries[role].indices);
    }

    /** `invalidate`: drops every entry and keeps the document key. */
    method Invalidate()
      modifies this
      ensures entries == map[] && docKey == old(docKey)
    {
      entries := map[];
    }
  }
}
