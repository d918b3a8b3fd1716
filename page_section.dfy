/**
 * The page, header/footer, page-number and section skills. Each one works on a
 * page setup or a section chosen from the `section` parameter; its effect is the
 * list of property writes and host calls it makes there.
 */
module PageSection {
  import opened Wrappers
  import opened Text
  import opened JsonValue
  import opened TextParagraph
  import SkillRegistry

  // ---------------------------------------------------------------- choosing the section

  /** The page setup a skill writes to: one section's, or the document's own. */
  datatype Setup = SectionSetup(index: real) | DocumentSetup

  /** `getPageSetup`: a section's setup only when the index is truthy and within 1..count. */
  function PageSetupOf(section: Option<Value>, sectionCount: nat): (r: Setup)
    ensures r.SectionSetup? ==> 1.0 <= r.index <= sectionCount as real
  {
    if TruthyOpt(section) && ToNumber(section.value).Some?
       && 1.0 <= ToNumber(section.value).value <= sectionCount as real
    then SectionSetup(ToNumber(section.value).value)
    else DocumentSetup
  }

  /** `getSection`: the index, 1 when it is falsy, and section 1 when it is out of range. */
  function SectionOf(section: Option<Value>, sectionCount: nat): (r: real)
  {
    var idx := if TruthyOpt(section) then ToNumber(section.value) else Some(1.0);
    if idx.Some? && 1.0 <= idx.value <= sectionCount as real then idx.value else 1.0
  }

  /** A section index in range selects that section's setup, anything else the document's;
      `getSection` falls back to section 1 in every case `getPageSetup` falls back. */
  lemma SectionChoice(section: Option<Value>, sectionCount: nat)
    ensures forall n: real :: section == Some(Value.Num(n)) && n != 0.0 ==>
              (PageSetupOf(section, sectionCount) == SectionSetup(n) <==> 1.0 <= n <= sectionCount as real)
    ensures TruthyOpt(section) ==>
              (PageSetupOf(section, sectionCount).SectionSetup? <==>
                 ToNumber(section.value).Some? && 1.0 <= ToNumber(section.value).value <= sectionCount as real)
    ensures PageSetupOf(section, sectionCount).SectionSetup? ==>
              PageSetupOf(section, sectionCount).index == ToNumber(section.value).value
    ensures PageSetupOf(section, sectionCount).DocumentSetup? && sectionCount >= 1 ==> SectionOf(section, sectionCount) == 1.0
    ensures !TruthyOpt(section) ==> PageSetupOf(section, sectionCount) == DocumentSetup && SectionOf(section, sectionCount) == 1.0
    ensures PageSetupOf(section, sectionCount).SectionSetup? ==>
              SectionOf(section, sectionCount) == PageSetupOf(section, sectionCount).index
  {
  }

  /** A section index written as the decimal string of `k`, such as `"2"`, selects section `k`
      when it is within 1..count, both for `getPageSetup` and for `getSection`. */
  lemma SectionChoiceText(k: int, sectionCount: nat)
    ensures PageSetupOf(Some(Str(IntToString(k))), sectionCount) ==
              if 1 <= k <= sectionCount then SectionSetup(k as real) else DocumentSetup
    ensures SectionOf(Some(Str(IntToString(k))), sectionCount) == if 1 <= k <= sectionCount then k as real else 1.0
  {
    var t := IntToString(k);
    assert |t| > 0 by {
      if k >= 0 { assert t == NatToString(k); }
    }
    NumberText(k);
  }

  // ---------------------------------------------------------------- page setup

  /** `page.margins.set`: each margin given is written to the chosen setup. */
  function MarginActions(params: Value): seq<Action>
  {
    PutIfGiven(params, "top", "TopMargin") + PutIfGiven(params, "bottom", "BottomMargin")
    + PutIfGiven(params, "left", "LeftMargin") + PutIfGiven(params, "right", "RightMargin")
    + PutIfGiven(params, "gutter", "Gutter")
  }

  /** `page.size.set`: a known paper name wins; else a truthy width and height; else nothing. */
  function SizeActions(params: Value): (r: seq<Action>)
    ensures |r| == 0 || |r| == 2
  {
    var paper := Get(params, "paperSize");
    var size := if TruthyOpt(paper) && paper.value.Str? then SkillRegistry.Find(SkillRegistry.PAPER_SIZES, paper.value.s) else None;
    if size.Some? then
      [Put("PageWidth", TextParagraph.Num(size.value.0)), Put("PageHeight", TextParagraph.Num(size.value.1))]
    else if TruthyOpt(Get(params, "width")) && TruthyOpt(Get(params, "height")) then
      [Put("PageWidth", Val(Get(params, "width").value)), Put("PageHeight", Val(Get(params, "height").value))]
    else []
  }

  /** A listed paper name sets its width and height even when a width and height are also given;
      an unlisted one falls back to a truthy width and height. */
  lemma PaperWins(params: Value, name: string)
    requires Get(params, "paperSize") == Some(Str(name)) && name != ""
    ensures var size := SkillRegistry.Find(SkillRegistry.PAPER_SIZES, name);
            size.Some? ==> SizeActions(params) == [Put("PageWidth", TextParagraph.Num(size.value.0)),
                                                   Put("PageHeight", TextParagraph.Num(size.value.1))]
    ensures var size := SkillRegistry.Find(SkillRegistry.PAPER_SIZES, name);
            size.None? && TruthyOpt(Get(params, "width")) && TruthyOpt(Get(params, "height")) ==>
              SizeActions(params) == [Put("PageWidth", Val(Get(params, "width").value)), Put("PageHeight", Val(Get(params, "height").value))]
  {
  }

  /** `page.orientation.set`: exactly `'landscape'` is 1; everything else, even absent, is 0. */
  function Orientation(orientation: Option<Value>): (r: int)
    ensures r == 1 <==> orientation == Some(Str("landscape"))
    ensures r == 0 || r == 1
  {
    if orientation == Some(Str("landscape")) then 1 else 0
  }

  // ---------------------------------------------------------------- headers and footers

  /** A listed alignment written to the paragraph format; an unlisted or falsy one writes nothing. */
  function AlignmentActions(alignment: Option<Value>): (r: seq<Action>)
    ensures |r| <= 1
  {
    var align := if TruthyOpt(alignment) && alignment.value.Str? then SkillRegistry.Find(SkillRegistry.ALIGNMENTS, alignment.value.s) else None;
    if align.Some? then [Put("ParagraphFormat.Alignment", TextParagraph.Num(align.value as real))] else []
  }

  /** `header.set` and `footer.set`: the text (empty when falsy), then the font name to three
      font properties, the size and a listed alignment, each only when given truthy. */
  function HeaderFooterActions(params: Value): (r: seq<Action>)
    ensures r != [] && r[0].Put? && r[0].prop == "Text"
    ensures !TruthyOpt(Get(params, "text")) ==> r[0] == Put("Text", Val(Str("")))
    ensures TruthyOpt(Get(params, "text")) ==> r[0] == Put("Text", Val(Get(params, "text").value))
  {
    var text := Get(params, "text");
    var font := Get(params, "fontName");
    var size := Get(params, "fontSize");
    [Put("Text", if TruthyOpt(text) then Val(text.value) else Val(Str("")))]
    + (if TruthyOpt(font) then [Put("Font.Name", Val(font.value)), Put("Font.NameFarEast", Val(font.value)), Put("Font.NameAscii", Val(font.value))] else [])
    + (if TruthyOpt(size) then [Put("Font.Size", Val(size.value))] else [])
    + AlignmentActions(Get(params, "alignment"))
  }

  /** Each listed alignment name writes its own index, `'left'` included (its 0 is kept, as only
      a missing entry is skipped). */
  lemma HeaderFooterAlignment(alignment: Option<Value>, i: nat)
    requires i < 4 && alignment == Some(Str(SkillRegistry.Keys(SkillRegistry.ALIGNMENTS)[i]))
    ensures AlignmentActions(alignment) == [Put("ParagraphFormat.Alignment", TextParagraph.Num(i as real))]
  {
    AlignmentNamed(i);
    assert TruthyOpt(alignment);
  }

  /** The i-th alignment name is a non-empty string that looks up to i. */
  lemma AlignmentNamed(i: nat)
    requires i < 4
    ensures SkillRegistry.Keys(SkillRegistry.ALIGNMENTS)[i] != ""
    ensures SkillRegistry.Find(SkillRegistry.ALIGNMENTS, SkillRegistry.Keys(SkillRegistry.ALIGNMENTS)[i]) == Some(i)
  {
    SkillRegistry.AlignmentBijective();
  }

  /** A name outside the alignment table writes nothing. */
  lemma HeaderFooterUnknownAlignment(alignment: Option<Value>)
    requires alignment.Some? && alignment.value.Str? && alignment.value.s !in SkillRegistry.Keys(SkillRegistry.ALIGNMENTS)
    ensures AlignmentActions(alignment) == []
  {
    assert forall i :: 0 <= i < |SkillRegistry.ALIGNMENTS| ==> SkillRegistry.ALIGNMENTS[i].0 != alignment.value.s;
  }

  /** `header.clear` and `footer.clear`: the text becomes empty. */
  const CLEAR_ACTIONS: seq<Action> := [Put("Text", Val(Str("")))]

  // ---------------------------------------------------------------- page numbers

  /** The page-number styles: arabic, lower-case roman, upper-case roman. */
  function NumberStyleEntry(name: string): Option<int>
  {
    match name
    case "arabic" => Some(0)
    case "roman_lower" => Some(1)
    case "roman_upper" => Some(2)
    case _ => None
  }

  /** `numberStyleMap[params.format] || 0`. */
  function NumberStyle(format: Option<Value>): (r: int)
    ensures 0 <= r <= 2
    ensures format.Some? && format.value.Str? && NumberStyleEntry(format.value.s).Some? ==> r == NumberStyleEntry(format.value.s).value
  {
    var found := if format.Some? && format.value.Str? then NumberStyleEntry(format.value.s) else None;
    if found.Some? then found.value else 0
  }

  /** The page-number positions: left, centre, right, at the top or the bottom. */
  function PositionEntry(name: string): Option<int>
  {
    match name
    case "bottom_left" => Some(0)
    case "bottom_center" => Some(1)
    case "bottom_right" => Some(2)
    case "top_left" => Some(0)
    case "top_center" => Some(1)
    case "top_right" => Some(2)
    case _ => None
  }

  /** `alignMap[params.position] || 1`: a left position's 0 is falsy, so it becomes centre. */
  function NumberAlignment(position: Option<Value>): int
  {
    var found := if position.Some? && position.value.Str? then PositionEntry(position.value.s) else None;
    if found.Some? && found.value != 0 then found.value else 1
  }

  /** What `page_number.set` does: the numbers go in the header or the footer, get a style, and are
      added with an alignment only when that header or footer has none yet. */
  datatype PageNumberPlan = PageNumberPlan(inHeader: bool, style: int, add: Option<int>)

  /** `page_number.set`, given how many page numbers the chosen header or footer already has.
      `(params.position || '').startsWith` throws for a truthy position that is not a string. */
  function PageNumberSet(params: Value, existing: nat): (r: Result<PageNumberPlan, string>)
    ensures r.Err? <==> TruthyOpt(Get(params, "position")) && !Get(params, "position").value.Str?
  {
    var position := Get(params, "position");
    if TruthyOpt(position) && !position.value.Str? then Err("startsWith is not a function")
    else
      var p := if TruthyOpt(position) then position.value.s else "";
      Ok(PageNumberPlan(StartsWith(p, "top_"), NumberStyle(Get(params, "format")),
                        if existing == 0 then Some(NumberAlignment(position)) else None))
  }

  /** Numbers are added only where none exist; a left position is added centred, right stays
      right, and a missing or unknown position is centred in the footer. */
  lemma PageNumberCases(params: Value, existing: nat)
    requires PageNumberSet(params, existing).Ok?
    ensures var plan := PageNumberSet(params, existing).value;
            (plan.add.Some? <==> existing == 0)
            && (plan.add.Some? ==> plan.add.value in {1, 2})
    ensures Get(params, "position") == Some(Str("bottom_left")) && existing == 0 ==>
              PageNumberSet(params, existing).value == PageNumberPlan(false, NumberStyle(Get(params, "format")), Some(1))
    ensures Get(params, "position") == Some(Str("top_right")) && existing == 0 ==>
              PageNumberSet(params, existing).value == PageNumberPlan(true, NumberStyle(Get(params, "format")), Some(2))
    ensures !TruthyOpt(Get(params, "position")) ==> !PageNumberSet(params, existing).value.inHeader
  {
    var position := Get(params, "position");
    if position == Some(Str("top_right")) {
      assert StartsWith("top_right", "top_");
    }
    if position == Some(Str("bottom_left")) {
      assert "bottom_left"[..4][0] != "top_"[0];
    }
  }

  /** `page_number.restart`: unlink header and footer from the previous section, restart the footer's
      numbers at `startFrom || 1`, and set the style only when `format` is truthy. */
  function RestartActions(params: Value): (r: seq<Action>)
  {
    var start := Get(params, "startFrom");
    [Put("Headers.LinkToPrevious", Val(Bool(false))), Put("Footers.LinkToPrevious", Val(Bool(false))),
     Put("PageNumbers.RestartNumberingAtSection", Val(Bool(true))),
     Put("PageNumbers.StartingNumber", if TruthyOpt(start) then Val(start.value) else TextParagraph.Num(1.0))]
    + (if TruthyOpt(Get(params, "format")) then [Put("PageNumbers.NumberStyle", TextParagraph.Num(NumberStyle(Get(params, "format")) as real))] else [])
  }

  /** Restarting always unlinks both and restarts the numbering; it starts at a truthy
      `startFrom` as given, and at 1 for every falsy one (absent, null, 0, "", false); a truthy
      `format` adds its number style as the fifth and last write. */
  lemma RestartStart(params: Value)
    ensures var r := RestartActions(params);
            |r| >= 4 && r[0] == Put("Headers.LinkToPrevious", Val(Bool(false)))
            && r[1] == Put("Footers.LinkToPrevious", Val(Bool(false)))
            && r[2] == Put("PageNumbers.RestartNumberingAtSection", Val(Bool(true)))
    ensures Get(params, "startFrom") == Some(Value.Num(0.0)) || Get(params, "startFrom").None? ==>
              RestartActions(params)[3] == Put("PageNumbers.StartingNumber", TextParagraph.Num(1.0))
    ensures TruthyOpt(Get(params, "startFrom")) ==>
              RestartActions(params)[3] == Put("PageNumbers.StartingNumber", Val(Get(params, "startFrom").value))
    ensures !TruthyOpt(Get(params, "startFrom")) ==>
              RestartActions(params)[3] == Put("PageNumbers.StartingNumber", TextParagraph.Num(1.0))
    ensures !TruthyOpt(Get(params, "format")) ==> |RestartActions(params)| == 4
    ensures TruthyOpt(Get(params, "format")) ==>
              |RestartActions(params)| == 5
              && RestartActions(params)[4] == Put("PageNumbers.NumberStyle", TextParagraph.Num(NumberStyle(Get(params, "format")) as real))
  {
  }

  /** Every falsy `startFrom` restarts at 1. */
  lemma RestartFalsyStarts(params: Value)
    requires Get(params, "startFrom") in {None, Some(Null), Some(Value.Num(0.0)), Some(Str("")), Some(Bool(false))}
    ensures RestartActions(params)[3] == Put("PageNumbers.StartingNumber", TextParagraph.Num(1.0))
  {
  }

  // ---------------------------------------------------------------- section breaks

  /** The break kinds: next page, continuous, even page, odd page. */
  function BreakTypeEntry(name: string): Option<int>
  {
    match name
    case "nextPage" => Some(2)
    case "continuous" => Some(3)
    case "evenPage" => Some(4)
    case "oddPage" => Some(5)
    case _ => None
  }

  /** `breakTypeMap[params.breakType] || 2`: next page unless a listed kind is named. */
  function BreakType(breakType: Option<Value>): (r: int)
    ensures 2 <= r <= 5
    ensures !(breakType.Some? && breakType.value.Str? && BreakTypeEntry(breakType.value.s).Some?) ==> r == 2
  {
    var found := if breakType.Some? && breakType.value.Str? then BreakTypeEntry(breakType.value.s) else None;
    if found.Some? then found.value else 2
  }

  function Reverse(s: seq<int>): (r: seq<int>)
    ensures |r| == |s| && forall i :: 0 <= i < |s| ==> r[i] == s[|s| - 1 - i]
  {
    if s == [] then [] else Reverse(s[1..]) + [s[0]]
  }

  /** The descending sort `slice().sort((a, b) => b - a)`. */
  function SortDesc(s: seq<int>): seq<int>
  {
    Reverse(SortAsc(s))
  }

  /** The insertion order is non-increasing and uses every index once per occurrence. */
  lemma SortDescShape(s: seq<int>)
    ensures forall i, j :: 0 <= i < j < |SortDesc(s)| ==> SortDesc(s)[i] >= SortDesc(s)[j]
    ensures multiset(SortDesc(s)) == multiset(s)
  {
    var a := SortAsc(s);
    ReverseMultiset(a);
  }

  lemma {:induction false} ReverseMultiset(s: seq<int>)
    ensures multiset(Reverse(s)) == multiset(s)
  {
    if s != [] {
      ReverseMultiset(s[1..]);
      assert s == [s[0]] + s[1..];
    }
  }

  /** Where `section.break.insert` inserts: each paragraph of an index list, last first, so that
      inserting a break never moves a paragraph still to be visited; a range once; nothing else. */
  datatype BreakSite = AtParagraph(index: int) | AtRange(range: Range)

  /** The break loop as written: the indices sorted in descending order, one insertion each. */
  method BreakSites(target: Target) returns (sites: seq<BreakSite>)
    ensures target.Indices? ==>
              (|sites| == |target.indices| && forall i :: 0 <= i < |sites| ==> sites[i] == AtParagraph(SortDesc(target.indices)[i]))
    ensures target.Given? ==> sites == [AtRange(target.range)]
    ensures target.NoTarget? ==> sites == []
  {
    match target {
      case Indices(indices) =>
        var sorted := SortDesc(indices);
        sites := [];
        var i := 0;
        while i < |sorted|
          invariant 0 <= i <= |sorted| == |indices|
          invariant |sites| == i && forall k :: 0 <= k < i ==> sites[k] == AtParagraph(sorted[k])
          decreases |sorted| - i
        {
          sites := sites + [AtParagraph(sorted[i])];
          i := i + 1;
        }
      case Given(range) =>
        sites := [AtRange(range)];
      case NoTarget =>
        sites := [];
    }
  }

  // ---------------------------------------------------------------- page break before, keep with next

  /** The paragraphs of an index list inside 1..count, in list order: the others are skipped. */
  function InRange(indices: seq<int>, count: nat): (r: seq<int>)
    ensures forall k :: 0 <= k < |r| ==> 1 <= r[k] <= count && r[k] in indices
    ensures forall x :: x in indices && 1 <= x <= count ==> x in r
    ensures |r| <= |indices|
  {
    if indices == [] then []
    else
      var rest := InRange(indices[1..], count);
      assert forall x :: x in indices[1..] ==> x in indices;
      if 1 <= indices[0] <= count then [indices[0]] + rest else rest
  }

  /** The in-range indices keep their list order: the marks of a concatenated list are the marks
      of its first part followed by those of its second, and one index is marked iff it is in
      range. */
  lemma {:induction false} InRangeOrder(a: seq<int>, b: seq<int>, count: nat)
    ensures InRange(a + b, count) == InRange(a, count) + InRange(b, count)
    ensures forall x :: InRange([x], count) == if 1 <= x <= count then [x] else []
  {
    forall x ensures InRange([x], count) == if 1 <= x <= count then [x] else [] {
      assert [x][1..] == [];
    }
    InRangeAppend(a, b, count);
  }

  /** The concatenation law of `InRange`, by induction on the first part. */
  lemma {:induction false} InRangeAppend(a: seq<int>, b: seq<int>, count: nat)
    ensures InRange(a + b, count) == InRange(a, count) + InRange(b, count)
    decreases |a|
  {
    if a == [] {
      assert a + b == b;
    } else {
      var ab := a + b;
      assert ab[0] == a[0] && ab[1..] == a[1..] + b;
      InRangeAppend(a[1..], b, count);
      var ra := InRange(a[1..], count);
      var rb := InRange(b, count);
      if 1 <= a[0] <= count {
        assert InRange(ab, count) == [a[0]] + (ra + rb);
        assert InRange(a, count) == [a[0]] + ra;
        Seqs.AppendAssoc([a[0]], ra, rb);
      } else {
        assert InRange(ab, count) == ra + rb;
        assert InRange(a, count) == ra;
      }
    }
  }

  /** `1..n`, the paragraphs of a range. */
  function Upto(n: nat): (r: seq<int>)
    ensures |r| == n && forall k :: 0 <= k < n ==> r[k] == k + 1
  {
    if n == 0 then [] else Upto(n - 1) + [n]
  }

  /** The paragraphs `section.page_break_before` and `section.keep_with_next` mark, as written:
      each listed index within 1..`paragraphCount`, or paragraphs 1..`rangeParagraphs` of a range. */
  method MarkedParagraphs(target: Target, paragraphCount: nat, rangeParagraphs: nat) returns (marked: seq<int>)
    ensures target.Indices? ==> marked == InRange(target.indices, paragraphCount)
    ensures target.Given? ==> marked == Upto(rangeParagraphs)
    ensures target.NoTarget? ==> marked == []
  {
    match target {
      case Indices(indices) =>
        marked := [];
        var i := 0;
        while i < |indices|
          invariant 0 <= i <= |indices|
          invariant marked + InRange(indices[i..], paragraphCount) == InRange(indices, paragraphCount)
          decreases |indices| - i
        {
          var idx := indices[i];
          assert indices[i..] == [idx] + indices[i + 1..];
          if 1 <= idx <= paragraphCount {
            Seqs.AppendAssoc(marked, [idx], InRange(indices[i + 1..], paragraphCount));
            marked := marked + [idx];
          }
          i := i + 1;
        }
        assert indices[i..] == [];
        assert marked + [] == marked;
      case Given(_) =>
        marked := [];
        var j := 1;
        while j <= rangeParagraphs
          invariant 1 <= j <= rangeParagraphs + 1 && marked == Upto(j - 1)
          decreases rangeParagraphs + 1 - j
        {
          marked := marked + [j];
          j := j + 1;
        }
      case NoTarget =>
        marked := [];
    }
  }

  /** The property each marking skill sets to the host's true (-1). */
  function MarkProperty(skill: string): Option<string>
  {
    if skill == "section.page_break_before" then Some("Format.PageBreakBefore")
    else if skill == "section.keep_with_next" then Some("Format.KeepWithNext")
    else None
  }
}
