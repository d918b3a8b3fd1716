/**
 * The local part of the AI skill: cutting a document's text into chunks of about
 * `chunkSize` characters along line boundaries, and merging the variables the chunks
 * yield so that each tag survives once.
 */
module AiSkill {
  import opened Wrappers
  import opened Text
  import opened JsonValue
  import Seqs

  const AI_SKILL_CHUNK_SIZE := 1000

  // ---------------------------------------------------------------- lines

  /** `s.split(re)` for a regex matching one character: the pieces between separators. */
  function SplitWhere(s: string, sep: char -> bool): (r: seq<string>)
    ensures |r| >= 1
    ensures forall k :: 0 <= k < |r| ==> forall j :: 0 <= j < |r[k]| ==> !sep(r[k][j])
  {
    if s == [] then [""]
    else
      var r := SplitWhere(s[..|s| - 1], sep);
      var c := s[|s| - 1];
      if sep(c) then r + [""] else r[..|r| - 1] + [r[|r| - 1] + [c]]
  }

  /** `.map(l => l.trim()).filter(l => l)`. */
  function NonEmptyTrimmed(pieces: seq<string>): (r: seq<string>)
    ensures |r| <= |pieces|
    ensures forall k :: 0 <= k < |r| ==> TrimmedLine(r[k])
  {
    if pieces == [] then []
    else
      var prev := NonEmptyTrimmed(pieces[..|pieces| - 1]);
      var last := TrimmedPiece(pieces[|pieces| - 1]);
      TrimmedAppend(prev, last);
      prev + last
  }

  /** One piece trimmed: nothing when it is blank. */
  function TrimmedPiece(piece: string): (r: seq<string>)
    ensures |r| <= 1 && forall k :: 0 <= k < |r| ==> TrimmedLine(r[k])
  {
    var t := Trim(piece);
    TrimBare(piece);
    if |t| > 0 then [t] else []
  }

  /** What `trim` leaves, when anything, is a line with no outer blanks. */
  lemma TrimBare(piece: string)
    ensures |Trim(piece)| > 0 ==> TrimmedLine(Trim(piece))
  {
  }

  lemma TrimmedAppend(a: seq<string>, b: seq<string>)
    requires forall k :: 0 <= k < |a| ==> TrimmedLine(a[k])
    requires forall k :: 0 <= k < |b| ==> TrimmedLine(b[k])
    ensures forall k :: 0 <= k < |a + b| ==> TrimmedLine((a + b)[k])
  {
    forall k | 0 <= k < |a + b|
      ensures TrimmedLine((a + b)[k])
    {
      if k < |a| { assert (a + b)[k] == a[k]; } else { assert (a + b)[k] == b[k - |a|]; }
    }
  }

  /** A non-empty text with no white space at either end. */
  predicate TrimmedLine(s: string) { s != "" && !IsSpace(s[0]) && !IsSpace(s[|s| - 1]) }

  predicate IsLineBreak(c: char) { c == '\r' || c == '\n' }

  /** `。！？；`, the fallback separators. */
  predicate IsSentenceEnd(c: char) { c == '。' || c == '！' || c == '？' || c == '；' }

  /**
   * The lines of a text: `\r\n` and `\r` turned into `\n`, split, trimmed, blanks dropped.
   * Splitting at every `\r` and `\n` gives the same lines, because the extra piece between
   * `\r` and `\n` is blank. One line longer than the chunk size is split at sentence ends
   * of the original text instead.
   */
  function LinesOf(text: string, chunkSize: int): (lines: seq<string>)
    ensures forall k :: 0 <= k < |lines| ==> TrimmedLine(lines[k])
  {
    var byLine := NonEmptyTrimmed(SplitWhere(text, IsLineBreak));
    if |byLine| == 1 && |byLine[0]| > chunkSize then NonEmptyTrimmed(SplitWhere(text, IsSentenceEnd)) else byLine
  }

  // ---------------------------------------------------------------- chunks

  /** The lines of all groups, in order. */
  function Concat(groups: seq<seq<string>>): seq<string>
  {
    if groups == [] then [] else groups[0] + Concat(groups[1..])
  }

  lemma {:induction false} ConcatAppend(a: seq<seq<string>>, b: seq<seq<string>>)
    ensures Concat(a + b) == Concat(a) + Concat(b)
  {
    if a != [] {
      assert (a + b)[0] == a[0] && (a + b)[1..] == a[1..] + b;
      ConcatAppend(a[1..], b);
      assert Concat(a + b) == a[0] + (Concat(a[1..]) + Concat(b));
    } else {
      assert a + b == b;
    }
  }

  lemma ConcatSingle(g: seq<string>)
    ensures Concat([g]) == g
  {
    assert [g][1..] == [];
  }

  /** Every group of `a + b` obeys the size rule when every group of each part does. */
  lemma AllFitAppend(a: seq<seq<string>>, b: seq<seq<string>>, chunkSize: int)
    requires forall k :: 0 <= k < |a| ==> Fits(a[k], chunkSize)
    requires forall k :: 0 <= k < |b| ==> Fits(b[k], chunkSize)
    ensures forall k :: 0 <= k < |a + b| ==> Fits((a + b)[k], chunkSize)
  {
    forall k | 0 <= k < |a + b|
      ensures Fits((a + b)[k], chunkSize)
    {
      if k < |a| { assert (a + b)[k] == a[k]; } else { assert (a + b)[k] == b[k - |a|]; }
    }
  }

  /** A chunk's lines: one line of at least the chunk size, or lines whose joined length fits. */
  predicate Fits(group: seq<string>, chunkSize: int)
  {
    group != [] && ((|group| == 1 && |group[0]| >= chunkSize) || |Join(group, "\n")| <= chunkSize)
  }

  /** The chunks are the groups joined with `\n`; the groups hold the lines, in order, each
      group within the size rule. */
  ghost predicate ChunkedAs(chunks: seq<string>, groups: seq<seq<string>>, lines: seq<string>, chunkSize: int)
  {
    && |chunks| == |groups|
    && (forall k :: 0 <= k < |groups| ==> chunks[k] == Join(groups[k], "\n") && Fits(groups[k], chunkSize))
    && Concat(groups) == lines
  }

  lemma {:induction false} JoinSnoc(parts: seq<string>, x: string, sep: string)
    requires parts != []
    ensures Join(parts + [x], sep) == Join(parts, sep) + sep + x
  {
    if |parts| > 1 {
      assert (parts + [x])[1..] == parts[1..] + [x];
      JoinSnoc(parts[1..], x, sep);
    }
  }

  /** Each group joined with `\n`: the chunk texts. */
  function Joined(groups: seq<seq<string>>): (r: seq<string>)
    ensures |r| == |groups|
    ensures forall k :: 0 <= k < |groups| ==> r[k] == Join(groups[k], "\n")
  {
    seq(|groups|, k requires 0 <= k < |groups| => Join(groups[k], "\n"))
  }

  /**
   * The greedy rule of `chunkDocument` over the lines still to come, from the open group
   * `parts` and its running length. A line of at least the chunk size closes the open group
   * and stands alone. A line that would take a non-zero running length, plus the line and
   * one separator, past the size closes the open group and opens a new one whose running
   * length is the line's length alone. Any other line joins the open group and adds its
   * length and one separator. The last open group is closed at the end.
   */
  function Chunks(lines: seq<string>, chunkSize: int, parts: seq<string>, currentLength: int): seq<seq<string>>
    decreases |lines|
  {
    if lines == [] then Closed(parts)
    else
      var line, rest := lines[0], lines[1..];
      if |line| >= chunkSize then
        Closed(parts) + [[line]] + Chunks(rest, chunkSize, [], 0)
      else if currentLength > 0 && currentLength + |line| + 1 > chunkSize then
        [parts] + Chunks(rest, chunkSize, [line], |line|)
      else Chunks(rest, chunkSize, parts + [line], currentLength + |line| + 1)
  }

  /** The open group of the loop: empty exactly when its running length is 0; otherwise its
      lines are shorter than the chunk size, their join fits, and the running length is the
      join's length, possibly with one trailing separator counted. */
  predicate OpenGroup(parts: seq<string>, currentLength: int, chunkSize: int)
  {
    && (parts == [] <==> currentLength == 0)
    && (parts != [] ==> |Join(parts, "\n")| <= chunkSize && (forall k :: 0 <= k < |parts| ==> |parts[k]| < chunkSize))
    && (parts != [] ==> currentLength == |Join(parts, "\n")| || currentLength == |Join(parts, "\n")| + 1)
  }

  /** A line that joins the open group keeps it an open group. */
  lemma OpenGroupJoin(parts: seq<string>, currentLength: int, chunkSize: int, line: string)
    requires OpenGroup(parts, currentLength, chunkSize)
    requires line != "" && |line| < chunkSize
    requires !(currentLength > 0 && currentLength + |line| + 1 > chunkSize)
    ensures OpenGroup(parts + [line], currentLength + |line| + 1, chunkSize)
  {
    if parts != [] {
      JoinSnoc(parts, line, "\n");
      forall k | 0 <= k < |parts + [line]|
        ensures |(parts + [line])[k]| < chunkSize
      {
        if k < |parts| { assert (parts + [line])[k] == parts[k]; }
      }
    } else {
      assert Join([line], "\n") == line;
    }
  }

  /** A line that opens a new group makes an open group. */
  lemma OpenGroupNew(chunkSize: int, line: string)
    requires line != "" && |line| < chunkSize
    ensures OpenGroup([line], |line|, chunkSize)
  {
    assert Join([line], "\n") == line;
  }

  /** The open group obeys the size rule once it is closed. */
  lemma OpenGroupFits(parts: seq<string>, currentLength: int, chunkSize: int)
    requires OpenGroup(parts, currentLength, chunkSize) && parts != []
    ensures Fits(parts, chunkSize)
  {
  }

  /** The groups closed before the lines to come: the open group, if any. */
  function Closed(parts: seq<string>): (r: seq<seq<string>>)
    ensures Concat(r) == parts
  {
    if parts != [] then (ConcatSingle(parts); [parts]) else []
  }

  /** The greedy groups hold the open group and the lines to come, in order. */
  lemma {:induction false} ChunksConcat(lines: seq<string>, chunkSize: int, parts: seq<string>, currentLength: int)
    ensures Concat(Chunks(lines, chunkSize, parts, currentLength)) == parts + lines
    decreases |lines|
  {
    var gs := Chunks(lines, chunkSize, parts, currentLength);
    var pre := Closed(parts);
    if lines == [] {
      assert gs == pre;
    } else {
      var line, rest := lines[0], lines[1..];
      assert lines == [line] + rest;
      if |line| >= chunkSize {
        ChunksConcat(rest, chunkSize, [], 0);
        var tail := Chunks(rest, chunkSize, [], 0);
        assert gs == (pre + [[line]]) + tail;
        ConcatAppend(pre + [[line]], tail);
        ConcatAppend(pre, [[line]]);
        ConcatSingle([line]);
      } else if currentLength > 0 && currentLength + |line| + 1 > chunkSize {
        ChunksConcat(rest, chunkSize, [line], |line|);
        var tail := Chunks(rest, chunkSize, [line], |line|);
        assert gs == [parts] + tail;
        ConcatAppend([parts], tail);
        ConcatSingle(parts);
      } else {
        ChunksConcat(rest, chunkSize, parts + [line], currentLength + |line| + 1);
      }
    }
  }

  /** Every greedy group obeys the size rule. */
  lemma {:induction false} ChunksFit(lines: seq<string>, chunkSize: int, parts: seq<string>, currentLength: int)
    requires forall k :: 0 <= k < |lines| ==> lines[k] != ""
    requires OpenGroup(parts, currentLength, chunkSize)
    ensures forall k :: 0 <= k < |Chunks(lines, chunkSize, parts, currentLength)| ==>
              Fits(Chunks(lines, chunkSize, parts, currentLength)[k], chunkSize)
    decreases |lines|
  {
    var gs := Chunks(lines, chunkSize, parts, currentLength);
    var pre := Closed(parts);
    assert forall k :: 0 <= k < |pre| ==> Fits(pre[k], chunkSize) by {
      if parts != [] { OpenGroupFits(parts, currentLength, chunkSize); }
    }
    if lines != [] {
      var line, rest := lines[0], lines[1..];
      assert forall k :: 0 <= k < |rest| ==> rest[k] == lines[k + 1];
      if |line| >= chunkSize {
        ChunksFit(rest, chunkSize, [], 0);
        var tail := Chunks(rest, chunkSize, [], 0);
        assert gs == (pre + [[line]]) + tail;
        assert Fits([line], chunkSize);
        AllFitAppend(pre, [[line]], chunkSize);
        AllFitAppend(pre + [[line]], tail, chunkSize);
      } else if currentLength > 0 && currentLength + |line| + 1 > chunkSize {
        OpenGroupNew(chunkSize, line);
        ChunksFit(rest, chunkSize, [line], |line|);
        var tail := Chunks(rest, chunkSize, [line], |line|);
        assert gs == [parts] + tail;
        AllFitAppend([parts], tail, chunkSize);
      } else {
        OpenGroupJoin(parts, currentLength, chunkSize, line);
        ChunksFit(rest, chunkSize, parts + [line], currentLength + |line| + 1);
      }
    }
  }

  /** The greedy groups of non-empty lines are a grouping of those lines within the size rule. */
  lemma GreedyChunked(lines: seq<string>, chunkSize: int)
    requires forall k :: 0 <= k < |lines| ==> lines[k] != ""
    ensures ChunkedAs(Joined(Chunks(lines, chunkSize, [], 0)), Chunks(lines, chunkSize, [], 0), lines, chunkSize)
  {
    ChunksConcat(lines, chunkSize, [], 0);
    ChunksFit(lines, chunkSize, [], 0);
  }

  /** The running length counts a trailing separator after a line that joined a group but
      not after a line that opened one: with size 5, `ab` then `cd` are cut apart although
      `ab\ncd` has 5 characters, while `cd` then `ef` share a chunk. */
  lemma ChunksSeparatorCount()
    ensures Chunks(["ab", "cd", "ef"], 5, [], 0) == [["ab"], ["cd", "ef"]]
  {
    var lines := ["ab", "cd", "ef"];
    assert lines[1..] == ["cd", "ef"] && ["cd", "ef"][1..] == ["ef"] && ["ef"][1..] == [];
    assert ["ab"] + ["cd"] == ["ab", "cd"] && ["cd"] + ["ef"] == ["cd", "ef"];
    assert Chunks([], 5, ["cd", "ef"], 5) == [["cd", "ef"]];
    assert Chunks(["ef"], 5, ["cd"], 2) == Chunks([], 5, ["cd", "ef"], 5);
    assert Chunks(["cd", "ef"], 5, ["ab"], 3) == [["ab"]] + Chunks(["ef"], 5, ["cd"], 2);
    assert Chunks(lines, 5, [], 0) == Chunks(["cd", "ef"], 5, [] + ["ab"], 0 + 2 + 1);
    assert [] + ["ab"] == ["ab"];
  }

  /** The greedy loop of `chunkDocument` over non-empty lines. */
  method GroupLines(lines: seq<string>, chunkSize: int) returns (chunks: seq<string>)
    requires forall k :: 0 <= k < |lines| ==> lines[k] != ""
    ensures chunks == Joined(Chunks(lines, chunkSize, [], 0))
  {
    chunks := [];
    ghost var groups: seq<seq<string>> := [];
    var parts: seq<string> := [];
    var currentLength := 0;
    for i := 0 to |lines|
      invariant chunks == Joined(groups)
      invariant currentLength >= 0 && (parts == [] <==> currentLength == 0)
      invariant groups + Chunks(lines[i..], chunkSize, parts, currentLength) == Chunks(lines, chunkSize, [], 0)
    {
      var line := lines[i];
      ghost var rest := lines[i..];
      assert rest[0] == line && rest[1..] == lines[i + 1..];
      if |line| >= chunkSize {
        ChunksLongLine(rest, chunkSize, parts, currentLength, groups);
        ghost var pre := Closed(parts);
        if parts != [] {
          JoinedSnoc(groups, parts);
          chunks := chunks + [Join(parts, "\n")];
          parts, currentLength := [], 0;
        }
        JoinedSnoc(groups + pre, [line]);
        assert Join([line], "\n") == line;
        chunks := chunks + [line];
        groups := groups + pre + [[line]];
      } else if currentLength > 0 && currentLength + |line| + 1 > chunkSize {
        ChunksBreak(rest, chunkSize, parts, currentLength, groups);
        JoinedSnoc(groups, parts);
        chunks, groups := chunks + [Join(parts, "\n")], groups + [parts];
        parts, currentLength := [line], |line|;
      } else {
        parts := parts + [line];
        currentLength := currentLength + |line| + 1;
      }
    }
    if parts != [] {
      JoinedSnoc(groups, parts);
      chunks, groups := chunks + [Join(parts, "\n")], groups + [parts];
    }
  }

  lemma JoinedSnoc(groups: seq<seq<string>>, g: seq<string>)
    ensures Joined(groups + [g]) == Joined(groups) + [Join(g, "\n")]
  {
  }

  /** One step of the greedy rule for a line of at least the chunk size, after the groups
      already closed. */
  lemma ChunksLongLine(lines: seq<string>, chunkSize: int, parts: seq<string>, currentLength: int, groups: seq<seq<string>>)
    requires lines != [] && |lines[0]| >= chunkSize
    ensures groups + Chunks(lines, chunkSize, parts, currentLength)
         == (groups + Closed(parts) + [[lines[0]]]) + Chunks(lines[1..], chunkSize, [], 0)
  {
  }

  /** One step of the greedy rule for a line that closes the open group. */
  lemma ChunksBreak(lines: seq<string>, chunkSize: int, parts: seq<string>, currentLength: int, groups: seq<seq<string>>)
    requires lines != [] && |lines[0]| < chunkSize && currentLength > 0 && currentLength + |lines[0]| + 1 > chunkSize
    ensures groups + Chunks(lines, chunkSize, parts, currentLength)
         == (groups + [parts]) + Chunks(lines[1..], chunkSize, [lines[0]], |lines[0]|)
  {
  }

  /** What `chunkDocument` returns: an empty or short text, or a text without lines, is one
      chunk; otherwise the greedy chunks of its lines. */
  function DocumentChunks(text: string, chunkSize: int): seq<string>
  {
    if text == "" || |text| <= chunkSize then [text]
    else
      var lines := LinesOf(text, chunkSize);
      if lines == [] then [text] else Joined(Chunks(lines, chunkSize, [], 0))
  }

  /** A long text with lines is cut into chunks that hold its lines in order, each chunk a
      single over-long line or lines whose join fits in the chunk size. */
  lemma DocumentChunksMeaning(text: string, chunkSize: int)
    ensures text == "" || |text| <= chunkSize || LinesOf(text, chunkSize) == [] ==> DocumentChunks(text, chunkSize) == [text]
    ensures text != "" && |text| > chunkSize && LinesOf(text, chunkSize) != [] ==>
              ChunkedAs(DocumentChunks(text, chunkSize), Chunks(LinesOf(text, chunkSize), chunkSize, [], 0),
                        LinesOf(text, chunkSize), chunkSize)
  {
    if text != "" && |text| > chunkSize && LinesOf(text, chunkSize) != [] {
      GreedyChunked(LinesOf(text, chunkSize), chunkSize);
    }
  }

  /** `chunkDocument`. */
  method ChunkDocument(text: string, chunkSize: int) returns (chunks: seq<string>)
    ensures chunks == DocumentChunks(text, chunkSize)
  {
    if text == "" || |text| <= chunkSize {
      return [text];
    }
    var lines := LinesOf(text, chunkSize);
    if lines == [] {
      return [text];
    }
    chunks := GroupLines(lines, chunkSize);
  }

  // ---------------------------------------------------------------- deduplication

  /** `confidencePriority[variable.confidence || 'medium']`; `None` is `undefined`, which
      compares false with everything. */
  function Priority(v: Value): Option<int>
  {
    var c := Get(v, "confidence");
    if !TruthyOpt(c) then Some(2)
    else if c.value == Str("high") then Some(3)
    else if c.value == Str("medium") then Some(2)
    else if c.value == Str("low") then Some(1)
    else None
  }

  /** `variable.layer || 1`. */
  function Layer(v: Value): Value
  {
    var l := Get(v, "layer");
    if TruthyOpt(l) then l.value else Num(1.0)
  }

  /**
   * The replacement rule: a higher known confidence, or the same confidence lookup and a
   * lower layer by `<`. Two unknown confidences are both `undefined`, which `===` finds
   * equal, so their layers decide.
   */
  predicate Beats(v: Value, existing: Value)
  {
    var pv, pe := Priority(v), Priority(existing);
    (pv.Some? && pe.Some? && pv.value > pe.value) || (pv == pe && JsLess(Layer(v), Layer(existing)))
  }

  /** Layers that are all strings or all not strings. */
  predicate SameKindLayers(a: Value, b: Value, c: Value)
  {
    (Layer(a).Str? <==> Layer(b).Str?) && (Layer(b).Str? <==> Layer(c).Str?)
  }

  /** The replacement rule never lets a variable beat itself, and it is transitive when the
      layers compared are all strings or all not strings. */
  lemma BeatsStrictOrder(a: Value, b: Value, c: Value)
    ensures !Beats(a, a)
    ensures SameKindLayers(a, b, c) && Beats(a, b) && Beats(b, c) ==> Beats(a, c)
  {
    JsLessOrder(Layer(a), Layer(b), Layer(c));
  }

  /** A variable of tag `A` with a truthy layer `x` and no confidence. */
  lemma LayeredVariable(x: Value)
    requires Truthy(x)
    ensures var v := Obj([("tag", Str("A")), ("layer", x)]);
            Priority(v) == Some(2) && Layer(v) == x && TagField(v) == Some(Str("A"))
  {
    var fields := [("tag", Str("A")), ("layer", x)];
    assert fields[0].0 != "layer" && fields[1].0 == "layer" && fields[1..] == [("layer", x)];
    assert Lookup(fields, "layer") == Some(x);
    assert fields[0].0 != "confidence" && fields[1].0 != "confidence" && fields[1..][1..] == [];
    assert Lookup(fields, "confidence") == None;
  }

  /** `"10" < "9"`, `"9" < 9.5` and `9.5 < "10"`. */
  lemma MixedLess()
    ensures JsLess(Str("10"), Str("9")) && JsLess(Str("9"), Num(9.5)) && JsLess(Num(9.5), Str("10"))
    ensures !JsLess(Str("10"), Num(9.5))
  {
    Text.TenRead();
    Text.NineRead();
  }

  /** With string and number layers mixed, `<` is not transitive. Of the variables with
      layers 9.5, `"10"` and `"9"` under one tag, the merge keeps the last although the
      second beats it. */
  lemma MixedLayersNotTransitive()
    ensures var a, b, c := Obj([("tag", Str("A")), ("layer", Num(9.5))]),
                          Obj([("tag", Str("A")), ("layer", Str("10"))]),
                          Obj([("tag", Str("A")), ("layer", Str("9"))]);
            && DedupBy([a, b, c], TagField, Beats).0 == [c]
            && Beats(b, c)
  {
    var a, b, c := Obj([("tag", Str("A")), ("layer", Num(9.5))]),
                   Obj([("tag", Str("A")), ("layer", Str("10"))]),
                   Obj([("tag", Str("A")), ("layer", Str("9"))]);
    LayeredVariable(Num(9.5));
    LayeredVariable(Str("10"));
    LayeredVariable(Str("9"));
    MixedLess();
    DedupThree(a, b, c, Str("A"), TagField, Beats);
  }

  /** Two unknown confidences are both `undefined` and so equal: their layers decide. Of
      two variables of tag `A` with confidence `高` and layers 2 then 1, the second replaces
      the first. */
  lemma UnknownConfidenceLayerDecides()
    ensures var a, b := Obj([("tag", Str("A")), ("confidence", Str("高")), ("layer", Num(2.0))]),
                        Obj([("tag", Str("A")), ("confidence", Str("高")), ("layer", Num(1.0))]);
            && Priority(a) == None && Priority(b) == None
            && DedupBy([a, b], TagField, Beats).0 == [b]
  {
    var a, b := Obj([("tag", Str("A")), ("confidence", Str("高")), ("layer", Num(2.0))]),
                Obj([("tag", Str("A")), ("confidence", Str("高")), ("layer", Num(1.0))]);
    UnknownConfidence(2.0);
    UnknownConfidence(1.0);
    assert JsLess(Num(1.0), Num(2.0));
    LayerDecides(b, a);
    DedupTwo(a, b, Str("A"), TagField, Beats);
  }

  /** Equal confidence lookups leave the decision to the layers. */
  lemma LayerDecides(v: Value, existing: Value)
    requires Priority(v) == Priority(existing) && JsLess(Layer(v), Layer(existing))
    ensures Beats(v, existing)
  {
  }

  /** A variable of tag `A` with confidence `高` and layer `x`. */
  lemma UnknownConfidence(x: real)
    requires x != 0.0
    ensures var v := Obj([("tag", Str("A")), ("confidence", Str("高")), ("layer", Num(x))]);
            Priority(v) == None && Layer(v) == Num(x) && TagField(v) == Some(Str("A"))
  {
    var fields := [("tag", Str("A")), ("confidence", Str("高")), ("layer", Num(x))];
    var rest := [("confidence", Str("高")), ("layer", Num(x))];
    assert fields[1..] == rest && rest[1..] == [("layer", Num(x))];
    assert fields[0].0 != "layer" && rest[0].0 != "layer";
    assert Lookup(rest, "layer") == Some(Num(x));
    assert fields[0].0 != "confidence" && Lookup(rest, "confidence") == Some(Str("高"));
  }

  /** Two items of one tag where the second beats the first: the second alone survives. */
  lemma DedupTwo<V, K>(a: V, b: V, t: K, tag: V -> Option<K>, beats: (V, V) -> bool)
    requires tag(a) == Some(t) && tag(b) == Some(t) && beats(b, a)
    ensures DedupBy([a, b], tag, beats).0 == [b]
  {
    DedupFirst(a, t, tag, beats);
    assert [a, b][..1] == [a];
    DedupNext([a], [a], map[t := 0], b, tag, beats);
  }

  /** Three items of one tag where the second does not beat the first and the third does:
      the third alone survives. */
  lemma DedupThree<V, K>(a: V, b: V, c: V, t: K, tag: V -> Option<K>, beats: (V, V) -> bool)
    requires tag(a) == Some(t) && tag(b) == Some(t) && tag(c) == Some(t)
    requires !beats(b, a) && beats(c, a)
    ensures DedupBy([a, b, c], tag, beats).0 == [c]
  {
    DedupFirst(a, t, tag, beats);
    assert [a, b][..1] == [a];
    DedupNext([a], [a], map[t := 0], b, tag, beats);
    assert [a, b, c][..2] == [a, b];
    DedupNext([a, b], [a], map[t := 0], c, tag, beats);
  }

  lemma DedupFirst<V, K>(a: V, t: K, tag: V -> Option<K>, beats: (V, V) -> bool)
    requires tag(a) == Some(t)
    ensures DedupBy([a], tag, beats) == ([a], map[t := 0])
  {
    var none: seq<V>, empty: map<K, nat> := [], map[];
    assert [a][..0] == none && DedupBy(none, tag, beats) == (none, empty);
    assert DedupBy([a], tag, beats) == DedupStep(none, empty, a, tag, beats);
    assert t !in empty && none + [a] == [a] && empty[t := |none|] == map[t := 0];
  }

  lemma DedupNext<V, K>(vs: seq<V>, unique: seq<V>, seen: map<K, nat>, v: V, tag: V -> Option<K>, beats: (V, V) -> bool)
    requires DedupBy(vs, tag, beats) == (unique, seen)
    ensures DedupBy(vs + [v], tag, beats) == DedupStep(unique, seen, v, tag, beats)
  {
    assert (vs + [v])[..|vs|] == vs;
  }

  /** `variable.tag` when it is truthy; an untagged variable is never merged. */
  function TagField(v: Value): Option<Value>
  {
    var t := Get(v, "tag");
    if TruthyOpt(t) then Some(t.value) else None
  }

  /** `seen` maps each tag to the position of its survivor in `unique`, and every tagged
      survivor is the one `seen` points at. */
  ghost predicate Indexed<V, K>(unique: seq<V>, seen: map<K, nat>, tag: V -> Option<K>)
  {
    && (forall t :: t in seen ==> seen[t] < |unique| && tag(unique[seen[t]]) == Some(t))
    && (forall k :: 0 <= k < |unique| && tag(unique[k]).Some? ==> tag(unique[k]).value in seen && seen[tag(unique[k]).value] == k)
  }

  /** One step of the merge: an untagged item is appended, a new tag is appended and
      recorded, and a known tag replaces its survivor when it beats it. */
  function DedupStep<V, K>(unique: seq<V>, seen: map<K, nat>, v: V, tag: V -> Option<K>, beats: (V, V) -> bool): (r: (seq<V>, map<K, nat>))
    requires Indexed(unique, seen, tag)
    ensures Indexed(r.0, r.1, tag)
  {
    match tag(v)
    case None => (unique + [v], seen)
    case Some(t) =>
      if t in seen then
        (if beats(v, unique[seen[t]]) then (unique[seen[t] := v], seen) else (unique, seen))
      else (unique + [v], seen[t := |unique|])
  }

  /** The merge state after all of `vs`. */
  function DedupBy<V, K>(vs: seq<V>, tag: V -> Option<K>, beats: (V, V) -> bool): (r: (seq<V>, map<K, nat>))
    ensures Indexed(r.0, r.1, tag)
  {
    if vs == [] then ([], map[])
    else
      var prev := DedupBy(vs[..|vs| - 1], tag, beats);
      DedupStep(prev.0, prev.1, vs[|vs| - 1], tag, beats)
  }

  /** A tag occurs among the items. */
  ghost predicate TagIn<V, K>(vs: seq<V>, t: K, tag: V -> Option<K>)
  {
    exists j :: 0 <= j < |vs| && tag(vs[j]) == Some(t)
  }

  /** The positions that survive: every untagged item and every tag's first occurrence. */
  ghost function Skeleton<V, K>(vs: seq<V>, tag: V -> Option<K>): seq<V>
  {
    if vs == [] then []
    else
      var init := vs[..|vs| - 1];
      var v := vs[|vs| - 1];
      Skeleton(init, tag) + (if tag(v).None? || !TagIn(init, tag(v).value, tag) then [v] else [])
  }

  /**
   * The merged list has one entry per surviving position, in order: each untagged item
   * unchanged, and for each tag one survivor standing where the tag first occurred.
   */
  lemma {:induction false} DedupSkeleton<V, K>(vs: seq<V>, tag: V -> Option<K>, beats: (V, V) -> bool)
    ensures var r := DedupBy(vs, tag, beats);
            && |r.0| == |Skeleton(vs, tag)| <= |vs|
            && (forall k :: 0 <= k < |r.0| ==> tag(r.0[k]) == tag(Skeleton(vs, tag)[k]))
            && (forall k :: 0 <= k < |r.0| && tag(r.0[k]).None? ==> r.0[k] == Skeleton(vs, tag)[k])
  {
    if vs != [] {
      var init := vs[..|vs| - 1];
      var v := vs[|vs| - 1];
      DedupSkeleton(init, tag, beats);
      DedupSeen(init, tag, beats);
      var prev := DedupBy(init, tag, beats);
      assert DedupBy(vs, tag, beats) == DedupStep(prev.0, prev.1, v, tag, beats);
      assert Skeleton(vs, tag) == Skeleton(init, tag) + (if tag(v).None? || !TagIn(init, tag(v).value, tag) then [v] else []);
    }
  }

  /** The tags recorded are exactly those that occur. */
  lemma {:induction false} DedupSeen<V, K>(vs: seq<V>, tag: V -> Option<K>, beats: (V, V) -> bool)
    ensures forall t :: t in DedupBy(vs, tag, beats).1 <==> TagIn(vs, t, tag)
  {
    if vs != [] {
      var init := vs[..|vs| - 1];
      var v := vs[|vs| - 1];
      DedupSeen(init, tag, beats);
      var prev := DedupBy(init, tag, beats);
      assert DedupBy(vs, tag, beats) == DedupStep(prev.0, prev.1, v, tag, beats);
      assert forall j :: 0 <= j < |init| ==> vs[j] == init[j];
      match tag(v)
      case None =>
        assert forall t :: TagIn(vs, t, tag) <==> TagIn(init, t, tag);
      case Some(t) =>
        assert forall t' :: TagIn(vs, t', tag) <==> TagIn(init, t', tag) || t' == t;
    }
  }

  /** Every survivor is an input item, and no two survivors share a tag. */
  lemma {:induction false} DedupFrom<V, K>(vs: seq<V>, tag: V -> Option<K>, beats: (V, V) -> bool)
    ensures forall k :: 0 <= k < |DedupBy(vs, tag, beats).0| ==> DedupBy(vs, tag, beats).0[k] in vs
    ensures var u := DedupBy(vs, tag, beats).0;
            forall i, j :: 0 <= i < j < |u| && tag(u[i]).Some? ==> tag(u[i]) != tag(u[j])
  {
    if vs != [] {
      var init := vs[..|vs| - 1];
      DedupFrom(init, tag, beats);
      var prev := DedupBy(init, tag, beats);
      var r := DedupBy(vs, tag, beats);
      assert r == DedupStep(prev.0, prev.1, vs[|vs| - 1], tag, beats);
      forall k | 0 <= k < |r.0|
        ensures r.0[k] in vs
      {
        if k < |prev.0| && r.0[k] == prev.0[k] {
          assert prev.0[k] in init;
        } else {
          assert r.0[k] == vs[|vs| - 1];
        }
      }
    }
  }

  /** Every tagged item has a recorded survivor, and no item with that tag beats it, as
      long as the replacement rule is a strict order on the items. */
  lemma {:induction false} DedupBest<V, K>(vs: seq<V>, tag: V -> Option<K>, beats: (V, V) -> bool)
    requires forall a :: a in vs ==> !beats(a, a)
    requires forall a, b, c :: a in vs && b in vs && c in vs && beats(a, b) && beats(b, c) ==> beats(a, c)
    ensures var r := DedupBy(vs, tag, beats);
            && (forall j :: 0 <= j < |vs| && tag(vs[j]).Some? ==> tag(vs[j]).value in r.1)
            && (forall j :: 0 <= j < |vs| && tag(vs[j]).Some? ==> !beats(vs[j], r.0[r.1[tag(vs[j]).value]]))
  {
    if vs != [] {
      var init := vs[..|vs| - 1];
      var v := vs[|vs| - 1];
      assert vs == init + [v];
      assert forall a :: a in init ==> a in vs;
      DedupBest(init, tag, beats);
      DedupFrom(init, tag, beats);
      var prev := DedupBy(init, tag, beats);
      DedupBestStep(init, v, prev, tag, beats);
    }
  }

  /** One merge step keeps every tag's survivor unbeaten by the items seen so far. */
  lemma DedupBestStep<V, K>(init: seq<V>, v: V, prev: (seq<V>, map<K, nat>), tag: V -> Option<K>, beats: (V, V) -> bool)
    requires Indexed(prev.0, prev.1, tag)
    requires forall k :: 0 <= k < |prev.0| ==> prev.0[k] in init
    requires forall a :: a in init + [v] ==> !beats(a, a)
    requires forall a, b, c :: a in init + [v] && b in init + [v] && c in init + [v] && beats(a, b) && beats(b, c) ==> beats(a, c)
    requires forall j :: 0 <= j < |init| && tag(init[j]).Some? ==> tag(init[j]).value in prev.1
    requires forall j :: 0 <= j < |init| && tag(init[j]).Some? ==> !beats(init[j], prev.0[prev.1[tag(init[j]).value]])
    ensures var r := DedupStep(prev.0, prev.1, v, tag, beats);
            var vs := init + [v];
            && (forall j :: 0 <= j < |vs| && tag(vs[j]).Some? ==> tag(vs[j]).value in r.1)
            && (forall j :: 0 <= j < |vs| && tag(vs[j]).Some? ==> !beats(vs[j], r.0[r.1[tag(vs[j]).value]]))
  {
    var vs := init + [v];
    assert forall j :: 0 <= j < |init| ==> vs[j] == init[j];
    assert vs[|init|] == v;
    match tag(v)
    case None =>
    case Some(t) =>
      if t in prev.1 && beats(v, prev.0[prev.1[t]]) {
        assert prev.0[prev.1[t]] in init;
      }
  }

  /** `deduplicateVariables`. */
  method DeduplicateVariables(variables: seq<Value>) returns (unique: seq<Value>)
    ensures unique == DedupBy(variables, TagField, Beats).0
  {
    unique := [];
    var seen: map<Value, nat> := map[];
    for i := 0 to |variables|
      invariant (unique, seen) == DedupBy(variables[..i], TagField, Beats)
    {
      var v := variables[i];
      Seqs.TakeTake(variables, i);
      match TagField(v)
      case None =>
        unique := unique + [v];
      case Some(t) =>
        if t in seen {
          if Beats(v, unique[seen[t]]) {
            unique := unique[seen[t] := v];
          }
        } else {
          seen := seen[t := |unique|];
          unique := unique + [v];
        }
    }
    assert variables[..|variables|] == variables;
  }

  /** The variables' layers are all strings or all not strings. */
  predicate OneKindLayers(variables: seq<Value>)
  {
    (forall v :: v in variables ==> Layer(v).Str?) || (forall v :: v in variables ==> !Layer(v).Str?)
  }

  /** The merge of the variables a document's chunks yield: one survivor per tag at the
      tag's first position. When the layers are all strings or all not strings, no other
      variable with that tag beats the survivor. */
  lemma DedupVariablesMeaning(variables: seq<Value>)
    ensures var r := DedupBy(variables, TagField, Beats);
            && |r.0| <= |variables|
            && (forall k :: 0 <= k < |r.0| ==> r.0[k] in variables)
            && (forall j :: 0 <= j < |variables| && TagField(variables[j]).Some? ==> TagField(variables[j]).value in r.1)
            && (OneKindLayers(variables) ==>
                  forall j :: 0 <= j < |variables| && TagField(variables[j]).Some? ==>
                    !Beats(variables[j], r.0[r.1[TagField(variables[j]).value]]))
            && (forall i, j :: 0 <= i < j < |r.0| && TagField(r.0[i]).Some? ==> TagField(r.0[i]) != TagField(r.0[j]))
  {
    DedupSkeleton(variables, TagField, Beats);
    DedupFrom(variables, TagField, Beats);
    DedupSeen(variables, TagField, Beats);
    if OneKindLayers(variables) {
      forall a, b, c | a in variables && b in variables && c in variables
        ensures !Beats(a, a)
        ensures Beats(a, b) && Beats(b, c) ==> Beats(a, c)
      {
        BeatsStrictOrder(a, b, c);
      }
      DedupBest(variables, TagField, Beats);
    }
  }
}
