/**
 * The text-editing skills: insert, delete, replace, append and find on the document text, each
 * guarded by the safety limits (at most 500 characters and 5% of the document per deletion, the
 * first 100 characters protected, at most 2000 characters per insertion, at most 10 replacements
 * and 20 reported matches).
 *
 * The document is its text. The host's Find is a parameter: a search for the next occurrence at
 * or after a position, case-folded unless case is to be matched, of which the model only assumes
 * that what it finds lies in the text at or after that position (`Sound`). `FindFrom` is a
 * reference search with that property.
 */
module ContentEdit {
  import opened Wrappers
  import opened Text
  import opened Seqs

  const MAX_DELETE_CHARS := 500
  const MAX_DELETE_RATIO: real := 0.05
  const MAX_INSERT_CHARS := 2000
  const MAX_REPLACE_COUNT := 10
  const KEY_AREA_PROTECT := 100
  const MAX_FIND := 20

  datatype EditError =
    | DeleteTooLong(chars: int)
    | DeleteRatioTooHigh
    | ProtectedArea
    | EmptyInsert
    | InsertTooLong(length: nat)
    | MissingTargetText
    | TargetNotFound
    | InvalidPosition(position: string)
    | NothingDeleted
    | NoDeleteRange
    | EmptyOldText
    | NothingReplaced
    | EmptyFindText

  /** `total > 0 && chars / total > 0.05`, in integers: 0.05 is one twentieth. */
  predicate OverRatio(chars: int, total: nat)
  {
    total > 0 && chars * 20 > total
  }

  /** The integer test is the ratio test of the source. */
  lemma OverRatioMeaning(chars: int, total: nat)
    ensures OverRatio(chars, total) <==> total > 0 && chars as real / total as real > MAX_DELETE_RATIO
  {
    if total > 0 {
      var d := chars as real;
      var t := total as real;
      assert d == (d / t) * t;
      assert d / t > 0.05 <==> d > 0.05 * t;
    }
  }

  /** `validateDelete(start, end)` with `total` the document length: None when the deletion is
      allowed, else the first limit it breaks. */
  function ValidateDelete(start: int, end: int, total: nat): (r: Option<EditError>)
    ensures r.None? <==> end - start <= MAX_DELETE_CHARS && !OverRatio(end - start, total)
                         && start >= KEY_AREA_PROTECT
    ensures end - start > MAX_DELETE_CHARS ==> r == Some(DeleteTooLong(end - start))
    ensures end - start <= MAX_DELETE_CHARS && OverRatio(end - start, total) ==> r == Some(DeleteRatioTooHigh)
    ensures end - start <= MAX_DELETE_CHARS && !OverRatio(end - start, total) && start < KEY_AREA_PROTECT ==>
              r == Some(ProtectedArea)
  {
    var chars := end - start;
    if chars > MAX_DELETE_CHARS then Some(DeleteTooLong(chars))
    else if OverRatio(chars, total) then Some(DeleteRatioTooHigh)
    else if start < KEY_AREA_PROTECT then Some(ProtectedArea)
    else None
  }

  /** An allowed deletion lies past the protected area, is at most 500 characters long and at
      most 5% of a non-empty document. */
  lemma AllowedDeletion(start: int, end: int, total: nat)
    requires ValidateDelete(start, end, total).None? && total > 0
    ensures KEY_AREA_PROTECT <= start && end - start <= MAX_DELETE_CHARS
    ensures (end - start) as real / total as real <= MAX_DELETE_RATIO
  {
    OverRatioMeaning(end - start, total);
  }

  /** `validateInsert(text)`: None when the text is present, not empty and at most 2000 long. */
  function ValidateInsert(text: Option<string>): (r: Option<EditError>)
    ensures r.None? <==> text.Some? && 0 < |text.value| <= MAX_INSERT_CHARS
  {
    if text.None? || text.value == "" then Some(EmptyInsert)
    else if |text.value| > MAX_INSERT_CHARS then Some(InsertTooLong(|text.value|))
    else None
  }

  /** Two texts the host's Find takes as equal: identical, or equal after case folding when case
      is not to be matched. */
  predicate SameText(a: string, b: string, matchCase: bool)
  {
    |a| == |b| && (a == [] || ((if matchCase then a[0] == b[0] else LowerChar(a[0]) == LowerChar(b[0]))
                               && SameText(a[1..], b[1..], matchCase)))
  }

  /** `needle` occurs at `k` as the host compares text. */
  predicate MatchAt(text: string, needle: string, k: nat, matchCase: bool)
  {
    k + |needle| <= |text| && SameText(text[k..k + |needle|], needle, matchCase)
  }

  /** A reference for the host's Find: the first position at or after `from` where `needle`
      occurs. */
  function FindFrom(text: string, needle: string, from: nat, matchCase: bool): (r: Option<nat>)
    decreases |text| - from
    ensures r.Some? ==> from <= r.value && r.value + |needle| <= |text| && MatchAt(text, needle, r.value, matchCase)
    ensures forall k: nat :: from <= k && (r.None? || k < r.value) ==> !MatchAt(text, needle, k, matchCase)
  {
    if from + |needle| > |text| then None
    else if SameText(text[from..from + |needle|], needle, matchCase) then Some(from)
    else FindFrom(text, needle, from + 1, matchCase)
  }

  /** The host's Find: `find(text, needle, from, matchCase)` is where the next match starts. */
  type Finder = (string, string, nat, bool) -> Option<nat>

  /** A match found at or after `from`, wholly inside the text. */
  predicate Within(r: Option<nat>, text: string, needle: string, from: nat)
  {
    r.Some? ==> from <= r.value && r.value + |needle| <= |text|
  }

  /** What the model assumes of the host's Find. */
  ghost predicate Sound(find: Finder)
  {
    forall text: string, needle: string, from: nat, matchCase: bool ::
      Within(find(text, needle, from, matchCase), text, needle, from)
  }

  /** The reference search is a sound Find. */
  lemma FindFromSound()
    ensures Sound((text: string, needle: string, from: nat, matchCase: bool) => FindFrom(text, needle, from, matchCase))
  {
  }

  function Clamp(k: int, n: nat): nat
  {
    if k < 0 then 0 else if k > n then n else k
  }

  /** `doc.Range(start, end).Text = ''`, positions clamped to the document. */
  function RemoveRange(text: string, start: int, end: int): (r: string)
    ensures |r| <= |text|
  {
    var a := Clamp(start, |text|);
    var b := Clamp(end, |text|);
    if a < b then text[..a] + text[b..] else text
  }

  /** One more step of `n` adds `n`. */
  lemma MulStep(m: int, n: int)
    ensures (m + 1) * n == m * n + n
  {
  }

  /** Two changes in a row, `m` times `d` and then `d` once more, make `m + 1` times `d`. */
  lemma ShiftStep(later: int, first: int, m: int, d: int)
    requires later == m * d && first == d
    ensures later + first == (m + 1) * d
  {
    MulStep(m, d);
  }

  /** No change at all is zero times `d`. */
  lemma ShiftNone(n: int, d: int)
    ensures n - n == (0 as int) * d
  {
  }

  // ---------------------------------------------------------------- content.insert

  /** The result of an edit: the new text and the figure the skill reports, or the error it throws
      (the text as it stands when it throws). */
  datatype Outcome = Outcome(text: string, result: Result<int, EditError>)

  /** The positions `content.insert` knows. */
  const INSERT_POSITIONS := {"start", "end", "cursor", "before_target", "after_target"}

  /** `params.position || 'end'`. */
  function InsertPosition(position: Option<string>): string
  {
    if position.None? || position.value == "" then "end" else position.value
  }

  /** `content.insert`: the text checked first, then placed at the start, the end, over the
      selection, or before or after the first occurrence of `targetText`. `position` falls back to
      `end` when missing or empty. */
  function Insert(find: Finder, doc: string, position: Option<string>, text: Option<string>,
                  targetText: Option<string>, selection: (nat, nat)): (o: Outcome)
    requires Sound(find)
    ensures o.result.Ok? ==> text.Some? && o.result.value == |text.value|
    ensures o.result.Err? ==> o.text == doc
    ensures ValidateInsert(text).Some? ==> o.result == Err(ValidateInsert(text).value)
    ensures ValidateInsert(text).None? && InsertPosition(position) !in INSERT_POSITIONS ==>
              o == Outcome(doc, Err(InvalidPosition(InsertPosition(position))))
  {
    var pos := InsertPosition(position);
    if ValidateInsert(text).Some? then Outcome(doc, Err(ValidateInsert(text).value))
    else
      var t := text.value;
      if pos == "start" then Outcome(t + doc, Ok(|t|))
      else if pos == "end" then Outcome(doc + t, Ok(|t|))
      else if pos == "cursor" then
        var a := Clamp(selection.0, |doc|);
        var b := Clamp(selection.1, |doc|);
        var b' := if b < a then a else b;
        Outcome(doc[..a] + t + doc[b'..], Ok(|t|))
      else if pos == "before_target" || pos == "after_target" then
        if targetText.None? || targetText.value == "" then Outcome(doc, Err(MissingTargetText))
        else
          match find(doc, targetText.value, 0, false)
          case None => Outcome(doc, Err(TargetNotFound))
          case Some(k) =>
            var at := if pos == "before_target" then k else k + |targetText.value|;
            Outcome(doc[..at] + t + doc[at..], Ok(|t|))
      else Outcome(doc, Err(InvalidPosition(pos)))
  }

  /** An insertion that succeeds adds exactly the text and keeps the document around it. */
  lemma InsertKeeps(find: Finder, doc: string, position: Option<string>, text: Option<string>,
                    targetText: Option<string>, selection: (nat, nat))
    requires Sound(find)
    requires position.Some? && (position.value == "start" || position.value == "end"
                                || position.value == "before_target" || position.value == "after_target")
    requires Insert(find, doc, position, text, targetText, selection).result.Ok?
    ensures var o := Insert(find, doc, position, text, targetText, selection);
            |o.text| == |doc| + |text.value|
            && exists at :: 0 <= at <= |doc| && o.text == doc[..at] + text.value + doc[at..]
  {
    var o := Insert(find, doc, position, text, targetText, selection);
    var t := text.value;
    if position.value == "start" {
      assert o.text == doc[..0] + t + doc[0..];
    } else if position.value == "end" {
      assert o.text == doc[..|doc|] + t + doc[|doc|..];
    } else {
      var k := find(doc, targetText.value, 0, false).value;
      var at := if position.value == "before_target" then k else k + |targetText.value|;
      assert o.text == doc[..at] + t + doc[at..];
    }
  }

  /** Without `targetText`, inserting next to a target fails whatever the document holds. */
  lemma TargetModesNeedTarget(find: Finder, doc: string, position: string, text: string, selection: (nat, nat))
    requires Sound(find)
    requires position == "before_target" || position == "after_target"
    requires 0 < |text| <= MAX_INSERT_CHARS
    ensures Insert(find, doc, Some(position), Some(text), None, selection).result == Err(MissingTargetText)
    ensures Insert(find, doc, Some(position), Some(text), Some(""), selection).result == Err(MissingTargetText)
  {
  }

  // ---------------------------------------------------------------- content.delete

  /** The state of the delete-by-text loop: the text, the matches deleted, and the error that
      stopped it, if any. */
  datatype DeleteRun = DeleteRun(text: string, count: nat, error: Option<EditError>)

  /** The delete-by-text loop from the `count`-th match on: stops after 10 deletions, at the first
      search that finds nothing, or at the first match `validateDelete` refuses. */
  function DeleteMatches(find: Finder, text: string, target: string, pos: nat, count: nat): (r: DeleteRun)
    requires Sound(find) && target != ""
    decreases MAX_REPLACE_COUNT - count
    ensures count <= r.count <= (if count < MAX_REPLACE_COUNT then MAX_REPLACE_COUNT else count)
  {
    if count >= MAX_REPLACE_COUNT then DeleteRun(text, count, None)
    else
      match find(text, target, pos, false)
      case None => DeleteRun(text, count, None)
      case Some(k) =>
        var e := ValidateDelete(k, k + |target|, |text|);
        if e.Some? then DeleteRun(text, count, e)
        else DeleteMatches(find, text[..k] + text[k + |target|..], target, k, count + 1)
  }

  /** One turn of the delete-by-text loop that deletes the match at `k`. */
  lemma DeleteStep(find: Finder, t: string, target: string, pos: nat, c: nat, k: nat)
    requires Sound(find) && target != "" && c < MAX_REPLACE_COUNT && find(t, target, pos, false) == Some(k)
    requires ValidateDelete(k, k + |target|, |t|).None?
    ensures DeleteMatches(find, t, target, pos, c) == DeleteMatches(find, t[..k] + t[k + |target|..], target, k, c + 1)
  {
  }

  /** Each deletion removes one match: the text shrinks by the target's length per deletion. */
  lemma {:induction false} DeleteMatchesSize(find: Finder, text: string, target: string, pos: nat, count: nat)
    requires Sound(find) && target != ""
    decreases MAX_REPLACE_COUNT - count
    ensures var r := DeleteMatches(find, text, target, pos, count);
            |text| - |r.text| == (r.count - count) * |target|
  {
    var found := if count < MAX_REPLACE_COUNT then find(text, target, pos, false) else None;
    if found.Some? && ValidateDelete(found.value, found.value + |target|, |text|).None? {
      var k := found.value;
      var t := text[..k] + text[k + |target|..];
      DeleteStep(find, text, target, pos, count, k);
      DeleteMatchesSize(find, t, target, k, count + 1);
      var r := DeleteMatches(find, t, target, k, count + 1);
      assert |text| - |t| == |target|;
      ShiftStep(|t| - |r.text|, |text| - |t|, r.count - (count + 1), |target|);
    } else {
      DeleteStops(find, text, target, pos, count);
      ShiftNone(|text|, |target|);
    }
  }

  /** A turn that finds nothing, or a match `validateDelete` refuses, ends the run as it stands. */
  lemma DeleteStops(find: Finder, text: string, target: string, pos: nat, count: nat)
    requires Sound(find) && target != ""
    requires var found := if count < MAX_REPLACE_COUNT then find(text, target, pos, false) else None;
      !(found.Some? && ValidateDelete(found.value, found.value + |target|, |text|).None?)
    ensures DeleteMatches(find, text, target, pos, count).text == text
    ensures DeleteMatches(find, text, target, pos, count).count == count
  {
  }

  /** The characters a whole delete-by-text run removes: the target's length per deletion. */
  lemma DeletedChars(find: Finder, text: string, target: string)
    requires Sound(find) && target != ""
    ensures var r := DeleteMatches(find, text, target, 0, 0);
            |text| - |r.text| == r.count * |target|
  {
    DeleteMatchesSize(find, text, target, 0, 0);
  }

  /** One turn of the delete-by-text loop: search from `pos`; stop when nothing is found or
      `validateDelete` refuses the match, else delete it and resume where it was. */
  method DeleteTurn(find: Finder, t: string, target: string, pos: nat, count: nat)
    returns (stop: bool, error: Option<EditError>, next: string, nextPos: nat)
    requires Sound(find) && target != "" && count < MAX_REPLACE_COUNT
    ensures stop ==> DeleteMatches(find, t, target, pos, count) == DeleteRun(t, count, error)
    ensures !stop ==> DeleteMatches(find, t, target, pos, count) == DeleteMatches(find, next, target, nextPos, count + 1)
    ensures !stop ==> |next| == |t| - |target|
  {
    var found := find(t, target, pos, false);
    if found.None? {
      return true, None, t, pos;
    }
    var startPos := found.value;
    var endPos := startPos + |target|;
    var e := ValidateDelete(startPos, endPos, |t|);
    if e.Some? {
      return true, e, t, pos;
    }
    DeleteStep(find, t, target, pos, count, startPos);
    return false, None, t[..startPos] + t[endPos..], startPos;
  }

  /** The delete-by-text loop, as written: one turn after another, at most 10 deletions, counting
      the matches and the characters deleted. */
  method DeleteLoop(find: Finder, text: string, target: string)
    returns (t: string, deleteCount: nat, deletedChars: int, error: Option<EditError>)
    requires Sound(find) && target != ""
    ensures DeleteRun(t, deleteCount, error) == DeleteMatches(find, text, target, 0, 0)
    ensures deletedChars == |text| - |t|
  {
    t := text;
    var pos: nat := 0;
    deleteCount := 0;
    deletedChars := 0;
    error := None;
    while deleteCount < MAX_REPLACE_COUNT
      invariant deleteCount <= MAX_REPLACE_COUNT && deletedChars == |text| - |t|
      invariant DeleteMatches(find, t, target, pos, deleteCount) == DeleteMatches(find, text, target, 0, 0)
      decreases MAX_REPLACE_COUNT - deleteCount
    {
      var stop, e, next, nextPos := DeleteTurn(find, t, target, pos, deleteCount);
      if stop {
        error := e;
        return;
      }
      t, deletedChars, deleteCount, pos := next, deletedChars + |target|, deleteCount + 1, nextPos;
    }
  }

  /** Deleting every match of `target` (up to 10): the error that stopped the loop, else the
      characters removed, and an error when nothing matched. */
  function DeleteByTextSpec(find: Finder, doc: string, target: string): Outcome
    requires Sound(find) && target != ""
  {
    var run := DeleteMatches(find, doc, target, 0, 0);
    if run.error.Some? then Outcome(run.text, Err(run.error.value))
    else if run.count == 0 then Outcome(run.text, Err(NothingDeleted))
    else Outcome(run.text, Ok(run.count * |target|))
  }

  /** Deleting `start`..`end` once `validateDelete` allows it. */
  function DeleteRangeSpec(doc: string, start: int, end: int): Outcome
  {
    match ValidateDelete(start, end, |doc|)
    case Some(e) => Outcome(doc, Err(e))
    case None => Outcome(RemoveRange(doc, start, end), Ok(end - start))
  }

  /** Deleting `count` characters from `min(100, total)` on, never past the end. */
  function DeleteCountSpec(doc: string, count: int): Outcome
  {
    var total := |doc|;
    var from := if KEY_AREA_PROTECT < total then KEY_AREA_PROTECT else total;
    var to := if from + count < total then from + count else total;
    DeleteRangeSpec(doc, from, to)
  }

  /** `content.delete`: by `targetText` when it is a non-empty string, else the range `start`..`end`
      when both are numbers, else `count` characters from the end of the protected area. */
  function Delete(find: Finder, doc: string, targetText: Option<string>, start: Option<int>, end: Option<int>,
                  count: Option<int>): Outcome
    requires Sound(find)
  {
    if targetText.Some? && targetText.value != "" then DeleteByTextSpec(find, doc, targetText.value)
    else if start.Some? && end.Some? then DeleteRangeSpec(doc, start.value, end.value)
    else if count.Some? then DeleteCountSpec(doc, count.value)
    else Outcome(doc, Err(NoDeleteRange))
  }

  /** Deleting by text removes at most 10 matches, reports the characters it removed, and fails
      when nothing matched. */
  lemma DeleteByTextBounds(find: Finder, doc: string, target: string)
    requires Sound(find) && target != ""
    ensures var o := DeleteByTextSpec(find, doc, target);
            var run := DeleteMatches(find, doc, target, 0, 0);
            run.count <= MAX_REPLACE_COUNT
            && (o.result.Ok? ==> 0 < run.count && o.result.value == run.count * |target|
                                 && |o.text| == |doc| - o.result.value)
            && (find(doc, target, 0, false).None? ==> o == Outcome(doc, Err(NothingDeleted)))
  {
    DeleteMatchesSize(find, doc, target, 0, 0);
  }

  /** Deleting by count starts at position `min(100, total)` and ends at `min(from + count, total)`;
      a document of fewer than 100 characters is refused as protected. */
  lemma DeleteByCountRange(doc: string, count: int)
    ensures |doc| < KEY_AREA_PROTECT ==> DeleteCountSpec(doc, count).result.Err?
    ensures var o := DeleteCountSpec(doc, count);
            o.result.Ok? && count > 0 ==>
              var to := if KEY_AREA_PROTECT + count < |doc| then KEY_AREA_PROTECT + count else |doc|;
              o.text == doc[..KEY_AREA_PROTECT] + doc[to..] && o.result.value == to - KEY_AREA_PROTECT
  {
    if |doc| < KEY_AREA_PROTECT {
      var to := if |doc| + count < |doc| then |doc| + count else |doc|;
      assert ValidateDelete(|doc|, to, |doc|).Some?;
    }
  }

  // ---------------------------------------------------------------- content.replace

  /** The replace loop: from `pos`, while fewer than `max` replacements were made, the next match
      gets `newText`, and the search resumes after it. */
  function ReplaceMatches(find: Finder, text: string, oldText: string, newText: string, matchCase: bool,
                          pos: nat, count: nat, max: nat): (r: (string, nat))
    requires Sound(find) && oldText != ""
    decreases max - count
    ensures count <= r.1 <= (if count < max then max else count)
  {
    if count >= max then (text, count)
    else
      match find(text, oldText, pos, matchCase)
      case None => (text, count)
      case Some(k) =>
        ReplaceMatches(find, text[..k] + newText + text[k + |oldText|..], oldText, newText, matchCase,
                       k + |newText|, count + 1, max)
  }

  /** One turn of the replace loop. */
  lemma ReplaceStep(find: Finder, t: string, target: string, with: string, cs: bool, pos: nat, c: nat, max: nat)
    requires Sound(find) && target != "" && c < max && find(t, target, pos, cs).Some?
    ensures var k := find(t, target, pos, cs).value;
            ReplaceMatches(find, t, target, with, cs, pos, c, max)
            == ReplaceMatches(find, t[..k] + with + t[k + |target|..], target, with, cs, k + |with|, c + 1, max)
  {
  }

  /** The replace loop, as written: search from `pos`, replace, resume after the new text. */
  method ReplaceLoop(find: Finder, text: string, target: string, with: string, caseSensitive: bool, maxReplace: nat)
    returns (t: string, replaceCount: nat)
    requires Sound(find) && target != ""
    ensures (t, replaceCount) == ReplaceMatches(find, text, target, with, caseSensitive, 0, 0, maxReplace)
  {
    t := text;
    var pos: nat := 0;
    replaceCount := 0;
    while replaceCount < maxReplace
      invariant replaceCount <= maxReplace
      invariant ReplaceMatches(find, t, target, with, caseSensitive, pos, replaceCount, maxReplace)
                == ReplaceMatches(find, text, target, with, caseSensitive, 0, 0, maxReplace)
      decreases maxReplace - replaceCount
    {
      var found := find(t, target, pos, caseSensitive);
      if found.None? {
        assert ReplaceMatches(find, t, target, with, caseSensitive, pos, replaceCount, maxReplace) == (t, replaceCount);
        break;
      }
      var k := found.value;
      ReplaceStep(find, t, target, with, caseSensitive, pos, replaceCount, maxReplace);
      t, replaceCount, pos := t[..k] + with + t[k + |target|..], replaceCount + 1, k + |with|;
    }
  }

  /** Each replacement swaps one match for the new text. */
  lemma {:induction false} ReplaceMatchesSize(find: Finder, text: string, oldText: string, newText: string,
                                              matchCase: bool, pos: nat, count: nat, max: nat)
    requires Sound(find) && oldText != ""
    decreases max - count
    ensures var r := ReplaceMatches(find, text, oldText, newText, matchCase, pos, count, max);
            |r.0| - |text| == (r.1 - count) * (|newText| - |oldText|)
  {
    if count < max && find(text, oldText, pos, matchCase).Some? {
      var k := find(text, oldText, pos, matchCase).value;
      var t := text[..k] + newText + text[k + |oldText|..];
      ReplaceStep(find, text, oldText, newText, matchCase, pos, count, max);
      ReplaceMatchesSize(find, t, oldText, newText, matchCase, k + |newText|, count + 1, max);
      var r := ReplaceMatches(find, t, oldText, newText, matchCase, k + |newText|, count + 1, max);
      assert |t| - |text| == |newText| - |oldText|;
      ShiftStep(|r.0| - |t|, |t| - |text|, r.1 - (count + 1), |newText| - |oldText|);
    } else {
      assert ReplaceMatches(find, text, oldText, newText, matchCase, pos, count, max) == (text, count);
      ShiftNone(|text|, |newText| - |oldText|);
    }
  }

  /** `content.replace`: `oldText` must be non-empty and `newText` pass the insertion check; up to
      10 matches are replaced when `replaceAll` is truthy, one otherwise, and none is an error. */
  function Replace(find: Finder, doc: string, oldText: Option<string>, newText: Option<string>,
                   replaceAll: bool, caseSensitive: bool): Outcome
    requires Sound(find)
  {
    if oldText.None? || oldText.value == "" then Outcome(doc, Err(EmptyOldText))
    else if ValidateInsert(newText).Some? then Outcome(doc, Err(ValidateInsert(newText).value))
    else
      var max := if replaceAll then MAX_REPLACE_COUNT else 1;
      var (t, n) := ReplaceMatches(find, doc, oldText.value, newText.value, caseSensitive, 0, 0, max);
      if n == 0 then Outcome(t, Err(NothingReplaced)) else Outcome(t, Ok(n))
  }

  /** A replacement makes at most 10 changes with `replaceAll` and exactly one without it, and the
      document length changes by the difference of the two texts per change. */
  lemma ReplaceBounds(find: Finder, doc: string, oldText: string, newText: string, replaceAll: bool,
                      caseSensitive: bool)
    requires Sound(find) && oldText != "" && 0 < |newText| <= MAX_INSERT_CHARS
    ensures var o := Replace(find, doc, Some(oldText), Some(newText), replaceAll, caseSensitive);
            o.result.Ok? ==>
              1 <= o.result.value <= (if replaceAll then MAX_REPLACE_COUNT else 1)
              && |o.text| == |doc| + o.result.value * (|newText| - |oldText|)
  {
    var max := if replaceAll then MAX_REPLACE_COUNT else 1;
    ReplaceMatchesSize(find, doc, oldText, newText, caseSensitive, 0, 0, max);
  }

  /** A replacement fails exactly when the first search finds nothing. */
  lemma ReplaceFailsIffNoMatch(find: Finder, doc: string, oldText: string, newText: string, replaceAll: bool,
                               caseSensitive: bool)
    requires Sound(find) && oldText != "" && 0 < |newText| <= MAX_INSERT_CHARS
    ensures Replace(find, doc, Some(oldText), Some(newText), replaceAll, caseSensitive).result.Err?
            <==> find(doc, oldText, 0, caseSensitive).None?
  {
    var max := if replaceAll then MAX_REPLACE_COUNT else 1;
    var f := find(doc, oldText, 0, caseSensitive);
    if f.Some? {
      ReplaceStep(find, doc, oldText, newText, caseSensitive, 0, 0, max);
    }
  }

  /** Replacing with an empty text is refused: `newText` goes through the insertion check. */
  lemma ReplaceNeedsNewText(find: Finder, doc: string, oldText: string, replaceAll: bool, caseSensitive: bool)
    requires Sound(find) && oldText != ""
    ensures Replace(find, doc, Some(oldText), Some(""), replaceAll, caseSensitive) == Outcome(doc, Err(EmptyInsert))
  {
  }

  // ---------------------------------------------------------------- content.append

  /** `content.append` as written: the newline test reads the text of a range already collapsed
      to the end of the document, which is empty, so no newline is ever put in front. */
  function AppendAsWritten(doc: string, text: Option<string>, newLine: bool): (o: Outcome)
  {
    var collapsed := "";
    if ValidateInsert(text).Some? then Outcome(doc, Err(ValidateInsert(text).value))
    else if newLine && |collapsed| > 0 then Outcome(doc + "\n" + text.value, Ok(|text.value|))
    else Outcome(doc + text.value, Ok(|text.value|))
  }

  /** A non-empty document gets the text glued to its last line even when a new line is asked for. */
  lemma AppendNeverBreaksLine()
    ensures AppendAsWritten("第一段", Some("第二段"), true).text == "第一段第二段"
  {
  }

  /** `content.append` as intended: with `newLine` (anything but `false`), a non-empty document gets
      a newline before the text. */
  function Append(doc: string, text: Option<string>, newLine: bool): (o: Outcome)
    ensures o.result.Ok? ==> text.Some? && o.result.value == |text.value|
  {
    if ValidateInsert(text).Some? then Outcome(doc, Err(ValidateInsert(text).value))
    else if newLine && |doc| > 0 then Outcome(doc + "\n" + text.value, Ok(|text.value|))
    else Outcome(doc + text.value, Ok(|text.value|))
  }

  /** The intended append keeps the document as a prefix and ends with the text, on a line of its
      own when a new line is asked for and the document is not empty. */
  lemma AppendShape(doc: string, text: string, newLine: bool)
    requires 0 < |text| <= MAX_INSERT_CHARS
    ensures var o := Append(doc, Some(text), newLine);
            StartsWith(o.text, doc) && EndsWith(o.text, text)
            && (newLine && doc != "" <==> |o.text| == |doc| + 1 + |text|)
            && (newLine && doc != "" ==> o.text[|doc|] == '\n')
  {
    var o := Append(doc, Some(text), newLine);
    assert o.text[..|doc|] == doc;
    assert o.text[|o.text| - |text|..] == text;
  }

  // ---------------------------------------------------------------- content.find

  /** A match the host reports: the document between `start` and `end`. */
  datatype Span = Span(start: nat, end: nat)

  /** Spans in document order, each ending before the next begins. */
  predicate Ordered(r: seq<Span>)
  {
    |r| <= 1 || (r[0].end <= r[1].start && Ordered(r[1..]))
  }

  /** The find loop: up to 20 matches from `pos` on, each as its start and end; the text found is
      the document between them. */
  function FindMatches(find: Finder, text: string, needle: string, matchCase: bool, pos: nat, count: nat)
    : (r: seq<Span>)
    requires needle != ""
    decreases MAX_FIND - count
    ensures |r| <= (if count < MAX_FIND then MAX_FIND - count else 0)
  {
    if count >= MAX_FIND then []
    else
      match find(text, needle, pos, matchCase)
      case None => []
      case Some(k) => [Span(k, k + |needle|)] + FindMatches(find, text, needle, matchCase, k + |needle|, count + 1)
  }

  /** Every span starts at or after `from`, covers `n` characters and ends inside a document of
      length `len`. */
  predicate SpansWithin(r: seq<Span>, from: nat, n: nat, len: nat)
  {
    forall i :: 0 <= i < |r| ==> from <= r[i].start && r[i].end == r[i].start + n <= len
  }

  /** Every match lies inside the document, after `pos`, and spans exactly the needle's length. */
  lemma {:induction false} FindMatchesWithin(find: Finder, text: string, needle: string, matchCase: bool,
                                             pos: nat, count: nat)
    requires Sound(find) && needle != ""
    ensures SpansWithin(FindMatches(find, text, needle, matchCase, pos, count), pos, |needle|, |text|)
    decreases MAX_FIND - count
  {
    if count < MAX_FIND {
      var f := find(text, needle, pos, matchCase);
      if f.Some? {
        var k := f.value;
        var rest := FindMatches(find, text, needle, matchCase, k + |needle|, count + 1);
        FindMatchesWithin(find, text, needle, matchCase, k + |needle|, count + 1);
        assert Within(f, text, needle, pos);
        var r := FindMatches(find, text, needle, matchCase, pos, count);
        assert r == [Span(k, k + |needle|)] + rest;
        forall i | 0 <= i < |r|
          ensures pos <= r[i].start && r[i].end == r[i].start + |needle| <= |text|
        {
          if i > 0 {
            assert r[i] == rest[i - 1];
          }
        }
      }
    }
  }

  /** One turn of the find loop that finds a match at `k`. */
  lemma FindStep(find: Finder, text: string, needle: string, matchCase: bool, pos: nat, count: nat, k: nat)
    requires needle != "" && count < MAX_FIND && find(text, needle, pos, matchCase) == Some(k)
    ensures FindMatches(find, text, needle, matchCase, pos, count)
            == [Span(k, k + |needle|)] + FindMatches(find, text, needle, matchCase, k + |needle|, count + 1)
  {
  }

  /** The find loop, as written: search from `pos`, record the match, resume after it. */
  method FindLoop(find: Finder, text: string, needle: string, caseSensitive: bool) returns (positions: seq<Span>)
    requires needle != ""
    ensures positions == FindMatches(find, text, needle, caseSensitive, 0, 0)
  {
    positions := [];
    var pos: nat := 0;
    var count: nat := 0;
    while count < MAX_FIND
      invariant count <= MAX_FIND
      invariant FindAfter(find, text, needle, caseSensitive, positions, pos, count)
                == FindAfter(find, text, needle, caseSensitive, [], 0, 0)
      decreases MAX_FIND - count
    {
      var found := find(text, needle, pos, caseSensitive);
      if found.None? {
        break;
      }
      var k := found.value;
      positions, count, pos := positions + [Span(k, k + |needle|)], count + 1, k + |needle|;
    }
    FindAfterMatches(find, text, needle, caseSensitive, [], 0, 0);
  }

  /** The loop's own view of the matches: the spans found so far, then those from `pos` on. */
  function FindAfter(find: Finder, text: string, needle: string, matchCase: bool,
                     found: seq<Span>, pos: nat, count: nat): seq<Span>
    decreases MAX_FIND - count
  {
    if count >= MAX_FIND then found
    else
      match find(text, needle, pos, matchCase)
      case None => found
      case Some(k) => FindAfter(find, text, needle, matchCase, found + [Span(k, k + |needle|)], k + |needle|, count + 1)
  }

  /** One turn of the loop's view that finds a match at `k`. */
  lemma FindAfterStep(find: Finder, text: string, needle: string, matchCase: bool,
                      found: seq<Span>, pos: nat, count: nat, k: nat)
    requires count < MAX_FIND && find(text, needle, pos, matchCase) == Some(k)
    ensures FindAfter(find, text, needle, matchCase, found, pos, count)
            == FindAfter(find, text, needle, matchCase, found + [Span(k, k + |needle|)], k + |needle|, count + 1)
  {
  }

  /** The loop's view is the spans found so far followed by the matches from `pos` on. */
  lemma {:induction false} FindAfterMatches(find: Finder, text: string, needle: string, matchCase: bool,
                                            found: seq<Span>, pos: nat, count: nat)
    requires needle != ""
    ensures FindAfter(find, text, needle, matchCase, found, pos, count)
            == found + FindMatches(find, text, needle, matchCase, pos, count)
    decreases MAX_FIND - count
  {
    if count < MAX_FIND {
      match find(text, needle, pos, matchCase)
      case None =>
        assert found + [] == found;
      case Some(k) =>
        var span := Span(k, k + |needle|);
        var rest := FindMatches(find, text, needle, matchCase, k + |needle|, count + 1);
        FindStep(find, text, needle, matchCase, pos, count, k);
        FindAfterStep(find, text, needle, matchCase, found, pos, count, k);
        FindAfterMatches(find, text, needle, matchCase, found + [span], k + |needle|, count + 1);
        AppendAssoc(found, [span], rest);
    } else {
      assert found + [] == found;
    }
  }

  /** The matches `content.find` reports come in document order and do not overlap. */
  lemma {:induction false} FindOrdered(find: Finder, text: string, needle: string, matchCase: bool,
                                       pos: nat, count: nat)
    requires Sound(find) && needle != ""
    ensures Ordered(FindMatches(find, text, needle, matchCase, pos, count))
    decreases MAX_FIND - count
  {
    if count < MAX_FIND {
      var f := find(text, needle, pos, matchCase);
      if f.Some? {
        var k := f.value;
        var rest := FindMatches(find, text, needle, matchCase, k + |needle|, count + 1);
        FindOrdered(find, text, needle, matchCase, k + |needle|, count + 1);
        FindMatchesWithin(find, text, needle, matchCase, k + |needle|, count + 1);
        assert ([Span(k, k + |needle|)] + rest)[1..] == rest;
      }
    }
  }

  /** `content.find`: an empty text is an error; otherwise at most 20 matches. */
  function Find(find: Finder, doc: string, text: Option<string>, caseSensitive: bool)
    : (r: Result<seq<Span>, EditError>)
    requires Sound(find)
    ensures r.Ok? ==> |r.value| <= MAX_FIND
    ensures r.Err? <==> text.None? || text.value == ""
  {
    if text.None? || text.value == "" then Err(EmptyFindText)
    else Ok(FindMatches(find, doc, text.value, caseSensitive, 0, 0))
  }

  // ---------------------------------------------------------------- the document

  /** The document the skills edit, with the host's Find; each skill is one method that changes
      its text. */
  class Document {
    var text: string
    const find: Finder

    constructor(initial: string, find: Finder)
      requires Sound(find)
      ensures text == initial && this.find == find
    {
      text := initial;
      this.find := find;
    }

    method InsertText(position: Option<string>, t: Option<string>, targetText: Option<string>,
                      selection: (nat, nat)) returns (r: Result<int, EditError>)
      requires Sound(find)
      modifies this
      ensures Outcome(text, r) == Insert(find, old(text), position, t, targetText, selection)
    {
      var o := Insert(find, text, position, t, targetText, selection);
      text := o.text;
      r := o.result;
    }

    /** `content.delete` by text: the loop, then the text it leaves and what it reports. */
    method DeleteByText(target: string) returns (r: Result<int, EditError>)
      requires Sound(find) && target != ""
      modifies this
      ensures Outcome(text, r) == DeleteByTextSpec(find, old(text), target)
    {
      var t, deleteCount, deletedChars, error := DeleteLoop(find, text, target);
      DeletedChars(find, text, target);
      text := t;
      if error.Some? {
        return Err(error.value);
      }
      if deleteCount == 0 {
        return Err(NothingDeleted);
      }
      r := Ok(deletedChars);
    }

    method DeleteText(targetText: Option<string>, start: Option<int>, end: Option<int>, count: Option<int>)
      returns (r: Result<int, EditError>)
      requires Sound(find)
      modifies this
      ensures Outcome(text, r) == Delete(find, old(text), targetText, start, end, count)
    {
      if targetText.Some? && targetText.value != "" {
        r := DeleteByText(targetText.value);
      } else {
        var o := if start.Some? && end.Some? then DeleteRangeSpec(text, start.value, end.value)
                 else if count.Some? then DeleteCountSpec(text, count.value)
                 else Outcome(text, Err(NoDeleteRange));
        text := o.text;
        r := o.result;
      }
    }

    /** `content.replace`: the checks, then the replace loop. */
    method ReplaceText(oldText: Option<string>, newText: Option<string>, replaceAll: bool, caseSensitive: bool)
      returns (r: Result<int, EditError>)
      requires Sound(find)
      modifies this
      ensures Outcome(text, r) == Replace(find, old(text), oldText, newText, replaceAll, caseSensitive)
    {
      if oldText.None? || oldText.value == "" {
        return Err(EmptyOldText);
      }
      var check := ValidateInsert(newText);
      if check.Some? {
        return Err(check.value);
      }
      var maxReplace := if replaceAll then MAX_REPLACE_COUNT else 1;
      var t, replaceCount := ReplaceLoop(find, text, oldText.value, newText.value, caseSensitive, maxReplace);
      text := t;
      if replaceCount == 0 {
        return Err(NothingReplaced);
      }
      r := Ok(replaceCount);
    }

    method AppendText(t: Option<string>, newLine: bool) returns (r: Result<int, EditError>)
      modifies this
      ensures Outcome(text, r) == Append(old(text), t, newLine)
    {
      var o := Append(text, t, newLine);
      text := o.text;
      r := o.result;
    }

    /** `content.find`: the find loop over the document, which does not change. */
    method FindText(needle: Option<string>, caseSensitive: bool) returns (r: Result<seq<Span>, EditError>)
      requires Sound(find)
      ensures r == Find(find, text, needle, caseSensitive)
    {
      if needle.None? || needle.value == "" {
        return Err(EmptyFindText);
      }
      var positions := FindLoop(find, text, needle.value, caseSensitive);
      r := Ok(positions);
    }
  }
}
