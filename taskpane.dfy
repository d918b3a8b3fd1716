/**
 * The add-in's task pane logic: the pinyin tag of a new custom field and its de-duplication,
 * the option lists of the add/edit dialogs, the unfilled-field checker, the batch embedding
 * of AI-detected fields with its report, the label map and the field editor. The DOM,
 * notifications, persistence and the WPS calls are outside the model; the result of
 * `insertControlBySearch` for a field is a parameter.
 */
module TaskPane {
  import opened Wrappers
  import opened Text
  import KimiBridge
  import Seqs

  // ---------------------------------------------------------------- data model

  /** A field's `_aiContext` as the pane reads it; a missing string is `""`. */
  datatype AiContext = AiContext(context: string, prefix: string, placeholder: string, suffix: string)

  /** A form field of `contractConfig` or of the pending area; a missing tag or label is `""`, missing `subFields` are `[]`. */
  datatype Field = Field(tag: string, labelText: string, fieldType: string,
                         options: Option<seq<string>>, formatFn: Option<string>,
                         hasParagraphToggle: bool, isCustom: bool,
                         aiContext: Option<AiContext>, subFields: seq<Field>)

  /** A section of `contractConfig` with its three field lists. */
  datatype Section = Section(id: string, fields: Option<seq<Field>>,
                             shareholderFields: Option<seq<Field>>, investorFields: Option<seq<Field>>)

  /** `type === "select" || type === "radio"`. */
  predicate IsChoice(t: string) { t == "select" || t == "radio" }

  // ---------------------------------------------------------------- pinyin tags

  /** The character class `[一-龥]`. */
  predicate IsCjk(c: char) { '\U{4e00}' <= c <= '\U{9fa5}' }

  predicate IsAlnum(c: char) { IsAsciiLetter(c) || IsDigit(c) }

  /** What one character contributes to the tag: its syllable, itself, `U`+hex, or nothing. */
  function PinyinPiece(table: map<char, string>, c: char): string
  {
    if c in table && table[c] != "" then table[c]
    else if IsAlnum(c) then [c]
    else if IsCjk(c) then "U" + NatToHexUpper(c as nat)
    else ""
  }

  /** The pieces of every character of `s`, concatenated in order. */
  function PinyinOf(table: map<char, string>, s: string): string
  {
    if s == [] then "" else PinyinOf(table, s[..|s| - 1]) + PinyinPiece(table, s[|s| - 1])
  }

  /** `toPinyin(s)`: the empty input stays empty, an input with no usable character becomes `CustomField`. */
  function ToPinyinOf(table: map<char, string>, s: string): (r: string)
    ensures r == "" <==> s == ""
    ensures s != "" && PinyinOf(table, s) == "" ==> r == "CustomField"
    ensures s != "" && PinyinOf(table, s) != "" ==> r == PinyinOf(table, s)
  {
    if s == "" then ""
    else
      var p := PinyinOf(table, s);
      if p == "" then "CustomField" else p
  }

  /** `toPinyin`, character by character with `table` as `PINYIN_MAP`. */
  method ToPinyin(table: map<char, string>, s: string) returns (r: string)
    ensures r == ToPinyinOf(table, s)
  {
    if s == "" {
      return "";
    }
    var result := "";
    for i := 0 to |s|
      invariant result == PinyinOf(table, s[..i])
    {
      var c := s[i];
      Seqs.TakeTake(s, i);
      if c in table && table[c] != "" {
        result := result + table[c];
      } else if IsAlnum(c) {
        result := result + [c];
      } else if IsCjk(c) {
        result := result + "U" + NatToHexUpper(c as nat);
      }
    }
    assert s[..|s|] == s;
    r := if result == "" then "CustomField" else result;
  }

  /** The shape of `PINYIN_MAP`: CJK keys, each mapped to a syllable of ASCII letters and digits. */
  predicate PinyinTable(table: map<char, string>)
  {
    forall c | c in table :: IsCjk(c) && forall k | 0 <= k < |table[c]| :: IsAlnum(table[c][k])
  }

  predicate AllAlnum(s: string) { forall k | 0 <= k < |s| :: IsAlnum(s[k]) }

  /** Upper-case hexadecimal is made of ASCII letters and digits. */
  lemma {:induction false} HexAlnum(n: nat)
    ensures AllAlnum(NatToHexUpper(n))
  {
    if n >= 16 {
      HexAlnum(n / 16);
    }
  }

  /** Converting a concatenation converts each part. */
  lemma {:induction false} PinyinAppend(table: map<char, string>, a: string, b: string)
    ensures PinyinOf(table, a + b) == PinyinOf(table, a) + PinyinOf(table, b)
    decreases |b|
  {
    if b != [] {
      assert (a + b)[..|a + b| - 1] == a + b[..|b| - 1];
      PinyinAppend(table, a, b[..|b| - 1]);
    } else {
      assert a + b == a;
    }
  }

  /** With a table of that shape every tag is made of ASCII letters and digits. */
  lemma {:induction false} PinyinAlnum(table: map<char, string>, s: string)
    requires PinyinTable(table)
    ensures AllAlnum(PinyinOf(table, s))
    ensures AllAlnum(ToPinyinOf(table, s))
  {
    if s != [] {
      PinyinAlnum(table, s[..|s| - 1]);
      PieceAlnum(table, s[|s| - 1]);
      AlnumAppend(PinyinOf(table, s[..|s| - 1]), PinyinPiece(table, s[|s| - 1]));
    }
  }

  lemma PieceAlnum(table: map<char, string>, c: char)
    requires PinyinTable(table)
    ensures AllAlnum(PinyinPiece(table, c))
  {
    if c in table && table[c] != "" {
    } else if IsAlnum(c) {
    } else if IsCjk(c) {
      HexAlnum(c as nat);
      AlnumAppend("U", NatToHexUpper(c as nat));
    }
  }

  lemma AlnumAppend(a: string, b: string)
    requires AllAlnum(a) && AllAlnum(b)
    ensures AllAlnum(a + b)
  {
    forall k | 0 <= k < |a + b| ensures IsAlnum((a + b)[k]) {
      if k >= |a| { assert (a + b)[k] == b[k - |a|]; }
    }
  }

  /** A non-empty ASCII letter-and-digit label is its own tag. */
  lemma PinyinKeepsAscii(table: map<char, string>, s: string)
    requires PinyinTable(table)
    requires AllAlnum(s)
    ensures PinyinOf(table, s) == s
    ensures ToPinyinOf(table, s) == s
  {
    forall k | 0 <= k < |s|
      ensures PinyinPiece(table, s[k]) == [s[k]]
    {
      PieceKeepsAscii(table, s[k]);
    }
    PinyinOfCopies(table, s);
  }

  /** A text whose every character stands for itself converts to itself. */
  lemma {:induction false} PinyinOfCopies(table: map<char, string>, s: string)
    requires forall k | 0 <= k < |s| :: PinyinPiece(table, s[k]) == [s[k]]
    ensures PinyinOf(table, s) == s
  {
    if s != [] {
      var init, c := s[..|s| - 1], s[|s| - 1];
      assert s == init + [c];
      assert PinyinPiece(table, c) == [c];
      assert forall k | 0 <= k < |init| :: PinyinPiece(table, init[k]) == [init[k]] by {
        forall k | 0 <= k < |init| ensures init[k] == s[k] { }
      }
      PinyinOfCopies(table, init);
      PinyinSnoc(table, init, c);
    }
  }

  lemma PinyinSnoc(table: map<char, string>, init: string, c: char)
    ensures PinyinOf(table, init + [c]) == PinyinOf(table, init) + PinyinPiece(table, c)
  {
    assert (init + [c])[..|init|] == init;
  }

  /** An ASCII letter or digit is not a key of the table, so it stands for itself. */
  lemma PieceKeepsAscii(table: map<char, string>, c: char)
    requires PinyinTable(table) && IsAlnum(c)
    ensures PinyinPiece(table, c) == [c]
  {
  }

  // ---------------------------------------------------------------- tag de-duplication

  /** The `n`-th tag tried: the original, then the original followed by `1`, `2`, … */
  function Candidate(original: string, n: nat): string
  {
    if n == 0 then original else original + NatToString(n)
  }

  /** Different attempts give different tags. */
  lemma CandidateInjective(original: string, a: nat, b: nat)
    requires Candidate(original, a) == Candidate(original, b)
    ensures a == b
  {
    if a != 0 && b != 0 {
      assert NatToString(a) == Candidate(original, a)[|original|..];
      assert NatToString(b) == Candidate(original, b)[|original|..];
      NatToStringInjective(a, b);
    }
  }

  /** `tag` is the first candidate not in `taken`. */
  ghost predicate FirstFreeCandidate(original: string, taken: seq<string>, tag: string)
  {
    exists n: nat :: tag == Candidate(original, n) && tag !in taken
                     && forall j: nat :: j < n ==> Candidate(original, j) in taken
  }

  /** There is only one first free candidate. */
  lemma FirstFreeUnique(original: string, taken: seq<string>, a: string, b: string)
    requires FirstFreeCandidate(original, taken, a) && FirstFreeCandidate(original, taken, b)
    ensures a == b
  {
    var na: nat :| a == Candidate(original, na) && a !in taken
                   && forall j: nat :: j < na ==> Candidate(original, j) in taken;
    var nb: nat :| b == Candidate(original, nb) && b !in taken
                   && forall j: nat :: j < nb ==> Candidate(original, j) in taken;
  }

  /** The `while (allTags.includes(tag))` loop of `addCustomFieldFromModal`. */
  method UniqueTag(original: string, taken: seq<string>) returns (tag: string)
    ensures tag !in taken
    ensures FirstFreeCandidate(original, taken, tag)
  {
    tag := original;
    var counter: nat := 1;
    ghost var remaining := set t | t in taken;
    while tag in taken
      invariant tag == Candidate(original, counter - 1)
      invariant forall j: nat :: j < counter - 1 ==> Candidate(original, j) in taken
      invariant forall j: nat :: counter - 1 <= j && Candidate(original, j) in taken ==> Candidate(original, j) in remaining
      decreases |remaining|
    {
      UniqueStep(original, taken, remaining, counter);
      remaining := remaining - {tag};
      tag := original + NatToString(counter);
      counter := counter + 1;
    }
    assert tag == Candidate(original, counter - 1) && tag !in taken;
  }

  /** One more taken candidate: every attempt so far is taken, and it leaves the remaining tags. */
  lemma UniqueStep(original: string, taken: seq<string>, remaining: set<string>, counter: nat)
    requires counter >= 1 && Candidate(original, counter - 1) in taken
    requires forall j: nat :: j < counter - 1 ==> Candidate(original, j) in taken
    requires forall j: nat :: counter - 1 <= j && Candidate(original, j) in taken ==> Candidate(original, j) in remaining
    ensures Candidate(original, counter - 1) in remaining
    ensures forall j: nat :: j < counter ==> Candidate(original, j) in taken
    ensures forall j: nat :: counter <= j && Candidate(original, j) in taken
              ==> Candidate(original, j) in remaining - {Candidate(original, counter - 1)}
  {
    forall j: nat | counter <= j && Candidate(original, j) in taken
      ensures Candidate(original, j) in remaining - {Candidate(original, counter - 1)}
    {
      if Candidate(original, j) == Candidate(original, counter - 1) {
        CandidateInjective(original, j, counter - 1);
      }
    }
  }

  // ---------------------------------------------------------------- tags already in use

  /** The truthy tags of `fields`, in order. */
  function TagsOf(fields: seq<Field>): (r: seq<string>)
    ensures forall k :: 0 <= k < |r| ==> r[k] != ""
  {
    if fields == [] then []
    else TagsOf(fields[..|fields| - 1]) + (if fields[|fields| - 1].tag != "" then [fields[|fields| - 1].tag] else [])
  }

  /** The truthy tags of the top-level `fields` of every section, in order. */
  function SectionTags(config: seq<Section>): seq<string>
  {
    if config == [] then []
    else
      var sec := config[|config| - 1];
      SectionTags(config[..|config| - 1]) + (if sec.fields.Some? then TagsOf(sec.fields.value) else [])
  }

  /** `allTags` of `addCustomFieldFromModal`: the section tags, then the pending tags. */
  function AllTags(config: seq<Section>, pending: seq<Field>): seq<string>
  {
    SectionTags(config) + TagsOf(pending)
  }

  /** A tag is listed exactly when some field carries it and it is not empty. */
  lemma {:induction false} TagsOfMembers(fields: seq<Field>, t: string)
    ensures t in TagsOf(fields) <==> t != "" && exists j :: 0 <= j < |fields| && fields[j].tag == t
  {
    if fields != [] {
      var init := fields[..|fields| - 1];
      TagsOfMembers(init, t);
      if t != "" && exists j :: 0 <= j < |init| && init[j].tag == t {
        var j :| 0 <= j < |init| && init[j].tag == t;
        assert fields[j].tag == t;
      }
      if t != "" && exists j :: 0 <= j < |fields| && fields[j].tag == t {
        var j :| 0 <= j < |fields| && fields[j].tag == t;
        if j < |init| {
          assert init[j].tag == t;
        }
      }
    }
  }

  /** Some section with fields has a field carrying `t`. */
  ghost predicate TagInSections(config: seq<Section>, t: string)
  {
    exists i :: 0 <= i < |config| && config[i].fields.Some? && t in TagsOf(config[i].fields.value)
  }

  /** A tag is in some of the sections exactly when it is in some of all but the last, or in
      the last. */
  lemma TagInSectionsSnoc(config: seq<Section>, t: string)
    requires config != []
    ensures var init, sec := config[..|config| - 1], config[|config| - 1];
            TagInSections(config, t) <==> TagInSections(init, t) || (sec.fields.Some? && t in TagsOf(sec.fields.value))
  {
    var init := config[..|config| - 1];
    if TagInSections(init, t) {
      var i :| 0 <= i < |init| && init[i].fields.Some? && t in TagsOf(init[i].fields.value);
      assert config[i] == init[i];
    }
    if TagInSections(config, t) {
      var i :| 0 <= i < |config| && config[i].fields.Some? && t in TagsOf(config[i].fields.value);
      if i < |init| {
        assert init[i] == config[i];
      }
    }
  }

  /** A section tag is the non-empty tag of a top-level field of some section. */
  lemma {:induction false} SectionTagsMembers(config: seq<Section>, t: string)
    ensures t in SectionTags(config) <==>
              exists i :: 0 <= i < |config| && config[i].fields.Some? && t in TagsOf(config[i].fields.value)
  {
    if config != [] {
      var init, sec := config[..|config| - 1], config[|config| - 1];
      SectionTagsMembers(init, t);
      TagInSectionsSnoc(config, t);
      var last := if sec.fields.Some? then TagsOf(sec.fields.value) else [];
      assert SectionTags(config) == SectionTags(init) + last;
      assert t in SectionTags(config) <==> t in SectionTags(init) || t in last;
      assert t in SectionTags(config) <==> TagInSections(config, t);
    }
  }

  /** The section tags followed by the pending tags, collected as the source's `forEach` loops do. */
  method CollectTags(config: seq<Section>, pending: seq<Field>) returns (all: seq<string>)
    ensures all == AllTags(config, pending)
  {
    all := [];
    for i := 0 to |config|
      invariant all == SectionTags(config[..i])
    {
      Seqs.TakeTake(config, i);
      if config[i].fields.Some? {
        var fields := config[i].fields.value;
        ghost var before := all;
        for j := 0 to |fields|
          invariant all == before + TagsOf(fields[..j])
        {
          Seqs.TakeTake(fields, j);
          if fields[j].tag != "" {
            all := all + [fields[j].tag];
          }
        }
        assert fields[..|fields|] == fields;
      }
    }
    assert config[..|config|] == config;
    ghost var sections := all;
    for j := 0 to |pending|
      invariant all == sections + TagsOf(pending[..j])
    {
      Seqs.TakeTake(pending, j);
      if pending[j].tag != "" {
        all := all + [pending[j].tag];
      }
    }
    assert pending[..|pending|] == pending;
  }

  /** Appending a tagged field appends its tag. */
  lemma TagsOfSnoc(fields: seq<Field>, f: Field)
    requires f.tag != ""
    ensures TagsOf(fields + [f]) == TagsOf(fields) + [f.tag]
  {
    assert (fields + [f])[..|fields|] == fields;
  }

  /** Adding a field whose tag is new keeps the tags in use distinct. */
  lemma AddKeepsDistinct(config: seq<Section>, pending: seq<Field>, f: Field)
    requires Seqs.Distinct(AllTags(config, pending))
    requires f.tag != "" && f.tag !in AllTags(config, pending)
    ensures Seqs.Distinct(AllTags(config, pending + [f]))
  {
    TagsOfSnoc(pending, f);
    assert AllTags(config, pending + [f]) == AllTags(config, pending) + [f.tag];
  }

  // ---------------------------------------------------------------- option lists

  /** A trimmed, non-empty option as `confirmAddOption` stores it. */
  predicate Trimmed(s: string) { s != "" && !IsSpace(s[0]) && !IsSpace(s[|s| - 1]) }

  /** A non-empty trimmed value appended to a list of trimmed options keeps them all trimmed. */
  lemma TrimmedSnoc(options: seq<string>, value: string)
    requires forall k :: 0 <= k < |options| ==> Trimmed(options[k])
    requires value != "" && (value == [] || (!IsSpace(value[0]) && !IsSpace(value[|value| - 1])))
    ensures forall k :: 0 <= k < |options + [value]| ==> Trimmed((options + [value])[k])
  {
  }

  /** `splice(index, 1)` on an array: a negative index counts from the end, one past the end removes nothing. */
  function SpliceOne<T>(s: seq<T>, index: int): (r: seq<T>)
    ensures multiset(r) <= multiset(s)
    ensures 0 <= index < |s| ==> |r| == |s| - 1 && r[index..] == s[index + 1..] && r[..index] == s[..index]
    ensures -|s| <= index < 0 ==> |r| == |s| - 1 && r[..|s| + index] == s[..|s| + index]
    ensures index < -|s| && s != [] ==> r == s[1..]
    ensures index >= |s| || s == [] ==> r == s
  {
    var start := if index < 0 then (if |s| + index < 0 then 0 else |s| + index) else (if index < |s| then index else |s|);
    if start < |s| then
      assert s == s[..start] + [s[start]] + s[start + 1..];
      s[..start] + s[start + 1..]
    else s
  }

  // ---------------------------------------------------------------- the pane's state

  /** The new field `addCustomFieldFromModal` builds; its `id` comes from the clock and is not kept. */
  function NewField(name: string, tag: string, fieldType: string, options: seq<string>,
                    formatRaw: string, insertMode: string): Field
  {
    var format := if formatRaw == "" then "none" else formatRaw;
    Field(tag, name, fieldType,
          if |options| > 0 then Some(options) else None,
          if !IsChoice(fieldType) && format != "none" then Some(format) else None,
          insertMode == "paragraph" || insertMode == "both", true, None, [])
  }

  /** The tag `addCustomFieldFromModal` gives a non-empty label: the first free pinyin candidate. */
  method FreshTag(table: map<char, string>, name: string, allTags: seq<string>) returns (tag: string)
    requires name != ""
    ensures FirstFreeCandidate(ToPinyinOf(table, name), allTags, tag)
    ensures tag != "" && tag !in allTags
  {
    var original := ToPinyin(table, name);
    tag := UniqueTag(original, allTags);
    assert tag != "" by {
      var n: nat :| tag == Candidate(original, n);
    }
  }

  /** `contractConfig`, `pendingFields` and the two temporary option lists of the dialogs. */
  class Pane {
    var config: seq<Section>
    var pending: seq<Field>
    var tempAddOptions: seq<string>
    var tempEditOptions: seq<string>

    /** Every option waiting in the add dialog is trimmed and non-empty. */
    predicate Valid()
      reads this
    {
      forall k :: 0 <= k < |tempAddOptions| ==> Trimmed(tempAddOptions[k])
    }

    constructor (config: seq<Section>)
      ensures Valid()
      ensures this.config == config && pending == [] && tempAddOptions == [] && tempEditOptions == []
    {
      this.config := config;
      pending := [];
      tempAddOptions := [];
      tempEditOptions := [];
    }

    /** `confirmAddOption`: a non-empty trimmed value is appended to the list of the dialog `mode`. */
    method ConfirmAddOption(raw: string, mode: string)
      requires Valid()
      modifies this
      ensures Valid()
      ensures config == old(config) && pending == old(pending)
      ensures Trim(raw) != "" && mode == "add" ==>
                tempAddOptions == old(tempAddOptions) + [Trim(raw)] && tempEditOptions == old(tempEditOptions)
      ensures Trim(raw) != "" && mode == "edit" ==>
                tempEditOptions == old(tempEditOptions) + [Trim(raw)] && tempAddOptions == old(tempAddOptions)
      ensures Trim(raw) == "" || (mode != "add" && mode != "edit") ==>
                tempAddOptions == old(tempAddOptions) && tempEditOptions == old(tempEditOptions)
    {
      var value := Trim(raw);
      if value == "" {
        return;
      }
      if mode == "add" {
        TrimmedSnoc(tempAddOptions, value);
        tempAddOptions := tempAddOptions + [value];
      } else if mode == "edit" {
        tempEditOptions := tempEditOptions + [value];
      }
    }

    /** `removeOption`: `splice(index, 1)` on the list of the dialog `mode`. */
    method RemoveOption(index: int, mode: string)
      requires Valid()
      modifies this
      ensures Valid()
      ensures config == old(config) && pending == old(pending)
      ensures mode == "add" ==> tempAddOptions == SpliceOne(old(tempAddOptions), index) && tempEditOptions == old(tempEditOptions)
      ensures mode == "edit" ==> tempEditOptions == SpliceOne(old(tempEditOptions), index) && tempAddOptions == old(tempAddOptions)
      ensures mode != "add" && mode != "edit" ==>
                tempAddOptions == old(tempAddOptions) && tempEditOptions == old(tempEditOptions)
    {
      if mode == "add" {
        tempAddOptions := SpliceOne(tempAddOptions, index);
        forall k | 0 <= k < |tempAddOptions| ensures Trimmed(tempAddOptions[k]) {
          assert tempAddOptions[k] in multiset(old(tempAddOptions));
        }
      } else if mode == "edit" {
        tempEditOptions := SpliceOne(tempEditOptions, index);
      }
    }

    /** `resetAddOptions`. */
    method ResetAddOptions()
      modifies this
      ensures Valid()
      ensures tempAddOptions == [] && config == old(config) && pending == old(pending) && tempEditOptions == old(tempEditOptions)
    {
      tempAddOptions := [];
    }

    /** `setEditOptions`: a copy of the field's options, or an empty list. */
    method SetEditOptions(options: Option<seq<string>>)
      requires Valid()
      modifies this
      ensures Valid()
      ensures tempEditOptions == (if options.Some? then options.value else [])
      ensures config == old(config) && pending == old(pending) && tempAddOptions == old(tempAddOptions)
    {
      tempEditOptions := if options.Some? then options.value else [];
    }

    /**
     * `addCustomFieldFromModal`: a field labelled with the trimmed label and tagged with the first
     * free pinyin candidate joins the pending area, unless the label is empty or a choice field
     * has no option; the add dialog's options are then cleared.
     */
    method AddCustomField(table: map<char, string>, labelRaw: string, fieldType: string,
                          formatRaw: string, insertMode: string) returns (added: Option<Field>)
      requires Valid()
      modifies this
      ensures Valid()
      ensures config == old(config) && tempEditOptions == old(tempEditOptions)
      ensures added.None? <==> Trim(labelRaw) == "" || (IsChoice(fieldType) && old(tempAddOptions) == [])
      ensures added.None? ==> pending == old(pending) && tempAddOptions == old(tempAddOptions)
      ensures added.Some? ==> pending == old(pending) + [added.value] && tempAddOptions == []
      ensures added.Some? ==>
                FirstFreeCandidate(ToPinyinOf(table, Trim(labelRaw)), old(AllTags(config, pending)), added.value.tag)
                && added.value == NewField(Trim(labelRaw), added.value.tag, fieldType, old(tempAddOptions), formatRaw, insertMode)
      ensures added.Some? ==> added.value.tag != "" && added.value.tag !in old(AllTags(config, pending))
      ensures added.Some? && added.value.options.Some? ==> forall k :: 0 <= k < |added.value.options.value| ==> Trimmed(added.value.options.value[k])
      ensures old(Seqs.Distinct(AllTags(config, pending))) ==> Seqs.Distinct(AllTags(config, pending))
    {
      var name := Trim(labelRaw);
      if name == "" {
        return None;
      }
      var allTags := CollectTags(config, pending);
      var tag := FreshTag(table, name, allTags);
      var options := tempAddOptions;
      if IsChoice(fieldType) && |options| == 0 {
        return None;
      }
      var field := NewField(name, tag, fieldType, options, formatRaw, insertMode);
      AddField(field, allTags);
      added := Some(field);
    }

    /** The pending area takes `field`, whose tag is fresh, and the add dialog's options are cleared. */
    method AddField(field: Field, allTags: seq<string>)
      requires Valid()
      requires allTags == AllTags(config, pending) && field.tag != "" && field.tag !in allTags
      modifies this
      ensures Valid()
      ensures config == old(config) && tempEditOptions == old(tempEditOptions)
      ensures pending == old(pending) + [field] && tempAddOptions == []
      ensures Seqs.Distinct(allTags) ==> Seqs.Distinct(AllTags(config, pending))
    {
      if Seqs.Distinct(allTags) {
        AddKeepsDistinct(config, pending, field);
      }
      pending := pending + [field];
      tempAddOptions := [];
    }

    /**
     * `saveFieldEdit`: the located field gets the trimmed label, the type and the format; a choice
     * type takes the edit dialog's options, or stops there with label and type already written;
     * a change of section moves the field to the end of the target's list.
     */
    method SaveFieldEdit(sectionId: string, fieldIndex: Option<int>, labelRaw: string, newType: string,
                         newFormat: string, targetSectionId: string) returns (outcome: EditOutcome)
      requires Valid()
      modifies this
      ensures Valid()
      ensures pending == old(pending) && tempAddOptions == old(tempAddOptions) && tempEditOptions == old(tempEditOptions)
      ensures outcome == EmptyLabel <==> Trim(labelRaw) == ""
      ensures outcome == MissingField <==> Trim(labelRaw) != "" && Locate(old(config), sectionId, fieldIndex).None?
      ensures outcome == EmptyLabel || outcome == MissingField ==> config == old(config)
      ensures outcome == NeedsOptions || outcome == Saved ==>
                var (si, fi) := Locate(old(config), sectionId, fieldIndex).value;
                var edited := Relabelled(old(config)[si].fields.value[fi], Trim(labelRaw), newType, newFormat);
                (outcome == NeedsOptions <==> IsChoice(newType) && old(tempEditOptions) == [])
                && (outcome == NeedsOptions ==> config == SetField(old(config), si, fi, edited))
                && (outcome == Saved ==>
                      var saved := edited.(options := if IsChoice(newType) then Some(old(tempEditOptions)) else None);
                      config == if targetSectionId == sectionId then SetField(old(config), si, fi, saved)
                                else MoveField(old(config), si, fi, saved, targetSectionId))
    {
      var name := Trim(labelRaw);
      if name == "" {
        return EmptyLabel;
      }
      var loc := Locate(config, sectionId, fieldIndex);
      if loc.None? {
        return MissingField;
      }
      var (si, fi) := loc.value;
      var field := Relabelled(config[si].fields.value[fi], name, newType, newFormat);
      if IsChoice(newType) {
        if |tempEditOptions| == 0 {
          config := SetField(config, si, fi, field);
          return NeedsOptions;
        }
        field := field.(options := Some(tempEditOptions));
      } else {
        field := field.(options := None);
      }
      if targetSectionId != sectionId {
        config := MoveField(config, si, fi, field, targetSectionId);
      } else {
        config := SetField(config, si, fi, field);
      }
      outcome := Saved;
    }
  }

  // ---------------------------------------------------------------- unfilled-field checker

  /** An unfilled field the checker steps through; its DOM element is not kept. */
  datatype Unfilled = Unfilled(tag: string, labelText: string)

  /** Where `checkerPrev` leaves the cursor. */
  function PrevIndex(i: int): int { if i > 0 then i - 1 else i }

  /** Where `checkerNext` leaves the cursor over `n` fields. */
  function NextIndex(i: int, n: nat): int { if i < n - 1 then i + 1 else i }

  /** The cursor's range: a position among the fields, or 0 when there is none. */
  predicate InRange(i: int, n: nat) { 0 <= i && (i < n || i == 0) }

  /** Both steps keep the cursor in range. */
  lemma StepsStayInRange(i: int, n: nat)
    requires InRange(i, n)
    ensures InRange(PrevIndex(i), n) && InRange(NextIndex(i, n), n)
  {
  }

  /** A step that moved is undone by the opposite step. */
  lemma StepsUndo(i: int, n: nat)
    requires InRange(i, n)
    ensures NextIndex(i, n) != i ==> PrevIndex(NextIndex(i, n)) == i
    ensures PrevIndex(i) != i ==> NextIndex(PrevIndex(i), n) == i
  {
  }

  /** The cursor after `k` presses of `next`. */
  function NextTimes(i: int, n: nat, k: nat): int
  {
    if k == 0 then i else NextIndex(NextTimes(i, n, k - 1), n)
  }

  /** Pressing `next` `k` times from a position in range stops at the last field. */
  lemma {:induction false} NextTimesStops(i: int, n: nat, k: nat)
    requires n > 0 && 0 <= i < n
    ensures NextTimes(i, n, k) == if i + k < n then i + k else n - 1
  {
    if k > 0 {
      NextTimesStops(i, n, k - 1);
    }
  }

  /** `checkerState`: the unfilled fields, the cursor and whether the checker bar is shown. */
  class Checker {
    var unfilled: seq<Unfilled>
    var currentIndex: int
    var isOpen: bool

    predicate Valid()
      reads this
    {
      InRange(currentIndex, |unfilled|)
    }

    constructor ()
      ensures Valid()
      ensures unfilled == [] && currentIndex == 0 && !isOpen
    {
      unfilled := [];
      currentIndex := 0;
      isOpen := false;
    }

    /** `openChecker`: the cursor goes to the first field. */
    method Open(fields: seq<Unfilled>)
      modifies this
      ensures Valid()
      ensures unfilled == fields && currentIndex == 0 && isOpen
    {
      unfilled := fields;
      currentIndex := 0;
      isOpen := true;
    }

    /** `closeChecker`: the fields and the cursor stay. */
    method Close()
      requires Valid()
      modifies this
      ensures Valid()
      ensures !isOpen && unfilled == old(unfilled) && currentIndex == old(currentIndex)
    {
      isOpen := false;
    }

    /** The state of the `prev` button. */
    predicate PrevDisabled()
      reads this
    {
      currentIndex == 0
    }

    /** The state of the `next` button. */
    predicate NextDisabled()
      reads this
    {
      currentIndex >= |unfilled| - 1
    }

    /** The label `updateCheckerUI` shows: the current field's, or `""`. */
    function CurrentLabel(): (r: string)
      reads this
      requires Valid()
      ensures |unfilled| == 0 ==> r == ""
      ensures |unfilled| > 0 ==> r == unfilled[currentIndex].labelText
    {
      if currentIndex < |unfilled| then unfilled[currentIndex].labelText else ""
    }

    /** `checkerPrev`: the cursor moves back exactly when the button is enabled. */
    method Prev()
      requires Valid()
      modifies this
      ensures Valid()
      ensures currentIndex == PrevIndex(old(currentIndex))
      ensures currentIndex != old(currentIndex) <==> !old(PrevDisabled())
      ensures unfilled == old(unfilled) && isOpen == old(isOpen)
    {
      if currentIndex > 0 {
        currentIndex := currentIndex - 1;
      }
    }

    /** `checkerNext`: the cursor moves forward exactly when the button is enabled. */
    method Next()
      requires Valid()
      modifies this
      ensures Valid()
      ensures currentIndex == NextIndex(old(currentIndex), |unfilled|)
      ensures currentIndex != old(currentIndex) <==> !old(NextDisabled())
      ensures unfilled == old(unfilled) && isOpen == old(isOpen)
    {
      if currentIndex < |unfilled| - 1 {
        currentIndex := currentIndex + 1;
      }
    }
  }

  // ---------------------------------------------------------------- label map

  /** The fields `walk` visits, in its order: each field, then its `subFields`. */
  function Flatten(fields: seq<Field>): seq<Field>
  {
    if fields == [] then []
    else
      var f := fields[|fields| - 1];
      Flatten(fields[..|fields| - 1]) + [f] + Flatten(f.subFields)
  }

  /** The three lists of every section, flattened, in `buildLabelMap`'s order. */
  function FlattenConfig(config: seq<Section>): seq<Field>
  {
    if config == [] then []
    else
      var sec := config[|config| - 1];
      FlattenConfig(config[..|config| - 1])
      + (if sec.fields.Some? then Flatten(sec.fields.value) else [])
      + (if sec.shareholderFields.Some? then Flatten(sec.shareholderFields.value) else [])
      + (if sec.investorFields.Some? then Flatten(sec.investorFields.value) else [])
  }

  /** A field that `buildLabelMap` records: both its tag and its label are truthy. */
  predicate Labelled(f: Field) { f.tag != "" && f.labelText != "" }

  /** `map[f.tag] = f.label` for every labelled field in turn. */
  function Assign(m: map<string, string>, fs: seq<Field>): map<string, string>
  {
    if fs == [] then m
    else
      var f := fs[|fs| - 1];
      var m' := Assign(m, fs[..|fs| - 1]);
      if Labelled(f) then m'[f.tag := f.labelText] else m'
  }

  /** Recording two lists is recording their concatenation. */
  lemma {:induction false} AssignAppend(m: map<string, string>, a: seq<Field>, b: seq<Field>)
    ensures Assign(Assign(m, a), b) == Assign(m, a + b)
    decreases |b|
  {
    if b == [] {
      assert a + b == a;
    } else {
      AssignAppend(m, a, b[..|b| - 1]);
      assert (a + b)[..|a + b| - 1] == a + b[..|b| - 1];
    }
  }

  /** The keys recorded are the tags of the labelled fields, added to those already there. */
  lemma {:induction false} AssignKeys(m: map<string, string>, fs: seq<Field>, t: string)
    ensures t in Assign(m, fs) <==> t in m || exists i :: 0 <= i < |fs| && Labelled(fs[i]) && fs[i].tag == t
  {
    if fs != [] {
      var init := fs[..|fs| - 1];
      AssignKeys(m, init, t);
      if exists i :: 0 <= i < |init| && Labelled(init[i]) && init[i].tag == t {
        var i :| 0 <= i < |init| && Labelled(init[i]) && init[i].tag == t;
        assert fs[i] == init[i];
      }
      if exists i :: 0 <= i < |fs| && Labelled(fs[i]) && fs[i].tag == t {
        var i :| 0 <= i < |fs| && Labelled(fs[i]) && fs[i].tag == t;
        if i < |init| {
          assert init[i] == fs[i];
        }
      }
    }
  }

  /** A later labelled field with the same tag overwrites an earlier one: the last one wins. */
  lemma {:induction false} LastLabelWins(m: map<string, string>, fs: seq<Field>, i: nat)
    requires i < |fs| && Labelled(fs[i])
    requires forall j :: i < j < |fs| && Labelled(fs[j]) ==> fs[j].tag != fs[i].tag
    ensures fs[i].tag in Assign(m, fs) && Assign(m, fs)[fs[i].tag] == fs[i].labelText
  {
    if i < |fs| - 1 {
      var init := fs[..|fs| - 1];
      LastLabelWins(m, init, i);
    }
  }

  /** `walk(fields)`, adding to the map built so far. */
  method Walk(m: map<string, string>, fields: seq<Field>) returns (r: map<string, string>)
    ensures r == Assign(m, Flatten(fields))
    decreases fields
  {
    r := m;
    for k := 0 to |fields|
      invariant r == Assign(m, Flatten(fields[..k]))
    {
      var f := fields[k];
      Seqs.TakeTake(fields, k);
      ghost var before := Flatten(fields[..k]);
      AssignAppend(m, before, [f]);
      if Labelled(f) {
        r := r[f.tag := f.labelText];
      }
      if f.subFields != [] {
        r := Walk(r, f.subFields);
      }
      AssignAppend(m, before + [f], Flatten(f.subFields));
    }
    assert fields[..|fields|] == fields;
  }

  /** `buildLabelMap`: every labelled field's tag mapped to the label of the last field carrying it. */
  method BuildLabelMap(config: seq<Section>) returns (m: map<string, string>)
    ensures m == Assign(map[], FlattenConfig(config))
  {
    m := map[];
    for i := 0 to |config|
      invariant m == Assign(map[], FlattenConfig(config[..i]))
    {
      var sec := config[i];
      Seqs.TakeTake(config, i);
      ghost var before := FlattenConfig(config[..i]);
      ghost var a := if sec.fields.Some? then Flatten(sec.fields.value) else [];
      ghost var b := if sec.shareholderFields.Some? then Flatten(sec.shareholderFields.value) else [];
      ghost var c := if sec.investorFields.Some? then Flatten(sec.investorFields.value) else [];
      if sec.fields.Some? {
        m := Walk(m, sec.fields.value);
      }
      AssignAppend(map[], before, a);
      if sec.shareholderFields.Some? {
        m := Walk(m, sec.shareholderFields.value);
      }
      AssignAppend(map[], before + a, b);
      if sec.investorFields.Some? {
        m := Walk(m, sec.investorFields.value);
      }
      AssignAppend(map[], before + a + b, c);
    }
    assert config[..|config|] == config;
  }

  // ---------------------------------------------------------------- AI candidates and their filter

  /** A field queued for batch embedding: `{tag, label, searchCandidates, aiContext}`. */
  datatype AiField = AiField(tag: string, labelText: string, searchCandidates: seq<string>, aiContext: AiContext)

  /** `xs.filter(v => v.trim())`: the strings that are not blank, in order. */
  function NonBlank(xs: seq<string>): (r: seq<string>)
    ensures forall k :: 0 <= k < |r| ==> Trim(r[k]) != "" && r[k] in xs
  {
    if xs == [] then [] else (if Trim(xs[0]) != "" then [xs[0]] else []) + NonBlank(xs[1..])
  }

  /** `[aiContext.context, composed, aiContext.placeholder]` without the blank ones. */
  function SearchCandidates(ctx: AiContext): seq<string>
  {
    NonBlank([ctx.context, ctx.prefix + ctx.placeholder + ctx.suffix, ctx.placeholder])
  }

  /** A custom field with an AI context naming a placeholder is a batch-embedding candidate. */
  predicate IsAiDetected(f: Field) { f.isCustom && f.aiContext.Some? && f.aiContext.value.placeholder != "" }

  function AiFieldOf(f: Field): AiField
    requires IsAiDetected(f)
  {
    AiField(f.tag, f.labelText, SearchCandidates(f.aiContext.value), f.aiContext.value)
  }

  /** The candidates among `fields`, in order. */
  function AiFieldsIn(fields: seq<Field>): (r: seq<AiField>)
    ensures |r| <= |fields|
  {
    if fields == [] then []
    else
      var f := fields[|fields| - 1];
      AiFieldsIn(fields[..|fields| - 1]) + (if IsAiDetected(f) then [AiFieldOf(f)] else [])
  }

  /** `aiFieldsRaw`: the candidates among the top-level fields of every section, in order. */
  function AiFieldsOf(config: seq<Section>): seq<AiField>
  {
    if config == [] then []
    else
      var sec := config[|config| - 1];
      AiFieldsOf(config[..|config| - 1]) + (if sec.fields.Some? then AiFieldsIn(sec.fields.value) else [])
  }

  /** Every detected field is a candidate. */
  lemma {:induction false} DetectedIsCandidate(fields: seq<Field>, j: nat)
    requires j < |fields| && IsAiDetected(fields[j])
    ensures AiFieldOf(fields[j]) in AiFieldsIn(fields)
  {
    var init := fields[..|fields| - 1];
    if j < |init| {
      assert init[j] == fields[j];
      DetectedIsCandidate(init, j);
    }
  }

  /** Every candidate comes from a detected field. */
  lemma {:induction false} CandidateIsDetected(fields: seq<Field>, k: nat)
    requires k < |AiFieldsIn(fields)|
    ensures exists j :: 0 <= j < |fields| && IsAiDetected(fields[j]) && AiFieldOf(fields[j]) == AiFieldsIn(fields)[k]
  {
    var init := fields[..|fields| - 1];
    var last := fields[|fields| - 1];
    var tail := if IsAiDetected(last) then [AiFieldOf(last)] else [];
    assert AiFieldsIn(fields) == AiFieldsIn(init) + tail;
    if k < |AiFieldsIn(init)| {
      CandidateIsDetected(init, k);
      var j :| 0 <= j < |init| && IsAiDetected(init[j]) && AiFieldOf(init[j]) == AiFieldsIn(init)[k];
      assert fields[j] == init[j];
      assert AiFieldsIn(fields)[k] == AiFieldsIn(init)[k];
    } else {
      assert IsAiDetected(last) && AiFieldsIn(fields)[k] == AiFieldOf(last);
    }
  }

  /** The inner `forEach` of `batchEmbedAIFields`: the candidates of one section. */
  method CollectFromFields(fields: seq<Field>) returns (found: seq<AiField>)
    ensures found == AiFieldsIn(fields)
  {
    found := [];
    for j := 0 to |fields|
      invariant found == AiFieldsIn(fields[..j])
    {
      Seqs.TakeTake(fields, j);
      var field := fields[j];
      if field.isCustom && field.aiContext.Some? && field.aiContext.value.placeholder != "" {
        var ctx := field.aiContext.value;
        found := found + [AiField(field.tag, field.labelText, SearchCandidates(ctx), ctx)];
      }
    }
    assert fields[..|fields|] == fields;
  }

  /** The outer `forEach` of `batchEmbedAIFields` that collects `aiFieldsRaw`. */
  method CollectAiFields(config: seq<Section>) returns (raw: seq<AiField>)
    ensures raw == AiFieldsOf(config)
  {
    raw := [];
    for i := 0 to |config|
      invariant raw == AiFieldsOf(config[..i])
    {
      Seqs.TakeTake(config, i);
      if config[i].fields.Some? {
        var found := CollectFromFields(config[i].fields.value);
        raw := raw + found;
      }
    }
    assert config[..|config|] == config;
  }

  const EMPTY_FIELD_REASON := "空字段"
  const GENERIC_FIELD_REASON := "通用临时字段（Field_x）"
  const SAMPLE_REASON := "样例占位字段（包含“请输入/示例”）"
  const GENERIC_DATE_REASON := "泛化日期字段（已由年/月等更细粒度字段覆盖）"

  /** `/^Field_\d+$/i`. */
  predicate GenericFieldTag(tag: string)
  {
    |tag| > 6 && (forall k | 0 <= k < 6 :: LowerChar(tag[k]) == "field_"[k])
    && forall k | 6 <= k < |tag| :: IsDigit(tag[k])
  }

  /** `/a.*b/i` for lower-case literals `a` and `b`: `a`, then `b` later on the same line. */
  predicate FollowedOnLine(s: string, a: string, b: string)
  {
    exists i, j | 0 <= i <= |s| && i + |a| <= j <= |s| ::
      OccursAt(Lower(s), a, i) && OccursAt(Lower(s), b, j)
      && forall k | i + |a| <= k < j :: !IsLineTerminator(s[k])
  }

  /** `/agreement_duration|effective.*date|validity.*date/i`. */
  predicate DurationTag(tag: string)
  {
    ContainsCI(tag, "agreement_duration") || FollowedOnLine(tag, "effective", "date") || FollowedOnLine(tag, "validity", "date")
  }

  /** `s.replace(/[_＿\s]+/g, "")`. */
  function StripBlanks(s: string): string
  {
    Filter(s, c => !(c == '_' || c == '＿' || IsSpace(c)))
  }

  /**
   * `getAICandidateFilterReason`: why a candidate is not embedded, or `""`. Once the blanks are
   * stripped, `/年\s*月\s*日/` can only match the three characters in a row.
   */
  function FilterReason(field: Option<AiField>): string
  {
    if field.None? then EMPTY_FIELD_REASON
    else
      var f := field.value;
      var ctx := f.aiContext;
      var samples := ["请输入", "示例", "样例", "example"];
      if GenericFieldTag(f.tag) then GENERIC_FIELD_REASON
      else if AnyCI(ctx.context, samples) || AnyCI(ctx.placeholder, samples) || AnyCI(f.labelText, samples) then SAMPLE_REASON
      else if (DurationTag(f.tag) || Any(f.labelText, ["协议有效期至", "有效期至"]))
              && Contains(StripBlanks(ctx.placeholder), "年月日") then GENERIC_DATE_REASON
      else ""
  }

  /** The tags the fallback extractor invents, `Field_1`, `Field_2`, …, match `/^Field_\d+$/i`. */
  lemma FallbackTagGeneric(n: nat)
    ensures GenericFieldTag(KimiBridge.FieldTag(n))
  {
    var digits := NatToString(n);
    var tag := KimiBridge.FieldTag(n);
    assert tag == "Field_" + digits;
    assert forall k | 6 <= k < |tag| :: tag[k] == digits[k - 6];
  }

  /** So a fallback variable is never embedded. */
  lemma FallbackTagsFiltered(f: AiField, n: nat)
    requires f.tag == KimiBridge.FieldTag(n)
    ensures FilterReason(Some(f)) == GENERIC_FIELD_REASON
  {
    FallbackTagGeneric(n);
  }

  /** A candidate with sample wording anywhere is filtered, unless its tag is already a generic one. */
  lemma SampleWordingFiltered(f: AiField, word: string)
    requires word in ["请输入", "示例", "样例", "example"]
    requires ContainsCI(f.labelText, word) || ContainsCI(f.aiContext.context, word) || ContainsCI(f.aiContext.placeholder, word)
    ensures FilterReason(Some(f)) != ""
  {
    var samples := ["请输入", "示例", "样例", "example"];
    var k :| 0 <= k < 4 && samples[k] == word;
    if ContainsCI(f.labelText, word) {
      AnyWitness(f.labelText, samples, k);
    } else if ContainsCI(f.aiContext.context, word) {
      AnyWitness(f.aiContext.context, samples, k);
    } else {
      AnyWitness(f.aiContext.placeholder, samples, k);
    }
  }

  /** Sample wording in the label, the context or the placeholder. */
  predicate HasSampleWording(f: AiField)
  {
    var samples := ["请输入", "示例", "样例", "example"];
    AnyCI(f.aiContext.context, samples) || AnyCI(f.aiContext.placeholder, samples) || AnyCI(f.labelText, samples)
  }

  /** The validity-date test: a duration tag or a label naming 有效期至, with a placeholder that
      reads 年月日 once blanks and underscores are stripped. */
  predicate GenericDate(f: AiField)
  {
    (DurationTag(f.tag) || Contains(f.labelText, "有效期至")) && Contains(StripBlanks(f.aiContext.placeholder), "年月日")
  }

  /** `/协议有效期至|有效期至/` matches exactly when 有效期至 occurs, since the first alternative
      contains the second. */
  lemma ValidityLabel(text: string)
    ensures Any(text, ["协议有效期至", "有效期至"]) <==> Contains(text, "有效期至")
  {
    var lits := ["协议有效期至", "有效期至"];
    if Contains(text, "有效期至") {
      assert Contains(text, lits[1]);
    }
    if Any(text, lits) {
      var k :| 0 <= k < 2 && Contains(text, lits[k]);
      if k == 0 {
        var i := IndexOf(text, lits[0]).value;
        assert text[i + 2..i + 6] == text[i..i + 6][2..] == "有效期至";
        assert OccursAt(text, "有效期至", i + 2);
      }
    }
  }

  /** A generic validity-date candidate with no earlier reason is filtered as a generic date. */
  lemma GenericDateFiltered(f: AiField)
    requires !GenericFieldTag(f.tag) && !HasSampleWording(f) && GenericDate(f)
    ensures FilterReason(Some(f)) == GENERIC_DATE_REASON
  {
    ValidityLabel(f.labelText);
  }

  /** A candidate is kept exactly when none of the three reasons applies: no `Field_N` tag, no
      sample wording, and not a generic validity date. */
  lemma FilterReasonEmpty(f: AiField)
    ensures FilterReason(Some(f)) == "" <==> !GenericFieldTag(f.tag) && !HasSampleWording(f) && !GenericDate(f)
  {
    ValidityLabel(f.labelText);
  }

  lemma AnyWitness(s: string, lits: seq<string>, k: nat)
    requires k < |lits| && ContainsCI(s, lits[k])
    ensures AnyCI(s, lits)
  {
  }

  // ---------------------------------------------------------------- batch embedding

  /** `result.detail`: a missing string is `""`. */
  datatype Detail = Detail(status: string, strategy: string)

  /** What `insertControlBySearch` resolves to; `message` is `None` when it is not a string. */
  datatype InsertResult = InsertResult(success: bool, message: Option<string>, detail: Option<Detail>)

  /** A call that resolved (possibly to nothing) or threw an error with the given message. */
  datatype Outcome = Returned(result: Option<InsertResult>) | Threw(errorMessage: string)

  /** A row of the embedding report; score, anchors and snippet are not kept. */
  datatype Entry = Entry(tag: string, labelText: string, success: bool, status: string, reason: string, strategy: string)

  const EXISTING_PREFIX := "已存在埋点"
  const CONFLICT_PREFIX := "与已有埋点位置重叠，自动跳过: "
  const UNKNOWN_RESULT := "未知结果"
  const UNKNOWN_ERROR := "未知错误"

  function DetailOf(r: Option<InsertResult>): Detail
  {
    if r.Some? && r.value.detail.Some? then r.value.detail.value else Detail("", "")
  }

  /** `alreadyExists`: the detail says so, or the message starts with 已存在埋点. */
  predicate AlreadyExists(r: Option<InsertResult>)
  {
    DetailOf(r).status == "already_exists"
    || (r.Some? && r.value.message.Some? && StartsWith(r.value.message.value, EXISTING_PREFIX))
  }

  /** `overlapConflict`. */
  predicate Conflict(r: Option<InsertResult>) { DetailOf(r).status == "conflict" }

  predicate Succeeded(r: Option<InsertResult>) { r.Some? && r.value.success }

  /** The report row of one attempted field. */
  function EntryOf(f: AiField, o: Outcome): (e: Entry)
    ensures e.status == "success" || e.status == "skip" || e.status == "fail"
  {
    match o
    case Threw(msg) =>
      Entry(f.tag, f.labelText, false, "fail", if msg != "" then msg else UNKNOWN_ERROR, "exception")
    case Returned(r) =>
      var skipped := AlreadyExists(r) || Conflict(r);
      var status := if Succeeded(r) then "success" else if skipped then "skip" else "fail";
      var message := if r.Some? && r.value.message.Some? && r.value.message.value != "" then r.value.message.value else UNKNOWN_RESULT;
      var strategy := if DetailOf(r).strategy != "" then DetailOf(r).strategy else if skipped then "existing" else "unknown";
      Entry(f.tag, f.labelText, Succeeded(r), status,
            if status == "skip" && Conflict(r) then CONFLICT_PREFIX + message else message, strategy)
  }

  /**
   * A row is a success exactly when the call resolved with `success`, a skip exactly when it
   * otherwise reported an existing control or an overlap, and a failure in every other case,
   * a thrown error included; it always names its field and gives a reason.
   */
  lemma EntryOfStatus(f: AiField, o: Outcome)
    ensures var e := EntryOf(f, o);
            (e.status == "success" <==> o.Returned? && Succeeded(o.result))
            && (e.status == "skip" <==> o.Returned? && !Succeeded(o.result) && (AlreadyExists(o.result) || Conflict(o.result)))
            && (e.status == "fail" <==> o.Threw? || (!Succeeded(o.result) && !AlreadyExists(o.result) && !Conflict(o.result)))
            && (e.success <==> e.status == "success")
            && e.tag == f.tag && e.labelText == f.labelText && e.reason != ""
  {
  }

  /** `getEmbedEntryStatus`: the explicit status, else success or fail. */
  function EntryStatus(entry: Option<Entry>): (r: string)
    ensures entry.Some? && entry.value.status != "" ==> r == entry.value.status
    ensures entry.None? ==> r == "fail"
  {
    if entry.None? then "fail"
    else if entry.value.status != "" then entry.value.status
    else if entry.value.success then "success" else "fail"
  }

  /** The report row of a filtered candidate. */
  function FilteredEntry(f: AiField, reason: string): Entry
  {
    Entry("", f.labelText, false, "filtered", reason, "filter")
  }

  /** The candidates that pass the filter, in order. */
  function Passing(raw: seq<AiField>): (r: seq<AiField>)
    ensures |r| <= |raw|
    ensures forall k :: 0 <= k < |r| ==> FilterReason(Some(r[k])) == ""
  {
    if raw == [] then []
    else Passing(raw[..|raw| - 1]) + (if FilterReason(Some(raw[|raw| - 1])) == "" then [raw[|raw| - 1]] else [])
  }

  /** The report rows of the rejected candidates, in order. */
  function Rejected(raw: seq<AiField>): (r: seq<Entry>)
    ensures forall k :: 0 <= k < |r| ==> r[k].status == "filtered" && r[k].reason != ""
  {
    if raw == [] then []
    else
      var f := raw[|raw| - 1];
      var reason := FilterReason(Some(f));
      Rejected(raw[..|raw| - 1]) + (if reason != "" then [FilteredEntry(f, reason)] else [])
  }

  /** One more candidate: a row when it is rejected, else one more field to try. */
  lemma SplitStep(raw: seq<AiField>, i: nat, reason: string)
    requires i < |raw| && reason == FilterReason(Some(raw[i]))
    ensures Rejected(raw[..i + 1]) == Rejected(raw[..i]) + (if reason != "" then [FilteredEntry(raw[i], reason)] else [])
    ensures Passing(raw[..i + 1]) == Passing(raw[..i]) + (if reason == "" then [raw[i]] else [])
  {
    Seqs.TakeTake(raw, i);
  }

  /** Every candidate is either attempted or reported as filtered. */
  lemma {:induction false} PartitionSizes(raw: seq<AiField>)
    ensures |Passing(raw)| + |Rejected(raw)| == |raw|
  {
    if raw != [] {
      PartitionSizes(raw[..|raw| - 1]);
    }
  }

  /** The rows of the attempted candidates, given what each insertion did. */
  function Attempts(fields: seq<AiField>, insert: AiField -> Outcome): (r: seq<Entry>)
    ensures |r| == |fields|
    ensures forall k :: 0 <= k < |r| ==> r[k] == EntryOf(fields[k], insert(fields[k]))
  {
    if fields == [] then [] else Attempts(fields[..|fields| - 1], insert) + [EntryOf(fields[|fields| - 1], insert(fields[|fields| - 1]))]
  }

  /** One more attempt is one more row. */
  lemma AttemptStep(fields: seq<AiField>, i: nat, insert: AiField -> Outcome, entry: Entry)
    requires i < |fields| && entry == EntryOf(fields[i], insert(fields[i]))
    ensures Attempts(fields[..i + 1], insert) == Attempts(fields[..i], insert) + [entry]
  {
    Seqs.TakeTake(fields, i);
  }

  /** How many rows have the given status. */
  function CountStatus(entries: seq<Entry>, status: string): nat
  {
    if entries == [] then 0
    else CountStatus(entries[..|entries| - 1], status) + (if entries[|entries| - 1].status == status then 1 else 0)
  }

  /** Appending a row adds one to the count of its status. */
  lemma CountSnoc(entries: seq<Entry>, e: Entry, status: string)
    ensures CountStatus(entries + [e], status) == CountStatus(entries, status) + (if e.status == status then 1 else 0)
  {
    assert (entries + [e])[..|entries|] == entries;
  }

  /** Rows that are each a success, a skip or a failure are counted once in exactly one of the three. */
  lemma {:induction false} CountsAddUp(entries: seq<Entry>)
    requires forall k :: 0 <= k < |entries| ==> entries[k].status in ["success", "skip", "fail"]
    ensures CountStatus(entries, "success") + CountStatus(entries, "skip") + CountStatus(entries, "fail") == |entries|
  {
    if entries != [] {
      CountsAddUp(entries[..|entries| - 1]);
    }
  }

  /** Every row of the report already carries the status `getEmbedEntryStatus` reads back. */
  lemma ReportStatusesRead(raw: seq<AiField>, insert: AiField -> Outcome, k: nat)
    requires k < |Rejected(raw) + Attempts(Passing(raw), insert)|
    ensures var e := (Rejected(raw) + Attempts(Passing(raw), insert))[k];
            EntryStatus(Some(e)) == e.status && e.status in ["success", "skip", "fail", "filtered"]
  {
    var rej := Rejected(raw);
    if k >= |rej| {
      var att := Attempts(Passing(raw), insert);
      assert (rej + att)[k] == att[k - |rej|];
    }
  }

  /** The `summary` of `batchEmbedAIFields`. */
  datatype Summary = Summary(source: string, total: nat, attempted: nat, successCount: nat, skipCount: nat,
                             filteredCount: nat, failCount: nat, entries: seq<Entry>)

  /**
   * `batchEmbedAIFields`: collect the candidates, report the filtered ones, try the others in
   * order with `insert` standing for `insertControlBySearch`, and count the outcomes.
   */
  method BatchEmbed(config: seq<Section>, source: string, insert: AiField -> Outcome) returns (summary: Summary)
    ensures var raw := AiFieldsOf(config);
            var attempts := Attempts(Passing(raw), insert);
            summary.total == |raw| && summary.attempted == |Passing(raw)|
            && summary.filteredCount == |Rejected(raw)|
            && summary.entries == Rejected(raw) + attempts
            && summary.successCount == CountStatus(attempts, "success")
            && summary.skipCount == CountStatus(attempts, "skip")
            && summary.failCount == CountStatus(attempts, "fail")
    ensures summary.successCount + summary.skipCount + summary.failCount == summary.attempted
    ensures summary.attempted + summary.filteredCount == summary.total
    ensures summary.source == source
  {
    var raw := CollectAiFields(config);
    if |raw| == 0 {
      return Summary(source, 0, 0, 0, 0, 0, 0, []);
    }
    var filtered, aiFields := SplitCandidates(raw);
    var attempts, successCount, skipCount, failCount := TryAll(aiFields, insert);
    PartitionSizes(raw);
    summary := Summary(source, |raw|, |aiFields|, successCount, skipCount, |filtered|, failCount, filtered + attempts);
  }

  /** The `for` loop of `batchEmbedAIFields`: one row per field, and the three counters. */
  method TryAll(aiFields: seq<AiField>, insert: AiField -> Outcome)
    returns (attempts: seq<Entry>, successCount: nat, skipCount: nat, failCount: nat)
    ensures attempts == Attempts(aiFields, insert)
    ensures successCount == CountStatus(attempts, "success") && skipCount == CountStatus(attempts, "skip")
            && failCount == CountStatus(attempts, "fail")
    ensures successCount + skipCount + failCount == |aiFields|
  {
    attempts := [];
    successCount, skipCount, failCount := 0, 0, 0;
    for i := 0 to |aiFields|
      invariant attempts == Attempts(aiFields[..i], insert)
      invariant successCount == CountStatus(attempts, "success")
      invariant skipCount == CountStatus(attempts, "skip")
      invariant failCount == CountStatus(attempts, "fail")
    {
      var entry := EntryOf(aiFields[i], insert(aiFields[i]));
      AttemptStep(aiFields, i, insert, entry);
      CountSnoc(attempts, entry, "success");
      CountSnoc(attempts, entry, "skip");
      CountSnoc(attempts, entry, "fail");
      attempts := attempts + [entry];
      if entry.status == "success" {
        successCount := successCount + 1;
      } else if entry.status == "skip" {
        skipCount := skipCount + 1;
      } else {
        failCount := failCount + 1;
      }
    }
    assert aiFields[..|aiFields|] == aiFields;
    CountsAddUp(attempts);
  }

  /** The `aiFieldsRaw.forEach` that sorts candidates into the filtered rows and the fields to try. */
  method SplitCandidates(raw: seq<AiField>) returns (filtered: seq<Entry>, aiFields: seq<AiField>)
    ensures filtered == Rejected(raw) && aiFields == Passing(raw)
  {
    filtered, aiFields := [], [];
    for i := 0 to |raw|
      invariant filtered == Rejected(raw[..i]) && aiFields == Passing(raw[..i])
    {
      var reason := FilterReason(Some(raw[i]));
      SplitStep(raw, i, reason);
      if reason != "" {
        filtered := filtered + [FilteredEntry(raw[i], reason)];
      } else {
        aiFields := aiFields + [raw[i]];
      }
    }
    assert raw[..|raw|] == raw;
  }

  // ---------------------------------------------------------------- visible sections

  /** Every field is an `html_placeholder` (`fields.every(...)`). */
  function AllPlaceholders(fields: seq<Field>): (r: bool)
    ensures r <==> forall k :: 0 <= k < |fields| ==> fields[k].fieldType == "html_placeholder"
  {
    fields == [] || (fields[0].fieldType == "html_placeholder" && AllPlaceholders(fields[1..]))
  }

  /** `isPlaceholderOnlySection`: a section whose field list is non-empty and holds only placeholders. */
  function PlaceholderOnly(section: Option<Section>): (r: bool)
    ensures r <==> section.Some? && section.value.fields.Some? && |section.value.fields.value| > 0
                   && forall k :: 0 <= k < |section.value.fields.value| ==> section.value.fields.value[k].fieldType == "html_placeholder"
  {
    var fields := if section.Some? && section.value.fields.Some? then section.value.fields.value else [];
    |fields| > 0 && AllPlaceholders(fields)
  }

  /** The sections `buildForm` shows, in order. */
  function VisibleSections(config: seq<Section>): (r: seq<Section>)
    ensures |r| <= |config|
    ensures forall k :: 0 <= k < |r| ==> r[k] in config && !PlaceholderOnly(Some(r[k]))
  {
    if config == [] then []
    else VisibleSections(config[..|config| - 1]) + (if PlaceholderOnly(Some(config[|config| - 1])) then [] else [config[|config| - 1]])
  }

  /** A section that is not placeholder-only is shown. */
  lemma {:induction false} OrdinarySectionShown(config: seq<Section>, i: nat)
    requires i < |config| && !PlaceholderOnly(Some(config[i]))
    ensures config[i] in VisibleSections(config)
  {
    var init := config[..|config| - 1];
    if i < |init| {
      assert init[i] == config[i];
      OrdinarySectionShown(init, i);
    }
  }

  // ---------------------------------------------------------------- field editor

  /** Where `saveFieldEdit` stops. */
  datatype EditOutcome = EmptyLabel | MissingField | NeedsOptions | Saved

  /** `contractConfig.find(s => s.id === id)`, as a position. */
  function FindSection(config: seq<Section>, id: string): (r: Option<nat>)
    ensures r.Some? ==> r.value < |config| && config[r.value].id == id
    ensures r.Some? ==> forall k :: 0 <= k < r.value ==> config[k].id != id
    ensures r.None? ==> forall k :: 0 <= k < |config| ==> config[k].id != id
  {
    if config == [] then None
    else if config[0].id == id then Some(0)
    else
      var r := FindSection(config[1..], id);
      if r.Some? then Some(r.value + 1) else None
  }

  /** The section and position `saveFieldEdit` edits, when `section.fields[fieldIndex]` exists. */
  function Locate(config: seq<Section>, sectionId: string, fieldIndex: Option<int>): (r: Option<(nat, nat)>)
    ensures r.Some? ==> r.value.0 < |config| && config[r.value.0].fields.Some?
                        && r.value.1 < |config[r.value.0].fields.value|
    ensures r.Some? <==> FindSection(config, sectionId).Some? && config[FindSection(config, sectionId).value].fields.Some?
                         && fieldIndex.Some? && 0 <= fieldIndex.value < |config[FindSection(config, sectionId).value].fields.value|
  {
    var s := FindSection(config, sectionId);
    if s.Some? && config[s.value].fields.Some? && fieldIndex.Some?
       && 0 <= fieldIndex.value < |config[s.value].fields.value|
    then Some((s.value, fieldIndex.value as nat))
    else None
  }

  /** The field after the label and type are written and, for a non-choice type, the format. */
  function Relabelled(f: Field, name: string, newType: string, newFormat: string): (g: Field)
    ensures g.labelText == name && g.fieldType == newType && g.tag == f.tag && g.options == f.options
    ensures IsChoice(newType) ==> g.formatFn == f.formatFn
    ensures !IsChoice(newType) ==> (g.formatFn.Some? <==> newFormat != "" && newFormat != "none")
  {
    var g := f.(labelText := name, fieldType := newType);
    if IsChoice(newType) then g
    else g.(formatFn := if newFormat != "" && newFormat != "none" then Some(newFormat) else None)
  }

  /** `config` with field `fi` of section `si` replaced. */
  function SetField(config: seq<Section>, si: nat, fi: nat, f: Field): seq<Section>
    requires si < |config| && config[si].fields.Some? && fi < |config[si].fields.value|
  {
    config[si := config[si].(fields := Some(config[si].fields.value[fi := f]))]
  }

  /** The field moved to the end of the first section with id `target`; it is dropped when that section has no field list. */
  function MoveField(config: seq<Section>, si: nat, fi: nat, f: Field, target: string): seq<Section>
    requires si < |config| && config[si].fields.Some? && fi < |config[si].fields.value|
  {
    var fields := config[si].fields.value;
    var removed := config[si := config[si].(fields := Some(fields[..fi] + fields[fi + 1..]))];
    var t := FindSection(removed, target);
    if t.Some? && removed[t.value].fields.Some?
    then removed[t.value := removed[t.value].(fields := Some(removed[t.value].fields.value + [f]))]
    else removed
  }

  /** The number of top-level fields of all sections. */
  function FieldCount(config: seq<Section>): nat
  {
    if config == [] then 0
    else FieldCount(config[..|config| - 1]) + (if config[|config| - 1].fields.Some? then |config[|config| - 1].fields.value| else 0)
  }

  /** Changing one section's field list changes the count by the difference in its length. */
  lemma {:induction false} FieldCountUpdate(config: seq<Section>, i: nat, s: Section)
    requires i < |config|
    ensures FieldCount(config[i := s]) + (if config[i].fields.Some? then |config[i].fields.value| else 0)
            == FieldCount(config) + (if s.fields.Some? then |s.fields.value| else 0)
  {
    var n := |config|;
    if i < n - 1 {
      assert config[i := s][..n - 1] == config[..n - 1][i := s];
      FieldCountUpdate(config[..n - 1], i, s);
    } else {
      assert config[i := s][..n - 1] == config[..n - 1];
    }
  }

  /** Moving a field keeps the number of fields when the target section has a field list, and loses it otherwise. */
  lemma MoveFieldCount(config: seq<Section>, si: nat, fi: nat, f: Field, target: string)
    requires si < |config| && config[si].fields.Some? && fi < |config[si].fields.value|
    ensures var fields := config[si].fields.value;
            var removed := config[si := config[si].(fields := Some(fields[..fi] + fields[fi + 1..]))];
            var t := FindSection(removed, target);
            FieldCount(MoveField(config, si, fi, f, target))
            == if t.Some? && removed[t.value].fields.Some? then FieldCount(config) else FieldCount(config) - 1
  {
    var fields := config[si].fields.value;
    var removed := config[si := config[si].(fields := Some(fields[..fi] + fields[fi + 1..]))];
    FieldCountUpdate(config, si, removed[si]);
    var t := FindSection(removed, target);
    if t.Some? && removed[t.value].fields.Some? {
      FieldCountUpdate(removed, t.value, removed[t.value].(fields := Some(removed[t.value].fields.value + [f])));
    }
  }

  /** Editing in place keeps the number of fields. */
  lemma SetFieldCount(config: seq<Section>, si: nat, fi: nat, f: Field)
    requires si < |config| && config[si].fields.Some? && fi < |config[si].fields.value|
    ensures FieldCount(SetField(config, si, fi, f)) == FieldCount(config)
  {
    FieldCountUpdate(config, si, config[si].(fields := Some(config[si].fields.value[fi := f])));
  }
}
