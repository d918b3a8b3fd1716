/**
 * The skill-candidate store: successful `custom.execute` runs are kept as draft candidates
 * for new built-in skills, validated, published or deprecated, listed and counted.
 * Candidate ids (date plus random text) and timestamps come from outside the model: the
 * id is a parameter and timestamps are not recorded.
 */
module SkillEvolution {
  import opened Wrappers
  import opened Text
  import opened JsonValue
  import Seqs

  const DEPRECATION_THRESHOLD: nat := 3
  /** `VALIDATION_SUCCESS_RATE`, 0.8. */
  const VALIDATION_SUCCESS_RATE: real := 0.8

  datatype Status = Draft | Validating | Approved | Published | Deprecated

  function StatusName(s: Status): (r: string)
    ensures r != ""
  {
    match s
    case Draft => "draft"
    case Validating => "validating"
    case Approved => "approved"
    case Published => "published"
    case Deprecated => "deprecated"
  }

  lemma StatusNameInjective(a: Status, b: Status)
    ensures StatusName(a) == StatusName(b) ==> a == b
  {
  }

  /** A validation report; the placeholder validation never runs a sample. */
  datatype Report = Report(successRate: real, samplesTested: nat, passed: bool)

  const PLACEHOLDER_REPORT := Report(0.0, 0, false)

  datatype Candidate = Candidate(
    id: string,
    status: Status,
    customCode: Option<Value>,
    effectCount: Value,
    params: Option<Value>,
    reports: seq<Report>,
    validationFailures: nat,
    publishedBy: Option<Value>,
    deprecationReason: Option<Value>)

  /** The checks of `collectCandidateFromExecution`: the step must be a `custom.execute`
      whose result reports success and whose effect count is truthy (not `0`). */
  function CandidateFrom(stepResult: Option<Value>, id: string): (r: Option<Candidate>)
    ensures r.Some? <==>
              && TruthyOpt(stepResult)
              && Get(stepResult.value, "skill") == Some(Str("custom.execute"))
              && var meta := Get(stepResult.value, "executionMeta");
                 var m := if TruthyOpt(meta) then meta.value else Obj([]);
                 && TruthyOpt(Get(m, "result"))
                 && TruthyOpt(Get(Get(m, "result").value, "success"))
                 && TruthyOpt(Get(m, "effectCount"))
    ensures r.Some? ==> r.value.id == id && r.value.status == Draft && r.value.validationFailures == 0 && r.value.reports == []
  {
    if !TruthyOpt(stepResult) || Get(stepResult.value, "skill") != Some(Str("custom.execute")) then None
    else
      var meta := Get(stepResult.value, "executionMeta");
      var m := if TruthyOpt(meta) then meta.value else Obj([]);
      var result := Get(m, "result");
      if !TruthyOpt(result) || !TruthyOpt(Get(result.value, "success")) then None
      else
        var effects := Get(m, "effectCount");
        if !TruthyOpt(effects) then None
        else Some(Candidate(id, Draft, Get(m, "customCode"), effects.value, Get(stepResult.value, "params"), [], 0, None, None))
  }

  /** One validation of a candidate: a report is added and, since the success rate is 0,
      the failure count rises; at the threshold the candidate is deprecated, else a draft. */
  function Validated(c: Candidate): (r: Candidate)
    ensures r.validationFailures == c.validationFailures + 1 && r.reports == c.reports + [PLACEHOLDER_REPORT]
    ensures r.status == Deprecated <==> c.validationFailures + 1 >= DEPRECATION_THRESHOLD
    ensures r.status == Draft <==> c.validationFailures + 1 < DEPRECATION_THRESHOLD
    ensures r.id == c.id
  {
    var report := PLACEHOLDER_REPORT;
    if report.successRate >= VALIDATION_SUCCESS_RATE then c.(status := Approved, reports := c.reports + [report])
    else
      var failures := c.validationFailures + 1;
      c.(status := if failures >= DEPRECATION_THRESHOLD then Deprecated else Draft,
         reports := c.reports + [report], validationFailures := failures)
  }

  /** `filter.status` when both are truthy: only candidates with that status pass. */
  predicate Matches(filter: Option<Value>, c: Candidate)
  {
    !(TruthyOpt(filter) && TruthyOpt(Get(filter.value, "status")) && Get(filter.value, "status").value != Str(StatusName(c.status)))
  }

  /** The candidates the index lists, in index order, skipping ids no longer stored. */
  function Listed(index: seq<string>, store: map<string, Candidate>, filter: Option<Value>): (r: seq<Candidate>)
    ensures |r| <= |index|
  {
    if index == [] then []
    else
      var id := index[|index| - 1];
      Listed(index[..|index| - 1], store, filter)
        + (if id in store && Matches(filter, store[id]) then [store[id]] else [])
  }

  /** A listed candidate is exactly a stored candidate the index names and the filter passes. */
  lemma {:induction false} ListedMeaning(index: seq<string>, store: map<string, Candidate>, filter: Option<Value>, c: Candidate)
    ensures c in Listed(index, store, filter) <==>
              Matches(filter, c) && exists j :: 0 <= j < |index| && index[j] in store && store[index[j]] == c
  {
    if index != [] {
      var init := index[..|index| - 1];
      ListedMeaning(init, store, filter, c);
      assert forall j :: 0 <= j < |init| ==> init[j] == index[j];
      if Matches(filter, c) && exists j :: 0 <= j < |index| && index[j] in store && store[index[j]] == c {
        var j :| 0 <= j < |index| && index[j] in store && store[index[j]] == c;
        if j < |init| {
          assert init[j] in store && store[init[j]] == c;
        }
      }
    }
  }

  /** `getCandidates`' loop. */
  method ListCandidates(index: seq<string>, store: map<string, Candidate>, filter: Option<Value>) returns (result: seq<Candidate>)
    ensures result == Listed(index, store, filter)
  {
    result := [];
    for i := 0 to |index|
      invariant result == Listed(index[..i], store, filter)
    {
      Seqs.TakeTake(index, i);
      var id := index[i];
      if id !in store {
        continue;
      }
      var candidate := store[id];
      if TruthyOpt(filter) && TruthyOpt(Get(filter.value, "status")) && Get(filter.value, "status").value != Str(StatusName(candidate.status)) {
        continue;
      }
      result := result + [candidate];
    }
    assert index[..|index|] == index;
  }

  /** The number of index entries naming a stored candidate with status `s`. */
  function CountOf(index: seq<string>, store: map<string, Candidate>, s: Status): nat
  {
    if index == [] then 0
    else
      var id := index[|index| - 1];
      CountOf(index[..|index| - 1], store, s) + (if id in store && store[id].status == s then 1 else 0)
  }

  /** The number of index entries naming a stored candidate. */
  function Present(index: seq<string>, store: map<string, Candidate>): (r: nat)
    ensures r <= |index|
  {
    if index == [] then 0
    else Present(index[..|index| - 1], store) + (if index[|index| - 1] in store then 1 else 0)
  }

  /** `stats.byStatus`: a status appears once some listed candidate has it. */
  ghost predicate CountsOf(byStatus: map<Status, nat>, index: seq<string>, store: map<string, Candidate>)
  {
    forall s :: (s in byStatus <==> CountOf(index, store, s) > 0) && (s in byStatus ==> byStatus[s] == CountOf(index, store, s))
  }

  /** The loop of `getStats`. */
  method CountByStatus(index: seq<string>, store: map<string, Candidate>) returns (byStatus: map<Status, nat>)
    ensures CountsOf(byStatus, index, store)
  {
    byStatus := map[];
    for i := 0 to |index|
      invariant CountsOf(byStatus, index[..i], store)
    {
      Seqs.TakeTake(index, i);
      var id := index[i];
      if id in store {
        var s := store[id].status;
        byStatus := byStatus[s := (if s in byStatus then byStatus[s] else 0) + 1];
      }
    }
    assert index[..|index|] == index;
  }

  /** The by-status counts add up to the number of stored candidates the index names. */
  lemma {:induction false} CountsSum(index: seq<string>, store: map<string, Candidate>)
    ensures CountOf(index, store, Draft) + CountOf(index, store, Validating) + CountOf(index, store, Approved)
            + CountOf(index, store, Published) + CountOf(index, store, Deprecated) == Present(index, store)
  {
    if index != [] {
      CountsSum(index[..|index| - 1], store);
    }
  }

  /** With every index entry stored, all of the index is counted. */
  lemma {:induction false} PresentAll(index: seq<string>, store: map<string, Candidate>)
    requires forall j :: 0 <= j < |index| ==> index[j] in store
    ensures Present(index, store) == |index|
  {
    if index != [] {
      PresentAll(index[..|index| - 1], store);
    }
  }

  /** `Array.prototype.indexOf`. */
  function FirstIndex(index: seq<string>, id: string): (r: Option<nat>)
    ensures r.Some? ==> r.value < |index| && index[r.value] == id && forall j :: 0 <= j < r.value ==> index[j] != id
    ensures r.None? ==> id !in index
  {
    if index == [] then None
    else if index[0] == id then Some(0)
    else
      match FirstIndex(index[1..], id)
      case None => None
      case Some(k) => Some(k + 1)
  }

  /** `splice(indexOf(id), 1)` when present. */
  function RemoveFirst(index: seq<string>, id: string): (r: seq<string>)
    ensures id in index ==> |r| == |index| - 1
    ensures id !in index ==> r == index
    ensures forall x :: x in r ==> x in index
    ensures forall x :: x in index && x != id ==> x in r
  {
    match FirstIndex(index, id)
    case None => index
    case Some(k) =>
      assert forall x :: x in index && x != id ==> x in index[..k] || x in index[k + 1..] by {
        assert index == index[..k] + [index[k]] + index[k + 1..];
      }
      index[..k] + index[k + 1..]
  }

  /** With distinct entries, removing one leaves the others distinct and drops it. */
  lemma RemoveFirstDistinct(index: seq<string>, id: string)
    requires Distinct(index)
    ensures Distinct(RemoveFirst(index, id)) && id !in RemoveFirst(index, id)
  {
    match FirstIndex(index, id)
    case None =>
    case Some(k) =>
      var r := index[..k] + index[k + 1..];
      forall i, j | 0 <= i < j < |r|
        ensures r[i] != r[j]
      {
        var i', j' := if i < k then i else i + 1, if j < k then j else j + 1;
        assert r[i] == index[i'] && r[j] == index[j'];
      }
  }

  predicate Distinct(index: seq<string>)
  {
    forall i, j :: 0 <= i < j < |index| ==> index[i] != index[j]
  }

  datatype ValidationResult = ValidationResult(passed: bool, report: Report)

  datatype Stats = Stats(total: nat, byStatus: map<Status, nat>)

  /** `extractTemplateFromCustom`'s result; `params` is always empty. */
  datatype Template = Template(description: string, skillName: string, params: seq<Value>, operations: seq<string>)

  /** The operation markers and the names they give, in detection order. */
  const OPERATION_MARKERS: seq<(string, string)> :=
    [(".Font.", "font"), (".ParagraphFormat.", "paragraph"), (".Borders", "border"), (".Shading", "shading")]

  /** The names of the markers `code` contains, in marker order. */
  function Operations(code: string, markers: seq<(string, string)>): (r: seq<string>)
    ensures |r| <= |markers|
    ensures forall x :: x in r ==> exists k :: 0 <= k < |markers| && markers[k].1 == x && Contains(code, markers[k].0)
  {
    if markers == [] then []
    else
      var rest := Operations(code, markers[1..]);
      if Contains(code, markers[0].0) then [markers[0].1] + rest else rest
  }

  /** An operation is reported exactly when its marker occurs in the code. */
  lemma {:induction false} OperationsMeaning(code: string, markers: seq<(string, string)>, k: nat)
    requires k < |markers|
    requires forall i, j :: 0 <= i < j < |markers| ==> markers[i].1 != markers[j].1
    ensures markers[k].1 in Operations(code, markers) <==> Contains(code, markers[k].0)
  {
    if k > 0 {
      OperationsMeaning(code, markers[1..], k - 1);
    } else if markers[0].1 in Operations(code, markers[1..]) {
      var i :| 0 <= i < |markers[1..]| && markers[1..][i].1 == markers[0].1 && Contains(code, markers[1..][i].0);
      assert markers[i + 1].1 == markers[0].1;
    }
  }

  /**
   * `extractTemplateFromCustom`: the skill name is `custom.` with the detected operations
   * joined by `_`, or `custom.general` when none is detected; the description is the first
   * 200 characters of the prompt.
   */
  function ExtractTemplate(code: string, promptText: string): (t: Template)
    ensures t.operations == Operations(code, OPERATION_MARKERS)
    ensures t.operations == [] ==> t.skillName == "custom.general"
    ensures t.operations != [] ==> t.skillName == "custom." + Join(t.operations, "_")
    ensures |t.description| <= 200 && |t.description| <= |promptText| && t.description == promptText[..|t.description|]
    ensures |promptText| <= 200 ==> t.description == promptText
    ensures |promptText| > 200 ==> t.description == promptText[..200]
    ensures t.params == []
  {
    var ops := Operations(code, OPERATION_MARKERS);
    var name := if |ops| > 0 then "custom." + Join(ops, "_") else "custom.general";
    var description := if promptText != "" then promptText[..if |promptText| < 200 then |promptText| else 200] else "";
    Template(description, name, [], ops)
  }

  /** The four markers give four distinct names, so each is detected exactly when present. */
  lemma TemplateOperations(code: string, k: nat)
    requires k < 4
    ensures OPERATION_MARKERS[k].1 in ExtractTemplate(code, "").operations <==> Contains(code, OPERATION_MARKERS[k].0)
  {
    OperationsMeaning(code, OPERATION_MARKERS, k);
  }

  /** The fields `generateCandidateSkillSpec` reads from its input object. */
  datatype TemplateInput = TemplateInput(candidateId: Option<Value>, skillName: Option<Value>, description: Option<Value>,
                                         params: Option<Value>, source: Option<Value>)

  /** A candidate skill's specification; its `execute` text is a fixed stub and is not kept. */
  datatype SkillSpec = SkillSpec(id: Option<Value>, skillName: Value, description: Value, layer: nat,
                                 params: Value, source: Option<Value>)

  /** `generateCandidateSkillSpec`: falsy name, description or params fall back to
      `custom.general`, `''` and `[]`; the layer is always 6. */
  function GenerateSpec(input: TemplateInput): (s: SkillSpec)
    ensures s.layer == 6 && s.id == input.candidateId && s.source == input.source
    ensures Truthy(s.skillName) && Truthy(s.params)
  {
    SkillSpec(input.candidateId,
              if TruthyOpt(input.skillName) then input.skillName.value else Str("custom.general"),
              if TruthyOpt(input.description) then input.description.value else Str(""),
              6,
              if TruthyOpt(input.params) then input.params.value else Arr([]),
              input.source)
  }

  /** The input object built from an extracted template. */
  function InputOf(t: Template, candidateId: Option<Value>, source: Option<Value>): TemplateInput
  {
    TemplateInput(candidateId, Some(Str(t.skillName)), Some(Str(t.description)), Some(Arr(t.params)), source)
  }

  /** A specification generated from an extracted template keeps the template's skill name,
      description and (empty) parameter list unchanged. */
  lemma SpecKeepsTemplate(code: string, promptText: string, candidateId: Option<Value>, source: Option<Value>)
    ensures var t := ExtractTemplate(code, promptText);
            var s := GenerateSpec(InputOf(t, candidateId, source));
            s.skillName == Str(t.skillName) && s.description == Str(t.description) && s.params == Arr([])
            && s.id == candidateId && s.layer == 6
  {
    var t := ExtractTemplate(code, promptText);
    assert t.skillName != "" by {
      if t.operations == [] {
        assert t.skillName == "custom.general";
      } else {
        assert t.skillName == "custom." + Join(t.operations, "_");
        assert |t.skillName| >= 7;
      }
    }
  }

  /** The candidate store: `candidates` by id and `candidateIndex` in insertion order. */
  class Manager {
    var candidates: map<string, Candidate>
    var index: seq<string>

    /**
     * What every operation keeps: each candidate is stored under its id and listed in the
     * index; it has one report per failed validation; and it is a draft below the
     * deprecation threshold or deprecated. No candidate is ever approved or published.
     */
    ghost predicate Valid()
      reads this
    {
      forall id :: id in candidates ==>
        && candidates[id].id == id
        && id in index
        && |candidates[id].reports| == candidates[id].validationFailures
        && (candidates[id].status == Deprecated
            || (candidates[id].status == Draft && candidates[id].validationFailures < DEPRECATION_THRESHOLD))
    }

    /** The index names every stored candidate once and nothing else. */
    ghost predicate Tidy()
      reads this
    {
      Distinct(index) && forall j :: 0 <= j < |index| ==> index[j] in candidates
    }

    constructor()
      ensures Valid() && Tidy()
      ensures candidates == map[] && index == []
    {
      candidates := map[];
      index := [];
    }

    /** `collectCandidateFromExecution`, with the generated id as a parameter. */
    method Collect(stepResult: Option<Value>, id: string) returns (r: Option<Candidate>)
      requires Valid()
      modifies this
      ensures Valid()
      ensures r == CandidateFrom(stepResult, id)
      ensures r.None? ==> candidates == old(candidates) && index == old(index)
      ensures r.Some? ==> candidates == old(candidates)[id := r.value] && index == old(index) + [id]
      ensures old(Tidy()) && id !in old(candidates) ==> Tidy()
    {
      r := CandidateFrom(stepResult, id);
      if r.Some? {
        candidates := candidates[id := r.value];
        index := index + [id];
      }
    }

    /** `validateCandidateSkill`; an unknown id throws. */
    method Validate(id: string) returns (r: Result<ValidationResult, string>)
      requires Valid()
      modifies this
      ensures Valid()
      ensures id !in old(candidates) <==> r.Err?
      ensures r.Err? ==> r.error == "Candidate not found: " + id && candidates == old(candidates)
      ensures r.Ok? ==> r.value == ValidationResult(false, PLACEHOLDER_REPORT)
                           && candidates == old(candidates)[id := Validated(old(candidates)[id])]
      ensures index == old(index)
      ensures old(Tidy()) ==> Tidy()
    {
      if id !in candidates {
        return Err("Candidate not found: " + id);
      }
      var c := candidates[id];
      candidates := candidates[id := Validated(c)];
      r := Ok(ValidationResult(false, PLACEHOLDER_REPORT));
    }

    /**
     * `publishCandidateSkill`: an unknown id or a candidate that is not approved throws.
     * An approved candidate would be marked published and then fail reading its spec,
     * which is never set.
     */
    method Publish(id: string, publisher: Option<Value>) returns (r: Result<string, string>)
      modifies this
      ensures r.Err?
      ensures id !in old(candidates) ==> r.error == "Candidate not found: " + id
      ensures id in old(candidates) && old(candidates)[id].status != Approved ==>
                r.error == "Candidate not approved for publish: " + StatusName(old(candidates)[id].status)
                && candidates == old(candidates)
      ensures id in old(candidates) && old(candidates)[id].status == Approved ==>
                candidates == old(candidates)[id := old(candidates)[id].(status := Published, publishedBy := publisher)]
      ensures id !in old(candidates) ==> candidates == old(candidates)
      ensures index == old(index)
      ensures old(Valid()) ==> candidates == old(candidates) && Valid()
    {
      if id !in candidates {
        return Err("Candidate not found: " + id);
      }
      var c := candidates[id];
      if c.status != Approved {
        return Err("Candidate not approved for publish: " + StatusName(c.status));
      }
      candidates := candidates[id := c.(status := Published, publishedBy := publisher)];
      r := Err("Cannot read properties of null (reading 'skillName')");
    }

    /** `deprecateCandidate`; an unknown id throws. */
    method Deprecate(id: string, reason: Option<Value>) returns (r: Option<string>)
      requires Valid()
      modifies this
      ensures Valid()
      ensures r.Some? <==> id !in old(candidates)
      ensures r.Some? ==> r.value == "Candidate not found: " + id && candidates == old(candidates)
      ensures r.None? ==> candidates == old(candidates)[id := old(candidates)[id].(status := Deprecated, deprecationReason := reason)]
      ensures index == old(index)
      ensures old(Tidy()) ==> Tidy()
    {
      if id !in candidates {
        return Some("Candidate not found: " + id);
      }
      var c := candidates[id];
      candidates := candidates[id := c.(status := Deprecated, deprecationReason := reason)];
      r := None;
    }

    /** `getCandidates`. */
    method GetCandidates(filter: Option<Value>) returns (result: seq<Candidate>)
      ensures result == Listed(index, candidates, filter)
    {
      result := ListCandidates(index, candidates, filter);
    }

    /** `getCandidate`. */
    function GetCandidate(id: string): (r: Option<Candidate>)
      reads this
      ensures r.Some? <==> id in candidates
      ensures r.Some? ==> r.value == candidates[id]
    {
      if id in candidates then Some(candidates[id]) else None
    }

    /** `deleteCandidate`: removes the candidate and its first index entry. */
    method Delete(id: string) returns (deleted: bool)
      requires Valid()
      modifies this
      ensures Valid()
      ensures deleted <==> id in old(candidates)
      ensures deleted ==> candidates == old(candidates) - {id} && index == RemoveFirst(old(index), id)
      ensures !deleted ==> candidates == old(candidates) && index == old(index)
      ensures old(Tidy()) ==> Tidy() && id !in index
    {
      if id !in candidates {
        return false;
      }
      candidates := candidates - {id};
      var idx := FirstIndex(index, id);
      if idx.Some? {
        index := index[..idx.value] + index[idx.value + 1..];
      }
      if old(Tidy()) {
        RemoveFirstDistinct(old(index), id);
      }
      deleted := true;
    }

    /** `getStats`. */
    method GetStats() returns (stats: Stats)
      ensures stats.total == |index|
      ensures CountsOf(stats.byStatus, index, candidates)
    {
      var byStatus := CountByStatus(index, candidates);
      stats := Stats(|index|, byStatus);
    }
  }

  /** Over a tidy store the by-status counts add up to the total. */
  lemma StatsAddUp(index: seq<string>, store: map<string, Candidate>)
    requires forall j :: 0 <= j < |index| ==> index[j] in store
    ensures CountOf(index, store, Draft) + CountOf(index, store, Validating) + CountOf(index, store, Approved)
            + CountOf(index, store, Published) + CountOf(index, store, Deprecated) == |index|
  {
    CountsSum(index, store);
    PresentAll(index, store);
  }

  /** Three validations deprecate a fresh candidate; before that it stays a draft. */
  lemma ThreeStrikes(c: Candidate)
    requires c.status == Draft && c.validationFailures == 0
    ensures Validated(c).status == Draft && Validated(Validated(c)).status == Draft
    ensures Validated(Validated(Validated(c))).status == Deprecated
  {
  }
}
