/**
 * The comparison log: property snapshots taken before and after a command, the
 * entry recording which properties changed, the list of entries with its summary
 * and structured-metrics export, and the one-line human summary of an entry.
 */
module ComparisonLog {
  import opened Wrappers
  import opened Text
  import Seqs

  // ---------------------------------------------------------------- snapshots

  /** A property as captured: `undefined`, or a value whose `String(...)` is `s`. */
  datatype Reading = Undefined | Shown(s: string)

  /** What reading one property of a range gives: a value, or an exception. */
  datatype Readout = Got(r: Reading) | Throws

  /** The text a captured reading is compared by: `undefined` counts as `''`. */
  function Shows(r: Reading): string
  {
    if r.Undefined? then "" else r.s
  }

  /** A captured state, as the keys and values of a plain object in insertion order. */
  type State = seq<(string, Reading)>

  /** `Object.keys(state)`. */
  function KeysOf(state: State): seq<string>
  {
    if state == [] then [] else [state[0].0] + KeysOf(state[1..])
  }

  /** `state[key]`: the value stored under the key, `undefined` when it is not a key. */
  function ReadKey(state: State, key: string): Reading
  {
    if state == [] then Undefined
    else if state[0].0 == key then state[0].1
    else ReadKey(state[1..], key)
  }

  /** `state[key] = x`: an existing key keeps its place, a new key goes last. */
  function Store(state: State, key: string, x: Reading): (r: State)
  {
    if state == [] then [(key, x)]
    else if state[0].0 == key then [(key, x)] + state[1..]
    else [state[0]] + Store(state[1..], key, x)
  }

  /** Storing keeps the keys in place and adds a new key last; only the stored key's value changes. */
  lemma {:induction false} StoreMeaning(state: State, key: string, x: Reading, k: string)
    ensures KeysOf(Store(state, key, x)) == if key in KeysOf(state) then KeysOf(state) else KeysOf(state) + [key]
    ensures ReadKey(Store(state, key, x), k) == if k == key then x else ReadKey(state, k)
  {
    if state != [] && state[0].0 != key {
      StoreMeaning(state[1..], key, x, k);
      assert KeysOf(state) == [state[0].0] + KeysOf(state[1..]);
      assert Store(state, key, x) == [state[0]] + Store(state[1..], key, x);
    }
  }

  /** What a property's capture records: the reading, or `'(无法读取)'` when reading throws. */
  function Captured(out: Readout): Reading
  {
    if out.Throws? then Shown("(无法读取)") else out.r
  }

  /** The state `captureState` builds from the first `n` properties. */
  function StateOf(properties: seq<string>, read: string -> Readout, n: nat): State
    requires n <= |properties|
  {
    if n == 0 then [] else Store(StateOf(properties, read, n - 1), properties[n - 1], Captured(read(properties[n - 1])))
  }

  /** Every listed property, and nothing else, is a key. */
  lemma {:induction false} StateKeys(properties: seq<string>, read: string -> Readout, n: nat, p: string)
    requires n <= |properties|
    ensures p in KeysOf(StateOf(properties, read, n)) <==> p in properties[..n]
  {
    if n > 0 {
      StateKeys(properties, read, n - 1, p);
      var q := properties[n - 1];
      var prev := StateOf(properties, read, n - 1);
      var ks := KeysOf(prev);
      StoreMeaning(prev, q, Captured(read(q)), p);
      assert p in KeysOf(StateOf(properties, read, n)) <==> p in ks || p == q by {
        assert p in ks + [q] <==> p in ks || p == q;
      }
      InPrefix(properties, n, p);
    }
  }

  /** Each listed property holds what reading it gave; any other key reads `undefined`. */
  lemma {:induction false} StateValues(properties: seq<string>, read: string -> Readout, n: nat, p: string)
    requires n <= |properties|
    ensures ReadKey(StateOf(properties, read, n), p) == if p in properties[..n] then Captured(read(p)) else Undefined
  {
    if n > 0 {
      StateValues(properties, read, n - 1, p);
      var q := properties[n - 1];
      var prev := StateOf(properties, read, n - 1);
      StoreMeaning(prev, q, Captured(read(q)), p);
      assert StateOf(properties, read, n) == Store(prev, q, Captured(read(q)));
      InPrefix(properties, n, p);
    }
  }

  /** A property is among the first `n` when it is among the first `n - 1` or is the `n`-th. */
  lemma InPrefix(properties: seq<string>, n: nat, p: string)
    requires 0 < n <= |properties|
    ensures p in properties[..n] <==> p in properties[..n - 1] || p == properties[n - 1]
  {
    assert properties[..n] == properties[..n - 1] + [properties[n - 1]];
  }

  /** `captureState`: nothing without a range, else one key per property read in turn. */
  method CaptureState(hasRange: bool, properties: seq<string>, read: string -> Readout) returns (state: State)
    ensures !hasRange ==> state == []
    ensures hasRange ==> state == StateOf(properties, read, |properties|)
  {
    state := [];
    if !hasRange {
      return;
    }
    var i := 0;
    while i < |properties|
      invariant 0 <= i <= |properties| && state == StateOf(properties, read, i)
      decreases |properties| - i
    {
      state := Store(state, properties[i], Captured(read(properties[i])));
      i := i + 1;
    }
  }

  // ---------------------------------------------------------------- entries

  /** One changed property with its text before and after. */
  datatype Change = Change(property: string, before: string, after: string)

  /** The changes between two states: the keys of `before`, in order, whose texts differ. */
  function ChangesOf(keys: seq<string>, before: State, after: State): (r: seq<Change>)
    ensures |r| <= |keys|
  {
    if keys == [] then []
    else
      var b := Shows(ReadKey(before, keys[0]));
      var a := Shows(ReadKey(after, keys[0]));
      (if b != a then [Change(keys[0], b, a)] else []) + ChangesOf(keys[1..], before, after)
  }

  /** A key is reported exactly when its texts differ, with those texts. */
  lemma {:induction false} ChangesMeaning(keys: seq<string>, before: State, after: State, p: string)
    ensures (exists c :: c in ChangesOf(keys, before, after) && c.property == p)
            <==> p in keys && Shows(ReadKey(before, p)) != Shows(ReadKey(after, p))
    ensures forall c :: c in ChangesOf(keys, before, after) ==>
              c.property in keys && c.before == Shows(ReadKey(before, c.property)) && c.after == Shows(ReadKey(after, c.property))
              && c.before != c.after
  {
    if keys != [] {
      ChangesMeaning(keys[1..], before, after, p);
      var b := Shows(ReadKey(before, keys[0]));
      var a := Shows(ReadKey(after, keys[0]));
      var head := if b != a then [Change(keys[0], b, a)] else [];
      assert ChangesOf(keys, before, after) == head + ChangesOf(keys[1..], before, after);
      assert forall x :: x in keys <==> x == keys[0] || x in keys[1..];
      if p == keys[0] && b != a {
        assert Change(keys[0], b, a) in ChangesOf(keys, before, after);
      }
    }
  }

  /** Comparing a state with itself finds no change. */
  lemma {:induction false} NoChangeWhenEqual(keys: seq<string>, state: State)
    ensures ChangesOf(keys, state, state) == []
  {
    if keys != [] {
      NoChangeWhenEqual(keys[1..], state);
    }
  }

  /** Keys that only the after state has are never reported: the after state matters only at
      the keys of the before state. */
  lemma {:induction false} AfterOnlyIgnored(keys: seq<string>, before: State, after: State, after': State)
    requires forall k :: k in keys ==> ReadKey(after, k) == ReadKey(after', k)
    ensures ChangesOf(keys, before, after) == ChangesOf(keys, before, after')
  {
    if keys != [] {
      assert keys[0] in keys;
      assert forall k :: k in keys[1..] ==> k in keys;
      AfterOnlyIgnored(keys[1..], before, after, after');
    }
  }

  /** An entry's outcome. Metrics records carry none. */
  datatype Status = Success | Failed | NoStatus

  /** The timings a step entry may carry; a missing timing is 0, as every reader writes `|| 0`. */
  datatype Performance = Performance(queueWaitMs: real, queueTaskMs: real, totalMs: real,
                                     captureBeforeMs: real, executeMs: real, captureAfterMs: real, compareMs: real)

  /** A log entry as the engine and `createEntry` build it; `runId` and `stepId` are absent when
      falsy, `error` when missing, and a missing effect count is 0. */
  datatype Entry = Entry(runId: Option<string>, stepId: Option<nat>, commandId: Option<string>,
                         skill: Option<string>, description: string, changes: seq<Change>,
                         status: Status, error: Option<string>, warnings: seq<string>,
                         performance: Option<Performance>, effectCount: real, customEffects: bool,
                         durationMs: real)

  /** The entry `createEntry` builds, as a value. */
  function Created(commandId: Option<string>, skill: string, description: Option<string>,
                   before: State, after: State, durationMs: real): Entry
  {
    Entry(None, None, commandId, Some(skill),
          if description.Some? && description.value != "" then description.value else skill,
          ChangesOf(KeysOf(before), before, after), Success, None, [], None, 0.0, false, durationMs)
  }

  /** `createEntry`: the changes between the snapshots, status success, and the description
      defaulting to the skill id when missing or empty. */
  method CreateEntry(commandId: Option<string>, skill: string, description: Option<string>,
                     before: State, after: State, durationMs: real) returns (e: Entry)
    ensures e == Created(commandId, skill, description, before, after, durationMs)
    ensures e.changes == ChangesOf(KeysOf(before), before, after)
    ensures e.status == Success && e.skill == Some(skill) && e.commandId == commandId && e.durationMs == durationMs
    ensures e.description == if description.Some? && description.value != "" then description.value else skill
    ensures e.warnings == [] && e.error.None? && e.effectCount == 0.0
  {
    var changes: seq<Change> := [];
    var props := KeysOf(before);
    var i := 0;
    while i < |props|
      invariant 0 <= i <= |props|
      invariant changes + ChangesOf(props[i..], before, after) == ChangesOf(props, before, after)
      decreases |props| - i
    {
      var b := Shows(ReadKey(before, props[i]));
      var a := Shows(ReadKey(after, props[i]));
      assert props[i..][0] == props[i] && props[i..][1..] == props[i + 1..];
      if b != a {
        Seqs.AppendAssoc(changes, [Change(props[i], b, a)], ChangesOf(props[i + 1..], before, after));
        changes := changes + [Change(props[i], b, a)];
      }
      i := i + 1;
    }
    assert props[i..] == [];
    assert changes + [] == changes;
    e := Entry(None, None, commandId, Some(skill),
               if description.Some? && description.value != "" then description.value else skill,
               changes, Success, None, [], None, 0.0, false, durationMs);
  }

  /** `logStructuredMetrics`'s record: a run id and no status, skill or effects. */
  function MetricsEntry(runId: Option<string>): (e: Entry)
    ensures e.status == NoStatus && e.runId == runId && e.effectCount == 0.0 && e.warnings == []
  {
    Entry(runId, None, None, None, "", [], NoStatus, None, [], None, 0.0, false, 0.0)
  }

  // ---------------------------------------------------------------- summary

  /** Step counts of one run. */
  datatype RunCounts = RunCounts(steps: nat, success: nat, failed: nat)

  datatype Summary = Summary(totalEntries: nat, successCount: nat, failedCount: nat, zeroEffectCount: nat,
                             totalQueueWaitMs: real, totalQueueTaskMs: real, totalEffectCount: real,
                             runs: map<string, RunCounts>)

  /** The summary folded over one more entry; a null entry adds only to the total. */
  function SummaryStep(s: Summary, entry: Option<Entry>): Summary
  {
    var s := s.(totalEntries := s.totalEntries + 1);
    if entry.None? then s
    else
      var e := entry.value;
      var runs := if e.runId.Some? then
                    var prev := if e.runId.value in s.runs then s.runs[e.runId.value] else RunCounts(0, 0, 0);
                    s.runs[e.runId.value := RunCounts(prev.steps + 1,
                                                      prev.success + (if e.status == Success then 1 else 0),
                                                      prev.failed + (if e.status == Failed then 1 else 0))]
                  else s.runs;
      Summary(s.totalEntries,
              s.successCount + (if e.status == Success then 1 else 0),
              s.failedCount + (if e.status == Failed then 1 else 0),
              s.zeroEffectCount + (if "SUCCESS_ZERO_EFFECT" in e.warnings then 1 else 0),
              s.totalQueueWaitMs + (if e.performance.Some? then e.performance.value.queueWaitMs else 0.0),
              s.totalQueueTaskMs + (if e.performance.Some? then e.performance.value.queueTaskMs else 0.0),
              s.totalEffectCount + e.effectCount,
              runs)
  }

  const EMPTY_SUMMARY := Summary(0, 0, 0, 0, 0.0, 0.0, 0.0, map[])

  /** `getSummary` over the first `n` entries. */
  function SummaryOf(entries: seq<Option<Entry>>, n: nat): Summary
    requires n <= |entries|
  {
    if n == 0 then EMPTY_SUMMARY else SummaryStep(SummaryOf(entries, n - 1), entries[n - 1])
  }

  /** The counts every summary keeps consistent. */
  ghost predicate Consistent(s: Summary)
  {
    s.successCount + s.failedCount <= s.totalEntries
    && s.zeroEffectCount <= s.totalEntries
    && forall id :: id in s.runs ==> s.runs[id].steps >= s.runs[id].success + s.runs[id].failed
  }

  /** Success and failure never outnumber the entries, and each run has at least as many steps as
      successes and failures together (metrics records count as steps with neither). */
  lemma {:induction false} SummaryConsistent(entries: seq<Option<Entry>>, n: nat)
    requires n <= |entries|
    ensures Consistent(SummaryOf(entries, n)) && SummaryOf(entries, n).totalEntries == n
  {
    if n > 0 {
      SummaryConsistent(entries, n - 1);
    }
  }

  /** The number of entries among the first `n` whose warnings contain the given code. */
  function CountWarned(entries: seq<Option<Entry>>, n: nat, code: string): nat
    requires n <= |entries|
  {
    if n == 0 then 0
    else CountWarned(entries, n - 1, code) + (if entries[n - 1].Some? && code in entries[n - 1].value.warnings then 1 else 0)
  }

  /** The zero-effect count is the number of entries warned SUCCESS_ZERO_EFFECT. */
  lemma {:induction false} ZeroEffectCount(entries: seq<Option<Entry>>, n: nat)
    requires n <= |entries|
    ensures SummaryOf(entries, n).zeroEffectCount == CountWarned(entries, n, "SUCCESS_ZERO_EFFECT")
  {
    if n > 0 {
      ZeroEffectCount(entries, n - 1);
    }
  }

  /** `getSummary`'s loop. */
  method Summarize(entries: seq<Option<Entry>>) returns (s: Summary)
    ensures s == SummaryOf(entries, |entries|)
  {
    s := EMPTY_SUMMARY;
    var i := 0;
    while i < |entries|
      invariant 0 <= i <= |entries| && s == SummaryOf(entries, i)
      decreases |entries| - i
    {
      s := SummaryStep(s, entries[i]);
      i := i + 1;
    }
  }

  // ---------------------------------------------------------------- structured metrics

  /** One exported metric; the optional parts appear only when the entry has them. */
  datatype Metric = Metric(runId: Option<string>, stepId: Option<nat>, skill: Option<string>, status: Status,
                           performance: Option<Performance>, effectCount: real, customEffects: bool,
                           warnings: Option<seq<string>>, error: Option<string>)

  function MetricOf(e: Entry): (m: Metric)
    ensures m.warnings.Some? <==> e.warnings != []
    ensures m.error == e.error && m.effectCount == e.effectCount && m.runId == e.runId
  {
    Metric(e.runId, e.stepId, e.skill, e.status, e.performance, e.effectCount, e.customEffects,
           if e.warnings != [] then Some(e.warnings) else None, e.error)
  }

  /** The metrics of the non-null entries among the first `n`, in order. */
  function MetricsOf(entries: seq<Option<Entry>>, n: nat): (r: seq<Metric>)
    requires n <= |entries|
    ensures |r| <= n
  {
    if n == 0 then []
    else MetricsOf(entries, n - 1) + (if entries[n - 1].Some? then [MetricOf(entries[n - 1].value)] else [])
  }

  /** The non-null entries among the first `n`. */
  function Present(entries: seq<Option<Entry>>, n: nat): (r: seq<Entry>)
    requires n <= |entries|
  {
    if n == 0 then [] else Present(entries, n - 1) + (if entries[n - 1].Some? then [entries[n - 1].value] else [])
  }

  /** Export emits exactly one metric per non-null entry, the k-th for the k-th such entry. */
  lemma {:induction false} OneMetricPerEntry(entries: seq<Option<Entry>>, n: nat)
    requires n <= |entries|
    ensures |MetricsOf(entries, n)| == |Present(entries, n)|
    ensures forall k :: 0 <= k < |Present(entries, n)| ==> MetricsOf(entries, n)[k] == MetricOf(Present(entries, n)[k])
  {
    if n > 0 {
      OneMetricPerEntry(entries, n - 1);
    }
  }

  /** `exportStructuredMetrics`'s loop. */
  method ExportMetrics(entries: seq<Option<Entry>>) returns (metrics: seq<Metric>)
    ensures metrics == MetricsOf(entries, |entries|)
  {
    metrics := [];
    var i := 0;
    while i < |entries|
      invariant 0 <= i <= |entries| && metrics == MetricsOf(entries, i)
      decreases |entries| - i
    {
      if entries[i].Some? {
        metrics := metrics + [MetricOf(entries[i].value)];
      }
      i := i + 1;
    }
  }

  // ---------------------------------------------------------------- the log

  /** `window.ComparisonLog`: the entries, appended to and cleared. */
  class Log {
    var entries: seq<Option<Entry>>

    constructor()
      ensures entries == []
    {
      entries := [];
    }

    /** `addEntry`: append, null included. */
    method AddEntry(e: Option<Entry>)
      modifies this
      ensures entries == old(entries) + [e]
    {
      entries := entries + [e];
    }

    /** `logStructuredMetrics`: append a metrics record for the run. */
    method LogStructuredMetrics(runId: Option<string>)
      modifies this
      ensures entries == old(entries) + [Some(MetricsEntry(runId))]
    {
      entries := entries + [Some(MetricsEntry(runId))];
    }

    /** `clear`: the only operation that removes entries. */
    method Clear()
      modifies this
      ensures entries == []
    {
      entries := [];
    }

    method GetSummary() returns (s: Summary)
      ensures s == SummaryOf(entries, |entries|) && Consistent(s)
    {
      s := Summarize(entries);
      SummaryConsistent(entries, |entries|);
    }

    method ExportStructuredMetrics() returns (metrics: seq<Metric>)
      ensures |metrics| == |Present(entries, |entries|)|
      ensures forall k :: 0 <= k < |metrics| ==> metrics[k] == MetricOf(Present(entries, |entries|)[k])
    {
      metrics := ExportMetrics(entries);
      OneMetricPerEntry(entries, |entries|);
    }
  }

  /** Appending an entry adds one to the total and folds it into the summary: the log's summary
      only grows by appends until it is cleared. */
  lemma SummaryAfterAdd(entries: seq<Option<Entry>>, e: Option<Entry>)
    ensures SummaryOf(entries + [e], |entries| + 1) == SummaryStep(SummaryOf(entries, |entries|), e)
  {
    SummaryPrefix(entries, [e], |entries|);
  }

  lemma {:induction false} SummaryPrefix(entries: seq<Option<Entry>>, more: seq<Option<Entry>>, n: nat)
    requires n <= |entries|
    ensures SummaryOf(entries + more, n) == SummaryOf(entries, n)
  {
    if n > 0 {
      SummaryPrefix(entries, more, n - 1);
      assert (entries + more)[n - 1] == entries[n - 1];
    }
  }

  // ---------------------------------------------------------------- summary line

  function ChangeLine(c: Change): string
  {
    c.property + ": " + c.before + " -> " + c.after
  }

  function ChangeLines(cs: seq<Change>): (r: seq<string>)
    ensures |r| == |cs| && forall i :: 0 <= i < |cs| ==> r[i] == ChangeLine(cs[i])
  {
    if cs == [] then [] else [ChangeLine(cs[0])] + ChangeLines(cs[1..])
  }

  /** `formatSummary`: empty for null, the failure with its error, "no change", or one line per change. */
  function FormatSummary(entry: Option<Entry>): string
  {
    if entry.None? then ""
    else
      var e := entry.value;
      if e.status == Failed then
        (if e.skill.Some? then e.skill.value else "undefined") + ": 失败 - " + (if e.error.Some? && e.error.value != "" then e.error.value else "未知错误")
      else if e.changes == [] then e.description + ": 无变化"
      else Join(ChangeLines(e.changes), "\n")
  }

  /** The number of line breaks in a string. */
  function Breaks(s: string): nat
  {
    if s == [] then 0 else (if s[0] == '\n' then 1 else 0) + Breaks(s[1..])
  }

  lemma {:induction false} BreaksAppend(a: string, b: string)
    ensures Breaks(a + b) == Breaks(a) + Breaks(b)
  {
    if a != [] {
      assert (a + b)[1..] == a[1..] + b;
      BreaksAppend(a[1..], b);
    } else {
      assert a + b == b;
    }
  }

  /** Joining lines that hold no break of their own gives one break fewer than lines. */
  lemma {:induction false} JoinBreaks(lines: seq<string>)
    requires lines != [] && forall i :: 0 <= i < |lines| ==> Breaks(lines[i]) == 0
    ensures Breaks(Join(lines, "\n")) == |lines| - 1
  {
    if |lines| > 1 {
      JoinBreaks(lines[1..]);
      BreaksAppend(lines[0], "\n");
      BreaksAppend(lines[0] + "\n", Join(lines[1..], "\n"));
    }
  }

  /** A failed entry reads `skill: 失败 - error`; an entry without changes reads
      `description: 无变化`; otherwise, when no property or value holds a line break,
      the summary has exactly one line per change. */
  lemma FormatSummaryShape(e: Entry)
    ensures e.status == Failed && e.skill.Some? && e.error.Some? && e.error.value != "" ==>
              FormatSummary(Some(e)) == e.skill.value + ": 失败 - " + e.error.value
    ensures e.status != Failed && e.changes == [] ==> FormatSummary(Some(e)) == e.description + ": 无变化"
    ensures e.status != Failed && e.changes != [] && (forall i :: 0 <= i < |e.changes| ==> Breaks(ChangeLine(e.changes[i])) == 0) ==>
              Breaks(FormatSummary(Some(e))) == |e.changes| - 1
  {
    if e.status != Failed && e.changes != [] && (forall i :: 0 <= i < |e.changes| ==> Breaks(ChangeLine(e.changes[i])) == 0) {
      JoinBreaks(ChangeLines(e.changes));
    }
  }

  /** The chat form of one change: the change line indented by two spaces. */
  function ChatLines(cs: seq<Change>): (r: seq<string>)
    ensures |r| == |cs| && forall i :: 0 <= i < |cs| ==> r[i] == "  " + ChangeLine(cs[i])
  {
    if cs == [] then [] else ["  " + ChangeLine(cs[0])] + ChatLines(cs[1..])
  }

  /** `formatForChat`: empty for null, the error (or a stock text) for a failure, "no change",
      or one indented line per change. */
  function FormatForChat(entry: Option<Entry>): string
  {
    if entry.None? then ""
    else
      var e := entry.value;
      if e.status == Failed then (if e.error.Some? && e.error.value != "" then e.error.value else "执行失败")
      else if e.changes == [] then "无变化"
      else Join(ChatLines(e.changes), "\n")
  }

  /** The chat text shows a failure as its error alone, an entry without changes as "无变化",
      and otherwise, when no change line holds a break, exactly one line per change, each the
      summary's line for that change behind a two-space indent. */
  lemma ForChatShape(e: Entry)
    ensures e.status == Failed ==> FormatForChat(Some(e)) == if e.error.Some? && e.error.value != "" then e.error.value else "执行失败"
    ensures e.status != Failed && e.changes == [] ==> FormatForChat(Some(e)) == "无变化"
    ensures e.status != Failed && e.changes != [] && (forall i :: 0 <= i < |e.changes| ==> Breaks(ChangeLine(e.changes[i])) == 0) ==>
              Breaks(FormatForChat(Some(e))) == |e.changes| - 1
  {
    if e.status != Failed && e.changes != [] && (forall i :: 0 <= i < |e.changes| ==> Breaks(ChangeLine(e.changes[i])) == 0) {
      var lines := ChatLines(e.changes);
      forall i | 0 <= i < |lines|
        ensures Breaks(lines[i]) == 0
      {
        BreaksAppend("  ", ChangeLine(e.changes[i]));
        assert Breaks("  ") == 0;
      }
      JoinBreaks(lines);
    }
  }
}
