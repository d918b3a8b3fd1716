/**
 * The WPS adapter's own logic: the action queue's statistics and health, the normalisation of
 * a value written into a content control, and the search-based placement of a new content
 * control (candidate texts, match scoring, conflicts with existing controls, and the ladder
 * deciding whether to embed).
 *
 * The host is outside the model: the queue is a sequential FIFO whose tasks are handed in
 * already settled, the document is its list of content controls, and the host's text search
 * is the oracle `matchesOf`, giving the matches of a candidate with the text around each.
 */
module WpsAdapter {
  import opened Wrappers
  import opened Text
  import opened JsonValue
  import opened Seqs

  // ---------------------------------------------------------------- the action queue

  const MAX_RECENT_ERRORS := 10

  /** `options.cooldownMs` when it is a number, else 2000. */
  function Cooldown(option: Option<Value>): (ms: real)
    ensures option.Some? && option.value.Num? ==> ms == option.value.n
    ensures !(option.Some? && option.value.Num?) ==> ms == 2000.0
  {
    if option.Some? && option.value.Num? then option.value.n else 2000.0
  }

  /** A recorded failure: when it happened (ms) and its message. */
  datatype QueueError = QueueError(time: real, message: string)

  /** How a queued task ends: the clock when it starts and ends, and its result or error. */
  datatype Settled<T> = Settled(start: real, end: real, outcome: Result<T, string>)

  /** `Math.round` (halves go up). */
  function Round(x: real): (r: int)
    ensures x - 0.5 < r as real <= x + 0.5
  {
    (x + 0.5).Floor
  }

  /** What `getStats` returns. */
  datatype Stats = Stats(totalTasks: nat, completedCount: nat, failedCount: nat, avgWaitMs: int, avgTaskMs: int,
                         totalWaitMs: real, totalTaskMs: real, recentErrors: seq<QueueError>)

  datatype Health = Healthy | Warning | Critical

  datatype Reason =
    | HighErrorRate(rate: real)
    | ElevatedErrorRate(rate: real)
    | LongWait(avgWaitMs: int)
    | RecentFailure(message: string)

  /** Failed tasks over submitted tasks, 0 before any. */
  function ErrorRate(stats: Stats): real
  {
    if stats.totalTasks > 0 then stats.failedCount as real / stats.totalTasks as real else 0.0
  }

  /** `getHealth` over the stats, with `now` the current time. */
  function HealthOf(stats: Stats, now: real): (Health, seq<Reason>)
  {
    var rate := ErrorRate(stats);
    var (s1, r1) := if stats.totalTasks > 0 && rate > 0.1 then (Critical, [HighErrorRate(rate)])
                    else if stats.totalTasks > 0 && rate > 0.05 then (Warning, [ElevatedErrorRate(rate)])
                    else (Healthy, []);
    var (s2, r2) := if stats.avgWaitMs > 30000 then (Warning, r1 + [LongWait(stats.avgWaitMs)]) else (s1, r1);
    var errs := stats.recentErrors;
    if errs != [] && now - errs[|errs| - 1].time < 60000.0 then (Warning, r2 + [RecentFailure(errs[|errs| - 1].message)])
    else (s2, r2)
  }

  /** A failure within the last minute. */
  predicate RecentlyFailed(stats: Stats, now: real)
  {
    stats.recentErrors != [] && now - stats.recentErrors[|stats.recentErrors| - 1].time < 60000.0
  }

  /** Critical only for an error rate above 10% that neither a long wait nor a recent failure
      overrides; healthy exactly when there is no reason; at most one reason per rule. */
  lemma HealthRules(stats: Stats, now: real)
    ensures var (h, reasons) := HealthOf(stats, now);
            (h == Critical <==>
               stats.totalTasks > 0 && ErrorRate(stats) > 0.1
               && stats.avgWaitMs <= 30000 && !RecentlyFailed(stats, now))
    ensures var (h, reasons) := HealthOf(stats, now); h == Healthy <==> reasons == []
    ensures |HealthOf(stats, now).1| <= 3
    ensures stats.avgWaitMs > 30000 || RecentlyFailed(stats, now) ==> HealthOf(stats, now).0 == Warning
  {
  }

  /** `wpsActionQueue` with the `queueStats` it updates. */
  class ActionQueue {
    var taskCount: nat
    var completedCount: nat
    var failedCount: nat
    var totalWaitMs: real
    var totalTaskMs: real
    var recentErrors: seq<QueueError>
    var lastTaskEndTime: real
    /** Every failure since the last reset, oldest first. */
    ghost var failures: seq<QueueError>

    ghost predicate Valid()
      reads this
    {
      && completedCount + failedCount <= taskCount
      && |failures| == failedCount
      && recentErrors == LastN(failures, MAX_RECENT_ERRORS)
    }

    constructor()
      ensures Valid() && taskCount == 0 && completedCount == 0 && failedCount == 0 && recentErrors == []
      ensures totalWaitMs == 0.0 && totalTaskMs == 0.0 && lastTaskEndTime == 0.0
    {
      taskCount, completedCount, failedCount := 0, 0, 0;
      totalWaitMs, totalTaskMs, lastTaskEndTime := 0.0, 0.0, 0.0;
      recentErrors, failures := [], [];
    }

    /** The submission half of `add`: a task is counted at once. */
    method Submit(option: Option<Value>) returns (cooldownMs: real)
      requires Valid()
      modifies this
      ensures Valid()
      ensures taskCount == old(taskCount) + 1 && cooldownMs == Cooldown(option)
      ensures completedCount == old(completedCount) && failedCount == old(failedCount)
      ensures totalWaitMs == old(totalWaitMs) && totalTaskMs == old(totalTaskMs)
      ensures recentErrors == old(recentErrors) && lastTaskEndTime == old(lastTaskEndTime) && failures == old(failures)
    {
      cooldownMs := Cooldown(option);
      taskCount := taskCount + 1;
    }

    /**
     * The queued half of `add`, when a submitted task runs: the wait since the previous task
     * ended, then exactly one of the completed and failed counters. A failure is recorded, the
     * oldest of more than ten dropped, and handed back to the caller.
     */
    method Settle<T>(s: Settled<T>, failedAt: real) returns (r: Result<T, string>)
      requires Valid() && completedCount + failedCount < taskCount
      modifies this
      ensures Valid()
      ensures r == s.outcome && taskCount == old(taskCount)
      ensures totalWaitMs == old(totalWaitMs) + (if old(lastTaskEndTime) > 0.0 then s.start - old(lastTaskEndTime) else 0.0)
      ensures s.outcome.Ok? ==>
                && completedCount == old(completedCount) + 1 && failedCount == old(failedCount)
                && totalTaskMs == old(totalTaskMs) + (s.end - s.start) && lastTaskEndTime == s.end
                && recentErrors == old(recentErrors) && failures == old(failures)
      ensures s.outcome.Err? ==>
                && failedCount == old(failedCount) + 1 && completedCount == old(completedCount)
                && totalTaskMs == old(totalTaskMs) && lastTaskEndTime == old(lastTaskEndTime)
                && failures == old(failures) + [QueueError(failedAt, s.outcome.error)]
                && recentErrors == LastN(old(recentErrors) + [QueueError(failedAt, s.outcome.error)], MAX_RECENT_ERRORS)
    {
      if lastTaskEndTime > 0.0 {
        totalWaitMs := totalWaitMs + (s.start - lastTaskEndTime);
      }
      match s.outcome {
        case Ok(_) =>
          totalTaskMs := totalTaskMs + (s.end - s.start);
          completedCount := completedCount + 1;
          lastTaskEndTime := s.end;
        case Err(message) =>
          var e := QueueError(failedAt, message);
          RecentAfterFailure(failures, e);
          recentErrors := recentErrors + [e];
          if |recentErrors| > MAX_RECENT_ERRORS {
            recentErrors := recentErrors[1..];
          }
          failures := failures + [e];
          failedCount := failedCount + 1;
      }
      r := s.outcome;
    }

    /** `getStats`: averages only over what they divide by, and a copy of the recent errors. */
    function StatsOf(): (s: Stats)
      reads this
      requires Valid()
      ensures taskCount <= 1 ==> s.avgWaitMs == 0
      ensures completedCount == 0 ==> s.avgTaskMs == 0
      ensures s.recentErrors == recentErrors && |s.recentErrors| <= MAX_RECENT_ERRORS
      ensures s.completedCount + s.failedCount <= s.totalTasks
    {
      Stats(taskCount, completedCount, failedCount,
            if taskCount > 1 then Round(totalWaitMs / (taskCount - 1) as real) else 0,
            if completedCount > 0 then Round(totalTaskMs / completedCount as real) else 0,
            totalWaitMs, totalTaskMs, recentErrors)
    }

    /** `resetStats`. */
    method ResetStats()
      requires Valid()
      modifies this
      ensures Valid()
      ensures taskCount == 0 && completedCount == 0 && failedCount == 0 && recentErrors == []
      ensures totalWaitMs == 0.0 && totalTaskMs == 0.0 && lastTaskEndTime == 0.0
    {
      taskCount, completedCount, failedCount := 0, 0, 0;
      totalWaitMs, totalTaskMs, lastTaskEndTime := 0.0, 0.0, 0.0;
      recentErrors, failures := [], [];
    }
  }

  /** Pushing a failure and dropping the oldest beyond ten keeps the last ten failures. */
  lemma RecentAfterFailure(failures: seq<QueueError>, e: QueueError)
    ensures var pushed := LastN(failures, MAX_RECENT_ERRORS) + [e];
            LastN(failures + [e], MAX_RECENT_ERRORS) == if |pushed| > MAX_RECENT_ERRORS then pushed[1..] else pushed
  {
    var all := failures + [e];
    if |failures| >= MAX_RECENT_ERRORS {
      assert all[|all| - MAX_RECENT_ERRORS..] == failures[|failures| - MAX_RECENT_ERRORS..][1..] + [e];
    }
  }

  // ---------------------------------------------------------------- values written into controls

  /** `/^【.*】$/` and `/^\[.*\]$/`: the delimiters around characters other than line terminators. */
  predicate Wrapped(s: string, open: char, close: char)
  {
    |s| >= 2 && s[0] == open && s[|s| - 1] == close && forall i :: 1 <= i < |s| - 1 ==> !IsLineTerminator(s[i])
  }

  /** The core of a value: trimmed, with one pair of 【】 or [] removed. `raw` is `String(value)`,
      `''` for null and undefined. */
  function CoreValue(raw: string): string
  {
    if raw == "" then ""
    else
      var t := Trim(raw);
      if Wrapped(t, '【', '】') || Wrapped(t, '[', ']') then t[1..|t| - 1] else t
  }

  /** `name || tag`. */
  function DisplayLabel(name: string, tag: string): string
  {
    if name != "" then name else tag
  }

  /** The text `wpsUpdateContent` writes: the core, or `【name】` when the core is empty. */
  function UpdateText(raw: string, name: string, tag: string): string
  {
    var core := CoreValue(raw);
    if core == "" then "【" + DisplayLabel(name, tag) + "】" else core
  }

  /** The text `wpsSyncFormDataToDocuments` writes: always wrapped in 【】. */
  function SyncText(raw: string, name: string, tag: string): string
  {
    var core := CoreValue(raw);
    "【" + (if core == "" then DisplayLabel(name, tag) else core) + "】"
  }

  /** A string with no space at either end is its own trim. */
  lemma TrimmedAlready(s: string)
    requires s != [] && !IsSpace(s[0]) && !IsSpace(s[|s| - 1])
    ensures Trim(s) == s
  {
  }

  predicate OneLine(s: string) { forall i :: 0 <= i < |s| ==> !IsLineTerminator(s[i]) }

  /** An update writes a bracketed single-line value without its brackets, a blank value as the
      bracketed name, and any other value trimmed. */
  lemma UpdateTextCases(x: string, raw: string, name: string, tag: string)
    ensures x != "" && OneLine(x) ==> UpdateText("【" + x + "】", name, tag) == x && UpdateText("[" + x + "]", name, tag) == x
    ensures Trim(raw) == "" ==> UpdateText(raw, name, tag) == "【" + DisplayLabel(name, tag) + "】"
    ensures var t := Trim(raw);
            t != "" && !Wrapped(t, '【', '】') && !Wrapped(t, '[', ']') ==> UpdateText(raw, name, tag) == t
  {
    if x != "" && OneLine(x) {
      var a := "【" + x + "】";
      var b := "[" + x + "]";
      TrimmedAlready(a);
      TrimmedAlready(b);
      assert a[1..|a| - 1] == x && b[1..|b| - 1] == x;
      assert Wrapped(a, '【', '】') && Wrapped(b, '[', ']');
    }
  }

  /** What the sync writes reads back, through the update's normalisation, as the core it
      wrapped (or the name it fell back to), as long as that is a single line. */
  lemma SyncRoundTrip(raw: string, name: string, tag: string)
    ensures var w := SyncText(raw, name, tag); StartsWith(w, "【") && EndsWith(w, "】")
    ensures var inner := if CoreValue(raw) == "" then DisplayLabel(name, tag) else CoreValue(raw);
            OneLine(inner) ==> CoreValue(SyncText(raw, name, tag)) == inner
  {
    var inner := if CoreValue(raw) == "" then DisplayLabel(name, tag) else CoreValue(raw);
    var w := SyncText(raw, name, tag);
    assert w == "【" + inner + "】";
    BracketedEnds(inner);
    if OneLine(inner) {
      BracketedCore(inner);
    }
  }

  lemma BracketedEnds(x: string)
    ensures StartsWith("【" + x + "】", "【") && EndsWith("【" + x + "】", "】")
  {
    var w := "【" + x + "】";
    assert w[..1] == "【" && w[|w| - 1..] == "】";
  }

  /** A single line in 【】 has that line as its core. */
  lemma BracketedCore(x: string)
    requires OneLine(x)
    ensures CoreValue("【" + x + "】") == x
  {
    var w := "【" + x + "】";
    assert w[0] == '【' && w[|w| - 1] == '】';
    TrimmedAlready(w);
    assert w[1..|w| - 1] == x;
    assert forall i :: 1 <= i < |w| - 1 ==> w[i] == x[i - 1];
    assert Wrapped(w, '【', '】');
  }

  // ---------------------------------------------------------------- keyed tables in insertion order

  /** The position of the first entry whose key is `k`. */
  function IndexWhere<T, K(==)>(t: seq<T>, key: T -> K, k: K): (r: Option<nat>)
    ensures r.Some? ==> r.value < |t| && key(t[r.value]) == k && forall j :: 0 <= j < r.value ==> key(t[j]) != k
    ensures r.None? ==> forall j :: 0 <= j < |t| ==> key(t[j]) != k
  {
    if t == [] then None
    else if key(t[0]) == k then Some(0)
    else
      match IndexWhere(t[1..], key, k)
      case None => None
      case Some(i) => Some(i + 1)
  }

  /** `map.get(k)`. */
  function EntryFor<T, K(==)>(t: seq<T>, key: T -> K, k: K): Option<T>
  {
    match IndexWhere(t, key, k)
    case None => None
    case Some(i) => Some(t[i])
  }

  /** `if (!previous || score(x) > score(previous)) map.set(key(x), x)`: a new key goes last and an
      existing key keeps its place. */
  function KeepBest<T, K(==)>(t: seq<T>, x: T, key: T -> K, score: T -> int): seq<T>
  {
    match IndexWhere(t, key, key(x))
    case None => t + [x]
    case Some(i) => if score(x) > score(t[i]) then t[i := x] else t
  }

  predicate DistinctKeys<T, K(==)>(t: seq<T>, key: T -> K)
  {
    forall i, j :: 0 <= i < j < |t| ==> key(t[i]) != key(t[j])
  }

  /** Appending an element finds it only when no earlier entry has the key. */
  lemma {:induction false} IndexWhereAppend<T, K>(t: seq<T>, x: T, key: T -> K, k: K)
    ensures IndexWhere(t + [x], key, k) ==
              if IndexWhere(t, key, k).Some? then IndexWhere(t, key, k) else if key(x) == k then Some(|t|) else None
  {
    if t != [] && key(t[0]) != k {
      assert (t + [x])[1..] == t[1..] + [x];
      IndexWhereAppend(t[1..], x, key, k);
    }
  }

  /** Only the keys of a table decide where a key is found. */
  lemma {:induction false} IndexWhereSameKeys<T, K>(t: seq<T>, u: seq<T>, key: T -> K, k: K)
    requires |t| == |u| && forall j :: 0 <= j < |t| ==> key(t[j]) == key(u[j])
    ensures IndexWhere(t, key, k) == IndexWhere(u, key, k)
  {
    if t != [] && key(t[0]) != k {
      IndexWhereSameKeys(t[1..], u[1..], key, k);
    }
  }

  /** One keep-best step changes only the entry of `x`'s key, and only for a strictly higher score. */
  lemma KeepBestEntry<T, K>(t: seq<T>, x: T, key: T -> K, score: T -> int, k: K)
    ensures var before := EntryFor(t, key, k);
            EntryFor(KeepBest(t, x, key, score), key, k) ==
              if key(x) == k && (before.None? || score(x) > score(before.value)) then Some(x) else before
    ensures DistinctKeys(t, key) ==> DistinctKeys(KeepBest(t, x, key, score), key)
    ensures forall j :: 0 <= j < |KeepBest(t, x, key, score)| ==> KeepBest(t, x, key, score)[j] in t || KeepBest(t, x, key, score)[j] == x
  {
    var r := KeepBest(t, x, key, score);
    match IndexWhere(t, key, key(x)) {
      case None =>
        assert r == t + [x];
        IndexWhereAppend(t, x, key, k);
      case Some(i) =>
        if score(x) > score(t[i]) {
          assert r == t[i := x];
          IndexWhereSameKeys(r, t, key, k);
        }
    }
  }

  /** The table a sequence of keep-best steps builds from nothing. */
  function Gathered<T, K(==)>(xs: seq<T>, key: T -> K, score: T -> int): seq<T>
  {
    if xs == [] then [] else KeepBest(Gathered(xs[..|xs| - 1], key, score), xs[|xs| - 1], key, score)
  }

  /** Gathering one more element is one more keep-best step. */
  lemma GatheredSnoc<T, K>(xs: seq<T>, x: T, key: T -> K, score: T -> int)
    ensures Gathered(xs + [x], key, score) == KeepBest(Gathered(xs, key, score), x, key, score)
  {
    assert (xs + [x])[..|xs|] == xs;
  }

  /** `m` has the highest score among the elements with key `k`, and is the first that has it. */
  ghost predicate IsBest<T, K>(xs: seq<T>, key: T -> K, score: T -> int, k: K, m: T)
  {
    && (forall i :: 0 <= i < |xs| && key(xs[i]) == k ==> score(xs[i]) <= score(m))
    && exists i :: 0 <= i < |xs| && xs[i] == m && key(m) == k && forall j :: 0 <= j < i && key(xs[j]) == k ==> score(xs[j]) < score(m)
  }

  /** The gathered table has one entry per key that occurs, with distinct keys, and that entry is
      the first element of the highest score with that key. */
  lemma {:induction false} GatheredBest<T, K>(xs: seq<T>, key: T -> K, score: T -> int, k: K)
    ensures EntryFor(Gathered(xs, key, score), key, k).Some? <==> exists i :: 0 <= i < |xs| && key(xs[i]) == k
    ensures EntryFor(Gathered(xs, key, score), key, k).Some? ==> IsBest(xs, key, score, k, EntryFor(Gathered(xs, key, score), key, k).value)
    ensures DistinctKeys(Gathered(xs, key, score), key)
  {
    if xs != [] {
      var ys := xs[..|xs| - 1];
      var x := xs[|xs| - 1];
      assert xs == ys + [x];
      GatheredBest(ys, key, score, k);
      var t := Gathered(ys, key, score);
      KeepBestEntry(t, x, key, score, k);
      var before := EntryFor(t, key, k);
      var after := EntryFor(Gathered(xs, key, score), key, k);
      if key(x) == k && (before.None? || score(x) > score(before.value)) {
        assert after == Some(x);
        assert xs[|ys|] == x;
        assert forall i :: 0 <= i < |ys| && key(ys[i]) == k ==> score(ys[i]) < score(x);
        assert forall i :: 0 <= i < |xs| && key(xs[i]) == k ==> score(xs[i]) <= score(x);
      } else if before.Some? {
        var i :| 0 <= i < |ys| && ys[i] == before.value && key(before.value) == k
                 && forall j :: 0 <= j < i && key(ys[j]) == k ==> score(ys[j]) < score(before.value);
        assert xs[i] == ys[i];
      }
    }
  }

  /** Every entry of the gathered table is one of the gathered elements. */
  lemma {:induction false} GatheredFrom<T, K>(xs: seq<T>, key: T -> K, score: T -> int)
    ensures forall j :: 0 <= j < |Gathered(xs, key, score)| ==> Gathered(xs, key, score)[j] in xs
  {
    if xs != [] {
      var ys := xs[..|xs| - 1];
      GatheredFrom(ys, key, score);
      KeepBestEntry(Gathered(ys, key, score), xs[|xs| - 1], key, score, key(xs[|xs| - 1]));
      assert forall e :: e in ys ==> e in xs;
    }
  }

  // ---------------------------------------------------------------- ranking

  /** The order both rankings use: higher first component first, then higher second. */
  predicate RankedFirst(a: (int, int), b: (int, int))
  {
    a.0 > b.0 || (a.0 == b.0 && a.1 >= b.1)
  }

  ghost predicate SortedBy<T>(s: seq<T>, rank: T -> (int, int))
  {
    forall i, j :: 0 <= i < j < |s| ==> RankedFirst(rank(s[i]), rank(s[j]))
  }

  /** Insert `x` before the first element not ranked strictly above it. */
  function Insert<T(==)>(x: T, s: seq<T>, rank: T -> (int, int)): (r: seq<T>)
    ensures multiset(r) == multiset(s) + multiset{x} && |r| == |s| + 1
  {
    if s == [] || RankedFirst(rank(x), rank(s[0])) then [x] + s
    else
      assert s == [s[0]] + s[1..];
      [s[0]] + Insert(x, s[1..], rank)
  }

  /** `Array.prototype.sort` with the comparator of the two rankings. */
  function SortBy<T(==)>(s: seq<T>, rank: T -> (int, int)): (r: seq<T>)
    ensures multiset(r) == multiset(s) && |r| == |s|
  {
    if s == [] then []
    else
      assert s == [s[0]] + s[1..];
      Insert(s[0], SortBy(s[1..], rank), rank)
  }

  lemma {:induction false} InsertSorted<T>(x: T, s: seq<T>, rank: T -> (int, int))
    requires SortedBy(s, rank)
    ensures SortedBy(Insert(x, s, rank), rank)
  {
    var r := Insert(x, s, rank);
    if s == [] || RankedFirst(rank(x), rank(s[0])) {
      if s != [] {
        assert forall j :: 0 <= j < |s| ==> RankedFirst(rank(x), rank(s[j])) by {
          forall j | 0 <= j < |s| ensures RankedFirst(rank(x), rank(s[j])) {
            if j > 0 { assert RankedFirst(rank(s[0]), rank(s[j])); }
          }
        }
      }
      assert forall j :: 1 <= j < |r| ==> r[j] == s[j - 1];
    } else {
      InsertSorted(x, s[1..], rank);
      var rest := Insert(x, s[1..], rank);
      assert r == [s[0]] + rest;
      forall j | 0 <= j < |rest| ensures RankedFirst(rank(s[0]), rank(rest[j])) {
        assert rest[j] in multiset(rest);
        assert rest[j] == x || rest[j] in multiset(s[1..]);
        if rest[j] != x {
          var k :| 0 <= k < |s[1..]| && s[1..][k] == rest[j];
          assert s[k + 1] == rest[j];
        }
      }
    }
  }

  /** The sort yields a ranked permutation of its input. */
  lemma {:induction false} SortBySorted<T>(s: seq<T>, rank: T -> (int, int))
    ensures SortedBy(SortBy(s, rank), rank)
  {
    if s != [] {
      SortBySorted(s[1..], rank);
      InsertSorted(s[0], SortBy(s[1..], rank), rank);
    }
  }

  // ---------------------------------------------------------------- search candidates

  /** `normalizeText`: every whitespace character removed. */
  function NormalizeText(s: string): (r: string)
    ensures forall i :: 0 <= i < |r| ==> !IsSpace(r[i])
  {
    Filter(s, c => !IsSpace(c))
  }

  const PLACEHOLDER_SYMBOLS := "【】[]（）()_＿*＊·.…—-"

  /** `isLikelyPlaceholderToken`: made only of placeholder symbols, or `N/A`. */
  predicate IsLikelyPlaceholderToken(s: string)
  {
    var t := NormalizeText(s);
    t != "" && ((forall i :: 0 <= i < |t| ==> t[i] in PLACEHOLDER_SYMBOLS) || t == "N/A")
  }

  /** The context the AI gave for a field. */
  datatype AiContext = AiContext(context: string, prefix: string, placeholder: string, suffix: string, confidence: string)

  /** The text of a string value, `''` for anything else. */
  function StringOf(v: Option<Value>): string
  {
    if v.Some? && v.value.Str? then v.value.s else ""
  }

  /** A context field: the input's own string field, else the nested `aiContext` one. */
  function ContextField(input: Value, key: string): string
  {
    match Get(input, key)
    case Some(Str(s)) => s
    case _ =>
      var nested := Get(input, "aiContext");
      if TruthyOpt(nested) then StringOf(Get(nested.value, key)) else ""
  }

  /** `(aiContext && aiContext.confidence) || input.confidence || 'medium'`. */
  function ConfidenceField(input: Value): string
  {
    var nested := Get(input, "aiContext");
    var own := if TruthyOpt(nested) then Get(nested.value, "confidence") else None;
    if TruthyOpt(own) then StringOf(own)
    else if TruthyOpt(Get(input, "confidence")) then StringOf(Get(input, "confidence"))
    else "medium"
  }

  /** The AI context of a search input; only a plain object carries one. */
  function ContextOf(input: Value): AiContext
  {
    if input.Obj? then
      AiContext(ContextField(input, "context"), ContextField(input, "prefix"), ContextField(input, "placeholder"),
                ContextField(input, "suffix"), ConfidenceField(input))
    else AiContext("", "", "", "", "medium")
  }

  /** The raw candidate list: an object's `searchCandidates` or `candidates` array, an array
      itself, or the input alone. */
  function RawCandidates(input: Value): seq<Value>
  {
    if input.Obj? then
      match Get(input, "searchCandidates")
      case Some(Arr(items)) => items
      case _ =>
        match Get(input, "candidates")
        case Some(Arr(items)) => items
        case _ => []
    else if input.Arr? then input.items
    else [input]
  }

  datatype Kind = Composed | Context | Placeholder | PrefixAnchor | SuffixAnchor | Candidate

  /** An entry of `candidateMetaMap`. */
  datatype Meta = Meta(candidate: string, kind: Kind, baseScore: int)

  /** A call of `pushCandidateMeta`, before trimming. */
  datatype Push = Push(text: string, kind: Kind, baseScore: int)

  function MetaKey(m: Meta): string { NormalizeText(m.candidate) }
  function MetaScore(m: Meta): int { m.baseScore }
  function MetaRank(m: Meta): (int, int) { (m.baseScore, |m.candidate|) }

  /** `prefix + placeholder + suffix`, trimmed. */
  function ComposedAnchor(ctx: AiContext): string
  {
    Trim(ctx.prefix + ctx.placeholder + ctx.suffix)
  }

  /** The calls made before the raw candidates: composed 130, context 100, placeholder 70, and,
      when the placeholder is only symbols, the prefix at 92 and the suffix at 88. */
  function FixedPushes(ctx: AiContext): seq<Push>
  {
    var symbol := IsLikelyPlaceholderToken(ctx.placeholder);
    [Push(ComposedAnchor(ctx), Composed, 130), Push(ctx.context, Context, 100), Push(ctx.placeholder, Placeholder, 70)]
    + (if symbol && ctx.prefix != "" then [Push(ctx.prefix, PrefixAnchor, 92)] else [])
    + (if symbol && ctx.suffix != "" then [Push(ctx.suffix, SuffixAnchor, 88)] else [])
  }

  /** The call a raw candidate makes: its kind is the first of the context texts it matches once
      normalised, with that kind's score, else a plain candidate at 80. */
  function RawPush(ctx: AiContext, item: Value): Push
  {
    var value := if item.Str? then item.s else "";
    var n := NormalizeText(value);
    if n == NormalizeText(ComposedAnchor(ctx)) then Push(value, Composed, 130)
    else if n == NormalizeText(ctx.context) then Push(value, Context, 100)
    else if n == NormalizeText(ctx.placeholder) then Push(value, Placeholder, 70)
    else Push(value, Candidate, 80)
  }

  /** The calls the raw candidates make, in order. */
  function RawPushes(ctx: AiContext, raw: seq<Value>): seq<Push>
  {
    Map(raw, item => RawPush(ctx, item))
  }

  /** The loop body over the raw candidates: one call per item. */
  function RawStep(ctx: AiContext): (seq<Meta>, Value) -> seq<Meta>
  {
    (t, item) => PushCandidate(t, RawPush(ctx, item))
  }

  /** All the calls, in order. */
  function Pushes(ctx: AiContext, raw: seq<Value>): seq<Push>
  {
    FixedPushes(ctx) + RawPushes(ctx, raw)
  }

  /** A call that stores something: its trimmed text is not empty. */
  predicate Live(p: Push) { Trim(p.text) != "" && NormalizeText(Trim(p.text)) != "" }

  function MetaOf(p: Push): Meta { Meta(Trim(p.text), p.kind, p.baseScore) }

  /** The entries the live calls offer, in order. */
  function Offered(ps: seq<Push>): seq<Meta>
  {
    if ps == [] then []
    else Offered(ps[..|ps| - 1]) + (if Live(ps[|ps| - 1]) then [MetaOf(ps[|ps| - 1])] else [])
  }

  /** `pushCandidateMeta` on the table. */
  function PushCandidate(t: seq<Meta>, p: Push): seq<Meta>
  {
    if Live(p) then KeepBest(t, MetaOf(p), MetaKey, MetaScore) else t
  }

  /** The candidate list of a search input: the table its calls build, ranked by base score and
      then by length. */
  function CandidatesFrom(ctx: AiContext, raw: seq<Value>): seq<Meta>
  {
    SortBy(FoldLeft(FoldLeft([], FixedPushes(ctx), PushCandidate), raw, RawStep(ctx)), MetaRank)
  }

  function CandidatesOf(input: Value): seq<Meta>
  {
    CandidatesFrom(ContextOf(input), RawCandidates(input))
  }

  /** The candidate table is the table all the calls build in order. */
  lemma CandidateTable(ctx: AiContext, raw: seq<Value>)
    ensures FoldLeft(FoldLeft([], FixedPushes(ctx), PushCandidate), raw, RawStep(ctx)) == FoldLeft([], Pushes(ctx, raw), PushCandidate)
  {
    FoldLeftAppend([], FixedPushes(ctx), RawPushes(ctx, raw), PushCandidate);
    FoldLeftMap(FoldLeft([], FixedPushes(ctx), PushCandidate), raw, item => RawPush(ctx, item), PushCandidate, RawStep(ctx));
  }

  /** One `pushCandidateMeta` call is one more keep-best step over what the calls offered. */
  lemma PushStep(ps: seq<Push>, p: Push)
    ensures Gathered(Offered(ps + [p]), MetaKey, MetaScore) == PushCandidate(Gathered(Offered(ps), MetaKey, MetaScore), p)
  {
    var qs := ps + [p];
    assert qs[..|qs| - 1] == ps;
    assert Offered(qs) == Offered(ps) + (if Live(p) then [MetaOf(p)] else []);
    if Live(p) {
      GatheredSnoc(Offered(ps), MetaOf(p), MetaKey, MetaScore);
    } else {
      assert Offered(qs) == Offered(ps);
    }
  }

  /** The table the calls build is the keep-best table of the entries they offer. */
  lemma {:induction false} TableGathers(ps: seq<Push>)
    ensures FoldLeft([], ps, PushCandidate) == Gathered(Offered(ps), MetaKey, MetaScore)
  {
    if ps != [] {
      var init, p := ps[..|ps| - 1], ps[|ps| - 1];
      assert ps == init + [p];
      FoldLeftSnoc([], init, p, PushCandidate);
      TableGathers(init);
      PushStep(init, p);
    }
  }

  /** The calls `ps` made in order on `table`. */
  method PushAll(table: seq<Meta>, ps: seq<Push>) returns (t: seq<Meta>)
    ensures t == FoldLeft(table, ps, PushCandidate)
  {
    t := FoldLoop(table, ps, PushCandidate);
  }

  /** The calls of one search, in order: the context's own, then one per raw candidate. */
  method GatherCandidates(ctx: AiContext, raw: seq<Value>) returns (candidates: seq<Meta>)
    ensures candidates == CandidatesFrom(ctx, raw)
  {
    var start := PushAll([], FixedPushes(ctx));
    var table := start;
    var j := 0;
    assert raw[..0] == [];
    while j < |raw|
      invariant 0 <= j <= |raw|
      invariant table == FoldLeft(start, raw[..j], RawStep(ctx))
      decreases |raw| - j
    {
      FoldLeftSnoc(start, raw[..j], raw[j], RawStep(ctx));
      TakeSnoc(raw, j);
      table := PushCandidate(table, RawPush(ctx, raw[j]));
      j := j + 1;
    }
    assert raw[..j] == raw;
    candidates := SortBy(table, MetaRank);
  }

  /** The candidates are ranked, have distinct normalised texts, and each is the first of the
      highest base score among the calls with its normalised text; every call that stores
      something is represented. */
  lemma CandidatesMeaning(ctx: AiContext, raw: seq<Value>, k: string)
    ensures SortedBy(CandidatesFrom(ctx, raw), MetaRank)
    ensures var offered := Offered(Pushes(ctx, raw));
            var table := Gathered(offered, MetaKey, MetaScore);
            && multiset(CandidatesFrom(ctx, raw)) == multiset(table)
            && DistinctKeys(table, MetaKey)
            && (EntryFor(table, MetaKey, k).Some? <==> exists i :: 0 <= i < |offered| && MetaKey(offered[i]) == k)
            && (EntryFor(table, MetaKey, k).Some? ==> IsBest(offered, MetaKey, MetaScore, k, EntryFor(table, MetaKey, k).value))
  {
    var offered := Offered(Pushes(ctx, raw));
    CandidateTable(ctx, raw);
    TableGathers(Pushes(ctx, raw));
    SortBySorted(Gathered(offered, MetaKey, MetaScore), MetaRank);
    GatheredBest(offered, MetaKey, MetaScore, k);
  }

  // ---------------------------------------------------------------- matches

  /** A content control in the document: its tag and range bounds (-1 when unreadable). */
  datatype Control = Control(tag: string, start: int, end: int)

  /** The overlap test of `hasConflictControl`. */
  predicate Conflicts(controls: seq<Control>, start: int, end: int, selfTag: string)
  {
    exists i :: 0 <= i < |controls| && controls[i].start < end && controls[i].end > start && controls[i].tag != selfTag
  }

  /** `hasConflictControl`. */
  method HasConflictControl(controls: seq<Control>, start: int, end: int, selfTag: string) returns (conflict: bool)
    ensures conflict <==> Conflicts(controls, start, end, selfTag)
  {
    var i := 0;
    while i < |controls|
      invariant 0 <= i <= |controls|
      invariant forall j :: 0 <= j < i ==> !(controls[j].start < end && controls[j].end > start && controls[j].tag != selfTag)
      decreases |controls| - i
    {
      var cc := controls[i];
      if cc.start < end && cc.end > start && cc.tag != selfTag {
        return true;
      }
      i := i + 1;
    }
    return false;
  }

  /** A match the host's search found, with the text it covers and the text read before and after it. */
  datatype Match = Match(start: int, end: int, text: string, before: string, after: string)

  /** A match as `evaluateMatch` scores it. */
  datatype Scored = Scored(start: int, end: int, text: string, candidate: string, kind: Kind, score: int,
                           prefixOk: bool, suffixOk: bool, conflict: bool)

  function ScoredKey(s: Scored): (int, int) { (s.start, s.end) }
  function ScoredScore(s: Scored): int { s.score }
  function ScoredRank(s: Scored): (int, int) { (s.score, s.end - s.start) }

  /** The prefix and suffix checks: the neighbouring text ends with the prefix and starts with
      the suffix; an anchor candidate is itself its own side and only needs the other side nearby. */
  function AnchorChecks(m: Match, kind: Kind, prefixNorm: string, suffixNorm: string): (bool, bool)
  {
    var beforeNorm := NormalizeText(m.before);
    var afterNorm := NormalizeText(m.after);
    var prefixOk := prefixNorm == "" || EndsWith(beforeNorm, prefixNorm);
    var suffixOk := suffixNorm == "" || StartsWith(afterNorm, suffixNorm);
    if kind == PrefixAnchor then (prefixNorm != "", if suffixNorm != "" then Contains(afterNorm, suffixNorm) else suffixOk)
    else if kind == SuffixAnchor then (if prefixNorm != "" then Contains(beforeNorm, prefixNorm) else prefixOk, suffixNorm != "")
    else (prefixOk, suffixOk)
  }

  /** 12 when the text around the match contains the head or (for a long context) the tail of
      the normalised context. */
  function ContextBonus(contextNorm: string, around: string): int
  {
    if contextNorm == "" then 0
    else
      var head := contextNorm[..if |contextNorm| < 16 then |contextNorm| else 16];
      var tail := if |contextNorm| > 20 then contextNorm[|contextNorm| - 16..] else "";
      if (head != "" && Contains(around, head)) || (tail != "" && Contains(around, tail)) then 12 else 0
  }

  /** The score before the conflict penalty. */
  function PlainScore(m: Match, meta: Meta, ctx: AiContext, prefixOk: bool, suffixOk: bool): int
  {
    var prefixNorm := NormalizeText(ctx.prefix);
    var suffixNorm := NormalizeText(ctx.suffix);
    var around := NormalizeText(m.before + (if m.text != "" then m.text else meta.candidate) + m.after);
    meta.baseScore
    + (if prefixNorm != "" then (if prefixOk then 45 else -30) else 0)
    + (if suffixNorm != "" then (if suffixOk then 45 else -30) else 0)
    + (if prefixNorm != "" && suffixNorm != "" && prefixOk && suffixOk then 20 else 0)
    + (if ctx.confidence == "high" then 8 else if ctx.confidence == "low" then -6 else 0)
    + (if meta.kind == Candidate then -5 else 0)
    + (if meta.kind == PrefixAnchor || meta.kind == SuffixAnchor then 6 else 0)
    + ContextBonus(NormalizeText(ctx.context), around)
  }

  /** `evaluateMatch`. */
  function Evaluate(m: Match, meta: Meta, ctx: AiContext, conflict: bool): (s: Scored)
    ensures s.start == m.start && s.end == m.end && s.candidate == meta.candidate && s.kind == meta.kind
    ensures s.conflict == conflict
    ensures meta.baseScore - 191 <= s.score <= meta.baseScore + 136
  {
    var (prefixOk, suffixOk) := AnchorChecks(m, meta.kind, NormalizeText(ctx.prefix), NormalizeText(ctx.suffix));
    var score := PlainScore(m, meta, ctx, prefixOk, suffixOk) - (if conflict then 120 else 0);
    Scored(m.start, m.end, m.text, meta.candidate, meta.kind, score, prefixOk, suffixOk, conflict)
  }

  /** A conflict costs exactly 120 points and changes nothing else. */
  lemma ConflictPenalty(m: Match, meta: Meta, ctx: AiContext)
    ensures Evaluate(m, meta, ctx, true) == Evaluate(m, meta, ctx, false).(score := Evaluate(m, meta, ctx, false).score - 120, conflict := true)
  {
  }

  /** When the prefix and suffix are both given and both check, the match gains 110 points over
      its base score before the other adjustments. */
  lemma BothAnchorsBonus(m: Match, meta: Meta, ctx: AiContext, conflict: bool)
    requires NormalizeText(ctx.prefix) != "" && NormalizeText(ctx.suffix) != ""
    requires var s := Evaluate(m, meta, ctx, conflict); s.prefixOk && s.suffixOk
    ensures Evaluate(m, meta, ctx, conflict).score >= meta.baseScore + 110 - 11 - (if conflict then 120 else 0)
  {
  }

  /** All scored matches, candidate by candidate in ranked order, each candidate's matches in
      document order. */
  function ScoredAll(candidates: seq<Meta>, ctx: AiContext, controls: seq<Control>, tag: string,
                     matchesOf: string -> seq<Match>): seq<Scored>
  {
    if candidates == [] then []
    else
      var c := candidates[|candidates| - 1];
      ScoredAll(candidates[..|candidates| - 1], ctx, controls, tag, matchesOf) + ScoredOf(matchesOf(c.candidate), c, ctx, controls, tag)
  }

  /** One candidate's matches, scored. */
  function ScoredOf(ms: seq<Match>, c: Meta, ctx: AiContext, controls: seq<Control>, tag: string): seq<Scored>
  {
    if ms == [] then []
    else
      var m := ms[|ms| - 1];
      ScoredOf(ms[..|ms| - 1], c, ctx, controls, tag) + [Evaluate(m, c, ctx, Conflicts(controls, m.start, m.end, tag))]
  }

  /** The deduplicated and ranked matches: per position the best-scoring match, first on ties,
      ranked by score and then by length. */
  function RankedMatches(candidates: seq<Meta>, ctx: AiContext, controls: seq<Control>, tag: string,
                         matchesOf: string -> seq<Match>): seq<Scored>
  {
    SortBy(Gathered(ScoredAll(candidates, ctx, controls, tag, matchesOf), ScoredKey, ScoredScore), ScoredRank)
  }

  /** The inner loop: one candidate's matches scored into the position table. */
  method ScoreCandidate(table: seq<Scored>, ghost done: seq<Scored>, ms: seq<Match>, c: Meta, ctx: AiContext,
                        controls: seq<Control>, tag: string) returns (t: seq<Scored>)
    requires table == Gathered(done, ScoredKey, ScoredScore)
    ensures t == Gathered(done + ScoredOf(ms, c, ctx, controls, tag), ScoredKey, ScoredScore)
  {
    t := table;
    var j := 0;
    assert ms[..0] == [] && done + [] == done;
    while j < |ms|
      invariant 0 <= j <= |ms|
      invariant t == Gathered(done + ScoredOf(ms[..j], c, ctx, controls, tag), ScoredKey, ScoredScore)
      decreases |ms| - j
    {
      var m := ms[j];
      var conflict := HasConflictControl(controls, m.start, m.end, tag);
      var scored := Evaluate(m, c, ctx, conflict);
      ghost var prefix := done + ScoredOf(ms[..j], c, ctx, controls, tag);
      ScoredOfStep(done, ms, j, c, ctx, controls, tag);
      GatheredSnoc(prefix, scored, ScoredKey, ScoredScore);
      t := KeepBest(t, scored, ScoredKey, ScoredScore);
      j := j + 1;
    }
    assert ms[..j] == ms;
  }

  /** Scoring one more match appends its score. */
  lemma ScoredOfStep(done: seq<Scored>, ms: seq<Match>, j: nat, c: Meta, ctx: AiContext, controls: seq<Control>, tag: string)
    requires j < |ms|
    ensures done + ScoredOf(ms[..j + 1], c, ctx, controls, tag)
         == (done + ScoredOf(ms[..j], c, ctx, controls, tag)) + [Evaluate(ms[j], c, ctx, Conflicts(controls, ms[j].start, ms[j].end, tag))]
  {
    TakeTake(ms, j);
  }

  /** The outer loop over the candidates, then the ranking. */
  method MatchAll(candidates: seq<Meta>, ctx: AiContext, controls: seq<Control>, tag: string,
                  matchesOf: string -> seq<Match>) returns (ranked: seq<Scored>)
    ensures ranked == RankedMatches(candidates, ctx, controls, tag, matchesOf)
  {
    var table: seq<Scored> := [];
    var i := 0;
    assert candidates[..0] == [];
    while i < |candidates|
      invariant 0 <= i <= |candidates|
      invariant table == Gathered(ScoredAll(candidates[..i], ctx, controls, tag, matchesOf), ScoredKey, ScoredScore)
      decreases |candidates| - i
    {
      var c := candidates[i];
      TakeTake(candidates, i);
      assert ScoredAll(candidates[..i + 1], ctx, controls, tag, matchesOf)
             == ScoredAll(candidates[..i], ctx, controls, tag, matchesOf) + ScoredOf(matchesOf(c.candidate), c, ctx, controls, tag);
      table := ScoreCandidate(table, ScoredAll(candidates[..i], ctx, controls, tag, matchesOf),
                              matchesOf(c.candidate), c, ctx, controls, tag);
      i := i + 1;
    }
    assert candidates[..i] == candidates;
    ranked := SortBy(table, ScoredRank);
  }

  // ---------------------------------------------------------------- the decision ladder

  datatype Status = NotFound | Conflict | LowConfidence | Ambiguous | Success | SuccessRelaxed

  function MinScore(hasAnchor: bool): int { if hasAnchor then 85 else 65 }

  predicate IsAnchorKind(k: Kind) { k == PrefixAnchor || k == SuffixAnchor }

  /** The gap to the runner-up, 999 without one. */
  function ScoreGap(ranked: seq<Scored>): int
    requires ranked != []
  {
    if |ranked| > 1 then ranked[0].score - ranked[1].score else 999
  }

  /** The relaxed acceptance: at least 70, well ahead of the runner-up, one side checked, no conflict. */
  predicate RelaxedPass(best: Scored, gap: int)
  {
    best.score >= 70 && gap >= 22 && (best.prefixOk || best.suffixOk) && !best.conflict
  }

  /** A placeholder or anchor match, with anchors in the context but not both sides checked,
      too close to the runner-up: 20 points for an anchor, 12 for a placeholder. */
  predicate AmbiguousBest(best: Scored, gap: int, hasAnchor: bool)
  {
    gap < (if IsAnchorKind(best.kind) then 20 else 12) && (best.kind == Placeholder || IsAnchorKind(best.kind))
    && hasAnchor && (!best.prefixOk || !best.suffixOk)
  }

  /** The decision over the ranked matches. */
  function Decide(ranked: seq<Scored>, hasAnchor: bool): (st: Status)
    ensures st == NotFound <==> ranked == []
    ensures st == Conflict <==> ranked != [] && ranked[0].conflict
    ensures st == LowConfidence <==>
              ranked != [] && !ranked[0].conflict && ranked[0].score < MinScore(hasAnchor) && !RelaxedPass(ranked[0], ScoreGap(ranked))
    ensures st == Ambiguous <==>
              ranked != [] && !ranked[0].conflict && !(ranked[0].score < MinScore(hasAnchor) && !RelaxedPass(ranked[0], ScoreGap(ranked)))
              && AmbiguousBest(ranked[0], ScoreGap(ranked), hasAnchor)
    ensures st == Success <==>
              ranked != [] && !ranked[0].conflict && ranked[0].score >= MinScore(hasAnchor)
              && !AmbiguousBest(ranked[0], ScoreGap(ranked), hasAnchor)
    ensures st == SuccessRelaxed <==>
              ranked != [] && !ranked[0].conflict && ranked[0].score < MinScore(hasAnchor) && RelaxedPass(ranked[0], ScoreGap(ranked))
              && !AmbiguousBest(ranked[0], ScoreGap(ranked), hasAnchor)
  {
    if ranked == [] then NotFound
    else
      var best := ranked[0];
      var gap := ScoreGap(ranked);
      if best.conflict then Conflict
      else if best.score < MinScore(hasAnchor) && !RelaxedPass(best, gap) then LowConfidence
      else if AmbiguousBest(best, gap, hasAnchor) then Ambiguous
      else if best.score < MinScore(hasAnchor) then SuccessRelaxed
      else Success
  }

  /** Where the new control goes: an anchor collapses to the side facing the value. */
  datatype Placement = Collapsed(pos: int) | Span(start: int, end: int)

  datatype Outcome = Outcome(success: bool, message: string, status: Option<Status>, alreadyExists: bool,
                             placement: Option<Placement>, originalText: string)

  function Failure(message: string, status: Option<Status>): Outcome
  {
    Outcome(false, message, status, false, None, "")
  }

  /** What the embed records for the best match. */
  function Embedding(best: Scored): (Placement, string)
  {
    if best.kind == PrefixAnchor then (Collapsed(best.end), "")
    else if best.kind == SuffixAnchor then (Collapsed(best.start), "")
    else (Span(best.start, best.end), if best.text != "" then best.text else best.candidate)
  }

  /** The message of a decision; `score` is the best match's. */
  function Message(st: Status, score: int, title: string, preview: string): string
  {
    match st
    case NotFound => "未找到: " + preview + "..."
    case Conflict => "命中位置已被其他埋点占用"
    case LowConfidence => "定位置信度不足(" + IntToString(score) + ")"
    case Ambiguous => "命中位置存在歧义，请手动埋点"
    case Success => "已埋点: " + title
    case SuccessRelaxed => "已埋点(宽松置信): " + title
  }

  /** The outcome once the matches are ranked: an embed exactly on a successful decision, never
      on a conflict, and relaxed exactly below the minimum score. */
  function Verdict(title: string, preview: string, ranked: seq<Scored>, hasAnchor: bool): (o: Outcome)
    ensures o.status == Some(Decide(ranked, hasAnchor)) && !o.alreadyExists
    ensures o.success <==> o.placement.Some?
    ensures o.success <==> Decide(ranked, hasAnchor) == Success || Decide(ranked, hasAnchor) == SuccessRelaxed
    ensures o.success ==>
              && ranked != [] && !ranked[0].conflict
              && (ranked[0].score >= MinScore(hasAnchor) || RelaxedPass(ranked[0], ScoreGap(ranked)))
              && (o.status == Some(SuccessRelaxed) <==> ranked[0].score < MinScore(hasAnchor))
    ensures o.success && IsAnchorKind(ranked[0].kind) ==> o.originalText == "" && o.placement.value.Collapsed?
  {
    var st := Decide(ranked, hasAnchor);
    var msg := Message(st, if ranked == [] then 0 else ranked[0].score, title, preview);
    if st == Success || st == SuccessRelaxed then
      var (placement, original) := Embedding(ranked[0]);
      Outcome(true, msg, Some(st), false, Some(placement), original)
    else Failure(msg, Some(st))
  }

  predicate HasTag(controls: seq<Control>, tag: string)
  {
    exists i :: 0 <= i < |controls| && controls[i].tag == tag
  }

  /** The scan for a control already carrying the tag. */
  method FindTag(controls: seq<Control>, tag: string) returns (found: bool)
    ensures found <==> HasTag(controls, tag)
  {
    var i := 0;
    while i < |controls|
      invariant 0 <= i <= |controls|
      invariant forall j :: 0 <= j < i ==> controls[j].tag != tag
      decreases |controls| - i
    {
      if controls[i].tag == tag {
        return true;
      }
      i := i + 1;
    }
    return false;
  }

  /** The first 20 characters of the first candidate. */
  function Preview(candidates: seq<Meta>): string
    requires candidates != []
  {
    var c := candidates[0].candidate;
    if |c| <= 20 then c else c[..20]
  }

  /** Whether the AI context gives a prefix or a suffix. */
  predicate HasAnchor(ctx: AiContext)
  {
    NormalizeText(ctx.prefix) != "" || NormalizeText(ctx.suffix) != ""
  }

  /** `wpsInsertControlBySearch` given the host, once the search input is read into its AI
      context and raw candidates: `controls` is `None` without an active document. */
  function SearchFrom(tag: string, title: string, ctx: AiContext, raw: seq<Value>, inWps: bool,
                      controls: Option<seq<Control>>, matchesOf: string -> seq<Match>): Outcome
  {
    var candidates := CandidatesFrom(ctx, raw);
    if !inWps then Outcome(true, "Mock mode", None, false, None, "")
    else if candidates == [] then Failure("搜索文本为空", None)
    else if controls.None? then Failure("请先打开一个文档", None)
    else if HasTag(controls.value, tag) then Outcome(false, "已存在埋点: " + title, None, true, None, "")
    else Verdict(title, Preview(candidates), RankedMatches(candidates, ctx, controls.value, tag, matchesOf), HasAnchor(ctx))
  }

  /** `wpsInsertControlBySearch`: the search input is read into its AI context and raw candidates. */
  method InsertControlBySearch(tag: string, title: string, input: Value, inWps: bool, controls: Option<seq<Control>>,
                               matchesOf: string -> seq<Match>) returns (r: Outcome)
    ensures r == SearchFrom(tag, title, ContextOf(input), RawCandidates(input), inWps, controls, matchesOf)
  {
    r := Search(tag, title, ContextOf(input), RawCandidates(input), inWps, controls, matchesOf);
  }

  /** The rest of `wpsInsertControlBySearch`, from the candidate list to the decision. */
  method Search(tag: string, title: string, ctx: AiContext, raw: seq<Value>, inWps: bool, controls: Option<seq<Control>>,
                matchesOf: string -> seq<Match>) returns (r: Outcome)
    ensures r == SearchFrom(tag, title, ctx, raw, inWps, controls, matchesOf)
  {
    var candidates := GatherCandidates(ctx, raw);
    if !inWps {
      return Outcome(true, "Mock mode", None, false, None, "");
    }
    if candidates == [] {
      return Failure("搜索文本为空", None);
    }
    if controls.None? {
      return Failure("请先打开一个文档", None);
    }
    var found := FindTag(controls.value, tag);
    if found {
      return Outcome(false, "已存在埋点: " + title, None, true, None, "");
    }
    var ranked := MatchAll(candidates, ctx, controls.value, tag, matchesOf);
    r := Verdict(title, Preview(candidates), ranked, HasAnchor(ctx));
  }

  /** An embed happens only in a document without the tag, on a best match that overlaps no
      other control and either clears the minimum score or passes the relaxed rule. */
  lemma EmbedOnlyWhenSafe(tag: string, title: string, ctx: AiContext, raw: seq<Value>, controls: seq<Control>,
                          matchesOf: string -> seq<Match>)
    requires SearchFrom(tag, title, ctx, raw, true, Some(controls), matchesOf).success
    ensures !HasTag(controls, tag)
    ensures var ranked := RankedMatches(CandidatesFrom(ctx, raw), ctx, controls, tag, matchesOf);
            && ranked != []
            && !Conflicts(controls, ranked[0].start, ranked[0].end, tag)
            && (ranked[0].score >= MinScore(HasAnchor(ctx)) || RelaxedPass(ranked[0], ScoreGap(ranked)))
  {
    var candidates := CandidatesFrom(ctx, raw);
    var ranked := RankedMatches(candidates, ctx, controls, tag, matchesOf);
    assert SearchFrom(tag, title, ctx, raw, true, Some(controls), matchesOf) == Verdict(title, Preview(candidates), ranked, HasAnchor(ctx));
    var all := ScoredAll(candidates, ctx, controls, tag, matchesOf);
    var table := Gathered(all, ScoredKey, ScoredScore);
    assert ranked[0] in multiset(table);
    GatheredFrom(all, ScoredKey, ScoredScore);
    ScoredAllConflicts(candidates, ctx, controls, tag, matchesOf);
    assert ranked[0] in table;
  }

  /** Every scored match records whether its own position conflicts. */
  lemma {:induction false} ScoredAllConflicts(candidates: seq<Meta>, ctx: AiContext, controls: seq<Control>, tag: string,
                                              matchesOf: string -> seq<Match>)
    ensures forall s :: s in ScoredAll(candidates, ctx, controls, tag, matchesOf) ==> s.conflict == Conflicts(controls, s.start, s.end, tag)
  {
    if candidates != [] {
      var c := candidates[|candidates| - 1];
      ScoredAllConflicts(candidates[..|candidates| - 1], ctx, controls, tag, matchesOf);
      ScoredOfConflicts(matchesOf(c.candidate), c, ctx, controls, tag);
    }
  }

  lemma {:induction false} ScoredOfConflicts(ms: seq<Match>, c: Meta, ctx: AiContext, controls: seq<Control>, tag: string)
    ensures forall s :: s in ScoredOf(ms, c, ctx, controls, tag) ==> s.conflict == Conflicts(controls, s.start, s.end, tag)
  {
    if ms != [] {
      ScoredOfConflicts(ms[..|ms| - 1], c, ctx, controls, tag);
    }
  }
}
