/**
 * A JSON value as JavaScript sees it after `JSON.parse`. A missing property
 * (`undefined`) is `None` from `Get`. Numbers are reals; JSON has no NaN.
 */
module JsonValue {
  import opened Wrappers
  import Text

  datatype Value =
    | Null
    | Bool(b: bool)
    | Num(n: real)
    | Str(s: string)
    | Arr(items: seq<Value>)
    | Obj(fields: seq<(string, Value)>)

  /** JavaScript truthiness of a present value. */
  predicate Truthy(v: Value)
  {
    match v
    case Null => false
    case Bool(b) => b
    case Num(n) => n != 0.0
    case Str(s) => s != ""
    case Arr(_) => true
    case Obj(_) => true
  }

  /** Truthiness of a property read that may be `undefined`. */
  predicate TruthyOpt(o: Option<Value>) { o.Some? && Truthy(o.value) }

  /** `typeof v === 'object' && v !== null`. */
  predicate IsObjectLike(v: Value) { v.Arr? || v.Obj? }

  function Lookup(fields: seq<(string, Value)>, key: string): (r: Option<Value>)
    ensures r.Some? <==> exists i :: 0 <= i < |fields| && fields[i].0 == key
    ensures r.Some? ==> r.value in (set i | 0 <= i < |fields| :: fields[i].1)
  {
    if fields == [] then None
    else if fields[0].0 == key then Some(fields[0].1)
    else
      var r := Lookup(fields[1..], key);
      assert r.Some? ==> r.value in (set i | 0 <= i < |fields[1..]| :: fields[1..][i].1);
      assert forall i :: 0 <= i < |fields[1..]| ==> fields[1..][i] == fields[i + 1];
      r
  }

  /** The first field carrying `key` is the one `Lookup` finds. */
  lemma {:induction false} LookupFirst(fields: seq<(string, Value)>, key: string, i: nat)
    requires i < |fields| && fields[i].0 == key
    requires forall j :: 0 <= j < i ==> fields[j].0 != key
    ensures Lookup(fields, key) == Some(fields[i].1)
  {
    if i > 0 {
      LookupFirst(fields[1..], key, i - 1);
    }
  }

  /** `v[key]` on an object; other values have no own named properties here. */
  function Get(v: Value, key: string): Option<Value>
  {
    if v.Obj? then Lookup(v.fields, key) else None
  }

  /** `key in v` on an object. */
  predicate Has(v: Value, key: string) { Get(v, key).Some? }

  function GetStr(v: Value, key: string): Option<string>
  {
    match Get(v, key)
    case Some(Str(s)) => Some(s)
    case _ => None
  }

  /** `Object.keys(v)` of an object. */
  function Keys(v: Value): seq<string>
  {
    if v.Obj? then seq(|v.fields|, i requires 0 <= i < |v.fields| => v.fields[i].0) else []
  }

  function Replace(fields: seq<(string, Value)>, key: string, x: Value): (r: seq<(string, Value)>)
    ensures |r| == |fields|
    ensures forall i :: 0 <= i < |fields| ==> r[i].0 == fields[i].0
  {
    if fields == [] then []
    else if fields[0].0 == key then [(key, x)] + fields[1..]
    else [fields[0]] + Replace(fields[1..], key, x)
  }

  /** `v[key] = x` on an object: an existing key keeps its position, a new key goes last. */
  function Set(v: Value, key: string, x: Value): (r: Value)
    requires v.Obj?
    ensures r.Obj? && Get(r, key) == Some(x)
    ensures forall k :: k != key ==> Get(r, k) == Get(v, k)
  {
    if Has(v, key) then
      ReplaceLookup(v.fields, key, x);
      Obj(Replace(v.fields, key, x))
    else
      AppendLookup(v.fields, key, x);
      Obj(v.fields + [(key, x)])
  }

  lemma {:induction false} ReplaceLookup(fields: seq<(string, Value)>, key: string, x: Value)
    requires Lookup(fields, key).Some?
    ensures Lookup(Replace(fields, key, x), key) == Some(x)
    ensures forall k :: k != key ==> Lookup(Replace(fields, key, x), k) == Lookup(fields, k)
  {
    if fields[0].0 != key {
      ReplaceLookup(fields[1..], key, x);
    }
  }

  lemma {:induction false} AppendLookup(fields: seq<(string, Value)>, key: string, x: Value)
    requires Lookup(fields, key).None?
    ensures Lookup(fields + [(key, x)], key) == Some(x)
    ensures forall k :: k != key ==> Lookup(fields + [(key, x)], k) == Lookup(fields, k)
  {
    if fields != [] {
      assert (fields + [(key, x)])[1..] == fields[1..] + [(key, x)];
      AppendLookup(fields[1..], key, x);
    }
  }

  /**
   * `Number(v)`; `None` stands for NaN. A string converts as `Text.StringToNumber` reads it.
   * An array converts through its string form: an empty one is 0, one element converts as
   * that element's string form, and two or more always hold a comma, so are NaN. An object's
   * string form `[object Object]` is NaN.
   */
  function ToNumber(v: Value): Option<real>
  {
    match v
    case Null => Some(0.0)
    case Bool(b) => Some(if b then 1.0 else 0.0)
    case Num(n) => Some(n)
    case Str(s) => Text.StringToNumber(s)
    case Arr(items) =>
      if items == [] then Some(0.0)
      else if |items| > 1 then None
      else
        (match items[0]
         case Null => Some(0.0)
         case Num(n) => Some(n)
         case Str(s) => Text.StringToNumber(s)
         case Arr(_) => ToNumber(items[0])
         case _ => None)
    case Obj(_) => None
  }

  /** `a < b` for two present values: two strings compare character by character, any
      other pair compares as numbers, and NaN compares false. */
  predicate JsLess(a: Value, b: Value)
  {
    if a.Str? && b.Str? then Text.StringLess(a.s, b.s)
    else ToNumber(a).Some? && ToNumber(b).Some? && ToNumber(a).value < ToNumber(b).value
  }

  /** `<` is irreflexive, and transitive on values that are all strings or all not strings. */
  lemma JsLessOrder(a: Value, b: Value, c: Value)
    ensures !JsLess(a, a)
    ensures (a.Str? <==> b.Str?) && (b.Str? <==> c.Str?) && JsLess(a, b) && JsLess(b, c) ==> JsLess(a, c)
  {
    if a.Str? {
      Text.StringLessIrreflexive(a.s);
      if b.Str? && c.Str? && JsLess(a, b) && JsLess(b, c) {
        Text.StringLessTransitive(a.s, b.s, c.s);
      }
    }
  }

  /** `a > b` for a property read against a count (NaN and undefined compare false). */
  predicate GreaterThan(o: Option<Value>, n: real)
  {
    o.Some? && ToNumber(o.value).Some? && ToNumber(o.value).value > n
  }

  predicate LessThan(o: Option<Value>, n: real)
  {
    o.Some? && ToNumber(o.value).Some? && ToNumber(o.value).value < n
  }
}
