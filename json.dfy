/**
  The semi-structured value that flows through the system: JSON as decoded by
  `JSON.parse` in the browser and the dicts, lists, strings and integers the
  Python side builds and `json.dump`s. Object fields are kept in the order the
  language enumerates them (`Object.entries` order in JavaScript, insertion
  order for a Python dict); keys are distinct, as in a decoded object.
 */
module JsonValue {
  import opened Wrappers
  import opened Text

  datatype Json =
    | JNull
    | JBool(b: bool)
    | JNum(n: int)
    | JStr(s: string)
    | JArr(elems: seq<Json>)
    | JObj(fields: seq<(string, Json)>)

  /** Outcome of JavaScript code that may throw a TypeError (a property read on `null`,
      `for ... of` over a non-iterable). The error value is never inspected by the
      callers modelled here, so it is not carried. */
  datatype Completion<+T> = Normal(value: T) | Throw

  /** Index of the field named `key`. */
  function FieldIndex(fields: seq<(string, Json)>, key: string): (r: Option<nat>)
    ensures r.Some? ==> r.value < |fields| && fields[r.value].0 == key
    ensures r.None? ==> forall i :: 0 <= i < |fields| ==> fields[i].0 != key
  {
    if fields == [] then None
    else if fields[0].0 == key then Some(0)
    else
      match FieldIndex(fields[1..], key)
      case None => None
      case Some(i) => Some(i + 1)
  }

  /** The value stored under `key`, if `j` is an object that has it (Python `d.get(key)`, `key in d`). */
  function Lookup(j: Json, key: string): (r: Option<Json>)
    ensures r.Some? ==> r.value < j
    ensures r.Some? ==> j.JObj?
  {
    match j
    case JObj(fields) =>
      (match FieldIndex(fields, key)
       case None => None
       case Some(i) =>
         assert fields[i] in fields;
         Some(fields[i].1))
    case _ => None
  }

  /** The first entry with a key is the one a lookup of that key finds. */
  lemma LookupFirst(fields: seq<(string, Json)>, i: nat)
    requires i < |fields| && forall j :: 0 <= j < i ==> fields[j].0 != fields[i].0
    ensures Lookup(JObj(fields), fields[i].0) == Some(fields[i].1)
  {
    FieldIndexFirst(fields, i);
  }

  lemma {:induction false} FieldIndexFirst(fields: seq<(string, Json)>, i: nat)
    requires i < |fields| && forall j :: 0 <= j < i ==> fields[j].0 != fields[i].0
    ensures FieldIndex(fields, fields[i].0) == Some(i)
  {
    if i > 0 {
      FieldIndexFirst(fields[1..], i - 1);
    }
  }

  /** JavaScript `j.key` on a value that is neither null nor undefined. A missing
      property reads as `JNull`: every live reader tests the result for truthiness or
      for `typeof 'object'` plus non-null before using it, and there `undefined` and
      `null` behave alike. */
  function Get(j: Json, key: string): (r: Json)
    ensures r != JNull ==> r < j
  {
    match Lookup(j, key)
    case Some(v) => v
    case None => JNull
  }

  /** JavaScript truthiness: `null`, `false`, `0` and `''` are falsy; arrays and objects,
      empty or not, are truthy. */
  predicate JsTruthy(j: Json) {
    match j
    case JNull => false
    case JBool(b) => b
    case JNum(n) => n != 0
    case JStr(s) => s != ""
    case JArr(_) => true
    case JObj(_) => true
  }

  /** Python truthiness: `None`, `False`, `0`, `''`, `[]` and `{}` are falsy. */
  predicate PyTruthy(j: Json) {
    match j
    case JNull => false
    case JBool(b) => b
    case JNum(n) => n != 0
    case JStr(s) => s != ""
    case JArr(es) => es != []
    case JObj(fs) => fs != []
  }

  /** JavaScript `typeof j === 'object' && j !== null`. */
  predicate IsObject(j: Json) {
    j.JArr? || j.JObj?
  }

  /** The values of `Object.entries(j)` (equally `Object.values(j)`): an object's field
      values, an array's elements, a string's one-character strings, nothing otherwise. */
  function EntryValues(j: Json): (r: seq<Json>)
    ensures j.JStr? ==> forall k :: 0 <= k < |r| ==> r[k].JStr?
    ensures !j.JStr? ==> forall k :: 0 <= k < |r| ==> r[k] < j
  {
    match j
    case JObj(fields) =>
      seq(|fields|, i requires 0 <= i < |fields| => assert fields[i] in fields; fields[i].1)
    case JArr(elems) => elems
    case JStr(s) => seq(|s|, i requires 0 <= i < |s| => JStr([s[i]]))
    case _ => []
  }

  /** JavaScript `String(j)`, which is also what a template literal `${j}` inserts. */
  function JsString(j: Json): string
    decreases j, 1, 0
  {
    match j
    case JNull => "null"
    case JBool(b) => if b then "true" else "false"
    case JNum(n) => IntToString(n)
    case JStr(s) => s
    case JArr(elems) => JoinElements(j, elems)
    case JObj(_) => "[object Object]"
  }

  /** `Array.prototype.join(',')`: `null` elements become empty strings. */
  function JoinElements(ghost whole: Json, elems: seq<Json>): string
    requires forall k :: 0 <= k < |elems| ==> elems[k] < whole
    decreases whole, 0, |elems|
  {
    if elems == [] then ""
    else
      var last := elems[|elems| - 1];
      var init := JoinElements(whole, elems[..|elems| - 1]);
      var text := if last == JNull then "" else JsString(last);
      if |elems| == 1 then text else init + "," + text
  }

  /** The values a `for ... of` loop visits: an array's elements, a string's code points;
      iterating any other value throws a TypeError. */
  function ForOf(j: Json): (r: Completion<seq<Json>>)
    ensures r.Throw? <==> !(j.JArr? || j.JStr?)
  {
    match j
    case JArr(elems) => Normal(elems)
    case JStr(s) => Normal(seq(|s|, i requires 0 <= i < |s| => JStr([s[i]])))
    case _ => Throw
  }

  /** A Python dict literal built from key-value pairs, in order. */
  function Dict(fields: seq<(string, Json)>): Json {
    JObj(fields)
  }

  /** Python `d[key] = v`: replaces the value of an existing key in place, otherwise appends. */
  function DictSet(fields: seq<(string, Json)>, key: string, v: Json): (r: seq<(string, Json)>)
    ensures FieldIndex(fields, key).Some? ==> |r| == |fields| && r[FieldIndex(fields, key).value] == (key, v)
    ensures FieldIndex(fields, key).None? ==> r == fields + [(key, v)]
  {
    match FieldIndex(fields, key)
    case Some(i) => fields[i := (key, v)]
    case None => fields + [(key, v)]
  }
}
