/**
 * How Ruby treats the parsed JSON values the gateway reads: truthiness,
 * ActiveSupport's blank?/present?, the `[]` operator on each kind of value,
 * and string interpolation. Operations Ruby would raise on are failures
 * carrying the exception.
 */
module RubyValues {
  import opened Wrappers
  import opened Json
  import opened RubyStrings

  /** The Ruby exceptions the modelled code can raise. */
  datatype Fault =
    | ArgumentError(message: string)
    | NoMethodError(name: string)
    | TypeError(message: string)

  /** Everything but nil and false is true in a Ruby condition. */
  predicate Truthy(v: Json)
  {
    !(v.JNull? || v == JBool(false))
  }

  /** A character of the POSIX bracket class [[:space:]] on a Unicode string. */
  predicate IsSpace(c: char)
  {
    ('\t' <= c <= '\r') || c == ' ' || c == '\U{85}' || c == '\U{A0}' || c == '\U{1680}'
    || ('\U{2000}' <= c <= '\U{200A}') || c == '\U{2028}' || c == '\U{2029}'
    || c == '\U{202F}' || c == '\U{205F}' || c == '\U{3000}'
  }

  /** ActiveSupport's Object#blank? on a JSON value. */
  predicate Blank(v: Json)
  {
    match v
    case JNull => true
    case JBool(b) => !b
    case JInt(_) => false
    case JString(s) => forall i :: 0 <= i < |s| ==> IsSpace(s[i])
    case JArray(items) => items == []
    case JObject(members) => members == []
  }

  /** Object#present?, the negation of blank?. */
  predicate Present(v: Json)
  {
    !Blank(v)
  }

  /** String#[](str): `k` when it occurs in `s`, nil otherwise. */
  predicate Contains(s: string, k: string)
  {
    exists i | 0 <= i <= |s| - |k| :: OccursAt(s, k, i)
  }

  predicate OccursAt(s: string, k: string, i: nat)
  {
    i + |k| <= |s| && s[i..i + |k|] == k
  }

  /**
   * `v[0]`: the first element of an array (nil when empty), nil on a hash
   * (its keys are strings), the first character of a string, bit 0 of an
   * integer; nil, true and false have no `[]`.
   */
  function At0(v: Json): (r: Result<Json, Fault>)
    ensures v.JArray? && v.items != [] ==> r == Success(v.items[0])
    ensures r.Failure? <==> v.JNull? || v.JBool?
  {
    match v
    case JNull => Failure(NoMethodError("[]"))
    case JBool(_) => Failure(NoMethodError("[]"))
    case JInt(i) => Success(JInt(i % 2))
    case JString(s) => Success(if s == [] then JNull else JString([s[0]]))
    case JArray(items) => Success(if items == [] then JNull else items[0])
    case JObject(_) => Success(JNull)
  }

  /**
   * `v[k]` for a string key: a hash lookup (nil when absent), a substring
   * search on a string; an array or an integer raises TypeError, and nil,
   * true and false have no `[]`.
   */
  function Field(v: Json, k: string): (r: Result<Json, Fault>)
    ensures v.JObject? ==> r == Success(Lookup(v.members, k))
    ensures r.Failure? <==> !(v.JObject? || v.JString?)
  {
    match v
    case JNull => Failure(NoMethodError("[]"))
    case JBool(_) => Failure(NoMethodError("[]"))
    case JInt(_) => Failure(TypeError("no implicit conversion of String into Integer"))
    case JString(s) => Success(if Contains(s, k) then JString(k) else JNull)
    case JArray(_) => Failure(TypeError("no implicit conversion of String into Integer"))
    case JObject(members) => Success(Lookup(members, k))
  }

  /** Object#inspect as Ruby 2 writes parsed JSON values. */
  function InspectValue(v: Json): string
    decreases v, 1
  {
    match v
    case JNull => "nil"
    case JBool(b) => if b then "true" else "false"
    case JInt(i) => IntToS(i)
    case JString(s) => Inspect(s)
    case JArray(items) => "[" + InspectItems(v, items) + "]"
    case JObject(members) => "{" + InspectMembers(v, members) + "}"
  }

  function InspectItems(ghost parent: Json, items: seq<Json>): string
    requires forall x :: x in items ==> x < parent
    decreases parent, 0, |items|
  {
    if items == [] then ""
    else
      assert items[0] in items && forall x :: x in items[1..] ==> x in items;
      if |items| == 1 then InspectValue(items[0])
    else InspectValue(items[0]) + ", " + InspectItems(parent, items[1..])
  }

  function InspectMembers(ghost parent: Json, members: seq<Member>): string
    requires forall m :: m in members ==> m.value < parent
    decreases parent, 0, |members|
  {
    if members == [] then ""
    else
      assert members[0] in members && forall m :: m in members[1..] ==> m in members;
      var first := Inspect(members[0].key) + "=>" + InspectValue(members[0].value);
      if |members| == 1 then first else first + ", " + InspectMembers(parent, members[1..])
  }

  /**
   * The text `"#{v}"` interpolates: nil is empty, a string is itself,
   * numbers and booleans are written out, arrays and hashes are inspected.
   */
  function ToS(v: Json): (r: string)
    ensures v.JString? ==> r == v.s
    ensures v.JNull? ==> r == ""
  {
    match v
    case JNull => ""
    case JBool(b) => if b then "true" else "false"
    case JInt(i) => IntToS(i)
    case JString(s) => s
    case JArray(_) => InspectValue(v)
    case JObject(_) => InspectValue(v)
  }
}
