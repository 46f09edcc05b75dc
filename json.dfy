/**
 * Decoded JSON as PHP's `json_decode($text, true)` hands it to the adapter, and the few PHP
 * operations the adapter applies to such values: truthiness, `$a['key']`, `foreach`, and the
 * conversions to string and integer.  Parsing itself is not modelled: a response body carries its
 * decoded form alongside its text (see `Remote.Body`).  Objects keep their members in order,
 * because PHP arrays do.
 */
module Json {
  import opened Wrappers
  import Php

  datatype Json =
    | JNull
    | JBool(b: bool)
    | JInt(i: int)
    | JStr(s: string)
    | JList(items: seq<Json>)
    | JObj(members: seq<Member>)

  datatype Member = Member(key: string, value: Json)

  /** PHP's `!$x` on a decoded value: null, false, 0, "", "0" and the empty array are falsy. */
  predicate Falsy(j: Json) {
    match j
    case JNull => true
    case JBool(b) => !b
    case JInt(i) => i == 0
    case JStr(s) => !Php.Truthy(s)
    case JList(items) => items == []
    case JObj(members) => members == []
  }

  /** Both JSON arrays and JSON objects decode to PHP arrays. */
  predicate IsArray(j: Json) {
    j.JList? || j.JObj?
  }

  /** The value of the last member named `key` (json_decode keeps the last duplicate), if any. */
  function Lookup(members: seq<Member>, key: string): (r: Option<Json>)
    ensures r.Some? <==> exists k :: 0 <= k < |members| && members[k].key == key
    ensures r.Some? ==> exists k :: 0 <= k < |members| && members[k] == Member(key, r.value)
  {
    if members == [] then None
    else if members[|members| - 1].key == key then Some(members[|members| - 1].value)
    else Lookup(members[..|members| - 1], key)
  }

  /** The member at `i` is found when no later member has the same key. */
  lemma {:induction false} LookupAt(members: seq<Member>, i: nat)
    requires i < |members|
    requires forall j :: i < j < |members| ==> members[j].key != members[i].key
    ensures Lookup(members, members[i].key) == Some(members[i].value)
  {
    if i < |members| - 1 {
      LookupAt(members[..|members| - 1], i);
    }
  }

  /**
   * `$j['key']` read with `??` or with warnings silenced: the member's value, or null when `j`
   * is not an object or has no such member.
   */
  function Index(j: Json, key: string): Json {
    if j.JObj? then Lookup(j.members, key).GetOr(JNull) else JNull
  }

  /** `$a ?? $b`. */
  function Coalesce(a: Json, b: Json): Json {
    if a.JNull? then b else a
  }

  /** The values a `foreach` visits, in order; none for a non-array (PHP only warns). */
  function Values(j: Json): (r: seq<Json>)
    ensures j.JList? ==> r == j.items
    ensures j.JObj? ==> |r| == |j.members| && forall k :: 0 <= k < |r| ==> r[k] == j.members[k].value
    ensures !IsArray(j) ==> r == []
  {
    match j
    case JList(items) => items
    case JObj(members) => MemberValues(members)
    case _ => []
  }

  function MemberValues(members: seq<Member>): (r: seq<Json>)
    ensures |r| == |members| && forall k :: 0 <= k < |r| ==> r[k] == members[k].value
  {
    if members == [] then [] else [members[0].value] + MemberValues(members[1..])
  }

  /** `(string)$j`: arrays give the text "Array" (with a warning), null and false the empty string. */
  function ToText(j: Json): string {
    match j
    case JNull => ""
    case JBool(b) => if b then "1" else ""
    case JInt(i) => Php.IntToString(i)
    case JStr(s) => s
    case _ => "Array"
  }

  /**
   * `(int)$j`.  A string counts only when it is numeric in the sense of `Php.IsNumeric`;
   * any other string gives 0.
   */
  function ToInt(j: Json): int {
    match j
    case JNull => 0
    case JBool(b) => if b then 1 else 0
    case JInt(i) => i
    case JStr(s) => if Php.IsNumeric(s) then Php.ParseInt(s) else 0
    case JList(items) => if items == [] then 0 else 1
    case JObj(members) => if members == [] then 0 else 1
  }

  /**
   * A value passed to a `string` parameter (or returned from a `string` function) of code that
   * does not declare strict types: scalars are converted, null and arrays are a TypeError (None).
   */
  function CoerceString(j: Json): (r: Option<string>)
    ensures r.None? <==> j.JNull? || IsArray(j)
    ensures j.JStr? ==> r == Some(j.s)
  {
    if j.JNull? || IsArray(j) then None else Some(ToText(j))
  }

  /** PHP 8's `$j == t` for a string `t` that is not numeric, such as "PUBLISHED". */
  function LooselyEquals(j: Json, t: string): bool
    requires !Php.IsNumeric(t)
  {
    match j
    case JNull => t == ""
    case JBool(b) => b == Php.Truthy(t)
    case JInt(i) => Php.IntToString(i) == t
    case JStr(s) => s == t
    case _ => false
  }

  // ---------------------------------------------------------------------------------------
  // Text of a value, as `json_encode` writes it (ASCII strings without escapes).

  function Render(j: Json): (r: string)
    ensures r != []
    decreases j, 1
  {
    match j
    case JNull => "null"
    case JBool(b) => if b then "true" else "false"
    case JInt(i) => Php.IntToString(i)
    case JStr(s) => "\"" + s + "\""
    case JList(items) => "[" + RenderItems(j, items) + "]"
    case JObj(members) => "{" + RenderMembers(j, members) + "}"
  }

  function RenderItems(ghost parent: Json, items: seq<Json>): string
    requires forall k :: 0 <= k < |items| ==> items[k] < parent
    decreases parent, 0, |items|
  {
    if items == [] then ""
    else Render(items[0]) + (if |items| == 1 then "" else "," + RenderItems(parent, items[1..]))
  }

  function RenderMembers(ghost parent: Json, members: seq<Member>): string
    requires forall k :: 0 <= k < |members| ==> members[k].value < parent
    decreases parent, 0, |members|
  {
    if members == [] then ""
    else
      "\"" + members[0].key + "\":" + Render(members[0].value)
      + (if |members| == 1 then "" else "," + RenderMembers(parent, members[1..]))
  }
}
