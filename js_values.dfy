/**
 * The slice of JavaScript value semantics the pipeline relies on: values produced by
 * JSON.parse, reading a named property, truthiness, `typeof x === 'number'`,
 * String.prototype.trim and includes, and the string conversion `new Error(x)` applies.
 * JSON.parse itself is not modelled; its result is an input of type Json.
 */
module JsValues {
  import opened Wrappers
  import Decimal

  /** A value JSON.parse can return. Object members keep their textual order. */
  datatype Json =
    | JNull
    | JBool(b: bool)
    | JNumber(n: real)
    | JString(s: string)
    | JArray(items: seq<Json>)
    | JObject(members: seq<(string, Json)>)

  /** The result of a property read: `undefined` or a JSON value. */
  datatype JsValue = Undefined | Defined(v: Json)

  /** The property names the pipeline reads. None of them is `length`, an array
      index or a member of Object.prototype, so only own members can supply them. */
  datatype Key = PredictedClass | Confidence | Message

  function KeyName(k: Key): string {
    match k
    case PredictedClass => "predicted_class"
    case Confidence => "confidence"
    case Message => "message"
  }

  /** JavaScript truthiness: undefined, null, false, 0 and "" are falsy; every other value,
      an empty array or object included, is truthy. */
  predicate Truthy(v: JsValue): (r: bool)
    ensures r <==> v != Undefined && v != Defined(JNull) && v != Defined(JBool(false)) &&
                   v != Defined(JNumber(0.0)) && v != Defined(JString(""))
  {
    match v
    case Undefined => false
    case Defined(j) =>
      match j
      case JNull => false
      case JBool(b) => b
      case JNumber(n) => n != 0.0
      case JString(s) => s != []
      case JArray(_) => true
      case JObject(_) => true
  }

  /** `typeof v === 'number'`. */
  predicate IsNumber(v: JsValue) {
    v.Defined? && v.v.JNumber?
  }

  /** The value JSON.parse keeps for `key`: the last member with that name. */
  function LastMember(members: seq<(string, Json)>, key: string): (r: Option<Json>)
    ensures r.None? <==> forall i :: 0 <= i < |members| ==> members[i].0 != key
    ensures r.Some? ==> exists i :: 0 <= i < |members| && members[i] == (key, r.value) &&
                          forall j :: i < j < |members| ==> members[j].0 != key
  {
    if members == [] then None
    else if members[|members| - 1].0 == key then
      assert members[|members| - 1] == (key, members[|members| - 1].1);
      Some(members[|members| - 1].1)
    else
      LastMember(members[..|members| - 1], key)
  }

  /** The TypeError message a property read on `null` throws. */
  function NullReadMessage(k: Key): string {
    "Cannot read properties of null (reading '" + KeyName(k) + "')"
  }

  /** `v.key`: throws on null, yields an own member of an object, undefined otherwise. */
  function GetProperty(v: Json, k: Key): (r: Result<JsValue, string>)
    ensures r.Err? <==> v.JNull?
    ensures r.Err? ==> r.error == NullReadMessage(k)
    ensures r.Ok? && r.value.Defined? ==>
              v.JObject? && LastMember(v.members, KeyName(k)) == Some(r.value.v)
    ensures v.JObject? && LastMember(v.members, KeyName(k)).Some? ==> r.Ok? && r.value.Defined?
  {
    match v
    case JNull => Err(NullReadMessage(k))
    case JObject(ms) =>
      Ok(match LastMember(ms, KeyName(k)) case Some(x) => Defined(x) case None => Undefined)
    case _ => Ok(Undefined)
  }

  predicate StartsWith(s: string, prefix: string) {
    |prefix| <= |s| && s[..|prefix|] == prefix
  }

  predicate EndsWith(s: string, suffix: string) {
    |suffix| <= |s| && s[|s| - |suffix|..] == suffix
  }

  /** `sub` occurs in `s` starting at index `i`. */
  predicate OccursAt(s: string, sub: string, i: int) {
    0 <= i && i + |sub| <= |s| && s[i..i + |sub|] == sub
  }

  /** `s.includes(sub)`. */
  function Includes(s: string, sub: string): (r: bool)
    ensures r <==> exists i :: OccursAt(s, sub, i)
  {
    if StartsWith(s, sub) then
      assert OccursAt(s, sub, 0);
      true
    else if s == [] then
      assert forall i :: !OccursAt(s, sub, i);
      false
    else
      var r := Includes(s[1..], sub);
      forall i ensures OccursAt(s[1..], sub, i) <==> OccursAt(s, sub, i + 1) {
        if 0 <= i && i + |sub| <= |s| - 1 {
          assert s[1..][i..i + |sub|] == s[i + 1..i + 1 + |sub|];
        }
      }
      assert !OccursAt(s, sub, 0);
      assert forall i :: OccursAt(s, sub, i) ==> i == 0 || OccursAt(s[1..], sub, i - 1);
      r
  }

  /** ECMAScript WhiteSpace and LineTerminator code points, the set trim() removes. */
  predicate IsJsWhitespace(c: char) {
    c == '\t' || c == '\n' || c == '\U{B}' || c == '\U{C}' || c == '\r' || c == ' ' ||
    c == '\U{A0}' || c == '\U{1680}' || ('\U{2000}' <= c <= '\U{200A}') ||
    c == '\U{2028}' || c == '\U{2029}' || c == '\U{202F}' || c == '\U{205F}' ||
    c == '\U{3000}' || c == '\U{FEFF}'
  }

  function TrimStart(s: string): (r: string)
    ensures |r| <= |s| && r == s[|s| - |r|..]
    ensures forall i :: 0 <= i < |s| - |r| ==> IsJsWhitespace(s[i])
    ensures r == [] || !IsJsWhitespace(r[0])
  {
    if s != [] && IsJsWhitespace(s[0]) then
      var r := TrimStart(s[1..]);
      assert s[1..][|s| - 1 - |r|..] == s[|s| - |r|..];
      assert forall i :: 1 <= i < |s| - |r| ==> s[i] == s[1..][i - 1];
      r
    else s
  }

  function TrimEnd(s: string): (r: string)
    ensures |r| <= |s| && r == s[..|r|]
    ensures forall i :: |r| <= i < |s| ==> IsJsWhitespace(s[i])
    ensures r == [] || !IsJsWhitespace(r[|r| - 1])
  {
    if s != [] && IsJsWhitespace(s[|s| - 1]) then TrimEnd(s[..|s| - 1]) else s
  }

  /** `r` is `s[i..]` cut to length |r|, with only whitespace around it. */
  predicate IsTrimSlice(s: string, r: string, i: int) {
    0 <= i && i + |r| <= |s| && r == s[i..i + |r|] &&
    (forall j :: 0 <= j < i ==> IsJsWhitespace(s[j])) &&
    (forall j :: i + |r| <= j < |s| ==> IsJsWhitespace(s[j]))
  }

  /** `s.trim()`: the slice of `s` between the leading and trailing whitespace. */
  function Trim(s: string): (r: string)
    ensures exists i :: IsTrimSlice(s, r, i)
    ensures r == [] || (!IsJsWhitespace(r[0]) && !IsJsWhitespace(r[|r| - 1]))
  {
    var a := TrimStart(s);
    var r := TrimEnd(a);
    TrimIsSlice(s, a, r);
    r
  }

  /** Dropping a whitespace prefix and then a whitespace suffix leaves a trim slice. */
  lemma TrimIsSlice(s: string, a: string, r: string)
    requires |a| <= |s| && a == s[|s| - |a|..] && forall i :: 0 <= i < |s| - |a| ==> IsJsWhitespace(s[i])
    requires |r| <= |a| && r == a[..|r|] && forall i :: |r| <= i < |a| ==> IsJsWhitespace(a[i])
    requires a == [] || !IsJsWhitespace(a[0])
    requires r == [] || !IsJsWhitespace(r[|r| - 1])
    ensures IsTrimSlice(s, r, |s| - |a|)
    ensures r == [] || (!IsJsWhitespace(r[0]) && !IsJsWhitespace(r[|r| - 1]))
  {
    assert r != [] ==> r[0] == a[0];
    var k := |s| - |a|;
    forall j | 0 <= j < |r| ensures r[j] == s[k + j] {
      assert r[j] == a[j];
    }
    assert r == s[k..k + |r|];
    forall j | k + |r| <= j < |s| ensures IsJsWhitespace(s[j]) {
      assert s[j] == a[j - k];
    }
  }

  /** String(n) for a number: integers print in decimal with a sign. A fractional part
      is not modelled (binary floating-point formatting); only the integer part is kept. */
  function NumberText(n: real): string {
    if n < 0.0 then "-" + Decimal.DecimalString((-n).Floor as nat)
    else Decimal.DecimalString(n.Floor as nat)
  }

  /** String(v), as `new Error(v)` applies it to a non-string message. */
  function JsToString(v: Json): (r: string)
    ensures v.JString? ==> r == v.s
    decreases v, 1
  {
    match v
    case JNull => "null"
    case JBool(b) => if b then "true" else "false"
    case JNumber(n) => NumberText(n)
    case JString(s) => s
    case JArray(items) => JoinItems(v, items)
    case JObject(_) => "[object Object]"
  }

  /** Array.prototype.join(","): null elements contribute the empty string. */
  function JoinItems(parent: Json, items: seq<Json>): string
    requires forall x :: x in items ==> x < parent
    decreases parent, 0, |items|
  {
    if items == [] then ""
    else
      assert items[0] in items;
      assert forall x :: x in items[1..] ==> x in items;
      var head := if items[0].JNull? then "" else JsToString(items[0]);
      if |items| == 1 then head else head + "," + JoinItems(parent, items[1..])
  }

  /** The value kept for `key` once one more member is appended. */
  lemma LastMemberSnoc(members: seq<(string, Json)>, m: (string, Json), key: string)
    ensures LastMember(members + [m], key) == if m.0 == key then Some(m.1) else LastMember(members, key)
  {
    var all := members + [m];
    assert all[|all| - 1] == m;
    assert all[..|all| - 1] == members;
  }

  /** Members appended after the last `key` member do not change the value kept for it
      unless they are named `key` themselves. */
  lemma {:induction false} LastMemberAppend(members: seq<(string, Json)>, extra: seq<(string, Json)>, key: string)
    requires forall i :: 0 <= i < |extra| ==> extra[i].0 != key
    ensures LastMember(members + extra, key) == LastMember(members, key)
  {
    if extra == [] {
      assert members + extra == members;
    } else {
      var init, m := extra[..|extra| - 1], extra[|extra| - 1];
      assert extra == init + [m];
      assert members + extra == (members + init) + [m];
      LastMemberSnoc(members + init, m, key);
      LastMemberAppend(members, init, key);
    }
  }

  /** Members inserted anywhere before the last stretch `b` do not change the value kept
      for `key` unless they are named `key` themselves. */
  lemma {:induction false} LastMemberSkip(a: seq<(string, Json)>, extra: seq<(string, Json)>,
                                          b: seq<(string, Json)>, key: string)
    requires forall i :: 0 <= i < |extra| ==> extra[i].0 != key
    ensures LastMember(a + extra + b, key) == LastMember(a + b, key)
  {
    if b == [] {
      assert a + extra + b == a + extra;
      assert a + b == a;
      LastMemberAppend(a, extra, key);
    } else {
      var init, m := b[..|b| - 1], b[|b| - 1];
      assert b == init + [m];
      assert a + extra + b == (a + extra + init) + [m];
      assert a + b == (a + init) + [m];
      LastMemberSnoc(a + extra + init, m, key);
      LastMemberSnoc(a + init, m, key);
      LastMemberSkip(a, extra, init, key);
    }
  }

  lemma StartsWithTrans(a: string, b: string, c: string)
    requires StartsWith(a, b) && StartsWith(b, c)
    ensures StartsWith(a, c)
  {
    assert a[..|c|] == a[..|b|][..|c|];
  }

  /** Leading whitespace is removed before the rest; a character appended after a
      non-blank remainder stays at its end. */
  lemma {:induction false} TrimStartAppend(s: string, c: char)
    ensures TrimStart(s + [c]) == if TrimStart(s) == [] then TrimStart([c]) else TrimStart(s) + [c]
  {
    if s == [] {
      assert s + [c] == [c];
    } else if IsJsWhitespace(s[0]) {
      assert (s + [c])[1..] == s[1..] + [c];
      TrimStartAppend(s[1..], c);
    } else {
      assert (s + [c])[0] == s[0];
    }
  }

  /** trim() ignores a whitespace character at the end, such as the newline a line-based
      writer appends. */
  lemma TrimIgnoresTrailingWhitespace(s: string, c: char)
    requires IsJsWhitespace(c)
    ensures Trim(s + [c]) == Trim(s)
  {
    TrimStartAppend(s, c);
    var a := TrimStart(s);
    if a == [] {
      assert TrimStart([c]) == TrimStart([c][1..]);
      assert [c][1..] == [];
    } else {
      assert (a + [c])[..|a + [c]| - 1] == a;
    }
  }
}
