/** JavaScript values as the relay and the browser script see them after
    `JSON.parse`, with the few pieces of JavaScript semantics the decision
    logic depends on: truthiness, property access, `String.prototype.trim`
    and the string conversion that `+` applies to a non-string operand. */
module JsValues {

  datatype Option<+T> = None | Some(value: T)

  /** A parsed JSON value. Numbers are integers only. An object is the
      sequence of its members in for-in enumeration order; as a JavaScript
      object its keys are distinct. */
  datatype Json =
    | Null
    | Bool(b: bool)
    | Num(n: int)
    | Str(s: string)
    | Arr(items: seq<Json>)
    | Obj(members: seq<(string, Json)>)

  /** JavaScript's ToBoolean: `null`, `false`, `0` and `""` are falsy,
      every array and object is truthy. */
  predicate Truthy(j: Json) {
    match j
    case Null => false
    case Bool(b) => b
    case Num(n) => n != 0
    case Str(s) => s != ""
    case Arr(_) => true
    case Obj(_) => true
  }

  /** Truthiness of a property read, where `None` stands for `undefined`. */
  predicate Present(v: Option<Json>) {
    v.Some? && Truthy(v.value)
  }

  /** `typeof j === 'object'` together with `j` being truthy: objects and arrays. */
  predicate IsObject(j: Json) {
    j.Obj? || j.Arr?
  }

  /** The value of the first member named `key`, or `None` when there is none. */
  function Lookup(members: seq<(string, Json)>, key: string): (r: Option<Json>)
    ensures r.None? <==> forall i :: 0 <= i < |members| ==> members[i].0 != key
    ensures r.Some? ==> exists i :: 0 <= i < |members| && members[i] == (key, r.value)
  {
    if |members| == 0 then None
    else if members[0].0 == key then Some(members[0].1)
    else Lookup(members[1..], key)
  }

  /** Property access `j[key]` for the named keys this core reads
      (`response`, `content`, `message`, `success`, `error`, `sessionId`,
      `chatInput`, `files`): only an object has them, as own members;
      arrays, strings, numbers and booleans give `undefined`. */
  function Get(j: Json, key: string): (r: Option<Json>)
    ensures r.Some? ==> j.Obj? && (key, r.value) in j.members
    ensures j.Obj? && r.None? ==> forall i :: 0 <= i < |j.members| ==> j.members[i].0 != key
  {
    if j.Obj? then Lookup(j.members, key) else None
  }

  /** WhiteSpace and LineTerminator code points of ECMAScript, the set
      `String.prototype.trim` removes (the Zs category of Unicode included). */
  predicate IsJsSpace(c: char) {
    c == '\t' || c == '\n' || c == '\U{B}' || c == '\U{C}' || c == '\r'
    || c == ' ' || c == '\U{A0}' || c == '\U{1680}'
    || ('\U{2000}' <= c <= '\U{200A}')
    || c == '\U{2028}' || c == '\U{2029}' || c == '\U{202F}' || c == '\U{205F}'
    || c == '\U{3000}' || c == '\U{FEFF}'
  }

  /** Removes leading white space. */
  function TrimStart(s: string): string {
    if |s| > 0 && IsJsSpace(s[0]) then TrimStart(s[1..]) else s
  }

  /** Removes trailing white space. */
  function TrimEnd(s: string): string {
    if |s| > 0 && IsJsSpace(s[|s| - 1]) then TrimEnd(s[..|s| - 1]) else s
  }

  /** `s.trim()`. */
  function Trim(s: string): string {
    TrimEnd(TrimStart(s))
  }

  /** `TrimStart` drops exactly the leading run of white space: the result is
      a suffix of `s`, everything before it is white space, and it does not
      itself start with white space. */
  lemma {:induction false} TrimStartSpec(s: string)
    ensures |TrimStart(s)| <= |s| && TrimStart(s) == s[|s| - |TrimStart(s)|..]
    ensures forall i :: 0 <= i < |s| - |TrimStart(s)| ==> IsJsSpace(s[i])
    ensures TrimStart(s) != "" ==> !IsJsSpace(TrimStart(s)[0])
  {
    if |s| > 0 && IsJsSpace(s[0]) {
      TrimStartSpec(s[1..]);
    }
  }

  /** `TrimEnd` drops exactly the trailing run of white space. */
  lemma {:induction false} TrimEndSpec(s: string)
    ensures |TrimEnd(s)| <= |s| && TrimEnd(s) == s[..|TrimEnd(s)|]
    ensures forall i :: |TrimEnd(s)| <= i < |s| ==> IsJsSpace(s[i])
    ensures TrimEnd(s) != "" ==> !IsJsSpace(TrimEnd(s)[|TrimEnd(s)| - 1])
  {
    if |s| > 0 && IsJsSpace(s[|s| - 1]) {
      TrimEndSpec(s[..|s| - 1]);
    }
  }

  /** `s.trim()` is empty exactly when every character of `s` is white space,
      and otherwise it starts and ends with a character that is not. */
  lemma TrimEmptyIff(s: string)
    ensures Trim(s) == "" <==> forall i :: 0 <= i < |s| ==> IsJsSpace(s[i])
    ensures Trim(s) != "" ==> !IsJsSpace(Trim(s)[0]) && !IsJsSpace(Trim(s)[|Trim(s)| - 1])
  {
    var t := TrimStart(s);
    TrimStartSpec(s);
    TrimEndSpec(t);
    if t != "" {
      assert !IsJsSpace(t[0]);
    }
    if Trim(s) != "" {
      var r := Trim(s);
      assert r[0] == t[0];
    }
  }

  function DigitChar(d: nat): char
    requires d < 10
  {
    "0123456789"[d]
  }

  predicate IsDigits(s: string) {
    forall i :: 0 <= i < |s| ==> '0' <= s[i] <= '9'
  }

  /** The number a string of decimal digits denotes. */
  function DecValue(s: string): nat
    requires IsDigits(s)
  {
    if |s| == 0 then 0
    else DecValue(s[..|s| - 1]) * 10 + (s[|s| - 1] as int - '0' as int)
  }

  /** Decimal notation of a natural number, without leading zeros. */
  function NatToString(n: nat): (r: string)
    ensures |r| > 0 && IsDigits(r)
    ensures |r| > 1 ==> r[0] != '0'
    ensures DecValue(r) == n
  {
    if n < 10 then
      assert [DigitChar(n)][..0] == [];
      [DigitChar(n)]
    else
      var r := NatToString(n / 10) + [DigitChar(n % 10)];
      assert r[..|r| - 1] == NatToString(n / 10);
      r
  }

  /** `String(n)` for an integer `n`; JavaScript agrees for magnitudes below 2^53. */
  function IntToString(n: int): (r: string)
    ensures |r| > 0
  {
    if n < 0 then "-" + NatToString(-n) else NatToString(n)
  }

  /** JavaScript's ToString of a JSON value, as `'...' + v` and
      `element.textContent = v` apply it: an array becomes its elements
      joined by commas (`null` elements as empty text), an object
      `[object Object]`. */
  function ToJsString(j: Json): string
  {
    match j
    case Null => "null"
    case Bool(b) => if b then "true" else "false"
    case Num(n) => IntToString(n)
    case Str(s) => s
    case Arr(items) =>
      JoinWithCommas(seq(|items|, i requires 0 <= i < |items| =>
        if items[i].Null? then "" else ToJsString(items[i])))
    case Obj(_) => "[object Object]"
  }

  /** `Array.prototype.join(',')` over the elements' texts. */
  function JoinWithCommas(parts: seq<string>): string {
    if |parts| == 0 then ""
    else if |parts| == 1 then parts[0]
    else parts[0] + "," + JoinWithCommas(parts[1..])
  }

  /** Joining one more part appends a comma and that part. */
  lemma {:induction false} JoinWithCommasAppend(parts: seq<string>, last: string)
    requires |parts| > 0
    ensures JoinWithCommas(parts + [last]) == JoinWithCommas(parts) + "," + last
  {
    var whole := parts + [last];
    assert whole[0] == parts[0];
    assert whole[1..] == parts[1..] + [last];
    if |parts| > 1 {
      JoinWithCommasAppend(parts[1..], last);
      var rest := JoinWithCommas(parts[1..]);
      assert parts[0] + "," + (rest + "," + last) == (parts[0] + "," + rest) + "," + last;
    }
  }

  /** `String([x])` is the text of `x`, empty for `null`. */
  lemma ArrayTextSingle(x: Json)
    ensures ToJsString(Arr([x])) == if x.Null? then "" else ToJsString(x)
  {
    var parts := seq(1, i requires 0 <= i < 1 => if [x][i].Null? then "" else ToJsString([x][i]));
    assert parts == [if x.Null? then "" else ToJsString(x)];
  }

  /** `String(items.concat([x]))` is `String(items) + ',' + String(x)`, with
      `null` as empty text, for a non-empty array. */
  lemma ArrayTextAppend(items: seq<Json>, x: Json)
    requires |items| > 0
    ensures ToJsString(Arr(items + [x]))
      == ToJsString(Arr(items)) + "," + (if x.Null? then "" else ToJsString(x))
  {
    var whole := items + [x];
    var parts := seq(|items|, i requires 0 <= i < |items| =>
      if items[i].Null? then "" else ToJsString(items[i]));
    var wholeParts := seq(|whole|, i requires 0 <= i < |whole| =>
      if whole[i].Null? then "" else ToJsString(whole[i]));
    var last := if x.Null? then "" else ToJsString(x);
    assert wholeParts == parts + [last];
    JoinWithCommasAppend(parts, last);
  }
}
