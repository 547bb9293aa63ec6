/**
 * The JSON values that travel between the console, the route and the payment API,
 * the JavaScript operations the source applies to them (truthiness, property reads,
 * `String(…)` coercion), and `JSON.stringify` with and without indentation.
 */
module Json {
  import opened Wrappers

  /**
   * A parsed JSON value. Numbers are integers. An object is the list of its members;
   * it stands for a JavaScript object when the keys are distinct and listed in
   * property order (integer-like keys first), and any other list is written out by
   * the serializer as it stands.
   */
  datatype Json =
    | Null
    | Bool(b: bool)
    | Num(n: int)
    | Str(s: string)
    | Arr(items: seq<Json>)
    | Obj(members: seq<Member>)

  datatype Member = Member(key: string, value: Json)

  /** JavaScript truthiness of a parsed value. */
  predicate Truthy(j: Json) {
    match j
    case Null => false
    case Bool(b) => b
    case Num(n) => n != 0
    case Str(s) => s != ""
    case Arr(_) => true
    case Obj(_) => true
  }

  /** Truthiness of a value that may be `undefined` (None). */
  predicate Present(v: Option<Json>) {
    v.Some? && Truthy(v.value)
  }

  /** Truthiness of an optional string field (`undefined` and "" are falsy). */
  predicate Given(v: Option<string>) {
    v.Some? && v.value != ""
  }

  /**
   * The member value stored under `key`: the last member with that key, since a
   * later duplicate overwrites an earlier one when JSON text is parsed.
   */
  function Lookup(ms: seq<Member>, key: string): (r: Option<Json>)
  {
    if ms == [] then None
    else if ms[|ms| - 1].key == key then Some(ms[|ms| - 1].value)
    else Lookup(ms[..|ms| - 1], key)
  }

  /** Lookup finds nothing exactly when no member has the key, and otherwise the last such member. */
  lemma {:induction false} LookupIsLastMember(ms: seq<Member>, key: string)
    ensures Lookup(ms, key).None? <==> forall i :: 0 <= i < |ms| ==> ms[i].key != key
    ensures Lookup(ms, key).Some? ==>
              exists i :: 0 <= i < |ms| && ms[i] == Member(key, Lookup(ms, key).value) &&
                          forall k :: i < k < |ms| ==> ms[k].key != key
  {
    if ms != [] {
      var n := |ms| - 1;
      LookupIsLastMember(ms[..n], key);
      if ms[n].key != key {
        if Lookup(ms, key).Some? {
          var i :| 0 <= i < n && ms[..n][i] == Member(key, Lookup(ms, key).value) &&
                   forall k :: i < k < n ==> ms[..n][k].key != key;
          assert ms[i] == ms[..n][i];
          forall k | i < k < |ms| ensures ms[k].key != key {
            if k < n { assert ms[k] == ms[..n][k]; }
          }
        } else {
          forall i | 0 <= i < |ms| ensures ms[i].key != key {
            if i < n { assert ms[i] == ms[..n][i]; }
          }
        }
      } else {
        assert ms[n] == Member(key, Lookup(ms, key).value);
      }
    }
  }

  /**
   * The property read `j.key`: an object yields its member, a string, number,
   * boolean or array yields `undefined`. Reading a key of null throws in the source;
   * here it yields `undefined`, and every caller rules out null before the read.
   */
  function Get(j: Json, key: string): Option<Json> {
    if j.Obj? then Lookup(j.members, key) else None
  }

  /**
   * A property read gives undefined exactly when the value is not an object or no
   * member has the key, and otherwise the value of the last member with that key.
   */
  lemma GetIsLastMember(j: Json, key: string)
    ensures Get(j, key).None? <==> !j.Obj? || forall i :: 0 <= i < |j.members| ==> j.members[i].key != key
    ensures Get(j, key).Some? ==>
              exists i :: 0 <= i < |j.members| && j.members[i] == Member(key, Get(j, key).value) &&
                          forall k :: i < k < |j.members| ==> j.members[k].key != key
  {
    if j.Obj? {
      LookupIsLastMember(j.members, key);
    }
  }

  /* ---------- decimal text of integers ---------- */

  function DigitChar(d: nat): (c: char)
    requires d < 10
    ensures '0' <= c <= '9'
  {
    "0123456789"[d]
  }

  function NatToString(n: nat): (s: string)
    ensures |s| > 0
    ensures forall i :: 0 <= i < |s| ==> '0' <= s[i] <= '9'
    decreases n
  {
    if n < 10 then [DigitChar(n)] else NatToString(n / 10) + [DigitChar(n % 10)]
  }

  /** `String(n)` / `${n}` for an integer. */
  function IntToString(n: int): (s: string)
    ensures |s| > 0
  {
    if n < 0 then "-" + NatToString(-n) else NatToString(n)
  }

  /* ---------- JSON.stringify ---------- */

  function HexDigit(d: nat): (c: char)
    requires d < 16
  {
    "0123456789abcdef"[d]
  }

  /** The escape JSON.stringify writes for one character of a string. */
  function EscapeChar(c: char): (r: string)
    ensures |r| > 0
    ensures '\n' !in r
  {
    if c == '"' then "\\\""
    else if c == '\\' then "\\\\"
    else if c as int == 8 then "\\b"
    else if c as int == 12 then "\\f"
    else if c == '\n' then "\\n"
    else if c == '\r' then "\\r"
    else if c == '\t' then "\\t"
    else if (c as int) < 0x20 then "\\u00" + [HexDigit((c as int) / 16), HexDigit((c as int) % 16)]
    else [c]
  }

  function EscapeString(s: string): (r: string)
    ensures '\n' !in r
  {
    if s == [] then "" else EscapeChar(s[0]) + EscapeString(s[1..])
  }

  /** A JSON string literal. */
  function Quote(s: string): (r: string)
    ensures |r| >= 2 && r[0] == '"' && r[|r| - 1] == '"'
    ensures '\n' !in r
  {
    "\"" + EscapeString(s) + "\""
  }

  /**
   * JSON.stringify(j, null, |gap|) at nesting `indent` (the serialisation of
   * ECMA-262's SerializeJSONProperty): with an empty gap the text is compact;
   * otherwise every element of a non-empty array or object starts a new line
   * indented by one more gap, and members read `"key": value`.
   */
  function Serialize(j: Json, gap: string, indent: string): string
    decreases j
  {
    match j
    case Null => "null"
    case Bool(b) => if b then "true" else "false"
    case Num(n) => IntToString(n)
    case Str(s) => Quote(s)
    case Arr(items) =>
      if items == [] then "[]"
      else if gap == "" then "[" + SerializeItems(items, gap, indent, ",") + "]"
      else
        var inner := indent + gap;
        "[\n" + inner + SerializeItems(items, gap, inner, ",\n" + inner) + "\n" + indent + "]"
    case Obj(ms) =>
      if ms == [] then "{}"
      else if gap == "" then "{" + SerializeMembers(ms, gap, indent, ",") + "}"
      else
        var inner := indent + gap;
        "{\n" + inner + SerializeMembers(ms, gap, inner, ",\n" + inner) + "\n" + indent + "}"
  }

  function SerializeItems(items: seq<Json>, gap: string, indent: string, sep: string): string
    decreases items
  {
    if items == [] then ""
    else if |items| == 1 then Serialize(items[0], gap, indent)
    else Serialize(items[0], gap, indent) + sep + SerializeItems(items[1..], gap, indent, sep)
  }

  function SerializeMembers(ms: seq<Member>, gap: string, indent: string, sep: string): string
    decreases ms
  {
    if ms == [] then ""
    else
      var m := Quote(ms[0].key) + (if gap == "" then ":" else ": ") + Serialize(ms[0].value, gap, indent);
      if |ms| == 1 then m else m + sep + SerializeMembers(ms[1..], gap, indent, sep)
  }

  /** JSON.stringify(j): compact text. */
  function Stringify(j: Json): string {
    Serialize(j, "", "")
  }

  /** JSON.stringify(j, null, space) for a space count of at most 10. */
  function StringifyIndented(j: Json, space: nat): string
    requires space <= 10
  {
    Serialize(j, seq(space, _ => ' '), "")
  }

  /** Serialising any value gives non-empty text, so a stringified body is always truthy. */
  lemma SerializeNonEmpty(j: Json, gap: string, indent: string)
    ensures |Serialize(j, gap, indent)| > 0
  {
  }

  /**
   * Compact serialisation never contains a line break: string contents are escaped
   * and no separator holds one. The cURL `-d` argument therefore stays on one line.
   */
  lemma {:induction false} CompactHasNoNewline(j: Json)
    ensures '\n' !in Serialize(j, "", "")
    decreases j
  {
    match j
    case Arr(items) => if items != [] { ItemsHaveNoNewline(items); }
    case Obj(ms) => if ms != [] { MembersHaveNoNewline(ms); }
    case Num(n) => assert forall i :: 0 <= i < |IntToString(n)| ==> IntToString(n)[i] != '\n';
    case _ =>
  }

  lemma {:induction false} ItemsHaveNoNewline(items: seq<Json>)
    ensures '\n' !in SerializeItems(items, "", "", ",")
    decreases items
  {
    if items != [] {
      CompactHasNoNewline(items[0]);
      if |items| > 1 { ItemsHaveNoNewline(items[1..]); }
    }
  }

  lemma {:induction false} MembersHaveNoNewline(ms: seq<Member>)
    ensures '\n' !in SerializeMembers(ms, "", "", ",")
    decreases ms
  {
    if ms != [] {
      CompactHasNoNewline(ms[0].value);
      if |ms| > 1 { MembersHaveNoNewline(ms[1..]); }
    }
  }

  /* ---------- String(…) coercion ---------- */

  /**
   * `String(j)` as a template literal `${j}` computes it: strings verbatim, arrays
   * joined with "," (null elements become empty), objects "[object Object]".
   */
  function ToJsString(j: Json): string
    decreases j
  {
    match j
    case Null => "null"
    case Bool(b) => if b then "true" else "false"
    case Num(n) => IntToString(n)
    case Str(s) => s
    case Arr(items) => JoinElements(items)
    case Obj(_) => "[object Object]"
  }

  function JoinElements(items: seq<Json>): string
    decreases items
  {
    if items == [] then ""
    else
      var first := if items[0].Null? then "" else ToJsString(items[0]);
      if |items| == 1 then first else first + "," + JoinElements(items[1..])
  }

  /** `${v}` where v may be undefined. */
  function Interpolate(v: Option<Json>): string {
    if v.None? then "undefined" else ToJsString(v.value)
  }
}
