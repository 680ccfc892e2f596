/**
 * The slice of JavaScript value semantics that the router relies on:
 * values as `JSON.parse` produces them (plus `undefined`), truthiness and
 * the `||` operator, property reads, `typeof x === 'object'`,
 * `String.prototype.includes` and `JSON.stringify`.
 */
module Js {

  datatype Option<+T> = None | Some(value: T)

  /** A JavaScript value. Numbers are modelled as integers; an object is its
      own enumerable properties in enumeration order, with distinct keys. */
  datatype Value =
    | Undefined
    | Null
    | Bool(b: bool)
    | Num(n: int)
    | Str(s: string)
    | Arr(items: seq<Value>)
    | Obj(fields: seq<(string, Value)>)

  /** ECMAScript ToBoolean: `undefined`, `null`, `false`, `0` and `""` are falsy. */
  predicate Truthy(v: Value) {
    match v
    case Undefined => false
    case Null => false
    case Bool(b) => b
    case Num(n) => n != 0
    case Str(s) => s != []
    case Arr(_) => true
    case Obj(_) => true
  }

  /** `a || b`: the left operand when it is truthy, the right one otherwise. */
  function Or(a: Value, b: Value): (r: Value)
    ensures Truthy(a) ==> r == a
    ensures !Truthy(a) ==> r == b
    ensures Truthy(r) <==> Truthy(a) || Truthy(b)
  {
    if Truthy(a) then a else b
  }

  /** Reading a property of `null` or `undefined` throws a TypeError. */
  predicate Nullish(v: Value) {
    v.Undefined? || v.Null?
  }

  /** `typeof v === 'object' && v !== null`: arrays and plain objects. */
  predicate IsNonNullObject(v: Value) {
    v.Arr? || v.Obj?
  }

  /** The value of the first field named `key`, or `undefined`. */
  function Lookup(fields: seq<(string, Value)>, key: string): (r: Value)
    ensures !r.Undefined? ==> exists i :: 0 <= i < |fields| && fields[i] == (key, r)
    ensures (forall i :: 0 <= i < |fields| ==> fields[i].0 != key) ==> r.Undefined?
    ensures forall i :: 0 <= i < |fields| && fields[i].0 == key && (forall j :: 0 <= j < i ==> fields[j].0 != key) ==>
              r == fields[i].1
  {
    if fields == [] then Undefined
    else if fields[0].0 == key then fields[0].1
    else Lookup(fields[1..], key)
  }

  /** The property read `v[key]`; it throws on `null` and `undefined`, which
      is why those are excluded here and handled by the callers. */
  function Get(v: Value, key: string): (r: Value)
    requires !Nullish(v)
    ensures v.Obj? ==> r.Undefined? || exists i :: 0 <= i < |v.fields| && v.fields[i] == (key, r)
    ensures v.Obj? && (forall i :: 0 <= i < |v.fields| ==> v.fields[i].0 != key) ==> r.Undefined?
    ensures !v.Obj? && key != "length" ==> r.Undefined?
  {
    match v
    case Obj(fields) => Lookup(fields, key)
    case Arr(items) => if key == "length" then Num(|items|) else Undefined
    case Str(s) => if key == "length" then Num(|s|) else Undefined
    case _ => Undefined
  }

  // ---------------------------------------------------------------------
  // String.prototype.includes

  /** `s.includes(sub)`, computed by trying every start position in turn. */
  function Includes(s: string, sub: string): bool
    decreases |s|
  {
    if |sub| <= |s| && s[..|sub|] == sub then true
    else if s == [] then false
    else Includes(s[1..], sub)
  }

  /** `sub` occurs in `s` starting at position `i`. */
  predicate OccursAt(s: string, sub: string, i: nat) {
    i + |sub| <= |s| && s[i..i + |sub|] == sub
  }

  /** `Includes` holds exactly when `sub` occurs in `s` at some position. */
  lemma {:induction false} IncludesIff(s: string, sub: string)
    ensures Includes(s, sub) <==> exists i: nat :: OccursAt(s, sub, i)
    decreases |s|
  {
    if |sub| <= |s| && s[..|sub|] == sub {
      assert OccursAt(s, sub, 0);
    } else if s == [] {
    } else {
      IncludesIff(s[1..], sub);
      if exists i: nat :: OccursAt(s, sub, i) {
        var i: nat :| OccursAt(s, sub, i);
        assert i != 0;
        assert s[1..][i - 1..i - 1 + |sub|] == s[i..i + |sub|];
        assert OccursAt(s[1..], sub, i - 1);
      }
      if Includes(s[1..], sub) {
        var j: nat :| OccursAt(s[1..], sub, j);
        assert s[j + 1..j + 1 + |sub|] == s[1..][j..j + |sub|];
        assert OccursAt(s, sub, j + 1);
      }
    }
  }

  /** A string includes anything it ends with. */
  lemma IncludesSuffix(prefix: string, tail: string)
    ensures Includes(prefix + tail, tail)
  {
    var s := prefix + tail;
    assert OccursAt(s, tail, |prefix|);
    IncludesIff(s, tail);
  }

  // ---------------------------------------------------------------------
  // JSON.stringify

  /** Lower-case hexadecimal digit, as used in `\u00XX` escapes. */
  function HexDigit(d: nat): char
    requires d < 16
  {
    if d < 10 then ('0' as int + d) as char else ('a' as int + d - 10) as char
  }

  function HexValue(c: char): Option<nat> {
    if '0' <= c <= '9' then Some(c as int - '0' as int)
    else if 'a' <= c <= 'f' then Some(c as int - 'a' as int + 10)
    else if 'A' <= c <= 'F' then Some(c as int - 'A' as int + 10)
    else None
  }

  /** How `JSON.stringify` writes one character inside a string literal. */
  function EscapeChar(c: char): string {
    if c == '"' then "\\\""
    else if c == '\\' then "\\\\"
    else if c as int == 8 then "\\b"
    else if c as int == 12 then "\\f"
    else if c == '\n' then "\\n"
    else if c == '\r' then "\\r"
    else if c == '\t' then "\\t"
    else if c as int < 0x20 then ['\\', 'u', '0', '0', HexDigit(c as int / 16), HexDigit(c as int % 16)]
    else [c]
  }

  function Escape(s: string): string {
    if s == [] then [] else EscapeChar(s[0]) + Escape(s[1..])
  }

  /** The JSON text of a string: quoted and escaped. */
  function Quote(s: string): string {
    "\"" + Escape(s) + "\""
  }

  /** Decimal text of an integer, as `JSON.stringify` writes a whole number. */
  function NaturalText(n: nat): string
    decreases n
  {
    if n < 10 then [HexDigit(n)] else NaturalText(n / 10) + [HexDigit(n % 10)]
  }

  function NumberText(n: int): string {
    if n < 0 then "-" + NaturalText(-n) else NaturalText(n)
  }

  /** `JSON.stringify(v)` for a value that has a JSON text (every value but
      `undefined`). Inside an array `undefined` is written `null`; an object
      property holding `undefined` is skipped. */
  function Stringify(v: Value): (r: string)
    requires !v.Undefined?
    ensures v.Null? ==> r == "null"
    ensures v.Bool? ==> r == (if v.b then "true" else "false")
    ensures v.Str? ==> ParseQuoted(r) == Some(v.s)
    ensures v.Arr? ==> |r| >= 2 && r[0] == '[' && r[|r| - 1] == ']'
    ensures v.Obj? ==> |r| >= 2 && r[0] == '{' && r[|r| - 1] == '}'
    decreases v, 1
  {
    match v
    case Null => "null"
    case Bool(b) => if b then "true" else "false"
    case Num(n) => NumberText(n)
    case Str(s) => QuoteRoundTrip(s); Quote(s)
    case Arr(items) => "[" + ArrayText(v, 0) + "]"
    case Obj(fields) => "{" + ObjectText(v, 0) + "}"
  }

  /** The comma-separated elements `v.items[from..]` of an array. */
  function ArrayText(v: Value, from: nat): string
    requires v.Arr? && from <= |v.items|
    decreases v, 0, |v.items| - from
  {
    if from == |v.items| then ""
    else
      var item := v.items[from];
      var text := if item.Undefined? then "null" else Stringify(item);
      if from + 1 == |v.items| then text else text + "," + ArrayText(v, from + 1)
  }

  /** The comma-separated `"key":value` members for `v.fields[from..]`. */
  function ObjectText(v: Value, from: nat): string
    requires v.Obj? && from <= |v.fields|
    decreases v, 0, |v.fields| - from
  {
    if from == |v.fields| then ""
    else
      var (key, item) := v.fields[from];
      var rest := ObjectText(v, from + 1);
      if item.Undefined? then rest
      else
        var member := Quote(key) + ":" + Stringify(item);
        if rest == "" then member else member + "," + rest
  }

  // ---------------------------------------------------------------------
  // Reading a JSON string literal back: the partner of `Quote`

  function Prepend(c: char, o: Option<string>): Option<string> {
    match o
    case Some(s) => Some([c] + s)
    case None => None
  }

  /** Decodes one escape sequence at the head of `t`: the character and the
      number of characters it takes. Surrogate code units are not modelled. */
  function EscapeSequence(t: string): (r: Option<(char, nat)>)
    requires |t| >= 1 && t[0] == '\\'
    ensures r.Some? ==> 2 <= r.value.1 <= |t|
  {
    if |t| < 2 then None
    else if t[1] == '"' then Some(('"', 2))
    else if t[1] == '\\' then Some(('\\', 2))
    else if t[1] == '/' then Some(('/', 2))
    else if t[1] == 'b' then Some((8 as char, 2))
    else if t[1] == 'f' then Some((12 as char, 2))
    else if t[1] == 'n' then Some(('\n', 2))
    else if t[1] == 'r' then Some(('\r', 2))
    else if t[1] == 't' then Some(('\t', 2))
    else if t[1] == 'u' && |t| >= 6 then
      match (HexValue(t[2]), HexValue(t[3]), HexValue(t[4]), HexValue(t[5]))
      case (Some(a), Some(b), Some(c), Some(d)) =>
        var code := ((a * 16 + b) * 16 + c) * 16 + d;
        if 0xD800 <= code < 0xE000 then None else Some((code as char, 6))
      case _ => None
    else None
  }

  /** The characters denoted by the inside of a JSON string literal, or
      `None` when it holds a bare quote, a control character or a bad escape. */
  function Unescape(t: string): Option<string>
    decreases |t|
  {
    if t == [] then Some([])
    else if t[0] == '\\' then
      match EscapeSequence(t)
      case Some((c, n)) => Prepend(c, Unescape(t[n..]))
      case None => None
    else if t[0] == '"' || t[0] as int < 0x20 then None
    else Prepend(t[0], Unescape(t[1..]))
  }

  /** Reads a quoted JSON string literal. */
  function ParseQuoted(t: string): Option<string> {
    if |t| >= 2 && t[0] == '"' && t[|t| - 1] == '"' then Unescape(t[1..|t| - 1]) else None
  }

  /** Decoding an escaped character followed by anything decodes the
      character, then the rest. */
  lemma UnescapeEscapeChar(c: char, rest: string)
    ensures Unescape(EscapeChar(c) + rest) == Prepend(c, Unescape(rest))
  {
  }

  /** Unescaping undoes escaping, for every string. */
  lemma {:induction false} UnescapeEscape(s: string)
    ensures Unescape(Escape(s)) == Some(s)
  {
    if s != [] {
      UnescapeEscape(s[1..]);
      UnescapeEscapeChar(s[0], Escape(s[1..]));
      assert [s[0]] + s[1..] == s;
    }
  }

  /** The quoted JSON text of a string reads back as that string. */
  lemma QuoteRoundTrip(s: string)
    ensures ParseQuoted(Quote(s)) == Some(s)
  {
    var t := Quote(s);
    assert t[1..|t| - 1] == Escape(s);
    UnescapeEscape(s);
  }

  /** A string with no quote, backslash or control character is written
      between the quotes unchanged. */
  lemma {:induction false} EscapePlain(s: string)
    requires forall i :: 0 <= i < |s| ==> s[i] != '"' && s[i] != '\\' && s[i] as int >= 0x20
    ensures Escape(s) == s
  {
    if s != [] {
      EscapePlain(s[1..]);
      assert [s[0]] + s[1..] == s;
    }
  }
}
