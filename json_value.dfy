/** The optional value and the success-or-error value used throughout the model. */
module Wrappers {
  datatype Option<+T> = None | Some(value: T) {
    /** `d.get(key, default)` once the lookup is done. */
    function GetOr(default: T): T {
      if Some? then value else default
    }
  }

  datatype Result<+T, +E> = Success(value: T) | Failure(error: E)
}

/**
 * A value as `response.json()` returns it, and the three pieces of Python's
 * object protocol the bot relies on: truthiness, `str()` and dictionary
 * lookup.
 */
module JsonValue {
  import opened Wrappers

  /**
   * A decoded JSON document. An object keeps its members in document order,
   * as the Python dict built by the decoder does, because `str()` of a dict
   * shows that order. A number with a fraction or an exponent becomes a
   * Python float, carried here by the text `str()` gives for it.
   */
  datatype Json =
    | JNull
    | JBool(b: bool)
    | JInt(i: int)
    | JFloat(text: string)
    | JString(s: string)
    | JList(items: seq<Json>)
    | JObject(fields: seq<(string, Json)>)

  /** `key in d` for a dict. */
  predicate HasKey(fields: seq<(string, Json)>, key: string) {
    |fields| > 0 && (fields[0].0 == key || HasKey(fields[1..], key))
  }

  /** `d.get(key)`: the value stored under `key`, or nothing when it is absent. */
  function Get(fields: seq<(string, Json)>, key: string): (r: Option<Json>)
    ensures r.Some? <==> HasKey(fields, key)
    ensures r.Some? ==> (key, r.value) in fields
  {
    if |fields| == 0 then None
    else if fields[0].0 == key then Some(fields[0].1)
    else Get(fields[1..], key)
  }

  /** `bool(v)`: None, False, zero, the empty string and empty containers are false. */
  predicate Truthy(v: Json) {
    match v
    case JNull => false
    case JBool(b) => b
    case JInt(i) => i != 0
    case JFloat(text) => text != "0.0" && text != "-0.0"
    case JString(s) => s != ""
    case JList(items) => items != []
    case JObject(fields) => fields != []
  }

  /**
   * The values of `v`'s type that Python counts as false: `None`, `False`,
   * the zeros and the empty string, list and dict.
   */
  function FalsyOfType(v: Json): set<Json> {
    match v
    case JNull => {JNull}
    case JBool(_) => {JBool(false)}
    case JInt(_) => {JInt(0)}
    case JFloat(_) => {JFloat("0.0"), JFloat("-0.0")}
    case JString(_) => {JString("")}
    case JList(_) => {JList([])}
    case JObject(_) => {JObject([])}
  }

  /** A value is truthy exactly when it is not one of its type's false values. */
  lemma TruthyIsNotFalsy(v: Json)
    ensures Truthy(v) <==> v !in FalsyOfType(v)
  {
  }

  /** `type(v).__name__`. */
  function TypeName(v: Json): string {
    match v
    case JNull => "NoneType"
    case JBool(_) => "bool"
    case JInt(_) => "int"
    case JFloat(_) => "float"
    case JString(_) => "str"
    case JList(_) => "list"
    case JObject(_) => "dict"
  }

  function DigitChar(d: nat): (c: char)
    requires d < 10
    ensures '0' <= c <= '9'
  {
    ('0' as int + d) as char
  }

  function Digits(n: nat): string {
    if n < 10 then [DigitChar(n)] else Digits(n / 10) + [DigitChar(n % 10)]
  }

  /** `str(i)` for an int: decimal digits, with a leading minus sign when negative. */
  function IntToString(i: int): string {
    if i < 0 then "-" + Digits(-i) else Digits(i)
  }

  function HexDigit(d: nat): char
    requires d < 16
  {
    if d < 10 then DigitChar(d) else ('a' as int + (d - 10)) as char
  }

  /** One character as it appears inside `repr()` of a string delimited by `quote`. */
  function EscapedChar(c: char, quote: char): string {
    if c == '\\' || c == quote then ['\\', c]
    else if c == '\t' then "\\t"
    else if c == '\n' then "\\n"
    else if c == '\r' then "\\r"
    else if c < ' ' || c as int == 0x7f then ['\\', 'x', HexDigit(c as int / 16), HexDigit(c as int % 16)]
    else [c]
  }

  function Escaped(s: string, quote: char): string {
    if s == "" then "" else EscapedChar(s[0], quote) + Escaped(s[1..], quote)
  }

  /**
   * `repr(s)` for a string: single quotes, unless the text holds a single quote
   * and no double quote, in which case double quotes.
   */
  function StrRepr(s: string): string {
    var quote := if '\'' in s && '"' !in s then '"' else '\'';
    [quote] + Escaped(s, quote) + [quote]
  }

  /** The value of a hexadecimal digit as `repr()` writes it. */
  function HexValue(c: char): (r: Option<nat>)
    ensures r.Some? ==> r.value < 16
  {
    if '0' <= c <= '9' then Some(c as int - '0' as int)
    else if 'a' <= c <= 'f' then Some(c as int - 'a' as int + 10)
    else None
  }

  function Prepend(c: char, rest: Option<string>): Option<string> {
    if rest.Some? then Some([c] + rest.value) else None
  }

  /**
   * Reads back the inside of a string literal delimited by `quote`, as
   * `ast.literal_eval` does for the escapes `repr()` writes; an unescaped
   * quote or an unknown escape is not a literal.
   */
  function Unescape(t: string, quote: char): Option<string>
    decreases |t|
  {
    if t == "" then Some("")
    else if t[0] == quote then None
    else if t[0] != '\\' then Prepend(t[0], Unescape(t[1..], quote))
    else if |t| < 2 then None
    else if t[1] == '\\' || t[1] == quote then Prepend(t[1], Unescape(t[2..], quote))
    else if t[1] == 't' then Prepend('\t', Unescape(t[2..], quote))
    else if t[1] == 'n' then Prepend('\n', Unescape(t[2..], quote))
    else if t[1] == 'r' then Prepend('\r', Unescape(t[2..], quote))
    else if t[1] == 'x' && |t| >= 4 && HexValue(t[2]).Some? && HexValue(t[3]).Some? then
      Prepend((HexValue(t[2]).value * 16 + HexValue(t[3]).value) as char, Unescape(t[4..], quote))
    else None
  }

  /** Reads back a string literal: its two matching quotes around its escaped text. */
  function Unquote(t: string): Option<string> {
    if |t| >= 2 && (t[0] == '\'' || t[0] == '"') && t[|t| - 1] == t[0] then Unescape(t[1..|t| - 1], t[0])
    else None
  }

  lemma HexRoundTrip(d: nat)
    requires d < 16
    ensures HexValue(HexDigit(d)) == Some(d)
  {
  }

  /** One escaped character reads back as that character, whatever follows it. */
  lemma UnescapeChar(c: char, quote: char, rest: string)
    requires quote == '\'' || quote == '"'
    ensures Unescape(EscapedChar(c, quote) + rest, quote) == Prepend(c, Unescape(rest, quote))
  {
    var t := EscapedChar(c, quote) + rest;
    if c == '\\' || c == quote {
      assert t[0] == '\\' && t[1] == c && t[2..] == rest;
    } else if c == '\t' || c == '\n' || c == '\r' {
      assert t[0] == '\\' && t[1] in "tnr" && t[2..] == rest;
    } else if c < ' ' || c as int == 0x7f {
      HexRoundTrip(c as int / 16);
      HexRoundTrip(c as int % 16);
      assert t[0] == '\\' && t[1] == 'x' && t[4..] == rest;
    } else {
      assert t[0] == c && t[1..] == rest;
    }
  }

  lemma {:induction false} EscapedRoundTrip(s: string, quote: char)
    requires quote == '\'' || quote == '"'
    ensures Unescape(Escaped(s, quote), quote) == Some(s)
  {
    if s != "" {
      UnescapeChar(s[0], quote, Escaped(s[1..], quote));
      EscapedRoundTrip(s[1..], quote);
      assert [s[0]] + s[1..] == s;
    }
  }

  /**
   * `repr(s)` reads back as `s`, and it is double-quoted exactly when `s`
   * holds a single quote and no double quote.
   */
  lemma StrReprRoundTrip(s: string)
    ensures Unquote(StrRepr(s)) == Some(s)
    ensures StrRepr(s)[0] == '"' <==> '\'' in s && '"' !in s
  {
    var quote := if '\'' in s && '"' !in s then '"' else '\'';
    var t := StrRepr(s);
    assert t[1..|t| - 1] == Escaped(s, quote);
    EscapedRoundTrip(s, quote);
  }

  /** The number a string of decimal digits denotes, when it is one. */
  function DecimalValue(t: string): Option<nat> {
    if |t| == 0 then None
    else if !('0' <= t[|t| - 1] <= '9') then None
    else
      var d := t[|t| - 1] as int - '0' as int;
      if |t| == 1 then Some(d)
      else
        var high := DecimalValue(t[..|t| - 1]);
        if high.Some? then Some(high.value * 10 + d) else None
  }

  /** `int(t)` for the optionally signed decimal texts `str()` writes. */
  function ParseInt(t: string): Option<int> {
    if |t| > 0 && t[0] == '-' then
      var m := DecimalValue(t[1..]);
      if m.Some? then Some(-(m.value as int)) else None
    else
      var m := DecimalValue(t);
      if m.Some? then Some(m.value) else None
  }

  lemma {:induction false} DigitsRoundTrip(n: nat)
    ensures DecimalValue(Digits(n)) == Some(n)
    ensures '0' <= Digits(n)[0] <= '9'
  {
    if n >= 10 {
      DigitsRoundTrip(n / 10);
      var t := Digits(n);
      assert t[..|t| - 1] == Digits(n / 10);
    }
  }

  /** `int(str(i)) == i`. */
  lemma StrOfIntRoundTrip(i: int)
    ensures ParseInt(Str(JInt(i))) == Some(i)
  {
    if i < 0 {
      DigitsRoundTrip(-i);
      assert ("-" + Digits(-i))[1..] == Digits(-i);
    } else {
      DigitsRoundTrip(i);
    }
  }

  /**
   * `str()` of a string is the string itself, and `repr()` of it is a
   * literal that reads back as it; on every other value the two agree.
   */
  lemma StrAndRepr(v: Json)
    ensures v.JString? ==> Str(v) == v.s && Unquote(Repr(v)) == Some(v.s)
    ensures !v.JString? ==> Repr(v) == Str(v)
    ensures Str(JNull) == "None" && Str(JBool(true)) == "True" && Str(JBool(false)) == "False"
  {
    if v.JString? {
      StrReprRoundTrip(v.s);
    }
  }

  /** The items of a list or a dict display, separated by ", ". */
  function Join(parts: seq<string>): string {
    if |parts| == 0 then ""
    else if |parts| == 1 then parts[0]
    else parts[0] + ", " + Join(parts[1..])
  }

  /** `str(v)`, which is also what `format()` and an f-string produce for these types. */
  function Str(v: Json): string
    decreases v, 0
  {
    match v
    case JNull => "None"
    case JBool(b) => if b then "True" else "False"
    case JInt(i) => IntToString(i)
    case JFloat(text) => text
    case JString(s) => s
    case JList(items) =>
      "[" + Join(seq(|items|, k requires 0 <= k < |items| => Repr(items[k]))) + "]"
    case JObject(fields) =>
      "{" + Join(seq(|fields|, k requires 0 <= k < |fields| =>
                       StrRepr(fields[k].0) + ": " + Repr(fields[k].1))) + "}"
  }

  /** `repr(v)`: as `str(v)`, except that a string is quoted. */
  function Repr(v: Json): string
    decreases v, 1
  {
    if v.JString? then StrRepr(v.s) else Str(v)
  }
}
