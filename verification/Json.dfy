/** JSON values and the canonical text that every digest is taken over: keys sorted,
    no white space, everything outside printable ASCII escaped. */
module Json {
  import opened Basics
  import opened Order

  datatype Json =
    | JNull
    | JBool(b: bool)
    | JInt(i: int)
    | JReal(r: real)
    | JStr(s: string)
    | JArr(items: seq<Json>)
    | JObj(fields: map<string, Json>)

  /** Python's mapping.get: an absent key reads as null. */
  function Get(fields: map<string, Json>, key: string): Json {
    if key in fields then fields[key] else JNull
  }

  // ----- Numbers -----

  function Digit(d: nat): char
    requires d < 10
  {
    ('0' as int + d) as char
  }

  function Natural(n: nat): string {
    if n < 10 then [Digit(n)] else Natural(n / 10) + [Digit(n % 10)]
  }

  function Integer(i: int): string {
    if i < 0 then "-" + Natural(-i) else Natural(i)
  }

  // ----- Strings -----

  function HexDigit(d: nat): char
    requires d < 16
  {
    if d < 10 then ('0' as int + d) as char else ('a' as int + d - 10) as char
  }

  function Hex4(n: nat): string
    requires n < 0x10000
  {
    [HexDigit(n / 0x1000), HexDigit(n / 0x100 % 16), HexDigit(n / 16 % 16), HexDigit(n % 16)]
  }

  predicate Plain(c: char) {
    ' ' <= c <= '~' && c != '"' && c != '\\'
  }

  /** One UTF-16 unit, or a surrogate pair for a character beyond the basic plane. */
  function UnicodeEscape(n: nat): string
    requires n < 0x110000
  {
    if n < 0x10000 then
      "\\u" + Hex4(n)
    else
      "\\u" + Hex4(0xd800 + (n - 0x10000) / 0x400) + "\\u" + Hex4(0xdc00 + (n - 0x10000) % 0x400)
  }

  function Escape(c: char): string {
    var n := c as int;
    if Plain(c) then [c]
    else if c == '"' then "\\\""
    else if c == '\\' then "\\\\"
    else if c == '\n' then "\\n"
    else if c == '\r' then "\\r"
    else if c == '\t' then "\\t"
    else if n == 0x0c then "\\f"
    else if n == 0x08 then "\\b"
    else UnicodeEscape(n)
  }

  function EscapeAll(s: string): string {
    if s == [] then [] else Escape(s[0]) + EscapeAll(s[1..])
  }

  function Quoted(s: string): string {
    "\"" + EscapeAll(s) + "\""
  }

  // ----- Objects: keys in sorted order -----

  lemma Comparable(a: string, b: string, x: string)
    ensures StringLe(x, x) && (StringLe(a, b) || StringLe(b, a))
    ensures StringLe(a, b) && StringLe(b, x) ==> StringLe(a, x)
  {
    StringOrder();
    hide StringLe;
  }

  predicate Least(k: string, keys: set<string>) {
    k in keys && forall x :: x in keys ==> StringLe(k, x)
  }

  lemma {:induction false} LeastExists(keys: set<string>)
    requires keys != {}
    ensures exists k :: Least(k, keys)
  {
    hide StringLe;
    var k0 :| k0 in keys;
    var rest := keys - {k0};
    if rest == {} {
      forall x | x in keys ensures StringLe(k0, x) {
        Comparable(k0, k0, k0);
        assert x !in rest;
      }
      assert Least(k0, keys);
    } else {
      LeastExists(rest);
      var k :| Least(k, rest);
      Comparable(k0, k, k0);
      var least := if StringLe(k0, k) then k0 else k;
      forall x | x in keys ensures StringLe(least, x) {
        if x in rest {
          Comparable(k0, k, x);
        }
      }
      assert Least(least, keys);
    }
  }

  function SortedKeys(keys: set<string>): (ks: seq<string>)
    ensures forall k :: k in ks <==> k in keys
    ensures |ks| == |keys|
  {
    if keys == {} then []
    else
      LeastExists(keys);
      StringOrder();
      var k :| Least(k, keys);
      [k] + SortedKeys(keys - {k})
  }

  // ----- The printer -----

  function Print(repr: real -> string, j: Json): string
    decreases j, 1
  {
    match j
    case JNull => "null"
    case JBool(b) => if b then "true" else "false"
    case JInt(i) => Integer(i)
    case JReal(r) => repr(r)
    case JStr(s) => Quoted(s)
    case JArr(items) => "[" + PrintItems(repr, items) + "]"
    case JObj(fields) => "{" + PrintFields(repr, SortedKeys(fields.Keys), j) + "}"
  }

  function PrintItems(repr: real -> string, items: seq<Json>): string
    decreases items, |items|
  {
    if items == [] then ""
    else if |items| == 1 then Print(repr, items[0])
    else Print(repr, items[0]) + "," + PrintItems(repr, items[1..])
  }

  function PrintFields(repr: real -> string, keys: seq<string>, j: Json): string
    requires j.JObj?
    requires forall k :: k in keys ==> k in j.fields
    decreases j, 0, |keys|
  {
    if keys == [] then ""
    else
      var first := Quoted(keys[0]) + ":" + Print(repr, j.fields[keys[0]]);
      if |keys| == 1 then first else first + "," + PrintFields(repr, keys[1..], j)
  }
}
