/** A reader for canonical JSON text, after the grammar of sections 2 to 7 of RFC 8259. It admits
    no white space between tokens and wants the names of an object in ascending order, so every
    text that it reads is a JSON text of the value it finds, compact and with sorted names. */
module JsonReader {
  import opened Basics
  import opened Order
  import opened Json

  /** What was read off the front of a text, and what is left of the text. */
  datatype Parsed<+T> = Unreadable | Got(value: T, rest: string)

  // ----- Numbers (section 6) -----

  predicate IsDigit(c: char) {
    '0' <= c <= '9'
  }

  predicate AllDigits(t: string) {
    forall c :: c in t ==> IsDigit(c)
  }

  /** The length of the leading run of digits. */
  function LeadingDigits(t: string): (n: nat)
    ensures n <= |t| && AllDigits(t[..n]) && (n < |t| ==> !IsDigit(t[n]))
  {
    if t == "" || !IsDigit(t[0]) then 0
    else
      assert t[..1 + LeadingDigits(t[1..])] == [t[0]] + t[1..][..LeadingDigits(t[1..])];
      1 + LeadingDigits(t[1..])
  }

  predicate IsExponent(t: string) {
    || t == ""
    || ((t[0] == 'e' || t[0] == 'E')
        && var digits := if |t| > 1 && (t[1] == '+' || t[1] == '-') then t[2..] else t[1..];
           digits != "" && AllDigits(digits))
  }

  predicate IsFraction(t: string) {
    if t != "" && t[0] == '.' then LeadingDigits(t[1..]) > 0 && IsExponent(t[1..][LeadingDigits(t[1..])..]) else IsExponent(t)
  }

  function WithoutSign(t: string): string {
    if t != "" && t[0] == '-' then t[1..] else t
  }

  /** An optional sign, digits without a leading zero, and perhaps a fraction and an exponent. */
  predicate IsNumberText(t: string) {
    var u := WithoutSign(t);
    LeadingDigits(u) > 0 && (u[0] == '0' ==> LeadingDigits(u) == 1) && IsFraction(u[LeadingDigits(u)..])
  }

  predicate IsIntegerText(t: string) {
    IsNumberText(t) && AllDigits(WithoutSign(t))
  }

  predicate TokenChar(c: char) {
    IsDigit(c) || c in "+-.eE"
  }

  predicate AllToken(t: string) {
    forall c :: c in t ==> TokenChar(c)
  }

  /** A number that is no integer: what the float printer of the library writes. */
  predicate IsFloatText(t: string) {
    IsNumberText(t) && !IsIntegerText(t) && AllToken(t)
  }

  function Decimal(digits: string): nat
    requires AllDigits(digits)
  {
    if digits == "" then 0
    else
      assert digits[|digits| - 1] in digits;
      Decimal(digits[..|digits| - 1]) * 10 + (digits[|digits| - 1] as int - '0' as int)
  }

  function IntegerValue(t: string): int
    requires IsIntegerText(t)
  {
    if t[0] == '-' then 0 - Decimal(WithoutSign(t)) else Decimal(WithoutSign(t))
  }

  function Token(t: string): (token: string)
    ensures |token| <= |t|
  {
    if t == "" || !TokenChar(t[0]) then "" else [t[0]] + Token(t[1..])
  }

  /** How the text of a float is read belongs to the library. */
  type FloatReader = string -> Option<real>

  function ReadNumber(float: FloatReader, t: string): (p: Parsed<Json>)
    ensures p.Got? ==> |p.rest| < |t|
  {
    var token := Token(t);
    if !IsNumberText(token) then Unreadable
    else if IsIntegerText(token) then Got(JInt(IntegerValue(token)), t[|token|..])
    else if float(token).Some? then Got(JReal(float(token).value), t[|token|..])
    else Unreadable
  }

  // ----- Strings (section 7) -----

  function HexValue(c: char): Option<nat> {
    if '0' <= c <= '9' then Some(c as int - '0' as int)
    else if 'a' <= c <= 'f' then Some(c as int - 'a' as int + 10)
    else if 'A' <= c <= 'F' then Some(c as int - 'A' as int + 10)
    else None
  }

  /** Four hexadecimal digits: a UTF-16 unit. */
  function ReadUnit(t: string): (p: Parsed<nat>)
    ensures p.Got? ==> p.value < 0x10000 && |p.rest| < |t|
  {
    if |t| < 4 then Unreadable
    else
      var a, b, c, d := HexValue(t[0]), HexValue(t[1]), HexValue(t[2]), HexValue(t[3]);
      if a.None? || b.None? || c.None? || d.None? then Unreadable
      else Got(((a.value * 16 + b.value) * 16 + c.value) * 16 + d.value, t[4..])
  }

  /** The text after a backslash and the letter u: one unit, or a surrogate pair. */
  function ReadUnicode(t: string): (p: Parsed<char>)
    ensures p.Got? ==> |p.rest| < |t|
  {
    var high := ReadUnit(t);
    if high.Unreadable? then Unreadable
    else if !(0xd800 <= high.value < 0xe000) then Got(high.value as char, high.rest)
    else if high.value >= 0xdc00 || |high.rest| < 2 || high.rest[..2] != "\\u" then Unreadable
    else
      var low := ReadUnit(high.rest[2..]);
      if low.Unreadable? || !(0xdc00 <= low.value < 0xe000) then Unreadable
      else Got((0x10000 + (high.value - 0xd800) * 0x400 + (low.value - 0xdc00)) as char, low.rest)
  }

  /** The text after a backslash. */
  function ReadEscape(t: string): (p: Parsed<char>)
    requires t != ""
    ensures p.Got? ==> |p.rest| < |t|
  {
    var c, rest := t[0], t[1..];
    if c == '"' || c == '\\' || c == '/' then Got(c, rest)
    else if c == 'b' then Got(0x08 as char, rest)
    else if c == 'f' then Got(0x0c as char, rest)
    else if c == 'n' then Got(0x0a as char, rest)
    else if c == 'r' then Got(0x0d as char, rest)
    else if c == 't' then Got(0x09 as char, rest)
    else if c == 'u' then ReadUnicode(rest)
    else Unreadable
  }

  function ReadChar(t: string): (p: Parsed<char>)
    requires t != ""
    ensures p.Got? ==> |p.rest| < |t|
  {
    if t[0] == '\\' then if |t| == 1 then Unreadable else ReadEscape(t[1..])
    else if t[0] == '"' || t[0] as int < 0x20 then Unreadable
    else Got(t[0], t[1..])
  }

  /** The text after the opening quotation mark. */
  function ReadChars(t: string): (p: Parsed<string>)
    ensures p.Got? ==> |p.rest| < |t|
    decreases |t|
  {
    if t == "" then Unreadable
    else if t[0] == '"' then Got("", t[1..])
    else
      var first := ReadChar(t);
      if first.Unreadable? then Unreadable
      else
        var others := ReadChars(first.rest);
        if others.Unreadable? then Unreadable else Got([first.value] + others.value, others.rest)
  }

  function ReadString(t: string): (p: Parsed<string>)
    ensures p.Got? ==> |p.rest| < |t|
  {
    if t == "" || t[0] != '"' then Unreadable else ReadChars(t[1..])
  }

  // ----- Values (section 3), arrays (section 5) and objects (section 4) -----

  function ReadValue(float: FloatReader, t: string): (p: Parsed<Json>)
    ensures p.Got? ==> |p.rest| < |t|
    decreases |t|, 0
  {
    if t == "" then Unreadable
    else if "null" <= t then Got(JNull, t[4..])
    else if "true" <= t then Got(JBool(true), t[4..])
    else if "false" <= t then Got(JBool(false), t[5..])
    else if t[0] == '"' then
      var s := ReadString(t);
      if s.Unreadable? then Unreadable else Got(JStr(s.value), s.rest)
    else if t[0] == '[' then
      if |t| > 1 && t[1] == ']' then Got(JArr([]), t[2..])
      else
        var items := ReadItems(float, t[1..]);
        if items.Unreadable? then Unreadable else Got(JArr(items.value), items.rest)
    else if t[0] == '{' then
      if |t| > 1 && t[1] == '}' then Got(JObj(map[]), t[2..])
      else
        var members := ReadMembers(float, None, t[1..]);
        if members.Unreadable? then Unreadable else Got(JObj(members.value), members.rest)
    else ReadNumber(float, t)
  }

  /** One value or more, separated by commas, and the closing bracket. */
  function ReadItems(float: FloatReader, t: string): (p: Parsed<seq<Json>>)
    ensures p.Got? ==> |p.rest| < |t|
    decreases |t|, 1
  {
    var first := ReadValue(float, t);
    if first.Unreadable? || first.rest == "" then Unreadable
    else if first.rest[0] == ']' then Got([first.value], first.rest[1..])
    else if first.rest[0] != ',' then Unreadable
    else
      var others := ReadItems(float, first.rest[1..]);
      if others.Unreadable? then Unreadable else Got([first.value] + others.value, others.rest)
  }

  /** One member or more, with names that follow each other in code point order, and the closing
      brace. */
  function ReadMembers(float: FloatReader, previous: Option<string>, t: string): (p: Parsed<map<string, Json>>)
    ensures p.Got? ==> |p.rest| < |t|
    decreases |t|, 1
  {
    var name := ReadString(t);
    if name.Unreadable? || name.rest == "" || name.rest[0] != ':' then Unreadable
    else if previous.Some? && !Precedes(previous.value, name.value) then Unreadable
    else
      var first := ReadValue(float, name.rest[1..]);
      if first.Unreadable? || first.rest == "" then Unreadable
      else if first.rest[0] == '}' then Got(map[name.value := first.value], first.rest[1..])
      else if first.rest[0] != ',' then Unreadable
      else
        var others := ReadMembers(float, Some(name.value), first.rest[1..]);
        if others.Unreadable? then Unreadable else Got(others.value[name.value := first.value], others.rest)
  }

  /** The value of a complete text. */
  function ReadText(float: FloatReader, t: string): Option<Json> {
    var p := ReadValue(float, t);
    if p.Got? && p.rest == "" then Some(p.value) else None
  }
}
