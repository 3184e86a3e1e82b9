/** The canonical text of a value is JSON for that value: the reader gets the value back from it.
    So equal texts are texts of equal values. */
module CanonicalText {
  import opened Basics
  import opened Order
  import opened Json
  import opened JsonReader

  /** How floats are written is a matter for the library: all that is needed is that
      the floats in play have number-shaped, pairwise different texts. */
  ghost predicate FaithfulFloats(repr: real -> string, floats: iset<real>) {
    && (forall r :: r in floats ==> IsFloatText(repr(r)))
    && (forall r, s :: r in floats && s in floats && repr(r) == repr(s) ==> r == s)
  }

  /** The float reader of the library finds the floats in play again. */
  ghost predicate ReadsBack(repr: real -> string, floats: iset<real>, float: FloatReader) {
    forall r :: r in floats ==> IsFloatText(repr(r)) && float(repr(r)) == Some(r)
  }

  ghost predicate Within(j: Json, floats: iset<real>) {
    match j
    case JReal(r) => r in floats
    case JArr(items) => forall i :: 0 <= i < |items| ==> Within(items[i], floats)
    case JObj(fields) => forall k :: k in fields ==> Within(fields[k], floats)
    case _ => true
  }

  /** What may come after a value: nothing, or a separator. */
  predicate Follow(rest: string) {
    rest != [] ==> rest[0] in ",]}"
  }

  lemma Regroup(a: string, b: string, c: string, d: string)
    ensures a + b + c + d == a + (b + c + d)
  {
  }

  lemma LastField(key: string, value: string, x: string)
    ensures key + ":" + value + "}" + x == key + (":" + (value + ("}" + x)))
  {
    Regroup(key, ":", value, "}" + x);
    assert ":" + value + ("}" + x) == ":" + (value + ("}" + x));
  }

  lemma MoreFields(key: string, value: string, rest: string, x: string)
    ensures key + ":" + value + "," + rest + "}" + x == key + (":" + (value + ("," + (rest + "}" + x))))
  {
    var tail := "," + (rest + "}" + x);
    assert key + ":" + value + "," + rest + "}" + x == key + ":" + value + tail;
    Regroup(key, ":", value, tail);
    assert ":" + value + tail == ":" + (value + tail);
  }

  lemma MoreItems(first: string, rest: string, x: string)
    ensures first + "," + rest + "]" + x == first + ("," + (rest + "]" + x))
  {
    Regroup(first, ",", rest, "]" + x);
    assert "," + rest + ("]" + x) == "," + (rest + "]" + x);
  }

  // ----- Strings are read back -----

  lemma HexRead(n: nat)
    requires n < 16
    ensures HexValue(HexDigit(n)) == Some(n)
  {
  }

  lemma FourDigits(n: nat)
    requires n < 0x10000
    ensures n == ((n / 0x1000 * 16 + n / 0x100 % 16) * 16 + n / 16 % 16) * 16 + n % 16
  {
    var a, b, c := n / 16, n / 0x100, n / 0x1000;
    assert n == 16 * a + n % 16;
    assert b == a / 16 && a == 16 * b + a % 16;
    assert c == b / 16 && b == 16 * c + b % 16;
  }

  lemma UnitRead(n: nat, x: string)
    requires n < 0x10000
    ensures |Hex4(n)| == 4 && ReadUnit(Hex4(n) + x) == Got(n, x)
  {
    hide HexValue, HexDigit;
    FourDigits(n);
    HexRead(n / 0x1000);
    HexRead(n / 0x100 % 16);
    HexRead(n / 16 % 16);
    HexRead(n % 16);
    var t := Hex4(n) + x;
    assert t[0] == Hex4(n)[0] && t[1] == Hex4(n)[1] && t[2] == Hex4(n)[2] && t[3] == Hex4(n)[3] && t[4..] == x;
  }

  lemma PairSplits(m: nat)
    requires m < 0x100000
    ensures m / 0x400 < 0x400 && m % 0x400 < 0x400 && m / 0x400 * 0x400 + m % 0x400 == m
  {
  }

  lemma PairRead(n: nat, x: string)
    requires 0x10000 <= n < 0x110000
    ensures var high, low := 0xd800 + (n - 0x10000) / 0x400, 0xdc00 + (n - 0x10000) % 0x400;
      ReadUnicode(Hex4(high) + ("\\u" + (Hex4(low) + x))) == Got(n as char, x)
  {
    hide Hex4, ReadUnit;
    var m := n - 0x10000;
    PairSplits(m);
    var high, low := 0xd800 + m / 0x400, 0xdc00 + m % 0x400;
    var rest := "\\u" + (Hex4(low) + x);
    UnitRead(high, rest);
    UnitRead(low, x);
    assert rest[..2] == "\\u" && rest[2..] == Hex4(low) + x;
  }

  lemma UnitEscaped(n: nat)
    requires n < 0x10000
    ensures UnicodeEscape(n)[..2] == "\\u" && UnicodeEscape(n)[2..] == Hex4(n)
  {
    hide Hex4;
  }

  lemma PairEscaped(n: nat, x: string)
    requires 0x10000 <= n < 0x110000
    ensures var high, low := 0xd800 + (n - 0x10000) / 0x400, 0xdc00 + (n - 0x10000) % 0x400;
      UnicodeEscape(n)[..2] == "\\u" && UnicodeEscape(n)[2..] + x == Hex4(high) + ("\\u" + (Hex4(low) + x))
  {
    hide Hex4;
  }

  lemma UnitUnicode(c: char, x: string)
    requires c as int < 0x10000
    ensures ReadUnicode(Hex4(c as int) + x) == Got(c, x)
  {
    hide Hex4, ReadUnit;
    UnitRead(c as int, x);
  }

  /** A character written as one unit or as a surrogate pair. */
  lemma UnicodeRead(c: char, x: string)
    ensures UnicodeEscape(c as int)[..2] == "\\u" && ReadUnicode(UnicodeEscape(c as int)[2..] + x) == Got(c, x)
  {
    hide Hex4, ReadUnicode, UnicodeEscape;
    var n := c as int;
    if n < 0x10000 {
      UnitEscaped(n);
      UnitUnicode(c, x);
    } else {
      PairEscaped(n, x);
      PairRead(n, x);
    }
  }

  predicate ShortEscaped(c: char) {
    c in "\"\\\n\r\t" || c as int == 0x0c || c as int == 0x08
  }

  lemma EscapeShape(c: char)
    ensures Plain(c) ==> Escape(c) == [c]
    ensures ShortEscaped(c) ==> |Escape(c)| == 2 && Escape(c)[0] == '\\' && Escape(c)[1] in "\"\\nrtfb"
    ensures !Plain(c) && !ShortEscaped(c) ==> Escape(c) == UnicodeEscape(c as int) && |Escape(c)| >= 6 && Escape(c)[..2] == "\\u"
    ensures Escape(c) != [] && Escape(c)[0] != '"'
  {
  }

  lemma ShortEscapeRead(c: char, x: string)
    requires ShortEscaped(c)
    ensures ReadEscape(Escape(c)[1..] + x) == Got(c, x)
  {
    var t := Escape(c)[1..] + x;
    assert t[0] == Escape(c)[1] && t[1..] == x;
  }

  lemma UnicodeCharRead(c: char, x: string)
    requires !Plain(c) && !ShortEscaped(c)
    ensures ReadChar(Escape(c) + x) == Got(c, x)
  {
    hide Escape, UnicodeEscape, ReadUnicode, Plain, ShortEscaped;
    EscapeShape(c);
    UnicodeRead(c, x);
    var e := Escape(c);
    var t := e + x;
    assert t[1..][1..] == e[2..] + x;
    assert e[0] == e[..2][0] == '\\' && e[1] == e[..2][1] == 'u';
    assert t[0] == e[0] && t[1] == e[1];
  }

  lemma CharRead(c: char, x: string)
    ensures ReadChar(Escape(c) + x) == Got(c, x)
  {
    hide Escape, ReadEscape;
    EscapeShape(c);
    var t := Escape(c) + x;
    assert t[0] == Escape(c)[0];
    if Plain(c) {
      assert t[1..] == x;
    } else if ShortEscaped(c) {
      assert t[1..] == Escape(c)[1..] + x;
      ShortEscapeRead(c, x);
    } else {
      UnicodeCharRead(c, x);
    }
  }

  lemma TextSplit(s: string, x: string)
    requires s != []
    ensures EscapeAll(s) + "\"" + x == Escape(s[0]) + (EscapeAll(s[1..]) + "\"" + x)
  {
    Regroup(Escape(s[0]), EscapeAll(s[1..]), "\"", x);
  }

  lemma {:induction false} CharsRead(s: string, x: string)
    ensures ReadChars(EscapeAll(s) + "\"" + x) == Got(s, x)
  {
    hide Escape, ReadChar;
    var t := EscapeAll(s) + "\"" + x;
    if s == [] {
      assert t[0] == '"' && t[1..] == x;
    } else {
      var others := EscapeAll(s[1..]) + "\"" + x;
      TextSplit(s, x);
      CharRead(s[0], others);
      EscapeShape(s[0]);
      assert t[0] == Escape(s[0])[0];
      CharsRead(s[1..], x);
      assert s == [s[0]] + s[1..];
    }
  }

  lemma QuotedRead(s: string, x: string)
    ensures ReadString(Quoted(s) + x) == Got(s, x)
  {
    hide EscapeAll, ReadChars;
    CharsRead(s, x);
    assert (Quoted(s) + x)[1..] == EscapeAll(s) + "\"" + x;
  }

  // ----- Numbers are read back -----

  lemma {:induction false} NaturalRead(n: nat)
    ensures Natural(n) != [] && AllDigits(Natural(n)) && Decimal(Natural(n)) == n
    ensures Natural(n)[0] == '0' ==> |Natural(n)| == 1
    ensures n > 0 ==> Natural(n)[0] != '0'
  {
    var t := Natural(n);
    if n >= 10 {
      NaturalRead(n / 10);
      assert t[..|t| - 1] == Natural(n / 10) && t[0] == Natural(n / 10)[0];
    } else {
      assert t[..0] == "";
    }
  }

  lemma {:induction false} RunOfDigits(t: string)
    requires AllDigits(t)
    ensures LeadingDigits(t) == |t|
  {
    if t != "" {
      assert t[0] in t;
      RunOfDigits(t[1..]);
    }
  }

  lemma IntegerText(i: int)
    ensures IsIntegerText(Integer(i)) && IntegerValue(Integer(i)) == i && AllToken(Integer(i))
  {
    var n := if i < 0 then -i else i;
    hide Natural, Decimal;
    NaturalRead(n);
    RunOfDigits(Natural(n));
    assert Natural(n)[0] in Natural(n);
    assert i < 0 ==> Integer(i)[1..] == Natural(n);
    assert WithoutSign(Integer(i)) == Natural(n);
    assert Natural(n)[|Natural(n)|..] == "";
  }

  /** A number ends where the next separator begins. */
  lemma {:induction false} TokenStops(a: string, x: string)
    requires AllToken(a) && Follow(x)
    ensures Token(a + x) == a
  {
    if a == "" {
      assert a + x == x;
    } else {
      assert (a + x)[1..] == a[1..] + x;
      assert a[0] in a;
      TokenStops(a[1..], x);
      assert a == [a[0]] + a[1..];
    }
  }

  lemma NumberHead(t: string)
    requires IsNumberText(t)
    ensures t != "" && (IsDigit(t[0]) || t[0] == '-')
  {
    assert t != "";
    if t[0] != '-' {
      assert t[..LeadingDigits(t)][0] in t[..LeadingDigits(t)];
    }
  }

  lemma ReadAsNumber(float: FloatReader, t: string)
    requires t != "" && (IsDigit(t[0]) || t[0] == '-')
    ensures ReadValue(float, t) == ReadNumber(float, t)
  {
    hide ReadNumber;
    assert !("null" <= t) && !("true" <= t) && !("false" <= t);
  }

  lemma IntegerRead(float: FloatReader, i: int, x: string)
    requires Follow(x)
    ensures ReadValue(float, Integer(i) + x) == Got(JInt(i), x)
  {
    IntegerText(i);
    hide Integer, IsNumberText, IntegerValue, Token, ReadValue;
    var text := Integer(i);
    NumberHead(text);
    TokenStops(text, x);
    assert (text + x)[0] == text[0] && (text + x)[|text|..] == x;
    ReadAsNumber(float, text + x);
  }

  lemma FloatRead(float: FloatReader, text: string, r: real, x: string)
    requires IsFloatText(text) && float(text) == Some(r) && Follow(x)
    ensures ReadValue(float, text + x) == Got(JReal(r), x)
  {
    hide IsNumberText, IntegerValue, Token, ReadValue;
    NumberHead(text);
    TokenStops(text, x);
    assert (text + x)[0] == text[0] && (text + x)[|text|..] == x;
    ReadAsNumber(float, text + x);
  }

  // ----- Lists and objects: the text of the first entry, then the text of the others -----

  /** The text after the first item: the end of the list, or a comma and the other items. */
  function Others(repr: real -> string, items: seq<Json>, x: string): string
    requires items != []
  {
    if |items| == 1 then "]" + x else "," + (PrintItems(repr, items[1..]) + "]" + x)
  }

  function OtherFields(repr: real -> string, keys: seq<string>, j: Json, x: string): string
    requires keys != [] && j.JObj? && forall k :: k in keys ==> k in j.fields
  {
    if |keys| == 1 then "}" + x else "," + (PrintFields(repr, keys[1..], j) + "}" + x)
  }

  lemma ItemsSplit(repr: real -> string, items: seq<Json>, x: string)
    requires items != []
    ensures PrintItems(repr, items) + "]" + x == Print(repr, items[0]) + Others(repr, items, x)
  {
    hide Print;
    if |items| > 1 {
      MoreItems(Print(repr, items[0]), PrintItems(repr, items[1..]), x);
    }
  }

  lemma FieldsSplit(repr: real -> string, keys: seq<string>, j: Json, x: string)
    requires keys != [] && j.JObj? && forall k :: k in keys ==> k in j.fields
    ensures PrintFields(repr, keys, j) + "}" + x
         == Quoted(keys[0]) + (":" + (Print(repr, j.fields[keys[0]]) + OtherFields(repr, keys, j, x)))
  {
    hide Print, Quoted;
    if |keys| == 1 {
      LastField(Quoted(keys[0]), Print(repr, j.fields[keys[0]]), x);
    } else {
      MoreFields(Quoted(keys[0]), Print(repr, j.fields[keys[0]]), PrintFields(repr, keys[1..], j), x);
    }
  }

  predicate Ascending(names: seq<string>) {
    forall i :: 0 < i < |names| ==> Precedes(names[i - 1], names[i])
  }

  lemma SortedKeysHead(keys: set<string>)
    requires keys != {}
    ensures var ks := SortedKeys(keys); Least(ks[0], keys) && ks[1..] == SortedKeys(keys - {ks[0]})
  {
    hide Least, StringLe;
  }

  /** The names come in code point order. */
  lemma {:induction false} SortedKeysAscend(keys: set<string>)
    ensures Ascending(SortedKeys(keys))
  {
    hide StringLe, Precedes;
    if keys != {} {
      var ks := SortedKeys(keys);
      SortedKeysHead(keys);
      SortedKeysAscend(keys - {ks[0]});
      if |ks| > 1 {
        assert ks[1] == ks[1..][0] && ks[1] in keys - {ks[0]};
        StringLePrecedes(ks[0], ks[1]);
      }
      forall i | 0 < i < |ks| ensures Precedes(ks[i - 1], ks[i]) {
        if i > 1 {
          assert ks[i - 1] == ks[1..][i - 2] && ks[i] == ks[1..][i - 1];
        }
      }
    }
  }

  // ----- Values are read back -----

  lemma ValueHead(repr: real -> string, floats: iset<real>, float: FloatReader, j: Json)
    requires ReadsBack(repr, floats, float) && Within(j, floats)
    ensures Print(repr, j) != [] && Print(repr, j)[0] !in ",]}"
  {
    hide Integer, IsNumberText, IntegerValue;
    if j.JInt? {
      IntegerText(j.i);
      NumberHead(Print(repr, j));
    } else if j.JReal? {
      NumberHead(Print(repr, j));
    }
  }

  /** The text of a value can be read off the front of any text in which a separator or the end
      follows it. */
  lemma {:induction false} ValueRead(repr: real -> string, floats: iset<real>, float: FloatReader, j: Json, x: string)
    requires ReadsBack(repr, floats, float) && Within(j, floats) && Follow(x)
    ensures ReadValue(float, Print(repr, j) + x) == Got(j, x)
    decreases j, 2
  {
    hide Integer, IsFloatText, Quoted, ReadString, ReadNumber;
    match j
    case JNull => assert ("null" + x)[..4] == "null" && ("null" + x)[4..] == x;
    case JBool(b) =>
      assert ("true" + x)[..4] == "true" && ("true" + x)[4..] == x;
      assert ("false" + x)[..5] == "false" && ("false" + x)[5..] == x;
      assert ("false" + x)[0] == 'f' && ("true" + x)[0] == 't';
    case JInt(i) => IntegerRead(float, i, x);
    case JReal(r) => FloatRead(float, repr(r), r, x);
    case JStr(s) => StringRead(float, s, x);
    case JArr(_) => ArrayRead(repr, floats, float, j, x);
    case JObj(_) => ObjectRead(repr, floats, float, j, x);
  }

  lemma StringRead(float: FloatReader, s: string, x: string)
    ensures ReadValue(float, Quoted(s) + x) == Got(JStr(s), x)
  {
    QuotedRead(s, x);
    var t := Quoted(s) + x;
    assert t[0] == Quoted(s)[0] == '"';
    hide Quoted, ReadString;
  }

  lemma BracketRead(float: FloatReader, inner: string, items: seq<Json>, x: string)
    requires inner != "" && inner[0] != ']' && ReadItems(float, inner) == Got(items, x)
    ensures ReadValue(float, "[" + inner) == Got(JArr(items), x)
  {
    hide ReadNumber, ReadString, ReadMembers, ReadItems;
    var t := "[" + inner;
    assert t[0] == '[' && t[1] == inner[0] && t[1..] == inner;
  }

  lemma {:induction false} ArrayRead(repr: real -> string, floats: iset<real>, float: FloatReader, j: Json, x: string)
    requires ReadsBack(repr, floats, float) && Within(j, floats) && j.JArr?
    ensures ReadValue(float, Print(repr, j) + x) == Got(j, x)
    decreases j, 1
  {
    hide ReadNumber, ReadString, ReadMembers, ReadItems, PrintItems;
    var text := PrintItems(repr, j.items);
    var inner := text + "]" + x;
    Regroup("[", text, "]", x);
    assert Print(repr, j) + x == "[" + inner;
    if j.items == [] {
      NoItems(repr);
      assert ("[" + inner)[1] == ']' && ("[" + inner)[2..] == x;
    } else {
      ItemsSplit(repr, j.items, x);
      ValueHead(repr, floats, float, j.items[0]);
      assert inner[0] == Print(repr, j.items[0])[0];
      ItemsRead(repr, floats, float, j, j.items, x);
      BracketRead(float, inner, j.items, x);
    }
  }

  lemma NoItems(repr: real -> string)
    ensures PrintItems(repr, []) == ""
  {
  }

  lemma {:induction false} ItemsRead(repr: real -> string, floats: iset<real>, float: FloatReader, j: Json,
                                     items: seq<Json>, x: string)
    requires ReadsBack(repr, floats, float) && items != []
    requires forall i :: 0 <= i < |items| ==> Within(items[i], floats) && items[i] < j
    ensures ReadItems(float, PrintItems(repr, items) + "]" + x) == Got(items, x)
    decreases j, 0, |items|
  {
    hide ReadsBack, Within, ReadValue, Print, PrintItems;
    var others := Others(repr, items, x);
    ItemsSplit(repr, items, x);
    ValueRead(repr, floats, float, items[0], others);
    if |items| == 1 {
      assert others[1..] == x;
      assert items == [items[0]];
    } else {
      assert others[1..] == PrintItems(repr, items[1..]) + "]" + x;
      ItemsRead(repr, floats, float, j, items[1..], x);
      assert items == [items[0]] + items[1..];
    }
  }

  function Chosen(j: Json, keys: seq<string>): map<string, Json>
    requires j.JObj? && forall k :: k in keys ==> k in j.fields
  {
    map k | k in keys :: j.fields[k]
  }

  lemma BraceRead(float: FloatReader, inner: string, fields: map<string, Json>, x: string)
    requires inner != "" && inner[0] != '}' && ReadMembers(float, None, inner) == Got(fields, x)
    ensures ReadValue(float, "{" + inner) == Got(JObj(fields), x)
  {
    hide ReadNumber, ReadString, ReadMembers, ReadItems;
    var t := "{" + inner;
    assert t[0] == '{' && t[1] == inner[0] && t[1..] == inner;
  }

  lemma EmptyObjectRead(repr: real -> string, float: FloatReader, x: string)
    ensures ReadValue(float, Print(repr, JObj(map[])) + x) == Got(JObj(map[]), x)
  {
    hide ReadNumber, ReadString, ReadMembers, ReadItems;
    var t := Print(repr, JObj(map[])) + x;
    assert SortedKeys({}) == [];
    assert t == "{}" + x && t[1] == '}' && t[2..] == x;
  }

  lemma ObjectText(repr: real -> string, j: Json, x: string)
    requires j.JObj?
    ensures Print(repr, j) + x == "{" + (PrintFields(repr, SortedKeys(j.fields.Keys), j) + "}" + x)
  {
    hide PrintFields, SortedKeys;
    Regroup("{", PrintFields(repr, SortedKeys(j.fields.Keys), j), "}", x);
  }

  lemma AllChosen(j: Json)
    requires j.JObj?
    ensures Chosen(j, SortedKeys(j.fields.Keys)) == j.fields
  {
    hide SortedKeys;
  }

  lemma {:induction false} ObjectRead(repr: real -> string, floats: iset<real>, float: FloatReader, j: Json, x: string)
    requires ReadsBack(repr, floats, float) && Within(j, floats) && j.JObj?
    ensures ReadValue(float, Print(repr, j) + x) == Got(j, x)
    decreases j, 1
  {
    hide ReadValue, ReadMembers, Print, PrintFields, Quoted, Precedes, Chosen, SortedKeys, Ascending, OtherFields;
    hide ReadsBack, Within;
    if j.fields == map[] {
      EmptyObjectRead(repr, float, x);
    } else {
      var keys := SortedKeys(j.fields.Keys);
      var inner := PrintFields(repr, keys, j) + "}" + x;
      var k :| k in j.fields;
      assert k in keys;
      FieldsSplit(repr, keys, j, x);
      QuotedHead(keys[0]);
      assert inner[0] == Quoted(keys[0])[0];
      SortedKeysAscend(j.fields.Keys);
      FieldsRead(repr, floats, float, j, keys, None, x);
      AllChosen(j);
      BraceRead(float, inner, j.fields, x);
      ObjectText(repr, j, x);
    }
  }

  lemma QuotedHead(s: string)
    ensures Quoted(s) != "" && Quoted(s)[0] == '"'
  {
  }

  lemma {:induction false} FieldsRead(repr: real -> string, floats: iset<real>, float: FloatReader, j: Json,
                                      keys: seq<string>, previous: Option<string>, x: string)
    requires ReadsBack(repr, floats, float) && Within(j, floats) && j.JObj? && keys != []
    requires Ascending(keys) && (previous.Some? ==> Precedes(previous.value, keys[0]))
    requires forall k :: k in keys ==> k in j.fields
    ensures ReadMembers(float, previous, PrintFields(repr, keys, j) + "}" + x) == Got(Chosen(j, keys), x)
    decreases j, 0, |keys|
  {
    hide ReadsBack, ReadValue, ReadString, Print, PrintFields, Precedes, Quoted;
    var others := OtherFields(repr, keys, j, x);
    var value := Print(repr, j.fields[keys[0]]) + others;
    FieldsSplit(repr, keys, j, x);
    QuotedRead(keys[0], ":" + value);
    assert (":" + value)[1..] == value;
    ValueRead(repr, floats, float, j.fields[keys[0]], others);
    if |keys| == 1 {
      assert others[1..] == x;
      assert Chosen(j, keys) == map[keys[0] := j.fields[keys[0]]];
    } else {
      assert others[1..] == PrintFields(repr, keys[1..], j) + "}" + x;
      FieldsRead(repr, floats, float, j, keys[1..], Some(keys[0]), x);
      assert Chosen(j, keys) == Chosen(j, keys[1..])[keys[0] := j.fields[keys[0]]];
    }
  }

  /** The canonical text is compact JSON with sorted names, and what it says is the value. */
  lemma CanonicalTextReads(repr: real -> string, floats: iset<real>, float: FloatReader, j: Json)
    requires ReadsBack(repr, floats, float) && Within(j, floats)
    ensures ReadText(float, Print(repr, j)) == Some(j)
  {
    ValueRead(repr, floats, float, j, "");
    assert Print(repr, j) + "" == Print(repr, j);
  }

  /** A reader for the floats in play. */
  ghost function Inverse(repr: real -> string, floats: iset<real>): FloatReader {
    (text: string) => if exists r :: r in floats && repr(r) == text then (var r :| r in floats && repr(r) == text; Some(r)) else None
  }

  /** Equal canonical texts are texts of equal values, and conversely. */
  lemma CanonicalTextDetermines(repr: real -> string, floats: iset<real>, a: Json, b: Json)
    requires FaithfulFloats(repr, floats) && Within(a, floats) && Within(b, floats)
    ensures Print(repr, a) == Print(repr, b) <==> a == b
  {
    hide Print, ReadText, IsFloatText, Within;
    var float := Inverse(repr, floats);
    CanonicalTextReads(repr, floats, float, a);
    CanonicalTextReads(repr, floats, float, b);
  }

  // ----- The text is ASCII -----

  /** Printable ASCII. */
  predicate Ascii(s: string) {
    forall c :: c in s ==> ' ' <= c <= '~'
  }

  lemma EscapeAscii(c: char)
    ensures Ascii(Escape(c))
  {
    hide Hex4;
    var n := c as int;
    if !Plain(c) && n < 0x10000 {
      Hex4Ascii(n);
    } else if !Plain(c) {
      Hex4Ascii(0xd800 + (n - 0x10000) / 0x400);
      Hex4Ascii(0xdc00 + (n - 0x10000) % 0x400);
    }
  }

  lemma Hex4Ascii(n: nat)
    requires n < 0x10000
    ensures Ascii(Hex4(n))
  {
  }

  lemma {:induction false} QuotedAscii(s: string)
    ensures Ascii(EscapeAll(s)) && Ascii(Quoted(s))
  {
    hide Escape;
    if s != [] {
      EscapeAscii(s[0]);
      QuotedAscii(s[1..]);
    }
  }

  /** Whatever characters the strings hold, the text is printable ASCII, so its UTF-8 encoding is
      one byte a character. */
  lemma {:induction false} CanonicalTextIsAscii(repr: real -> string, floats: iset<real>, j: Json)
    requires FaithfulFloats(repr, floats) && Within(j, floats)
    ensures Ascii(Print(repr, j))
    decreases j, 1
  {
    hide Quoted, Integer, IsFloatText;
    match j
    case JNull =>
    case JBool(_) =>
    case JInt(i) => IntegerAscii(i);
    case JReal(r) => FloatAscii(repr(r));
    case JStr(s) => QuotedAscii(s);
    case JArr(items) => ItemsAscii(repr, floats, items);
    case JObj(fields) => FieldsAscii(repr, floats, SortedKeys(fields.Keys), j);
  }

  lemma IntegerAscii(i: int)
    ensures Ascii(Integer(i))
  {
    IntegerText(i);
    hide Integer, IsIntegerText, IntegerValue;
    assert forall c :: TokenChar(c) ==> ' ' <= c <= '~';
  }

  lemma FloatAscii(s: string)
    requires IsFloatText(s)
    ensures Ascii(s)
  {
  }

  lemma {:induction false} ItemsAscii(repr: real -> string, floats: iset<real>, items: seq<Json>)
    requires FaithfulFloats(repr, floats) && forall i :: 0 <= i < |items| ==> Within(items[i], floats)
    ensures Ascii(PrintItems(repr, items))
    decreases items, |items|
  {
    hide FaithfulFloats, Within;
    if items != [] {
      CanonicalTextIsAscii(repr, floats, items[0]);
      ItemsAscii(repr, floats, items[1..]);
    }
  }

  lemma {:induction false} FieldsAscii(repr: real -> string, floats: iset<real>, keys: seq<string>, j: Json)
    requires FaithfulFloats(repr, floats) && Within(j, floats) && j.JObj?
    requires forall k :: k in keys ==> k in j.fields
    ensures Ascii(PrintFields(repr, keys, j))
    decreases j, 0, |keys|
  {
    hide FaithfulFloats, Quoted;
    if keys != [] {
      QuotedAscii(keys[0]);
      CanonicalTextIsAscii(repr, floats, j.fields[keys[0]]);
      FieldsAscii(repr, floats, keys[1..], j);
    }
  }
}
