/** The canonical text itself, code unit by code unit: what `Encode` writes for every value, said
    with the literal code units of section 3.2 of RFC 8785 and section 2 of RFC 8259. */
module JsonText {
  import opened Texts
  import opened CanonicalJson

  /** The parts with a comma (44) between each two. */
  function Joined(parts: seq<Text>): Text {
    if parts == [] then [] else if |parts| == 1 then parts[0] else parts[0] + [44] + Joined(parts[1..])
  }

  // ---------------------------------------------------------------- strings

  /** The letter after the backslash of a short escape. */
  const SHORT_ESCAPES: map<CodeUnit, CodeUnit> :=
    map[8 := 98, 9 := 116, 10 := 110, 12 := 102, 13 := 114, 34 := 34, 92 := 92]

  predicate IsLowerHex(c: CodeUnit) { 48 <= c <= 57 || 97 <= c <= 102 }

  function LowerHexValue(c: CodeUnit): int { if c <= 57 then c - 48 else c - 97 + 10 }

  /** How one code unit is written: a short escape, `\u` and four lower-case hex digits for other
      control characters and lone surrogates, or itself. */
  predicate UnitSpelled(c: CodeUnit, t: Text) {
    if c in SHORT_ESCAPES then t == [92, SHORT_ESCAPES[c]]
    else if c < 32 || 0xD800 <= c < 0xE000 then
      && |t| == 6 && t[0] == 92 && t[1] == 117
      && (forall k :: 2 <= k < 6 ==> IsLowerHex(t[k]))
      && c == 4096 * LowerHexValue(t[2]) + 256 * LowerHexValue(t[3]) + 16 * LowerHexValue(t[4]) + LowerHexValue(t[5])
    else t == [c]
  }

  /** Text t is the inside of the literal of s: unit by unit, with a surrogate pair left as it is. */
  predicate Spelled(s: Text, t: Text)
    decreases |s|
  {
    if s == [] then t == []
    else if |s| > 1 && 0xD800 <= s[0] < 0xDC00 && 0xDC00 <= s[1] < 0xE000 then
      |t| >= 2 && t[..2] == s[..2] && Spelled(s[2..], t[2..])
    else exists n :: 0 <= n <= |t| && UnitSpelled(s[0], t[..n]) && Spelled(s[1..], t[n..])
  }

  lemma HexDigitText(d: int)
    requires 0 <= d < 16
    ensures IsLowerHex(HexDigit(d)) && LowerHexValue(HexDigit(d)) == d
  {}

  lemma Hex4Text(c: CodeUnit)
    ensures var t := [92, 117] + Hex4(c);
      && |t| == 6 && (forall k :: 2 <= k < 6 ==> IsLowerHex(t[k]))
      && c == 4096 * LowerHexValue(t[2]) + 256 * LowerHexValue(t[3]) + 16 * LowerHexValue(t[4]) + LowerHexValue(t[5])
  {
    HexSplit(c);
    HexDigitText(c / 4096);
    HexDigitText(c / 256 % 16);
    HexDigitText(c / 16 % 16);
    HexDigitText(c % 16);
    hide HexDigit;
    hide IsLowerHex;
    hide LowerHexValue;
  }

  lemma UnitText(c: CodeUnit)
    ensures UnitSpelled(c, EscapeUnit(c))
  {
    Hex4Text(c);
    hide Hex4;
    hide IsLowerHex;
    hide LowerHexValue;
  }

  lemma {:induction false} EscapeSpells(s: Text)
    ensures Spelled(s, Escape(s))
    decreases |s|
  {
    hide UnitSpelled;
    hide EscapeUnit;
    var t := Escape(s);
    if s == [] {
    } else if |s| > 1 && IsHigh(s[0]) && IsLow(s[1]) {
      EscapeSpells(s[2..]);
      assert t[..2] == s[..2] && t[2..] == Escape(s[2..]);
    } else {
      EscapeSpells(s[1..]);
      UnitText(s[0]);
      var n := |EscapeUnit(s[0])|;
      assert t[..n] == EscapeUnit(s[0]) && t[n..] == Escape(s[1..]);
    }
  }

  /** A string is its spelling between two quotes (34). */
  lemma StringText(s: Text)
    ensures var t := Encode(Str(s));
      |t| >= 2 && t[0] == 34 && t[|t| - 1] == 34 && Spelled(s, t[1..|t| - 1])
  {
    EscapeSpells(s);
    assert Encode(Str(s))[1..|Encode(Str(s))| - 1] == Escape(s);
  }

  // ---------------------------------------------------------------- numbers and literals

  /** The number that a row of decimal digits (48 to 57) stands for. */
  function DecimalValue(t: Text): int {
    if t == [] then 0 else 10 * DecimalValue(t[..|t| - 1]) + t[|t| - 1] as int - 48
  }

  predicate AreDigits(t: Text) { t != [] && forall k :: 0 <= k < |t| ==> 48 <= t[k] <= 57 }

  lemma {:induction false} DigitsText(n: nat)
    ensures AreDigits(Digits(n)) && DecimalValue(Digits(n)) == n
    ensures Digits(n)[0] == 48 ==> n == 0 && |Digits(n)| == 1
  {
    if n < 10 {
      assert Digits(n)[..0] == [];
    } else {
      DigitsText(n / 10);
      assert Digits(n)[..|Digits(n)| - 1] == Digits(n / 10);
    }
  }

  /** An integer is its decimal digits without leading zeros, after a minus sign (45) if it is negative. */
  lemma NumberText(n: int)
    requires Safe(n)
    ensures var t := Encode(Num(n));
      var digits := if n < 0 then t[1..] else t;
      && (n < 0 ==> t[0] == 45)
      && AreDigits(digits) && DecimalValue(digits) == (if n < 0 then -n else n)
      && (digits[0] == 48 ==> n == 0 && |digits| == 1)
  {
    DigitsText(if n < 0 then -n else n);
    assert n < 0 ==> Encode(Num(n))[1..] == Digits(-n);
  }

  lemma LiteralText()
    ensures Encode(Null) == Lit("null") && Encode(Bool(true)) == Lit("true") && Encode(Bool(false)) == Lit("false")
  {}

  // ---------------------------------------------------------------- arrays and objects

  function ItemTexts(items: seq<Json>): (parts: seq<Text>)
    requires forall i :: 0 <= i < |items| ==> Canonical(items[i])
  {
    seq(|items|, i requires 0 <= i < |items| => Encode(items[i]))
  }

  lemma {:induction false} ItemsJoin(parent: Json, items: seq<Json>)
    requires forall i :: 0 <= i < |items| ==> items[i] < parent && Canonical(items[i])
    requires items != []
    ensures EncodeItems(parent, items) == Joined(ItemTexts(items))
    decreases |items|
  {
    hide Encode;
    if |items| > 1 {
      ItemsJoin(parent, items[1..]);
      assert ItemTexts(items)[1..] == ItemTexts(items[1..]);
    }
  }

  /** An array is the texts of its items in order, joined by commas, between brackets (91, 93). */
  lemma ArrayText(items: seq<Json>)
    requires Canonical(Arr(items))
    ensures Encode(Arr(items)) == [91] + Joined(ItemTexts(items)) + [93]
  {
    if items != [] { ItemsJoin(Arr(items), items); }
  }

  /** The quoted key, a colon (58), the text of the value. */
  function FieldTexts(fields: map<Text, Json>, keys: seq<Text>): (parts: seq<Text>)
    requires forall k :: k in keys ==> k in fields && Canonical(fields[k])
  {
    seq(|keys|, i requires 0 <= i < |keys| => Encode(Str(keys[i])) + [58] + Encode(fields[keys[i]]))
  }

  lemma FieldText(parent: Json, k: Text, v: Json)
    requires v < parent && Canonical(v)
    ensures EncodeField(parent, k, v) == Encode(Str(k)) + [58] + Encode(v)
  {
    hide Escape;
    assert Encode(Str(k)) == Quote(k);
  }

  lemma {:induction false} FieldsJoin(parent: Json, fields: map<Text, Json>, keys: seq<Text>)
    requires forall k :: k in fields ==> fields[k] < parent && Canonical(fields[k])
    requires forall k :: k in keys ==> k in fields
    requires keys != []
    ensures EncodeFields(parent, fields, keys) == Joined(FieldTexts(fields, keys))
    decreases |keys|
  {
    hide Encode;
    hide EncodeField;
    FieldText(parent, keys[0], fields[keys[0]]);
    if |keys| > 1 {
      FieldsJoin(parent, fields, keys[1..]);
      assert FieldTexts(fields, keys)[1..] == FieldTexts(fields, keys[1..]);
    }
  }

  /** An object is its fields in the order of their keys' code units, joined by commas, between braces
      (123, 125). */
  lemma ObjectText(fields: map<Text, Json>, keys: seq<Text>)
    requires Canonical(Obj(fields)) && Lists(keys, fields.Keys)
    ensures Encode(Obj(fields)) == [123] + Joined(FieldTexts(fields, keys)) + [125]
  {
    SortedKeysListed(fields.Keys, keys);
    hide SortedKeys;
    hide Lists;
    if fields.Keys == {} {
      assert keys == [];
    } else {
      FieldsJoin(Obj(fields), fields, keys);
      hide EncodeFields;
    }
  }

  /** Every object has such a text. */
  lemma ObjectHasText(fields: map<Text, Json>) returns (keys: seq<Text>)
    requires Canonical(Obj(fields))
    ensures Lists(keys, fields.Keys)
    ensures Encode(Obj(fields)) == [123] + Joined(FieldTexts(fields, keys)) + [125]
  {
    keys := SortedKeys(fields.Keys);
    SortedKeysListed(fields.Keys, keys);
    ObjectText(fields, keys);
    hide Encode;
  }
}
