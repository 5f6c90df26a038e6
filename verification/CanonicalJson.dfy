/** Canonical JSON (packages/core/src/canonical-json.ts): the encoder, a parser for the same
    value space, and the proof that the first loses nothing. Keys sort as in section 3.2.3 of
    RFC 8785; strings follow section 7 of RFC 8259. */
module CanonicalJson {
  import opened Texts

  const MAX_SAFE: int := 0x1F_FFFF_FFFF_FFFF

  predicate Safe(n: int) { -MAX_SAFE <= n <= MAX_SAFE }

  /** A JavaScript value as the encoder meets it. A plain object is a map: its property order
      cannot reach the output. `NotJson` stands for every leaf the encoder refuses by kind
      (a fraction, a non-finite number, -0, bigint, undefined, function, symbol). */
  datatype Json =
    | Null
    | Bool(b: bool)
    | Num(n: int)
    | Str(s: Text)
    | Arr(items: seq<Json>)
    | Obj(fields: map<Text, Json>)
    | NotJson

  /** No leaf for which `assertCanonicalLeaf` throws. */
  predicate Canonical(v: Json) {
    match v
    case Num(n) => Safe(n)
    case Arr(items) => forall i :: 0 <= i < |items| ==> Canonical(items[i])
    case Obj(fields) => forall k :: k in fields ==> Canonical(fields[k])
    case NotJson => false
    case _ => true
  }

  // ---------------------------------------------------------------- encoder

  const NULL: Text := [110, 117, 108, 108]
  const TRUE: Text := [116, 114, 117, 101]
  const FALSE: Text := [102, 97, 108, 115, 101]
  const QUOTE: CodeUnit := 34
  const COMMA: CodeUnit := 44
  const MINUS: CodeUnit := 45
  const ZERO: CodeUnit := 48
  const COLON: CodeUnit := 58
  const OPEN_ARR: CodeUnit := 91
  const BACKSLASH: CodeUnit := 92
  const CLOSE_ARR: CodeUnit := 93
  const LOWER_U: CodeUnit := 117
  const OPEN_OBJ: CodeUnit := 123
  const CLOSE_OBJ: CodeUnit := 125

  predicate IsHigh(c: CodeUnit) { 0xD800 <= c < 0xDC00 }
  predicate IsLow(c: CodeUnit) { 0xDC00 <= c < 0xE000 }
  predicate IsDigit(c: CodeUnit) { 48 <= c < 58 }

  function HexDigit(d: int): CodeUnit
    requires 0 <= d < 16
  {
    if d < 10 then 48 + d else 87 + d
  }

  function Hex4(c: CodeUnit): Text {
    [HexDigit(c / 4096), HexDigit(c / 256 % 16), HexDigit(c / 16 % 16), HexDigit(c % 16)]
  }

  /** One code unit of a string literal that is not half of a surrogate pair. */
  function EscapeUnit(c: CodeUnit): Text {
    if c == 8 then [BACKSLASH, 98]
    else if c == 9 then [BACKSLASH, 116]
    else if c == 10 then [BACKSLASH, 110]
    else if c == 12 then [BACKSLASH, 102]
    else if c == 13 then [BACKSLASH, 114]
    else if c == QUOTE || c == BACKSLASH then [BACKSLASH, c]
    else if c < 32 || IsHigh(c) || IsLow(c) then [BACKSLASH, LOWER_U] + Hex4(c)
    else [c]
  }

  /** The inside of `JSON.stringify` of a string: a lone surrogate is escaped, a pair is not. */
  function Escape(s: Text): Text {
    if s == [] then []
    else if IsHigh(s[0]) && |s| > 1 && IsLow(s[1]) then [s[0], s[1]] + Escape(s[2..])
    else EscapeUnit(s[0]) + Escape(s[1..])
  }

  function Quote(s: Text): Text {
    [QUOTE] + Escape(s) + [QUOTE]
  }

  function Digits(n: nat): Text {
    if n < 10 then [ZERO + n] else Digits(n / 10) + [ZERO + n % 10]
  }

  function Decimal(n: int): Text {
    if n < 0 then [MINUS] + Digits(-n) else Digits(n)
  }

  function Encode(v: Json): Text
    requires Canonical(v)
    decreases v, 1, 0
  {
    match v
    case Null => NULL
    case Bool(b) => if b then TRUE else FALSE
    case Num(n) => Decimal(n)
    case Str(s) => Quote(s)
    case Arr(items) =>
      if items == [] then [OPEN_ARR, CLOSE_ARR]
      else [OPEN_ARR] + EncodeItems(v, items) + [CLOSE_ARR]
    case Obj(fields) =>
      if fields.Keys == {} then [OPEN_OBJ, CLOSE_OBJ]
      else [OPEN_OBJ] + EncodeFields(v, fields, SortedKeys(fields.Keys)) + [CLOSE_OBJ]
  }

  function EncodeItems(ghost parent: Json, items: seq<Json>): Text
    requires forall i :: 0 <= i < |items| ==> items[i] < parent && Canonical(items[i])
    requires items != []
    decreases parent, 0, |items|
  {
    if |items| == 1 then Encode(items[0])
    else Encode(items[0]) + [COMMA] + EncodeItems(parent, items[1..])
  }

  function EncodeField(ghost parent: Json, k: Text, v: Json): Text
    requires v < parent && Canonical(v)
    decreases parent, 0, 0
  {
    Quote(k) + [COLON] + Encode(v)
  }

  function EncodeFields(ghost parent: Json, fields: map<Text, Json>, keys: seq<Text>): Text
    requires forall k :: k in fields ==> fields[k] < parent && Canonical(fields[k])
    requires forall k :: k in keys ==> k in fields
    requires keys != []
    decreases parent, 0, |keys|
  {
    if |keys| == 1 then EncodeField(parent, keys[0], fields[keys[0]])
    else EncodeField(parent, keys[0], fields[keys[0]]) + [COMMA] + EncodeFields(parent, fields, keys[1..])
  }

  // ---------------------------------------------------------------- parser

  datatype Parsed<T> = Fail | Done(value: T, rest: Text)

  predicate IsSpace(c: CodeUnit) { c == 32 || c == 9 || c == 10 || c == 13 }

  function SkipSpace(t: Text): (r: Text)
    ensures |r| <= |t|
  {
    if t != [] && IsSpace(t[0]) then SkipSpace(t[1..]) else t
  }

  function HexValue(c: CodeUnit): int {
    if IsDigit(c) then c - 48
    else if 97 <= c < 103 then c - 87
    else if 65 <= c < 71 then c - 55
    else -1
  }

  function Prepend(c: CodeUnit, p: Parsed<Text>): Parsed<Text> {
    match p
    case Fail => Fail
    case Done(s, rest) => Done([c] + s, rest)
  }

  /** What follows the opening quote of a string literal. */
  function ParseString(t: Text): (r: Parsed<Text>)
    ensures r.Done? ==> |r.rest| < |t|
  {
    if t == [] then Fail
    else if t[0] == QUOTE then Done([], t[1..])
    else if t[0] == BACKSLASH then
      if |t| < 2 then Fail
      else if t[1] == QUOTE || t[1] == BACKSLASH || t[1] == 47 then Prepend(t[1], ParseString(t[2..]))
      else if t[1] == 98 then Prepend(8, ParseString(t[2..]))
      else if t[1] == 102 then Prepend(12, ParseString(t[2..]))
      else if t[1] == 110 then Prepend(10, ParseString(t[2..]))
      else if t[1] == 114 then Prepend(13, ParseString(t[2..]))
      else if t[1] == 116 then Prepend(9, ParseString(t[2..]))
      else if t[1] == LOWER_U && |t| >= 6 && (forall i :: 2 <= i < 6 ==> HexValue(t[i]) >= 0) then
        Prepend(HexValue(t[2]) * 4096 + HexValue(t[3]) * 256 + HexValue(t[4]) * 16 + HexValue(t[5]),
                ParseString(t[6..]))
      else Fail
    else if t[0] < 32 then Fail
    else Prepend(t[0], ParseString(t[1..]))
  }

  function ParseDigits(t: Text, acc: nat): (r: (nat, Text))
    ensures |r.1| <= |t|
  {
    if t != [] && IsDigit(t[0]) then ParseDigits(t[1..], acc * 10 + (t[0] - ZERO)) else (acc, t)
  }

  /** An integer literal. Literals with a fraction or an exponent are outside this parser. */
  function ParseNumber(t: Text): (r: Parsed<Json>)
    requires t != []
    ensures r.Done? ==> |r.rest| < |t|
  {
    var negative := t[0] == MINUS;
    var u := if negative then t[1..] else t;
    if u == [] || !IsDigit(u[0]) then Fail
    else
      var (n: int, rest) := if u[0] == ZERO then (0, u[1..]) else ParseDigits(u[1..], u[0] - ZERO);
      if rest != [] && rest[0] in {46, 69, 101} then Fail
      else if negative && n == 0 then Done(NotJson, rest)
      else Done(Num(if negative then -n else n), rest)
  }

  function ParseValue(text: Text): (r: Parsed<Json>)
    ensures r.Done? ==> |r.rest| < |text|
    decreases |text|, 1
  {
    var t := SkipSpace(text);
    if t == [] then Fail
    else if t[0] == QUOTE then
      match ParseString(t[1..])
      case Fail => Fail
      case Done(s, rest) => Done(Str(s), rest)
    else if t[0] == OPEN_ARR then
      var u := SkipSpace(t[1..]);
      if u != [] && u[0] == CLOSE_ARR then Done(Arr([]), u[1..])
      else
        match ParseItems(t[1..])
        case Fail => Fail
        case Done(items, rest) => Done(Arr(items), rest)
    else if t[0] == OPEN_OBJ then
      var u := SkipSpace(t[1..]);
      if u != [] && u[0] == CLOSE_OBJ then Done(Obj(map[]), u[1..])
      else
        match ParseFields(t[1..])
        case Fail => Fail
        case Done(fields, rest) => Done(Obj(fields), rest)
    else if NULL <= t then Done(Null, t[4..])
    else if TRUE <= t then Done(Bool(true), t[4..])
    else if FALSE <= t then Done(Bool(false), t[5..])
    else ParseNumber(t)
  }

  function ParseItems(t: Text): (r: Parsed<seq<Json>>)
    ensures r.Done? ==> |r.rest| < |t|
    decreases |t|, 2
  {
    match ParseValue(t)
    case Fail => Fail
    case Done(v, rest) =>
      var u := SkipSpace(rest);
      if u == [] then Fail
      else if u[0] == CLOSE_ARR then Done([v], u[1..])
      else if u[0] == COMMA then
        match ParseItems(u[1..])
        case Fail => Fail
        case Done(items, last) => Done([v] + items, last)
      else Fail
  }

  /** `key : value`, the part of an object literal between two commas. */
  function ParseField(t: Text): (r: Parsed<(Text, Json)>)
    ensures r.Done? ==> |r.rest| < |t|
    decreases |t|, 2
  {
    var u := SkipSpace(t);
    if u == [] || u[0] != QUOTE then Fail
    else
      match ParseString(u[1..])
      case Fail => Fail
      case Done(key, afterKey) =>
        var w := SkipSpace(afterKey);
        if w == [] || w[0] != COLON then Fail
        else
          match ParseValue(w[1..])
          case Fail => Fail
          case Done(v, rest) => Done((key, v), rest)
  }

  /** A key that comes twice keeps its last value, as in `JSON.parse`. */
  function ParseFields(t: Text): (r: Parsed<map<Text, Json>>)
    ensures r.Done? ==> |r.rest| < |t|
    decreases |t|, 3
  {
    match ParseField(t)
    case Fail => Fail
    case Done(field, rest) =>
      var u := SkipSpace(rest);
      if u == [] then Fail
      else if u[0] == CLOSE_OBJ then Done(map[field.0 := field.1], u[1..])
      else if u[0] == COMMA then
        match ParseFields(u[1..])
        case Fail => Fail
        case Done(fields, last) => Done(map[field.0 := field.1] + fields, last)
      else Fail
  }

  datatype ParseResult = Value(v: Json) | SyntaxError

  /** `JSON.parse`, on texts whose numbers are integer literals. */
  function Parse(t: Text): ParseResult {
    match ParseValue(t)
    case Done(v, rest) => if SkipSpace(rest) == [] then Value(v) else SyntaxError
    case Fail => SyntaxError
  }

  // ---------------------------------------------------------------- round trip

  /** Where a value may end inside an encoding. */
  predicate Stops(rest: Text) {
    rest == [] || rest[0] == COMMA || rest[0] == CLOSE_ARR || rest[0] == CLOSE_OBJ
  }

  lemma HexDigitRoundTrip(d: int)
    requires 0 <= d < 16
    ensures HexValue(HexDigit(d)) == d
  {}

  lemma HexSplit(c: CodeUnit)
    ensures c == c / 4096 * 4096 + c / 256 % 16 * 256 + c / 16 % 16 * 16 + c % 16
    ensures c / 4096 < 16
  {
    var a := c / 16;
    var b := a / 16;
    assert c / 256 == b;
    assert c / 4096 == b / 16;
  }

  lemma HexRoundTrip(c: CodeUnit)
    ensures var h := Hex4(c);
      && (forall i :: 0 <= i < 4 ==> HexValue(h[i]) >= 0)
      && HexValue(h[0]) * 4096 + HexValue(h[1]) * 256 + HexValue(h[2]) * 16 + HexValue(h[3]) == c
  {
    HexSplit(c);
    hide HexValue;
    hide HexDigit;
    HexDigitRoundTrip(c / 4096);
    HexDigitRoundTrip(c / 256 % 16);
    HexDigitRoundTrip(c / 16 % 16);
    HexDigitRoundTrip(c % 16);
  }

  lemma UnicodeEscapeRoundTrip(c: CodeUnit, t: Text)
    ensures ParseString([BACKSLASH, LOWER_U] + Hex4(c) + t) == Prepend(c, ParseString(t))
  {
    var u := [BACKSLASH, LOWER_U] + Hex4(c) + t;
    HexRoundTrip(c);
    assert u[2] == Hex4(c)[0] && u[3] == Hex4(c)[1] && u[4] == Hex4(c)[2] && u[5] == Hex4(c)[3];
    assert u[6..] == t;
    hide HexValue;
    hide Hex4;
  }

  lemma RawRoundTrip(c: CodeUnit, t: Text)
    requires c >= 32 && c != QUOTE && c != BACKSLASH
    ensures ParseString([c] + t) == Prepend(c, ParseString(t))
  {
    assert ([c] + t)[1..] == t;
  }

  lemma ShortEscapeRoundTrip(c: CodeUnit, t: Text)
    requires c in {8, 9, 10, 12, 13, QUOTE, BACKSLASH}
    ensures ParseString(EscapeUnit(c) + t) == Prepend(c, ParseString(t))
  {
    var u := EscapeUnit(c) + t;
    assert u[2..] == t;
  }

  lemma UnitRoundTrip(c: CodeUnit, t: Text)
    ensures ParseString(EscapeUnit(c) + t) == Prepend(c, ParseString(t))
  {
    hide ParseString;
    if c in {8, 9, 10, 12, 13, QUOTE, BACKSLASH} {
      ShortEscapeRoundTrip(c, t);
    } else if c < 32 || IsHigh(c) || IsLow(c) {
      UnicodeEscapeRoundTrip(c, t);
    } else {
      RawRoundTrip(c, t);
    }
  }

  lemma {:induction false} StringRoundTrip(s: Text, rest: Text)
    ensures ParseString(Escape(s) + [QUOTE] + rest) == Done(s, rest)
    decreases |s|, 1
  {
    if s == [] {
      assert Escape(s) + [QUOTE] + rest == [QUOTE] + rest;
      assert ([QUOTE] + rest)[1..] == rest;
    } else if IsHigh(s[0]) && |s| > 1 && IsLow(s[1]) {
      PairRoundTrip(s, rest);
    } else {
      hide ParseString;
      hide EscapeUnit;
      var inner := Escape(s[1..]) + [QUOTE] + rest;
      StringRoundTrip(s[1..], rest);
      assert Escape(s) + [QUOTE] + rest == EscapeUnit(s[0]) + inner;
      UnitRoundTrip(s[0], inner);
      assert s == [s[0]] + s[1..];
    }
  }

  lemma {:induction false} PairRoundTrip(s: Text, rest: Text)
    requires |s| > 1 && IsHigh(s[0]) && IsLow(s[1])
    ensures ParseString(Escape(s) + [QUOTE] + rest) == Done(s, rest)
    decreases |s|, 0
  {
    hide ParseString;
    hide EscapeUnit;
    var inner := Escape(s[2..]) + [QUOTE] + rest;
    StringRoundTrip(s[2..], rest);
    assert Escape(s) + [QUOTE] + rest == [s[0]] + ([s[1]] + inner);
    RawRoundTrip(s[0], [s[1]] + inner);
    RawRoundTrip(s[1], inner);
    assert s == [s[0]] + ([s[1]] + s[2..]);
  }

  lemma {:induction false} DigitsShape(n: nat)
    ensures Digits(n) != [] && IsDigit(Digits(n)[0])
    ensures Digits(n)[0] == ZERO ==> n == 0
  {
    if n >= 10 { DigitsShape(n / 10); }
  }

  /** Reading the digits of n leaves n in the accumulator. */
  lemma {:induction false} DigitsRoundTrip(n: nat, rest: Text)
    ensures ParseDigits(Digits(n) + rest, 0) == ParseDigits(rest, n)
  {
    if n < 10 {
      assert (Digits(n) + rest)[1..] == rest;
    } else {
      var last := [ZERO + n % 10] + rest;
      DigitsRoundTrip(n / 10, last);
      assert Digits(n) + rest == Digits(n / 10) + last;
      assert last[1..] == rest;
    }
  }

  lemma NumberRoundTrip(n: int, rest: Text)
    requires Stops(rest)
    ensures ParseNumber(Decimal(n) + rest) == Done(Num(n), rest)
  {
    var m := if n < 0 then -n else n;
    var u := Digits(m) + rest;
    DigitsShape(m);
    DigitsRoundTrip(m, rest);
    assert ParseDigits(rest, m) == (m, rest);
    assert ParseDigits(u, 0) == ParseDigits(u[1..], u[0] - ZERO);
    assert u[0] == ZERO ==> u[1..] == rest;
    if n < 0 {
      var t := Decimal(n) + rest;
      assert t == [MINUS] + u;
      assert t[1..] == u;
    }
  }

  predicate StartsValue(c: CodeUnit) {
    c == QUOTE || c == OPEN_ARR || c == OPEN_OBJ || c == 110 || c == 116 || c == 102 || c == MINUS || IsDigit(c)
  }

  lemma EncodeStarts(v: Json)
    requires Canonical(v)
    ensures Encode(v) != [] && StartsValue(Encode(v)[0])
  {
    match v
    case Num(n) => DigitsShape(if n < 0 then -n else n);
    case _ =>
  }

  lemma LiteralRoundTrip(v: Json, rest: Text)
    requires v.Null? || v.Bool?
    ensures ParseValue(Encode(v) + rest) == Done(v, rest)
  {
    hide ParseItems;
    hide ParseFields;
    hide ParseString;
    hide ParseNumber;
    var t := Encode(v) + rest;
    assert SkipSpace(t) == t;
    assert if v == Bool(false) then t[5..] == rest else t[4..] == rest;
  }

  lemma NumValueRoundTrip(n: int, rest: Text)
    requires Safe(n) && Stops(rest)
    ensures ParseValue(Encode(Num(n)) + rest) == Done(Num(n), rest)
  {
    hide ParseItems;
    hide ParseFields;
    hide ParseString;
    DigitsShape(if n < 0 then -n else n);
    NumberRoundTrip(n, rest);
    hide ParseNumber;
    hide Digits;
    var t := Encode(Num(n)) + rest;
    assert t == Decimal(n) + rest;
    assert t[0] == MINUS || IsDigit(t[0]);
    assert SkipSpace(t) == t;
  }

  lemma StrValueRoundTrip(s: Text, rest: Text)
    ensures ParseValue(Encode(Str(s)) + rest) == Done(Str(s), rest)
  {
    hide ParseItems;
    hide ParseFields;
    hide ParseString;
    hide ParseNumber;
    hide Escape;
    var t := Encode(Str(s)) + rest;
    StringRoundTrip(s, rest);
    assert t[1..] == Escape(s) + [QUOTE] + rest;
  }

  /** Parsing what the encoder wrote gives the value back and stops exactly at its end. */
  lemma {:induction false} ValueRoundTrip(v: Json, rest: Text)
    requires Canonical(v) && Stops(rest)
    ensures ParseValue(Encode(v) + rest) == Done(v, rest)
    decreases v, 1, 0
  {
    hide ParseValue;
    hide Encode;
    match v
    case Null => LiteralRoundTrip(v, rest);
    case Bool(b) => LiteralRoundTrip(v, rest);
    case Num(n) => NumValueRoundTrip(n, rest);
    case Str(s) => StrValueRoundTrip(s, rest);
    case Arr(items) => ArrRoundTrip(v, items, rest);
    case Obj(fields) => ObjRoundTrip(v, fields, rest);
  }

  lemma {:induction false} ArrRoundTrip(v: Json, items: seq<Json>, rest: Text)
    requires v == Arr(items) && Canonical(v) && Stops(rest)
    ensures ParseValue(Encode(v) + rest) == Done(v, rest)
    decreases v, 0, |items| + 1
  {
    hide ParseItems;
    hide ParseFields;
    hide ParseString;
    hide ParseNumber;
    hide EncodeItems;
    var t := Encode(v) + rest;
    if items == [] {
      assert t[1..] == [CLOSE_ARR] + rest;
    } else {
      ItemsRoundTrip(v, items, rest);
      ItemsStart(v, items, rest);
      assert t[1..] == EncodeItems(v, items) + [CLOSE_ARR] + rest;
    }
  }

  lemma {:induction false} ObjRoundTrip(v: Json, fields: map<Text, Json>, rest: Text)
    requires v == Obj(fields) && Canonical(v) && Stops(rest)
    ensures ParseValue(Encode(v) + rest) == Done(v, rest)
    decreases v, 0, |fields| + 1
  {
    hide ParseItems;
    hide ParseFields;
    hide ParseString;
    hide ParseNumber;
    hide EncodeFields;
    hide SortedKeys;
    var t := Encode(v) + rest;
    if fields.Keys == {} {
      assert fields == map[];
      assert t[1..] == [CLOSE_OBJ] + rest;
    } else {
      var keys := SortedKeys(fields.Keys);
      FieldsRoundTrip(v, fields, keys, rest);
      FieldsStart(v, fields, keys, rest);
      EntriesPick(fields, keys);
      assert Entries(fields, keys) == fields;
      assert t[1..] == EncodeFields(v, fields, keys) + [CLOSE_OBJ] + rest;
    }
  }

  /** One array item and what follows it. */
  lemma ItemsStep(t: Text, v: Json, after: Text)
    requires ParseValue(t) == Done(v, after)
    requires after != [] && (after[0] == COMMA || after[0] == CLOSE_ARR)
    ensures after[0] == CLOSE_ARR ==> ParseItems(t) == Done([v], after[1..])
    ensures after[0] == COMMA && ParseItems(after[1..]).Done? ==>
      ParseItems(t) == Done([v] + ParseItems(after[1..]).value, ParseItems(after[1..]).rest)
  {
    hide ParseValue;
    assert SkipSpace(after) == after;
  }

  lemma ItemsStart(parent: Json, items: seq<Json>, rest: Text)
    requires forall i :: 0 <= i < |items| ==> items[i] < parent && Canonical(items[i])
    requires items != []
    ensures var t := EncodeItems(parent, items) + [CLOSE_ARR] + rest; SkipSpace(t) == t && t[0] != CLOSE_ARR
  {
    hide Encode;
    EncodeStarts(items[0]);
    assert EncodeItems(parent, items)[0] == Encode(items[0])[0];
  }

  lemma {:induction false} ItemsRoundTrip(parent: Json, items: seq<Json>, rest: Text)
    requires forall i :: 0 <= i < |items| ==> items[i] < parent && Canonical(items[i])
    requires items != []
    ensures ParseItems(EncodeItems(parent, items) + [CLOSE_ARR] + rest) == Done(items, rest)
    decreases parent, 0, |items|
  {
    hide ParseValue;
    hide ParseItems;
    hide Encode;
    hide Canonical;
    var t := EncodeItems(parent, items) + [CLOSE_ARR] + rest;
    if |items| == 1 {
      var after := [CLOSE_ARR] + rest;
      ValueRoundTrip(items[0], after);
      assert t == Encode(items[0]) + after;
      ItemsStep(t, items[0], after);
      assert after[1..] == rest;
      assert items == [items[0]];
    } else {
      var more := EncodeItems(parent, items[1..]) + [CLOSE_ARR] + rest;
      var after := [COMMA] + more;
      ValueRoundTrip(items[0], after);
      ItemsRoundTrip(parent, items[1..], rest);
      assert t == Encode(items[0]) + after;
      assert after[1..] == more;
      ItemsStep(t, items[0], after);
      assert items == [items[0]] + items[1..];
    }
  }

  lemma {:induction false} FieldRoundTrip(parent: Json, k: Text, v: Json, rest: Text)
    requires v < parent && Canonical(v) && Stops(rest)
    ensures ParseField(EncodeField(parent, k, v) + rest) == Done((k, v), rest)
    decreases parent, 0, 0
  {
    hide ParseValue;
    hide Encode;
    hide ParseString;
    hide Escape;
    var t := EncodeField(parent, k, v) + rest;
    var afterKey := [COLON] + Encode(v) + rest;
    assert t == [QUOTE] + (Escape(k) + [QUOTE] + afterKey);
    assert t[1..] == Escape(k) + [QUOTE] + afterKey;
    StringRoundTrip(k, afterKey);
    assert afterKey[1..] == Encode(v) + rest;
    ValueRoundTrip(v, rest);
  }

  lemma FieldsStep(t: Text, field: (Text, Json), after: Text)
    requires ParseField(t) == Done(field, after)
    requires after != [] && (after[0] == COMMA || after[0] == CLOSE_OBJ)
    ensures after[0] == CLOSE_OBJ ==> ParseFields(t) == Done(map[field.0 := field.1], after[1..])
    ensures after[0] == COMMA && ParseFields(after[1..]).Done? ==>
      ParseFields(t) == Done(map[field.0 := field.1] + ParseFields(after[1..]).value, ParseFields(after[1..]).rest)
  {
    hide ParseField;
    assert SkipSpace(after) == after;
  }

  /** The entries of `fields` under `keys`, in the order the parser meets them. */
  function Entries(fields: map<Text, Json>, keys: seq<Text>): map<Text, Json>
    requires forall k :: k in keys ==> k in fields
  {
    if keys == [] then map[] else map[keys[0] := fields[keys[0]]] + Entries(fields, keys[1..])
  }

  lemma {:induction false} EntriesPick(fields: map<Text, Json>, keys: seq<Text>)
    requires forall k :: k in keys ==> k in fields
    ensures forall k :: k in Entries(fields, keys) <==> k in keys
    ensures forall k :: k in keys ==> Entries(fields, keys)[k] == fields[k]
  {
    if keys != [] { EntriesPick(fields, keys[1..]); }
  }

  lemma FieldsStart(parent: Json, fields: map<Text, Json>, keys: seq<Text>, rest: Text)
    requires forall k :: k in fields ==> fields[k] < parent && Canonical(fields[k])
    requires forall k :: k in keys ==> k in fields
    requires keys != []
    ensures var t := EncodeFields(parent, fields, keys) + [CLOSE_OBJ] + rest; SkipSpace(t) == t && t[0] != CLOSE_OBJ
  {
    assert EncodeField(parent, keys[0], fields[keys[0]])[0] == QUOTE;
    assert EncodeFields(parent, fields, keys)[0] == QUOTE;
  }

  lemma {:induction false} FieldsRoundTrip(parent: Json, fields: map<Text, Json>, keys: seq<Text>, rest: Text)
    requires forall k :: k in fields ==> fields[k] < parent && Canonical(fields[k])
    requires forall k :: k in keys ==> k in fields
    requires keys != []
    ensures ParseFields(EncodeFields(parent, fields, keys) + [CLOSE_OBJ] + rest) == Done(Entries(fields, keys), rest)
    decreases parent, 0, |keys|
  {
    hide ParseField;
    hide ParseFields;
    hide EncodeField;
    var k := keys[0];
    var t := EncodeFields(parent, fields, keys) + [CLOSE_OBJ] + rest;
    if |keys| == 1 {
      var after := [CLOSE_OBJ] + rest;
      FieldRoundTrip(parent, k, fields[k], after);
      assert t == EncodeField(parent, k, fields[k]) + after;
      FieldsStep(t, (k, fields[k]), after);
      assert after[1..] == rest;
      assert Entries(fields, keys) == map[k := fields[k]];
    } else {
      var more := EncodeFields(parent, fields, keys[1..]) + [CLOSE_OBJ] + rest;
      var after := [COMMA] + more;
      FieldRoundTrip(parent, k, fields[k], after);
      FieldsRoundTrip(parent, fields, keys[1..], rest);
      assert t == EncodeField(parent, k, fields[k]) + after;
      assert after[1..] == more;
      FieldsStep(t, (k, fields[k]), after);
    }
  }

  /** Parsing an encoding back gives the same value, so encoding it again gives the same text. */
  lemma ParseInvertsEncode(v: Json)
    requires Canonical(v)
    ensures Parse(Encode(v)) == Value(v)
  {
    ValueRoundTrip(v, []);
    assert Encode(v) + [] == Encode(v);
  }

  /** Two values with one encoding are one value: no two contents share signing bytes. */
  lemma EncodeIsInjective(a: Json, b: Json)
    requires Canonical(a) && Canonical(b)
    requires Encode(a) == Encode(b)
    ensures a == b
  {
    ParseInvertsEncode(a);
    ParseInvertsEncode(b);
  }
}
