/** The CBOR decoder of the passkey flow (apps/dashboard/src/lib/webauthn.ts:97-175), section 3 of
    RFC 8949, with what JavaScript does on truncated input. */
module Cbor {
  import opened Texts
  import opened Doubles

  /** Every typed array is shorter than 2^53. */
  type Uint8Array = b: seq<Byte> | |b| < TWO_53

  /** `Number(undefined)` and reads past the end make `NotANumber` and `Undefined` real results. */
  datatype Cbor =
    | Number(n: int)
    | Undefined
    | NotANumber
    | Bytes(bytes: seq<Byte>)
    | Str(text: Text)
    | Bool(b: bool)
    | Null
    | Arr(items: seq<Cbor>)
    | MapOf(entries: seq<(Cbor, Cbor)>)

  datatype Offset = At(at: nat) | Nowhere

  datatype Result = Value(value: Cbor, next: Offset) | Threw

  datatype Length = Known(length: nat) | Unknown

  datatype Header = Header(major: nat, info: nat, length: Length, next: nat) | NoHeader

  /** `new TextDecoder().decode`. */
  const Utf8: seq<Byte> -> Text

  // ---------------------------------------------------------------- the decoder as a function

  /** A missing byte is 0 in a bitwise operation. */
  function ByteOr0(bytes: seq<Byte>, k: nat): Byte { if k < |bytes| then bytes[k] else 0 }

  /** Big-endian. */
  function Big(bytes: seq<Byte>): nat {
    if bytes == [] then 0 else 256 * Big(bytes[..|bytes| - 1]) + bytes[|bytes| - 1]
  }

  function ReadHeader(bytes: seq<Byte>, o: nat): (h: Header)
    requires o < |bytes|
    ensures h.Header? ==> h.next > o
  {
    var major, info, p := bytes[o] / 32, bytes[o] % 32, o + 1;
    if info < 24 then Header(major, info, Known(info), p)
    else if info == 24 then Header(major, info, if p < |bytes| then Known(bytes[p]) else Unknown, p + 1)
    else if info == 25 then Header(major, info, Known(256 * ByteOr0(bytes, p) + ByteOr0(bytes, p + 1)), p + 2)
    else if info == 26 then
      Header(major, info, Known(0x100_0000 * ByteOr0(bytes, p) + 0x1_0000 * ByteOr0(bytes, p + 1)
                                + 0x100 * ByteOr0(bytes, p + 2) + ByteOr0(bytes, p + 3)), p + 4)
    else if info == 27 then
      if p + 8 <= |bytes| then Header(major, info, Known(RoundNat(Big(bytes[p..p + 8]))), p + 8) else NoHeader
    else NoHeader
  }

  function MinNat(a: nat, b: nat): nat { if a < b then a else b }

  /** `bytes.slice(from, from + length)` and the offset after it. */
  function Slice(bytes: seq<Byte>, from: nat, length: Length): (seq<Byte>, Offset) {
    match length
    case Unknown => ([], Nowhere)
    case Known(n) =>
      var end := RoundNat(from + n);
      var lo, hi := MinNat(from, |bytes|), MinNat(end, |bytes|);
      (if lo <= hi then bytes[lo..hi] else [], At(end))
  }

  /** Keys that a JavaScript Map compares by value. */
  predicate Primitive(k: Cbor) { k.Number? || k.Undefined? || k.NotANumber? || k.Str? || k.Bool? || k.Null? }

  /** `map.set(k, v)`: a key keeps its first place and takes the last value. */
  function MapSet(entries: seq<(Cbor, Cbor)>, k: Cbor, v: Cbor): seq<(Cbor, Cbor)> {
    if entries == [] then [(k, v)]
    else if Primitive(k) && entries[0].0 == k then [(k, v)] + entries[1..]
    else [entries[0]] + MapSet(entries[1..], k, v)
  }

  function Left(bytes: Uint8Array, o: Offset): nat { if o.At? && o.at < |bytes| then |bytes| - o.at else 0 }

  function Decode(bytes: Uint8Array, o: Offset): (r: Result)
    ensures r.Value? ==> o.At? && o.at < |bytes| && Left(bytes, r.next) < Left(bytes, o)
    decreases Left(bytes, o), 0, 0
  {
    if o.Nowhere? || o.at >= |bytes| then Threw
    else
      var h := ReadHeader(bytes, o.at);
      if h.NoHeader? then Threw
      else
        match h.major
        case 0 => Value(if h.length.Known? then Number(h.length.length) else Undefined, At(h.next))
        case 1 => Value(if h.length.Known? then Number(Round(-1 - h.length.length)) else NotANumber, At(h.next))
        case 2 =>
          var (s, next) := Slice(bytes, h.next, h.length);
          SliceAdvances(bytes, h.next, h.length);
          Value(Bytes(s), next)
        case 3 =>
          var (s, next) := Slice(bytes, h.next, h.length);
          SliceAdvances(bytes, h.next, h.length);
          Value(Str(Utf8(s)), next)
        case 4 => DecodeItems(bytes, At(h.next), if h.length.Known? then h.length.length else 0, [])
        case 5 => DecodePairs(bytes, At(h.next), if h.length.Known? then h.length.length else 0, [])
        case 7 =>
          if h.info == 20 then Value(Bool(false), At(h.next))
          else if h.info == 21 then Value(Bool(true), At(h.next))
          else if h.info == 22 then Value(Null, At(h.next))
          else Threw
        case _ => Threw
  }

  lemma SliceAdvances(bytes: Uint8Array, from: nat, length: Length)
    ensures Left(bytes, Slice(bytes, from, length).1) <= Left(bytes, At(from))
  {
    if length.Known? { RoundIsExactBelow(from + length.length); }
  }

  function DecodeItems(bytes: Uint8Array, o: Offset, n: nat, acc: seq<Cbor>): (r: Result)
    ensures r.Value? ==> Left(bytes, r.next) <= Left(bytes, o)
    decreases Left(bytes, o), 1, n
  {
    if n == 0 then Value(Arr(acc), o)
    else
      match Decode(bytes, o)
      case Threw => Threw
      case Value(v, next) => DecodeItems(bytes, next, n - 1, acc + [v])
  }

  function DecodePairs(bytes: Uint8Array, o: Offset, n: nat, acc: seq<(Cbor, Cbor)>): (r: Result)
    ensures r.Value? ==> Left(bytes, r.next) <= Left(bytes, o)
    decreases Left(bytes, o), 1, n
  {
    if n == 0 then Value(MapOf(acc), o)
    else
      match Decode(bytes, o)
      case Threw => Threw
      case Value(k, middle) =>
        match Decode(bytes, middle)
        case Threw => Threw
        case Value(v, next) => DecodePairs(bytes, next, n - 1, MapSet(acc, k, v))
  }

  // ---------------------------------------------------------------- the loops of the source

  method DecodeCborValue(bytes: Uint8Array, start: Offset) returns (r: Result)
    ensures r == Decode(bytes, start)
    decreases Left(bytes, start)
  {
    hide ReadHeader;
    hide Slice;
    if start.Nowhere? || start.at >= |bytes| { return Threw; }
    var h := ReadHeader(bytes, start.at);
    if h.NoHeader? { return Threw; }
    var offset := At(h.next);
    var length := if h.length.Known? then h.length.length else 0;
    match h.major {
      case 0 => r := Value(if h.length.Known? then Number(h.length.length) else Undefined, offset);
      case 1 => r := Value(if h.length.Known? then Number(Round(-1 - h.length.length)) else NotANumber, offset);
      case 2 =>
        var (s, next) := Slice(bytes, h.next, h.length);
        r := Value(Bytes(s), next);
      case 3 =>
        var (s, next) := Slice(bytes, h.next, h.length);
        r := Value(Str(Utf8(s)), next);
      case 4 =>
        var arr := [];
        for i := 0 to length
          invariant Left(bytes, offset) < Left(bytes, start)
          invariant DecodeItems(bytes, At(h.next), length, []) == DecodeItems(bytes, offset, length - i, arr)
        {
          var item := DecodeCborValue(bytes, offset);
          if item.Threw? { return Threw; }
          arr := arr + [item.value];
          offset := item.next;
        }
        r := Value(Arr(arr), offset);
      case 5 =>
        var entries := [];
        for i := 0 to length
          invariant Left(bytes, offset) < Left(bytes, start)
          invariant DecodePairs(bytes, At(h.next), length, []) == DecodePairs(bytes, offset, length - i, entries)
        {
          var key := DecodeCborValue(bytes, offset);
          if key.Threw? { return Threw; }
          var val := DecodeCborValue(bytes, key.next);
          if val.Threw? { return Threw; }
          offset := val.next;
          entries := MapSet(entries, key.value, val.value);
        }
        r := Value(MapOf(entries), offset);
      case 7 =>
        if h.info == 20 { return Value(Bool(false), offset); }
        if h.info == 21 { return Value(Bool(true), offset); }
        if h.info == 22 { return Value(Null, offset); }
        r := Threw;
      case _ => r := Threw;
    }
  }

  // ---------------------------------------------------------------- what an encoder may write

  /** How many bytes a head spends on its argument. */
  datatype Width = InHead | One | Two | Four | Eight

  /** A data item as it is written: any definite-length form of it. */
  datatype Item =
    | UnsignedItem(width: Width, n: nat)
    | NegativeItem(width: Width, n: nat)
    | BytesItem(width: Width, bytes: seq<Byte>)
    | TextItem(width: Width, utf8: seq<Byte>)
    | ArrayItem(width: Width, items: seq<Item>)
    | MapItem(width: Width, pairs: seq<(Item, Item)>)
    | FalseItem
    | TrueItem
    | NullItem

  predicate Fits(w: Width, n: nat) {
    match w
    case InHead => n < 24
    case One => n < 0x100
    case Two => n < 0x1_0000
    case Four => n < 0x1_0000_0000
    case Eight => n < 0x1_0000_0000_0000_0000
  }

  predicate WellFormed(i: Item)
    decreases i
  {
    match i
    case UnsignedItem(w, n) => Fits(w, n)
    case NegativeItem(w, n) => Fits(w, n)
    case BytesItem(w, b) => Fits(w, |b|)
    case TextItem(w, b) => Fits(w, |b|)
    case ArrayItem(w, items) => Fits(w, |items|) && forall k :: 0 <= k < |items| ==> WellFormed(items[k])
    case MapItem(w, pairs) =>
      Fits(w, |pairs|) && forall k :: 0 <= k < |pairs| ==> WellFormed(pairs[k].0) && WellFormed(pairs[k].1)
    case _ => true
  }

  function BigEndian(n: nat, width: nat): seq<Byte> {
    if width == 0 then [] else BigEndian(n / 256, width - 1) + [n % 256]
  }

  function Head(major: nat, w: Width, n: nat): seq<Byte>
    requires major < 8 && Fits(w, n)
  {
    match w
    case InHead => [major * 32 + n]
    case One => [major * 32 + 24] + BigEndian(n, 1)
    case Two => [major * 32 + 25] + BigEndian(n, 2)
    case Four => [major * 32 + 26] + BigEndian(n, 4)
    case Eight => [major * 32 + 27] + BigEndian(n, 8)
  }

  function Written(i: Item): seq<Byte>
    requires WellFormed(i)
    decreases i, 1, 0
  {
    match i
    case UnsignedItem(w, n) => Head(0, w, n)
    case NegativeItem(w, n) => Head(1, w, n)
    case BytesItem(w, b) => Head(2, w, |b|) + b
    case TextItem(w, b) => Head(3, w, |b|) + b
    case ArrayItem(w, items) => Head(4, w, |items|) + WrittenItems(i, items)
    case MapItem(w, pairs) => Head(5, w, |pairs|) + WrittenPairs(i, pairs)
    case FalseItem => [244]
    case TrueItem => [245]
    case NullItem => [246]
  }

  function WrittenItems(ghost parent: Item, items: seq<Item>): seq<Byte>
    requires forall k :: 0 <= k < |items| ==> items[k] < parent && WellFormed(items[k])
    decreases parent, 0, |items|
  {
    if items == [] then [] else Written(items[0]) + WrittenItems(parent, items[1..])
  }

  function WrittenPairs(ghost parent: Item, pairs: seq<(Item, Item)>): seq<Byte>
    requires forall k :: 0 <= k < |pairs| ==>
      pairs[k].0 < parent && pairs[k].1 < parent && WellFormed(pairs[k].0) && WellFormed(pairs[k].1)
    decreases parent, 0, |pairs|
  {
    if pairs == [] then [] else (Written(pairs[0].0) + Written(pairs[0].1)) + WrittenPairs(parent, pairs[1..])
  }

  /** The JavaScript value an item stands for; arguments of eight bytes go through a double. */
  function Meaning(i: Item): Cbor
    decreases i, 1, 0
  {
    match i
    case UnsignedItem(_, n) => Number(Round(n))
    case NegativeItem(_, n) => Number(Round(-1 - Round(n)))
    case BytesItem(_, b) => Bytes(b)
    case TextItem(_, b) => Str(Utf8(b))
    case ArrayItem(_, items) => Arr(Meanings(i, items))
    case MapItem(_, pairs) => MapOf(Entries(i, pairs, []))
    case FalseItem => Bool(false)
    case TrueItem => Bool(true)
    case NullItem => Null
  }

  function Meanings(ghost parent: Item, items: seq<Item>): (r: seq<Cbor>)
    requires forall k :: 0 <= k < |items| ==> items[k] < parent
    decreases parent, 0, |items|
  {
    if items == [] then [] else [Meaning(items[0])] + Meanings(parent, items[1..])
  }

  function Entries(ghost parent: Item, pairs: seq<(Item, Item)>, acc: seq<(Cbor, Cbor)>): seq<(Cbor, Cbor)>
    requires forall k :: 0 <= k < |pairs| ==> pairs[k].0 < parent && pairs[k].1 < parent
    decreases parent, 0, |pairs|
  {
    if pairs == [] then acc
    else Entries(parent, pairs[1..], MapSet(acc, Meaning(pairs[0].0), Meaning(pairs[0].1)))
  }

  // ---------------------------------------------------------------- round trip

  /** `part` stands in `bytes` from o on. */
  predicate StandsAt(bytes: seq<Byte>, o: nat, part: seq<Byte>) {
    o + |part| <= |bytes| && bytes[o..o + |part|] == part
  }

  lemma StandsSplit(bytes: seq<Byte>, o: nat, a: seq<Byte>, b: seq<Byte>)
    requires StandsAt(bytes, o, a + b)
    ensures StandsAt(bytes, o, a) && StandsAt(bytes, o + |a|, b)
  {
    var s := bytes[o..o + |a + b|];
    assert bytes[o..o + |a|] == s[..|a|] == a;
    assert bytes[o + |a|..o + |a| + |b|] == s[|a|..] == b;
  }

  lemma {:induction false} BigInverts(n: nat, width: nat)
    requires n < Power(width)
    ensures |BigEndian(n, width)| == width && Big(BigEndian(n, width)) == n
  {
    if width > 0 { BigInverts(n / 256, width - 1); }
  }

  function Power(width: nat): nat { if width == 0 then 1 else 256 * Power(width - 1) }

  lemma Powers()
    ensures Power(1) == 0x100 && Power(2) == 0x1_0000 && Power(4) == 0x1_0000_0000
    ensures Power(8) == 0x1_0000_0000_0000_0000
  {
    assert Power(3) == 0x100_0000;
    assert Power(5) == 0x100_0000_0000;
    assert Power(6) == 0x1_0000_0000_0000;
    assert Power(7) == 0x100_0000_0000_0000;
  }

  function HeadSize(w: Width): nat {
    match w
    case InHead => 1
    case One => 2
    case Two => 3
    case Four => 5
    case Eight => 9
  }

  lemma BigOfFew(b: seq<Byte>)
    ensures |b| == 1 ==> Big(b) == b[0]
    ensures |b| == 2 ==> Big(b) == 256 * (b[0] as int) + b[1]
    ensures |b| == 4 ==> Big(b) == 0x100_0000 * (b[0] as int) + 0x1_0000 * (b[1] as int) + 0x100 * (b[2] as int) + b[3]
  {
    if |b| == 4 {
      assert Big(b) == 256 * Big(b[..3]) + b[3];
      assert b[..3][..2] == b[..2] && b[..2][..1] == b[..1];
      assert Big(b[..3]) == 256 * Big(b[..2]) + b[2];
      assert Big(b[..2]) == 256 * Big(b[..1]) + b[1];
      assert Big(b[..1]) == b[0];
    } else if |b| == 2 {
      assert Big(b[..1]) == b[0];
    }
  }

  predicate Reads(h: Header, major: nat, length: nat, next: nat) {
    h.Header? && h.major == major && h.length == Known(length) && h.next == next
  }

  /** The bytes of a head and its argument, where they stand. */
  lemma HeadBytes(bytes: Uint8Array, o: nat, major: nat, info: nat, arg: seq<Byte>)
    requires major < 8 && info < 28 && StandsAt(bytes, o, [major * 32 + info] + arg)
    ensures o + 1 + |arg| <= |bytes| && bytes[o] / 32 == major && bytes[o] % 32 == info
    ensures bytes[o + 1..o + 1 + |arg|] == arg
    ensures forall k :: 0 <= k < |arg| ==> bytes[o + 1 + k] == arg[k]
  {
    StandsSplit(bytes, o, [major * 32 + info], arg);
    assert bytes[o] == bytes[o..o + 1][0] == major * 32 + info;
    var read := bytes[o + 1..o + 1 + |arg|];
    assert read == arg;
    forall k | 0 <= k < |arg| ensures bytes[o + 1 + k] == arg[k] { assert bytes[o + 1 + k] == read[k]; }
  }

  /** A header is read from its first byte and the big-endian argument behind it. */
  lemma HeaderFrom(bytes: Uint8Array, o: nat, major: nat, info: nat, arg: seq<Byte>)
    requires major < 8 && info < 28 && StandsAt(bytes, o, [major * 32 + info] + arg)
    requires |arg| ==
      if info < 24 then 0 else if info == 24 then 1 else if info == 25 then 2 else if info == 26 then 4 else 8
    ensures o < |bytes|
    ensures Reads(ReadHeader(bytes, o), major,
                  if info < 24 then info else if info == 27 then RoundNat(Big(arg)) else Big(arg), o + 1 + |arg|)
  {
    hide RoundNat;
    hide Big;
    HeadBytes(bytes, o, major, info, arg);
    hide StandsAt;
    BigOfFew(arg);
    var p := o + 1;
    if info == 24 {
      assert bytes[p] == arg[0];
    } else if info == 25 {
      assert bytes[p] == arg[0] && bytes[p + 1] == arg[1];
    } else if info == 26 {
      assert bytes[p] == arg[0] && bytes[p + 1] == arg[1] && bytes[p + 2] == arg[2] && bytes[p + 3] == arg[3];
    }
  }

  /** The head that was written is the header that is read. */
  lemma HeadInverts(bytes: Uint8Array, o: nat, major: nat, w: Width, n: nat)
    requires major < 8 && Fits(w, n) && StandsAt(bytes, o, Head(major, w, n))
    ensures o < |bytes| && |Head(major, w, n)| == HeadSize(w)
    ensures Reads(ReadHeader(bytes, o), major, if w == Eight then RoundNat(n) else n, o + HeadSize(w))
  {
    hide RoundNat;
    hide ReadHeader;
    hide Big;
    hide StandsAt;
    Powers();
    hide Power;
    match w
    case InHead =>
      assert Head(major, w, n) == [major * 32 + n] + [];
      HeaderFrom(bytes, o, major, n, []);
    case One => BigInverts(n, 1); hide BigEndian; HeaderFrom(bytes, o, major, 24, BigEndian(n, 1));
    case Two => BigInverts(n, 2); hide BigEndian; HeaderFrom(bytes, o, major, 25, BigEndian(n, 2));
    case Four => BigInverts(n, 4); hide BigEndian; HeaderFrom(bytes, o, major, 26, BigEndian(n, 4));
    case Eight => BigInverts(n, 8); hide BigEndian; HeaderFrom(bytes, o, major, 27, BigEndian(n, 8));
  }

  /** What the decoder makes of a written item: its meaning and the exact next offset. */
  lemma {:induction false} WrittenIsDecoded(bytes: Uint8Array, o: nat, i: Item)
    requires WellFormed(i) && StandsAt(bytes, o, Written(i))
    ensures Decode(bytes, At(o)) == Value(Meaning(i), At(o + |Written(i)|))
    decreases i, 1, 0
  {
    hide Decode;
    hide Meaning;
    hide StandsAt;
    hide Head;
    match i
    case ArrayItem(w, items) =>
      StandsSplit(bytes, o, Head(4, w, |items|), WrittenItems(i, items));
      HeadInverts(bytes, o, 4, w, |items|);
      ItemsAreDecoded(bytes, o + HeadSize(w), i, items, []);
      ArrayIsDecoded(bytes, o, i);
    case MapItem(w, pairs) =>
      StandsSplit(bytes, o, Head(5, w, |pairs|), WrittenPairs(i, pairs));
      HeadInverts(bytes, o, 5, w, |pairs|);
      PairsAreDecoded(bytes, o + HeadSize(w), i, pairs, []);
      MapIsDecoded(bytes, o, i);
    case UnsignedItem(_, _) => NumberIsDecoded(bytes, o, i);
    case NegativeItem(_, _) => NumberIsDecoded(bytes, o, i);
    case BytesItem(_, _) => StringIsDecoded(bytes, o, i);
    case TextItem(_, _) => StringIsDecoded(bytes, o, i);
    case _ => SimpleIsDecoded(bytes, o, i);
  }

  lemma ItemsAreShort(bytes: Uint8Array, o: nat, i: Item)
    requires i.ArrayItem? && WellFormed(i) && StandsAt(bytes, o, Written(i))
    ensures |i.items| < TWO_53
  {
    ItemsTakeSpace(i, i.items);
  }

  lemma ArrayIsDecoded(bytes: Uint8Array, o: nat, i: Item)
    requires i.ArrayItem? && WellFormed(i) && StandsAt(bytes, o, Written(i))
    requires DecodeItems(bytes, At(o + HeadSize(i.width)), |i.items|, []) ==
      Value(Arr([] + Meanings(i, i.items)), At(o + HeadSize(i.width) + |WrittenItems(i, i.items)|))
    ensures Decode(bytes, At(o)) == Value(Meaning(i), At(o + |Written(i)|))
  {
    var n := |i.items|;
    ItemsAreShort(bytes, o, i);
    RoundIsExactBelow(n);
    hide RoundNat;
    hide Round;
    StandsSplit(bytes, o, Head(4, i.width, n), WrittenItems(i, i.items));
    HeadInverts(bytes, o, 4, i.width, n);
    assert [] + Meanings(i, i.items) == Meanings(i, i.items);
    hide ReadHeader;
    hide Head;
    hide StandsAt;
    hide DecodeItems;
    hide WrittenItems;
    hide Meanings;
    hide WellFormed;
  }

  lemma PairsAreShort(bytes: Uint8Array, o: nat, i: Item)
    requires i.MapItem? && WellFormed(i) && StandsAt(bytes, o, Written(i))
    ensures |i.pairs| < TWO_53
  {
    PairsTakeSpace(i, i.pairs);
  }

  lemma MapIsDecoded(bytes: Uint8Array, o: nat, i: Item)
    requires i.MapItem? && WellFormed(i) && StandsAt(bytes, o, Written(i))
    requires DecodePairs(bytes, At(o + HeadSize(i.width)), |i.pairs|, []) ==
      Value(MapOf(Entries(i, i.pairs, [])), At(o + HeadSize(i.width) + |WrittenPairs(i, i.pairs)|))
    ensures Decode(bytes, At(o)) == Value(Meaning(i), At(o + |Written(i)|))
  {
    hide ReadHeader;
    hide Head;
    hide StandsAt;
    hide DecodePairs;
    hide WrittenPairs;
    hide Entries;
    var n := |i.pairs|;
    PairsAreShort(bytes, o, i);
    RoundIsExactBelow(n);
    hide RoundNat;
    StandsSplit(bytes, o, Head(5, i.width, n), WrittenPairs(i, i.pairs));
    HeadInverts(bytes, o, 5, i.width, n);
    hide WellFormed;
  }

  lemma NumberIsDecoded(bytes: Uint8Array, o: nat, i: Item)
    requires (i.UnsignedItem? || i.NegativeItem?) && WellFormed(i) && StandsAt(bytes, o, Written(i))
    ensures Decode(bytes, At(o)) == Value(Meaning(i), At(o + |Written(i)|))
  {
    hide ReadHeader;
    HeadInverts(bytes, o, if i.UnsignedItem? then 0 else 1, i.width, i.n);
    RoundIsExactBelow(i.n);
    hide RoundNat;
    hide Head;
    hide StandsAt;
  }

  lemma StringIsDecoded(bytes: Uint8Array, o: nat, i: Item)
    requires (i.BytesItem? || i.TextItem?) && WellFormed(i) && StandsAt(bytes, o, Written(i))
    ensures Decode(bytes, At(o)) == Value(Meaning(i), At(o + |Written(i)|))
  {
    hide ReadHeader;
    var b := if i.BytesItem? then i.bytes else i.utf8;
    var major := if i.BytesItem? then 2 else 3;
    StandsSplit(bytes, o, Head(major, i.width, |b|), b);
    HeadInverts(bytes, o, major, i.width, |b|);
    RoundIsExactBelow(|b|);
    RoundIsExactBelow(o + HeadSize(i.width) + |b|);
    hide RoundNat;
    hide Head;
  }

  lemma SimpleIsDecoded(bytes: Uint8Array, o: nat, i: Item)
    requires (i.FalseItem? || i.TrueItem? || i.NullItem?) && StandsAt(bytes, o, Written(i))
    ensures Decode(bytes, At(o)) == Value(Meaning(i), At(o + |Written(i)|))
  {
    assert bytes[o] == bytes[o..o + 1][0];
  }

  /** Every item takes at least one byte, so what stands in an input is shorter than 2^53. */
  lemma {:induction false} ItemsTakeSpace(parent: Item, items: seq<Item>)
    requires forall k :: 0 <= k < |items| ==> items[k] < parent && WellFormed(items[k])
    ensures |items| <= |WrittenItems(parent, items)|
    decreases |items|
  {
    if items != [] {
      ItemsTakeSpace(parent, items[1..]);
      assert |Written(items[0])| > 0;
    }
  }

  lemma {:induction false} PairsTakeSpace(parent: Item, pairs: seq<(Item, Item)>)
    requires forall k :: 0 <= k < |pairs| ==>
      pairs[k].0 < parent && pairs[k].1 < parent && WellFormed(pairs[k].0) && WellFormed(pairs[k].1)
    ensures |pairs| <= |WrittenPairs(parent, pairs)|
    decreases |pairs|
  {
    if pairs != [] {
      PairsTakeSpace(parent, pairs[1..]);
      assert |Written(pairs[0].0)| > 0;
    }
  }

  lemma ItemsStep(bytes: Uint8Array, o: Offset, n: nat, acc: seq<Cbor>, v: Cbor, next: Offset)
    requires n > 0 && Decode(bytes, o) == Value(v, next)
    ensures DecodeItems(bytes, o, n, acc) == DecodeItems(bytes, next, n - 1, acc + [v])
  {
    hide Decode;
  }

  lemma PairsStep(bytes: Uint8Array, o: Offset, n: nat, acc: seq<(Cbor, Cbor)>,
                  k: Cbor, middle: Offset, v: Cbor, next: Offset)
    requires n > 0 && Decode(bytes, o) == Value(k, middle) && Decode(bytes, middle) == Value(v, next)
    ensures DecodePairs(bytes, o, n, acc) == DecodePairs(bytes, next, n - 1, MapSet(acc, k, v))
  {
    hide Decode;
    hide MapSet;
  }

  lemma {:induction false} ItemsAreDecoded(bytes: Uint8Array, o: nat, parent: Item, items: seq<Item>, acc: seq<Cbor>)
    requires forall k :: 0 <= k < |items| ==> items[k] < parent && WellFormed(items[k])
    requires StandsAt(bytes, o, WrittenItems(parent, items))
    ensures DecodeItems(bytes, At(o), |items|, acc) ==
      Value(Arr(acc + Meanings(parent, items)), At(o + |WrittenItems(parent, items)|))
    decreases parent, 0, |items|
  {
    hide Decode;
    hide WellFormed;
    hide Written;
    hide Meaning;
    hide StandsAt;
    if items == [] {
      assert acc + [] == acc;
    } else {
      var head, rest := items[0], items[1..];
      var first, later := Written(head), WrittenItems(parent, rest);
      StandsSplit(bytes, o, first, later);
      WrittenIsDecoded(bytes, o, head);
      ItemsStep(bytes, At(o), |items|, acc, Meaning(head), At(o + |first|));
      ItemsAreDecoded(bytes, o + |first|, parent, rest, acc + [Meaning(head)]);
      hide DecodeItems;
      assert acc + [Meaning(head)] + Meanings(parent, rest) == acc + ([Meaning(head)] + Meanings(parent, rest));
    }
  }

  lemma {:induction false} PairsAreDecoded(bytes: Uint8Array, o: nat, parent: Item, pairs: seq<(Item, Item)>,
                                           acc: seq<(Cbor, Cbor)>)
    requires forall k :: 0 <= k < |pairs| ==>
      pairs[k].0 < parent && pairs[k].1 < parent && WellFormed(pairs[k].0) && WellFormed(pairs[k].1)
    requires StandsAt(bytes, o, WrittenPairs(parent, pairs))
    ensures DecodePairs(bytes, At(o), |pairs|, acc) ==
      Value(MapOf(Entries(parent, pairs, acc)), At(o + |WrittenPairs(parent, pairs)|))
    decreases parent, 0, |pairs|
  {
    hide Decode;
    hide WellFormed;
    hide Written;
    hide Meaning;
    hide StandsAt;
    hide MapSet;
    if pairs != [] {
      var k, v, rest := pairs[0].0, pairs[0].1, pairs[1..];
      var key, val, later := Written(k), Written(v), WrittenPairs(parent, rest);
      StandsSplit(bytes, o, key + val, later);
      StandsSplit(bytes, o, key, val);
      WrittenIsDecoded(bytes, o, k);
      WrittenIsDecoded(bytes, o + |key|, v);
      PairsStep(bytes, At(o), |pairs|, acc, Meaning(k), At(o + |key|), Meaning(v), At(o + |key| + |val|));
      PairsAreDecoded(bytes, o + |key| + |val|, parent, rest, MapSet(acc, Meaning(k), Meaning(v)));
      hide DecodePairs;
    }
  }

  /** What the decoder refuses at one byte, outside arrays and maps: the end of the input, a reserved or
      indefinite length, an 8-byte length cut short, a tag, a float or any simple value but false, true
      and null. Everything else has a value. */
  lemma RefusedExactlyWhen(bytes: Uint8Array, o: nat)
    requires o < |bytes| ==> bytes[o] / 32 != 4 && bytes[o] / 32 != 5
    ensures Decode(bytes, At(o)).Threw? <==>
      || o >= |bytes| || bytes[o] % 32 >= 28 || (bytes[o] % 32 == 27 && o + 9 > |bytes|)
      || bytes[o] / 32 == 6 || (bytes[o] / 32 == 7 && bytes[o] % 32 !in {20, 21, 22})
  {
    hide Slice;
    hide Big;
    hide RoundNat;
    hide Round;
  }

  // ---------------------------------------------------------------- what the decoder makes of a cut input

  lemma HeadInByte(bytes: seq<Byte>)
    requires bytes != [] && bytes[0] % 32 < 24
    ensures ReadHeader(bytes, 0) == Header(bytes[0] / 32, bytes[0] % 32, Known(bytes[0] % 32), 1)
  {}

  lemma CutSlice(bytes: Uint8Array, n: nat)
    requires bytes != [] && n < 24
    ensures Slice(bytes, 1, Known(n)) == (if n < |bytes| then bytes[1..1 + n] else bytes[1..], At(1 + n))
  {
    RoundIsExactBelow(1 + n);
    assert bytes[1..|bytes|] == bytes[1..];
  }

  /** The decoder on a head that is no array, map or simple value. */
  lemma PlainStep(bytes: Uint8Array)
    requires bytes != [] && bytes[0] / 32 <= 3 && ReadHeader(bytes, 0).Header?
    ensures var h := ReadHeader(bytes, 0);
      var s := Slice(bytes, h.next, h.length);
      h.major == bytes[0] / 32 && Decode(bytes, At(0)) ==
        match h.major
        case 0 => Value(if h.length.Known? then Number(h.length.length) else Undefined, At(h.next))
        case 1 => Value(if h.length.Known? then Number(Round(-1 - h.length.length)) else NotANumber, At(h.next))
        case 2 => Value(Bytes(s.0), s.1)
        case _ => Value(Str(Utf8(s.0)), s.1)
  {
    assert ReadHeader(bytes, 0).major == bytes[0] / 32;
    hide ReadHeader;
    hide Slice;
    hide Round;
    hide DecodeItems;
    hide DecodePairs;
  }

  /** A byte string (major type 2) or text (3) that is cut short is taken as far as it goes, and the next
      item is looked for where the whole string would have ended. */
  lemma CutStrings(bytes: Uint8Array, n: nat)
    requires bytes != [] && bytes[0] / 32 in {2, 3} && n == bytes[0] % 32 < 24
    ensures var there := if n < |bytes| then bytes[1..1 + n] else bytes[1..];
      Decode(bytes, At(0)) == Value(if bytes[0] / 32 == 2 then Bytes(there) else Str(Utf8(there)), At(1 + n))
  {
    hide *;
    HeadInByte(bytes);
    CutSlice(bytes, n);
    PlainStep(bytes);
  }

  /** A number whose length byte is missing is undefined, or not a number if it is negative; a string is
      then empty and ends nowhere. */
  lemma CutHeads()
    ensures Decode([24], At(0)) == Value(Undefined, At(2)) && Decode([56], At(0)) == Value(NotANumber, At(2))
    ensures Decode([88], At(0)) == Value(Bytes([]), Nowhere) && Decode([120], At(0)) == Value(Str(Utf8([])), Nowhere)
  {
    hide Decode;
    hide Round;
    hide Big;
    hide RoundNat;
    PlainStep([24]);
    PlainStep([56]);
    PlainStep([88]);
    PlainStep([120]);
  }

  /** Of a longer length the bytes that are missing count as 0. */
  lemma CutLengths(b: Byte, c: Byte)
    ensures Decode([25, b], At(0)) == Value(Number(256 * b), At(3))
    ensures Decode([26, b, c], At(0)) == Value(Number(0x100_0000 * b + 0x1_0000 * c), At(5))
  {
    hide RoundNat;
    hide Round;
    hide Big;
    hide Slice;
    assert ReadHeader([25, b], 0) == Header(0, 25, Known(256 * b), 3);
    assert ReadHeader([26, b, c], 0) == Header(0, 26, Known(0x100_0000 * b + 0x1_0000 * c), 5);
    hide ReadHeader;
  }

  /** A primitive key that is there keeps its place and takes the new value; any other is put at the end. */
  lemma {:induction false} MapSetOutcome(entries: seq<(Cbor, Cbor)>, k: Cbor, v: Cbor) returns (j: nat)
    ensures j <= |entries|
    ensures forall i :: 0 <= i < j ==> k.Bytes? || k.Arr? || k.MapOf? || entries[i].0 != k
    ensures if j == |entries| then MapSet(entries, k, v) == entries + [(k, v)]
            else !k.Bytes? && !k.Arr? && !k.MapOf? && entries[j].0 == k && MapSet(entries, k, v) == entries[j := (k, v)]
  {
    if entries == [] {
      j := 0;
    } else if Primitive(k) && entries[0].0 == k {
      j := 0;
    } else {
      assert MapSet(entries, k, v) == [entries[0]] + MapSet(entries[1..], k, v);
      var rest := entries[1..];
      j := MapSetOutcome(rest, k, v);
      hide MapSet;
      assert entries == [entries[0]] + rest;
      if j < |rest| { assert [entries[0]] + rest[j := (k, v)] == entries[j + 1 := (k, v)]; }
      j := j + 1;
    }
  }
}
