/** Unpadded base64url (packages/core/src/hash.ts:9-49), section 5 of RFC 4648. The decoder goes
    through `atob`, the forgiving-base64 decode of the WHATWG Infra standard. */
module Base64Url {
  import opened Options
  import opened Texts

  type Sextet = v: int | 0 <= v < 64

  const PAD: CodeUnit := 61
  const PLUS: CodeUnit := 43
  const SLASH: CodeUnit := 47
  const HYPHEN: CodeUnit := 45
  const UNDERSCORE: CodeUnit := 95

  /** BASE64URL_CHARS[v] */
  function Char(v: Sextet): CodeUnit {
    if v < 26 then 65 + v
    else if v < 52 then 97 + (v - 26)
    else if v < 62 then 48 + (v - 52)
    else if v == 62 then HYPHEN else UNDERSCORE
  }

  /** The value of a letter of the standard alphabet. */
  function ValueOf(c: CodeUnit): Option<Sextet> {
    if 65 <= c <= 90 then Some(c - 65)
    else if 97 <= c <= 122 then Some(c - 97 + 26)
    else if 48 <= c <= 57 then Some(c - 48 + 52)
    else if c == PLUS then Some(62)
    else if c == SLASH then Some(63)
    else None
  }

  /** Three bytes make four letters; one or two left over make two or three. */
  function Encoded(bytes: seq<Byte>): Text
    decreases |bytes|
  {
    if |bytes| == 0 then []
    else if |bytes| == 1 then [Char(bytes[0] / 4), Char(bytes[0] % 4 * 16)]
    else if |bytes| == 2 then
      [Char(bytes[0] / 4), Char(bytes[0] % 4 * 16 + bytes[1] / 16), Char(bytes[1] % 16 * 4)]
    else
      [Char(bytes[0] / 4), Char(bytes[0] % 4 * 16 + bytes[1] / 16),
       Char(bytes[1] % 16 * 4 + bytes[2] / 64), Char(bytes[2] % 64)]
      + Encoded(bytes[3..])
  }

  // ---------------------------------------------------------------- atob

  predicate IsWhite(c: CodeUnit) { c == 9 || c == 10 || c == 12 || c == 13 || c == 32 }

  function StripWhite(t: Text): (r: Text)
    ensures forall k :: 0 <= k < |r| ==> !IsWhite(r[k])
  {
    if t == [] then [] else (if IsWhite(t[0]) then [] else [t[0]]) + StripWhite(t[1..])
  }

  /** At most two pad signs, and only from a text of whole quantums. */
  function StripPad(t: Text): Text {
    if |t| % 4 != 0 || t == [] || t[|t| - 1] != PAD then t
    else if |t| >= 2 && t[|t| - 2] == PAD then t[..|t| - 2]
    else t[..|t| - 1]
  }

  predicate AllLetters(t: Text) { forall k :: 0 <= k < |t| ==> ValueOf(t[k]).Some? }

  function Values(t: Text): seq<Sextet>
    requires AllLetters(t)
  {
    seq(|t|, k requires 0 <= k < |t| => ValueOf(t[k]).value)
  }

  /** Four sextets make three bytes; left-over bits are thrown away. */
  function Grouped(v: seq<Sextet>): seq<Byte>
    decreases |v|
  {
    if |v| < 2 then []
    else
      var first := v[0] as int * 4 + v[1] / 16;
      if |v| == 2 then [first]
      else
        var second := v[1] as int % 16 * 16 + v[2] / 4;
        if |v| == 3 then [first, second]
        else [first, second, v[2] as int % 4 * 64 + v[3]] + Grouped(v[4..])
  }

  function Atob(t: Text): Option<seq<Byte>> {
    var u := StripPad(StripWhite(t));
    if |u| % 4 == 1 || !AllLetters(u) then None else Some(Grouped(Values(u)))
  }

  // ---------------------------------------------------------------- the decoder

  function Standard(t: Text): (r: Text)
    ensures |r| == |t|
  {
    seq(|t|, k requires 0 <= k < |t| => Plain(t[k]))
  }

  function Padding(n: nat): (r: Text)
    ensures |r| == (4 - n % 4) % 4 && (n + |r|) % 4 == 0
  {
    seq((4 - n % 4) % 4, k => PAD)
  }

  /** `base64UrlToBytes`; `None` is the exception of `atob`. */
  function Decoded(t: Text): Option<seq<Byte>> { Atob(Standard(t) + Padding(|t|)) }

  // ---------------------------------------------------------------- the loops of the source

  method BytesToBase64Url(bytes: seq<Byte>) returns (out: Text)
    ensures out == Encoded(bytes)
  {
    hide Encoded;
    hide Char;
    out := [];
    var i := 0;
    assert bytes[0..] == bytes;
    while i + 3 <= |bytes|
      invariant i <= |bytes|
      invariant out + Encoded(bytes[i..]) == Encoded(bytes)
    {
      var b0, b1, b2 := bytes[i], bytes[i + 1], bytes[i + 2];
      ghost var before, after := out, Encoded(bytes[i + 3..]);
      WholeQuantum(bytes, i);
      out := out + [Char(b0 / 4)];
      out := out + [Char(b0 % 4 * 16 + b1 / 16)];
      out := out + [Char(b1 % 16 * 4 + b2 / 64)];
      out := out + [Char(b2 % 64)];
      Regroup(before, Char(b0 / 4), Char(b0 % 4 * 16 + b1 / 16), Char(b1 % 16 * 4 + b2 / 64), Char(b2 % 64), after);
      i := i + 3;
    }
    LastQuantum(bytes, i);
    var remaining := |bytes| - i;
    if remaining == 1 {
      var b0 := bytes[i];
      out := out + [Char(b0 / 4)];
      out := out + [Char(b0 % 4 * 16)];
    } else if remaining == 2 {
      var b0, b1 := bytes[i], bytes[i + 1];
      out := out + [Char(b0 / 4)];
      out := out + [Char(b0 % 4 * 16 + b1 / 16)];
      out := out + [Char(b1 % 16 * 4)];
    }
  }

  lemma Regroup(before: Text, a: CodeUnit, b: CodeUnit, c: CodeUnit, d: CodeUnit, after: Text)
    ensures before + ([a, b, c, d] + after) == before + [a] + [b] + [c] + [d] + after
  {}

  lemma WholeQuantum(bytes: seq<Byte>, i: nat)
    requires i + 3 <= |bytes|
    ensures Encoded(bytes[i..]) ==
      [Char(bytes[i] / 4), Char(bytes[i] % 4 * 16 + bytes[i + 1] / 16),
       Char(bytes[i + 1] % 16 * 4 + bytes[i + 2] / 64), Char(bytes[i + 2] % 64)] + Encoded(bytes[i + 3..])
  {
    hide Char;
    assert bytes[i..][3..] == bytes[i + 3..];
  }

  lemma LastQuantum(bytes: seq<Byte>, i: nat)
    requires i <= |bytes| < i + 3
    ensures Encoded(bytes[i..]) ==
      if |bytes| == i then []
      else if |bytes| == i + 1 then [Char(bytes[i] / 4)] + [Char(bytes[i] % 4 * 16)]
      else [Char(bytes[i] / 4)] + [Char(bytes[i] % 4 * 16 + bytes[i + 1] / 16)] + [Char(bytes[i + 1] % 16 * 4)]
  {
    hide Char;
  }

  /** The binary string of `atob`, copied byte by byte into the result. */
  method Base64UrlToBytes(input: Text) returns (ok: bool, bytes: array<Byte>)
    ensures ok <==> Decoded(input).Some?
    ensures ok ==> bytes[..] == Decoded(input).value
    ensures fresh(bytes)
  {
    var binary := Atob(Standard(input) + Padding(|input|));
    if binary.None? {
      bytes := new Byte[0];
      return false, bytes;
    }
    bytes := new Byte[|binary.value|];
    for i := 0 to |binary.value|
      invariant bytes[..i] == binary.value[..i]
    {
      bytes[i] := binary.value[i];
    }
    ok := true;
  }

  // ---------------------------------------------------------------- round trip

  /** The letter of the standard alphabet for one of this. */
  function Plain(c: CodeUnit): CodeUnit { if c == HYPHEN then PLUS else if c == UNDERSCORE then SLASH else c }

  lemma LetterRoundTrip(v: Sextet)
    ensures ValueOf(Plain(Char(v))) == Some(v)
    ensures !IsWhite(Plain(Char(v))) && Plain(Char(v)) != PAD && Char(v) !in {PAD, PLUS, SLASH}
  {}

  /** The sextets of an encoding, before their letters are chosen. */
  function Sextets(bytes: seq<Byte>): seq<Sextet>
    decreases |bytes|
  {
    if |bytes| == 0 then []
    else if |bytes| == 1 then [bytes[0] / 4, bytes[0] % 4 * 16]
    else if |bytes| == 2 then [bytes[0] / 4, bytes[0] % 4 * 16 + bytes[1] / 16, bytes[1] % 16 * 4]
    else
      [bytes[0] / 4, bytes[0] % 4 * 16 + bytes[1] / 16, bytes[1] % 16 * 4 + bytes[2] / 64, bytes[2] % 64]
      + Sextets(bytes[3..])
  }

  lemma {:induction false} EncodedLetters(bytes: seq<Byte>)
    ensures |Encoded(bytes)| == |Sextets(bytes)| == (4 * |bytes| + 2) / 3
    ensures forall k :: 0 <= k < |Sextets(bytes)| ==> Encoded(bytes)[k] == Char(Sextets(bytes)[k])
    decreases |bytes|
  {
    if |bytes| >= 3 { EncodedLetters(bytes[3..]); }
  }

  lemma {:induction false} GroupedInverts(bytes: seq<Byte>)
    ensures Grouped(Sextets(bytes)) == bytes
    decreases |bytes|
  {
    if |bytes| >= 3 {
      GroupedInverts(bytes[3..]);
      var s := Sextets(bytes);
      assert s[4..] == Sextets(bytes[3..]);
      assert bytes == [bytes[0], bytes[1], bytes[2]] + bytes[3..];
    }
  }

  lemma {:induction false} NothingToStrip(t: Text)
    requires forall k :: 0 <= k < |t| ==> !IsWhite(t[k])
    ensures StripWhite(t) == t
  {
    if t != [] {
      NothingToStrip(t[1..]);
      assert t == [t[0]] + t[1..];
    }
  }

  /** Padding that the decoder adds is the padding that `atob` takes away. */
  lemma PadIsStripped(t: Text)
    requires |t| % 4 != 1 && forall k :: 0 <= k < |t| ==> t[k] != PAD
    ensures StripPad(t + Padding(|t|)) == t
  {
    var p := t + Padding(|t|);
    assert p[..|t|] == t;
  }

  lemma NeverOneOver(n: nat)
    ensures (4 * n + 2) / 3 % 4 != 1
  {
    var q, r := n / 3, n % 3;
    assert n == 3 * q + r && (4 * n + 2) / 3 == 4 * q + (4 * r + 2) / 3;
  }

  /** In the standard alphabet the letters of an encoding have the values of its sextets. */
  lemma EncodedStandard(bytes: seq<Byte>)
    ensures var t, s, u := Encoded(bytes), Sextets(bytes), Standard(Encoded(bytes));
      && |t| == |s| && |t| % 4 != 1
      && (forall k :: 0 <= k < |t| ==> !IsWhite(u[k]) && u[k] != PAD && ValueOf(u[k]) == Some(s[k]))
      && forall k :: 0 <= k < |t| ==> t[k] !in {PAD, PLUS, SLASH}
  {
    hide Encoded;
    hide Sextets;
    hide Char;
    hide Plain;
    hide ValueOf;
    hide IsWhite;
    var t, s := Encoded(bytes), Sextets(bytes);
    EncodedLetters(bytes);
    NeverOneOver(|bytes|);
    var u := Standard(t);
    forall k | 0 <= k < |t|
      ensures !IsWhite(u[k]) && u[k] != PAD && ValueOf(u[k]) == Some(s[k])
      ensures t[k] !in {PAD, PLUS, SLASH}
    {
      LetterRoundTrip(s[k]);
    }
  }

  lemma ValuesOf(u: Text, s: seq<Sextet>)
    requires |u| == |s| && forall k :: 0 <= k < |u| ==> ValueOf(u[k]) == Some(s[k])
    ensures AllLetters(u) && Values(u) == s
  {
    hide ValueOf;
  }

  /** Decoding inverts encoding, for byte strings of every length. */
  lemma DecodedInvertsEncoded(bytes: seq<Byte>)
    ensures Decoded(Encoded(bytes)) == Some(bytes)
    ensures |Encoded(bytes)| == (4 * |bytes| + 2) / 3
    ensures forall k :: 0 <= k < |Encoded(bytes)| ==> Encoded(bytes)[k] !in {PAD, PLUS, SLASH}
  {
    hide Encoded;
    hide Sextets;
    hide Grouped;
    hide ValueOf;
    hide StripWhite;
    hide StripPad;
    hide Standard;
    hide AllLetters;
    hide Values;
    EncodedLetters(bytes);
    EncodedStandard(bytes);
    GroupedInverts(bytes);
    var t, u := Encoded(bytes), Standard(Encoded(bytes));
    ValuesOf(u, Sextets(bytes));
    NothingToStrip(u + Padding(|t|));
    PadIsStripped(u);
  }

  // ---------------------------------------------------------------- the alphabet and what is refused

  /** Letters, digits, hyphen (45) and underscore (95), by value. */
  lemma Alphabet(v: Sextet)
    ensures v < 26 ==> Char(v) == 'A' as int + v
    ensures 26 <= v < 52 ==> Char(v) == 'a' as int + v - 26
    ensures 52 <= v < 62 ==> Char(v) == '0' as int + v - 52
    ensures v == 62 ==> Char(v) == 45
    ensures v == 63 ==> Char(v) == 95
  {}

  /** Bits 6k to 6k + 5 of the bytes, with zeros after the end. */
  function SixBits(bytes: seq<Byte>, k: nat): int {
    var j := k / 4 * 3;
    var b0 := if j < |bytes| then bytes[j] else 0;
    var b1 := if j + 1 < |bytes| then bytes[j + 1] else 0;
    var b2 := if j + 2 < |bytes| then bytes[j + 2] else 0;
    if k % 4 == 0 then b0 as int / 4
    else if k % 4 == 1 then b0 as int % 4 * 16 + b1 / 16
    else if k % 4 == 2 then b1 as int % 16 * 4 + b2 / 64
    else b2 as int % 64
  }

  lemma SextetsOfGroups(bytes: seq<Byte>, k: nat)
    requires 3 <= |bytes| && 4 <= k
    ensures SixBits(bytes, k) == SixBits(bytes[3..], k - 4)
  {}

  lemma FirstLetters(bytes: seq<Byte>, k: nat)
    requires k < 4 && k < |Encoded(bytes)|
    ensures 0 <= SixBits(bytes, k) < 64 && Encoded(bytes)[k] == Char(SixBits(bytes, k))
  {
    hide Char;
  }

  lemma NoLettersLeft(bytes: seq<Byte>)
    ensures |bytes| < 3 ==> |Encoded(bytes)| < 4
  {
    hide Char;
  }

  /** Letter k of an encoding stands for the k-th six bits. */
  lemma {:induction false} LetterAt(bytes: seq<Byte>, k: nat)
    requires k < |Encoded(bytes)|
    ensures 0 <= SixBits(bytes, k) < 64 && Encoded(bytes)[k] == Char(SixBits(bytes, k))
    decreases |bytes|
  {
    hide Char;
    hide SixBits;
    if k < 4 {
      FirstLetters(bytes, k);
    } else {
      NoLettersLeft(bytes);
      SextetsOfGroups(bytes, k);
      LetterAt(bytes[3..], k - 4);
    }
  }

  /** A letter of one of the two alphabets. */
  predicate IsLetter(c: CodeUnit) {
    65 <= c <= 90 || 97 <= c <= 122 || 48 <= c <= 57 || c in {43, 45, 47, 95}
  }

  lemma {:induction false} KeptOfWhite(t: Text, c: CodeUnit)
    requires c in t && !IsWhite(c)
    ensures c in StripWhite(t)
  {
    if t[0] != c { KeptOfWhite(t[1..], c); }
  }

  lemma KeptOfPad(t: Text, c: CodeUnit)
    requires c in t && c != PAD
    ensures c in StripPad(t)
  {
    var k :| 0 <= k < |t| && t[k] == c;
    assert StripPad(t) <= t;
    assert k < |StripPad(t)|;
    assert StripPad(t)[k] == c;
  }

  /** One character that is no letter, no blank and no pad sign (61) makes the decoder throw. */
  lemma ForeignIsRefused(t: Text, k: nat)
    requires k < |t| && !IsLetter(t[k]) && t[k] !in {9, 10, 12, 13, 32, 61}
    ensures Decoded(t) == None
  {
    var u := Standard(t) + Padding(|t|);
    assert u[k] == t[k];
    KeptOfWhite(u, t[k]);
    KeptOfPad(StripWhite(u), t[k]);
    var v := StripPad(StripWhite(u));
    var j :| 0 <= j < |v| && v[j] == t[k];
    assert ValueOf(v[j]) == None;
    hide StripWhite;
    hide StripPad;
  }

  /** A text of letters alone is refused exactly when its length leaves one over in fours. */
  lemma LettersAccepted(t: Text)
    requires forall k :: 0 <= k < |t| ==> IsLetter(t[k])
    ensures Decoded(t).Some? <==> |t| % 4 != 1
  {
    var s := Standard(t);
    var u := s + Padding(|t|);
    forall k | 0 <= k < |s| ensures ValueOf(s[k]).Some? && !IsWhite(s[k]) && s[k] != PAD { assert IsLetter(t[k]); }
    NothingToStrip(u);
    if |t| % 4 != 1 {
      PadIsStripped(s);
    } else {
      OnePadTooMany(s);
    }
    hide StripWhite;
    hide IsLetter;
  }

  predicate IsBlank(c: CodeUnit) { c in {9, 10, 12, 13, 32} }

  function LetterCount(t: Text): nat {
    if t == [] then 0 else (if IsBlank(t[0]) then 0 else 1) + LetterCount(t[1..])
  }

  /** Blanks go, pad signs stay, and the letters are all there. */
  lemma {:induction false} BlanksGo(t: Text, pads: Text)
    requires forall k :: 0 <= k < |t| ==> IsLetter(t[k]) || IsBlank(t[k])
    requires forall k :: 0 <= k < |pads| ==> pads[k] == PAD
    ensures StripWhite(Standard(t) + pads) == StripWhite(Standard(t)) + pads
    ensures |StripWhite(Standard(t))| == LetterCount(t) && AllLetters(StripWhite(Standard(t)))
  {
    if t == [] {
      assert Standard(t) + pads == pads;
      NothingToStrip(pads);
    } else {
      BlanksGo(t[1..], pads);
      assert Standard(t)[1..] == Standard(t[1..]);
      assert (Standard(t) + pads)[1..] == Standard(t[1..]) + pads;
      assert IsLetter(t[0]) || IsBlank(t[0]);
      assert StripWhite(Standard(t)) == (if IsBlank(t[0]) then [] else [Standard(t)[0]]) + StripWhite(Standard(t[1..]));
    }
  }

  /** What becomes of letters with pad signs behind them. */
  lemma PadsAccepted(v: Text, pads: Text)
    requires AllLetters(v) && |pads| <= 3 && forall k :: 0 <= k < |pads| ==> pads[k] == PAD
    ensures var u := StripPad(v + pads);
      |u| % 4 != 1 && AllLetters(u) <==> if pads == [] then |v| % 4 != 1 else |pads| != 3 && (|v| + |pads|) % 4 == 0
  {
    var u := v + pads;
    assert ValueOf(PAD) == None;
    if pads == [] {
      assert u == v;
      assert StripPad(u) == v by { if v != [] { assert ValueOf(v[|v| - 1]).Some?; } }
    } else if |u| % 4 == 0 && |pads| <= 2 {
      assert v != [] && ValueOf(v[|v| - 1]).Some?;
      assert StripPad(u) == v;
    } else {
      assert StripPad(u)[|v|] == PAD;
    }
  }

  lemma PadCount(n: nat)
    ensures |Padding(n)| == if n % 4 == 0 then 0 else 4 - n % 4
    ensures forall k :: 0 <= k < |Padding(n)| ==> Padding(n)[k] == PAD
  {}

  lemma WholeQuantums(l: nat, n: nat)
    requires n % 4 != 0
    ensures (l + (4 - n % 4)) % 4 == 0 <==> l % 4 == n % 4
  {}

  /** Letters with blanks among them are accepted or not by their number and by the length of the whole text,
      which decides how many pad signs are put behind it. */
  lemma BlanksAccepted(t: Text)
    requires forall k :: 0 <= k < |t| ==> IsLetter(t[k]) || IsBlank(t[k])
    ensures Decoded(t).Some? <==>
      if |t| % 4 == 0 then LetterCount(t) % 4 != 1 else |t| % 4 != 1 && LetterCount(t) % 4 == |t| % 4
  {
    hide StripWhite;
    hide StripPad;
    hide IsLetter;
    hide IsBlank;
    hide Standard;
    hide AllLetters;
    hide LetterCount;
    hide Padding;
    PadCount(|t|);
    var v, pads := StripWhite(Standard(t)), Padding(|t|);
    BlanksGo(t, pads);
    PadsAccepted(v, pads);
    if |t| % 4 != 0 { WholeQuantums(|v|, |t|); }
    hide Grouped;
    hide Values;
  }

  /** Three pad signs are one too many: one of them stays. */
  lemma OnePadTooMany(s: Text)
    requires |s| % 4 == 1
    ensures !AllLetters(StripPad(s + Padding(|s|)))
  {
    var u := s + Padding(|s|);
    assert |u| == |s| + 3 && u[|s|] == u[|s| + 1] == u[|s| + 2] == PAD;
    assert StripPad(u) == u[..|s| + 1];
    assert StripPad(u)[|s|] == PAD;
    assert ValueOf(PAD) == None;
  }
}
