/** JavaScript strings: sequences of UTF-16 code units, and the order that `String#sort` uses. */
module Texts {
  type CodeUnit = c: int | 0 <= c < 0x1_0000
  type Text = seq<CodeUnit>
  type Byte = b: int | 0 <= b < 0x100

  /** The code units of an ASCII literal. */
  function Lit(s: string): (t: Text)
    ensures |t| == |s|
  {
    seq(|s|, i requires 0 <= i < |s| => s[i] as int % 0x1_0000)
  }

  /** Strict lexicographic order by code unit. */
  predicate Less(a: Text, b: Text) {
    b != [] && (a == [] || a[0] < b[0] || (a[0] == b[0] && Less(a[1..], b[1..])))
  }

  lemma {:induction false} LessIsTotal(a: Text, b: Text)
    ensures Less(a, b) || a == b || Less(b, a)
    ensures !(Less(a, b) && Less(b, a))
    ensures Less(a, b) ==> a != b
  {
    if a != [] && b != [] && a[0] == b[0] {
      LessIsTotal(a[1..], b[1..]);
      assert a == [a[0]] + a[1..] && b == [b[0]] + b[1..];
    }
  }

  lemma {:induction false} LessIsTransitive(a: Text, b: Text, c: Text)
    requires Less(a, b) && Less(b, c)
    ensures Less(a, c)
  {
    if a != [] && a[0] == b[0] && b[0] == c[0] {
      LessIsTransitive(a[1..], b[1..], c[1..]);
    }
  }

  /** Text x comes first: at the first place where the two differ it has the smaller code unit, or it
      ends there. */
  predicate Precedes(x: Text, y: Text) {
    exists k :: 0 <= k < |y| && PrecedesAt(x, y, k)
  }

  predicate PrecedesAt(x: Text, y: Text, k: nat) {
    k <= |x| && k < |y| && x[..k] == y[..k] && (k == |x| || x[k] < y[k])
  }

  lemma SameHead(x: Text, y: Text, k: nat)
    ensures PrecedesAt(x, y, k) && k > 0 ==> x[0] == y[0]
  {
    if PrecedesAt(x, y, k) && k > 0 { assert x[..k][0] == y[..k][0]; }
  }

  lemma {:induction false} LessIsPrecedes(x: Text, y: Text)
    ensures Less(x, y) <==> Precedes(x, y)
    decreases |x|
  {
    if x == [] || y == [] || x[0] != y[0] {
      if Less(x, y) { assert PrecedesAt(x, y, 0); }
      if Precedes(x, y) {
        var k :| 0 <= k < |y| && PrecedesAt(x, y, k);
        SameHead(x, y, k);
      }
    } else {
      LessIsPrecedes(x[1..], y[1..]);
      if Precedes(x[1..], y[1..]) {
        var k :| 0 <= k < |y[1..]| && PrecedesAt(x[1..], y[1..], k);
        assert x[..k + 1] == [x[0]] + x[1..][..k] && y[..k + 1] == [y[0]] + y[1..][..k];
        assert PrecedesAt(x, y, k + 1);
      }
      if Precedes(x, y) {
        var k :| 0 <= k < |y| && PrecedesAt(x, y, k);
        assert x[1..][..k - 1] == x[..k][1..] == y[..k][1..] == y[1..][..k - 1];
        assert PrecedesAt(x[1..], y[1..], k - 1);
      }
    }
  }

  /** Every pair of neighbours, and so every pair, is in order. */
  predicate Ascending(keys: seq<Text>) {
    forall i, j :: 0 <= i < j < |keys| ==> Less(keys[i], keys[j])
  }

  lemma LeastExists(s: set<Text>) returns (least: Text)
    requires s != {}
    ensures least in s && forall k :: k in s && k != least ==> Less(least, k)
  {
    var some :| some in s;
    if s == {some} {
      least := some;
    } else {
      var rest := s - {some};
      least := LeastExists(rest);
      LessIsTotal(some, least);
      if Less(some, least) {
        forall k | k in s && k != some ensures Less(some, k) {
          if k != least { LessIsTransitive(some, least, k); }
        }
        least := some;
      }
    }
  }

  /** The keys of the set, neighbours in the order of their code units, so each once. */
  ghost predicate Lists(keys: seq<Text>, s: set<Text>) {
    && (forall k :: k in keys <==> k in s)
    && forall i :: 0 <= i < |keys| - 1 ==> Precedes(keys[i], keys[i + 1])
  }

  predicate IsLeast(s: set<Text>, k: Text) {
    k in s && forall other :: other in s && other != k ==> Less(k, other)
  }

  /** `Object.keys(obj).sort()`: the keys in ascending code-unit order, each once. */
  function SortedKeys(s: set<Text>): (keys: seq<Text>)
    ensures |keys| == |s|
    ensures forall k :: k in keys <==> k in s
    ensures Ascending(keys)
    decreases |s|
  {
    if s == {} then []
    else
      var least := LeastOf(s);
      var rest := SortedKeys(s - {least});
      assert forall k :: k in [least] + rest <==> k in s;
      [least] + rest
  }

  function LeastOf(s: set<Text>): (k: Text)
    requires s != {}
    ensures IsLeast(s, k)
  {
    assert exists k :: IsLeast(s, k) by {
      var k := LeastExists(s);
      assert IsLeast(s, k);
    }
    assert forall x, y :: IsLeast(s, x) && IsLeast(s, y) ==> x == y by {
      forall x, y | IsLeast(s, x) && IsLeast(s, y) ensures x == y { LessIsTotal(x, y); }
    }
    var k :| IsLeast(s, k);
    k
  }

  /** Sorting leaves no choice: an ascending sequence is determined by its set of keys. */
  lemma {:induction false} AscendingIsUnique(a: seq<Text>, b: seq<Text>)
    requires Ascending(a) && Ascending(b)
    requires forall k :: k in a <==> k in b
    ensures a == b
  {
    assert b != [] ==> b[0] in a;
    if a != [] {
      assert a[0] in b;
      LessIsTotal(a[0], b[0]);
      forall k ensures k in a[1..] <==> k in b[1..] {
        LessIsTotal(a[0], k);
        if k in a[1..] { assert k in b; }
        if k in b[1..] { assert k in a; }
      }
      AscendingIsUnique(a[1..], b[1..]);
      assert a == [a[0]] + a[1..] && b == [b[0]] + b[1..];
    }
  }

  /** Neighbours in order make a list in order. */
  lemma {:induction false} ChainAscends(keys: seq<Text>, i: nat, j: nat)
    requires forall k :: 0 <= k < |keys| - 1 ==> Precedes(keys[k], keys[k + 1])
    requires i < j < |keys|
    ensures Less(keys[i], keys[j])
    decreases j
  {
    LessIsPrecedes(keys[j - 1], keys[j]);
    if i < j - 1 {
      ChainAscends(keys, i, j - 1);
      LessIsTransitive(keys[i], keys[j - 1], keys[j]);
    }
  }

  /** The sorted keys are the one list of the keys in the order of their code units. */
  lemma SortedKeysListed(s: set<Text>, keys: seq<Text>)
    ensures Lists(keys, s) <==> keys == SortedKeys(s)
  {
    hide Less;
    if Lists(keys, s) {
      forall i, j | 0 <= i < j < |keys| ensures Less(keys[i], keys[j]) { ChainAscends(keys, i, j); }
      AscendingIsUnique(keys, SortedKeys(s));
    }
    if keys == SortedKeys(s) {
      forall i | 0 <= i < |keys| - 1 ensures Precedes(keys[i], keys[i + 1]) { LessIsPrecedes(keys[i], keys[i + 1]); }
    }
  }
}
