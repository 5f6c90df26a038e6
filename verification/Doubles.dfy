/** IEEE 754 binary64 arithmetic on integers, as JavaScript numbers do it: the exact result,
    rounded to 53 significant bits, ties to even. Overflow to infinity is left at a large finite
    value, which every comparison below treats alike. */
module Doubles {
  const TWO_53: int := 0x20_0000_0000_0000
  const TWO_52: int := 0x10_0000_0000_0000

  /** The leading 53 bits of x and the weight of the last of them. */
  function Leading(x: nat): (r: (nat, nat))
    ensures r.1 > 0 && r.0 * r.1 <= x < (r.0 + 1) * r.1
    ensures x < TWO_53 ==> r == (x, 1)
    ensures x >= TWO_53 ==> r.0 >= TWO_52 && r.1 >= 2
  {
    if x < TWO_53 then (x, 1)
    else
      var (m, u) := Leading(x / 2);
      HalveBounds(x, m, u);
      (m, 2 * u)
  }

  lemma HalveBounds(x: nat, m: nat, u: nat)
    requires u > 0 && m * u <= x / 2 < (m + 1) * u
    ensures m * (2 * u) <= x < (m + 1) * (2 * u)
  {
    assert m * (2 * u) == 2 * (m * u);
    assert (m + 1) * (2 * u) == 2 * ((m + 1) * u);
  }

  /** Round to nearest, ties to even: never more than half a unit in the last place away. */
  function RoundNat(x: nat): (r: nat)
    ensures 2 * (r - x) <= Leading(x).1 && 2 * (x - r) <= Leading(x).1
  {
    var (m, u) := Leading(x);
    var below := x - m * u;
    if 2 * below > u || (2 * below == u && m % 2 == 1) then (m + 1) * u else m * u
  }

  function Round(x: int): int {
    if x < 0 then 0 - RoundNat(-x) else RoundNat(x)
  }

  function Pow2(e: nat): (p: nat)
    ensures p > 0
  {
    if e == 0 then 1 else 2 * Pow2(e - 1)
  }

  /** The unit in the last place is a power of two, and 53 bits are enough for the rest. */
  lemma {:induction false} LeadingUnit(x: nat) returns (e: nat)
    ensures Leading(x).1 == Pow2(e) && Leading(x).0 < TWO_53
    ensures x < TWO_53 <==> e == 0
  {
    if x < TWO_53 {
      e := 0;
    } else {
      e := LeadingUnit(x / 2);
      e := e + 1;
    }
  }

  /** The rounded value is a double, at most half a unit in the last place away, and of two that are
      equally near the one with the even significand. */
  lemma RoundIsNearestEven(x: nat) returns (m: nat, e: nat)
    ensures RoundNat(x) == m * Pow2(e) && m <= 9007199254740992 && (e > 0 ==> m >= 4503599627370496)
    ensures x < 9007199254740992 <==> e == 0
    ensures var off := if RoundNat(x) < x then x - RoundNat(x) else RoundNat(x) - x;
      2 * off < Pow2(e) || (2 * off == Pow2(e) && m % 2 == 0)
  {
    e := LeadingUnit(x);
    var (lead, u) := Leading(x);
    var below := x - lead * u;
    m := if 2 * below > u || (2 * below == u && lead % 2 == 1) then lead + 1 else lead;
    assert (lead + 1) * u == lead * u + u;
    hide Pow2;
    hide Leading;
  }

  /** Integers below 2^53 are doubles; nothing from 2^53 on rounds below it. */
  lemma RoundIsExactBelow(x: int)
    ensures -TWO_53 < x < TWO_53 ==> Round(x) == x
    ensures x >= TWO_53 ==> Round(x) >= TWO_53
  {
    var n := if x < 0 then -x else x;
    var (m, u) := Leading(n);
    if n >= TWO_53 {
      assert m * u >= TWO_52 * 2 by { Product(m, u); }
      assert (m + 1) * u >= m * u;
    }
  }

  lemma Product(m: int, u: int)
    requires m >= TWO_52 && u >= 2
    ensures m * u >= TWO_52 * 2
  {
    assert m * u == TWO_52 * 2 + (m - TWO_52) * u + TWO_52 * (u - 2);
    assert (m - TWO_52) * u >= 0 && TWO_52 * (u - 2) >= 0;
  }

  /** One term of a line-item total: both factors are positive safe integers. */
  datatype Line = Line(qty: int, price: int)

  predicate Positive(lines: seq<Line>) {
    forall k :: 0 <= k < |lines| ==> 0 < lines[k].qty && 0 < lines[k].price
  }

  /** `lines.reduce((sum, l) => sum + l.qty * l.price, acc)` as a double computes it. */
  function DoubleTotal(acc: int, lines: seq<Line>): int
    decreases |lines|
  {
    if lines == [] then acc
    else DoubleTotal(Round(acc + Round(lines[0].qty * lines[0].price)), lines[1..])
  }

  function ExactTotal(lines: seq<Line>): int {
    if lines == [] then 0 else lines[0].qty * lines[0].price + ExactTotal(lines[1..])
  }

  /** The rounded fold is exact while the sum is safe, and can never come back below 2^53. */
  lemma {:induction false} DoubleTotalIsExact(acc: int, lines: seq<Line>)
    requires 0 <= acc && Positive(lines)
    ensures acc + ExactTotal(lines) < TWO_53 ==> DoubleTotal(acc, lines) == acc + ExactTotal(lines)
    ensures acc + ExactTotal(lines) >= TWO_53 ==> DoubleTotal(acc, lines) >= TWO_53
    ensures ExactTotal(lines) >= 0
    decreases |lines|
  {
    hide RoundNat;
    if lines != [] {
      var product := lines[0].qty * lines[0].price;
      assert product > 0;
      var next := Round(acc + Round(product));
      RoundIsExactBelow(product);
      RoundIsExactBelow(acc + Round(product));
      DoubleTotalIsExact(next, lines[1..]);
    }
  }

  /** So a rounded total equal to a safe integer was exact in every product and partial sum. */
  lemma EveryPartialSumIsExact(lines: seq<Line>, k: nat)
    requires Positive(lines) && k <= |lines|
    requires DoubleTotal(0, lines) < TWO_53
    ensures DoubleTotal(0, lines[..k]) == ExactTotal(lines[..k])
    ensures k < |lines| ==> Round(lines[k].qty * lines[k].price) == lines[k].qty * lines[k].price
  {
    hide Round;
    hide DoubleTotal;
    hide ExactTotal;
    DoubleTotalIsExact(0, lines);
    PrefixIsSmaller(lines, k);
    DoubleTotalIsExact(0, lines[..k]);
    if k < |lines| {
      assert lines[k].qty * lines[k].price > 0;
      RoundIsExactBelow(lines[k].qty * lines[k].price);
    }
  }

  lemma {:induction false} PrefixIsSmaller(lines: seq<Line>, k: nat)
    requires Positive(lines) && k <= |lines|
    ensures 0 <= ExactTotal(lines[..k])
    ensures ExactTotal(lines[..k]) + (if k < |lines| then lines[k].qty * lines[k].price else 0) <= ExactTotal(lines)
  {
    if lines != [] {
      assert lines[0].qty * lines[0].price > 0;
      if k > 0 {
        PrefixIsSmaller(lines[1..], k - 1);
        assert lines[..k][1..] == lines[1..][..k - 1];
      } else {
        PrefixIsSmaller(lines[1..], 0);
      }
    }
  }
}
