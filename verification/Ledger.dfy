/** The hash-chained ledger (packages/facilitator/src/ledger.ts): append, verify, and what a
    change to a stored row does to the verdict. */
module Ledger {
  import opened Options
  import opened Texts
  import opened CanonicalJson
  import opened Crypto

  datatype Entry = Entry(eventType: Text, settlementId: Option<Text>, actor: Text, payload: map<Text, Json>)

  /** A row of `ledger_events` (packages/facilitator/src/db/schema.sql:183-204), its payload
      column as the text it is; `created_at`, which nothing hashes, is left out. */
  datatype Row = Row(
    seqNo: nat,
    eventType: Text,
    settlementId: Option<Text>,
    actor: Text,
    payload: Text,
    prevHash: Text,
    rowHash: Text)

  datatype Verdict = Intact(head: Text, count: nat) | BrokenAt(seqNo: nat) | Threw

  const EVENT_TYPE := Lit("event_type")
  const SETTLEMENT_ID := Lit("settlement_id")
  const ACTOR := Lit("actor")
  const PAYLOAD := Lit("payload")
  const PREV_HASH := Lit("prev_hash")

  /** The value whose canonical bytes a row hash covers. */
  function Hashed(eventType: Text, settlementId: Option<Text>, actor: Text, payload: Json, prev: Text): Json {
    Obj(map[
      EVENT_TYPE := Str(eventType),
      SETTLEMENT_ID := if settlementId.Some? then Str(settlementId.value) else Null,
      ACTOR := Str(actor),
      PAYLOAD := payload,
      PREV_HASH := Str(prev)
    ])
  }

  lemma HashedIsCanonical(eventType: Text, settlementId: Option<Text>, actor: Text, payload: Json, prev: Text)
    requires Canonical(payload)
    ensures Canonical(Hashed(eventType, settlementId, actor, payload, prev))
  {
    hide Lit;
  }

  function RowHash(eventType: Text, settlementId: Option<Text>, actor: Text, payload: Json, prev: Text): Text
    requires Canonical(payload)
  {
    HashedIsCanonical(eventType, settlementId, actor, payload, prev);
    Sha256Hex(Encode(Hashed(eventType, settlementId, actor, payload, prev)))
  }

  lemma LedgerKeysDiffer()
    ensures |EVENT_TYPE| == 10 && |SETTLEMENT_ID| == 13 && |ACTOR| == 5 && |PAYLOAD| == 7 && |PREV_HASH| == 9
  {}

  lemma HashedBinds(e1: Text, s1: Option<Text>, a1: Text, p1: Json, h1: Text,
                    e2: Text, s2: Option<Text>, a2: Text, p2: Json, h2: Text)
    requires Hashed(e1, s1, a1, p1, h1) == Hashed(e2, s2, a2, p2, h2)
    ensures e1 == e2 && s1 == s2 && a1 == a2 && p1 == p2 && h1 == h2
  {
    var x, y := Hashed(e1, s1, a1, p1, h1), Hashed(e2, s2, a2, p2, h2);
    LedgerKeysDiffer();
    hide Lit;
    assert x.fields[EVENT_TYPE] == y.fields[EVENT_TYPE];
    assert x.fields[SETTLEMENT_ID] == y.fields[SETTLEMENT_ID];
    assert x.fields[ACTOR] == y.fields[ACTOR];
    assert x.fields[PAYLOAD] == y.fields[PAYLOAD];
    assert x.fields[PREV_HASH] == y.fields[PREV_HASH];
  }

  /** A row hash fixes every field under it, and is never the genesis marker. */
  lemma RowHashBinds(e1: Text, s1: Option<Text>, a1: Text, p1: Json, h1: Text,
                     e2: Text, s2: Option<Text>, a2: Text, p2: Json, h2: Text)
    requires Canonical(p1) && Canonical(p2)
    ensures RowHash(e1, s1, a1, p1, h1) == RowHash(e2, s2, a2, p2, h2)
       <==> e1 == e2 && s1 == s2 && a1 == a2 && p1 == p2 && h1 == h2
    ensures RowHash(e1, s1, a1, p1, h1) != GENESIS
  {
    hide Hashed;
    var x, y := Hashed(e1, s1, a1, p1, h1), Hashed(e2, s2, a2, p2, h2);
    HashedIsCanonical(e1, s1, a1, p1, h1);
    HashedIsCanonical(e2, s2, a2, p2, h2);
    hide Encode;
    hide Canonical;
    DigestBinds(Encode(x), Encode(y));
    if Encode(x) == Encode(y) {
      EncodeIsInjective(x, y);
      HashedBinds(e1, s1, a1, p1, h1, e2, s2, a2, p2, h2);
    }
  }

  // ---------------------------------------------------------------- specification

  /** The content of a row, when its payload column parses to a canonical value. */
  predicate Readable(r: Row) { Parse(r.payload).Value? && Canonical(Parse(r.payload).v) }

  function PayloadOf(r: Row): Json
    requires Readable(r)
  {
    Parse(r.payload).v
  }

  function Recomputed(r: Row): Text
    requires Readable(r)
  {
    RowHash(r.eventType, r.settlementId, r.actor, PayloadOf(r), r.prevHash)
  }

  predicate Links(r: Row, prev: Text) {
    r.prevHash == prev && Readable(r) && Recomputed(r) == r.rowHash
  }

  /** The chain from `prev` on: every row links to the one before it. */
  predicate Chained(rows: seq<Row>, prev: Text)
    decreases |rows|
  {
    rows == [] || (Links(rows[0], prev) && Chained(rows[1..], rows[0].rowHash))
  }

  function HeadFrom(rows: seq<Row>, prev: Text): Text {
    if rows == [] then prev else rows[|rows| - 1].rowHash
  }

  /** The verdict on the first row that does not link, if there is one. */
  function Judge(rows: seq<Row>, prev: Text, count: nat): Verdict
    decreases |rows|
  {
    if rows == [] then Intact(prev, count)
    else if rows[0].prevHash != prev then BrokenAt(rows[0].seqNo)
    else if !Readable(rows[0]) then Threw
    else if Recomputed(rows[0]) != rows[0].rowHash then BrokenAt(rows[0].seqNo)
    else Judge(rows[1..], rows[0].rowHash, count + 1)
  }

  function NewRow(seqNo: nat, e: Entry, prev: Text): Row
    requires Canonical(Obj(e.payload))
  {
    Row(seqNo, e.eventType, e.settlementId, e.actor, Encode(Obj(e.payload)), prev,
        RowHash(e.eventType, e.settlementId, e.actor, Obj(e.payload), prev))
  }

  // ---------------------------------------------------------------- the table

  class Table {
    var rows: seq<Row>
    var nextSeq: nat

    constructor ()
      ensures rows == []
    {
      rows := [];
      nextSeq := 1;
    }

    method CurrentHead() returns (head: Text)
      ensures head == HeadFrom(rows, GENESIS)
    {
      head := if |rows| > 0 then rows[|rows| - 1].rowHash else GENESIS;
    }

    /** `appendLedger`: throws, writing nothing, when the payload is not canonical. */
    method Append(e: Entry) returns (ok: bool)
      modifies this
      ensures ok <==> Canonical(Obj(e.payload))
      ensures !ok ==> rows == old(rows) && nextSeq == old(nextSeq)
      ensures ok ==> rows == old(rows) + [NewRow(old(nextSeq), e, HeadFrom(old(rows), GENESIS))]
      ensures ok ==> nextSeq == old(nextSeq) + 1
      ensures old(Chained(rows, GENESIS)) ==> Chained(rows, GENESIS)
    {
      if !Canonical(Obj(e.payload)) { return false; }
      var prevHash := CurrentHead();
      var rowHash := RowHash(e.eventType, e.settlementId, e.actor, Obj(e.payload), prevHash);
      var payloadText := Encode(Obj(e.payload));
      rows := rows + [Row(nextSeq, e.eventType, e.settlementId, e.actor, payloadText, prevHash, rowHash)];
      nextSeq := nextSeq + 1;
      if old(Chained(rows, GENESIS)) { AppendKeepsChain(old(rows), old(nextSeq), e, GENESIS); }
      return true;
    }

    /** `verifyLedger`: walks the chain, carrying the hash that the next row must name. */
    method VerifyAll() returns (v: Verdict)
      ensures v == Judge(rows, GENESIS, 0)
    {
      var expectedPrev := GENESIS;
      var i := 0;
      assert rows[0..] == rows;
      while i < |rows|
        invariant 0 <= i <= |rows|
        invariant Judge(rows, GENESIS, 0) == Judge(rows[i..], expectedPrev, i)
      {
        var row := rows[i];
        assert rows[i..][1..] == rows[i + 1..];
        if row.prevHash != expectedPrev { return BrokenAt(row.seqNo); }
        var parsed := Parse(row.payload);
        if parsed.SyntaxError? || !Canonical(parsed.v) { return Threw; }
        var recomputed := RowHash(row.eventType, row.settlementId, row.actor, parsed.v, row.prevHash);
        if recomputed != row.rowHash { return BrokenAt(row.seqNo); }
        expectedPrev := row.rowHash;
        i := i + 1;
      }
      return Intact(expectedPrev, |rows|);
    }
  }

  // ---------------------------------------------------------------- theorems

  /** What a canonical payload column parses back to. */
  lemma NewRowLinks(seqNo: nat, e: Entry, prev: Text)
    requires Canonical(Obj(e.payload))
    ensures Links(NewRow(seqNo, e, prev), prev)
    ensures Readable(NewRow(seqNo, e, prev)) && PayloadOf(NewRow(seqNo, e, prev)) == Obj(e.payload)
  {
    ParseInvertsEncode(Obj(e.payload));
  }

  lemma {:induction false} ChainConcat(a: seq<Row>, b: seq<Row>, prev: Text)
    ensures Chained(a + b, prev) <==> Chained(a, prev) && Chained(b, HeadFrom(a, prev))
    decreases |a|
  {
    hide Links;
    if a == [] {
      assert a + b == b;
    } else {
      assert (a + b)[1..] == a[1..] + b;
      ChainConcat(a[1..], b, a[0].rowHash);
      assert HeadFrom(a, prev) == HeadFrom(a[1..], a[0].rowHash);
    }
  }

  lemma AppendKeepsChain(rows: seq<Row>, seqNo: nat, e: Entry, prev: Text)
    requires Canonical(Obj(e.payload)) && Chained(rows, prev)
    ensures Chained(rows + [NewRow(seqNo, e, HeadFrom(rows, prev))], prev)
  {
    var last := NewRow(seqNo, e, HeadFrom(rows, prev));
    NewRowLinks(seqNo, e, HeadFrom(rows, prev));
    assert Chained([last], HeadFrom(rows, prev));
    ChainConcat(rows, [last], prev);
  }

  /** The verifier accepts exactly the chained logs. */
  lemma {:induction false} JudgeIsChained(rows: seq<Row>, prev: Text, count: nat)
    ensures Judge(rows, prev, count).Intact? <==> Chained(rows, prev)
    ensures Chained(rows, prev) ==> Judge(rows, prev, count) == Intact(HeadFrom(rows, prev), count + |rows|)
    decreases |rows|
  {
    if rows != [] {
      JudgeIsChained(rows[1..], rows[0].rowHash, count + 1);
      assert HeadFrom(rows, prev) == HeadFrom(rows[1..], rows[0].rowHash);
    }
  }

  /** The log that appending `entries` one by one to an empty table leaves. */
  function Build(entries: seq<Entry>): seq<Row>
    requires forall k :: 0 <= k < |entries| ==> Canonical(Obj(entries[k].payload))
  {
    if entries == [] then []
    else
      var before := Build(entries[..|entries| - 1]);
      before + [NewRow(|entries|, entries[|entries| - 1], HeadFrom(before, GENESIS))]
  }

  /** Every log built by appends verifies, and counts its rows. */
  lemma {:induction false} BuiltLogVerifies(entries: seq<Entry>)
    requires forall k :: 0 <= k < |entries| ==> Canonical(Obj(entries[k].payload))
    ensures Chained(Build(entries), GENESIS)
    ensures Judge(Build(entries), GENESIS, 0) == Intact(HeadFrom(Build(entries), GENESIS), |entries|)
  {
    BuiltLogLength(entries);
    if entries != [] {
      var before := entries[..|entries| - 1];
      BuiltLogVerifies(before);
      AppendKeepsChain(Build(before), |entries|, entries[|entries| - 1], GENESIS);
    }
    JudgeIsChained(Build(entries), GENESIS, 0);
  }

  /** A log that verifies hangs on the genesis text, and an empty one has it for its head. */
  lemma LogsHangOnGenesis(rows: seq<Row>)
    ensures Judge(rows, GENESIS, 0).Intact? && rows != [] ==> rows[0].prevHash == Lit("HUNDI_GENESIS")
    ensures rows == [] ==> Judge(rows, GENESIS, 0) == Intact(Lit("HUNDI_GENESIS"), 0)
  {
    assert GENESIS == Lit("HUNDI_GENESIS");
  }

  lemma {:induction false} BuiltLogLength(entries: seq<Entry>)
    requires forall k :: 0 <= k < |entries| ==> Canonical(Obj(entries[k].payload))
    ensures |Build(entries)| == |entries|
  {
    if entries != [] { BuiltLogLength(entries[..|entries| - 1]); }
  }

  predicate SameContent(a: Row, b: Row) {
    && a.eventType == b.eventType && a.settlementId == b.settlementId && a.actor == b.actor
    && Readable(a) && Readable(b) && PayloadOf(a) == PayloadOf(b)
    && a.prevHash == b.prevHash && a.rowHash == b.rowHash
  }

  predicate SameHashedFields(a: Row, b: Row)
    requires Readable(a) && Readable(b)
  {
    && a.eventType == b.eventType && a.settlementId == b.settlementId && a.actor == b.actor
    && PayloadOf(a) == PayloadOf(b) && a.prevHash == b.prevHash
  }

  lemma RecomputedBinds(a: Row, b: Row)
    requires Readable(a) && Readable(b)
    ensures Recomputed(a) == Recomputed(b) <==> SameHashedFields(a, b)
    ensures Recomputed(a) != GENESIS
  {
    RowHashBinds(a.eventType, a.settlementId, a.actor, PayloadOf(a), a.prevHash,
                 b.eventType, b.settlementId, b.actor, PayloadOf(b), b.prevHash);
  }

  /** A chained log ends in the genesis marker exactly when it is empty. */
  lemma HeadIsGenesis(rows: seq<Row>)
    requires Chained(rows, GENESIS)
    ensures HeadFrom(rows, GENESIS) == GENESIS <==> rows == []
  {
    if rows != [] {
      LastLinks(rows, GENESIS);
      RecomputedBinds(rows[|rows| - 1], rows[|rows| - 1]);
    }
  }

  lemma {:induction false} LastLinks(rows: seq<Row>, prev: Text)
    requires rows != [] && Chained(rows, prev)
    ensures Links(rows[|rows| - 1], HeadFrom(rows[..|rows| - 1], prev))
    ensures Chained(rows[..|rows| - 1], prev)
  {
    hide Parse;
    hide Canonical;
    hide RowHash;
    var front, last := rows[..|rows| - 1], rows[|rows| - 1];
    assert rows == front + [last];
    ChainConcat(front, [last], prev);
  }

  /** The head commits to the whole history: two verifying logs with one head hold the same
      events, in the same order and number. */
  lemma {:induction false} SameHeadSameLog(a: seq<Row>, b: seq<Row>)
    requires Chained(a, GENESIS) && Chained(b, GENESIS)
    requires HeadFrom(a, GENESIS) == HeadFrom(b, GENESIS)
    ensures |a| == |b|
    ensures forall k :: 0 <= k < |a| ==> SameContent(a[k], b[k])
    decreases |a|
  {
    hide Parse;
    hide Canonical;
    hide RowHash;
    HeadIsGenesis(a);
    HeadIsGenesis(b);
    if a != [] {
      LastLinks(a, GENESIS);
      LastLinks(b, GENESIS);
      var x, y := a[|a| - 1], b[|b| - 1];
      RecomputedBinds(x, y);
      SameHeadSameLog(a[..|a| - 1], b[..|b| - 1]);
      forall k | 0 <= k < |a| ensures SameContent(a[k], b[k]) {
        if k < |a| - 1 { assert SameContent(a[..|a| - 1][k], b[..|b| - 1][k]); }
      }
    }
  }

  /** The verdict on a log whose first part is sound is the verdict on the rest. */
  lemma {:induction false} JudgeSkips(a: seq<Row>, b: seq<Row>, prev: Text, count: nat)
    requires Chained(a, prev)
    ensures Judge(a + b, prev, count) == Judge(b, HeadFrom(a, prev), count + |a|)
    decreases |a|
  {
    hide Readable;
    hide Recomputed;
    if a == [] {
      assert a + b == b;
    } else {
      assert (a + b)[1..] == a[1..] + b;
      JudgeSkips(a[1..], b, a[0].rowHash, count + 1);
      assert HeadFrom(a, prev) == HeadFrom(a[1..], a[0].rowHash);
    }
  }

  lemma JudgeOne(r: Row, after: seq<Row>, prev: Text, count: nat)
    ensures Judge([r] + after, prev, count) ==
      if r.prevHash != prev then BrokenAt(r.seqNo)
      else if !Readable(r) then Threw
      else if Recomputed(r) != r.rowHash then BrokenAt(r.seqNo)
      else Judge(after, r.rowHash, count + 1)
  {
    hide Readable;
    hide Recomputed;
    assert ([r] + after)[1..] == after;
  }

  /** Where the verdict stands after a sound first part and one more row. */
  lemma JudgeAt(before: seq<Row>, r: Row, after: seq<Row>)
    requires Chained(before, GENESIS)
    ensures var prev := HeadFrom(before, GENESIS);
      Judge(before + ([r] + after), GENESIS, 0) ==
        if r.prevHash != prev then BrokenAt(r.seqNo)
        else if !Readable(r) then Threw
        else if Recomputed(r) != r.rowHash then BrokenAt(r.seqNo)
        else Judge(after, r.rowHash, |before| + 1)
  {
    hide Readable;
    hide Recomputed;
    hide Judge;
    hide Chained;
    JudgeSkips(before, [r] + after, GENESIS, 0);
    JudgeOne(r, after, HeadFrom(before, GENESIS), |before|);
  }

  lemma ChainedAt(before: seq<Row>, r: Row, after: seq<Row>)
    requires Chained(before + ([r] + after), GENESIS)
    ensures Chained(before, GENESIS) && Links(r, HeadFrom(before, GENESIS)) && Chained(after, r.rowHash)
  {
    hide Links;
    ChainConcat(before, [r] + after, GENESIS);
    assert ([r] + after)[1..] == after;
  }

  /** A row whose own hash is consistent with its fields. */
  predicate SelfConsistent(r: Row) { Readable(r) && Recomputed(r) == r.rowHash }

  /** What the verifier says after row k of a sound log is replaced by `forged`. */
  function TamperVerdict(rows: seq<Row>, k: nat, forged: Row): Verdict
    requires k < |rows|
  {
    if forged.prevHash != rows[k].prevHash then BrokenAt(rows[k].seqNo)
    else if !Readable(forged) then Threw
    else if !SelfConsistent(forged) then BrokenAt(rows[k].seqNo)
    else if forged.rowHash == rows[k].rowHash then Intact(HeadFrom(rows, GENESIS), |rows|)
    else if k + 1 < |rows| then BrokenAt(rows[k + 1].seqNo)
    else Intact(forged.rowHash, |rows|)
  }

  /** Tamper location, for every replacement of one row (its sequence number kept): the verifier
      names that row unless the forger recomputed the row hash, and then it names the next row;
      only a recomputed last row passes, and it changes the head. */
  lemma TamperIsLocated(rows: seq<Row>, k: nat, forged: Row)
    requires Chained(rows, GENESIS) && k < |rows| && forged.seqNo == rows[k].seqNo
    ensures Judge(rows[k := forged], GENESIS, 0) == TamperVerdict(rows, k, forged)
  {
    hide Readable;
    hide Recomputed;
    hide Judge;
    hide Chained;
    var before, r, after := rows[..k], rows[k], rows[k + 1..];
    assert rows == before + ([r] + after);
    assert rows[k := forged] == before + ([forged] + after);
    ChainedAt(before, r, after);
    JudgeAt(before, forged, after);
    TamperRest(after, r.rowHash, forged.rowHash, k + 1);
    assert HeadFrom(after, r.rowHash) == HeadFrom(rows, GENESIS);
  }

  lemma TamperRest(after: seq<Row>, was: Text, becomes: Text, count: nat)
    requires Chained(after, was)
    ensures Judge(after, becomes, count) ==
      if was == becomes then Intact(HeadFrom(after, was), count + |after|)
      else if after == [] then Intact(becomes, count)
      else BrokenAt(after[0].seqNo)
  {
    hide Readable;
    hide Recomputed;
    JudgeIsChained(after, was, count);
  }

  /** So a change to the hashed fields alone, or to a hash column alone, is reported as exactly
      that row. The payload counts as the value it parses to, not as text. */
  lemma OneSidedTamperIsNamed(rows: seq<Row>, k: nat, forged: Row)
    requires Chained(rows, GENESIS) && k < |rows| && forged.seqNo == rows[k].seqNo && Readable(forged)
    ensures Readable(rows[k])
    ensures SameContent(rows[k], forged) ==> Judge(rows[k := forged], GENESIS, 0) == Judge(rows, GENESIS, 0)
    ensures forged.rowHash == rows[k].rowHash && !SameContent(rows[k], forged) ==>
      Judge(rows[k := forged], GENESIS, 0) == BrokenAt(rows[k].seqNo)
    ensures SameHashedFields(rows[k], forged) && forged.rowHash != rows[k].rowHash ==>
      Judge(rows[k := forged], GENESIS, 0) == BrokenAt(rows[k].seqNo)
  {
    NeighboursDiffer(rows, k);
    TamperIsLocated(rows, k, forged);
    RecomputedBinds(rows[k], forged);
    JudgeIsChained(rows, GENESIS, 0);
    hide Judge;
    hide Chained;
    hide Recomputed;
    hide Readable;
  }

  /** No hash repeats on the step to the next row: that would need a row that names itself. */
  lemma {:induction false} NeighboursDiffer(rows: seq<Row>, k: nat)
    requires Chained(rows, GENESIS) && k < |rows|
    ensures rows[k].rowHash != rows[k].prevHash
    ensures Links(rows[k], HeadFrom(rows[..k], GENESIS))
    decreases k
  {
    hide Parse;
    hide Canonical;
    hide RowHash;
    var front := rows[..k + 1];
    assert rows == front + rows[k + 1..];
    ChainConcat(front, rows[k + 1..], GENESIS);
    LastLinks(front, GENESIS);
    assert front[..k] == rows[..k];
    var r := rows[k];
    if k == 0 {
      RecomputedBinds(r, r);
    } else {
      NeighboursDiffer(rows, k - 1);
      var q := rows[k - 1];
      RecomputedBinds(r, q);
    }
  }

  /** Deleting one row shows at the next one; only cutting the tail off cannot show. */
  lemma DeletionIsLocated(rows: seq<Row>, k: nat)
    requires Chained(rows, GENESIS) && k < |rows|
    ensures Judge(rows[..k] + rows[k + 1..], GENESIS, 0)
         == if k + 1 < |rows| then BrokenAt(rows[k + 1].seqNo) else Intact(HeadFrom(rows[..k], GENESIS), k)
  {
    hide Readable;
    hide Recomputed;
    hide Judge;
    hide Chained;
    var before, r, after := rows[..k], rows[k], rows[k + 1..];
    assert rows == before + ([r] + after);
    ChainedAt(before, r, after);
    NeighboursDiffer(rows, k);
    if after == [] {
      JudgeIsChained(before, GENESIS, 0);
      assert before + after == before;
    } else {
      NextNamesThis(rows, k);
      assert after == [rows[k + 1]] + after[1..];
      JudgeAt(before, rows[k + 1], after[1..]);
    }
  }

  lemma NextNamesThis(rows: seq<Row>, k: nat)
    requires Chained(rows, GENESIS) && k + 1 < |rows|
    ensures rows[k + 1].prevHash == rows[k].rowHash
  {
    hide Readable;
    hide Recomputed;
    hide Chained;
    NeighboursDiffer(rows, k + 1);
    assert rows[..k + 1][k] == rows[k];
  }
}
