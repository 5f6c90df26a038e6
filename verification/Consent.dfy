/** Who decides: over every run a settlement is granted or refused only by a signature of the human of
    its mandate over this settlement, its content and this decision; and such a signature decides. */
module Consent {
  import opened Options
  import opened Texts
  import opened CanonicalJson
  import opened Crypto
  import opened Mandates
  import opened Schema
  import opened Protocol
  import opened Tables
  import opened Effects
  import opened Lifecycle
  import opened Money
  import opened Queue
  import opened Gate
  import opened Safety

  // ---------------------------------------------------------------- what is signed

  lemma DecimalBinds(a: int, b: int)
    requires Decimal(a) == Decimal(b)
    ensures a == b
  {
    NumberRoundTrip(a, []);
    NumberRoundTrip(b, []);
    assert Decimal(a) + [] == Decimal(a) && Decimal(b) + [] == Decimal(b);
    hide ParseNumber;
    hide Decimal;
  }

  lemma ApprovalKeys()
    ensures SETTLEMENT_ID != CART_HASH_HEX && SETTLEMENT_ID != DECISION && CART_HASH_HEX != DECISION
    ensures Lit("approved") != Lit("rejected")
  {
    assert |SETTLEMENT_ID| == 13 && |CART_HASH_HEX| == 21 && |DECISION| == 8;
    assert Lit("approved")[0] == 97 && Lit("rejected")[0] == 114;
  }

  /** The signed text fixes the settlement, the content address and the decision. */
  lemma ApprovalBytesBind(i: nat, h: Text, d: Decision, i': nat, h': Text, d': Decision)
    ensures ApprovalBytes(i, h, d) == ApprovalBytes(i', h', d') <==> i == i' && h == h' && d == d'
  {
    hide Lit;
    hide Decimal;
    hide Encode;
    ApprovalKeys();
    if ApprovalBytes(i, h, d) == ApprovalBytes(i', h', d') {
      var word := if d == Granted then Lit("approved") else Lit("rejected");
      var word' := if d' == Granted then Lit("approved") else Lit("rejected");
      var x := map[SETTLEMENT_ID := Str(Decimal(i)), CART_HASH_HEX := Str(h), DECISION := Str(word)];
      var y := map[SETTLEMENT_ID := Str(Decimal(i')), CART_HASH_HEX := Str(h'), DECISION := Str(word')];
      EncodeIsInjective(Obj(x), Obj(y));
      assert x[SETTLEMENT_ID] == y[SETTLEMENT_ID] && x[CART_HASH_HEX] == y[CART_HASH_HEX] && x[DECISION] == y[DECISION];
      DecimalBinds(i, i');
    }
  }

  // ---------------------------------------------------------------- one step

  /** A decision takes effect exactly when the human signed it: row, state, event and kick; any other
      changes nothing. */
  lemma DecisionOutcome(w: World, i: nat, h: Text, d: Decision, sig: Sig)
    ensures var w' := Next(w, ApproveStep(i, h, d, sig));
      if !MayDecide(w.db, i, h, d, sig) then w' == w
      else
        && i in w'.db.approvals && w'.db.approvals == w.db.approvals[i := w'.db.approvals[i]]
        && RowOfDecision(w, i, h, d, w'.db.approvals[i])
        && RowMoves(w.db, w'.db, i, if d == Granted then Approved else Rejected, w.now)
        && w'.db.ledger == w.db.ledger + [if d == Granted then ApprovalGranted(i) else ApprovalRejected(i)]
        && w'.db.mandates == w.db.mandates
        && (d == Granted ==> i in w'.inFlight)
        && (d == Refused ==> w'.inFlight == w.inFlight && w'.chain == w.chain)
  {
    hide VerifySignature;
    hide ApprovalBytes;
    hide MandateCartHash;
  }

  /** With the queue in order a granted settlement is queued or running afterwards. */
  lemma GrantedIsKicked(w: World, i: nat, h: Text, sig: Sig)
    requires QueueOk(w) && MayDecide(w.db, i, h, Granted, sig)
    ensures var w' := Next(w, ApproveStep(i, h, Granted, sig)); Queued(w', i) || RunsNow(w', i)
  {
    DecisionOutcome(w, i, h, Granted, sig);
    StepKeepsQueue(w, ApproveStep(i, h, Granted, sig));
    hide Next;
    hide MayDecide;
    hide Queued;
    hide RunsNow;
  }

  /** No other step decides, and no decision is ever changed or taken back. */
  lemma OnlyDecisionsDecide(w: World, s: Step, i: nat)
    requires Sound(w)
    ensures i in w.db.approvals ==> i in Next(w, s).db.approvals && Next(w, s).db.approvals[i] == w.db.approvals[i]
    ensures i !in w.db.approvals && i in Next(w, s).db.approvals ==>
      && s.ApproveStep? && s.id == i && MayDecide(w.db, i, s.cartHash, s.decision, s.sig)
      && RowOfDecision(w, i, s.cartHash, s.decision, Next(w, s).db.approvals[i])
  {
    hide Next;
    hide Sound;
    hide MayDecide;
    hide RowOfDecision;
    hide Reports;
    hide Moves;
    hide Adds;
    hide Admissible;
    hide MandateBusy;
    hide Outlived;
    hide MayRegister;
    hide HumanSigned;
    var e := StepEffect(w, s);
  }

  // ---------------------------------------------------------------- over runs

  /** Step k of the run decides settlement i with this signature. */
  ghost predicate DecidedAt(steps: seq<Step>, k: nat, i: nat, h: Text, d: Decision, sig: Sig) {
    k < |steps| && steps[k] == ApproveStep(i, h, d, sig) && MayDecide(Before(START, steps, k).db, i, h, d, sig)
  }

  lemma SoundAt(steps: seq<Step>, k: nat)
    requires k <= |steps|
    ensures Sound(Before(START, steps, k))
  {
    InvAt(steps, k);
    hide Sound;
    hide Before;
  }

  /** Every approval row comes from a signed decision of the run. */
  lemma {:induction false} RowWasDecided(steps: seq<Step>, n: nat, i: nat) returns (k: nat, sig: Sig)
    requires n <= |steps| && i in Before(START, steps, n).db.approvals
    ensures var row := Before(START, steps, n).db.approvals[i];
      && k < n && DecidedAt(steps, k, i, row.cartHash, row.decision, sig)
      && RowOfDecision(Before(START, steps, k), i, row.cartHash, row.decision, row)
    decreases n
  {
    hide Next;
    hide Sound;
    hide MayDecide;
    hide RowOfDecision;
    if n == 0 {
      BeforeStart(START, steps);
      assert false;
    } else {
      var w := Before(START, steps, n - 1);
      BeforeNext(START, steps, n - 1);
      hide Before;
      SoundAt(steps, n - 1);
      OnlyDecisionsDecide(w, steps[n - 1], i);
      if i in w.db.approvals {
        k, sig := RowWasDecided(steps, n - 1, i);
      } else {
        k, sig := n - 1, steps[n - 1].sig;
        DecisionRow(w, i, steps[n - 1].cartHash, steps[n - 1].decision, Next(w, steps[n - 1]).db.approvals[i]);
      }
    }
  }

  lemma DecisionRow(w: World, i: nat, h: Text, d: Decision, row: Approval)
    requires RowOfDecision(w, i, h, d, row)
    ensures row.cartHash == h && row.decision == d
  {}

  /** A decision stays as it was made. */
  lemma {:induction false} DecisionStays(steps: seq<Step>, k: nat, n: nat, i: nat)
    requires k <= n <= |steps| && i in Before(START, steps, k).db.approvals
    ensures i in Before(START, steps, n).db.approvals
    ensures Before(START, steps, n).db.approvals[i] == Before(START, steps, k).db.approvals[i]
    decreases n
  {
    hide Next;
    hide Before;
    hide Sound;
    if k < n {
      DecisionStays(steps, k, n - 1, i);
      BeforeNext(START, steps, n - 1);
      SoundAt(steps, n - 1);
      OnlyDecisionsDecide(Before(START, steps, n - 1), steps[n - 1], i);
      hide MayDecide;
      hide RowOfDecision;
    }
  }

  /** A human granted settlement i in this run. */
  ghost predicate HumanGranted(steps: seq<Step>, i: nat) {
    exists k: nat, h: Text, sig: Sig :: DecidedAt(steps, k, i, h, Granted, sig)
  }

  /** A settlement is granted exactly when its human signed for it in the run. */
  lemma GrantsAreHuman(steps: seq<Step>, i: nat)
    ensures GrantedIn(Run(START, steps).db.approvals, i) <==> HumanGranted(steps, i)
  {
    hide Run;
    hide Before;
    hide MayDecide;
    hide RowOfDecision;
    hide Next;
    BeforeEnd(START, steps);
    if GrantedIn(Run(START, steps).db.approvals, i) {
      var k, sig := RowWasDecided(steps, |steps|, i);
    }
    if HumanGranted(steps, i) {
      var k: nat, h: Text, sig: Sig :| DecidedAt(steps, k, i, h, Granted, sig);
      var w := Before(START, steps, k);
      DecisionOutcome(w, i, h, Granted, sig);
      BeforeNext(START, steps, k);
      DecisionRow(w, i, h, Granted, Next(w, steps[k]).db.approvals[i]);
      DecisionStays(steps, k + 1, |steps|, i);
      hide RowMoves;
    }
  }

  /** Terms and key of a registered mandate never change. */
  lemma {:induction false} MandateStays(steps: seq<Step>, k: nat, n: nat, m: Text)
    requires k <= n <= |steps| && m in Before(START, steps, k).db.mandates
    ensures m in Before(START, steps, n).db.mandates
    ensures Before(START, steps, n).db.mandates[m].intent == Before(START, steps, k).db.mandates[m].intent
    ensures Before(START, steps, n).db.mandates[m].credential == Before(START, steps, k).db.mandates[m].credential
    decreases n
  {
    hide Next;
    hide Before;
    hide Sound;
    hide Does;
    hide Triggers;
    if k < n {
      MandateStays(steps, k, n - 1, m);
      BeforeNext(START, steps, n - 1);
      SoundAt(steps, n - 1);
      MandateStaysOne(Before(START, steps, n - 1), steps[n - 1], m);
    }
  }

  lemma MandateStaysOne(w: World, s: Step, m: Text)
    requires Sound(w) && m in w.db.mandates
    ensures var db' := Next(w, s).db;
      m in db'.mandates && db'.mandates[m].intent == w.db.mandates[m].intent
      && db'.mandates[m].credential == w.db.mandates[m].credential
  {
    hide Next;
    hide Sound;
    hide Triggers;
    var e := StepEffect(w, s);
    hide Adds;
    hide Moves;
    hide Admissible;
    hide Reports;
    hide MandateBusy;
  }

  /** A settlement keeps its mandate and its cart. */
  lemma CartStays(steps: seq<Step>, k: nat, i: nat)
    requires k <= |steps| && i < |Before(START, steps, k).db.settlements|
    ensures var db, db' := Before(START, steps, k).db, Run(START, steps).db;
      i < |db'.settlements|
      && db'.settlements[i].mandateId == db.settlements[i].mandateId
      && db'.settlements[i].cart == db.settlements[i].cart
  {
    SoundAt(steps, k);
    hide Before;
    hide Sound;
    RunFrom(START, steps, k, |steps|);
    BeforeEnd(START, steps);
    hide Run;
    RunHistory(Before(START, steps, k), steps[k..|steps|]);
    hide Leads;
  }

  /** The signature is one of the human of the settlement's mandate over its content, as both stand. */
  predicate SignedBy(db: Db, i: nat, d: Decision, sig: Sig) {
    && i < |db.settlements| && db.settlements[i].mandateId in db.mandates
    && var m, cart := db.mandates[db.settlements[i].mandateId], db.settlements[i].cart;
       VerifySignature(ApprovalBytes(i, MandateCartHash(m.intent, cart), d), sig, m.credential) == Valid
  }

  /** What was signed in the run is signed for what is in the database at its end. */
  lemma SignatureStands(steps: seq<Step>, k: nat, i: nat, h: Text, d: Decision, sig: Sig)
    requires DecidedAt(steps, k, i, h, d, sig)
    ensures SignedBy(Run(START, steps).db, i, d, sig)
  {
    var db := Before(START, steps, k).db;
    assert i < |db.settlements| && db.settlements[i].mandateId in db.mandates;
    CartStays(steps, k, i);
    MandateStays(steps, k, |steps|, db.settlements[i].mandateId);
    BeforeEnd(START, steps);
    hide Run;
    hide Before;
    hide VerifySignature;
    hide ApprovalBytes;
    hide MandateCartHash;
  }

  // ---------------------------------------------------------------- captured only with consent

  /** Over every run from the empty database: a captured cart above its mandate's per-cart threshold was
      granted in that run by a signature of the mandate's human over exactly that settlement and cart. */
  lemma EveryLargeCaptureWasSigned(steps: seq<Step>, m: Text, i: nat) returns (k: nat, h: Text, sig: Sig)
    requires m in Run(START, steps).db.mandates && CapturedUnder(Run(START, steps).db, i, m)
    requires OverPerCart(Run(START, steps).db, i)
    ensures k < |steps| && steps[k] == ApproveStep(i, h, Granted, sig)
    ensures SignedBy(Run(START, steps).db, i, Granted, sig)
    ensures DecidedAt(steps, k, i, h, Granted, sig)
  {
    var w := Run(START, steps);
    assert Reachable(w);
    hide Reachable;
    hide Run;
    UngrantedSpendStaysBelowTheLines(w, m, i);
    GrantsAreHuman(steps, i);
    hide SpentUngranted;
    hide CapturedUnder;
    k, h, sig :| DecidedAt(steps, k, i, h, Granted, sig);
    SignatureStands(steps, k, i, h, Granted, sig);
    hide MayDecide;
    hide SignedBy;
  }

  ghost function UnsignedOf(steps: seq<Step>, m: Text): Weight {
    (i: nat, r: Settlement) =>
      if r.mandateId == m && r.state == Captured && !HumanGranted(steps, i) then r.amount else 0
  }

  /** And what was captured without such a signature stays, all together, below the cumulative line. */
  lemma UnsignedSpendStaysBelowTheLine(steps: seq<Step>, m: Text)
    requires m in Run(START, steps).db.mandates
    requires Run(START, steps).db.mandates[m].intent.cumulativeThreshold.Some?
    ensures Sum(Run(START, steps).db.settlements, UnsignedOf(steps, m))
      <= Run(START, steps).db.mandates[m].intent.cumulativeThreshold.value
  {
    var w := Run(START, steps);
    assert Reachable(w);
    hide Reachable;
    hide Run;
    UngrantedSpendStaysBelowTheLines(w, m, 0);
    var rows, all := w.db.settlements, UngrantedOf(w.db.approvals, m);
    forall j | 0 <= j < |rows| ensures UnsignedOf(steps, m)(j, rows[j]) == all(j, rows[j]) { GrantsAreHuman(steps, j); }
    hide HumanGranted;
    SumSame(rows, rows, all, UnsignedOf(steps, m));
  }
}
