/** What every reachable database keeps about money: ceilings, merchant sub-ceilings, the
    cumulative approval line and the per-cart threshold. */
module Money {
  import opened Options
  import opened Texts
  import opened Mandates
  import opened Verify
  import opened Schema
  import opened Protocol
  import opened Tables
  import opened Effects

  /** A human granted this settlement. */
  predicate GrantedIn(approvals: map<nat, Approval>, i: nat) {
    i in approvals && approvals[i].decision == Granted
  }

  function UngrantedOf(approvals: map<nat, Approval>, m: Text): Weight {
    (i: nat, r: Settlement) =>
      if r.mandateId == m && r.state == Captured && !GrantedIn(approvals, i) then r.amount else 0
  }

  /** Captured spend that no human approved. */
  function SpentUngranted(db: Db, m: Text): int { Sum(db.settlements, UngrantedOf(db.approvals, m)) }

  // ---------------------------------------------------------------- invariants

  predicate WithinCeiling(db: Db) {
    forall m :: m in db.mandates ==> Spent(db.settlements, m) <= db.mandates[m].intent.ceiling
  }

  ghost predicate WithinMerchantLimits(db: Db) {
    forall m, k :: m in db.mandates && MerchantLimit(db.mandates[m].intent, k).Some? ==>
      SpentAt(db.settlements, m, k) <= MerchantLimit(db.mandates[m].intent, k).value
  }

  predicate WithinCumulative(db: Db) {
    forall m :: m in db.mandates && db.mandates[m].intent.cumulativeThreshold.Some? ==>
      SpentUngranted(db, m) <= db.mandates[m].intent.cumulativeThreshold.value
  }

  /** Row i is above its mandate's per-cart threshold. */
  predicate OverPerCart(db: Db, i: nat)
    requires i < |db.settlements|
  {
    var r := db.settlements[i];
    r.mandateId in db.mandates && r.amount > db.mandates[r.mandateId].intent.approvalThreshold
  }

  predicate LargeOnesGranted(db: Db) {
    forall i :: 0 <= i < |db.settlements| && db.settlements[i].state == Captured && OverPerCart(db, i) ==>
      GrantedIn(db.approvals, i)
  }

  /** Every intent with the content address of row i agrees that no approval is needed now. */
  ghost predicate NoApprovalNeeded(rows: seq<Settlement>, i: nat)
    requires i < |rows|
  {
    forall intent: SignedIntent :: MandateCartHash(intent, rows[i].cart) == rows[i].cartHash ==>
      !OverThreshold(intent, rows[i].amount, Spent(rows, rows[i].mandateId))
  }

  /** Row i is on its way to a capture without a human decision. */
  predicate AutoRow(db: Db, i: nat) {
    i < |db.settlements| && db.settlements[i].state in {Approved, Settling} && !GrantedIn(db.approvals, i)
  }

  ghost predicate AutoOk(db: Db) {
    forall i :: 0 <= i < |db.settlements| && AutoRow(db, i) ==> NoApprovalNeeded(db.settlements, i)
  }

  /** A settling row was made from the registered terms and still fits under them. */
  predicate Fits(db: Db, i: nat)
    requires i < |db.settlements| && db.settlements[i].mandateId in db.mandates
  {
    var r := db.settlements[i];
    var intent := db.mandates[r.mandateId].intent;
    && MandateCartHash(intent, r.cart) == r.cartHash
    && Spent(db.settlements, r.mandateId) + r.amount <= intent.ceiling
    && (MerchantLimit(intent, r.merchantId).Some? ==>
      SpentAt(db.settlements, r.mandateId, r.merchantId) + r.amount <= MerchantLimit(intent, r.merchantId).value)
  }

  predicate SettlingOk(db: Db) {
    forall i :: 0 <= i < |db.settlements| && db.settlements[i].state == Settling ==>
      db.settlements[i].mandateId in db.mandates && Fits(db, i)
  }

  ghost predicate MoneyOk(db: Db) {
    && WithinCeiling(db) && WithinMerchantLimits(db) && WithinCumulative(db) && LargeOnesGranted(db)
    && AutoOk(db) && SettlingOk(db)
  }

  // ---------------------------------------------------------------- sums that do not move

  /** The rows a sum of captured amounts can tell apart. */
  predicate SameCaptured(db: Db, db': Db) {
    && |db.settlements| <= |db'.settlements|
    && (forall j :: 0 <= j < |db.settlements| ==>
         var r, r' := db.settlements[j], db'.settlements[j];
         && r'.mandateId == r.mandateId && r'.merchantId == r.merchantId && r'.amount == r.amount
         && r'.cart == r.cart && r'.cartHash == r.cartHash
         && (r'.state == Captured <==> r.state == Captured)
         && (r.state == Captured ==> (GrantedIn(db.approvals, j) <==> GrantedIn(db'.approvals, j))))
    && (forall j :: |db.settlements| <= j < |db'.settlements| ==> db'.settlements[j].state != Captured)
  }

  lemma {:induction false} SumExtends(rows: seq<Settlement>, rows': seq<Settlement>, w: Weight, w': Weight)
    requires |rows| <= |rows'|
    requires forall j :: 0 <= j < |rows| ==> w'(j, rows'[j]) == w(j, rows[j])
    requires forall j :: |rows| <= j < |rows'| ==> w'(j, rows'[j]) == 0
    ensures Sum(rows', w') == Sum(rows, w)
  {
    if |rows| == |rows'| { SumSame(rows, rows', w, w'); } else { SumExtends(rows, rows'[..|rows'| - 1], w, w'); }
  }

  lemma SumsStay(db: Db, db': Db, m: Text)
    requires SameCaptured(db, db')
    ensures Spent(db'.settlements, m) == Spent(db.settlements, m)
    ensures forall k :: SpentAt(db'.settlements, m, k) == SpentAt(db.settlements, m, k)
    ensures SpentUngranted(db', m) == SpentUngranted(db, m)
  {
    SumExtends(db.settlements, db'.settlements, CapturedOf(m), CapturedOf(m));
    SumExtends(db.settlements, db'.settlements, UngrantedOf(db.approvals, m), UngrantedOf(db'.approvals, m));
    forall k ensures SpentAt(db'.settlements, m, k) == SpentAt(db.settlements, m, k) {
      SumExtends(db.settlements, db'.settlements, CapturedAt(m, k), CapturedAt(m, k));
    }
  }

  lemma UngrantedIsLess(db: Db, m: Text)
    requires RowsOk(db)
    ensures SpentUngranted(db, m) <= Spent(db.settlements, m)
  {
    SumOrder(db.settlements, UngrantedOf(db.approvals, m), CapturedOf(m));
  }

  // ---------------------------------------------------------------- changes without a capture

  /** The mandates' terms, which no step rewrites. */
  predicate SameTermsIn(db: Db, db': Db) {
    db'.mandates.Keys == db.mandates.Keys
    && forall m :: m in db.mandates ==> db'.mandates[m].intent == db.mandates[m].intent
  }

  ghost predicate SameSums(db: Db, db': Db) {
    && (forall m :: Spent(db'.settlements, m) == Spent(db.settlements, m))
    && (forall m, k :: SpentAt(db'.settlements, m, k) == SpentAt(db.settlements, m, k))
    && (forall m :: SpentUngranted(db', m) == SpentUngranted(db, m))
  }

  lemma AllSumsStay(db: Db, db': Db)
    requires SameCaptured(db, db')
    ensures SameSums(db, db')
  {
    forall m ensures Spent(db'.settlements, m) == Spent(db.settlements, m) { SumsStay(db, db', m); }
    forall m, k ensures SpentAt(db'.settlements, m, k) == SpentAt(db.settlements, m, k) { SumsStay(db, db', m); }
    forall m ensures SpentUngranted(db', m) == SpentUngranted(db, m) { SumsStay(db, db', m); }
  }

  lemma CapsStay(db: Db, db': Db)
    requires WithinCeiling(db) && WithinMerchantLimits(db) && WithinCumulative(db) && LargeOnesGranted(db)
    requires SameTermsIn(db, db') && SameCaptured(db, db') && SameSums(db, db')
    ensures WithinCeiling(db') && WithinMerchantLimits(db') && WithinCumulative(db') && LargeOnesGranted(db')
  {
    hide Spent;
    hide SpentAt;
    hide SpentUngranted;
    hide MerchantLimit;
  }

  /** A row that was on its way keeps its clearance while the sums stay. */
  lemma AutoStays(db: Db, db': Db)
    requires AutoOk(db) && SameCaptured(db, db') && SameSums(db, db')
    requires forall i :: 0 <= i < |db'.settlements| && AutoRow(db', i) && !AutoRow(db, i) ==>
      NoApprovalNeeded(db'.settlements, i)
    ensures AutoOk(db')
  {
    hide MandateCartHash;
    hide OverThreshold;
    hide Spent;
    hide SpentAt;
    hide SpentUngranted;
    forall i | 0 <= i < |db'.settlements| && AutoRow(db', i)
      ensures NoApprovalNeeded(db'.settlements, i)
    {
      if AutoRow(db, i) { assert NoApprovalNeeded(db.settlements, i); }
    }
  }

  lemma FitsStays(db: Db, db': Db, i: nat)
    requires i < |db.settlements| && db.settlements[i].mandateId in db.mandates
    requires SameTermsIn(db, db') && SameCaptured(db, db') && SameSums(db, db')
    ensures Fits(db', i) <==> Fits(db, i)
  {
    hide MandateCartHash;
    hide MerchantLimit;
    hide Spent;
    hide SpentAt;
    hide SpentUngranted;
  }

  lemma SettlingStays(db: Db, db': Db)
    requires SettlingOk(db) && SameTermsIn(db, db') && SameCaptured(db, db') && SameSums(db, db')
    requires forall i :: 0 <= i < |db'.settlements| && InState(db', i, Settling) && !InState(db, i, Settling) ==>
      i < |db.settlements| && db.settlements[i].mandateId in db.mandates && Fits(db, i)
    ensures SettlingOk(db')
  {
    forall i | 0 <= i < |db'.settlements| && db'.settlements[i].state == Settling
      ensures db'.settlements[i].mandateId in db'.mandates && Fits(db', i)
    {
      if InState(db, i, Settling) { assert Fits(db, i); }
      FitsStays(db, db', i);
      hide Fits;
      hide SameSums;
    }
  }

  /** A change that captures nothing keeps the money invariants when the rows it newly approves or
      settles meet them. */
  lemma QuietKeeps(db: Db, db': Db)
    requires MoneyOk(db) && SameCaptured(db, db') && SameTermsIn(db, db')
    requires forall i :: 0 <= i < |db'.settlements| && AutoRow(db', i) && !AutoRow(db, i) ==>
      NoApprovalNeeded(db'.settlements, i)
    requires forall i :: 0 <= i < |db'.settlements| && InState(db', i, Settling) && !InState(db, i, Settling) ==>
      i < |db.settlements| && db.settlements[i].mandateId in db.mandates && Fits(db, i)
    ensures MoneyOk(db')
  {
    AllSumsStay(db, db');
    hide SameSums;
    hide WithinCeiling;
    hide WithinMerchantLimits;
    hide WithinCumulative;
    hide LargeOnesGranted;
    hide AutoOk;
    hide SettlingOk;
    CapsStay(db, db');
    AutoStays(db, db');
    SettlingStays(db, db');
  }

  // ---------------------------------------------------------------- one effect at a time

  lemma QuietMoney(db: Db, db': Db, e: Effect, now: int)
    requires MoneyOk(db) && Does(db, db', e, now) && (e.Quiet? || e.Revokes? || e.Kicks?)
    ensures MoneyOk(db')
  {
    hide MoneyOk;
    hide NoApprovalNeeded;
    hide Fits;
    QuietKeeps(db, db');
  }

  lemma EndsMoney(db: Db, db': Db, e: Effect, now: int)
    requires MoneyOk(db) && Does(db, db', e, now) && e.Ends?
    ensures MoneyOk(db')
  {
    hide MoneyOk;
    hide NoApprovalNeeded;
    hide Fits;
    QuietKeeps(db, db');
  }

  /** A granted row needs no automatic clearance. */
  lemma DecidesMoney(db: Db, db': Db, e: Effect, now: int)
    requires MoneyOk(db) && Does(db, db', e, now) && e.Decides?
    ensures MoneyOk(db')
  {
    hide MoneyOk;
    hide NoApprovalNeeded;
    hide Fits;
    assert forall j :: j != e.id ==> (GrantedIn(db'.approvals, j) <==> GrantedIn(db.approvals, j));
    QuietKeeps(db, db');
  }

  /** A new mandate has spent nothing. */
  lemma NothingSpent(db: Db, m: Text)
    requires RowsOk(db) && m !in db.mandates
    ensures Spent(db.settlements, m) == 0 && SpentUngranted(db, m) == 0
    ensures forall k :: SpentAt(db.settlements, m, k) == 0
  {
    SumZero(db.settlements, CapturedOf(m));
    SumZero(db.settlements, UngrantedOf(db.approvals, m));
    forall k ensures SpentAt(db.settlements, m, k) == 0 { SumZero(db.settlements, CapturedAt(m, k)); }
  }

  lemma NewMandateFacts(db: Db, db': Db, m: Text)
    requires MoneyOk(db) && m !in db.mandates && m in db'.mandates
    requires db'.settlements == db.settlements && db'.approvals == db.approvals
    requires db'.mandates == db.mandates[m := db'.mandates[m]]
    ensures AutoOk(db') && SettlingOk(db')
  {
    hide WithinCeiling;
    hide WithinMerchantLimits;
    hide WithinCumulative;
    hide LargeOnesGranted;
    hide Spent;
    hide SpentAt;
    hide MandateCartHash;
    hide NoApprovalNeeded;
    forall i | 0 <= i < |db'.settlements| && AutoRow(db', i) ensures NoApprovalNeeded(db'.settlements, i) {
      assert AutoRow(db, i);
    }
    forall i | 0 <= i < |db'.settlements| && db'.settlements[i].state == Settling
      ensures db'.settlements[i].mandateId in db'.mandates && Fits(db', i)
    {
      assert Fits(db, i);
    }
  }

  lemma RegistersMoney(db: Db, db': Db, e: Effect, now: int)
    requires TablesOk(db) && MoneyOk(db) && Does(db, db', e, now) && e.Registers?
    ensures MoneyOk(db')
  {
    hide MoneyOk;
    hide OneLive;
    hide OnePerCart;
    hide AttemptsOk;
    hide OneEach;
    hide CapturesBacked;
    var m := e.intent.mandateId;
    NothingSpent(db, m);
    assert forall x :: SpentUngranted(db', x) == SpentUngranted(db, x);
    NewMandateCaps(db, db', m);
    NewMandateFacts(db, db', m);
    hide RowsOk;
    hide Spent;
    hide SpentAt;
    hide SpentUngranted;
    assert MoneyOk(db') by { MoneyParts(db'); }
  }

  lemma MoneyParts(db: Db)
    requires WithinCeiling(db) && WithinMerchantLimits(db) && WithinCumulative(db) && LargeOnesGranted(db)
    requires AutoOk(db) && SettlingOk(db)
    ensures MoneyOk(db)
  {}

  lemma NewMandateCaps(db: Db, db': Db, m: Text)
    requires RowsOk(db) && MoneyOk(db) && m !in db.mandates && m in db'.mandates
    requires db'.settlements == db.settlements && db'.approvals == db.approvals
    requires db'.mandates == db.mandates[m := db'.mandates[m]]
    requires Spent(db.settlements, m) == 0 && SpentUngranted(db, m) == 0
    requires forall x :: SpentUngranted(db', x) == SpentUngranted(db, x)
    requires forall k :: SpentAt(db.settlements, m, k) == 0
    ensures WithinCeiling(db') && WithinMerchantLimits(db') && WithinCumulative(db') && LargeOnesGranted(db')
  {
    hide Spent;
    hide SpentAt;
    hide SpentUngranted;
    hide AutoOk;
    hide SettlingOk;
  }

  /** Whatever intent has the content address of row i has the terms the gate saw. */
  lemma AutoCleared(rows: seq<Settlement>, i: nat, intent: SignedIntent)
    requires i < |rows| && rows[i].cartHash == MandateCartHash(intent, rows[i].cart)
    requires !OverThreshold(intent, rows[i].amount, Spent(rows, rows[i].mandateId))
    ensures NoApprovalNeeded(rows, i)
  {
    forall other: SignedIntent | MandateCartHash(other, rows[i].cart) == rows[i].cartHash
      ensures !OverThreshold(other, rows[i].amount, Spent(rows, rows[i].mandateId))
    {
      MandateCartHashBinds(intent, rows[i].cart, other, rows[i].cart);
    }
  }

  lemma AddsCapturesNothing(db: Db, db': Db, intent: SignedIntent, cart: SignedCart, now: int)
    requires Adds(db, db', intent, cart, now) && db'.approvals == db.approvals
    ensures SameCaptured(db, db')
    ensures forall j :: 0 <= j < |db.settlements| ==> db'.settlements[j] == db.settlements[j]
  {
    hide OverThreshold;
    hide MandateCartHash;
    hide Spent;
    assert forall j :: 0 <= j < |db.settlements| ==> db'.settlements[j] == db'.settlements[..|db.settlements|][j];
  }

  /** A request adds one row; if it is approved at once, the spend it was judged on still stands. */
  lemma ReservesMoney(db: Db, db': Db, e: Effect, now: int)
    requires MoneyOk(db) && Does(db, db', e, now) && e.Reserves?
    ensures MoneyOk(db')
  {
    hide MoneyOk;
    hide MandateCartHash;
    hide OverThreshold;
    hide Fits;
    hide Spent;
    hide Reports;
    AddsCapturesNothing(db, db', e.intent, e.cart, now);
    SumsStay(db, db', e.intent.mandateId);
    if AutoRow(db', |db.settlements|) { AutoCleared(db'.settlements, |db.settlements|, e.intent); }
    hide NoApprovalNeeded;
    hide SameCaptured;
    QuietKeeps(db, db');
  }

  lemma AdmittedFits(db: Db, i: nat, now: int)
    requires RowsOk(db) && MandatesOk(db) && Admissible(db, i, now)
    ensures Fits(db, i)
  {
    hide MandateCartHash;
    hide Spent;
    hide SpentAt;
    hide PricesMatch;
    hide SkusAllowed;
    hide CartTaken;
    hide Chained;
    hide SafeIntent;
    hide SafeCart;
  }

  lemma AdmittedKeeps(db: Db, db': Db, i: nat, now: int)
    requires MoneyOk(db) && Moves(db, db', i, Approved, Settling, now)
    requires db'.approvals == db.approvals && db'.mandates == db.mandates
    requires db.settlements[i].mandateId in db.mandates && Fits(db, i)
    ensures MoneyOk(db')
  {
    hide MoneyOk;
    hide NoApprovalNeeded;
    hide Fits;
    QuietKeeps(db, db');
  }

  lemma AdmitsMoney(db: Db, db': Db, e: Effect, now: int)
    requires TablesOk(db) && MoneyOk(db) && Does(db, db', e, now) && e.Admits?
    ensures MoneyOk(db')
  {
    hide MoneyOk;
    hide Moves;
    AdmittedFits(db, e.id, now);
    hide TablesOk;
    hide Fits;
    AdmittedKeeps(db, db', e.id, now);
  }

  // ---------------------------------------------------------------- the capture

  /** A capture adds the amount to the sums of its own mandate and merchant only. */
  lemma CaptureSums(db: Db, db': Db, i: nat, now: int, m: Text, k: Text)
    requires Moves(db, db', i, Settling, Captured, now) && db'.approvals == db.approvals
    ensures var r := db.settlements[i];
      && Spent(db'.settlements, m) == Spent(db.settlements, m) + (if r.mandateId == m then r.amount else 0)
      && SpentAt(db'.settlements, m, k) ==
           SpentAt(db.settlements, m, k) + (if r.mandateId == m && r.merchantId == k then r.amount else 0)
      && SpentUngranted(db', m) ==
           SpentUngranted(db, m) + (if r.mandateId == m && !GrantedIn(db.approvals, i) then r.amount else 0)
  {
    SumUpdate(db.settlements, db'.settlements, CapturedOf(m), CapturedOf(m), i);
    SumUpdate(db.settlements, db'.settlements, CapturedAt(m, k), CapturedAt(m, k), i);
    SumUpdate(db.settlements, db'.settlements, UngrantedOf(db.approvals, m), UngrantedOf(db'.approvals, m), i);
  }

  lemma CaptureCaps(db: Db, db': Db, i: nat, now: int)
    requires TablesOk(db) && MoneyOk(db) && Moves(db, db', i, Settling, Captured, now)
    requires db'.approvals == db.approvals && db'.mandates == db.mandates
    ensures WithinCeiling(db') && WithinMerchantLimits(db')
  {
    hide AutoOk;
    hide WithinCumulative;
    hide LargeOnesGranted;
    hide MandateCartHash;
    hide SetState;
    hide TablesOk;
    assert Fits(db, i);
    forall m | m in db'.mandates ensures Spent(db'.settlements, m) <= db'.mandates[m].intent.ceiling {
      CaptureSums(db, db', i, now, m, m);
    }
    forall m, k | m in db'.mandates && MerchantLimit(db'.mandates[m].intent, k).Some?
      ensures SpentAt(db'.settlements, m, k) <= MerchantLimit(db'.mandates[m].intent, k).value
    {
      CaptureSums(db, db', i, now, m, k);
    }
  }

  /** An ungranted settling row is below both lines of the registered intent. */
  lemma UngrantedIsCleared(db: Db, i: nat)
    requires TablesOk(db) && MoneyOk(db) && InState(db, i, Settling) && !GrantedIn(db.approvals, i)
    ensures db.settlements[i].mandateId in db.mandates
    ensures var r := db.settlements[i];
      !OverThreshold(db.mandates[r.mandateId].intent, r.amount, Spent(db.settlements, r.mandateId))
  {
    hide TablesOk;
    hide MandateCartHash;
    hide OverThreshold;
    hide WithinCeiling;
    hide WithinMerchantLimits;
    hide WithinCumulative;
    hide LargeOnesGranted;
    hide Spent;
    assert Fits(db, i);
    assert AutoRow(db, i);
    assert NoApprovalNeeded(db.settlements, i);
  }

  lemma CaptureApprovals(db: Db, db': Db, i: nat, now: int)
    requires TablesOk(db) && MoneyOk(db) && Moves(db, db', i, Settling, Captured, now)
    requires db'.approvals == db.approvals && db'.mandates == db.mandates
    ensures WithinCumulative(db') && LargeOnesGranted(db')
  {
    hide AutoOk;
    hide SettlingOk;
    hide WithinCeiling;
    hide WithinMerchantLimits;
    hide MandateCartHash;
    if !GrantedIn(db.approvals, i) { UngrantedIsCleared(db, i); }
    forall m | m in db'.mandates && db'.mandates[m].intent.cumulativeThreshold.Some?
      ensures SpentUngranted(db', m) <= db'.mandates[m].intent.cumulativeThreshold.value
    {
      hide LargeOnesGranted;
      hide SetState;
      CaptureSums(db, db', i, now, m, m);
      UngrantedIsLess(db, m);
    }
    hide WithinCumulative;
    hide TablesOk;
  }

  /** The other rows on their way belong to other mandates, whose sums do not move. */
  lemma CaptureOthers(db: Db, db': Db, i: nat, now: int)
    requires TablesOk(db) && MoneyOk(db) && Moves(db, db', i, Settling, Captured, now)
    requires db'.approvals == db.approvals && db'.mandates == db.mandates
    ensures AutoOk(db') && SettlingOk(db')
  {
    hide MandateCartHash;
    hide OverThreshold;
    hide WithinCeiling;
    hide WithinMerchantLimits;
    hide WithinCumulative;
    hide LargeOnesGranted;
    hide RowsOk;
    hide MandatesOk;
    hide AttemptsOk;
    hide OneEach;
    hide CapturesBacked;
    hide OnePerCart;
    hide MerchantLimit;
    forall j | 0 <= j < |db'.settlements| && AutoRow(db', j) ensures NoApprovalNeeded(db'.settlements, j) {
      assert AutoRow(db, j) && NoApprovalNeeded(db.settlements, j);
      CaptureSums(db, db', i, now, db.settlements[j].mandateId, db.settlements[j].merchantId);
      hide Spent;
    }
    hide NoApprovalNeeded;
    forall j | 0 <= j < |db'.settlements| && db'.settlements[j].state == Settling
      ensures db'.settlements[j].mandateId in db'.mandates && Fits(db', j)
    {
      assert Fits(db, j);
      CaptureSums(db, db', i, now, db.settlements[j].mandateId, db.settlements[j].merchantId);
      hide Spent;
      hide SpentAt;
    }
  }

  lemma CapturesMoney(db: Db, db': Db, e: Effect, now: int)
    requires TablesOk(db) && MoneyOk(db) && Does(db, db', e, now) && e.Captures?
    ensures MoneyOk(db')
  {
    hide TablesOk;
    CaptureCaps(db, db', e.id, now);
    CaptureApprovals(db, db', e.id, now);
    CaptureOthers(db, db', e.id, now);
    hide WithinCeiling;
    hide WithinMerchantLimits;
    hide WithinCumulative;
    hide LargeOnesGranted;
    hide AutoOk;
    hide SettlingOk;
  }

  lemma EffectMoney(db: Db, db': Db, e: Effect, now: int)
    requires TablesOk(db) && MoneyOk(db) && Does(db, db', e, now)
    ensures MoneyOk(db')
  {
    hide TablesOk;
    hide MoneyOk;
    hide Does;
    match e
    case Registers(_, _) => RegistersMoney(db, db', e, now);
    case Reserves(_, _) => ReservesMoney(db, db', e, now);
    case Decides(_, _) => DecidesMoney(db, db', e, now);
    case Admits(_) => AdmitsMoney(db, db', e, now);
    case Ends(_, _) => EndsMoney(db, db', e, now);
    case Captures(_) => CapturesMoney(db, db', e, now);
    case _ => QuietMoney(db, db', e, now);
  }

  lemma StepMoney(w: World, s: Step)
    requires Sound(w) && MoneyOk(w.db)
    ensures MoneyOk(Next(w, s).db)
  {
    var e := StepEffect(w, s);
    hide MoneyOk;
    hide Does;
    hide Next;
    EffectMoney(w.db, Next(w, s).db, e, w.now);
  }
}
