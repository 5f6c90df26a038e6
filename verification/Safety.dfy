/** The main results: what holds in every world that any interleaving of requests, executor,
    reconciler, sweep, clock and crashes can reach. */
module Safety {
  import opened Options
  import opened Texts
  import opened Verify
  import opened Schema
  import opened Protocol
  import opened Tables
  import opened Money
  import opened Account
  import opened Attempts
  import opened Sweep
  import opened Refunds

  ghost predicate Inv(w: World) {
    Sound(w) && MoneyOk(w.db) && AccountOk(w.db) && RunOk(w) && Stamped(w.db)
  }

  lemma StartInv()
    ensures Inv(START)
  {
    hide VerifyChain;
  }

  lemma StepInv(w: World, s: Step)
    requires Inv(w)
    ensures Inv(Next(w, s))
  {
    hide Sound;
    hide MoneyOk;
    hide AccountOk;
    hide RunOk;
    hide Stamped;
    hide Next;
    StepSound(w, s);
    StepMoney(w, s);
    StepAccount(w, s);
    StepRun(w, s);
    StepStamped(w, s);
  }

  lemma {:induction false} RunInv(w: World, steps: seq<Step>)
    requires Inv(w)
    ensures Inv(Run(w, steps))
    decreases |steps|
  {
    hide Inv;
    hide Next;
    if steps != [] {
      StepInv(w, steps[0]);
      RunInv(Next(w, steps[0]), steps[1..]);
    }
  }

  lemma ReachableInv(w: World)
    requires Reachable(w)
    ensures Inv(w)
  {
    var steps :| Run(START, steps) == w;
    StartInv();
    hide Inv;
    hide Run;
    RunInv(START, steps);
  }

  /** The invariants at every point of a run. */
  lemma InvAt(steps: seq<Step>, k: nat)
    requires k <= |steps|
    ensures Inv(Before(START, steps, k))
  {
    StartInv();
    hide Inv;
    hide Run;
    RunInv(START, steps[..k]);
  }

  // ---------------------------------------------------------------- money

  /** Captured spend never passes a signed ceiling, at the mandate or at a listed merchant. */
  lemma SpendStaysWithinCeilings(w: World, m: Text, merchant: Text)
    requires Reachable(w) && m in w.db.mandates
    ensures var intent := w.db.mandates[m].intent;
      && Spent(w.db.settlements, m) <= intent.ceiling
      && (MerchantLimit(intent, merchant).Some? ==>
           SpentAt(w.db.settlements, m, merchant) <= MerchantLimit(intent, merchant).value)
  {
    ReachableInv(w);
    hide Reachable;
    hide Spent;
    hide SpentAt;
    hide Sound;
    hide AccountOk;
    hide RunOk;
    hide AutoOk;
    hide SettlingOk;
    hide WithinCumulative;
    hide LargeOnesGranted;
  }

  predicate CapturedUnder(db: Db, i: nat, m: Text) { InState(db, i, Captured) && db.settlements[i].mandateId == m }

  /** What no human granted stays below the cumulative line, and every captured settlement above
      the per-cart threshold was granted. */
  lemma UngrantedSpendStaysBelowTheLines(w: World, m: Text, i: nat)
    requires Reachable(w) && m in w.db.mandates
    ensures w.db.mandates[m].intent.cumulativeThreshold.Some? ==>
      SpentUngranted(w.db, m) <= w.db.mandates[m].intent.cumulativeThreshold.value
    ensures CapturedUnder(w.db, i, m) && OverPerCart(w.db, i) ==> GrantedIn(w.db.approvals, i)
  {
    ReachableInv(w);
    hide Reachable;
    hide SpentUngranted;
    hide Sound;
    hide AccountOk;
    hide RunOk;
    hide AutoOk;
    hide SettlingOk;
    hide WithinCeiling;
    hide WithinMerchantLimits;
  }

  // ---------------------------------------------------------------- captures

  predicate CapturedAttempt(db: Db, i: nat, a: nat) {
    a < |db.attempts| && db.attempts[a].settlement == i && db.attempts[a].state == AttemptCaptured
  }

  /** At every transaction boundary a settlement is captured exactly when it has one captured
      attempt, which carries a payment id and is the one the ledger names. */
  lemma CapturedMeansOnePayment(w: World, i: nat)
    requires Reachable(w)
    ensures InState(w.db, i, Captured) <==> exists a: nat :: CapturedAttempt(w.db, i, a)
    ensures forall a: nat, b: nat :: CapturedAttempt(w.db, i, a) && CapturedAttempt(w.db, i, b) ==> a == b
    ensures forall a: nat :: CapturedAttempt(w.db, i, a) ==> w.db.attempts[a].paymentId.Some?
  {
    ReachableInv(w);
    hide Reachable;
    hide MoneyOk;
    hide AccountOk;
    hide RunOk;
    hide Stamped;
    CaptureIsUnique(w, i);
  }

  lemma CaptureIsUnique(w: World, i: nat)
    requires Sound(w)
    ensures InState(w.db, i, Captured) <==> exists a: nat :: CapturedAttempt(w.db, i, a)
    ensures forall a: nat, b: nat :: CapturedAttempt(w.db, i, a) && CapturedAttempt(w.db, i, b) ==> a == b
    ensures forall a: nat :: CapturedAttempt(w.db, i, a) ==> w.db.attempts[a].paymentId.Some?
  {
    hide OneLive;
    hide OnePerCart;
    hide TasksOk;
    hide PcOk;
    if InState(w.db, i, Captured) {
      assert HasAttempt(w.db, i, AttemptCaptured);
      var rows := w.db.attempts;
      var a :| 0 <= a < |rows| && rows[a].settlement == i && rows[a].state == AttemptCaptured;
      assert CapturedAttempt(w.db, i, a);
    }
  }

  /** The ledger is the table: its outcomes are the terminal states, once each, and its capture
      events name the captured attempts and their payments. */
  lemma LedgerIsTheAccount(w: World, i: nat)
    requires Reachable(w)
    ensures Replay(w.db.ledger) ==
      map j | 0 <= j < |w.db.settlements| && Terminal(w.db.settlements[j].state) :: w.db.settlements[j].state
    ensures |Outcomes(w.db.ledger, i)| == if i < |w.db.settlements| && Terminal(w.db.settlements[i].state) then 1 else 0
    ensures ReceiptsOk(w.db)
  {
    ReachableInv(w);
    hide Reachable;
    hide MoneyOk;
    hide Sound;
    hide Stamped;
    hide ReceiptsOk;
    hide PcCounts;
    hide Outcomes;
    hide Replay;
    ReplayIsTheTable(w.db);
    assert Outcomes(w.db.ledger, i) == FinalState(w.db.settlements, i);
  }

  // ---------------------------------------------------------------- attempts

  predicate LiveAttempt(db: Db, i: nat, a: nat) {
    a < |db.attempts| && db.attempts[a].settlement == i && Active(db.attempts[a].state)
  }

  /** Never two live attempts, at most three checkouts and one link, over the whole life. */
  lemma AttemptsAreBounded(w: World, i: nat)
    requires Reachable(w)
    ensures Checkouts(w.db, i) <= 3 && Links(w.db, i) <= 1
    ensures forall a: nat, b: nat :: LiveAttempt(w.db, i, a) && LiveAttempt(w.db, i, b) ==> a == b
  {
    ReachableInv(w);
    hide Reachable;
    hide MoneyOk;
    hide AccountOk;
    hide Stamped;
    hide PcCounts;
    hide Checkouts;
    hide Links;
    hide OneLive;
    hide OnePerCart;
    hide CapturesBacked;
  }

  /** The insert of an attempt never meets the index one_active_attempt: at the head of the loop no
      attempt of that settlement is live, whatever ran in between. */
  lemma InsertNeverThrows(w: World)
    requires Reachable(w) && w.pc.LoopHead?
    ensures !HasActiveAttempt(w.db, w.pc.id)
    ensures w.pc.n <= MAX_ATTEMPTS + 1
  {
    ReachableInv(w);
    hide Reachable;
    hide MoneyOk;
    hide AccountOk;
    hide Stamped;
    hide HasActiveAttempt;
    hide Checkouts;
    hide Links;
  }

  // ---------------------------------------------------------------- refunds

  lemma {:induction false} RunRefunds(w: World, steps: seq<Step>, truth: Truth)
    requires Inv(w) && RefundsOk(w, truth) && HonestRun(w, steps, truth)
    ensures RefundsOk(Run(w, steps), truth)
    decreases |steps|
  {
    hide Sound;
    hide MoneyOk;
    hide AccountOk;
    hide RunOk;
    hide Stamped;
    hide RefundsOk;
    hide Honest;
    hide Next;
    if steps != [] {
      StepInv(w, steps[0]);
      StepRefunds(w, steps[0], truth);
      RunRefunds(Next(w, steps[0]), steps[1..], truth);
    }
  }

  lemma {:induction false} RunTruth(w: World, steps: seq<Step>, truth: Truth)
    requires Inv(w) && TruthOk(w, truth) && TruthfulRun(w, steps, truth)
    ensures TruthOk(Run(w, steps), truth)
    decreases |steps|
  {
    hide Sound;
    hide MoneyOk;
    hide AccountOk;
    hide RunOk;
    hide Stamped;
    hide TruthOk;
    hide Truthful;
    hide Next;
    if steps != [] {
      StepInv(w, steps[0]);
      StepTruth(w, steps[0], truth);
      RunTruth(Next(w, steps[0]), steps[1..], truth);
    }
  }

  /** Over a run in which no reconcile is overtaken, a refunded payment is never the payment of a
      captured attempt, at any time and at any settlement. */
  lemma RefundsNeverTouchTheRetained(steps: seq<Step>, truth: Truth, i: nat, p: Text, c: nat)
    requires HonestRun(START, steps, truth) && OnePaymentPerOrder(truth)
    requires AlreadyRefunded(Run(START, steps).db, i, p)
    requires c < |Run(START, steps).db.attempts| && Run(START, steps).db.attempts[c].state == AttemptCaptured
    ensures Run(START, steps).db.attempts[c].paymentId != Some(p)
  {
    StartInv();
    assert RefundsOk(START, truth);
    hide Inv;
    hide RefundsOk;
    RunRefunds(START, steps, truth);
    RefundedIsNotRetained(Run(START, steps), truth, i, p, c);
    hide Run;
    hide HonestRun;
  }
}
