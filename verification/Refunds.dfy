/** No retained double charge. The provider captures at most one payment per order and no payment
    for two orders. While no reconcile is overtaken by a capture of the attempt it read, a refund
    is issued only for attempts that can never be the captured one. */
module Refunds {
  import opened Options
  import opened Texts
  import opened Schema
  import opened Protocol
  import opened Tables
  import opened Attempts

  /** The one payment that the provider captures for each paid order. */
  type Truth = map<Text, Text>

  predicate OnePaymentPerOrder(truth: Truth) {
    forall o, o' :: o in truth && o' in truth && truth[o] == truth[o'] ==> o == o'
  }

  predicate PaidFor(db: Db, truth: Truth, a: nat, p: Text) {
    a < |db.attempts| && db.attempts[a].orderId.Some?
    && db.attempts[a].orderId.value in truth && truth[db.attempts[a].orderId.value] == p
  }

  /** The attempt was captured after this reconcile read it. */
  predicate Overtaken(w: World, t: nat) {
    && t in w.tasks && w.tasks[t].Fetching? && w.tasks[t].attempt < |w.db.attempts|
    && w.tasks[t].snapshot.state != AttemptCaptured
    && w.db.attempts[w.tasks[t].attempt].state == AttemptCaptured
  }

  /** New orders are new, and reported payments are the provider's own. */
  predicate Truthful(w: World, s: Step, truth: Truth) {
    match s
    case RunOrder(OrderCreated(o)) => ByOrder(w.db.attempts, o).None?
    case RunDriver(Paid(p)) => w.pc.Driving? ==> PaidFor(w.db, truth, w.pc.attempt, p)
    case Fetched(t, LatestPaid(p)) =>
      t in w.tasks && w.tasks[t].Fetching? ==> PaidFor(w.db, truth, w.tasks[t].attempt, p)
    case _ => true
  }

  /** A reconcile that was overtaken goes on with a payment in its hand. */
  predicate Oversteps(w: World, s: Step) { s.Fetched? && s.payments.LatestPaid? && Overtaken(w, s.task) }

  predicate Honest(w: World, s: Step, truth: Truth) { Truthful(w, s, truth) && !Oversteps(w, s) }

  predicate HonestRun(w: World, steps: seq<Step>, truth: Truth)
    decreases |steps|
  {
    steps == [] || (Honest(w, steps[0], truth) && HonestRun(Next(w, steps[0]), steps[1..], truth))
  }

  predicate TruthfulRun(w: World, steps: seq<Step>, truth: Truth)
    decreases |steps|
  {
    steps == [] || (Truthful(w, steps[0], truth) && TruthfulRun(Next(w, steps[0]), steps[1..], truth))
  }

  // ---------------------------------------------------------------- invariants

  predicate OrdersDistinct(db: Db) {
    forall a, b :: 0 <= a < b < |db.attempts| && db.attempts[a].orderId.Some? ==>
      db.attempts[a].orderId != db.attempts[b].orderId
  }

  /** A captured attempt carries the payment of its own order. */
  predicate CapturesTrue(db: Db, truth: Truth) {
    forall a :: 0 <= a < |db.attempts| && db.attempts[a].state == AttemptCaptured ==>
      db.attempts[a].paymentId.Some? && PaidFor(db, truth, a, db.attempts[a].paymentId.value)
  }

  predicate RightlyRefunded(db: Db, truth: Truth, i: nat, a: nat, p: Text) {
    Doomed(db, a) && db.attempts[a].settlement == i && PaidFor(db, truth, a, p)
  }

  /** A reconcile holds the row of its order; a row that was over when it was read is still so. */
  predicate Holds(db: Db, o: Text, a: nat, snapshot: Attempt) {
    && a < |db.attempts| && db.attempts[a].orderId == Some(o)
    && (!Active(snapshot.state) ==> db.attempts[a].state == snapshot.state)
  }

  predicate FetchesTrue(w: World) {
    forall t :: t in w.tasks && w.tasks[t].Fetching? ==>
      Holds(w.db, w.tasks[t].orderId, w.tasks[t].attempt, w.tasks[t].snapshot)
  }

  predicate RefundingsRight(w: World, truth: Truth) {
    forall t :: t in w.tasks && w.tasks[t].Refunding? ==>
      RightlyRefunded(w.db, truth, w.tasks[t].settlement, w.tasks[t].attempt, w.tasks[t].paymentId)
  }

  predicate RefundsTrue(db: Db, truth: Truth) {
    forall k :: 0 <= k < |db.ledger| && db.ledger[k].AnomalyRefundIssued? ==>
      RightlyRefunded(db, truth, db.ledger[k].settlement, db.ledger[k].attempt, db.ledger[k].paymentId)
  }

  /** What a truthful provider keeps, overtaken reconciles or not. */
  predicate TruthOk(w: World, truth: Truth) {
    OrdersDistinct(w.db) && CapturesTrue(w.db, truth) && FetchesTrue(w)
  }

  predicate RefundsOk(w: World, truth: Truth) {
    TruthOk(w, truth) && RefundingsRight(w, truth) && RefundsTrue(w.db, truth)
  }

  // ---------------------------------------------------------------- what stays

  /** Order ids are never rewritten, so a paid order stays that attempt's order. */
  lemma PaidStays(db: Db, db': Db, truth: Truth, a: nat, p: Text)
    requires Later(db, db') && PaidFor(db, truth, a, p)
    ensures PaidFor(db', truth, a, p)
  {}

  lemma RightStays(db: Db, db': Db, truth: Truth, i: nat, a: nat, p: Text)
    requires Later(db, db') && RightlyRefunded(db, truth, i, a, p)
    ensures RightlyRefunded(db', truth, i, a, p)
  {
    DoomStays(db, db', a);
    PaidStays(db, db', truth, a, p);
  }

  lemma OrdersStay(w: World, s: Step, db': Db, c: Change, truth: Truth)
    requires OrdersDistinct(w.db) && Alters(w.db, db', c, w.now) && CausedBy(w, s, c) && Truthful(w, s, truth)
    ensures OrdersDistinct(db')
  {
    hide NoReceipt;
    hide Count;
    hide HasActiveAttempt;
    if c.Orders? {
      assert forall k :: 0 <= k < |w.db.attempts| ==> w.db.attempts[k].orderId != Some(c.orderId);
    }
  }

  lemma CapturesStay(w: World, s: Step, db': Db, c: Change, truth: Truth)
    requires RunOk(w) && CapturesTrue(w.db, truth)
    requires Alters(w.db, db', c, w.now) && CausedBy(w, s, c) && Truthful(w, s, truth)
    ensures CapturesTrue(db', truth)
  {
    hide NoReceipt;
    hide Count;
    hide HasActiveAttempt;
    hide RunOk;
    forall a: nat | a < |db'.attempts| && db'.attempts[a].state == AttemptCaptured
      ensures db'.attempts[a].paymentId.Some? && PaidFor(db', truth, a, db'.attempts[a].paymentId.value)
    {
      if c.Pays? && c.a == a {
        assert PaidFor(w.db, truth, a, c.paymentId);
      } else if a < |w.db.attempts| {
        assert w.db.attempts[a].state == AttemptCaptured;
      }
    }
  }

  /** The task that a step adds or turns: a new reconcile, or a reconcile that goes on to a refund. */
  lemma NewTask(w: World, s: Step, t: nat)
    requires t in Next(w, s).tasks && (t !in w.tasks || Next(w, s).tasks[t] != w.tasks[t])
    requires s.Fetch? || s.Fetched? || s.Refunded?
    ensures Next(w, s).tasks[t].Fetching? ==>
      && s.Fetch? && Next(w, s).db == w.db && ByOrder(w.db.attempts, s.orderId).Some?
      && var a := ByOrder(w.db.attempts, s.orderId).value;
         Next(w, s).tasks[t] == Fetching(s.orderId, a, w.db.attempts[a])
    ensures Next(w, s).tasks[t].Refunding? ==>
      && s.Fetched? && t == s.task && t in w.tasks && w.tasks[t].Fetching? && s.payments.LatestPaid?
      && Next(w, s).tasks[t] == Refunding(w.tasks[t].snapshot.settlement, w.tasks[t].attempt, s.payments.paymentId)
  {
    hide ApplyCapture;
    hide AlreadyRefunded;
    hide IsAnomaly;
    hide FailIfLive;
  }

  /** Only these three steps add or turn a task. */
  predicate TasksMove(w: World, s: Step) {
    Next(w, s).tasks == w.tasks || Next(w, s).tasks == map[] || s.Fetch? || s.Fetched? || s.Refunded?
  }

  lemma FetchesStay(w: World, s: Step)
    requires FetchesTrue(w) && Later(w.db, Next(w, s).db) && TasksMove(w, s)
    ensures FetchesTrue(Next(w, s))
  {
    var w' := Next(w, s);
    forall t | t in w'.tasks && w'.tasks[t].Fetching?
      ensures Holds(w'.db, w'.tasks[t].orderId, w'.tasks[t].attempt, w'.tasks[t].snapshot)
    {
      if t in w.tasks && w'.tasks[t] == w.tasks[t] {
        var f := w.tasks[t];
        assert Holds(w.db, f.orderId, f.attempt, f.snapshot);
        assert RowLater(w.db.attempts[f.attempt], w'.db.attempts[f.attempt]);
      } else {
        NewTask(w, s, t);
      }
      hide Next;
    }
  }

  /** Every step with a truthful provider keeps the bond of orders, captures and reconciles. */
  lemma StepTruth(w: World, s: Step, truth: Truth)
    requires Sound(w) && RunOk(w) && TruthOk(w, truth) && Truthful(w, s, truth)
    ensures TruthOk(Next(w, s), truth)
  {
    hide Sound;
    hide RunOk;
    hide Alters;
    hide CausedBy;
    hide Truthful;
    hide OrdersDistinct;
    hide CapturesTrue;
    hide FetchesTrue;
    hide Later;
    hide Next;
    var c := Same;
    if OfRun(s) { c := RunStep(w, s); } else { c := AsideStep(w, s); }
    AlteredLater(w.db, Next(w, s).db, c, w.now);
    OrdersStay(w, s, Next(w, s).db, c, truth);
    CapturesStay(w, s, Next(w, s).db, c, truth);
    FetchesStay(w, s);
  }

  // ---------------------------------------------------------------- refunds

  lemma RefundsStay(w: World, s: Step, db': Db, c: Change, truth: Truth)
    requires RefundsTrue(w.db, truth) && RefundingsRight(w, truth) && Alters(w.db, db', c, w.now) && CausedBy(w, s, c)
    ensures RefundsTrue(db', truth)
  {
    AlteredLater(w.db, db', c, w.now);
    hide Count;
    hide HasActiveAttempt;
    forall k | 0 <= k < |db'.ledger| && db'.ledger[k].AnomalyRefundIssued?
      ensures RightlyRefunded(db', truth, db'.ledger[k].settlement, db'.ledger[k].attempt, db'.ledger[k].paymentId)
    {
      var e := db'.ledger[k];
      if k < |w.db.ledger| {
        assert e == db'.ledger[..|w.db.ledger|][k] == w.db.ledger[k];
      } else {
        assert c == Refunds(e.settlement, e.attempt, e.paymentId);
      }
      assert RightlyRefunded(w.db, truth, e.settlement, e.attempt, e.paymentId);
      RightStays(w.db, db', truth, e.settlement, e.attempt, e.paymentId);
      hide Alters;
      hide Later;
      hide RightlyRefunded;
    }
  }

  /** When a reconcile that was not overtaken turns to a refund, its attempt is doomed. */
  lemma RefundIsForTheDoomed(w: World, t: nat, p: Text, truth: Truth)
    requires Sound(w) && RunOk(w) && FetchesTrue(w) && Honest(w, Fetched(t, LatestPaid(p)), truth)
    requires t in w.tasks && w.tasks[t].Fetching? && t in FetchAnswer(w, t, LatestPaid(p)).tasks
    ensures var w', f := FetchAnswer(w, t, LatestPaid(p)), w.tasks[t];
      && w'.db == w.db && w'.tasks[t] == Refunding(f.snapshot.settlement, f.attempt, p)
      && RightlyRefunded(w.db, truth, f.snapshot.settlement, f.attempt, p)
  {
    hide TablesOk;
    hide ApplyCapture;
    hide AlreadyRefunded;
    hide PcCounts;
    hide PcOk;
    hide ReceiptsOk;
    hide Bounded;
    var a, snapshot := w.tasks[t].attempt, w.tasks[t].snapshot;
    CaptureIsAllOrNothing(w.db, a, snapshot.state, snapshot.settlement, p, w.now);
    AnomalyIsDoomed(w, a, snapshot);
  }

  lemma AnomalyIsDoomed(w: World, a: nat, snapshot: Attempt)
    requires Sound(w) && a < |w.db.attempts| && w.db.attempts[a].settlement == snapshot.settlement
    requires w.db.attempts[a].state != AttemptCaptured
    ensures IsAnomaly(w.db, snapshot) && Active(snapshot.state) ==>
      HasAttempt(w.db, snapshot.settlement, AttemptCaptured)
    ensures InState(w.db, snapshot.settlement, Settling) || HasAttempt(w.db, snapshot.settlement, AttemptCaptured)
  {}

  lemma RefundingsStay(w: World, s: Step, truth: Truth)
    requires Sound(w) && RunOk(w) && RefundsOk(w, truth) && Honest(w, s, truth)
    requires Later(w.db, Next(w, s).db) && TasksMove(w, s)
    ensures RefundingsRight(Next(w, s), truth)
  {
    hide Sound;
    hide RunOk;
    hide Later;
    hide RightlyRefunded;
    hide OrdersDistinct;
    hide CapturesTrue;
    hide RefundsTrue;
    hide FetchesTrue;
    var w' := Next(w, s);
    forall t | t in w'.tasks && w'.tasks[t].Refunding?
      ensures RightlyRefunded(w'.db, truth, w'.tasks[t].settlement, w'.tasks[t].attempt, w'.tasks[t].paymentId)
    {
      var r := w'.tasks[t];
      if t in w.tasks && r == w.tasks[t] {
        RightStays(w.db, w'.db, truth, r.settlement, r.attempt, r.paymentId);
        hide Next;
      } else {
        NewTask(w, s, t);
        RefundIsForTheDoomed(w, t, s.payments.paymentId, truth);
        hide FetchAnswer;
      }
    }
  }

  lemma StepRefunds(w: World, s: Step, truth: Truth)
    requires Sound(w) && RunOk(w) && RefundsOk(w, truth) && Honest(w, s, truth)
    ensures RefundsOk(Next(w, s), truth)
  {
    StepTruth(w, s, truth);
    hide Sound;
    hide RunOk;
    hide Alters;
    hide CausedBy;
    hide Honest;
    hide TruthOk;
    hide RefundingsRight;
    hide RefundsTrue;
    hide Later;
    hide Next;
    var c := Same;
    if OfRun(s) { c := RunStep(w, s); } else { c := AsideStep(w, s); }
    AlteredLater(w.db, Next(w, s).db, c, w.now);
    RefundsStay(w, s, Next(w, s).db, c, truth);
    RefundingsStay(w, s, truth);
  }

  // ---------------------------------------------------------------- the main result

  /** Attempt a is captured with this payment. */
  predicate Keeps(db: Db, a: nat, p: Text) {
    a < |db.attempts| && db.attempts[a].state == AttemptCaptured && db.attempts[a].paymentId == Some(p)
  }

  /** This payment of attempt a is either retained on a or given back. */
  predicate Accounted(db: Db, a: nat, p: Text) {
    a < |db.attempts| && (Keeps(db, a, p) || AlreadyRefunded(db, db.attempts[a].settlement, p))
  }

  /** A payment is the payment of one row only. */
  lemma OnePaidRow(db: Db, truth: Truth, a: nat, c: nat, p: Text)
    requires OrdersDistinct(db) && OnePaymentPerOrder(truth) && PaidFor(db, truth, a, p) && PaidFor(db, truth, c, p)
    ensures a == c
  {
    assert a < c || c < a || a == c;
  }

  /** A payment that was refunded is not the payment of any captured attempt. */
  lemma RefundedIsNotRetained(w: World, truth: Truth, i: nat, p: Text, c: nat)
    requires RefundsOk(w, truth) && OnePaymentPerOrder(truth) && AlreadyRefunded(w.db, i, p)
    requires c < |w.db.attempts| && w.db.attempts[c].state == AttemptCaptured
    ensures w.db.attempts[c].paymentId != Some(p)
  {
    hide FetchesTrue;
    hide RefundingsRight;
    var k :| 0 <= k < |w.db.ledger| && w.db.ledger[k].AnomalyRefundIssued?
      && w.db.ledger[k].settlement == i && w.db.ledger[k].paymentId == p;
    var a := w.db.ledger[k].attempt;
    assert RightlyRefunded(w.db, truth, i, a, p);
    if w.db.attempts[c].paymentId == Some(p) { OnePaidRow(w.db, truth, a, c, p); }
  }

  /** A refund stays on the ledger. */
  lemma RefundStays(db: Db, db': Db, i: nat, p: Text)
    requires Later(db, db') && AlreadyRefunded(db, i, p)
    ensures AlreadyRefunded(db', i, p)
  {
    var k :| 0 <= k < |db.ledger|
      && db.ledger[k].AnomalyRefundIssued? && db.ledger[k].settlement == i && db.ledger[k].paymentId == p;
    assert db'.ledger[k] == db'.ledger[..|db.ledger|][k] == db.ledger[k];
  }

  /** A payment that is accounted for stays so: captures are final and the ledger only grows. */
  lemma AccountedStays(db: Db, db': Db, a: nat, p: Text)
    requires Later(db, db') && Accounted(db, a, p)
    ensures Accounted(db', a, p) && db'.attempts[a].settlement == db.attempts[a].settlement
  {
    assert RowLater(db.attempts[a], db'.attempts[a]);
    if AlreadyRefunded(db, db.attempts[a].settlement, p) { RefundStays(db, db', db.attempts[a].settlement, p); }
    hide AlreadyRefunded;
  }

  /** The answer to a reconcile that was not overtaken, however old its row: the payment is accounted
      for, or its refund is under way. */
  lemma AnswerSettles(w: World, t: nat, p: Text, truth: Truth)
    requires Sound(w) && RunOk(w) && RefundsOk(w, truth) && Honest(w, Fetched(t, LatestPaid(p)), truth)
    requires t in w.tasks && w.tasks[t].Fetching?
    ensures var w', f := FetchAnswer(w, t, LatestPaid(p)), w.tasks[t];
      if t in w'.tasks then w'.tasks[t] == Refunding(f.snapshot.settlement, f.attempt, p)
      else Accounted(w'.db, f.attempt, p)
  {
    if t in FetchAnswer(w, t, LatestPaid(p)).tasks {
      RefundIsForTheDoomed(w, t, p, truth);
      hide FetchAnswer;
    } else {
      AnswerEnds(w, t, p, truth);
      hide FetchAnswer;
    }
  }

  lemma AnswerEnds(w: World, t: nat, p: Text, truth: Truth)
    requires Sound(w) && RunOk(w) && RefundsOk(w, truth) && Honest(w, Fetched(t, LatestPaid(p)), truth)
    requires t in w.tasks && w.tasks[t].Fetching? && t !in FetchAnswer(w, t, LatestPaid(p)).tasks
    ensures Accounted(FetchAnswer(w, t, LatestPaid(p)).db, w.tasks[t].attempt, p)
  {
    hide TablesOk;
    hide RefundsTrue;
    hide OrdersDistinct;
    hide PcCounts;
    hide PcOk;
    hide ReceiptsOk;
    hide Bounded;
    hide AlreadyRefunded;
    var a, snapshot := w.tasks[t].attempt, w.tasks[t].snapshot;
    if snapshot.state != AttemptCaptured && !IsAnomaly(w.db, snapshot) {
      LiveAnswer(w.db, a, snapshot, p, w.now);
      hide ApplyCapture;
      hide IsAnomaly;
    }
  }

  /** On a live row the capture is applied or the row has moved; it never throws. */
  lemma LiveAnswer(db: Db, a: nat, snapshot: Attempt, p: Text, now: int)
    requires a < |db.attempts| && db.attempts[a].settlement == snapshot.settlement && !IsAnomaly(db, snapshot)
    ensures var c := ApplyCapture(db, a, snapshot.state, snapshot.settlement, p, now);
      && !c.CaptureThrew?
      && (c.NotApplied? ==> c.db == db)
      && (c.Applied? ==> Keeps(c.db, a, p))
  {}

  /** A refund that goes through is on the ledger. */
  lemma RefundIsIssued(w: World, t: nat, i: nat, a: nat, p: Text)
    requires t in w.tasks && w.tasks[t] == Refunding(i, a, p)
    ensures var w' := RefundAnswer(w, t, true); AlreadyRefunded(w'.db, i, p) && w'.db.attempts == w.db.attempts
  {
    var w' := RefundAnswer(w, t, true);
    assert w'.db.ledger[|w.db.ledger|] == AnomalyRefundIssued(i, a, p);
  }

  // ---------------------------------------------------------------- when it fails

  /** A reconcile starts to give back the payment of the captured attempt exactly when it was
      overtaken by that capture and the payment was not refunded before. */
  lemma RetainedPaymentRefundedIff(w: World, t: nat, p: Text)
    requires Sound(w) && t in w.tasks && w.tasks[t].Fetching?
    requires Keeps(w.db, w.tasks[t].attempt, p)
    ensures var w', f := FetchAnswer(w, t, LatestPaid(p)), w.tasks[t];
      (t in w'.tasks && w'.tasks[t] == Refunding(f.snapshot.settlement, f.attempt, p))
      <==> Overtaken(w, t) && !AlreadyRefunded(w.db, f.snapshot.settlement, p)
  {
    hide TablesOk;
    hide AlreadyRefunded;
    hide ApplyCapture;
    var f := w.tasks[t];
    assert HasAttempt(w.db, f.snapshot.settlement, AttemptCaptured);
  }

  /** The captured attempt a keeps payment p, and task t is about to give it back. */
  predicate RefundsRetained(w: World, t: nat, a: nat, p: Text) {
    && a < |w.db.attempts|
    && w.db.attempts[a].state == AttemptCaptured && w.db.attempts[a].paymentId == Some(p)
    && t in w.tasks && w.tasks[t] == Refunding(w.db.attempts[a].settlement, a, p)
  }

  /** Three steps do it: the reconcile reads the row, the driver confirms, the reconcile goes on. */
  lemma OvertakenReconcileRefundsTheRetained(w: World, t: nat, o: Text, p: Text)
    requires Sound(w) && w.pc.Driving? && t !in w.tasks
    requires w.db.attempts[w.pc.attempt].state == Initiated && ByOrder(w.db.attempts, o) == Some(w.pc.attempt)
    requires InState(w.db, w.pc.id, Settling) && !AlreadyRefunded(w.db, w.pc.id, p)
    ensures RefundsRetained(Run(w, [Fetch(t, o), RunDriver(Paid(p)), Fetched(t, LatestPaid(p))]), t, w.pc.attempt, p)
  {
    var a, i := w.pc.attempt, w.pc.id;
    var w1 := w.(tasks := w.tasks[t := Fetching(o, a, w.db.attempts[a])]);
    var w2 := DriverAnswer(w1, Paid(p));
    var f, g, h := Fetch(t, o), RunDriver(Paid(p)), Fetched(t, LatestPaid(p));
    RunThree(w, f, g, h);
    hide Run;
    CaptureIsAllOrNothing(w.db, a, Initiated, i, p, w.now);
    hide Sound;
    NextOf(w, f);
    NextOf(w1, g);
    NextOf(w2, h);
    hide Next;
    assert FetchStart(w, t, o) == w1;
    DriverCaptures(w1, p);
    hide DriverAnswer;
    hide FetchStart;
    hide ApplyCapture;
    RefundedBefore(w.db, w2.db, i, p);
    hide AlreadyRefunded;
    GoesOn(w2, t, a, o, w.db.attempts[a], p);
    hide RefundsRetained;
    hide FetchAnswer;
  }

  lemma DriverCaptures(w: World, p: Text)
    requires w.pc.Driving? && ApplyCapture(w.db, w.pc.attempt, Initiated, w.pc.id, p, w.now).Applied?
    ensures var w' := DriverAnswer(w, Paid(p));
      && w'.tasks == w.tasks && w.pc.attempt < |w.db.attempts| && |w'.db.attempts| == |w.db.attempts|
      && w'.db.attempts[w.pc.attempt] == w.db.attempts[w.pc.attempt].(state := AttemptCaptured, paymentId := Some(p))
      && |w'.db.ledger| == |w.db.ledger| + 1 && w'.db.ledger[..|w.db.ledger|] == w.db.ledger
      && !w'.db.ledger[|w.db.ledger|].AnomalyRefundIssued?
  {}

  lemma GoesOn(w: World, t: nat, a: nat, o: Text, snapshot: Attempt, p: Text)
    requires a < |w.db.attempts| && w.db.attempts[a] == snapshot.(state := AttemptCaptured, paymentId := Some(p))
    requires t in w.tasks && w.tasks[t] == Fetching(o, a, snapshot) && snapshot.state != AttemptCaptured
    requires !AlreadyRefunded(w.db, snapshot.settlement, p)
    ensures RefundsRetained(FetchAnswer(w, t, LatestPaid(p)), t, a, p)
  {
    hide AlreadyRefunded;
    hide ApplyCapture;
    assert HasAttempt(w.db, snapshot.settlement, AttemptCaptured);
  }

  lemma RefundedBefore(db: Db, db': Db, i: nat, p: Text)
    requires |db'.ledger| == |db.ledger| + 1 && db'.ledger[..|db.ledger|] == db.ledger
    requires !db'.ledger[|db.ledger|].AnomalyRefundIssued?
    ensures AlreadyRefunded(db', i, p) <==> AlreadyRefunded(db, i, p)
  {
    forall k | 0 <= k < |db.ledger| ensures db'.ledger[k] == db.ledger[k] {
      assert db'.ledger[k] == db'.ledger[..|db.ledger|][k];
    }
  }
}
