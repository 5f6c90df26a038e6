/** What each answer of the provider, the checkout driver and the clock does to the rows: the exact
    outcome of one step, said on the tables. */
module Answers {
  import opened Options
  import opened Texts
  import opened Schema
  import opened Protocol
  import opened Tables
  import opened Effects
  import opened Attempts
  import opened Refunds
  import opened Queue
  import opened Sweep
  import opened Gate

  /** Attempt a becomes this row; no other attempt and no settlement changes. */
  predicate AttemptBecomes(db: Db, db': Db, a: nat, r: Attempt) {
    && a < |db.attempts| && |db'.attempts| == |db.attempts|
    && (forall b :: 0 <= b < |db.attempts| && b != a ==> db'.attempts[b] == db.attempts[b])
    && db'.attempts[a] == r && db'.settlements == db.settlements
  }

  /** The executor has put settlement i down. */
  predicate PutDown(w: World, w': World, i: nat) { w'.pc == Idle && w'.inFlight == w.inFlight - {i} }

  // ---------------------------------------------------------------- the executor

  /** An order is stored on the row; without one a live attempt fails and the next one is up. */
  lemma OrderOutcome(w: World, r: OrderReply)
    requires w.pc.Ordering? && w.pc.attempt < |w.db.attempts|
    ensures var w', i, n, a := Next(w, RunOrder(r)), w.pc.id, w.pc.n, w.pc.attempt;
      var row := w.db.attempts[a];
      match r
      case OrderCreated(o) =>
        && AttemptBecomes(w.db, w'.db, a, row.(orderId := Some(o))) && w'.db.ledger == w.db.ledger
        && w'.pc == Driving(i, n, a) && w'.inFlight == w.inFlight
      case OrderFailed =>
        if row.state != Initiated then w'.db == w.db && PutDown(w, w', i)
        else
          && AttemptBecomes(w.db, w'.db, a, row.(state := AttemptFailed))
          && w'.db.ledger == w.db.ledger + [PaymentFailed(i, a)]
          && w'.pc == LoopHead(i, n + 1, Some(a)) && w'.inFlight == w.inFlight
  {
    NextOf(w, RunOrder(r));
    hide Next;
  }

  /** A checkout that did not pay: the attempt fails if it is still live, the failure is logged either
      way, and the next one is up. */
  lemma NotPaidOutcome(w: World)
    requires w.pc.Driving? && w.pc.attempt < |w.db.attempts|
    ensures var w1, w' := Next(w, RunDriver(NotPaid)), Next(Next(w, RunDriver(NotPaid)), RunFail);
      var i, n, a := w.pc.id, w.pc.n, w.pc.attempt;
      var row := w.db.attempts[a];
      && w1 == w.(pc := Failing(i, n, a))
      && AttemptBecomes(w.db, w'.db, a, if row.state == Initiated then row.(state := AttemptFailed) else row)
      && w'.db.ledger == w.db.ledger + [PaymentFailed(i, a)]
      && w'.pc == LoopHead(i, n + 1, Some(a)) && w'.inFlight == w.inFlight
  {
    NextOf(w, RunDriver(NotPaid));
    NextOf(w.(pc := Failing(w.pc.id, w.pc.n, w.pc.attempt)), RunFail);
    hide Next;
    hide ApplyCapture;
  }

  /** A driver that throws ends the run and leaves its attempt to the sweep. */
  lemma DriverThrewOutcome(w: World)
    requires w.pc.Driving?
    ensures var w' := Next(w, RunDriver(DriverThrew)); w'.db == w.db && PutDown(w, w', w.pc.id)
  {
    NextOf(w, RunDriver(DriverThrew));
    hide Next;
    hide ApplyCapture;
  }

  /** Attempt and settlement are captured together, with this payment, and the ledger says so. */
  predicate CapturesBoth(w: World, w': World, i: nat, a: nat, p: Text) {
    && a < |w.db.attempts| && |w'.db.attempts| == |w.db.attempts|
    && (forall b :: 0 <= b < |w.db.attempts| && b != a ==> w'.db.attempts[b] == w.db.attempts[b])
    && w'.db.attempts[a] == w.db.attempts[a].(state := AttemptCaptured, paymentId := Some(p))
    && RowMoves(w.db, w'.db, i, Captured, w.now)
    && w'.db.ledger == w.db.ledger + [PaymentCaptured(i, a, p)]
  }

  lemma CaptureOutcome(db: Db, a: nat, from: AttemptState, i: nat, p: Text, now: int)
    requires TablesOk(db) && a < |db.attempts| && db.attempts[a].settlement == i
    requires ApplyCapture(db, a, from, i, p, now).Applied?
    ensures var db' := ApplyCapture(db, a, from, i, p, now).db;
      && |db'.attempts| == |db.attempts|
      && (forall b :: 0 <= b < |db.attempts| && b != a ==> db'.attempts[b] == db.attempts[b])
      && db'.attempts[a] == db.attempts[a].(state := AttemptCaptured, paymentId := Some(p))
      && RowMoves(db, db', i, Captured, now)
      && db'.ledger == db.ledger + [PaymentCaptured(i, a, p)]
  {
    hide TablesOk;
    hide HasAttempt;
  }

  /** A payment captures exactly a live attempt of a settlement that is settling. On an attempt that has
      moved it counts as not paid, and beside another captured attempt it changes nothing. */
  lemma PaidOutcome(w: World, p: Text)
    requires Sound(w) && PcCounts(w) && w.pc.Driving?
    ensures var w', i, n, a := Next(w, RunDriver(Paid(p))), w.pc.id, w.pc.n, w.pc.attempt;
      if w.db.attempts[a].state != Initiated then w' == w.(pc := Failing(i, n, a))
      else if InState(w.db, i, Settling) then CapturesBoth(w, w', i, a, p) && PutDown(w, w', i)
      else w'.db == w.db && PutDown(w, w', i)
  {
    var i, a := w.pc.id, w.pc.attempt;
    hide Count;
    CaptureIsAllOrNothing(w.db, a, Initiated, i, p, w.now);
    if ApplyCapture(w.db, a, Initiated, i, p, w.now).Applied? { CaptureOutcome(w.db, a, Initiated, i, p, w.now); }
    StaleCapture(w.db, a, i, p, w.now);
    NextOf(w, RunDriver(Paid(p)));
    hide Next;
    hide ApplyCapture;
    hide TablesOk;
    hide RowMoves;
    hide HasActiveAttempt;
  }

  lemma StaleCapture(db: Db, a: nat, i: nat, p: Text, now: int)
    requires a < |db.attempts| && db.attempts[a].settlement == i
    ensures db.attempts[a].state != Initiated ==> ApplyCapture(db, a, Initiated, i, p, now) == NotApplied(db)
    ensures db.attempts[a].state == Initiated && !InState(db, i, Settling) && TablesOk(db) ==>
      ApplyCapture(db, a, Initiated, i, p, now) == CaptureThrew
  {
    if TablesOk(db) && db.attempts[a].state == Initiated && !InState(db, i, Settling) {
      assert HasAttempt(db, i, AttemptCaptured);
    }
  }

  /** The link is one more row that waits, with its event; a failure is flagged. The run is over. */
  lemma LinkOutcome(w: World, r: LinkReply)
    requires PcCounts(w) && w.pc.Linking?
    ensures var w', i := Next(w, RunLink(r)), w.pc.id;
      && w'.db.settlements == w.db.settlements && PutDown(w, w', i)
      && match r
         case LinkCreated =>
           && w'.db.attempts == w.db.attempts + [Attempt(i, PaymentLink, AwaitingConfirmation, None, None, w.now)]
           && w'.db.ledger == w.db.ledger + [PaymentLinkIssued(i, |w.db.attempts|)]
         case LinkFailed =>
           && w'.db.attempts == w.db.attempts
           && w'.db.ledger == w.db.ledger + [ReconciliationFlagged(Some(i), LinkCreateFailed)]
  {
    hide Count;
    hide HasActiveAttempt;
    assert SupersedeIfActive(w.db, w.pc.last) == w.db;
  }

  /** Were the last attempt still live at the link, and no other, it would be superseded. `LinkChange` shows
      that no run comes to that. */
  lemma SupersedeOutcome(w: World, a: nat)
    requires w.pc.Linking? && w.pc.last == Some(a) && a < |w.db.attempts|
    requires w.db.attempts[a].state in {Initiated, AwaitingConfirmation}
    requires forall b :: 0 <= b < |w.db.attempts| && b != a && w.db.attempts[b].settlement == w.pc.id ==>
      w.db.attempts[b].state !in {Initiated, AwaitingConfirmation}
    ensures var w', n := Next(w, RunLink(LinkCreated)), |w.db.attempts|;
      && w'.db.attempts[..n] == w.db.attempts[a := w.db.attempts[a].(state := Superseded)] && |w'.db.attempts| == n + 1
      && w'.db.attempts[n] == Attempt(w.pc.id, PaymentLink, AwaitingConfirmation, None, None, w.now)
      && w'.db.ledger == w.db.ledger + [PaymentLinkIssued(w.pc.id, n)]
  {
    NextOf(w, RunLink(LinkCreated));
    hide Next;
    var db := SupersedeIfActive(w.db, w.pc.last);
    assert db == w.db.(attempts := w.db.attempts[a := w.db.attempts[a].(state := Superseded)]);
    hide SupersedeIfActive;
    assert !HasActiveAttempt(db, w.pc.id);
    hide HasActiveAttempt;
  }

  /** At the head of the loop: the next checkout, or on to the link after the third. */
  lemma LoopOutcome(w: World)
    requires PcCounts(w) && w.pc.LoopHead?
    ensures var w', i, n := Next(w, RunLoop), w.pc.id, w.pc.n;
      && w'.db.settlements == w.db.settlements && w'.inFlight == w.inFlight
      && if n > 3 then w'.db == w.db && w'.pc == Linking(i, w.pc.last)
         else
           && w'.db.attempts == w.db.attempts + [Attempt(i, CheckoutDriver, Initiated, None, None, w.now)]
           && w'.db.ledger == w.db.ledger + [AttemptInitiated(i, |w.db.attempts|)]
           && w'.pc == Ordering(i, n, |w.db.attempts|)
  {
    hide Count;
    hide HasActiveAttempt;
    NextOf(w, RunLoop);
    hide Next;
  }

  // ---------------------------------------------------------------- the reconciler

  lemma {:induction false} NoneBefore(attempts: seq<Attempt>, o: Text, k: nat)
    requires ByOrder(attempts, o).Some? && k < ByOrder(attempts, o).value
    ensures attempts[k].orderId != Some(o)
  {
    var before := attempts[..|attempts| - 1];
    if ByOrder(before, o).Some? {
      NoneBefore(before, o, k);
      assert before[k] == attempts[k];
    } else {
      assert before[k].orderId != Some(o);
    }
  }

  /** The first row of the order is put into the task as it is now; an unknown order starts nothing. */
  lemma AskOutcome(w: World, t: nat, o: Text)
    requires t !in w.tasks
    ensures var w' := Next(w, Fetch(t, o));
      if forall k :: 0 <= k < |w.db.attempts| ==> w.db.attempts[k].orderId != Some(o) then w' == w
      else
        && t in w'.tasks && w' == w.(tasks := w.tasks[t := w'.tasks[t]]) && w'.tasks[t].Fetching?
        && w'.tasks[t].orderId == o && w'.tasks[t].attempt < |w.db.attempts|
        && w.db.attempts[w'.tasks[t].attempt].orderId == Some(o)
        && (forall k :: 0 <= k < w'.tasks[t].attempt ==> w.db.attempts[k].orderId != Some(o))
        && w'.tasks[t].snapshot == w.db.attempts[w'.tasks[t].attempt]
  {
    NextOf(w, Fetch(t, o));
    hide Next;
    var a := ByOrder(w.db.attempts, o);
    if a.Some? {
      forall k: nat | k < a.value ensures w.db.attempts[k].orderId != Some(o) { NoneBefore(w.db.attempts, o, k); }
    }
    hide ByOrder;
  }

  /** The task is over. */
  predicate TaskOver(w: World, w': World, t: nat) { w'.tasks == w.tasks - {t} }

  /** A failed payment fails the attempt exactly when its row is live and as it was read, with one event;
      a request that threw is flagged; no payment, or one in another state, changes nothing. The task
      is over. */
  lemma UnpaidOutcome(w: World, t: nat, p: Payments)
    requires t in w.tasks && w.tasks[t].Fetching? && w.tasks[t].attempt < |w.db.attempts| && !p.LatestPaid?
    ensures var w', f := Next(w, Fetched(t, p)), w.tasks[t];
      var row, i := w.db.attempts[f.attempt], f.snapshot.settlement;
      && TaskOver(w, w', t)
      && if p == LatestFailed && row.state == f.snapshot.state && row.state in {Initiated, AwaitingConfirmation} then
           && AttemptBecomes(w.db, w'.db, f.attempt, row.(state := AttemptFailed))
           && w'.db.ledger == w.db.ledger + [PaymentFailed(i, f.attempt)]
         else if p == FetchThrew then
           w'.db == w.db.(ledger := w.db.ledger + [ReconciliationFlagged(Some(i), FetchFailed)])
         else w'.db == w.db
  {
    NextOf(w, Fetched(t, p));
    hide Next;
  }

  /** A paid order captures its attempt and settlement when the row is live, as it was read, and the
      settlement is settling. */
  lemma ReconciledOutcome(w: World, t: nat, p: Text)
    requires Sound(w) && t in w.tasks && w.tasks[t].Fetching? && Active(w.tasks[t].snapshot.state)
    requires w.tasks[t].attempt < |w.db.attempts|
    requires w.db.attempts[w.tasks[t].attempt].state == w.tasks[t].snapshot.state
    requires w.db.attempts[w.tasks[t].attempt].settlement == w.tasks[t].snapshot.settlement
    requires InState(w.db, w.tasks[t].snapshot.settlement, Settling)
    ensures var w', f := Next(w, Fetched(t, LatestPaid(p))), w.tasks[t];
      CapturesBoth(w, w', f.snapshot.settlement, f.attempt, p) && TaskOver(w, w', t)
  {
    hide Next;
    hide ApplyCapture;
    hide TablesOk;
    hide RowMoves;
    hide HasAttempt;
    var f := w.tasks[t];
    CaptureIsAllOrNothing(w.db, f.attempt, f.snapshot.state, f.snapshot.settlement, p, w.now);
    CaptureOutcome(w.db, f.attempt, f.snapshot.state, f.snapshot.settlement, p, w.now);
    NoneCaptured(w.db, f.snapshot.settlement);
    NextOf(w, Fetched(t, LatestPaid(p)));
    hide BeginRefund;
    hide FailIfLive;
  }

  lemma NoneCaptured(db: Db, i: nat)
    requires TablesOk(db) && InState(db, i, Settling)
    ensures !HasAttempt(db, i, AttemptCaptured)
  {
    hide RowsOk;
    hide OneLive;
    hide OnePerCart;
    hide OneEach;
    hide CapturesBacked;
  }

  /** A refund that went through is on the ledger, one that did not is flagged; the task is over. */
  lemma RefundOutcome(w: World, t: nat, ok: bool)
    requires t in w.tasks && w.tasks[t].Refunding?
    ensures var w', r := Next(w, Refunded(t, ok)), w.tasks[t];
      var e := if ok then AnomalyRefundIssued(r.settlement, r.attempt, r.paymentId)
               else ReconciliationFlagged(Some(r.settlement), RefundFailed);
      TaskOver(w, w', t) && w'.db == w.db.(ledger := w.db.ledger + [e])
  {
    NextOf(w, Refunded(t, ok));
    hide Next;
  }

  // ---------------------------------------------------------------- the sweep, row by row

  /** An attempt is given up exactly when it is initiated and older than the cutoff, with one event. */
  lemma GiveUpOutcome(w: World, a: nat, cutoff: int)
    ensures var w' := Next(w, SweepAttemptStep(a, cutoff));
      if a < |w.db.attempts| && w.db.attempts[a].state == Initiated && w.db.attempts[a].createdAt < cutoff then
        && AttemptBecomes(w.db, w'.db, a, w.db.attempts[a].(state := AttemptFailed))
        && w'.db.ledger == w.db.ledger + [PaymentFailed(w.db.attempts[a].settlement, a)]
      else w' == w
  {
    NextOf(w, SweepAttemptStep(a, cutoff));
    hide Next;
  }

  /** A row whose time is up is abandoned, with the event that says why; any other is left alone. */
  lemma EarlySweepOutcome(w: World, s: Step)
    requires s.SweepTransientStep? || s.SweepVerifiedStep? || s.SweepApprovalStep?
    ensures var w', i := Next(w, s), s.id;
      if !Outlived(w, s, i) then w' == w
      else
        && RowMoves(w.db, w'.db, i, Abandoned, w.now)
        && w' == w.(db := w.db.(settlements := w'.db.settlements, ledger := w'.db.ledger))
        && w'.db.ledger == w.db.ledger + [
             if s.SweepTransientStep? then SettlementAbandoned(i, StrandedTransient)
             else if s.SweepVerifiedStep? then SettlementAbandoned(i, VerifiedTimeout)
             else ApprovalExpired(i)]
  {
    if s.SweepApprovalStep? {
      ApprovalRunsOut(w, s.id, s.ttl);
    } else {
      EarlyRunsOut(w, s);
    }
    NextOf(w, s);
    hide Next;
    hide Outlived;
    hide SweepTransient;
    hide SweepVerified;
    hide SweepApproval;
  }

  /** An approved row that waited too long is abandoned, with the reason, or counted and kicked. */
  lemma ApprovedSweepOutcome(w: World, i: nat, cutoff: int, maxKicks: nat)
    ensures var s, w' := SweepApprovedStep(i, cutoff, maxKicks), Next(w, SweepApprovedStep(i, cutoff, maxKicks));
      if !Waited(w, i, Approved, cutoff) then w' == w
      else if Outlived(w, s, i) then
        && RowMoves(w.db, w'.db, i, Abandoned, w.now)
        && w'.db.ledger == w.db.ledger + [SettlementAbandoned(i, WhyAbandoned(w, i))]
        && w'.inFlight == w.inFlight && w'.chain == w.chain
      else
        && w'.db.settlements == w.db.settlements[i := w.db.settlements[i].(kicks := w.db.settlements[i].kicks + 1)]
        && w'.db.ledger == w.db.ledger && i in w'.inFlight
  {
    NextOf(w, SweepApprovedStep(i, cutoff, maxKicks));
    hide Next;
  }

  /** Some event flags settlement i as stuck. */
  predicate Flagged(db: Db, i: nat) {
    exists k :: 0 <= k < |db.ledger| && db.ledger[k] == ReconciliationFlagged(Some(i), SettlingNoActiveAttempt)
  }

  /** An overdue settling row without a live attempt is flagged, once, and resumed; any other is left
      alone. */
  lemma StuckSweepOutcome(w: World, i: nat, cutoff: int)
    ensures var w' := Next(w, SweepSettlingStep(i, cutoff));
      if !Waited(w, i, Settling, cutoff) || HasActiveAttempt(w.db, i) then w' == w
      else
        && i in w'.inFlight && w'.pc == w.pc && w'.now == w.now && Flagged(w'.db, i)
        && w'.db == w.db.(ledger := w'.db.ledger)
        && (Flagged(w.db, i) ==> w'.db.ledger == w.db.ledger)
        && (!Flagged(w.db, i) ==>
             w'.db.ledger == w.db.ledger + [ReconciliationFlagged(Some(i), SettlingNoActiveAttempt)])
        && (i !in w.inFlight ==> w'.chain == w.chain + [Resume(i)])
  {
    NextOf(w, SweepSettlingStep(i, cutoff));
    hide Next;
    hide HasActiveAttempt;
    var flag := ReconciliationFlagged(Some(i), SettlingNoActiveAttempt);
    assert Flagged(w.db, i) <==> FlaggedStuck(w.db, i);
    assert (w.db.ledger + [flag])[|w.db.ledger|] == flag;
  }

  /** With the queue in order such a row is queued or running afterwards. */
  lemma StuckIsResumed(w: World, i: nat, cutoff: int)
    requires QueueOk(w) && Waited(w, i, Settling, cutoff) && !HasActiveAttempt(w.db, i)
    ensures var w' := Next(w, SweepSettlingStep(i, cutoff)); Queued(w', i) || RunsNow(w', i)
  {
    StuckSweepOutcome(w, i, cutoff);
    StepKeepsQueue(w, SweepSettlingStep(i, cutoff));
    hide Next;
    hide Waited;
    hide HasActiveAttempt;
    hide Queued;
    hide RunsNow;
    hide Flagged;
  }

  // ---------------------------------------------------------------- the sweep of stale attempts

  /** The rule on one attempt: left alone unless live and stale, given up without an order, and with one
      asked about, answered and, if need be, refunded under a task number that is free. */
  lemma PollOutcome(w: World, a: nat, cutoff: int, replies: map<nat, Reply>) returns (t: nat)
    ensures t !in w.tasks
    ensures var w' := SweptAttempt(w, a, cutoff, replies);
      var reply := if a in replies then replies[a] else Reply(FetchThrew, false);
      if a >= |w.db.attempts| || !Active(w.db.attempts[a].state) || w.db.attempts[a].createdAt >= cutoff then w' == w
      else if w.db.attempts[a].orderId.None? then w' == Next(w, SweepAttemptStep(a, cutoff))
      else
        var w1 := Next(w, Fetch(t, w.db.attempts[a].orderId.value));
        w' == Next(Next(w1, Fetched(t, reply.payments)), Refunded(t, reply.refunded))
  {
    t := FreeFrom(w.tasks.Keys, 0);
    SweptRun(w, a, cutoff, replies);
    var steps := SweptSteps(w, a, cutoff, replies);
    hide Next;
    if |steps| == 1 {
      assert [steps[0]] + [] == steps;
      RunOne(w, steps[0], []);
    } else if |steps| == 3 {
      RunThree(w, steps[0], steps[1], steps[2]);
      hide Run;
    }
    hide SweptAttempt;
  }

  /** Orders stay where they are and no row comes or goes. */
  predicate SameOrders(db: Db, db': Db) {
    && |db'.attempts| == |db.attempts|
    && forall b :: 0 <= b < |db.attempts| ==> db'.attempts[b].orderId == db.attempts[b].orderId
  }

  lemma AnswerTouchesOne(w: World, t: nat, p: Payments)
    requires t in w.tasks && w.tasks[t].Fetching? && w.tasks[t].attempt < |w.db.attempts|
    ensures var db' := FetchAnswer(w, t, p).db;
      && SameOrders(w.db, db')
      && forall b :: 0 <= b < |w.db.attempts| && b != w.tasks[t].attempt ==> db'.attempts[b] == w.db.attempts[b]
  {
    hide HasAttempt;
    hide AlreadyRefunded;
  }

  lemma RefundTouchesNone(w: World, t: nat, ok: bool)
    ensures RefundAnswer(w, t, ok).db.attempts == w.db.attempts
  {}

  lemma FailedAnswerFails(w: World, t: nat)
    requires t in w.tasks && w.tasks[t].Fetching? && w.tasks[t].attempt < |w.db.attempts|
    requires w.tasks[t].snapshot == w.db.attempts[w.tasks[t].attempt] && Active(w.tasks[t].snapshot.state)
    ensures FetchAnswer(w, t, LatestFailed).db.attempts[w.tasks[t].attempt].state == AttemptFailed
  {}

  /** Asking about the order of row k and its answer. */
  lemma PolledTouches(w: World, k: nat, t: nat, o: Text, reply: Reply)
    requires OrdersDistinct(w.db) && k < |w.db.attempts| && w.db.attempts[k].orderId == Some(o) && t !in w.tasks
    ensures var asked := FetchStart(w, t, o);
      var db' := RefundAnswer(FetchAnswer(asked, t, reply.payments), t, reply.refunded).db;
      && SameOrders(w.db, db')
      && (forall a :: 0 <= a < |w.db.attempts| && a != k ==> db'.attempts[a] == w.db.attempts[a])
      && (Active(w.db.attempts[k].state) && reply.payments == LatestFailed ==> db'.attempts[k].state == AttemptFailed)
  {
    var asked := FetchStart(w, t, o);
    OwnOrder(w.db, k, o);
    assert asked == w.(tasks := w.tasks[t := Fetching(o, k, w.db.attempts[k])]);
    hide FetchAnswer;
    hide FetchStart;
    hide OrdersDistinct;
    hide ByOrder;
    hide RefundAnswer;
    AnswerTouchesOne(asked, t, reply.payments);
    if Active(w.db.attempts[k].state) && reply.payments == LatestFailed { FailedAnswerFails(asked, t); }
    RefundTouchesNone(FetchAnswer(asked, t, reply.payments), t, reply.refunded);
  }

  /** What the rule on attempt k does to attempt a, orders being distinct: the row itself is given up, or
      failed by the provider's word; every other row is left alone. */
  lemma PollTouches(w: World, k: nat, cutoff: int, replies: map<nat, Reply>, a: nat)
    requires OrdersDistinct(w.db) && a < |w.db.attempts|
    ensures var db' := SweptAttempt(w, k, cutoff, replies).db;
      && SameOrders(w.db, db')
      && (k != a ==> db'.attempts[a] == w.db.attempts[a])
      && (k == a && Dies(w.db.attempts[a], cutoff, a, replies) ==> db'.attempts[a].state == AttemptFailed)
  {
    hide FetchAnswer;
    hide FetchStart;
    hide RefundAnswer;
    if k < |w.db.attempts| && w.db.attempts[k].orderId.Some? {
      var reply := if k in replies then replies[k] else Reply(FetchThrew, false);
      PolledTouches(w, k, FreeFrom(w.tasks.Keys, 0), w.db.attempts[k].orderId.value, reply);
    }
    hide OrdersDistinct;
  }

  lemma OwnOrder(db: Db, a: nat, o: Text)
    requires OrdersDistinct(db) && a < |db.attempts| && db.attempts[a].orderId == Some(o)
    ensures ByOrder(db.attempts, o) == Some(a)
  {
    var b := ByOrder(db.attempts, o);
    assert b.Some? && (b.value < a || a < b.value || b.value == a);
  }

  lemma SameOrdersDistinct(db: Db, db': Db)
    requires OrdersDistinct(db) && SameOrders(db, db')
    ensures OrdersDistinct(db')
  {}

  /** A stale attempt that has no order, or whose order the provider calls failed. */
  predicate Dies(r: Attempt, cutoff: int, a: nat, replies: map<nat, Reply>) {
    && r.createdAt < cutoff && Active(r.state)
    && if r.orderId.None? then r.state == Initiated else a in replies && replies[a].payments == LatestFailed
  }

  /** One pass over the stale attempts ends every one of them that has no order, and every one whose
      order the provider calls failed, whatever it answers about the others. */
  lemma {:induction false} StaleAttemptsEnd(w: World, n: nat, cutoff: int, replies: map<nat, Reply>, a: nat)
    requires OrdersDistinct(w.db) && a < |w.db.attempts|
    ensures var db' := StaleAttempts(w, n, cutoff, replies).db;
      && OrdersDistinct(db') && SameOrders(w.db, db')
      && (n <= a ==> db'.attempts[a] == w.db.attempts[a])
      && (n > a && Dies(w.db.attempts[a], cutoff, a, replies) ==> db'.attempts[a].state == AttemptFailed)
    decreases n
  {
    hide SweptAttempt;
    hide Dies;
    if n > 0 {
      var mid := StaleAttempts(w, n - 1, cutoff, replies);
      StaleAttemptsEnd(w, n - 1, cutoff, replies, a);
      PollTouches(mid, n - 1, cutoff, replies, a);
      SameOrdersDistinct(mid.db, SweptAttempt(mid, n - 1, cutoff, replies).db);
    }
    hide OrdersDistinct;
  }
}
