/** No retained double charge, over whole runs: what becomes of every payment whose order was
    reconciled, whatever ran in between, and what a reconcile that was overtaken does. */
module Charges {
  import opened Options
  import opened Texts
  import opened Crypto
  import opened Mandates
  import opened Schema
  import opened Protocol
  import opened Tables
  import opened Attempts
  import opened Money
  import opened Account
  import opened Sweep
  import opened Refunds
  import opened Safety
  import opened Checkout

  // ---------------------------------------------------------------- what a run did

  /** The step ends what task t waits for: the answer to it, or the end of the process. */
  predicate Ends(w: World, s: Step, t: nat) {
    || s.Crash? || (s.PostStep? && s.dies && ClaimKey(w.db, s.key, s.requestHash) == Claimed)
    || (s.Fetched? && s.task == t && t in w.tasks && w.tasks[t].Fetching?)
    || (s.Refunded? && s.task == t && t in w.tasks && w.tasks[t].Refunding?)
  }

  /** Between steps j and k nothing ends task t; any other steps may run. */
  ghost predicate Undisturbed(w: World, steps: seq<Step>, t: nat, j: nat, k: nat)
    requires k <= |steps|
  {
    forall x :: j < x < k ==> !Ends(Before(w, steps, x), steps[x], t)
  }

  /** The refund that step k began goes through at step m. */
  ghost predicate GivenBack(w: World, steps: seq<Step>, t: nat, k: nat, m: nat) {
    k < m < |steps| && Undisturbed(w, steps, t, k, m) && steps[m] == Refunded(t, true)
  }

  /** A reconcile of order o as the run made it: asked for at step j when the order was on a row,
      answered with payment p at step k, and if that began a refund, the refund went through. */
  ghost predicate ReconciledBy(w: World, steps: seq<Step>, o: Text, p: Text, t: nat, j: nat, k: nat) {
    && j < k < |steps|
    && steps[j] == Fetch(t, o) && t !in Before(w, steps, j).tasks && ByOrder(Before(w, steps, j).db.attempts, o).Some?
    && Undisturbed(w, steps, t, j, k)
    && steps[k] == Fetched(t, LatestPaid(p))
    && (t in Before(w, steps, k + 1).tasks ==> exists m: nat :: GivenBack(w, steps, t, k, m))
  }

  ghost predicate Reconciled(w: World, steps: seq<Step>, o: Text, p: Text) {
    exists t: nat, j: nat, k: nat :: ReconciledBy(w, steps, o, p, t, j, k)
  }

  // ---------------------------------------------------------------- tasks wait

  lemma PostTasks(w: World, key: Text, h: Text, intent: SignedIntent, cart: SignedCart)
    ensures Post(w, key, h, intent, cart, false).tasks == w.tasks
  {
    hide CreateSettlement;
  }

  lemma OtherTasks(w: World, s: Step)
    requires s.SetClock? || s.MintToken? || s.AddCatalog? || s.Note? || s.SweepLocksStep?
      || s.RegisterStep? || s.RevokeStep? || s.SweepAttemptStep?
    ensures Next(w, s).tasks == w.tasks
  {
    hide Register;
    hide Revoke;
    hide SweepLocks;
    hide SweepAttempt;
  }

  lemma ReconcileTasks(w: World, s: Step, t: nat)
    requires (s.Fetch? || s.Fetched? || s.Refunded?) && t in w.tasks
    ensures Ends(w, s, t) <==> !(t in Next(w, s).tasks && Next(w, s).tasks[t] == w.tasks[t])
  {
    hide ApplyCapture;
    hide AlreadyRefunded;
    hide IsAnomaly;
    hide FailIfLive;
    hide ByOrder;
  }

  lemma DeathTasks(w: World, key: Text, h: Text, intent: SignedIntent, cart: SignedCart)
    ensures Post(w, key, h, intent, cart, true).tasks == if ClaimKey(w.db, key, h) == Claimed then map[] else w.tasks
  {}

  /** A task that waits is gone or another after a step exactly when the step ends it. */
  lemma TaskWaits(w: World, s: Step, t: nat)
    requires t in w.tasks
    ensures Ends(w, s, t) <==> !(t in Next(w, s).tasks && Next(w, s).tasks[t] == w.tasks[t])
  {
    if OfRun(s) {
      RunTasks(w, s);
      hide Next;
    } else if s.Fetch? || s.Fetched? || s.Refunded? {
      ReconcileTasks(w, s, t);
      hide Next;
      hide Ends;
    } else {
      hide ClaimKey;
      match s
      case Crash => hide Post;
      case PostStep(k, h, i, c, dies) =>
        if dies { DeathTasks(w, k, h, i, c); } else { PostTasks(w, k, h, i, c); }
        hide Post;
      case ApproveStep(i, h, d, sig) => ApproveChange(w, i, h, d, sig); hide Approve;
      case SweepTransientStep(_, _) => SweepRowsChange(w, s); hide Next;
      case SweepVerifiedStep(_, _) => SweepRowsChange(w, s); hide Next;
      case SweepApprovalStep(_, _) => SweepRowsChange(w, s); hide Next;
      case SweepApprovedStep(_, _, _) => SweepKicksChange(w, s); hide Next;
      case SweepSettlingStep(_, _) => SweepKicksChange(w, s); hide Next;
      case _ => OtherTasks(w, s); hide Next;
    }
  }

  /** A task that nothing ends waits as it is. */
  lemma {:induction false} TaskSurvives(w: World, steps: seq<Step>, t: nat, j: nat, k: nat)
    requires j < k <= |steps| && t in Before(w, steps, j + 1).tasks && Undisturbed(w, steps, t, j, k)
    ensures t in Before(w, steps, k).tasks && Before(w, steps, k).tasks[t] == Before(w, steps, j + 1).tasks[t]
    decreases k
  {
    hide Before;
    hide Ends;
    if j + 1 < k {
      TaskSurvives(w, steps, t, j, k - 1);
      BeforeNext(w, steps, k - 1);
      TaskWaits(Before(w, steps, k - 1), steps[k - 1], t);
      hide Next;
    }
  }

  // ---------------------------------------------------------------- every point of an honest run

  lemma {:induction false} HonestAt(w: World, steps: seq<Step>, k: nat, truth: Truth)
    requires k <= |steps| && HonestRun(w, steps, truth)
    ensures HonestRun(w, steps[..k], truth) && HonestRun(Before(w, steps, k), steps[k..], truth)
    decreases k
  {
    hide Next;
    hide Honest;
    if k == 0 {
      assert steps[..0] == [] && steps[0..] == steps;
    } else {
      var w', rest := Next(w, steps[0]), steps[1..];
      HonestAt(w', rest, k - 1, truth);
      assert steps[..k][1..] == rest[..k - 1] && steps[k..] == rest[k - 1..];
      assert Before(w, steps, k) == Before(w', rest, k - 1);
    }
  }

  /** The invariants and the honesty of the step at every point of the run. */
  lemma PointOf(steps: seq<Step>, k: nat, truth: Truth)
    requires k <= |steps| && HonestRun(START, steps, truth)
    ensures Inv(Before(START, steps, k)) && RefundsOk(Before(START, steps, k), truth)
    ensures k < |steps| ==> Honest(Before(START, steps, k), steps[k], truth)
  {
    HonestAt(START, steps, k, truth);
    if k < |steps| { assert steps[k..][0] == steps[k]; }
    StartInv();
    assert RefundsOk(START, truth);
    hide Inv;
    hide RefundsOk;
    hide Honest;
    hide Next;
    RunInv(START, steps[..k]);
    RunRefunds(START, steps[..k], truth);
  }

  lemma {:induction false} TruthfulAt(w: World, steps: seq<Step>, k: nat, truth: Truth)
    requires k <= |steps| && TruthfulRun(w, steps, truth)
    ensures TruthfulRun(w, steps[..k], truth) && TruthfulRun(Before(w, steps, k), steps[k..], truth)
    decreases k
  {
    hide Next;
    hide Truthful;
    if k == 0 {
      assert steps[..0] == [] && steps[0..] == steps;
    } else {
      var w', rest := Next(w, steps[0]), steps[1..];
      TruthfulAt(w', rest, k - 1, truth);
      assert steps[..k][1..] == rest[..k - 1] && steps[k..] == rest[k - 1..];
      assert Before(w, steps, k) == Before(w', rest, k - 1);
    }
  }

  /** What holds at every point of a run with a truthful provider. */
  lemma TruthPoint(steps: seq<Step>, k: nat, truth: Truth)
    requires k <= |steps| && TruthfulRun(START, steps, truth)
    ensures Inv(Before(START, steps, k)) && TruthOk(Before(START, steps, k), truth)
    ensures k < |steps| ==> Truthful(Before(START, steps, k), steps[k], truth)
  {
    TruthfulAt(START, steps, k, truth);
    if k < |steps| { assert steps[k..][0] == steps[k]; }
    InvAt(steps, k);
    StartInv();
    assert TruthOk(START, truth);
    hide Inv;
    hide TruthOk;
    hide Truthful;
    hide Next;
    RunTruth(START, steps[..k], truth);
  }

  // ---------------------------------------------------------------- what lasts

  /** Over every run orders stay on their rows, what is over stays over, and the ledger only grows. */
  lemma {:induction false} RunLater(w: World, steps: seq<Step>)
    requires Inv(w)
    ensures Later(w.db, Run(w, steps).db)
    decreases |steps|
  {
    hide Next;
    hide Alters;
    hide CausedBy;
    hide Sound;
    hide RunOk;
    hide MoneyOk;
    hide AccountOk;
    hide Stamped;
    if steps != [] {
      var c := StepChange(w, steps[0]);
      AlteredLater(w.db, Next(w, steps[0]).db, c, w.now);
      StepInv(w, steps[0]);
      RunLater(Next(w, steps[0]), steps[1..]);
      LaterOn(w.db, Next(w, steps[0]).db, Run(w, steps).db);
      hide Later;
    }
  }

  lemma LaterAtTheEnd(steps: seq<Step>, k: nat)
    requires k <= |steps|
    ensures Later(Before(START, steps, k).db, Run(START, steps).db)
  {
    InvAt(steps, k);
    hide Inv;
    hide Later;
    hide Before;
    RunFrom(START, steps, k, |steps|);
    BeforeEnd(START, steps);
    hide Run;
    RunLater(Before(START, steps, k), steps[k..|steps|]);
  }

  lemma NoteAppends(w: World, s: Step)
    requires s.Note?
    ensures Next(w, s).db.ledger == w.db.ledger + [Noted(s.kind, s.about)]
  {}

  lemma EventStays(db: Db, db': Db, e: Event)
    requires Later(db, db') && e in db.ledger
    ensures e in db'.ledger
  {
    var j :| 0 <= j < |db.ledger| && db.ledger[j] == e;
    assert db'.ledger[..|db.ledger|][j] == db'.ledger[j];
    hide Doomed;
    hide RowLater;
  }

  /** Whatever a route notes at some point of a run is on the ledger at its end. */
  lemma NotesStay(steps: seq<Step>, k: nat)
    requires k < |steps| && steps[k].Note?
    ensures Noted(steps[k].kind, steps[k].about) in Run(START, steps).db.ledger
  {
    hide *;
    BeforeNext(START, steps, k);
    NoteAppends(Before(START, steps, k), steps[k]);
    LaterAtTheEnd(steps, k + 1);
    EventStays(Before(START, steps, k + 1).db, Run(START, steps).db, Noted(steps[k].kind, steps[k].about));
  }

  lemma RowAtTheEnd(steps: seq<Step>, k: nat, a: nat)
    requires k <= |steps| && a < |Before(START, steps, k).db.attempts|
    ensures a < |Run(START, steps).db.attempts|
    ensures RowLater(Before(START, steps, k).db.attempts[a], Run(START, steps).db.attempts[a])
  {
    LaterAtTheEnd(steps, k);
    hide Run;
    hide Before;
    hide Doomed;
  }

  // ---------------------------------------------------------------- one reconcile

  /** The request puts the row of the order into the task. */
  lemma Asked(w: World, t: nat, o: Text)
    requires t !in w.tasks && ByOrder(w.db.attempts, o).Some?
    ensures t in Next(w, Fetch(t, o)).tasks && Next(w, Fetch(t, o)).tasks[t].Fetching?
    ensures Next(w, Fetch(t, o)).tasks[t].attempt == ByOrder(w.db.attempts, o).value
  {}

  /** The answer, on a row of any age, settles the payment or begins its refund. */
  lemma Answered(steps: seq<Step>, truth: Truth, p: Text, t: nat, a: nat, k: nat)
    requires k < |steps| && HonestRun(START, steps, truth) && steps[k] == Fetched(t, LatestPaid(p))
    requires var w := Before(START, steps, k); t in w.tasks && w.tasks[t].Fetching? && w.tasks[t].attempt == a
    ensures var w' := Before(START, steps, k + 1);
      && a < |w'.db.attempts|
      && if t in w'.tasks then w'.tasks[t] == Refunding(w'.db.attempts[a].settlement, a, p) else Accounted(w'.db, a, p)
  {
    var w := Before(START, steps, k);
    PointOf(steps, k, truth);
    PointOf(steps, k + 1, truth);
    BeforeNext(START, steps, k);
    NextOf(w, steps[k]);
    hide Before;
    hide Next;
    hide HonestRun;
    hide Honest;
    hide Sound;
    hide RunOk;
    hide MoneyOk;
    hide AccountOk;
    hide Stamped;
    AnswerSettles(w, t, p, truth);
    hide FetchAnswer;
    if t in Before(START, steps, k + 1).tasks { RefundingRow(Before(START, steps, k + 1), t, truth); }
    hide RefundsOk;
    hide Accounted;
    assert Accounted(Before(START, steps, k + 1).db, a, p) ==> a < |Before(START, steps, k + 1).db.attempts| by {
      AccountedRow(Before(START, steps, k + 1).db, a, p);
    }
  }

  lemma RefundingRow(w: World, t: nat, truth: Truth)
    requires RefundsOk(w, truth) && t in w.tasks && w.tasks[t].Refunding?
    ensures w.tasks[t].attempt < |w.db.attempts|
    ensures w.db.attempts[w.tasks[t].attempt].settlement == w.tasks[t].settlement
  {
    hide RefundsTrue;
    hide TruthOk;
  }

  lemma AccountedRow(db: Db, a: nat, p: Text)
    ensures Accounted(db, a, p) ==> a < |db.attempts|
  {}

  /** What was asked for waits until its answer. */
  lemma AskedWaits(steps: seq<Step>, o: Text, p: Text, t: nat, j: nat, k: nat)
    requires ReconciledBy(START, steps, o, p, t, j, k)
    ensures var w := Before(START, steps, k);
      && t in w.tasks && w.tasks[t].Fetching?
      && w.tasks[t].attempt == ByOrder(Before(START, steps, j).db.attempts, o).value
  {
    hide Before;
    BeforeNext(START, steps, j);
    Asked(Before(START, steps, j), t, o);
    hide Next;
    hide ByOrder;
    TaskSurvives(START, steps, t, j, k);
  }

  /** From the answer on, through the refund if there is one, to the end. */
  lemma AnswerAccounts(steps: seq<Step>, truth: Truth, p: Text, t: nat, a: nat, k: nat)
    requires k < |steps| && HonestRun(START, steps, truth) && steps[k] == Fetched(t, LatestPaid(p))
    requires var w := Before(START, steps, k); t in w.tasks && w.tasks[t].Fetching? && w.tasks[t].attempt == a
    requires t in Before(START, steps, k + 1).tasks ==> exists m: nat :: GivenBack(START, steps, t, k, m)
    ensures Accounted(Run(START, steps).db, a, p)
  {
    hide Before;
    hide HonestRun;
    hide Inv;
    hide RefundsOk;
    hide AlreadyRefunded;
    hide Run;
    hide Later;
    hide Undisturbed;
    Answered(steps, truth, p, t, a, k);
    var w' := Before(START, steps, k + 1);
    if t in w'.tasks {
      var m: nat :| GivenBack(START, steps, t, k, m);
      var i := w'.db.attempts[a].settlement;
      RefundLands(steps, i, a, p, t, k, m);
      LaterAtTheEnd(steps, m + 1);
      RefundStays(Before(START, steps, m + 1).db, Run(START, steps).db, i, p);
      RowAtTheEnd(steps, k + 1, a);
    } else {
      LaterAtTheEnd(steps, k + 1);
      AccountedStays(w'.db, Run(START, steps).db, a, p);
    }
  }

  /** A reconcile that the run made accounts for its payment, whatever ran in between and after. */
  lemma ReconcileAccounts(steps: seq<Step>, truth: Truth, o: Text, p: Text, t: nat, j: nat, k: nat)
    requires HonestRun(START, steps, truth) && ReconciledBy(START, steps, o, p, t, j, k)
    ensures Accounted(Run(START, steps).db, ByOrder(Before(START, steps, j).db.attempts, o).value, p)
  {
    AskedWaits(steps, o, p, t, j, k);
    hide Before;
    hide HonestRun;
    AnswerAccounts(steps, truth, p, t, ByOrder(Before(START, steps, j).db.attempts, o).value, k);
  }

  // ---------------------------------------------------------------- the main result

  /** A paid order that the run reconciled is accounted for on its own row. */
  lemma ReconciledIsAccounted(steps: seq<Step>, truth: Truth, a: nat, o: Text, p: Text)
    requires HonestRun(START, steps, truth) && Reconciled(START, steps, o, p)
    requires a < |Run(START, steps).db.attempts| && Run(START, steps).db.attempts[a].orderId == Some(o)
    ensures Accounted(Run(START, steps).db, a, p)
  {
    hide Before;
    hide HonestRun;
    hide Accounted;
    hide Run;
    hide ByOrder;
    hide Inv;
    hide RefundsOk;
    var t: nat, j: nat, k: nat :| ReconciledBy(START, steps, o, p, t, j, k);
    var b := ByOrder(Before(START, steps, j).db.attempts, o).value;
    ReconcileAccounts(steps, truth, o, p, t, j, k);
    PointOf(steps, |steps|, truth);
    BeforeEnd(START, steps);
    RowAtTheEnd(steps, j, b);
    OneRowPerOrder(Run(START, steps), truth, a, b, o);
  }

  lemma OneRowPerOrder(w: World, truth: Truth, a: nat, b: nat, o: Text)
    requires RefundsOk(w, truth) && a < |w.db.attempts| && b < |w.db.attempts|
    requires w.db.attempts[a].orderId == w.db.attempts[b].orderId == Some(o)
    ensures a == b
  {
    hide CapturesTrue;
    hide FetchesTrue;
    hide RefundingsRight;
    hide RefundsTrue;
    assert a < b || b < a || a == b;
  }

  /** Payment p of attempt a, whose order the run reconciled, is given back exactly when it is not
      the payment of its captured attempt. */
  lemma KeptOrGivenBack(steps: seq<Step>, truth: Truth, a: nat, o: Text, p: Text)
    requires HonestRun(START, steps, truth) && OnePaymentPerOrder(truth) && o in truth && truth[o] == p
    requires Reconciled(START, steps, o, p)
    requires a < |Run(START, steps).db.attempts| && Run(START, steps).db.attempts[a].orderId == Some(o)
    ensures AlreadyRefunded(Run(START, steps).db, Run(START, steps).db.attempts[a].settlement, p)
      <==> !Keeps(Run(START, steps).db, a, p)
  {
    ReconciledIsAccounted(steps, truth, a, o, p);
    var w := Run(START, steps);
    PointOf(steps, |steps|, truth);
    BeforeEnd(START, steps);
    hide Reconciled;
    hide HonestRun;
    hide Inv;
    hide Run;
    hide Before;
    hide RefundsOk;
    hide AlreadyRefunded;
    if AlreadyRefunded(w.db, w.db.attempts[a].settlement, p) && Keeps(w.db, a, p) {
      RefundedIsNotRetained(w, truth, w.db.attempts[a].settlement, p, a);
    }
  }

  /** A payment of settlement i: attempt a of i, its order and what the provider captured for it. */
  predicate PaymentOf(db: Db, truth: Truth, i: nat, a: nat, o: Text) {
    a < |db.attempts| && db.attempts[a].settlement == i && db.attempts[a].orderId == Some(o) && o in truth
  }

  /** The payment of attempt a was not given back. */
  predicate Unrefunded(db: Db, truth: Truth, i: nat, o: Text) { o in truth && !AlreadyRefunded(db, i, truth[o]) }

  /** Once the run has reconciled every paid order of settlement i, with any steps between and after,
      every payment of i but the one on its captured attempt is given back. */
  lemma NoRetainedDoubleCharge(steps: seq<Step>, truth: Truth, i: nat, a: nat, o: Text, b: nat, q: Text)
    requires HonestRun(START, steps, truth) && OnePaymentPerOrder(truth)
    requires forall c, r :: PaymentOf(Run(START, steps).db, truth, i, c, r) ==> Reconciled(START, steps, r, truth[r])
    requires PaymentOf(Run(START, steps).db, truth, i, a, o) && PaymentOf(Run(START, steps).db, truth, i, b, q)
    ensures var db := Run(START, steps).db;
      && (Unrefunded(db, truth, i, o) <==> Keeps(db, a, truth[o]))
      && (Unrefunded(db, truth, i, o) && Unrefunded(db, truth, i, q) ==> a == b && o == q && InState(db, i, Captured))
  {
    KeptOrGivenBack(steps, truth, a, o, truth[o]);
    KeptOrGivenBack(steps, truth, b, q, truth[q]);
    PointOf(steps, |steps|, truth);
    BeforeEnd(START, steps);
    hide Reconciled;
    hide HonestRun;
    hide Run;
    hide Before;
    hide AlreadyRefunded;
    hide RunOk;
    hide MoneyOk;
    hide AccountOk;
    hide Stamped;
    hide RefundsOk;
    hide OneLive;
    hide OnePerCart;
    hide CapturesBacked;
    hide TasksOk;
    hide PcOk;
  }

  // ---------------------------------------------------------------- overtaken reconciles

  /** Where a refund on the ledger came from: the answer at some step m to a refund under way. */
  lemma {:induction false} RefundCameFrom(steps: seq<Step>, n: nat, i: nat, p: Text) returns (m: nat, t: nat, a: nat)
    requires n <= |steps| && AlreadyRefunded(Before(START, steps, n).db, i, p)
    ensures m < n && steps[m] == Refunded(t, true)
    ensures var w := Before(START, steps, m); t in w.tasks && w.tasks[t] == Refunding(i, a, p)
    decreases n
  {
    hide Next;
    hide Alters;
    hide Inv;
    if n == 0 {
      BeforeStart(START, steps);
      assert false;
    } else {
      var w := Before(START, steps, n - 1);
      BeforeNext(START, steps, n - 1);
      hide Before;
      if AlreadyRefunded(w.db, i, p) {
        m, t, a := RefundCameFrom(steps, n - 1, i, p);
      } else {
        InvAt(steps, n - 1);
        var c := ChangeAt(w, steps[n - 1]);
        a := RefundIsNew(w.db, Next(w, steps[n - 1]).db, c, w.now, i, p);
        m, t := n - 1, steps[n - 1].task;
      }
    }
  }

  lemma ChangeAt(w: World, s: Step) returns (c: Change)
    requires Inv(w)
    ensures Alters(w.db, Next(w, s).db, c, w.now) && CausedBy(w, s, c)
  {
    hide Alters;
    hide CausedBy;
    hide Next;
    hide Sound;
    hide RunOk;
    c := StepChange(w, s);
  }

  lemma RefundIsNew(db: Db, db': Db, c: Change, now: int, i: nat, p: Text) returns (a: nat)
    requires Alters(db, db', c, now) && !AlreadyRefunded(db, i, p) && AlreadyRefunded(db', i, p)
    ensures c == Refunds(i, a, p)
  {
    hide Count;
    hide HasActiveAttempt;
    hide HasAttempt;
    var k :| 0 <= k < |db'.ledger|
      && db'.ledger[k].AnomalyRefundIssued? && db'.ledger[k].settlement == i && db'.ledger[k].paymentId == p;
    assert forall x :: 0 <= x < |db.ledger| ==> db'.ledger[x] == db.ledger[x];
    a := db'.ledger[k].attempt;
  }

  /** Where a refund under way came from: the answer to a reconcile, after which nothing ended it. */
  lemma {:induction false} TaskCameFrom(steps: seq<Step>, m: nat, t: nat, i: nat, a: nat, p: Text) returns (k: nat)
    requires m <= |steps| && t in Before(START, steps, m).tasks
    requires Before(START, steps, m).tasks[t] == Refunding(i, a, p)
    ensures k < m && steps[k] == Fetched(t, LatestPaid(p)) && Undisturbed(START, steps, t, k, m)
    ensures var w := Before(START, steps, k);
      t in w.tasks && w.tasks[t].Fetching? && w.tasks[t].attempt == a && w.tasks[t].snapshot.settlement == i
    ensures t in Before(START, steps, k + 1).tasks
    decreases m
  {
    hide Next;
    hide Inv;
    hide Ends;
    if m == 0 {
      BeforeStart(START, steps);
      assert false;
    } else {
      var w, s := Before(START, steps, m - 1), steps[m - 1];
      BeforeNext(START, steps, m - 1);
      hide Before;
      if t in w.tasks && w.tasks[t] == Refunding(i, a, p) {
        k := TaskCameFrom(steps, m - 1, t, i, a, p);
        TaskWaits(w, s, t);
      } else {
        InvAt(steps, m - 1);
        TasksMoveHere(w, s);
        NewTask(w, s, t);
        k := m - 1;
      }
    }
  }

  lemma TasksMoveHere(w: World, s: Step)
    requires Inv(w)
    ensures TasksMove(w, s)
  {
    hide Alters;
    hide CausedBy;
    hide Next;
    hide Sound;
    hide RunOk;
    if OfRun(s) { RunTasks(w, s); } else { var c := AsideStep(w, s); }
  }

  /** Task t asked about attempt c and was answered with payment p at step k, after c had been
      captured behind its back; the refund it began went through at step m. */
  ghost predicate GivesBack(w: World, steps: seq<Step>, c: nat, p: Text, t: nat, k: nat, m: nat) {
    && k < |steps| && steps[k] == Fetched(t, LatestPaid(p))
    && Overtaken(Before(w, steps, k), t) && Before(w, steps, k).tasks[t].attempt == c
    && GivenBack(w, steps, t, k, m)
  }

  /** The answer to a reconcile that was overtaken begins the refund, if there is none yet. */
  lemma OvertakenBegins(w: World, t: nat, p: Text)
    requires Inv(w) && Overtaken(w, t) && Keeps(w.db, w.tasks[t].attempt, p)
    ensures var w', i := Next(w, Fetched(t, LatestPaid(p))), w.db.attempts[w.tasks[t].attempt].settlement;
      AlreadyRefunded(w.db, i, p) || (t in w'.tasks && w'.tasks[t] == Refunding(i, w.tasks[t].attempt, p))
  {
    ReadRow(w, t);
    NextOf(w, Fetched(t, LatestPaid(p)));
    hide Next;
    hide AlreadyRefunded;
    hide MoneyOk;
    hide AccountOk;
    hide RunOk;
    hide Stamped;
    hide Sound;
    RetainedPaymentRefundedIff(w, t, p);
    hide FetchAnswer;
    hide Keeps;
  }

  /** The answer to the refund at step m puts it on the ledger for good. */
  lemma RefundLands(steps: seq<Step>, i: nat, a: nat, p: Text, t: nat, k: nat, m: nat)
    requires k < |steps| && GivenBack(START, steps, t, k, m)
    requires t in Before(START, steps, k + 1).tasks && Before(START, steps, k + 1).tasks[t] == Refunding(i, a, p)
    ensures AlreadyRefunded(Before(START, steps, m + 1).db, i, p)
    ensures Before(START, steps, m + 1).db.attempts == Before(START, steps, m).db.attempts
  {
    hide Before;
    TaskSurvives(START, steps, t, k, m);
    BeforeNext(START, steps, m);
    NextOf(Before(START, steps, m), steps[m]);
    hide Next;
    RefundIsIssued(Before(START, steps, m), t, i, a, p);
    hide RefundAnswer;
    hide AlreadyRefunded;
  }

  /** Such a reconcile gives the retained payment back. */
  lemma OvertakenIsRefunded(steps: seq<Step>, c: nat, p: Text, t: nat, k: nat, m: nat)
    requires Keeps(Run(START, steps).db, c, p) && GivesBack(START, steps, c, p, t, k, m)
    ensures AlreadyRefunded(Run(START, steps).db, Run(START, steps).db.attempts[c].settlement, p)
  {
    hide AlreadyRefunded;
    hide Run;
    hide Before;
    hide Next;
    hide Inv;
    hide Doomed;
    hide Undisturbed;
    var db, w := Run(START, steps).db, Before(START, steps, k);
    InvAt(steps, k);
    LaterAtTheEnd(steps, k);
    RowAtTheEnd(steps, k, c);
    hide Later;
    OvertakenBegins(w, t, p);
    BeforeNext(START, steps, k);
    var i := db.attempts[c].settlement;
    if AlreadyRefunded(w.db, i, p) {
      RefundStays(w.db, db, i, p);
    } else {
      RefundLands(steps, i, c, p, t, k, m);
      LaterAtTheEnd(steps, m + 1);
      RefundStays(Before(START, steps, m + 1).db, db, i, p);
    }
  }

  lemma ReadRow(w: World, t: nat)
    requires Inv(w) && t in w.tasks && w.tasks[t].Fetching?
    ensures w.tasks[t].attempt < |w.db.attempts|
    ensures w.tasks[t].snapshot.settlement == w.db.attempts[w.tasks[t].attempt].settlement
  {
    hide Sound;
    hide MoneyOk;
    hide AccountOk;
    hide Stamped;
    hide ShapesOk;
    hide Bounded;
    hide ReceiptsOk;
    hide PcCounts;
  }

  /** A refund of a retained payment was begun by an overtaken reconcile of its own attempt. */
  lemma RefundedIsOvertaken(steps: seq<Step>, truth: Truth, i: nat, p: Text, c: nat)
    requires TruthfulRun(START, steps, truth) && OnePaymentPerOrder(truth)
    requires Keeps(Run(START, steps).db, c, p) && AlreadyRefunded(Run(START, steps).db, i, p)
    ensures i == Run(START, steps).db.attempts[c].settlement
    ensures exists t: nat, k: nat, m: nat :: GivesBack(START, steps, c, p, t, k, m)
  {
    hide AlreadyRefunded;
    hide Run;
    hide Before;
    hide Inv;
    hide TruthfulRun;
    hide Undisturbed;
    BeforeEnd(START, steps);
    var m, t, a := RefundCameFrom(steps, |steps|, i, p);
    var k := TaskCameFrom(steps, m, t, i, a, p);
    var w, end := Before(START, steps, k), Run(START, steps);
    BeforeNext(START, steps, k);
    NextOf(w, steps[k]);
    hide Next;
    hide FetchAnswer;
    TruthPoint(steps, k, truth);
    TruthPoint(steps, |steps|, truth);
    LaterAtTheEnd(steps, k);
    ReadRow(w, t);
    RefundOfRetained(w, end, t, truth, p, c);
    assert GivesBack(START, steps, c, p, t, k, m);
  }

  /** A reconcile that turns to a refund of what is retained later was overtaken. */
  lemma RefundOfRetained(w: World, end: World, t: nat, truth: Truth, p: Text, c: nat)
    requires Inv(w) && TruthOk(w, truth) && TruthOk(end, truth) && OnePaymentPerOrder(truth) && Later(w.db, end.db)
    requires Truthful(w, Fetched(t, LatestPaid(p)), truth) && Keeps(end.db, c, p)
    requires t in w.tasks && w.tasks[t].Fetching? && t in FetchAnswer(w, t, LatestPaid(p)).tasks
    ensures w.tasks[t].attempt == c && Overtaken(w, t)
    ensures w.tasks[t].snapshot.settlement == end.db.attempts[c].settlement
  {
    hide FetchAnswer;
    hide Sound;
    hide RunOk;
    hide MoneyOk;
    hide AccountOk;
    hide Stamped;
    var a := w.tasks[t].attempt;
    ReadRow(w, t);
    PaidStays(w.db, end.db, truth, a, p);
    assert PaidFor(end.db, truth, c, p);
    OnePaidRow(end.db, truth, a, c, p);
    assert RowLater(w.db.attempts[a], end.db.attempts[a]);
    if !Overtaken(w, t) {
      RefundIsForTheDoomed(w, t, p, truth);
      DoomStays(w.db, end.db, a);
      assert false;
    }
  }

  /** With a truthful provider the payment that an attempt retains is given back if and only if a
      reconcile of that attempt, begun before the capture, went on after it to a refund that went
      through; no refund of it is ever booked on another settlement. */
  lemma RetainedIsRefundedIffOvertaken(steps: seq<Step>, truth: Truth, i: nat, p: Text, c: nat)
    requires TruthfulRun(START, steps, truth) && OnePaymentPerOrder(truth)
    requires Keeps(Run(START, steps).db, c, p)
    ensures AlreadyRefunded(Run(START, steps).db, i, p) <==>
      && i == Run(START, steps).db.attempts[c].settlement
      && exists t: nat, k: nat, m: nat :: GivesBack(START, steps, c, p, t, k, m)
  {
    hide Run;
    hide AlreadyRefunded;
    hide GivesBack;
    hide TruthfulRun;
    if AlreadyRefunded(Run(START, steps).db, i, p) { RefundedIsOvertaken(steps, truth, i, p, c); }
    if t: nat, k: nat, m: nat :| GivesBack(START, steps, c, p, t, k, m) { OvertakenIsRefunded(steps, c, p, t, k, m); }
  }

  /** No refund was made or begun, and no reconcile waits. */
  predicate NoRefunds(w: World) {
    w.tasks == map[] && forall k :: 0 <= k < |w.db.ledger| ==> !w.db.ledger[k].AnomalyRefundIssued?
  }

  lemma NoRefundsStays(w: World, s: Step)
    requires Inv(w) && NoRefunds(w) && !s.Fetch? && !s.Fetched? && !s.Refunded?
    ensures NoRefunds(Next(w, s))
  {
    hide Sound;
    hide RunOk;
    hide MoneyOk;
    hide AccountOk;
    hide Stamped;
    hide Next;
    var c := Same;
    if OfRun(s) { c := RunStep(w, s); } else { c := AsideStep(w, s); }
    NoRefundEvent(w.db, Next(w, s).db, c, w.now);
    hide Alters;
  }

  lemma NoRefundEvent(db: Db, db': Db, c: Change, now: int)
    requires Alters(db, db', c, now) && !c.Refunds?
    requires forall k :: 0 <= k < |db.ledger| ==> !db.ledger[k].AnomalyRefundIssued?
    ensures forall k :: 0 <= k < |db'.ledger| ==> !db'.ledger[k].AnomalyRefundIssued?
  {
    hide Count;
    hide HasActiveAttempt;
    hide HasAttempt;
    forall k | 0 <= k < |db'.ledger| ensures !db'.ledger[k].AnomalyRefundIssued? {
      if k < |db.ledger| { assert db'.ledger[k] == db'.ledger[..|db.ledger|][k] == db.ledger[k]; }
    }
  }

  predicate NoReconciles(steps: seq<Step>) {
    forall k :: 0 <= k < |steps| ==> !steps[k].Fetch? && !steps[k].Fetched? && !steps[k].Refunded?
  }

  lemma {:induction false} NoRefundsYet(w: World, steps: seq<Step>)
    requires Inv(w) && NoRefunds(w) && NoReconciles(steps)
    ensures Inv(Run(w, steps)) && NoRefunds(Run(w, steps))
    decreases |steps|
  {
    hide Inv;
    hide NoRefunds;
    hide Next;
    if steps != [] {
      NoRefundsStays(w, steps[0]);
      StepInv(w, steps[0]);
      NoRefundsYet(Next(w, steps[0]), steps[1..]);
    }
  }

  lemma {:induction false} TruthfulConcat(w: World, a: seq<Step>, b: seq<Step>, truth: Truth)
    requires TruthfulRun(w, a, truth) && TruthfulRun(Run(w, a), b, truth)
    ensures TruthfulRun(w, a + b, truth)
    decreases |a|
  {
    hide Next;
    hide Truthful;
    if a == [] {
      assert a + b == b;
    } else {
      assert (a + b)[1..] == a[1..] + b;
      TruthfulConcat(Next(w, a[0]), a[1..], b, truth);
    }
  }

  /** A run in which only the last step gets an order, and the order is new, is truthful. */
  lemma {:induction false} NewOrderIsTruthful(w: World, steps: seq<Step>, o: Text, truth: Truth)
    requires steps != [] && steps[|steps| - 1] == RunOrder(OrderCreated(o))
    requires forall k :: 0 <= k < |steps| - 1 ==> !steps[k].RunOrder? && !steps[k].RunDriver? && !steps[k].Fetched?
    requires var db := Before(w, steps, |steps| - 1).db; forall k :: 0 <= k < |db.attempts| ==>
      db.attempts[k].orderId == None
    ensures TruthfulRun(w, steps, truth)
    decreases |steps|
  {
    hide Next;
    if |steps| == 1 {
      assert Before(w, steps, 0) == w by { BeforeStart(w, steps); }
      assert steps[1..] == [];
    } else {
      var rest := steps[1..];
      assert steps[..|steps| - 1][1..] == rest[..|rest| - 1];
      assert Before(w, steps, |steps| - 1) == Before(Next(w, steps[0]), rest, |rest| - 1);
      NewOrderIsTruthful(Next(w, steps[0]), rest, o, truth);
    }
  }

  /** The four steps that follow the opening: ask, pay, answer, refund. */
  function Overtaking(o: Text, p: Text): seq<Step> {
    [Fetch(0, o), RunDriver(Paid(p)), Fetched(0, LatestPaid(p)), Refunded(0, true)]
  }

  /** The worlds of these four steps. */
  lemma OvertakingWorlds(w: World, o: Text, p: Text)
    ensures var w1 := FetchStart(w, 0, o);
      var w2 := DriverAnswer(w1, Paid(p));
      var w3 := FetchAnswer(w2, 0, LatestPaid(p));
      && Before(w, Overtaking(o, p), 1) == w1 && Before(w, Overtaking(o, p), 2) == w2
      && Before(w, Overtaking(o, p), 3) == w3 && Run(w, Overtaking(o, p)) == RefundAnswer(w3, 0, true)
  {
    var steps := Overtaking(o, p);
    BeforeStart(w, steps);
    hide Before;
    hide Run;
    BeforeNext(w, steps, 0);
    BeforeNext(w, steps, 1);
    BeforeNext(w, steps, 2);
    BeforeNext(w, steps, 3);
    BeforeEnd(w, steps);
    NextOf(w, steps[0]);
    NextOf(FetchStart(w, 0, o), steps[1]);
    NextOf(DriverAnswer(FetchStart(w, 0, o), Paid(p)), steps[2]);
    NextOf(FetchAnswer(DriverAnswer(FetchStart(w, 0, o), Paid(p)), 0, LatestPaid(p)), steps[3]);
    hide Next;
    hide FetchStart;
    hide FetchAnswer;
    hide DriverAnswer;
    hide RefundAnswer;
  }

  /** The four steps from the till give the retained payment back. */
  lemma OvertakingRefunds(w: World, intent: SignedIntent, cart: SignedCart, credential: Credential, o: Text, p: Text)
    requires Inv(w) && NoRefunds(w) && AtTheTill(w, intent, cart, credential, o)
    ensures var steps := Overtaking(o, p);
      && Oversteps(Before(w, steps, 2), steps[2])
      && Keeps(Run(w, steps).db, 0, p) && AlreadyRefunded(Run(w, steps).db, 0, p)
      && Run(w, steps).db.attempts[0].settlement == 0
    ensures TruthfulRun(w, Overtaking(o, p), map[o := p])
  {
    hide MandateCartHash;
    hide MoneyOk;
    hide AccountOk;
    hide RunOk;
    hide Stamped;
    hide Run;
    hide Before;
    hide TruthfulRun;
    OvertakingWorlds(w, o, p);
    assert ByOrder(w.db.attempts, o) == Some(0);
    var w1 := FetchStart(w, 0, o);
    assert w1.tasks == map[0 := Fetching(o, 0, w.db.attempts[0])] && w1.db == w.db && w1.pc == w.pc;
    CaptureIsAllOrNothing(w.db, 0, Initiated, 0, p, w.now);
    hide Sound;
    DriverCaptures(w1, p);
    var w2 := DriverAnswer(w1, Paid(p));
    hide DriverAnswer;
    hide ApplyCapture;
    RefundedBefore(w.db, w2.db, 0, p);
    assert !AlreadyRefunded(w.db, 0, p);
    GoesOn(w2, 0, 0, o, w.db.attempts[0], p);
    var w3 := FetchAnswer(w2, 0, LatestPaid(p));
    RefundIsLogged(w3, 0, 0, p);
    FourTruths(w, o, p);
    hide FetchAnswer;
    hide FetchStart;
    hide RefundAnswer;
  }

  lemma RefundIsLogged(w: World, t: nat, a: nat, p: Text)
    requires RefundsRetained(w, t, a, p)
    ensures var db := RefundAnswer(w, t, true).db;
      Keeps(db, a, p) && AlreadyRefunded(db, w.db.attempts[a].settlement, p)
      && db.attempts[a].settlement == w.db.attempts[a].settlement
  {
    var db := RefundAnswer(w, t, true).db;
    assert db.ledger[|w.db.ledger|] == AnomalyRefundIssued(w.db.attempts[a].settlement, a, p);
  }

  lemma TruthfulOne(w: World, s: Step, rest: seq<Step>, truth: Truth)
    requires Truthful(w, s, truth) && TruthfulRun(Next(w, s), rest, truth)
    ensures TruthfulRun(w, [s] + rest, truth)
  {
    hide Next;
    hide Truthful;
    assert ([s] + rest)[1..] == rest;
  }

  lemma TruthfulFour(w: World, steps: seq<Step>, truth: Truth)
    requires |steps| == 4 && forall k :: 0 <= k < 4 ==> Truthful(Before(w, steps, k), steps[k], truth)
    ensures TruthfulRun(w, steps, truth)
  {
    hide Next;
    hide Truthful;
    hide Before;
    BeforeStart(w, steps);
    BeforeNext(w, steps, 0);
    BeforeNext(w, steps, 1);
    BeforeNext(w, steps, 2);
    BeforeNext(w, steps, 3);
    TruthfulOne(Before(w, steps, 3), steps[3], [], truth);
    TruthfulOne(Before(w, steps, 2), steps[2], [steps[3]], truth);
    TruthfulOne(Before(w, steps, 1), steps[1], [steps[2], steps[3]], truth);
    TruthfulOne(Before(w, steps, 0), steps[0], [steps[1], steps[2], steps[3]], truth);
    assert [steps[3]] + [] == [steps[3]] && [steps[2]] + [steps[3]] == [steps[2], steps[3]];
    assert [steps[1]] + [steps[2], steps[3]] == [steps[1], steps[2], steps[3]];
    assert [steps[0]] + [steps[1], steps[2], steps[3]] == steps;
  }

  lemma FourTruths(w: World, o: Text, p: Text)
    requires w.pc == Driving(0, 1, 0) && w.tasks == map[] && |w.db.attempts| == 1 && w.db.attempts[0].orderId == Some(o)
    requires w.db.attempts[0].state == Initiated
    requires ByOrder(w.db.attempts, o) == Some(0)
    ensures TruthfulRun(w, Overtaking(o, p), map[o := p])
  {
    hide Next;
    hide Before;
    hide TruthfulRun;
    hide FetchAnswer;
    hide RefundAnswer;
    hide ByOrder;
    var w1 := FetchStart(w, 0, o);
    OvertakingWorlds(w, o, p);
    BeforeStart(w, Overtaking(o, p));
    DriverKeepsOrders(w1, p);
    hide DriverAnswer;
    assert PaidFor(w1.db, map[o := p], 0, p) && PaidFor(DriverAnswer(w1, Paid(p)).db, map[o := p], 0, p);
    TruthfulFour(w, Overtaking(o, p), map[o := p]);
  }

  lemma DriverKeepsOrders(w: World, p: Text)
    ensures var w' := DriverAnswer(w, Paid(p));
      && w'.tasks == w.tasks && |w'.db.attempts| == |w.db.attempts|
      && forall a :: 0 <= a < |w.db.attempts| ==> w'.db.attempts[a].orderId == w.db.attempts[a].orderId
  {
    hide HasAttempt;
  }

  /** Four steps after an opening of six. */
  lemma Joined(w: World, opening: seq<Step>, four: seq<Step>)
    requires |opening| == 6 && |four| == 4
    ensures Run(w, opening + four) == Run(Run(w, opening), four)
    ensures Before(w, opening + four, 8) == Before(Run(w, opening), four, 2) && (opening + four)[8] == four[2]
  {
    hide Next;
    RunConcat(w, opening, four);
    RunConcat(w, opening, four[..2]);
    hide Run;
    assert (opening + four)[..8] == opening + four[..2];
  }

  lemma OpeningShape(intent: SignedIntent, cart: SignedCart, credential: Credential,
                     token: Text, key: Text, h: Text, o: Text)
    ensures var opening := OpeningRun(intent, cart, credential, token, key, h, o);
      && |opening| == 6 && opening[5] == RunOrder(OrderCreated(o)) && NoReconciles(opening)
      && forall k :: 0 <= k < 5 ==> !opening[k].RunOrder? && !opening[k].RunDriver? && !opening[k].Fetched?
  {}

  lemma OpeningIsTruthful(intent: SignedIntent, cart: SignedCart, credential: Credential,
                          token: Text, key: Text, h: Text, o: Text, truth: Truth)
    requires GoodCart(intent, cart, credential, 0)
    ensures var opening := OpeningRun(intent, cart, credential, token, key, h, o);
      TruthfulRun(START, opening, truth) && NoReconciles(opening) && |opening| == 6
  {
    hide *;
    OpeningShape(intent, cart, credential, token, key, h, o);
    OpeningReachesTheTill(intent, cart, credential, token, key, h, o);
    NewOrderIsTruthful(START, OpeningRun(intent, cart, credential, token, key, h, o), o, truth);
  }

  lemma TillIsSound(opening: seq<Step>)
    requires NoReconciles(opening)
    ensures Inv(Run(START, opening)) && NoRefunds(Run(START, opening))
  {
    StartInv();
    assert NoRefunds(START);
    hide Inv;
    hide NoRefunds;
    hide Run;
    NoRefundsYet(START, opening);
  }

  /** It happens: for every good cart there is a run from the empty database, with a truthful
      provider, whose one reconcile is overtaken and whose retained payment is given back. */
  lemma ReachableOvertaking(intent: SignedIntent, cart: SignedCart, credential: Credential,
                            token: Text, key: Text, h: Text, o: Text, p: Text)
    requires GoodCart(intent, cart, credential, 0)
    ensures var steps := OpeningRun(intent, cart, credential, token, key, h, o) + Overtaking(o, p);
      var w := Run(START, steps);
      && TruthfulRun(START, steps, map[o := p]) && Oversteps(Before(START, steps, 8), steps[8])
      && Reachable(w) && InState(w.db, 0, Captured) && Keeps(w.db, 0, p) && AlreadyRefunded(w.db, 0, p)
  {
    hide Inv;
    hide AtTheTill;
    hide GoodCart;
    hide Run;
    hide Before;
    hide TruthfulRun;
    hide Oversteps;
    hide AlreadyRefunded;
    hide NoRefunds;
    hide NoReconciles;
    hide OpeningRun;
    var opening := OpeningRun(intent, cart, credential, token, key, h, o);
    OpeningReachesTheTill(intent, cart, credential, token, key, h, o);
    OpeningIsTruthful(intent, cart, credential, token, key, h, o, map[o := p]);
    TillIsSound(opening);
    OvertakingRefunds(Run(START, opening), intent, cart, credential, o, p);
    OpenedAndOvertaken(opening, o, p);
  }

  lemma OpenedAndOvertaken(opening: seq<Step>, o: Text, p: Text)
    requires |opening| == 6 && TruthfulRun(START, opening, map[o := p])
    requires var till, four := Run(START, opening), Overtaking(o, p);
      && Oversteps(Before(till, four, 2), four[2]) && TruthfulRun(till, four, map[o := p])
      && Keeps(Run(till, four).db, 0, p) && Run(till, four).db.attempts[0].settlement == 0
    ensures var steps := opening + Overtaking(o, p);
      && Run(START, steps) == Run(Run(START, opening), Overtaking(o, p))
      && TruthfulRun(START, steps, map[o := p]) && Oversteps(Before(START, steps, 8), steps[8])
      && Reachable(Run(START, steps)) && InState(Run(START, steps).db, 0, Captured)
  {
    hide Run;
    hide Before;
    hide TruthfulRun;
    hide Oversteps;
    var four := Overtaking(o, p);
    TruthfulConcat(START, opening, four, map[o := p]);
    Joined(START, opening, four);
    assert Reachable(Run(START, opening + four));
    ReachableInv(Run(START, opening + four));
    hide Inv;
    hide Reachable;
    KeptIsCaptured(Run(START, opening + four), 0, p);
  }

  lemma KeptIsCaptured(w: World, a: nat, p: Text)
    requires Inv(w) && Keeps(w.db, a, p)
    ensures InState(w.db, w.db.attempts[a].settlement, Captured)
  {}
}
