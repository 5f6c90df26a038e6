/** Payment attempts over whole runs: never two live ones, at most three checkouts and one payment
    link per settlement across crashes, kicks, resumes and sweeps, and one receipt per capture. */
module Attempts {
  import opened Options
  import opened Texts
  import opened Crypto
  import opened Mandates
  import opened Verify
  import opened Schema
  import opened Protocol
  import opened Tables

  function Checkouts(db: Db, i: nat): nat { Count(db.attempts, i, CheckoutDriver) }
  function Links(db: Db, i: nat): nat { Count(db.attempts, i, PaymentLink) }

  // ---------------------------------------------------------------- counting

  lemma CountAppend(attempts: seq<Attempt>, r: Attempt, i: nat, via: Method)
    ensures Count(attempts + [r], i, via) ==
      Count(attempts, i, via) + if r.settlement == i && r.via == via then 1 else 0
  {
    assert (attempts + [r])[..|attempts|] == attempts;
  }

  lemma {:induction false} CountSame(a: seq<Attempt>, b: seq<Attempt>, i: nat, via: Method)
    requires |a| == |b|
    requires forall k :: 0 <= k < |a| ==> b[k].settlement == a[k].settlement && b[k].via == a[k].via
    ensures Count(b, i, via) == Count(a, i, via)
  {
    if a != [] { CountSame(a[..|a| - 1], b[..|b| - 1], i, via); }
  }

  lemma {:induction false} CountPositive(attempts: seq<Attempt>, i: nat, via: Method)
    ensures Count(attempts, i, via) > 0 <==>
      exists k :: 0 <= k < |attempts| && attempts[k].settlement == i && attempts[k].via == via
  {
    if attempts != [] {
      var front := attempts[..|attempts| - 1];
      CountPositive(front, i, via);
      if k :| 0 <= k < |attempts| && attempts[k].settlement == i && attempts[k].via == via {
        if k < |front| { assert front[k] == attempts[k]; }
      }
      if k :| 0 <= k < |front| && front[k].settlement == i && front[k].via == via { assert attempts[k] == front[k]; }
    }
  }

  // ---------------------------------------------------------------- invariants

  /** A checkout never waits for a confirmation; a link always does, and has no order id. */
  predicate ShapesOk(db: Db) {
    forall a :: 0 <= a < |db.attempts| ==>
      var r := db.attempts[a];
      && (r.via == CheckoutDriver ==> r.state !in {AwaitingConfirmation, Superseded})
      && (r.via == PaymentLink ==> r.state == AwaitingConfirmation && r.orderId == None)
      && (r.paymentId.Some? <==> r.state == AttemptCaptured)
  }

  ghost predicate Bounded(db: Db) {
    forall i: nat :: Checkouts(db, i) <= MAX_ATTEMPTS && Links(db, i) <= 1
  }

  /** Every capture event names the captured attempt that carries its payment. */
  predicate ReceiptsOk(db: Db) {
    forall k :: 0 <= k < |db.ledger| && db.ledger[k].PaymentCaptured? ==>
      var e := db.ledger[k];
      && e.attempt < |db.attempts|
      && db.attempts[e.attempt].settlement == e.settlement
      && db.attempts[e.attempt].state == AttemptCaptured
      && db.attempts[e.attempt].paymentId == Some(e.paymentId)
  }

  predicate FetchesCheckouts(w: World) {
    forall t :: t in w.tasks && w.tasks[t].Fetching? ==>
      var a := w.tasks[t].attempt;
      a < |w.db.attempts| && w.db.attempts[a].via == CheckoutDriver
      && w.db.attempts[a].settlement == w.tasks[t].snapshot.settlement
      && w.tasks[t].snapshot.state !in {AwaitingConfirmation, Superseded}
  }

  /** Attempt a is the n-th checkout of the run, and no other attempt of i is live. */
  predicate Running(db: Db, i: nat, n: nat, a: nat) {
    && Checkouts(db, i) == n <= MAX_ATTEMPTS && Links(db, i) == 0
    && a < |db.attempts| && db.attempts[a].settlement == i && db.attempts[a].via == CheckoutDriver
    && forall b :: 0 <= b < |db.attempts| && db.attempts[b].settlement == i && Active(db.attempts[b].state) ==> b == a
  }

  predicate Between(db: Db, i: nat, n: nat, last: Option<nat>) {
    && Checkouts(db, i) == n <= MAX_ATTEMPTS && Links(db, i) == 0
    && !HasActiveAttempt(db, i)
    && (last.Some? ==> last.value < |db.attempts| && !Active(db.attempts[last.value].state))
  }

  predicate PcCounts(w: World) {
    match w.pc
    case Idle => true
    case LoopHead(i, n, last) => n > 0 && Between(w.db, i, n - 1, last)
    case Ordering(i, n, a) => Running(w.db, i, n, a) && w.db.attempts[a].orderId == None
    case Driving(i, n, a) => Running(w.db, i, n, a) && w.db.attempts[a].orderId.Some?
    case Failing(i, n, a) => Running(w.db, i, n, a)
    case Linking(i, last) => Between(w.db, i, MAX_ATTEMPTS, last)
  }

  ghost predicate RunOk(w: World) {
    ShapesOk(w.db) && Bounded(w.db) && ReceiptsOk(w.db) && FetchesCheckouts(w) && PcCounts(w)
  }

  // ---------------------------------------------------------------- changes

  datatype Change =
    | Same
    | Opens(i: nat, via: Method)
    | Orders(a: nat, orderId: Text)
    | Closes(a: nat)
    | Pays(a: nat, paymentId: Text)
    | Refunds(i: nat, a: nat, paymentId: Text)

  /** At most one event, about neither a capture nor a refund. */
  predicate NoReceipt(db: Db, db': Db) {
    || db'.ledger == db.ledger
    || (|db'.ledger| == |db.ledger| + 1 && db'.ledger[..|db.ledger|] == db.ledger
        && !db'.ledger[|db.ledger|].PaymentCaptured? && !db'.ledger[|db.ledger|].AnomalyRefundIssued?)
  }

  predicate Initial(db: Db, a: nat) {
    a < |db.attempts| && db.attempts[a].state == Initiated && db.attempts[a].via == CheckoutDriver
  }

  predicate Alters(db: Db, db': Db, c: Change, now: int) {
    match c
    case Same => db'.attempts == db.attempts && NoReceipt(db, db')
    case Opens(i, via) =>
      && !HasActiveAttempt(db, i) && Links(db, i) == 0 && (via == CheckoutDriver ==> Checkouts(db, i) < MAX_ATTEMPTS)
      && db'.attempts == db.attempts
           + [Attempt(i, via, if via == CheckoutDriver then Initiated else AwaitingConfirmation, None, None, now)]
      && NoReceipt(db, db')
    case Orders(a, o) =>
      && a < |db.attempts| && db.attempts[a].via == CheckoutDriver && db.attempts[a].orderId == None
      && db'.attempts == db.attempts[a := db.attempts[a].(orderId := Some(o))]
      && NoReceipt(db, db')
    case Closes(a) =>
      && Initial(db, a) && db'.attempts == db.attempts[a := db.attempts[a].(state := AttemptFailed)]
      && NoReceipt(db, db')
    case Pays(a, p) =>
      && Initial(db, a) && !HasAttempt(db, db.attempts[a].settlement, AttemptCaptured)
      && db'.attempts == db.attempts[a := db.attempts[a].(state := AttemptCaptured, paymentId := Some(p))]
      && db'.ledger == db.ledger + [PaymentCaptured(db.attempts[a].settlement, a, p)]
    case Refunds(i, a, p) =>
      db'.attempts == db.attempts && db'.ledger == db.ledger + [AnomalyRefundIssued(i, a, p)]
  }

  /** An attempt row that became r' by any number of changes. */
  predicate RowLater(r: Attempt, r': Attempt) {
    && r'.settlement == r.settlement
    && (r.orderId.Some? ==> r'.orderId == r.orderId)
    && (!Active(r.state) ==> r'.state == r.state && r'.paymentId == r.paymentId)
  }

  /** Attempt a will never be captured: it is over, or another attempt has its settlement. */
  predicate Doomed(db: Db, a: nat) {
    && a < |db.attempts| && db.attempts[a].state != AttemptCaptured
    && (Active(db.attempts[a].state) ==> HasAttempt(db, db.attempts[a].settlement, AttemptCaptured))
  }

  /** What any number of changes keep: orders, what is over, what is doomed, and the ledger so far. */
  ghost predicate Later(db: Db, db': Db) {
    && |db.attempts| <= |db'.attempts|
    && (forall a :: 0 <= a < |db.attempts| ==> RowLater(db.attempts[a], db'.attempts[a]))
    && (forall a: nat :: Doomed(db, a) ==> db'.attempts[a].state != AttemptCaptured)
    && |db.ledger| <= |db'.ledger| && db'.ledger[..|db.ledger|] == db.ledger
  }

  lemma AlteredLater(db: Db, db': Db, c: Change, now: int)
    requires Alters(db, db', c, now)
    ensures Later(db, db')
  {
    hide HasActiveAttempt;
    hide Count;
  }

  lemma DoomStays(db: Db, db': Db, a: nat)
    requires Later(db, db') && Doomed(db, a)
    ensures Doomed(db', a) && db'.attempts[a].settlement == db.attempts[a].settlement
  {
    var i := db.attempts[a].settlement;
    assert RowLater(db.attempts[a], db'.attempts[a]);
    if Active(db.attempts[a].state) {
      var b :| 0 <= b < |db.attempts| && db.attempts[b].settlement == i && db.attempts[b].state == AttemptCaptured;
      assert RowLater(db.attempts[b], db'.attempts[b]);
    }
  }

  lemma LaterOn(db0: Db, db: Db, db': Db)
    requires Later(db0, db) && Later(db, db')
    ensures Later(db0, db')
  {
    assert db'.ledger[..|db0.ledger|] == db'.ledger[..|db.ledger|][..|db0.ledger|];
    forall a: nat | Doomed(db0, a) ensures db'.attempts[a].state != AttemptCaptured { DoomStays(db0, db, a); }
    hide Doomed;
  }

  lemma ShapesStay(db: Db, db': Db, c: Change, now: int)
    requires ShapesOk(db) && Alters(db, db', c, now)
    ensures ShapesOk(db')
  {
    hide HasActiveAttempt;
    hide Count;
    hide NoReceipt;
  }

  lemma CountsStay(db: Db, db': Db, c: Change, now: int, i: nat)
    requires Alters(db, db', c, now)
    ensures c.Opens? && c.i == i && c.via == CheckoutDriver ==>
      Checkouts(db', i) == Checkouts(db, i) + 1 && Links(db', i) == Links(db, i)
    ensures c.Opens? && c.i == i && c.via == PaymentLink ==>
      Checkouts(db', i) == Checkouts(db, i) && Links(db', i) == Links(db, i) + 1
    ensures !(c.Opens? && c.i == i) ==> Checkouts(db', i) == Checkouts(db, i) && Links(db', i) == Links(db, i)
  {
    hide HasActiveAttempt;
    hide NoReceipt;
    if c.Opens? {
      CountAppend(db.attempts, db'.attempts[|db.attempts|], i, CheckoutDriver);
      CountAppend(db.attempts, db'.attempts[|db.attempts|], i, PaymentLink);
    } else {
      CountSame(db.attempts, db'.attempts, i, CheckoutDriver);
      CountSame(db.attempts, db'.attempts, i, PaymentLink);
    }
  }

  lemma BoundsStay(db: Db, db': Db, c: Change, now: int)
    requires Bounded(db) && Alters(db, db', c, now)
    ensures Bounded(db')
  {
    forall i: nat ensures Checkouts(db', i) <= MAX_ATTEMPTS && Links(db', i) <= 1 {
      CountsStay(db, db', c, now, i);
      assert Checkouts(db, i) <= MAX_ATTEMPTS && Links(db, i) <= 1;
      hide Count;
      hide HasActiveAttempt;
      hide NoReceipt;
    }
  }

  lemma ReceiptsStay(db: Db, db': Db, c: Change, now: int)
    requires ReceiptsOk(db) && Alters(db, db', c, now)
    ensures ReceiptsOk(db')
  {
    hide HasActiveAttempt;
    hide Count;
    forall k | 0 <= k < |db'.ledger| && db'.ledger[k].PaymentCaptured?
      ensures var e := db'.ledger[k];
        && e.attempt < |db'.attempts|
        && db'.attempts[e.attempt].settlement == e.settlement
        && db'.attempts[e.attempt].state == AttemptCaptured
        && db'.attempts[e.attempt].paymentId == Some(e.paymentId)
    {
      if k < |db.ledger| { assert db'.ledger[k] == db'.ledger[..|db.ledger|][k] == db.ledger[k]; }
    }
  }

  /** What waits stays well-formed: attempts keep their settlement and their way. */
  lemma TasksStay(w: World, db': Db, c: Change)
    requires FetchesCheckouts(w) && Alters(w.db, db', c, w.now)
    ensures FetchesCheckouts(w.(db := db'))
  {
    hide HasActiveAttempt;
    hide Count;
    hide NoReceipt;
  }

  /** A closed or paid attempt leaves the run where it stands. */
  lemma PcStays(w: World, db': Db, c: Change)
    requires PcCounts(w) && w.pc != Idle && Alters(w.db, db', c, w.now) && !c.Opens? && !c.Orders?
    ensures PcCounts(w.(db := db'))
  {
    CountsStay(w.db, db', c, w.now, w.pc.id);
    hide Count;
    hide NoReceipt;
  }

  // ---------------------------------------------------------------- which step makes which change

  /** The answer of the outside world that a change rests on. */
  predicate CausedBy(w: World, s: Step, c: Change) {
    match c
    case Orders(a, o) => s.RunOrder? && w.pc.Ordering? && w.pc.attempt == a && s.orderReply == OrderCreated(o)
    case Pays(a, p) =>
      || (s.RunDriver? && w.pc.Driving? && w.pc.attempt == a && s.driverReply == Paid(p))
      || (s.Fetched? && s.task in w.tasks && w.tasks[s.task].Fetching? && w.tasks[s.task].attempt == a
          && s.payments == LatestPaid(p))
    case Refunds(i, a, p) => s.Refunded? && s.ok && s.task in w.tasks && w.tasks[s.task] == Refunding(i, a, p)
    case _ => true
  }

  lemma PayChange(db: Db, a: nat, from: AttemptState, i: nat, p: Text, now: int)
    requires ApplyCapture(db, a, from, i, p, now).Applied?
    requires from == Initiated && Initial(db, a) && db.attempts[a].settlement == i
    ensures Alters(db, ApplyCapture(db, a, from, i, p, now).db, Pays(a, p), now)
  {
    hide Count;
    hide HasAttempt;
  }

  /** The answer to a reconcile pays, closes or leaves one checkout. */
  lemma FetchChange(w: World, t: nat, p: Payments) returns (c: Change)
    requires Sound(w) && ShapesOk(w.db) && FetchesCheckouts(w)
    ensures Alters(w.db, FetchAnswer(w, t, p).db, c, w.now) && (c.Same? || c.Closes? || c.Pays?)
    ensures CausedBy(w, Fetched(t, p), c)
    ensures FetchAnswer(w, t, p).pc == w.pc
  {
    hide ApplyCapture;
    hide IsAnomaly;
    hide AlreadyRefunded;
    hide TablesOk;
    hide HasActiveAttempt;
    hide Count;
    c := Same;
    if t in w.tasks && w.tasks[t].Fetching? {
      var a, snapshot := w.tasks[t].attempt, w.tasks[t].snapshot;
      if p.LatestPaid? {
        CaptureIsAllOrNothing(w.db, a, snapshot.state, snapshot.settlement, p.paymentId, w.now);
        if snapshot.state != AttemptCaptured && !IsAnomaly(w.db, snapshot)
           && ApplyCapture(w.db, a, snapshot.state, snapshot.settlement, p.paymentId, w.now).Applied? {
          PayChange(w.db, a, snapshot.state, snapshot.settlement, p.paymentId, w.now);
          c := Pays(a, p.paymentId);
          hide Alters;
        }
      } else if p.LatestFailed? {
        if FailIfLive(w.db, a, snapshot) != w.db { c := Closes(a); }
      }
    }
  }

  lemma SweepChange(db: Db, a: nat, cutoff: int, now: int) returns (c: Change)
    requires ShapesOk(db)
    ensures Alters(db, SweepAttempt(db, a, cutoff), c, now) && (c.Same? || c.Closes?)
  {
    hide Count;
    hide HasActiveAttempt;
    c := if SweepAttempt(db, a, cutoff) == db then Same else Closes(a);
  }

  lemma LoopChange(w: World)
    requires Sound(w) && PcCounts(w) && w.pc.LoopHead?
    ensures w.pc.n > MAX_ATTEMPTS ==>
      Alters(w.db, LoopStep(w).db, Same, w.now) && LoopStep(w).pc == Linking(w.pc.id, w.pc.last)
    ensures w.pc.n <= MAX_ATTEMPTS ==> Alters(w.db, LoopStep(w).db, Opens(w.pc.id, CheckoutDriver), w.now)
    ensures w.pc.n <= MAX_ATTEMPTS ==> LoopStep(w).pc == Ordering(w.pc.id, w.pc.n, |w.db.attempts|)
  {
    hide Count;
    hide HasActiveAttempt;
    hide TablesOk;
  }

  lemma LoopCounts(w: World)
    requires Sound(w) && PcCounts(w) && w.pc.LoopHead?
    ensures PcCounts(LoopStep(w))
  {
    LoopChange(w);
    var w' := LoopStep(w);
    if w.pc.n <= MAX_ATTEMPTS {
      CountsStay(w.db, w'.db, Opens(w.pc.id, CheckoutDriver), w.now, w.pc.id);
      OpenIsOnly(w.db, w'.db, w.pc.id, CheckoutDriver, w.now);
    }
    hide LoopStep;
    hide Count;
    hide Sound;
    hide HasActiveAttempt;
  }

  lemma OpenIsOnly(db: Db, db': Db, i: nat, via: Method, now: int)
    requires Alters(db, db', Opens(i, via), now)
    ensures |db'.attempts| == |db.attempts| + 1
    ensures db'.attempts[|db.attempts|].settlement == i && db'.attempts[|db.attempts|].via == via
    ensures db'.attempts[|db.attempts|].orderId == None
    ensures forall b :: 0 <= b < |db'.attempts| && db'.attempts[b].settlement == i && Active(db'.attempts[b].state) ==>
      b == |db.attempts|
  {
    hide Count;
    assert !HasAttempt(db, i, Initiated) && !HasAttempt(db, i, AwaitingConfirmation);
  }

  lemma OrderChange(w: World, r: OrderReply) returns (c: Change)
    requires ShapesOk(w.db) && PcCounts(w) && w.pc.Ordering?
    ensures Alters(w.db, OrderAnswer(w, r).db, c, w.now) && (c.Same? || c.Closes? || c.Orders?)
    ensures CausedBy(w, RunOrder(r), c)
    ensures PcCounts(OrderAnswer(w, r))
  {
    hide Count;
    var i, n, a := w.pc.id, w.pc.n, w.pc.attempt;
    c := match r
      case OrderCreated(o) => Orders(a, o)
      case OrderFailed => if w.db.attempts[a].state == Initiated then Closes(a) else Same;
    CountsStay(w.db, OrderAnswer(w, r).db, c, w.now, i);
  }

  lemma FailChange(w: World) returns (c: Change)
    requires ShapesOk(w.db) && PcCounts(w) && w.pc.Failing?
    ensures Alters(w.db, FailStep(w).db, c, w.now) && (c.Same? || c.Closes?)
    ensures PcCounts(FailStep(w))
  {
    hide Count;
    var i, a := w.pc.id, w.pc.attempt;
    c := if w.db.attempts[a].state == Initiated then Closes(a) else Same;
    CountsStay(w.db, FailStep(w).db, c, w.now, i);
  }

  lemma DriverChange(w: World, r: DriverReply) returns (c: Change)
    requires Sound(w) && ShapesOk(w.db) && PcCounts(w) && w.pc.Driving?
    ensures Alters(w.db, DriverAnswer(w, r).db, c, w.now) && (c.Same? || c.Pays?)
    ensures CausedBy(w, RunDriver(r), c)
    ensures DriverAnswer(w, r).pc == Idle
      || (DriverAnswer(w, r).pc == Failing(w.pc.id, w.pc.n, w.pc.attempt) && DriverAnswer(w, r).db == w.db)
  {
    hide ApplyCapture;
    hide TablesOk;
    hide Count;
    hide HasActiveAttempt;
    c := Same;
    if r.Paid? {
      var i, a := w.pc.id, w.pc.attempt;
      CaptureIsAllOrNothing(w.db, a, Initiated, i, r.paymentId, w.now);
      if ApplyCapture(w.db, a, Initiated, i, r.paymentId, w.now).Applied? {
        PayChange(w.db, a, Initiated, i, r.paymentId, w.now);
        c := Pays(a, r.paymentId);
        hide Alters;
      }
    }
  }

  /** No live attempt is left when the loop reaches the link: `supersedeIfActive` finds nothing to
      supersede, and the insert does not meet the index. */
  lemma LinkChange(w: World, r: LinkReply)
    requires PcCounts(w) && w.pc.Linking?
    ensures r.LinkCreated? ==> Alters(w.db, LinkAnswer(w, r).db, Opens(w.pc.id, PaymentLink), w.now)
    ensures r.LinkFailed? ==> Alters(w.db, LinkAnswer(w, r).db, Same, w.now)
    ensures LinkAnswer(w, r).pc == Idle
  {
    hide Count;
    hide HasActiveAttempt;
    assert SupersedeIfActive(w.db, w.pc.last) == w.db;
  }

  // ---------------------------------------------------------------- the start of a run

  lemma NoAttemptsYet(db: Db, i: nat)
    requires TablesOk(db) && InState(db, i, Approved)
    ensures Checkouts(db, i) == 0 && Links(db, i) == 0 && !HasActiveAttempt(db, i)
  {
    CountPositive(db.attempts, i, CheckoutDriver);
    CountPositive(db.attempts, i, PaymentLink);
  }

  lemma NoLinkYet(db: Db, i: nat)
    requires ShapesOk(db) && !HasActiveAttempt(db, i)
    ensures Links(db, i) == 0
  {
    CountPositive(db.attempts, i, PaymentLink);
  }

  lemma StartChange(w: World)
    requires Sound(w) && ShapesOk(w.db) && Bounded(w.db) && PcCounts(w)
    ensures Alters(w.db, StartRun(w).db, Same, w.now)
    ensures PcCounts(StartRun(w))
  {
    hide VerifyChain;
    hide MandateCartHash;
    hide BuildContext;
    hide Count;
    hide HasActiveAttempt;
    hide TablesOk;
    if w.pc == Idle && w.chain != [] {
      var i := w.chain[0].id;
      assert Checkouts(w.db, i) <= MAX_ATTEMPTS;
      if InState(w.db, i, Approved) { NoAttemptsYet(w.db, i); }
      if !HasActiveAttempt(w.db, i) { NoLinkYet(w.db, i); }
      SameAttempts(w.db, StartRun(w).db, i);
    }
  }

  lemma SameAttempts(db: Db, db': Db, i: nat)
    ensures db'.attempts == db.attempts ==> (HasActiveAttempt(db', i) <==> HasActiveAttempt(db, i))
  {}

  // ---------------------------------------------------------------- every step

  /** Steps of the executor. */
  predicate OfRun(s: Step) { s.RunStart? || s.RunLoop? || s.RunOrder? || s.RunDriver? || s.RunFail? || s.RunLink? }

  lemma RunStep(w: World, s: Step) returns (c: Change)
    requires Sound(w) && RunOk(w) && OfRun(s)
    ensures Alters(w.db, Next(w, s).db, c, w.now) && PcCounts(Next(w, s)) && Next(w, s).tasks == w.tasks
    ensures CausedBy(w, s, c)
  {
    hide StartRun;
    hide Alters;
    hide Sound;
    hide ReceiptsOk;
    hide Count;
    hide Running;
    hide Between;
    hide HasActiveAttempt;
    c := Same;
    RunTasks(w, s);
    if s.RunStart? {
      StartChange(w);
    } else {
      NothingAlters(w.db, w.now);
      match s
      case RunLoop =>
        if w.pc.LoopHead? {
          LoopChange(w);
          LoopCounts(w);
          if w.pc.n <= MAX_ATTEMPTS { c := Opens(w.pc.id, CheckoutDriver); }
        }
      case RunOrder(r) => if w.pc.Ordering? { c := OrderChange(w, r); }
      case RunFail => if w.pc.Failing? { c := FailChange(w); }
      case RunLink(r) =>
        if w.pc.Linking? {
          LinkChange(w, r);
          if r.LinkCreated? { c := Opens(w.pc.id, PaymentLink); }
        }
      case RunDriver(r) => if w.pc.Driving? { c := DriverChange(w, r); }
    }
  }

  lemma NothingAlters(db: Db, now: int)
    ensures Alters(db, db, Same, now)
  {}

  lemma RunTasks(w: World, s: Step)
    requires OfRun(s)
    ensures Next(w, s).tasks == w.tasks
  {
    hide EnterSettling;
    hide ApplyCapture;
    hide HasActiveAttempt;
    hide Count;
  }

  /** A fetch reads the row of a checkout, since links have no order id. */
  lemma FetchStartOk(w: World, t: nat, o: Text)
    requires ShapesOk(w.db) && FetchesCheckouts(w)
    ensures FetchesCheckouts(FetchStart(w, t, o)) && FetchStart(w, t, o).db == w.db && FetchStart(w, t, o).pc == w.pc
  {}

  /** An answer ends the fetch or turns it into a refund. */
  lemma FetchTasks(w: World, t: nat, p: Payments)
    ensures forall u :: u in FetchAnswer(w, t, p).tasks && FetchAnswer(w, t, p).tasks[u].Fetching? ==>
      u in w.tasks && FetchAnswer(w, t, p).tasks[u] == w.tasks[u]
  {
    hide ApplyCapture;
    hide IsAnomaly;
    hide AlreadyRefunded;
    hide FailIfLive;
  }

  lemma ApproveChange(w: World, i: nat, h: Text, d: Decision, sig: Sig)
    ensures Alters(w.db, Approve(w, i, h, d, sig).db, Same, w.now)
    ensures Approve(w, i, h, d, sig).pc == w.pc && Approve(w, i, h, d, sig).tasks == w.tasks
  {
    hide VerifySignature;
    hide ApprovalBytes;
    hide MandateCartHash;
  }

  lemma CreateChange(db: Db, intent: SignedIntent, cart: SignedCart, now: int)
    ensures var made := CreateSettlement(db, intent, cart, now);
      made.Made? ==> Alters(db, made.db, Same, now)
  {
    hide MandateCartHash;
    hide VerifyChain;
    hide BuildContext;
    hide CartTaken;
    hide MandateBusy;
  }

  lemma PostChange(w: World, key: Text, h: Text, intent: SignedIntent, cart: SignedCart, dies: bool)
    ensures Alters(w.db, Post(w, key, h, intent, cart, dies).db, Same, w.now)
    ensures Post(w, key, h, intent, cart, dies).pc == w.pc || Post(w, key, h, intent, cart, dies).pc == Idle
    ensures Post(w, key, h, intent, cart, dies).tasks == w.tasks || Post(w, key, h, intent, cart, dies).tasks == map[]
  {
    CreateChange(Lock(w.db, key, h, w.now), intent, cart, w.now);
    hide CreateSettlement;
  }

  lemma SweepRowsChange(w: World, s: Step)
    requires s.SweepTransientStep? || s.SweepVerifiedStep? || s.SweepApprovalStep?
    ensures Alters(w.db, Next(w, s).db, Same, w.now) && Next(w, s).pc == w.pc && Next(w, s).tasks == w.tasks
  {
    hide EnteredBefore;
    hide PendingSince;
  }

  lemma SweepKicksChange(w: World, s: Step)
    requires s.SweepApprovedStep? || s.SweepSettlingStep?
    ensures Alters(w.db, Next(w, s).db, Same, w.now) && Next(w, s).pc == w.pc && Next(w, s).tasks == w.tasks
  {
    hide EnteredBefore;
    hide MandateExpiredAt;
    hide HasActiveAttempt;
    hide FlaggedStuck;
  }

  lemma OtherChange(w: World, s: Step)
    requires s.SetClock? || s.Crash? || s.MintToken? || s.AddCatalog? || s.Note? || s.SweepLocksStep?
      || s.RegisterStep? || s.RevokeStep?
    ensures Alters(w.db, Next(w, s).db, Same, w.now)
    ensures Next(w, s).pc == w.pc || Next(w, s).pc == Idle
    ensures Next(w, s).tasks == w.tasks || Next(w, s).tasks == map[]
  {
    hide VerifySignature;
    hide RevokeBytes;
    hide IntentSigningBytes;
  }

  /** Only the executor orders attempts or opens them, and only a refund's answer reports a refund. */
  lemma AsideStep(w: World, s: Step) returns (c: Change)
    requires Sound(w) && RunOk(w) && !OfRun(s)
    ensures Alters(w.db, Next(w, s).db, c, w.now) && !c.Opens? && !c.Orders?
    ensures CausedBy(w, s, c)
    ensures Next(w, s).pc == w.pc || Next(w, s).pc == Idle
    ensures forall t :: t in Next(w, s).tasks && Next(w, s).tasks[t].Fetching? ==>
      (t in w.tasks && Next(w, s).tasks[t] == w.tasks[t]) || s.Fetch?
    ensures Next(w, s).tasks == w.tasks || Next(w, s).tasks == map[] || s.Fetch? || s.Fetched? || s.Refunded?
  {
    hide Alters;
    hide Sound;
    hide PcCounts;
    hide Bounded;
    hide ReceiptsOk;
    c := Same;
    match s
    case Fetched(t, p) => c := FetchChange(w, t, p); FetchTasks(w, t, p); hide FetchAnswer;
    case SweepAttemptStep(a, cut) => c := SweepChange(w.db, a, cut, w.now); hide SweepAttempt;
    case Fetch(t, o) => FetchStartOk(w, t, o); NothingAlters(w.db, w.now); hide FetchStart;
    case Refunded(t, ok) => c := RefundChange(w, t, ok); hide RefundAnswer;
    case PostStep(k, h, i, cart, dies) => PostChange(w, k, h, i, cart, dies); hide Post;
    case ApproveStep(i, h, d, sig) => ApproveChange(w, i, h, d, sig); hide Approve;
    case SweepTransientStep(_, _) => SweepRowsChange(w, s); hide Next;
    case SweepVerifiedStep(_, _) => SweepRowsChange(w, s); hide Next;
    case SweepApprovalStep(_, _) => SweepRowsChange(w, s); hide Next;
    case SweepApprovedStep(_, _, _) => SweepKicksChange(w, s); hide Next;
    case SweepSettlingStep(_, _) => SweepKicksChange(w, s); hide Next;
    case _ => OtherChange(w, s); hide Next;
  }

  lemma RefundChange(w: World, t: nat, ok: bool) returns (c: Change)
    ensures Alters(w.db, RefundAnswer(w, t, ok).db, c, w.now) && (c.Same? || c.Refunds?)
    ensures CausedBy(w, Refunded(t, ok), c)
    ensures RefundAnswer(w, t, ok).pc == w.pc
    ensures forall u :: u in RefundAnswer(w, t, ok).tasks ==>
      u in w.tasks && RefundAnswer(w, t, ok).tasks[u] == w.tasks[u]
  {
    c := if ok && t in w.tasks && w.tasks[t].Refunding?
         then Refunds(w.tasks[t].settlement, w.tasks[t].attempt, w.tasks[t].paymentId) else Same;
  }

  lemma DbStays(db: Db, db': Db, c: Change, now: int)
    requires ShapesOk(db) && Bounded(db) && ReceiptsOk(db) && Alters(db, db', c, now)
    ensures ShapesOk(db') && Bounded(db') && ReceiptsOk(db')
  {
    hide Alters;
    hide ShapesOk;
    hide Bounded;
    hide ReceiptsOk;
    ShapesStay(db, db', c, now);
    BoundsStay(db, db', c, now);
    ReceiptsStay(db, db', c, now);
  }

  /** The step and the change it makes to the attempt rows. */
  lemma StepChange(w: World, s: Step) returns (c: Change)
    requires Sound(w) && RunOk(w)
    ensures Alters(w.db, Next(w, s).db, c, w.now)
    ensures CausedBy(w, s, c)
  {
    hide Alters;
    hide Sound;
    hide Next;
    if OfRun(s) { c := RunStep(w, s); } else { c := AsideStep(w, s); }
  }

  lemma StepRun(w: World, s: Step)
    requires Sound(w) && RunOk(w)
    ensures RunOk(Next(w, s))
  {
    hide Alters;
    hide Sound;
    hide ShapesOk;
    hide Bounded;
    hide ReceiptsOk;
    var w' := Next(w, s);
    if OfRun(s) {
      var c := RunStep(w, s);
      hide Next;
      hide PcCounts;
      DbStays(w.db, w'.db, c, w.now);
      TasksStay(w, w'.db, c);
    } else {
      var c := AsideStep(w, s);
      if s.Fetch? { FetchStartOk(w, s.task, s.orderId); }
      hide Next;
      DbStays(w.db, w'.db, c, w.now);
      TasksStay(w, w'.db, c);
      if w.pc != Idle { PcStays(w, w'.db, c); }
    }
  }
}
