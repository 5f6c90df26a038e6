/** What every reachable database keeps about its rows: references, the four unique indexes, and
    the bond between a captured settlement and its one captured attempt. */
module Tables {
  import opened Options
  import opened Texts
  import opened Crypto
  import opened Mandates
  import opened Verify
  import opened Schema
  import opened Protocol

  predicate RowsOk(db: Db) {
    forall i :: 0 <= i < |db.settlements| ==>
      var r := db.settlements[i];
      && r.mandateId in db.mandates
      && r.amount == r.cart.total && r.merchantId == r.cart.merchantId
  }

  predicate MandatesOk(db: Db) {
    forall m :: m in db.mandates ==> db.mandates[m].intent.mandateId == m
  }

  predicate ApprovalsOk(db: Db) {
    forall i :: i in db.approvals ==> i < |db.settlements|
  }

  /** one_live_settlement_per_mandate */
  predicate OneLive(db: Db) {
    forall i, j :: 0 <= i < j < |db.settlements| && Live(db.settlements[i].state) && Live(db.settlements[j].state) ==>
      db.settlements[i].mandateId != db.settlements[j].mandateId
  }

  /** one_settlement_per_cart */
  predicate OnePerCart(db: Db) {
    var rows := db.settlements;
    forall i, j :: 0 <= i < j < |rows| && HoldsCart(rows[i].state) && HoldsCart(rows[j].state) ==>
      rows[i].cartHash != rows[j].cartHash
  }

  /** Attempts exist only below a settlement that entered `settling`, and `settling` is left only
      by a capture. */
  predicate AttemptsOk(db: Db) {
    forall a :: 0 <= a < |db.attempts| ==>
      var r := db.attempts[a];
      && r.settlement < |db.settlements|
      && db.settlements[r.settlement].state in {Settling, Captured}
      && (r.state == AttemptCaptured ==> r.paymentId.Some? && db.settlements[r.settlement].state == Captured)
  }

  /** one_active_attempt and one_captured_attempt */
  predicate OneEach(db: Db) {
    forall a, b :: 0 <= a < b < |db.attempts| && db.attempts[a].settlement == db.attempts[b].settlement ==>
      && !(Active(db.attempts[a].state) && Active(db.attempts[b].state))
      && !(db.attempts[a].state == AttemptCaptured && db.attempts[b].state == AttemptCaptured)
  }

  predicate CapturesBacked(db: Db) {
    forall i :: 0 <= i < |db.settlements| && db.settlements[i].state == Captured ==> HasAttempt(db, i, AttemptCaptured)
  }

  predicate TablesOk(db: Db) {
    && RowsOk(db) && MandatesOk(db) && ApprovalsOk(db)
    && OneLive(db) && OnePerCart(db)
    && AttemptsOk(db) && OneEach(db) && CapturesBacked(db)
  }

  /** A waiting reconcile names a real attempt of the settlement it read. */
  predicate TaskOk(db: Db, t: Task) {
    match t
    case Fetching(o, a, snapshot) =>
      a < |db.attempts| && db.attempts[a].settlement == snapshot.settlement
    case Refunding(i, a, p) =>
      a < |db.attempts| && db.attempts[a].settlement == i
  }

  predicate TasksOk(w: World) { forall t :: t in w.tasks ==> TaskOk(w.db, w.tasks[t]) }

  /** The run belongs to a settlement past the gate, and its attempt to that settlement. */
  predicate PcOk(w: World) {
    match w.pc
    case Idle => true
    case LoopHead(i, n, last) => SettlingOrCaptured(w.db, i)
    case Linking(i, last) => SettlingOrCaptured(w.db, i)
    case Ordering(i, n, a) => a < |w.db.attempts| && w.db.attempts[a].settlement == i
    case Driving(i, n, a) => a < |w.db.attempts| && w.db.attempts[a].settlement == i
    case Failing(i, n, a) => a < |w.db.attempts| && w.db.attempts[a].settlement == i
  }

  predicate SettlingOrCaptured(db: Db, i: nat) {
    i < |db.settlements| && db.settlements[i].state in {Settling, Captured}
  }

  /** Rows are never removed, attempts keep their settlement, and a settlement past the gate
      stays past it. */
  predicate Extends(db: Db, db': Db) {
    && |db.attempts| <= |db'.attempts|
    && (forall a :: 0 <= a < |db.attempts| ==> db'.attempts[a].settlement == db.attempts[a].settlement)
    && (forall i :: 0 <= i < |db.settlements| && SettlingOrCaptured(db, i) ==> SettlingOrCaptured(db', i))
  }

  // ---------------------------------------------------------------- one change at a time

  /** Only the tables these predicates do not read differ. */
  predicate SameRows(db: Db, db': Db) {
    db'.mandates == db.mandates && db'.settlements == db.settlements
    && db'.attempts == db.attempts && db'.approvals == db.approvals
  }

  lemma MoveKeeps(db: Db, i: nat, s: SettlementState, now: int)
    requires TablesOk(db) && i < |db.settlements|
    requires Live(db.settlements[i].state) && db.settlements[i].state != Settling && s != Captured
    ensures TablesOk(SetState(db, i, s, now)) && Extends(db, SetState(db, i, s, now))
  {
    var db' := SetState(db, i, s, now);
    forall j | 0 <= j < |db'.settlements| && db'.settlements[j].state == Captured
      ensures HasAttempt(db', j, AttemptCaptured)
    {
      assert HasAttempt(db, j, AttemptCaptured);
    }
  }

  lemma KicksKeep(db: Db, i: nat, k: nat)
    requires TablesOk(db) && i < |db.settlements|
    ensures var db' := db.(settlements := db.settlements[i := db.settlements[i].(kicks := k)]);
      TablesOk(db') && Extends(db, db')
  {
    var db' := db.(settlements := db.settlements[i := db.settlements[i].(kicks := k)]);
    forall j | 0 <= j < |db'.settlements| && db'.settlements[j].state == Captured
      ensures HasAttempt(db', j, AttemptCaptured)
    {
      assert HasAttempt(db, j, AttemptCaptured);
    }
  }

  lemma ReserveKeeps(db: Db, intent: SignedIntent, cart: SignedCart, now: int)
    requires TablesOk(db) && intent.mandateId in db.mandates
    requires !CartTaken(db, MandateCartHash(intent, cart), None) && !MandateBusy(db, intent.mandateId)
    ensures TablesOk(db.(settlements := db.settlements + [NewSettlement(intent, cart, now)]))
  {
    hide MandateCartHash;
    var db' := db.(settlements := db.settlements + [NewSettlement(intent, cart, now)]);
    assert forall j :: 0 <= j < |db.settlements| ==> db'.settlements[j] == db.settlements[j];
    forall j | 0 <= j < |db'.settlements| && db'.settlements[j].state == Captured
      ensures HasAttempt(db', j, AttemptCaptured)
    {
      assert HasAttempt(db, j, AttemptCaptured);
    }
  }

  lemma ConcludeKeeps(verifying: Db, i: nat, verdict: Verdict, now: int)
    requires TablesOk(verifying) && InState(verifying, i, Verifying)
    ensures var made := Conclude(verifying, i, verdict, now);
      made.Made? ==> TablesOk(made.db) && Extends(verifying, made.db)
  {
    hide TablesOk;
    MoveKeeps(verifying, i, Rejected, now);
    LogKeeps(SetState(verifying, i, Rejected, now));
    MoveKeeps(verifying, i, Verified, now);
    var verified := SetState(verifying, i, Verified, now);
    MoveKeeps(verified, i, PendingApproval, now);
    LogKeeps(SetState(verified, i, PendingApproval, now));
    MoveKeeps(verified, i, Approved, now);
    LogKeeps(SetState(verified, i, Approved, now));
  }

  lemma CreateKeeps(db: Db, intent: SignedIntent, cart: SignedCart, now: int)
    requires TablesOk(db)
    ensures CreateSettlement(db, intent, cart, now).Made? ==>
      TablesOk(CreateSettlement(db, intent, cart, now).db) && Extends(db, CreateSettlement(db, intent, cart, now).db)
  {
    hide MandateCartHash;
    hide VerifyChain;
    hide BuildContext;
    hide CartTaken;
    hide MandateBusy;
    hide TablesOk;
    hide Conclude;
    var made := CreateSettlement(db, intent, cart, now);
    if made.Made? && made.db != db {
      ReserveKeeps(db, intent, cart, now);
      var i := |db.settlements|;
      var reserved := db.(settlements := db.settlements + [NewSettlement(intent, cart, now)]);
      MoveKeeps(reserved, i, Verifying, now);
      var verifying := Reserve(db, intent, cart, now);
      ConcludeKeeps(verifying, i, VerifyChain(intent, cart, BuildContext(verifying, intent, cart, now, i)), now);
    }
  }

  lemma LogKeeps(db: Db)
    requires TablesOk(db)
    ensures forall e :: TablesOk(Log(db, e))
  {
    forall e ensures TablesOk(Log(db, e)) { SameRowsKeep(db, Log(db, e)); }
  }

  lemma SameRowsKeep(db: Db, db': Db)
    requires TablesOk(db) && SameRows(db, db')
    ensures TablesOk(db')
  {
    forall j | 0 <= j < |db'.settlements| && db'.settlements[j].state == Captured
      ensures HasAttempt(db', j, AttemptCaptured)
    {
      assert HasAttempt(db, j, AttemptCaptured);
    }
  }

  lemma RegisterKeeps(db: Db, intent: SignedIntent, credential: Credential, token: Text)
    requires TablesOk(db)
    ensures TablesOk(Register(db, intent, credential, token)) && Extends(db, Register(db, intent, credential, token))
  {
    hide VerifySignature;
    hide IntentSigningBytes;
    var db' := Register(db, intent, credential, token);
    forall j | 0 <= j < |db'.settlements| && db'.settlements[j].state == Captured
      ensures HasAttempt(db', j, AttemptCaptured)
    {
      assert HasAttempt(db, j, AttemptCaptured);
    }
  }

  lemma SetAttemptKeeps(db: Db, a: nat, s: AttemptState)
    requires TablesOk(db) && a < |db.attempts|
    requires Active(db.attempts[a].state) && s in {AttemptFailed, Superseded}
    ensures TablesOk(SetAttempt(db, a, s)) && Extends(db, SetAttempt(db, a, s))
  {
    BackedAfter(db, SetAttempt(db, a, s));
  }

  /** A row that is not live anew, nor captured beside a captured one, breaks neither attempt index. */
  lemma OneEachStays(db: Db, db': Db, a: nat)
    requires OneEach(db) && |db'.attempts| == |db.attempts| && a < |db.attempts|
    requires forall b :: 0 <= b < |db.attempts| ==> db'.attempts[b].settlement == db.attempts[b].settlement
    requires forall b :: 0 <= b < |db.attempts| && b != a ==> db'.attempts[b].state == db.attempts[b].state
    requires Active(db'.attempts[a].state) ==> Active(db.attempts[a].state)
    requires db'.attempts[a].state == AttemptCaptured && db.attempts[a].state != AttemptCaptured ==>
      !HasAttempt(db, db.attempts[a].settlement, AttemptCaptured)
    ensures OneEach(db')
  {}

  lemma OrderKeeps(db: Db, a: nat, orderId: Text)
    requires TablesOk(db) && a < |db.attempts|
    ensures var db' := db.(attempts := db.attempts[a := db.attempts[a].(orderId := Some(orderId))]);
      TablesOk(db') && Extends(db, db')
  {
    var db' := db.(attempts := db.attempts[a := db.attempts[a].(orderId := Some(orderId))]);
    BackedAfter(db, db');
    OneEachStays(db, db', a);
    hide OneEach;
    hide OneLive;
    hide OnePerCart;
    hide CapturesBacked;
    hide HasAttempt;
  }

  /** Captured attempts stay where they are. */
  lemma BackedAfter(db: Db, db': Db)
    requires CapturesBacked(db) && db'.settlements == db.settlements && |db.attempts| <= |db'.attempts|
    requires forall b :: 0 <= b < |db.attempts| && db.attempts[b].state == AttemptCaptured ==>
      db'.attempts[b].state == AttemptCaptured && db'.attempts[b].settlement == db.attempts[b].settlement
    ensures CapturesBacked(db')
  {
    forall j | 0 <= j < |db'.settlements| && db'.settlements[j].state == Captured
      ensures HasAttempt(db', j, AttemptCaptured)
    {
      assert HasAttempt(db, j, AttemptCaptured);
      var b :| 0 <= b < |db.attempts| && db.attempts[b].settlement == j && db.attempts[b].state == AttemptCaptured;
      assert db'.attempts[b].settlement == j;
    }
  }

  lemma InsertKeeps(db: Db, i: nat, via: Method, s: AttemptState, now: int)
    requires TablesOk(db) && SettlingOrCaptured(db, i) && !HasActiveAttempt(db, i) && Active(s)
    ensures TablesOk(InsertAttempt(db, i, via, s, now)) && Extends(db, InsertAttempt(db, i, via, s, now))
  {
    var db' := InsertAttempt(db, i, via, s, now);
    assert forall b :: 0 <= b < |db.attempts| ==> db'.attempts[b] == db.attempts[b];
    BackedAfter(db, db');
  }

  /** On a sound database `applyCapture` never commits half: when its first compare-and-swap
      succeeds and the index lets it, the settlement is in `settling`, so the second one does too. */
  lemma CaptureIsAllOrNothing(db: Db, a: nat, from: AttemptState, i: nat, paymentId: Text, now: int)
    requires TablesOk(db) && a < |db.attempts| && db.attempts[a].settlement == i
    ensures ApplyCapture(db, a, from, i, paymentId, now).NotApplied? ==>
      ApplyCapture(db, a, from, i, paymentId, now).db == db
    ensures ApplyCapture(db, a, from, i, paymentId, now).Applied? <==>
      Active(from) && db.attempts[a].state == from && InState(db, i, Settling)
  {
    if db.attempts[a].state == AttemptCaptured { assert HasAttempt(db, i, AttemptCaptured); }
    if HasAttempt(db, i, AttemptCaptured) {
      var b :| 0 <= b < |db.attempts| && db.attempts[b].settlement == i && db.attempts[b].state == AttemptCaptured;
      assert db.settlements[i].state == Captured;
    }
  }

  /** What a capture that is applied writes into the two tables. */
  lemma CaptureWrites(db: Db, a: nat, from: AttemptState, i: nat, paymentId: Text, now: int)
    requires a < |db.attempts| && ApplyCapture(db, a, from, i, paymentId, now).Applied?
    ensures var db' := ApplyCapture(db, a, from, i, paymentId, now).db;
      && db'.attempts == db.attempts[a := db.attempts[a].(state := AttemptCaptured, paymentId := Some(paymentId))]
      && i < |db.settlements| && |db'.settlements| == |db.settlements| && db'.settlements[i].state == Captured
      && forall j :: 0 <= j < |db.settlements| && j != i ==> db'.settlements[j] == db.settlements[j]
    ensures !HasAttempt(db, db.attempts[a].settlement, AttemptCaptured)
  {
    hide HasAttempt;
  }

  lemma CaptureAttempts(db: Db, a: nat, from: AttemptState, i: nat, paymentId: Text, now: int)
    requires TablesOk(db) && a < |db.attempts| && db.attempts[a].settlement == i
    requires ApplyCapture(db, a, from, i, paymentId, now).Applied?
    ensures var db' := ApplyCapture(db, a, from, i, paymentId, now).db;
      AttemptsOk(db') && OneEach(db') && Extends(db, db')
  {
    CaptureWrites(db, a, from, i, paymentId, now);
    var db' := ApplyCapture(db, a, from, i, paymentId, now).db;
    hide ApplyCapture;
    hide OneLive;
    hide OnePerCart;
    hide CapturesBacked;
    hide RowsOk;
    OneEachStays(db, db', a);
    hide OneEach;
    hide HasAttempt;
  }

  lemma CaptureBacked(db: Db, a: nat, from: AttemptState, i: nat, paymentId: Text, now: int)
    requires TablesOk(db) && a < |db.attempts| && db.attempts[a].settlement == i
    requires ApplyCapture(db, a, from, i, paymentId, now).Applied?
    ensures CapturesBacked(ApplyCapture(db, a, from, i, paymentId, now).db)
  {
    hide OneLive;
    hide OnePerCart;
    hide OneEach;
    var db' := ApplyCapture(db, a, from, i, paymentId, now).db;
    assert db'.attempts[a].settlement == i && db'.attempts[a].state == AttemptCaptured;
    forall j | 0 <= j < |db'.settlements| && db'.settlements[j].state == Captured
      ensures HasAttempt(db', j, AttemptCaptured)
    {
      if j != i {
        assert HasAttempt(db, j, AttemptCaptured);
        var b :| 0 <= b < |db.attempts| && db.attempts[b].settlement == j && db.attempts[b].state == AttemptCaptured;
        assert db'.attempts[b].settlement == j;
      }
    }
  }

  /** A capture takes one settlement and one of its attempts to `captured` together. */
  lemma CaptureKeeps(db: Db, a: nat, from: AttemptState, i: nat, paymentId: Text, now: int)
    requires TablesOk(db) && a < |db.attempts| && db.attempts[a].settlement == i
    requires ApplyCapture(db, a, from, i, paymentId, now).Applied?
    ensures var db' := ApplyCapture(db, a, from, i, paymentId, now).db; TablesOk(db') && Extends(db, db')
  {
    CaptureAttempts(db, a, from, i, paymentId, now);
    CaptureBacked(db, a, from, i, paymentId, now);
    hide AttemptsOk;
    hide OneEach;
    hide CapturesBacked;
    hide HasAttempt;
  }

  // ---------------------------------------------------------------- every step

  predicate Sound(w: World) { TablesOk(w.db) && TasksOk(w) && PcOk(w) }

  lemma ContextExtends(w: World, db': Db)
    requires Sound(w) && TablesOk(db') && Extends(w.db, db')
    ensures Sound(w.(db := db'))
  {
    hide TablesOk;
  }

  lemma SameRowsSound(w: World, db': Db)
    requires Sound(w) && SameRows(w.db, db')
    ensures Sound(w.(db := db'))
  {
    SameRowsKeep(w.db, db');
    ContextExtends(w, db');
  }

  /** Settlement row i moves and an event is logged. */
  lemma MoveSound(w: World, i: nat, s: SettlementState, e: Event)
    requires Sound(w) && i < |w.db.settlements|
    requires Live(w.db.settlements[i].state) && w.db.settlements[i].state != Settling && s != Captured
    ensures Sound(w.(db := Log(SetState(w.db, i, s, w.now), e)))
    ensures Sound(w.(db := SetState(w.db, i, s, w.now)))
  {
    hide TablesOk;
    MoveKeeps(w.db, i, s, w.now);
    var db' := SetState(w.db, i, s, w.now);
    ContextExtends(w, db');
    SameRowsSound(w.(db := db'), Log(db', e));
  }

  lemma EnqueueSound(w: World, k: Kick)
    requires Sound(w)
    ensures Sound(Enqueue(w, k))
  {
    hide TablesOk;
  }

  lemma RegisterSound(w: World, intent: SignedIntent, c: Credential, token: Text)
    requires Sound(w)
    ensures Sound(w.(db := Register(w.db, intent, c, token)))
  {
    RegisterKeeps(w.db, intent, c, token);
    hide Register;
    hide TablesOk;
    ContextExtends(w, Register(w.db, intent, c, token));
  }

  /** Steps that touch none of the four tables. */
  lemma OtherSound(w: World, s: Step)
    requires Sound(w)
    requires s.SetClock? || s.Crash? || s.MintToken? || s.AddCatalog? || s.Note? || s.SweepLocksStep?
    ensures Sound(Next(w, s))
  {
    hide TablesOk;
    if !s.SetClock? && !s.Crash? { SameRowsSound(w, Next(w, s).db); }
  }

  lemma RevokeSound(w: World, m: Text, sig: Sig)
    requires Sound(w)
    ensures Sound(w.(db := Revoke(w.db, m, sig, w.now)))
  {
    hide VerifySignature;
    hide RevokeBytes;
    var db' := Revoke(w.db, m, sig, w.now);
    assert db'.mandates.Keys == w.db.mandates.Keys;
    BackedAfter(w.db, db');
    assert TablesOk(db');
    ContextExtends(w, db');
  }

  lemma PostSound(w: World, key: Text, h: Text, intent: SignedIntent, cart: SignedCart, dies: bool)
    requires Sound(w)
    ensures Sound(Post(w, key, h, intent, cart, dies))
  {
    hide TablesOk;
    hide CreateSettlement;
    var locked := Lock(w.db, key, h, w.now);
    SameRowsSound(w, locked);
    var lw := w.(db := locked);
    CreateKeeps(locked, intent, cart, w.now);
    if CreateSettlement(locked, intent, cart, w.now).Made? {
      var m := CreateSettlement(locked, intent, cart, w.now);
      ContextExtends(lw, m.db);
      SameRowsSound(lw.(db := m.db), Complete(m.db, key, m.response));
      var done := lw.(db := Complete(m.db, key, m.response));
      if m.response.body.SettlementBody? { EnqueueSound(done, Execute(m.response.body.settlement)); }
    }
  }

  lemma DecisionSound(w: World, i: nat, row: Approval)
    requires Sound(w) && i < |w.db.settlements|
    ensures Sound(w.(db := w.db.(approvals := w.db.approvals[i := row])))
  {
    var db' := w.db.(approvals := w.db.approvals[i := row]);
    BackedAfter(w.db, db');
    assert TablesOk(db');
    ContextExtends(w, db');
  }

  lemma ApproveSound(w: World, i: nat, h: Text, d: Decision, sig: Sig)
    requires Sound(w)
    ensures Sound(Approve(w, i, h, d, sig))
  {
    hide VerifySignature;
    hide ApprovalBytes;
    hide MandateCartHash;
    hide TablesOk;
    if Approve(w, i, h, d, sig) != w {
      var m := w.db.mandates[w.db.settlements[i].mandateId];
      var row := Approval(d, h, Min(w.now + 1800, m.intent.expiresAt));
      var decided := w.db.(approvals := w.db.approvals[i := row]);
      DecisionSound(w, i, row);
      var dw := w.(db := decided);
      if d == Granted {
        MoveSound(dw, i, Approved, ApprovalGranted(i));
        EnqueueSound(dw.(db := Log(SetState(decided, i, Approved, w.now), ApprovalGranted(i))), Execute(i));
      } else {
        MoveSound(dw, i, Rejected, ApprovalRejected(i));
      }
    }
  }

  lemma StartSound(w: World)
    requires Sound(w)
    ensures Sound(StartRun(w))
  {
    hide TablesOk;
    hide VerifyChain;
    hide MandateCartHash;
    hide BuildContext;
    if w.pc == Idle && w.chain != [] && w.chain[0].Execute? {
      var i := w.chain[0].id;
      if InState(w.db, i, Approved) {
        MoveSound(w, i, Settling, VerifyPassed(i));
        match EnterSettling(w.db, i, w.now)
        case Turned(db) =>
          var code :| db == Log(SetState(w.db, i, Rejected, w.now), VerifyRejected(i, code));
          MoveSound(w, i, Rejected, VerifyRejected(i, code));
        case _ =>
      }
    }
  }

  lemma LoopSound(w: World)
    requires Sound(w)
    ensures Sound(LoopStep(w))
  {
    hide TablesOk;
    if w.pc.LoopHead? && w.pc.n <= MAX_ATTEMPTS && !HasActiveAttempt(w.db, w.pc.id) {
      InsertKeeps(w.db, w.pc.id, CheckoutDriver, Initiated, w.now);
      var db' := InsertAttempt(w.db, w.pc.id, CheckoutDriver, Initiated, w.now);
      ContextExtends(w, db');
      SameRowsSound(w.(db := db'), Log(db', AttemptInitiated(w.pc.id, |w.db.attempts|)));
    }
  }

  lemma OrderSound(w: World, r: OrderReply)
    requires Sound(w)
    ensures Sound(OrderAnswer(w, r))
  {
    hide TablesOk;
    if w.pc.Ordering? {
      var a := w.pc.attempt;
      PcSettles(w, a, w.pc.id);
      match r
      case OrderCreated(o) =>
        OrderKeeps(w.db, a, o);
        ContextExtends(w, w.db.(attempts := w.db.attempts[a := w.db.attempts[a].(orderId := Some(o))]));
      case OrderFailed =>
        if w.db.attempts[a].state == Initiated {
          FailOneSound(w, a, PaymentFailed(w.pc.id, a));
        }
    }
  }

  lemma PcSettles(w: World, a: nat, i: nat)
    requires Sound(w) && a < |w.db.attempts| && w.db.attempts[a].settlement == i
    ensures SettlingOrCaptured(w.db, i)
  {}

  lemma FailOneSound(w: World, a: nat, e: Event)
    requires Sound(w) && a < |w.db.attempts| && Active(w.db.attempts[a].state)
    ensures Sound(w.(db := Log(SetAttempt(w.db, a, AttemptFailed), e)))
  {
    hide TablesOk;
    SetAttemptKeeps(w.db, a, AttemptFailed);
    var db' := SetAttempt(w.db, a, AttemptFailed);
    ContextExtends(w, db');
    SameRowsSound(w.(db := db'), Log(db', e));
  }

  lemma FailSound(w: World)
    requires Sound(w)
    ensures Sound(FailStep(w))
  {
    hide TablesOk;
    if w.pc.Failing? {
      var i, a := w.pc.id, w.pc.attempt;
      PcSettles(w, a, i);
      if w.db.attempts[a].state == Initiated {
        FailOneSound(w, a, PaymentFailed(i, a));
      } else {
        SameRowsSound(w, Log(w.db, PaymentFailed(i, a)));
      }
    }
  }

  lemma LinkSound(w: World, r: LinkReply)
    requires Sound(w)
    ensures Sound(LinkAnswer(w, r))
  {
    hide TablesOk;
    if w.pc.Linking? {
      var i := w.pc.id;
      match r
      case LinkFailed => SameRowsSound(w, Log(w.db, ReconciliationFlagged(Some(i), LinkCreateFailed)));
      case LinkCreated =>
        var db := SupersedeIfActive(w.db, w.pc.last);
        if db != w.db { SetAttemptKeeps(w.db, w.pc.last.value, Superseded); }
        ContextExtends(w, db);
        if !HasActiveAttempt(db, i) {
          InsertKeeps(db, i, PaymentLink, AwaitingConfirmation, w.now);
          var db' := InsertAttempt(db, i, PaymentLink, AwaitingConfirmation, w.now);
          ContextExtends(w.(db := db), db');
          SameRowsSound(w.(db := db'), Log(db', PaymentLinkIssued(i, |db.attempts|)));
        }
    }
  }

  lemma DriverSound(w: World, r: DriverReply)
    requires Sound(w)
    ensures Sound(DriverAnswer(w, r))
  {
    hide TablesOk;
    hide ApplyCapture;
    if w.pc.Driving? && r.Paid? {
      var i, a := w.pc.id, w.pc.attempt;
      CaptureIsAllOrNothing(w.db, a, Initiated, i, r.paymentId, w.now);
      if ApplyCapture(w.db, a, Initiated, i, r.paymentId, w.now).Applied? {
        CaptureKeeps(w.db, a, Initiated, i, r.paymentId, w.now);
        ContextExtends(w, ApplyCapture(w.db, a, Initiated, i, r.paymentId, w.now).db);
      }
    }
  }

  lemma ReconcileSound(w: World, t: nat, p: Payments)
    requires Sound(w)
    ensures Sound(FetchAnswer(w, t, p))
  {
    hide TablesOk;
    hide ApplyCapture;
    if t in w.tasks && w.tasks[t].Fetching? {
      var a, snapshot := w.tasks[t].attempt, w.tasks[t].snapshot;
      var i := snapshot.settlement;
      assert TaskOk(w.db, w.tasks[t]);
      match p
      case FetchThrew => SameRowsSound(w, Log(w.db, ReconciliationFlagged(Some(i), FetchFailed)));
      case LatestFailed =>
        if FailIfLive(w.db, a, snapshot) != w.db { FailOneSound(w, a, PaymentFailed(i, a)); }
      case LatestPaid(pid) =>
        CaptureIsAllOrNothing(w.db, a, snapshot.state, i, pid, w.now);
        if ApplyCapture(w.db, a, snapshot.state, i, pid, w.now).Applied? {
          CaptureKeeps(w.db, a, snapshot.state, i, pid, w.now);
          ContextExtends(w, ApplyCapture(w.db, a, snapshot.state, i, pid, w.now).db);
        }
      case _ =>
    }
  }

  lemma FetchSound(w: World, s: Step)
    requires Sound(w) && (s.Fetch? || s.Refunded?)
    ensures Sound(Next(w, s))
  {
    hide TablesOk;
    match s
    case Fetch(t, o) =>
    case Refunded(t, ok) =>
      if t in w.tasks && w.tasks[t].Refunding? {
        var i, a, p := w.tasks[t].settlement, w.tasks[t].attempt, w.tasks[t].paymentId;
        SameRowsSound(w, Log(w.db, if ok then AnomalyRefundIssued(i, a, p)
                                   else ReconciliationFlagged(Some(i), RefundFailed)));
      }
  }

  lemma SweepAttemptSound(w: World, a: nat, c: int)
    requires Sound(w)
    ensures Sound(w.(db := SweepAttempt(w.db, a, c)))
  {
    hide Sound;
    if SweepAttempt(w.db, a, c) != w.db { FailOneSound(w, a, PaymentFailed(w.db.attempts[a].settlement, a)); }
  }

  lemma SweepTransientSound(w: World, i: nat, c: int)
    requires Sound(w)
    ensures Sound(w.(db := SweepTransient(w.db, i, c, w.now)))
  {
    hide Sound;
    if SweepTransient(w.db, i, c, w.now) != w.db {
      MoveSound(w, i, Abandoned, SettlementAbandoned(i, StrandedTransient));
    }
  }

  lemma SweepVerifiedSound(w: World, i: nat, c: int)
    requires Sound(w)
    ensures Sound(w.(db := SweepVerified(w.db, i, c, w.now)))
  {
    hide Sound;
    if SweepVerified(w.db, i, c, w.now) != w.db { MoveSound(w, i, Abandoned, SettlementAbandoned(i, VerifiedTimeout)); }
  }

  lemma SweepApprovalSound(w: World, i: nat, ttl: int)
    requires Sound(w)
    ensures Sound(w.(db := SweepApproval(w.db, i, ttl, w.now)))
  {
    hide Sound;
    if SweepApproval(w.db, i, ttl, w.now) != w.db { MoveSound(w, i, Abandoned, ApprovalExpired(i)); }
  }

  lemma SweepApprovedSound(w: World, i: nat, c: int, k: nat)
    requires Sound(w)
    ensures Sound(SweepApproved(w, i, c, k))
  {
    hide TablesOk;
    if InState(w.db, i, Approved) {
      MoveSound(w, i, Abandoned, SettlementAbandoned(i, MandateExpired));
      MoveSound(w, i, Abandoned, SettlementAbandoned(i, KickLimitExceeded));
      KicksKeep(w.db, i, w.db.settlements[i].kicks + 1);
      var r := w.db.settlements[i];
      var db' := w.db.(settlements := w.db.settlements[i := r.(kicks := r.kicks + 1)]);
      ContextExtends(w, db');
      EnqueueSound(w.(db := db'), Execute(i));
    }
  }

  lemma SweepSettlingSound(w: World, i: nat, c: int)
    requires Sound(w)
    ensures Sound(SweepSettling(w, i, c))
  {
    hide TablesOk;
    var db' := Log(w.db, ReconciliationFlagged(Some(i), SettlingNoActiveAttempt));
    SameRowsSound(w, db');
    EnqueueSound(w, Resume(i));
    EnqueueSound(w.(db := db'), Resume(i));
  }

  lemma StepSound(w: World, s: Step)
    requires Sound(w)
    ensures Sound(Next(w, s))
  {
    hide Sound;
    match s
    case PostStep(k, h, i, c, dies) => PostSound(w, k, h, i, c, dies);
    case ApproveStep(i, h, d, sig) => ApproveSound(w, i, h, d, sig);
    case RunStart => StartSound(w);
    case RunDriver(r) => DriverSound(w, r);
    case Fetched(t, p) => ReconcileSound(w, t, p);
    case Fetch(_, _) => FetchSound(w, s);
    case Refunded(_, _) => FetchSound(w, s);
    case RunLoop => LoopSound(w);
    case RunOrder(r) => OrderSound(w, r);
    case RunFail => FailSound(w);
    case RunLink(r) => LinkSound(w, r);
    case SweepAttemptStep(a, c) => SweepAttemptSound(w, a, c);
    case SweepTransientStep(i, c) => SweepTransientSound(w, i, c);
    case SweepVerifiedStep(i, c) => SweepVerifiedSound(w, i, c);
    case SweepApprovalStep(i, ttl) => SweepApprovalSound(w, i, ttl);
    case SweepApprovedStep(i, c, k) => SweepApprovedSound(w, i, c, k);
    case SweepSettlingStep(i, c) => SweepSettlingSound(w, i, c);
    case RegisterStep(i, c, t) => RegisterSound(w, i, c, t);
    case RevokeStep(m, sig) => RevokeSound(w, m, sig);
    case _ => OtherSound(w, s);
  }
}
