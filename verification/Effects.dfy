/** Every step of the protocol, whatever code it runs, has one of nine effects on the mandates,
    settlements, approvals and ledger. The invariants about money and about the ledger are
    proved once per effect. */
module Effects {
  import opened Options
  import opened Texts
  import opened Crypto
  import opened Mandates
  import opened Verify
  import opened Schema
  import opened Protocol
  import opened Tables

  /** The outcome an event reports, for the settlement it names. */
  datatype Outcome = Outcome(settlement: nat, state: SettlementState)

  function OutcomeOf(e: Event): Option<Outcome> {
    match e
    case PaymentCaptured(i, _, _) => Some(Outcome(i, Captured))
    case VerifyRejected(i, _) => Some(Outcome(i, Rejected))
    case ApprovalRejected(i) => Some(Outcome(i, Rejected))
    case SettlementAbandoned(i, _) => Some(Outcome(i, Abandoned))
    case ApprovalExpired(i) => Some(Outcome(i, Abandoned))
    case _ => None
  }

  /** At most one event is appended, and it reports `outcome`; without an outcome it may be missing. */
  predicate Reports(db: Db, db': Db, outcome: Option<Outcome>) {
    || (outcome == None && db'.ledger == db.ledger)
    || (|db'.ledger| == |db.ledger| + 1 && db'.ledger[..|db.ledger|] == db.ledger
        && OutcomeOf(db'.ledger[|db.ledger|]) == outcome)
  }

  datatype Effect =
    | Quiet
    | Registers(intent: SignedIntent, credential: Credential)
    | Revokes(mandateId: Text)
    | Reserves(intent: SignedIntent, cart: SignedCart)
    | Decides(id: nat, row: Approval)
    | Admits(id: nat)
    | Ends(id: nat, how: SettlementState)
    | Kicks(id: nat)
    | Captures(id: nat)

  predicate SameMandates(db: Db, db': Db) { db'.mandates == db.mandates }
  predicate SameSettlements(db: Db, db': Db) { db'.settlements == db.settlements }
  predicate SameApprovals(db: Db, db': Db) { db'.approvals == db.approvals }

  /** Row i goes from one state to another, and no other row changes. */
  predicate Moves(db: Db, db': Db, i: nat, from: SettlementState, to: SettlementState, now: int) {
    InState(db, i, from) && db'.settlements == SetState(db, i, to, now).settlements
  }

  /** The row the request asks for. */
  predicate RowFor(r: Settlement, intent: SignedIntent, cart: SignedCart, now: int) {
    && r.mandateId == intent.mandateId && r.cart == cart && r.cartHash == MandateCartHash(intent, cart)
    && r.amount == cart.total && r.merchantId == cart.merchantId
    && r.createdAt == now && r.kicks == 0 && r.state in r.enteredAt && r.enteredAt[r.state] == now
  }

  function OutcomeIn(i: nat, s: SettlementState): Option<Outcome> {
    if Terminal(s) then Some(Outcome(i, s)) else None
  }

  /** One new row, in the state the gate chose for it. */
  predicate Adds(db: Db, db': Db, intent: SignedIntent, cart: SignedCart, now: int) {
    var i := |db.settlements|;
    && |db'.settlements| == i + 1 && db'.settlements[..i] == db.settlements
    && RowFor(db'.settlements[i], intent, cart, now)
    && db'.settlements[i].state in {Rejected, PendingApproval, Approved}
    && Reports(db, db', OutcomeIn(i, db'.settlements[i].state))
    && (db'.settlements[i].state == Approved ==>
      !OverThreshold(intent, cart.total, Spent(db.settlements, intent.mandateId)))
  }

  /** The gate as it is passed at the entry to `settling`: on the registered terms, with the spend
      and the clock of that moment. */
  predicate Admissible(db: Db, i: nat, now: int) {
    && i < |db.settlements| && db.settlements[i].mandateId in db.mandates
    && var r := db.settlements[i];
       var intent := db.mandates[r.mandateId].intent;
       && MandateCartHash(intent, r.cart) == r.cartHash
       && SafeIntent(intent) && SafeCart(r.cart)
       && Chained(intent, r.cart, db.mandates[r.mandateId].credential)
       && WithinTerms(intent, r.cart, BuildContext(db, intent, r.cart, now, i))
  }

  predicate Does(db: Db, db': Db, e: Effect, now: int) {
    match e
    case Quiet =>
      SameMandates(db, db') && SameSettlements(db, db') && SameApprovals(db, db') && Reports(db, db', None)
    case Registers(intent, credential) =>
      && intent.mandateId !in db.mandates
      && db'.mandates == db.mandates[intent.mandateId := Mandate(intent, credential, None)]
      && SameSettlements(db, db') && SameApprovals(db, db') && Reports(db, db', None)
    case Revokes(m) =>
      && m in db.mandates && db.mandates[m].revokedAt.None?
      && db'.mandates == db.mandates[m := db.mandates[m].(revokedAt := Some(now))]
      && SameSettlements(db, db') && SameApprovals(db, db') && Reports(db, db', None)
    case Reserves(intent, cart) =>
      && SameMandates(db, db') && SameApprovals(db, db')
      && intent.mandateId in db.mandates && !MandateBusy(db, intent.mandateId)
      && Adds(db, db', intent, cart, now)
    case Decides(i, row) =>
      && SameMandates(db, db')
      && i !in db.approvals && db'.approvals == db.approvals[i := row]
      && var to := if row.decision == Granted then Approved else Rejected;
         Moves(db, db', i, PendingApproval, to, now) && Reports(db, db', OutcomeIn(i, to))
    case Admits(i) =>
      && SameMandates(db, db') && SameApprovals(db, db') && db'.ledger == db.ledger
      && Moves(db, db', i, Approved, Settling, now) && Admissible(db, i, now)
    case Ends(i, how) =>
      && SameMandates(db, db') && SameApprovals(db, db') && how in {Rejected, Abandoned}
      && i < |db.settlements| && db.settlements[i].state in {Created, Verifying, Verified, PendingApproval, Approved}
      && how in SettlementEdges(db.settlements[i].state)
      && Moves(db, db', i, db.settlements[i].state, how, now) && Reports(db, db', Some(Outcome(i, how)))
    case Kicks(i) =>
      && SameMandates(db, db') && SameApprovals(db, db') && db'.ledger == db.ledger
      && i < |db.settlements|
      && db'.settlements == db.settlements[i := db.settlements[i].(kicks := db.settlements[i].kicks + 1)]
    case Captures(i) =>
      && SameMandates(db, db') && SameApprovals(db, db')
      && Moves(db, db', i, Settling, Captured, now) && Reports(db, db', Some(Outcome(i, Captured)))
  }

  // ---------------------------------------------------------------- what an effect takes

  /** The signature is the human's: it verifies under the credential the mandate was registered with. */
  predicate HumanSigned(db: Db, m: Text, bytes: Text, sig: Sig) {
    m in db.mandates && VerifySignature(bytes, sig, db.mandates[m].credential) == Valid
  }

  /** A decision that the facilitator must carry out: on a settlement that waits for one, signed by the
      human of its mandate over this settlement, this address and this decision, the address being the
      one of the registered terms and the stored cart. */
  predicate MayDecide(db: Db, i: nat, h: Text, d: Decision, sig: Sig) {
    && InState(db, i, PendingApproval) && i !in db.approvals
    && HumanSigned(db, db.settlements[i].mandateId, ApprovalBytes(i, h, d), sig)
    && MandateCartHash(db.mandates[db.settlements[i].mandateId].intent, db.settlements[i].cart) == h
  }

  /** The row of a decision: valid for half an hour, and no longer than the mandate. */
  predicate RowOfDecision(w: World, i: nat, h: Text, d: Decision, row: Approval) {
    && InState(w.db, i, PendingApproval) && w.db.settlements[i].mandateId in w.db.mandates
    && row.decision == d && row.cartHash == h
    && var limit := w.db.mandates[w.db.settlements[i].mandateId].intent.expiresAt;
       row.expiresAt == if w.now + 1800 <= limit then w.now + 1800 else limit
  }

  /** A registration that the facilitator must carry out. */
  predicate MayRegister(db: Db, intent: SignedIntent, credential: Credential, token: Text) {
    && token in db.tokens && intent.mandateId !in db.mandates
    && VerifySignature(IntentSigningBytes(intent), intent.sig, credential) == Valid
  }

  /** Which answer of a human, an agent, the provider or the clock an effect takes. */
  predicate Triggers(w: World, s: Step, e: Effect) {
    match e
    case Quiet => true
    case Registers(intent, credential) =>
      s.RegisterStep? && s.intent == intent && s.credential == credential
      && MayRegister(w.db, intent, credential, s.token)
    case Revokes(m) => s.RevokeStep? && s.mandateId == m && HumanSigned(w.db, m, RevokeBytes(m), s.sig)
    case Reserves(intent, cart) => s.PostStep? && !s.dies && s.intent == intent && s.cart == cart && s.key !in w.db.keys
    case Decides(i, row) =>
      && s.ApproveStep? && s.id == i && MayDecide(w.db, i, s.cartHash, s.decision, s.sig)
      && RowOfDecision(w, i, s.cartHash, s.decision, row)
    case Admits(i) => s.RunStart? && w.pc == Idle && w.chain != [] && w.chain[0] == Execute(i)
    case Ends(i, how) =>
      if how == Rejected then s.RunStart? && w.pc == Idle && w.chain != [] && w.chain[0] == Execute(i)
      else Outlived(w, s, i)
    case Kicks(i) => s.SweepApprovedStep? && s.id == i && Waited(w, i, Approved, s.cutoff) && !Outlived(w, s, i)
    case Captures(i) =>
      || (s.RunDriver? && s.driverReply.Paid? && w.pc.Driving? && w.pc.id == i)
      || (s.Fetched? && s.payments.LatestPaid? && s.task in w.tasks && w.tasks[s.task].Fetching?
          && w.tasks[s.task].snapshot.settlement == i)
  }

  /** Row i entered its state before the cutoff. */
  predicate Waited(w: World, i: nat, state: SettlementState, cutoff: int) {
    InState(w.db, i, state) && state in w.db.settlements[i].enteredAt && w.db.settlements[i].enteredAt[state] < cutoff
  }

  /** The time of row i is up under the rule of this step. */
  predicate Outlived(w: World, s: Step, i: nat) {
    && i < |w.db.settlements|
    && var r := w.db.settlements[i];
       var limit := if r.mandateId in w.db.mandates then Some(w.db.mandates[r.mandateId].intent.expiresAt) else None;
       match s
       case SweepTransientStep(j, cutoff) => j == i && r.state in {Created, Verifying} && r.createdAt < cutoff
       case SweepVerifiedStep(j, cutoff) => j == i && Waited(w, i, Verified, cutoff)
       case SweepApprovalStep(j, ttl) =>
         && j == i && r.state == PendingApproval && limit.Some?
         && (w.now > limit.value
             || w.now > ttl + if PendingApproval in r.enteredAt then r.enteredAt[PendingApproval] else 0)
       case SweepApprovedStep(j, cutoff, maxKicks) =>
         && j == i && Waited(w, i, Approved, cutoff)
         && (r.kicks >= maxKicks || (limit.Some? && w.now > limit.value))
       case _ => false
  }

  // ---------------------------------------------------------------- creation

  lemma SpendIsNatural(db: Db, m: Text, k: Text)
    requires RowsOk(db)
    ensures Spent(db.settlements, m) >= 0 && SpentAt(db.settlements, m, k) >= 0
  {
    var zero: Weight := (i: nat, r: Settlement) => 0;
    SumZero(db.settlements, zero);
    SumOrder(db.settlements, zero, CapturedOf(m));
    SumOrder(db.settlements, zero, CapturedAt(m, k));
  }

  /** The verdict of a request: the gate sees the spend as it stands, since its own row captures nothing. */
  lemma CreateVerdict(db: Db, intent: SignedIntent, cart: SignedCart, now: int)
    requires RowsOk(db)
    ensures var i := |db.settlements|;
      var verdict := VerifyChain(intent, cart, BuildContext(Reserve(db, intent, cart, now), intent, cart, now, i));
      verdict.Pass? ==>
        verdict.needsApproval == OverThreshold(intent, cart.total, Spent(db.settlements, intent.mandateId))
  {
    hide MandateCartHash;
    hide CartTaken;
    var i := |db.settlements|;
    var row := Reserve(db, intent, cart, now).settlements[i];
    assert Reserve(db, intent, cart, now).settlements == db.settlements + [row];
    SumAppend(db.settlements, row, CapturedOf(intent.mandateId));
    SumAppend(db.settlements, row, CapturedAt(intent.mandateId, cart.merchantId));
    SpendIsNatural(db, intent.mandateId, cart.merchantId);
    hide Sum;
    var ctx := BuildContext(Reserve(db, intent, cart, now), intent, cart, now, i);
    assert ctx.spent == Spent(db.settlements, intent.mandateId) && ctx.merchantSpent >= 0;
    GateIsExact(intent, cart, ctx);
    hide VerifyChain;
    hide OverThreshold;
    hide Chained;
    hide WithinTerms;
  }

  lemma ConcludeAdds(db: Db, intent: SignedIntent, cart: SignedCart, verdict: Verdict, now: int)
    requires verdict.Pass? ==>
      verdict.needsApproval == OverThreshold(intent, cart.total, Spent(db.settlements, intent.mandateId))
    requires Conclude(Reserve(db, intent, cart, now), |db.settlements|, verdict, now).Made?
    ensures var made := Conclude(Reserve(db, intent, cart, now), |db.settlements|, verdict, now);
      && Adds(db, made.db, intent, cart, now)
      && made.db == db.(settlements := made.db.settlements, ledger := made.db.ledger)
      && made.response.status == 202
      && made.response.body.SettlementBody? && made.response.body.settlement == |db.settlements|
      && made.response.body.state == made.db.settlements[|db.settlements|].state
  {
    hide MandateCartHash;
    hide OverThreshold;
    hide Spent;
    var i := |db.settlements|;
    var made := Conclude(Reserve(db, intent, cart, now), i, verdict, now);
    assert made.db.settlements[..i] == db.settlements;
  }

  lemma CreateAdds(db: Db, intent: SignedIntent, cart: SignedCart, now: int)
    requires RowsOk(db)
    requires CreateSettlement(db, intent, cart, now).Made?
    requires CreateSettlement(db, intent, cart, now).response.status == 202
    ensures var made := CreateSettlement(db, intent, cart, now);
      && Does(db, made.db, Reserves(intent, cart), now)
      && made.db == db.(settlements := made.db.settlements, ledger := made.db.ledger)
      && made.response.body.SettlementBody? && made.response.body.settlement == |db.settlements|
      && made.response.body.state == made.db.settlements[|db.settlements|].state
  {
    CreateVerdict(db, intent, cart, now);
    var verifying := Reserve(db, intent, cart, now);
    var verdict := VerifyChain(intent, cart, BuildContext(verifying, intent, cart, now, |db.settlements|));
    hide VerifyChain;
    hide BuildContext;
    hide Reserve;
    assert CreateSettlement(db, intent, cart, now) == Conclude(verifying, |db.settlements|, verdict, now);
    ConcludeAdds(db, intent, cart, verdict, now);
    hide Conclude;
    hide Adds;
  }

  /** A response of another status leaves the database alone. */
  lemma CreateRefuses(db: Db, intent: SignedIntent, cart: SignedCart, now: int)
    requires CreateSettlement(db, intent, cart, now).Made?
    requires CreateSettlement(db, intent, cart, now).response.status != 202
    ensures CreateSettlement(db, intent, cart, now).db == db
    ensures CreateSettlement(db, intent, cart, now).response.body.ErrorBody?
  {
    hide VerifyChain;
    hide MandateCartHash;
  }

  /** The tables of keys and tokens are no part of an effect. */
  lemma OtherTables(db: Db, db': Db, db2: Db, db2': Db, e: Effect, now: int)
    requires Does(db, db', e, now)
    requires SameRows(db, db2) && db2.ledger == db.ledger && SameRows(db', db2') && db2'.ledger == db'.ledger
    requires e.Quiet? || e.Reserves?
    ensures Does(db2, db2', e, now)
  {
    hide RowFor;
    hide OverThreshold;
    hide Spent;
  }

  lemma PostEffect(w: World, key: Text, h: Text, intent: SignedIntent, cart: SignedCart, dies: bool) returns (e: Effect)
    requires Sound(w)
    ensures Does(w.db, Post(w, key, h, intent, cart, dies).db, e, w.now)
    ensures e == Quiet || (e == Reserves(intent, cart) && !dies && key !in w.db.keys)
  {
    hide CreateSettlement;
    hide Does;
    hide TasksOk;
    hide PcOk;
    hide AttemptsOk;
    hide OneEach;
    hide CapturesBacked;
    hide OneLive;
    hide OnePerCart;
    var locked := Lock(w.db, key, h, w.now);
    e := Quiet;
    QuietDoes(w.db, locked, w.now);
    if ClaimKey(w.db, key, h) == Claimed && !dies && CreateSettlement(locked, intent, cart, w.now).Made? {
      var made := CreateSettlement(locked, intent, cart, w.now);
      if made.response.status == 202 {
        CreateAdds(locked, intent, cart, w.now);
        e := Reserves(intent, cart);
      } else {
        CreateRefuses(locked, intent, cart, w.now);
        QuietDoes(locked, made.db, w.now);
      }
      OtherTables(locked, made.db, w.db, Post(w, key, h, intent, cart, dies).db, e, w.now);
    } else {
      QuietDoes(w.db, w.db, w.now);
    }
  }

  lemma QuietDoes(db: Db, db': Db, now: int)
    requires SameRows(db, db')
    requires Reports(db, db', None)
    ensures Does(db, db', Quiet, now)
  {}

  // ---------------------------------------------------------------- the other steps

  lemma ApproveEffect(w: World, i: nat, h: Text, d: Decision, sig: Sig) returns (e: Effect)
    ensures Does(w.db, Approve(w, i, h, d, sig).db, e, w.now)
    ensures Triggers(w, ApproveStep(i, h, d, sig), e)
  {
    hide VerifySignature;
    hide ApprovalBytes;
    hide MandateCartHash;
    e := Quiet;
    if Approve(w, i, h, d, sig) != w {
      var m := w.db.mandates[w.db.settlements[i].mandateId];
      e := Decides(i, Approval(d, h, Min(w.now + 1800, m.intent.expiresAt)));
    }
  }

  /** The gate at the entry to `settling`. */
  lemma EntryGate(db: Db, i: nat, now: int)
    requires RowsOk(db) && InState(db, i, Approved)
    requires MandatesOk(db)
    ensures EnterSettling(db, i, now).Entered? <==> Admissible(db, i, now)
  {
    var r := db.settlements[i];
    var intent := db.mandates[r.mandateId].intent;
    SpendIsNatural(db, r.mandateId, r.merchantId);
    assert intent.mandateId == r.mandateId;
    var ctx := BuildContext(db, intent, r.cart, now, i);
    assert ctx.spent >= 0 && ctx.merchantSpent >= 0 && ctx.credential == Some(db.mandates[r.mandateId].credential) by {
      hide Spent;
      hide SpentAt;
      hide MandateCartHash;
      hide CartTaken;
      hide MerchantLimit;
    }
    GateIsExact(intent, r.cart, ctx);
    hide BuildContext;
    hide MandateCartHash;
    hide VerifyChain;
    hide WithinTerms;
    hide Chained;
    hide RowsOk;
    hide SafeIntent;
    hide SafeCart;
  }

  lemma EntryAdmits(db: Db, i: nat, now: int)
    requires RowsOk(db) && MandatesOk(db) && EnterSettling(db, i, now).Entered?
    ensures Does(db, EnterSettling(db, i, now).db, Admits(i), now)
  {
    EntryGate(db, i, now);
    hide MandateCartHash;
    hide BuildContext;
    hide VerifyChain;
    hide Admissible;
    hide RowsOk;
    hide MandatesOk;
  }

  lemma EntryTurns(db: Db, i: nat, now: int)
    requires EnterSettling(db, i, now).Turned?
    ensures Does(db, EnterSettling(db, i, now).db, Ends(i, Rejected), now)
  {
    hide MandateCartHash;
    hide BuildContext;
    hide VerifyChain;
  }

  lemma StartEffect(w: World) returns (e: Effect)
    requires Sound(w)
    ensures Does(w.db, StartRun(w).db, e, w.now)
    ensures Triggers(w, RunStart, e)
  {
    hide EnterSettling;
    e := Quiet;
    if w.pc == Idle && w.chain != [] && w.chain[0].Execute? {
      var i := w.chain[0].id;
      if EnterSettling(w.db, i, w.now).Entered? {
        EntryAdmits(w.db, i, w.now);
        e := Admits(i);
        hide Does;
      } else if EnterSettling(w.db, i, w.now).Turned? {
        EntryTurns(w.db, i, w.now);
        e := Ends(i, Rejected);
        hide Does;
      }
    }
  }

  lemma CaptureEffect(db: Db, a: nat, from: AttemptState, i: nat, paymentId: Text, now: int)
    requires ApplyCapture(db, a, from, i, paymentId, now).Applied?
    ensures Does(db, ApplyCapture(db, a, from, i, paymentId, now).db, Captures(i), now)
  {}

  lemma DriverEffect(w: World, r: DriverReply) returns (e: Effect)
    requires Sound(w)
    ensures Does(w.db, DriverAnswer(w, r).db, e, w.now)
    ensures Triggers(w, RunDriver(r), e)
  {
    hide ApplyCapture;
    hide TablesOk;
    e := Quiet;
    QuietDoes(w.db, w.db, w.now);
    hide Does;
    if w.pc.Driving? && r.Paid? {
      var i, a := w.pc.id, w.pc.attempt;
      CaptureIsAllOrNothing(w.db, a, Initiated, i, r.paymentId, w.now);
      if ApplyCapture(w.db, a, Initiated, i, r.paymentId, w.now).Applied? {
        CaptureEffect(w.db, a, Initiated, i, r.paymentId, w.now);
        e := Captures(i);
      }
    }
  }

  lemma ReconcileEffect(w: World, t: nat, a: nat, snapshot: Attempt, p: Text) returns (e: Effect)
    requires Sound(w) && a < |w.db.attempts| && w.db.attempts[a].settlement == snapshot.settlement
    ensures Does(w.db, ReconcilePaid(w, t, a, snapshot, p).db, e, w.now)
    ensures e == Quiet || e == Captures(snapshot.settlement)
  {
    hide ApplyCapture;
    hide TablesOk;
    hide AlreadyRefunded;
    hide IsAnomaly;
    e := Quiet;
    QuietDoes(w.db, w.db, w.now);
    hide Does;
    var i := snapshot.settlement;
    CaptureIsAllOrNothing(w.db, a, snapshot.state, i, p, w.now);
    if snapshot.state != AttemptCaptured && !IsAnomaly(w.db, snapshot)
       && ApplyCapture(w.db, a, snapshot.state, i, p, w.now).Applied? {
      CaptureEffect(w.db, a, snapshot.state, i, p, w.now);
      e := Captures(i);
    }
  }

  lemma FetchEffect(w: World, t: nat, p: Payments) returns (e: Effect)
    requires Sound(w)
    ensures Does(w.db, FetchAnswer(w, t, p).db, e, w.now)
    ensures Triggers(w, Fetched(t, p), e)
  {
    hide TablesOk;
    hide ReconcilePaid;
    hide Does;
    e := Quiet;
    if t in w.tasks && w.tasks[t].Fetching? && p.LatestPaid? {
      e := ReconcileEffect(w, t, w.tasks[t].attempt, w.tasks[t].snapshot, p.paymentId);
    } else {
      QuietDoes(w.db, FetchAnswer(w, t, p).db.(attempts := w.db.attempts), w.now);
      AttemptsAside(w.db, FetchAnswer(w, t, p).db, w.now);
    }
  }

  /** Attempt rows are no part of an effect. */
  lemma AttemptsAside(db: Db, db': Db, now: int)
    requires Does(db, db'.(attempts := db.attempts), Quiet, now)
    ensures Does(db, db', Quiet, now)
  {}

  lemma AbandonDoes(db: Db, i: nat, event: Event, now: int)
    requires i < |db.settlements|
    requires db.settlements[i].state in {Created, Verifying, Verified, PendingApproval, Approved}
    requires OutcomeOf(event) == Some(Outcome(i, Abandoned))
    ensures Does(db, Abandon(db, i, event, now), Ends(i, Abandoned), now)
  {}

  lemma EarlyRunsOut(w: World, s: Step)
    requires s.SweepTransientStep? || s.SweepVerifiedStep?
    ensures Next(w, s).db ==
      if !Outlived(w, s, s.id) then w.db
      else Abandon(w.db, s.id, SettlementAbandoned(s.id, if s.SweepTransientStep? then StrandedTransient
                                                         else VerifiedTimeout), w.now)
  {
    hide Abandon;
    NextOf(w, s);
    hide Next;
  }

  lemma SweepEarlyEffect(w: World, s: Step) returns (e: Effect)
    requires s.SweepTransientStep? || s.SweepVerifiedStep?
    ensures Does(w.db, Next(w, s).db, e, w.now)
    ensures Triggers(w, s, e)
  {
    hide Does;
    hide Abandon;
    EarlyRunsOut(w, s);
    hide Next;
    e := Quiet;
    QuietDoes(w.db, w.db, w.now);
    var i := s.id;
    if Outlived(w, s, i) {
      var why := if s.SweepTransientStep? then StrandedTransient else VerifiedTimeout;
      AbandonDoes(w.db, i, SettlementAbandoned(i, why), w.now);
      e := Ends(i, Abandoned);
    }
  }

  lemma ApprovalRunsOut(w: World, i: nat, ttl: int)
    ensures SweepApproval(w.db, i, ttl, w.now) ==
      if !Outlived(w, SweepApprovalStep(i, ttl), i) then w.db else Abandon(w.db, i, ApprovalExpired(i), w.now)
  {
    hide Abandon;
  }

  lemma OutlivedWaits(w: World, i: nat, ttl: int)
    requires Outlived(w, SweepApprovalStep(i, ttl), i)
    ensures InState(w.db, i, PendingApproval)
  {}

  lemma SweepApprovalEffect(w: World, i: nat, ttl: int) returns (e: Effect)
    ensures Does(w.db, SweepApproval(w.db, i, ttl, w.now), e, w.now)
    ensures Triggers(w, SweepApprovalStep(i, ttl), e)
  {
    hide Does;
    hide Abandon;
    hide Outlived;
    hide SweepApproval;
    e := Quiet;
    QuietDoes(w.db, w.db, w.now);
    ApprovalRunsOut(w, i, ttl);
    if Outlived(w, SweepApprovalStep(i, ttl), i) {
      assert InState(w.db, i, PendingApproval) by { OutlivedWaits(w, i, ttl); }
      AbandonDoes(w.db, i, ApprovalExpired(i), w.now);
      e := Ends(i, Abandoned);
    }
  }

  lemma KickDoes(db: Db, i: nat, now: int)
    requires i < |db.settlements|
    ensures var r := db.settlements[i];
      Does(db, db.(settlements := db.settlements[i := r.(kicks := r.kicks + 1)]), Kicks(i), now)
  {}

  /** Why an approved row is abandoned: its mandate is over, or it was kicked often enough. */
  function WhyAbandoned(w: World, i: nat): Why
    requires i < |w.db.settlements|
  {
    var m := w.db.settlements[i].mandateId;
    if m in w.db.mandates && w.now > w.db.mandates[m].intent.expiresAt then MandateExpired else KickLimitExceeded
  }

  lemma ApprovedWaits(w: World, i: nat, cutoff: int, maxKicks: nat)
    ensures var s, w' := SweepApprovedStep(i, cutoff, maxKicks), SweepApproved(w, i, cutoff, maxKicks);
      if !Waited(w, i, Approved, cutoff) then w' == w
      else if Outlived(w, s, i) then w'.db == Abandon(w.db, i, SettlementAbandoned(i, WhyAbandoned(w, i)), w.now)
      else
        var r := w.db.settlements[i];
        w'.db == w.db.(settlements := w.db.settlements[i := r.(kicks := r.kicks + 1)])
  {
    hide Abandon;
  }

  lemma SweepApprovedEffect(w: World, i: nat, cutoff: int, maxKicks: nat) returns (e: Effect)
    ensures Does(w.db, SweepApproved(w, i, cutoff, maxKicks).db, e, w.now)
    ensures Triggers(w, SweepApprovedStep(i, cutoff, maxKicks), e)
  {
    hide Does;
    hide Abandon;
    hide Outlived;
    hide WhyAbandoned;
    ApprovedWaits(w, i, cutoff, maxKicks);
    hide SweepApproved;
    e := Quiet;
    QuietDoes(w.db, w.db, w.now);
    if Waited(w, i, Approved, cutoff) {
      KickDoes(w.db, i, w.now);
      AbandonDoes(w.db, i, SettlementAbandoned(i, WhyAbandoned(w, i)), w.now);
      e := if Outlived(w, SweepApprovedStep(i, cutoff, maxKicks), i) then Ends(i, Abandoned) else Kicks(i);
    }
  }

  lemma MandateEffect(w: World, s: Step) returns (e: Effect)
    requires s.RegisterStep? || s.RevokeStep?
    ensures Does(w.db, Next(w, s).db, e, w.now)
    ensures Triggers(w, s, e)
  {
    hide VerifySignature;
    hide RevokeBytes;
    hide IntentSigningBytes;
    if Next(w, s).db == w.db {
      e := Quiet;
    } else {
      e := if s.RegisterStep? then Registers(s.intent, s.credential) else Revokes(s.mandateId);
    }
  }

  lemma LoopQuiet(w: World, s: Step)
    requires s.RunLoop? || s.RunFail?
    ensures Does(w.db, Next(w, s).db, Quiet, w.now)
  {
    hide HasActiveAttempt;
  }

  lemma OrderQuiet(w: World, r: OrderReply)
    ensures Does(w.db, OrderAnswer(w, r).db, Quiet, w.now)
  {}

  lemma LinkQuiet(w: World, r: LinkReply)
    ensures Does(w.db, LinkAnswer(w, r).db, Quiet, w.now)
  {
    hide HasActiveAttempt;
  }

  lemma TaskQuiet(w: World, s: Step)
    requires s.Fetch? || s.Refunded?
    ensures Does(w.db, Next(w, s).db, Quiet, w.now)
  {
    hide ByOrder;
  }

  lemma SweepQuiet(w: World, s: Step)
    requires s.SweepAttemptStep? || s.SweepSettlingStep?
    ensures Does(w.db, Next(w, s).db, Quiet, w.now)
  {
    hide HasActiveAttempt;
    hide FlaggedStuck;
    NextOf(w, s);
    hide Next;
  }

  lemma OtherQuiet(w: World, s: Step)
    requires s.SetClock? || s.Crash? || s.MintToken? || s.AddCatalog? || s.Note? || s.SweepLocksStep?
    ensures Does(w.db, Next(w, s).db, Quiet, w.now)
  {}

  /** Whatever a step does, it has one of the nine effects, and it is a step that may have it. */
  lemma StepEffect(w: World, s: Step) returns (e: Effect)
    requires Sound(w)
    ensures Does(w.db, Next(w, s).db, e, w.now)
    ensures Triggers(w, s, e)
  {
    hide Sound;
    hide Does;
    hide Outlived;
    hide MayDecide;
    hide MayRegister;
    hide RowOfDecision;
    hide HumanSigned;
    match s
    case PostStep(k, h, i, c, dies) => e := PostEffect(w, k, h, i, c, dies);
    case ApproveStep(i, h, d, sig) => e := ApproveEffect(w, i, h, d, sig);
    case RunStart => e := StartEffect(w);
    case RunDriver(r) => e := DriverEffect(w, r);
    case Fetched(t, p) => e := FetchEffect(w, t, p);
    case RegisterStep(_, _, _) => e := MandateEffect(w, s);
    case RevokeStep(_, _) => e := MandateEffect(w, s);
    case SweepTransientStep(_, _) => e := SweepEarlyEffect(w, s);
    case SweepVerifiedStep(_, _) => e := SweepEarlyEffect(w, s);
    case SweepApprovalStep(i, ttl) => e := SweepApprovalEffect(w, i, ttl);
    case SweepApprovedStep(i, c, k) => e := SweepApprovedEffect(w, i, c, k);
    case RunLoop => LoopQuiet(w, s); e := Quiet;
    case RunFail => LoopQuiet(w, s); e := Quiet;
    case RunOrder(r) => OrderQuiet(w, r); e := Quiet;
    case RunLink(r) => LinkQuiet(w, r); e := Quiet;
    case Fetch(_, _) => TaskQuiet(w, s); e := Quiet;
    case Refunded(_, _) => TaskQuiet(w, s); e := Quiet;
    case SweepAttemptStep(_, _) => SweepQuiet(w, s); e := Quiet;
    case SweepSettlingStep(_, _) => SweepQuiet(w, s); e := Quiet;
    case _ => OtherQuiet(w, s); e := Quiet;
  }
}
