/** The settlement protocol as a step system. A `World` is the durable database plus what the
    process holds in memory; a crash erases the second part only. Every transaction is one
    step, and every `await` of the source ends a step, so any other step can come between.
    The clock, the payment provider and the checkout driver answer as they please. */
module Protocol {
  import opened Options
  import opened Texts
  import opened CanonicalJson
  import opened Crypto
  import opened Mandates
  import opened Verify
  import opened Schema

  datatype Kick = Execute(id: nat) | Resume(id: nat)

  /** Where the one run of the executor stands (packages/facilitator/src/executor.ts). */
  datatype Pc =
    | Idle
    | LoopHead(id: nat, n: nat, last: Option<nat>)
    | Ordering(id: nat, n: nat, attempt: nat)
    | Driving(id: nat, n: nat, attempt: nat)
    | Failing(id: nat, n: nat, attempt: nat)
    | Linking(id: nat, last: Option<nat>)

  /** A reconcile call waiting for the provider, with the attempt row it read before. */
  datatype Task =
    | Fetching(orderId: Text, attempt: nat, snapshot: Attempt)
    | Refunding(settlement: nat, attempt: nat, paymentId: Text)

  datatype World = World(
    now: int,
    db: Db,
    inFlight: set<nat>,
    chain: seq<Kick>,
    pc: Pc,
    tasks: map<nat, Task>)

  datatype OrderReply = OrderCreated(orderId: Text) | OrderFailed
  datatype DriverReply = Paid(paymentId: Text) | NotPaid | DriverThrew
  datatype LinkReply = LinkCreated | LinkFailed
  datatype Payments = FetchThrew | NoPayments | LatestPaid(paymentId: Text) | LatestFailed | LatestOther

  const MAX_ATTEMPTS: nat := 3

  // ---------------------------------------------------------------- row updates

  function Log(db: Db, e: Event): Db { db.(ledger := db.ledger + [e]) }

  function SetState(db: Db, i: nat, s: SettlementState, now: int): Db
    requires i < |db.settlements|
  {
    var r := db.settlements[i];
    db.(settlements := db.settlements[i := r.(state := s, enteredAt := r.enteredAt[s := now])])
  }

  function SetAttempt(db: Db, a: nat, s: AttemptState): Db
    requires a < |db.attempts|
  {
    db.(attempts := db.attempts[a := db.attempts[a].(state := s)])
  }

  predicate InState(db: Db, i: nat, s: SettlementState) {
    i < |db.settlements| && db.settlements[i].state == s
  }

  predicate HasAttempt(db: Db, i: nat, s: AttemptState) {
    exists a :: 0 <= a < |db.attempts| && db.attempts[a].settlement == i && db.attempts[a].state == s
  }

  predicate HasActiveAttempt(db: Db, i: nat) {
    HasAttempt(db, i, Initiated) || HasAttempt(db, i, AwaitingConfirmation)
  }

  function Count(attempts: seq<Attempt>, i: nat, via: Method): nat {
    if attempts == [] then 0
    else
      var n, a := |attempts| - 1, attempts[|attempts| - 1];
      Count(attempts[..n], i, via) + if a.settlement == i && a.via == via then 1 else 0
  }

  // ---------------------------------------------------------------- requests

  /** POST /mandates: token, signature and row stand or fall together
      (packages/facilitator/src/routes/mandates.ts:22-68). */
  function Register(db: Db, intent: SignedIntent, credential: Credential, token: Text): Db {
    if token !in db.tokens then db
    else if VerifySignature(IntentSigningBytes(intent), intent.sig, credential) != Valid then db
    else if intent.mandateId in db.mandates then db
    else Log(db.(tokens := db.tokens - {token},
                 mandates := db.mandates[intent.mandateId := Mandate(intent, credential, None)]),
             MandateRegistered(intent.mandateId))
  }

  const ACTION := Lit("action")
  const REVOKE := Lit("revoke")
  const SETTLEMENT_ID := Lit("settlement_id")
  const CART_HASH_HEX := Lit("mandate_cart_hash_hex")
  const DECISION := Lit("decision")

  function RevokeBytes(mandateId: Text): Text {
    Encode(Obj(map[MANDATE_ID := Str(mandateId), ACTION := Str(REVOKE)]))
  }

  function ApprovalBytes(i: nat, cartHash: Text, decision: Decision): Text {
    Encode(Obj(map[
      SETTLEMENT_ID := Str(Decimal(i)),
      CART_HASH_HEX := Str(cartHash),
      DECISION := Str(if decision == Granted then Lit("approved") else Lit("rejected"))]))
  }

  /** POST /revoke (packages/facilitator/src/routes/revoke.ts:16-42). */
  function Revoke(db: Db, mandateId: Text, sig: Sig, now: int): Db {
    if mandateId !in db.mandates then db
    else
      var m := db.mandates[mandateId];
      if VerifySignature(RevokeBytes(mandateId), sig, m.credential) != Valid then db
      else if m.revokedAt.Some? then db
      else Log(db.(mandates := db.mandates[mandateId := m.(revokedAt := Some(now))]), MandateRevoked(mandateId))
  }

  predicate CartTaken(db: Db, cartHash: Text, except: Option<nat>) {
    exists j :: 0 <= j < |db.settlements| && Some(j) != except
      && db.settlements[j].cartHash == cartHash && HoldsCart(db.settlements[j].state)
  }

  predicate MandateBusy(db: Db, mandateId: Text) {
    exists j :: 0 <= j < |db.settlements| && db.settlements[j].mandateId == mandateId && Live(db.settlements[j].state)
  }

  /** `buildVerifyCtx` (packages/facilitator/src/verify-logic.ts:42-108) for the row `self`. */
  function BuildContext(db: Db, i: SignedIntent, c: SignedCart, now: int, self: nat): Context {
    var known := i.mandateId in db.mandates;
    Context(
      now,
      if known then Some(db.mandates[i.mandateId].credential) else None,
      known && db.mandates[i.mandateId].revokedAt.Some?,
      Spent(db.settlements, i.mandateId),
      if MerchantLimit(i, c.merchantId).Some? then SpentAt(db.settlements, i.mandateId, c.merchantId) else 0,
      if c.merchantId in db.catalogs then db.catalogs[c.merchantId] else None,
      CartTaken(db, MandateCartHash(i, c), Some(self)))
  }

  /** Which of the two unique indexes SQLite reports when both are violated. */
  const CART_INDEX_FIRST: bool

  datatype CreateResult = Made(db: Db, response: Response) | CreateThrew

  function NewSettlement(i: SignedIntent, c: SignedCart, now: int): Settlement {
    Settlement(i.mandateId, c, MandateCartHash(i, c), c.total, c.merchantId, Created, now, map[], 0)
  }

  /** The row that reserves the allowance and the cart, already on its way through the gate. */
  function Reserve(db: Db, i: SignedIntent, c: SignedCart, now: int): (db': Db)
    ensures |db'.settlements| == |db.settlements| + 1
  {
    var reserved := db.(settlements := db.settlements + [NewSettlement(i, c, now)]);
    SetState(reserved, |db.settlements|, Verifying, now)
  }

  /** The transitions that follow the verdict on row i (packages/facilitator/src/settlement-service.ts:78-118). */
  function Conclude(verifying: Db, i: nat, verdict: Verdict, now: int): CreateResult
    requires i < |verifying.settlements|
  {
    match verdict
    case Threw => CreateThrew
    case Reject(code) =>
      Made(Log(SetState(verifying, i, Rejected, now), VerifyRejected(i, code)),
           Response(202, SettlementBody(i, Rejected, Some(code))))
    case Pass(needsApproval, _) =>
      var verified := SetState(verifying, i, Verified, now);
      if needsApproval then
        Made(Log(SetState(verified, i, PendingApproval, now), ApprovalRequested(i)),
             Response(202, SettlementBody(i, PendingApproval, None)))
      else
        Made(Log(SetState(verified, i, Approved, now), VerifyPassed(i)),
             Response(202, SettlementBody(i, Approved, None)))
  }

  /** `createSettlement` (packages/facilitator/src/settlement-service.ts:32-119): reservation,
      gate and transitions in the caller's transaction. */
  function CreateSettlement(db: Db, intent: SignedIntent, cart: SignedCart, now: int): CreateResult {
    if intent.mandateId !in db.mandates then Made(db, Response(404, ErrorBody(NO_SUCH_MANDATE)))
    else
      var taken := CartTaken(db, MandateCartHash(intent, cart), None);
      var busy := MandateBusy(db, intent.mandateId);
      if taken && (!busy || CART_INDEX_FIRST) then Made(db, Response(409, ErrorBody(CART_TAKEN)))
      else if busy then Made(db, Response(409, ErrorBody(ALLOWANCE_RESERVED)))
      else
        var i, verifying := |db.settlements|, Reserve(db, intent, cart, now);
        Conclude(verifying, i, VerifyChain(intent, cart, BuildContext(verifying, intent, cart, now, i)), now)
  }

  datatype Claim = Claimed | HashMismatch | InFlight | Completed(response: Response)

  /** `claimIdempotencyKey` (packages/facilitator/src/idempotency.ts:22-48). */
  function ClaimKey(db: Db, key: Text, requestHash: Text): Claim {
    if key !in db.keys then Claimed
    else if db.keys[key].requestHash != requestHash then HashMismatch
    else if db.keys[key].response.None? then InFlight
    else Completed(db.keys[key].response.value)
  }

  function Lock(db: Db, key: Text, requestHash: Text, now: int): Db {
    db.(keys := db.keys[key := KeyRow(requestHash, None, now, None)])
  }

  /** `completeIdempotencyKey`, inside the business transaction. */
  function Complete(db: Db, key: Text, r: Response): Db {
    if key in db.keys then
      db.(keys := db.keys[key := db.keys[key].(
        settlement := if r.body.SettlementBody? then Some(r.body.settlement) else None, response := Some(r))])
    else db
  }

  function Enqueue(w: World, k: Kick): World {
    if k.id in w.inFlight then w else w.(inFlight := w.inFlight + {k.id}, chain := w.chain + [k])
  }

  /** POST /settlements (packages/facilitator/src/routes/settlements.ts:32-70): the claim commits
      on its own; `dies` is a crash between it and the business transaction. */
  function Post(w: World, key: Text, requestHash: Text, intent: SignedIntent, cart: SignedCart, dies: bool): World {
    if ClaimKey(w.db, key, requestHash) != Claimed then w
    else
      var locked := Lock(w.db, key, requestHash, w.now);
      if dies then Restart(w.(db := locked))
      else
        match CreateSettlement(locked, intent, cart, w.now)
        case CreateThrew => w.(db := locked)
        case Made(db, response) =>
          var done := w.(db := Complete(db, key, response));
          if response.body.SettlementBody? && response.body.state == Approved
          then Enqueue(done, Execute(response.body.settlement)) else done
  }

  function Min(a: int, b: int): int { if a < b then a else b }

  /** The transaction of POST /approvals (packages/facilitator/src/routes/approvals.ts:25-89). */
  function Approve(w: World, i: nat, cartHash: Text, decision: Decision, sig: Sig): World {
    if i >= |w.db.settlements| || w.db.settlements[i].mandateId !in w.db.mandates then w
    else
      var r := w.db.settlements[i];
      var m := w.db.mandates[r.mandateId];
      if VerifySignature(ApprovalBytes(i, cartHash, decision), sig, m.credential) != Valid then w
      else if MandateCartHash(m.intent, r.cart) != cartHash then w
      else if i in w.db.approvals || r.state != PendingApproval then w
      else
        var row := Approval(decision, cartHash, Min(w.now + 1800, m.intent.expiresAt));
        var decided := w.db.(approvals := w.db.approvals[i := row]);
        if decision == Granted then
          Enqueue(w.(db := Log(SetState(decided, i, Approved, w.now), ApprovalGranted(i))), Execute(i))
        else
          w.(db := Log(SetState(decided, i, Rejected, w.now), ApprovalRejected(i)))
  }

  // ---------------------------------------------------------------- executor

  datatype Entry = Entered(db: Db) | Turned(db: Db) | Stale | EntryThrew

  /** `reverifyAndEnterSettling` (packages/facilitator/src/executor.ts:118-175). */
  function EnterSettling(db: Db, i: nat, now: int): Entry {
    if !InState(db, i, Approved) then Stale
    else
      var r := db.settlements[i];
      if r.mandateId !in db.mandates then Stale
      else
        var intent := db.mandates[r.mandateId].intent;
        var verdict :=
          if MandateCartHash(intent, r.cart) == r.cartHash
          then VerifyChain(intent, r.cart, BuildContext(db, intent, r.cart, now, i))
          else Reject(HASH_LINK_MISMATCH);
        match verdict
        case Threw => EntryThrew
        case Reject(code) => Turned(Log(SetState(db, i, Rejected, now), VerifyRejected(i, code)))
        case Pass(_, _) => Entered(SetState(db, i, Settling, now))
  }

  /** The run for `id` is over: the chain may start the next kick. */
  function Finish(w: World, id: nat): World { w.(pc := Idle, inFlight := w.inFlight - {id}) }

  /** `runAttemptLoop` counts the rows it finds (packages/facilitator/src/executor.ts:255-264). */
  function BeginLoop(w: World, i: nat): World {
    w.(pc := LoopHead(i, Count(w.db.attempts, i, CheckoutDriver) + 1, None))
  }

  /** The head of the chain starts (packages/facilitator/src/executor.ts:362-404). */
  function StartRun(w: World): World {
    if w.pc != Idle || w.chain == [] then w
    else
      var started := w.(chain := w.chain[1..]);
      match w.chain[0]
      case Execute(i) => (
        match EnterSettling(w.db, i, w.now)
        case Entered(db) => BeginLoop(started.(db := db), i)
        case Turned(db) => Finish(started.(db := db), i)
        case Stale => Finish(started, i)
        case EntryThrew => Finish(started, i))
      case Resume(i) =>
        if InState(w.db, i, Settling) && !HasActiveAttempt(w.db, i) then BeginLoop(started, i)
        else Finish(started, i)
  }

  function InsertAttempt(db: Db, i: nat, via: Method, s: AttemptState, now: int): Db {
    db.(attempts := db.attempts + [Attempt(i, via, s, None, None, now)])
  }

  /** The write-ahead insert of one attempt, or the step to the payment link. The index
      one_active_attempt makes the insert throw when another attempt is active. */
  function LoopStep(w: World): World {
    if !w.pc.LoopHead? then w
    else
      var i, n := w.pc.id, w.pc.n;
      if n > MAX_ATTEMPTS then w.(pc := Linking(i, w.pc.last))
      else if HasActiveAttempt(w.db, i) then Finish(w, i)
      else
        var a := |w.db.attempts|;
        w.(db := Log(InsertAttempt(w.db, i, CheckoutDriver, Initiated, w.now), AttemptInitiated(i, a)),
           pc := Ordering(i, n, a))
  }

  /** `createOrder` answers (packages/facilitator/src/executor.ts:284-312). */
  function OrderAnswer(w: World, reply: OrderReply): World {
    if !w.pc.Ordering? || w.pc.attempt >= |w.db.attempts| then w
    else
      var i, n, a := w.pc.id, w.pc.n, w.pc.attempt;
      match reply
      case OrderCreated(o) =>
        w.(db := w.db.(attempts := w.db.attempts[a := w.db.attempts[a].(orderId := Some(o))]), pc := Driving(i, n, a))
      case OrderFailed =>
        if w.db.attempts[a].state != Initiated then Finish(w, i)
        else w.(db := Log(SetAttempt(w.db, a, AttemptFailed), PaymentFailed(i, a)), pc := LoopHead(i, n + 1, Some(a)))
  }

  datatype CaptureResult = Applied(db: Db) | NotApplied(db: Db) | CaptureThrew

  /** `applyCapture` (packages/facilitator/src/reconcile.ts:78-111): two compare-and-swaps in one
      transaction. A stale second one still commits the first; a second captured attempt of one
      settlement violates one_captured_attempt and rolls everything back. */
  function ApplyCapture(db: Db, a: nat, from: AttemptState, i: nat, paymentId: Text, now: int): CaptureResult {
    if AttemptCaptured !in AttemptEdges(from) then CaptureThrew
    else if a >= |db.attempts| || db.attempts[a].state != from then NotApplied(db)
    else if HasAttempt(db, db.attempts[a].settlement, AttemptCaptured) then CaptureThrew
    else
      var paid := db.attempts[a].(state := AttemptCaptured, paymentId := Some(paymentId));
      var captured := db.(attempts := db.attempts[a := paid]);
      if !InState(db, i, Settling) then NotApplied(captured)
      else Applied(Log(SetState(captured, i, Captured, now), PaymentCaptured(i, a, paymentId)))
  }

  /** The checkout driver answers (packages/facilitator/src/executor.ts:314-331). */
  function DriverAnswer(w: World, reply: DriverReply): World {
    if !w.pc.Driving? then w
    else
      var i, n, a := w.pc.id, w.pc.n, w.pc.attempt;
      match reply
      case DriverThrew => Finish(w, i)
      case NotPaid => w.(pc := Failing(i, n, a))
      case Paid(p) =>
        match ApplyCapture(w.db, a, Initiated, i, p, w.now)
        case Applied(db) => Finish(w.(db := db), i)
        case NotApplied(db) => w.(db := db, pc := Failing(i, n, a))
        case CaptureThrew => Finish(w, i)
  }

  /** The failure transaction; a stale compare-and-swap is swallowed
      (packages/facilitator/src/executor.ts:333-350). */
  function FailStep(w: World): World {
    if !w.pc.Failing? || w.pc.attempt >= |w.db.attempts| then w
    else
      var i, n, a := w.pc.id, w.pc.n, w.pc.attempt;
      var failed := if w.db.attempts[a].state == Initiated then SetAttempt(w.db, a, AttemptFailed) else w.db;
      w.(db := Log(failed, PaymentFailed(i, a)), pc := LoopHead(i, n + 1, Some(a)))
  }

  /** `supersedeIfActive` (packages/facilitator/src/executor.ts:181-192). */
  function SupersedeIfActive(db: Db, last: Option<nat>): Db {
    if last.Some? && last.value < |db.attempts| && Active(db.attempts[last.value].state)
    then SetAttempt(db, last.value, Superseded) else db
  }

  /** `createPaymentLink` answers (packages/facilitator/src/executor.ts:194-241). */
  function LinkAnswer(w: World, reply: LinkReply): World {
    if !w.pc.Linking? then w
    else
      var i := w.pc.id;
      match reply
      case LinkFailed => Finish(w.(db := Log(w.db, ReconciliationFlagged(Some(i), LinkCreateFailed))), i)
      case LinkCreated =>
        var db := SupersedeIfActive(w.db, w.pc.last);
        if HasActiveAttempt(db, i) then Finish(w, i)
        else
          Finish(w.(db := Log(InsertAttempt(db, i, PaymentLink, AwaitingConfirmation, w.now),
                              PaymentLinkIssued(i, |db.attempts|))), i)
  }

  // ---------------------------------------------------------------- reconcile

  /** The first attempt row with this provider order id. */
  function ByOrder(attempts: seq<Attempt>, orderId: Text): (a: Option<nat>)
    ensures a.Some? ==> a.value < |attempts| && attempts[a.value].orderId == Some(orderId)
    ensures a.None? ==> forall k :: 0 <= k < |attempts| ==> attempts[k].orderId != Some(orderId)
  {
    if attempts == [] then None
    else
      var before := ByOrder(attempts[..|attempts| - 1], orderId);
      if before.Some? then before
      else if attempts[|attempts| - 1].orderId == Some(orderId) then Some(|attempts| - 1)
      else None
  }

  /** `reconcileByOrder` up to its `await` (packages/facilitator/src/reconcile.ts:331-343). */
  function FetchStart(w: World, t: nat, orderId: Text): World {
    var a := ByOrder(w.db.attempts, orderId);
    if t in w.tasks || a.None? then w
    else w.(tasks := w.tasks[t := Fetching(orderId, a.value, w.db.attempts[a.value])])
  }

  predicate AlreadyRefunded(db: Db, i: nat, paymentId: Text) {
    exists k :: 0 <= k < |db.ledger|
      && db.ledger[k].AnomalyRefundIssued? && db.ledger[k].settlement == i && db.ledger[k].paymentId == paymentId
  }

  function DropTask(w: World, t: nat): World { w.(tasks := w.tasks - {t}) }

  /** `refundAnomalyCapture` up to its `await`. */
  function BeginRefund(w: World, t: nat, i: nat, a: nat, paymentId: Text): World {
    if AlreadyRefunded(w.db, i, paymentId) then DropTask(w, t)
    else w.(tasks := w.tasks[t := Refunding(i, a, paymentId)])
  }

  /** `isAnomaly`: the attempt as it was read, the settlement and its captures as they are. */
  predicate IsAnomaly(db: Db, snapshot: Attempt) {
    || !Active(snapshot.state)
    || !InState(db, snapshot.settlement, Settling)
    || HasAttempt(db, snapshot.settlement, AttemptCaptured)
  }

  /** `reconcileCapturedPayment` (packages/facilitator/src/reconcile.ts:258-298). */
  function ReconcilePaid(w: World, t: nat, a: nat, snapshot: Attempt, paymentId: Text): World {
    var i := snapshot.settlement;
    if snapshot.state == AttemptCaptured then DropTask(w, t)
    else if IsAnomaly(w.db, snapshot) then BeginRefund(w, t, i, a, paymentId)
    else
      match ApplyCapture(w.db, a, snapshot.state, i, paymentId, w.now)
      case Applied(db) => DropTask(w.(db := db), t)
      case NotApplied(db) => BeginRefund(w.(db := db), t, i, a, paymentId)
      case CaptureThrew => DropTask(w, t)
  }

  /** `failAttemptIfLive` (packages/facilitator/src/reconcile.ts:300-320). */
  function FailIfLive(db: Db, a: nat, snapshot: Attempt): Db {
    if Active(snapshot.state) && a < |db.attempts| && db.attempts[a].state == snapshot.state
    then Log(SetAttempt(db, a, AttemptFailed), PaymentFailed(snapshot.settlement, a)) else db
  }

  /** `fetchOrderPayments` answers (packages/facilitator/src/reconcile.ts:341-370). */
  function FetchAnswer(w: World, t: nat, payments: Payments): World {
    if t !in w.tasks || !w.tasks[t].Fetching? then w
    else
      var a, snapshot := w.tasks[t].attempt, w.tasks[t].snapshot;
      match payments
      case FetchThrew =>
        DropTask(w.(db := Log(w.db, ReconciliationFlagged(Some(snapshot.settlement), FetchFailed))), t)
      case LatestPaid(p) => ReconcilePaid(w, t, a, snapshot, p)
      case LatestFailed => DropTask(w.(db := FailIfLive(w.db, a, snapshot)), t)
      case _ => DropTask(w, t)
  }

  /** `refundPayment` answers (packages/facilitator/src/reconcile.ts:142-171). */
  function RefundAnswer(w: World, t: nat, ok: bool): World {
    if t !in w.tasks || !w.tasks[t].Refunding? then w
    else
      var i, a, p := w.tasks[t].settlement, w.tasks[t].attempt, w.tasks[t].paymentId;
      DropTask(w.(db := Log(w.db, if ok then AnomalyRefundIssued(i, a, p)
                                  else ReconciliationFlagged(Some(i), RefundFailed))), t)
  }

  // ---------------------------------------------------------------- sweep rules, row by row

  /** `abandonSettlement` (packages/facilitator/src/sweep.ts:107-129). */
  function Abandon(db: Db, i: nat, e: Event, now: int): Db
    requires i < |db.settlements|
  {
    Log(SetState(db, i, Abandoned, now), e)
  }

  /** A stale attempt with no order id when the list was read. The rows are re-checked by state
      only, so an order may have been stored since (packages/facilitator/src/sweep.ts:150-194). */
  function SweepAttempt(db: Db, a: nat, cutoff: int): Db {
    if a < |db.attempts| && db.attempts[a].state == Initiated && db.attempts[a].createdAt < cutoff
    then Log(SetAttempt(db, a, AttemptFailed), PaymentFailed(db.attempts[a].settlement, a)) else db
  }

  function SweepTransient(db: Db, i: nat, cutoff: int, now: int): Db {
    if i < |db.settlements| && db.settlements[i].state in {Created, Verifying} && db.settlements[i].createdAt < cutoff
    then Abandon(db, i, SettlementAbandoned(i, StrandedTransient), now) else db
  }

  /** A NULL timestamp never compares below the cutoff. */
  predicate EnteredBefore(r: Settlement, s: SettlementState, cutoff: int) {
    s in r.enteredAt && r.enteredAt[s] < cutoff
  }

  function SweepVerified(db: Db, i: nat, cutoff: int, now: int): Db {
    if InState(db, i, Verified) && EnteredBefore(db.settlements[i], Verified, cutoff)
    then Abandon(db, i, SettlementAbandoned(i, VerifiedTimeout), now) else db
  }

  function PendingSince(r: Settlement): int {
    if PendingApproval in r.enteredAt then r.enteredAt[PendingApproval] else 0
  }

  function SweepApproval(db: Db, i: nat, ttl: int, now: int): Db {
    if InState(db, i, PendingApproval) && db.settlements[i].mandateId in db.mandates
       && now > Min(PendingSince(db.settlements[i]) + ttl, db.mandates[db.settlements[i].mandateId].intent.expiresAt)
    then Abandon(db, i, ApprovalExpired(i), now) else db
  }

  predicate MandateExpiredAt(db: Db, mandateId: Text, now: int) {
    mandateId in db.mandates && now > db.mandates[mandateId].intent.expiresAt
  }

  /** `sweepStaleApproved` on one row (packages/facilitator/src/sweep.ts:257-291). */
  function SweepApproved(w: World, i: nat, cutoff: int, maxKicks: nat): World {
    if !InState(w.db, i, Approved) || !EnteredBefore(w.db.settlements[i], Approved, cutoff) then w
    else
      var r := w.db.settlements[i];
      var expired := MandateExpiredAt(w.db, r.mandateId, w.now);
      if expired || r.kicks >= maxKicks then
        w.(db := Abandon(w.db, i, SettlementAbandoned(i, if expired then MandateExpired else KickLimitExceeded), w.now))
      else
        Enqueue(w.(db := w.db.(settlements := w.db.settlements[i := r.(kicks := r.kicks + 1)])), Execute(i))
  }

  predicate FlaggedStuck(db: Db, i: nat) {
    exists k :: 0 <= k < |db.ledger| && db.ledger[k] == ReconciliationFlagged(Some(i), SettlingNoActiveAttempt)
  }

  function SweepSettling(w: World, i: nat, cutoff: int): World {
    if !InState(w.db, i, Settling) || !EnteredBefore(w.db.settlements[i], Settling, cutoff) || HasActiveAttempt(w.db, i)
    then w
    else
      var db := if FlaggedStuck(w.db, i) then w.db
                else Log(w.db, ReconciliationFlagged(Some(i), SettlingNoActiveAttempt));
      Enqueue(w.(db := db), Resume(i))
  }

  function SweepLocks(db: Db, cutoff: int): Db {
    db.(keys := map k | k in db.keys && !(db.keys[k].response.None? && db.keys[k].lockedAt < cutoff) :: db.keys[k])
  }

  // ---------------------------------------------------------------- the step system

  function Restart(w: World): World { World(w.now, w.db, {}, [], Idle, map[]) }

  datatype Step =
    | SetClock(now: int)
    | Crash
    | MintToken(token: Text)
    | AddCatalog(merchant: Text, prices: Option<map<Text, int>>, rescan: bool)
    | Note(kind: NoteKind, about: Option<nat>)
    | RegisterStep(intent: SignedIntent, credential: Credential, token: Text)
    | RevokeStep(mandateId: Text, sig: Sig)
    | PostStep(key: Text, requestHash: Text, intent: SignedIntent, cart: SignedCart, dies: bool)
    | ApproveStep(id: nat, cartHash: Text, decision: Decision, sig: Sig)
    | RunStart
    | RunLoop
    | RunOrder(orderReply: OrderReply)
    | RunDriver(driverReply: DriverReply)
    | RunFail
    | RunLink(linkReply: LinkReply)
    | Fetch(task: nat, orderId: Text)
    | Fetched(task: nat, payments: Payments)
    | Refunded(task: nat, ok: bool)
    | SweepAttemptStep(attempt: nat, cutoff: int)
    | SweepTransientStep(id: nat, cutoff: int)
    | SweepVerifiedStep(id: nat, cutoff: int)
    | SweepApprovalStep(id: nat, ttl: int)
    | SweepApprovedStep(id: nat, cutoff: int, maxKicks: nat)
    | SweepSettlingStep(id: nat, cutoff: int)
    | SweepLocksStep(cutoff: int)

  function Next(w: World, s: Step): World {
    match s
    case SetClock(now) => w.(now := now)
    case Crash => Restart(w)
    case MintToken(t) => w.(db := w.db.(tokens := w.db.tokens + {t}))
    case AddCatalog(m, p, rescan) =>
      if m in w.db.catalogs && !rescan then w else w.(db := w.db.(catalogs := w.db.catalogs[m := p]))
    case Note(kind, about) => w.(db := Log(w.db, Noted(kind, about)))
    case RegisterStep(i, c, t) => w.(db := Register(w.db, i, c, t))
    case RevokeStep(m, sig) => w.(db := Revoke(w.db, m, sig, w.now))
    case PostStep(k, h, i, c, dies) => Post(w, k, h, i, c, dies)
    case ApproveStep(i, h, d, sig) => Approve(w, i, h, d, sig)
    case RunStart => StartRun(w)
    case RunLoop => LoopStep(w)
    case RunOrder(r) => OrderAnswer(w, r)
    case RunDriver(r) => DriverAnswer(w, r)
    case RunFail => FailStep(w)
    case RunLink(r) => LinkAnswer(w, r)
    case Fetch(t, o) => FetchStart(w, t, o)
    case Fetched(t, p) => FetchAnswer(w, t, p)
    case Refunded(t, ok) => RefundAnswer(w, t, ok)
    case SweepAttemptStep(a, c) => w.(db := SweepAttempt(w.db, a, c))
    case SweepTransientStep(i, c) => w.(db := SweepTransient(w.db, i, c, w.now))
    case SweepVerifiedStep(i, c) => w.(db := SweepVerified(w.db, i, c, w.now))
    case SweepApprovalStep(i, ttl) => w.(db := SweepApproval(w.db, i, ttl, w.now))
    case SweepApprovedStep(i, c, k) => SweepApproved(w, i, c, k)
    case SweepSettlingStep(i, c) => SweepSettling(w, i, c)
    case SweepLocksStep(c) => w.(db := SweepLocks(w.db, c))
  }

  /** The world after a run. */
  function Run(w: World, steps: seq<Step>): World
    decreases |steps|
  {
    if steps == [] then w else Run(Next(w, steps[0]), steps[1..])
  }

  const START := World(0, EMPTY, {}, [], Idle, map[])

  ghost predicate Reachable(w: World) { exists steps :: Run(START, steps) == w }

  lemma {:induction false} RunConcat(w: World, a: seq<Step>, b: seq<Step>)
    ensures Run(w, a + b) == Run(Run(w, a), b)
    decreases |a|
  {
    hide Next;
    if a == [] {
      assert a + b == b;
    } else {
      assert (a + b)[1..] == a[1..] + b;
      RunConcat(Next(w, a[0]), a[1..], b);
    }
  }

  /** A run that ends with one more step. */
  lemma RunLast(w: World, steps: seq<Step>, s: Step)
    ensures Run(w, steps + [s]) == Next(Run(w, steps), s)
  {
    RunConcat(w, steps, [s]);
    var mid := Run(w, steps);
    hide Next;
    assert [s][1..] == [];
    assert Run(mid, [s]) == Run(Next(mid, s), []);
  }

  /** The world before step k of a run. */
  function Before(w: World, steps: seq<Step>, k: nat): World
    requires k <= |steps|
  {
    Run(w, steps[..k])
  }

  lemma BeforeNext(w: World, steps: seq<Step>, k: nat)
    requires k < |steps|
    ensures Before(w, steps, k + 1) == Next(Before(w, steps, k), steps[k])
  {
    assert steps[..k + 1] == steps[..k] + [steps[k]];
    RunLast(w, steps[..k], steps[k]);
    hide Next;
    hide Run;
  }

  lemma BeforeEnd(w: World, steps: seq<Step>)
    ensures Before(w, steps, |steps|) == Run(w, steps)
  {
    hide Run;
    assert steps[..|steps|] == steps;
  }

  /** A run goes on from the world before step j. */
  lemma RunFrom(w: World, steps: seq<Step>, j: nat, k: nat)
    requires j <= k <= |steps|
    ensures Before(w, steps, k) == Run(Before(w, steps, j), steps[j..k])
  {
    assert steps[..k] == steps[..j] + steps[j..k];
    RunConcat(w, steps[..j], steps[j..k]);
    hide Run;
  }

  lemma BeforeStart(w: World, steps: seq<Step>)
    ensures Before(w, steps, 0) == w
  {
    hide Next;
    assert steps[..0] == [];
  }

  lemma RunOne(w: World, s: Step, rest: seq<Step>)
    ensures Run(w, [s] + rest) == Run(Next(w, s), rest)
  {
    hide Next;
    assert ([s] + rest)[1..] == rest;
  }

  lemma RunThree(w: World, a: Step, b: Step, c: Step)
    ensures Run(w, [a, b, c]) == Next(Next(Next(w, a), b), c)
  {
    hide Next;
    assert [a] + [b, c] == [a, b, c] && [b] + [c] == [b, c] && [c] + [] == [c];
    RunOne(w, a, [b, c]);
    RunOne(Next(w, a), b, [c]);
    RunOne(Next(Next(w, a), b), c, []);
    assert Run(Next(Next(Next(w, a), b), c), []) == Next(Next(Next(w, a), b), c);
  }

  /** The case of `Next` for each step, so that a proof can hide the others. */
  lemma NextOf(w: World, s: Step)
    ensures s.SetClock? ==> Next(w, s) == w.(now := s.now)
    ensures s.PostStep? ==> Next(w, s) == Post(w, s.key, s.requestHash, s.intent, s.cart, s.dies)
    ensures s.RunStart? ==> Next(w, s) == StartRun(w)
    ensures s.RunLoop? ==> Next(w, s) == LoopStep(w)
    ensures s.RunOrder? ==> Next(w, s) == OrderAnswer(w, s.orderReply)
    ensures s.RunDriver? ==> Next(w, s) == DriverAnswer(w, s.driverReply)
    ensures s.RunFail? ==> Next(w, s) == FailStep(w)
    ensures s.RunLink? ==> Next(w, s) == LinkAnswer(w, s.linkReply)
    ensures s.Fetch? ==> Next(w, s) == FetchStart(w, s.task, s.orderId)
    ensures s.Fetched? ==> Next(w, s) == FetchAnswer(w, s.task, s.payments)
    ensures s.Refunded? ==> Next(w, s) == RefundAnswer(w, s.task, s.ok)
    ensures s.SweepAttemptStep? ==> Next(w, s) == w.(db := SweepAttempt(w.db, s.attempt, s.cutoff))
    ensures s.SweepTransientStep? ==> Next(w, s) == w.(db := SweepTransient(w.db, s.id, s.cutoff, w.now))
    ensures s.SweepVerifiedStep? ==> Next(w, s) == w.(db := SweepVerified(w.db, s.id, s.cutoff, w.now))
    ensures s.SweepApprovalStep? ==> Next(w, s) == w.(db := SweepApproval(w.db, s.id, s.ttl, w.now))
    ensures s.SweepApprovedStep? ==> Next(w, s) == SweepApproved(w, s.id, s.cutoff, s.maxKicks)
    ensures s.SweepSettlingStep? ==> Next(w, s) == SweepSettling(w, s.id, s.cutoff)
    ensures s.SweepLocksStep? ==> Next(w, s) == w.(db := SweepLocks(w.db, s.cutoff))
  {
    hide Post;
    hide StartRun;
    hide LoopStep;
    hide OrderAnswer;
    hide DriverAnswer;
    hide FailStep;
    hide LinkAnswer;
    hide FetchStart;
    hide FetchAnswer;
    hide RefundAnswer;
    hide SweepAttempt;
    hide SweepTransient;
    hide SweepVerified;
    hide SweepApproval;
    hide SweepApproved;
    hide SweepSettling;
    hide SweepLocks;
  }
}
