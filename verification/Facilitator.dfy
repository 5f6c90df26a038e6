/** The facilitator as the process it is: tables and queues that methods change statement by
    statement. Every method is proved to take the process from its world to the world that the
    protocol says, so what every run keeps, the process keeps. An `await` ends a method. */
module Facilitator {
  import opened Options
  import opened Texts
  import opened Crypto
  import opened Mandates
  import opened Verify
  import opened Schema
  import opened Protocol
  import opened Effects
  import opened Attempts
  import opened Idempotency
  import opened Queue
  import opened Sweep
  import opened Safety

  /** What a compare-and-swap did. */
  datatype Swap = Moved | StaleSwap | InvalidSwap | IndexViolated

  datatype Inserted = RowInserted | CartIndex | MandateIndex

  /** A decision makes a row exactly when it must be carried out. */
  lemma DecidedWhen(w: World, i: nat, h: Text, d: Decision, sig: Sig)
    ensures i in Approve(w, i, h, d, sig).db.approvals && i !in w.db.approvals <==> MayDecide(w.db, i, h, d, sig)
  {
    hide VerifySignature;
    hide ApprovalBytes;
    hide MandateCartHash;
    hide Min;
  }

  class Process {
    var now: int
    var tokens: set<Text>
    var catalogs: map<Text, Option<map<Text, int>>>
    var mandates: map<Text, Mandate>
    var settlements: seq<Settlement>
    var attempts: seq<Attempt>
    var approvals: map<nat, Approval>
    var keys: map<Text, KeyRow>
    var ledger: seq<Event>
    var inFlight: set<nat>
    var chain: seq<Kick>
    var pc: Pc
    var tasks: map<nat, Task>

    /** The database as a value. */
    function Database(): Db
      reads this
    {
      Db(tokens, catalogs, mandates, settlements, attempts, approvals, keys, ledger)
    }

    /** The whole process as a world of the protocol. */
    function State(): World
      reads this
    {
      World(now, Database(), inFlight, chain, pc, tasks)
    }

    constructor ()
      ensures State() == START
    {
      now, tokens, catalogs, mandates := 0, {}, map[], map[];
      settlements, attempts, approvals, keys, ledger := [], [], map[], map[], [];
      inFlight, chain, pc, tasks := {}, [], Idle, map[];
    }

    /** A crash erases the queue, the run and the waiting reconciles, and no row. */
    method Crash()
      modifies this
      ensures State() == Restart(old(State()))
    {
      inFlight, chain, pc, tasks := {}, [], Idle, map[];
    }

    // -------------------------------------------------------------- state machine

    method TransitionSettlement(i: nat, from: SettlementState, to: SettlementState) returns (r: Swap)
      modifies this`settlements
      ensures to !in SettlementEdges(from) <==> r == InvalidSwap
      ensures r == Moved <==> to in SettlementEdges(from) && InState(old(Database()), i, from)
      ensures r == Moved ==> i < |old(settlements)| && Database() == SetState(old(Database()), i, to, now)
      ensures r != Moved ==> settlements == old(settlements)
      ensures r != IndexViolated
    {
      if to !in SettlementEdges(from) { return InvalidSwap; }
      if i >= |settlements| || settlements[i].state != from { return StaleSwap; }
      settlements := settlements[i := settlements[i].(state := to, enteredAt := settlements[i].enteredAt[to := now])];
      return Moved;
    }

    /** The index one_captured_attempt refuses a second captured attempt. */
    method TransitionAttempt(a: nat, from: AttemptState, to: AttemptState) returns (r: Swap)
      modifies this`attempts
      ensures r == InvalidSwap <==> !(from in {Initiated, AwaitingConfirmation} && to !in {from, Initiated})
      ensures r == StaleSwap <==> r != InvalidSwap && !(a < |old(attempts)| && old(attempts)[a].state == from)
      ensures r in {Moved, IndexViolated} ==> a < |old(attempts)|
      ensures r in {Moved, IndexViolated} ==>
        (r == IndexViolated <==>
         to == AttemptCaptured && HasAttempt(old(Database()), old(attempts)[a].settlement, AttemptCaptured))
      ensures r == Moved ==> a < |old(attempts)| && Database() == SetAttempt(old(Database()), a, to)
      ensures r != Moved ==> attempts == old(attempts)
    {
      if to !in AttemptEdges(from) { return InvalidSwap; }
      if a >= |attempts| || attempts[a].state != from { return StaleSwap; }
      if to == AttemptCaptured && HasAttempt(Database(), attempts[a].settlement, AttemptCaptured) {
        return IndexViolated;
      }
      attempts := attempts[a := attempts[a].(state := to)];
      return Moved;
    }

    method AppendLedger(e: Event)
      modifies this`ledger
      ensures Database() == Log(old(Database()), e)
    {
      ledger := ledger + [e];
    }

    // -------------------------------------------------------------- requests

    /** POST /mandates. A throw puts the token and the row back. */
    method RegisterMandate(intent: SignedIntent, credential: Credential, token: Text) returns (ok: bool)
      modifies this`tokens, this`mandates, this`ledger
      ensures Database() == Register(old(Database()), intent, credential, token)
      ensures ok <==> MayRegister(old(Database()), intent, credential, token)
      ensures ok <==> Database() != old(Database())
    {
      var savedTokens := tokens;
      if token !in tokens { return false; }
      tokens := tokens - {token};
      if VerifySignature(IntentSigningBytes(intent), intent.sig, credential) != Valid {
        tokens := savedTokens;
        return false;
      }
      if intent.mandateId in mandates {
        tokens := savedTokens;
        return false;
      }
      mandates := mandates[intent.mandateId := Mandate(intent, credential, None)];
      AppendLedger(MandateRegistered(intent.mandateId));
      assert |ledger| == |old(ledger)| + 1;
      return true;
    }

    /** POST /revoke. */
    method RevokeMandate(mandateId: Text, sig: Sig) returns (ok: bool)
      modifies this`mandates, this`ledger
      ensures Database() == Revoke(old(Database()), mandateId, sig, now)
      ensures ok <==> HumanSigned(old(Database()), mandateId, RevokeBytes(mandateId), sig)
      ensures ok ==> Revoked(mandateId)
    {
      if mandateId !in mandates { return false; }
      var m := mandates[mandateId];
      if VerifySignature(RevokeBytes(mandateId), sig, m.credential) != Valid { return false; }
      if m.revokedAt.Some? { return true; }
      mandates := mandates[mandateId := m.(revokedAt := Some(now))];
      AppendLedger(MandateRevoked(mandateId));
      return true;
    }

    predicate Revoked(mandateId: Text)
      reads this
    {
      mandateId in mandates && mandates[mandateId].revokedAt.Some?
    }

    /** INSERT INTO settlements, under its two unique indexes. */
    method InsertSettlement(row: Settlement) returns (r: Inserted)
      requires row.state == Created
      modifies this`settlements
      ensures var taken := CartTaken(old(Database()), row.cartHash, None);
        var busy := MandateBusy(old(Database()), row.mandateId);
        && (r == CartIndex <==> taken && (!busy || CART_INDEX_FIRST))
        && (r == RowInserted <==> !taken && !busy)
      ensures settlements == if r == RowInserted then old(settlements) + [row] else old(settlements)
    {
      var taken, busy := CartTaken(Database(), row.cartHash, None), MandateBusy(Database(), row.mandateId);
      if taken && (!busy || CART_INDEX_FIRST) { return CartIndex; }
      if busy { return MandateIndex; }
      settlements := settlements + [row];
      return RowInserted;
    }

    /** `createSettlement` in the caller's transaction; `None` is a throw, which the caller rolls back. */
    method CreateSettlementRow(intent: SignedIntent, cart: SignedCart) returns (r: Option<Response>)
      modifies this`settlements, this`ledger
      ensures match CreateSettlement(old(Database()), intent, cart, now)
        case CreateThrew => r == None
        case Made(db, response) => r == Some(response) && Database() == db
    {
      hide VerifyChain;
      hide BuildContext;
      hide MandateCartHash;
      hide CartTaken;
      hide MandateBusy;
      if intent.mandateId !in mandates { return Some(Response(404, ErrorBody(NO_SUCH_MANDATE))); }
      var i := |settlements|;
      var inserted := InsertSettlement(NewSettlement(intent, cart, now));
      if inserted == CartIndex { return Some(Response(409, ErrorBody(CART_TAKEN))); }
      if inserted == MandateIndex { return Some(Response(409, ErrorBody(ALLOWANCE_RESERVED))); }
      var moved := TransitionSettlement(i, Created, Verifying);
      assert Database() == Reserve(old(Database()), intent, cart, now);
      var verdict := VerifyChain(intent, cart, BuildContext(Database(), intent, cart, now, i));
      match verdict {
        case Threw =>
          r := None;
        case Reject(code) =>
          moved := TransitionSettlement(i, Verifying, Rejected);
          AppendLedger(VerifyRejected(i, code));
          r := Some(Response(202, SettlementBody(i, Rejected, Some(code))));
        case Pass(needsApproval, _) =>
          moved := TransitionSettlement(i, Verifying, Verified);
          if needsApproval {
            moved := TransitionSettlement(i, Verified, PendingApproval);
            AppendLedger(ApprovalRequested(i));
            r := Some(Response(202, SettlementBody(i, PendingApproval, None)));
          } else {
            moved := TransitionSettlement(i, Verified, Approved);
            AppendLedger(VerifyPassed(i));
            r := Some(Response(202, SettlementBody(i, Approved, None)));
          }
      }
    }

    /** The bare INSERT is the lock. */
    method ClaimIdempotencyKey(key: Text, h: Text) returns (claim: Claim)
      modifies this`keys
      ensures claim == ClaimKey(old(Database()), key, h)
      ensures Database() == if claim == Claimed then Lock(old(Database()), key, h, now) else old(Database())
    {
      if key !in keys {
        keys := keys[key := KeyRow(h, None, now, None)];
        return Claimed;
      }
      var row := keys[key];
      if row.requestHash != h { return HashMismatch; }
      if row.response.None? { return InFlight; }
      return Completed(row.response.value);
    }

    method CompleteIdempotencyKey(key: Text, r: Response)
      modifies this`keys
      ensures Database() == Complete(old(Database()), key, r)
    {
      if key in keys {
        keys := keys[key := keys[key].(settlement := if r.body.SettlementBody? then Some(r.body.settlement) else None,
                                       response := Some(r))];
      }
    }

    /** POST /settlements: the claim stands on its own, the rest is one transaction, then the kick. */
    method PostSettlement(key: Text, h: Text, intent: SignedIntent, cart: SignedCart) returns (answer: Answer)
      modifies this`keys, this`settlements, this`ledger, this`inFlight, this`chain
      ensures State() == Post(old(State()), key, h, intent, cart, false)
      ensures answer == AnswerTo(old(State()), key, h, intent, cart)
    {
      hide CreateSettlement;
      var claim := ClaimIdempotencyKey(key, h);
      match claim {
        case HashMismatch => return KeyReused;
        case InFlight => return KeyInFlight;
        case Completed(stored) => return Replied(stored);
        case Claimed =>
      }
      var savedSettlements, savedLedger := settlements, ledger;
      var r := CreateSettlementRow(intent, cart);
      if r.None? {
        settlements, ledger := savedSettlements, savedLedger;
        return ServerError;
      }
      CompleteIdempotencyKey(key, r.value);
      if r.value.body.SettlementBody? && r.value.body.state == Approved {
        KickRun(Execute(r.value.body.settlement));
      }
      return Replied(r.value);
    }

    /** POST /approvals: row, transition and event in one transaction, then the kick. */
    method DecideApproval(i: nat, cartHash: Text, decision: Decision, sig: Sig) returns (ok: bool)
      modifies this`approvals, this`settlements, this`ledger, this`inFlight, this`chain
      ensures State() == Approve(old(State()), i, cartHash, decision, sig)
      ensures ok <==> MayDecide(old(Database()), i, cartHash, decision, sig)
      ensures ok <==> i in approvals && i !in old(approvals)
    {
      DecidedWhen(State(), i, cartHash, decision, sig);
      hide MayDecide;
      hide QueueOk;
      hide Queued;
      hide RunsNow;
      hide VerifySignature;
      hide ApprovalBytes;
      hide MandateCartHash;
      hide SetState;
      hide Enqueue;
      hide Min;
      if i >= |settlements| || settlements[i].mandateId !in mandates { return false; }
      var m := mandates[settlements[i].mandateId];
      if VerifySignature(ApprovalBytes(i, cartHash, decision), sig, m.credential) != Valid { return false; }
      if MandateCartHash(m.intent, settlements[i].cart) != cartHash { return false; }
      if i in approvals { return false; }
      var savedApprovals := approvals;
      approvals := approvals[i := Approval(decision, cartHash, Min(now + 1800, m.intent.expiresAt))];
      var moved := TransitionSettlement(i, PendingApproval, if decision == Granted then Approved else Rejected);
      if moved != Moved {
        approvals := savedApprovals;
        return false;
      }
      AppendLedger(if decision == Granted then ApprovalGranted(i) else ApprovalRejected(i));
      if decision == Granted { KickRun(Execute(i)); }
      return true;
    }

    // -------------------------------------------------------------- executor

    /** `kick`: whoever is queued or running already is not queued again, nobody is overtaken, and
        afterwards the settlement is queued or running exactly once. */
    method KickRun(k: Kick)
      modifies this`inFlight, this`chain
      ensures State() == Enqueue(old(State()), k)
      ensures old(chain) <= chain && (chain != old(chain) ==> chain == old(chain) + [k])
      ensures QueueOk(old(State())) ==> QueueOk(State())
      ensures QueueOk(old(State())) ==> (Queued(State(), k.id) || RunsNow(State(), k.id))
      ensures QueueOk(old(State())) ==>
        (chain == old(chain) <==> Queued(old(State()), k.id) || RunsNow(old(State()), k.id))
    {
      if QueueOk(old(State())) {
        EnqueueKeeps(old(State()), k);
        EnqueueAnswers(old(State()), k);
      }
      if k.id in inFlight { return; }
      inFlight := inFlight + {k.id};
      chain := chain + [k];
    }

    /** `reverifyAndEnterSettling`, one transaction. A throw of the gate changes nothing. */
    method ReverifyAndEnterSettling(i: nat) returns (entered: bool)
      modifies this`settlements, this`ledger
      ensures match EnterSettling(old(Database()), i, now)
        case Entered(db) => entered && Database() == db
        case Turned(db) => !entered && Database() == db
        case _ => !entered && Database() == old(Database())
    {
      hide VerifyChain;
      hide BuildContext;
      hide MandateCartHash;
      if i >= |settlements| || settlements[i].state != Approved { return false; }
      var r := settlements[i];
      if r.mandateId !in mandates { return false; }
      var intent := mandates[r.mandateId].intent;
      var verdict := Reject(HASH_LINK_MISMATCH);
      if MandateCartHash(intent, r.cart) == r.cartHash {
        verdict := VerifyChain(intent, r.cart, BuildContext(Database(), intent, r.cart, now, i));
      }
      match verdict {
        case Threw => return false;
        case Reject(code) =>
          var moved := TransitionSettlement(i, Approved, Rejected);
          AppendLedger(VerifyRejected(i, code));
          return false;
        case Pass(_, _) =>
          var moved := TransitionSettlement(i, Approved, Settling);
          return true;
      }
    }

    /** COUNT(*) of the checkouts of a settlement. */
    method CountCheckouts(i: nat) returns (c: nat)
      ensures c == Count(attempts, i, CheckoutDriver)
    {
      c := 0;
      for k := 0 to |attempts|
        invariant c == Count(attempts[..k], i, CheckoutDriver)
      {
        assert attempts[..k + 1][..k] == attempts[..k];
        if attempts[k].settlement == i && attempts[k].via == CheckoutDriver { c := c + 1; }
      }
      assert attempts[..|attempts|] == attempts;
    }

    method FinishRun(i: nat)
      modifies this`pc, this`inFlight
      ensures State() == Finish(old(State()), i)
    {
      pc := Idle;
      inFlight := inFlight - {i};
    }

    method EnterLoop(i: nat)
      modifies this`pc
      ensures State() == BeginLoop(old(State()), i)
    {
      var existing := CountCheckouts(i);
      pc := LoopHead(i, existing + 1, None);
    }

    /** The chain starts its next kick. */
    method StartNextRun()
      modifies this`chain, this`settlements, this`ledger, this`pc, this`inFlight
      ensures State() == StartRun(old(State()))
    {
      hide EnterSettling;
      hide Count;
      hide HasActiveAttempt;
      if pc != Idle || chain == [] { return; }
      var k := chain[0];
      chain := chain[1..];
      match k {
        case Execute(i) =>
          var entered := ReverifyAndEnterSettling(i);
          if entered { EnterLoop(i); } else { FinishRun(i); }
        case Resume(i) =>
          if i < |settlements| && settlements[i].state == Settling && !HasActiveAttempt(Database(), i) {
            EnterLoop(i);
          } else {
            FinishRun(i);
          }
      }
    }

    /** INSERT INTO settlement_attempts; the index one_active_attempt may refuse the row. */
    method InsertAttemptRow(i: nat, via: Method, s: AttemptState) returns (ok: bool)
      requires Active(s)
      modifies this`attempts
      ensures ok <==> !HasActiveAttempt(old(Database()), i)
      ensures Database() == if ok then InsertAttempt(old(Database()), i, via, s, now) else old(Database())
    {
      if HasActiveAttempt(Database(), i) { return false; }
      attempts := attempts + [Attempt(i, via, s, None, None, now)];
      return true;
    }

    /** The head of the attempt loop: another checkout, or on to the payment link. */
    method LoopOn()
      modifies this`attempts, this`ledger, this`pc, this`inFlight
      ensures State() == LoopStep(old(State()))
    {
      hide HasActiveAttempt;
      if !pc.LoopHead? { return; }
      var i, n := pc.id, pc.n;
      if n > MAX_ATTEMPTS {
        pc := Linking(i, pc.last);
        return;
      }
      var a := |attempts|;
      var ok := InsertAttemptRow(i, CheckoutDriver, Initiated);
      if !ok {
        FinishRun(i);
        return;
      }
      AppendLedger(AttemptInitiated(i, a));
      pc := Ordering(i, n, a);
    }

    method OrderReplied(reply: OrderReply)
      modifies this`attempts, this`ledger, this`pc, this`inFlight
      ensures State() == OrderAnswer(old(State()), reply)
    {
      if !pc.Ordering? || pc.attempt >= |attempts| { return; }
      var i, n, a := pc.id, pc.n, pc.attempt;
      match reply {
        case OrderCreated(o) =>
          attempts := attempts[a := attempts[a].(orderId := Some(o))];
          pc := Driving(i, n, a);
        case OrderFailed =>
          var swap := TransitionAttempt(a, Initiated, AttemptFailed);
          if swap != Moved {
            FinishRun(i);
          } else {
            AppendLedger(PaymentFailed(i, a));
            pc := LoopHead(i, n + 1, Some(a));
          }
      }
    }

    /** `applyCapture`: `None` is a throw, which rolls back; `Some(false)` is a stale swap, which
        commits what was written before it. */
    method CapturePayment(a: nat, from: AttemptState, i: nat, paymentId: Text) returns (r: Option<bool>)
      modifies this`attempts, this`settlements, this`ledger
      ensures match ApplyCapture(old(Database()), a, from, i, paymentId, now)
        case Applied(db) => r == Some(true) && Database() == db
        case NotApplied(db) => r == Some(false) && Database() == db
        case CaptureThrew => r == None && Database() == old(Database())
    {
      hide HasAttempt;
      var swap := TransitionAttempt(a, from, AttemptCaptured);
      if swap == StaleSwap { return Some(false); }
      if swap != Moved { return None; }
      attempts := attempts[a := attempts[a].(paymentId := Some(paymentId))];
      swap := TransitionSettlement(i, Settling, Captured);
      if swap == StaleSwap { return Some(false); }
      AppendLedger(PaymentCaptured(i, a, paymentId));
      return Some(true);
    }

    method DriverReplied(reply: DriverReply)
      modifies this`attempts, this`settlements, this`ledger, this`pc, this`inFlight
      ensures State() == DriverAnswer(old(State()), reply)
    {
      hide ApplyCapture;
      if !pc.Driving? { return; }
      var i, n, a := pc.id, pc.n, pc.attempt;
      match reply {
        case DriverThrew => FinishRun(i);
        case NotPaid => pc := Failing(i, n, a);
        case Paid(p) =>
          var captured := CapturePayment(a, Initiated, i, p);
          if captured == Some(false) { pc := Failing(i, n, a); } else { FinishRun(i); }
      }
    }

    /** The failure transaction; a stale swap is swallowed and the event written all the same. */
    method FailRun()
      modifies this`attempts, this`ledger, this`pc
      ensures State() == FailStep(old(State()))
    {
      if !pc.Failing? || pc.attempt >= |attempts| { return; }
      var i, n, a := pc.id, pc.n, pc.attempt;
      var swap := TransitionAttempt(a, Initiated, AttemptFailed);
      AppendLedger(PaymentFailed(i, a));
      pc := LoopHead(i, n + 1, Some(a));
    }

    method SupersedeLast(last: Option<nat>)
      modifies this`attempts
      ensures Database() == SupersedeIfActive(old(Database()), last)
    {
      if last.None? || last.value >= |attempts| { return; }
      var state := attempts[last.value].state;
      if state != Initiated && state != AwaitingConfirmation { return; }
      var swap := TransitionAttempt(last.value, state, Superseded);
    }

    /** The link transaction: supersede, insert, log; a refused insert rolls the first back. */
    method LinkReplied(reply: LinkReply)
      modifies this`attempts, this`ledger, this`pc, this`inFlight
      ensures State() == LinkAnswer(old(State()), reply)
    {
      hide HasActiveAttempt;
      hide SupersedeIfActive;
      if !pc.Linking? { return; }
      var i, last := pc.id, pc.last;
      match reply {
        case LinkFailed => AppendLedger(ReconciliationFlagged(Some(i), LinkCreateFailed));
        case LinkCreated =>
          var saved := attempts;
          SupersedeLast(last);
          var a := |attempts|;
          var ok := InsertAttemptRow(i, PaymentLink, AwaitingConfirmation);
          if ok { AppendLedger(PaymentLinkIssued(i, a)); } else { attempts := saved; }
      }
      FinishRun(i);
    }

    // -------------------------------------------------------------- reconcile

    /** SELECT ... WHERE provider_order_id = ?, the first row. */
    method FindByOrder(orderId: Text) returns (a: Option<nat>)
      ensures a == ByOrder(attempts, orderId)
    {
      for k := 0 to |attempts|
        invariant ByOrder(attempts[..k], orderId) == None
      {
        assert attempts[..k + 1][..k] == attempts[..k];
        if attempts[k].orderId == Some(orderId) {
          assert ByOrder(attempts[..k + 1], orderId) == Some(k);
          FirstStaysFirst(attempts, k + 1, orderId);
          return Some(k);
        }
      }
      assert attempts[..|attempts|] == attempts;
      return None;
    }

    /** `reconcileByOrder` up to the request to the provider. */
    method StartReconcile(t: nat, orderId: Text)
      modifies this`tasks
      ensures State() == FetchStart(old(State()), t, orderId)
    {
      hide ByOrder;
      var a := FindByOrder(orderId);
      if t in tasks || a.None? { return; }
      tasks := tasks[t := Fetching(orderId, a.value, attempts[a.value])];
    }

    /** `alreadyRefunded`: a walk over the refund events of the settlement. */
    method WasRefunded(i: nat, paymentId: Text) returns (found: bool)
      ensures found <==> AlreadyRefunded(Database(), i, paymentId)
    {
      for k := 0 to |ledger|
        invariant forall j :: 0 <= j < k ==>
          !(ledger[j].AnomalyRefundIssued? && ledger[j].settlement == i && ledger[j].paymentId == paymentId)
      {
        if ledger[k].AnomalyRefundIssued? && ledger[k].settlement == i && ledger[k].paymentId == paymentId {
          return true;
        }
      }
      return false;
    }

    method RefundAnomaly(t: nat, i: nat, a: nat, paymentId: Text)
      modifies this`tasks
      ensures State() == BeginRefund(old(State()), t, i, a, paymentId)
    {
      hide AlreadyRefunded;
      var refunded := WasRefunded(i, paymentId);
      if refunded { tasks := tasks - {t}; } else { tasks := tasks[t := Refunding(i, a, paymentId)]; }
    }

    /** `reconcileCapturedPayment`, on the row as it was read before the request. */
    method ReconcileCaptured(t: nat, a: nat, snapshot: Attempt, paymentId: Text)
      modifies this`attempts, this`settlements, this`ledger, this`tasks
      ensures State() == ReconcilePaid(old(State()), t, a, snapshot, paymentId)
    {
      hide ApplyCapture;
      hide BeginRefund;
      hide HasAttempt;
      var i := snapshot.settlement;
      if snapshot.state == AttemptCaptured {
        tasks := tasks - {t};
        return;
      }
      var live := snapshot.state == Initiated || snapshot.state == AwaitingConfirmation;
      var settling := i < |settlements| && settlements[i].state == Settling;
      if live && settling && !HasAttempt(Database(), i, AttemptCaptured) {
        var captured := CapturePayment(a, snapshot.state, i, paymentId);
        if captured != Some(false) {
          tasks := tasks - {t};
          return;
        }
      }
      RefundAnomaly(t, i, a, paymentId);
    }

    /** `failAttemptIfLive`. */
    method FailAttemptIfLive(a: nat, snapshot: Attempt)
      modifies this`attempts, this`ledger
      ensures Database() == FailIfLive(old(Database()), a, snapshot)
    {
      if snapshot.state != Initiated && snapshot.state != AwaitingConfirmation { return; }
      var swap := TransitionAttempt(a, snapshot.state, AttemptFailed);
      if swap == Moved { AppendLedger(PaymentFailed(snapshot.settlement, a)); }
    }

    /** The provider answers a reconcile. */
    method ReconcileReplied(t: nat, payments: Payments)
      modifies this`attempts, this`settlements, this`ledger, this`tasks
      ensures State() == FetchAnswer(old(State()), t, payments)
    {
      hide ReconcilePaid;
      hide FailIfLive;
      if t !in tasks || !tasks[t].Fetching? { return; }
      var a, snapshot := tasks[t].attempt, tasks[t].snapshot;
      match payments {
        case FetchThrew =>
          AppendLedger(ReconciliationFlagged(Some(snapshot.settlement), FetchFailed));
          tasks := tasks - {t};
        case LatestPaid(p) =>
          ReconcileCaptured(t, a, snapshot, p);
        case LatestFailed =>
          FailAttemptIfLive(a, snapshot);
          tasks := tasks - {t};
        case _ =>
          tasks := tasks - {t};
      }
    }

    /** The provider answers a refund. */
    method RefundReplied(t: nat, ok: bool)
      modifies this`ledger, this`tasks
      ensures State() == RefundAnswer(old(State()), t, ok)
    {
      if t !in tasks || !tasks[t].Refunding? { return; }
      var i, a, p := tasks[t].settlement, tasks[t].attempt, tasks[t].paymentId;
      if ok {
        AppendLedger(AnomalyRefundIssued(i, a, p));
      } else {
        AppendLedger(ReconciliationFlagged(Some(i), RefundFailed));
      }
      tasks := tasks - {t};
    }

    // -------------------------------------------------------------- sweep

    /** `abandonSettlement`; a stale swap is swallowed. */
    method AbandonSettlement(i: nat, from: SettlementState, e: Event) returns (done: bool)
      requires Abandoned in SettlementEdges(from)
      modifies this`settlements, this`ledger
      ensures done <==> InState(old(Database()), i, from)
      ensures Database() == if done then Abandon(old(Database()), i, e, now) else old(Database())
    {
      var swap := TransitionSettlement(i, from, Abandoned);
      if swap != Moved { return false; }
      AppendLedger(e);
      return true;
    }

    /** A stale attempt without an order is given up. */
    method SweepStaleAttempt(a: nat, cutoff: int) returns (failed: bool)
      modifies this`attempts, this`ledger
      ensures Database() == SweepAttempt(old(Database()), a, cutoff)
      ensures failed <==> attempts != old(attempts)
    {
      if a >= |attempts| || attempts[a].createdAt >= cutoff { return false; }
      var i := attempts[a].settlement;
      var swap := TransitionAttempt(a, Initiated, AttemptFailed);
      if swap != Moved { return false; }
      AppendLedger(PaymentFailed(i, a));
      assert attempts[a].state != old(attempts)[a].state;
      return true;
    }

    /** A rule on one row says whether it changed it. */
    method SweepTransientRow(i: nat, cutoff: int) returns (done: bool)
      modifies this`settlements, this`ledger
      ensures Database() == SweepTransient(old(Database()), i, cutoff, now)
      ensures |settlements| == |old(settlements)|
      ensures i < |settlements| ==> settlements == old(settlements)[i := settlements[i]]
      ensures done <==> i < |settlements| && settlements[i] != old(settlements)[i]
    {
      if i >= |settlements| || settlements[i].createdAt >= cutoff { return false; }
      var state := settlements[i].state;
      if state != Created && state != Verifying { return false; }
      done := AbandonSettlement(i, state, SettlementAbandoned(i, StrandedTransient));
    }

    method SweepVerifiedRow(i: nat, cutoff: int) returns (done: bool)
      modifies this`settlements, this`ledger
      ensures Database() == SweepVerified(old(Database()), i, cutoff, now)
      ensures |settlements| == |old(settlements)|
      ensures i < |settlements| ==> settlements == old(settlements)[i := settlements[i]]
      ensures done <==> i < |settlements| && settlements[i] != old(settlements)[i]
    {
      if i >= |settlements| || settlements[i].state != Verified { return false; }
      if !EnteredBefore(settlements[i], Verified, cutoff) { return false; }
      done := AbandonSettlement(i, Verified, SettlementAbandoned(i, VerifiedTimeout));
    }

    method SweepApprovalRow(i: nat, ttl: int) returns (done: bool)
      modifies this`settlements, this`ledger
      ensures Database() == SweepApproval(old(Database()), i, ttl, now)
      ensures |settlements| == |old(settlements)|
      ensures i < |settlements| ==> settlements == old(settlements)[i := settlements[i]]
      ensures done <==> i < |settlements| && settlements[i] != old(settlements)[i]
    {
      if i >= |settlements| || settlements[i].state != PendingApproval { return false; }
      var r := settlements[i];
      if r.mandateId !in mandates { return false; }
      var expiresAt := Min(PendingSince(r) + ttl, mandates[r.mandateId].intent.expiresAt);
      if now <= expiresAt { return false; }
      done := AbandonSettlement(i, PendingApproval, ApprovalExpired(i));
    }

    /** A rule on the table counts the rows it changed. */
    method SweepTransients(cutoff: int) returns (count: nat)
      modifies this`settlements, this`ledger
      ensures Database() == Transients(old(Database()), |old(settlements)|, cutoff, now)
      ensures |settlements| == |old(settlements)|
      ensures count == ChangedRows(old(settlements), settlements, |old(settlements)|)
    {
      hide SweepTransient;
      count := 0;
      var n := |settlements|;
      for i := 0 to n
        invariant |settlements| == n
        invariant Database() == Transients(old(Database()), i, cutoff, now)
        invariant count == ChangedRows(old(settlements), settlements, i)
        invariant settlements[i..] == old(settlements)[i..]
      {
        ghost var was := settlements;
        assert settlements[i] == old(settlements)[i];
        var done := SweepTransientRow(i, cutoff);
        if done { count := count + 1; }
        OneMoreChanged(old(settlements), was, settlements, i);
      }
    }

    method SweepStaleVerified(cutoff: int) returns (count: nat)
      modifies this`settlements, this`ledger
      ensures Database() == Verifieds(old(Database()), |old(settlements)|, cutoff, now)
      ensures |settlements| == |old(settlements)|
      ensures count == ChangedRows(old(settlements), settlements, |old(settlements)|)
    {
      hide SweepVerified;
      count := 0;
      var n := |settlements|;
      for i := 0 to n
        invariant |settlements| == n
        invariant Database() == Verifieds(old(Database()), i, cutoff, now)
        invariant count == ChangedRows(old(settlements), settlements, i)
        invariant settlements[i..] == old(settlements)[i..]
      {
        ghost var was := settlements;
        assert settlements[i] == old(settlements)[i];
        var done := SweepVerifiedRow(i, cutoff);
        if done { count := count + 1; }
        OneMoreChanged(old(settlements), was, settlements, i);
      }
    }

    method SweepExpiredApprovals(ttl: int) returns (count: nat)
      modifies this`settlements, this`ledger
      ensures Database() == Approvals(old(Database()), |old(settlements)|, ttl, now)
      ensures |settlements| == |old(settlements)|
      ensures count == ChangedRows(old(settlements), settlements, |old(settlements)|)
    {
      hide SweepApproval;
      count := 0;
      var n := |settlements|;
      for i := 0 to n
        invariant |settlements| == n
        invariant Database() == Approvals(old(Database()), i, ttl, now)
        invariant count == ChangedRows(old(settlements), settlements, i)
        invariant settlements[i..] == old(settlements)[i..]
      {
        ghost var was := settlements;
        assert settlements[i] == old(settlements)[i];
        var done := SweepApprovalRow(i, ttl);
        if done { count := count + 1; }
        OneMoreChanged(old(settlements), was, settlements, i);
      }
    }

    /** An approved row past its time is abandoned, or counted and kicked. */
    method SweepApprovedRow(i: nat, cutoff: int, maxKicks: nat) returns (abandoned: nat, kicked: nat)
      modifies this`settlements, this`ledger, this`inFlight, this`chain
      ensures State() == SweepApproved(old(State()), i, cutoff, maxKicks)
      ensures |settlements| == |old(settlements)|
      ensures i < |settlements| ==> settlements == old(settlements)[i := settlements[i]]
      ensures abandoned + kicked == if i < |settlements| && settlements[i] != old(settlements)[i] then 1 else 0
    {
      abandoned, kicked := 0, 0;
      if i >= |settlements| { return; }
      var r := settlements[i];
      if r.state != Approved || !EnteredBefore(r, Approved, cutoff) { return; }
      var expired := r.mandateId in mandates && now > mandates[r.mandateId].intent.expiresAt;
      if expired || r.kicks >= maxKicks {
        var why := if expired then MandateExpired else KickLimitExceeded;
        var done := AbandonSettlement(i, Approved, SettlementAbandoned(i, why));
        abandoned := 1;
      } else {
        settlements := settlements[i := r.(kicks := r.kicks + 1)];
        KickRun(Execute(i));
        kicked := 1;
      }
    }

    method SweepStaleApproved(cutoff: int, maxKicks: nat) returns (abandoned: nat, kicked: nat)
      modifies this`settlements, this`ledger, this`inFlight, this`chain
      ensures State() == Approveds(old(State()), |old(settlements)|, cutoff, maxKicks)
      ensures |settlements| == |old(settlements)|
      ensures abandoned + kicked == ChangedRows(old(settlements), settlements, |old(settlements)|)
    {
      hide SweepApproved;
      abandoned, kicked := 0, 0;
      var n := |settlements|;
      for i := 0 to n
        invariant |settlements| == n
        invariant State() == Approveds(old(State()), i, cutoff, maxKicks)
        invariant abandoned + kicked == ChangedRows(old(settlements), settlements, i)
        invariant settlements[i..] == old(settlements)[i..]
      {
        ghost var was := settlements;
        assert settlements[i] == old(settlements)[i];
        var a, k := SweepApprovedRow(i, cutoff, maxKicks);
        abandoned, kicked := abandoned + a, kicked + k;
        OneMoreChanged(old(settlements), was, settlements, i);
      }
    }

    /** `reconciliationFlaggedFor`: a walk over the ledger. */
    method WasFlagged(i: nat) returns (found: bool)
      ensures found <==> FlaggedStuck(Database(), i)
    {
      for k := 0 to |ledger|
        invariant forall j :: 0 <= j < k ==> ledger[j] != ReconciliationFlagged(Some(i), SettlingNoActiveAttempt)
      {
        if ledger[k] == ReconciliationFlagged(Some(i), SettlingNoActiveAttempt) { return true; }
      }
      return false;
    }

    /** A settling row without a live attempt is flagged once and resumed each time. */
    method SweepSettlingRow(i: nat, cutoff: int)
      modifies this`ledger, this`inFlight, this`chain
      ensures State() == SweepSettling(old(State()), i, cutoff)
    {
      hide HasActiveAttempt;
      hide FlaggedStuck;
      if i >= |settlements| || settlements[i].state != Settling { return; }
      if !EnteredBefore(settlements[i], Settling, cutoff) { return; }
      if HasActiveAttempt(Database(), i) { return; }
      var flagged := WasFlagged(i);
      if !flagged { AppendLedger(ReconciliationFlagged(Some(i), SettlingNoActiveAttempt)); }
      KickRun(Resume(i));
    }

    method SweepStuckSettling(cutoff: int)
      modifies this`ledger, this`inFlight, this`chain
      ensures State() == Settlings(old(State()), |settlements|, cutoff)
    {
      hide SweepSettling;
      for i := 0 to |settlements|
        invariant State() == Settlings(old(State()), i, cutoff)
      {
        SweepSettlingRow(i, cutoff);
      }
    }

    /** DELETE FROM idempotency_keys WHERE response_status IS NULL AND locked_at < ?. */
    method SweepStaleLocks(cutoff: int) returns (cleared: nat)
      modifies this`keys
      ensures Database() == SweepLocks(old(Database()), cutoff)
      ensures cleared == |old(keys)| - |keys|
    {
      var stale := set k | k in keys && keys[k].response.None? && keys[k].lockedAt < cutoff;
      var kept := keys - stale;
      assert kept.Keys == keys.Keys - stale;
      assert |keys.Keys| == |keys| && |kept.Keys| == |kept|;
      cleared := |keys| - |kept|;
      keys := kept;
      assert keys == SweepLocks(old(Database()), cutoff).keys;
    }

    /** The rules on settlements and keys, in their order. */
    method SweepRows(ttls: Ttls)
      modifies this`settlements, this`ledger, this`inFlight, this`chain, this`keys
      ensures State() == RowPass(old(State()), ttls)
    {
      hide Transients;
      hide Verifieds;
      hide Approvals;
      hide Approveds;
      hide Settlings;
      hide SweepLocks;
      hide ChangedRows;
      ghost var w, n := State(), |settlements|;
      ghost var db1 := Transients(w.db, n, now - ttls.transient, now);
      ghost var db2 := Verifieds(db1, n, now - ttls.verified, now);
      ghost var db3 := Approvals(db2, n, ttls.approval, now);
      ghost var w4 := Approveds(w.(db := db3), n, now - ttls.approved, ttls.maxKicks);
      ghost var w5 := Settlings(w4, n, now - ttls.settling);
      assert RowPass(w, ttls) == w5.(db := SweepLocks(w5.db, w.now - ttls.lock));
      hide RowPass;
      var transients := SweepTransients(now - ttls.transient);
      assert Database() == db1;
      var verified := SweepStaleVerified(now - ttls.verified);
      assert Database() == db2;
      var expired := SweepExpiredApprovals(ttls.approval);
      assert State() == w.(db := db3);
      var abandoned, kicked := SweepStaleApproved(now - ttls.approved, ttls.maxKicks);
      assert State() == w4;
      SweepStuckSettling(now - ttls.settling);
      assert State() == w5;
      var cleared := SweepStaleLocks(now - ttls.lock);
    }

    /** `sweepStaleAttempts` on one row: poll the provider about its order, or give it up. */
    method PollAttempt(a: nat, cutoff: int, replies: map<nat, Reply>)
      modifies this
      ensures State() == SweptAttempt(old(State()), a, cutoff, replies)
      ensures |attempts| == |old(attempts)|
    {
      hide FetchStart;
      hide FetchAnswer;
      hide RefundAnswer;
      hide SweepAttempt;
      PollKeepsRows(State(), a, cutoff, replies);
      if a >= |attempts| || attempts[a].createdAt >= cutoff { return; }
      if attempts[a].state != Initiated && attempts[a].state != AwaitingConfirmation { return; }
      if attempts[a].orderId.None? {
        var failed := SweepStaleAttempt(a, cutoff);
      } else {
        var t, reply := FreeFrom(tasks.Keys, 0), if a in replies then replies[a] else Reply(FetchThrew, false);
        StartReconcile(t, attempts[a].orderId.value);
        ReconcileReplied(t, reply.payments);
        RefundReplied(t, reply.refunded);
      }
    }

    /** The loop over the stale attempts. */
    method SweepStaleAttempts(cutoff: int, replies: map<nat, Reply>)
      modifies this
      ensures State() == StaleAttempts(old(State()), |old(attempts)|, cutoff, replies)
    {
      hide SweptAttempt;
      var n := |attempts|;
      for a := 0 to n
        invariant |attempts| == n
        invariant State() == StaleAttempts(old(State()), a, cutoff, replies)
      {
        PollAttempt(a, cutoff, replies);
      }
    }

    /** `runOnce`: all seven rules in their order. */
    method SweepOnce(ttls: Ttls, tick: Tick)
      modifies this
      ensures State() == OnePass(old(State()), ttls, tick)
    {
      hide StaleAttempts;
      hide RowPass;
      SetNow(tick.now);
      SweepStaleAttempts(tick.now - ttls.attempt, tick.replies);
      SweepRows(ttls);
    }

    // -------------------------------------------------------------- the event loop

    method SetNow(t: int)
      modifies this`now
      ensures State() == old(State()).(now := t)
    {
      now := t;
    }

    method MintCeremonyToken(t: Text)
      modifies this`tokens
      ensures Database() == old(Database()).(tokens := old(tokens) + {t})
    {
      tokens := tokens + {t};
    }

    /** Registering a merchant leaves one that is there alone; a rescan overwrites it. */
    method StoreCatalog(merchant: Text, prices: Option<map<Text, int>>, rescan: bool)
      modifies this`catalogs
      ensures Database() ==
        if merchant in old(catalogs) && !rescan then old(Database())
        else old(Database()).(catalogs := old(catalogs)[merchant := prices])
    {
      if rescan || merchant !in catalogs { catalogs := catalogs[merchant := prices]; }
    }

    /** One request or answer of a client, the timer or the operating system. */
    method PerformRequest(s: Step)
      requires s.SetClock? || s.Crash? || s.MintToken? || s.AddCatalog? || s.Note? || s.RegisterStep? || s.RevokeStep?
        || s.PostStep? || s.ApproveStep?
      modifies this
      ensures State() == Next(old(State()), s)
    {
      hide Register;
      hide Revoke;
      hide Approve;
      hide CreateSettlement;
      match s {
        case SetClock(t) => SetNow(t);
        case Crash => Crash();
        case MintToken(t) => MintCeremonyToken(t);
        case AddCatalog(m, p, rescan) => StoreCatalog(m, p, rescan);
        case Note(kind, about) => AppendLedger(Noted(kind, about));
        case RegisterStep(i, c, t) => var ok := RegisterMandate(i, c, t);
        case RevokeStep(m, sig) => var ok := RevokeMandate(m, sig);
        case ApproveStep(i, h, d, sig) => var ok := DecideApproval(i, h, d, sig);
        case PostStep(k, h, i, c, dies) =>
          if dies {
            var claim := ClaimIdempotencyKey(k, h);
            if claim == Claimed { Crash(); }
          } else {
            var answer := PostSettlement(k, h, i, c);
          }
      }
    }

    /** One turn of the executor. */
    method PerformRun(s: Step)
      requires OfRun(s)
      modifies this
      ensures State() == Next(old(State()), s)
    {
      hide StartRun;
      hide LoopStep;
      hide OrderAnswer;
      hide DriverAnswer;
      hide FailStep;
      hide LinkAnswer;
      match s {
        case RunStart => StartNextRun();
        case RunLoop => LoopOn();
        case RunOrder(r) => OrderReplied(r);
        case RunDriver(r) => DriverReplied(r);
        case RunFail => FailRun();
        case RunLink(r) => LinkReplied(r);
      }
    }

    predicate OfReconcile(s: Step) { s.Fetch? || s.Fetched? || s.Refunded? }

    /** One turn of a waiting reconcile. */
    method PerformReconcile(s: Step)
      requires OfReconcile(s)
      modifies this
      ensures State() == Next(old(State()), s)
    {
      hide FetchStart;
      hide FetchAnswer;
      hide RefundAnswer;
      match s {
        case Fetch(t, o) => StartReconcile(t, o);
        case Fetched(t, p) => ReconcileReplied(t, p);
        case Refunded(t, ok) => RefundReplied(t, ok);
      }
    }

    /** One stale attempt is given up. */
    method PerformGiveUp(s: Step)
      requires s.SweepAttemptStep?
      modifies this
      ensures State() == Next(old(State()), s)
    {
      hide SweepAttempt;
      var failed := SweepStaleAttempt(s.attempt, s.cutoff);
    }

    predicate OfAging(s: Step) { s.SweepTransientStep? || s.SweepVerifiedStep? || s.SweepApprovalStep? }

    /** One row of the rules that end what waited too long. */
    method PerformAging(s: Step)
      requires OfAging(s)
      modifies this
      ensures State() == Next(old(State()), s)
    {
      hide SweepTransient;
      hide SweepVerified;
      hide SweepApproval;
      match s {
        case SweepTransientStep(i, c) => var done := SweepTransientRow(i, c);
        case SweepVerifiedStep(i, c) => var done := SweepVerifiedRow(i, c);
        case SweepApprovalStep(i, ttl) => var done := SweepApprovalRow(i, ttl);
      }
    }

    predicate OfKicking(s: Step) { s.SweepApprovedStep? || s.SweepSettlingStep? || s.SweepLocksStep? }

    /** One row of the rules that wake the executor, or the deletion of stale locks. */
    method PerformKicking(s: Step)
      requires OfKicking(s)
      modifies this
      ensures State() == Next(old(State()), s)
    {
      hide SweepApproved;
      hide SweepSettling;
      hide SweepLocks;
      match s {
        case SweepApprovedStep(i, c, k) => var abandoned, kicked := SweepApprovedRow(i, c, k);
        case SweepSettlingStep(i, c) => SweepSettlingRow(i, c);
        case SweepLocksStep(c) => var cleared := SweepStaleLocks(c);
      }
    }

    /** The process makes the steps of the protocol and no others, so all that every run keeps, it keeps. */
    method Serve(steps: seq<Step>)
      requires Inv(State())
      modifies this
      ensures State() == Run(old(State()), steps)
      ensures Inv(State())
    {
      hide Next;
      hide Inv;
      ghost var w := State();
      assert steps[..0] == [];
      for k := 0 to |steps|
        invariant State() == Run(w, steps[..k])
        invariant Inv(State())
      {
        var s := steps[k];
        ghost var before := State();
        if OfRun(s) {
          PerformRun(s);
        } else if OfReconcile(s) {
          PerformReconcile(s);
        } else if s.SweepAttemptStep? {
          PerformGiveUp(s);
        } else if OfAging(s) {
          PerformAging(s);
        } else if OfKicking(s) {
          PerformKicking(s);
        } else {
          PerformRequest(s);
        }
        StepInv(before, s);
        assert steps[..k + 1] == steps[..k] + [s];
        RunLast(w, steps[..k], s);
      }
      assert steps[..|steps|] == steps;
    }
  }

  /** Polling adds and removes no attempt row. */
  lemma PollKeepsRows(w: World, a: nat, cutoff: int, replies: map<nat, Reply>)
    ensures |SweptAttempt(w, a, cutoff, replies).db.attempts| == |w.db.attempts|
  {
    hide ByOrder;
    hide FetchAnswer;
    if a < |w.db.attempts| && w.db.attempts[a].orderId.Some? {
      var t, reply := FreeFrom(w.tasks.Keys, 0), if a in replies then replies[a] else Reply(FetchThrew, false);
      AnswerKeepsRows(FetchStart(w, t, w.db.attempts[a].orderId.value), t, reply.payments);
    }
  }

  lemma AnswerKeepsRows(w: World, t: nat, payments: Payments)
    ensures |FetchAnswer(w, t, payments).db.attempts| == |w.db.attempts|
  {
    hide HasAttempt;
    hide AlreadyRefunded;
    hide InState;
  }

  lemma {:induction false} FirstStaysFirst(attempts: seq<Attempt>, k: nat, orderId: Text)
    requires k <= |attempts| && ByOrder(attempts[..k], orderId).Some?
    ensures ByOrder(attempts, orderId) == ByOrder(attempts[..k], orderId)
    decreases |attempts|
  {
    if k == |attempts| {
      assert attempts[..k] == attempts;
    } else {
      assert attempts[..|attempts| - 1][..k] == attempts[..k];
      FirstStaysFirst(attempts[..|attempts| - 1], k, orderId);
    }
  }

  /** How many of the first n rows differ. */
  function ChangedRows(a: seq<Settlement>, b: seq<Settlement>, n: nat): nat
    requires n <= |a| == |b|
  {
    if n == 0 then 0 else ChangedRows(a, b, n - 1) + if a[n - 1] != b[n - 1] then 1 else 0
  }

  /** Rewriting row i leaves the count below it. */
  lemma {:induction false} ChangedBelow(a: seq<Settlement>, b: seq<Settlement>, b': seq<Settlement>, n: nat)
    requires n <= |a| == |b| == |b'| && b'[..n] == b[..n]
    ensures ChangedRows(a, b', n) == ChangedRows(a, b, n)
  {
    if n > 0 {
      assert b'[n - 1] == b'[..n][n - 1] == b[n - 1];
      assert b'[..n - 1] == b'[..n][..n - 1] == b[..n - 1];
      ChangedBelow(a, b, b', n - 1);
    }
  }

  lemma OneMoreChanged(a: seq<Settlement>, b: seq<Settlement>, b': seq<Settlement>, i: nat)
    requires i < |a| == |b| == |b'| && b'[..i] == b[..i]
    ensures ChangedRows(a, b', i + 1) == ChangedRows(a, b, i) + if a[i] != b'[i] then 1 else 0
  {
    ChangedBelow(a, b, b', i);
  }
}
