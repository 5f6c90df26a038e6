/** The facilitator's database (packages/facilitator/src/db/schema.sql) as values, with its
    transition tables and the sums its queries take. Settlement and attempt ids are row numbers,
    which stand for fresh UUIDs. */
module Schema {
  import opened Options
  import opened Texts
  import opened Crypto
  import opened Mandates
  import opened Verify

  datatype SettlementState =
    | Created | Verifying | Verified | PendingApproval | Approved | Settling
    | Captured | Failed | Rejected | Abandoned

  datatype AttemptState = Initiated | AwaitingConfirmation | AttemptCaptured | AttemptFailed | Superseded

  function SettlementEdges(s: SettlementState): set<SettlementState> {
    match s
    case Created => {Verifying, Abandoned}
    case Verifying => {Verified, Rejected, Abandoned}
    case Verified => {PendingApproval, Approved, Abandoned}
    case PendingApproval => {Approved, Rejected, Abandoned}
    case Approved => {Settling, Rejected, Abandoned}
    case Settling => {Captured, Failed, Abandoned}
    case _ => {}
  }

  function AttemptEdges(s: AttemptState): set<AttemptState> {
    match s
    case Initiated => {AwaitingConfirmation, AttemptCaptured, AttemptFailed, Superseded}
    case AwaitingConfirmation => {AttemptCaptured, AttemptFailed, Superseded}
    case _ => {}
  }

  predicate Terminal(s: SettlementState) { s in {Captured, Failed, Rejected, Abandoned} }

  /** The rows of the index one_live_settlement_per_mandate. */
  predicate Live(s: SettlementState) { !Terminal(s) }

  /** The rows of the index one_settlement_per_cart. */
  predicate HoldsCart(s: SettlementState) { s !in {Failed, Rejected, Abandoned} }

  /** The rows of the index one_active_attempt. */
  predicate Active(s: AttemptState) { s == Initiated || s == AwaitingConfirmation }

  // ---------------------------------------------------------------- rows

  const ONE: Text := [49]

  /** Documents as the request schemas let them in (packages/facilitator/src/schemas.ts). */
  type SignedIntent = i: Intent | IntentSchema(i) && i.currency == INR
    witness Intent(ONE, ONE, 1, 0, INR, [ONE], 0, ONE, None, None, None, Ed25519Sig(ONE))
  type SignedCart = c: Cart | CartSchema(c)
    witness Cart(ONE, ONE, [Item(ONE, 1, 1, None, None)], 1, ONE, ONE)

  datatype Mandate = Mandate(intent: SignedIntent, credential: Credential, revokedAt: Option<int>)

  datatype Settlement = Settlement(
    mandateId: Text,
    cart: SignedCart,
    cartHash: Text,
    amount: int,
    merchantId: Text,
    state: SettlementState,
    createdAt: int,
    enteredAt: map<SettlementState, int>,
    kicks: nat)

  datatype Method = CheckoutDriver | PaymentLink

  datatype Attempt = Attempt(
    settlement: nat,
    via: Method,
    state: AttemptState,
    orderId: Option<Text>,
    paymentId: Option<Text>,
    createdAt: int)

  datatype Decision = Granted | Refused

  datatype Approval = Approval(decision: Decision, cartHash: Text, expiresAt: int)

  datatype ApiError = NO_SUCH_MANDATE | CART_TAKEN | ALLOWANCE_RESERVED

  datatype Body =
    | SettlementBody(settlement: nat, state: SettlementState, reason: Option<Code>)
    | ErrorBody(error: ApiError)

  datatype Response = Response(status: int, body: Body)

  datatype KeyRow = KeyRow(requestHash: Text, settlement: Option<nat>, lockedAt: int, response: Option<Response>)

  datatype Why = StrandedTransient | VerifiedTimeout | MandateExpired | KickLimitExceeded | ApprovalTimeout

  datatype Flag = LinkCreateFailed | FetchFailed | RefundFailed | SettlingNoActiveAttempt | WebhookReconcileFailed

  /** The events that only leave a trace. */
  datatype NoteKind = WebhookReceived | WebhookRejected | RefundIssued | AgentDecision

  /** The events of `ledger_events`, with the part of each payload that the code reads back. */
  datatype Event =
    | MandateRegistered(mandateId: Text)
    | MandateRevoked(mandateId: Text)
    | VerifyPassed(settlement: nat)
    | VerifyRejected(settlement: nat, code: Code)
    | ApprovalRequested(settlement: nat)
    | ApprovalGranted(settlement: nat)
    | ApprovalRejected(settlement: nat)
    | ApprovalExpired(settlement: nat)
    | SettlementAbandoned(settlement: nat, why: Why)
    | AttemptInitiated(settlement: nat, attempt: nat)
    | PaymentCaptured(settlement: nat, attempt: nat, paymentId: Text)
    | PaymentFailed(settlement: nat, attempt: nat)
    | PaymentLinkIssued(settlement: nat, attempt: nat)
    | AnomalyRefundIssued(settlement: nat, attempt: nat, paymentId: Text)
    | ReconciliationFlagged(about: Option<nat>, flag: Flag)
    | Noted(kind: NoteKind, about: Option<nat>)

  /** `catalogs` is the table of merchants: the prices of each, when it has any. */
  datatype Db = Db(
    tokens: set<Text>,
    catalogs: map<Text, Option<map<Text, int>>>,
    mandates: map<Text, Mandate>,
    settlements: seq<Settlement>,
    attempts: seq<Attempt>,
    approvals: map<nat, Approval>,
    keys: map<Text, KeyRow>,
    ledger: seq<Event>)

  const EMPTY := Db({}, map[], map[], [], [], map[], map[], [])

  // ---------------------------------------------------------------- queries

  /** A row's share of a sum. */
  type Weight = (nat, Settlement) -> int

  function Sum(rows: seq<Settlement>, w: Weight): int {
    if rows == [] then 0 else Sum(rows[..|rows| - 1], w) + w(|rows| - 1, rows[|rows| - 1])
  }

  function CapturedOf(m: Text): Weight {
    (i, r: Settlement) => if r.mandateId == m && r.state == Captured then r.amount else 0
  }

  function CapturedAt(m: Text, merchant: Text): Weight {
    (i, r: Settlement) => if r.mandateId == m && r.merchantId == merchant && r.state == Captured then r.amount else 0
  }

  /** `getCapturedSpend` */
  function Spent(rows: seq<Settlement>, m: Text): int { Sum(rows, CapturedOf(m)) }

  /** `getCapturedSpendAtMerchant` */
  function SpentAt(rows: seq<Settlement>, m: Text, merchant: Text): int { Sum(rows, CapturedAt(m, merchant)) }

  /** Rewriting one row moves a sum by the difference of that row's shares. */
  lemma {:induction false} SumUpdate(rows: seq<Settlement>, rows': seq<Settlement>, w: Weight, w': Weight, i: nat)
    requires |rows| == |rows'| && i < |rows|
    requires forall j :: 0 <= j < |rows| && j != i ==> w'(j, rows'[j]) == w(j, rows[j])
    ensures Sum(rows', w') == Sum(rows, w) - w(i, rows[i]) + w'(i, rows'[i])
  {
    var n := |rows| - 1;
    if i == n {
      SumSame(rows[..n], rows'[..n], w, w');
    } else {
      SumUpdate(rows[..n], rows'[..n], w, w', i);
    }
  }

  lemma {:induction false} SumSame(rows: seq<Settlement>, rows': seq<Settlement>, w: Weight, w': Weight)
    requires |rows| == |rows'|
    requires forall j :: 0 <= j < |rows| ==> w'(j, rows'[j]) == w(j, rows[j])
    ensures Sum(rows', w') == Sum(rows, w)
  {
    if rows != [] {
      var n := |rows| - 1;
      SumSame(rows[..n], rows'[..n], w, w');
    }
  }

  lemma SumAppend(rows: seq<Settlement>, r: Settlement, w: Weight)
    ensures Sum(rows + [r], w) == Sum(rows, w) + w(|rows|, r)
  {
    assert (rows + [r])[..|rows|] == rows;
  }

  /** Sums keep the order of their weights. */
  lemma {:induction false} SumOrder(rows: seq<Settlement>, w: Weight, w': Weight)
    requires forall j :: 0 <= j < |rows| ==> w(j, rows[j]) <= w'(j, rows[j])
    ensures Sum(rows, w) <= Sum(rows, w')
  {
    if rows != [] { SumOrder(rows[..|rows| - 1], w, w'); }
  }

  lemma {:induction false} SumZero(rows: seq<Settlement>, w: Weight)
    requires forall j :: 0 <= j < |rows| ==> w(j, rows[j]) == 0
    ensures Sum(rows, w) == 0
  {
    if rows != [] { SumZero(rows[..|rows| - 1], w); }
  }

  function CapturedAmong(m: Text, merchants: seq<Text>): Weight {
    (i, r: Settlement) => if r.mandateId == m && r.merchantId in merchants && r.state == Captured then r.amount else 0
  }

  function SpentAmong(rows: seq<Settlement>, m: Text, merchants: seq<Text>): int {
    if merchants == [] then 0
    else SpentAmong(rows, m, merchants[1..]) + SpentAt(rows, m, merchants[0])
  }

  lemma {:induction false} SumSplits(rows: seq<Settlement>, w: Weight, w1: Weight, w2: Weight)
    requires forall j :: 0 <= j < |rows| ==> w(j, rows[j]) == w1(j, rows[j]) + w2(j, rows[j])
    ensures Sum(rows, w) == Sum(rows, w1) + Sum(rows, w2)
  {
    if rows != [] { SumSplits(rows[..|rows| - 1], w, w1, w2); }
  }

  lemma {:induction false} AmongIsSum(rows: seq<Settlement>, m: Text, merchants: seq<Text>)
    requires forall j, k :: 0 <= j < k < |merchants| ==> merchants[j] != merchants[k]
    ensures SpentAmong(rows, m, merchants) == Sum(rows, CapturedAmong(m, merchants))
    decreases |merchants|
  {
    if merchants == [] {
      SumZero(rows, CapturedAmong(m, merchants));
    } else {
      AmongIsSum(rows, m, merchants[1..]);
      assert merchants[0] !in merchants[1..];
      SumSplits(rows, CapturedAmong(m, merchants), CapturedAmong(m, merchants[1..]), CapturedAt(m, merchants[0]));
    }
  }

  /** What a mandate spent is what it spent at its merchants, each taken once. */
  lemma MerchantsMakeUpTheSpend(rows: seq<Settlement>, m: Text, merchants: seq<Text>)
    requires forall j, k :: 0 <= j < k < |merchants| ==> merchants[j] != merchants[k]
    requires forall i :: 0 <= i < |rows| && rows[i].mandateId == m && rows[i].state == Captured ==>
      rows[i].merchantId in merchants
    ensures SpentAmong(rows, m, merchants) == Spent(rows, m)
  {
    AmongIsSum(rows, m, merchants);
    SumSame(rows, rows, CapturedAmong(m, merchants), CapturedOf(m));
  }

  /** `getCapturedSpendByMandate`: one pass that groups captured rows by mandate. */
  function SpentByMandate(rows: seq<Settlement>): map<Text, int> {
    if rows == [] then map[]
    else
      var before, r := SpentByMandate(rows[..|rows| - 1]), rows[|rows| - 1];
      if r.state != Captured then before
      else before[r.mandateId := (if r.mandateId in before then before[r.mandateId] else 0) + r.amount]
  }

  /** The grouped map and the per-mandate sum never drift. */
  lemma {:induction false} BatchedSpendAgrees(rows: seq<Settlement>, m: Text)
    ensures (if m in SpentByMandate(rows) then SpentByMandate(rows)[m] else 0) == Spent(rows, m)
    ensures m in SpentByMandate(rows) <==>
      exists i :: 0 <= i < |rows| && rows[i].mandateId == m && rows[i].state == Captured
  {
    if rows != [] {
      var before := rows[..|rows| - 1];
      BatchedSpendAgrees(before, m);
      if m in SpentByMandate(before) {
        var i :| 0 <= i < |before| && before[i].mandateId == m && before[i].state == Captured;
        assert rows[i] == before[i];
      }
      if m in SpentByMandate(rows) && m !in SpentByMandate(before) { assert rows[|rows| - 1].mandateId == m; }
      if i :| 0 <= i < |rows| && rows[i].mandateId == m && rows[i].state == Captured {
        if i < |before| { assert before[i] == rows[i]; }
      }
    }
  }
}
