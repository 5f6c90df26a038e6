/** The hash chain and the account together: the facilitator's events as the rows they are stored
    in, and one head hash that pins the outcome of every settlement. */
module Audit {
  import opened Options
  import opened Texts
  import opened CanonicalJson
  import opened Crypto
  import opened Schema
  import opened Protocol
  import opened Effects
  import opened Account
  import opened Safety
  import Ledger

  const PAYMENT_CAPTURED := Lit("payment_captured")
  const VERIFY_REJECTED := Lit("verify_rejected")
  const APPROVAL_REJECTED := Lit("approval_rejected")
  const SETTLEMENT_ABANDONED := Lit("settlement_abandoned")
  const APPROVAL_EXPIRED := Lit("approval_expired")

  /** The terminal state that an event type reports, if any. */
  function OutcomeType(eventType: Text): Option<SettlementState> {
    if eventType == PAYMENT_CAPTURED then Some(Captured)
    else if eventType == VERIFY_REJECTED || eventType == APPROVAL_REJECTED then Some(Rejected)
    else if eventType == SETTLEMENT_ABANDONED || eventType == APPROVAL_EXPIRED then Some(Abandoned)
    else None
  }

  /** The `event_type` column. */
  function TypeName(e: Event): Text {
    match e
    case MandateRegistered(_) => Lit("mandate_registered")
    case MandateRevoked(_) => Lit("mandate_revoked")
    case VerifyPassed(_) => Lit("verify_passed")
    case VerifyRejected(_, _) => VERIFY_REJECTED
    case ApprovalRequested(_) => Lit("approval_requested")
    case ApprovalGranted(_) => Lit("approval_granted")
    case ApprovalRejected(_) => APPROVAL_REJECTED
    case ApprovalExpired(_) => APPROVAL_EXPIRED
    case SettlementAbandoned(_, _) => SETTLEMENT_ABANDONED
    case AttemptInitiated(_, _) => Lit("attempt_initiated")
    case PaymentCaptured(_, _, _) => PAYMENT_CAPTURED
    case PaymentFailed(_, _) => Lit("payment_failed")
    case PaymentLinkIssued(_, _) => Lit("payment_link_issued")
    case AnomalyRefundIssued(_, _, _) => Lit("anomaly_refund_issued")
    case ReconciliationFlagged(_, _) => Lit("reconciliation_flagged")
    case Noted(WebhookReceived, _) => Lit("webhook_received")
    case Noted(WebhookRejected, _) => Lit("webhook_rejected")
    case Noted(RefundIssued, _) => Lit("refund_issued")
    case Noted(AgentDecision, _) => Lit("agent_decision")
  }

  /** The `settlement_id` column. */
  function SettlementOf(e: Event): Option<Text> {
    match e
    case MandateRegistered(_) => None
    case MandateRevoked(_) => None
    case Noted(_, about) => if about.Some? then Some(Decimal(about.value)) else None
    case ReconciliationFlagged(about, _) => if about.Some? then Some(Decimal(about.value)) else None
    case _ => Some(Decimal(e.settlement))
  }

  /** What `appendLedger` is handed for an event: its type and settlement, with the actor and the
      payload that its writer chose. */
  datatype Written = Written(event: Event, actor: Text, payload: map<Text, Json>)

  function EntryOf(w: Written): Ledger.Entry {
    Ledger.Entry(TypeName(w.event), SettlementOf(w.event), w.actor, w.payload)
  }

  predicate Storable(log: seq<Written>) { forall k :: 0 <= k < |log| ==> Canonical(Obj(log[k].payload)) }

  function EntriesOf(log: seq<Written>): seq<Ledger.Entry> {
    seq(|log|, k requires 0 <= k < |log| => EntryOf(log[k]))
  }

  function EventsOf(log: seq<Written>): seq<Event> {
    seq(|log|, k requires 0 <= k < |log| => log[k].event)
  }

  /** The stored entry says what the event says about terminal states; actor and payload are free. */
  predicate Records(entry: Ledger.Entry, e: Event) {
    match OutcomeOf(e)
    case None => OutcomeType(entry.eventType) == None
    case Some(o) => OutcomeType(entry.eventType) == Some(o.state) && entry.settlementId == Some(Decimal(o.settlement))
  }

  /** The event types that report an outcome are told apart from all others. */
  lemma TypesTellOutcomes(e: Event)
    ensures OutcomeType(TypeName(e)) == if OutcomeOf(e).Some? then Some(OutcomeOf(e).value.state) else None
  {
    OutcomeNames();
    match e
    case PaymentCaptured(_, _, _) =>
    case VerifyRejected(_, _) =>
    case ApprovalRejected(_) =>
    case SettlementAbandoned(_, _) =>
    case ApprovalExpired(_) =>
    case MandateRevoked(_) => assert Lit("mandate_revoked")[0] == 109;
    case ApprovalGranted(_) => assert Lit("approval_granted")[9] == 103;
    case AttemptInitiated(_, _) => assert Lit("attempt_initiated")[1] == 116;
    case Noted(WebhookReceived, _) => assert Lit("webhook_received")[0] == 119;
    case Noted(WebhookRejected, _) => assert Lit("webhook_rejected")[0] == 119;
    case _ =>
  }

  lemma OutcomeNames()
    ensures |PAYMENT_CAPTURED| == 16 && PAYMENT_CAPTURED[0] == 112 && PAYMENT_CAPTURED[9] == 97
    ensures |APPROVAL_EXPIRED| == 16 && APPROVAL_EXPIRED[0] == 97 && APPROVAL_EXPIRED[9] == 101
    ensures |VERIFY_REJECTED| == 15 && VERIFY_REJECTED[0] == 118
    ensures |APPROVAL_REJECTED| == 17 && APPROVAL_REJECTED[1] == 112
    ensures |SETTLEMENT_ABANDONED| == 20
  {}

  lemma EntryRecords(w: Written)
    ensures Records(EntryOf(w), w.event)
  {
    TypesTellOutcomes(w.event);
    hide TypeName;
    hide OutcomeType;
    hide Decimal;
  }

  predicate RecordsAll(entries: seq<Ledger.Entry>, events: seq<Event>) {
    && |entries| == |events|
    && (forall k :: 0 <= k < |entries| ==> Canonical(Obj(entries[k].payload)))
    && (forall k :: 0 <= k < |entries| ==> Records(entries[k], events[k]))
  }

  lemma DecimalIsInjective(a: int, b: int)
    requires Decimal(a) == Decimal(b)
    ensures a == b
  {
    NumberRoundTrip(a, []);
    NumberRoundTrip(b, []);
  }

  lemma SameOutcome(x: Ledger.Entry, e: Event, y: Ledger.Entry, f: Event)
    requires Records(x, e) && Records(y, f) && x.eventType == y.eventType && x.settlementId == y.settlementId
    ensures OutcomeOf(e) == OutcomeOf(f)
  {
    hide Decimal;
    hide Lit;
    if OutcomeOf(e).Some? { DecimalIsInjective(OutcomeOf(e).value.settlement, OutcomeOf(f).value.settlement); }
  }

  /** The stored row keeps the entry's type and settlement. */
  lemma {:induction false} BuiltRow(entries: seq<Ledger.Entry>, k: nat)
    requires k < |entries| && forall j :: 0 <= j < |entries| ==> Canonical(Obj(entries[j].payload))
    ensures |Ledger.Build(entries)| == |entries|
    ensures Ledger.Build(entries)[k].eventType == entries[k].eventType
    ensures Ledger.Build(entries)[k].settlementId == entries[k].settlementId
    decreases |entries|
  {
    hide Ledger.HeadFrom;
    hide Ledger.RowHash;
    hide Encode;
    var front := entries[..|entries| - 1];
    Ledger.BuiltLogLength(entries);
    Ledger.BuiltLogLength(front);
    if k < |front| {
      BuiltRow(front, k);
      hide Ledger.NewRow;
    }
  }

  lemma {:induction false} SameReplay(a: seq<Event>, b: seq<Event>)
    requires |a| == |b| && forall k :: 0 <= k < |a| ==> OutcomeOf(a[k]) == OutcomeOf(b[k])
    ensures Replay(a) == Replay(b)
  {
    if a != [] { SameReplay(a[..|a| - 1], b[..|b| - 1]); }
  }

  /** Whoever holds the same head hash reads the same account of every settlement out of the log. */
  lemma HeadPinsTheAccount(x: seq<Ledger.Entry>, a: seq<Event>, y: seq<Ledger.Entry>, b: seq<Event>)
    requires RecordsAll(x, a) && RecordsAll(y, b)
    requires Ledger.HeadFrom(Ledger.Build(x), GENESIS) == Ledger.HeadFrom(Ledger.Build(y), GENESIS)
    ensures Replay(a) == Replay(b)
  {
    Ledger.BuiltLogVerifies(x);
    Ledger.BuiltLogVerifies(y);
    Ledger.BuiltLogLength(x);
    Ledger.BuiltLogLength(y);
    Ledger.SameHeadSameLog(Ledger.Build(x), Ledger.Build(y));
    forall k | 0 <= k < |a| ensures OutcomeOf(a[k]) == OutcomeOf(b[k]) {
      BuiltRow(x, k);
      BuiltRow(y, k);
      assert Ledger.SameContent(Ledger.Build(x)[k], Ledger.Build(y)[k]);
      SameOutcome(x[k], a[k], y[k], b[k]);
    }
    SameReplay(a, b);
  }

  /** The same for the events as they are written: whatever actors and payloads go with them. */
  lemma HeadPinsTheLog(x: seq<Written>, y: seq<Written>)
    requires Storable(x) && Storable(y)
    requires Ledger.HeadFrom(Ledger.Build(EntriesOf(x)), GENESIS) ==
      Ledger.HeadFrom(Ledger.Build(EntriesOf(y)), GENESIS)
    ensures Replay(EventsOf(x)) == Replay(EventsOf(y))
  {
    hide TypeName;
    hide SettlementOf;
    hide Records;
    forall k | 0 <= k < |x| ensures Records(EntriesOf(x)[k], EventsOf(x)[k]) { EntryRecords(x[k]); }
    forall k | 0 <= k < |y| ensures Records(EntriesOf(y)[k], EventsOf(y)[k]) { EntryRecords(y[k]); }
    HeadPinsTheAccount(EntriesOf(x), EventsOf(x), EntriesOf(y), EventsOf(y));
  }

  /** The terminal settlements of a database and their states. */
  function TerminalStates(db: Db): map<nat, SettlementState> {
    map i | 0 <= i < |db.settlements| && Terminal(db.settlements[i].state) :: db.settlements[i].state
  }

  /** Two facilitators, wherever their runs have gone, that show one head hash have the same
      terminal settlements in the same states. */
  lemma HeadPinsTheSettlements(w: World, x: seq<Written>, w': World, y: seq<Written>)
    requires Reachable(w) && Reachable(w') && EventsOf(x) == w.db.ledger && EventsOf(y) == w'.db.ledger
    requires Storable(x) && Storable(y)
    requires Ledger.HeadFrom(Ledger.Build(EntriesOf(x)), GENESIS) ==
      Ledger.HeadFrom(Ledger.Build(EntriesOf(y)), GENESIS)
    ensures TerminalStates(w.db) == TerminalStates(w'.db)
  {
    HeadPinsTheLog(x, y);
    LedgerIsTheAccount(w, 0);
    LedgerIsTheAccount(w', 0);
    hide Reachable;
    hide Replay;
  }
}
