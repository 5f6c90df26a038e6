/** One pass of the sweep (packages/facilitator/src/sweep.ts:343-353), rule by rule and row by row,
    and how many passes it takes to converge. */
module Sweep {
  import opened Options
  import opened Texts
  import opened Mandates
  import opened Verify
  import opened Schema
  import opened Protocol
  import opened Tables
  import opened Effects

  /** Limits in whole seconds. */
  datatype Ttls = Ttls(
    attempt: int,
    transient: int,
    verified: int,
    approval: int,
    approved: int,
    settling: int,
    lock: int,
    maxKicks: nat)

  const DEFAULT_TTLS := Ttls(90, 60, 900, 1800, 60, 60, 300, 3)

  /** What the provider answers to the reconcile of one attempt, and to its refund if there is one. */
  datatype Reply = Reply(payments: Payments, refunded: bool)

  /** A tick of the sweep's timer: its clock and the provider's answers. */
  datatype Tick = Tick(now: int, replies: map<nat, Reply>)

  /** The number of a new task: the first from n on that no waiting reconcile has. */
  function FreeFrom(taken: set<nat>, n: nat): (t: nat)
    ensures t >= n && t !in taken
    decreases taken
  {
    if n in taken then FreeFrom(taken - {n}, n + 1) else n
  }

  /** The rule on one attempt: poll the provider about its order, or give up an attempt without one. */
  function SweptAttempt(w: World, a: nat, cutoff: int, replies: map<nat, Reply>): World {
    if a >= |w.db.attempts| || !Active(w.db.attempts[a].state) || w.db.attempts[a].createdAt >= cutoff then w
    else if w.db.attempts[a].orderId.None? then w.(db := SweepAttempt(w.db, a, cutoff))
    else
      var t, reply := FreeFrom(w.tasks.Keys, 0), if a in replies then replies[a] else Reply(FetchThrew, false);
      var asked := FetchStart(w, t, w.db.attempts[a].orderId.value);
      RefundAnswer(FetchAnswer(asked, t, reply.payments), t, reply.refunded)
  }

  function StaleAttempts(w: World, n: nat, cutoff: int, replies: map<nat, Reply>): World {
    if n == 0 then w else SweptAttempt(StaleAttempts(w, n - 1, cutoff, replies), n - 1, cutoff, replies)
  }

  function Transients(db: Db, n: nat, cutoff: int, now: int): Db {
    if n == 0 then db else SweepTransient(Transients(db, n - 1, cutoff, now), n - 1, cutoff, now)
  }

  function Verifieds(db: Db, n: nat, cutoff: int, now: int): Db {
    if n == 0 then db else SweepVerified(Verifieds(db, n - 1, cutoff, now), n - 1, cutoff, now)
  }

  function Approvals(db: Db, n: nat, ttl: int, now: int): Db {
    if n == 0 then db else SweepApproval(Approvals(db, n - 1, ttl, now), n - 1, ttl, now)
  }

  function Approveds(w: World, n: nat, cutoff: int, maxKicks: nat): World {
    if n == 0 then w else SweepApproved(Approveds(w, n - 1, cutoff, maxKicks), n - 1, cutoff, maxKicks)
  }

  function Settlings(w: World, n: nat, cutoff: int): World {
    if n == 0 then w else SweepSettling(Settlings(w, n - 1, cutoff), n - 1, cutoff)
  }

  /** The rules on settlements and keys, in their order. */
  function RowPass(w: World, ttls: Ttls): World {
    var n := |w.db.settlements|;
    var db1 := Transients(w.db, n, w.now - ttls.transient, w.now);
    var db2 := Verifieds(db1, n, w.now - ttls.verified, w.now);
    var db3 := Approvals(db2, n, ttls.approval, w.now);
    var w4 := Approveds(w.(db := db3), n, w.now - ttls.approved, ttls.maxKicks);
    var w5 := Settlings(w4, n, w.now - ttls.settling);
    w5.(db := SweepLocks(w5.db, w.now - ttls.lock))
  }

  /** All seven rules in their order, with nothing in between. */
  function OnePass(w: World, ttls: Ttls, tick: Tick): World {
    var w0 := w.(now := tick.now);
    RowPass(StaleAttempts(w0, |w.db.attempts|, tick.now - ttls.attempt, tick.replies), ttls)
  }

  // ---------------------------------------------------------------- what a pass does to one row

  predicate Expired(mandates: map<Text, Mandate>, r: Settlement, now: int) {
    r.mandateId in mandates && now > mandates[r.mandateId].intent.expiresAt
  }

  predicate PastApproval(mandates: map<Text, Mandate>, r: Settlement, now: int, ttl: int) {
    r.mandateId in mandates && now > Min(PendingSince(r) + ttl, mandates[r.mandateId].intent.expiresAt)
  }

  function Ended(r: Settlement, now: int): Settlement {
    r.(state := Abandoned, enteredAt := r.enteredAt[Abandoned := now])
  }

  function SweptRow(mandates: map<Text, Mandate>, r: Settlement, now: int, ttls: Ttls): Settlement {
    match r.state
    case Created => if r.createdAt < now - ttls.transient then Ended(r, now) else r
    case Verifying => if r.createdAt < now - ttls.transient then Ended(r, now) else r
    case Verified => if EnteredBefore(r, Verified, now - ttls.verified) then Ended(r, now) else r
    case PendingApproval => if PastApproval(mandates, r, now, ttls.approval) then Ended(r, now) else r
    case Approved =>
      if !EnteredBefore(r, Approved, now - ttls.approved) then r
      else if Expired(mandates, r, now) || r.kicks >= ttls.maxKicks then Ended(r, now)
      else r.(kicks := r.kicks + 1)
    case _ => r
  }

  datatype Rule = TransientRule | VerifiedRule | ApprovalRule | ApprovedRule

  /** What one rule does to one row. */
  function Ruled(rule: Rule, mandates: map<Text, Mandate>, r: Settlement, now: int, ttls: Ttls): Settlement {
    match rule
    case TransientRule => if r.state in {Created, Verifying} then SweptRow(mandates, r, now, ttls) else r
    case VerifiedRule => if r.state == Verified then SweptRow(mandates, r, now, ttls) else r
    case ApprovalRule => if r.state == PendingApproval then SweptRow(mandates, r, now, ttls) else r
    case ApprovedRule => if r.state == Approved then SweptRow(mandates, r, now, ttls) else r
  }

  /** The rows below n follow the rule, and nothing else that the rules read changes. */
  ghost predicate Maps(db: Db, db': Db, n: nat, rule: Rule, now: int, ttls: Ttls) {
    && db'.mandates == db.mandates && |db'.settlements| == |db.settlements|
    && forall j :: 0 <= j < |db.settlements| ==>
         db'.settlements[j] ==
           if j < n then Ruled(rule, db.mandates, db.settlements[j], now, ttls) else db.settlements[j]
  }

  /** One more row. */
  predicate MapsRow(db: Db, db': Db, i: nat, rule: Rule, now: int, ttls: Ttls) {
    && i < |db.settlements| && db'.mandates == db.mandates
    && db'.settlements == db.settlements[i := Ruled(rule, db.mandates, db.settlements[i], now, ttls)]
  }

  lemma MapsOneMore(db: Db, mid: Db, db': Db, i: nat, rule: Rule, now: int, ttls: Ttls)
    requires Maps(db, mid, i, rule, now, ttls) && MapsRow(mid, db', i, rule, now, ttls)
    ensures Maps(db, db', i + 1, rule, now, ttls)
  {
    hide Ruled;
  }

  lemma TransientRow(db: Db, i: nat, now: int, ttls: Ttls)
    requires i < |db.settlements|
    ensures MapsRow(db, SweepTransient(db, i, now - ttls.transient, now), i, TransientRule, now, ttls)
  {}

  lemma VerifiedRow(db: Db, i: nat, now: int, ttls: Ttls)
    requires i < |db.settlements|
    ensures MapsRow(db, SweepVerified(db, i, now - ttls.verified, now), i, VerifiedRule, now, ttls)
  {
    hide EnteredBefore;
  }

  lemma ApprovalRow(db: Db, i: nat, now: int, ttls: Ttls)
    requires i < |db.settlements|
    ensures MapsRow(db, SweepApproval(db, i, ttls.approval, now), i, ApprovalRule, now, ttls)
  {
    hide PendingSince;
  }

  lemma ApprovedRow(w: World, i: nat, ttls: Ttls)
    requires i < |w.db.settlements|
    ensures MapsRow(w.db, SweepApproved(w, i, w.now - ttls.approved, ttls.maxKicks).db, i, ApprovedRule, w.now, ttls)
    ensures SweepApproved(w, i, w.now - ttls.approved, ttls.maxKicks).now == w.now
  {
    hide PendingSince;
    hide PastApproval;
    hide EnteredBefore;
  }

  lemma {:induction false} TransientsMap(db: Db, n: nat, now: int, ttls: Ttls)
    requires n <= |db.settlements|
    ensures Maps(db, Transients(db, n, now - ttls.transient, now), n, TransientRule, now, ttls)
  {
    if n == 0 { return; }
    TransientsMap(db, n - 1, now, ttls);
    var mid := Transients(db, n - 1, now - ttls.transient, now);
    TransientRow(mid, n - 1, now, ttls);
    hide MapsRow;
    hide Maps;
    hide SweepTransient;
    MapsOneMore(db, mid, Transients(db, n, now - ttls.transient, now), n - 1, TransientRule, now, ttls);
  }

  lemma {:induction false} VerifiedsMap(db: Db, n: nat, now: int, ttls: Ttls)
    requires n <= |db.settlements|
    ensures Maps(db, Verifieds(db, n, now - ttls.verified, now), n, VerifiedRule, now, ttls)
  {
    if n == 0 { return; }
    VerifiedsMap(db, n - 1, now, ttls);
    var mid := Verifieds(db, n - 1, now - ttls.verified, now);
    VerifiedRow(mid, n - 1, now, ttls);
    hide MapsRow;
    hide Maps;
    hide SweepVerified;
    MapsOneMore(db, mid, Verifieds(db, n, now - ttls.verified, now), n - 1, VerifiedRule, now, ttls);
  }

  lemma {:induction false} ApprovalsMap(db: Db, n: nat, now: int, ttls: Ttls)
    requires n <= |db.settlements|
    ensures Maps(db, Approvals(db, n, ttls.approval, now), n, ApprovalRule, now, ttls)
  {
    if n == 0 { return; }
    ApprovalsMap(db, n - 1, now, ttls);
    var mid := Approvals(db, n - 1, ttls.approval, now);
    ApprovalRow(mid, n - 1, now, ttls);
    hide MapsRow;
    hide Maps;
    hide SweepApproval;
    MapsOneMore(db, mid, Approvals(db, n, ttls.approval, now), n - 1, ApprovalRule, now, ttls);
  }

  lemma {:induction false} ApprovedsMap(w: World, n: nat, ttls: Ttls)
    requires n <= |w.db.settlements|
    ensures Approveds(w, n, w.now - ttls.approved, ttls.maxKicks).now == w.now
    ensures Maps(w.db, Approveds(w, n, w.now - ttls.approved, ttls.maxKicks).db, n, ApprovedRule, w.now, ttls)
  {
    if n == 0 { return; }
    ApprovedsMap(w, n - 1, ttls);
    var mid := Approveds(w, n - 1, w.now - ttls.approved, ttls.maxKicks);
    ApprovedRow(mid, n - 1, ttls);
    hide MapsRow;
    hide Maps;
    hide SweepApproved;
    var end := Approveds(w, n, w.now - ttls.approved, ttls.maxKicks);
    MapsOneMore(w.db, mid.db, end.db, n - 1, ApprovedRule, w.now, ttls);
  }

  lemma {:induction false} SettlingsMap(w: World, n: nat, cutoff: int)
    ensures Settlings(w, n, cutoff).db.settlements == w.db.settlements
    ensures Settlings(w, n, cutoff).db.mandates == w.db.mandates
    ensures Settlings(w, n, cutoff).now == w.now
  {
    hide EnteredBefore;
    hide HasActiveAttempt;
    hide FlaggedStuck;
    if n > 0 { SettlingsMap(w, n - 1, cutoff); }
  }

  /** At most one rule applies to a row. */
  lemma RulesCompose(mandates: map<Text, Mandate>, r: Settlement, now: int, ttls: Ttls)
    ensures var r1 := Ruled(TransientRule, mandates, r, now, ttls);
      var r2 := Ruled(VerifiedRule, mandates, r1, now, ttls);
      var r3 := Ruled(ApprovalRule, mandates, r2, now, ttls);
      Ruled(ApprovedRule, mandates, r3, now, ttls) == SweptRow(mandates, r, now, ttls)
  {}

  /** The rules on settlements treat every row by its own state, whatever happened to the others. */
  lemma RowPassIsRowwise(w: World, ttls: Ttls)
    ensures var w' := RowPass(w, ttls);
      && w'.now == w.now && w'.db.mandates == w.db.mandates && |w'.db.settlements| == |w.db.settlements|
      && forall i :: 0 <= i < |w.db.settlements| ==>
           w'.db.settlements[i] == SweptRow(w.db.mandates, w.db.settlements[i], w.now, ttls)
  {
    hide Transients;
    hide Verifieds;
    hide Approvals;
    hide Approveds;
    hide Settlings;
    hide Ruled;
    hide SweptRow;
    var n, now := |w.db.settlements|, w.now;
    var db1 := Transients(w.db, n, now - ttls.transient, now);
    TransientsMap(w.db, n, now, ttls);
    var db2 := Verifieds(db1, n, now - ttls.verified, now);
    VerifiedsMap(db1, n, now, ttls);
    var db3 := Approvals(db2, n, ttls.approval, now);
    ApprovalsMap(db2, n, now, ttls);
    var w3 := w.(db := db3);
    var w4 := Approveds(w3, n, now - ttls.approved, ttls.maxKicks);
    ApprovedsMap(w3, n, ttls);
    SettlingsMap(w4, n, now - ttls.settling);
    forall i | 0 <= i < n
      ensures w4.db.settlements[i] == SweptRow(w.db.mandates, w.db.settlements[i], now, ttls)
    {
      RulesCompose(w.db.mandates, w.db.settlements[i], now, ttls);
    }
  }

  /** The rule on attempts touches no settlement but a settling one, which it may capture. */
  predicate OnlyCaptures(db: Db, db': Db) {
    && db'.mandates == db.mandates && |db'.settlements| == |db.settlements|
    && forall i :: 0 <= i < |db.settlements| ==>
         || db'.settlements[i] == db.settlements[i]
         || (db.settlements[i].state == Settling && db'.settlements[i].state == Captured)
  }

  lemma CaptureOnlyCaptures(db: Db, a: nat, from: AttemptState, i: nat, p: Text, now: int)
    ensures var c := ApplyCapture(db, a, from, i, p, now); c.CaptureThrew? || OnlyCaptures(db, c.db)
  {
    hide HasAttempt;
  }

  lemma AnswerOnlyCaptures(w: World, t: nat, payments: Payments)
    ensures OnlyCaptures(w.db, FetchAnswer(w, t, payments).db) && FetchAnswer(w, t, payments).now == w.now
  {
    hide ApplyCapture;
    hide IsAnomaly;
    hide AlreadyRefunded;
    if t in w.tasks && w.tasks[t].Fetching? && payments.LatestPaid? {
      var f := w.tasks[t];
      CaptureOnlyCaptures(w.db, f.attempt, f.snapshot.state, f.snapshot.settlement, payments.paymentId, w.now);
      hide OnlyCaptures;
      assert OnlyCaptures(w.db, w.db) by { NothingCaptured(w.db); }
    }
  }

  lemma NothingCaptured(db: Db)
    ensures OnlyCaptures(db, db)
  {}

  lemma GiveUpRows(db: Db, a: nat, cutoff: int)
    ensures OnlyCaptures(db, SweepAttempt(db, a, cutoff))
  {}

  lemma SweptAttemptRows(w: World, a: nat, cutoff: int, replies: map<nat, Reply>)
    ensures OnlyCaptures(w.db, SweptAttempt(w, a, cutoff, replies).db)
    ensures SweptAttempt(w, a, cutoff, replies).now == w.now
  {
    hide FetchAnswer;
    hide ByOrder;
    hide SweepAttempt;
    NothingCaptured(w.db);
    GiveUpRows(w.db, a, cutoff);
    if a < |w.db.attempts| && w.db.attempts[a].orderId.Some? {
      var t, reply := FreeFrom(w.tasks.Keys, 0), if a in replies then replies[a] else Reply(FetchThrew, false);
      var asked := FetchStart(w, t, w.db.attempts[a].orderId.value);
      AnswerOnlyCaptures(asked, t, reply.payments);
      RefundRows(FetchAnswer(asked, t, reply.payments), t, reply.refunded);
    }
    hide RefundAnswer;
    hide OnlyCaptures;
  }

  lemma RefundRows(w: World, t: nat, ok: bool)
    ensures var w' := RefundAnswer(w, t, ok);
      w'.db.settlements == w.db.settlements && w'.db.mandates == w.db.mandates && w'.now == w.now
    ensures forall db :: OnlyCaptures(db, RefundAnswer(w, t, ok).db) <==> OnlyCaptures(db, w.db)
  {}

  lemma {:induction false} StaleAttemptsRows(w: World, n: nat, cutoff: int, replies: map<nat, Reply>)
    ensures OnlyCaptures(w.db, StaleAttempts(w, n, cutoff, replies).db)
    ensures StaleAttempts(w, n, cutoff, replies).now == w.now
  {
    if n == 0 { return; }
    StaleAttemptsRows(w, n - 1, cutoff, replies);
    SweptAttemptRows(StaleAttempts(w, n - 1, cutoff, replies), n - 1, cutoff, replies);
    hide SweptAttempt;
  }

  /** An answer ends its own task or turns it into a refund, and touches no other task. */
  lemma AnswersOwnTask(w: World, t: nat, payments: Payments)
    requires t in w.tasks && w.tasks[t].Fetching?
    ensures var w' := FetchAnswer(w, t, payments);
      w'.tasks - {t} == w.tasks - {t} && (t in w'.tasks ==> w'.tasks[t].Refunding?)
  {
    hide ApplyCapture;
    hide IsAnomaly;
    hide AlreadyRefunded;
    hide FailIfLive;
  }

  lemma SweptAttemptTasks(w: World, a: nat, cutoff: int, replies: map<nat, Reply>)
    ensures SweptAttempt(w, a, cutoff, replies).tasks == w.tasks
  {
    hide FetchAnswer;
    hide SweepAttempt;
    if a < |w.db.attempts| && w.db.attempts[a].orderId.Some? {
      var t, o := FreeFrom(w.tasks.Keys, 0), w.db.attempts[a].orderId.value;
      var reply := if a in replies then replies[a] else Reply(FetchThrew, false);
      assert ByOrder(w.db.attempts, o).Some?;
      AnswersOwnTask(FetchStart(w, t, o), t, reply.payments);
      var answered := FetchAnswer(FetchStart(w, t, o), t, reply.payments);
      assert RefundAnswer(answered, t, reply.refunded).tasks == answered.tasks - {t} == w.tasks;
    }
    hide RefundAnswer;
    hide FetchStart;
  }

  /** The rule polls under task numbers of its own: every reconcile that waits goes on waiting. */
  lemma {:induction false} PollingLeavesTasks(w: World, n: nat, cutoff: int, replies: map<nat, Reply>)
    ensures StaleAttempts(w, n, cutoff, replies).tasks == w.tasks
  {
    if n == 0 { return; }
    PollingLeavesTasks(w, n - 1, cutoff, replies);
    SweptAttemptTasks(StaleAttempts(w, n - 1, cutoff, replies), n - 1, cutoff, replies);
    hide SweptAttempt;
  }

  /** A whole pass: a row is swept by its own rule, unless it was settling and got captured. */
  lemma PassIsRowwise(w: World, ttls: Ttls, tick: Tick)
    ensures var w' := OnePass(w, ttls, tick);
      && w'.now == tick.now && w'.db.mandates == w.db.mandates && |w'.db.settlements| == |w.db.settlements|
      && forall i :: 0 <= i < |w.db.settlements| ==>
           || w'.db.settlements[i] == SweptRow(w.db.mandates, w.db.settlements[i], tick.now, ttls)
           || (w.db.settlements[i].state == Settling && w'.db.settlements[i].state == Captured)
  {
    hide RowPass;
    hide StaleAttempts;
    var w0 := w.(now := tick.now);
    var w1 := StaleAttempts(w0, |w.db.attempts|, tick.now - ttls.attempt, tick.replies);
    StaleAttemptsRows(w0, |w.db.attempts|, tick.now - ttls.attempt, tick.replies);
    RowPassIsRowwise(w1, ttls);
    forall i | 0 <= i < |w.db.settlements|
      ensures w1.db.settlements[i].state == Captured ==>
        SweptRow(w.db.mandates, w1.db.settlements[i], tick.now, ttls) == w1.db.settlements[i]
    {}
    hide SweptRow;
  }

  // ---------------------------------------------------------------- a pass is a run

  function TransientSteps(n: nat, cutoff: int): seq<Step> {
    if n == 0 then [] else TransientSteps(n - 1, cutoff) + [SweepTransientStep(n - 1, cutoff)]
  }
  function VerifiedSteps(n: nat, cutoff: int): seq<Step> {
    if n == 0 then [] else VerifiedSteps(n - 1, cutoff) + [SweepVerifiedStep(n - 1, cutoff)]
  }
  function ApprovalSteps(n: nat, ttl: int): seq<Step> {
    if n == 0 then [] else ApprovalSteps(n - 1, ttl) + [SweepApprovalStep(n - 1, ttl)]
  }
  function ApprovedSteps(n: nat, cutoff: int, maxKicks: nat): seq<Step> {
    if n == 0 then [] else ApprovedSteps(n - 1, cutoff, maxKicks) + [SweepApprovedStep(n - 1, cutoff, maxKicks)]
  }
  function SettlingSteps(n: nat, cutoff: int): seq<Step> {
    if n == 0 then [] else SettlingSteps(n - 1, cutoff) + [SweepSettlingStep(n - 1, cutoff)]
  }

  function SweptSteps(w: World, a: nat, cutoff: int, replies: map<nat, Reply>): seq<Step> {
    if a >= |w.db.attempts| || !Active(w.db.attempts[a].state) || w.db.attempts[a].createdAt >= cutoff then []
    else if w.db.attempts[a].orderId.None? then [SweepAttemptStep(a, cutoff)]
    else
      var t, reply := FreeFrom(w.tasks.Keys, 0), if a in replies then replies[a] else Reply(FetchThrew, false);
      [Fetch(t, w.db.attempts[a].orderId.value), Fetched(t, reply.payments), Refunded(t, reply.refunded)]
  }

  function StaleSteps(w: World, n: nat, cutoff: int, replies: map<nat, Reply>): seq<Step> {
    if n == 0 then []
    else
      StaleSteps(w, n - 1, cutoff, replies)
      + SweptSteps(StaleAttempts(w, n - 1, cutoff, replies), n - 1, cutoff, replies)
  }

  function RowSteps(w: World, ttls: Ttls): seq<Step> {
    var n := |w.db.settlements|;
    TransientSteps(n, w.now - ttls.transient)
    + (VerifiedSteps(n, w.now - ttls.verified)
    + (ApprovalSteps(n, ttls.approval)
    + (ApprovedSteps(n, w.now - ttls.approved, ttls.maxKicks)
    + (SettlingSteps(n, w.now - ttls.settling)
    + [SweepLocksStep(w.now - ttls.lock)]))))
  }

  lemma {:induction false} TransientsRun(w: World, n: nat, cutoff: int)
    ensures Run(w, TransientSteps(n, cutoff)) == w.(db := Transients(w.db, n, cutoff, w.now))
  {
    hide Next;
    hide SweepTransient;
    if n == 0 { return; }
    TransientsRun(w, n - 1, cutoff);
    RunLast(w, TransientSteps(n - 1, cutoff), SweepTransientStep(n - 1, cutoff));
    NextOf(Run(w, TransientSteps(n - 1, cutoff)), SweepTransientStep(n - 1, cutoff));
    hide Run;
  }

  lemma {:induction false} VerifiedsRun(w: World, n: nat, cutoff: int)
    ensures Run(w, VerifiedSteps(n, cutoff)) == w.(db := Verifieds(w.db, n, cutoff, w.now))
  {
    hide Next;
    hide SweepVerified;
    if n == 0 { return; }
    VerifiedsRun(w, n - 1, cutoff);
    RunLast(w, VerifiedSteps(n - 1, cutoff), SweepVerifiedStep(n - 1, cutoff));
    NextOf(Run(w, VerifiedSteps(n - 1, cutoff)), SweepVerifiedStep(n - 1, cutoff));
    hide Run;
  }

  lemma {:induction false} ApprovalsRun(w: World, n: nat, ttl: int)
    ensures Run(w, ApprovalSteps(n, ttl)) == w.(db := Approvals(w.db, n, ttl, w.now))
  {
    hide Next;
    hide SweepApproval;
    if n == 0 { return; }
    ApprovalsRun(w, n - 1, ttl);
    RunLast(w, ApprovalSteps(n - 1, ttl), SweepApprovalStep(n - 1, ttl));
    NextOf(Run(w, ApprovalSteps(n - 1, ttl)), SweepApprovalStep(n - 1, ttl));
    hide Run;
  }

  lemma {:induction false} ApprovedsRun(w: World, n: nat, cutoff: int, maxKicks: nat)
    ensures Run(w, ApprovedSteps(n, cutoff, maxKicks)) == Approveds(w, n, cutoff, maxKicks)
  {
    hide Next;
    hide SweepApproved;
    if n == 0 { return; }
    ApprovedsRun(w, n - 1, cutoff, maxKicks);
    RunLast(w, ApprovedSteps(n - 1, cutoff, maxKicks), SweepApprovedStep(n - 1, cutoff, maxKicks));
    NextOf(Run(w, ApprovedSteps(n - 1, cutoff, maxKicks)), SweepApprovedStep(n - 1, cutoff, maxKicks));
    hide Run;
  }

  lemma {:induction false} SettlingsRun(w: World, n: nat, cutoff: int)
    ensures Run(w, SettlingSteps(n, cutoff)) == Settlings(w, n, cutoff)
  {
    hide Next;
    hide SweepSettling;
    if n == 0 { return; }
    SettlingsRun(w, n - 1, cutoff);
    RunLast(w, SettlingSteps(n - 1, cutoff), SweepSettlingStep(n - 1, cutoff));
    NextOf(Run(w, SettlingSteps(n - 1, cutoff)), SweepSettlingStep(n - 1, cutoff));
    hide Run;
  }

  lemma RunSix(w: World, a: seq<Step>, b: seq<Step>, c: seq<Step>, d: seq<Step>, e: seq<Step>, f: seq<Step>)
    ensures Run(w, a + (b + (c + (d + (e + f))))) == Run(Run(Run(Run(Run(Run(w, a), b), c), d), e), f)
  {
    var w1 := Run(w, a);
    var w2 := Run(w1, b);
    var w3 := Run(w2, c);
    RunConcat(w, a, b + (c + (d + (e + f))));
    RunConcat(w1, b, c + (d + (e + f)));
    RunConcat(w2, c, d + (e + f));
    RunConcat(w3, d, e + f);
    RunConcat(Run(w3, d), e, f);
    hide Run;
  }

  lemma LocksRun(w: World, cutoff: int)
    ensures Run(w, [SweepLocksStep(cutoff)]) == w.(db := SweepLocks(w.db, cutoff))
  {
    assert [] + [SweepLocksStep(cutoff)] == [SweepLocksStep(cutoff)];
    RunLast(w, [], SweepLocksStep(cutoff));
    NextOf(w, SweepLocksStep(cutoff));
    hide Next;
    hide SweepLocks;
  }

  lemma RowPassIsARun(w: World, ttls: Ttls)
    ensures Run(w, RowSteps(w, ttls)) == RowPass(w, ttls)
  {
    hide Run;
    hide Next;
    hide TransientSteps;
    hide VerifiedSteps;
    hide ApprovalSteps;
    hide ApprovedSteps;
    hide SettlingSteps;
    hide SweepLocks;
    hide Transients;
    hide Verifieds;
    hide Approvals;
    hide Approveds;
    hide Settlings;
    var n, now := |w.db.settlements|, w.now;
    var w1 := w.(db := Transients(w.db, n, now - ttls.transient, now));
    var w2 := w1.(db := Verifieds(w1.db, n, now - ttls.verified, now));
    var w3 := w2.(db := Approvals(w2.db, n, ttls.approval, now));
    var w4 := Approveds(w3, n, now - ttls.approved, ttls.maxKicks);
    RunSix(w, TransientSteps(n, now - ttls.transient), VerifiedSteps(n, now - ttls.verified),
           ApprovalSteps(n, ttls.approval), ApprovedSteps(n, now - ttls.approved, ttls.maxKicks),
           SettlingSteps(n, now - ttls.settling), [SweepLocksStep(now - ttls.lock)]);
    TransientsRun(w, n, now - ttls.transient);
    VerifiedsRun(w1, n, now - ttls.verified);
    ApprovalsRun(w2, n, ttls.approval);
    ApprovedsRun(w3, n, now - ttls.approved, ttls.maxKicks);
    SettlingsRun(w4, n, now - ttls.settling);
    LocksRun(Settlings(w4, n, now - ttls.settling), now - ttls.lock);
  }

  lemma SweptRun(w: World, a: nat, cutoff: int, replies: map<nat, Reply>)
    ensures Run(w, SweptSteps(w, a, cutoff, replies)) == SweptAttempt(w, a, cutoff, replies)
  {
    var steps := SweptSteps(w, a, cutoff, replies);
    if |steps| == 1 {
      assert [steps[0]] + [] == steps;
      RunOne(w, steps[0], []);
      NextOf(w, steps[0]);
      hide Next;
      hide SweepAttempt;
    } else if |steps| == 3 {
      RunThree(w, steps[0], steps[1], steps[2]);
      NextOf(w, steps[0]);
      NextOf(Next(w, steps[0]), steps[1]);
      NextOf(Next(Next(w, steps[0]), steps[1]), steps[2]);
      hide Next;
      hide Run;
      hide FetchStart;
      hide FetchAnswer;
      hide RefundAnswer;
    }
  }

  lemma {:induction false} StaleRun(w: World, n: nat, cutoff: int, replies: map<nat, Reply>)
    ensures Run(w, StaleSteps(w, n, cutoff, replies)) == StaleAttempts(w, n, cutoff, replies)
  {
    if n == 0 { return; }
    StaleRun(w, n - 1, cutoff, replies);
    var before := StaleAttempts(w, n - 1, cutoff, replies);
    RunConcat(w, StaleSteps(w, n - 1, cutoff, replies), SweptSteps(before, n - 1, cutoff, replies));
    SweptRun(before, n - 1, cutoff, replies);
    hide SweptAttempt;
    hide SweptSteps;
    hide Run;
  }

  function PassSteps(w: World, ttls: Ttls, tick: Tick): seq<Step> {
    var w0 := w.(now := tick.now);
    var stale := StaleSteps(w0, |w.db.attempts|, tick.now - ttls.attempt, tick.replies);
    [SetClock(tick.now)] + (stale + RowSteps(Run(w0, stale), ttls))
  }

  /** A pass is a run of the protocol, so whatever every run keeps, every pass keeps; and since it is
      made of steps, other steps may come between those of the rule that waits for the provider. */
  lemma PassIsARun(w: World, ttls: Ttls, tick: Tick)
    ensures Run(w, PassSteps(w, ttls, tick)) == OnePass(w, ttls, tick)
  {
    hide Next;
    hide RowSteps;
    hide RowPass;
    hide StaleAttempts;
    hide StaleSteps;
    hide Run;
    var w0 := w.(now := tick.now);
    var n, cutoff := |w.db.attempts|, tick.now - ttls.attempt;
    var stale := StaleSteps(w0, n, cutoff, tick.replies);
    var w1 := StaleAttempts(w0, n, cutoff, tick.replies);
    NextOf(w, SetClock(tick.now));
    RunOne(w, SetClock(tick.now), stale + RowSteps(Run(w0, stale), ttls));
    RunConcat(w0, stale, RowSteps(Run(w0, stale), ttls));
    StaleRun(w0, n, cutoff, tick.replies);
    RowPassIsARun(w1, ttls);
  }

  // ---------------------------------------------------------------- convergence

  /** Nothing the sweep should still do, short of the payment itself. */
  predicate AtRest(s: SettlementState) { Terminal(s) || s == Settling }

  /** Every deadline of the row has passed. A row always has the timestamp of its state. */
  predicate Overdue(mandates: map<Text, Mandate>, r: Settlement, now: int, ttls: Ttls) {
    match r.state
    case Created => r.createdAt < now - ttls.transient
    case Verifying => r.createdAt < now - ttls.transient
    case Verified => EnteredBefore(r, Verified, now - ttls.verified)
    case PendingApproval => PastApproval(mandates, r, now, ttls.approval)
    case Approved => EnteredBefore(r, Approved, now - ttls.approved)
    case _ => true
  }

  /** How many more passes the row can take. */
  function Distance(r: Settlement, maxKicks: nat): nat {
    if AtRest(r.state) then 0
    else if r.state == Approved && r.kicks < maxKicks then 1 + maxKicks - r.kicks
    else 1
  }

  lemma PassGetsCloser(mandates: map<Text, Mandate>, r: Settlement, now: int, later: int, ttls: Ttls)
    requires Overdue(mandates, r, now, ttls) && now <= later
    ensures var r' := SweptRow(mandates, r, later, ttls);
      && Overdue(mandates, r', later, ttls)
      && (Distance(r, ttls.maxKicks) > 0 ==> Distance(r', ttls.maxKicks) < Distance(r, ttls.maxKicks))
      && (Distance(r, ttls.maxKicks) == 0 ==> r' == r)
  {}

  /** A row at rest stays at rest, a terminal row stays as it is, and any other gets closer. */
  lemma RowGetsCloser(w: World, ttls: Ttls, tick: Tick, now: int, i: nat)
    requires i < |w.db.settlements| && now <= tick.now
    requires Overdue(w.db.mandates, w.db.settlements[i], now, ttls)
    ensures var w' := OnePass(w, ttls, tick);
      && |w'.db.settlements| == |w.db.settlements| && w'.db.mandates == w.db.mandates
      && Overdue(w'.db.mandates, w'.db.settlements[i], tick.now, ttls)
      && (Distance(w'.db.settlements[i], ttls.maxKicks) == 0
          || Distance(w'.db.settlements[i], ttls.maxKicks) < Distance(w.db.settlements[i], ttls.maxKicks))
  {
    hide OnePass;
    PassIsRowwise(w, ttls, tick);
    PassGetsCloser(w.db.mandates, w.db.settlements[i], now, tick.now, ttls);
    hide SweptRow;
  }

  /** A pass at each of these ticks, with nothing else in between. */
  function Passes(w: World, ticks: seq<Tick>, ttls: Ttls): World
    decreases |ticks|
  {
    if ticks == [] then w else Passes(OnePass(w, ttls, ticks[0]), ticks[1..], ttls)
  }

  predicate Rising(from: int, ticks: seq<Tick>) {
    (|ticks| > 0 ==> from <= ticks[0].now) && forall k :: 0 <= k < |ticks| - 1 ==> ticks[k].now <= ticks[k + 1].now
  }

  lemma {:induction false} PassesShrink(w: World, now: int, ticks: seq<Tick>, ttls: Ttls)
    requires Rising(now, ticks)
    requires forall i :: 0 <= i < |w.db.settlements| ==> Overdue(w.db.mandates, w.db.settlements[i], now, ttls)
    ensures var w' := Passes(w, ticks, ttls);
      && |w'.db.settlements| == |w.db.settlements|
      && forall i :: 0 <= i < |w.db.settlements| ==>
           Distance(w'.db.settlements[i], ttls.maxKicks) + |ticks| <= Distance(w.db.settlements[i], ttls.maxKicks)
           || Distance(w'.db.settlements[i], ttls.maxKicks) == 0
    decreases |ticks|
  {
    hide Overdue;
    hide Distance;
    hide OnePass;
    if ticks != [] {
      var w1 := OnePass(w, ttls, ticks[0]);
      PassIsRowwise(w, ttls, ticks[0]);
      hide SweptRow;
      forall i | 0 <= i < |w.db.settlements|
        ensures Overdue(w1.db.mandates, w1.db.settlements[i], ticks[0].now, ttls)
        ensures Distance(w1.db.settlements[i], ttls.maxKicks) == 0
          || Distance(w1.db.settlements[i], ttls.maxKicks) < Distance(w.db.settlements[i], ttls.maxKicks)
      {
        RowGetsCloser(w, ttls, ticks[0], now, i);
      }
      PassesShrink(w1, ticks[0].now, ticks[1..], ttls);
    }
  }

  /** With the executor dead and no requests, `maxKicks + 1` passes after all deadlines leave every
      settlement terminal or settling, whatever the provider answers. */
  lemma SweepConverges(w: World, now: int, ticks: seq<Tick>, ttls: Ttls)
    requires Rising(now, ticks) && |ticks| > ttls.maxKicks
    requires forall i :: 0 <= i < |w.db.settlements| ==> Overdue(w.db.mandates, w.db.settlements[i], now, ttls)
    ensures var w' := Passes(w, ticks, ttls);
      && |w'.db.settlements| == |w.db.settlements|
      && forall i :: 0 <= i < |w.db.settlements| ==> AtRest(w'.db.settlements[i].state)
  {
    PassesShrink(w, now, ticks, ttls);
    hide Passes;
    hide Overdue;
  }

  /** The row has been in its state for longer than the source allows: a minute before its verdict,
      a quarter of an hour once verified, half an hour or to the end of its mandate waiting for a human,
      a minute once approved. */
  predicate Aged(mandates: map<Text, Mandate>, r: Settlement, now: int) {
    var since := if r.state in r.enteredAt then Some(r.enteredAt[r.state]) else None;
    match r.state
    case Created => now > r.createdAt + 60
    case Verifying => now > r.createdAt + 60
    case Verified => since.Some? && now > since.value + 900
    case PendingApproval =>
      && r.mandateId in mandates
      && (now > mandates[r.mandateId].intent.expiresAt || now > 1800 + if since.Some? then since.value else 0)
    case Approved => since.Some? && now > since.value + 60
    case _ => true
  }

  lemma AgedIsOverdue(mandates: map<Text, Mandate>, r: Settlement, now: int)
    ensures Aged(mandates, r, now) <==> Overdue(mandates, r, now, DEFAULT_TTLS)
  {}

  /** By default four passes are enough. */
  lemma FourPassesConverge(w: World, now: int, ticks: seq<Tick>)
    requires Rising(now, ticks) && |ticks| == 4
    requires forall i :: 0 <= i < |w.db.settlements| ==> Aged(w.db.mandates, w.db.settlements[i], now)
    ensures var w' := Passes(w, ticks, DEFAULT_TTLS);
      && |w'.db.settlements| == |w.db.settlements|
      && forall i :: 0 <= i < |w.db.settlements| ==> AtRest(w'.db.settlements[i].state)
  {
    forall i | 0 <= i < |w.db.settlements|
      ensures Overdue(w.db.mandates, w.db.settlements[i], now, DEFAULT_TTLS)
    {
      AgedIsOverdue(w.db.mandates, w.db.settlements[i], now);
    }
    SweepConverges(w, now, ticks, DEFAULT_TTLS);
    hide Passes;
    hide Overdue;
    hide Aged;
  }

  /** The bound is met: an approved row whose mandate lives on is kicked exactly `maxKicks` times
      and abandoned by the pass after that. */
  lemma {:induction false} KicksAreCounted(w: World, ticks: seq<Tick>, ttls: Ttls, i: nat)
    requires InState(w.db, i, Approved) && w.db.settlements[i].mandateId in w.db.mandates
    requires forall k :: 0 <= k < |ticks| ==>
      EnteredBefore(w.db.settlements[i], Approved, ticks[k].now - ttls.approved)
      && !Expired(w.db.mandates, w.db.settlements[i], ticks[k].now)
    ensures var w' := Passes(w, ticks, ttls);
      i < |w'.db.settlements|
      && if w.db.settlements[i].kicks + |ticks| <= ttls.maxKicks || ticks == []
         then w'.db.settlements[i] == w.db.settlements[i].(kicks := w.db.settlements[i].kicks + |ticks|)
         else w'.db.settlements[i].state == Abandoned
    decreases |ticks|
  {
    hide OnePass;
    if ticks != [] {
      var w1 := OnePass(w, ttls, ticks[0]);
      PassIsRowwise(w, ttls, ticks[0]);
      var r, rest := w.db.settlements[i], ticks[1..];
      assert forall k :: 0 <= k < |rest| ==> rest[k] == ticks[k + 1];
      KickOrEnd(w.db.mandates, r, ticks[0].now, ttls);
      hide SweptRow;
      if r.kicks < ttls.maxKicks {
        KicksAreCounted(w1, rest, ttls, i);
      } else {
        TerminalStays(w1, rest, ttls, i);
      }
    }
  }

  lemma KickOrEnd(mandates: map<Text, Mandate>, r: Settlement, now: int, ttls: Ttls)
    requires r.state == Approved && EnteredBefore(r, Approved, now - ttls.approved) && !Expired(mandates, r, now)
    ensures SweptRow(mandates, r, now, ttls) ==
      if r.kicks < ttls.maxKicks then r.(kicks := r.kicks + 1) else Ended(r, now)
  {}

  /** A terminal row is left alone by every pass. */
  lemma {:induction false} TerminalStays(w: World, ticks: seq<Tick>, ttls: Ttls, i: nat)
    requires i < |w.db.settlements| && Terminal(w.db.settlements[i].state)
    ensures i < |Passes(w, ticks, ttls).db.settlements|
    ensures Passes(w, ticks, ttls).db.settlements[i] == w.db.settlements[i]
    decreases |ticks|
  {
    hide OnePass;
    if ticks != [] {
      PassIsRowwise(w, ttls, ticks[0]);
      TerminalStays(OnePass(w, ttls, ticks[0]), ticks[1..], ttls, i);
    }
  }

  // ---------------------------------------------------------------- timestamps

  /** Every row past `created` has the timestamp of its state, so a deadline always exists. */
  predicate Stamped(db: Db) {
    forall i :: 0 <= i < |db.settlements| && db.settlements[i].state != Created ==>
      db.settlements[i].state in db.settlements[i].enteredAt
  }

  lemma StepStamped(w: World, s: Step)
    requires Sound(w) && Stamped(w.db)
    ensures Stamped(Next(w, s).db)
  {
    var e := StepEffect(w, s);
    hide Next;
    EffectStamped(w.db, Next(w, s).db, e, w.now);
  }

  lemma EffectStamped(db: Db, db': Db, e: Effect, now: int)
    requires Stamped(db) && Does(db, db', e, now)
    ensures Stamped(db')
  {
    hide Reports;
    hide OverThreshold;
    hide MandateCartHash;
    hide Spent;
    hide Admissible;
    hide MandateBusy;
    forall i | 0 <= i < |db'.settlements| && db'.settlements[i].state != Created
      ensures db'.settlements[i].state in db'.settlements[i].enteredAt
    {
      if e.Reserves? && i < |db.settlements| { assert db'.settlements[i] == db'.settlements[..|db.settlements|][i]; }
    }
  }

  /** The moment after which all deadlines of a row have passed. */
  function DueAfter(r: Settlement, ttls: Ttls): int {
    match r.state
    case Created => r.createdAt + ttls.transient
    case Verifying => r.createdAt + ttls.transient
    case Verified => if Verified in r.enteredAt then r.enteredAt[Verified] + ttls.verified else 0
    case PendingApproval => PendingSince(r) + ttls.approval
    case Approved => if Approved in r.enteredAt then r.enteredAt[Approved] + ttls.approved else 0
    case _ => 0
  }

  /** In a sound, stamped database every row becomes overdue when the clock passes its deadline. */
  lemma EveryRowFallsDue(db: Db, i: nat, now: int, ttls: Ttls)
    requires RowsOk(db) && Stamped(db) && i < |db.settlements|
    requires now > DueAfter(db.settlements[i], ttls)
    ensures Overdue(db.mandates, db.settlements[i], now, ttls)
  {}
}
