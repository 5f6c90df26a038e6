/** What one pass of the sweep with the source's limits (packages/facilitator/src/sweep.ts:56-65) leaves
    behind: nothing that is overdue and untended. */
module Tidy {
  import opened Options
  import opened Texts
  import opened Schema
  import opened Protocol
  import opened Queue
  import opened Sweep
  import opened Idempotency

  /** The row has been in state s for more than so many seconds. */
  predicate Lingers(w: World, r: Settlement, s: SettlementState, seconds: int) {
    r.state == s && s in r.enteredAt && w.now > r.enteredAt[s] + seconds
  }

  /** A settlement of which the sweep has nothing to say: no state is older than its limit, or else a run
      for it is on its way. */
  predicate Tended(w: World, i: nat) {
    i < |w.db.settlements| ==>
      var r := w.db.settlements[i];
      && (r.state in {Created, Verifying} ==> w.now <= r.createdAt + 60)
      && !Lingers(w, r, Verified, 900)
      && (r.state == PendingApproval && r.mandateId in w.db.mandates ==>
           w.now <= w.db.mandates[r.mandateId].intent.expiresAt && !Lingers(w, r, PendingApproval, 1800))
      && (Lingers(w, r, Approved, 60) ==> Queued(w, i) || RunsNow(w, i))
      && (Lingers(w, r, Settling, 60) ==> HasActiveAttempt(w.db, i) || Queued(w, i) || RunsNow(w, i))
  }

  /** An attempt that never got an order. */
  predicate Orphan(db: Db, a: nat, cutoff: int) {
    && a < |db.attempts| && db.attempts[a].state == Initiated && db.attempts[a].orderId.None?
    && db.attempts[a].createdAt < cutoff
  }

  // ---------------------------------------------------------------- attempts and keys

  predicate Beside(db: Db, db': Db) { db'.attempts == db.attempts && db'.keys == db.keys }

  lemma {:induction n} TransientsBeside(db: Db, n: nat, cutoff: int, now: int)
    ensures Beside(db, Transients(db, n, cutoff, now))
  {}

  lemma {:induction n} VerifiedsBeside(db: Db, n: nat, cutoff: int, now: int)
    ensures Beside(db, Verifieds(db, n, cutoff, now))
  {
    hide EnteredBefore;
  }

  lemma {:induction n} ApprovalsBeside(db: Db, n: nat, ttl: int, now: int)
    ensures Beside(db, Approvals(db, n, ttl, now))
  {
    hide PendingSince;
  }

  /** An approved row that is past its limit. */
  predicate Waits(db: Db, i: nat, cutoff: int) {
    InState(db, i, Approved) && EnteredBefore(db.settlements[i], Approved, cutoff)
  }

  lemma SameWaits(db: Db, db': Db, i: nat, cutoff: int)
    requires |db'.settlements| == |db.settlements|
    requires i < |db.settlements| ==> db'.settlements[i] == db.settlements[i]
    ensures Waits(db', i, cutoff) <==> Waits(db, i, cutoff)
  {}

  lemma AbandonedWaitsNot(db: Db, i: nat, e: Event, now: int, cutoff: int)
    requires i < |db.settlements|
    ensures !Waits(Abandon(db, i, e, now), i, cutoff)
  {}

  /** The rule on row j: if it still waits it was kicked, and every other row is as before. */
  lemma ApprovedKicks(w: World, j: nat, cutoff: int, maxKicks: nat, i: nat)
    requires j < |w.db.settlements|
    ensures var w' := SweepApproved(w, j, cutoff, maxKicks);
      && Beside(w.db, w'.db) && |w'.db.settlements| == |w.db.settlements| && w.inFlight <= w'.inFlight
      && (i == j ==> Waits(w'.db, i, cutoff) ==> i in w'.inFlight)
      && (i != j ==> (Waits(w'.db, i, cutoff) <==> Waits(w.db, i, cutoff)))
  {
    hide MandateExpiredAt;
    var expired := MandateExpiredAt(w.db, w.db.settlements[j].mandateId, w.now);
    var why := SettlementAbandoned(j, if expired then MandateExpired else KickLimitExceeded);
    AbandonedWaitsNot(w.db, j, why, w.now, cutoff);
    var r := w.db.settlements[j];
    assert Waits(w.db, j, cutoff) <==> InState(w.db, j, Approved) && EnteredBefore(r, Approved, cutoff);
    hide Waits;
    hide EnteredBefore;
    if i != j { SameWaits(w.db, SweepApproved(w, j, cutoff, maxKicks).db, i, cutoff); }
  }

  /** Approved rows that are still there after their limit have been kicked. */
  lemma {:induction false} ApprovedsKick(w: World, n: nat, cutoff: int, maxKicks: nat, i: nat)
    requires n <= |w.db.settlements|
    ensures var w' := Approveds(w, n, cutoff, maxKicks);
      && Beside(w.db, w'.db) && |w'.db.settlements| == |w.db.settlements|
      && (i < n && Waits(w'.db, i, cutoff) ==> i in w'.inFlight)
  {
    hide SweepApproved;
    hide Waits;
    if n > 0 {
      ApprovedsKick(w, n - 1, cutoff, maxKicks, i);
      ApprovedKicks(Approveds(w, n - 1, cutoff, maxKicks), n - 1, cutoff, maxKicks, i);
    }
  }

  predicate Stuck(db: Db, i: nat, cutoff: int) {
    InState(db, i, Settling) && EnteredBefore(db.settlements[i], Settling, cutoff) && !HasActiveAttempt(db, i)
  }

  lemma SameRows(db: Db, db': Db, i: nat, cutoff: int)
    requires db'.settlements == db.settlements && db'.attempts == db.attempts
    ensures Stuck(db', i, cutoff) <==> Stuck(db, i, cutoff)
    ensures Waits(db', i, cutoff) <==> Waits(db, i, cutoff)
  {}

  /** Stuck rows have been resumed. */
  lemma {:induction false} SettlingsKick(w: World, n: nat, cutoff: int)
    ensures var w' := Settlings(w, n, cutoff);
      && Beside(w.db, w'.db) && w'.db.settlements == w.db.settlements && w.inFlight <= w'.inFlight
      && forall i :: 0 <= i < n && Stuck(w.db, i, cutoff) ==> i in w'.inFlight
  {
    if n > 0 {
      SettlingsKick(w, n - 1, cutoff);
      var mid := Settlings(w, n - 1, cutoff);
      SameRows(w.db, mid.db, n - 1, cutoff);
      hide FlaggedStuck;
      hide HasActiveAttempt;
      hide EnteredBefore;
    }
  }

  /** The rules on rows: attempts stay, locks go by their own rule, and what is still overdue has a run. */
  lemma RowPassKicks(w: World, ttls: Ttls, i: nat)
    ensures var w' := RowPass(w, ttls);
      && w'.db.attempts == w.db.attempts && w'.db.keys == SweepLocks(w.db, w.now - ttls.lock).keys
      && (i < |w.db.settlements| && Waits(w'.db, i, w.now - ttls.approved) ==> i in w'.inFlight)
      && (i < |w.db.settlements| && Stuck(w'.db, i, w.now - ttls.settling) ==> i in w'.inFlight)
  {
    hide Stuck;
    hide Waits;
    hide Transients;
    hide Verifieds;
    hide Approvals;
    hide Approveds;
    hide Settlings;
    var n, now := |w.db.settlements|, w.now;
    var db1 := Transients(w.db, n, now - ttls.transient, now);
    TransientsBeside(w.db, n, now - ttls.transient, now);
    TransientsMap(w.db, n, now, ttls);
    var db2 := Verifieds(db1, n, now - ttls.verified, now);
    VerifiedsBeside(db1, n, now - ttls.verified, now);
    VerifiedsMap(db1, n, now, ttls);
    var db3 := Approvals(db2, n, ttls.approval, now);
    ApprovalsBeside(db2, n, ttls.approval, now);
    ApprovalsMap(db2, n, now, ttls);
    var w3 := w.(db := db3);
    var w4 := Approveds(w3, n, now - ttls.approved, ttls.maxKicks);
    ApprovedsKick(w3, n, now - ttls.approved, ttls.maxKicks, i);
    SettlingsKick(w4, n, now - ttls.settling);
    SameRows(w4.db, RowPass(w, ttls).db, i, now - ttls.settling);
    SameRows(w4.db, RowPass(w, ttls).db, i, now - ttls.approved);
  }

  // ---------------------------------------------------------------- the rule that polls

  /** Neither a capture nor a failure makes one. */
  lemma CaptureMakesNoOrphan(db: Db, c: nat, from: AttemptState, i: nat, p: Text, now: int, a: nat, cutoff: int)
    ensures var r := ApplyCapture(db, c, from, i, p, now);
      r.CaptureThrew? || (|r.db.attempts| == |db.attempts| && (Orphan(r.db, a, cutoff) ==> Orphan(db, a, cutoff)))
  {
    hide HasAttempt;
  }

  lemma FailureMakesNoOrphan(db: Db, c: nat, snapshot: Attempt, a: nat, cutoff: int)
    ensures var db' := FailIfLive(db, c, snapshot);
      && |db'.attempts| == |db.attempts| && SameAside(db, db') && (Orphan(db', a, cutoff) ==> Orphan(db, a, cutoff))
  {}

  lemma AnswerMakesNoOrphan(w: World, t: nat, payments: Payments, a: nat, cutoff: int)
    ensures var db' := FetchAnswer(w, t, payments).db;
      && |db'.attempts| == |w.db.attempts| && SameAside(w.db, db')
      && (Orphan(db', a, cutoff) ==> Orphan(w.db, a, cutoff))
  {
    hide HasAttempt;
    hide AlreadyRefunded;
    hide IsAnomaly;
    ReconcileLeavesKeys(w, t, payments);
    if t in w.tasks && w.tasks[t].Fetching? {
      var f := w.tasks[t];
      FailureMakesNoOrphan(w.db, f.attempt, f.snapshot, a, cutoff);
      if payments.LatestPaid? {
        CaptureMakesNoOrphan(w.db, f.attempt, f.snapshot.state, f.snapshot.settlement, payments.paymentId, w.now, a,
          cutoff);
      }
    }
    hide ApplyCapture;
    hide FailIfLive;
    SameOrphan(w.db, FetchAnswer(w, t, FetchThrew).db, a, cutoff);
    hide Orphan;
  }

  lemma RefundMakesNoOrphan(w: World, t: nat, ok: bool)
    ensures RefundAnswer(w, t, ok).db.attempts == w.db.attempts && SameAside(w.db, RefundAnswer(w, t, ok).db)
  {}

  lemma SameOrphan(db: Db, db': Db, a: nat, cutoff: int)
    requires db'.attempts == db.attempts
    ensures Orphan(db', a, cutoff) <==> Orphan(db, a, cutoff)
  {}

  /** Attempt k is no orphan afterwards, and no attempt becomes one. */
  lemma SweptMakesNoOrphan(w: World, k: nat, cutoff: int, replies: map<nat, Reply>, a: nat)
    ensures var db' := SweptAttempt(w, k, cutoff, replies).db;
      && |db'.attempts| == |w.db.attempts| && SameAside(w.db, db')
      && (Orphan(db', a, cutoff) ==> Orphan(w.db, a, cutoff) && a != k)
  {
    if k < |w.db.attempts| && w.db.attempts[k].orderId.Some? {
      hide FetchAnswer;
      hide RefundAnswer;
      hide ByOrder;
      var t, reply := FreeFrom(w.tasks.Keys, 0), if k in replies then replies[k] else Reply(FetchThrew, false);
      var asked := FetchStart(w, t, w.db.attempts[k].orderId.value);
      assert asked.db == w.db;
      assert !Orphan(w.db, k, cutoff);
      hide FetchStart;
      AnswerMakesNoOrphan(asked, t, reply.payments, a, cutoff);
      var answered := FetchAnswer(asked, t, reply.payments);
      RefundMakesNoOrphan(answered, t, reply.refunded);
      SameOrphan(answered.db, RefundAnswer(answered, t, reply.refunded).db, a, cutoff);
      hide Orphan;
    }
  }

  lemma {:induction false} StaleMakesNoOrphan(w: World, n: nat, cutoff: int, replies: map<nat, Reply>, a: nat)
    ensures var db' := StaleAttempts(w, n, cutoff, replies).db;
      && |db'.attempts| == |w.db.attempts| && db'.keys == w.db.keys
      && (Orphan(db', a, cutoff) ==> a >= n)
  {
    hide SweptAttempt;
    hide Orphan;
    if n > 0 {
      StaleMakesNoOrphan(w, n - 1, cutoff, replies, a);
      SweptMakesNoOrphan(StaleAttempts(w, n - 1, cutoff, replies), n - 1, cutoff, replies, a);
    }
  }

  // ---------------------------------------------------------------- the pass

  /** After one pass with the source's limits no attempt without an order is live for more than a minute
      and a half, and a lock without an answer goes exactly when it is more than five minutes old. */
  lemma PassTidiesAttemptsAndLocks(w: World, tick: Tick, a: nat, key: Text)
    ensures var w' := OnePass(w, DEFAULT_TTLS, tick);
      && !Orphan(w'.db, a, tick.now - 90)
      && (key in w'.db.keys <==>
           key in w.db.keys && (w.db.keys[key].response.Some? || tick.now <= w.db.keys[key].lockedAt + 300))
      && (key in w'.db.keys ==> w'.db.keys[key] == w.db.keys[key])
  {
    hide RowPass;
    hide StaleAttempts;
    var w0, n := w.(now := tick.now), |w.db.attempts|;
    var w1 := StaleAttempts(w0, n, tick.now - 90, tick.replies);
    StaleMakesNoOrphan(w0, n, tick.now - 90, tick.replies, a);
    StaleAttemptsRows(w0, n, tick.now - 90, tick.replies);
    RowPassKicks(w1, DEFAULT_TTLS, 0);
    assert OnePass(w, DEFAULT_TTLS, tick) == RowPass(w1, DEFAULT_TTLS);
    hide OnePass;
    hide Stuck;
  }

  /** And every settlement is tended: ended in time, or with a run on its way. */
  lemma PassTidiesSettlements(w: World, tick: Tick, i: nat)
    requires QueueOk(w)
    ensures Tended(OnePass(w, DEFAULT_TTLS, tick), i)
  {
    hide RowPass;
    hide StaleAttempts;
    hide Run;
    hide HasActiveAttempt;
    hide Queued;
    hide RunsNow;
    hide PassSteps;
    var w', now := OnePass(w, DEFAULT_TTLS, tick), tick.now;
    PassIsARun(w, DEFAULT_TTLS, tick);
    RunKeepsQueue(w, PassSteps(w, DEFAULT_TTLS, tick));
    PassIsRowwise(w, DEFAULT_TTLS, tick);
    var w0 := w.(now := now);
    var w1 := StaleAttempts(w0, |w.db.attempts|, now - 90, tick.replies);
    StaleAttemptsRows(w0, |w.db.attempts|, now - 90, tick.replies);
    RowPassKicks(w1, DEFAULT_TTLS, i);
    assert w' == RowPass(w1, DEFAULT_TTLS);
    hide OnePass;
  }
}
