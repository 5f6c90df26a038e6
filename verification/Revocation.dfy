/** A closed mandate, revoked or past its expiry, can capture only what was already settling. */
module Revocation {
  import opened Options
  import opened Texts
  import opened Crypto
  import opened Mandates
  import opened Verify
  import opened Schema
  import opened Protocol
  import opened Tables
  import opened Effects
  import opened Lifecycle
  import opened Money

  /** No clock tick of the run goes back to `limit` or before. */
  predicate StaysAfter(steps: seq<Step>, limit: int) {
    forall k :: 0 <= k < |steps| && steps[k].SetClock? ==> steps[k].now > limit
  }

  predicate Revoked(db: Db, m: Text) { m in db.mandates && db.mandates[m].revokedAt.Some? }

  predicate PastExpiry(w: World, m: Text) {
    m in w.db.mandates && w.now > w.db.mandates[m].intent.expiresAt + SKEW
  }

  /** Revoked, or expired beyond the skew for the whole run. */
  predicate Closed(w: World, m: Text, steps: seq<Step>) {
    || Revoked(w.db, m)
    || (PastExpiry(w, m) && StaysAfter(steps, w.db.mandates[m].intent.expiresAt + SKEW))
  }

  /** The rows of m past the gate. */
  predicate PastGate(db: Db, i: nat, m: Text) {
    SettlingOrCaptured(db, i) && db.settlements[i].mandateId == m
  }

  lemma GateStaysShut(w: World, s: Step, m: Text, steps: seq<Step>)
    requires Sound(w) && steps != [] && s == steps[0] && Closed(w, m, steps)
    ensures Closed(Next(w, s), m, steps[1..])
    ensures forall i :: PastGate(Next(w, s).db, i, m) ==> PastGate(w.db, i, m)
  {
    var e := StepEffect(w, s);
    var w' := Next(w, s);
    ClockMoves(w, s);
    hide Next;
    TermsStay(w.db, w'.db, e, w.now, m);
    forall i: nat | PastGate(w'.db, i, m) ensures PastGate(w.db, i, m) {
      if i < |w.db.settlements| { RowStep(w.db, w'.db, e, w.now, i); }
      GateIsTheOnlyWay(w, w'.db, e, m, i);
    }
    hide Does;
    hide Sound;
    assert forall k :: 0 <= k < |steps[1..]| ==> steps[1..][k] == steps[k + 1];
  }

  lemma ClockMoves(w: World, s: Step)
    ensures Next(w, s).now == if s.SetClock? then s.now else w.now
  {
    hide CreateSettlement;
    hide EnterSettling;
    hide ApplyCapture;
    hide VerifySignature;
    hide HasActiveAttempt;
    hide ByOrder;
    hide IsAnomaly;
    hide AlreadyRefunded;
    hide FlaggedStuck;
    hide MandateCartHash;
    hide ApprovalBytes;
  }

  lemma TermsStay(db: Db, db': Db, e: Effect, now: int, m: Text)
    requires Does(db, db', e, now) && m in db.mandates
    ensures m in db'.mandates && db'.mandates[m].intent == db.mandates[m].intent
    ensures db.mandates[m].revokedAt.Some? ==> db'.mandates[m].revokedAt.Some?
    ensures db'.mandates[m].credential == db.mandates[m].credential
  {
    hide Adds;
    hide Moves;
    hide Admissible;
    hide Reports;
  }

  /** A row gets past the gate only through it, and the gate refuses a closed mandate. */
  lemma GateIsTheOnlyWay(w: World, db': Db, e: Effect, m: Text, i: nat)
    requires Sound(w) && Does(w.db, db', e, w.now)
    requires Revoked(w.db, m) || PastExpiry(w, m)
    requires PastGate(db', i, m)
    requires i < |w.db.settlements| ==>
      i < |db'.settlements| && db'.settlements[i].mandateId == w.db.settlements[i].mandateId
    ensures PastGate(w.db, i, m)
  {
    hide Reports;
    hide RowFor;
    hide OverThreshold;
    hide Spent;
    hide MandateBusy;
    hide Chained;
    hide SafeIntent;
    hide SafeCart;
    hide MandateCartHash;
    hide TasksOk;
    hide PcOk;
    hide OneLive;
    hide OnePerCart;
    hide AttemptsOk;
    hide OneEach;
    hide CapturesBacked;
    if e.Reserves? && i < |w.db.settlements| { assert db'.settlements[i] == db'.settlements[..|w.db.settlements|][i]; }
    if e.Admits? && e.id == i {
      assert w.db.settlements[i].mandateId == m;
      AdmittedIsOpen(w, i, m);
    }
  }

  lemma AdmittedIsOpen(w: World, i: nat, m: Text)
    requires MandatesOk(w.db) && Admissible(w.db, i, w.now) && w.db.settlements[i].mandateId == m
    ensures !Revoked(w.db, m) && !PastExpiry(w, m)
  {
    hide Chained;
    hide SafeIntent;
    hide SafeCart;
    hide MandateCartHash;
    hide Spent;
    hide SpentAt;
    hide CartTaken;
    hide PricesMatch;
    hide SkusAllowed;
    hide MerchantLimit;
  }

  lemma {:induction false} NothingNewPassesTheGate(w: World, m: Text, steps: seq<Step>)
    requires Sound(w) && Closed(w, m, steps)
    ensures forall i :: PastGate(Run(w, steps).db, i, m) ==> PastGate(w.db, i, m)
    decreases |steps|
  {
    hide Sound;
    hide Next;
    hide Closed;
    if steps != [] {
      StepSound(w, steps[0]);
      GateStaysShut(w, steps[0], m, steps);
      NothingNewPassesTheGate(Next(w, steps[0]), m, steps[1..]);
      hide PastGate;
      assert Run(w, steps) == Run(Next(w, steps[0]), steps[1..]);
    }
  }

  /** The one settlement of m that may still be captured. */
  predicate InFlight(db: Db, i: nat, m: Text) { InState(db, i, Settling) && db.settlements[i].mandateId == m }

  lemma OneInFlight(db: Db, i: nat, j: nat, m: Text)
    requires OneLive(db) && InFlight(db, i, m) && InFlight(db, j, m)
    ensures i == j
  {}

  /** A row that was captured still is, and a row that became captured was in flight. */
  lemma CapturedBefore(db: Db, db': Db, m: Text, j: nat)
    requires History(db, db') && (forall i :: PastGate(db', i, m) ==> PastGate(db, i, m))
    requires j < |db'.settlements| && db'.settlements[j].mandateId == m
    ensures db'.settlements[j].state == Captured ==>
      j < |db.settlements| && db.settlements[j].state in {Captured, Settling}
    ensures j < |db.settlements| && db.settlements[j].state == Captured ==> db'.settlements[j].state == Captured
  {
    if j < |db.settlements| {
      assert Became(db.settlements[j], db'.settlements[j]);
      if db.settlements[j].state == Captured { FinalLeadsNowhere(Captured, db'.settlements[j].state); }
    }
    hide Leads;
    if db'.settlements[j].state == Captured { assert PastGate(db', j, m); }
  }

  lemma SpendStays(db: Db, db': Db, m: Text)
    requires History(db, db') && (forall i :: PastGate(db', i, m) ==> PastGate(db, i, m))
    requires forall i :: InFlight(db, i, m) ==> !InState(db', i, Captured)
    ensures Spent(db'.settlements, m) == Spent(db.settlements, m)
  {
    var w := CapturedOf(m);
    forall j | 0 <= j < |db'.settlements|
      ensures j < |db.settlements| ==> w(j, db'.settlements[j]) == w(j, db.settlements[j])
      ensures j >= |db.settlements| ==> w(j, db'.settlements[j]) == 0
    {
      if j < |db.settlements| { assert Became(db.settlements[j], db'.settlements[j]); }
      if db'.settlements[j].mandateId == m {
        CapturedBefore(db, db', m, j);
        if j < |db.settlements| && db.settlements[j].state == Settling { assert InFlight(db, j, m); }
      }
    }
    SumExtends(db.settlements, db'.settlements, w, w);
  }

  /** Row j is not the one in flight, so its share of the spend stays. */
  lemma OtherShareStays(db: Db, db': Db, m: Text, i: nat, j: nat)
    requires OneLive(db) && History(db, db') && (forall k :: PastGate(db', k, m) ==> PastGate(db, k, m))
    requires InFlight(db, i, m) && j < |db'.settlements| && j != i
    ensures j < |db.settlements| ==> CapturedOf(m)(j, db'.settlements[j]) == CapturedOf(m)(j, db.settlements[j])
    ensures j >= |db.settlements| ==> CapturedOf(m)(j, db'.settlements[j]) == 0
  {
    if j < |db.settlements| { assert Became(db.settlements[j], db'.settlements[j]); }
    if db'.settlements[j].mandateId == m {
      CapturedBefore(db, db', m, j);
      if j < |db.settlements| && db.settlements[j].state == Settling { OneInFlight(db, i, j, m); }
    }
  }

  lemma SpendAfter(db: Db, db': Db, m: Text, i: nat)
    requires OneLive(db) && History(db, db') && (forall k :: PastGate(db', k, m) ==> PastGate(db, k, m))
    requires InFlight(db, i, m) && InState(db', i, Captured)
    ensures Spent(db'.settlements, m) == Spent(db.settlements, m) + db.settlements[i].amount
  {
    var w := CapturedOf(m);
    var rows, rows' := db.settlements, db'.settlements;
    var middle := rows[i := rows[i].(state := Captured)];
    SumUpdate(rows, middle, w, w, i);
    assert Became(rows[i], rows'[i]);
    forall j | 0 <= j < |rows'|
      ensures j < |rows| ==> w(j, rows'[j]) == w(j, middle[j])
      ensures j >= |rows| ==> w(j, rows'[j]) == 0
    {
      if j != i { OtherShareStays(db, db', m, i, j); }
    }
    hide OneLive;
    hide History;
    hide PastGate;
    SumExtends(middle, rows', w, w);
  }

  lemma SpendsAtMostOnce(db: Db, db': Db, m: Text)
    requires OneLive(db) && History(db, db') && (forall i :: PastGate(db', i, m) ==> PastGate(db, i, m))
    ensures Spent(db'.settlements, m) == Spent(db.settlements, m) || exists i: nat :: CapturedLate(db, db', m, i)
  {
    hide History;
    hide OneLive;
    hide PastGate;
    if i: nat :| InFlight(db, i, m) && InState(db', i, Captured) {
      SpendAfter(db, db', m, i);
      hide Spent;
      assert CapturedLate(db, db', m, i);
    } else {
      SpendStays(db, db', m);
    }
  }

  /** Row i was in flight, is captured, and is all that the mandate has spent since. */
  predicate CapturedLate(db: Db, db': Db, m: Text, i: nat) {
    && InFlight(db, i, m) && InState(db', i, Captured)
    && Spent(db'.settlements, m) == Spent(db.settlements, m) + db.settlements[i].amount
  }

  /** After a mandate is closed its captured spend stays, or grows once by the amount of the one
      settlement that was in `settling` at that moment. */
  lemma ClosedMandateSpendsAtMostOnce(w: World, m: Text, steps: seq<Step>)
    requires Sound(w) && Closed(w, m, steps)
    ensures
      || Spent(Run(w, steps).db.settlements, m) == Spent(w.db.settlements, m)
      || exists i: nat :: CapturedLate(w.db, Run(w, steps).db, m, i)
  {
    NothingNewPassesTheGate(w, m, steps);
    RunHistory(w, steps);
    hide Run;
    hide History;
    hide PastGate;
    hide TasksOk;
    hide PcOk;
    hide CapturedLate;
    hide Spent;
    SpendsAtMostOnce(w.db, Run(w, steps).db, m);
  }
}
