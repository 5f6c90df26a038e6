/** The ledger is a complete account: the outcomes it reports are the terminal states of the
    settlements, each exactly once, and replaying it gives those states back. */
module Account {
  import opened Options
  import opened Verify
  import opened Schema
  import opened Protocol
  import opened Tables
  import opened Effects

  /** The outcomes reported for settlement i, in the order of the ledger. */
  function Outcomes(ledger: seq<Event>, i: nat): seq<SettlementState> {
    if ledger == [] then []
    else
      var last := OutcomeOf(ledger[|ledger| - 1]);
      Outcomes(ledger[..|ledger| - 1], i)
        + if last.Some? && last.value.settlement == i then [last.value.state] else []
  }

  /** The state of settlement i as far as it is final. */
  function FinalState(rows: seq<Settlement>, i: nat): seq<SettlementState> {
    if i < |rows| && Terminal(rows[i].state) then [rows[i].state] else []
  }

  ghost predicate AccountOk(db: Db) {
    forall i: nat :: Outcomes(db.ledger, i) == FinalState(db.settlements, i)
  }

  /** What a reader of the ledger alone reconstructs. */
  function Replay(ledger: seq<Event>): map<nat, SettlementState> {
    if ledger == [] then map[]
    else
      var before, last := Replay(ledger[..|ledger| - 1]), OutcomeOf(ledger[|ledger| - 1]);
      if last.Some? then before[last.value.settlement := last.value.state] else before
  }

  lemma {:induction false} ReplayFollowsOutcomes(ledger: seq<Event>, i: nat)
    ensures i in Replay(ledger) <==> Outcomes(ledger, i) != []
    ensures i in Replay(ledger) ==> Replay(ledger)[i] == Outcomes(ledger, i)[|Outcomes(ledger, i)| - 1]
  {
    if ledger != [] { ReplayFollowsOutcomes(ledger[..|ledger| - 1], i); }
  }

  /** Replaying the ledger gives exactly the terminal settlements and their states. */
  lemma ReplayIsTheTable(db: Db)
    requires AccountOk(db)
    ensures Replay(db.ledger) ==
      map i | 0 <= i < |db.settlements| && Terminal(db.settlements[i].state) :: db.settlements[i].state
  {
    hide Replay;
    hide Outcomes;
    var table := map i | 0 <= i < |db.settlements| && Terminal(db.settlements[i].state) :: db.settlements[i].state;
    forall i: nat ensures i in Replay(db.ledger) <==> i in table
      ensures i in table ==> Replay(db.ledger)[i] == table[i]
    {
      ReplayFollowsOutcomes(db.ledger, i);
      assert Outcomes(db.ledger, i) == FinalState(db.settlements, i);
    }
  }

  // ---------------------------------------------------------------- every step

  lemma ReportedOutcomes(db: Db, db': Db, o: Option<Outcome>, i: nat)
    requires Reports(db, db', o)
    ensures Outcomes(db'.ledger, i) ==
      Outcomes(db.ledger, i) + if o.Some? && o.value.settlement == i then [o.value.state] else []
  {}

  /** The outcome an effect makes. */
  function Made(db': Db, e: Effect): Option<Outcome> {
    match e
    case Reserves(_, _) =>
      var n := |db'.settlements|;
      if n > 0 then OutcomeIn(n - 1, db'.settlements[n - 1].state) else None
    case Decides(i, row) => OutcomeIn(i, if row.decision == Granted then Approved else Rejected)
    case Ends(i, how) => Some(Outcome(i, how))
    case Captures(i) => Some(Outcome(i, Captured))
    case _ => None
  }

  lemma EffectReports(db: Db, db': Db, e: Effect, now: int)
    requires Does(db, db', e, now)
    ensures Reports(db, db', Made(db', e))
  {
    hide RowFor;
    hide OverThreshold;
    hide Spent;
    hide Admissible;
  }

  /** The terminal states change by exactly that outcome. */
  lemma FinalStates(db: Db, db': Db, e: Effect, now: int, i: nat)
    requires Does(db, db', e, now)
    ensures var o := Made(db', e);
      FinalState(db'.settlements, i) ==
        FinalState(db.settlements, i) + if o.Some? && o.value.settlement == i then [o.value.state] else []
  {
    hide Reports;
    hide RowFor;
    hide OverThreshold;
    hide Spent;
    hide Admissible;
    hide MandateBusy;
    if e.Reserves? && i < |db.settlements| { assert db'.settlements[i] == db'.settlements[..|db.settlements|][i]; }
  }

  lemma StepAccount(w: World, s: Step)
    requires Sound(w) && AccountOk(w.db)
    ensures AccountOk(Next(w, s).db)
  {
    var e := StepEffect(w, s);
    hide Next;
    var db' := Next(w, s).db;
    EffectReports(w.db, db', e, w.now);
    forall i: nat ensures Outcomes(db'.ledger, i) == FinalState(db'.settlements, i) {
      ReportedOutcomes(w.db, db', Made(db', e), i);
      FinalStates(w.db, db', e, w.now, i);
      hide Does;
      hide Reports;
      hide Made;
      hide Outcomes;
      hide FinalState;
    }
  }
}
