/** Whole runs of settlements: states move along the transition graph only, terminal states are
    final, and the terms of a row never change. */
module Lifecycle {
  import opened Verify
  import opened Schema
  import opened Protocol
  import opened Tables
  import opened Effects

  /** A path of allowed transitions. */
  predicate Path(states: seq<SettlementState>) {
    forall k :: 0 <= k < |states| - 1 ==> states[k + 1] in SettlementEdges(states[k])
  }

  ghost predicate Leads(from: SettlementState, to: SettlementState) {
    exists states :: |states| > 0 && states[0] == from && states[|states| - 1] == to && Path(states)
  }

  lemma LeadsItself(s: SettlementState)
    ensures Leads(s, s)
  {
    assert Path([s]);
  }

  lemma LeadsOn(from: SettlementState, mid: SettlementState, to: SettlementState)
    requires Leads(from, mid) && (to == mid || to in SettlementEdges(mid))
    ensures Leads(from, to)
  {
    var states :| |states| > 0 && states[0] == from && states[|states| - 1] == mid && Path(states);
    if to != mid {
      assert Path(states + [to]);
    }
  }

  lemma FirstEdge(states: seq<SettlementState>)
    requires Path(states) && |states| > 1
    ensures states[1] in SettlementEdges(states[0])
  {}

  lemma FinalLeadsNowhere(s: SettlementState, to: SettlementState)
    requires Terminal(s) && Leads(s, to)
    ensures to == s
  {
    var states :| |states| > 0 && states[0] == s && states[|states| - 1] == to && Path(states);
    hide Path;
    if |states| > 1 { FirstEdge(states); }
  }

  /** Forward and never back; every state that is not final can still end in any way, but a settling
      row is not rejected any more. */
  predicate Ahead(from: SettlementState, to: SettlementState) {
    && from !in {Captured, Failed, Rejected, Abandoned}
    && match to
       case Created => false
       case Verifying => from == Created
       case Verified => from in {Created, Verifying}
       case PendingApproval => from in {Created, Verifying, Verified}
       case Approved => from in {Created, Verifying, Verified, PendingApproval}
       case Settling => from != Settling
       case Rejected => from != Settling
       case _ => true
  }

  lemma {:induction false} PathsGoAhead(states: seq<SettlementState>)
    requires |states| > 0 && Path(states)
    ensures states[|states| - 1] == states[0] || Ahead(states[0], states[|states| - 1])
  {
    if |states| > 1 {
      FirstEdge(states);
      assert Path(states[1..]) by {
        forall k | 0 <= k < |states| - 2 ensures states[1..][k + 1] in SettlementEdges(states[1..][k]) {
          assert states[k + 1 + 1] in SettlementEdges(states[k + 1]);
        }
      }
      PathsGoAhead(states[1..]);
      hide Path;
    }
  }

  /** Every state ahead is reached. */
  lemma AllAhead(from: SettlementState, to: SettlementState)
    requires Ahead(from, to)
    ensures Leads(from, to)
    decreases if from == Created then 5 else if from == Verifying then 4 else if from == Verified then 3
              else if from == PendingApproval then 2 else if from == Approved then 1 else 0
  {
    var next := match from
      case Created => Verifying
      case Verifying => Verified
      case Verified => PendingApproval
      case PendingApproval => Approved
      case _ => Settling;
    LeadsItself(from);
    if to in SettlementEdges(from) {
      hide Ahead;
      LeadsOn(from, from, to);
    } else {
      AllAhead(next, to);
      LeadsFirst(from, next, to);
    }
  }

  lemma LeadsFirst(from: SettlementState, next: SettlementState, to: SettlementState)
    requires next in SettlementEdges(from) && Leads(next, to)
    ensures Leads(from, to)
  {
    var states :| |states| > 0 && states[0] == next && states[|states| - 1] == to && Path(states);
    assert Path([from] + states);
  }

  /** Where the transition table leads from each state, exactly. */
  lemma LeadsExactlyWhen(from: SettlementState, to: SettlementState)
    ensures Leads(from, to) <==> from == to || Ahead(from, to)
  {
    hide Ahead;
    hide Path;
    LeadsItself(from);
    if Ahead(from, to) { AllAhead(from, to); }
    if Leads(from, to) {
      var states :| |states| > 0 && states[0] == from && states[|states| - 1] == to && Path(states);
      PathsGoAhead(states);
    }
  }

  /** And the ends are reached directly from these states only. */
  lemma EndsExactlyWhen(from: SettlementState)
    ensures Rejected in SettlementEdges(from) <==> from in {Verifying, PendingApproval, Approved}
    ensures Abandoned in SettlementEdges(from) <==> from !in {Captured, Failed, Rejected, Abandoned}
    ensures Captured in SettlementEdges(from) <==> from == Settling
    ensures Failed in SettlementEdges(from) <==> from == Settling
  {}

  /** The state before the last one of a path that started elsewhere. */
  lemma LastEdge(states: seq<SettlementState>)
    requires |states| > 0 && Path(states) && states[0] != states[|states| - 1]
    ensures |states| > 1 && states[|states| - 1] in SettlementEdges(states[|states| - 2])
    ensures Path(states[..|states| - 1])
  {
    assert states[|states| - 2 + 1] in SettlementEdges(states[|states| - 2]);
  }

  /** There is no way round the gate: on every path from creation to a payment there are, one after the
      other, the states of the verification, the approval and the settling. */
  lemma NoWayRound(states: seq<SettlementState>)
    requires |states| > 0 && Path(states) && states[0] == Created && states[|states| - 1] == Captured
    ensures |states| in {6, 7} && states[1] == Verifying && states[2] == Verified
    ensures states[|states| - 3] == Approved && states[|states| - 2] == Settling
    ensures |states| == 7 ==> states[3] == PendingApproval
  {
    hide Path;
    LastEdge(states);
    var s1 := states[..|states| - 1];
    assert s1[|s1| - 1] == Settling;
    LastEdge(s1);
    var s2 := s1[..|s1| - 1];
    assert s2[|s2| - 1] == Approved;
    LastEdge(s2);
    var s3 := s2[..|s2| - 1];
    if s3[|s3| - 1] == PendingApproval { LastEdge(s3); }
    var s4 := if s3[|s3| - 1] == PendingApproval then s3[..|s3| - 1] else s3;
    VerifiedFirst(s4);
    assert states[1] == s4[1] && states[2] == s4[2];
  }

  lemma VerifiedFirst(states: seq<SettlementState>)
    requires |states| > 0 && Path(states) && states[0] == Created && states[|states| - 1] == Verified
    ensures states == [Created, Verifying, Verified]
  {
    hide Path;
    LastEdge(states);
    var s1 := states[..|states| - 1];
    assert s1[|s1| - 1] == Verifying;
    LastEdge(s1);
    var s2 := s1[..|s1| - 1];
    assert s2[|s2| - 1] == Created;
    OnlyStart(s2);
  }

  lemma NothingCreates(s: SettlementState)
    ensures Created !in SettlementEdges(s)
  {}

  /** Nothing leads to creation. */
  lemma OnlyStart(states: seq<SettlementState>)
    requires |states| > 0 && Path(states) && states[|states| - 1] == Created
    ensures states == [Created]
  {
    if |states| > 1 { NothingCreates(states[|states| - 2]); }
  }

  /** Row r later became r'. */
  ghost predicate Became(r: Settlement, r': Settlement) {
    && r'.mandateId == r.mandateId && r'.cart == r.cart && r'.cartHash == r.cartHash
    && r'.amount == r.amount && r'.merchantId == r.merchantId && r'.createdAt == r.createdAt
    && r.kicks <= r'.kicks
    && Leads(r.state, r'.state)
  }

  ghost predicate History(db: Db, db': Db) {
    && |db.settlements| <= |db'.settlements|
    && (forall i :: 0 <= i < |db.settlements| ==> Became(db.settlements[i], db'.settlements[i]))
    && (forall i :: |db.settlements| <= i < |db'.settlements| ==> Leads(Created, db'.settlements[i].state))
  }

  /** Row r after one step: the same terms, and at most one edge further. */
  predicate OneEdge(r: Settlement, r': Settlement) {
    && r'.mandateId == r.mandateId && r'.cart == r.cart && r'.cartHash == r.cartHash
    && r'.amount == r.amount && r'.merchantId == r.merchantId && r'.createdAt == r.createdAt
    && r.kicks <= r'.kicks
    && (r'.state == r.state || r'.state in SettlementEdges(r.state))
  }

  lemma RowStep(db: Db, db': Db, e: Effect, now: int, i: nat)
    requires Does(db, db', e, now) && i < |db.settlements|
    ensures i < |db'.settlements| && OneEdge(db.settlements[i], db'.settlements[i])
  {
    hide Reports;
    hide RowFor;
    hide OverThreshold;
    hide Spent;
    hide Admissible;
    hide MandateBusy;
    if e.Reserves? { assert db'.settlements[i] == db'.settlements[..|db.settlements|][i]; }
  }

  lemma NewRowState(db: Db, db': Db, e: Effect, now: int)
    requires Does(db, db', e, now) && |db'.settlements| != |db.settlements|
    ensures |db'.settlements| == |db.settlements| + 1
    ensures db'.settlements[|db.settlements|].state in {Rejected, PendingApproval, Approved}
  {
    hide Reports;
    hide RowFor;
    hide OverThreshold;
    hide Spent;
    hide Admissible;
    hide MandateBusy;
  }

  /** The path of a new row through the gate. */
  lemma NewRowPath(s: SettlementState)
    requires s in {Rejected, PendingApproval, Approved}
    ensures Leads(Created, s)
  {
    LeadsItself(Created);
    LeadsOn(Created, Created, Verifying);
    if s == Rejected {
      LeadsOn(Created, Verifying, Rejected);
    } else {
      LeadsOn(Created, Verifying, Verified);
      LeadsOn(Created, Verified, s);
    }
  }

  lemma RowHistory(r0: Settlement, r: Settlement, r': Settlement)
    requires Became(r0, r) && OneEdge(r, r')
    ensures Became(r0, r')
  {
    LeadsOn(r0.state, r.state, r'.state);
  }

  lemma StepHistory(w0: World, w: World, s: Step)
    requires Sound(w) && History(w0.db, w.db)
    ensures History(w0.db, Next(w, s).db)
  {
    var e := StepEffect(w, s);
    hide Next;
    hide Sound;
    var db, db' := w.db, Next(w, s).db;
    if |db'.settlements| != |db.settlements| {
      NewRowState(db, db', e, w.now);
      NewRowPath(db'.settlements[|db.settlements|].state);
    }
    forall i | 0 <= i < |db.settlements|
      ensures i < |db'.settlements| && OneEdge(db.settlements[i], db'.settlements[i])
    {
      RowStep(db, db', e, w.now, i);
    }
    hide Does;
    RowsHistory(w0.db, db, db');
  }

  lemma RowsHistory(db0: Db, db: Db, db': Db)
    requires History(db0, db) && |db.settlements| <= |db'.settlements| <= |db.settlements| + 1
    requires forall i :: 0 <= i < |db.settlements| ==> OneEdge(db.settlements[i], db'.settlements[i])
    requires |db'.settlements| != |db.settlements| ==> Leads(Created, db'.settlements[|db.settlements|].state)
    ensures History(db0, db')
  {
    hide SettlementEdges;
    hide Leads;
    forall i | 0 <= i < |db0.settlements| ensures Became(db0.settlements[i], db'.settlements[i]) {
      assert Became(db0.settlements[i], db.settlements[i]) && OneEdge(db.settlements[i], db'.settlements[i]);
      RowHistory(db0.settlements[i], db.settlements[i], db'.settlements[i]);
      hide Became;
      hide OneEdge;
    }
    hide Became;
    forall i | |db0.settlements| <= i < |db.settlements| ensures Leads(Created, db'.settlements[i].state) {
      assert Leads(Created, db.settlements[i].state) && OneEdge(db.settlements[i], db'.settlements[i]);
      LeadsOn(Created, db.settlements[i].state, db'.settlements[i].state);
    }
  }

  lemma {:induction false} RunHistoryFrom(w0: World, w: World, steps: seq<Step>)
    requires Sound(w) && History(w0.db, w.db)
    ensures Sound(Run(w, steps)) && History(w0.db, Run(w, steps).db)
    decreases |steps|
  {
    hide Sound;
    hide History;
    hide Next;
    if steps != [] {
      StepSound(w, steps[0]);
      StepHistory(w0, w, steps[0]);
      RunHistoryFrom(w0, Next(w, steps[0]), steps[1..]);
    }
  }

  /** Over any run no row leaves the graph and no row's terms change. */
  lemma RunHistory(w: World, steps: seq<Step>)
    requires Sound(w)
    ensures Sound(Run(w, steps)) && History(w.db, Run(w, steps).db)
  {
    hide Sound;
    forall i | 0 <= i < |w.db.settlements| ensures Became(w.db.settlements[i], w.db.settlements[i]) {
      LeadsItself(w.db.settlements[i].state);
    }
    RunHistoryFrom(w, w, steps);
  }

  /** A terminal row is final: no run changes its state again. */
  lemma TerminalIsFinal(w: World, steps: seq<Step>, i: nat)
    requires Sound(w) && i < |w.db.settlements| && Terminal(w.db.settlements[i].state)
    ensures i < |Run(w, steps).db.settlements|
    ensures Run(w, steps).db.settlements[i].state == w.db.settlements[i].state
  {
    RunHistory(w, steps);
    hide Sound;
    hide Run;
    assert Became(w.db.settlements[i], Run(w, steps).db.settlements[i]);
    FinalLeadsNowhere(w.db.settlements[i].state, Run(w, steps).db.settlements[i].state);
  }
}
