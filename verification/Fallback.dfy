/** The executor does not give up: whatever the provider refuses, three checkouts are tried and then a
    payment link is issued, from the first execution, from a resume, and after a crash. */
module Fallback {
  import opened Options
  import opened Texts
  import opened Mandates
  import opened Verify
  import opened Schema
  import opened Protocol
  import opened Tables
  import opened Effects
  import opened Attempts
  import opened Revocation
  import opened Gate
  import opened Answers
  import opened Safety

  /** How one checkout is refused: no order can be made, or the driver reports that it was not paid. */
  datatype Refusal = NoOrder | Declined(orderId: Text)

  function CheckoutSteps(r: Refusal): seq<Step> {
    match r
    case NoOrder => [RunLoop, RunOrder(OrderFailed)]
    case Declined(o) => [RunLoop, RunOrder(OrderCreated(o)), RunDriver(NotPaid), RunFail]
  }

  function RefusedSteps(refusals: seq<Refusal>): seq<Step> {
    if refusals == [] then []
    else RefusedSteps(refusals[..|refusals| - 1]) + CheckoutSteps(refusals[|refusals| - 1])
  }

  /** The row that a refused checkout leaves. */
  function FailedRow(i: nat, r: Refusal, now: int): Attempt {
    Attempt(i, CheckoutDriver, AttemptFailed, if r.NoOrder? then None else Some(r.orderId), None, now)
  }

  function FailedRows(i: nat, refusals: seq<Refusal>, now: int): seq<Attempt> {
    seq(|refusals|, k requires 0 <= k < |refusals| => FailedRow(i, refusals[k], now))
  }

  /** The events of k refused checkouts, the first of them attempt a: each begun and failed. */
  function Trail(i: nat, a: nat, k: nat): seq<Event> {
    if k == 0 then [] else Trail(i, a, k - 1) + [AttemptInitiated(i, a + k - 1), PaymentFailed(i, a + k - 1)]
  }

  /** The executor stands at the head of its loop, with checkout n to come. */
  predicate AtHead(w: World, i: nat, n: nat) { w.pc.LoopHead? && w.pc.id == i && w.pc.n == n }

  /** What did not change on the way from w to w'. */
  predicate SameAround(w: World, w': World) {
    w'.db.settlements == w.db.settlements && w'.inFlight == w.inFlight && w'.now == w.now
  }

  lemma Invariants(w: World)
    requires Inv(w)
    ensures Sound(w) && RunOk(w) && PcCounts(w)
  {}

  lemma NoOrderFails(w: World, i: nat, n: nat)
    requires PcCounts(w) && AtHead(w, i, n) && n <= 3
    ensures var w', a := Next(Next(w, RunLoop), RunOrder(OrderFailed)), |w.db.attempts|;
      && SameAround(w, w') && w'.pc == LoopHead(i, n + 1, Some(a))
      && w'.db.attempts == w.db.attempts + [FailedRow(i, NoOrder, w.now)]
      && w'.db.ledger == w.db.ledger + [AttemptInitiated(i, a), PaymentFailed(i, a)]
  {
    hide PcCounts;
    hide Next;
    LoopOutcome(w);
    var w1 := Next(w, RunLoop);
    ClockMoves(w, RunLoop);
    OrderOutcome(w1, OrderFailed);
    ClockMoves(w1, RunOrder(OrderFailed));
  }

  lemma DeclineFails(w: World, i: nat, n: nat, o: Text)
    requires PcCounts(w) && AtHead(w, i, n) && n <= 3
    ensures var a := |w.db.attempts|;
      var w' := Next(Next(Next(Next(w, RunLoop), RunOrder(OrderCreated(o))), RunDriver(NotPaid)), RunFail);
      && SameAround(w, w') && w'.pc == LoopHead(i, n + 1, Some(a))
      && w'.db.attempts == w.db.attempts + [FailedRow(i, Declined(o), w.now)]
      && w'.db.ledger == w.db.ledger + [AttemptInitiated(i, a), PaymentFailed(i, a)]
  {
    hide PcCounts;
    hide Next;
    LoopOutcome(w);
    var w1 := Next(w, RunLoop);
    ClockMoves(w, RunLoop);
    OrderOutcome(w1, OrderCreated(o));
    var w2 := Next(w1, RunOrder(OrderCreated(o)));
    ClockMoves(w1, RunOrder(OrderCreated(o)));
    NotPaidOutcome(w2);
    ClockMoves(Next(w2, RunDriver(NotPaid)), RunFail);
  }

  /** One refused checkout: a failed row, its two events, and the next checkout is up. */
  lemma OneRefusal(w: World, i: nat, n: nat, r: Refusal)
    requires Inv(w) && AtHead(w, i, n) && n <= 3
    ensures var w', a := Run(w, CheckoutSteps(r)), |w.db.attempts|;
      && Inv(w') && SameAround(w, w') && w'.pc == LoopHead(i, n + 1, Some(a))
      && w'.db.attempts == w.db.attempts + [FailedRow(i, r, w.now)]
      && w'.db.ledger == w.db.ledger + [AttemptInitiated(i, a), PaymentFailed(i, a)]
  {
    Invariants(w);
    RunInv(w, CheckoutSteps(r));
    hide Inv;
    hide Sound;
    hide RunOk;
    hide PcCounts;
    hide Next;
    match r
    case NoOrder =>
      NoOrderFails(w, i, n);
      RunTwo(w, RunLoop, RunOrder(OrderFailed));
      hide Run;
    case Declined(o) =>
      DeclineFails(w, i, n, o);
      RunFour(w, RunLoop, RunOrder(OrderCreated(o)), RunDriver(NotPaid), RunFail);
      hide Run;
  }

  lemma RunTwo(w: World, a: Step, b: Step)
    ensures Run(w, [a, b]) == Next(Next(w, a), b)
  {
    hide Next;
    assert [a] + [b] == [a, b] && [b] + [] == [b];
    RunOne(w, a, [b]);
    RunOne(Next(w, a), b, []);
    assert Run(Next(Next(w, a), b), []) == Next(Next(w, a), b);
  }

  lemma RunFour(w: World, a: Step, b: Step, c: Step, d: Step)
    ensures Run(w, [a, b, c, d]) == Next(Next(Next(Next(w, a), b), c), d)
  {
    hide Next;
    hide Run;
    assert [a] + [b, c, d] == [a, b, c, d];
    RunOne(w, a, [b, c, d]);
    RunThree(Next(w, a), b, c, d);
  }

  /** Any number of refused checkouts, as long as three are not exceeded. */
  lemma {:induction false} Refusals(w: World, i: nat, n: nat, refusals: seq<Refusal>)
    requires Inv(w) && AtHead(w, i, n) && n + |refusals| <= 4
    ensures var w', a := Run(w, RefusedSteps(refusals)), |w.db.attempts|;
      && Inv(w') && SameAround(w, w') && AtHead(w', i, n + |refusals|)
      && w'.db.attempts == w.db.attempts + FailedRows(i, refusals, w.now)
      && w'.db.ledger == w.db.ledger + Trail(i, a, |refusals|)
    decreases |refusals|
  {
    hide Inv;
    hide CheckoutSteps;
    hide Next;
    if refusals == [] {
      assert Run(w, []) == w;
    } else {
      var front, last := refusals[..|refusals| - 1], refusals[|refusals| - 1];
      Refusals(w, i, n, front);
      hide Run;
      var w1 := Run(w, RefusedSteps(front));
      OneRefusal(w1, i, n + |front|, last);
      RunConcat(w, RefusedSteps(front), CheckoutSteps(last));
      assert FailedRows(i, refusals, w.now) == FailedRows(i, front, w.now) + [FailedRow(i, last, w.now)];
    }
  }

  /** After the third the link is issued and the executor puts the settlement down. */
  lemma LinkIssued(w: World, i: nat)
    requires Inv(w) && AtHead(w, i, 4)
    ensures var w', a := Run(w, [RunLoop, RunLink(LinkCreated)]), |w.db.attempts|;
      && Inv(w') && w'.db.settlements == w.db.settlements && PutDown(w, w', i)
      && w'.db.attempts == w.db.attempts + [Attempt(i, PaymentLink, AwaitingConfirmation, None, None, w.now)]
      && w'.db.ledger == w.db.ledger + [PaymentLinkIssued(i, a)]
  {
    Invariants(w);
    StepInv(w, RunLoop);
    Invariants(Next(w, RunLoop));
    StepInv(Next(w, RunLoop), RunLink(LinkCreated));
    hide Inv;
    hide Sound;
    hide RunOk;
    hide PcCounts;
    hide Next;
    LoopOutcome(w);
    ClockMoves(w, RunLoop);
    LinkOutcome(Next(w, RunLoop), LinkCreated);
    RunTwo(w, RunLoop, RunLink(LinkCreated));
    hide Run;
  }

  /** The steps of the executor from the head of its loop to the end. */
  function ToTheLink(refusals: seq<Refusal>): seq<Step> { RefusedSteps(refusals) + [RunLoop, RunLink(LinkCreated)] }

  /** The rows and events of a settlement that was refused everywhere: the remaining checkouts failed,
      one link waits. */
  ghost predicate FellBack(w: World, w': World, i: nat, refusals: seq<Refusal>) {
    var a, c := |w.db.attempts|, |refusals|;
    && w'.db.settlements == w.db.settlements && w'.pc == Idle && i !in w'.inFlight
    && w'.db.attempts == w.db.attempts + FailedRows(i, refusals, w.now)
         + [Attempt(i, PaymentLink, AwaitingConfirmation, None, None, w.now)]
    && w'.db.ledger == w.db.ledger + Trail(i, a, c) + [PaymentLinkIssued(i, a + c)]
  }

  lemma LoopRunsOut(w: World, i: nat, n: nat, refusals: seq<Refusal>)
    requires Inv(w) && AtHead(w, i, n) && n + |refusals| == 4
    ensures Inv(Run(w, ToTheLink(refusals))) && FellBack(w, Run(w, ToTheLink(refusals)), i, refusals)
  {
    hide Inv;
    hide Run;
    hide Trail;
    Refusals(w, i, n, refusals);
    var w1 := Run(w, RefusedSteps(refusals));
    LinkIssued(w1, i);
    RunConcat(w, RefusedSteps(refusals), [RunLoop, RunLink(LinkCreated)]);
    assert |FailedRows(i, refusals, w.now)| == |refusals|;
  }

  // ---------------------------------------------------------------- to the link

  /** Settlement i has exactly three checkouts, all failed, and one payment link, which waits. */
  ghost predicate AllRefused(db: Db, i: nat) {
    && Checkouts(db, i) == 3 && Links(db, i) == 1
    && forall a :: 0 <= a < |db.attempts| && db.attempts[a].settlement == i ==>
         if db.attempts[a].via == CheckoutDriver then db.attempts[a].state == AttemptFailed
         else db.attempts[a].state == AwaitingConfirmation
  }

  /** At the head of the loop every earlier row of a settling settlement is a failed checkout. */
  lemma HeadRows(w: World, i: nat, n: nat)
    requires Sound(w) && RunOk(w) && AtHead(w, i, n) && InState(w.db, i, Settling)
    ensures n > 0 && Checkouts(w.db, i) == n - 1 && Links(w.db, i) == 0
    ensures forall a :: 0 <= a < |w.db.attempts| && w.db.attempts[a].settlement == i ==>
      w.db.attempts[a].via == CheckoutDriver && w.db.attempts[a].state == AttemptFailed
  {
    CountPositive(w.db.attempts, i, PaymentLink);
    NoneCaptured(w.db, i);
    hide Count;
    hide TablesOk;
    hide Bounded;
    hide ReceiptsOk;
    hide FetchesCheckouts;
    hide TasksOk;
    hide PcOk;
    forall a | 0 <= a < |w.db.attempts| && w.db.attempts[a].settlement == i
      ensures w.db.attempts[a].via == CheckoutDriver && w.db.attempts[a].state == AttemptFailed
    {
      assert !HasAttempt(w.db, i, Initiated) && !HasAttempt(w.db, i, AwaitingConfirmation);
    }
  }

  lemma LinkCompletes(db: Db, db': Db, i: nat, now: int)
    requires db'.attempts == db.attempts + [Attempt(i, PaymentLink, AwaitingConfirmation, None, None, now)]
    requires Checkouts(db, i) == 3 && Links(db, i) == 0
    requires forall a :: 0 <= a < |db.attempts| && db.attempts[a].settlement == i ==>
      db.attempts[a].via == CheckoutDriver && db.attempts[a].state == AttemptFailed
    ensures AllRefused(db', i)
  {
    var link := Attempt(i, PaymentLink, AwaitingConfirmation, None, None, now);
    CountAppend(db.attempts, link, i, CheckoutDriver);
    CountAppend(db.attempts, link, i, PaymentLink);
    hide Count;
  }

  /** From the head of the loop, with every remaining checkout refused in any way: three failed rows,
      each begun and failed in the ledger, one link that waits, and the executor free. */
  lemma LoopFallsBack(w: World, i: nat, n: nat, refusals: seq<Refusal>)
    requires Inv(w) && AtHead(w, i, n) && InState(w.db, i, Settling) && n + |refusals| == 4
    ensures var w' := Run(w, ToTheLink(refusals)); FellBack(w, w', i, refusals) && AllRefused(w'.db, i)
  {
    LoopRunsOut(w, i, n, refusals);
    Refusals(w, i, n, refusals);
    var w1 := Run(w, RefusedSteps(refusals));
    Invariants(w1);
    hide Inv;
    hide Run;
    hide RunOk;
    hide Sound;
    hide PcCounts;
    HeadRows(w1, i, 4);
    LinkCompletes(w1.db, Run(w, ToTheLink(refusals)).db, i, w.now);
    hide AllRefused;
    hide Trail;
    hide FailedRows;
  }

  /** A resume goes on exactly when the settlement is settling and no attempt of it is live, counting
      the checkouts there are. */
  lemma ResumeOutcome(w: World, i: nat)
    requires w.pc == Idle && w.chain != [] && w.chain[0] == Resume(i)
    ensures var w' := Next(w, RunStart);
      && w'.db == w.db && w'.chain == w.chain[1..] && w'.now == w.now
      && if InState(w.db, i, Settling) && !HasActiveAttempt(w.db, i) then
           w'.pc == LoopHead(i, Checkouts(w.db, i) + 1, None) && w'.inFlight == w.inFlight
         else PutDown(w, w', i)
  {
    NextOf(w, RunStart);
    hide Next;
    hide Count;
    hide HasActiveAttempt;
  }

  lemma SameStart(w: World, w1: World, w': World, i: nat, refusals: seq<Refusal>)
    requires w1.db == w.db && w1.now == w.now
    ensures FellBack(w1, w', i, refusals) ==> FellBack(w, w', i, refusals)
  {
    hide Trail;
    hide FailedRows;
  }

  /** A resume picks up where the last run left off. */
  lemma ResumeFallsBack(w: World, i: nat, refusals: seq<Refusal>)
    requires Inv(w) && w.pc == Idle && w.chain != [] && w.chain[0] == Resume(i)
    requires InState(w.db, i, Settling) && !HasActiveAttempt(w.db, i) && Checkouts(w.db, i) + |refusals| == 3
    ensures var w' := Run(w, [RunStart] + ToTheLink(refusals)); FellBack(w, w', i, refusals) && AllRefused(w'.db, i)
  {
    hide Inv;
    hide Next;
    hide Run;
    hide Checkouts;
    hide HasActiveAttempt;
    hide ToTheLink;
    hide AllRefused;
    hide FellBack;
    StepInv(w, RunStart);
    ResumeOutcome(w, i);
    var w1 := Next(w, RunStart);
    RunOne(w, RunStart, ToTheLink(refusals));
    LoopFallsBack(w1, i, Checkouts(w.db, i) + 1, refusals);
    SameStart(w, w1, Run(w1, ToTheLink(refusals)), i, refusals);
  }

  /** A crash forgets the queue, the run and the waiting reconciles, and no row. */
  lemma CrashOutcome(w: World)
    ensures Next(w, Crash) == World(w.now, w.db, {}, [], Idle, map[])
  {}

  /** And so does the sweep after a crash, for a settlement left settling without a live attempt. */
  lemma CrashFallsBack(w: World, i: nat, cutoff: int, refusals: seq<Refusal>)
    requires Inv(w) && Waited(w, i, Settling, cutoff)
    requires !HasActiveAttempt(w.db, i) && Checkouts(w.db, i) + |refusals| == 3
    ensures var w' := Run(w, [Crash, SweepSettlingStep(i, cutoff), RunStart] + ToTheLink(refusals));
      && AllRefused(w'.db, i) && InState(w'.db, i, Settling) && w'.pc == Idle
      && |w'.db.attempts| == |w.db.attempts| + |refusals| + 1
  {
    hide Inv;
    hide Next;
    hide HasActiveAttempt;
    var w1 := Next(w, Crash);
    StepInv(w, Crash);
    CrashOutcome(w);
    var w2 := Next(w1, SweepSettlingStep(i, cutoff));
    StepInv(w1, SweepSettlingStep(i, cutoff));
    hide Flagged;
    StuckSweepOutcome(w1, i, cutoff);
    SameAttempts(w.db, w2.db, i);
    hide Run;
    hide Count;
    var rest := [RunStart] + ToTheLink(refusals);
    RunOne(w, Crash, [SweepSettlingStep(i, cutoff)] + rest);
    RunOne(w1, SweepSettlingStep(i, cutoff), rest);
    assert [Crash, SweepSettlingStep(i, cutoff), RunStart] + ToTheLink(refusals)
      == [Crash] + ([SweepSettlingStep(i, cutoff)] + rest);
    ResumeFallsBack(w2, i, refusals);
    hide AllRefused;
    hide ToTheLink;
    hide Trail;
  }

  /** And so does the first execution of an approved settlement that meets every check of the gate. */
  lemma ExecuteFallsBack(w: World, i: nat, refusals: seq<Refusal>)
    requires Inv(w) && ExecutesNext(w, i) && InState(w.db, i, Approved) && |refusals| == 3
    requires w.db.settlements[i].mandateId in w.db.mandates
    requires var r := w.db.settlements[i];
      var intent := w.db.mandates[r.mandateId].intent;
      Addressed(intent, r) && MeetsAll(0, w.db, intent, r.cart, w.now, i)
    ensures var w' := Run(w, [RunStart] + ToTheLink(refusals));
      AllRefused(w'.db, i) && InState(w'.db, i, Settling) && w'.pc == Idle
      && |w'.db.attempts| == |w.db.attempts| + 4
  {
    hide Inv;
    hide Next;
    hide Run;
    hide HasActiveAttempt;
    hide ToTheLink;
    hide AllRefused;
    hide Trail;
    StepInv(w, RunStart);
    Executed(w, i);
    hide MeetsAll;
    hide Addressed;
    var w1 := Next(w, RunStart);
    RunOne(w, RunStart, ToTheLink(refusals));
    LoopFallsBack(w1, i, 1, refusals);
  }

  /** The stored terms and cart still have the address of the settlement. */
  predicate Addressed(intent: SignedIntent, r: Settlement) { MandateCartHash(intent, r.cart) == r.cartHash }

  lemma Executed(w: World, i: nat)
    requires Inv(w) && ExecutesNext(w, i) && InState(w.db, i, Approved)
    requires w.db.settlements[i].mandateId in w.db.mandates
    requires var r := w.db.settlements[i];
      var intent := w.db.mandates[r.mandateId].intent;
      Addressed(intent, r) && MeetsAll(0, w.db, intent, r.cart, w.now, i)
    ensures var w' := Next(w, RunStart);
      AtHead(w', i, 1) && InState(w'.db, i, Settling) && w'.db.attempts == w.db.attempts
  {
    EntryOutcome(w, i);
    NoAttemptsYet(w.db, i);
    ExecuteKeepsAttempts(w, i);
    hide Next;
    hide FirstFailing;
    hide MeetsAll;
    hide MandateCartHash;
    hide Signature;
    hide Count;
    hide HasActiveAttempt;
    hide Inv;
  }

  lemma ExecuteKeepsAttempts(w: World, i: nat)
    requires ExecutesNext(w, i)
    ensures Next(w, RunStart).db.attempts == w.db.attempts
  {
    NextOf(w, RunStart);
    hide Next;
    hide VerifyChain;
    hide BuildContext;
    hide MandateCartHash;
    hide Count;
  }
}
