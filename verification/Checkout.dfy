/** The protocol gets somewhere: a chained cart within every line is captured, without a human, by
    the shortest run. */
module Checkout {
  import opened Options
  import opened Texts
  import opened Crypto
  import opened Doubles
  import opened Mandates
  import opened Verify
  import opened Schema
  import opened Protocol

  /** The cart that the gate lets through at once on a fresh mandate: signed by both keys, exact,
      in scope, in time, within every limit and below every approval line. */
  predicate GoodCart(intent: SignedIntent, cart: SignedCart, credential: Credential, now: int) {
    && SafeIntent(intent) && SafeCart(cart)
    && Chained(intent, cart, credential)
    && ExactTotal(Lines(cart.items)) == cart.total
    && cart.merchantId in intent.merchants
    && now <= intent.expiresAt + SKEW
    && SkusAllowed(cart.items, intent.allowedSkus)
    && cart.total <= intent.ceiling
    && (MerchantLimit(intent, cart.merchantId).Some? ==> cart.total <= MerchantLimit(intent, cart.merchantId).value)
    && !OverThreshold(intent, cart.total, 0)
  }

  /** A world that holds one fresh mandate and nothing else. */
  predicate Fresh(w: World, intent: SignedIntent, credential: Credential) {
    && w.db.mandates == map[intent.mandateId := Mandate(intent, credential, None)]
    && w.db.settlements == [] && w.db.attempts == [] && w.db.catalogs == map[] && w.db.keys == map[]
    && w.inFlight == {} && w.chain == [] && w.pc == Idle
  }

  /** The only row, in a given state, of this intent and cart. */
  predicate OnlyRow(w: World, intent: SignedIntent, cart: SignedCart, credential: Credential, s: SettlementState) {
    && w.db.mandates == map[intent.mandateId := Mandate(intent, credential, None)]
    && w.db.catalogs == map[]
    && |w.db.settlements| == 1
    && var r := w.db.settlements[0];
       && r.mandateId == intent.mandateId && r.cart == cart && r.cartHash == MandateCartHash(intent, cart)
       && r.amount == cart.total && r.merchantId == cart.merchantId && r.state == s
  }

  lemma NothingCapturedYet(rows: seq<Settlement>, m: Text, merchant: Text)
    requires |rows| == 1 && rows[0].state != Captured
    ensures Spent(rows, m) == 0 && SpentAt(rows, m, merchant) == 0
  {
    SumZero(rows, CapturedOf(m));
    SumZero(rows, CapturedAt(m, merchant));
  }

  lemma NotADuplicate(db: Db, h: Text)
    requires |db.settlements| == 1
    ensures !CartTaken(db, h, Some(0))
  {}

  /** The gate passes a good cart on the row that asks for it, now and again at the entry. */
  lemma GatePasses(w: World, intent: SignedIntent, cart: SignedCart, credential: Credential, s: SettlementState)
    requires OnlyRow(w, intent, cart, credential, s) && s != Captured && GoodCart(intent, cart, credential, w.now)
    ensures VerifyChain(intent, cart, BuildContext(w.db, intent, cart, w.now, 0)) ==
      Pass(false, MandateCartHash(intent, cart))
  {
    NothingCapturedYet(w.db.settlements, intent.mandateId, cart.merchantId);
    NotADuplicate(w.db, MandateCartHash(intent, cart));
    var ctx := BuildContext(w.db, intent, cart, w.now, 0);
    assert ctx == Context(w.now, Some(credential), false, 0, 0, None, false);
    GateIsExact(intent, cart, ctx);
    hide BuildContext;
    hide VerifyChain;
    hide MandateCartHash;
    hide OverThreshold;
    hide MerchantLimit;
    hide SkusAllowed;
    hide ExactTotal;
    hide Lines;
    hide Chained;
    hide SafeIntent;
    hide SafeCart;
  }

  /** `createSettlement` on the empty tables goes straight to `approved`. */
  lemma CreateApproves(w: World, intent: SignedIntent, cart: SignedCart, credential: Credential)
    requires w.db.mandates == map[intent.mandateId := Mandate(intent, credential, None)]
    requires w.db.settlements == [] && w.db.catalogs == map[] && GoodCart(intent, cart, credential, w.now)
    ensures CreateSettlement(w.db, intent, cart, w.now) ==
      Conclude(Reserve(w.db, intent, cart, w.now), 0, Pass(false, MandateCartHash(intent, cart)), w.now)
  {
    hide MandateCartHash;
    var verifying := Reserve(w.db, intent, cart, w.now);
    GatePasses(w.(db := verifying), intent, cart, credential, Verifying);
    hide BuildContext;
    hide VerifyChain;
    hide GoodCart;
    hide Conclude;
    assert !CartTaken(w.db, MandateCartHash(intent, cart), None) && !MandateBusy(w.db, intent.mandateId);
    hide CartTaken;
    hide MandateBusy;
  }

  lemma PostApproves(w: World, intent: SignedIntent, cart: SignedCart, credential: Credential, key: Text, h: Text)
    requires Fresh(w, intent, credential) && GoodCart(intent, cart, credential, w.now)
    ensures var w' := Post(w, key, h, intent, cart, false);
      && OnlyRow(w', intent, cart, credential, Approved)
      && w'.db.attempts == [] && w'.chain == [Execute(0)] && w'.inFlight == {0} && w'.pc == Idle && w'.now == w.now
  {
    hide MandateCartHash;
    CreateApproves(w.(db := Lock(w.db, key, h, w.now)), intent, cart, credential);
    hide CreateSettlement;
    hide GoodCart;
  }

  lemma EntrySettles(w: World, intent: SignedIntent, cart: SignedCart, credential: Credential)
    requires OnlyRow(w, intent, cart, credential, Approved) && GoodCart(intent, cart, credential, w.now)
    requires w.db.attempts == [] && w.chain == [Execute(0)] && w.pc == Idle
    ensures var w' := StartRun(w);
      && OnlyRow(w', intent, cart, credential, Settling)
      && w'.db.attempts == [] && w'.pc == LoopHead(0, 1, None) && w'.now == w.now
  {
    hide MandateCartHash;
    GatePasses(w, intent, cart, credential, Approved);
    hide BuildContext;
    hide VerifyChain;
    hide GoodCart;
    assert EnterSettling(w.db, 0, w.now) == Entered(SetState(w.db, 0, Settling, w.now));
    hide EnterSettling;
  }

  /** The first attempt is inserted, then its order is stored. */
  lemma OrderIsStored(w: World, intent: SignedIntent, cart: SignedCart, credential: Credential, o: Text)
    requires OnlyRow(w, intent, cart, credential, Settling) && w.db.attempts == [] && w.pc == LoopHead(0, 1, None)
    ensures LoopStep(w).db.attempts == [Attempt(0, CheckoutDriver, Initiated, None, None, w.now)]
    ensures var w' := OrderAnswer(LoopStep(w), OrderCreated(o));
      && OnlyRow(w', intent, cart, credential, Settling) && w'.pc == Driving(0, 1, 0) && w'.now == w.now
      && w'.db.attempts == [Attempt(0, CheckoutDriver, Initiated, Some(o), None, w.now)]
  {
    hide MandateCartHash;
    var w1 := LoopStep(w);
    assert !HasActiveAttempt(w.db, 0);
    assert w1.db.attempts == [Attempt(0, CheckoutDriver, Initiated, None, None, w.now)] && w1.pc == Ordering(0, 1, 0);
    assert OnlyRow(w1, intent, cart, credential, Settling) && w1.now == w.now;
    hide LoopStep;
  }

  lemma DriverPays(w: World, intent: SignedIntent, cart: SignedCart, credential: Credential, o: Text, p: Text)
    requires OnlyRow(w, intent, cart, credential, Settling) && w.pc == Driving(0, 1, 0)
    requires w.db.attempts == [Attempt(0, CheckoutDriver, Initiated, Some(o), None, w.now)]
    ensures var w' := DriverAnswer(w, Paid(p));
      && OnlyRow(w', intent, cart, credential, Captured)
      && w'.db.attempts == [Attempt(0, CheckoutDriver, AttemptCaptured, Some(o), Some(p), w.now)]
  {
    hide MandateCartHash;
    assert ApplyCapture(w.db, 0, Initiated, 0, p, w.now).Applied?;
  }

  // ---------------------------------------------------------------- the run

  /** From nothing to the checkout page. */
  function OpeningRun(intent: SignedIntent, cart: SignedCart, credential: Credential,
                      token: Text, key: Text, h: Text, o: Text): seq<Step> {
    [MintToken(token), RegisterStep(intent, credential, token), PostStep(key, h, intent, cart, false),
     RunStart, RunLoop, RunOrder(OrderCreated(o))]
  }

  function ShortestRun(intent: SignedIntent, cart: SignedCart, credential: Credential,
                       token: Text, key: Text, h: Text, o: Text, p: Text): seq<Step> {
    OpeningRun(intent, cart, credential, token, key, h, o) + [RunDriver(Paid(p))]
  }

  lemma Opening(intent: SignedIntent, credential: Credential, token: Text)
    requires VerifySignature(IntentSigningBytes(intent), intent.sig, credential) == Valid
    ensures Fresh(Next(Next(START, MintToken(token)), RegisterStep(intent, credential, token)), intent, credential)
    ensures Next(Next(START, MintToken(token)), RegisterStep(intent, credential, token)).now == 0
  {
    hide VerifySignature;
    hide IntentSigningBytes;
  }

  /** The world with the order stored and the checkout driver at work. */
  predicate AtTheTill(w: World, intent: SignedIntent, cart: SignedCart, credential: Credential, o: Text) {
    && OnlyRow(w, intent, cart, credential, Settling) && w.pc == Driving(0, 1, 0) && w.now == 0
    && w.db.attempts == [Attempt(0, CheckoutDriver, Initiated, Some(o), None, 0)]
  }

  lemma GoodIsSigned(intent: SignedIntent, cart: SignedCart, credential: Credential)
    requires GoodCart(intent, cart, credential, 0)
    ensures SafeIntent(intent) && VerifySignature(IntentSigningBytes(intent), intent.sig, credential) == Valid
  {}

  lemma OpeningReachesTheTill(intent: SignedIntent, cart: SignedCart, credential: Credential,
                              token: Text, key: Text, h: Text, o: Text)
    requires GoodCart(intent, cart, credential, 0)
    ensures AtTheTill(Run(START, OpeningRun(intent, cart, credential, token, key, h, o)), intent, cart, credential, o)
    ensures var w := Before(START, OpeningRun(intent, cart, credential, token, key, h, o), 5);
      forall k :: 0 <= k < |w.db.attempts| ==> w.db.attempts[k].orderId == None
  {
    hide Run;
    hide Before;
    hide Post;
    hide StartRun;
    hide OrderAnswer;
    hide LoopStep;
    hide GoodCart;
    hide Fresh;
    hide OnlyRow;
    hide MandateCartHash;
    var steps := OpeningRun(intent, cart, credential, token, key, h, o);
    Unrolled(START, steps);
    GoodIsSigned(intent, cart, credential);
    var w2 := Next(Next(START, steps[0]), steps[1]);
    Opening(intent, credential, token);
    hide VerifySignature;
    PostApproves(w2, intent, cart, credential, key, h);
    var w3 := Post(w2, key, h, intent, cart, false);
    EntrySettles(w3, intent, cart, credential);
    var w4 := StartRun(w3);
    OrderIsStored(w4, intent, cart, credential, o);
    var w5 := LoopStep(w4);
    NextOf(w2, steps[2]);
    NextOf(w3, steps[3]);
    NextOf(w4, steps[4]);
    NextOf(w5, steps[5]);
    hide Next;
  }

  /** Six steps, one after the other. */
  lemma Unrolled(w: World, steps: seq<Step>)
    requires |steps| == 6
    ensures var w5 := Next(Next(Next(Next(Next(w, steps[0]), steps[1]), steps[2]), steps[3]), steps[4]);
      Before(w, steps, 5) == w5 && Run(w, steps) == Next(w5, steps[5])
  {
    hide Next;
    BeforeStart(w, steps);
    hide Run;
    hide Before;
    BeforeNext(w, steps, 0);
    BeforeNext(w, steps, 1);
    BeforeNext(w, steps, 2);
    BeforeNext(w, steps, 3);
    BeforeNext(w, steps, 4);
    BeforeNext(w, steps, 5);
    BeforeEnd(w, steps);
  }

  /** Seven steps from an empty database to a captured settlement. */
  lemma GoodCartIsCaptured(intent: SignedIntent, cart: SignedCart, credential: Credential,
                           token: Text, key: Text, h: Text, o: Text, p: Text)
    requires GoodCart(intent, cart, credential, 0)
    ensures var w := Run(START, ShortestRun(intent, cart, credential, token, key, h, o, p));
      && Reachable(w) && OnlyRow(w, intent, cart, credential, Captured)
      && w.db.attempts == [Attempt(0, CheckoutDriver, AttemptCaptured, Some(o), Some(p), 0)]
  {
    var opening := OpeningRun(intent, cart, credential, token, key, h, o);
    OpeningReachesTheTill(intent, cart, credential, token, key, h, o);
    var w := Run(START, opening);
    DriverPays(w, intent, cart, credential, o, p);
    NextOf(w, RunDriver(Paid(p)));
    RunLast(START, opening, RunDriver(Paid(p)));
    hide GoodCart;
    hide OnlyRow;
    hide Next;
    hide DriverAnswer;
    hide OpeningRun;
    hide Run;
  }
}
