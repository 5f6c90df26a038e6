/** The gate on the tables: which of the fourteen checks a request fails, read off the rows of the
    database, and what POST /settlements and the executor make of it. */
module Gate {
  import opened Options
  import opened Texts
  import opened Crypto
  import opened Doubles
  import opened Mandates
  import opened Verify
  import opened Schema
  import opened Protocol
  import opened Tables
  import opened Effects
  import opened Idempotency

  /** The checks after the schemas, in the order in which the gate names them. */
  const CHECKS: seq<Code> := [
    MANDATE_UNKNOWN, SIG_INVALID_INTENT, HASH_LINK_MISMATCH, SIG_INVALID_CART, LINE_ITEM_INVALID, PRICE_MISMATCH,
    CURRENCY_MISMATCH, MERCHANT_NOT_IN_SCOPE, MANDATE_EXPIRED, MANDATE_REVOKED, GOAL_MISMATCH,
    AMOUNT_EXCEEDS_CEILING, MERCHANT_LIMIT_EXCEEDED, DUPLICATE_CART]

  /** What the cart costs. */
  function Cost(items: seq<Item>): int {
    if items == [] then 0 else items[0].qty * items[0].unitPrice + Cost(items[1..])
  }

  /** Every item is in the merchant's catalog at the price of the cart; a merchant without prices asks
      for none. */
  predicate PricedByCatalog(db: Db, c: Cart) {
    c.merchantId in db.catalogs && db.catalogs[c.merchantId].Some? ==>
      forall k :: 0 <= k < |c.items| ==>
        && c.items[k].sku in db.catalogs[c.merchantId].value
        && db.catalogs[c.merchantId].value[c.items[k].sku] == c.items[k].unitPrice
  }

  /** Another settlement that did not fail holds a cart with this address. */
  predicate CartHeld(db: Db, cartHash: Text, self: nat) {
    exists j :: 0 <= j < |db.settlements| && j != self
      && db.settlements[j].cartHash == cartHash && db.settlements[j].state !in {Failed, Rejected, Abandoned}
  }

  /** The result of the signature check that comes with this code. */
  function Signature(check: Code, db: Db, i: SignedIntent, c: SignedCart): SigResult {
    if check == SIG_INVALID_INTENT && i.mandateId in db.mandates then
      VerifySignature(IntentSigningBytes(i), i.sig, db.mandates[i.mandateId].credential)
    else if check == SIG_INVALID_CART then
      VerifySignature(CartSigningBytes(c), Ed25519Sig(c.agentSig), Ed25519Key(i.agentKey))
    else Invalid
  }

  /** The check is met, on the rows of the database. */
  predicate Meets(check: Code, db: Db, i: SignedIntent, c: SignedCart, now: int, self: nat) {
    match check
    case MANDATE_UNKNOWN => i.mandateId in db.mandates
    case SIG_INVALID_INTENT => Signature(check, db, i, c) == Valid
    case HASH_LINK_MISMATCH => c.intentHash == Sha256Hex(IntentSigningBytes(i))
    case SIG_INVALID_CART => Signature(check, db, i, c) == Valid
    case LINE_ITEM_INVALID => Cost(c.items) == c.total
    case PRICE_MISMATCH => PricedByCatalog(db, c)
    case CURRENCY_MISMATCH => i.currency == Lit("INR")
    case MERCHANT_NOT_IN_SCOPE => c.merchantId in i.merchants
    case MANDATE_EXPIRED => now <= i.expiresAt + 60
    case MANDATE_REVOKED => i.mandateId in db.mandates ==> db.mandates[i.mandateId].revokedAt.None?
    case GOAL_MISMATCH =>
      i.allowedSkus.Some? ==> forall k :: 0 <= k < |c.items| ==> c.items[k].sku in i.allowedSkus.value
    case AMOUNT_EXCEEDS_CEILING => Spent(db.settlements, i.mandateId) + c.total <= i.ceiling
    case MERCHANT_LIMIT_EXCEEDED =>
      i.perMerchant.Some? && c.merchantId in i.perMerchant.value ==>
        SpentAt(db.settlements, i.mandateId, c.merchantId) + c.total <= i.perMerchant.value[c.merchantId]
    case DUPLICATE_CART => !CartHeld(db, MandateCartHash(i, c), self)
    case SCHEMA_INVALID => true
  }

  /** Check j is the first from place k on that is not met. */
  predicate FailsAt(j: nat, k: nat, db: Db, i: SignedIntent, c: SignedCart, now: int, self: nat) {
    && k <= j < 14 && !Meets(CHECKS[j], db, i, c, now, self)
    && forall h :: k <= h < j ==> Meets(CHECKS[h], db, i, c, now, self)
  }

  predicate MeetsAll(k: nat, db: Db, i: SignedIntent, c: SignedCart, now: int, self: nat) {
    forall j :: k <= j < 14 ==> Meets(CHECKS[j], db, i, c, now, self)
  }

  /** The code of the first check from place k on that is not met. */
  function FirstFailing(k: nat, db: Db, i: SignedIntent, c: SignedCart, now: int, self: nat): (r: Option<Code>)
    requires k <= 14
    ensures r.None? <==> MeetsAll(k, db, i, c, now, self)
    ensures r.Some? ==> exists j: nat :: FailsAt(j, k, db, i, c, now, self) && CHECKS[j] == r.value
    decreases 14 - k
  {
    if k == 14 then None
    else if !Meets(CHECKS[k], db, i, c, now, self) then
      assert FailsAt(k, k, db, i, c, now, self);
      Some(CHECKS[k])
    else
      var r := FirstFailing(k + 1, db, i, c, now, self);
      assert r.Some? ==> exists j: nat :: FailsAt(j, k, db, i, c, now, self) && CHECKS[j] == r.value by {
        if r.Some? {
          var j: nat :| FailsAt(j, k + 1, db, i, c, now, self) && CHECKS[j] == r.value;
          assert FailsAt(j, k, db, i, c, now, self);
        }
      }
      r
  }

  /** The verdict that the first unmet check asks for; undecodable key material is no verdict. */
  predicate Answers(v: Verdict, db: Db, i: SignedIntent, c: SignedCart, now: int, self: nat) {
    match FirstFailing(0, db, i, c, now, self)
    case None => v == Pass(AsksHuman(db, i, c), MandateCartHash(i, c))
    case Some(code) => v == if Signature(code, db, i, c) == Malformed then Threw else Reject(code)
  }

  /** The cart is above the per-cart threshold, or crosses the cumulative one. */
  predicate AsksHuman(db: Db, i: SignedIntent, c: SignedCart) {
    || c.total > i.approvalThreshold
    || (i.cumulativeThreshold.Some? && Spent(db.settlements, i.mandateId) + c.total > i.cumulativeThreshold.value)
  }

  // ---------------------------------------------------------------- the gate is these checks

  lemma {:induction false} CostIsTotal(items: seq<Item>)
    ensures Cost(items) == ExactTotal(Lines(items))
    decreases |items|
  {
    if items != [] {
      CostIsTotal(items[1..]);
      assert Lines(items)[1..] == Lines(items[1..]);
    }
  }

  lemma PricesByTables(db: Db, i: SignedIntent, c: SignedCart, now: int, self: nat)
    ensures PricesMatch(c.items, BuildContext(db, i, c, now, self).catalog) <==> PricedByCatalog(db, c)
  {
    hide Spent;
    hide SpentAt;
    hide CartTaken;
    hide MandateCartHash;
    hide MerchantLimit;
  }

  lemma DuplicateByTables(db: Db, i: SignedIntent, c: SignedCart, now: int, self: nat)
    ensures BuildContext(db, i, c, now, self).duplicate <==> CartHeld(db, MandateCartHash(i, c), self)
  {
    hide Spent;
    hide SpentAt;
    hide MandateCartHash;
    hide MerchantLimit;
    var h := MandateCartHash(i, c);
    if CartTaken(db, h, Some(self)) {
      var j :| 0 <= j < |db.settlements| && Some(j) != Some(self)
        && db.settlements[j].cartHash == h && HoldsCart(db.settlements[j].state);
      assert j != self;
    }
    if CartHeld(db, h, self) {
      var j :| 0 <= j < |db.settlements| && j != self
        && db.settlements[j].cartHash == h && db.settlements[j].state !in {Failed, Rejected, Abandoned};
      assert Some(j) != Some(self);
    }
  }

  /** The sums of the context, and what else it reads from the tables. */
  lemma SumsByTables(db: Db, i: SignedIntent, c: SignedCart, now: int, self: nat)
    requires RowsOk(db)
    ensures var ctx := BuildContext(db, i, c, now, self);
      && ctx.now == now && ctx.spent == Spent(db.settlements, i.mandateId) >= 0 && ctx.merchantSpent >= 0
      && (MerchantLimit(i, c.merchantId).Some? ==>
           ctx.merchantSpent == SpentAt(db.settlements, i.mandateId, c.merchantId))
      && ctx.credential == (if i.mandateId in db.mandates then Some(db.mandates[i.mandateId].credential) else None)
      && (ctx.revoked <==> i.mandateId in db.mandates && db.mandates[i.mandateId].revokedAt.Some?)
  {
    SpendIsNatural(db, i.mandateId, c.merchantId);
    hide Spent;
    hide SpentAt;
    hide CartTaken;
    hide MandateCartHash;
    hide MerchantLimit;
  }

  lemma CurrencyByTables(db: Db, i: SignedIntent, c: SignedCart, now: int, self: nat)
    ensures Meets(CURRENCY_MISMATCH, db, i, c, now, self) <==> i.currency == INR
  {
    assert INR == Lit("INR");
  }

  lemma ScopeByTables(db: Db, i: SignedIntent, c: SignedCart, now: int, self: nat)
    ensures Meets(GOAL_MISMATCH, db, i, c, now, self) <==> SkusAllowed(c.items, i.allowedSkus)
    ensures Meets(MERCHANT_LIMIT_EXCEEDED, db, i, c, now, self) <==>
      (MerchantLimit(i, c.merchantId).Some? ==>
        SpentAt(db.settlements, i.mandateId, c.merchantId) + c.total <= MerchantLimit(i, c.merchantId).value)
  {
    hide SpentAt;
    assert IntentSchema(i);
  }

  lemma CostByTables(db: Db, i: SignedIntent, c: SignedCart, now: int, self: nat)
    ensures DoubleTotal(0, Lines(c.items)) == c.total <==> Meets(LINE_ITEM_INVALID, db, i, c, now, self)
  {
    hide DoubleTotal;
    hide ExactTotal;
    hide Cost;
    hide Lines;
    TotalCheckIsExact(c);
    CostIsTotal(c.items);
    hide CartSchema;
  }

  /** Prices and duplicates in the terms of the gate's own comparisons. */
  lemma CartByTables(db: Db, i: SignedIntent, c: SignedCart, now: int, self: nat)
    ensures var ctx := BuildContext(db, i, c, now, self);
      && (PricesMatch(c.items, ctx.catalog) <==> Meets(PRICE_MISMATCH, db, i, c, now, self))
      && (!ctx.duplicate <==> Meets(DUPLICATE_CART, db, i, c, now, self))
  {
    hide BuildContext;
    hide PricesMatch;
    hide PricedByCatalog;
    hide CartHeld;
    hide MandateCartHash;
    PricesByTables(db, i, c, now, self);
    DuplicateByTables(db, i, c, now, self);
    hide CartSchema;
    hide IntentSchema;
  }

  lemma CeilingByTables(db: Db, i: SignedIntent, c: SignedCart, now: int, self: nat)
    ensures Meets(AMOUNT_EXCEEDS_CEILING, db, i, c, now, self) <==>
      Spent(db.settlements, i.mandateId) + c.total <= i.ceiling
  {
    hide Spent;
  }

  /** Budgets and the approval rule likewise. */
  lemma BudgetByTables(db: Db, i: SignedIntent, c: SignedCart, now: int, self: nat)
    requires RowsOk(db)
    ensures var ctx := BuildContext(db, i, c, now, self);
      && (Round(ctx.spent + c.total) > i.ceiling <==> !Meets(AMOUNT_EXCEEDS_CEILING, db, i, c, now, self))
      && (MerchantLimit(i, c.merchantId).Some?
          && Round(ctx.merchantSpent + c.total) > MerchantLimit(i, c.merchantId).value
          <==> !Meets(MERCHANT_LIMIT_EXCEEDED, db, i, c, now, self))
      && (NeedsApproval(i, c.total, ctx.spent) <==> AsksHuman(db, i, c))
  {
    hide BuildContext;
    hide Round;
    hide NeedsApproval;
    hide Spent;
    hide SpentAt;
    hide RowsOk;
    hide MerchantLimit;
    hide Meets;
    var ctx := BuildContext(db, i, c, now, self);
    SumsByTables(db, i, c, now, self);
    ScopeByTables(db, i, c, now, self);
    CeilingByTables(db, i, c, now, self);
    BudgetsAreExact(i, c, ctx);
    ApprovalIsExact(i, c.total, ctx.spent);
    hide IntentSchema;
    hide CartSchema;
    hide SkusAllowed;
  }

  lemma LifeByTables(db: Db, i: SignedIntent, c: SignedCart, now: int, self: nat)
    requires RowsOk(db) && i.mandateId in db.mandates
    ensures var ctx := BuildContext(db, i, c, now, self);
      && (c.merchantId in i.merchants <==> Meets(MERCHANT_NOT_IN_SCOPE, db, i, c, now, self))
      && (ctx.now > i.expiresAt + SKEW <==> !Meets(MANDATE_EXPIRED, db, i, c, now, self))
      && (ctx.revoked <==> !Meets(MANDATE_REVOKED, db, i, c, now, self))
  {
    SumsByTables(db, i, c, now, self);
    hide BuildContext;
    hide Spent;
    hide SpentAt;
    hide RowsOk;
    hide MerchantLimit;
  }

  /** The checks after both signatures. */
  lemma TermsByTables(db: Db, i: SignedIntent, c: SignedCart, now: int, self: nat)
    requires RowsOk(db) && SafeIntent(i) && SafeCart(c)
    requires i.mandateId in db.mandates
    ensures CheckTerms(i, c, BuildContext(db, i, c, now, self)) ==
      match FirstFailing(4, db, i, c, now, self)
      case None => Pass(AsksHuman(db, i, c), MandateCartHash(i, c))
      case Some(code) => Reject(code)
  {
    hide BuildContext;
    hide Round;
    hide DoubleTotal;
    hide Lines;
    hide PricesMatch;
    hide SkusAllowed;
    hide MerchantLimit;
    hide NeedsApproval;
    hide MandateCartHash;
    hide Meets;
    hide FirstFailing;
    hide AsksHuman;
    hide RowsOk;
    hide SafeIntent;
    hide SafeCart;
    hide IntentSchema;
    hide CartSchema;
    CostByTables(db, i, c, now, self);
    CartByTables(db, i, c, now, self);
    BudgetByTables(db, i, c, now, self);
    LifeByTables(db, i, c, now, self);
    ScopeByTables(db, i, c, now, self);
    CurrencyByTables(db, i, c, now, self);
    LastFive(db, i, c, now, self);
    MiddleFive(db, i, c, now, self);
  }

  lemma Unroll(k: nat, db: Db, i: SignedIntent, c: SignedCart, now: int, self: nat)
    requires k < 14
    ensures FirstFailing(k, db, i, c, now, self) ==
      if !Meets(CHECKS[k], db, i, c, now, self) then Some(CHECKS[k]) else FirstFailing(k + 1, db, i, c, now, self)
    ensures FirstFailing(14, db, i, c, now, self) == None
  {
    hide Meets;
  }

  lemma MiddleFive(db: Db, i: SignedIntent, c: SignedCart, now: int, self: nat)
    ensures FirstFailing(4, db, i, c, now, self) ==
      if !Meets(LINE_ITEM_INVALID, db, i, c, now, self) then Some(LINE_ITEM_INVALID)
      else if !Meets(PRICE_MISMATCH, db, i, c, now, self) then Some(PRICE_MISMATCH)
      else if !Meets(CURRENCY_MISMATCH, db, i, c, now, self) then Some(CURRENCY_MISMATCH)
      else if !Meets(MERCHANT_NOT_IN_SCOPE, db, i, c, now, self) then Some(MERCHANT_NOT_IN_SCOPE)
      else if !Meets(MANDATE_EXPIRED, db, i, c, now, self) then Some(MANDATE_EXPIRED)
      else FirstFailing(9, db, i, c, now, self)
  {
    hide Meets;
    Unroll(4, db, i, c, now, self);
    Unroll(5, db, i, c, now, self);
    Unroll(6, db, i, c, now, self);
    Unroll(7, db, i, c, now, self);
    Unroll(8, db, i, c, now, self);
    hide FirstFailing;
  }

  lemma LastFive(db: Db, i: SignedIntent, c: SignedCart, now: int, self: nat)
    ensures FirstFailing(9, db, i, c, now, self) ==
      if !Meets(MANDATE_REVOKED, db, i, c, now, self) then Some(MANDATE_REVOKED)
      else if !Meets(GOAL_MISMATCH, db, i, c, now, self) then Some(GOAL_MISMATCH)
      else if !Meets(AMOUNT_EXCEEDS_CEILING, db, i, c, now, self) then Some(AMOUNT_EXCEEDS_CEILING)
      else if !Meets(MERCHANT_LIMIT_EXCEEDED, db, i, c, now, self) then Some(MERCHANT_LIMIT_EXCEEDED)
      else if !Meets(DUPLICATE_CART, db, i, c, now, self) then Some(DUPLICATE_CART)
      else None
  {
    hide Meets;
    Unroll(9, db, i, c, now, self);
    Unroll(10, db, i, c, now, self);
    Unroll(11, db, i, c, now, self);
    Unroll(12, db, i, c, now, self);
    Unroll(13, db, i, c, now, self);
    hide FirstFailing;
  }

  lemma FirstFour(db: Db, i: SignedIntent, c: SignedCart, now: int, self: nat)
    ensures FirstFailing(0, db, i, c, now, self) ==
      if !Meets(MANDATE_UNKNOWN, db, i, c, now, self) then Some(MANDATE_UNKNOWN)
      else if !Meets(SIG_INVALID_INTENT, db, i, c, now, self) then Some(SIG_INVALID_INTENT)
      else if !Meets(HASH_LINK_MISMATCH, db, i, c, now, self) then Some(HASH_LINK_MISMATCH)
      else if !Meets(SIG_INVALID_CART, db, i, c, now, self) then Some(SIG_INVALID_CART)
      else FirstFailing(4, db, i, c, now, self)
  {
    hide Meets;
    Unroll(0, db, i, c, now, self);
    Unroll(1, db, i, c, now, self);
    Unroll(2, db, i, c, now, self);
    Unroll(3, db, i, c, now, self);
    hide FirstFailing;
  }

  /** From place 4 on no check is a signature. */
  lemma TailOnly(db: Db, i: SignedIntent, c: SignedCart, now: int, self: nat)
    ensures FirstFailing(4, db, i, c, now, self).Some? ==>
      Signature(FirstFailing(4, db, i, c, now, self).value, db, i, c) == Invalid
  {
    MiddleFive(db, i, c, now, self);
    LastFive(db, i, c, now, self);
    hide FirstFailing;
    hide Meets;
  }

  lemma SignaturesByTables(db: Db, i: SignedIntent, c: SignedCart, now: int, self: nat)
    ensures IntentSchema(i) && CartSchema(c) && SafeIntent(i) && SafeCart(c)
    ensures Meets(MANDATE_UNKNOWN, db, i, c, now, self) <==> i.mandateId in db.mandates
    ensures i.mandateId in db.mandates ==>
      VerifySignature(IntentSigningBytes(i), i.sig, db.mandates[i.mandateId].credential)
        == Signature(SIG_INVALID_INTENT, db, i, c)
    ensures Meets(SIG_INVALID_INTENT, db, i, c, now, self) <==> Signature(SIG_INVALID_INTENT, db, i, c) == Valid
    ensures Meets(HASH_LINK_MISMATCH, db, i, c, now, self) <==> c.intentHash == Sha256Hex(IntentSigningBytes(i))
    ensures Signature(SIG_INVALID_CART, db, i, c) ==
      VerifySignature(CartSigningBytes(c), Ed25519Sig(c.agentSig), Ed25519Key(i.agentKey))
    ensures Meets(SIG_INVALID_CART, db, i, c, now, self) <==> Signature(SIG_INVALID_CART, db, i, c) == Valid
    ensures Signature(MANDATE_UNKNOWN, db, i, c) == Signature(HASH_LINK_MISMATCH, db, i, c) == Invalid
  {
    SchemasAreSafe(i, c);
    hide IntentSigningBytes;
    hide CartSigningBytes;
    hide VerifySignature;
  }

  /** The gate, called with the context it builds, answers with the first of the fourteen checks that
      the tables do not meet, and passes when they meet all. */
  lemma GateByTables(db: Db, i: SignedIntent, c: SignedCart, now: int, self: nat)
    requires RowsOk(db)
    ensures Answers(VerifyChain(i, c, BuildContext(db, i, c, now, self)), db, i, c, now, self)
  {
    SignaturesByTables(db, i, c, now, self);
    SumsByTables(db, i, c, now, self);
    FirstFour(db, i, c, now, self);
    TailOnly(db, i, c, now, self);
    if i.mandateId in db.mandates { TermsByTables(db, i, c, now, self); }
    hide FirstFailing;
    hide Meets;
    hide Signature;
    hide BuildContext;
    hide CheckTerms;
    hide VerifySignature;
    hide IntentSigningBytes;
    hide CartSigningBytes;
    hide MandateCartHash;
    hide AsksHuman;
    hide Spent;
    hide SpentAt;
    hide MerchantLimit;
    hide RowsOk;
    hide IntentSchema;
    hide CartSchema;
    hide SafeIntent;
    hide SafeCart;
  }

  // ---------------------------------------------------------------- POST /settlements

  /** Some settlement of the mandate is not over. */
  predicate MandateHeld(db: Db, m: Text) {
    exists j :: 0 <= j < |db.settlements| && db.settlements[j].mandateId == m
      && db.settlements[j].state !in {Captured, Failed, Rejected, Abandoned}
  }

  /** The request commits under a key that was never used. */
  predicate FreshPost(w: World, s: Step) { s.PostStep? && !s.dies && s.key !in w.db.keys }

  function StoredAnswer(db: Db, key: Text): Option<Response> {
    if key in db.keys then db.keys[key].response else None
  }

  function EventOfRow(i: nat, state: SettlementState, reason: Option<Code>): Event {
    if reason.Some? then VerifyRejected(i, reason.value)
    else if state == PendingApproval then ApprovalRequested(i) else VerifyPassed(i)
  }

  /** One row more in this state, its event and answer; an approved one waits for the executor. */
  predicate Makes(w: World, w': World, s: Step, state: SettlementState, reason: Option<Code>)
    requires s.PostStep?
  {
    var n := |w.db.settlements|;
    && |w'.db.settlements| == n + 1 && w'.db.settlements[..n] == w.db.settlements
    && RowFor(w'.db.settlements[n], s.intent, s.cart, w.now) && w'.db.settlements[n].state == state
    && w'.db.ledger == w.db.ledger + [EventOfRow(n, state, reason)]
    && StoredAnswer(w'.db, s.key) == Some(Response(202, SettlementBody(n, state, reason)))
    && (state == Approved ==> n in w'.inFlight)
    && (state != Approved ==> w'.inFlight == w.inFlight && w'.chain == w.chain)
  }

  /** No row, no event, no kick; the answer is stored, or nothing is on a throw. */
  predicate Declines(w: World, w': World, s: Step, answer: Option<Response>)
    requires s.PostStep?
  {
    && w'.db.settlements == w.db.settlements && w'.db.ledger == w.db.ledger
    && StoredAnswer(w'.db, s.key) == answer
    && w'.inFlight == w.inFlight && w'.chain == w.chain
  }

  /** The gate sees the row that reserves the cart as it sees no row. */
  lemma ReservedContext(db: Db, i: SignedIntent, c: SignedCart, now: int)
    ensures BuildContext(Reserve(db, i, c, now), i, c, now, |db.settlements|)
      == BuildContext(db, i, c, now, |db.settlements|)
  {
    var n, db' := |db.settlements|, Reserve(db, i, c, now);
    hide MandateCartHash;
    var row := db'.settlements[n];
    assert db'.settlements == db.settlements + [row];
    SumAppend(db.settlements, row, CapturedOf(i.mandateId));
    SumAppend(db.settlements, row, CapturedAt(i.mandateId, c.merchantId));
    hide Sum;
    hide MerchantLimit;
    SameTaken(db, db', MandateCartHash(i, c));
    hide CartTaken;
    hide Reserve;
  }

  lemma SameTaken(db: Db, db': Db, h: Text)
    requires |db'.settlements| == |db.settlements| + 1
    requires forall j :: 0 <= j < |db.settlements| ==> db'.settlements[j] == db.settlements[j]
    ensures CartTaken(db', h, Some(|db.settlements|)) <==> CartTaken(db, h, Some(|db.settlements|))
    ensures CartTaken(db, h, None) <==> CartHeld(db, h, |db.settlements|)
  {
    var n := |db.settlements|;
    if CartTaken(db', h, Some(n)) {
      var j :| 0 <= j < |db'.settlements| && Some(j) != Some(n)
        && db'.settlements[j].cartHash == h && HoldsCart(db'.settlements[j].state);
      assert j != n && db.settlements[j] == db'.settlements[j];
    }
    if CartTaken(db, h, Some(n)) {
      var j :| 0 <= j < |db.settlements| && Some(j) != Some(n)
        && db.settlements[j].cartHash == h && HoldsCart(db.settlements[j].state);
      assert db'.settlements[j] == db.settlements[j];
    }
  }

  lemma BusyIsHeld(db: Db, m: Text)
    ensures MandateBusy(db, m) <==> MandateHeld(db, m)
  {}

  /** `createSettlement`: the two indexes first, then the row and what the verdict makes of it. */
  lemma CreateByTables(db: Db, i: SignedIntent, c: SignedCart, now: int)
    ensures var n, made := |db.settlements|, CreateSettlement(db, i, c, now);
      var taken, busy := CartHeld(db, MandateCartHash(i, c), n), MandateHeld(db, i.mandateId);
      if i.mandateId !in db.mandates then made == Made(db, Response(404, ErrorBody(NO_SUCH_MANDATE)))
      else if taken && (!busy || CART_INDEX_FIRST) then made == Made(db, Response(409, ErrorBody(CART_TAKEN)))
      else if busy then made == Made(db, Response(409, ErrorBody(ALLOWANCE_RESERVED)))
      else made == Conclude(Reserve(db, i, c, now), n, VerifyChain(i, c, BuildContext(db, i, c, now, n)), now)
  {
    var h := MandateCartHash(i, c);
    BusyIsHeld(db, i.mandateId);
    assert CartTaken(db, h, None) <==> CartHeld(db, h, |db.settlements|) by {
      SameTaken(db, db.(settlements := db.settlements + [NewSettlement(i, c, now)]), h);
    }
    ReservedContext(db, i, c, now);
    hide MandateCartHash;
    hide CartTaken;
    hide CartHeld;
    hide MandateBusy;
    hide MandateHeld;
    hide VerifyChain;
    hide BuildContext;
    hide Conclude;
    hide Reserve;
  }

  lemma QueueAfterPost(w: World, db: Db, r: Response)
    ensures var w' := if r.body.SettlementBody? && r.body.state == Approved
                      then Enqueue(w.(db := db), Execute(r.body.settlement)) else w.(db := db);
      && w'.db == db
      && if r.body.SettlementBody? && r.body.state == Approved then r.body.settlement in w'.inFlight
         else w'.inFlight == w.inFlight && w'.chain == w.chain
  {}

  /** POST around its transaction. */
  lemma PostUnfolds(w: World, s: Step)
    requires FreshPost(w, s)
    ensures var w', locked := Next(w, s), Lock(w.db, s.key, s.requestHash, w.now);
      match CreateSettlement(locked, s.intent, s.cart, w.now)
      case CreateThrew => Declines(w, w', s, None)
      case Made(db, r) =>
        && w'.db.settlements == db.settlements && w'.db.ledger == db.ledger && StoredAnswer(w'.db, s.key) == Some(r)
        && if r.body.SettlementBody? && r.body.state == Approved then r.body.settlement in w'.inFlight
           else w'.inFlight == w.inFlight && w'.chain == w.chain
  {
    hide CreateSettlement;
    hide Next;
    hide Enqueue;
    var made := CreateSettlement(Lock(w.db, s.key, s.requestHash, w.now), s.intent, s.cart, w.now);
    CreateLeavesKeys(Lock(w.db, s.key, s.requestHash, w.now), s.intent, s.cart, w.now);
    NextOf(w, s);
    if made.Made? { QueueAfterPost(w, Complete(made.db, s.key, made.response), made.response); }
  }

  /** The request is refused outright exactly when its mandate is unknown or one of the two unique
      indexes is in its way; each answer has its own condition, and nothing else is written. */
  lemma PostRefuses(w: World, s: Step)
    requires FreshPost(w, s)
    ensures var n, answer := |w.db.settlements|, StoredAnswer(Next(w, s).db, s.key);
      var known, busy := s.intent.mandateId in w.db.mandates, MandateHeld(w.db, s.intent.mandateId);
      var taken := CartHeld(w.db, MandateCartHash(s.intent, s.cart), n);
      && (answer == Some(Response(404, ErrorBody(NO_SUCH_MANDATE))) <==> !known)
      && (answer == Some(Response(409, ErrorBody(CART_TAKEN))) <==> known && taken && (!busy || CART_INDEX_FIRST))
      && (answer == Some(Response(409, ErrorBody(ALLOWANCE_RESERVED)))
          <==> known && busy && (!taken || !CART_INDEX_FIRST))
      && (!known || taken || busy ==> Declines(w, Next(w, s), s, answer))
  {
    hide MandateCartHash;
    hide VerifyChain;
    hide BuildContext;
    hide CartHeld;
    hide MandateHeld;
    hide Next;
    hide CreateSettlement;
    hide Conclude;
    hide Reserve;
    var locked := Lock(w.db, s.key, s.requestHash, w.now);
    PostUnfolds(w, s);
    CreateByTables(locked, s.intent, s.cart, w.now);
    SameTables(w.db, locked, s.intent, s.cart, w.now);
    ConcludeSays202(locked, s.intent, s.cart, w.now,
                    VerifyChain(s.intent, s.cart, BuildContext(w.db, s.intent, s.cart, w.now, |w.db.settlements|)));
  }

  /** The gate reads neither keys nor tokens. */
  lemma SameTables(db: Db, db': Db, i: SignedIntent, c: SignedCart, now: int)
    requires db'.settlements == db.settlements && db'.mandates == db.mandates && db'.catalogs == db.catalogs
    ensures forall h, self :: CartHeld(db', h, self) <==> CartHeld(db, h, self)
    ensures forall m :: MandateHeld(db', m) <==> MandateHeld(db, m)
    ensures BuildContext(db', i, c, now, |db.settlements|) == BuildContext(db, i, c, now, |db.settlements|)
  {
    hide MandateCartHash;
    hide MerchantLimit;
    hide Spent;
    hide SpentAt;
  }

  lemma ConcludeSays202(db: Db, i: SignedIntent, c: SignedCart, now: int, v: Verdict)
    ensures var made := Conclude(Reserve(db, i, c, now), |db.settlements|, v, now);
      made.Made? ==> made.response.status == 202
  {
    hide Reserve;
  }

  /** The row of a verdict. */
  lemma ConcludeMakes(db: Db, i: SignedIntent, c: SignedCart, now: int, v: Verdict)
    ensures var n, made := |db.settlements|, Conclude(Reserve(db, i, c, now), |db.settlements|, v, now);
      var state := if v.Reject? then Rejected else if v.Pass? && v.needsApproval then PendingApproval else Approved;
      var reason := if v.Reject? then Some(v.code) else None;
      && (made.CreateThrew? <==> v.Threw?)
      && (made.Made? ==>
        && |made.db.settlements| == n + 1 && made.db.settlements[..n] == db.settlements
        && RowFor(made.db.settlements[n], i, c, now) && made.db.settlements[n].state == state
        && made.db == db.(settlements := made.db.settlements, ledger := db.ledger + [EventOfRow(n, state, reason)])
        && made.response == Response(202, SettlementBody(n, state, reason)))
  {
    hide MandateCartHash;
    var made := Conclude(Reserve(db, i, c, now), |db.settlements|, v, now);
    if made.Made? { assert made.db.settlements[..|db.settlements|] == db.settlements; }
  }

  /** Otherwise the first unmet check decides: the row is rejected with its code, nothing is written
      when the signature library throws, and a request that meets all fourteen is approved, or waits
      for a human exactly when a threshold is crossed. */
  lemma PostMakes(w: World, s: Step)
    requires FreshPost(w, s) && RowsOk(w.db) && s.intent.mandateId in w.db.mandates
    requires !MandateHeld(w.db, s.intent.mandateId)
    requires !CartHeld(w.db, MandateCartHash(s.intent, s.cart), |w.db.settlements|)
    ensures match FirstFailing(0, w.db, s.intent, s.cart, w.now, |w.db.settlements|)
      case None =>
        Makes(w, Next(w, s), s, if AsksHuman(w.db, s.intent, s.cart) then PendingApproval else Approved, None)
      case Some(code) =>
        if Signature(code, w.db, s.intent, s.cart) == Malformed then Declines(w, Next(w, s), s, None)
        else Makes(w, Next(w, s), s, Rejected, Some(code))
  {
    hide Next;
    hide CreateSettlement;
    hide Conclude;
    hide Reserve;
    hide MandateCartHash;
    hide VerifyChain;
    hide BuildContext;
    hide CartHeld;
    hide MandateHeld;
    hide FirstFailing;
    hide AsksHuman;
    hide Signature;
    hide RowFor;
    hide RowsOk;
    var n, locked := |w.db.settlements|, Lock(w.db, s.key, s.requestHash, w.now);
    var v := VerifyChain(s.intent, s.cart, BuildContext(w.db, s.intent, s.cart, w.now, n));
    PostUnfolds(w, s);
    CreateByTables(locked, s.intent, s.cart, w.now);
    SameTables(w.db, locked, s.intent, s.cart, w.now);
    GateByTables(w.db, s.intent, s.cart, w.now, n);
    ConcludeMakes(locked, s.intent, s.cart, w.now, v);
  }

  /** A request that fails just one check is rejected with the code of that check. */
  lemma OneFailureIsNamed(w: World, s: Step, code: Code)
    requires FreshPost(w, s) && RowsOk(w.db) && s.intent.mandateId in w.db.mandates
    requires !MandateHeld(w.db, s.intent.mandateId)
    requires !CartHeld(w.db, MandateCartHash(s.intent, s.cart), |w.db.settlements|)
    requires forall j :: 0 <= j < 14 ==>
      (Meets(CHECKS[j], w.db, s.intent, s.cart, w.now, |w.db.settlements|) <==> CHECKS[j] != code)
    requires code in CHECKS && Signature(code, w.db, s.intent, s.cart) != Malformed
    ensures Makes(w, Next(w, s), s, Rejected, Some(code))
  {
    PostMakes(w, s);
    hide Makes;
    hide Declines;
    hide Meets;
    hide MandateHeld;
    hide CartHeld;
    hide Signature;
    hide RowsOk;
    hide Next;
  }

  // ---------------------------------------------------------------- the entry to settling

  /** Row i moves to another state now, and nothing else in the table changes. */
  predicate RowMoves(db: Db, db': Db, i: nat, to: SettlementState, now: int) {
    && i < |db.settlements| && |db'.settlements| == |db.settlements|
    && (forall j :: 0 <= j < |db.settlements| && j != i ==> db'.settlements[j] == db.settlements[j])
    && var r := db.settlements[i]; db'.settlements[i] == r.(state := to, enteredAt := r.enteredAt[to := now])
  }

  /** The head of the queue is a settlement whose time to be executed has come. */
  predicate ExecutesNext(w: World, i: nat) { w.pc == Idle && w.chain != [] && w.chain[0] == Execute(i) }

  /** The executor puts the settlement down with this code. */
  predicate TurnsDown(w: World, w': World, i: nat, code: Code) {
    && RowMoves(w.db, w'.db, i, Rejected, w.now) && w'.db.ledger == w.db.ledger + [VerifyRejected(i, code)]
    && w'.pc == Idle && w'.inFlight == w.inFlight - {i}
  }

  /** The executor leaves the database as it is. */
  predicate PassesOver(w: World, w': World, i: nat) {
    w'.db == w.db && w'.pc == Idle && w'.inFlight == w.inFlight - {i}
  }

  /** The executor takes the settlement in hand, with the number of its next checkout. */
  predicate TakesOn(w: World, w': World, i: nat) {
    && RowMoves(w.db, w'.db, i, Settling, w.now) && w'.db.ledger == w.db.ledger
    && w'.pc == LoopHead(i, Count(w.db.attempts, i, CheckoutDriver) + 1, None) && w'.inFlight == w.inFlight
  }

  lemma EntryVerdict(db: Db, i: nat, now: int)
    requires RowsOk(db) && MandatesOk(db) && InState(db, i, Approved)
    ensures var r := db.settlements[i];
      var intent, e := db.mandates[r.mandateId].intent, EnterSettling(db, i, now);
      if MandateCartHash(intent, r.cart) != r.cartHash then
        e == Turned(Log(SetState(db, i, Rejected, now), VerifyRejected(i, HASH_LINK_MISMATCH)))
      else match FirstFailing(0, db, intent, r.cart, now, i)
        case None => e == Entered(SetState(db, i, Settling, now))
        case Some(code) =>
          if Signature(code, db, intent, r.cart) == Malformed then e == EntryThrew
          else e == Turned(Log(SetState(db, i, Rejected, now), VerifyRejected(i, code)))
  {
    var r := db.settlements[i];
    GateByTables(db, db.mandates[r.mandateId].intent, r.cart, now, i);
    hide FirstFailing;
    hide VerifyChain;
    hide BuildContext;
    hide MandateCartHash;
    hide Signature;
    hide AsksHuman;
    hide SetState;
    hide MandatesOk;
  }

  lemma StateMoves(db: Db, i: nat, to: SettlementState, now: int)
    requires i < |db.settlements|
    ensures RowMoves(db, SetState(db, i, to, now), i, to, now) && SetState(db, i, to, now).ledger == db.ledger
    ensures SetState(db, i, to, now).attempts == db.attempts
    ensures forall e :: RowMoves(db, Log(SetState(db, i, to, now), e), i, to, now)
  {}

  /** At the entry to `settling` the stored terms must still hash to the address of the settlement, and
      the first unmet check of that moment turns it down; it enters exactly when all are met. */
  lemma EntryOutcome(w: World, i: nat)
    requires RowsOk(w.db) && MandatesOk(w.db) && ExecutesNext(w, i)
    ensures var w' := Next(w, RunStart);
      if !InState(w.db, i, Approved) then PassesOver(w, w', i)
      else
        var r := w.db.settlements[i];
        var intent := w.db.mandates[r.mandateId].intent;
        if MandateCartHash(intent, r.cart) != r.cartHash then TurnsDown(w, w', i, HASH_LINK_MISMATCH)
        else match FirstFailing(0, w.db, intent, r.cart, w.now, i)
          case None => TakesOn(w, w', i)
          case Some(code) =>
            if Signature(code, w.db, intent, r.cart) == Malformed then PassesOver(w, w', i)
            else TurnsDown(w, w', i, code)
    ensures Next(w, RunStart).chain == w.chain[1..]
  {
    hide FirstFailing;
    hide MandateCartHash;
    hide Signature;
    hide EnterSettling;
    hide SetState;
    hide RowMoves;
    hide Count;
    hide Next;
    NextOf(w, RunStart);
    if InState(w.db, i, Approved) {
      EntryVerdict(w.db, i, w.now);
      StateMoves(w.db, i, Rejected, w.now);
      StateMoves(w.db, i, Settling, w.now);
    } else {
      assert EnterSettling(w.db, i, w.now) == Stale by { NotApproved(w.db, i, w.now); }
    }
  }

  lemma NotApproved(db: Db, i: nat, now: int)
    requires !InState(db, i, Approved)
    ensures EnterSettling(db, i, now) == Stale
  {}

  // ---------------------------------------------------------------- the only ways in

  /** Whatever step it is: a row that is new and not rejected is that of a request that met all
      fourteen checks on the tables of that moment. */
  lemma NewRowMetAll(w: World, s: Step, i: nat)
    requires Sound(w) && |w.db.settlements| <= i < |Next(w, s).db.settlements|
    requires Next(w, s).db.settlements[i].state != Rejected
    ensures FreshPost(w, s) && i == |w.db.settlements| && s.intent.mandateId in w.db.mandates
    ensures MeetsAll(0, w.db, s.intent, s.cart, w.now, i)
    ensures var state := if AsksHuman(w.db, s.intent, s.cart) then PendingApproval else Approved;
      Next(w, s).db.settlements[i].state == state
  {
    hide Next;
    hide FirstFailing;
    hide MeetsAll;
    hide Meets;
    hide MandateHeld;
    hide CartHeld;
    hide MandateCartHash;
    hide Sound;
    hide AsksHuman;
    hide Signature;
    hide Does;
    var e := StepEffect(w, s);
    NewRowsAreReserved(w.db, Next(w, s).db, e, w.now);
    RowsOfSound(w);
    PostRefuses(w, s);
    if s.intent.mandateId in w.db.mandates && !MandateHeld(w.db, s.intent.mandateId)
       && !CartHeld(w.db, MandateCartHash(s.intent, s.cart), |w.db.settlements|) {
      PostMakes(w, s);
    }
    hide RowFor;
    hide RowsOk;
  }

  lemma RowsOfSound(w: World)
    requires Sound(w)
    ensures RowsOk(w.db) && MandatesOk(w.db)
  {}

  lemma NewRowsAreReserved(db: Db, db': Db, e: Effect, now: int)
    requires Does(db, db', e, now)
    ensures |db'.settlements| > |db.settlements| ==> e.Reserves?
  {
    hide Reports;
    hide Admissible;
    hide Adds;
    hide MandateBusy;
  }

  /** And a row that is newly `settling` met all of them at its entry, on its registered terms. */
  lemma EnteredMetAll(w: World, s: Step, i: nat)
    requires Sound(w) && InState(Next(w, s).db, i, Settling) && !InState(w.db, i, Settling)
    ensures s == RunStart && InState(w.db, i, Approved) && w.db.settlements[i].mandateId in w.db.mandates
    ensures var r := w.db.settlements[i];
      var intent := w.db.mandates[r.mandateId].intent;
      MandateCartHash(intent, r.cart) == r.cartHash && MeetsAll(0, w.db, intent, r.cart, w.now, i)
  {
    var e := StepEffect(w, s);
    hide Next;
    SettlingIsAdmitted(w.db, Next(w, s).db, e, w.now, i);
    hide Does;
    EntryOutcome(w, i);
    hide FirstFailing;
    hide MeetsAll;
    hide MandateCartHash;
    hide Signature;
    hide TasksOk;
    hide PcOk;
    hide OneLive;
    hide OnePerCart;
    hide AttemptsOk;
    hide OneEach;
    hide CapturesBacked;
  }

  lemma SettlingIsAdmitted(db: Db, db': Db, e: Effect, now: int, i: nat)
    requires Does(db, db', e, now) && InState(db', i, Settling) && !InState(db, i, Settling)
    ensures e == Admits(i) && InState(db, i, Approved)
  {
    hide Reports;
    hide Admissible;
    hide RowFor;
    hide MandateBusy;
    hide OverThreshold;
    hide Spent;
  }
}
