/** GET /mandates (packages/facilitator/src/routes/read.ts:79-126) agrees with the gate. */
module Wallet {
  import opened Options
  import opened Texts
  import opened Doubles
  import opened Mandates
  import opened Verify
  import opened Schema
  import opened Protocol
  import opened Tables
  import opened Effects
  import opened Money

  datatype WalletState = Active | Consumed | Expired | Revoked

  datatype Listing = Listing(spent: int, remaining: int, state: WalletState)

  function Max(a: int, b: int): int { if a < b then b else a }

  function ListingOf(db: Db, m: Text, now: int): Listing
    requires m in db.mandates
  {
    var row, sums := db.mandates[m], SpentByMandate(db.settlements);
    var spent := if m in sums then sums[m] else 0;
    var remaining := Max(0, Round(row.intent.ceiling - spent));
    Listing(spent, remaining,
            if row.revokedAt.Some? then Revoked
            else if now > row.intent.expiresAt + SKEW then Expired
            else if remaining <= 0 then Consumed
            else Active)
  }

  /** The verdict on any cart under the registered intent, at the same clock. */
  function VerdictAt(db: Db, m: Text, cart: SignedCart, now: int, self: nat): Verdict
    requires m in db.mandates
  {
    VerifyChain(db.mandates[m].intent, cart, BuildContext(db, db.mandates[m].intent, cart, now, self))
  }

  /** The shown balance is the enforced one: exact, never clamped, never rounded. */
  lemma BalanceIsExact(db: Db, m: Text, now: int)
    requires RowsOk(db) && WithinCeiling(db) && m in db.mandates
    ensures var l := ListingOf(db, m, now);
      l.spent == Spent(db.settlements, m) && l.remaining == db.mandates[m].intent.ceiling - Spent(db.settlements, m)
      && l.remaining >= 0
  {
    BatchedSpendAgrees(db.settlements, m);
    SpendIsNatural(db, m, m);
    hide Spent;
    hide SpentByMandate;
    assert IntentSchema(db.mandates[m].intent);
    RoundIsExactBelow(db.mandates[m].intent.ceiling - Spent(db.settlements, m));
  }

  /** Which of the four states is shown, each under its own condition. */
  lemma StateIsExact(db: Db, m: Text, now: int)
    requires RowsOk(db) && WithinCeiling(db) && m in db.mandates
    ensures var state, row := ListingOf(db, m, now).state, db.mandates[m];
      var over, spent := now > row.intent.expiresAt + 60, Spent(db.settlements, m) == row.intent.ceiling;
      && (state == Revoked <==> row.revokedAt.Some?)
      && (state == Expired <==> row.revokedAt.None? && over)
      && (state == Consumed <==> row.revokedAt.None? && !over && spent)
      && (state == Active <==> row.revokedAt.None? && !over && !spent)
  {
    BalanceIsExact(db, m, now);
    hide Spent;
    hide SpentByMandate;
    hide Round;
    hide RowsOk;
    hide WithinCeiling;
  }

  /** No cart is free: every item has a positive quantity and price. */
  lemma CartsCostSomething(c: Cart)
    requires CartSchema(c)
    ensures ExactTotal(Lines(c.items)) > 0
  {
    var lines := Lines(c.items);
    forall k | 0 <= k < |lines| ensures 0 < lines[k].qty && 0 < lines[k].price { assert ItemSchema(c.items[k]); }
    assert lines[0].qty * lines[0].price > 0;
    DoubleTotalIsExact(0, lines[1..]);
  }

  /** What the gate checks before the budget. */
  predicate UpToBudget(i: Intent, c: Cart, ctx: Context)
    requires SafeIntent(i) && SafeCart(c)
  {
    && ctx.credential.Some? && Chained(i, c, ctx.credential.value)
    && ExactTotal(Lines(c.items)) == c.total
    && PricesMatch(c.items, ctx.catalog)
    && i.currency == INR && c.merchantId in i.merchants
    && ctx.now <= i.expiresAt + SKEW && !ctx.revoked
    && SkusAllowed(c.items, i.allowedSkus)
  }

  lemma TermsRejectForBudget(i: Intent, c: Cart, ctx: Context)
    requires IntentSchema(i) && CartSchema(c) && SafeIntent(i)
    requires SafeCart(c) && ctx.spent >= 0 && ctx.merchantSpent >= 0
    ensures CheckTerms(i, c, ctx) == Reject(AMOUNT_EXCEEDS_CEILING) <==>
      && ExactTotal(Lines(c.items)) == c.total
      && PricesMatch(c.items, ctx.catalog)
      && i.currency == INR && c.merchantId in i.merchants
      && ctx.now <= i.expiresAt + SKEW && !ctx.revoked
      && SkusAllowed(c.items, i.allowedSkus)
      && ctx.spent + c.total > i.ceiling
  {
    TotalCheckIsExact(c);
    BudgetsAreExact(i, c, ctx);
    hide Round;
    hide DoubleTotal;
    hide ExactTotal;
    hide MandateCartHash;
    hide NeedsApproval;
    hide PricesMatch;
    hide SkusAllowed;
    hide IntentSchema;
    hide CartSchema;
    hide SafeIntent;
    hide SafeCart;
    hide MerchantLimit;
    hide Lines;
  }

  /** The gate names the budget exactly when everything before it is in order and the spend with
      this cart is above the ceiling. */
  lemma GateRejectsForBudget(i: Intent, c: Cart, ctx: Context)
    requires IntentSchema(i) && CartSchema(c) && SafeIntent(i)
    requires SafeCart(c) && ctx.spent >= 0 && ctx.merchantSpent >= 0
    ensures VerifyChain(i, c, ctx) == Reject(AMOUNT_EXCEEDS_CEILING) <==>
      UpToBudget(i, c, ctx) && ctx.spent + c.total > i.ceiling
  {
    TermsRejectForBudget(i, c, ctx);
    hide CheckTerms;
    hide ExactTotal;
    hide PricesMatch;
    hide SkusAllowed;
    hide IntentSigningBytes;
    hide CartSigningBytes;
    hide Lines;
  }

  lemma ContextOf(db: Db, m: Text, cart: SignedCart, now: int, self: nat)
    requires RowsOk(db) && MandatesOk(db) && m in db.mandates
    ensures var ctx := BuildContext(db, db.mandates[m].intent, cart, now, self);
      && ctx.spent == Spent(db.settlements, m) >= 0 && ctx.merchantSpent >= 0 && ctx.now == now
      && (ctx.revoked <==> db.mandates[m].revokedAt.Some?)
      && ctx.credential == Some(db.mandates[m].credential)
  {
    SpendIsNatural(db, m, cart.merchantId);
    hide Spent;
    hide SpentAt;
    hide CartTaken;
    hide MandateCartHash;
  }

  /** A mandate shown revoked, expired or consumed has every cart refused. */
  lemma DeadMandatesRefuseEverything(db: Db, m: Text, cart: SignedCart, now: int, self: nat)
    requires RowsOk(db) && MandatesOk(db) && WithinCeiling(db) && m in db.mandates
    requires ListingOf(db, m, now).state != Active
    ensures !VerdictAt(db, m, cart, now, self).Pass?
  {
    var i := db.mandates[m].intent;
    var ctx := BuildContext(db, i, cart, now, self);
    ContextOf(db, m, cart, now, self);
    GateIsExact(i, cart, ctx);
    BalanceIsExact(db, m, now);
    CartsCostSomething(cart);
    hide Spent;
    hide SpentByMandate;
    hide VerifyChain;
    hide BuildContext;
    hide ExactTotal;
    hide PricesMatch;
    hide SkusAllowed;
    hide MerchantLimit;
    hide Chained;
    hide SafeIntent;
    hide SafeCart;
    hide Lines;
    hide RowsOk;
    hide WithinCeiling;
  }

  /** One shown active refuses a cart for budget exactly when its total is above the shown balance. */
  lemma ActiveMandatesRefuseOverBalance(db: Db, m: Text, cart: SignedCart, now: int, self: nat)
    requires RowsOk(db) && MandatesOk(db) && WithinCeiling(db) && m in db.mandates
    requires ListingOf(db, m, now).state == Active
    requires SafeIntent(db.mandates[m].intent) && SafeCart(cart)
    ensures VerdictAt(db, m, cart, now, self) == Reject(AMOUNT_EXCEEDS_CEILING) <==>
      && UpToBudget(db.mandates[m].intent, cart, BuildContext(db, db.mandates[m].intent, cart, now, self))
      && cart.total > ListingOf(db, m, now).remaining
  {
    var i := db.mandates[m].intent;
    var ctx := BuildContext(db, i, cart, now, self);
    ContextOf(db, m, cart, now, self);
    GateRejectsForBudget(i, cart, ctx);
    BalanceIsExact(db, m, now);
    hide Spent;
    hide SpentByMandate;
    hide VerifyChain;
    hide BuildContext;
    hide UpToBudget;
    hide SafeIntent;
    hide SafeCart;
    hide RowsOk;
    hide WithinCeiling;
  }
}
