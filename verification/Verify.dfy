/** The authorization gate (packages/core/src/verify.ts): ordered checks over values. */
module Verify {
  import opened Options
  import opened Texts
  import opened CanonicalJson
  import opened Crypto
  import opened Doubles
  import opened Mandates

  datatype Code =
    | SCHEMA_INVALID | MANDATE_UNKNOWN | SIG_INVALID_INTENT | HASH_LINK_MISMATCH | SIG_INVALID_CART
    | LINE_ITEM_INVALID | PRICE_MISMATCH | CURRENCY_MISMATCH | MERCHANT_NOT_IN_SCOPE
    | MANDATE_EXPIRED | MANDATE_REVOKED | GOAL_MISMATCH
    | AMOUNT_EXCEEDS_CEILING | MERCHANT_LIMIT_EXCEEDED | DUPLICATE_CART

  /** `Threw`: the signature library threw on undecodable input; no verdict was reached. */
  datatype Verdict = Pass(needsApproval: bool, cartHash: Text) | Reject(code: Code) | Threw

  datatype Context = Context(
    now: int,
    credential: Option<Credential>,
    revoked: bool,
    spent: int,
    merchantSpent: int,
    catalog: Option<map<Text, int>>,
    duplicate: bool)

  /** `clockSkewSec`, which no caller sets. */
  const SKEW := 60
  const INR: Text := [73, 78, 82]

  // ---------------------------------------------------------------- schema

  predicate WellFormedSig(sig: Sig) {
    match sig
    case Ed25519Sig(s) => s != []
    case WebauthnSig(c, a, s) => c != [] && a != [] && s != []
  }

  predicate NoneEmpty(texts: seq<Text>) { forall k :: 0 <= k < |texts| ==> texts[k] != [] }

  predicate IntentSchema(i: Intent) {
    && i.mandateId != [] && i.goal != []
    && Safe(i.ceiling) && i.ceiling > 0
    && Safe(i.approvalThreshold) && i.approvalThreshold >= 0
    && i.merchants != [] && NoneEmpty(i.merchants)
    && Safe(i.expiresAt)
    && i.agentKey != []
    && (i.perMerchant.Some? ==>
      forall k :: k in i.perMerchant.value ==> k != [] && Safe(i.perMerchant.value[k]) && i.perMerchant.value[k] >= 0)
    && (i.cumulativeThreshold.Some? ==> Safe(i.cumulativeThreshold.value) && i.cumulativeThreshold.value >= 0)
    && (i.allowedSkus.Some? ==> i.allowedSkus.value != [] && NoneEmpty(i.allowedSkus.value))
    && WellFormedSig(i.sig)
  }

  predicate ItemSchema(item: Item) {
    && item.sku != []
    && Safe(item.qty) && item.qty >= 1
    && Safe(item.unitPrice) && item.unitPrice > 0
    && item.variantId != Some([])
  }

  predicate CartSchema(c: Cart) {
    && c.cartId != [] && c.merchantId != []
    && c.items != [] && (forall k :: 0 <= k < |c.items| ==> ItemSchema(c.items[k]))
    && Safe(c.total) && c.total >= 0
    && c.intentHash != [] && c.agentSig != []
  }

  // ---------------------------------------------------------------- the gate

  function Lines(items: seq<Item>): seq<Line> {
    seq(|items|, k requires 0 <= k < |items| => Line(items[k].qty, items[k].unitPrice))
  }

  predicate PricesMatch(items: seq<Item>, catalog: Option<map<Text, int>>) {
    catalog.Some? ==>
      forall k :: 0 <= k < |items| ==>
        items[k].sku in catalog.value && catalog.value[items[k].sku] == items[k].unitPrice
  }

  predicate SkusAllowed(items: seq<Item>, allowed: Option<seq<Text>>) {
    allowed.Some? && allowed.value != [] ==> forall k :: 0 <= k < |items| ==> items[k].sku in allowed.value
  }

  function MerchantLimit(i: Intent, merchant: Text): Option<int> {
    if i.perMerchant.Some? && merchant in i.perMerchant.value then Some(i.perMerchant.value[merchant]) else None
  }

  predicate NeedsApproval(i: Intent, total: int, spent: int) {
    total > i.approvalThreshold || (i.cumulativeThreshold.Some? && Round(spent + total) > i.cumulativeThreshold.value)
  }

  /** The checks after both signatures, in the order of the source. */
  function CheckTerms(i: Intent, c: Cart, ctx: Context): Verdict
    requires SafeIntent(i) && SafeCart(c)
  {
    if DoubleTotal(0, Lines(c.items)) != c.total then Reject(LINE_ITEM_INVALID)
    else if !PricesMatch(c.items, ctx.catalog) then Reject(PRICE_MISMATCH)
    else if i.currency != INR then Reject(CURRENCY_MISMATCH)
    else if c.merchantId !in i.merchants then Reject(MERCHANT_NOT_IN_SCOPE)
    else if ctx.now > i.expiresAt + SKEW then Reject(MANDATE_EXPIRED)
    else if ctx.revoked then Reject(MANDATE_REVOKED)
    else if !SkusAllowed(c.items, i.allowedSkus) then Reject(GOAL_MISMATCH)
    else if Round(ctx.spent + c.total) > i.ceiling then Reject(AMOUNT_EXCEEDS_CEILING)
    else if MerchantLimit(i, c.merchantId).Some?
         && Round(ctx.merchantSpent + c.total) > MerchantLimit(i, c.merchantId).value
    then Reject(MERCHANT_LIMIT_EXCEEDED)
    else if ctx.duplicate then Reject(DUPLICATE_CART)
    else Pass(NeedsApproval(i, c.total, ctx.spent), MandateCartHash(i, c))
  }

  function VerifyChain(i: Intent, c: Cart, ctx: Context): Verdict {
    if !IntentSchema(i) || !CartSchema(c) then Reject(SCHEMA_INVALID)
    else if ctx.credential.None? then Reject(MANDATE_UNKNOWN)
    else
      match VerifySignature(IntentSigningBytes(i), i.sig, ctx.credential.value)
      case Malformed => Threw
      case Invalid => Reject(SIG_INVALID_INTENT)
      case Valid =>
        if c.intentHash != Sha256Hex(IntentSigningBytes(i)) then Reject(HASH_LINK_MISMATCH)
        else
          match VerifySignature(CartSigningBytes(c), Ed25519Sig(c.agentSig), Ed25519Key(i.agentKey))
          case Malformed => Threw
          case Invalid => Reject(SIG_INVALID_CART)
          case Valid => CheckTerms(i, c, ctx)
  }

  // ---------------------------------------------------------------- what is malformed

  predicate Amount(n: int, least: int) { least <= n <= 9007199254740991 }

  /** Something is wrong with the form of the intent. */
  predicate IntentDefect(i: Intent) {
    || [] in [i.mandateId, i.goal, i.agentKey] || i.merchants == [] || [] in i.merchants
    || !Amount(i.ceiling, 1) || !Amount(i.approvalThreshold, 0) || !Amount(i.expiresAt, -9007199254740991)
    || (i.perMerchant.Some? &&
        exists m :: m in i.perMerchant.value && (m == [] || !Amount(i.perMerchant.value[m], 0)))
    || (i.cumulativeThreshold.Some? && !Amount(i.cumulativeThreshold.value, 0))
    || (i.allowedSkus.Some? && (i.allowedSkus.value == [] || [] in i.allowedSkus.value))
    || i.sig == Ed25519Sig([])
    || (i.sig.WebauthnSig? && [] in [i.sig.clientData, i.sig.authenticatorData, i.sig.signature])
  }

  /** Something is wrong with the form of the cart. */
  predicate CartDefect(c: Cart) {
    || [] in [c.cartId, c.merchantId, c.intentHash, c.agentSig] || c.items == [] || !Amount(c.total, 0)
    || exists k :: 0 <= k < |c.items| && var item := c.items[k];
         item.sku == [] || item.variantId == Some([]) || !Amount(item.qty, 1) || !Amount(item.unitPrice, 1)
  }

  lemma IntentForm(i: Intent)
    ensures IntentSchema(i) <==> !IntentDefect(i)
  {}

  lemma CartForm(c: Cart)
    ensures CartSchema(c) <==> !CartDefect(c)
  {}

  /** The gate calls documents malformed exactly when one of these is wrong with them, before anything
      else; registered terms and reserved carts have none of it. */
  lemma MalformedExactlyWhen(i: Intent, c: Cart, ctx: Context)
    ensures VerifyChain(i, c, ctx) == Reject(SCHEMA_INVALID) <==> IntentDefect(i) || CartDefect(c)
  {
    IntentForm(i);
    CartForm(c);
    hide IntentSchema;
    hide CartSchema;
    hide IntentDefect;
    hide CartDefect;
  }

  // ---------------------------------------------------------------- what a pass means

  /** The human key signed the intent, the intent names the cart's signer, and the cart names
      the intent. */
  predicate Chained(i: Intent, c: Cart, credential: Credential)
    requires SafeIntent(i) && SafeCart(c)
  {
    && VerifySignature(IntentSigningBytes(i), i.sig, credential) == Valid
    && c.intentHash == Sha256Hex(IntentSigningBytes(i))
    && VerifySignature(CartSigningBytes(c), Ed25519Sig(c.agentSig), Ed25519Key(i.agentKey)) == Valid
  }

  /** Every condition the gate enforces on money and scope, in exact integers. */
  predicate WithinTerms(i: Intent, c: Cart, ctx: Context) {
    && ExactTotal(Lines(c.items)) == c.total
    && PricesMatch(c.items, ctx.catalog)
    && i.currency == INR
    && c.merchantId in i.merchants
    && ctx.now <= i.expiresAt + SKEW
    && !ctx.revoked
    && SkusAllowed(c.items, i.allowedSkus)
    && ctx.spent + c.total <= i.ceiling
    && (MerchantLimit(i, c.merchantId).Some? ==> ctx.merchantSpent + c.total <= MerchantLimit(i, c.merchantId).value)
    && !ctx.duplicate
  }

  /** The approval rule in exact integers. */
  predicate OverThreshold(i: Intent, total: int, spent: int) {
    total > i.approvalThreshold || (i.cumulativeThreshold.Some? && spent + total > i.cumulativeThreshold.value)
  }

  /** A rounded comparison against a safe bound is the exact comparison. */
  lemma RoundedComparison(sum: int, bound: int)
    requires sum >= 0 && Safe(bound)
    ensures Round(sum) > bound <==> sum > bound
  {
    RoundIsExactBelow(sum);
  }

  lemma TotalCheckIsExact(c: Cart)
    requires CartSchema(c)
    ensures DoubleTotal(0, Lines(c.items)) == c.total <==> ExactTotal(Lines(c.items)) == c.total
  {
    assert Positive(Lines(c.items)) by {
      forall k | 0 <= k < |c.items| ensures 0 < Lines(c.items)[k].qty && 0 < Lines(c.items)[k].price {
        assert ItemSchema(c.items[k]);
      }
    }
    DoubleTotalIsExact(0, Lines(c.items));
  }

  lemma ApprovalIsExact(i: Intent, total: int, spent: int)
    requires IntentSchema(i) && total >= 0 && spent >= 0
    ensures NeedsApproval(i, total, spent) <==> OverThreshold(i, total, spent)
  {
    if i.cumulativeThreshold.Some? { RoundedComparison(spent + total, i.cumulativeThreshold.value); }
  }

  lemma SchemasAreSafe(i: Intent, c: Cart)
    ensures IntentSchema(i) ==> SafeIntent(i)
    ensures CartSchema(c) ==> SafeCart(c)
  {
    if CartSchema(c) {
      forall k | 0 <= k < |c.items| ensures Safe(c.items[k].qty) && Safe(c.items[k].unitPrice) {
        assert ItemSchema(c.items[k]);
      }
    }
  }

  lemma LimitIsSafe(i: Intent, merchant: Text)
    requires IntentSchema(i) && MerchantLimit(i, merchant).Some?
    ensures Safe(MerchantLimit(i, merchant).value)
  {}

  lemma BudgetsAreExact(i: Intent, c: Cart, ctx: Context)
    requires IntentSchema(i) && CartSchema(c) && ctx.spent >= 0 && ctx.merchantSpent >= 0
    ensures Round(ctx.spent + c.total) > i.ceiling <==> ctx.spent + c.total > i.ceiling
    ensures MerchantLimit(i, c.merchantId).Some? ==>
      (Round(ctx.merchantSpent + c.total) > MerchantLimit(i, c.merchantId).value
       <==> ctx.merchantSpent + c.total > MerchantLimit(i, c.merchantId).value)
  {
    RoundedComparison(ctx.spent + c.total, i.ceiling);
    hide Round;
    if MerchantLimit(i, c.merchantId).Some? {
      LimitIsSafe(i, c.merchantId);
      RoundedComparison(ctx.merchantSpent + c.total, MerchantLimit(i, c.merchantId).value);
    }
  }

  lemma TermsAreExact(i: Intent, c: Cart, ctx: Context)
    requires IntentSchema(i) && CartSchema(c) && SafeIntent(i) && SafeCart(c)
    requires ctx.spent >= 0 && ctx.merchantSpent >= 0
    ensures CheckTerms(i, c, ctx).Pass? <==> WithinTerms(i, c, ctx)
    ensures CheckTerms(i, c, ctx).Pass? ==>
      CheckTerms(i, c, ctx) == Pass(OverThreshold(i, c.total, ctx.spent), MandateCartHash(i, c))
  {
    hide Round;
    hide NeedsApproval;
    hide OverThreshold;
    hide DoubleTotal;
    hide ExactTotal;
    hide MandateCartHash;
    hide PricesMatch;
    hide SkusAllowed;
    hide IntentSchema;
    hide SafeIntent;
    hide SafeCart;
    hide MerchantLimit;
    hide Lines;
    TotalCheckIsExact(c);
    BudgetsAreExact(i, c, ctx);
    ApprovalIsExact(i, c.total, ctx.spent);
  }

  /** The gate passes exactly the chained carts that are within the signed terms, although it
      computes in rounded doubles; and it asks for approval exactly when a threshold is crossed. */
  lemma GateIsExact(i: Intent, c: Cart, ctx: Context)
    requires ctx.spent >= 0 && ctx.merchantSpent >= 0
    ensures VerifyChain(i, c, ctx).Pass? <==>
      IntentSchema(i) && CartSchema(c) && SafeIntent(i) && SafeCart(c)
      && ctx.credential.Some? && Chained(i, c, ctx.credential.value) && WithinTerms(i, c, ctx)
    ensures VerifyChain(i, c, ctx).Pass? ==>
      SafeIntent(i) && SafeCart(c)
      && VerifyChain(i, c, ctx) == Pass(OverThreshold(i, c.total, ctx.spent), MandateCartHash(i, c))
  {
    SchemasAreSafe(i, c);
    if IntentSchema(i) && CartSchema(c) {
      TermsAreExact(i, c, ctx);
      hide CheckTerms;
      hide WithinTerms;
      hide IntentSigningBytes;
      hide CartSigningBytes;
      hide IntentSchema;
      hide CartSchema;
    }
  }
}
