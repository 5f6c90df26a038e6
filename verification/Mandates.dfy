/** The signed documents (packages/core/src/mandate.ts) and what their signing bytes fix. */
module Mandates {
  import opened Options
  import opened Texts
  import opened CanonicalJson
  import opened Crypto

  datatype Intent = Intent(
    mandateId: Text,
    goal: Text,
    ceiling: int,
    approvalThreshold: int,
    currency: Text,
    merchants: seq<Text>,
    expiresAt: int,
    agentKey: Text,
    perMerchant: Option<map<Text, int>>,
    cumulativeThreshold: Option<int>,
    allowedSkus: Option<seq<Text>>,
    sig: Sig)

  datatype Item = Item(sku: Text, qty: int, unitPrice: int, variantId: Option<Text>, variantLabel: Option<Text>)

  datatype Cart = Cart(
    cartId: Text,
    merchantId: Text,
    items: seq<Item>,
    total: int,
    intentHash: Text,
    agentSig: Text)

  // ---------------------------------------------------------------- documents as JSON

  const MANDATE_ID := Lit("mandateId")
  const GOAL := Lit("goal")
  const CEILING := Lit("ceiling_paise")
  const THRESHOLD := Lit("approval_threshold_paise")
  const CURRENCY := Lit("currency")
  const MERCHANTS := Lit("merchants")
  const EXPIRES_AT := Lit("expires_at")
  const AGENT_KEY := Lit("agent_pubkey_hex")
  const PER_MERCHANT := Lit("per_merchant_ceiling_paise")
  const CUMULATIVE := Lit("cumulative_approval_threshold_paise")
  const ALLOWED_SKUS := Lit("allowed_skus")

  const CART_ID := Lit("cartId")
  const MERCHANT_ID := Lit("merchant_id")
  const ITEMS := Lit("items")
  const TOTAL := Lit("total_paise")
  const INTENT_HASH_HEX := Lit("intent_hash_hex")
  const SKU := Lit("sku")
  const QTY := Lit("qty")
  const UNIT_PRICE := Lit("unit_price_paise")
  const VARIANT_ID := Lit("variant_id")

  const INTENT_HASH := Lit("intent_hash")
  const CART_HASH := Lit("cart_hash")

  function Strings(texts: seq<Text>): Json {
    Arr(seq(|texts|, i requires 0 <= i < |texts| => Str(texts[i])))
  }

  function Amounts(amounts: map<Text, int>): Json {
    Obj(map k | k in amounts :: Num(amounts[k]))
  }

  /** An optional property: the key is there only when the value is. */
  function Optionally(key: Text, value: Option<Json>): map<Text, Json> {
    match value
    case None => map[]
    case Some(v) => map[key := v]
  }

  function BaseTerms(i: Intent): map<Text, Json> {
    map[
      MANDATE_ID := Str(i.mandateId),
      GOAL := Str(i.goal),
      CEILING := Num(i.ceiling),
      THRESHOLD := Num(i.approvalThreshold),
      CURRENCY := Str(i.currency),
      MERCHANTS := Strings(i.merchants),
      EXPIRES_AT := Num(i.expiresAt),
      AGENT_KEY := Str(i.agentKey)
    ]
  }

  function PolicyTerms(i: Intent): map<Text, Json> {
    Optionally(PER_MERCHANT, if i.perMerchant.Some? then Some(Amounts(i.perMerchant.value)) else None)
    + Optionally(CUMULATIVE, if i.cumulativeThreshold.Some? then Some(Num(i.cumulativeThreshold.value)) else None)
    + Optionally(ALLOWED_SKUS, if i.allowedSkus.Some? then Some(Strings(i.allowedSkus.value)) else None)
  }

  function IntentTerms(i: Intent): map<Text, Json> {
    BaseTerms(i) + PolicyTerms(i)
  }

  /** The variant the signature covers: the code drops an empty id as it drops an absent one. */
  function SignedVariant(item: Item): Option<Text> {
    if item.variantId == Some([]) then None else item.variantId
  }

  function ItemTerms(item: Item): map<Text, Json> {
    map[SKU := Str(item.sku), QTY := Num(item.qty), UNIT_PRICE := Num(item.unitPrice)]
    + Optionally(VARIANT_ID, if SignedVariant(item).Some? then Some(Str(SignedVariant(item).value)) else None)
  }

  function CartTerms(c: Cart): map<Text, Json> {
    map[
      CART_ID := Str(c.cartId),
      MERCHANT_ID := Str(c.merchantId),
      ITEMS := Arr(seq(|c.items|, i requires 0 <= i < |c.items| => Obj(ItemTerms(c.items[i])))),
      TOTAL := Num(c.total),
      INTENT_HASH_HEX := Str(c.intentHash)
    ]
  }

  /** Every number is one that canonical JSON accepts. */
  predicate SafeIntent(i: Intent) {
    && Safe(i.ceiling) && Safe(i.approvalThreshold) && Safe(i.expiresAt)
    && (i.perMerchant.Some? ==> forall k :: k in i.perMerchant.value ==> Safe(i.perMerchant.value[k]))
    && (i.cumulativeThreshold.Some? ==> Safe(i.cumulativeThreshold.value))
  }

  predicate SafeCart(c: Cart) {
    && Safe(c.total)
    && forall k :: 0 <= k < |c.items| ==> Safe(c.items[k].qty) && Safe(c.items[k].unitPrice)
  }

  lemma IntentIsCanonical(i: Intent)
    requires SafeIntent(i)
    ensures Canonical(Obj(IntentTerms(i)))
  {
    BaseIsCanonical(i);
    PolicyIsCanonical(i);
    hide BaseTerms;
    hide PolicyTerms;
  }

  lemma BaseIsCanonical(i: Intent)
    requires SafeIntent(i)
    ensures forall k :: k in BaseTerms(i) ==> Canonical(BaseTerms(i)[k])
  {
    hide Lit;
    assert Canonical(Strings(i.merchants));
    hide Strings;
  }

  lemma PolicyIsCanonical(i: Intent)
    requires SafeIntent(i)
    ensures forall k :: k in PolicyTerms(i) ==> Canonical(PolicyTerms(i)[k])
  {
    hide Lit;
    assert i.perMerchant.Some? ==> Canonical(Amounts(i.perMerchant.value));
    assert i.allowedSkus.Some? ==> Canonical(Strings(i.allowedSkus.value));
    hide Strings;
    hide Amounts;
  }

  lemma CartIsCanonical(c: Cart)
    requires SafeCart(c)
    ensures Canonical(Obj(CartTerms(c)))
  {
    hide Lit;
    forall k | 0 <= k < |c.items| ensures Canonical(Obj(ItemTerms(c.items[k]))) {}
    assert Canonical(CartTerms(c)[ITEMS]);
  }

  function IntentSigningBytes(i: Intent): Text
    requires SafeIntent(i)
  {
    IntentIsCanonical(i);
    Encode(Obj(IntentTerms(i)))
  }

  function CartSigningBytes(c: Cart): Text
    requires SafeCart(c)
  {
    CartIsCanonical(c);
    Encode(Obj(CartTerms(c)))
  }

  function LinkBytes(intentHash: Text, cartHash: Text): Text {
    Encode(Obj(map[INTENT_HASH := Str(intentHash), CART_HASH := Str(cartHash)]))
  }

  /** `computeMandateCartHash`: the content address of one intent and cart pairing. */
  function MandateCartHash(i: Intent, c: Cart): Text
    requires SafeIntent(i) && SafeCart(c)
  {
    Sha256Hex(LinkBytes(Sha256Hex(IntentSigningBytes(i)), Sha256Hex(CartSigningBytes(c))))
  }

  // ---------------------------------------------------------------- what the bytes fix

  /** Everything in the intent but its signature. */
  predicate SameTerms(a: Intent, b: Intent) {
    a.(sig := b.sig) == b
  }

  predicate SameItem(a: Item, b: Item) {
    a.sku == b.sku && a.qty == b.qty && a.unitPrice == b.unitPrice && SignedVariant(a) == SignedVariant(b)
  }

  /** Everything in the cart but its signature and the display labels. */
  predicate SamePurchase(a: Cart, b: Cart) {
    && a.cartId == b.cartId && a.merchantId == b.merchantId
    && a.total == b.total && a.intentHash == b.intentHash
    && |a.items| == |b.items|
    && forall k :: 0 <= k < |a.items| ==> SameItem(a.items[k], b.items[k])
  }

  /** The names of all properties, told apart by length except for one pair. */
  lemma IntentKeysDiffer()
    ensures |MANDATE_ID| == 9 && |GOAL| == 4 && |CEILING| == 13 && |THRESHOLD| == 24 && |CURRENCY| == 8
    ensures |MERCHANTS| == 9 && |EXPIRES_AT| == 10 && |AGENT_KEY| == 16
    ensures |PER_MERCHANT| == 26 && |CUMULATIVE| == 35 && |ALLOWED_SKUS| == 12
    ensures MANDATE_ID != MERCHANTS
  {
    assert MANDATE_ID[1] == 97 && MERCHANTS[1] == 101;
  }

  lemma BaseEntries(i: Intent)
    ensures var t := BaseTerms(i);
      && MANDATE_ID in t && t[MANDATE_ID] == Str(i.mandateId)
      && GOAL in t && t[GOAL] == Str(i.goal)
      && CEILING in t && t[CEILING] == Num(i.ceiling)
      && THRESHOLD in t && t[THRESHOLD] == Num(i.approvalThreshold)
      && CURRENCY in t && t[CURRENCY] == Str(i.currency)
      && MERCHANTS in t && t[MERCHANTS] == Strings(i.merchants)
      && EXPIRES_AT in t && t[EXPIRES_AT] == Num(i.expiresAt)
      && AGENT_KEY in t && t[AGENT_KEY] == Str(i.agentKey)
  {
    IntentKeysDiffer();
    hide Lit;
    hide Strings;
  }

  lemma PolicyKeys(i: Intent)
    ensures PolicyTerms(i).Keys <= {PER_MERCHANT, CUMULATIVE, ALLOWED_SKUS}
  {
    hide Lit;
    hide Strings;
    hide Amounts;
  }

  lemma PolicyKeysAreNew(i: Intent)
    ensures PER_MERCHANT !in BaseTerms(i) && CUMULATIVE !in BaseTerms(i) && ALLOWED_SKUS !in BaseTerms(i)
  {
    IntentKeysDiffer();
    hide Lit;
    hide Strings;
  }

  lemma PolicyDoesNotShadow(i: Intent)
    ensures forall k :: k in BaseTerms(i) ==> k in IntentTerms(i) && IntentTerms(i)[k] == BaseTerms(i)[k]
  {
    PolicyKeys(i);
    PolicyKeysAreNew(i);
    hide BaseTerms;
    hide PolicyTerms;
    hide Lit;
  }

  /** Every key of the intent object holds its own field. */
  lemma BaseLookups(i: Intent)
    ensures var t := IntentTerms(i);
      && MANDATE_ID in t && t[MANDATE_ID] == Str(i.mandateId)
      && GOAL in t && t[GOAL] == Str(i.goal)
      && CEILING in t && t[CEILING] == Num(i.ceiling)
      && THRESHOLD in t && t[THRESHOLD] == Num(i.approvalThreshold)
      && CURRENCY in t && t[CURRENCY] == Str(i.currency)
      && MERCHANTS in t && t[MERCHANTS] == Strings(i.merchants)
      && EXPIRES_AT in t && t[EXPIRES_AT] == Num(i.expiresAt)
      && AGENT_KEY in t && t[AGENT_KEY] == Str(i.agentKey)
  {
    BaseEntries(i);
    PolicyDoesNotShadow(i);
    hide BaseTerms;
    hide PolicyTerms;
    hide Lit;
    hide Strings;
  }

  /** An optional key is there exactly when its field is. */
  lemma PolicyLookups(i: Intent)
    ensures var t := IntentTerms(i);
      && (PER_MERCHANT in t <==> i.perMerchant.Some?)
      && (i.perMerchant.Some? ==> t[PER_MERCHANT] == Amounts(i.perMerchant.value))
      && (CUMULATIVE in t <==> i.cumulativeThreshold.Some?)
      && (i.cumulativeThreshold.Some? ==> t[CUMULATIVE] == Num(i.cumulativeThreshold.value))
      && (ALLOWED_SKUS in t <==> i.allowedSkus.Some?)
      && (i.allowedSkus.Some? ==> t[ALLOWED_SKUS] == Strings(i.allowedSkus.value))
  {
    IntentKeysDiffer();
    hide Lit;
    hide Strings;
    hide Amounts;
    PolicyKeysAreNew(i);
    hide BaseTerms;
  }

  lemma StringsIsInjective(a: seq<Text>, b: seq<Text>)
    requires Strings(a) == Strings(b)
    ensures a == b
  {
    var x, y := Strings(a).items, Strings(b).items;
    assert |a| == |x| == |b|;
    forall k | 0 <= k < |a| ensures a[k] == b[k] { assert x[k] == y[k]; }
  }

  lemma AmountsIsInjective(a: map<Text, int>, b: map<Text, int>)
    requires Amounts(a) == Amounts(b)
    ensures a == b
  {
    var x, y := Amounts(a).fields, Amounts(b).fields;
    assert a.Keys == x.Keys == b.Keys;
    forall k | k in a ensures a[k] == b[k] { assert x[k] == y[k]; }
  }

  /** The intent signature binds every term; an absent policy is never a present one. */
  lemma IntentBytesBind(a: Intent, b: Intent)
    requires SafeIntent(a) && SafeIntent(b)
    ensures IntentSigningBytes(a) == IntentSigningBytes(b) <==> SameTerms(a, b)
  {
    assert SameTerms(a, b) ==> BaseTerms(a) == BaseTerms(b) && PolicyTerms(a) == PolicyTerms(b);
    IntentIsCanonical(a);
    IntentIsCanonical(b);
    if IntentSigningBytes(a) == IntentSigningBytes(b) {
      EncodeIsInjective(Obj(IntentTerms(a)), Obj(IntentTerms(b)));
      BaseLookups(a);
      BaseLookups(b);
      PolicyLookups(a);
      PolicyLookups(b);
      hide IntentTerms;
      hide Lit;
      StringsIsInjective(a.merchants, b.merchants);
      if a.allowedSkus.Some? { StringsIsInjective(a.allowedSkus.value, b.allowedSkus.value); }
      if a.perMerchant.Some? { AmountsIsInjective(a.perMerchant.value, b.perMerchant.value); }
    }
  }

  lemma ItemLookups(item: Item)
    ensures var t := ItemTerms(item);
      && SKU in t && t[SKU] == Str(item.sku)
      && QTY in t && t[QTY] == Num(item.qty)
      && UNIT_PRICE in t && t[UNIT_PRICE] == Num(item.unitPrice)
      && (VARIANT_ID in t <==> SignedVariant(item).Some?)
      && (SignedVariant(item).Some? ==> t[VARIANT_ID] == Str(SignedVariant(item).value))
  {
    assert SKU[0] == 115 && QTY[0] == 113;
  }

  lemma ItemTermsBind(a: Item, b: Item)
    ensures ItemTerms(a) == ItemTerms(b) <==> SameItem(a, b)
  {
    ItemLookups(a);
    ItemLookups(b);
    if SameItem(a, b) { assert ItemTerms(a) == ItemTerms(b); }
  }

  lemma CartLookups(c: Cart)
    ensures var t := CartTerms(c);
      && CART_ID in t && t[CART_ID] == Str(c.cartId)
      && MERCHANT_ID in t && t[MERCHANT_ID] == Str(c.merchantId)
      && ITEMS in t && t[ITEMS] == Arr(seq(|c.items|, i requires 0 <= i < |c.items| => Obj(ItemTerms(c.items[i]))))
      && TOTAL in t && t[TOTAL] == Num(c.total)
      && INTENT_HASH_HEX in t && t[INTENT_HASH_HEX] == Str(c.intentHash)
  {
    assert MERCHANT_ID[0] == 109 && TOTAL[0] == 116;
  }

  /** The cart signature binds the whole purchase; only labels are free. */
  lemma CartBytesBind(a: Cart, b: Cart)
    requires SafeCart(a) && SafeCart(b)
    ensures CartSigningBytes(a) == CartSigningBytes(b) <==> SamePurchase(a, b)
  {
    CartLookups(a);
    CartLookups(b);
    if SamePurchase(a, b) { SamePurchaseSameTerms(a, b); }
    if CartSigningBytes(a) == CartSigningBytes(b) {
      CartIsCanonical(a);
      CartIsCanonical(b);
      EncodeIsInjective(Obj(CartTerms(a)), Obj(CartTerms(b)));
      hide Lit;
      var x, y := CartTerms(a)[ITEMS].items, CartTerms(b)[ITEMS].items;
      assert |a.items| == |x| == |b.items|;
      forall k | 0 <= k < |a.items| ensures SameItem(a.items[k], b.items[k]) {
        assert x[k] == y[k];
        ItemTermsBind(a.items[k], b.items[k]);
      }
    }
  }

  lemma SamePurchaseSameTerms(a: Cart, b: Cart)
    requires SamePurchase(a, b)
    ensures CartTerms(a) == CartTerms(b)
  {
    hide Lit;
    var x := seq(|a.items|, i requires 0 <= i < |a.items| => Obj(ItemTerms(a.items[i])));
    var y := seq(|b.items|, i requires 0 <= i < |b.items| => Obj(ItemTerms(b.items[i])));
    forall k | 0 <= k < |a.items| ensures x[k] == y[k] { ItemTermsBind(a.items[k], b.items[k]); }
    assert x == y;
  }

  lemma LinkBytesBind(i1: Text, c1: Text, i2: Text, c2: Text)
    requires LinkBytes(i1, c1) == LinkBytes(i2, c2)
    ensures i1 == i2 && c1 == c2
  {
    var a := map[INTENT_HASH := Str(i1), CART_HASH := Str(c1)];
    var b := map[INTENT_HASH := Str(i2), CART_HASH := Str(c2)];
    EncodeIsInjective(Obj(a), Obj(b));
    assert |INTENT_HASH| != |CART_HASH|;
    assert a[INTENT_HASH] == b[INTENT_HASH] && a[CART_HASH] == b[CART_HASH];
  }

  /** One content address, one set of terms and one purchase. */
  lemma MandateCartHashBinds(i1: Intent, c1: Cart, i2: Intent, c2: Cart)
    requires SafeIntent(i1) && SafeCart(c1) && SafeIntent(i2) && SafeCart(c2)
    ensures MandateCartHash(i1, c1) == MandateCartHash(i2, c2) <==> SameTerms(i1, i2) && SamePurchase(c1, c2)
  {
    IntentBytesBind(i1, i2);
    CartBytesBind(c1, c2);
    var hi1, hc1 := Sha256Hex(IntentSigningBytes(i1)), Sha256Hex(CartSigningBytes(c1));
    var hi2, hc2 := Sha256Hex(IntentSigningBytes(i2)), Sha256Hex(CartSigningBytes(c2));
    DigestBinds(IntentSigningBytes(i1), IntentSigningBytes(i2));
    DigestBinds(CartSigningBytes(c1), CartSigningBytes(c2));
    DigestBinds(LinkBytes(hi1, hc1), LinkBytes(hi2, hc2));
    if LinkBytes(hi1, hc1) == LinkBytes(hi2, hc2) { LinkBytesBind(hi1, hc1, hi2, hc2); }
  }
}
