/** The texts that are signed and hashed, letter by letter: the property names and their order are
    written out, so each text has one spelling. */
module Documents {
  import opened Options
  import opened Texts
  import opened CanonicalJson
  import opened Crypto
  import opened Mandates
  import opened Schema
  import opened Protocol
  import opened JsonText
  import Ledger

  /** The properties of an object, in the order in which they are written. */
  type Listing = seq<(string, Json)>

  predicate Printable(listing: Listing) { forall i :: 0 <= i < |listing| ==> Canonical(listing[i].1) }

  /** `"name":value` (58) */
  function Part(p: (string, Json)): Text
    requires Canonical(p.1)
  {
    Encode(Str(Lit(p.0))) + [58] + Encode(p.1)
  }

  /** The parts with commas between, in braces (123, 125). */
  function Written(listing: Listing): Text
    requires Printable(listing)
  {
    [123] + Joined(seq(|listing|, i requires 0 <= i < |listing| => Part(listing[i]))) + [125]
  }

  predicate Ordered(listing: Listing) {
    forall i :: 0 <= i < |listing| - 1 ==> Precedes(Lit(listing[i].0), Lit(listing[i + 1].0))
  }

  /** The object has exactly these properties. */
  ghost predicate Lists(fields: map<Text, Json>, listing: Listing) {
    && (forall i :: 0 <= i < |listing| ==> Has(fields, listing[i]))
    && (forall k :: k in fields ==> Mentions(listing, k))
  }

  ghost predicate Mentions(listing: Listing, k: Text) {
    exists i :: 0 <= i < |listing| && Lit(listing[i].0) == k
  }

  lemma MentionedAt(listing: Listing, i: nat)
    requires i < |listing|
    ensures Mentions(listing, Lit(listing[i].0))
  {
    hide Lit;
  }

  predicate Has(fields: map<Text, Json>, p: (string, Json)) { Lit(p.0) in fields && fields[Lit(p.0)] == p.1 }

  function Names(listing: Listing): (keys: seq<Text>)
    ensures |keys| == |listing|
  {
    seq(|listing|, i requires 0 <= i < |listing| => Lit(listing[i].0))
  }

  lemma NamesList(fields: map<Text, Json>, listing: Listing)
    requires Lists(fields, listing) && Ordered(listing)
    ensures Texts.Lists(Names(listing), fields.Keys)
  {
    hide Precedes;
    hide Lit;
    var keys := Names(listing);
    forall k ensures k in keys <==> k in fields.Keys {
      if k in fields {
        var i :| 0 <= i < |listing| && Lit(listing[i].0) == k;
        assert keys[i] == k;
      }
      if k in keys {
        var i :| 0 <= i < |keys| && keys[i] == k;
        assert Has(fields, listing[i]);
      }
    }
  }

  lemma PartText(fields: map<Text, Json>, listing: Listing, i: nat)
    requires forall k :: k in Names(listing) ==> k in fields && Canonical(fields[k])
    requires i < |listing| && Has(fields, listing[i])
    ensures Canonical(listing[i].1) && FieldTexts(fields, Names(listing))[i] == Part(listing[i])
  {
    hide Encode;
    hide Lit;
    assert Names(listing)[i] in Names(listing);
  }

  lemma PartsText(fields: map<Text, Json>, listing: Listing)
    requires forall k :: k in Names(listing) ==> k in fields && Canonical(fields[k])
    requires forall i :: 0 <= i < |listing| ==> Has(fields, listing[i])
    ensures Printable(listing) && [123] + Joined(FieldTexts(fields, Names(listing))) + [125] == Written(listing)
  {
    hide Has;
    hide Part;
    hide Joined;
    var texts := FieldTexts(fields, Names(listing));
    forall i | 0 <= i < |listing| ensures Canonical(listing[i].1) && texts[i] == Part(listing[i]) {
      PartText(fields, listing, i);
    }
    assert texts == seq(|listing|, i requires 0 <= i < |listing| => Part(listing[i]));
  }

  lemma ObjectIsWritten(fields: map<Text, Json>, listing: Listing)
    requires Canonical(Obj(fields)) && Lists(fields, listing) && Ordered(listing)
    ensures Printable(listing) && Encode(Obj(fields)) == Written(listing)
  {
    hide Lit;
    hide Encode;
    hide Ordered;
    hide Joined;
    hide Has;
    hide Mentions;
    hide Part;
    hide Written;
    hide FieldTexts;
    hide Names;
    NamesList(fields, listing);
    ObjectText(fields, Names(listing));
    PartsText(fields, listing);
  }

  /** Name x comes before name y: they part at place k, and x has the smaller letter there. */
  predicate Parts(x: string, y: string, k: nat) {
    k < |x| && k < |y| && (forall j :: 0 <= j < k ==> x[j] == y[j]) && x[k] as int < y[k] as int < 128
  }

  lemma PartsPrecedes(x: string, y: string, k: nat)
    requires Parts(x, y, k)
    ensures Precedes(Lit(x), Lit(y))
  {
    assert PrecedesAt(Lit(x), Lit(y), k);
  }

  // ---------------------------------------------------------------- addresses and requests

  /** The text behind a content address. */
  lemma LinkText(intentHash: Text, cartHash: Text)
    ensures LinkBytes(intentHash, cartHash) == Written([("cart_hash", Str(cartHash)), ("intent_hash", Str(intentHash))])
  {
    var listing := [("cart_hash", Str(cartHash)), ("intent_hash", Str(intentHash))];
    assert |INTENT_HASH| != |CART_HASH|;
    PartsPrecedes("cart_hash", "intent_hash", 0);
    hide Lit;
    hide Precedes;
    MentionedAt(listing, 0);
    MentionedAt(listing, 1);
    ObjectIsWritten(map[INTENT_HASH := Str(intentHash), CART_HASH := Str(cartHash)], listing);
    hide Encode;
    hide Written;
  }

  /** What a human signs to revoke a mandate. */
  lemma RevokeText(m: Text)
    ensures RevokeBytes(m) == Written([("action", Str(Lit("revoke"))), ("mandateId", Str(m))])
  {
    var listing := [("action", Str(Lit("revoke"))), ("mandateId", Str(m))];
    assert |MANDATE_ID| != |ACTION|;
    PartsPrecedes("action", "mandateId", 0);
    hide Lit;
    hide Precedes;
    MentionedAt(listing, 0);
    MentionedAt(listing, 1);
    ObjectIsWritten(map[MANDATE_ID := Str(m), ACTION := Str(REVOKE)], listing);
    hide Encode;
    hide Written;
  }

  function ApprovalListing(i: nat, cartHash: Text, decision: Decision): Listing {
    [("decision", Str(Lit(if decision == Granted then "approved" else "rejected"))),
     ("mandate_cart_hash_hex", Str(cartHash)),
     ("settlement_id", Str(Decimal(i)))]
  }

  lemma ApprovalNames(i: nat, cartHash: Text, decision: Decision)
    ensures Ordered(ApprovalListing(i, cartHash, decision))
  {
    PartsPrecedes("decision", "mandate_cart_hash_hex", 0);
    PartsPrecedes("mandate_cart_hash_hex", "settlement_id", 0);
    hide Lit;
    hide Precedes;
    hide Decimal;
  }

  /** What a human signs to decide on settlement i. */
  lemma ApprovalText(i: nat, cartHash: Text, decision: Decision)
    ensures ApprovalBytes(i, cartHash, decision) == Written(ApprovalListing(i, cartHash, decision))
  {
    var word := if decision == Granted then Lit("approved") else Lit("rejected");
    var fields := map[SETTLEMENT_ID := Str(Decimal(i)), CART_HASH_HEX := Str(cartHash), DECISION := Str(word)];
    var listing := ApprovalListing(i, cartHash, decision);
    ApprovalNames(i, cartHash, decision);
    assert |SETTLEMENT_ID| == 13 && |CART_HASH_HEX| == 21 && |DECISION| == 8;
    hide Lit;
    hide Ordered;
    hide Decimal;
    MentionedAt(listing, 0);
    MentionedAt(listing, 1);
    MentionedAt(listing, 2);
    assert Lists(fields, listing);
    ObjectIsWritten(fields, listing);
    hide Lists;
    hide Encode;
    hide Written;
  }

  function LedgerListing(eventType: Text, settlementId: Option<Text>, actor: Text, payload: Json, prev: Text): Listing {
    [("actor", Str(actor)), ("event_type", Str(eventType)), ("payload", payload), ("prev_hash", Str(prev)),
     ("settlement_id", if settlementId.Some? then Str(settlementId.value) else Null)]
  }

  lemma LedgerNames(eventType: Text, settlementId: Option<Text>, actor: Text, payload: Json, prev: Text)
    ensures Ordered(LedgerListing(eventType, settlementId, actor, payload, prev))
  {
    PartsPrecedes("actor", "event_type", 0);
    PartsPrecedes("event_type", "payload", 0);
    PartsPrecedes("payload", "prev_hash", 1);
    PartsPrecedes("prev_hash", "settlement_id", 0);
    hide Lit;
    hide Precedes;
  }

  lemma LedgerFields(eventType: Text, settlementId: Option<Text>, actor: Text, payload: Json, prev: Text)
    ensures Lists(Ledger.Hashed(eventType, settlementId, actor, payload, prev).fields,
                  LedgerListing(eventType, settlementId, actor, payload, prev))
  {
    Ledger.LedgerKeysDiffer();
    hide Lit;
    var listing := LedgerListing(eventType, settlementId, actor, payload, prev);
    MentionedAt(listing, 0);
    MentionedAt(listing, 1);
    MentionedAt(listing, 2);
    MentionedAt(listing, 3);
    MentionedAt(listing, 4);
    hide Mentions;
  }

  /** The hash of a ledger row. */
  lemma LedgerText(eventType: Text, settlementId: Option<Text>, actor: Text, payload: Json, prev: Text)
    requires Canonical(payload)
    ensures Canonical(Ledger.Hashed(eventType, settlementId, actor, payload, prev))
    ensures Printable(LedgerListing(eventType, settlementId, actor, payload, prev))
    ensures Ledger.RowHash(eventType, settlementId, actor, payload, prev)
      == Sha256Hex(Written(LedgerListing(eventType, settlementId, actor, payload, prev)))
  {
    Ledger.HashedIsCanonical(eventType, settlementId, actor, payload, prev);
    LedgerNames(eventType, settlementId, actor, payload, prev);
    LedgerFields(eventType, settlementId, actor, payload, prev);
    hide Lists;
    hide Ordered;
    hide LedgerListing;
    hide Written;
    hide Encode;
    var v := Ledger.Hashed(eventType, settlementId, actor, payload, prev);
    assert v == Obj(v.fields);
    hide Ledger.Hashed;
    ObjectIsWritten(v.fields, LedgerListing(eventType, settlementId, actor, payload, prev));
  }

  // ---------------------------------------------------------------- carts

  /** The property that an optional value adds. */
  function IfThere(name: string, v: Option<Json>): Listing { if v.Some? then [(name, v.value)] else [] }

  /** The variant of an item; an empty one is none. */
  function VariantJson(item: Item): Option<Json> {
    if item.variantId.Some? && item.variantId.value != [] then Some(Str(item.variantId.value)) else None
  }

  function ItemListing(item: Item): Listing {
    [("qty", Num(item.qty)), ("sku", Str(item.sku)), ("unit_price_paise", Num(item.unitPrice))]
    + IfThere("variant_id", VariantJson(item))
  }

  lemma ItemNames(item: Item)
    ensures Ordered(ItemListing(item))
  {
    PartsPrecedes("qty", "sku", 0);
    PartsPrecedes("sku", "unit_price_paise", 0);
    PartsPrecedes("unit_price_paise", "variant_id", 0);
    hide Lit;
    hide Precedes;
  }

  lemma ItemFields(item: Item)
    ensures Lists(ItemTerms(item), ItemListing(item))
  {
    ItemLookups(item);
    hide Lit;
    MentionedAt(ItemListing(item), 0);
    MentionedAt(ItemListing(item), 1);
    MentionedAt(ItemListing(item), 2);
    if VariantJson(item).Some? { MentionedAt(ItemListing(item), 3); }
    hide Mentions;
  }

  /** An item of a cart; its label is not signed. */
  lemma ItemText(item: Item)
    requires Safe(item.qty) && Safe(item.unitPrice)
    ensures Canonical(Obj(ItemTerms(item))) && Printable(ItemListing(item))
    ensures Encode(Obj(ItemTerms(item))) == Written(ItemListing(item))
  {
    assert Canonical(Obj(ItemTerms(item))) by { hide Lit; }
    ItemNames(item);
    ItemFields(item);
    hide Lists;
    hide Ordered;
    hide ItemListing;
    hide ItemTerms;
    hide Written;
    ObjectIsWritten(ItemTerms(item), ItemListing(item));
    hide Encode;
  }

  function CartListing(c: Cart): Listing {
    [("cartId", Str(c.cartId)), ("intent_hash_hex", Str(c.intentHash)),
     ("items", Arr(seq(|c.items|, i requires 0 <= i < |c.items| => Obj(ItemTerms(c.items[i]))))),
     ("merchant_id", Str(c.merchantId)), ("total_paise", Num(c.total))]
  }

  lemma CartNames(c: Cart)
    ensures Ordered(CartListing(c))
  {
    PartsPrecedes("cartId", "intent_hash_hex", 0);
    PartsPrecedes("intent_hash_hex", "items", 1);
    PartsPrecedes("items", "merchant_id", 0);
    PartsPrecedes("merchant_id", "total_paise", 0);
    hide Lit;
    hide Precedes;
    hide ItemTerms;
  }

  lemma CartFields(c: Cart)
    ensures Lists(CartTerms(c), CartListing(c))
  {
    CartLookups(c);
    hide Lit;
    hide ItemTerms;
    MentionedAt(CartListing(c), 0);
    MentionedAt(CartListing(c), 1);
    MentionedAt(CartListing(c), 2);
    MentionedAt(CartListing(c), 3);
    MentionedAt(CartListing(c), 4);
    hide Mentions;
  }

  /** What the agent signs: items as `ItemText` writes them, no labels, no signature. */
  lemma CartText(c: Cart)
    requires SafeCart(c)
    ensures Printable(CartListing(c)) && CartSigningBytes(c) == Written(CartListing(c))
  {
    CartIsCanonical(c);
    CartNames(c);
    CartFields(c);
    hide Lists;
    hide Ordered;
    hide CartListing;
    hide CartTerms;
    hide Written;
    ObjectIsWritten(CartTerms(c), CartListing(c));
    hide Encode;
  }

  // ---------------------------------------------------------------- intents

  /** A list of texts: in the order given, quoted, between brackets (91, 93). */
  lemma StringsText(texts: seq<Text>)
    ensures Canonical(Strings(texts))
    ensures Encode(Strings(texts)) == [91]
      + Joined(seq(|texts|, i requires 0 <= i < |texts| => Encode(Str(texts[i])))) + [93]
  {
    var items := Strings(texts).items;
    ArrayText(items);
    hide Encode;
    hide Joined;
    assert ItemTexts(items) == seq(|texts|, i requires 0 <= i < |texts| => Encode(Str(texts[i])));
  }

  function AmountTexts(amounts: map<Text, int>, keys: seq<Text>): (parts: seq<Text>)
    requires forall k :: k in keys ==> k in amounts && Safe(amounts[k])
  {
    seq(|keys|, i requires 0 <= i < |keys| => Encode(Str(keys[i])) + [58] + Encode(Num(amounts[keys[i]])))
  }

  /** A table of amounts, under its keys in their order. */
  lemma AmountsText(amounts: map<Text, int>, keys: seq<Text>)
    requires (forall k :: k in amounts ==> Safe(amounts[k])) && Texts.Lists(keys, amounts.Keys)
    ensures Canonical(Amounts(amounts))
    ensures Encode(Amounts(amounts)) == [123] + Joined(AmountTexts(amounts, keys)) + [125]
  {
    var fields := Amounts(amounts).fields;
    assert fields.Keys == amounts.Keys;
    ObjectText(fields, keys);
    hide Encode;
    hide Joined;
    hide Precedes;
    forall i | 0 <= i < |keys| ensures FieldTexts(fields, keys)[i] == AmountTexts(amounts, keys)[i] {
      assert keys[i] in keys;
    }
    assert FieldTexts(fields, keys) == AmountTexts(amounts, keys);
  }

  function LimitsJson(i: Intent): Option<Json> {
    if i.perMerchant.Some? then Some(Amounts(i.perMerchant.value)) else None
  }

  function CumulativeJson(i: Intent): Option<Json> {
    if i.cumulativeThreshold.Some? then Some(Num(i.cumulativeThreshold.value)) else None
  }

  function SkusJson(i: Intent): Option<Json> {
    if i.allowedSkus.Some? then Some(Strings(i.allowedSkus.value)) else None
  }

  function IntentListing(i: Intent): Listing {
    [("agent_pubkey_hex", Str(i.agentKey))]
    + IfThere("allowed_skus", SkusJson(i))
    + [("approval_threshold_paise", Num(i.approvalThreshold)), ("ceiling_paise", Num(i.ceiling))]
    + IfThere("cumulative_approval_threshold_paise", CumulativeJson(i))
    + [("currency", Str(i.currency)), ("expires_at", Num(i.expiresAt)), ("goal", Str(i.goal)),
       ("mandateId", Str(i.mandateId)), ("merchants", Strings(i.merchants))]
    + IfThere("per_merchant_ceiling_paise", LimitsJson(i))
  }

  /** The order of all eleven names. */
  lemma EarlyNameOrder()
    ensures Precedes(Lit("agent_pubkey_hex"), Lit("allowed_skus"))
    ensures Precedes(Lit("agent_pubkey_hex"), Lit("approval_threshold_paise"))
    ensures Precedes(Lit("allowed_skus"), Lit("approval_threshold_paise"))
    ensures Precedes(Lit("approval_threshold_paise"), Lit("ceiling_paise"))
  {
    PartsPrecedes("agent_pubkey_hex", "allowed_skus", 1);
    PartsPrecedes("agent_pubkey_hex", "approval_threshold_paise", 1);
    PartsPrecedes("allowed_skus", "approval_threshold_paise", 1);
    PartsPrecedes("approval_threshold_paise", "ceiling_paise", 0);
    hide Lit;
    hide Precedes;
  }

  lemma CeilingNameOrder()
    ensures Precedes(Lit("ceiling_paise"), Lit("cumulative_approval_threshold_paise"))
    ensures Precedes(Lit("ceiling_paise"), Lit("currency"))
  {
    PartsPrecedes("ceiling_paise", "cumulative_approval_threshold_paise", 1);
    PartsPrecedes("ceiling_paise", "currency", 1);
    hide Lit;
    hide Precedes;
  }

  lemma CurrencyNameOrder()
    ensures Precedes(Lit("cumulative_approval_threshold_paise"), Lit("currency"))
  {
    PartsPrecedes("cumulative_approval_threshold_paise", "currency", 2);
    hide Lit;
    hide Precedes;
  }

  lemma LateNameOrder()
    ensures Precedes(Lit("currency"), Lit("expires_at")) && Precedes(Lit("expires_at"), Lit("goal"))
    ensures Precedes(Lit("goal"), Lit("mandateId")) && Precedes(Lit("mandateId"), Lit("merchants"))
    ensures Precedes(Lit("merchants"), Lit("per_merchant_ceiling_paise"))
  {
    PartsPrecedes("currency", "expires_at", 0);
    PartsPrecedes("expires_at", "goal", 0);
    PartsPrecedes("goal", "mandateId", 0);
    PartsPrecedes("mandateId", "merchants", 1);
    PartsPrecedes("merchants", "per_merchant_ceiling_paise", 0);
    hide Lit;
    hide Precedes;
  }

  lemma IntentNames(i: Intent)
    ensures Ordered(IntentListing(i))
  {
    EarlyNameOrder();
    CeilingNameOrder();
    CurrencyNameOrder();
    LateNameOrder();
    hide Lit;
    hide Precedes;
    hide Strings;
    hide Amounts;
  }

  lemma IntentKeys(i: Intent)
    ensures forall k :: k in IntentTerms(i) ==>
      || k in {MANDATE_ID, GOAL, CEILING, THRESHOLD, CURRENCY, MERCHANTS, EXPIRES_AT, AGENT_KEY}
      || (k == PER_MERCHANT && i.perMerchant.Some?) || (k == CUMULATIVE && i.cumulativeThreshold.Some?)
      || (k == ALLOWED_SKUS && i.allowedSkus.Some?)
  {
    hide Lit;
    hide Strings;
    hide Amounts;
  }

  lemma IntentMentions(i: Intent)
    ensures var l := IntentListing(i);
      && Mentions(l, AGENT_KEY) && Mentions(l, THRESHOLD) && Mentions(l, CEILING) && Mentions(l, CURRENCY)
      && Mentions(l, EXPIRES_AT) && Mentions(l, GOAL) && Mentions(l, MANDATE_ID) && Mentions(l, MERCHANTS)
      && (i.allowedSkus.Some? ==> Mentions(l, ALLOWED_SKUS))
      && (i.cumulativeThreshold.Some? ==> Mentions(l, CUMULATIVE))
      && (i.perMerchant.Some? ==> Mentions(l, PER_MERCHANT))
  {
    hide Lit;
    hide Strings;
    hide Amounts;
    hide Mentions;
    var l := IntentListing(i);
    var a := if i.allowedSkus.Some? then 1 else 0;
    var b := if i.cumulativeThreshold.Some? then a + 1 else a;
    MentionedAt(l, 0);
    if i.allowedSkus.Some? { MentionedAt(l, 1); }
    MentionedAt(l, 1 + a);
    MentionedAt(l, 2 + a);
    if i.cumulativeThreshold.Some? { MentionedAt(l, 3 + a); }
    MentionedAt(l, 3 + b);
    MentionedAt(l, 4 + b);
    MentionedAt(l, 5 + b);
    MentionedAt(l, 6 + b);
    MentionedAt(l, 7 + b);
    if i.perMerchant.Some? { MentionedAt(l, 8 + b); }
  }

  lemma IntentFields(i: Intent)
    ensures Lists(IntentTerms(i), IntentListing(i))
  {
    BaseLookups(i);
    PolicyLookups(i);
    IntentKeys(i);
    IntentMentions(i);
    hide Lit;
    hide Strings;
    hide Amounts;
    hide IntentTerms;
    hide Mentions;
  }

  /** What the human signs: an absent policy leaves no trace. */
  lemma IntentText(i: Intent)
    requires SafeIntent(i)
    ensures Printable(IntentListing(i)) && IntentSigningBytes(i) == Written(IntentListing(i))
  {
    IntentIsCanonical(i);
    IntentNames(i);
    IntentFields(i);
    hide Lists;
    hide Ordered;
    hide IntentListing;
    hide IntentTerms;
    hide Written;
    ObjectIsWritten(IntentTerms(i), IntentListing(i));
    hide Encode;
  }

  /** The content address: the hash of the two hashes, each under its own name. */
  lemma AddressText(i: Intent, c: Cart)
    requires SafeIntent(i) && SafeCart(c)
    ensures Printable(IntentListing(i)) && Printable(CartListing(c))
    ensures MandateCartHash(i, c) == Sha256Hex(Written([
      ("cart_hash", Str(Sha256Hex(Written(CartListing(c))))),
      ("intent_hash", Str(Sha256Hex(Written(IntentListing(i)))))]))
  {
    IntentText(i);
    CartText(c);
    LinkText(Sha256Hex(IntentSigningBytes(i)), Sha256Hex(CartSigningBytes(c)));
    hide IntentListing;
    hide CartListing;
    hide Written;
  }
}
