/** Catalog dedupe (packages/cli/src/scanner.ts:466-549). A Map that is only read by key is a
    `map`; the Map of variants, whose insertion order is read back, is a sequence without
    repeated ids. */
module Catalog {
  import opened Options
  import opened Texts

  datatype Availability = InStock | OutOfStock

  datatype Variant = Variant(
    id: Text,
    title: Text,
    optionValues: seq<Text>,
    price: int,
    available: bool,
    sku: Option<Text>)

  datatype ProductOption = ProductOption(name: Text, values: seq<Text>)

  datatype Product = Product(
    sku: Text,
    name: Text,
    description: Text,
    price: int,
    currency: Text,
    availability: Availability,
    image: Text,
    brand: Text,
    url: Text,
    variants: Option<seq<Variant>>,
    options: Option<seq<ProductOption>>)

  datatype Warning = MergedDuplicate(handle: Text) | ExcludedShadow(handle: Text, of: Text)

  // ---------------------------------------------------------------- merging two records

  predicate HasId(vs: seq<Variant>, id: Text) { exists k :: 0 <= k < |vs| && vs[k].id == id }

  /** `map.set(v.variant_id, v)` */
  function Put(vs: seq<Variant>, v: Variant): seq<Variant> {
    if vs == [] then [v]
    else if vs[0].id == v.id then [v] + vs[1..]
    else [vs[0]] + Put(vs[1..], v)
  }

  /** `map.get(id)` */
  function Get(vs: seq<Variant>, id: Text): (r: Option<Variant>)
    ensures r.Some? <==> HasId(vs, id)
    ensures r.Some? ==> r.value in vs && r.value.id == id
  {
    if vs == [] then None
    else if vs[0].id == id then Some(vs[0])
    else
      var r := Get(vs[1..], id);
      assert HasId(vs[1..], id) ==> HasId(vs, id);
      assert forall k :: 0 < k < |vs| ==> vs[k] == vs[1..][k - 1];
      r
  }

  function VariantsOf(p: Product): seq<Variant> { if p.variants.Some? then p.variants.value else [] }

  function PutAll(vs: seq<Variant>): seq<Variant> {
    if vs == [] then [] else Put(PutAll(vs[..|vs| - 1]), vs[|vs| - 1])
  }

  /** A variant that either record has in stock stays in stock. */
  function Overlaid(known: seq<Variant>, v: Variant): Variant {
    var existing := Get(known, v.id);
    if existing.Some? then v.(available := existing.value.available || v.available) else v
  }

  function OverlayAll(known: seq<Variant>, vs: seq<Variant>): seq<Variant> {
    if vs == [] then known
    else
      var before := OverlayAll(known, vs[..|vs| - 1]);
      Put(before, Overlaid(before, vs[|vs| - 1]))
  }

  function MergedVariants(a: Product, b: Product): seq<Variant> {
    OverlayAll(PutAll(VariantsOf(a)), VariantsOf(b))
  }

  function Merged(a: Product, b: Product): Product {
    var vs := MergedVariants(a, b);
    a.(description := if a.description != [] then a.description else b.description,
       image := if a.image != [] then a.image else b.image,
       availability := if a.availability == InStock || b.availability == InStock then InStock else OutOfStock,
       options := if a.options.Some? then a.options else b.options,
       variants := if |vs| > 1 then Some(vs) else a.variants)
  }

  /** `mergeDuplicateShopifyProduct` */
  method MergeDuplicate(a: Product, b: Product) returns (r: Product)
    ensures r == Merged(a, b)
  {
    var byVariantId: seq<Variant> := [];
    var va, vb := VariantsOf(a), VariantsOf(b);
    for k := 0 to |va|
      invariant byVariantId == PutAll(va[..k])
    {
      assert va[..k + 1][..k] == va[..k];
      byVariantId := Put(byVariantId, va[k]);
    }
    assert va[..|va|] == va;
    for k := 0 to |vb|
      invariant byVariantId == OverlayAll(PutAll(va), vb[..k])
    {
      assert vb[..k + 1][..k] == vb[..k];
      var existing := Get(byVariantId, vb[k].id);
      if existing.Some? {
        byVariantId := Put(byVariantId, vb[k].(available := existing.value.available || vb[k].available));
      } else {
        byVariantId := Put(byVariantId, vb[k]);
      }
    }
    assert vb[..|vb|] == vb;
    r := a.(description := if a.description != [] then a.description else b.description,
            image := if a.image != [] then a.image else b.image);
    r := r.(availability := if a.availability == InStock || b.availability == InStock then InStock else OutOfStock);
    if a.options.Some? || b.options.Some? { r := r.(options := if a.options.Some? then a.options else b.options); }
    if |byVariantId| > 1 { r := r.(variants := Some(byVariantId)); }
  }

  // ---------------------------------------------------------------- the reserved suffix

  function Lower(c: CodeUnit): CodeUnit { if 65 <= c <= 90 then c + 32 else c }

  predicate EndsWith(t: Text, word: Text) {
    |word| <= |t| && forall k :: 0 <= k < |word| ==> Lower(t[|t| - |word| + k]) == word[k]
  }

  const CART := Lit("-cart")
  const CHECKOUT := Lit("-checkout")
  const ACCOUNT := Lit("-account")

  /** `handle.replace(/-(cart|checkout|account)$/i, '')` */
  function BaseHandle(handle: Text): Text {
    if EndsWith(handle, CART) then handle[..|handle| - |CART|]
    else if EndsWith(handle, CHECKOUT) then handle[..|handle| - |CHECKOUT|]
    else if EndsWith(handle, ACCOUNT) then handle[..|handle| - |ACCOUNT|]
    else handle
  }

  /** The text in lower case is one of the three reserved words after a hyphen. */
  predicate IsReserved(t: Text) {
    var lower := seq(|t|, k requires 0 <= k < |t| => Lower(t[k]));
    lower == Lit("-cart") || lower == Lit("-checkout") || lower == Lit("-account")
  }

  lemma WordEnds(t: Text, word: Text)
    ensures EndsWith(t, word) <==>
      |word| <= |t| && seq(|word|, k requires 0 <= k < |word| => Lower(t[|t| - |word| + k])) == word
  {
    hide Lower;
    if |word| <= |t| {
      var tail := seq(|word|, k requires 0 <= k < |word| => Lower(t[|t| - |word| + k]));
      if EndsWith(t, word) { assert forall k :: 0 <= k < |word| ==> tail[k] == word[k]; }
      if tail == word { assert forall k :: 0 <= k < |word| ==> tail[k] == word[k]; }
    }
  }

  /** Cutting a reserved word off a handle gives the base that the dedupe looks for. */
  lemma BaseIsCut(base: Text, word: Text)
    requires IsReserved(word)
    ensures BaseHandle(base + word) == base
  {
    var t := base + word;
    var lower := seq(|word|, k requires 0 <= k < |word| => Lower(word[k]));
    assert |CART| == 5 && |CHECKOUT| == 9 && |ACCOUNT| == 8;
    hide Lit;
    hide Lower;
    TailOf(base, word, lower);
    WordEnds(t, lower);
    OneWordEnds(t);
    assert t[..|t| - |word|] == base;
  }

  lemma TailOf(base: Text, word: Text, lower: Text)
    requires lower == seq(|word|, k requires 0 <= k < |word| => Lower(word[k]))
    ensures EndsWith(base + word, lower)
  {
    hide Lower;
    var t := base + word;
    forall k | 0 <= k < |word| ensures Lower(t[|t| - |word| + k]) == lower[k] { assert t[|t| - |word| + k] == word[k]; }
  }

  /** No text ends in two of the words. */
  lemma OneWordEnds(t: Text)
    ensures !(EndsWith(t, CART) && EndsWith(t, CHECKOUT)) && !(EndsWith(t, CART) && EndsWith(t, ACCOUNT))
    ensures !(EndsWith(t, CHECKOUT) && EndsWith(t, ACCOUNT))
  {
    hide Lower;
    assert CART[4] == 116 && CART[3] == 114 && CHECKOUT[8] == 116 && CHECKOUT[7] == 117;
    assert ACCOUNT[7] == 116 && ACCOUNT[6] == 110;
    if EndsWith(t, CART) { assert Lower(t[|t| - 5 + 3]) == 114; }
    if EndsWith(t, CHECKOUT) { assert Lower(t[|t| - 9 + 7]) == 117; }
    if EndsWith(t, ACCOUNT) { assert Lower(t[|t| - 8 + 6]) == 110; }
  }

  /** And a handle that does not end in one is its own base. */
  lemma OthersAreTheirOwnBase(handle: Text)
    requires forall n :: 0 <= n <= |handle| ==> !IsReserved(handle[n..])
    ensures BaseHandle(handle) == handle
  {
    assert |CART| == 5 && |CHECKOUT| == 9 && |ACCOUNT| == 8;
    hide Lit;
    hide Lower;
    if EndsWith(handle, CART) { ReservedTail(handle, CART); }
    if EndsWith(handle, CHECKOUT) { ReservedTail(handle, CHECKOUT); }
    if EndsWith(handle, ACCOUNT) { ReservedTail(handle, ACCOUNT); }
  }

  lemma ReservedTail(t: Text, word: Text)
    requires EndsWith(t, word) && word in {Lit("-cart"), Lit("-checkout"), Lit("-account")}
    ensures IsReserved(t[|t| - |word|..])
  {
    hide Lit;
    hide Lower;
    var tail := t[|t| - |word|..];
    var lower := seq(|tail|, k requires 0 <= k < |tail| => Lower(tail[k]));
    assert |lower| == |word| && forall k :: 0 <= k < |word| ==> lower[k] == word[k];
    assert lower == word;
  }

  // ---------------------------------------------------------------- the whole batch

  datatype Batch = Batch(byHandle: map<Text, Product>, order: seq<Text>)

  function Taken(b: Batch, p: Product): Batch {
    if p.sku in b.byHandle then b.(byHandle := b.byHandle[p.sku := Merged(b.byHandle[p.sku], p)])
    else Batch(b.byHandle[p.sku := p], b.order + [p.sku])
  }

  function Collected(products: seq<Product>): (b: Batch)
    ensures forall h :: h in b.order <==> h in b.byHandle
    ensures forall h :: h in b.byHandle ==> b.byHandle[h].sku == h
  {
    if products == [] then Batch(map[], []) else Taken(Collected(products[..|products| - 1]), products[|products| - 1])
  }

  /** A handle with a reserved suffix whose base is in the batch under the same name. */
  predicate Shadow(byHandle: map<Text, Product>, h: Text)
    requires h in byHandle
  {
    BaseHandle(h) != h && BaseHandle(h) in byHandle && byHandle[BaseHandle(h)].name == byHandle[h].name
  }

  function Kept(byHandle: map<Text, Product>, order: seq<Text>): seq<Product>
    requires forall h :: h in order ==> h in byHandle
  {
    if order == [] then []
    else
      var h := order[|order| - 1];
      Kept(byHandle, order[..|order| - 1]) + if Shadow(byHandle, h) then [] else [byHandle[h]]
  }

  function Deduped(products: seq<Product>): seq<Product> {
    var b := Collected(products);
    Kept(b.byHandle, b.order)
  }

  lemma CollectedStep(products: seq<Product>, k: nat)
    requires k < |products|
    ensures Collected(products[..k + 1]) == Taken(Collected(products[..k]), products[k])
  {
    hide Taken;
    assert products[..k + 1][..k] == products[..k];
  }

  lemma KeptStep(byHandle: map<Text, Product>, order: seq<Text>, k: nat)
    requires k < |order| && forall h :: h in order ==> h in byHandle
    ensures Kept(byHandle, order[..k + 1]) ==
      Kept(byHandle, order[..k]) + if Shadow(byHandle, order[k]) then [] else [byHandle[order[k]]]
  {
    hide Shadow;
    assert order[..k + 1][..k] == order[..k];
  }

  /** A warning for every record whose handle came before. */
  function Repeats(products: seq<Product>): seq<Warning> {
    if products == [] then []
    else
      var front, last := products[..|products| - 1], products[|products| - 1];
      Repeats(front) +
      if exists k :: 0 <= k < |front| && front[k].sku == last.sku then [MergedDuplicate(last.sku)] else []
  }

  /** And one for every shadow, in the order of the handles. */
  function Shadows(byHandle: map<Text, Product>, order: seq<Text>): seq<Warning>
    requires forall h :: h in order ==> h in byHandle
  {
    if order == [] then []
    else
      var h := order[|order| - 1];
      Shadows(byHandle, order[..|order| - 1]) +
      if Shadow(byHandle, h) then [ExcludedShadow(h, BaseHandle(h))] else []
  }

  lemma RepeatsStep(products: seq<Product>, k: nat)
    requires k < |products|
    ensures Repeats(products[..k + 1]) == Repeats(products[..k]) +
      if products[k].sku in Collected(products[..k]).byHandle then [MergedDuplicate(products[k].sku)] else []
  {
    assert products[..k + 1][..k] == products[..k];
    SeenHandles(products[..k], products[k].sku);
    hide Collected;
  }

  lemma {:induction false} SeenHandles(products: seq<Product>, h: Text)
    ensures h in Collected(products).byHandle <==> exists k :: 0 <= k < |products| && products[k].sku == h
  {
    hide Merged;
    if products != [] {
      var front := products[..|products| - 1];
      SeenHandles(front, h);
      assert forall k :: 0 <= k < |front| ==> front[k] == products[k];
      if h in Collected(front).byHandle {
        var k :| 0 <= k < |front| && front[k].sku == h;
        assert products[k].sku == h;
      }
    }
  }

  lemma ShadowsStep(byHandle: map<Text, Product>, order: seq<Text>, k: nat)
    requires k < |order| && forall h :: h in order ==> h in byHandle
    ensures Shadows(byHandle, order[..k + 1]) == Shadows(byHandle, order[..k]) +
      if Shadow(byHandle, order[k]) then [ExcludedShadow(order[k], BaseHandle(order[k]))] else []
  {
    hide Shadow;
    assert order[..k + 1][..k] == order[..k];
  }

  /** `dedupeShopifyProducts` */
  method DedupeShopifyProducts(products: seq<Product>) returns (result: seq<Product>, warnings: seq<Warning>)
    ensures result == Deduped(products)
    ensures |warnings| == |products| - |result|
    ensures warnings == Repeats(products) + Shadows(Collected(products).byHandle, Collected(products).order)
  {
    hide Collected;
    hide Kept;
    hide Merged;
    hide BaseHandle;
    hide Repeats;
    hide Shadows;
    var byHandle: map<Text, Product> := map[];
    var order: seq<Text> := [];
    warnings := [];
    assert products[..0] == [];
    NothingCollected();
    NothingWarned(map[], []);
    for k := 0 to |products|
      invariant Batch(byHandle, order) == Collected(products[..k])
      invariant |warnings| + |order| == k && warnings == Repeats(products[..k])
    {
      CollectedStep(products, k);
      RepeatsStep(products, k);
      var product := products[k];
      if product.sku in byHandle {
        var merged := MergeDuplicate(byHandle[product.sku], product);
        byHandle := byHandle[product.sku := merged];
        warnings := warnings + [MergedDuplicate(product.sku)];
      } else {
        byHandle := byHandle[product.sku := product];
        order := order + [product.sku];
      }
    }
    assert products[..|products|] == products;
    result := [];
    NothingKept(byHandle, order);
    NothingWarned(byHandle, order);
    ghost var repeats := warnings;
    for k := 0 to |order|
      invariant result == Kept(byHandle, order[..k])
      invariant |warnings| + |result| + (|order| - k) == |products|
      invariant warnings == repeats + Shadows(byHandle, order[..k])
    {
      KeptStep(byHandle, order, k);
      ShadowsStep(byHandle, order, k);
      var handle := order[k];
      var product := byHandle[handle];
      var baseHandle := BaseHandle(handle);
      if baseHandle != handle && baseHandle in byHandle && byHandle[baseHandle].name == product.name {
        warnings := warnings + [ExcludedShadow(handle, baseHandle)];
      } else {
        result := result + [product];
      }
    }
    assert order[..|order|] == order;
  }

  lemma NothingWarned(byHandle: map<Text, Product>, order: seq<Text>)
    requires forall h :: h in order ==> h in byHandle
    ensures Repeats([]) == [] && Shadows(byHandle, order[..0]) == []
  {}

  lemma NothingCollected()
    ensures Collected([]) == Batch(map[], [])
  {}

  lemma NothingKept(byHandle: map<Text, Product>, order: seq<Text>)
    requires forall h :: h in order ==> h in byHandle
    ensures Kept(byHandle, order[..0]) == []
  {}

  // ---------------------------------------------------------------- variants and stock

  predicate AvailableIn(vs: seq<Variant>, id: Text) {
    exists k :: 0 <= k < |vs| && vs[k].id == id && vs[k].available
  }

  predicate DistinctIds(vs: seq<Variant>) { forall i, j :: 0 <= i < j < |vs| ==> vs[i].id != vs[j].id }

  /** The last record of an id within one list has it in stock. */
  function LastAvailable(vs: seq<Variant>, id: Text): bool {
    if vs == [] then false
    else if vs[|vs| - 1].id == id then vs[|vs| - 1].available
    else LastAvailable(vs[..|vs| - 1], id)
  }

  lemma {:induction false} PutAnswers(vs: seq<Variant>, v: Variant)
    requires DistinctIds(vs)
    ensures DistinctIds(Put(vs, v))
    ensures forall id :: HasId(Put(vs, v), id) <==> HasId(vs, id) || id == v.id
    ensures forall id :: AvailableIn(Put(vs, v), id) <==> if id == v.id then v.available else AvailableIn(vs, id)
  {
    if vs == [] {
      assert Put(vs, v)[0] == v;
    } else {
      var rest, r := vs[1..], Put(vs, v);
      assert forall k :: 0 < k < |vs| ==> vs[k] == rest[k - 1];
      if vs[0].id == v.id {
        assert forall k :: 0 < k < |r| ==> r[k] == vs[k];
        assert r[0] == v;
        assert !HasId(rest, v.id);
      } else {
        PutAnswers(rest, v);
        var later := Put(rest, v);
        assert r[0] == vs[0];
        assert forall k :: 0 < k < |r| ==> r[k] == later[k - 1];
        forall j | 0 < j < |r| ensures r[j].id != r[0].id {
          assert HasId(later, later[j - 1].id);
          if HasId(rest, later[j - 1].id) {
            var k :| 0 <= k < |rest| && rest[k].id == later[j - 1].id;
            assert vs[k + 1] == rest[k];
          }
        }
        forall id
          ensures HasId(r, id) <==> HasId(vs, id) || id == v.id
          ensures AvailableIn(r, id) <==> if id == v.id then v.available else AvailableIn(vs, id)
        {
          SplitFirst(vs, id);
          SplitFirst(r, id);
          assert r[1..] == later;
        }
      }
    }
  }

  lemma SplitFirst(vs: seq<Variant>, id: Text)
    requires vs != []
    ensures HasId(vs, id) <==> vs[0].id == id || HasId(vs[1..], id)
    ensures AvailableIn(vs, id) <==> (vs[0].id == id && vs[0].available) || AvailableIn(vs[1..], id)
  {
    assert forall k :: 0 < k < |vs| ==> vs[k] == vs[1..][k - 1];
    if AvailableIn(vs[1..], id) {
      var k :| 0 <= k < |vs[1..]| && vs[1..][k].id == id && vs[1..][k].available;
      assert vs[k + 1] == vs[1..][k];
    }
    if HasId(vs[1..], id) {
      var k :| 0 <= k < |vs[1..]| && vs[1..][k].id == id;
      assert vs[k + 1] == vs[1..][k];
    }
  }

  lemma SplitLast(vs: seq<Variant>, id: Text)
    requires vs != []
    ensures var front, last := vs[..|vs| - 1], vs[|vs| - 1];
      && (HasId(vs, id) <==> HasId(front, id) || last.id == id)
      && (AvailableIn(vs, id) <==> AvailableIn(front, id) || (last.id == id && last.available))
  {
    var front := vs[..|vs| - 1];
    assert forall k :: 0 <= k < |front| ==> front[k] == vs[k];
    if AvailableIn(front, id) {
      var k :| 0 <= k < |front| && front[k].id == id && front[k].available;
      assert vs[k] == front[k];
    }
    if HasId(front, id) {
      var k :| 0 <= k < |front| && front[k].id == id;
      assert vs[k] == front[k];
    }
  }

  /** Within the first record the last entry of an id wins. */
  lemma {:induction false} PutAllAnswers(vs: seq<Variant>)
    ensures DistinctIds(PutAll(vs))
    ensures forall id :: HasId(PutAll(vs), id) <==> HasId(vs, id)
    ensures forall id :: AvailableIn(PutAll(vs), id) <==> LastAvailable(vs, id)
  {
    if vs != [] {
      var front, last := vs[..|vs| - 1], vs[|vs| - 1];
      PutAllAnswers(front);
      PutAnswers(PutAll(front), last);
      forall id
        ensures HasId(PutAll(vs), id) <==> HasId(vs, id)
        ensures AvailableIn(PutAll(vs), id) <==> LastAvailable(vs, id)
      {
        SplitLast(vs, id);
      }
    }
  }

  lemma GetAnswers(vs: seq<Variant>, id: Text)
    requires DistinctIds(vs)
    ensures Get(vs, id).Some? ==> (Get(vs, id).value.available <==> AvailableIn(vs, id))
    ensures Get(vs, id).None? ==> !AvailableIn(vs, id)
  {}

  /** From the second record on, one entry in stock is enough. */
  lemma {:induction false} OverlayAnswers(known: seq<Variant>, vs: seq<Variant>)
    requires DistinctIds(known)
    ensures DistinctIds(OverlayAll(known, vs))
    ensures forall id :: HasId(OverlayAll(known, vs), id) <==> HasId(known, id) || HasId(vs, id)
    ensures forall id :: AvailableIn(OverlayAll(known, vs), id) <==> AvailableIn(known, id) || AvailableIn(vs, id)
  {
    if vs != [] {
      var front, last := vs[..|vs| - 1], vs[|vs| - 1];
      OverlayAnswers(known, front);
      var before := OverlayAll(known, front);
      GetAnswers(before, last.id);
      PutAnswers(before, Overlaid(before, last));
      forall id
        ensures HasId(OverlayAll(known, vs), id) <==> HasId(known, id) || HasId(vs, id)
        ensures AvailableIn(OverlayAll(known, vs), id) <==> AvailableIn(known, id) || AvailableIn(vs, id)
      {
        SplitLast(vs, id);
      }
    }
  }

  /** Every variant of either record is there once, in stock when the second record or the last
      entry of the first one says so. */
  lemma MergeAnswers(a: Product, b: Product)
    ensures DistinctIds(MergedVariants(a, b))
    ensures forall id :: HasId(MergedVariants(a, b), id) <==> HasId(VariantsOf(a), id) || HasId(VariantsOf(b), id)
    ensures forall id :: AvailableIn(MergedVariants(a, b), id) <==>
      LastAvailable(VariantsOf(a), id) || AvailableIn(VariantsOf(b), id)
  {
    hide PutAll;
    hide OverlayAll;
    hide HasId;
    hide AvailableIn;
    PutAllAnswers(VariantsOf(a));
    OverlayAnswers(PutAll(VariantsOf(a)), VariantsOf(b));
  }

  /** Two different variants are listed by one record or the other. */
  ghost predicate ManyIds(a: Product, b: Product) {
    exists x, y :: x != y && Listed(a, b, x) && Listed(a, b, y)
  }

  predicate Listed(a: Product, b: Product, id: Text) { HasId(VariantsOf(a), id) || HasId(VariantsOf(b), id) }

  /** The merged list has two entries exactly when two different ids are listed. */
  lemma InstalledIff(a: Product, b: Product)
    ensures |MergedVariants(a, b)| > 1 <==> ManyIds(a, b)
  {
    MergeAnswers(a, b);
    var m := MergedVariants(a, b);
    hide MergedVariants;
    assert forall id :: HasId(m, id) <==> Listed(a, b, id);
    if |m| > 1 {
      assert HasId(m, m[0].id) && HasId(m, m[1].id);
      assert Listed(a, b, m[0].id) && Listed(a, b, m[1].id);
    }
    if ManyIds(a, b) {
      var x, y :| x != y && Listed(a, b, x) && Listed(a, b, y);
      var i, j :| 0 <= i < |m| && m[i].id == x && 0 <= j < |m| && m[j].id == y;
      assert i != j;
    }
  }

  /** The stock of the returned record: the merged list when it has two entries, else the list of
      the first record as it is. */
  lemma MergedStock(a: Product, b: Product)
    ensures forall id :: AvailableIn(VariantsOf(Merged(a, b)), id) <==>
      if ManyIds(a, b) then LastAvailable(VariantsOf(a), id) || AvailableIn(VariantsOf(b), id)
      else AvailableIn(VariantsOf(a), id)
    ensures ManyIds(a, b) ==> DistinctIds(VariantsOf(Merged(a, b))) && |VariantsOf(Merged(a, b))| > 1
    ensures !ManyIds(a, b) ==> Merged(a, b).variants == a.variants
  {
    InstalledIff(a, b);
    MergeAnswers(a, b);
    hide MergedVariants;
    hide ManyIds;
    hide AvailableIn;
    hide LastAvailable;
    hide DistinctIds;
    hide HasId;
  }

  /** The returned record loses no variant seen in stock exactly when: with two ids listed, whatever
      the first record has in stock it has so in its last entry, or the second record has it; with
      one, the second record has nothing in stock that the first has not. */
  lemma MergeLosesNothingIff(a: Product, b: Product)
    ensures (forall id :: AvailableIn(VariantsOf(a), id) || AvailableIn(VariantsOf(b), id) ==>
               AvailableIn(VariantsOf(Merged(a, b)), id))
      <==> if ManyIds(a, b)
           then forall id :: AvailableIn(VariantsOf(a), id) && !AvailableIn(VariantsOf(b), id) ==>
             LastAvailable(VariantsOf(a), id)
           else forall id :: AvailableIn(VariantsOf(b), id) ==> AvailableIn(VariantsOf(a), id)
  {
    MergedStock(a, b);
    hide ManyIds;
    hide AvailableIn;
    hide LastAvailable;
    hide Merged;
    hide DistinctIds;
  }

  /** A first record that takes a variant back loses it, in the returned record too. */
  lemma RepeatedIdLosesStock(v: Variant, other: Variant, p: Product, q: Product)
    requires v.available && other.id != v.id
    requires p.variants == Some([v, other, v.(available := false)]) && q.variants == None
    ensures AvailableIn(VariantsOf(p), v.id) && !AvailableIn(VariantsOf(Merged(p, q)), v.id)
  {
    MergedStock(p, q);
    hide Merged;
    var vs := VariantsOf(p);
    assert vs[0] == v && vs[1] == other && vs[2] == v.(available := false);
    assert HasId(vs, v.id) && HasId(vs, other.id);
    assert Listed(p, q, v.id) && Listed(p, q, other.id);
    assert vs[|vs| - 1].id == v.id;
  }

  /** A variant that only the second record lists, under one id, is not taken over at all. */
  lemma LoneIdLosesStock(v: Variant, p: Product, q: Product)
    requires v.available && p.variants == None && q.variants == Some([v, v])
    ensures AvailableIn(VariantsOf(q), v.id) && !AvailableIn(VariantsOf(Merged(p, q)), v.id)
  {
    MergedStock(p, q);
    hide Merged;
    assert VariantsOf(q)[0] == v;
    assert forall id :: Listed(p, q, id) ==> id == v.id;
  }

  lemma {:induction false} DistinctLast(vs: seq<Variant>, id: Text)
    requires DistinctIds(vs)
    ensures LastAvailable(vs, id) <==> AvailableIn(vs, id)
  {
    if vs != [] {
      SplitLast(vs, id);
      var front := vs[..|vs| - 1];
      DistinctLast(front, id);
    }
  }

  /** The last record of an id within one list. */
  function LastOf(vs: seq<Variant>, id: Text): Option<Variant> {
    if vs == [] then None
    else if vs[|vs| - 1].id == id then Some(vs[|vs| - 1])
    else LastOf(vs[..|vs| - 1], id)
  }

  lemma {:induction false} PutGets(vs: seq<Variant>, v: Variant, id: Text)
    ensures Get(Put(vs, v), id) == if id == v.id then Some(v) else Get(vs, id)
  {
    if vs != [] && vs[0].id != v.id {
      PutGets(vs[1..], v, id);
      assert Put(vs, v)[1..] == Put(vs[1..], v);
    } else if vs != [] {
      assert Put(vs, v)[1..] == vs[1..];
    }
  }

  lemma {:induction false} PutAllGets(vs: seq<Variant>, id: Text)
    ensures Get(PutAll(vs), id) == LastOf(vs, id)
  {
    hide Put;
    if vs != [] {
      PutAllGets(vs[..|vs| - 1], id);
      PutGets(PutAll(vs[..|vs| - 1]), vs[|vs| - 1], id);
    }
  }

  lemma {:induction false} OverlayGets(known: seq<Variant>, vs: seq<Variant>, id: Text)
    ensures var before := Get(known, id);
      Get(OverlayAll(known, vs), id) == match LastOf(vs, id)
        case None => before
        case Some(v) => Some(v.(available := (before.Some? && before.value.available) || AvailableIn(vs, id)))
  {
    hide Put;
    hide Get;
    if vs != [] {
      var front, last := vs[..|vs| - 1], vs[|vs| - 1];
      OverlayGets(known, front, id);
      var mid := OverlayAll(known, front);
      PutGets(mid, Overlaid(mid, last), id);
      SplitLast(vs, id);
      NoneIsAvailable(front, id);
      hide AvailableIn;
    }
  }

  lemma {:induction false} NoneIsAvailable(vs: seq<Variant>, id: Text)
    ensures LastOf(vs, id).None? ==> !AvailableIn(vs, id)
  {
    if vs != [] {
      NoneIsAvailable(vs[..|vs| - 1], id);
      SplitLast(vs, id);
    }
  }

  /** The merged entry of an id: the second record's last word on it, in stock if either record says so;
      without one, the first record's last word. */
  lemma MergedEntry(a: Product, b: Product, id: Text)
    ensures var first, second := LastOf(VariantsOf(a), id), LastOf(VariantsOf(b), id);
      Get(MergedVariants(a, b), id) ==
        if second.None? then first
        else Some(second.value.(available :=
          (first.Some? && first.value.available) || AvailableIn(VariantsOf(b), id)))
  {
    PutAllGets(VariantsOf(a), id);
    OverlayGets(PutAll(VariantsOf(a)), VariantsOf(b), id);
    hide OverlayAll;
    hide PutAll;
    hide Get;
    hide LastOf;
    hide AvailableIn;
  }

  function Ids(vs: seq<Variant>): (ids: seq<Text>)
    ensures |ids| == |vs|
  {
    seq(|vs|, k requires 0 <= k < |vs| => vs[k].id)
  }

  /** Each text once, in the order in which it comes first. */
  function FirstSeen(ids: seq<Text>): seq<Text> {
    if ids == [] then []
    else
      var before := FirstSeen(ids[..|ids| - 1]);
      if ids[|ids| - 1] in before then before else before + [ids[|ids| - 1]]
  }

  lemma {:induction false} PutIds(vs: seq<Variant>, v: Variant)
    ensures Ids(Put(vs, v)) == if v.id in Ids(vs) then Ids(vs) else Ids(vs) + [v.id]
  {
    if vs == [] {
      assert Ids([v]) == [v.id];
    } else if vs[0].id == v.id {
      assert Ids(vs)[0] == v.id;
      assert Ids(Put(vs, v)) == Ids(vs);
    } else {
      PutIds(vs[1..], v);
      assert Ids(vs) == [vs[0].id] + Ids(vs[1..]);
      assert Ids(Put(vs, v)) == [vs[0].id] + Ids(Put(vs[1..], v));
    }
  }

  lemma {:induction false} PutAllIds(vs: seq<Variant>)
    ensures Ids(PutAll(vs)) == FirstSeen(Ids(vs))
  {
    hide Put;
    if vs != [] {
      PutAllIds(vs[..|vs| - 1]);
      PutIds(PutAll(vs[..|vs| - 1]), vs[|vs| - 1]);
      assert Ids(vs)[..|vs| - 1] == Ids(vs[..|vs| - 1]);
    }
  }

  lemma {:induction false} OverlayIds(known: seq<Variant>, vs: seq<Variant>, ids: seq<Text>)
    requires Ids(known) == FirstSeen(ids)
    ensures Ids(OverlayAll(known, vs)) == FirstSeen(ids + Ids(vs))
  {
    hide Put;
    if vs == [] {
      assert ids + Ids(vs) == ids;
    } else {
      var front, last := vs[..|vs| - 1], vs[|vs| - 1];
      OverlayIds(known, front, ids);
      PutIds(OverlayAll(known, front), Overlaid(OverlayAll(known, front), last));
      assert (ids + Ids(vs))[..|ids| + |vs| - 1] == ids + Ids(front);
    }
  }

  /** The merged list has every id of the two records once, in the order in which it comes first. */
  lemma MergedOrder(a: Product, b: Product)
    ensures Ids(MergedVariants(a, b)) == FirstSeen(Ids(VariantsOf(a)) + Ids(VariantsOf(b)))
  {
    PutAllIds(VariantsOf(a));
    OverlayIds(PutAll(VariantsOf(a)), VariantsOf(b), Ids(VariantsOf(a)));
    hide OverlayAll;
    hide PutAll;
    hide FirstSeen;
  }

  // ---------------------------------------------------------------- the batch

  /** The records of one handle, in order. */
  function Group(products: seq<Product>, h: Text): seq<Product> {
    if products == [] then []
    else
      var last := products[|products| - 1];
      Group(products[..|products| - 1], h) + if last.sku == h then [last] else []
  }

  function MergeAll(group: seq<Product>): Product
    requires group != []
  {
    if |group| == 1 then group[0] else Merged(MergeAll(group[..|group| - 1]), group[|group| - 1])
  }

  /** A handle's entry is the merge of its own records, untouched by the others. */
  lemma {:induction false} CollectedIsGrouped(products: seq<Product>, h: Text)
    ensures h in Collected(products).byHandle <==> Group(products, h) != []
    ensures h in Collected(products).byHandle ==> Collected(products).byHandle[h] == MergeAll(Group(products, h))
  {
    hide Merged;
    if products != [] {
      var front, last := products[..|products| - 1], products[|products| - 1];
      CollectedIsGrouped(front, h);
      if last.sku == h {
        var g := Group(products, h);
        assert g[..|g| - 1] == Group(front, h) && g[|g| - 1] == last;
        assert MergeAll(g) == if |g| == 1 then last else Merged(MergeAll(Group(front, h)), last);
      } else {
        assert Group(products, h) == Group(front, h);
      }
    }
  }

  predicate SomeInStock(group: seq<Product>) { exists k :: 0 <= k < |group| && group[k].availability == InStock }

  lemma StockSplit(group: seq<Product>)
    requires group != []
    ensures SomeInStock(group) <==>
      SomeInStock(group[..|group| - 1]) || group[|group| - 1].availability == InStock
  {
    var front := group[..|group| - 1];
    assert forall k :: 0 <= k < |front| ==> front[k] == group[k];
    if SomeInStock(front) {
      var k :| 0 <= k < |front| && front[k].availability == InStock;
      assert group[k].availability == InStock;
    }
  }

  lemma MergedStockOf(first: Product, second: Product)
    ensures var m := Merged(first, second);
      && m.name == first.name && m.sku == first.sku
      && (m.availability == InStock <==> first.availability == InStock || second.availability == InStock)
  {
    hide MergedVariants;
  }

  /** A merged record is in stock exactly when one of its records was; name and sku are the first's. */
  lemma {:induction false} MergeAllStock(group: seq<Product>)
    requires group != []
    ensures MergeAll(group).availability == InStock <==> SomeInStock(group)
    ensures MergeAll(group).name == group[0].name && MergeAll(group).sku == group[0].sku
  {
    hide Merged;
    if |group| > 1 {
      hide SomeInStock;
      var front, last := group[..|group| - 1], group[|group| - 1];
      MergeAllStock(front);
      MergedStockOf(MergeAll(front), last);
      StockSplit(group);
    }
  }

  /** The first of these that is not empty, if there is one. */
  predicate IsFirstFilled<T(==)>(xs: seq<T>, empty: T, x: T) {
    if x == empty then forall k :: 0 <= k < |xs| ==> xs[k] == empty
    else exists k :: 0 <= k < |xs| && xs[k] == x && forall j :: 0 <= j < k ==> xs[j] == empty
  }

  function Descriptions(group: seq<Product>): (texts: seq<Text>) ensures |texts| == |group| {
    seq(|group|, k requires 0 <= k < |group| => group[k].description)
  }

  function Images(group: seq<Product>): (texts: seq<Text>) ensures |texts| == |group| {
    seq(|group|, k requires 0 <= k < |group| => group[k].image)
  }

  function Choices(group: seq<Product>): (choices: seq<Option<seq<ProductOption>>>) ensures |choices| == |group| {
    seq(|group|, k requires 0 <= k < |group| => group[k].options)
  }

  lemma FilledSplit<T>(xs: seq<T>, empty: T, before: T)
    requires xs != [] && IsFirstFilled(xs[..|xs| - 1], empty, before)
    ensures IsFirstFilled(xs, empty, if before != empty then before else xs[|xs| - 1])
  {
    var front := xs[..|xs| - 1];
    assert forall k :: 0 <= k < |front| ==> front[k] == xs[k];
    if before != empty {
      var k :| 0 <= k < |front| && front[k] == before && forall j :: 0 <= j < k ==> front[j] == empty;
      assert xs[k] == before;
    } else if xs[|xs| - 1] != empty {
      assert forall j :: 0 <= j < |front| ==> xs[j] == empty;
    }
  }

  /** A merged record is its first record but for stock and variants, with the first description, the first
      image and the first options that any record has. */
  lemma {:induction false} MergeAllFills(group: seq<Product>)
    requires group != []
    ensures var m := MergeAll(group);
      && IsFirstFilled(Descriptions(group), [], m.description) && IsFirstFilled(Images(group), [], m.image)
      && IsFirstFilled(Choices(group), None, m.options)
      && m == group[0].(description := m.description, image := m.image, availability := m.availability,
                        variants := m.variants, options := m.options)
  {
    hide MergedVariants;
    hide IsFirstFilled;
    if |group| == 1 {
      OneFilled(Descriptions(group), []);
      OneFilled(Images(group), []);
      OneFilled(Choices(group), None);
    } else {
      var front := group[..|group| - 1];
      MergeAllFills(front);
      assert Descriptions(group)[..|group| - 1] == Descriptions(front);
      assert Images(group)[..|group| - 1] == Images(front);
      assert Choices(group)[..|group| - 1] == Choices(front);
      FilledSplit(Descriptions(group), [], MergeAll(front).description);
      FilledSplit(Images(group), [], MergeAll(front).image);
      FilledSplit(Choices(group), None, MergeAll(front).options);
    }
  }

  lemma OneFilled<T>(xs: seq<T>, empty: T)
    requires |xs| == 1
    ensures IsFirstFilled(xs, empty, xs[0])
  {}

  predicate SeenAvailable(group: seq<Product>, id: Text) {
    exists k :: 0 <= k < |group| && AvailableIn(VariantsOf(group[k]), id)
  }

  /** The first later record that lists, together with the first one, two different ids: from it on
      the merged lists are kept. Without one, the first record's list stays to the end. */
  ghost function KeptFrom(group: seq<Product>): (m: nat)
    requires group != []
    ensures 1 <= m <= |group|
  {
    if |group| == 1 then 1
    else
      var front, last := group[..|group| - 1], group[|group| - 1];
      var m := KeptFrom(front);
      if m < |front| then m else if ManyIds(group[0], last) then |front| else |group|
  }

  /** Record m or a later one has the variant in stock. */
  predicate AvailableFrom(group: seq<Product>, m: nat, id: Text) {
    exists k :: m <= k < |group| && AvailableIn(VariantsOf(group[k]), id)
  }

  /** The entries that count for the stock of a group. */
  ghost predicate CountsAvailable(group: seq<Product>, id: Text)
    requires group != []
  {
    var m, first := KeptFrom(group), VariantsOf(group[0]);
    if m < |group| then LastAvailable(first, id) || AvailableFrom(group, m, id) else AvailableIn(first, id)
  }

  lemma FromSplit(group: seq<Product>, m: nat, id: Text)
    requires group != [] && m < |group|
    ensures AvailableFrom(group, m, id) <==>
      AvailableFrom(group[..|group| - 1], m, id) || AvailableIn(VariantsOf(group[|group| - 1]), id)
  {
    hide AvailableIn;
    var front := group[..|group| - 1];
    assert forall k :: 0 <= k < |front| ==> front[k] == group[k];
    if AvailableFrom(front, m, id) {
      var k :| m <= k < |front| && AvailableIn(VariantsOf(front[k]), id);
      assert AvailableIn(VariantsOf(group[k]), id);
    }
    if AvailableIn(VariantsOf(group[|group| - 1]), id) { assert AvailableFrom(group, m, id); }
  }

  /** A list with two entries and distinct ids lists two ids. */
  lemma TwoEntriesTwoIds(a: Product, b: Product)
    requires DistinctIds(VariantsOf(a)) && |VariantsOf(a)| > 1
    ensures ManyIds(a, b)
  {
    var vs := VariantsOf(a);
    assert HasId(vs, vs[0].id) && HasId(vs, vs[1].id);
    assert Listed(a, b, vs[0].id) && Listed(a, b, vs[1].id);
  }

  /** What stays of a group, for any records: the stock of every variant, exactly. */
  lemma {:induction false} MergeAllVariants(group: seq<Product>)
    requires group != []
    ensures forall id :: AvailableIn(VariantsOf(MergeAll(group)), id) <==> CountsAvailable(group, id)
    ensures KeptFrom(group) == |group| ==> MergeAll(group).variants == group[0].variants
    ensures KeptFrom(group) < |group| ==>
      DistinctIds(VariantsOf(MergeAll(group))) && |VariantsOf(MergeAll(group))| > 1
  {
    if |group| > 1 {
      var front, last := group[..|group| - 1], group[|group| - 1];
      MergeAllVariants(front);
      OneMoreMerged(group, MergeAll(front));
      hide Merged;
      hide KeptFrom;
      hide AvailableIn;
      hide DistinctIds;
    }
  }

  lemma OneMoreMerged(group: seq<Product>, before: Product)
    requires |group| > 1
    requires var front := group[..|group| - 1];
      && (forall id :: AvailableIn(VariantsOf(before), id) <==> CountsAvailable(front, id))
      && (KeptFrom(front) == |front| ==> before.variants == group[0].variants)
      && (KeptFrom(front) < |front| ==> DistinctIds(VariantsOf(before)) && |VariantsOf(before)| > 1)
    ensures var r := Merged(before, group[|group| - 1]);
      && (forall id :: AvailableIn(VariantsOf(r), id) <==> CountsAvailable(group, id))
      && (KeptFrom(group) == |group| ==> r.variants == group[0].variants)
      && (KeptFrom(group) < |group| ==> DistinctIds(VariantsOf(r)) && |VariantsOf(r)| > 1)
  {
    var front, last := group[..|group| - 1], group[|group| - 1];
    assert front[0] == group[0];
    MergedStock(before, last);
    if KeptFrom(front) < |front| { TwoEntriesTwoIds(before, last); } else { SameList(before, group[0], last); }
    hide Merged;
    hide ManyIds;
    forall id ensures AvailableIn(VariantsOf(Merged(before, last)), id) <==> CountsAvailable(group, id) {
      if KeptFrom(group) < |group| { FromSplit(group, KeptFrom(group), id); }
      if KeptFrom(front) < |front| { DistinctLast(VariantsOf(before), id); }
      NothingFromTheEnd(front, id);
      hide AvailableIn;
      hide AvailableFrom;
      hide LastAvailable;
      hide DistinctIds;
    }
  }

  lemma SameList(a: Product, b: Product, c: Product)
    requires a.variants == b.variants
    ensures ManyIds(a, c) <==> ManyIds(b, c)
  {
    assert forall id :: Listed(a, c, id) <==> Listed(b, c, id);
    if ManyIds(a, c) {
      var x, y :| x != y && Listed(a, c, x) && Listed(a, c, y);
      assert Listed(b, c, x) && Listed(b, c, y);
    }
    if ManyIds(b, c) {
      var x, y :| x != y && Listed(b, c, x) && Listed(b, c, y);
      assert Listed(a, c, x) && Listed(a, c, y);
    }
  }

  lemma NothingFromTheEnd(group: seq<Product>, id: Text)
    ensures !AvailableFrom(group, |group|, id)
  {}

  /** A later record that is passed over has the variant in stock. */
  predicate AvailablePassedOver(group: seq<Product>, m: nat, id: Text)
    requires m <= |group|
  {
    exists k :: 1 <= k < m && AvailableIn(VariantsOf(group[k]), id)
  }

  lemma SeenSplit(group: seq<Product>, m: nat, id: Text)
    requires 1 <= m <= |group|
    ensures SeenAvailable(group, id) <==>
      AvailableIn(VariantsOf(group[0]), id) || AvailablePassedOver(group, m, id) || AvailableFrom(group, m, id)
  {
    hide AvailableIn;
    if SeenAvailable(group, id) {
      var k :| 0 <= k < |group| && AvailableIn(VariantsOf(group[k]), id);
      assert k == 0 || 1 <= k < m || m <= k;
    }
  }

  /** A group loses no variant seen in stock exactly when, once two ids are listed, the last entry of
      the first record or a record from then on has what the first and the passed-over records had;
      and when that never happens, no later record has what the first one has not. */
  ghost predicate LosesNothing(group: seq<Product>)
    requires group != []
  {
    var m, first := KeptFrom(group), VariantsOf(group[0]);
    if m < |group| then
      forall id :: AvailableIn(first, id) || AvailablePassedOver(group, m, id) ==>
        LastAvailable(first, id) || AvailableFrom(group, m, id)
    else
      forall id :: AvailablePassedOver(group, m, id) ==> AvailableIn(first, id)
  }

  lemma GroupLosesNothingIff(group: seq<Product>)
    requires group != []
    ensures (forall id :: SeenAvailable(group, id) ==> AvailableIn(VariantsOf(MergeAll(group)), id)) <==>
      LosesNothing(group)
  {
    MergeAllVariants(group);
    forall id
      ensures SeenAvailable(group, id) <==>
        || AvailableIn(VariantsOf(group[0]), id)
        || AvailablePassedOver(group, KeptFrom(group), id)
        || AvailableFrom(group, KeptFrom(group), id)
      ensures KeptFrom(group) == |group| ==> !AvailableFrom(group, KeptFrom(group), id)
    {
      SeenSplit(group, KeptFrom(group), id);
      NothingFromTheEnd(group, id);
    }
    hide SeenAvailable;
    hide AvailableIn;
    hide AvailableFrom;
    hide AvailablePassedOver;
    hide LastAvailable;
    hide KeptFrom;
    hide MergeAll;
    hide DistinctIds;
  }

  // ---------------------------------------------------------------- order, uniqueness, idempotence

  /** The place where a handle is seen first. */
  function FirstAt(products: seq<Product>, h: Text): (k: nat)
    ensures k <= |products|
    ensures k < |products| ==> products[k].sku == h
    ensures forall j :: 0 <= j < k ==> products[j].sku != h
  {
    if products == [] then 0
    else
      var k := FirstAt(products[..|products| - 1], h);
      if k < |products| - 1 then k else if products[|products| - 1].sku == h then |products| - 1 else |products|
  }

  predicate InOrder(products: seq<Product>, order: seq<Text>) {
    forall i, j :: 0 <= i < j < |order| ==> FirstAt(products, order[i]) < FirstAt(products, order[j])
  }

  /** Handles are collected in the order in which they are first seen. */
  lemma {:induction false} CollectedInOrder(products: seq<Product>)
    ensures InOrder(products, Collected(products).order)
    ensures forall h :: h in Collected(products).order <==> FirstAt(products, h) < |products|
  {
    hide Merged;
    if products != [] {
      var front, last := products[..|products| - 1], products[|products| - 1];
      CollectedInOrder(front);
      forall h | h in Collected(front).order ensures FirstAt(products, h) == FirstAt(front, h) {}
    }
  }

  lemma {:induction false} KeptIsSublist(byHandle: map<Text, Product>, order: seq<Text>)
    requires forall h :: h in order ==> h in byHandle && byHandle[h].sku == h
    ensures forall k :: 0 <= k < |Kept(byHandle, order)| ==>
      var h := Kept(byHandle, order)[k].sku;
      h in order && !Shadow(byHandle, h) && Kept(byHandle, order)[k] == byHandle[h]
    ensures forall h :: h in order && !Shadow(byHandle, h) ==> byHandle[h] in Kept(byHandle, order)
  {
    hide Shadow;
    if order != [] { KeptIsSublist(byHandle, order[..|order| - 1]); }
  }

  lemma {:induction false} KeptInOrder(products: seq<Product>, byHandle: map<Text, Product>, order: seq<Text>)
    requires forall h :: h in order ==> h in byHandle && byHandle[h].sku == h
    requires InOrder(products, order)
    ensures forall i, j :: 0 <= i < j < |Kept(byHandle, order)| ==>
      FirstAt(products, Kept(byHandle, order)[i].sku) < FirstAt(products, Kept(byHandle, order)[j].sku)
  {
    hide Shadow;
    hide FirstAt;
    if order != [] {
      var front := order[..|order| - 1];
      KeptInOrder(products, byHandle, front);
      KeptIsSublist(byHandle, front);
      var kept := Kept(byHandle, front);
      forall i | 0 <= i < |kept| ensures FirstAt(products, kept[i].sku) < FirstAt(products, order[|order| - 1]) {
        assert kept[i].sku in front;
        var k :| 0 <= k < |front| && front[k] == kept[i].sku;
        assert order[k] == front[k];
      }
    }
  }

  /** The result: every handle at most once, in first-seen order, each the merge of its own records. */
  lemma DedupeAnswers(products: seq<Product>)
    ensures var r := Deduped(products);
      && (forall i, j :: 0 <= i < j < |r| ==> FirstAt(products, r[i].sku) < FirstAt(products, r[j].sku))
      && (forall i, j :: 0 <= i < j < |r| ==> r[i].sku != r[j].sku)
      && (forall k :: 0 <= k < |r| ==> Group(products, r[k].sku) != [] && r[k] == MergeAll(Group(products, r[k].sku)))
  {
    var b := Collected(products);
    var r := Deduped(products);
    CollectedInOrder(products);
    KeptIsSublist(b.byHandle, b.order);
    KeptInOrder(products, b.byHandle, b.order);
    hide Kept;
    hide Collected;
    hide FirstAt;
    hide Group;
    hide MergeAll;
    hide Shadow;
    forall k | 0 <= k < |r| ensures Group(products, r[k].sku) != [] && r[k] == MergeAll(Group(products, r[k].sku)) {
      CollectedIsGrouped(products, r[k].sku);
    }
  }

  /** A handle of the input is missing from the result exactly when it is the shadow of another one. */
  lemma OnlyShadowsAreDropped(products: seq<Product>, h: Text)
    requires Group(products, h) != []
    ensures h in Collected(products).byHandle
    ensures (exists k :: 0 <= k < |Deduped(products)| && Deduped(products)[k].sku == h)
      <==> !Shadow(Collected(products).byHandle, h)
  {
    var b := Collected(products);
    CollectedIsGrouped(products, h);
    KeptIsSublist(b.byHandle, b.order);
    hide Collected;
    hide Shadow;
    hide Kept;
    var r := Deduped(products);
    if !Shadow(b.byHandle, h) {
      assert h in b.order && b.byHandle[h] in r;
      var k :| 0 <= k < |r| && r[k] == b.byHandle[h];
      assert r[k].sku == h;
    }
  }

  /** A kept handle is in stock exactly when some input record of it was. */
  lemma KeptStockIsSeenStock(products: seq<Product>, k: nat)
    requires k < |Deduped(products)|
    ensures Deduped(products)[k].availability == InStock <==> SomeInStock(Group(products, Deduped(products)[k].sku))
  {
    DedupeAnswers(products);
    hide Deduped;
    hide Group;
    hide MergeAll;
    MergeAllStock(Group(products, Deduped(products)[k].sku));
  }

  /** The stock of every variant of a kept handle, exactly, for any batch. */
  lemma KeptVariants(products: seq<Product>, k: nat, id: Text)
    requires k < |Deduped(products)|
    ensures Group(products, Deduped(products)[k].sku) != []
    ensures AvailableIn(VariantsOf(Deduped(products)[k]), id) <==>
      CountsAvailable(Group(products, Deduped(products)[k].sku), id)
  {
    DedupeAnswers(products);
    hide Deduped;
    hide Group;
    hide MergeAll;
    MergeAllVariants(Group(products, Deduped(products)[k].sku));
  }

  /** The dedupe loses no variant of a kept handle exactly when the handle's own records lose none. */
  lemma KeptLosesNothingIff(products: seq<Product>, k: nat, group: seq<Product>)
    requires k < |Deduped(products)| && group == Group(products, Deduped(products)[k].sku)
    ensures group != []
    ensures (forall id :: SeenAvailable(group, id) ==> AvailableIn(VariantsOf(Deduped(products)[k]), id)) <==>
      LosesNothing(group)
  {
    DedupeAnswers(products);
    hide Deduped;
    hide Group;
    hide MergeAll;
    hide LosesNothing;
    GroupLosesNothingIff(group);
  }

  /** The batch holds the records as they came. */
  predicate AsCame(b: Batch, products: seq<Product>) {
    && |b.order| == |products|
    && forall k :: 0 <= k < |products| ==>
         b.order[k] == products[k].sku && products[k].sku in b.byHandle && b.byHandle[products[k].sku] == products[k]
  }

  lemma NotYet(b: Batch, front: seq<Product>, last: Product)
    requires AsCame(b, front) && forall k :: 0 <= k < |front| ==> front[k].sku != last.sku
    ensures last.sku !in b.order
  {}

  lemma OneMoreCame(b: Batch, front: seq<Product>, last: Product)
    requires AsCame(b, front) && last.sku !in b.order && (last.sku in b.byHandle ==> last.sku in b.order)
    ensures AsCame(Taken(b, last), front + [last])
  {
    assert forall k :: 0 <= k < |front| ==> (front + [last])[k] == front[k] && b.order[k] in b.order;
  }

  /** A batch without repeated handles is collected as it is. */
  lemma {:induction false} NoRepeats(products: seq<Product>)
    requires forall i, j :: 0 <= i < j < |products| ==> products[i].sku != products[j].sku
    ensures AsCame(Collected(products), products)
  {
    if products != [] {
      var front, last := products[..|products| - 1], products[|products| - 1];
      NoRepeats(front);
      hide Taken;
      assert forall k :: 0 <= k < |front| ==> front[k] == products[k];
      NotYet(Collected(front), front, last);
      hide AsCame;
      OneMoreCame(Collected(front), front, last);
      assert products == front + [last];
    }
  }

  lemma {:induction false} KeepAll(byHandle: map<Text, Product>, order: seq<Text>, products: seq<Product>)
    requires |order| == |products| && forall h :: h in order ==> h in byHandle && !Shadow(byHandle, h)
    requires forall k :: 0 <= k < |order| ==> byHandle[order[k]] == products[k]
    ensures Kept(byHandle, order) == products
  {
    hide Shadow;
    if order != [] {
      var n := |order| - 1;
      assert forall k :: 0 <= k < n ==> order[..n][k] == order[k] && products[..n][k] == products[k];
      assert order[n] in order;
      KeepAll(byHandle, order[..n], products[..n]);
      assert products == products[..n] + [products[n]];
    }
  }

  /** Running the dedupe again changes nothing. */
  lemma DedupeIsIdempotent(products: seq<Product>)
    ensures Deduped(Deduped(products)) == Deduped(products)
  {
    var b, r := Collected(products), Deduped(products);
    DedupeAnswers(products);
    KeptIsSublist(b.byHandle, b.order);
    NoRepeats(r);
    var c := Collected(r);
    hide Collected;
    hide Kept;
    hide FirstAt;
    hide Group;
    hide MergeAll;
    forall h | h in c.order ensures h in c.byHandle && !Shadow(c.byHandle, h) {
      var k :| 0 <= k < |c.order| && c.order[k] == h;
      assert r[k].sku == h && c.byHandle[h] == r[k] == b.byHandle[h];
      var base := BaseHandle(h);
      if base in c.byHandle {
        assert base in c.order;
        var j :| 0 <= j < |c.order| && c.order[j] == base;
        assert r[j].sku == base && c.byHandle[base] == r[j] == b.byHandle[base];
      }
      hide BaseHandle;
    }
    KeepAll(c.byHandle, c.order, r);
  }
}
