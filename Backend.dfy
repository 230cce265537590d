/** The reshaping logic of the serverless backend function: the joins of
    products, vendors and certifications fetched from the CRM, the payloads it
    builds for deals, feedback and seller updates, and the search-type
    dispatch. The CRM answers are inputs; HTTP, OAuth and storage are not
    modelled. A text field that is absent, `null` or `""` in the CRM record is
    `""` here, since the code only ever tests such fields for truthiness. */
module Backend {
  import opened Common

  // ---------------------------------------------------------------------------
  // CRM records

  /** A lookup field (`{id, name}`) pointing at another CRM record. */
  datatype Ref = Ref(id: string, name: string)

  /** A product with the fields `/getProducts` requests. */
  datatype Product = Product(
    id: string, productName: string, description: string, image: string,
    priceRange: string, minOrderQuantity: int, vendorName: Ref, category: string)

  /** A vendor with the fields the listing endpoints request. */
  datatype Vendor = Vendor(
    id: string, vendorName: string, description: string,
    averageRating: Option<string>, ratingCount: Option<int>,
    state: string, country: string,
    yearsInBusiness: Option<int>, employeeCount: Option<int>,
    engagementScore: Option<int>)

  /** A certification with the fields `Name,Vendor`. */
  datatype Certification = Certification(name: string, vendor: Ref)

  /** A product as returned to the front end: the product itself (every field
      of `...product`) and the six fields the join adds. */
  datatype EnrichedProduct = EnrichedProduct(
    product: Product, sellerId: string, sellerName: string,
    sellerLocation: string, sellerRating: Option<string>,
    certificates: seq<string>, sellerEngScore: Option<int>)

  /** A vendor as returned by the seller listings: the vendor unchanged plus
      the names of its certifications. */
  datatype VendorWithCerts = VendorWithCerts(vendor: Vendor, certifications: seq<string>)

  // ---------------------------------------------------------------------------
  // Reference definitions of the two lookups

  /** The vendor that `vendorMap[id]` holds after the `forEach`: the last one
      in the list with that id. */
  function LastVendorWithId(vendors: seq<Vendor>, id: string): Option<Vendor> {
    if vendors == [] then None
    else if vendors[|vendors| - 1].id == id then Some(vendors[|vendors| - 1])
    else LastVendorWithId(vendors[..|vendors| - 1], id)
  }

  /** The names of the certifications of vendor `id`, in list order. */
  function CertNamesOf(certs: seq<Certification>, id: string): seq<string> {
    if certs == [] then []
    else
      CertNamesOf(certs[..|certs| - 1], id)
        + (if certs[|certs| - 1].vendor.id == id then [certs[|certs| - 1].name] else [])
  }

  function Lookup<K, V>(m: map<K, V>, k: K): Option<V> {
    if k in m then Some(m[k]) else None
  }

  /** `m[k] || dflt` for a map whose values are never falsy. */
  function GetOr<K, V>(m: map<K, V>, k: K, dflt: V): V {
    if k in m then m[k] else dflt
  }

  lemma {:induction false} LastVendorWithIdFound(vendors: seq<Vendor>, id: string)
    ensures LastVendorWithId(vendors, id).Some? <==> exists j :: 0 <= j < |vendors| && vendors[j].id == id
    ensures LastVendorWithId(vendors, id).Some? ==> LastVendorWithId(vendors, id).value.id == id
  {
    if vendors != [] {
      var init := vendors[..|vendors| - 1];
      LastVendorWithIdFound(init, id);
      if vendors[|vendors| - 1].id != id {
        if exists j :: 0 <= j < |vendors| && vendors[j].id == id {
          var j :| 0 <= j < |vendors| && vendors[j].id == id;
          assert init[j] == vendors[j];
        }
      }
    }
  }

  /** Among vendors that share an id, the later one wins. */
  lemma {:induction false} LaterVendorWins(vendors: seq<Vendor>, j: nat)
    requires j < |vendors|
    requires forall k :: j < k < |vendors| ==> vendors[k].id != vendors[j].id
    ensures LastVendorWithId(vendors, vendors[j].id) == Some(vendors[j])
  {
    if j < |vendors| - 1 {
      var init := vendors[..|vendors| - 1];
      assert init[j] == vendors[j];
      LaterVendorWins(init, j);
    }
  }

  /** The grouping keeps list order: the names of a concatenation are the
      concatenation of the names. */
  lemma {:induction false} CertNamesOfAppend(a: seq<Certification>, b: seq<Certification>, id: string)
    ensures CertNamesOf(a + b, id) == CertNamesOf(a, id) + CertNamesOf(b, id)
  {
    if b != [] {
      var b' := b[..|b| - 1];
      assert (a + b)[..|a + b| - 1] == a + b';
      CertNamesOfAppend(a, b', id);
    } else {
      assert a + b == a;
    }
  }

  /** Every grouped name belongs to a certification of that vendor, and
      every certification of that vendor contributes its name. */
  lemma {:induction false} CertNamesOfMembers(certs: seq<Certification>, id: string)
    ensures forall x :: x in CertNamesOf(certs, id) <==>
      exists j :: 0 <= j < |certs| && certs[j].vendor.id == id && certs[j].name == x
  {
    if certs != [] {
      var n := |certs| - 1;
      var init := certs[..n];
      CertNamesOfMembers(init, id);
      assert forall j :: 0 <= j < n ==> init[j] == certs[j];
    }
  }

  /** Duplicates are kept: the group has one entry per matching
      certification. */
  lemma {:induction false} CertNamesOfCount(certs: seq<Certification>, id: string)
    ensures |CertNamesOf(certs, id)| == |set j | 0 <= j < |certs| && certs[j].vendor.id == id|
  {
    if certs != [] {
      var n := |certs| - 1;
      var init := certs[..n];
      CertNamesOfCount(init, id);
      var s := set j | 0 <= j < |certs| && certs[j].vendor.id == id;
      var s' := set j | 0 <= j < n && init[j].vendor.id == id;
      if certs[n].vendor.id == id {
        assert s == s' + {n};
      } else {
        assert s == s';
      }
    }
  }

  // ---------------------------------------------------------------------------
  // Building the lookup maps (the `forEach` loops)

  /** `vendorsRawData.forEach(vendor => { vendorMap[vendor.id] = vendor; })`. */
  method BuildVendorMap(vendors: seq<Vendor>) returns (m: map<string, Vendor>)
    ensures forall id :: Lookup(m, id) == LastVendorWithId(vendors, id)
  {
    m := map[];
    for i := 0 to |vendors|
      invariant forall id :: Lookup(m, id) == LastVendorWithId(vendors[..i], id)
    {
      assert vendors[..i + 1][..i] == vendors[..i];
      m := m[vendors[i].id := vendors[i]];
    }
    assert vendors[..|vendors|] == vendors;
  }

  /** The `certificatesMap` loop: create an empty list the first time a vendor
      id is seen, then push the certification's name. A vendor id is a key
      exactly when it has at least one certification. */
  method BuildCertMap(certs: seq<Certification>) returns (m: map<string, seq<string>>)
    ensures forall id :: id in m ==> m[id] == CertNamesOf(certs, id) && m[id] != []
    ensures forall id :: id !in m ==> CertNamesOf(certs, id) == []
  {
    m := map[];
    for i := 0 to |certs|
      invariant forall id :: id in m ==> m[id] == CertNamesOf(certs[..i], id) && m[id] != []
      invariant forall id :: id !in m ==> CertNamesOf(certs[..i], id) == []
    {
      assert certs[..i + 1][..i] == certs[..i];
      var vendorId := certs[i].vendor.id;
      if vendorId !in m {
        m := m[vendorId := []];
      }
      m := m[vendorId := m[vendorId] + [certs[i].name]];
    }
    assert certs[..|certs|] == certs;
  }

  /** With the map built as above, `certificatesMap[id] || []` is the group. */
  lemma CertMapLookup(m: map<string, seq<string>>, certs: seq<Certification>, id: string)
    requires forall id :: id in m ==> m[id] == CertNamesOf(certs, id)
    requires forall id :: id !in m ==> CertNamesOf(certs, id) == []
    ensures GetOr(m, id, []) == CertNamesOf(certs, id)
  {
  }

  // ---------------------------------------------------------------------------
  // Product x Vendor x Certification enrichment

  /** `(State ? State : "") + (Country ? ", " + Country : "")`. */
  function SellerLocation(state: string, country: string): (r: string)
    ensures country == "" ==> r == state
    ensures country != "" ==> r == state + ", " + country
  {
    (if state != "" then state else "") + (if country != "" then ", " + country else "")
  }

  lemma SellerLocationExamples()
    ensures SellerLocation("NY", "USA") == "NY, USA"
    ensures SellerLocation("NY", "") == "NY"
    ensures SellerLocation("", "USA") == ", USA"
    ensures SellerLocation("", "") == ""
  {
  }

  /** One record of the `productsRawData.map(...)`: `vendor` is
      `vendorMap[vendorId]` (`None` for `{}`), `names` the certificate list. */
  function EnrichOne(p: Product, vendor: Option<Vendor>, names: seq<string>): (r: EnrichedProduct)
    ensures r.product == p && r.certificates == names
    ensures r.sellerId == p.vendorName.id && r.sellerName == p.vendorName.name
    ensures vendor.None? ==> r.sellerLocation == "" && r.sellerRating.None? && r.sellerEngScore.None?
    ensures vendor.Some? ==>
      && r.sellerLocation == SellerLocation(vendor.value.state, vendor.value.country)
      && r.sellerRating == vendor.value.averageRating
      && r.sellerEngScore == vendor.value.engagementScore
  {
    match vendor
    case None => EnrichedProduct(p, p.vendorName.id, p.vendorName.name, SellerLocation("", ""), None, names, None)
    case Some(v) =>
      EnrichedProduct(p, p.vendorName.id, p.vendorName.name, SellerLocation(v.state, v.country),
        v.averageRating, names, v.engagementScore)
  }

  /** The response body of `/getProducts`, and of `/search` once the CRM has
      answered with some products: one record per product, in product order,
      each joined with the last vendor of its id and with all certifications
      of that vendor. */
  method EnrichProducts(products: seq<Product>, vendors: seq<Vendor>, certs: seq<Certification>)
    returns (r: seq<EnrichedProduct>)
    ensures |r| == |products|
    ensures forall i :: 0 <= i < |r| ==>
      r[i] == EnrichOne(products[i], LastVendorWithId(vendors, products[i].vendorName.id),
                        CertNamesOf(certs, products[i].vendorName.id))
  {
    var vendorMap := BuildVendorMap(vendors);
    var certificatesMap := BuildCertMap(certs);
    r := seq(|products|, i requires 0 <= i < |products| =>
      EnrichOne(products[i], Lookup(vendorMap, products[i].vendorName.id),
                GetOr(certificatesMap, products[i].vendorName.id, [])));
  }

  /** The end-to-end scenario of two products of two vendors, one of which
      holds one certification: two records, exactly one with one certificate. */
  method EnrichScenario(p1: Product, p2: Product, v1: Vendor, v2: Vendor, c: Certification)
    returns (r: seq<EnrichedProduct>)
    requires p1.vendorName.id == v1.id && p2.vendorName.id == v2.id && v1.id != v2.id
    requires c.vendor.id == v1.id
    ensures |r| == 2 && |r[0].certificates| == 1 && r[1].certificates == []
    ensures r[0].sellerId == v1.id && r[1].sellerId == v2.id
  {
    r := EnrichProducts([p1, p2], [v1, v2], [c]);
    assert [c][..0] == [];
    assert CertNamesOf([c], v1.id) == [c.name];
    assert CertNamesOf([c], v2.id) == [];
  }

  // ---------------------------------------------------------------------------
  // Vendor x Certification grouping (`/getVendors`, `/searchSellers`,
  // `/searchSellerRating`)

  /** `vendorsRawData.map(v => ({...v, certifications: certificatesMap[v.id] || []}))`. */
  method AttachCertifications(vendors: seq<Vendor>, certs: seq<Certification>)
    returns (r: seq<VendorWithCerts>)
    ensures |r| == |vendors|
    ensures forall i :: 0 <= i < |r| ==>
      r[i].vendor == vendors[i] && r[i].certifications == CertNamesOf(certs, vendors[i].id)
  {
    var certificatesMap := BuildCertMap(certs);
    r := seq(|vendors|, i requires 0 <= i < |vendors| =>
      VendorWithCerts(vendors[i], GetOr(certificatesMap, vendors[i].id, [])));
  }

  /** What a listing endpoint sends: a body, `[]`, or a 500 error. */
  datatype VendorsResponse = VendorsOk(body: seq<VendorWithCerts>) | VendorsServerError

  /** `/searchSellers`: the vendors found by the word search are mapped without
      any check, so a search without hits (`data` undefined) throws and ends
      in the 500 handler. */
  method SearchSellers(found: Option<seq<Vendor>>, certs: seq<Certification>)
    returns (r: VendorsResponse)
    ensures found.None? ==> r == VendorsServerError
    ensures found.Some? ==>
      && r.VendorsOk? && |r.body| == |found.value|
      && forall i :: 0 <= i < |r.body| ==>
           r.body[i] == VendorWithCerts(found.value[i], CertNamesOf(certs, found.value[i].id))
  {
    if found.None? {
      return VendorsServerError;
    }
    var body := AttachCertifications(found.value, certs);
    r := VendorsOk(body);
  }

  /** `/searchSellerRating`: no hits answer `[]`. */
  method SearchSellerRating(found: Option<seq<Vendor>>, certs: seq<Certification>)
    returns (r: VendorsResponse)
    ensures found.None? ==> r == VendorsOk([])
    ensures found.Some? ==>
      && r.VendorsOk? && |r.body| == |found.value|
      && forall i :: 0 <= i < |r.body| ==>
           r.body[i] == VendorWithCerts(found.value[i], CertNamesOf(certs, found.value[i].id))
  {
    if found.None? {
      return VendorsOk([]);
    }
    var body := AttachCertifications(found.value, certs);
    r := VendorsOk(body);
  }

  // ---------------------------------------------------------------------------
  // Certification search (`/searchSellerCertification`)

  /** `searchedVendorIds`: the vendor ids of the matching certifications. */
  function VendorIdsOf(matches: seq<Certification>): (ids: set<string>)
    ensures forall id :: id in ids <==> exists j :: 0 <= j < |matches| && matches[j].vendor.id == id
  {
    set j | 0 <= j < |matches| :: matches[j].vendor.id
  }

  /** `vendors.filter(v => ids.has(v.id)).map(v => ({...v, certifications}))`. */
  function FilterVendorsById(vendors: seq<Vendor>, ids: set<string>, allCerts: seq<Certification>)
    : (r: seq<VendorWithCerts>)
    ensures |r| <= |vendors|
  {
    if vendors == [] then []
    else
      var rest := FilterVendorsById(vendors[1..], ids, allCerts);
      if vendors[0].id in ids then [VendorWithCerts(vendors[0], CertNamesOf(allCerts, vendors[0].id))] + rest
      else rest
  }

  /** Exactly the vendors whose id is in `ids` come out, each with all of its
      certification names from `allCerts`. */
  lemma {:induction false} FilterVendorsByIdMembers(vendors: seq<Vendor>, ids: set<string>, allCerts: seq<Certification>)
    ensures forall w :: w in FilterVendorsById(vendors, ids, allCerts) <==>
      w.vendor in vendors && w.vendor.id in ids && w.certifications == CertNamesOf(allCerts, w.vendor.id)
  {
    if vendors != [] {
      FilterVendorsByIdMembers(vendors[1..], ids, allCerts);
      assert forall v :: v in vendors <==> v == vendors[0] || v in vendors[1..];
    }
  }

  /** The filter keeps vendor-list order. */
  lemma {:induction false} FilterVendorsByIdAppend(a: seq<Vendor>, b: seq<Vendor>, ids: set<string>, allCerts: seq<Certification>)
    ensures FilterVendorsById(a + b, ids, allCerts) == FilterVendorsById(a, ids, allCerts) + FilterVendorsById(b, ids, allCerts)
  {
    if a == [] {
      assert a + b == b;
    } else {
      assert (a + b)[1..] == a[1..] + b;
      FilterVendorsByIdAppend(a[1..], b, ids, allCerts);
    }
  }

  /** The response body: `[]` when the certification search found nothing;
      otherwise the listed vendors that hold a matching certification, each
      with all of its certifications (not only the matching ones). */
  function SearchSellerCertification(matches: Option<seq<Certification>>, vendors: seq<Vendor>,
                                     allCerts: seq<Certification>): (r: seq<VendorWithCerts>)
    ensures matches.None? ==> r == []
    ensures matches.Some? ==> forall w :: w in r <==>
      w.vendor in vendors
      && (exists j :: 0 <= j < |matches.value| && matches.value[j].vendor.id == w.vendor.id)
      && w.certifications == CertNamesOf(allCerts, w.vendor.id)
  {
    match matches
    case None => []
    case Some(ms) =>
      FilterVendorsByIdMembers(vendors, VendorIdsOf(ms), allCerts);
      FilterVendorsById(vendors, VendorIdsOf(ms), allCerts)
  }

  // ---------------------------------------------------------------------------
  // `/searchRating`: products of the first vendor with a matching rating

  /** The products of vendor `v`, in product order, joined with `v` itself and
      its certification names (the nested `filter`/`map` of the handler). */
  function VendorProducts(v: Vendor, products: seq<Product>, certs: seq<Certification>)
    : (r: seq<EnrichedProduct>)
    ensures |r| <= |products|
  {
    if products == [] then []
    else
      var rest := VendorProducts(v, products[1..], certs);
      if products[0].vendorName.id == v.id then [EnrichOne(products[0], Some(v), CertNamesOf(certs, v.id))] + rest
      else rest
  }

  /** Exactly the products that point at `v` come out, each joined with `v`. */
  lemma {:induction false} VendorProductsMembers(v: Vendor, products: seq<Product>, certs: seq<Certification>)
    ensures forall e :: e in VendorProducts(v, products, certs) <==>
      e.product in products && e.product.vendorName.id == v.id
      && e == EnrichOne(e.product, Some(v), CertNamesOf(certs, v.id))
  {
    if products != [] {
      VendorProductsMembers(v, products[1..], certs);
      assert forall p :: p in products <==> p == products[0] || p in products[1..];
    }
  }

  /** The filter keeps product order. */
  lemma {:induction false} VendorProductsAppend(v: Vendor, a: seq<Product>, b: seq<Product>, certs: seq<Certification>)
    ensures VendorProducts(v, a + b, certs) == VendorProducts(v, a, certs) + VendorProducts(v, b, certs)
  {
    if a == [] {
      assert a + b == b;
    } else {
      assert (a + b)[1..] == a[1..] + b;
      VendorProductsAppend(v, a[1..], b, certs);
    }
  }

  /** One record per matching product: duplicates are kept. */
  lemma {:induction false} VendorProductsCount(v: Vendor, products: seq<Product>, certs: seq<Certification>)
    ensures |VendorProducts(v, products, certs)| == |set k | 0 <= k < |products| && products[k].vendorName.id == v.id|
  {
    if products != [] {
      var n := |products| - 1;
      var init := products[..n];
      VendorProductsCount(v, init, certs);
      assert products == init + [products[n]];
      VendorProductsAppend(v, init, [products[n]], certs);
      assert [products[n]][1..] == [];
      var s := set k | 0 <= k < |products| && products[k].vendorName.id == v.id;
      var s' := set k | 0 <= k < n && init[k].vendorName.id == v.id;
      if products[n].vendorName.id == v.id {
        assert s == s' + {n};
      } else {
        assert s == s';
      }
    }
  }

  datatype ProductsResponse = ProductsOk(body: seq<EnrichedProduct>) | ProductsBadRequest | ProductsServerError

  /** The CRM's vendor search answers `None` when nothing matches: the handler
      sends `[]`. Otherwise it computes the products of every vendor found and
      sends those of the first one; an empty vendor array makes
      `vendorWiseData[0]` undefined and ends in the 500 handler. */
  function SearchRating(found: Option<seq<Vendor>>, products: seq<Product>, certs: seq<Certification>)
    : (r: ProductsResponse)
    ensures found.None? ==> r == ProductsOk([])
    ensures found == Some([]) ==> r == ProductsServerError
    ensures found.Some? && found.value != [] ==>
      && r.ProductsOk?
      && forall e :: e in r.body <==>
           e.product in products && e.product.vendorName.id == found.value[0].id
           && e == EnrichOne(e.product, Some(found.value[0]), CertNamesOf(certs, found.value[0].id))
    ensures found.Some? && found.value != [] ==>
      |r.body| == |set k | 0 <= k < |products| && products[k].vendorName.id == found.value[0].id|
  {
    match found
    case None => ProductsOk([])
    case Some(vs) =>
      if vs == [] then ProductsServerError
      else
        VendorProductsMembers(vs[0], products, certs);
        VendorProductsCount(vs[0], products, certs);
        ProductsOk(VendorProducts(vs[0], products, certs))
  }

  /** The rating search answers in product order. */
  lemma {:induction false} SearchRatingKeepsOrder(found: Option<seq<Vendor>>, a: seq<Product>, b: seq<Product>, certs: seq<Certification>)
    requires found.Some? && found.value != []
    ensures SearchRating(found, a + b, certs).body == SearchRating(found, a, certs).body + SearchRating(found, b, certs).body
  {
    VendorProductsAppend(found.value[0], a, b, certs);
  }

  // ---------------------------------------------------------------------------
  // `/search/:type/:word`

  /** The CRM query the handler builds from the search type. */
  datatype SearchQuery = CategoryCriteria(criteria: string) | WordQuery(word: string)

  /** `category` becomes an equality criterion on `Product_Category`, `word`
      a full-text word search, and every other type is refused with 400. */
  function SearchQueryFor(kind: string, word: string): (r: Option<SearchQuery>)
    ensures r.Some? <==> kind == "category" || kind == "word"
    ensures kind == "category" ==> r == Some(CategoryCriteria("Product_Category:equals:" + word))
    ensures kind == "word" ==> r == Some(WordQuery(word))
  {
    if kind == "category" then Some(CategoryCriteria("Product_Category:equals:" + word))
    else if kind == "word" then Some(WordQuery(word))
    else None
  }

  /** The handler's response once the CRM has answered the query with `found`
      (`None` when nothing matched). */
  method SearchProducts(kind: string, word: string, found: Option<seq<Product>>,
                        vendors: seq<Vendor>, certs: seq<Certification>)
    returns (r: ProductsResponse)
    ensures SearchQueryFor(kind, word).None? ==> r == ProductsBadRequest
    ensures SearchQueryFor(kind, word).Some? && found.None? ==> r == ProductsOk([])
    ensures SearchQueryFor(kind, word).Some? && found.Some? ==>
      r.ProductsOk? && |r.body| == |found.value|
      && forall i :: 0 <= i < |r.body| ==>
           r.body[i] == EnrichOne(found.value[i], LastVendorWithId(vendors, found.value[i].vendorName.id),
                                  CertNamesOf(certs, found.value[i].vendorName.id))
  {
    var query := SearchQueryFor(kind, word);
    if query.None? {
      return ProductsBadRequest;
    }
    if found.None? {
      return ProductsOk([]);
    }
    var body := EnrichProducts(found.value, vendors, certs);
    r := ProductsOk(body);
  }

  // ---------------------------------------------------------------------------
  // Feedback: the vendor's running rating

  /** The vendor fields `/postFeedback` writes back. `Average_Rating` is sent
      as `toPrecision(2)` of `total / count`; the model keeps the exact
      quotient. */
  datatype RatingUpdate = RatingUpdate(ratingCount: int, ratingTotalPoints: int, average: real)

  function AccumulateRating(ratingCount: int, ratingTotalPoints: int, rating: int): (r: RatingUpdate)
    requires ratingCount >= 0
    ensures r.ratingCount == ratingCount + 1
    ensures r.ratingTotalPoints == ratingTotalPoints + rating
    ensures r.average * (r.ratingCount as real) == r.ratingTotalPoints as real
  {
    var count := ratingCount + 1;
    var total := ratingTotalPoints + rating;
    RatingUpdate(count, total, total as real / count as real)
  }

  lemma AccumulateRatingExample()
    ensures AccumulateRating(4, 18, 5) == RatingUpdate(5, 23, 4.6)
  {
  }

  /** A factor of a non-negative product with a positive factor is
      non-negative. */
  lemma NonNegativeFactor(x: real, c: real)
    requires c > 0.0 && x * c >= 0.0
    ensures x >= 0.0
  {
  }

  /** If every earlier rating was in 1..5 and so is the new one, the average
      stays in 1..5. */
  lemma AverageStaysInRange(ratingCount: int, ratingTotalPoints: int, rating: int)
    requires ratingCount >= 0 && ratingCount <= ratingTotalPoints <= 5 * ratingCount
    requires 1 <= rating <= 5
    ensures 1.0 <= AccumulateRating(ratingCount, ratingTotalPoints, rating).average <= 5.0
  {
    var r := AccumulateRating(ratingCount, ratingTotalPoints, rating);
    var c := r.ratingCount as real;
    var t := r.ratingTotalPoints as real;
    var q := r.average;
    assert r.ratingCount <= r.ratingTotalPoints <= 5 * r.ratingCount;
    assert c > 0.0 && c <= t <= 5.0 * c;
    assert q * c == t;
    assert (q - 1.0) * c == t - c;
    NonNegativeFactor(q - 1.0, c);
    assert (5.0 - q) * c == 5.0 * c - t;
    NonNegativeFactor(5.0 - q, c);
  }

  /** The deal fields `/postFeedback` writes: the rating as a string. */
  datatype FeedbackDealPayload = FeedbackDealPayload(id: string, buyerRating: string, buyerComment: string)

  function FeedbackDeal(dealId: string, rating: int, comments: string): (r: FeedbackDealPayload)
    ensures r.id == dealId && r.buyerComment == comments
    ensures ParseNumber(r.buyerRating) == Some(rating)
  {
    ParseIntToString(rating);
    FeedbackDealPayload(dealId, IntToString(rating), comments)
  }

  // ---------------------------------------------------------------------------
  // Deal payloads

  const SellerContacted := "Seller Contacted"

  /** The JSON body of `POST /postDeal`. `productId` and both dates may be
      missing (`undefined`); the handler reads only `closingDate`. */
  datatype PostDealBody = PostDealBody(
    buyerAccountId: string, name: string, productId: Option<string>, sellerId: string,
    closingDate: Option<string>, initiatedDate: Option<string>)

  /** The deal record sent to the CRM. `productId` is the `Product_Name` lookup. */
  datatype DealData = DealData(
    accountId: string, dealName: string, vendorId: string, closingDate: Option<string>,
    stage: string, quantity: int, productId: Option<string>)

  predicate Truthy(s: Option<string>) {
    s.Some? && s.value != ""
  }

  method PostDealPayload(body: PostDealBody) returns (d: DealData)
    ensures d.stage == SellerContacted && d.quantity == 0
    ensures d.accountId == body.buyerAccountId && d.dealName == body.name && d.vendorId == body.sellerId
    ensures d.closingDate == body.closingDate
    ensures d.productId.Some? <==> Truthy(body.productId)
    ensures d.productId.Some? ==> d.productId == body.productId
  {
    d := DealData(body.buyerAccountId, body.name, body.sellerId, body.closingDate, SellerContacted, 0, None);
    if Truthy(body.productId) {
      d := d.(productId := body.productId);
    }
  }

  /** A deal's `Quantity` as it travels: a number, or the empty string the
      seller page stores after cancelling an edit of a zero quantity. */
  datatype Quantity = Num(n: int) | Blank

  /** The body of the CRM update built by `PUT /deal/:id`; `None` when neither
      field was given (`constructedData` stays undefined). */
  datatype DealUpdate = StageUpdate(id: string, stage: string) | QuantityUpdate(id: string, quantity: Quantity)

  method DealUpdatePayload(id: string, stage: Option<string>, quantity: Option<Quantity>)
    returns (p: Option<DealUpdate>)
    ensures stage.Some? ==> p == Some(StageUpdate(id, stage.value))
    ensures stage.None? && quantity.Some? ==> p == Some(QuantityUpdate(id, quantity.value))
    ensures stage.None? && quantity.None? ==> p == None
  {
    p := None;
    if stage.Some? {
      p := Some(StageUpdate(id, stage.value));
    } else if quantity.Some? {
      p := Some(QuantityUpdate(id, quantity.value));
    }
  }

  // ---------------------------------------------------------------------------
  // `PUT /seller/:id` conversions

  /** `const [firstname, lastname] = contactPerson.split(" ")`. */
  function SplitContact(contactPerson: string): (r: (string, Option<string>))
    ensures ' ' !in r.0
    ensures r.1.Some? <==> ' ' in contactPerson
  {
    var parts := Split(contactPerson, ' ');
    if ' ' in contactPerson then
      SplitFirstIsProperPrefix(contactPerson, ' ');
      (parts[0], Some(parts[1]))
    else
      SplitNoSeparator(contactPerson, ' ');
      (parts[0], None)
  }

  /** `Years_in_Business = currentYear - yearEstablished`. */
  function YearsInBusiness(currentYear: int, yearEstablished: int): (r: int)
    ensures r + yearEstablished == currentYear
  {
    currentYear - yearEstablished
  }
}
