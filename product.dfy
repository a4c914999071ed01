/** The schema.org Product rich snippet: the JSON-LD entity built from a
    post's product meta fields, the seller record, and the category
    breadcrumb. */
module Product {
  import opened Php

  /** A JSON-LD value as the plugin builds it: objects are PHP arrays with
      string keys, so their members keep insertion order. */
  datatype Json = Null | Str(s: string) | Object(members: seq<(string, Json)>)

  const SchemaContext := "https://schema.org/"
  const InStock := "https://schema.org/InStock"
  const OutOfStock := "https://schema.org/OutOfStock"

  const SkuKey := "snippet_product_sku"
  const PriceKey := "snippet_product_price"
  const CurrencyKey := "snippet_product_currency"
  const PriceValidKey := "snippet_product_price_valid"
  const InStockKey := "snippet_product_instock"
  const BrandKey := "snippet_product_brand"

  /** The members every Product entity has, in output order. */
  const ProductKeys: seq<string> := ["@context", "@type", "sku", "name", "description", "releaseDate", "offers"]
  const OfferKeys: seq<string> := ["@type", "priceCurrency", "price", "url", "priceValidUntil", "availability"]

  lemma MemberNamesDistinct()
    ensures Distinct(ProductKeys) && Distinct(OfferKeys)
  {
  }

  /** The title, description and publish-date parts the JSON-LD builder
      has already computed for the page. */
  datatype Parts = Parts(title: string, desc: string, published: string)

  /** A post meta value; `None` when the post has none. */
  function PostMeta(meta: map<string, string>, key: string): Option<string>
  {
    if key in meta then Some(meta[key]) else None
  }

  /** A meta value copied into the entity as it is (null when missing). */
  function MetaJson(v: Option<string>): Json
  {
    if v.Some? then Str(v.value) else Null
  }

  /** `$x ? $x : fallback`. */
  function OrElse(v: Option<string>, fallback: string): string
  {
    if Truthy(v) then v.value else fallback
  }

  /** The `offers` member of a Product entity. */
  function Offers(meta: map<string, string>, permalink: string): seq<(string, Json)>
  {
    [
      ("@type", Str("Offer")),
      ("priceCurrency", MetaJson(PostMeta(meta, CurrencyKey))),
      ("price", Str(OrElse(PostMeta(meta, PriceKey), "0"))),
      ("url", Str(permalink)),
      ("priceValidUntil", MetaJson(PostMeta(meta, PriceValidKey))),
      ("availability", Str(if Truthy(PostMeta(meta, InStockKey)) then InStock else OutOfStock))
    ]
  }

  /** The offer is typed "Offer"; the price falls back to "0" and the
      availability is InStock exactly when the in-stock meta is truthy. */
  lemma OffersMembers(meta: map<string, string>, permalink: string)
    ensures var o := Offers(meta, permalink);
      && Keys(o) == OfferKeys && DistinctKeys(o)
      && Lookup(o, "@type") == Some(Str("Offer"))
      && Lookup(o, "priceCurrency") == Some(MetaJson(PostMeta(meta, CurrencyKey)))
      && Lookup(o, "price") == Some(Str(if Truthy(PostMeta(meta, PriceKey)) then PostMeta(meta, PriceKey).value else "0"))
      && Lookup(o, "url") == Some(Str(permalink))
      && Lookup(o, "priceValidUntil") == Some(MetaJson(PostMeta(meta, PriceValidKey)))
      && Lookup(o, "availability") == Some(Str(if Truthy(PostMeta(meta, InStockKey)) then InStock else OutOfStock))
  {
    var o := Offers(meta, permalink);
    assert Keys(o) == OfferKeys;
    MemberNamesDistinct();
    DistinctByKeys(o);
    LookupAt(o, 0); LookupAt(o, 1); LookupAt(o, 2);
    LookupAt(o, 3); LookupAt(o, 4); LookupAt(o, 5);
  }

  /** The brand member added when a brand is set. */
  function BrandThing(brand: string): Json
  {
    Object([("@type", Str("Thing")), ("name", Str(brand))])
  }

  /** The entity `Product::process` builds before it looks at the brand. */
  function BaseEntity(meta: map<string, string>, parts: Parts, permalink: string): seq<(string, Json)>
  {
    [
      ("@context", Str(SchemaContext)),
      ("@type", Str("Product")),
      ("sku", Str(OrElse(PostMeta(meta, SkuKey), ""))),
      ("name", Str(parts.title)),
      ("description", Str(parts.desc)),
      ("releaseDate", Str(parts.published)),
      ("offers", Object(Offers(meta, permalink)))
    ]
  }

  /** `Product::process` up to the WooCommerce and Easy Digital Downloads
      hand-offs: the Product entity for the current post. */
  function Process(meta: map<string, string>, parts: Parts, permalink: string): Json
  {
    var base := BaseEntity(meta, parts, permalink);
    var brand := PostMeta(meta, BrandKey);
    if Truthy(brand) then
      Object(Assign(Assign(base, "mpn", Str(brand.value)), "brand", BrandThing(brand.value)))
    else
      Object(base)
  }

  lemma BaseEntityKeys(meta: map<string, string>, parts: Parts, permalink: string)
    ensures Keys(BaseEntity(meta, parts, permalink)) == ProductKeys
    ensures DistinctKeys(BaseEntity(meta, parts, permalink))
  {
    var b := BaseEntity(meta, parts, permalink);
    assert Keys(b) == ProductKeys;
    MemberNamesDistinct();
    DistinctByKeys(b);
  }

  /** The members every Product entity has: the fixed `@context` and
      `@type`, the SKU or "", the title, description and publish date
      copied as they are, and the offer. */
  lemma BaseEntityMembers(meta: map<string, string>, parts: Parts, permalink: string)
    ensures var b := BaseEntity(meta, parts, permalink);
      && Lookup(b, "@context") == Some(Str(SchemaContext))
      && Lookup(b, "@type") == Some(Str("Product"))
      && Lookup(b, "sku") == Some(Str(if Truthy(PostMeta(meta, SkuKey)) then PostMeta(meta, SkuKey).value else ""))
      && Lookup(b, "name") == Some(Str(parts.title))
      && Lookup(b, "description") == Some(Str(parts.desc))
      && Lookup(b, "releaseDate") == Some(Str(parts.published))
      && Lookup(b, "offers") == Some(Object(Offers(meta, permalink)))
  {
    var b := BaseEntity(meta, parts, permalink);
    BaseEntityKeys(meta, parts, permalink);
    LookupAt(b, 0); LookupAt(b, 1); LookupAt(b, 2); LookupAt(b, 3);
    LookupAt(b, 4); LookupAt(b, 5); LookupAt(b, 6);
  }

  /** What `Product::process` adds to those members: the entity is a
      well-formed object (no member twice) whose members come in a fixed
      order, keeps every member above unchanged, and has `mpn` and
      `brand` exactly when the brand meta is truthy. */
  lemma ProcessMembers(meta: map<string, string>, parts: Parts, permalink: string)
    ensures var e := Process(meta, parts, permalink);
      var brand := PostMeta(meta, BrandKey);
      && e.Object? && DistinctKeys(e.members)
      && Keys(e.members) == ProductKeys + (if Truthy(brand) then ["mpn", "brand"] else [])
      && (forall k :: k in ProductKeys ==> Lookup(e.members, k) == Lookup(BaseEntity(meta, parts, permalink), k))
      && (Truthy(brand) ==> Lookup(e.members, "mpn") == Some(Str(brand.value)))
      && (Truthy(brand) ==> Lookup(e.members, "brand") == Some(BrandThing(brand.value)))
      && (!Truthy(brand) ==> Lookup(e.members, "mpn") == None && Lookup(e.members, "brand") == None)
  {
    BaseEntityKeys(meta, parts, permalink);
    var base := BaseEntity(meta, parts, permalink);
    var brand := PostMeta(meta, BrandKey);
    if Truthy(brand) {
      assert "mpn" !in ProductKeys;
      var withMpn := Assign(base, "mpn", Str(brand.value));
      assert Keys(withMpn) == ProductKeys + ["mpn"];
      assert "brand" !in ProductKeys + ["mpn"];
    } else {
      assert "mpn" !in ProductKeys && "brand" !in ProductKeys;
    }
  }

  /** `Product::get_seller`: the seller of the product is the site, as a
      Person or an Organization according to the knowledge-graph type
      setting; only a company carries a logo. */
  function Seller(siteUrl: string, graphType: Option<string>, websiteName: string, logo: Option<string>): (s: Json)
    ensures s.Object? && DistinctKeys(s.members)
    ensures Keys(s.members) == ["@type", "@id", "name", "url"] + (if graphType == Some("company") then ["logo"] else [])
    ensures Lookup(s.members, "@type") == Some(Str(if graphType == Some("person") then "Person" else "Organization"))
    ensures Lookup(s.members, "@id") == Some(Str(siteUrl + "/"))
    ensures Lookup(s.members, "name") == Some(Str(websiteName))
    ensures Lookup(s.members, "url") == Some(Str(siteUrl))
    ensures graphType == Some("company") ==> Lookup(s.members, "logo") == Some(MetaJson(logo))
    ensures graphType != Some("company") ==> Lookup(s.members, "logo") == None
  {
    var seller := [
      ("@type", Str(if graphType == Some("person") then "Person" else "Organization")),
      ("@id", Str(siteUrl + "/")),
      ("name", Str(websiteName)),
      ("url", Str(siteUrl))
    ];
    assert Keys(seller) == ["@type", "@id", "name", "url"];
    DistinctByKeys(seller);
    LookupAt(seller, 0); LookupAt(seller, 1); LookupAt(seller, 2); LookupAt(seller, 3);
    if graphType == Some("company") then
      Object(Assign(seller, "logo", MetaJson(logo)))
    else
      Object(seller)
  }

  // ---------------------------------------------------------------------
  // Category breadcrumb
  // ---------------------------------------------------------------------

  const Separator := " > "

  /** A taxonomy term as the host returns it. */
  datatype Term = Term(termId: int, parent: int, name: string)

  /** The result of asking the host for a post's terms: an error object, or
      the list of terms (a post without terms gives the empty list). */
  datatype TermsResult = WpError | Terms(list: seq<Term>)

  /** What the host knows about a taxonomy: the ancestor ids of a term,
      nearest first as the host lists them, and the name of a term id. */
  datatype Taxonomy = Taxonomy(ancestors: map<int, seq<int>>, names: map<int, string>)

  function AncestorIds(tax: Taxonomy, id: int): seq<int>
  {
    if id in tax.ancestors then tax.ancestors[id] else []
  }

  /** The name of a term; a term the host cannot load has no name, which
      PHP's `join` renders as the empty string. */
  function TermName(tax: Taxonomy, id: int): string
  {
    if id in tax.names then tax.names[id] else ""
  }

  function NamesOf(tax: Taxonomy, ids: seq<int>): (names: seq<string>)
    ensures |names| == |ids|
    ensures forall i :: 0 <= i < |ids| ==> names[i] == TermName(tax, ids[i])
  {
    seq(|ids|, i requires 0 <= i < |ids| => TermName(tax, ids[i]))
  }

  /** `Product::get_category`: the category breadcrumb of a product from
      its first term, or nothing when the product has no terms. */
  method GetCategory(terms: TermsResult, tax: Taxonomy) returns (r: Option<string>)
    ensures terms.WpError? || terms.list == [] ==> r == None
    ensures terms.Terms? && terms.list != [] && terms.list[0].parent == 0 ==>
      r == Some(terms.list[0].name)
    ensures terms.Terms? && terms.list != [] && terms.list[0].parent != 0 ==>
      r == Some(Join(NamesOf(tax, AncestorIds(tax, terms.list[0].termId)) + [terms.list[0].name], Separator))
  {
    if terms.WpError? || |terms.list| == 0 {
      return None;
    }
    var first := terms.list[0];
    if first.parent == 0 {
      return Some(first.name);
    }
    var ancestors := AncestorIds(tax, first.termId);
    var category: seq<string> := [];
    for i := 0 to |ancestors|
      invariant category == NamesOf(tax, ancestors[..i])
    {
      category := category + [TermName(tax, ancestors[i])];
    }
    assert ancestors[..|ancestors|] == ancestors;
    category := category + [first.name];
    r := Some(Join(category, Separator));
  }

  /** No name contains the '>' of the separator. */
  predicate PlainNames(names: seq<string>)
  {
    forall i :: 0 <= i < |names| ==> '>' !in names[i]
  }

  /** The breadcrumb ends with the product's own term name. */
  lemma {:induction false} BreadcrumbEndsWithName(ancestors: seq<string>, name: string)
    ensures var s := Join(ancestors + [name], Separator);
      |name| <= |s| && s[|s| - |name|..] == name
  {
    if ancestors != [] {
      var parts := ancestors + [name];
      assert parts[1..] == ancestors[1..] + [name];
      BreadcrumbEndsWithName(ancestors[1..], name);
    }
  }

  /** With plain names, the breadcrumb holds exactly one '>' per ancestor. */
  lemma {:induction false} BreadcrumbSeparatorCount(ancestors: seq<string>, name: string)
    requires PlainNames(ancestors + [name])
    ensures CountChar(Join(ancestors + [name], Separator), '>') == |ancestors|
  {
    var parts := ancestors + [name];
    if ancestors == [] {
      CountCharAbsent(name, '>');
    } else {
      assert parts[1..] == ancestors[1..] + [name];
      assert PlainNames(parts[1..]);
      BreadcrumbSeparatorCount(ancestors[1..], name);
      assert '>' !in parts[0];
      CountCharAbsent(parts[0], '>');
      assert CountChar(Separator, '>') == 1;
      var rest := Join(parts[1..], Separator);
      CountCharAppend(parts[0], Separator, '>');
      CountCharAppend(parts[0] + Separator, rest, '>');
    }
  }

  /** A plain name holds no separator. */
  lemma NoSeparatorIn(x: string)
    requires '>' !in x
    ensures forall j :: !OccursAt(x, Separator, j)
  {
    forall j: nat | j + 3 <= |x| ensures !OccursAt(x, Separator, j) {
      assert x[j..j + 3][1] == x[j + 1];
      assert x[j + 1] in x;
    }
  }

  /** In `x + " > " + rest` with a plain `x`, the first separator is the
      one right after `x`. */
  lemma FirstSeparator(x: string, rest: string)
    requires '>' !in x
    ensures FindFrom(x + Separator + rest, Separator, 0) == Some(|x|)
  {
    var s := x + Separator + rest;
    assert s[|x|..|x| + 3] == Separator;
    assert OccursAt(s, Separator, |x|);
    forall j: nat | j < |x| ensures !OccursAt(s, Separator, j) {
      assert s[j..j + 3][1] == s[j + 1];
      if j + 1 < |x| {
        assert s[j + 1] == x[j + 1];
        assert x[j + 1] in x;
      } else {
        assert s[j + 1] == ' ';
      }
    }
  }

  /** Splitting a breadcrumb of plain names on " > " gives back the
      names: the breadcrumb loses nothing and invents nothing. */
  lemma {:induction false} ExplodeBreadcrumb(parts: seq<string>)
    requires |parts| >= 1 && PlainNames(parts)
    ensures Explode(Join(parts, Separator), Separator) == parts
  {
    if |parts| == 1 {
      assert '>' !in parts[0];
      NoSeparatorIn(parts[0]);
    } else {
      var x, rest := parts[0], Join(parts[1..], Separator);
      assert '>' !in x;
      var s := x + Separator + rest;
      FirstSeparator(x, rest);
      assert s[..|x|] == x;
      assert s[|x| + 3..] == rest;
      assert PlainNames(parts[1..]);
      ExplodeBreadcrumb(parts[1..]);
      assert parts == [x] + parts[1..];
    }
  }

  /** What `get_category` returns for a product filed under a child term,
      when no name contains '>': a string that ends with the term's own
      name, holds one separator per ancestor, and splits back into the
      ancestor names followed by the term's name. */
  lemma CategoryBreadcrumb(ancestors: seq<string>, name: string)
    requires PlainNames(ancestors + [name])
    ensures var s := Join(ancestors + [name], Separator);
      && Explode(s, Separator) == ancestors + [name]
      && CountChar(s, '>') == |ancestors|
      && |name| <= |s| && s[|s| - |name|..] == name
  {
    ExplodeBreadcrumb(ancestors + [name]);
    BreadcrumbSeparatorCount(ancestors, name);
    BreadcrumbEndsWithName(ancestors, name);
  }
}
