/** The admin builder (`ShopifyURL::Admin`): its host rule, which appends `.myshopify.com` unless
    that literal suffix is already there and then always appends `/admin`, its URL builders for
    customers, orders, draft orders and products, and the chained sub-resources. */
module AdminLinks {
  import opened Wrappers
  import opened Text
  import opened Paths
  import opened Linker
  import StoreLinks

  /** The admin host of a shop: Linker's scheme rule, the literal-suffix rule, then `/admin`.
      It always has a scheme, keeps the shop text, and ends in `.myshopify.com/admin`. */
  function AdminHostOf(shop: string): (h: string)
    ensures HasScheme(h)
    ensures EndsWith(h, TopLevelDomain + "/admin")
    ensures h == WithScheme(shop) + "/admin" <==> EndsWith(WithScheme(shop), TopLevelDomain)
    ensures h == WithScheme(shop) + "/admin" || h == WithScheme(shop) + TopLevelDomain + "/admin"
  {
    var w := WithScheme(shop);
    var suffixed := if EndsWith(w, TopLevelDomain) then w else w + TopLevelDomain;
    SchemeKeptByAppend(w, TopLevelDomain);
    SchemeKeptByAppend(suffixed, "/admin");
    var h := suffixed + "/admin";
    assert EndsWith(w, TopLevelDomain) ==> w == w[..|w| - |TopLevelDomain|] + TopLevelDomain;
    h
  }

  /** `Admin.new(shop)`: the error for a blank shop, otherwise the host. */
  function NormalizeAdmin(shop: string): (r: Result<string, Error>)
    ensures r.Failure? <==> AllStripped(shop)
    ensures r.Failure? ==> r.error == ShopRequired
    ensures r.Success? ==> r.value == AdminHostOf(shop)
  {
    StripEmptyIffAllStripped(shop);
    if Empty(shop) then Failure(ShopRequired) else Success(AdminHostOf(shop))
  }

  /** The two suffix rules agree, and the admin host is the storefront host followed by `/admin`,
      exactly when the schemed shop ends in `.myshopify.com` or has no dotted lower-case suffix at
      all; on any other domain (such as `example.com`) the admin host gains `.myshopify.com` where
      the storefront host does not. */
  lemma HostRulesCompared(shop: string)
    ensures var w := WithScheme(shop);
      (AdminHostOf(shop) == StoreLinks.StoreHostOf(shop) + "/admin" <==>
        EndsWith(w, TopLevelDomain) || !StoreLinks.MatchesTldPattern(w))
    ensures var w := WithScheme(shop);
      (StoreLinks.MatchesTldPattern(w) && !EndsWith(w, TopLevelDomain) ==>
        AdminHostOf(shop) == StoreLinks.StoreHostOf(shop) + TopLevelDomain + "/admin")
  {
    var w := WithScheme(shop);
    if EndsWith(w, TopLevelDomain) {
      assert w == w[..|w| - |TopLevelDomain|] + TopLevelDomain;
      StoreLinks.SuffixMatchesPattern(w[..|w| - |TopLevelDomain|]);
    }
  }

  /** `Admin.new(admin.to_s)` is not `admin`: the admin host ends in `/admin`, not in the suffix,
      so normalising it again appends `.myshopify.com/admin` a second time. */
  lemma AdminHostNotIdempotent(shop: string)
    ensures NormalizeAdmin(AdminHostOf(shop)) == Success(AdminHostOf(shop) + TopLevelDomain + "/admin")
  {
    var h := AdminHostOf(shop);
    StoreLinks.SchemeNotBlank(h);
    assert h[|h| - 1] == 'n';
  }

  /** A shop name without a scheme that does not end in `.myshopify.com` (a bare name, or another
      domain such as `example.com`) becomes `https://<shop>.myshopify.com/admin`. */
  lemma ShopWithoutSuffix(shop: string)
    requires !HasScheme(shop) && !EndsWith(shop, TopLevelDomain)
    ensures AdminHostOf(shop) == "https://" + shop + ".myshopify.com/admin"
  {
    SchemeKeepsNoSuffix(shop);
  }

  /** Putting `https://` in front does not create the suffix: it has no dot. */
  lemma SchemeKeepsNoSuffix(shop: string)
    requires !EndsWith(shop, TopLevelDomain)
    ensures !EndsWith(DefaultScheme + shop, TopLevelDomain)
  {
    var w := DefaultScheme + shop;
    var n := |TopLevelDomain|;
    if |shop| >= n {
      assert w[|w| - n..] == shop[|shop| - n..];
    } else if |w| >= n {
      assert w[|w| - n] != TopLevelDomain[0];
    }
  }

  /** A shop without a scheme that already ends in `.myshopify.com` only gains `https://` and `/admin`. */
  lemma ShopWithSuffix(shop: string)
    requires !HasScheme(shop) && EndsWith(shop, TopLevelDomain)
    ensures AdminHostOf(shop) == "https://" + shop + "/admin"
  {
    EndsWithPrefixed(DefaultScheme, shop, TopLevelDomain);
  }

  /** A collection of products (`Admin::Products`). */
  datatype Products = Products(url: string) {
    /** `inventory`: a new URL one segment below, without a query string. */
    function Inventory(): (r: string)
      ensures r == Url(url, ["inventory"], None)
    {
      OneSegment(url, "/inventory", "inventory", None);
      url + "/inventory"
    }
  }

  /** One product (`Admin::Product`). */
  datatype Product = Product(url: string) {
    /** `variants(id, params)`: a new URL `/variants/id` below, with `?` and the encoded parameters
        when there are any. */
    function Variants(id: string, params: Option<Params>): (r: string)
      ensures r == Url(url, ["variants", id], ChainQuery(params))
    {
      var qs := ChainQuery(params);
      TwoSegments(url, "/variants/", "variants", id, qs);
      url + "/variants/" + id + QueryPart(qs)
    }
  }

  /** One order (`Admin::Order`). */
  datatype Order = Order(url: string) {
    /** `shipping_labels`: a new shipping-label URL one segment below. */
    function ShippingLabels(): (r: ShippingLabel)
      ensures r.url == Url(url, ["shipping_labels"], None)
    {
      OneSegment(url, "/shipping_labels", "shipping_labels", None);
      ShippingLabel(url + "/shipping_labels")
    }
  }

  /** The shipping labels of an order (`Admin::ShippingLabel`). */
  datatype ShippingLabel = ShippingLabel(url: string) {
    /** `new(params)`: a new URL `/new` below, with `?` and the encoded parameters when there are any. */
    function New(params: Option<Params>): (r: string)
      ensures r == Url(url, ["new"], ChainQuery(params))
    {
      var qs := ChainQuery(params);
      OneSegment(url, "/new", "new", qs);
      url + "/new" + QueryPart(qs)
    }
  }

  /** One draft order (`Admin::DraftOrder`). */
  datatype DraftOrder = DraftOrder(url: string) {
    /** `duplicate(params)`: a new URL `/duplicate` below, with `?` and the encoded parameters when
        there are any. */
    function Duplicate(params: Option<Params>): (r: string)
      ensures r == Url(url, ["duplicate"], ChainQuery(params))
    {
      var qs := ChainQuery(params);
      OneSegment(url, "/duplicate", "duplicate", qs);
      url + "/duplicate" + QueryPart(qs)
    }
  }

  /** The draft orders (`Admin::DraftOrders`). */
  datatype DraftOrders = DraftOrders(url: string) {
    /** `new(params)`: a new URL `/new` below, with `?` and the encoded parameters when there are any. */
    function New(params: Option<Params>): (r: string)
      ensures r == Url(url, ["new"], ChainQuery(params))
    {
      var qs := ChainQuery(params);
      OneSegment(url, "/new", "new", qs);
      url + "/new" + QueryPart(qs)
    }
  }

  /** `Customers.new(host, id, qs)`: `/customers` on the host, then `/id` when there is an id, then
      `?qs` when there is a query string. */
  method NewCustomers(host: string, id: Option<string>, qs: Option<string>) returns (url: string)
    ensures url == Url(host, if id.Some? then ["customers", id.value] else ["customers"], qs)
  {
    url := host + "/customers";
    if id.Some? {
      url := url + "/" + id.value;
      SegmentThenId(host, "/customers", "customers", id.value, qs);
    } else {
      OneSegment(host, "/customers", "customers", qs);
    }
    url := AppendQuery(url, qs);
  }

  /** `Order.new(host, id, qs)`: `/orders/id` on the host, then `?qs` when there is a query string. */
  method NewOrder(host: string, id: string, qs: Option<string>) returns (order: Order)
    ensures order.url == Url(host, ["orders", id], qs)
  {
    var url := host + "/orders/" + id;
    TwoSegments(host, "/orders/", "orders", id, qs);
    url := AppendQuery(url, qs);
    order := Order(url);
  }

  /** `Orders.new(host, qs)`: `/orders` on the host, then `?qs` when there is a query string. */
  method NewOrders(host: string, qs: Option<string>) returns (url: string)
    ensures url == Url(host, ["orders"], qs)
  {
    url := host + "/orders";
    OneSegment(host, "/orders", "orders", qs);
    url := AppendQuery(url, qs);
  }

  /** `DraftOrder.new(base, id, qs)`: `/draft_orders/id`, then `?qs` when there is a query string. */
  method NewDraftOrder(host: string, id: string, qs: Option<string>) returns (draft: DraftOrder)
    ensures draft.url == Url(host, ["draft_orders", id], qs)
  {
    var url := host + "/draft_orders/" + id;
    TwoSegments(host, "/draft_orders/", "draft_orders", id, qs);
    url := AppendQuery(url, qs);
    draft := DraftOrder(url);
  }

  /** `DraftOrders.new(base, qs)`: `/draft_orders`, then `?qs` when there is a query string. */
  method NewDraftOrders(host: string, qs: Option<string>) returns (drafts: DraftOrders)
    ensures drafts.url == Url(host, ["draft_orders"], qs)
  {
    var url := host + "/draft_orders";
    OneSegment(host, "/draft_orders", "draft_orders", qs);
    url := AppendQuery(url, qs);
    drafts := DraftOrders(url);
  }

  /** An admin builder for one shop; its host never changes after construction. */
  class Admin {
    /** The shop name the builder was made from. */
    ghost const shop: string
    const host: string

    /** The host is the admin host of the shop. */
    ghost predicate Valid() {
      host == AdminHostOf(shop)
    }

    /** The body of `initialize` after the blank check: copy the shop, put `https://` in front
        unless it has a scheme, append `.myshopify.com` unless it already ends so, append `/admin`. */
    constructor (shop: string)
      requires !Empty(shop)
      ensures this.shop == shop && host == AdminHostOf(shop)
      ensures Valid()
    {
      var h := shop;
      if !HasScheme(h) {
        h := DefaultScheme + h;
      }
      if !EndsWith(h, TopLevelDomain) {
        h := h + TopLevelDomain;
      }
      h := h + "/admin";
      this.shop := shop;
      host := h;
    }

    /** `Admin.new(shop)`: the error `shop required` for a blank shop, otherwise a new builder. */
    static method New(shop: string) returns (r: Result<Admin, Error>)
      ensures r.Failure? <==> AllStripped(shop)
      ensures r.Failure? ==> r.error == ShopRequired
      ensures r.Success? ==> fresh(r.value) && r.value.Valid() && r.value.host == AdminHostOf(shop)
    {
      StripEmptyIffAllStripped(shop);
      if Empty(shop) {
        return Failure(ShopRequired);
      }
      var admin := new Admin(shop);
      return Success(admin);
    }

    /** `to_s`: the host, which has a scheme and ends in `.myshopify.com/admin`; a new admin built
        from it gains that suffix a second time. */
    function ToS(): (r: string)
      requires Valid()
      ensures r == AdminHostOf(shop)
      ensures HasScheme(r) && EndsWith(r, TopLevelDomain + "/admin")
      ensures NormalizeAdmin(r) == Success(r + TopLevelDomain + "/admin")
    {
      AdminHostNotIdempotent(shop);
      host
    }

    /** `customer(id, query)`: `id required` for a blank id, otherwise `/customers/id`. */
    method Customer(id: string, query: Option<Params>) returns (r: Result<string, Error>)
      ensures r.Failure? <==> AllStripped(id)
      ensures r.Failure? ==> r.error == IdRequired
      ensures r.Success? ==> r.value == Url(host, ["customers", id], Q(query))
    {
      var err := RequireId(id);
      if err.Some? {
        return Failure(err.value);
      }
      var url := NewCustomers(host, Some(id), Q(query));
      return Success(url);
    }

    /** `customers(query)`: `/customers`. */
    method Customers(query: Option<Params>) returns (url: string)
      ensures url == Url(host, ["customers"], Q(query))
    {
      url := NewCustomers(host, None, Q(query));
    }

    /** `draft_orders(query)`: `/draft_orders`, which can be chained with `New`. */
    method DraftOrdersOf(query: Option<Params>) returns (drafts: DraftOrders)
      ensures drafts.url == Url(host, ["draft_orders"], Q(query))
    {
      drafts := NewDraftOrders(host, Q(query));
    }

    /** `draft_order(id, query)`: `id required` for a blank id, otherwise `/draft_orders/id`, which
        can be chained with `Duplicate`. */
    method DraftOrderOf(id: string, query: Option<Params>) returns (r: Result<DraftOrder, Error>)
      ensures r.Failure? <==> AllStripped(id)
      ensures r.Failure? ==> r.error == IdRequired
      ensures r.Success? ==> r.value.url == Url(host, ["draft_orders", id], Q(query))
    {
      var err := RequireId(id);
      if err.Some? {
        return Failure(err.value);
      }
      var draft := NewDraftOrder(host, id, Q(query));
      return Success(draft);
    }

    /** `order(id, query)`: `id required` for a blank id, otherwise `/orders/id`, which can be
        chained with `ShippingLabels`. */
    method OrderOf(id: string, query: Option<Params>) returns (r: Result<Order, Error>)
      ensures r.Failure? <==> AllStripped(id)
      ensures r.Failure? ==> r.error == IdRequired
      ensures r.Success? ==> r.value.url == Url(host, ["orders", id], Q(query))
    {
      var err := RequireId(id);
      if err.Some? {
        return Failure(err.value);
      }
      var order := NewOrder(host, id, Q(query));
      return Success(order);
    }

    /** `orders(query)`: `/orders`. */
    method Orders(query: Option<Params>) returns (url: string)
      ensures url == Url(host, ["orders"], Q(query))
    {
      url := NewOrders(host, Q(query));
    }

    /** `product(id, query)`: `id required` for a blank id, otherwise `/products/id`, which can be
        chained with `Variants`. */
    method ProductOf(id: string, query: Option<Params>) returns (r: Result<Product, Error>)
      ensures r.Failure? <==> AllStripped(id)
      ensures r.Failure? ==> r.error == IdRequired
      ensures r.Success? ==> r.value.url == Url(host, ["products", id], Q(query))
    {
      var err := RequireId(id);
      if err.Some? {
        return Failure(err.value);
      }
      var url := StoreLinks.NewProduct(host, id, Q(query));
      return Success(Product(url));
    }

    /** `products(query)`: `/products`, which can be chained with `Inventory`. */
    method ProductsOf(query: Option<Params>) returns (products: Products)
      ensures products.url == Url(host, ["products"], Q(query))
    {
      var url := StoreLinks.NewProducts(host, Q(query));
      products := Products(url);
    }
  }

  /** `order(id).shipping_labels` is the URL `orders/id/shipping_labels`. */
  lemma ShippingLabelsUrl(host: string, id: string)
    ensures Order(Url(host, ["orders", id], None)).ShippingLabels().url ==
      Url(host, ["orders", id, "shipping_labels"], None)
  {
    ExtendUrl(host, ["orders", id], ["shipping_labels"], None);
    assert ["orders", id] + ["shipping_labels"] == ["orders", id, "shipping_labels"];
  }

  /** `order(id).shipping_labels.new(params)` is the URL `orders/id/shipping_labels/new` with the
      chained query for every id, and both read back from it when the id holds neither `/` nor `?`. */
  lemma NewShippingLabelUrl(host: string, id: string, params: Option<Params>)
    ensures Order(Url(host, ["orders", id], None)).ShippingLabels().New(params) ==
      Url(host, ["orders", id, "shipping_labels", "new"], ChainQuery(params))
    ensures IsPlainSegment(id) ==>
      Split(host, Url(host, ["orders", id, "shipping_labels", "new"], ChainQuery(params))) ==
      Some((["orders", id, "shipping_labels", "new"], ChainQuery(params)))
  {
    var labels := ["orders", id, "shipping_labels"];
    var all := ["orders", id, "shipping_labels", "new"];
    ShippingLabelsUrl(host, id);
    ExtendUrl(host, labels, ["new"], ChainQuery(params));
    assert labels + ["new"] == all;
    if IsPlainSegment(id) {
      assert ArePlainSegments(all) by {
        assert IsPlainSegment("orders") && IsPlainSegment("shipping_labels") && IsPlainSegment("new");
      }
      SplitUrl(host, all, ChainQuery(params));
    }
  }

  /** `draft_order(id).duplicate(params)` is the URL `draft_orders/id/duplicate` with the chained
      query for every id, and both read back from it when the id holds neither `/` nor `?`. */
  lemma DuplicateDraftOrderUrl(host: string, id: string, params: Option<Params>)
    ensures DraftOrder(Url(host, ["draft_orders", id], None)).Duplicate(params) ==
      Url(host, ["draft_orders", id, "duplicate"], ChainQuery(params))
    ensures IsPlainSegment(id) ==>
      Split(host, Url(host, ["draft_orders", id, "duplicate"], ChainQuery(params))) ==
      Some((["draft_orders", id, "duplicate"], ChainQuery(params)))
  {
    var all := ["draft_orders", id, "duplicate"];
    ExtendUrl(host, ["draft_orders", id], ["duplicate"], ChainQuery(params));
    assert ["draft_orders", id] + ["duplicate"] == all;
    if IsPlainSegment(id) {
      assert ArePlainSegments(all) by {
        assert IsPlainSegment("draft_orders") && IsPlainSegment("duplicate");
      }
      SplitUrl(host, all, ChainQuery(params));
    }
  }

  /** `draft_orders.new(params)` is the URL `draft_orders/new` with the chained query. */
  lemma NewDraftOrderUrl(host: string, params: Option<Params>)
    ensures var r := DraftOrders(Url(host, ["draft_orders"], None)).New(params);
      r == Url(host, ["draft_orders", "new"], ChainQuery(params)) &&
      Split(host, r) == Some((["draft_orders", "new"], ChainQuery(params)))
  {
    var all := ["draft_orders", "new"];
    assert ArePlainSegments(all) by {
      assert IsPlainSegment("draft_orders") && IsPlainSegment("new");
    }
    ExtendAndSplit(host, ["draft_orders"], ["new"], all, ChainQuery(params));
  }

  /** `product(id).variants(variant, params)` is the URL `products/id/variants/variant` with the
      chained query for any ids, and all of it reads back when neither id holds `/` or `?`. */
  lemma VariantUrl(host: string, id: string, variant: string, params: Option<Params>)
    ensures Product(Url(host, ["products", id], None)).Variants(variant, params) ==
      Url(host, ["products", id, "variants", variant], ChainQuery(params))
    ensures IsPlainSegment(id) && IsPlainSegment(variant) ==>
      Split(host, Url(host, ["products", id, "variants", variant], ChainQuery(params))) ==
      Some((["products", id, "variants", variant], ChainQuery(params)))
  {
    var all := ["products", id, "variants", variant];
    ExtendUrl(host, ["products", id], ["variants", variant], ChainQuery(params));
    assert ["products", id] + ["variants", variant] == all;
    if IsPlainSegment(id) && IsPlainSegment(variant) {
      assert ArePlainSegments(all) by {
        assert IsPlainSegment("products") && IsPlainSegment("variants");
      }
      SplitUrl(host, all, ChainQuery(params));
    }
  }

  /** `products.inventory` is the URL `products/inventory`. */
  lemma InventoryUrl(host: string)
    ensures Products(Url(host, ["products"], None)).Inventory() == Url(host, ["products", "inventory"], None)
  {
    ExtendUrl(host, ["products"], ["inventory"], None);
    assert ["products"] + ["inventory"] == ["products", "inventory"];
  }

  /** On a products URL that carries a query string, `/inventory` ends up inside that query
      string instead. */
  lemma InventoryOnQueried(host: string, qs: string)
    ensures Split(host, Products(Url(host, ["products"], Some(qs))).Inventory()) ==
      Some((["products"], Some(qs + "/inventory")))
  {
    ExtendQueriedSegment(host, "products", qs, "/inventory", "inventory");
  }

  /** A product id is put into the path as it is: the product `a/variants/b` is the text
      `/products/a/variants/b` on the host. */
  lemma UnescapedProductUrl(host: string, a: string, b: string)
    ensures Url(host, ["products", a + "/variants/" + b], None) == host + "/products/" + a + "/variants/" + b
  {
    var id := a + "/variants/" + b;
    calc {
      Url(host, ["products", id], None);
      { TwoSegments(host, "/products/", "products", id, None); }
      host + "/products/" + id + "";
      { assert host + "/products/" + id + "" == host + "/products/" + id; }
      host + "/products/" + ((a + "/variants/") + b);
      { SeqAssoc(host + "/products/", a + "/variants/", b); }
      (host + "/products/" + (a + "/variants/")) + b;
      { SeqAssoc(host + "/products/", a, "/variants/"); }
      host + "/products/" + a + "/variants/" + b;
    }
  }

  /** Ids are put into the path without escaping, so an id holding `/` can spell a chained URL:
      the product `a/variants/b` has the same URL as variant `b` of product `a`. */
  lemma UnescapedIdCollides(host: string, a: string, b: string)
    ensures Url(host, ["products", a + "/variants/" + b], None) ==
      Product(Url(host, ["products", a], None)).Variants(b, None)
  {
    var base := host + "/products/" + a;
    calc {
      Url(host, ["products", a + "/variants/" + b], None);
      { UnescapedProductUrl(host, a, b); }
      base + "/variants/" + b;
      { assert base + "/variants/" + b == base + "/variants/" + b + ""; }
      base + "/variants/" + b + "";
      { TwoSegments(host, "/products/", "products", a, None);
        assert base + "" == base; }
      Product(Url(host, ["products", a], None)).Variants(b, None);
    }
  }
}
