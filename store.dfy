/** The storefront builder (`ShopifyURL::Store`): its host rule, which appends `.myshopify.com`
    unless the host already ends in a dot and a lower-case label, and its URL builders for
    collections, products, pages and blogs. */
module StoreLinks {
  import opened Wrappers
  import opened Text
  import opened Paths
  import opened Linker

  /** The characters of the pattern's label class `[-0-9a-z]`. */
  predicate IsLabelChar(c: char) {
    c == '-' || ('0' <= c <= '9') || ('a' <= c <= 'z')
  }

  /** What the pattern `\.[-0-9a-z]+\z` says: somewhere there is a dot followed, up to the end,
      by one or more label characters. */
  ghost predicate MatchesTldPattern(s: string) {
    exists i | 0 <= i < |s| - 1 :: s[i] == '.' && forall j | i < j < |s| :: IsLabelChar(s[j])
  }

  /** The length of the longest run of label characters at the end of `s`. */
  function TrailingLabelRun(s: string): (k: nat)
    ensures k <= |s|
    ensures forall j | |s| - k <= j < |s| :: IsLabelChar(s[j])
    ensures k < |s| ==> !IsLabelChar(s[|s| - 1 - k])
  {
    if s == [] || !IsLabelChar(s[|s| - 1]) then 0
    else
      var k := TrailingLabelRun(s[..|s| - 1]);
      assert forall j | |s| - 1 - k <= j < |s| - 1 :: s[j] == s[..|s| - 1][j];
      k + 1
  }

  /** The trailing run of label characters is not empty and a dot stands right before it. */
  predicate DotBeforeTrailingRun(s: string) {
    var k := TrailingLabelRun(s);
    0 < k < |s| && s[|s| - 1 - k] == '.'
  }

  /** Looking at the end of `s` decides exactly the pattern. */
  lemma TrailingRunIsPattern(s: string)
    ensures DotBeforeTrailingRun(s) <==> MatchesTldPattern(s)
  {
    var k := TrailingLabelRun(s);
    if DotBeforeTrailingRun(s) {
      var i := |s| - 1 - k;
      assert s[i] == '.' && forall j | i < j < |s| :: IsLabelChar(s[j]);
    }
    if MatchesTldPattern(s) {
      var i :| 0 <= i < |s| - 1 && s[i] == '.' && forall j | i < j < |s| :: IsLabelChar(s[j]);
      assert !IsLabelChar(s[i]);
    }
  }

  /** The test `@host =~ %r{\.[-0-9a-z]+\z}`, decided from the end: it holds exactly when the
      pattern matches. */
  function HasTldSuffix(s: string): (b: bool)
    ensures b <==> MatchesTldPattern(s)
  {
    TrailingRunIsPattern(s);
    DotBeforeTrailingRun(s)
  }

  /** A host that ends in the fixed suffix matches the pattern (the dot before `com`). */
  lemma SuffixMatchesPattern(h: string)
    ensures MatchesTldPattern(h + TopLevelDomain)
    ensures HasTldSuffix(h + TopLevelDomain)
  {
    var s := h + TopLevelDomain;
    var i := |h| + 10;
    assert s[i] == '.' && forall j | i < j < |s| :: IsLabelChar(s[j]);
    assert HasTldSuffix(s);
  }

  /** A prefix without dots, such as `https://`, does not change whether the pattern matches. */
  lemma PatternUnderPrefix(p: string, s: string)
    requires '.' !in p
    ensures MatchesTldPattern(p + s) <==> MatchesTldPattern(s)
  {
    var t := p + s;
    if MatchesTldPattern(t) {
      var i :| 0 <= i < |t| - 1 && t[i] == '.' && forall j | i < j < |t| :: IsLabelChar(t[j]);
      var i' := i - |p|;
      assert s[i'] == '.' && forall j | i' < j < |s| :: IsLabelChar(s[j]) by {
        forall j | i' < j < |s| ensures IsLabelChar(s[j]) {
          assert s[j] == t[j + |p|];
        }
      }
    }
    if MatchesTldPattern(s) {
      var i :| 0 <= i < |s| - 1 && s[i] == '.' && forall j | i < j < |s| :: IsLabelChar(s[j]);
      var i' := i + |p|;
      assert t[i'] == '.' && forall j | i' < j < |t| :: IsLabelChar(t[j]) by {
        forall j | i' < j < |t| ensures IsLabelChar(t[j]) {
          assert t[j] == s[j - |p|];
        }
      }
    }
  }

  /** The storefront host of a shop (Linker's scheme rule, then the suffix rule). It always has a
      scheme, keeps the shop text, matches the pattern, and ends in a label character, never `/`. */
  function StoreHostOf(shop: string): (h: string)
    ensures HasScheme(h)
    ensures h == WithScheme(shop) || h == WithScheme(shop) + TopLevelDomain
    ensures h == WithScheme(shop) <==> MatchesTldPattern(WithScheme(shop))
    ensures MatchesTldPattern(h)
    ensures IsLabelChar(h[|h| - 1])
  {
    var w := WithScheme(shop);
    SuffixMatchesPattern(w);
    var h := if HasTldSuffix(w) then w else w + TopLevelDomain;
    SchemeKeptByAppend(w, TopLevelDomain);
    h
  }

  /** `Store.new(shop)`: the error for a blank shop, otherwise the host. */
  function NormalizeStore(shop: string): (r: Result<string, Error>)
    ensures r.Failure? <==> AllStripped(shop)
    ensures r.Failure? ==> r.error == ShopRequired
    ensures r.Success? ==> r.value == StoreHostOf(shop)
  {
    StripEmptyIffAllStripped(shop);
    if Empty(shop) then Failure(ShopRequired) else Success(StoreHostOf(shop))
  }

  /** A scheme is never blank, so neither is a host. */
  lemma SchemeNotBlank(h: string)
    requires HasScheme(h)
    ensures !AllStripped(h)
  {
    assert !IsStripped(h[0]);
  }

  /** Normalising a storefront host again changes nothing: `Store.new(store.to_s).to_s == store.to_s`. */
  lemma StoreHostIdempotent(shop: string)
    ensures NormalizeStore(StoreHostOf(shop)) == Success(StoreHostOf(shop))
  {
    var h := StoreHostOf(shop);
    SchemeNotBlank(h);
    assert HasTldSuffix(h);
  }

  /** A shop name without a scheme and without a dotted suffix becomes `https://<name>.myshopify.com`. */
  lemma BareShopName(shop: string)
    requires !HasScheme(shop) && !MatchesTldPattern(shop)
    ensures StoreHostOf(shop) == "https://" + shop + ".myshopify.com"
  {
    PatternUnderPrefix(DefaultScheme, shop);
  }

  /** A domain without a scheme that has a dotted suffix only gains `https://`. */
  lemma DottedShopName(shop: string)
    requires !HasScheme(shop) && MatchesTldPattern(shop)
    ensures StoreHostOf(shop) == "https://" + shop
  {
    PatternUnderPrefix(DefaultScheme, shop);
  }

  /** A shop with a scheme in any letter case is kept verbatim at the front of the host. */
  lemma SchemeKept(shop: string)
    requires HasScheme(shop)
    ensures StartsWith(StoreHostOf(shop), shop)
  {
    var h := StoreHostOf(shop);
    assert h[..|shop|] == shop;
  }

  /** The pattern is case-sensitive: a shop that ends in an upper-case letter, such as
      `EXAMPLE.COM`, gets the suffix even when it is a full domain. */
  lemma UpperCaseEndGetsSuffix(shop: string)
    requires !HasScheme(shop)
    requires shop != [] && 'A' <= shop[|shop| - 1] <= 'Z'
    ensures StoreHostOf(shop) == "https://" + shop + ".myshopify.com"
  {
    assert !MatchesTldPattern(shop) by {
      assert !IsLabelChar(shop[|shop| - 1]);
    }
    BareShopName(shop);
  }

  /** `Collections.new(host, id, qs)`: `/collections` on the host, then `/id` when there is an id,
      then `?qs` when there is a query string. */
  method NewCollections(host: string, id: Option<string>, qs: Option<string>) returns (url: string)
    ensures url == Url(host, if id.Some? then ["collections", id.value] else ["collections"], qs)
  {
    url := host + "/collections";
    if id.Some? {
      url := url + "/" + id.value;
      SegmentThenId(host, "/collections", "collections", id.value, qs);
    } else {
      OneSegment(host, "/collections", "collections", qs);
    }
    url := AppendQuery(url, qs);
  }

  /** `Products.new(host, qs)`: `/products` on the host, then `?qs` when there is a query string. */
  method NewProducts(host: string, qs: Option<string>) returns (url: string)
    ensures url == Url(host, ["products"], qs)
  {
    url := host + "/products";
    OneSegment(host, "/products", "products", qs);
    url := AppendQuery(url, qs);
  }

  /** `Product.new(host, id, qs)`: `/products/id` on the host, then `?qs` when there is a query string. */
  method NewProduct(host: string, id: string, qs: Option<string>) returns (url: string)
    ensures url == Url(host, ["products", id], qs)
  {
    url := host + "/products/" + id;
    TwoSegments(host, "/products/", "products", id, qs);
    url := AppendQuery(url, qs);
  }

  /** A blog URL (`Store::Blogs`): the one URL the library changes after building it. */
  class BlogsUrl {
    var url: string

    /** `Blogs.new(host, category, qs)`: `/blogs/category` on the host, then `?qs` when there is a
        query string. */
    constructor (host: string, category: string, qs: Option<string>)
      ensures url == Url(host, ["blogs", category], qs)
    {
      var u := host + "/blogs";
      u := u + "/" + category;
      SegmentThenId(host, "/blogs", "blogs", category, qs);
      u := AppendQuery(u, qs);
      url := u;
    }

    /** `entry(name, params)`: appends `/name` to this very URL, and `?` with the encoded parameters
        when there are any, then returns this same object. */
    method Entry(name: string, params: Option<Params>) returns (r: BlogsUrl)
      modifies this
      ensures r == this
      ensures url == Url(old(url), [name], ChainQuery(params))
    {
      var qs := ChainQuery(params);
      OneSegment(url, "/" + name, name, qs);
      SeqAssoc(url, "/", name);
      url := url + "/" + name;
      url := AppendQuery(url, qs);
      r := this;
    }
  }

  /** A storefront builder for one shop; its host never changes after construction. */
  class Store {
    /** The shop name the builder was made from. */
    ghost const shop: string
    const host: string

    /** The host is the storefront host of the shop. */
    ghost predicate Valid() {
      host == StoreHostOf(shop)
    }

    /** The body of `initialize` after the blank check: copy the shop, put `https://` in front
        unless it has a scheme, append `.myshopify.com` unless the pattern matches. */
    constructor (shop: string)
      requires !Empty(shop)
      ensures this.shop == shop && host == StoreHostOf(shop)
      ensures Valid()
    {
      var h := shop;
      if !HasScheme(h) {
        h := DefaultScheme + h;
      }
      if !HasTldSuffix(h) {
        h := h + TopLevelDomain;
      }
      this.shop := shop;
      host := h;
    }

    /** `Store.new(shop)`: the error `shop required` for a blank shop, otherwise a new builder. */
    static method New(shop: string) returns (r: Result<Store, Error>)
      ensures r.Failure? <==> AllStripped(shop)
      ensures r.Failure? ==> r.error == ShopRequired
      ensures r.Success? ==> fresh(r.value) && r.value.Valid() && r.value.host == StoreHostOf(shop)
    {
      StripEmptyIffAllStripped(shop);
      if Empty(shop) {
        return Failure(ShopRequired);
      }
      var store := new Store(shop);
      return Success(store);
    }

    /** `to_s`: the host, which has a scheme, matches the pattern, and is left unchanged when a new
        store is built from it. */
    function ToS(): (r: string)
      requires Valid()
      ensures r == StoreHostOf(shop)
      ensures HasScheme(r) && MatchesTldPattern(r)
      ensures NormalizeStore(r) == Success(r)
    {
      StoreHostIdempotent(shop);
      host
    }

    /** `collection(id, query)`: `id required` for a blank id, otherwise `/collections/id`. */
    method Collection(id: string, query: Option<Params>) returns (r: Result<string, Error>)
      ensures r.Failure? <==> AllStripped(id)
      ensures r.Failure? ==> r.error == IdRequired
      ensures r.Success? ==> r.value == Url(host, ["collections", id], Q(query))
    {
      var err := RequireId(id);
      if err.Some? {
        return Failure(err.value);
      }
      var url := NewCollections(host, Some(id), Q(query));
      return Success(url);
    }

    /** `collections(query)`: `/collections`. */
    method Collections(query: Option<Params>) returns (url: string)
      ensures url == Url(host, ["collections"], Q(query))
    {
      url := NewCollections(host, None, Q(query));
    }

    /** `product(id, query)`: `id required` for a blank id, otherwise `/products/id`. */
    method Product(id: string, query: Option<Params>) returns (r: Result<string, Error>)
      ensures r.Failure? <==> AllStripped(id)
      ensures r.Failure? ==> r.error == IdRequired
      ensures r.Success? ==> r.value == Url(host, ["products", id], Q(query))
    {
      var err := RequireId(id);
      if err.Some? {
        return Failure(err.value);
      }
      var url := NewProduct(host, id, Q(query));
      return Success(url);
    }

    /** `products(query)`: `/products`. */
    method Products(query: Option<Params>) returns (url: string)
      ensures url == Url(host, ["products"], Q(query))
    {
      url := NewProducts(host, Q(query));
    }

    /** `page(id, query)`: `/pages/id` for every id, blank or not; no error case. */
    method Page(id: string, query: Option<Params>) returns (url: string)
      ensures url == Url(host, ["pages", id], Q(query))
    {
      url := host + "/pages/" + id;
      TwoSegments(host, "/pages/", "pages", id, Q(query));
      url := AppendQuery(url, Q(query));
    }

    /** `blogs(category, query)`: `category required` for a blank category, otherwise a new blog URL
        `/blogs/category`. */
    method Blogs(category: string, query: Option<Params>) returns (r: Result<BlogsUrl, Error>)
      ensures r.Failure? <==> AllStripped(category)
      ensures r.Failure? ==> r.error == CategoryRequired
      ensures r.Success? ==> fresh(r.value) && r.value.url == Url(host, ["blogs", category], Q(query))
    {
      StripEmptyIffAllStripped(category);
      if Empty(category) {
        return Failure(CategoryRequired);
      }
      var blogs := new BlogsUrl(host, category, Q(query));
      return Success(blogs);
    }
  }

  /** A blog entry on a blog URL built without a query is the URL with segments
      `blogs/category/name` for any category and name, and its path and query string read back
      from it when neither holds `/` or `?`. */
  lemma EntryOnPlainBlog(host: string, category: string, name: string, params: Option<Params>)
    ensures Url(Url(host, ["blogs", category], None), [name], ChainQuery(params)) ==
      Url(host, ["blogs", category, name], ChainQuery(params))
    ensures IsPlainSegment(category) && IsPlainSegment(name) ==>
      Split(host, Url(host, ["blogs", category, name], ChainQuery(params))) ==
      Some((["blogs", category, name], ChainQuery(params)))
  {
    var all := ["blogs", category, name];
    ExtendUrl(host, ["blogs", category], [name], ChainQuery(params));
    assert ["blogs", category] + [name] == all;
    if IsPlainSegment(category) && IsPlainSegment(name) {
      assert ArePlainSegments(all) by {
        assert IsPlainSegment("blogs");
      }
      SplitUrl(host, all, ChainQuery(params));
    }
  }

  /** An entry on a blog URL that already has a query string lands inside that query string:
      the path stays `blogs/category` and `/name` is appended to the query. */
  lemma EntryOnQueriedBlog(host: string, category: string, qs: string, name: string)
    requires IsPlainSegment(category)
    ensures Split(host, Url(Url(host, ["blogs", category], Some(qs)), [name], None)) ==
      Some((["blogs", category], Some(qs + "/" + name)))
  {
    assert ArePlainSegments(["blogs", category]) by {
      assert IsPlainSegment("blogs");
    }
    ExtendQueriedUrl(host, ["blogs", category], qs, [name]);
    assert Path([name]) == "/" + name;
    SeqAssoc(qs, "/", name);
  }
}
