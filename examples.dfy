/** The library's usage examples, stated for every input of their kind: a query built from plain
    words, a bare shop name, a `.com` domain and the products URL of a bare shop. */
module Examples {
  import opened Wrappers
  import opened Text
  import opened Paths
  import opened Linker
  import FormEncoding
  import StoreLinks
  import AdminLinks

  /** Every character of `s` is kept as it is by the form encoding. */
  predicate IsPlainWord(s: string) {
    forall i | 0 <= i < |s| :: FormEncoding.IsUnreservedByte(s[i] as int)
  }

  /** Two plain words with a space between them encode as the words joined by `+`
      (`"a b"` becomes `a+b`). */
  lemma SpacedWords(a: string, b: string)
    requires IsPlainWord(a) && IsPlainWord(b)
    ensures FormEncoding.EncodeComponent(a + " " + b) == a + "+" + b
  {
    FormEncoding.UnreservedKept(a);
    FormEncoding.UnreservedKept(b);
    FormEncoding.SpaceIsPlus();
    FormEncoding.ComponentAppend(a, " ");
    FormEncoding.ComponentAppend(a + " ", b);
  }

  /** Two pairs are joined by one `&`. */
  lemma TwoPairs(a: (string, string), b: (string, string))
    ensures FormEncoding.EncodeForm([a, b]) == FormEncoding.EncodePair(a) + "&" + FormEncoding.EncodePair(b)
  {
    var parts := FormEncoding.EncodePairs([a, b]);
    assert parts == [FormEncoding.EncodePair(a), FormEncoding.EncodePair(b)];
    assert parts[1..] == [FormEncoding.EncodePair(b)];
    assert Join(parts, '&') == parts[0] + ['&'] + parts[1];
  }

  /** A pair of plain words encodes verbatim around `=`. */
  lemma PlainPair(k: string, v: string)
    requires IsPlainWord(k) && IsPlainWord(v)
    ensures FormEncoding.EncodePair((k, v)) == k + "=" + v
  {
    FormEncoding.UnreservedKept(k);
    FormEncoding.UnreservedKept(v);
  }

  /** The shape of `{foo: "a b", bar: 99}`: a name with a spaced value, then a plain pair, encode
      as `foo=a+b&bar=99` does. */
  lemma SampleQuery(k1: string, a: string, b: string, k2: string, v2: string)
    requires IsPlainWord(k1) && IsPlainWord(a) && IsPlainWord(b)
    requires IsPlainWord(k2) && IsPlainWord(v2)
    ensures FormEncoding.EncodeForm([(k1, a + " " + b), (k2, v2)]) ==
      k1 + "=" + (a + "+" + b) + "&" + (k2 + "=" + v2)
  {
    assert FormEncoding.EncodePair((k1, a + " " + b)) == k1 + "=" + (a + "+" + b) by {
      FormEncoding.UnreservedKept(k1);
      SpacedWords(a, b);
    }
    PlainPair(k2, v2);
    TwoPairs((k1, a + " " + b), (k2, v2));
  }

  /** A first character other than `h` or `H` rules out a scheme. */
  lemma NoSchemeAtStart(s: string)
    requires s != [] && s[0] != 'h' && s[0] != 'H'
    ensures !HasScheme(s)
  {
    assert !SameIgnoringCase(s[0], "http://"[0]);
  }

  /** A shop name such as `foo`: it has no dot, and its first character is not `h` or `H`, which
      rules out a scheme. Names that start with `h`, such as `hats`, are not covered here. */
  predicate IsBareName(s: string) {
    s != [] && s[0] != 'h' && s[0] != 'H' && '.' !in s
  }

  /** Without a dot a name matches neither the storefront pattern nor the admin suffix. */
  lemma NoDotNoSuffix(s: string)
    requires '.' !in s
    ensures !StoreLinks.MatchesTldPattern(s)
    ensures !EndsWith(s, TopLevelDomain)
  {
    if |TopLevelDomain| <= |s| {
      var k := |s| - |TopLevelDomain|;
      assert s[k] in s;
      assert s[k..][0] == s[k] != TopLevelDomain[0];
    }
  }

  /** `ShopifyURL::Store.new("foo")` is `https://foo.myshopify.com`. */
  lemma BareStoreHost(shop: string)
    requires IsBareName(shop)
    ensures StoreLinks.StoreHostOf(shop) == "https://" + shop + ".myshopify.com"
  {
    NoSchemeAtStart(shop);
    NoDotNoSuffix(shop);
    StoreLinks.BareShopName(shop);
  }

  /** `ShopifyURL::Admin.new("foo")` is `https://foo.myshopify.com/admin`. */
  lemma BareAdminHost(shop: string)
    requires IsBareName(shop)
    ensures AdminLinks.AdminHostOf(shop) == "https://" + shop + ".myshopify.com/admin"
  {
    NoSchemeAtStart(shop);
    NoDotNoSuffix(shop);
    AdminLinks.ShopWithoutSuffix(shop);
  }

  /** `ShopifyURL::Store.new("example.com")` is `https://example.com`: a `.com` domain keeps its
      name and only gains the scheme. */
  lemma ComDomainStoreHost(name: string)
    requires name != [] && name[0] != 'h' && name[0] != 'H'
    ensures StoreLinks.StoreHostOf(name + ".com") == "https://" + name + ".com"
  {
    var s := name + ".com";
    NoSchemeAtStart(s);
    var i := |name|;
    assert s[i] == '.' && forall j | i < j < |s| :: StoreLinks.IsLabelChar(s[j]);
    StoreLinks.DottedShopName(s);
  }

  /** `products(params)` on any host: the host, `/products`, `?` and the form encoding. */
  lemma ProductsWithParams(h: string, ps: Params)
    ensures Url(h, ["products"], Q(Some(ps))) == h + "/products" + "?" + FormEncoding.EncodeForm(ps)
  {
    var qs := FormEncoding.EncodeForm(ps);
    var query := Q(Some(ps));
    assert QueryPart(query) == "?" + qs;
    OneSegment(h, "/products", "products", query);
    SeqAssoc(h + "/products", "?", qs);
  }

  /** `ShopifyURL::Store.new("foo").products(params)` is `https://foo.myshopify.com/products?`
      followed by the form encoding of the parameters. */
  lemma BareShopProducts(shop: string, ps: Params)
    requires IsBareName(shop)
    ensures var h := StoreLinks.StoreHostOf(shop);
      h == "https://" + shop + ".myshopify.com" &&
      Url(h, ["products"], Q(Some(ps))) == h + "/products" + "?" + FormEncoding.EncodeForm(ps)
  {
    BareStoreHost(shop);
    ProductsWithParams(StoreLinks.StoreHostOf(shop), ps);
  }
}
