# ShopifyURL in Dafny

A model of `ShopifyURL`, a small Ruby library that builds URLs for a Shopify shop. It has two builders:

- **Store** builds storefront URLs: collections, products, pages, blogs and blog entries.
- **Admin** builds admin URLs: customers, orders, draft orders, products and the resources chained below them.

Both builders share a base, the **Linker**. It does three things:

- it rejects a blank shop name;
- it puts `https://` in front unless the shop already starts with `http://` or `https://` (in any letter case);
- it turns optional query parameters into a query string with `URI.encode_www_form`.

The two builders then differ in how they complete the host:

- The storefront host gains `.myshopify.com` unless it already ends in a dot followed by lower-case letters, digits or `-`.
- The admin host gains `.myshopify.com` unless it already ends in exactly that suffix. It then always gains `/admin`.

Every URL has the shape *root*, then `/segment` for each path segment, then `?query` when there is a query string. The modules follow that structure:

- `Text`: Ruby's `strip`/`empty?` and splitting and joining on a separator.
- `Utf8`: the UTF-8 encoding of characters.
- `FormEncoding`: the encoding of `URI.encode_www_form`. A reference decoder gives it a partner for round-trip lemmas.
- `Paths`: the URL shape and its inverse `Split`. Chaining lemmas show that appending segments to a URL gives the URL of all the segments. When the URL already holds a query string, the new segments end up inside that query string instead.
- `Linker`: the blank check, the scheme rule and `q`.
- `StoreLinks`: the storefront host rule, and the storefront URL classes and builder methods.
- `AdminLinks`: the admin host rule, and the admin URL classes, builder methods and chained resources.
- `Examples`: the library's usage examples, stated for every input of their kind.

How Ruby's forms map to Dafny:

- `Store` and `Admin` are classes with a constant `host`. A static `New` returns the `shop required` error, or a fresh builder.
- The builder methods that validate an argument return `Result` values that carry the `id required` and `category required` errors.
- `Store::Blogs` is a class with a mutable `url`, because `entry` appends to the blog URL in place and returns the same object.
- The other URL classes are `String` subclasses whose chained methods build a new string with `self + ...`. They are datatypes whose member functions return new values.

Two behaviours of the code a reader may not expect:

- The admin builder tests for the literal suffix `.myshopify.com` (`end_with?`), not the storefront's pattern. `AdminLinks.HostRulesCompared` states exactly when the two rules give different hosts: on `example.com`, for instance.
- The builder methods use `q`, which yields the empty string for an empty parameter list. So `products({})` ends in a bare `?`. The chained methods (`entry`, `variants`, `new`, `duplicate`) append a query only for a non-empty list. `Linker.EmptyParamsDiffer` records the difference.

## Model

| member | source | states |
|---|---|---|
| Text.TrimStartEmpty | lib/shopify_url.rb:32-34 | stripping leading blanks leaves nothing exactly when every character is a blank |
| Text.TrimEndEmpty | lib/shopify_url.rb:32-34 | stripping trailing blanks leaves nothing exactly when every character is a blank |
| Text.TrimStartShape | lib/shopify_url.rb:32-34 | what `lstrip` leaves never starts with a blank |
| Text.TrimEndKeepsFront | lib/shopify_url.rb:32-34 | `rstrip` of a string that does not start with a blank keeps its first character |
| Text.StripEmptyIffAllStripped | lib/shopify_url.rb:32-34 | `s.strip.empty?` holds exactly when every character of `s` is whitespace or NUL |
| Text.IndexOf | lib/shopify_url.rb:38 | the first position of a character, or the length when it is absent; nothing before it is that character |
| Text.SplitOn | lib/shopify_url.rb:38 | splitting on a separator gives at least one part, and no part holds the separator |
| Text.SplitJoin | lib/shopify_url.rb:38 | splitting a join of separator-free parts gives the parts back |
| Text.JoinSplit | lib/shopify_url.rb:38 | joining the parts of a split gives the string back |
| Text.JoinAppend | lib/shopify_url.rb:38 | joining two lists is joining each and putting one separator between them |
| Text.JoinAvoids | lib/shopify_url.rb:38 | a character absent from the parts and different from the separator is absent from the join |
| Text.SplitOnCons | lib/shopify_url.rb:38 | a separator-free head followed by the separator splits off as the first part |
| Utf8.EncodeChar | lib/shopify_url.rb:38 | a character encodes to 1 to 4 bytes, exactly one byte for ASCII and that byte is the code, and every byte after the first is a continuation byte |
| Utf8.EncodeAppend | lib/shopify_url.rb:38 | the encoding of a concatenation is the concatenation of the encodings |
| Utf8.DecodeChar | lib/shopify_url.rb:38 | a successful decoding step consumes between 1 byte and all of the input |
| Utf8.DecodeEncodeChar | lib/shopify_url.rb:38 | decoding the encoding of a character gives the character and its byte length back, whatever follows |
| Utf8.EncodeDecodeChar | lib/shopify_url.rb:38 | re-encoding a decoded character gives exactly the bytes consumed |
| Utf8.EncodeTwo | lib/shopify_url.rb:38 | a code point from 0x80 up to 0x7FF is written as a lead byte `110xxxxx` and one continuation byte carrying its bits |
| Utf8.EncodeThree | lib/shopify_url.rb:38 | a scalar from 0x800 up to 0xFFFF is written as a lead byte `1110xxxx` and two continuation bytes carrying its bits |
| Utf8.EncodeFour | lib/shopify_url.rb:38 | a code point from 0x10000 up to 0x10FFFF is written as a lead byte `11110xxx` and three continuation bytes carrying its bits |
| Utf8.DecodeStep | lib/shopify_url.rb:38 | a well-formed sequence is the bytes of its first character followed by a well-formed rest, and decodes to that character followed by the rest's decoding |
| Utf8.DecodeEncode | lib/shopify_url.rb:38 | decoding the encoding of any string gives the string back |
| Utf8.EncodeDecode | lib/shopify_url.rb:38 | re-encoding any decodable byte sequence gives the bytes back |
| FormEncoding.HexDigit | lib/shopify_url.rb:38 | the digit of a value below 16 is `0`-`9` or an upper-case `A`-`F`, as in `%02X`, and reads back as that value |
| FormEncoding.EncodeByte | lib/shopify_url.rb:38 | a kept byte (`*-._`, ASCII letters and digits) becomes its own character, a space becomes `+`, and any other byte becomes `%` and two upper-case hex digits whose value is the byte |
| FormEncoding.EncodeBytes | lib/shopify_url.rb:38 | the encoding of bytes uses only the characters the encoding may emit |
| FormEncoding.EncodeComponent | lib/shopify_url.rb:38 | an encoded name or value never holds `&` or `=` |
| FormEncoding.EncodePair | lib/shopify_url.rb:38 | an encoded `name=value` pair never holds `&` |
| FormEncoding.EncodePairs | lib/shopify_url.rb:38 | one encoded pair per parameter, in order |
| FormEncoding.EncodeBytesAppend | lib/shopify_url.rb:38 | encoding distributes over concatenation of bytes |
| FormEncoding.ComponentAppend | lib/shopify_url.rb:38 | encoding distributes over concatenation of strings |
| FormEncoding.UnreservedKept | lib/shopify_url.rb:38 | letters, digits and `*-._` are kept verbatim |
| FormEncoding.SpaceIsPlus | lib/shopify_url.rb:38 | a space encodes as `+` |
| FormEncoding.DecodeEncodeByte | lib/shopify_url.rb:38 | the encoding of a byte decodes back to that byte, whatever follows |
| FormEncoding.DecodeEncodeBytes | lib/shopify_url.rb:38 | the encoding of any byte sequence decodes back to it |
| FormEncoding.DecodeEncodeComponent | lib/shopify_url.rb:38 | any encoded name or value decodes back to the original string |
| FormEncoding.DecodeEncodePair | lib/shopify_url.rb:38 | any encoded pair decodes back to the pair |
| FormEncoding.DecodeEncodePairs | lib/shopify_url.rb:38 | any list of encoded pairs decodes back to the list |
| FormEncoding.DecodeEncodeForm | lib/shopify_url.rb:38 | every query string built from a parameter list decodes back to that list, so different lists give different query strings |
| FormEncoding.EncodeForm | lib/shopify_url.rb:38 | `URI.encode_www_form`: the query string is empty exactly for the empty list, and otherwise splits at `&` into exactly the encoded pairs, in order |
| Paths.AppendQuery | lib/shopify_url.rb:47 | the step `<< "?" << qs if qs` leaves the URL alone without a query string and appends `?` and the string otherwise |
| Paths.SplitUrl | lib/shopify_url.rb:44-48 | the segments and the query string of a URL read back from it when no segment holds `/` or `?` |
| Paths.UrlSplit | lib/shopify_url.rb:44-48 | every URL that reads back is rebuilt exactly from what was read |
| Paths.PathOfSplit | lib/shopify_url.rb:44-48 | the path that is read back is the path of the segments returned |
| Paths.RestOfSplit | lib/shopify_url.rb:44-48 | the text after the root is the path followed by the query part returned |
| Paths.NoQueryNoMark | lib/shopify_url.rb:44-48 | a URL without a query string has no `?` beyond its root and segments |
| Paths.PathAppend | lib/shopify_url.rb:127 | the path of two lists of segments is their two paths one after the other |
| Paths.ExtendUrl | lib/shopify_url.rb:127 | appending segments to a URL without a query gives the URL of all the segments |
| Paths.ExtendQueriedUrl | lib/shopify_url.rb:73-74 | appending segments to a URL that has a query string leaves the path as it was and puts the segments inside the query string |
| Paths.ExtendQueriedSegment | lib/shopify_url.rb:127 | the same for one segment written as the code writes it |
| Paths.ExtendAndSplit | lib/shopify_url.rb:145-147 | a chained URL equals the URL of all the segments and reads back as them |
| Linker.RequireId | lib/shopify_url.rb:27-30 | `id_required!` fails exactly for a blank id, with the error `id required` |
| Linker.Empty | lib/shopify_url.rb:32-34 | `empty?(s)` holds exactly when every character of `s` is one that `strip` removes |
| Linker.HasScheme | lib/shopify_url.rb:13 | the case-insensitive `\Ahttps?://` holds exactly when the ASCII-downcased first seven characters are `http://` or the first eight are `https://` |
| Linker.SchemeKeptByAppend | lib/shopify_url.rb:82 | appending a suffix to a host with a scheme keeps the scheme |
| Linker.WithScheme | lib/shopify_url.rb:12-13 | the result always has a scheme and ends with the shop text, and it is the shop unchanged exactly when the shop already has a scheme, otherwise `https://` + shop |
| Linker.Q | lib/shopify_url.rb:36-39 | no query string exactly without parameters, and the empty string exactly for an empty list |
| Linker.QDecodes | lib/shopify_url.rb:36-39 | the query string of `q` decodes back to the parameters |
| Linker.ChainQuery | lib/shopify_url.rb:74 | a chained method appends a query only for a non-empty parameter list, and then never an empty one |
| Linker.ChainQueryDecodes | lib/shopify_url.rb:74 | the chained query string decodes back to the parameters |
| Linker.EmptyParamsDiffer | lib/shopify_url.rb:36-39 | an empty parameter list gives `?` with nothing after it on builder methods and no `?` at all on chained methods |
| StoreLinks.TrailingLabelRun | lib/shopify_url.rb:82 | the longest run of characters from `[-0-9a-z]` at the end of the host |
| StoreLinks.TrailingRunIsPattern | lib/shopify_url.rb:82 | a dot right before a non-empty trailing run of `[-0-9a-z]` is exactly the pattern `\.[-0-9a-z]+\z` |
| StoreLinks.HasTldSuffix | lib/shopify_url.rb:82 | the test `@host =~ %r{\.[-0-9a-z]+\z}` holds exactly when the pattern matches |
| StoreLinks.SuffixMatchesPattern | lib/shopify_url.rb:82 | a host ending in `.myshopify.com` matches the pattern |
| StoreLinks.StoreHostOf | lib/shopify_url.rb:79-84 | the storefront host always has a scheme and matches the pattern, and it gains `.myshopify.com` exactly when the schemed shop does not already match |
| StoreLinks.NormalizeStore | lib/shopify_url.rb:9-14 | `Store.new` fails with `shop required` exactly for a blank shop, otherwise it gives the host |
| StoreLinks.SchemeNotBlank | lib/shopify_url.rb:32-34 | a host with a scheme is never blank |
| StoreLinks.StoreHostIdempotent | lib/shopify_url.rb:79-84 | building a store from a store's host gives the same host |
| StoreLinks.BareShopName | lib/shopify_url.rb:82 | a shop without a scheme or a dotted suffix becomes `https://<shop>.myshopify.com` |
| StoreLinks.DottedShopName | lib/shopify_url.rb:82 | a domain without a scheme that matches the pattern only gains `https://` |
| StoreLinks.SchemeKept | lib/shopify_url.rb:13 | a shop that has a scheme is kept verbatim at the front of the host |
| StoreLinks.UpperCaseEndGetsSuffix | lib/shopify_url.rb:82 | the pattern is case-sensitive, so a domain ending in an upper-case letter gains the suffix |
| StoreLinks.NewCollections | lib/shopify_url.rb:44-48 | `/collections`, then `/id` when given, then the query part |
| StoreLinks.NewProducts | lib/shopify_url.rb:52-55 | `/products`, then the query part |
| StoreLinks.NewProduct | lib/shopify_url.rb:59-62 | `/products/id`, then the query part |
| StoreLinks.BlogsUrl.constructor | lib/shopify_url.rb:66-70 | `/blogs/category`, then the query part |
| StoreLinks.BlogsUrl.Entry | lib/shopify_url.rb:72-76 | appends `/name` and the chained query to this same blog URL and returns the object itself |
| StoreLinks.Store.constructor | lib/shopify_url.rb:79-84 | the host is the storefront host of the shop |
| StoreLinks.Store.New | lib/shopify_url.rb:9-10 | fails with `shop required` exactly for a blank shop, otherwise a fresh store with the storefront host |
| StoreLinks.Store.ToS | lib/shopify_url.rb:16-18 | `to_s` is the storefront host of the shop: it has a scheme, matches the pattern, and `Store.new` on it gives the same host |
| StoreLinks.Store.Collection | lib/shopify_url.rb:86-89 | `id required` exactly for a blank id, otherwise `/collections/id` with the query part |
| StoreLinks.Store.Collections | lib/shopify_url.rb:91-93 | `/collections` with the query part |
| StoreLinks.Store.Product | lib/shopify_url.rb:95-98 | `id required` exactly for a blank id, otherwise `/products/id` with the query part |
| StoreLinks.Store.Products | lib/shopify_url.rb:100-102 | `/products` with the query part |
| StoreLinks.Store.Page | lib/shopify_url.rb:104-108 | `/pages/id` with the query part, for every id, blank or not |
| StoreLinks.Store.Blogs | lib/shopify_url.rb:110-113 | `category required` exactly for a blank category, otherwise a fresh blog URL `/blogs/category` with the query part |
| StoreLinks.EntryOnPlainBlog | lib/shopify_url.rb:72-76 | an entry on a blog without a query is the URL `blogs/category/name` for any category and name, and reads back as it when neither holds `/` or `?` |
| StoreLinks.EntryOnQueriedBlog | lib/shopify_url.rb:72-76 | an entry on a blog that has a query string lands inside that query string |
| AdminLinks.AdminHostOf | lib/shopify_url.rb:191-196 | the admin host always has a scheme and ends in `.myshopify.com/admin`, and it gains the suffix exactly when the schemed shop does not already end in it |
| AdminLinks.NormalizeAdmin | lib/shopify_url.rb:9-14 | `Admin.new` fails with `shop required` exactly for a blank shop, otherwise it gives the admin host |
| AdminLinks.HostRulesCompared | lib/shopify_url.rb:82 | the admin host is the storefront host plus `/admin` exactly when the schemed shop ends in `.myshopify.com` or does not match the storefront pattern; on other domains it gains an extra suffix |
| AdminLinks.AdminHostNotIdempotent | lib/shopify_url.rb:191-196 | building an admin from an admin's host appends `.myshopify.com/admin` a second time |
| AdminLinks.ShopWithoutSuffix | lib/shopify_url.rb:193-194 | a shop without a scheme or the suffix becomes `https://<shop>.myshopify.com/admin` |
| AdminLinks.SchemeKeepsNoSuffix | lib/shopify_url.rb:193 | putting `https://` in front of a shop does not create the `.myshopify.com` suffix |
| AdminLinks.ShopWithSuffix | lib/shopify_url.rb:193-194 | a shop without a scheme that already ends in the suffix only gains `https://` and `/admin` |
| AdminLinks.Products.Inventory | lib/shopify_url.rb:126-128 | the URL one segment `inventory` below, without a query |
| AdminLinks.Product.Variants | lib/shopify_url.rb:132-136 | the URL `variants/id` below, with the chained query |
| AdminLinks.Order.ShippingLabels | lib/shopify_url.rb:145-147 | a shipping-label URL one segment `shipping_labels` below |
| AdminLinks.ShippingLabel.New | lib/shopify_url.rb:158-162 | the URL `new` below, with the chained query |
| AdminLinks.DraftOrder.Duplicate | lib/shopify_url.rb:171-175 | the URL `duplicate` below, with the chained query |
| AdminLinks.DraftOrders.New | lib/shopify_url.rb:184-188 | the URL `new` below, with the chained query |
| AdminLinks.NewCustomers | lib/shopify_url.rb:118-122 | `/customers`, then `/id` when given, then the query part |
| AdminLinks.NewOrder | lib/shopify_url.rb:140-143 | `/orders/id`, then the query part |
| AdminLinks.NewOrders | lib/shopify_url.rb:151-154 | `/orders`, then the query part |
| AdminLinks.NewDraftOrder | lib/shopify_url.rb:166-169 | `/draft_orders/id`, then the query part |
| AdminLinks.NewDraftOrders | lib/shopify_url.rb:179-182 | `/draft_orders`, then the query part |
| AdminLinks.Admin.constructor | lib/shopify_url.rb:191-196 | the host is the admin host of the shop |
| AdminLinks.Admin.New | lib/shopify_url.rb:9-10 | fails with `shop required` exactly for a blank shop, otherwise a fresh admin with the admin host |
| AdminLinks.Admin.ToS | lib/shopify_url.rb:16-18 | `to_s` is the admin host of the shop: it has a scheme and ends in `.myshopify.com/admin`, and `Admin.new` on it appends that suffix a second time |
| AdminLinks.Admin.Customer | lib/shopify_url.rb:198-201 | `id required` exactly for a blank id, otherwise `/customers/id` with the query part |
| AdminLinks.Admin.Customers | lib/shopify_url.rb:203-205 | `/customers` with the query part |
| AdminLinks.Admin.DraftOrdersOf | lib/shopify_url.rb:207-209 | `/draft_orders` with the query part |
| AdminLinks.Admin.DraftOrderOf | lib/shopify_url.rb:211-214 | `id required` exactly for a blank id, otherwise `/draft_orders/id` with the query part |
| AdminLinks.Admin.OrderOf | lib/shopify_url.rb:216-219 | `id required` exactly for a blank id, otherwise `/orders/id` with the query part |
| AdminLinks.Admin.Orders | lib/shopify_url.rb:221-223 | `/orders` with the query part |
| AdminLinks.Admin.ProductOf | lib/shopify_url.rb:225-228 | `id required` exactly for a blank id, otherwise `/products/id` with the query part |
| AdminLinks.Admin.ProductsOf | lib/shopify_url.rb:230-232 | `/products` with the query part |
| AdminLinks.ShippingLabelsUrl | lib/shopify_url.rb:145-147 | `order(id).shipping_labels` is the URL `orders/id/shipping_labels` |
| AdminLinks.NewShippingLabelUrl | spec/shopify_url_admin_spec.rb:61-64 | `order(id).shipping_labels.new(params)` is `orders/id/shipping_labels/new` with the chained query for every id, and reads back as it when the id holds neither `/` nor `?` |
| AdminLinks.DuplicateDraftOrderUrl | spec/shopify_url_admin_spec.rb:85-88 | `draft_order(id).duplicate(params)` is `draft_orders/id/duplicate` with the chained query for every id, and reads back as it when the id holds neither `/` nor `?` |
| AdminLinks.NewDraftOrderUrl | spec/shopify_url_admin_spec.rb:74-77 | `draft_orders.new(params)` is `draft_orders/new` with the chained query, and reads back as it |
| AdminLinks.VariantUrl | spec/shopify_url_admin_spec.rb:104-107 | `product(id).variants(v, params)` is `products/id/variants/v` with the chained query for any ids, and reads back as it when neither id holds `/` or `?` |
| AdminLinks.InventoryUrl | lib/shopify_url.rb:126-128 | `products.inventory` is the URL of the segments `products/inventory`, with no query string |
| AdminLinks.InventoryOnQueried | lib/shopify_url.rb:126-128 | on a products URL with a query string, `/inventory` lands inside the query string |
| AdminLinks.UnescapedProductUrl | lib/shopify_url.rb:59-61 | the product id is appended to `/products/` without escaping: product `a/variants/b` is the text `/products/a/variants/b` on the host |
| AdminLinks.UnescapedIdCollides | lib/shopify_url.rb:132-135 | the variant id is appended to `/variants/` as it is, so `variants(b)` on product `a` gives the same URL as product `a/variants/b` |
| Examples.SpacedWords | spec/shopify_url_admin_spec.rb:38 | two words with a space between them encode as the words joined by `+` |
| Examples.TwoPairs | spec/shopify_url_admin_spec.rb:38 | two parameters are joined by one `&` |
| Examples.PlainPair | spec/shopify_url_admin_spec.rb:38 | a pair of plain words encodes verbatim around `=` |
| Examples.SampleQuery | spec/shopify_url_admin_spec.rb:38 | parameters shaped like `foo: "a b", bar: 99` encode as `foo=a+b&bar=99` |
| Examples.BareStoreHost | lib/shopify_url.rb:79-84 | a bare shop name such as `foo` becomes `https://foo.myshopify.com` |
| Examples.BareAdminHost | spec/shopify_url_admin_spec.rb:29-32 | a bare shop name such as `foo` becomes `https://foo.myshopify.com/admin` |
| Examples.ComDomainStoreHost | lib/shopify_url.rb:82 | a `.com` domain such as `example.com` only gains `https://` |
| Examples.ProductsWithParams | lib/shopify_url.rb:100-102 | `products(params)` is the host, `/products`, `?` and the encoded parameters |
| Examples.BareShopProducts | lib/shopify_url.rb:100-102 | `products(params)` on a bare shop is `https://<shop>.myshopify.com/products?` and the encoded parameters |

## Left out

- Ruby's typing is not modelled: `to_s` duck typing, the URL classes being `String` subclasses, `alias to_str`/`inspect`, and `freeze`. Ids, categories and names are strings; a `nil` shop or id is the empty string, which is what `nil.to_s` gives.
- `Store#collection` hands its id to `Collections`, which appends it with `<<` and no `to_s` (lib/shopify_url.rb:46). With an Integer id, Ruby appends the character with that code point, not the digits. The model takes every id as a string.
- `page(id, query)` raises a `TypeError` in Ruby when `query` is given but `q` returns `nil`. That happens only for a non-nil `query` without `to_a`, which parameter lists always have.
- `q` accepts any object that responds to `to_a`. Parameters are modelled as a list of string pairs.
- `URI.encode_www_form` also accepts `nil` values (`name` without `=`) and array values (one pair per element). Neither is modelled.
- The error classes (`ArgumentError` for shops and ids, `RuntimeError` for categories) and the `caller` backtrace of `id_required!` are not modelled. The errors are values of one `Error` datatype with their messages.
- `VERSION` is not modelled.
- The `i` flag of the scheme pattern is modelled as ASCII case-insensitivity only. Ruby's Unicode case folding of the pattern is not modelled.
- In Ruby the chained methods (`inventory`, `variants`, `shipping_labels`, `new`, `duplicate`) exist only on instances of the URL subclasses. The model's datatypes (`AdminLinks.Products(u)`, `AdminLinks.Product(u)`, …) stand for such an instance whose text is `u`, and can be built from any string. Ruby constructs most of them through an initialiser that appends a segment: `Admin::Products.new(h)` is the text `h/products`, which the model writes `Products(Url(h, ["products"], None))`. Only `Admin::ShippingLabel` has no initialiser of its own (lib/shopify_url.rb:157-163), so `Admin::ShippingLabel.new(s)` keeps `s` as it is and corresponds to `AdminLinks.ShippingLabel(s)`. Neither Ruby nor the model checks that the text came from a builder.
- `FormEncoding.DecodeForm` is a reference decoder that exists only to state round trips. It is not Ruby's `URI.decode_www_form`.
- `Paths.Split` is likewise a reference reader of URLs, not part of the library.
