/** What Store and Admin share (the Ruby base class `Linker`): the fixed constants, the blank
    test on shops, ids and categories, the scheme rule applied to a shop, and `q`, which turns
    optional query parameters into an optional query string. */
module Linker {
  import opened Wrappers
  import opened Text
  import FormEncoding

  type Params = FormEncoding.Params

  /** The suffix that turns a shop name into a host. */
  const TopLevelDomain: string := ".myshopify.com"

  /** The scheme put in front of a shop that has none. */
  const DefaultScheme: string := "https://"

  /** The errors the library raises, each with its fixed message. */
  datatype Error = ShopRequired | IdRequired | CategoryRequired {
    function Message(): string {
      match this
      case ShopRequired => "shop required"
      case IdRequired => "id required"
      case CategoryRequired => "category required"
    }
  }

  /** `empty?(s)`: `s.to_s.strip.empty?`, which holds exactly when every character is one that
      `strip` removes. */
  function Empty(s: string): (b: bool)
    ensures b <==> AllStripped(s)
  {
    StripEmptyIffAllStripped(s);
    Strip(s) == ""
  }

  /** `id_required!(id)`: the error raised for an id that is blank, and nothing otherwise. */
  function RequireId(id: string): (r: Option<Error>)
    ensures r.Some? <==> AllStripped(id)
    ensures r.Some? ==> r.value == IdRequired && r.value.Message() == "id required"
  {
    StripEmptyIffAllStripped(id);
    if Strip(id) == "" then Some(IdRequired) else None
  }

  /** `c` equals the lower-case pattern character `p` when ASCII letter case is ignored. */
  predicate SameIgnoringCase(c: char, p: char) {
    c == p || ('a' <= p <= 'z' && c as int == p as int - 32)
  }

  /** `s` starts with the lower-case pattern `p`, ignoring ASCII letter case. */
  predicate StartsWithIgnoringCase(s: string, p: string) {
    |p| <= |s| && forall i | 0 <= i < |p| :: SameIgnoringCase(s[i], p[i])
  }

  /** ASCII downcasing of one character. */
  function Downcase(c: char): char {
    if 'A' <= c <= 'Z' then (c as int + 32) as char else c
  }

  /** ASCII downcasing of a string. */
  function DowncaseAll(s: string): (r: string)
    ensures |r| == |s|
    ensures forall i | 0 <= i < |s| :: r[i] == Downcase(s[i])
  {
    seq(|s|, i requires 0 <= i < |s| => Downcase(s[i]))
  }

  /** Ignoring case against a pattern character that is not an upper-case letter is comparing the
      downcased character. */
  lemma SameIgnoringCaseIsDowncase(c: char, p: char)
    requires !('A' <= p <= 'Z')
    ensures SameIgnoringCase(c, p) <==> Downcase(c) == p
  {
  }

  /** Ignoring case against a pattern without upper-case letters is comparing the downcased prefix. */
  lemma StartsWithIgnoringCaseIsDowncase(s: string, p: string)
    requires forall i | 0 <= i < |p| :: !('A' <= p[i] <= 'Z')
    ensures StartsWithIgnoringCase(s, p) <==> |p| <= |s| && DowncaseAll(s[..|p|]) == p
  {
    if |p| <= |s| {
      forall i | 0 <= i < |p|
        ensures SameIgnoringCase(s[i], p[i]) <==> DowncaseAll(s[..|p|])[i] == p[i]
      {
        SameIgnoringCaseIsDowncase(s[i], p[i]);
      }
    }
  }

  /** The pattern `\Ahttps?://` with the `i` flag: `http://` or `https://` at the very start, in
      any letter case; that is, the downcased first seven or eight characters spell one of them. */
  function HasScheme(s: string): (b: bool)
    ensures b <==> (7 <= |s| && DowncaseAll(s[..7]) == "http://") ||
                   (8 <= |s| && DowncaseAll(s[..8]) == "https://")
  {
    StartsWithIgnoringCaseIsDowncase(s, "http://");
    StartsWithIgnoringCaseIsDowncase(s, "https://");
    StartsWithIgnoringCase(s, "http://") || StartsWithIgnoringCase(s, "https://")
  }

  /** Appending text keeps a scheme at the front. */
  lemma SchemeKeptByAppend(w: string, e: string)
    requires HasScheme(w)
    ensures HasScheme(w + e)
  {
    assert forall i | 0 <= i < |w| :: (w + e)[i] == w[i];
    assert StartsWithIgnoringCase(w, "http://") ==> StartsWithIgnoringCase(w + e, "http://");
    assert StartsWithIgnoringCase(w, "https://") ==> StartsWithIgnoringCase(w + e, "https://");
  }

  /** The first step of every constructor: a copy of the shop, with `https://` in front unless it
      already starts with a scheme. The shop text itself is kept verbatim at the end. */
  function WithScheme(shop: string): (h: string)
    ensures HasScheme(h)
    ensures EndsWith(h, shop)
    ensures h == shop <==> HasScheme(shop)
    ensures h == shop || h == DefaultScheme + shop
  {
    if HasScheme(shop) then shop
    else
      assert StartsWithIgnoringCase(DefaultScheme + shop, "https://");
      DefaultScheme + shop
  }

  /** `q(params)` on the builder methods: no query string without parameters, otherwise their form
      encoding, which is the empty string exactly for an empty list. */
  function Q(params: Option<Params>): (qs: Option<string>)
    ensures qs.None? <==> params.None?
    ensures qs == Some("") <==> params == Some([])
  {
    match params
    case None => None
    case Some(ps) =>
      Some(FormEncoding.EncodeForm(ps))
  }

  /** The query string of a builder method gives its parameters back. */
  lemma QDecodes(params: Option<Params>)
    ensures Q(params).Some? ==> FormEncoding.DecodeForm(Q(params).value) == Some(params.value)
  {
    if params.Some? {
      FormEncoding.DecodeEncodeForm(params.value);
    }
  }

  /** The guard `params && params.any?` of the chained methods: a query string only for a non-empty
      list of parameters, and then a non-empty one. */
  function ChainQuery(params: Option<Params>): (qs: Option<string>)
    ensures qs.Some? <==> params.Some? && params.value != []
    ensures qs.Some? ==> qs.value != ""
  {
    if params.Some? && params.value != [] then
      Some(FormEncoding.EncodeForm(params.value))
    else None
  }

  /** The query string of a chained method gives its parameters back. */
  lemma ChainQueryDecodes(params: Option<Params>)
    ensures ChainQuery(params).Some? ==> FormEncoding.DecodeForm(ChainQuery(params).value) == Some(params.value)
  {
    if ChainQuery(params).Some? {
      FormEncoding.DecodeEncodeForm(params.value);
    }
  }

  /** The builder methods and the chained methods differ on an empty list of parameters: the first
      give an empty query string (a bare trailing `?`), the second none at all. */
  lemma EmptyParamsDiffer()
    ensures Q(Some([])) == Some("")
    ensures ChainQuery(Some([])) == None
  {
  }
}
