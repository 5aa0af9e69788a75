/** The shape of every URL the library builds: a root (a host, or an earlier URL that is being
    extended), then path segments each introduced by `/`, then optionally `?` and a query string.
    `Split` takes a URL apart again; the lemmas say when it gives back exactly what was composed. */
module Paths {
  import opened Wrappers
  import opened Text

  /** The path part: `/s1/s2/...`, empty for no segments. */
  function Path(segments: seq<string>): string {
    if segments == [] then "" else "/" + Join(segments, '/')
  }

  /** The query part: nothing without a query string, otherwise `?` and the string (possibly empty). */
  function QueryPart(query: Option<string>): string {
    if query.Some? then "?" + query.value else ""
  }

  /** The URL `root` + path + query. */
  function Url(root: string, segments: seq<string>, query: Option<string>): string {
    root + Path(segments) + QueryPart(query)
  }

  /** A URL with one segment, written as the code writes it: the root, then the piece `/a`, then
      the query part. */
  lemma OneSegment(root: string, piece: string, a: string, query: Option<string>)
    requires piece == "/" + a
    ensures Url(root, [a], query) == root + piece + QueryPart(query)
  {
  }

  /** A URL with two segments, written as `root + "/a/" + b` and the query part. */
  lemma TwoSegments(root: string, piece: string, a: string, b: string, query: Option<string>)
    requires piece == "/" + a + "/"
    ensures Url(root, [a, b], query) == root + piece + b + QueryPart(query)
  {
    calc {
      Path([a, b]);
      "/" + Join([a, b], '/');
      { assert [a, b][1..] == [b]; }
      "/" + ((a + "/") + b);
      { SeqAssoc("/", a + "/", b); }
      ("/" + (a + "/")) + b;
      { SeqAssoc("/", a, "/"); }
      piece + b;
    }
    SeqAssoc(root, piece + b, QueryPart(query));
  }

  /** A URL with two segments, written as `root + "/a"`, then `"/" + b`, then the query part. */
  lemma SegmentThenId(root: string, piece: string, a: string, b: string, query: Option<string>)
    requires piece == "/" + a
    ensures Url(root, [a, b], query) == root + piece + "/" + b + QueryPart(query)
  {
    TwoSegments(root, piece + "/", a, b, query);
    assert root + (piece + "/") == root + piece + "/";
  }

  /** The step `<< "?" << qs if qs` of every URL initialiser: `?` and the query string are appended
      when there is a query string, and nothing otherwise. */
  method AppendQuery(url: string, query: Option<string>) returns (r: string)
    ensures r == url + QueryPart(query)
    ensures query.None? ==> r == url
    ensures query.Some? ==> r == url + "?" + query.value
  {
    r := url;
    if query.Some? {
      r := r + "?" + query.value;
    }
  }

  /** A segment that can be read back from a path: it holds neither `/` nor `?`. */
  predicate IsPlainSegment(s: string) {
    '/' !in s && '?' !in s
  }

  predicate ArePlainSegments(segments: seq<string>) {
    forall k | 0 <= k < |segments| :: IsPlainSegment(segments[k])
  }

  /** Takes a URL below `root` apart into its path segments and its query string; None when `url`
      does not start with `root` or what follows `root` is neither a path nor a query. */
  function Split(root: string, url: string): Option<(seq<string>, Option<string>)> {
    if !StartsWith(url, root) then None
    else
      var rest := url[|root|..];
      var i := IndexOf(rest, '?');
      var path := rest[..i];
      var query := if i < |rest| then Some(rest[i + 1..]) else None;
      if path == "" then Some(([], query))
      else if path[0] != '/' then None
      else Some((SplitOn(path[1..], '/'), query))
  }

  lemma PathAvoids(segments: seq<string>, c: char)
    requires c != '/'
    requires forall k | 0 <= k < |segments| :: c !in segments[k]
    ensures c !in Path(segments)
  {
    if segments != [] {
      JoinAvoids(segments, '/', c);
    }
  }

  /** The URL's own path and query are recovered from it, so different segments or queries give
      different URLs below the same root. */
  lemma SplitUrl(root: string, segments: seq<string>, query: Option<string>)
    requires ArePlainSegments(segments)
    ensures Split(root, Url(root, segments, query)) == Some((segments, query))
  {
    var url := Url(root, segments, query);
    var p, qp := Path(segments), QueryPart(query);
    var rest := p + qp;
    assert url == root + rest by {
      SeqAssoc(root, p, qp);
    }
    assert StartsWith(url, root) && url[|root|..] == rest by {
      assert url[..|root|] == root;
    }
    assert IndexOf(rest, '?') == |p| by {
      PathAvoids(segments, '?');
      IndexOfAfter(p, '?', qp);
    }
    assert rest[..|p|] == p;
    QueryOfRest(p, query);
    if segments != [] {
      assert SplitOn(p[1..], '/') == segments by {
        SplitJoin(segments, '/');
        assert p[1..] == Join(segments, '/');
      }
    }
  }

  lemma QueryOfRest(p: string, query: Option<string>)
    ensures var rest := p + QueryPart(query);
      (if |p| < |rest| then Some(rest[|p| + 1..]) else None) == query
  {
    if query.Some? {
      assert (p + QueryPart(query))[|p| + 1..] == query.value;
    }
  }

  /** Every URL that Split accepts is the composition of what Split returns. */
  lemma UrlSplit(root: string, url: string)
    requires Split(root, url).Some?
    ensures var (segments, query) := Split(root, url).value; Url(root, segments, query) == url
  {
    var rest := url[|root|..];
    var i := IndexOf(rest, '?');
    var path := rest[..i];
    var query := if i < |rest| then Some(rest[i + 1..]) else None;
    var segments := if path == "" then [] else SplitOn(path[1..], '/');
    assert Split(root, url) == Some((segments, query));
    PathOfSplit(path);
    RestOfSplit(rest, i);
    calc {
      Url(root, segments, query);
      root + path + QueryPart(query);
      { SeqAssoc(root, path, QueryPart(query)); }
      root + rest;
      { assert url[..|root|] == root; }
      url;
    }
  }

  /** The path Split reads is the path of the segments it returns. */
  lemma PathOfSplit(path: string)
    requires path == "" || path[0] == '/'
    ensures Path(if path == "" then [] else SplitOn(path[1..], '/')) == path
  {
    if path != "" {
      JoinSplit(path[1..], '/');
      assert path == [path[0]] + path[1..];
    }
  }

  /** What follows the root is the path Split reads followed by the query part it returns. */
  lemma RestOfSplit(rest: string, i: nat)
    requires i <= |rest| && (i < |rest| ==> rest[i] == '?')
    ensures rest == rest[..i] + QueryPart(if i < |rest| then Some(rest[i + 1..]) else None)
  {
    if i < |rest| {
      var q := rest[i + 1..];
      calc {
        rest[..i] + QueryPart(Some(q));
        rest[..i] + ([rest[i]] + q);
        { assert [rest[i]] + q == rest[i..]; }
        rest[..i] + rest[i..];
        rest;
      }
    } else {
      assert rest == rest[..i];
    }
  }

  /** Without a query string, a URL has no `?` beyond those in its root and segments. */
  lemma NoQueryNoMark(root: string, segments: seq<string>)
    requires '?' !in root
    requires ArePlainSegments(segments)
    ensures '?' !in Url(root, segments, None)
  {
    PathAvoids(segments, '?');
  }

  /** The path of two lists of segments is the two paths one after the other. */
  lemma PathAppend(first: seq<string>, more: seq<string>)
    ensures Path(first + more) == Path(first) + Path(more)
  {
    if first == [] {
      assert first + more == more;
    } else if more == [] {
      assert first + more == first;
    } else {
      var all := first + more;
      var a, b := Join(first, '/'), Join(more, '/');
      JoinAppend(first, more, '/');
      assert all != [];
      calc {
        Path(all);
        "/" + Join(all, '/');
        "/" + (a + "/" + b);
        { SeqAssoc("/", a, "/" + b); }
        ("/" + a) + ("/" + b);
      }
    }
  }

  lemma SeqAssoc(x: string, y: string, z: string)
    ensures x + (y + z) == (x + y) + z
  {
  }

  /** A plain URL extended by more segments is the URL with all the segments: chaining onto a URL
      that has no query string only lengthens its path. */
  lemma ExtendUrl(root: string, first: seq<string>, more: seq<string>, query: Option<string>)
    ensures Url(Url(root, first, None), more, query) == Url(root, first + more, query)
  {
    var q := QueryPart(query);
    calc {
      Url(Url(root, first, None), more, query);
      (root + Path(first) + "") + Path(more) + q;
      { assert root + Path(first) + "" == root + Path(first); }
      (root + Path(first)) + Path(more) + q;
      { SeqAssoc(root, Path(first), Path(more)); }
      root + (Path(first) + Path(more)) + q;
      { PathAppend(first, more); }
      root + Path(first + more) + q;
    }
  }

  /** Extending a URL that already carries a query string leaves the new segments inside that
      query string: the URL keeps the old path and its query is the old one lengthened. */
  lemma ExtendQueriedUrl(root: string, segments: seq<string>, qs: string, more: seq<string>)
    requires ArePlainSegments(segments)
    requires more != []
    ensures Split(root, Url(Url(root, segments, Some(qs)), more, None)) ==
      Some((segments, Some(qs + Path(more))))
  {
    var p := Path(segments);
    calc {
      Url(Url(root, segments, Some(qs)), more, None);
      (root + p + ("?" + qs)) + Path(more) + "";
      { assert (root + p + ("?" + qs)) + Path(more) + "" == (root + p + ("?" + qs)) + Path(more); }
      (root + p + ("?" + qs)) + Path(more);
      { SeqAssoc(root + p, "?" + qs, Path(more)); }
      root + p + (("?" + qs) + Path(more));
      { SeqAssoc("?", qs, Path(more)); }
      Url(root, segments, Some(qs + Path(more)));
    }
    SplitUrl(root, segments, Some(qs + Path(more)));
  }

  /** ExtendQueriedUrl for one segment extended by one more, the piece `/more` written as the code
      writes it. */
  lemma ExtendQueriedSegment(root: string, segment: string, qs: string, piece: string, more: string)
    requires IsPlainSegment(segment)
    requires piece == "/" + more
    ensures Split(root, Url(Url(root, [segment], Some(qs)), [more], None)) ==
      Some(([segment], Some(qs + piece)))
  {
    ExtendQueriedUrl(root, [segment], qs, [more]);
    assert Path([more]) == piece;
  }

  /** Extending a plain URL and reading the result back: the chained URL is the URL of all the
      segments, and Split recovers them. */
  lemma ExtendAndSplit(root: string, first: seq<string>, more: seq<string>, all: seq<string>,
                       query: Option<string>)
    requires all == first + more
    requires ArePlainSegments(all)
    ensures Url(Url(root, first, None), more, query) == Url(root, all, query)
    ensures Split(root, Url(root, all, query)) == Some((all, query))
  {
    ExtendUrl(root, first, more, query);
    SplitUrl(root, all, query);
  }
}
