/** String helpers with the meaning the library relies on: Ruby's `strip`, the blank test built
    on it, prefix and suffix tests, and splitting a string on a separator character together with
    its inverse, joining. */
module Text {

  /** The characters Ruby's `String#strip` removes from either end: NUL, horizontal tab, line feed,
      vertical tab, form feed, carriage return and space. */
  predicate IsStripped(c: char) {
    c == '\0' || c == '\t' || c == '\n' || c == '\U{B}' || c == '\U{C}' || c == '\r' || c == ' '
  }

  /** Removes stripped characters from the front. */
  function TrimStart(s: string): string {
    if s != [] && IsStripped(s[0]) then TrimStart(s[1..]) else s
  }

  /** Removes stripped characters from the back. */
  function TrimEnd(s: string): string {
    if s != [] && IsStripped(s[|s| - 1]) then TrimEnd(s[..|s| - 1]) else s
  }

  /** Ruby's `String#strip`. */
  function Strip(s: string): string {
    TrimEnd(TrimStart(s))
  }

  /** Every character of `s` is one that `strip` removes. */
  predicate AllStripped(s: string) {
    forall i | 0 <= i < |s| :: IsStripped(s[i])
  }

  /** Trimming the front leaves nothing exactly when every character is stripped. */
  lemma {:induction false} TrimStartEmpty(s: string)
    ensures TrimStart(s) == [] <==> AllStripped(s)
  {
    if s != [] && IsStripped(s[0]) {
      TrimStartEmpty(s[1..]);
      assert AllStripped(s[1..]) ==> AllStripped(s) by {
        if AllStripped(s[1..]) {
          forall i | 0 <= i < |s| ensures IsStripped(s[i]) {
            if i > 0 { assert s[i] == s[1..][i - 1]; }
          }
        }
      }
    }
  }

  /** The front and the back of a trimmed string are not stripped characters. */
  lemma {:induction false} TrimStartShape(s: string)
    ensures TrimStart(s) != [] ==> !IsStripped(TrimStart(s)[0])
  {
    if s != [] && IsStripped(s[0]) {
      TrimStartShape(s[1..]);
    }
  }

  lemma {:induction false} TrimEndEmpty(s: string)
    ensures TrimEnd(s) == [] <==> AllStripped(s)
  {
    if s != [] && IsStripped(s[|s| - 1]) {
      var init := s[..|s| - 1];
      TrimEndEmpty(init);
      assert AllStripped(init) ==> AllStripped(s) by {
        if AllStripped(init) {
          forall i | 0 <= i < |s| ensures IsStripped(s[i]) {
            if i < |s| - 1 { assert s[i] == init[i]; }
          }
        }
      }
    }
  }

  /** TrimEnd never adds characters and keeps a non-stripped first character. */
  lemma {:induction false} TrimEndKeepsFront(s: string)
    requires s != [] && !IsStripped(s[0])
    ensures TrimEnd(s) != [] && TrimEnd(s)[0] == s[0]
  {
    if IsStripped(s[|s| - 1]) {
      TrimEndKeepsFront(s[..|s| - 1]);
    }
  }

  /** `s.strip.empty?` holds exactly when every character of `s` is whitespace or NUL. */
  lemma StripEmptyIffAllStripped(s: string)
    ensures Strip(s) == [] <==> AllStripped(s)
  {
    TrimStartEmpty(s);
    TrimStartShape(s);
    if TrimStart(s) != [] {
      TrimEndKeepsFront(TrimStart(s));
    }
  }

  /** `p` is a prefix of `s`. */
  predicate StartsWith(s: string, p: string) {
    |p| <= |s| && s[..|p|] == p
  }

  /** `t` is a suffix of `s` (Ruby's `end_with?`). */
  predicate EndsWith(s: string, t: string) {
    |t| <= |s| && s[|s| - |t|..] == t
  }

  /** A suffix stays a suffix when something is put in front. */
  lemma EndsWithPrefixed(p: string, s: string, t: string)
    requires EndsWith(s, t)
    ensures EndsWith(p + s, t)
  {
    assert (p + s)[|p + s| - |t|..] == s[|s| - |t|..];
  }

  /** The position of the first `c` in `s`, or `|s|` when there is none. */
  function IndexOf(s: string, c: char): (i: nat)
    ensures i <= |s|
    ensures i < |s| ==> s[i] == c
    ensures c !in s[..i]
  {
    if s == [] then 0
    else if s[0] == c then 0
    else
      var j := IndexOf(s[1..], c);
      assert s[..j + 1] == [s[0]] + s[1..][..j];
      j + 1
  }

  /** IndexOf finds the separator right after a prefix that does not contain it. */
  lemma IndexOfAfter(a: string, c: char, b: string)
    requires c !in a
    requires b == [] || b[0] == c
    ensures IndexOf(a + b, c) == |a|
  {
    var s := a + b;
    assert s[..|a|] == a;
  }

  /** Splits `s` at every `sep`: the pieces in order, never an empty list. */
  function SplitOn(s: string, sep: char): (parts: seq<string>)
    ensures |parts| >= 1
    ensures forall k | 0 <= k < |parts| :: sep !in parts[k]
    decreases |s|
  {
    var i := IndexOf(s, sep);
    if i == |s| then [s] else [s[..i]] + SplitOn(s[i + 1..], sep)
  }

  /** Concatenates `parts` with one `sep` between neighbours. */
  function Join(parts: seq<string>, sep: char): string {
    if |parts| == 0 then ""
    else if |parts| == 1 then parts[0]
    else parts[0] + [sep] + Join(parts[1..], sep)
  }

  /** Splitting a join recovers the pieces when no piece contains the separator. */
  lemma {:induction false} SplitJoin(parts: seq<string>, sep: char)
    requires |parts| >= 1
    requires forall k | 0 <= k < |parts| :: sep !in parts[k]
    ensures SplitOn(Join(parts, sep), sep) == parts
  {
    if |parts| == 1 {
      IndexOfAfter(parts[0], sep, []);
      assert parts[0] + [] == parts[0];
    } else {
      SplitOnCons(parts[0], sep, Join(parts[1..], sep));
      SplitJoin(parts[1..], sep);
      assert parts == [parts[0]] + parts[1..];
    }
  }

  /** Splitting a piece without the separator, the separator and a rest gives the piece in front
      of the pieces of the rest. */
  lemma SplitOnCons(head: string, sep: char, rest: string)
    requires sep !in head
    ensures SplitOn(head + [sep] + rest, sep) == [head] + SplitOn(rest, sep)
  {
    FirstSeparator(head, sep, rest);
  }

  /** In `head`, a separator not found in `head`, then `rest`: the first separator sits right after
      `head`, with `head` before it and `rest` after it. */
  lemma FirstSeparator(head: string, sep: char, rest: string)
    requires sep !in head
    ensures var s := head + [sep] + rest;
      IndexOf(s, sep) == |head| && s[..|head|] == head && s[|head| + 1..] == rest
  {
    var s := head + [sep] + rest;
    assert s == head + ([sep] + rest);
    IndexOfAfter(head, sep, [sep] + rest);
    assert s[..|head|] == head;
    assert s[|head| + 1..] == rest;
  }

  /** Joining the pieces of a split gives the original string back. */
  lemma {:induction false} JoinSplit(s: string, sep: char)
    ensures Join(SplitOn(s, sep), sep) == s
    decreases |s|
  {
    var i := IndexOf(s, sep);
    if i < |s| {
      var head, tail := s[..i], s[i + 1..];
      var rest := SplitOn(tail, sep);
      assert SplitOn(s, sep) == [head] + rest;
      JoinSplit(tail, sep);
      JoinCons(head, rest, sep);
      assert s == head + [sep] + tail;
    }
  }

  /** Joining a non-empty list with one more piece in front. */
  lemma JoinCons(head: string, rest: seq<string>, sep: char)
    requires |rest| >= 1
    ensures Join([head] + rest, sep) == head + [sep] + Join(rest, sep)
  {
    assert ([head] + rest)[1..] == rest;
  }

  /** Joining two non-empty lists is joining each and putting one separator between them. */
  lemma {:induction false} JoinAppend(a: seq<string>, b: seq<string>, sep: char)
    requires |a| >= 1 && |b| >= 1
    ensures Join(a + b, sep) == Join(a, sep) + [sep] + Join(b, sep)
  {
    if |a| == 1 {
      assert (a + b)[1..] == b;
    } else {
      assert (a + b)[1..] == a[1..] + b;
      JoinAppend(a[1..], b, sep);
    }
  }

  /** A separator occurs in a join only inside a piece or between two pieces. */
  lemma {:induction false} JoinAvoids(parts: seq<string>, sep: char, c: char)
    requires c != sep
    requires forall k | 0 <= k < |parts| :: c !in parts[k]
    ensures c !in Join(parts, sep)
  {
    if |parts| > 1 {
      JoinAvoids(parts[1..], sep, c);
    }
  }
}
