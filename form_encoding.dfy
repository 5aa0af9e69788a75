/** `application/x-www-form-urlencoded` serialisation as Ruby's `URI.encode_www_form` performs it
    (WHATWG URL Standard, section 5.2): each name and value is taken as UTF-8 bytes; the bytes of
    `*`, `-`, `.`, `_` and ASCII letters and digits are kept, a space becomes `+`, and every other
    byte becomes `%` and two upper-case hexadecimal digits; pairs are written `name=value` in the
    given order and joined by `&`. `DecodeForm` is the inverse used to state what the encoding
    preserves. */
module FormEncoding {
  import opened Wrappers
  import opened Text
  import Utf8

  type Params = seq<(string, string)>

  /** The bytes the component encoder keeps as they are: `*-._`, digits and ASCII letters. */
  predicate IsUnreservedByte(b: int) {
    b == 42 || b == 45 || b == 46 || b == 95 || (48 <= b <= 57) || (65 <= b <= 90) || (97 <= b <= 122)
  }

  /** A character that can appear in an encoded component. */
  predicate IsComponentChar(c: char) {
    c == '+' || c == '%' || IsUnreservedByte(c as int)
  }

  /** A digit or an upper-case letter `A` to `F`, the digits of Ruby's `%02X` escapes. */
  predicate IsUpperHexDigit(c: char) {
    ('0' <= c <= '9') || ('A' <= c <= 'F')
  }

  /** The upper-case hexadecimal digit of a value below 16: a kept character that reads back as
      that value. */
  function HexDigit(d: int): (c: char)
    requires 0 <= d < 16
    ensures IsUnreservedByte(c as int)
    ensures IsUpperHexDigit(c) && HexValue(c) == Some(d)
  {
    if d < 10 then (48 + d) as char else (55 + d) as char
  }

  /** The value of a hexadecimal digit of either case. */
  function HexValue(c: char): Option<int> {
    if '0' <= c <= '9' then Some(c as int - 48)
    else if 'A' <= c <= 'F' then Some(c as int - 55)
    else if 'a' <= c <= 'f' then Some(c as int - 87)
    else None
  }

  /** The encoding of one byte: a kept byte as its own character, a space as `+`, any other byte as
      `%` and two upper-case hexadecimal digits whose value is the byte. */
  function EncodeByte(b: Utf8.byte): (s: string)
    ensures forall i | 0 <= i < |s| :: IsComponentChar(s[i])
    ensures IsUnreservedByte(b) ==> s == [b as char]
    ensures b == 32 ==> s == "+"
    ensures !IsUnreservedByte(b) && b != 32 ==>
      |s| == 3 && s[0] == '%' && IsUpperHexDigit(s[1]) && IsUpperHexDigit(s[2]) &&
      HexValue(s[1]).value * 16 + HexValue(s[2]).value == b
  {
    if IsUnreservedByte(b) then [b as char]
    else if b == 32 then "+"
    else ['%', HexDigit(b / 16), HexDigit(b % 16)]
  }

  /** The encoding of a byte sequence: the bytes' encodings in order. */
  function EncodeBytes(bs: seq<Utf8.byte>): (s: string)
    ensures forall i | 0 <= i < |s| :: IsComponentChar(s[i])
  {
    if bs == [] then ""
    else
      var head := EncodeByte(bs[0]);
      var tail := EncodeBytes(bs[1..]);
      assert forall i | |head| <= i < |head| + |tail| :: (head + tail)[i] == tail[i - |head|];
      head + tail
  }

  /** `URI.encode_www_form_component`: the encoding of a string's UTF-8 bytes. It never contains
      the pair separator `&` nor the name/value separator `=`. */
  function EncodeComponent(s: string): (r: string)
    ensures '&' !in r && '=' !in r
  {
    var r := EncodeBytes(Utf8.Encode(s));
    assert forall i | 0 <= i < |r| :: IsComponentChar(r[i]);
    r
  }

  /** One pair, `name=value`. */
  function EncodePair(p: (string, string)): (r: string)
    ensures '&' !in r
  {
    EncodeComponent(p.0) + "=" + EncodeComponent(p.1)
  }

  function EncodePairs(ps: Params): (r: seq<string>)
    ensures |r| == |ps|
    ensures forall k | 0 <= k < |r| :: r[k] == EncodePair(ps[k])
  {
    if ps == [] then [] else [EncodePair(ps[0])] + EncodePairs(ps[1..])
  }

  /** `URI.encode_www_form` on an ordered list of name/value pairs: empty exactly for the empty
      list, and otherwise split at `&` into exactly the encoded pairs, in order. */
  function EncodeForm(ps: Params): (r: string)
    ensures r == "" <==> ps == []
    ensures ps != [] ==> SplitOn(r, '&') == EncodePairs(ps)
  {
    var parts := EncodePairs(ps);
    var r := Join(parts, '&');
    assert ps != [] ==> SplitOn(r, '&') == parts && r != "" by {
      if ps != [] {
        SplitJoin(parts, '&');
        assert SplitOn(r, '&')[0] == EncodePair(ps[0]);
      }
    }
    r
  }

  /** Reverses EncodeBytes: `+` is a space, `%HH` a byte, a kept character its own byte;
      anything else is not an encoding. */
  function DecodeBytes(s: string): Option<seq<Utf8.byte>>
    decreases |s|
  {
    if s == [] then Some([])
    else if s[0] == '+' then
      match DecodeBytes(s[1..])
      case None => None
      case Some(bs) => Some([32] + bs)
    else if s[0] == '%' then
      if |s| >= 3 && HexValue(s[1]).Some? && HexValue(s[2]).Some? then
        var b := HexValue(s[1]).value * 16 + HexValue(s[2]).value;
        match DecodeBytes(s[3..])
        case None => None
        case Some(bs) => Some([b] + bs)
      else None
    else if IsUnreservedByte(s[0] as int) then
      match DecodeBytes(s[1..])
      case None => None
      case Some(bs) => Some([s[0] as int] + bs)
    else None
  }

  /** Reverses EncodeComponent. */
  function DecodeComponent(s: string): Option<string> {
    match DecodeBytes(s)
    case None => None
    case Some(bs) => Utf8.Decode(bs)
  }

  /** Reverses EncodePair: the name is everything before the first `=`. */
  function DecodePair(s: string): Option<(string, string)> {
    var i := IndexOf(s, '=');
    if i == |s| then None
    else match (DecodeComponent(s[..i]), DecodeComponent(s[i + 1..]))
      case (Some(k), Some(v)) => Some((k, v))
      case _ => None
  }

  function DecodePairs(parts: seq<string>): Option<Params> {
    if parts == [] then Some([])
    else match (DecodePair(parts[0]), DecodePairs(parts[1..]))
      case (Some(p), Some(ps)) => Some([p] + ps)
      case _ => None
  }

  /** Reverses EncodeForm: the empty string is the empty list, otherwise the `&`-separated pairs. */
  function DecodeForm(s: string): Option<Params> {
    if s == "" then Some([]) else DecodePairs(SplitOn(s, '&'))
  }

  lemma {:induction false} EncodeBytesAppend(x: seq<Utf8.byte>, y: seq<Utf8.byte>)
    ensures EncodeBytes(x + y) == EncodeBytes(x) + EncodeBytes(y)
  {
    if x != [] {
      assert (x + y)[1..] == x[1..] + y;
      EncodeBytesAppend(x[1..], y);
    } else {
      assert x + y == y;
    }
  }

  /** The component encoding works character by character: it distributes over concatenation. */
  lemma ComponentAppend(a: string, b: string)
    ensures EncodeComponent(a + b) == EncodeComponent(a) + EncodeComponent(b)
  {
    Utf8.EncodeAppend(a, b);
    EncodeBytesAppend(Utf8.Encode(a), Utf8.Encode(b));
  }

  /** `*`, `-`, `.`, `_`, ASCII letters and digits are kept as they are. */
  lemma {:induction false} UnreservedKept(s: string)
    requires forall i | 0 <= i < |s| :: IsUnreservedByte(s[i] as int)
    ensures EncodeComponent(s) == s
  {
    if s != [] {
      assert s == [s[0]] + s[1..];
      ComponentAppend([s[0]], s[1..]);
      UnreservedKept(s[1..]);
      assert Utf8.Encode([s[0]]) == [s[0] as int];
    }
  }

  /** A space becomes `+`. */
  lemma SpaceIsPlus()
    ensures EncodeComponent(" ") == "+"
  {
    assert Utf8.Encode(" ") == [32];
  }

  /** Decoding one byte's encoding followed by more text reads that byte back first. */
  lemma DecodeEncodeByte(b: Utf8.byte, rest: string)
    ensures DecodeBytes(EncodeByte(b) + rest) ==
      match DecodeBytes(rest)
      case None => None
      case Some(bs) => Some([b] + bs)
  {
    var s := EncodeByte(b) + rest;
    if IsUnreservedByte(b) {
      assert s[1..] == rest;
    } else if b == 32 {
      assert s[1..] == rest;
    } else {
      assert HexValue(s[1]) == Some(b / 16) && HexValue(s[2]) == Some(b % 16);
      assert s[3..] == rest;
    }
  }

  /** Decoding an encoding gives the bytes back. */
  lemma {:induction false} DecodeEncodeBytes(bs: seq<Utf8.byte>)
    ensures DecodeBytes(EncodeBytes(bs)) == Some(bs)
  {
    if bs != [] {
      DecodeEncodeBytes(bs[1..]);
      DecodeEncodeByte(bs[0], EncodeBytes(bs[1..]));
      assert [bs[0]] + bs[1..] == bs;
    }
  }

  /** `encode_www_form_component` loses nothing: any string, including non-ASCII text, is decoded back. */
  lemma DecodeEncodeComponent(s: string)
    ensures DecodeComponent(EncodeComponent(s)) == Some(s)
  {
    DecodeEncodeBytes(Utf8.Encode(s));
    Utf8.DecodeEncode(s);
  }

  lemma DecodeEncodePair(p: (string, string))
    ensures DecodePair(EncodePair(p)) == Some(p)
  {
    var k := EncodeComponent(p.0);
    var v := EncodeComponent(p.1);
    FirstSeparator(k, '=', v);
    DecodeEncodeComponent(p.0);
    DecodeEncodeComponent(p.1);
  }

  lemma {:induction false} DecodeEncodePairs(ps: Params)
    ensures DecodePairs(EncodePairs(ps)) == Some(ps)
  {
    if ps != [] {
      assert EncodePairs(ps)[1..] == EncodePairs(ps[1..]);
      DecodeEncodePair(ps[0]);
      DecodeEncodePairs(ps[1..]);
      assert [ps[0]] + ps[1..] == ps;
    }
  }

  /** `encode_www_form` loses nothing: the pairs, their order, duplicate names and empty names
      or values are all recovered from the query string. */
  lemma DecodeEncodeForm(ps: Params)
    ensures DecodeForm(EncodeForm(ps)) == Some(ps)
  {
    if ps != [] {
      DecodeEncodePairs(ps);
    }
  }
}
