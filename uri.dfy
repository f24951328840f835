/** The two halves of a query string that the pages use: `encodeURIComponent`,
    which builds a link, and `URLSearchParams.get`, which reads a parameter
    back. Characters are Unicode scalar values; bytes are UTF-8. */
module Uri {
  import opened Options

  type Byte = b: int | 0 <= b < 256

  /** The characters `encodeURIComponent` leaves as they are: ASCII letters,
      digits and `- _ . ! ~ * ' ( )`. */
  predicate Unreserved(c: char) {
    || 'A' <= c <= 'Z' || 'a' <= c <= 'z' || '0' <= c <= '9'
    || c == '-' || c == '_' || c == '.' || c == '!' || c == '~'
    || c == '*' || c == '\'' || c == '(' || c == ')'
  }

  /** An upper-case hexadecimal digit, as `encodeURIComponent` writes them. */
  function HexDigit(d: int): (c: char)
    requires 0 <= d < 16
    ensures Unreserved(c)
  {
    if d < 10 then ('0' as int + d) as char else ('A' as int + d - 10) as char
  }

  /** A hexadecimal digit of either case, as a decoder accepts them. */
  predicate IsHex(c: char) {
    '0' <= c <= '9' || 'A' <= c <= 'F' || 'a' <= c <= 'f'
  }

  function HexValue(c: char): (d: int)
    requires IsHex(c)
    ensures 0 <= d < 16
  {
    if '0' <= c <= '9' then c as int - '0' as int
    else if 'A' <= c <= 'F' then c as int - 'A' as int + 10
    else c as int - 'a' as int + 10
  }

  lemma HexRoundTrip(d: int)
    requires 0 <= d < 16
    ensures IsHex(HexDigit(d)) && HexValue(HexDigit(d)) == d
  {
  }

  /** A continuation byte `10xxxxxx`. */
  predicate IsContinuation(b: Byte) {
    0x80 <= b < 0xC0
  }

  /** The UTF-8 encoding of one scalar value: one byte below U+0080, two below
      U+0800, three below U+10000 and four above. */
  function Utf8(c: char): (bs: seq<Byte>)
    ensures 1 <= |bs| <= 4
    ensures |bs| == 1 <==> c as int < 0x80
    ensures |bs| == 1 ==> bs[0] == c as int
    ensures forall k :: 1 <= k < |bs| ==> IsContinuation(bs[k])
  {
    var v := c as int;
    if v < 0x80 then [v]
    else if v < 0x800 then [0xC0 + v / 64, 0x80 + v % 64]
    else if v < 0x10000 then [0xE0 + v / 4096, 0x80 + v / 64 % 64, 0x80 + v % 64]
    else [0xF0 + v / 262144, 0x80 + v / 4096 % 64, 0x80 + v / 64 % 64, 0x80 + v % 64]
  }

  /** The UTF-8 encoding of a string. */
  function Utf8Encode(s: string): seq<Byte>
    decreases |s|
  {
    if s == [] then [] else Utf8(s[0]) + Utf8Encode(s[1..])
  }

  lemma {:induction false} Utf8EncodeAppend(s: string, t: string)
    ensures Utf8Encode(s + t) == Utf8Encode(s) + Utf8Encode(t)
    decreases |s|
  {
    if s != [] {
      assert (s + t)[1..] == s[1..] + t;
      Utf8EncodeAppend(s[1..], t);
    } else {
      assert s + t == t;
    }
  }

  function Prepend(c: char, rest: Option<string>): Option<string> {
    if rest.Some? then Some([c] + rest.value) else None
  }

  /** Decodes well-formed UTF-8; `None` on a malformed or overlong sequence,
      a surrogate, or a value beyond U+10FFFF. */
  function Utf8Decode(bs: seq<Byte>): Option<string>
    decreases |bs|
  {
    if bs == [] then Some([])
    else
      var b0: int := bs[0];
      if b0 < 0x80 then Prepend(b0 as char, Utf8Decode(bs[1..]))
      else if 0xC2 <= b0 < 0xE0 && |bs| >= 2 && IsContinuation(bs[1]) then
        var v := (b0 - 0xC0) * 64 + (bs[1] as int - 0x80);
        Prepend(v as char, Utf8Decode(bs[2..]))
      else if 0xE0 <= b0 < 0xF0 && |bs| >= 3 && IsContinuation(bs[1]) && IsContinuation(bs[2]) then
        var v := ((b0 - 0xE0) * 64 + (bs[1] as int - 0x80)) * 64 + (bs[2] as int - 0x80);
        if 0x800 <= v && !(0xD800 <= v < 0xE000) then Prepend(v as char, Utf8Decode(bs[3..])) else None
      else if 0xF0 <= b0 < 0xF5 && |bs| >= 4
           && IsContinuation(bs[1]) && IsContinuation(bs[2]) && IsContinuation(bs[3]) then
        var v := (((b0 - 0xF0) * 64 + (bs[1] as int - 0x80)) * 64 + (bs[2] as int - 0x80)) * 64 + (bs[3] as int - 0x80);
        if 0x10000 <= v < 0x110000 then Prepend(v as char, Utf8Decode(bs[4..])) else None
      else None
  }

  /** Decoding the encoding of one character gives that character back and
      resumes right after its bytes. */
  lemma Utf8DecodeChar(c: char, rest: seq<Byte>)
    ensures Utf8Decode(Utf8(c) + rest) == Prepend(c, Utf8Decode(rest))
  {
    var v := c as int;
    var bs := Utf8(c) + rest;
    if v < 0x80 {
      assert bs[1..] == rest;
    } else if v < 0x800 {
      assert bs[2..] == rest;
      assert (v / 64) * 64 + v % 64 == v;
    } else if v < 0x10000 {
      assert bs[3..] == rest;
      assert (v / 4096) * 64 + v / 64 % 64 == v / 64;
      assert (v / 64) * 64 + v % 64 == v;
    } else {
      assert bs[4..] == rest;
      assert (v / 262144) * 64 + v / 4096 % 64 == v / 4096;
      assert (v / 4096) * 64 + v / 64 % 64 == v / 64;
      assert (v / 64) * 64 + v % 64 == v;
    }
  }

  /** UTF-8 decoding inverts UTF-8 encoding. */
  lemma {:induction false} Utf8RoundTrip(s: string)
    ensures Utf8Decode(Utf8Encode(s)) == Some(s)
    decreases |s|
  {
    if s != [] {
      Utf8DecodeChar(s[0], Utf8Encode(s[1..]));
      Utf8RoundTrip(s[1..]);
      assert [s[0]] + s[1..] == s;
    }
  }

  /** `%XY` for each byte, in upper-case hexadecimal. */
  function PercentEncode(bs: seq<Byte>): (r: string)
    ensures |r| == 3 * |bs|
    ensures forall i :: 0 <= i < |r| ==> Unreserved(r[i]) || r[i] == '%'
    decreases |bs|
  {
    if bs == [] then [] else ['%', HexDigit(bs[0] / 16), HexDigit(bs[0] % 16)] + PercentEncode(bs[1..])
  }

  function EncodeChar(c: char): (r: string)
    ensures forall i :: 0 <= i < |r| ==> Unreserved(r[i]) || r[i] == '%'
  {
    if Unreserved(c) then [c] else PercentEncode(Utf8(c))
  }

  /** `encodeURIComponent(s)`: unreserved characters kept, every other
      character replaced by its UTF-8 bytes, each written `%XY`. The result
      is never shorter than `s` and holds only unreserved characters and `%`,
      so none of the delimiters `&`, `=`, `+`, `?` and `#`. */
  function EncodeURIComponent(s: string): (r: string)
    ensures |r| >= |s|
    ensures forall i :: 0 <= i < |r| ==> Unreserved(r[i]) || r[i] == '%'
    decreases |s|
  {
    if s == [] then [] else EncodeChar(s[0]) + EncodeURIComponent(s[1..])
  }

  /** Percent-decoding on bytes: `%` followed by two hexadecimal digits is
      the byte they spell; any other byte, a stray `%` included, is kept. */
  function PercentDecode(bs: seq<Byte>): seq<Byte>
    decreases |bs|
  {
    if bs == [] then []
    else if bs[0] == '%' as int && |bs| >= 3 && IsHex(bs[1] as char) && IsHex(bs[2] as char) then
      [HexValue(bs[1] as char) * 16 + HexValue(bs[2] as char)] + PercentDecode(bs[3..])
    else [bs[0]] + PercentDecode(bs[1..])
  }

  /** `+` is a space in form-encoded text. */
  function PlusToSpace(s: string): (r: string)
    ensures |r| == |s|
    ensures forall i :: 0 <= i < |s| ==> r[i] == (if s[i] == '+' then ' ' else s[i])
  {
    seq(|s|, i requires 0 <= i < |s| => if s[i] == '+' then ' ' else s[i])
  }

  /** The decoding `URLSearchParams` applies to a name or a value. */
  function FormDecode(s: string): Option<string> {
    Utf8Decode(PercentDecode(Utf8Encode(PlusToSpace(s))))
  }

  /** The three characters `%XY` are three ASCII bytes. */
  lemma Utf8EncodeTriple(hi: char, lo: char)
    requires Unreserved(hi) && Unreserved(lo)
    ensures Utf8Encode(['%', hi, lo]) == ['%' as int, hi as int, lo as int]
  {
    var triple: string := ['%', hi, lo];
    assert triple[1..] == [hi, lo] && [hi, lo][1..] == [lo] && [lo][1..] == [];
    assert Utf8Encode([lo]) == [lo as int];
    assert Utf8Encode([hi, lo]) == [hi as int, lo as int];
  }

  /** Percent-decoding reads one escape and carries on after it. */
  lemma PercentDecodeEscape(hi: char, lo: char, tail: seq<Byte>)
    requires IsHex(hi) && IsHex(lo) && hi as int < 256 && lo as int < 256
    ensures PercentDecode(['%' as int, hi as int, lo as int] + tail)
         == [HexValue(hi) * 16 + HexValue(lo)] + PercentDecode(tail)
  {
    var all := ['%' as int, hi as int, lo as int] + tail;
    assert all[1] as char == hi && all[2] as char == lo;
    assert all[3..] == tail;
  }

  /** The escape `encodeURIComponent` writes for one byte decodes back to
      that byte. */
  lemma PercentDecodeByte(b: Byte, tail: seq<Byte>)
    ensures PercentDecode(Utf8Encode(['%', HexDigit(b / 16), HexDigit(b % 16)]) + tail) == [b] + PercentDecode(tail)
  {
    var hi, lo := HexDigit(b / 16), HexDigit(b % 16);
    Utf8EncodeTriple(hi, lo);
    HexRoundTrip(b / 16);
    HexRoundTrip(b % 16);
    PercentDecodeEscape(hi, lo, tail);
  }

  lemma {:induction false} PercentTriples(bs: seq<Byte>, rest: seq<Byte>)
    ensures PercentDecode(Utf8Encode(PercentEncode(bs)) + rest) == bs + PercentDecode(rest)
    decreases |bs|
  {
    if bs != [] {
      var triple: string := ['%', HexDigit(bs[0] / 16), HexDigit(bs[0] % 16)];
      assert PercentEncode(bs) == triple + PercentEncode(bs[1..]);
      Utf8EncodeAppend(triple, PercentEncode(bs[1..]));
      var tail := Utf8Encode(PercentEncode(bs[1..])) + rest;
      assert Utf8Encode(PercentEncode(bs)) + rest == Utf8Encode(triple) + tail;
      PercentDecodeByte(bs[0], tail);
      PercentTriples(bs[1..], rest);
      assert [bs[0]] + bs[1..] == bs;
    } else {
      assert Utf8Encode(PercentEncode(bs)) + rest == rest;
    }
  }

  lemma PercentDecodeEncodedChar(c: char, rest: seq<Byte>)
    ensures PercentDecode(Utf8Encode(EncodeChar(c)) + rest) == Utf8(c) + PercentDecode(rest)
  {
    if Unreserved(c) {
      assert Utf8Encode([c]) == [c as int] by {
        assert [c][1..] == [];
      }
      assert ([c as int] + rest)[1..] == rest;
    } else {
      PercentTriples(Utf8(c), rest);
    }
  }

  lemma {:induction false} PercentDecodeEncoded(s: string)
    ensures PercentDecode(Utf8Encode(EncodeURIComponent(s))) == Utf8Encode(s)
    decreases |s|
  {
    if s != [] {
      Utf8EncodeAppend(EncodeChar(s[0]), EncodeURIComponent(s[1..]));
      PercentDecodeEncodedChar(s[0], Utf8Encode(EncodeURIComponent(s[1..])));
      PercentDecodeEncoded(s[1..]);
    }
  }

  /** A value written with `encodeURIComponent` reads back unchanged. */
  lemma FormDecodeInvertsEncode(s: string)
    ensures FormDecode(EncodeURIComponent(s)) == Some(s)
  {
    var e := EncodeURIComponent(s);
    assert PlusToSpace(e) == e;
    PercentDecodeEncoded(s);
    Utf8RoundTrip(s);
  }

  /** A string that `encodeURIComponent` leaves alone is its own encoding. */
  lemma {:induction false} EncodeUnreservedIdentity(s: string)
    requires forall i :: 0 <= i < |s| ==> Unreserved(s[i])
    ensures EncodeURIComponent(s) == s
    decreases |s|
  {
    if s != [] {
      EncodeUnreservedIdentity(s[1..]);
      assert [s[0]] + s[1..] == s;
    }
  }

  /** The position of the first `c` in `s`, or `|s|` when there is none. */
  function IndexOf(s: string, c: char): (i: nat)
    ensures i <= |s|
    ensures i < |s| ==> s[i] == c
    ensures forall j :: 0 <= j < i ==> s[j] != c
    decreases |s|
  {
    if s == [] then 0 else if s[0] == c then 0 else 1 + IndexOf(s[1..], c)
  }

  /** `s.split(sep)`: the pieces between the separators; one piece, `s`
      itself, when there is no separator. */
  function Split(s: string, sep: char): (pieces: seq<string>)
    ensures |pieces| >= 1
    ensures (forall i :: 0 <= i < |s| ==> s[i] != sep) ==> pieces == [s]
    decreases |s|
  {
    var i := IndexOf(s, sep);
    if i == |s| then [s] else [s[..i]] + Split(s[i + 1..], sep)
  }

  /** The query of a URL: what follows the first `?`, or nothing. */
  function QueryOf(url: string): (q: string)
    ensures |q| <= |url|
  {
    var i := IndexOf(url, '?');
    if i < |url| then url[i + 1..] else []
  }

  /** A non-empty segment whose decoded name (what precedes its first `=`)
      is `name`. */
  predicate Names(seg: string, name: string) {
    seg != [] && FormDecode(seg[..IndexOf(seg, '=')]) == Some(name)
  }

  /** What follows a segment's first `=`, or nothing when it has none. */
  function RawValue(seg: string): string {
    var i := IndexOf(seg, '=');
    if i < |seg| then seg[i + 1..] else []
  }

  /** The value of the first parameter named `name` among `&`-separated
      segments: empty segments are skipped; a segment without `=` is a name
      with the empty value. */
  function Lookup(segments: seq<string>, name: string): (r: Option<string>)
    ensures (forall k :: 0 <= k < |segments| ==> !Names(segments[k], name)) ==> r == None
    ensures forall k :: 0 <= k < |segments| && Names(segments[k], name) ==>
      (forall j :: 0 <= j < k ==> !Names(segments[j], name)) ==> r == FormDecode(RawValue(segments[k]))
    decreases |segments|
  {
    if segments == [] then None
    else if Names(segments[0], name) then FormDecode(RawValue(segments[0]))
    else Lookup(segments[1..], name)
  }

  /** `new URLSearchParams(query).get(name)`: the decoded value of the first
      `&`-separated segment naming `name`, and nothing when none does. */
  function SearchParam(query: string, name: string): (r: Option<string>)
    ensures (forall k :: 0 <= k < |Split(query, '&')| ==> !Names(Split(query, '&')[k], name)) ==> r == None
    ensures forall k :: 0 <= k < |Split(query, '&')| && Names(Split(query, '&')[k], name) ==>
      (forall j :: 0 <= j < k ==> !Names(Split(query, '&')[j], name)) ==>
        r == FormDecode(RawValue(Split(query, '&')[k]))
  {
    Lookup(Split(query, '&'), name)
  }

  /** Whatever follows the first `?` of a URL is its query. */
  lemma QueryAfterPath(path: string, q: string)
    requires forall i :: 0 <= i < |path| ==> path[i] != '?'
    ensures QueryOf(path + "?" + q) == q
  {
    var url := path + "?" + q;
    assert url[|path|] == '?';
    assert forall j :: 0 <= j < |path| ==> url[j] == path[j];
    assert IndexOf(url, '?') == |path|;
    assert url[|path| + 1..] == q;
  }

  /** A `key=value` segment: its name decodes to the key and its value is
      what follows the `=`; it holds no `&` when the value holds none. */
  lemma Segment(key: string, e: string)
    requires key != [] && forall i :: 0 <= i < |key| ==> Unreserved(key[i])
    ensures var seg := key + "=" + e;
      && IndexOf(seg, '=') == |key|
      && FormDecode(seg[..|key|]) == Some(key)
      && seg[|key| + 1..] == e
    ensures (forall i :: 0 <= i < |e| ==> e[i] != '&') ==>
      forall i :: 0 <= i < |key + "=" + e| ==> (key + "=" + e)[i] != '&'
  {
    var seg := key + "=" + e;
    assert seg[|key|] == '=';
    assert forall j :: 0 <= j < |key| ==> seg[j] == key[j];
    assert seg[..|key|] == key;
    assert seg[|key| + 1..] == e;
    EncodeUnreservedIdentity(key);
    FormDecodeInvertsEncode(key);
    if forall i :: 0 <= i < |e| ==> e[i] != '&' {
      forall i | 0 <= i < |seg| ensures seg[i] != '&' {
        if i > |key| {
          assert seg[i] == e[i - |key| - 1];
        }
      }
    }
  }

  /** A query made of one `key=value` segment whose value holds no `&`. */
  lemma SingleParam(key: string, e: string, other: string)
    requires key != [] && forall i :: 0 <= i < |key| ==> Unreserved(key[i])
    requires forall i :: 0 <= i < |e| ==> e[i] != '&'
    ensures SearchParam(key + "=" + e, key) == FormDecode(e)
    ensures other != key ==> SearchParam(key + "=" + e, other) == None
  {
    var seg := key + "=" + e;
    Segment(key, e);
    assert Split(seg, '&') == [seg];
    assert [seg][1..] == [];
    if other != key {
      assert Lookup([seg], other) == Lookup([], other);
    }
  }

  /** Splitting at the first separator. */
  lemma SplitFirst(a: string, b: string, sep: char)
    requires forall i :: 0 <= i < |a| ==> a[i] != sep
    ensures Split(a + [sep] + b, sep) == [a] + Split(b, sep)
  {
    var s := a + [sep] + b;
    assert forall j :: 0 <= j < |a| ==> s[j] == a[j];
    assert s[|a|] == sep;
    assert IndexOf(s, sep) == |a|;
    assert s[..|a|] == a;
    assert s[|a| + 1..] == b;
  }

  /** A link `path?key=value` whose value is written as is: its query is
      `key=value`, and when the value holds no `&` it reads back, decoded,
      under `key` and under no other name. */
  lemma RawParamReadsBack(path: string, key: string, value: string, other: string)
    requires forall i :: 0 <= i < |path| ==> path[i] != '?'
    requires key != [] && forall i :: 0 <= i < |key| ==> Unreserved(key[i])
    ensures QueryOf(path + "?" + key + "=" + value) == key + "=" + value
    ensures (forall i :: 0 <= i < |value| ==> value[i] != '&') ==>
      SearchParam(QueryOf(path + "?" + key + "=" + value), key) == FormDecode(value)
    ensures (forall i :: 0 <= i < |value| ==> value[i] != '&') && other != key ==>
      SearchParam(QueryOf(path + "?" + key + "=" + value), other) == None
  {
    assert path + "?" + key + "=" + value == path + "?" + (key + "=" + value);
    QueryAfterPath(path, key + "=" + value);
    if forall i :: 0 <= i < |value| ==> value[i] != '&' {
      SingleParam(key, value, other);
    }
  }

  /** A link `path?key=` followed by an encoded value: the value reads back
      under `key`, and no other name is present. */
  lemma EncodedParamReadsBack(path: string, key: string, value: string, other: string)
    requires forall i :: 0 <= i < |path| ==> path[i] != '?'
    requires key != [] && forall i :: 0 <= i < |key| ==> Unreserved(key[i])
    ensures SearchParam(QueryOf(path + "?" + key + "=" + EncodeURIComponent(value)), key) == Some(value)
    ensures other != key ==> SearchParam(QueryOf(path + "?" + key + "=" + EncodeURIComponent(value)), other) == None
  {
    var e := EncodeURIComponent(value);
    assert path + "?" + key + "=" + e == path + "?" + (key + "=" + e);
    QueryAfterPath(path, key + "=" + e);
    assert forall i :: 0 <= i < |e| ==> e[i] != '&';
    SingleParam(key, e, other);
    FormDecodeInvertsEncode(value);
  }

  /** A query of two `key=value` segments with distinct keys, whose values
      hold no `&`: each key reads back its own value. */
  lemma TwoParams(k1: string, e1: string, k2: string, e2: string)
    requires k1 != [] && forall i :: 0 <= i < |k1| ==> Unreserved(k1[i])
    requires k2 != [] && forall i :: 0 <= i < |k2| ==> Unreserved(k2[i])
    requires k1 != k2
    requires forall i :: 0 <= i < |e1| ==> e1[i] != '&'
    requires forall i :: 0 <= i < |e2| ==> e2[i] != '&'
    ensures SearchParam(k1 + "=" + e1 + "&" + k2 + "=" + e2, k1) == FormDecode(e1)
    ensures SearchParam(k1 + "=" + e1 + "&" + k2 + "=" + e2, k2) == FormDecode(e2)
  {
    var first, second := k1 + "=" + e1, k2 + "=" + e2;
    assert k1 + "=" + e1 + "&" + k2 + "=" + e2 == first + ['&'] + second;
    Segment(k1, e1);
    SplitFirst(first, second, '&');
    SingleParam(k2, e2, k1);
    assert ([first] + Split(second, '&'))[1..] == Split(second, '&');
  }
}
