/** `encodeURIComponent`: characters outside the unreserved set are written
    as `%XX` escapes of their UTF-8 bytes, with upper-case hex digits. */
module Uri {
  import opened Wrappers

  /** The characters `encodeURIComponent` leaves as they are. */
  predicate Unreserved(c: char) {
    || ('A' <= c <= 'Z') || ('a' <= c <= 'z') || ('0' <= c <= '9')
    || c == '-' || c == '_' || c == '.' || c == '!' || c == '~'
    || c == '*' || c == '\'' || c == '(' || c == ')'
  }

  predicate HexDigit(c: char) {
    ('0' <= c <= '9') || ('A' <= c <= 'F')
  }

  /** A character that may appear in an encoded component. */
  predicate EncodedChar(c: char) {
    Unreserved(c) || c == '%' || HexDigit(c)
  }

  function Hex(d: nat): (c: char)
    requires d < 16
    ensures HexDigit(c)
  {
    if d < 10 then '0' + d as char else 'A' + (d - 10) as char
  }

  function Percent(b: nat): (r: string)
    requires b < 256
    ensures |r| == 3 && r[0] == '%' && HexDigit(r[1]) && HexDigit(r[2])
  {
    ['%', Hex(b / 16), Hex(b % 16)]
  }

  /** The UTF-8 encoding of one Unicode scalar value. */
  function Utf8(c: char): (bytes: seq<nat>)
    ensures 1 <= |bytes| <= 4
    ensures forall i :: 0 <= i < |bytes| ==> bytes[i] < 256
  {
    var n := c as int;
    if n < 0x80 then [n]
    else if n < 0x800 then [0xC0 + n / 64, 0x80 + n % 64]
    else if n < 0x10000 then [0xE0 + n / 4096, 0x80 + (n / 64) % 64, 0x80 + n % 64]
    else [0xF0 + n / 262144, 0x80 + (n / 4096) % 64, 0x80 + (n / 64) % 64, 0x80 + n % 64]
  }

  function PercentAll(bytes: seq<nat>): (r: string)
    requires forall i :: 0 <= i < |bytes| ==> bytes[i] < 256
    ensures |r| == 3 * |bytes|
    ensures forall i :: 0 <= i < |r| ==> EncodedChar(r[i])
  {
    if |bytes| == 0 then [] else Percent(bytes[0]) + PercentAll(bytes[1..])
  }

  function EncodeChar(c: char): (r: string)
    ensures Unreserved(c) ==> r == [c]
    ensures !Unreserved(c) ==> |r| >= 3 && r[0] == '%'
    ensures !Unreserved(c) ==> r == PercentAll(Utf8(c))
    ensures forall i :: 0 <= i < |r| ==> EncodedChar(r[i])
  {
    if Unreserved(c) then [c] else PercentAll(Utf8(c))
  }

  /** `encodeURIComponent(s)`: the result only holds unreserved characters
      and `%XX` escapes, and is never shorter than `s`. */
  function Encode(s: string): (r: string)
    ensures |r| >= |s|
    ensures forall i :: 0 <= i < |r| ==> EncodedChar(r[i])
  {
    if |s| == 0 then "" else EncodeChar(s[0]) + Encode(s[1..])
  }

  /** An encoded component contains none of the delimiters of a path or
      query string, so it cannot open a new segment or parameter. */
  lemma EncodeHasNoDelimiters(s: string)
    ensures '/' !in Encode(s) && '?' !in Encode(s) && '&' !in Encode(s)
    ensures '#' !in Encode(s) && '=' !in Encode(s) && ' ' !in Encode(s)
  {
    var r := Encode(s);
    assert forall i :: 0 <= i < |r| ==> EncodedChar(r[i]);
  }

  /** A string of unreserved characters (a decimal id, say) is encoded as
      itself. */
  lemma {:induction false} EncodeUnreserved(s: string)
    requires forall i :: 0 <= i < |s| ==> Unreserved(s[i])
    ensures Encode(s) == s
    decreases |s|
  {
    if |s| > 0 {
      EncodeUnreserved(s[1..]);
    }
  }

  /** Encoding works character by character, so it distributes over
      concatenation. */
  lemma {:induction false} EncodeAppend(a: string, b: string)
    ensures Encode(a + b) == Encode(a) + Encode(b)
    decreases |a|
  {
    if |a| > 0 {
      assert (a + b)[0] == a[0];
      assert (a + b)[1..] == a[1..] + b;
      EncodeAppend(a[1..], b);
      assert Encode(a + b) == EncodeChar(a[0]) + (Encode(a[1..]) + Encode(b));
      assert Encode(a) == EncodeChar(a[0]) + Encode(a[1..]);
    } else {
      assert a + b == b;
    }
  }

  // Decoding: the inverse of `Encode`, in two layers, `%XX` escapes back to
  // bytes, then UTF-8 bytes back to characters.

  function HexValue(c: char): (d: nat)
    requires HexDigit(c)
    ensures d < 16 && Hex(d) == c
  {
    if '0' <= c <= '9' then (c - '0') as nat else (c - 'A') as nat + 10
  }

  lemma HexValueOfHex(d: nat)
    requires d < 16
    ensures HexValue(Hex(d)) == d
  {
  }

  /** The bytes an encoded component stands for: an unreserved character
      is its own code, `%XX` is the byte `XX`; anything else, or a `%`
      without two hex digits, is malformed. */
  function Unescape(s: string): (r: Option<seq<nat>>)
    ensures r.Some? ==> forall i :: 0 <= i < |r.value| ==> r.value[i] < 256
    decreases |s|
  {
    if |s| == 0 then Some([])
    else if s[0] == '%' then
      if |s| >= 3 && HexDigit(s[1]) && HexDigit(s[2]) then
        match Unescape(s[3..])
        case None => None
        case Some(rest) => Some([16 * HexValue(s[1]) + HexValue(s[2])] + rest)
      else None
    else if Unreserved(s[0]) then
      match Unescape(s[1..])
      case None => None
      case Some(rest) => Some([s[0] as nat] + rest)
    else None
  }

  predicate IsContinuation(b: nat) {
    0x80 <= b < 0xC0
  }

  /** A code point Dafny's `char` can hold: not a surrogate, below
      0x110000. */
  predicate IsScalar(n: int) {
    (0 <= n < 0xD800) || (0xE000 <= n < 0x11_0000)
  }

  /** UTF-8 decoding: the lead byte says how many continuation bytes follow. */
  function Utf8Decode(bytes: seq<nat>): (r: Option<string>)
    decreases |bytes|
  {
    if |bytes| == 0 then Some([])
    else
      var b := bytes[0];
      var (n, k) :=
        if b < 0x80 then (b, 1)
        else if 0xC0 <= b < 0xE0 && |bytes| >= 2 && IsContinuation(bytes[1]) then
          ((b - 0xC0) * 64 + (bytes[1] - 0x80), 2)
        else if 0xE0 <= b < 0xF0 && |bytes| >= 3 && IsContinuation(bytes[1]) && IsContinuation(bytes[2]) then
          ((b - 0xE0) * 4096 + (bytes[1] - 0x80) * 64 + (bytes[2] - 0x80), 3)
        else if 0xF0 <= b < 0xF8 && |bytes| >= 4 && IsContinuation(bytes[1]) && IsContinuation(bytes[2])
                && IsContinuation(bytes[3]) then
          ((b - 0xF0) * 262144 + (bytes[1] - 0x80) * 4096 + (bytes[2] - 0x80) * 64 + (bytes[3] - 0x80), 4)
        else (0, 0);
      if k == 0 || !IsScalar(n) then None
      else
        match Utf8Decode(bytes[k..])
        case None => None
        case Some(rest) => Some([n as char] + rest)
  }

  /** `decodeURIComponent` restricted to what `Encode` can produce. */
  function Decode(s: string): Option<string> {
    match Unescape(s)
    case None => None
    case Some(bytes) => Utf8Decode(bytes)
  }

  /** The UTF-8 bytes of a whole string. */
  function Utf8All(s: string): (bytes: seq<nat>)
    ensures forall i :: 0 <= i < |bytes| ==> bytes[i] < 256
  {
    if |s| == 0 then [] else Utf8(s[0]) + Utf8All(s[1..])
  }

  lemma {:induction false} UnescapePercentAll(bytes: seq<nat>, t: string)
    requires forall i :: 0 <= i < |bytes| ==> bytes[i] < 256
    requires Unescape(t).Some?
    ensures Unescape(PercentAll(bytes) + t) == Some(bytes + Unescape(t).value)
    decreases |bytes|
  {
    if |bytes| > 0 {
      var b := bytes[0];
      var s := PercentAll(bytes) + t;
      assert s == Percent(b) + (PercentAll(bytes[1..]) + t);
      assert s[0] == '%' && s[1] == Hex(b / 16) && s[2] == Hex(b % 16);
      assert s[3..] == PercentAll(bytes[1..]) + t;
      HexValueOfHex(b / 16);
      HexValueOfHex(b % 16);
      UnescapePercentAll(bytes[1..], t);
      assert 16 * HexValue(s[1]) + HexValue(s[2]) == b;
      assert Unescape(s) == Some([b] + Unescape(s[3..]).value);
      assert bytes == [b] + bytes[1..];
      assert [b] + (bytes[1..] + Unescape(t).value) == bytes + Unescape(t).value;
    } else {
      assert PercentAll(bytes) + t == t;
      assert bytes + Unescape(t).value == Unescape(t).value;
    }
  }

  /** Unescaping an encoded string gives back its UTF-8 bytes. */
  lemma {:induction false} UnescapeEncode(s: string)
    ensures Unescape(Encode(s)) == Some(Utf8All(s))
    decreases |s|
  {
    if |s| > 0 {
      UnescapeEncode(s[1..]);
      var c := s[0];
      if Unreserved(c) {
        var e := Encode(s);
        assert e == [c] + Encode(s[1..]);
        assert e[1..] == Encode(s[1..]);
      } else {
        UnescapePercentAll(Utf8(c), Encode(s[1..]));
      }
    }
  }

  /** The decoder reads one character's bytes back as that character. */
  lemma Utf8DecodeChar(c: char, rest: seq<nat>)
    requires Utf8Decode(rest).Some?
    ensures Utf8Decode(Utf8(c) + rest) == Some([c] + Utf8Decode(rest).value)
  {
    var n := c as int;
    if n < 0x80 {
      assert (Utf8(c) + rest)[1..] == rest;
    } else if n < 0x800 {
      Utf8DecodeTwo(c, rest);
    } else if n < 0x10000 {
      Utf8DecodeThree(c, rest);
    } else {
      Utf8DecodeFour(c, rest);
    }
  }

  lemma Utf8DecodeTwo(c: char, rest: seq<nat>)
    requires 0x80 <= c as int < 0x800
    requires Utf8Decode(rest).Some?
    ensures Utf8Decode(Utf8(c) + rest) == Some([c] + Utf8Decode(rest).value)
  {
    var n := c as int;
    var b0, b1 := 0xC0 + n / 64, 0x80 + n % 64;
    assert Utf8(c) == [b0, b1];
    var bytes := [b0, b1] + rest;
    assert bytes[0] == b0 && bytes[1] == b1 && bytes[2..] == rest;
    assert 0xC0 <= b0 < 0xE0 && IsContinuation(b1);
    assert (b0 - 0xC0) * 64 + (b1 - 0x80) == n;
  }

  lemma Utf8DecodeThree(c: char, rest: seq<nat>)
    requires 0x800 <= c as int < 0x10000
    requires Utf8Decode(rest).Some?
    ensures Utf8Decode(Utf8(c) + rest) == Some([c] + Utf8Decode(rest).value)
  {
    var n := c as int;
    var b0, b1, b2 := 0xE0 + n / 4096, 0x80 + (n / 64) % 64, 0x80 + n % 64;
    assert Utf8(c) == [b0, b1, b2];
    var bytes := [b0, b1, b2] + rest;
    assert bytes[0] == b0 && bytes[1] == b1 && bytes[2] == b2 && bytes[3..] == rest;
    assert 0xE0 <= b0 < 0xF0 && IsContinuation(b1) && IsContinuation(b2);
    assert n / 4096 * 64 + (n / 64) % 64 == n / 64;
    assert (n / 64) * 64 + n % 64 == n;
    assert (b0 - 0xE0) * 4096 + (b1 - 0x80) * 64 + (b2 - 0x80) == n;
  }

  lemma Utf8DecodeFour(c: char, rest: seq<nat>)
    requires 0x10000 <= c as int
    requires Utf8Decode(rest).Some?
    ensures Utf8Decode(Utf8(c) + rest) == Some([c] + Utf8Decode(rest).value)
  {
    var n := c as int;
    var b0, b1, b2, b3 := 0xF0 + n / 262144, 0x80 + (n / 4096) % 64, 0x80 + (n / 64) % 64, 0x80 + n % 64;
    assert Utf8(c) == [b0, b1, b2, b3];
    var bytes := [b0, b1, b2, b3] + rest;
    assert bytes[0] == b0 && bytes[1] == b1 && bytes[2] == b2 && bytes[3] == b3 && bytes[4..] == rest;
    assert 0xF0 <= b0 < 0xF8 && IsContinuation(b1) && IsContinuation(b2) && IsContinuation(b3);
    assert n / 262144 * 64 + (n / 4096) % 64 == n / 4096;
    assert (n / 4096) * 64 + (n / 64) % 64 == n / 64;
    assert (n / 64) * 64 + n % 64 == n;
    assert (b0 - 0xF0) * 262144 + (b1 - 0x80) * 4096 + (b2 - 0x80) * 64 + (b3 - 0x80) == n;
  }

  lemma {:induction false} Utf8DecodeAll(s: string)
    ensures Utf8Decode(Utf8All(s)) == Some(s)
    decreases |s|
  {
    if |s| > 0 {
      Utf8DecodeAll(s[1..]);
      Utf8DecodeChar(s[0], Utf8All(s[1..]));
      assert [s[0]] + s[1..] == s;
    }
  }

  /** Decoding an encoded component gives back the original text. */
  lemma DecodeEncode(s: string)
    ensures Decode(Encode(s)) == Some(s)
  {
    UnescapeEncode(s);
    Utf8DecodeAll(s);
  }
}
