// Previews bounded in UTF-8 octets: encode, cut the bytes, decode what is left and ignore
// what no longer decodes. UTF-8 is that of section 3 of RFC 3629.
module Preview {
  import Text

  predicate IsTail(b: int) { 0x80 <= b < 0xC0 }

  function EncodeChar(c: char): (bytes: seq<int>)
    ensures |bytes| == Text.Utf8Width(c)
    ensures forall i :: 0 < i < |bytes| ==> IsTail(bytes[i])
  {
    var v := c as int;
    if v < 0x80 then [v]
    else if v < 0x800 then [0xC0 + v / 0x40, 0x80 + v % 0x40]
    else if v < 0x1_0000 then [0xE0 + v / 0x1000, 0x80 + v / 0x40 % 0x40, 0x80 + v % 0x40]
    else [0xF0 + v / 0x4_0000, 0x80 + v / 0x1000 % 0x40, 0x80 + v / 0x40 % 0x40, 0x80 + v % 0x40]
  }

  function Encode(s: string): seq<int> {
    if |s| == 0 then [] else EncodeChar(s[0]) + Encode(s[1..])
  }

  // A scalar value: neither a surrogate nor past the last code point.
  predicate IsScalar(v: int) {
    0 <= v < 0xD800 || 0xE000 <= v < 0x11_0000
  }

  // The code point at the front of some bytes and its width, if the front is well formed.
  datatype Front = Bad | Good(c: char, width: nat)

  function Shortest(v: int, least: int, width: nat): Front {
    if v < least || !IsScalar(v) then Bad else Good(v as char, width)
  }

  function DecodeFront(bytes: seq<int>): (f: Front)
    requires |bytes| > 0
    ensures f.Good? ==> 1 <= f.width <= |bytes|
  {
    var b := bytes[0];
    if 0 <= b < 0x80 then Good(b as char, 1)
    else if 0xC0 <= b < 0xE0 then
      if |bytes| < 2 || !IsTail(bytes[1]) then Bad
      else Shortest((b - 0xC0) * 0x40 + (bytes[1] - 0x80), 0x80, 2)
    else if 0xE0 <= b < 0xF0 then
      if |bytes| < 3 || !IsTail(bytes[1]) || !IsTail(bytes[2]) then Bad
      else Shortest((b - 0xE0) * 0x1000 + (bytes[1] - 0x80) * 0x40 + (bytes[2] - 0x80), 0x800, 3)
    else if 0xF0 <= b < 0xF8 then
      if |bytes| < 4 || !IsTail(bytes[1]) || !IsTail(bytes[2]) || !IsTail(bytes[3]) then Bad
      else Shortest((b - 0xF0) * 0x4_0000 + (bytes[1] - 0x80) * 0x1000 + (bytes[2] - 0x80) * 0x40 + (bytes[3] - 0x80),
                    0x1_0000, 4)
    else Bad
  }

  // decode(errors="ignore"): what does not decode is dropped, a byte at a time.
  function DecodeIgnoring(bytes: seq<int>): string {
    if |bytes| == 0 then ""
    else
      match DecodeFront(bytes)
      case Bad => DecodeIgnoring(bytes[1..])
      case Good(c, width) => [c] + DecodeIgnoring(bytes[width..])
  }

  function Previewed(value: string, maxBytes: nat): (string, bool) {
    var encoded := Encode(value);
    if |encoded| <= maxBytes then (value, false) else (DecodeIgnoring(encoded[..maxBytes]), true)
  }

  lemma {:induction false} EncodedWidth(s: string)
    ensures |Encode(s)| == Text.Utf8Length(s)
  {
    if |s| > 0 {
      EncodedWidth(s[1..]);
    }
  }

  lemma Quotients(v: nat)
    ensures v / 0x1000 == v / 0x40 / 0x40 && v / 0x4_0000 == v / 0x40 / 0x40 / 0x40
    ensures v == v / 0x40 * 0x40 + v % 0x40
    ensures v == v / 0x1000 * 0x1000 + v / 0x40 % 0x40 * 0x40 + v % 0x40
    ensures v == v / 0x4_0000 * 0x4_0000 + v / 0x1000 % 0x40 * 0x1000 + v / 0x40 % 0x40 * 0x40 + v % 0x40
  {
  }

  lemma FrontReadsThree(c: char, rest: seq<int>)
    requires 0x800 <= c as int < 0x1_0000
    ensures DecodeFront(EncodeChar(c) + rest) == Good(c, 3)
  {
    var v := c as int;
    var bytes := EncodeChar(c) + rest;
    assert bytes[0] == 0xE0 + v / 0x1000 && bytes[1] == 0x80 + v / 0x40 % 0x40 && bytes[2] == 0x80 + v % 0x40;
    Quotients(v);
    assert (bytes[0] - 0xE0) * 0x1000 + (bytes[1] - 0x80) * 0x40 + (bytes[2] - 0x80) == v;
  }

  lemma FrontReadsFour(c: char, rest: seq<int>)
    requires 0x1_0000 <= c as int
    ensures DecodeFront(EncodeChar(c) + rest) == Good(c, 4)
  {
    var v := c as int;
    var bytes := EncodeChar(c) + rest;
    assert bytes[0] == 0xF0 + v / 0x4_0000 && bytes[1] == 0x80 + v / 0x1000 % 0x40;
    assert bytes[2] == 0x80 + v / 0x40 % 0x40 && bytes[3] == 0x80 + v % 0x40;
    Quotients(v);
    assert (bytes[0] - 0xF0) * 0x4_0000 + (bytes[1] - 0x80) * 0x1000 + (bytes[2] - 0x80) * 0x40 + (bytes[3] - 0x80) == v;
  }

  lemma FrontReads(c: char, rest: seq<int>)
    ensures DecodeFront(EncodeChar(c) + rest) == Good(c, Text.Utf8Width(c))
  {
    var v := c as int;
    var bytes := EncodeChar(c) + rest;
    if v < 0x80 {
      assert bytes[0] == v;
    } else if v < 0x800 {
      assert bytes[0] == 0xC0 + v / 0x40 && bytes[1] == 0x80 + v % 0x40;
    } else if v < 0x1_0000 {
      FrontReadsThree(c, rest);
    } else {
      FrontReadsFour(c, rest);
    }
  }

  // Tail bytes alone decode to nothing.
  lemma {:induction false} TailsVanish(bytes: seq<int>)
    requires forall i :: 0 <= i < |bytes| ==> IsTail(bytes[i])
    ensures DecodeIgnoring(bytes) == ""
  {
    if |bytes| > 0 {
      TailsVanish(bytes[1..]);
    }
  }

  // So does a code point that was cut.
  lemma CutVanishes(c: char, k: nat)
    requires k < Text.Utf8Width(c)
    ensures DecodeIgnoring(EncodeChar(c)[..k]) == ""
  {
    if k > 0 {
      var bytes := EncodeChar(c)[..k];
      assert DecodeFront(bytes) == Bad;
      TailsVanish(bytes[1..]);
    }
  }

  // How many code points fit: the longest prefix within the bound.
  function Fitting(s: string, maxBytes: nat): (n: nat)
    ensures n <= |s| && Text.Utf8Length(s[..n]) <= maxBytes
  {
    if |s| == 0 || Text.Utf8Width(s[0]) > maxBytes then 0
    else
      var n := Fitting(s[1..], maxBytes - Text.Utf8Width(s[0]));
      assert s[..n + 1][1..] == s[1..][..n];
      n + 1
  }

  lemma {:induction false} FittingIsLongest(s: string, maxBytes: nat, n: nat)
    requires n <= |s|
    ensures Text.Utf8Length(s[..n]) <= maxBytes <==> n <= Fitting(s, maxBytes)
    decreases |s|
  {
    if n > 0 {
      assert s[..n][1..] == s[1..][..n - 1];
      if Text.Utf8Width(s[0]) <= maxBytes {
        FittingIsLongest(s[1..], maxBytes - Text.Utf8Width(s[0]), n - 1);
      }
    }
  }

  lemma {:induction false} CutDecodes(s: string, maxBytes: nat)
    requires maxBytes <= |Encode(s)|
    ensures DecodeIgnoring(Encode(s)[..maxBytes]) == s[..Fitting(s, maxBytes)]
  {
    if |s| > 0 {
      var head, tail := EncodeChar(s[0]), Encode(s[1..]);
      var width := Text.Utf8Width(s[0]);
      if maxBytes < width {
        assert Encode(s)[..maxBytes] == head[..maxBytes];
        CutVanishes(s[0], maxBytes);
      } else {
        var cut := tail[..maxBytes - width];
        assert Encode(s)[..maxBytes] == head + cut;
        FrontReads(s[0], cut);
        assert (head + cut)[width..] == cut;
        CutDecodes(s[1..], maxBytes - width);
        assert s[..Fitting(s, maxBytes)] == [s[0]] + s[1..][..Fitting(s[1..], maxBytes - width)];
      }
    }
  }

  // Theorem: for every string and every bound the preview is the longest code-point prefix
  // whose UTF-8 form fits, and the flag says exactly whether something was dropped.
  lemma PreviewIsLongestPrefix(value: string, maxBytes: nat)
    ensures var n := Fitting(value, maxBytes);
            Previewed(value, maxBytes) == (value[..n], n < |value|)
    ensures forall n :: 0 <= n <= |value| ==>
              (Text.Utf8Length(value[..n]) <= maxBytes <==> n <= |Previewed(value, maxBytes).0|)
  {
    EncodedWidth(value);
    FittingIsLongest(value, maxBytes, |value|);
    assert value[..|value|] == value;
    if |Encode(value)| > maxBytes {
      CutDecodes(value, maxBytes);
    }
    forall n | 0 <= n <= |value|
      ensures Text.Utf8Length(value[..n]) <= maxBytes <==> n <= Fitting(value, maxBytes)
    {
      FittingIsLongest(value, maxBytes, n);
    }
  }
}
