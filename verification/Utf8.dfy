/** UTF-8 (section 3 of RFC 3629) and byte-bounded truncation.  A Dafny `char`
    is a Unicode scalar value, which is what a well-formed text holds. */
module Utf8 {
  import opened Wrappers

  type Byte = x: int | 0 <= x < 256

  function EncodeChar(c: char): (bytes: seq<Byte>)
    ensures 1 <= |bytes| <= 4
  {
    var x := c as int;
    if x < 0x80 then [x]
    else if x < 0x800 then [0xC0 + x / 64, 0x80 + x % 64]
    else if x < 0x1_0000 then [0xE0 + x / 4096, 0x80 + x / 64 % 64, 0x80 + x % 64]
    else [0xF0 + x / 262144, 0x80 + x / 4096 % 64, 0x80 + x / 64 % 64, 0x80 + x % 64]
  }

  function Encode(text: string): seq<Byte> {
    if text == "" then [] else EncodeChar(text[0]) + Encode(text[1..])
  }

  predicate IsContinuation(b: Byte) {
    0x80 <= b < 0xC0
  }

  /** The bits a byte carries beyond its marker. */
  function Bits(b: Byte, marker: int): int {
    b as int - marker
  }

  /** The character whose encoding starts the bytes, if they start with one. */
  function DecodeFirst(bytes: seq<Byte>): Option<char> {
    if bytes == [] then None
    else
      var lead := bytes[0];
      if lead < 0x80 then Some(lead as char)
      else if 0xC2 <= lead < 0xE0 && |bytes| >= 2 && IsContinuation(bytes[1]) then
        Some((Bits(lead, 0xC0) * 64 + Bits(bytes[1], 0x80)) as char)
      else if 0xE0 <= lead < 0xF0 && |bytes| >= 3 && IsContinuation(bytes[1]) && IsContinuation(bytes[2]) then
        Scalar(Bits(lead, 0xE0) * 4096 + Bits(bytes[1], 0x80) * 64 + Bits(bytes[2], 0x80), 0x800)
      else if 0xF0 <= lead < 0xF5 && |bytes| >= 4
              && IsContinuation(bytes[1]) && IsContinuation(bytes[2]) && IsContinuation(bytes[3]) then
        Scalar(Bits(lead, 0xF0) * 262144 + Bits(bytes[1], 0x80) * 4096
               + Bits(bytes[2], 0x80) * 64 + Bits(bytes[3], 0x80), 0x1_0000)
      else None
  }

  /** Rejects overlong forms, surrogates and values above the last code point. */
  function Scalar(code: int, least: int): Option<char> {
    if least <= code <= 0x10_FFFF && !(0xD800 <= code < 0xE000) && 0 <= code then Some(code as char) else None
  }

  /** Decoding that ignores errors: bytes that start no character are dropped. */
  function DecodeIgnoring(bytes: seq<Byte>): string
    decreases |bytes|
  {
    if bytes == [] then ""
    else
      var first := DecodeFirst(bytes);
      if first.Some? && |EncodeChar(first.value)| <= |bytes| then
        [first.value] + DecodeIgnoring(bytes[|EncodeChar(first.value)|..])
      else DecodeIgnoring(bytes[1..])
  }

  const SUFFIX := "...<truncated>"

  function TruncateUtf8(text: string, maximumBytes: int): string {
    if maximumBytes <= 0 then ""
    else
      var encoded := Encode(text);
      if |encoded| <= maximumBytes then text
      else if maximumBytes <= |SUFFIX| then SUFFIX[..maximumBytes]
      else DecodeIgnoring(encoded[..maximumBytes - |SUFFIX|] + Encode(SUFFIX))
  }

  // ---------- encoding and decoding ----------

  lemma Base64Digits(x: nat)
    ensures x == x / 4096 * 4096 + x / 64 % 64 * 64 + x % 64
    ensures x == x / 262144 * 262144 + x / 4096 % 64 * 4096 + x / 64 % 64 * 64 + x % 64
  {
  }

  lemma WideRoundTrip(c: char, rest: seq<Byte>)
    requires c as int >= 0x1_0000
    ensures DecodeFirst(EncodeChar(c) + rest) == Some(c)
  {
    var x := c as int;
    var bytes := EncodeChar(c) + rest;
    Base64Digits(x);
    assert bytes[0] == 0xF0 + x / 262144 && bytes[1] == 0x80 + x / 4096 % 64;
    assert bytes[2] == 0x80 + x / 64 % 64 && bytes[3] == 0x80 + x % 64;
    assert Scalar(x, 0x1_0000) == Some(c);
  }

  lemma MiddleRoundTrip(c: char, rest: seq<Byte>)
    requires 0x800 <= c as int < 0x1_0000
    ensures DecodeFirst(EncodeChar(c) + rest) == Some(c)
  {
    var x := c as int;
    var bytes := EncodeChar(c) + rest;
    Base64Digits(x);
    assert bytes[0] == 0xE0 + x / 4096 && bytes[1] == 0x80 + x / 64 % 64 && bytes[2] == 0x80 + x % 64;
    assert Scalar(x, 0x800) == Some(c);
  }

  lemma CharRoundTrip(c: char, rest: seq<Byte>)
    ensures DecodeFirst(EncodeChar(c) + rest) == Some(c)
  {
    var x := c as int;
    if x >= 0x1_0000 {
      WideRoundTrip(c, rest);
    } else if x >= 0x800 {
      MiddleRoundTrip(c, rest);
    } else if x >= 0x80 {
      var bytes := EncodeChar(c) + rest;
      assert bytes[0] == 0xC0 + x / 64 && bytes[1] == 0x80 + x % 64;
    }
  }

  lemma DecodeStep(c: char, rest: seq<Byte>)
    ensures DecodeIgnoring(EncodeChar(c) + rest) == [c] + DecodeIgnoring(rest)
  {
    hide EncodeChar, DecodeFirst;
    CharRoundTrip(c, rest);
    assert (EncodeChar(c) + rest)[|EncodeChar(c)|..] == rest;
  }

  /** Decoding what was encoded, with anything behind it. */
  lemma {:induction false} DecodeEncoded(text: string, rest: seq<Byte>)
    ensures DecodeIgnoring(Encode(text) + rest) == text + DecodeIgnoring(rest)
  {
    hide EncodeChar, DecodeFirst, DecodeIgnoring;
    if text == "" {
      assert Encode(text) + rest == rest;
    } else {
      DecodeEncoded(text[1..], rest);
      DecodeStep(text[0], Encode(text[1..]) + rest);
      assert Encode(text) + rest == EncodeChar(text[0]) + (Encode(text[1..]) + rest);
    }
  }

  lemma TextRoundTrip(text: string)
    ensures DecodeIgnoring(Encode(text)) == text
  {
    DecodeEncoded(text, []);
    assert Encode(text) + [] == Encode(text);
  }

  lemma {:induction false} EncodeConcat(a: string, b: string)
    ensures Encode(a + b) == Encode(a) + Encode(b)
  {
    hide EncodeChar;
    if a == "" {
      assert a + b == b;
    } else {
      EncodeConcat(a[1..], b);
      assert (a + b)[1..] == a[1..] + b;
      assert EncodeChar(a[0]) + (Encode(a[1..]) + Encode(b)) == EncodeChar(a[0]) + Encode(a[1..]) + Encode(b);
    }
  }

  // ---------- a character cut in the middle ----------

  /** Every byte of an encoding after the first is a continuation byte, and the
      first byte announces how many follow. */
  lemma EncodingShape(c: char)
    ensures var e := EncodeChar(c);
            && (|e| == 1 ==> e[0] < 0x80)
            && (|e| == 2 ==> 0xC2 <= e[0] < 0xE0)
            && (|e| == 3 ==> 0xE0 <= e[0] < 0xF0)
            && (|e| == 4 ==> 0xF0 <= e[0] < 0xF5)
            && forall i | 0 < i < |e| :: IsContinuation(e[i])
  {
  }

  /** Continuation bytes in front of other bytes are dropped. */
  lemma {:induction false} ContinuationsAreDropped(stray: seq<Byte>, rest: seq<Byte>)
    requires forall i | 0 <= i < |stray| :: IsContinuation(stray[i])
    ensures DecodeIgnoring(stray + rest) == DecodeIgnoring(rest)
    decreases |stray|
  {
    if stray == [] {
      assert stray + rest == rest;
    } else {
      ContinuationsAreDropped(stray[1..], rest);
      assert (stray + rest)[1..] == stray[1..] + rest;
      assert (stray + rest)[0] == stray[0];
    }
  }

  /** What is left of a character cut short is dropped, when ASCII follows. */
  lemma PartialCharIsDropped(c: char, cut: nat, rest: seq<Byte>)
    requires cut < |EncodeChar(c)|
    requires rest != [] && rest[0] < 0x80
    ensures DecodeIgnoring(EncodeChar(c)[..cut] + rest) == DecodeIgnoring(rest)
  {
    var partial := EncodeChar(c)[..cut];
    EncodingShape(c);
    if cut == 0 {
      assert partial + rest == rest;
    } else {
      var bytes := partial + rest;
      assert bytes[0] == EncodeChar(c)[0] && bytes[cut] == rest[0];
      assert DecodeFirst(bytes).None? by {
        hide EncodeChar;
      }
      assert bytes[1..] == partial[1..] + rest;
      ContinuationsAreDropped(partial[1..], rest);
    }
  }

  // ---------- truncation ----------

  /** The number of leading characters whose encodings fit in `budget` bytes. */
  function Fitting(text: string, budget: nat): (k: nat)
    ensures k <= |text|
    ensures |Encode(text[..k])| <= budget
    ensures k < |text| ==> |Encode(text[..k + 1])| > budget
  {
    if text == "" || |EncodeChar(text[0])| > budget then
      assert |text| > 0 ==> text[..1] == [text[0]] && Encode(text[..1]) == EncodeChar(text[0]) + Encode([]);
      0
    else
      var k := Fitting(text[1..], budget - |EncodeChar(text[0])|);
      assert text[..k + 1] == [text[0]] + text[1..][..k];
      assert k + 1 < |text| ==> text[..k + 2] == [text[0]] + text[1..][..k + 1];
      k + 1
  }

  lemma CutBehindHead(head: seq<Byte>, tail: seq<Byte>, budget: nat, rest: seq<Byte>)
    requires |head| <= budget <= |head| + |tail|
    ensures (head + tail)[..budget] + rest == head + (tail[..budget - |head|] + rest)
  {
    assert (head + tail)[..budget] == head + tail[..budget - |head|];
  }

  lemma {:induction false} CutDecodes(text: string, budget: nat, rest: seq<Byte>)
    requires budget < |Encode(text)|
    requires rest != [] && rest[0] < 0x80
    ensures DecodeIgnoring(Encode(text)[..budget] + rest) == text[..Fitting(text, budget)] + DecodeIgnoring(rest)
  {
    hide EncodeChar, DecodeFirst, DecodeIgnoring;
    var head, tail := EncodeChar(text[0]), Encode(text[1..]);
    if |head| > budget {
      assert (head + tail)[..budget] == head[..budget];
      PartialCharIsDropped(text[0], budget, rest);
      assert Fitting(text, budget) == 0;
    } else {
      var k := Fitting(text[1..], budget - |head|);
      CutDecodes(text[1..], budget - |head|, rest);
      CutBehindHead(head, tail, budget, rest);
      DecodeStep(text[0], tail[..budget - |head|] + rest);
      assert text[..k + 1] == [text[0]] + text[1..][..k];
    }
  }

  lemma {:induction false} AsciiSize(text: string)
    requires forall i | 0 <= i < |text| :: text[i] as int < 0x80
    ensures |Encode(text)| == |text|
    ensures text != "" ==> Encode(text)[0] == text[0] as int
  {
    if text != "" {
      assert EncodeChar(text[0]) == [text[0] as int];
      AsciiSize(text[1..]);
    }
  }

  lemma LongerPrefixIsBigger(text: string, j: nat, k: nat)
    requires j <= k <= |text|
    ensures |Encode(text[..j])| <= |Encode(text[..k])|
  {
    assert text[..k] == text[..j] + text[j..k];
    EncodeConcat(text[..j], text[j..k]);
  }

  /** Truncation keeps a text that fits; otherwise, with room for the marker, it
      keeps exactly the longest prefix of whole characters that leaves that room,
      and puts the marker behind it. */
  lemma TruncationKeepsLongestPrefix(text: string, maximumBytes: int)
    ensures maximumBytes > 0 && |Encode(text)| <= maximumBytes ==> TruncateUtf8(text, maximumBytes) == text
    ensures |Encode(text)| > maximumBytes > |SUFFIX| ==>
              exists k :: && 0 <= k < |text|
                          && TruncateUtf8(text, maximumBytes) == text[..k] + SUFFIX
                          && forall j | 0 <= j <= |text| ::
                               j <= k <==> |Encode(text[..j])| <= maximumBytes - |SUFFIX|
  {
    hide EncodeChar, Encode, DecodeIgnoring;
    if |Encode(text)| > maximumBytes > |SUFFIX| {
      var budget := maximumBytes - |SUFFIX|;
      var k := Fitting(text, budget);
      AsciiSize(SUFFIX);
      CutDecodes(text, budget, Encode(SUFFIX));
      TextRoundTrip(SUFFIX);
      assert text[..|text|] == text;
      assert TruncateUtf8(text, maximumBytes) == text[..k] + SUFFIX;
      forall j | 0 <= j <= |text|
        ensures j <= k <==> |Encode(text[..j])| <= budget
      {
        if j <= k {
          LongerPrefixIsBigger(text, j, k);
        } else {
          LongerPrefixIsBigger(text, k + 1, j);
        }
      }
    }
  }

  /** The result never exceeds the limit. */
  lemma TruncationIsBounded(text: string, maximumBytes: int)
    ensures maximumBytes >= 0 ==> |Encode(TruncateUtf8(text, maximumBytes))| <= maximumBytes
    ensures maximumBytes < 0 ==> TruncateUtf8(text, maximumBytes) == ""
  {
    hide EncodeChar, Encode, DecodeIgnoring;
    if |Encode(text)| > maximumBytes > |SUFFIX| {
      TruncationKeepsLongestPrefix(text, maximumBytes);
      var k :| 0 <= k < |text| && TruncateUtf8(text, maximumBytes) == text[..k] + SUFFIX
                 && |Encode(text[..k])| <= maximumBytes - |SUFFIX|;
      EncodeConcat(text[..k], SUFFIX);
      AsciiSize(SUFFIX);
    } else if 0 < maximumBytes < |Encode(text)| {
      AsciiSize(SUFFIX[..maximumBytes]);
    } else {
      AsciiSize("");
    }
  }
}
