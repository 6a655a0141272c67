/** UTF-8 as the capture code uses it: a strict encoder (section 3 of RFC 3629), a decoder that
    ignores malformed input, and the byte-bounded truncation built from the two. */
module Utf8 {

  // A text is a sequence of code points. A Python string may hold lone surrogates, which cannot be encoded.
  type CodePoint = c: int | 0 <= c < 0x110000
  type Byte = b: int | 0 <= b < 256
  type Text = seq<CodePoint>

  predicate Surrogate(c: CodePoint) {
    0xD800 <= c < 0xE000
  }

  predicate Encodable(s: Text) {
    forall i :: 0 <= i < |s| ==> !Surrogate(s[i])
  }

  function EncodePoint(c: CodePoint): (r: seq<Byte>)
    ensures 1 <= |r| <= 4
  {
    if c < 0x80 then [c]
    else if c < 0x800 then [0xC0 + c / 64, 0x80 + c % 64]
    else if c < 0x10000 then [0xE0 + c / 4096, 0x80 + c / 64 % 64, 0x80 + c % 64]
    else [0xF0 + c / 262144, 0x80 + c / 4096 % 64, 0x80 + c / 64 % 64, 0x80 + c % 64]
  }

  function Encode(s: Text): seq<Byte> {
    if s == [] then [] else EncodePoint(s[0]) + Encode(s[1..])
  }

  predicate Continuation(b: Byte) {
    0x80 <= b < 0xC0
  }

  // What the decoder does at the front of its input: how many bytes it consumes, and the code
  // point it found there, if any. Malformed and unfinished sequences are consumed and ignored.
  datatype Reading = Reading(consumed: nat, point: seq<CodePoint>)

  function Read(b: seq<Byte>): (r: Reading)
    requires b != []
    ensures 1 <= r.consumed <= |b|
  {
    if b[0] < 0x80 then Reading(1, [b[0]])
    else if b[0] < 0xC2 then Reading(1, [])
    else if b[0] < 0xE0 then ReadTwo(b)
    else if b[0] < 0xF0 then ReadThree(b)
    else if b[0] < 0xF5 then ReadFour(b)
    else Reading(1, [])
  }

  function ReadTwo(b: seq<Byte>): (r: Reading)
    requires b != [] && 0xC2 <= b[0] < 0xE0
    ensures 1 <= r.consumed <= |b|
  {
    if |b| < 2 || !Continuation(b[1]) then Reading(1, [])
    else Reading(2, [(b[0] as int - 0xC0) * 64 + (b[1] as int - 0x80)])
  }

  // The second byte of a three-byte sequence must be a continuation that gives neither an
  // overlong form nor a surrogate.
  predicate SecondOfThree(lead: Byte, second: Byte) {
    Continuation(second) && (lead == 0xE0 ==> second >= 0xA0) && (lead == 0xED ==> second < 0xA0)
  }

  function ReadThree(b: seq<Byte>): (r: Reading)
    requires b != [] && 0xE0 <= b[0] < 0xF0
    ensures 1 <= r.consumed <= |b|
  {
    if |b| < 2 || !SecondOfThree(b[0], b[1]) then Reading(1, [])
    else if |b| < 3 || !Continuation(b[2]) then Reading(2, [])
    else Reading(3, [(b[0] as int - 0xE0) * 4096 + (b[1] as int - 0x80) * 64 + (b[2] as int - 0x80)])
  }

  // Likewise for four bytes: neither overlong nor above U+10FFFF.
  predicate SecondOfFour(lead: Byte, second: Byte) {
    Continuation(second) && (lead == 0xF0 ==> second >= 0x90) && (lead == 0xF4 ==> second < 0x90)
  }

  function ReadFour(b: seq<Byte>): (r: Reading)
    requires b != [] && 0xF0 <= b[0] < 0xF5
    ensures 1 <= r.consumed <= |b|
  {
    if |b| < 2 || !SecondOfFour(b[0], b[1]) then Reading(1, [])
    else if |b| < 3 || !Continuation(b[2]) then Reading(2, [])
    else if |b| < 4 || !Continuation(b[3]) then Reading(3, [])
    else Reading(4, [(b[0] as int - 0xF0) * 262144 + (b[1] as int - 0x80) * 4096 + (b[2] as int - 0x80) * 64
        + (b[3] as int - 0x80)])
  }

  function DecodeIgnore(b: seq<Byte>): Text
    decreases |b|
  {
    if b == [] then [] else Read(b).point + DecodeIgnore(b[Read(b).consumed..])
  }

  // The code points of an ASCII string.
  function Ascii(s: string): (t: Text)
    requires forall i :: 0 <= i < |s| ==> s[i] < 128 as char
    ensures |t| == |s| && forall i :: 0 <= i < |t| ==> t[i] == s[i] as int < 0x80
  {
    seq(|s|, i requires 0 <= i < |s| => s[i] as int)
  }

  const INVALID: Text := Ascii("<OMITTED:invalid>")

  function Truncate(s: Text, maximum: nat): Text {
    if !Encodable(s) then INVALID
    else if |Encode(s)| <= maximum then s
    else DecodeIgnore(Encode(s)[..maximum])
  }

  // ---- The encoding is the standard one ----

  // The bits a continuation byte carries.
  function Six(b: Byte): int {
    b as int - 0x80
  }

  /** The table of section 3 of RFC 3629: as many bytes as the range of the code point asks for, a leading
      byte that tells how many, continuation bytes behind it, and the bits of the code point in order. */
  lemma EncodingIsStandard(c: CodePoint)
    ensures var b := EncodePoint(c);
            && (|b| == 1 <==> c <= 0x7F) && (|b| == 2 <==> 0x80 <= c <= 0x7FF)
            && (|b| == 3 <==> 0x800 <= c <= 0xFFFF) && (|b| == 4 <==> 0x1_0000 <= c)
            && (|b| == 1 ==> b[0] as int == c)
            && (|b| == 2 ==> 0xC2 <= b[0] <= 0xDF) && (|b| == 3 ==> 0xE0 <= b[0] <= 0xEF)
            && (|b| == 4 ==> 0xF0 <= b[0] <= 0xF4) && (forall i :: 1 <= i < |b| ==> 0x80 <= b[i] <= 0xBF)
            && (|b| == 2 ==> c == (b[0] as int - 0xC0) * 0x40 + Six(b[1]))
            && (|b| == 3 ==> c == (b[0] as int - 0xE0) * 0x1000 + Six(b[1]) * 0x40 + Six(b[2]))
            && (|b| == 4 ==>
                  c == (b[0] as int - 0xF0) * 0x4_0000 + Six(b[1]) * 0x1000 + Six(b[2]) * 0x40 + Six(b[3]))
  {
    Digits(c);
  }

  /** Text that cannot be encoded, and no other, becomes the marker for invalid text. */
  lemma InvalidTextIsMarked(s: Text, maximum: nat)
    requires exists i :: 0 <= i < |s| && 0xD800 <= s[i] <= 0xDFFF
    ensures Truncate(s, maximum) == Ascii("<OMITTED:invalid>")
  {
  }

  // ---- Encoder and decoder are inverse, also on a torn last sequence ----

  lemma ReadEncoded(c: CodePoint, rest: seq<Byte>)
    requires !Surrogate(c)
    ensures Read(EncodePoint(c) + rest) == Reading(|EncodePoint(c)|, [c])
  {
    var b := EncodePoint(c) + rest;
    assert b[..|EncodePoint(c)|] == EncodePoint(c);
    if c < 0x80 {
    } else if c < 0x800 {
      assert b[0] == 0xC0 + c / 64 && b[1] == 0x80 + c % 64;
    } else if c < 0x10000 {
      assert b[0] == 0xE0 + c / 4096 && b[1] == 0x80 + c / 64 % 64 && b[2] == 0x80 + c % 64;
      Digits(c);
    } else {
      assert b[0] == 0xF0 + c / 262144 && b[1] == 0x80 + c / 4096 % 64
          && b[2] == 0x80 + c / 64 % 64 && b[3] == 0x80 + c % 64;
      Digits(c);
    }
  }

  lemma Digits(c: CodePoint)
    ensures c == (c / 4096) * 4096 + (c / 64 % 64) * 64 + c % 64
    ensures c / 4096 == (c / 262144) * 64 + c / 4096 % 64
  {
    assert c / 64 / 64 == c / 4096;
    assert c / 4096 / 64 == c / 262144;
  }

  lemma ReadTorn(c: CodePoint, k: nat)
    requires !Surrogate(c) && 0 < k < |EncodePoint(c)|
    ensures Read(EncodePoint(c)[..k]) == Reading(k, [])
  {
  }

  // How many code points of s fit in a budget of bytes.
  function Fit(s: Text, budget: nat): (n: nat)
    ensures n <= |s|
  {
    if s == [] || |EncodePoint(s[0])| > budget then 0 else 1 + Fit(s[1..], budget - |EncodePoint(s[0])|)
  }

  lemma {:induction false} DecodeOfPrefix(s: Text, m: nat)
    requires Encodable(s) && m <= |Encode(s)|
    ensures DecodeIgnore(Encode(s)[..m]) == s[..Fit(s, m)]
  {
    hide EncodePoint, Read;
    if s != [] && m > 0 {
      var c, rest := EncodePoint(s[0]), Encode(s[1..]);
      if m < |c| {
        assert (c + rest)[..m] == c[..m];
        ReadTorn(s[0], m);
      } else {
        var tail := rest[..m - |c|];
        assert (c + rest)[..m] == c + tail;
        ReadEncoded(s[0], tail);
        assert (c + tail)[|c|..] == tail;
        DecodeOfPrefix(s[1..], m - |c|);
        assert s[..Fit(s, m)] == [s[0]] + s[1..][..Fit(s[1..], m - |c|)];
      }
    }
  }

  /** Decoding undoes encoding on every encodable text. */
  lemma {:induction false} RoundTrip(s: Text)
    requires Encodable(s)
    ensures DecodeIgnore(Encode(s)) == s
  {
    DecodeOfPrefix(s, |Encode(s)|);
    FitsWhole(s, |Encode(s)|);
    assert Encode(s)[..|Encode(s)|] == Encode(s);
  }

  lemma {:induction false} FitsWhole(s: Text, budget: nat)
    ensures |Encode(s)| <= budget <==> Fit(s, budget) == |s|
  {
    if s != [] && |EncodePoint(s[0])| <= budget {
      FitsWhole(s[1..], budget - |EncodePoint(s[0])|);
    }
  }

  // Fit is the longest prefix: every prefix up to it fits, every longer one does not, and less
  // than one encoded code point of room is lost.
  lemma {:induction false} FitIsLongest(s: Text, budget: nat, k: nat)
    requires k <= |s|
    ensures |Encode(s[..k])| <= budget <==> k <= Fit(s, budget)
    ensures Fit(s, budget) < |s| ==> budget - |Encode(s[..Fit(s, budget)])| <= 3
  {
    if s != [] {
      var c := |EncodePoint(s[0])|;
      if k > 0 {
        assert s[..k] == [s[0]] + s[1..][..k - 1];
        assert s[..k][1..] == s[1..][..k - 1];
      }
      if c <= budget {
        var f := Fit(s[1..], budget - c);
        assert s[..f + 1][1..] == s[1..][..f];
        FitIsLongest(s[1..], budget - c, if k > 0 then k - 1 else 0);
      }
    }
  }

  // ---- Truncation ----

  /** Truncate keeps the longest code-point prefix whose encoding fits, and wastes at most three
      bytes of room when it cuts. */
  lemma TruncateIsLongestPrefix(s: Text, maximum: nat)
    requires Encodable(s)
    ensures var t := Truncate(s, maximum);
            && t <= s
            && |Encode(t)| <= maximum
            && (forall k :: |t| < k <= |s| ==> |Encode(s[..k])| > maximum)
            && (t != s ==> maximum - |Encode(t)| <= 3)
  {
    var n := Fit(s, maximum);
    FitsWhole(s, maximum);
    assert s[..|s|] == s;
    if |Encode(s)| > maximum {
      DecodeOfPrefix(s, maximum);
    }
    assert Truncate(s, maximum) == s[..n];
    FitIsLongest(s, maximum, n);
    forall k | n < k <= |s| ensures |Encode(s[..k])| > maximum {
      FitIsLongest(s, maximum, k);
    }
  }

  /** Truncate never returns unencodable text. */
  lemma TruncateIsEncodable(s: Text, maximum: nat)
    ensures Encodable(Truncate(s, maximum))
  {
    if Encodable(s) {
      TruncateIsLongestPrefix(s, maximum);
      assert forall i :: 0 <= i < |Truncate(s, maximum)| ==> Truncate(s, maximum)[i] == s[i];
    }
  }

  lemma InvalidSize()
    ensures |Encode(INVALID)| == 17
  {
    AsciiSize(INVALID);
  }

  lemma {:induction false} AsciiSize(s: Text)
    requires forall i :: 0 <= i < |s| ==> s[i] < 0x80
    ensures |Encode(s)| == |s|
  {
    if s != [] {
      AsciiSize(s[1..]);
    }
  }

  /** Truncation is idempotent exactly for encodable text or a limit that holds the 17-byte marker. */
  lemma TruncateIdempotent(s: Text, maximum: nat)
    ensures Truncate(Truncate(s, maximum), maximum) == Truncate(s, maximum) <==> Encodable(s) || maximum >= 17
  {
    InvalidSize();
    if Encodable(s) {
      TruncateIsLongestPrefix(s, maximum);
      TruncateIsEncodable(s, maximum);
    } else {
      TruncateIsLongestPrefix(INVALID, maximum);
    }
  }

  /** A smaller limit only ever shortens what a larger limit keeps. */
  lemma TruncateMonotone(s: Text, smaller: nat, larger: nat)
    requires smaller <= larger
    ensures Truncate(s, smaller) <= Truncate(s, larger)
  {
    if Encodable(s) {
      TruncateIsLongestPrefix(s, smaller);
      TruncateIsLongestPrefix(s, larger);
      var t := Truncate(s, smaller);
      assert s[..|t|] == t;
    }
  }
}
