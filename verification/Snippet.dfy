// Truncating an error body to a byte limit without cutting a UTF-8 sequence.
module Snippet {
  import opened Text
  import opened Wrappers

  type Byte = b: int | 0 <= b < 256

  // Bytes.
  function SnippetMax(): nat { 2048 }

  // Section 3 of RFC 3629.
  function EncodeChar(c: char): (bytes: seq<Byte>)
    ensures 1 <= |bytes| <= 4
    ensures !Continuation(bytes[0])
    ensures forall i :: 1 <= i < |bytes| ==> Continuation(bytes[i])
  {
    var x := c as int;
    if x < 0x80 then [x]
    else if x < 0x800 then [0xC0 + x / 64, 0x80 + x % 64]
    else if x < 0x1_0000 then [0xE0 + x / 4096, 0x80 + x / 64 % 64, 0x80 + x % 64]
    else [0xF0 + x / 262144, 0x80 + x / 4096 % 64, 0x80 + x / 64 % 64, 0x80 + x % 64]
  }

  predicate Continuation(b: Byte) {
    0x80 <= b < 0xC0
  }

  function Encode(s: string): seq<Byte> {
    if s == [] then [] else EncodeChar(s[0]) + Encode(s[1..])
  }

  // str::is_char_boundary looks at one byte only.
  predicate IsCharBoundary(bytes: seq<Byte>, i: nat) {
    i == 0 || i == |bytes| || (i < |bytes| && !Continuation(bytes[i]))
  }

  // ----- reading the bytes back -----

  // The code point a sequence of bytes begins with and how many bytes it takes.
  function DecodeFirst(bytes: seq<Byte>): (int, nat)
    requires bytes != []
  {
    if bytes[0] < 0x80 || |bytes| < 2 then (bytes[0] as int, 1)
    else if bytes[0] < 0xE0 || |bytes| < 3 then ((bytes[0] as int - 0xC0) * 64 + (bytes[1] as int - 0x80), 2)
    else if bytes[0] < 0xF0 || |bytes| < 4 then
      ((bytes[0] as int - 0xE0) * 4096 + (bytes[1] as int - 0x80) * 64 + (bytes[2] as int - 0x80), 3)
    else
      ((bytes[0] as int - 0xF0) * 262144 + (bytes[1] as int - 0x80) * 4096 + (bytes[2] as int - 0x80) * 64
         + (bytes[3] as int - 0x80), 4)
  }

  function Decode(bytes: seq<Byte>): seq<int>
    decreases |bytes|
  {
    if bytes == [] then []
    else
      var (x, n) := DecodeFirst(bytes);
      [x] + Decode(bytes[if n <= |bytes| then n else |bytes|..])
  }

  function CodePoints(s: string): (r: seq<int>)
    ensures |r| == |s| && forall i :: 0 <= i < |r| ==> r[i] == s[i] as int
  {
    if s == [] then [] else [s[0] as int] + CodePoints(s[1..])
  }

  lemma FirstDecodes(c: char, rest: seq<Byte>)
    ensures DecodeFirst(EncodeChar(c) + rest) == (c as int, |EncodeChar(c)|)
  {
    var x, bytes := c as int, EncodeChar(c);
    Digits(x);
    FirstOf(bytes, rest);
    if x < 0x80 {
      assert bytes == [x];
    } else if x < 0x800 {
      TwoBytes(x);
    } else if x < 0x1_0000 {
      ThreeBytes(x);
    } else {
      FourBytes(x);
    }
  }

  // Decoding looks at no byte after the first character's.
  lemma FirstOf(bytes: seq<Byte>, rest: seq<Byte>)
    requires bytes != []
    requires bytes[0] >= 0x80 ==> |bytes| == if bytes[0] < 0xE0 then 2 else if bytes[0] < 0xF0 then 3 else 4
    ensures DecodeFirst(bytes + rest) == DecodeFirst(bytes)
  {
    assert forall i :: 0 <= i < |bytes| ==> (bytes + rest)[i] == bytes[i];
  }

  lemma Digits(x: int)
    ensures x / 64 * 64 + x % 64 == x
    ensures x / 4096 * 4096 + x / 64 % 64 * 64 + x % 64 == x
    ensures x / 262144 * 262144 + x / 4096 % 64 * 4096 + x / 64 % 64 * 64 + x % 64 == x
  {
    assert x / 4096 == x / 64 / 64 && x / 262144 == x / 4096 / 64;
  }

  lemma TwoBytes(x: int)
    requires 0x80 <= x < 0x800
    ensures DecodeFirst([0xC0 + x / 64, 0x80 + x % 64]) == (x, 2)
  {
    Digits(x);
  }

  lemma ThreeBytes(x: int)
    requires 0x800 <= x < 0x1_0000
    ensures DecodeFirst([0xE0 + x / 4096, 0x80 + x / 64 % 64, 0x80 + x % 64]) == (x, 3)
  {
    Digits(x);
  }

  lemma FourBytes(x: int)
    requires 0x1_0000 <= x < 0x11_0000
    ensures DecodeFirst([0xF0 + x / 262144, 0x80 + x / 4096 % 64, 0x80 + x / 64 % 64, 0x80 + x % 64]) == (x, 4)
  {
    Digits(x);
  }

  // Decoding an encoded text gives its characters back.
  lemma {:induction false} EncodeDecodes(s: string)
    ensures Decode(Encode(s)) == CodePoints(s)
  {
    hide EncodeChar, DecodeFirst;
    if s != [] {
      var c, rest := EncodeChar(s[0]), Encode(s[1..]);
      FirstDecodes(s[0], rest);
      assert (c + rest)[|c|..] == rest;
      EncodeDecodes(s[1..]);
    }
  }

  // The marker reads as an ellipsis and "(truncated)".
  lemma MarkerDecodes()
    ensures Decode(Marker()) == [0x2026] + CodePoints("(truncated)")
  {
    hide EncodeChar, Decode, Encode;
    var rest := Encode("(truncated)");
    EncodeDecodes("(truncated)");
    var m: seq<Byte> := Marker();
    assert m == [0xE2, 0x80, 0xA6] + rest;
    assert m[3..] == rest;
    DecodeThree(m);
  }

  lemma DecodeThree(m: seq<Byte>)
    requires |m| >= 3 && m[0] == 0xE2 && m[1] == 0x80 && m[2] == 0xA6
    ensures Decode(m) == [0x2026] + Decode(m[3..])
  {
    assert DecodeFirst(m) == (0x2026, 3);
  }

  // The marker appended to a cut text: an ellipsis and "(truncated)".
  function Marker(): seq<Byte> {
    [0xE2, 0x80, 0xA6] + Encode("(truncated)")
  }

  lemma {:induction false} EncodeConcat(s: string, t: string)
    ensures Encode(s + t) == Encode(s) + Encode(t)
  {
    if s == [] {
      assert s + t == t;
    } else {
      assert (s + t)[1..] == s[1..] + t;
      EncodeConcat(s[1..], t);
    }
  }

  lemma EncodeOne(c: char)
    ensures Encode([c]) == EncodeChar(c)
  {
    hide EncodeChar;
    assert [c][1..] == [];
    assert Encode([c]) == EncodeChar(c) + Encode([]);
  }

  // The encoding of character `k` stands between the encodings of what precedes and follows it.
  lemma {:induction false} EncodeAt(s: string, k: nat)
    requires k < |s|
    ensures Encode(s) == Encode(s[..k]) + EncodeChar(s[k]) + Encode(s[k + 1..])
    ensures Encode(s[..k + 1]) == Encode(s[..k]) + EncodeChar(s[k])
  {
    hide *;
    Cut(s, k);
    EncodeConcat(s[..k + 1], s[k + 1..]);
    EncodeConcat(s[..k], [s[k]]);
    EncodeOne(s[k]);
  }

  lemma Cut(s: string, k: nat)
    requires k < |s|
    ensures s == s[..k + 1] + s[k + 1..] && s[..k + 1] == s[..k] + [s[k]]
  {
  }

  // How many whole characters fit into `limit` bytes.
  ghost predicate Fits(s: string, limit: nat, k: nat) {
    && k < |s|
    && |Encode(s[..k])| <= limit
    && limit < |Encode(s[..k + 1])|
  }

  // A text that is too long has such a prefix, and it falls at most three bytes short.
  lemma {:induction false} FitExists(s: string, limit: nat, n: nat) returns (k: nat)
    requires n <= |s| && |Encode(s[..n])| <= limit < |Encode(s)|
    ensures Fits(s, limit, k) && limit - 3 <= |Encode(s[..k])| <= limit
    decreases |s| - n
  {
    assert s[..|s|] == s;
    if |Encode(s[..n + 1])| > limit {
      k := n;
      EncodeAt(s, k);
    } else {
      k := FitExists(s, limit, n + 1);
    }
  }

  // Inside a character there is no boundary; at its start there is.
  lemma Boundaries(s: string, k: nat, i: nat)
    requires k < |s| && |Encode(s[..k])| <= i < |Encode(s[..k + 1])|
    ensures i < |Encode(s)|
    ensures IsCharBoundary(Encode(s), i) <==> i == |Encode(s[..k])|
  {
    EncodeAt(s, k);
    var head, c := Encode(s[..k]), EncodeChar(s[k]);
    assert Encode(s)[i] == c[i - |head|];
  }

  // The whole trimmed text when it fits, otherwise its longest prefix of whole characters within
  // the limit, and the marker. The back-up loop takes `steps` steps.
  method TruncateSnippet(body: string) returns (r: Option<seq<Byte>>, ghost steps: nat)
    ensures r.None? <==> Trim(body) == []
    ensures r.Some? && |Encode(Trim(body))| <= 2048 ==> r.value == Encode(Trim(body))
    ensures r.Some? && |Encode(Trim(body))| > 2048 ==>
      exists k: nat :: Fits(Trim(body), 2048, k) && r.value == Encode(Trim(body)[..k]) + Marker()
    ensures r.Some? && |Encode(Trim(body))| > 2048 ==>
      2048 - 3 <= |r.value| - |Marker()| <= 2048
    ensures steps <= 3
  {
    hide IsCharBoundary, EncodeChar, Marker, Trim;
    var trimmed := Encode(Trim(body));
    ghost var s := Trim(body);
    steps := 0;
    if trimmed == [] {
      return None, steps;
    }
    if |trimmed| <= SnippetMax() {
      return Some(trimmed), steps;
    }
    assert s[..0] == [];
    ghost var k := FitExists(s, SnippetMax(), 0);
    EncodeAt(s, k);
    var end := SnippetMax();
    while end > 0 && !IsCharBoundary(trimmed, end)
      invariant |Encode(s[..k])| <= end <= SnippetMax()
      invariant steps == SnippetMax() - end
    {
      Boundaries(s, k, end);
      end := end - 1;
      steps := steps + 1;
    }
    Boundaries(s, k, end);
    assert trimmed[..end] == Encode(s[..k]);
    r := Some(trimmed[..end] + Marker());
  }
}
