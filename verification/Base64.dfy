/** Base64 between the attestation server and the prover (section 4 of RFC 4648). Text is a sequence of bytes. */
module Base64 {
  const PAD: bv8 := 61
  const LF: bv8 := 10
  const CR: bv8 := 13

  // ---- The alphabet and its inverse ----

  /** The character of a six-bit value: A-Z, a-z, 0-9, plus, slash. */
  function CharOf(v: bv8): bv8 {
    if v < 26 then v + 65
    else if v < 52 then v + 71
    else if v < 62 then v - 4
    else if v == 62 then 43
    else 47
  }

  /** The decoder's table: 255 for other ASCII characters, and 0 beyond ASCII. */
  function Code(c: bv8): bv8 {
    if 65 <= c <= 90 then c - 65
    else if 97 <= c <= 122 then c - 71
    else if 48 <= c <= 57 then c + 4
    else if c == 43 then 62
    else if c == 47 then 63
    else if c < 128 then 255
    else 0
  }

  lemma CodeInvertsChar(v: bv8)
    requires v < 64
    ensures Code(CharOf(v)) == v && CharOf(v) < 128
    ensures CharOf(v) != PAD && CharOf(v) != LF && CharOf(v) != CR
  {
  }

  // ---- Encoding ----

  function Triple(b0: bv8, b1: bv8, b2: bv8): bv32 {
    ((b0 as bv32) << 16) | ((b1 as bv32) << 8) | (b2 as bv32)
  }

  function Low6(x: bv32): (r: bv8)
    ensures r < 64
  {
    (x & 0x3F) as bv8
  }

  function Low8(x: bv32): bv8 { (x & 0xFF) as bv8 }

  /** The three bytes of a group, with zeros beyond a short one. */
  function TripleOf(chunk: seq<bv8>): bv32
    requires 1 <= |chunk| <= 3
  {
    Triple(At(chunk, 0), At(chunk, 1), At(chunk, 2))
  }

  function At(chunk: seq<bv8>, k: nat): bv8 { if k < |chunk| then chunk[k] else 0 }

  function SixBits(t: bv32, k: nat): (r: bv8)
    ensures r < 64
  {
    if k == 0 then Low6(t >> 18) else if k == 1 then Low6(t >> 12) else if k == 2 then Low6(t >> 6) else Low6(t)
  }

  /** Four characters for up to three bytes, padded beyond a short group. */
  function EncodeChunk(chunk: seq<bv8>): (r: seq<bv8>)
    requires 1 <= |chunk| <= 3
    ensures |r| == 4
  {
    seq(4, k requires 0 <= k < 4 => if k <= |chunk| then CharOf(SixBits(TripleOf(chunk), k)) else PAD)
  }

  function Encode(data: seq<bv8>): seq<bv8> {
    if |data| == 0 then []
    else if |data| <= 3 then EncodeChunk(data)
    else EncodeChunk(data[..3]) + Encode(data[3..])
  }

  /** The body of the encoder's loop. */
  method EncodeGroup(chunk: seq<bv8>) returns (out: seq<bv8>)
    requires 1 <= |chunk| <= 3
    ensures out == EncodeChunk(chunk)
  {
    var b0, b1, b2 := At(chunk, 0), At(chunk, 1), At(chunk, 2);
    out := PushChars(Triple(b0, b1, b2), |chunk|);
  }

  method PushChars(triple: bv32, bytes: nat) returns (out: seq<bv8>)
    requires 1 <= bytes <= 3
    ensures |out| == 4
    ensures forall k: nat :: k < 4 ==> out[k] == if k <= bytes then CharOf(SixBits(triple, k)) else PAD
  {
    out := [CharOf(SixBits(triple, 0))];
    out := out + [CharOf(SixBits(triple, 1))];
    if bytes > 1 {
      out := out + [CharOf(SixBits(triple, 2))];
    } else {
      out := out + [PAD];
    }
    if bytes > 2 {
      out := out + [CharOf(SixBits(triple, 3))];
    } else {
      out := out + [PAD];
    }
  }

  function Front(s: seq<bv8>, n: nat): seq<bv8> { if |s| <= n then s else s[..n] }

  lemma EncodeStep(data: seq<bv8>)
    requires data != []
    ensures Encode(data) == EncodeChunk(Front(data, 3)) + Encode(data[|Front(data, 3)|..])
  {
    if |data| <= 3 {
      assert data[|data|..] == [];
    }
  }

  method Base64Encode(data: seq<bv8>) returns (result: seq<bv8>)
    ensures result == Encode(data)
  {
    result := [];
    var rest := data;
    while rest != []
      invariant result + Encode(rest) == Encode(data)
      decreases |rest|
    {
      EncodeStep(rest);
      var chunk := Front(rest, 3);
      var group := EncodeGroup(chunk);
      result := result + group;
      rest := rest[|chunk|..];
    }
  }

  /** Four characters for every three bytes begun. */
  lemma {:induction false} EncodedLength(data: seq<bv8>)
    ensures |Encode(data)| == 4 * ((|data| + 2) / 3)
    decreases |data|
  {
    if |data| > 3 {
      EncodedLength(data[3..]);
    }
  }

  // ---- Decoding ----

  predicate Ignored(c: bv8) { c == PAD || c == LF || c == CR }

  function Strip(s: seq<bv8>): seq<bv8> {
    if s == [] then [] else (if Ignored(s[0]) then [] else [s[0]]) + Strip(s[1..])
  }

  /** One to three bytes for up to four characters; missing characters count as zero. */
  function DecodeChunk(chunk: seq<bv8>): seq<bv8>
    requires 1 <= |chunk| <= 4
  {
    BytesOf(Sextets(CodeAt(chunk, 0), CodeAt(chunk, 1), CodeAt(chunk, 2), CodeAt(chunk, 3)), |chunk|)
  }

  function CodeAt(chunk: seq<bv8>, k: nat): bv8 { if k < |chunk| then Code(chunk[k]) else 0 }

  function ByteAt(t: bv32, k: nat): bv8 { if k == 0 then Low8(t >> 16) else if k == 1 then Low8(t >> 8) else Low8(t) }

  /** The first byte always, the second from three characters on, the third from four. */
  function BytesOf(t: bv32, characters: nat): seq<bv8> {
    seq(if characters > 3 then 3 else if characters > 2 then 2 else 1, k requires 0 <= k => ByteAt(t, k))
  }

  function Sextets(a: bv8, b: bv8, c: bv8, d: bv8): bv32 {
    ((a as bv32) << 18) | ((b as bv32) << 12) | ((c as bv32) << 6) | (d as bv32)
  }

  function DecodeChunks(s: seq<bv8>): seq<bv8> {
    if |s| == 0 then []
    else if |s| <= 4 then DecodeChunk(s)
    else DecodeChunk(s[..4]) + DecodeChunks(s[4..])
  }

  function Decode(s: seq<bv8>): seq<bv8> { DecodeChunks(Strip(s)) }

  method StripIgnored(s: seq<bv8>) returns (bytes: seq<bv8>)
    ensures bytes == Strip(s)
  {
    bytes := [];
    for k := 0 to |s|
      invariant bytes + Strip(s[k..]) == Strip(s)
    {
      assert s[k..][1..] == s[k + 1..];
      if !Ignored(s[k]) {
        bytes := bytes + [s[k]];
      }
    }
  }

  method FillBuffer(chunk: seq<bv8>) returns (buf: array<bv8>)
    requires 1 <= |chunk| <= 4
    ensures fresh(buf) && buf.Length == 4 && forall k: nat :: k < 4 ==> buf[k] == CodeAt(chunk, k)
  {
    buf := new bv8[4](_ => 0);
    for i := 0 to |chunk|
      invariant forall k: nat :: k < 4 ==> buf[k] == if k < i then CodeAt(chunk, k) else 0
    {
      buf[i] := Code(chunk[i]);
    }
  }

  /** The body of the decoder's loop. */
  method DecodeGroupOf(chunk: seq<bv8>) returns (out: seq<bv8>)
    requires 1 <= |chunk| <= 4
    ensures out == DecodeChunk(chunk)
  {
    var buf := FillBuffer(chunk);
    out := PushBytes(Sextets(buf[0], buf[1], buf[2], buf[3]), |chunk|);
  }

  method PushBytes(triple: bv32, characters: nat) returns (out: seq<bv8>)
    ensures out == BytesOf(triple, characters)
  {
    out := [ByteAt(triple, 0)];
    if characters > 2 {
      out := out + [ByteAt(triple, 1)];
    }
    if characters > 3 {
      out := out + [ByteAt(triple, 2)];
    }
  }

  lemma DecodeStep(s: seq<bv8>)
    requires s != []
    ensures DecodeChunks(s) == DecodeChunk(Front(s, 4)) + DecodeChunks(s[|Front(s, 4)|..])
  {
    if |s| <= 4 {
      assert s[|s|..] == [];
    }
  }

  method Base64Decode(s: seq<bv8>) returns (out: seq<bv8>)
    ensures out == Decode(s)
  {
    var bytes := StripIgnored(s);
    out := [];
    var rest := bytes;
    while rest != []
      invariant out + DecodeChunks(rest) == DecodeChunks(bytes)
      decreases |rest|
    {
      DecodeStep(rest);
      var chunk := Front(rest, 4);
      var group := DecodeGroupOf(chunk);
      out := out + group;
      rest := rest[|chunk|..];
    }
  }

  // ---- Round trip ----

  /** Six bits at a time, a group of three bytes comes back. */
  lemma SextetsRebuild(b0: bv8, b1: bv8, b2: bv8)
    ensures var t := Triple(b0, b1, b2); Sextets(Low6(t >> 18), Low6(t >> 12), Low6(t >> 6), Low6(t)) == t
  {
  }

  lemma BytesOfTriple(b0: bv8, b1: bv8, b2: bv8)
    ensures var t := Triple(b0, b1, b2); Low8(t >> 16) == b0 && Low8(t >> 8) == b1 && Low8(t) == b2
  {
  }

  /** Low bits of a short group are zero, so what the padding replaces decodes as zero. */
  lemma ShortGroups(b0: bv8, b1: bv8)
    ensures Low6(Triple(b0, b1, 0)) == 0
    ensures Low6(Triple(b0, 0, 0)) == 0 && Low6(Triple(b0, 0, 0) >> 6) == 0
  {
  }

  lemma ShortGroup(chunk: seq<bv8>, k: nat)
    requires 1 <= |chunk| <= 3 && |chunk| < k < 4
    ensures SixBits(TripleOf(chunk), k) == 0
  {
    ShortGroups(At(chunk, 0), At(chunk, 1));
  }

  lemma ByteOfTriple(b0: bv8, b1: bv8, b2: bv8, k: nat)
    requires k < 3
    ensures ByteAt(Triple(b0, b1, b2), k) == if k == 0 then b0 else if k == 1 then b1 else b2
  {
    BytesOfTriple(b0, b1, b2);
  }

  lemma ByteOfChunk(chunk: seq<bv8>, k: nat)
    requires 1 <= |chunk| <= 3 && k < |chunk|
    ensures ByteAt(TripleOf(chunk), k) == chunk[k]
  {
    ByteOfTriple(At(chunk, 0), At(chunk, 1), At(chunk, 2), k);
  }

  lemma BytesOfChunk(chunk: seq<bv8>)
    requires 1 <= |chunk| <= 3
    ensures BytesOf(TripleOf(chunk), |chunk| + 1) == chunk
  {
    forall k: nat | k < |chunk|
      ensures ByteAt(TripleOf(chunk), k) == chunk[k]
    {
      ByteOfChunk(chunk, k);
    }
  }

  /** The characters of a group without its padding. */
  function Unpadded(chunk: seq<bv8>): seq<bv8>
    requires 1 <= |chunk| <= 3
  {
    EncodeChunk(chunk)[..|chunk| + 1]
  }

  lemma StripKeeps(s: seq<bv8>)
    requires forall i :: 0 <= i < |s| ==> !Ignored(s[i])
    ensures Strip(s) == s
  {
    if s != [] {
      StripKeeps(s[1..]);
    }
  }

  lemma StripDrops(s: seq<bv8>)
    requires forall i :: 0 <= i < |s| ==> Ignored(s[i])
    ensures Strip(s) == []
  {
    if s != [] {
      StripDrops(s[1..]);
    }
  }

  lemma StripCons(b: bv8, s: seq<bv8>)
    ensures Strip([b] + s) == (if Ignored(b) then [] else [b]) + Strip(s)
  {
    assert ([b] + s)[1..] == s;
  }

  lemma {:induction false} StripConcat(s: seq<bv8>, t: seq<bv8>)
    ensures Strip(s + t) == Strip(s) + Strip(t)
  {
    if s == [] {
      assert s + t == t;
    } else {
      var b, rest := s[0], s[1..];
      assert s == [b] + rest;
      assert s + t == [b] + (rest + t);
      StripConcat(rest, t);
      StripCons(b, rest);
      StripCons(b, rest + t);
    }
  }

  lemma StripChunk(chunk: seq<bv8>)
    requires 1 <= |chunk| <= 3
    ensures Strip(EncodeChunk(chunk)) == Unpadded(chunk)
  {
    var e, n := EncodeChunk(chunk), |chunk| + 1;
    forall k | 0 <= k < n
      ensures !Ignored(e[..n][k])
    {
      CodeInvertsChar(SixBits(TripleOf(chunk), k));
    }
    StripKeeps(e[..n]);
    StripDrops(e[n..]);
    StripConcat(e[..n], e[n..]);
    assert e[..n] + e[n..] == e;
  }

  /** Character by character, the decoder reads the six-bit values of the group. */
  lemma CodesOfUnpadded(chunk: seq<bv8>, k: nat)
    requires 1 <= |chunk| <= 3 && k < 4
    ensures CodeAt(Unpadded(chunk), k) == SixBits(TripleOf(chunk), k)
  {
    if k <= |chunk| {
      CodeInvertsChar(SixBits(TripleOf(chunk), k));
    } else {
      ShortGroup(chunk, k);
    }
  }

  lemma SextetsOfChunk(chunk: seq<bv8>)
    requires 1 <= |chunk| <= 3
    ensures var t := TripleOf(chunk); Sextets(SixBits(t, 0), SixBits(t, 1), SixBits(t, 2), SixBits(t, 3)) == t
  {
    SextetsRebuild(At(chunk, 0), At(chunk, 1), At(chunk, 2));
  }

  lemma DecodeUnpadded(chunk: seq<bv8>)
    requires 1 <= |chunk| <= 3
    ensures DecodeChunk(Unpadded(chunk)) == chunk
  {
    CodesOfUnpadded(chunk, 0);
    CodesOfUnpadded(chunk, 1);
    CodesOfUnpadded(chunk, 2);
    CodesOfUnpadded(chunk, 3);
    SextetsOfChunk(chunk);
    BytesOfChunk(chunk);
  }

  /** Decoding what was encoded gives back every byte sequence. */
  lemma {:induction false} RoundTrip(data: seq<bv8>)
    ensures Decode(Encode(data)) == data
    decreases |data|
  {
    if |data| == 0 {
    } else if |data| <= 3 {
      StripChunk(data);
      DecodeUnpadded(data);
    } else {
      var head, tail := data[..3], data[3..];
      RoundTrip(tail);
      StripConcat(EncodeChunk(head), Encode(tail));
      StripChunk(head);
      DecodeUnpadded(head);
      DecodeGroup(Unpadded(head), Strip(Encode(tail)));
      assert Decode(Encode(data)) == DecodeChunk(Unpadded(head)) + Decode(Encode(tail));
    }
  }

  lemma DecodeGroup(group: seq<bv8>, rest: seq<bv8>)
    requires |group| == 4
    ensures DecodeChunks(group + rest) == DecodeChunk(group) + DecodeChunks(rest)
  {
    if rest == [] {
      assert group + rest == group;
    } else {
      assert (group + rest)[..4] == group && (group + rest)[4..] == rest;
    }
  }

  /** Line breaks anywhere in the text change nothing. */
  lemma LineBreaksDoNotMatter(s: seq<bv8>, t: seq<bv8>)
    ensures Decode(s + [CR, LF] + t) == Decode(s + t)
  {
    StripConcat(s + [CR, LF], t);
    StripConcat(s, [CR, LF]);
    StripConcat(s, t);
    StripDrops([CR, LF]);
    assert Strip(s) + [] == Strip(s);
  }
}
