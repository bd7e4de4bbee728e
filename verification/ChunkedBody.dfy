/** Decoding of HTTP chunked transfer coding (section 7.1 of RFC 9112) in the verifier. Text is ASCII. */
module ChunkedBody {
  import opened Wrappers
  import opened Numerals
  import opened Text
  import opened Search

  /** The body, a refusal, or an arithmetic overflow of the 64-bit position, which aborts. */
  datatype Outcome = Body(text: string) | Malformed | Overflow

  const USIZE_LIMIT: nat := 0x1_0000_0000_0000_0000

  /** An unsigned hexadecimal number with an optional plus sign, within 64 bits. */
  function ParseSize(s: string): Option<nat> {
    var n := Parse(if |s| > 1 && s[0] == '+' then s[1..] else s, 16);
    if n.Some? && n.value < USIZE_LIMIT then n else None
  }

  /** One turn of the loop: refuse, stop at the last chunk, stop after truncated data, or go on with the rest. */
  datatype Turn = Refuse(outcome: Outcome) | Last | Truncated(data: string) | More(data: string, rest: string)

  function TurnOf(remaining: string): (t: Turn)
    ensures t.More? ==> |t.rest| < |remaining|
  {
    FindCrlfMeans(remaining, 0);
    var crlf := FindCrlf(remaining, 0);
    if crlf.None? then Refuse(Malformed) else AfterSize(remaining, crlf.value, ParseSize(Trim(remaining[..crlf.value])))
  }

  function AfterSize(remaining: string, crlf: nat, size: Option<nat>): (t: Turn)
    requires crlf + 2 <= |remaining|
    ensures t.More? ==> |t.rest| < |remaining|
  {
    if size.None? then Refuse(Malformed)
    else if size.value == 0 then Last
    else
      var start := crlf + 2;
      var end := start + size.value;
      if end >= USIZE_LIMIT then Refuse(Overflow)
      else if end > |remaining| then Refuse(Malformed)
      else if end + 2 > |remaining| then Truncated(remaining[start..end])
      else More(remaining[start..end], remaining[end + 2..])
  }

  function DecodeFrom(remaining: string, result: string): Outcome
    decreases |remaining|
  {
    match TurnOf(remaining)
    case Refuse(o) => o
    case Last => Body(result)
    case Truncated(data) => Body(result + data)
    case More(data, rest) => DecodeFrom(rest, result + data)
  }

  /** The statements of one turn. */
  method ReadChunk(remaining: string) returns (turn: Turn)
    ensures turn == TurnOf(remaining)
  {
    FindCrlfMeans(remaining, 0);
    var crlfPos := FindCrlf(remaining, 0);
    if crlfPos.None? {
      return Refuse(Malformed);
    }
    var chunkSize := ParseSize(Trim(remaining[..crlfPos.value]));
    if chunkSize.None? {
      return Refuse(Malformed);
    }
    if chunkSize.value == 0 {
      return Last;
    }
    var dataStart := crlfPos.value + 2;
    if dataStart + chunkSize.value >= USIZE_LIMIT {
      return Refuse(Overflow);
    }
    if dataStart + chunkSize.value > |remaining| {
      return Refuse(Malformed);
    }
    var data := remaining[dataStart..dataStart + chunkSize.value];
    var nextStart := dataStart + chunkSize.value + 2;
    if nextStart > |remaining| {
      return Truncated(data);
    }
    return More(data, remaining[nextStart..]);
  }

  /** The decoder's loop; what remains gets strictly shorter, so it ends on every input. */
  method DecodeChunkedBody(raw: string) returns (outcome: Outcome)
    ensures outcome == DecodeFrom(raw, "")
  {
    var result := "";
    var turn := ReadChunk(raw);
    ghost var remaining := raw;
    while turn.More?
      invariant turn == TurnOf(remaining) && DecodeFrom(remaining, result) == DecodeFrom(raw, "")
      decreases |remaining|
    {
      result := result + turn.data;
      remaining := turn.rest;
      turn := ReadChunk(turn.rest);
    }
    return match turn
      case Refuse(o) => o
      case Last => Body(result)
      case Truncated(data) => Body(result + data);
  }

  // ---- Encodings ----

  /** A chunk as a sender wrote it: its size line and its data. */
  datatype Chunk = Chunk(line: string, data: string)

  predicate NoCr(s: string) { forall i :: 0 <= i < |s| ==> s[i] != '\r' }

  /** The size line says the length of the data, in any accepted spelling: either case, leading zeros, spaces around. */
  predicate WellSized(c: Chunk) { NoCr(c.line) && ParseSize(Trim(c.line)) == Some(|c.data|) }

  const CRLF: string := "\r\n"

  function Written(c: Chunk): string { c.line + CRLF + c.data + CRLF }

  function Encoded(chunks: seq<Chunk>): string {
    if chunks == [] then "" else Written(chunks[0]) + Encoded(chunks[1..])
  }

  function Contents(chunks: seq<Chunk>): string {
    if chunks == [] then "" else chunks[0].data + Contents(chunks[1..])
  }

  lemma FirstCrlf(line: string, rest: string)
    requires NoCr(line)
    ensures FindCrlf(line + CRLF + rest, 0) == Some(|line|)
    ensures (line + CRLF + rest)[..|line|] == line && (line + CRLF + rest)[|line| + 2..] == rest
  {
    var s := line + CRLF + rest;
    FindCrlfMeans(s, 0);
    assert CrlfAt(s, |line|);
    forall i: nat | i < |line|
      ensures !CrlfAt(s, i)
    {
      assert s[i] == line[i];
    }
  }

  lemma WrittenParts(c: Chunk, rest: string)
    ensures var s, start := Written(c) + rest, |c.line| + 2;
      && s == c.line + CRLF + (c.data + CRLF + rest)
      && |s| == start + |c.data| + 2 + |rest|
      && s[start..start + |c.data|] == c.data
      && s[start + |c.data| + 2..] == rest
  {
  }

  /** One well-sized, non-empty chunk is consumed whole. */
  lemma TurnOfWritten(c: Chunk, rest: string)
    requires WellSized(c) && c.data != "" && |c.line| + 2 + |c.data| < USIZE_LIMIT
    ensures TurnOf(Written(c) + rest) == More(c.data, rest)
  {
    WrittenParts(c, rest);
    FirstCrlf(c.line, c.data + CRLF + rest);
    assert AfterSize(Written(c) + rest, |c.line|, Some(|c.data|)) == More(c.data, rest);
  }

  lemma DecodeOne(c: Chunk, rest: string, result: string)
    requires WellSized(c) && c.data != "" && |c.line| + 2 + |c.data| < USIZE_LIMIT
    ensures DecodeFrom(Written(c) + rest, result) == DecodeFrom(rest, result + c.data)
  {
    TurnOfWritten(c, rest);
  }

  lemma DecodeLast(zero: string, rest: string, result: string)
    requires NoCr(zero) && ParseSize(Trim(zero)) == Some(0)
    ensures DecodeFrom(zero + CRLF + rest, result) == Body(result)
  {
    FirstCrlf(zero, rest);
  }

  /**
   Decoding inverts encoding: whatever spelling the sizes have, and whatever trailer follows the last chunk, the
   decoder returns the concatenated data. A text in memory is shorter than 2^64.
   */
  lemma {:induction false} DecodeInvertsEncode(chunks: seq<Chunk>, zero: string, trailer: string, result: string)
    requires forall i :: 0 <= i < |chunks| ==> WellSized(chunks[i]) && chunks[i].data != ""
    requires NoCr(zero) && ParseSize(Trim(zero)) == Some(0)
    requires |Encoded(chunks)| < USIZE_LIMIT
    ensures DecodeFrom(Encoded(chunks) + zero + CRLF + trailer, result) == Body(result + Contents(chunks))
  {
    if chunks == [] {
      assert Encoded(chunks) + zero + CRLF + trailer == zero + CRLF + trailer;
      DecodeLast(zero, trailer, result);
      assert result + "" == result;
    } else {
      var c, more := chunks[0], chunks[1..];
      Regroup(Written(c), Encoded(more), zero, CRLF, trailer);
      DecodeOne(c, Encoded(more) + zero + CRLF + trailer, result);
      DecodeInvertsEncode(more, zero, trailer, result + c.data);
      Associate(result, c.data, Contents(more));
    }
  }

  lemma Regroup(a: string, b: string, c: string, d: string, e: string)
    ensures a + b + c + d + e == a + (b + c + d + e)
  {
  }

  lemma Associate(a: string, b: string, c: string)
    ensures a + b + c == a + (b + c)
  {
  }

  // ---- The canonical encoding ----

  lemma {:induction false} NumeralIsPlain(n: nat)
    ensures Numeral(n, 16) != "" && AllDigits(Numeral(n, 16), 16)
    decreases n
  {
    if n >= 16 {
      NumeralIsPlain(n / 16);
    }
  }

  lemma PlainIsTrimmed(s: string)
    requires s != "" && AllDigits(s, 16)
    ensures Trim(s) == s && NoCr(s) && s[0] != '+'
  {
    assert IsDigit(s[|s| - 1], 16) && IsDigit(s[0], 16);
    assert TrimEnd(s) == s;
  }

  /** Sizes written in shortest hexadecimal are well sized. */
  lemma CanonicalIsWellSized(data: string)
    requires |data| < USIZE_LIMIT
    ensures WellSized(Chunk(Numeral(|data|, 16), data))
  {
    NumeralIsPlain(|data|);
    PlainIsTrimmed(Numeral(|data|, 16));
    NumeralRoundTrip(|data|, 16);
  }

  function Canonical(parts: seq<string>): seq<Chunk> {
    seq(|parts|, i requires 0 <= i < |parts| => Chunk(Numeral(|parts[i]|, 16), parts[i]))
  }

  function Concat(parts: seq<string>): string {
    if parts == [] then "" else parts[0] + Concat(parts[1..])
  }

  lemma {:induction false} CanonicalContents(parts: seq<string>)
    ensures Contents(Canonical(parts)) == Concat(parts)
  {
    if parts != [] {
      CanonicalContents(parts[1..]);
      assert Canonical(parts)[1..] == Canonical(parts[1..]);
    }
  }

  lemma {:induction false} PartsAreShort(chunks: seq<Chunk>, i: nat)
    requires i < |chunks|
    ensures |chunks[i].data| < |Encoded(chunks)|
  {
    if i > 0 {
      PartsAreShort(chunks[1..], i - 1);
    }
  }

  /** For every list of non-empty parts, decoding their chunked coding gives their concatenation. */
  lemma ChunkedRoundTrip(parts: seq<string>)
    requires forall i :: 0 <= i < |parts| ==> parts[i] != ""
    requires |Encoded(Canonical(parts))| < USIZE_LIMIT
    ensures DecodeFrom(Encoded(Canonical(parts)) + "0" + CRLF + CRLF, "") == Body(Concat(parts))
  {
    var chunks := Canonical(parts);
    forall i | 0 <= i < |chunks|
      ensures WellSized(chunks[i])
    {
      PartsAreShort(chunks, i);
      CanonicalIsWellSized(parts[i]);
    }
    CanonicalIsWellSized("");
    assert Numeral(0, 16) == "0";
    DecodeInvertsEncode(chunks, "0", CRLF, "");
    CanonicalContents(parts);
    assert "" + Concat(parts) == Concat(parts);
  }

  /** Without the last chunk, the data is accepted only when the line end after it is missing too. */
  lemma MissingLastChunk(c: Chunk, result: string)
    requires WellSized(c) && c.data != "" && |c.line| + 2 + |c.data| < USIZE_LIMIT
    ensures DecodeFrom(Written(c), result) == Malformed
    ensures DecodeFrom(c.line + CRLF + c.data, result) == Body(result + c.data)
  {
    DecodeOne(c, "", result);
    assert Written(c) + "" == Written(c);
    FindCrlfMeans("", 0);
    FirstCrlf(c.line, c.data);
    var s := c.line + CRLF + c.data;
    assert s[|c.line| + 2..|s|] == c.data;
  }
}
