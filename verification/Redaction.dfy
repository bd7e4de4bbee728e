/**
 Selective disclosure of a sent request: which bytes hide the values of the named headers, and which are revealed.
 Requests are ASCII, one character to a byte.
 */
module Redaction {
  import opened Wrappers
  import opened Text
  import opened Search

  /** Bytes from `start` up to, not including, `end`. */
  datatype Range = Range(start: nat, end: nat)

  // ---- Searching ----

  predicate BlankAt(s: string, i: nat) { CrlfAt(s, i) && CrlfAt(s, i + 2) }

  predicate ColonAt(s: string, i: nat) { i < |s| && s[i] == ':' }

  function FindBlank(s: string): Option<nat> { First(|s|, (i: nat) => BlankAt(s, i), 0) }

  function FindColon(s: string): Option<nat> { First(|s|, (i: nat) => ColonAt(s, i), 0) }

  lemma FindBlankMeans(s: string)
    ensures var r := FindBlank(s);
      && (r.Some? ==> BlankAt(s, r.value))
      && (forall i: nat :: (r.Some? ==> i < r.value) ==> !BlankAt(s, i))
  {
    var p := (i: nat) => BlankAt(s, i);
    FirstIsFirst(|s|, p, 0);
    forall i: nat | FindBlank(s).Some? ==> i < FindBlank(s).value
      ensures !BlankAt(s, i)
    {
      assert i < |s| ==> !p(i);
    }
  }

  lemma FindColonMeans(s: string)
    ensures var r := FindColon(s);
      && (r.Some? ==> r.value < |s| && s[r.value] == ':')
      && (forall i: nat :: i < (if r.Some? then r.value else |s|) ==> s[i] != ':')
  {
    var p := (i: nat) => ColonAt(s, i);
    FirstIsFirst(|s|, p, 0);
    forall i: nat | i < (if FindColon(s).Some? then FindColon(s).value else |s|)
      ensures s[i] != ':'
    {
      assert !p(i);
    }
  }

  // ---- The header section ----

  /** Where the header section starts and ends; nothing without a first line end. */
  function Section(sent: string): Option<(nat, nat)> {
    var first := FindCrlf(sent, 0);
    if first.None? then None
    else
      var blank := FindBlank(sent);
      Some((first.value + 2, if blank.Some? then blank.value else |sent|))
  }

  /** A request whose first line is followed at once by the blank line has no header line, and slicing fails on it. */
  predicate Sliceable(sent: string) {
    Section(sent).None? || Section(sent).value.0 <= Section(sent).value.1
  }

  /** Slicing fails exactly when the first line end already starts the blank line. */
  lemma SliceableIff(sent: string)
    ensures Sliceable(sent) <==> !(FindCrlf(sent, 0).Some? && BlankAt(sent, FindCrlf(sent, 0).value))
    ensures Section(sent).Some? && Sliceable(sent) ==> Section(sent).value.1 <= |sent|
  {
    FindCrlfMeans(sent, 0);
    FindBlankMeans(sent);
    var first, blank := FindCrlf(sent, 0), FindBlank(sent);
    if first.Some? && blank.Some? {
      assert first.value <= blank.value;
      assert first.value + 1 != blank.value;
    }
  }

  // ---- Redacted ranges ----

  function LeadingSpaces(s: string): nat {
    if s != "" && IsSpace(s[0]) then 1 + LeadingSpaces(s[1..]) else 0
  }

  lemma {:induction false} LeadingSpacesMeans(s: string)
    ensures var n := LeadingSpaces(s);
      && n <= |s| && (forall i :: 0 <= i < n ==> IsSpace(s[i])) && (n < |s| ==> !IsSpace(s[n]))
      && n == |s| - |TrimStart(s)|
  {
    if s != "" && IsSpace(s[0]) {
      LeadingSpacesMeans(s[1..]);
      forall i | 0 <= i < LeadingSpaces(s)
        ensures IsSpace(s[i])
      {
        assert i > 0 ==> s[i] == s[1..][i - 1];
      }
    }
  }

  predicate Named(names: seq<string>, name: string) {
    exists k :: 0 <= k < |names| && Lower(names[k]) == Lower(name)
  }

  /** The value bytes of one header line that starts at `offset`. */
  function LineRange(line: string, offset: nat, names: seq<string>): Option<Range> {
    var colon := FindColon(line);
    if colon.None? || colon.value >= |line| then None
    else
      var start := colon.value + 1 + LeadingSpaces(line[colon.value + 1..]);
      if Named(names, Trim(line[..colon.value])) && start < |line|
      then Some(Range(offset + start, offset + |line|))
      else None
  }

  function LineEnd(section: string, from: nat): (e: nat)
    requires from <= |section|
    ensures from <= e <= |section|
  {
    var r := FindCrlf(section, from);
    FindCrlfMeans(section, from);
    if r.Some? then r.value else |section|
  }

  function Listed(r: Option<Range>): seq<Range> { if r.Some? then [r.value] else [] }

  /** A line of the section, from `start` up to, not including, `end`. */
  datatype Line = Line(start: nat, end: nat)

  /** The lines from `from` on, as splitting at line ends gives them. */
  function Lines(section: string, from: nat): (lines: seq<Line>)
    requires from <= |section|
    ensures lines != [] && lines[0].start == from
    decreases |section| - from
  {
    var e := LineEnd(section, from);
    [Line(from, e)] + (if e + 2 <= |section| then Lines(section, e + 2) else [])
  }

  /** Lines lie within the section, one after the other, two bytes apart. */
  predicate Chained(lines: seq<Line>, total: nat) {
    && (forall k :: 0 <= k < |lines| ==> lines[k].start <= lines[k].end <= total)
    && (forall k :: 0 < k < |lines| ==> lines[k].start == lines[k - 1].end + 2)
  }

  lemma {:induction false} LinesAreChained(section: string, from: nat)
    requires from <= |section|
    ensures Chained(Lines(section, from), |section|)
    decreases |section| - from
  {
    var e := LineEnd(section, from);
    if e + 2 <= |section| {
      LinesAreChained(section, e + 2);
      ChainedCons(Line(from, e), Lines(section, e + 2), |section|);
    }
  }

  lemma ChainedCons(line: Line, lines: seq<Line>, total: nat)
    requires Chained(lines, total) && lines != [] && lines[0].start == line.end + 2 && line.start <= line.end <= total
    ensures Chained([line] + lines, total)
  {
  }

  /** What is redacted of a line at an offset. */
  type Picker = (string, nat) -> Option<Range>

  function ByName(names: seq<string>): Picker { (line: string, offset: nat) => LineRange(line, offset, names) }

  function RangeOf(section: string, line: Line, base: nat, pick: Picker): seq<Range>
    requires line.start <= line.end <= |section|
  {
    Listed(pick(section[line.start..line.end], base + line.start))
  }

  /** The redacted ranges of some lines, in order. */
  function Ranges(section: string, lines: seq<Line>, base: nat, pick: Picker): seq<Range>
    requires Chained(lines, |section|)
  {
    if lines == [] then []
    else Ranges(section, lines[..|lines| - 1], base, pick) + RangeOf(section, lines[|lines| - 1], base, pick)
  }

  function RedactedRanges(sent: string, names: seq<string>): seq<Range>
    requires Sliceable(sent)
  {
    SliceableIff(sent);
    if names == [] || Section(sent).None? then []
    else
      var (start, end) := Section(sent).value;
      LinesAreChained(sent[start..end], 0);
      Ranges(sent[start..end], Lines(sent[start..end], 0), start, ByName(names))
  }

  /** The line-by-line loop; failing to slice is reported as absence. */
  method FindHeaderValueRanges(sent: string, names: seq<string>) returns (r: Option<seq<Range>>)
    ensures r.Some? <==> names == [] || Sliceable(sent)
    ensures r.Some? && Sliceable(sent) ==> r.value == RedactedRanges(sent, names)
    ensures names == [] ==> r == Some([])
  {
    if names == [] {
      return Some([]);
    }
    SliceableIff(sent);
    var first := FindCrlf(sent, 0);
    if first.None? {
      return Some([]);
    }
    var headerStart := first.value + 2;
    var blank := FindBlank(sent);
    var headerEnd := if blank.Some? then blank.value else |sent|;
    if headerStart > headerEnd {
      return None;
    }
    var section := sent[headerStart..headerEnd];
    LinesAreChained(section, 0);
    var ranges := ScanLines(section, Lines(section, 0), headerStart, ByName(names));
    return Some(ranges);
  }

  /** The loop over the lines, keeping the offset of each. */
  method ScanLines(section: string, lines: seq<Line>, base: nat, pick: Picker) returns (ranges: seq<Range>)
    requires Chained(lines, |section|) && (lines != [] ==> lines[0].start == 0)
    ensures ranges == Ranges(section, lines, base, pick)
  {
    ranges := [];
    var offset := base;
    for k := 0 to |lines|
      invariant k < |lines| ==> offset == base + lines[k].start
      invariant ranges == Ranges(section, lines[..k], base, pick)
    {
      RangesSnoc(section, lines, k, base, pick);
      var line := section[lines[k].start..lines[k].end];
      ranges := ranges + Listed(pick(line, offset));
      offset := offset + |line| + 2;
    }
    assert lines[..|lines|] == lines;
  }

  lemma RangesSnoc(section: string, lines: seq<Line>, k: nat, base: nat, pick: Picker)
    requires Chained(lines, |section|) && k < |lines|
    ensures Ranges(section, lines[..k + 1], base, pick)
         == Ranges(section, lines[..k], base, pick) + RangeOf(section, lines[k], base, pick)
  {
    assert lines[..k + 1][..k] == lines[..k];
  }

  // ---- What a value byte is ----

  /** A header line of the section: between line ends, with none inside. */
  predicate HeaderLine(section: string, s: nat, e: nat) {
    && s <= e <= |section|
    && (s == 0 || (s >= 2 && CrlfAt(section, s - 2)))
    && (e == |section| || CrlfAt(section, e))
    && (forall i: nat :: s <= i < e ==> !CrlfAt(section, i))
  }

  /** Position b lies in the value of the line s..e: after its first colon, at or after a byte that is not a space. */
  predicate InValue(section: string, s: nat, e: nat, names: seq<string>, b: nat)
    requires s <= e <= |section|
  {
    exists c: nat :: s <= c < b < e && ValueAfter(section, s, c, names, b)
  }

  /** The line from s has its first colon at c, a named header before it, and some byte up to b that is not a space. */
  predicate ValueAfter(section: string, s: nat, c: nat, names: seq<string>, b: nat)
    requires s <= c < b < |section|
  {
    && section[c] == ':' && (forall i: nat :: s <= i < c ==> section[i] != ':')
    && Named(names, Trim(section[s..c]))
    && exists j: nat :: c < j <= b && !IsSpace(section[j])
  }

  ghost predicate ValueByte(section: string, names: seq<string>, b: nat) {
    exists s: nat, e: nat :: HeaderLine(section, s, e) && InValue(section, s, e, names, b)
  }

  predicate Within(r: Range, b: nat) { r.start <= b < r.end }

  predicate Covers(ranges: seq<Range>, b: nat) { exists k :: 0 <= k < |ranges| && Within(ranges[k], b) }

  // ---- One line ----

  lemma ColonInSection(section: string, s: nat, e: nat, c: nat)
    requires s <= c < e <= |section| && section[c] == ':' && forall i: nat :: s <= i < c ==> section[i] != ':'
    ensures FindColon(section[s..e]) == Some(c - s)
  {
    FindColonMeans(section[s..e]);
    var r := FindColon(section[s..e]);
    assert section[s..e][c - s] == ':';
    assert r.Some? && r.value <= c - s;
    assert section[s + r.value] == ':';
  }

  lemma ValueStart(section: string, s: nat, e: nat, c: nat) returns (start: nat)
    requires s <= c < e <= |section|
    ensures start == c + 1 + LeadingSpaces(section[s..e][c - s + 1..]) && start <= e
    ensures forall j: nat :: c < j < start ==> IsSpace(section[j])
    ensures start < e ==> !IsSpace(section[start])
  {
    var rest := section[s..e][c - s + 1..];
    LeadingSpacesMeans(rest);
    start := c + 1 + LeadingSpaces(rest);
    forall j: nat | c < j < start
      ensures IsSpace(section[j])
    {
      assert section[j] == rest[j - c - 1];
    }
    if start < e {
      assert section[start] == rest[start - c - 1];
    }
  }

  /** The range of a line whose first colon is at c. */
  lemma RangeAtColon(section: string, s: nat, e: nat, c: nat, base: nat, names: seq<string>) returns (start: nat)
    requires s <= c < e <= |section| && FindColon(section[s..e]) == Some(c - s)
    ensures c < start <= e
    ensures forall j: nat :: c < j < start ==> IsSpace(section[j])
    ensures start < e ==> !IsSpace(section[start])
    ensures LineRange(section[s..e], base + s, names)
         == if Named(names, Trim(section[s..c])) && start < e then Some(Range(base + start, base + e)) else None
  {
    start := ValueStart(section, s, e, c);
    assert section[s..e][..c - s] == section[s..c];
  }

  lemma InValueIsInRange(section: string, s: nat, e: nat, base: nat, names: seq<string>, b: nat)
    requires s <= e <= |section| && InValue(section, s, e, names, b)
    ensures var r := LineRange(section[s..e], base + s, names); r.Some? && Within(r.value, base + b)
  {
    var c: nat :| s <= c < b < e && ValueAfter(section, s, c, names, b);
    var j: nat :| c < j <= b && !IsSpace(section[j]);
    ColonInSection(section, s, e, c);
    var start := RangeAtColon(section, s, e, c, base, names);
    assert start <= j;
  }

  lemma InRangeIsInValue(section: string, s: nat, e: nat, base: nat, names: seq<string>, b: nat)
    requires s <= e <= |section|
    requires var r := LineRange(section[s..e], base + s, names); r.Some? && Within(r.value, base + b)
    ensures InValue(section, s, e, names, b)
  {
    var line := section[s..e];
    FindColonMeans(line);
    var c := s + FindColon(line).value;
    assert section[c] == ':';
    forall i: nat | s <= i < c
      ensures section[i] != ':'
    {
      assert line[i - s] == section[i];
    }
    var start := RangeAtColon(section, s, e, c, base, names);
    assert c < start <= b && !IsSpace(section[start]);
    assert ValueAfter(section, s, c, names, b);
  }

  // ---- All lines ----

  predicate LineStart(section: string, from: nat) { from == 0 || (from >= 2 && CrlfAt(section, from - 2)) }

  lemma LineEndMeans(section: string, from: nat)
    requires from <= |section| && LineStart(section, from)
    ensures HeaderLine(section, from, LineEnd(section, from))
    ensures forall e: nat :: HeaderLine(section, from, e) ==> e == LineEnd(section, from)
    ensures LineEnd(section, from) < |section| ==> LineEnd(section, from) + 2 <= |section|
  {
    FindCrlfMeans(section, from);
  }

  lemma NextStart(section: string, from: nat)
    requires from <= |section| && LineEnd(section, from) + 2 <= |section|
    ensures LineStart(section, LineEnd(section, from) + 2)
  {
    FindCrlfMeans(section, from);
  }

  /** A line that starts later starts after this one's end. */
  lemma LaterLine(section: string, from: nat, s: nat, e: nat)
    requires from <= |section| && LineStart(section, from) && from < s && HeaderLine(section, s, e)
    ensures LineEnd(section, from) + 2 <= s
  {
    FindCrlfMeans(section, from);
    assert from != s - 1;
    assert CrlfAt(section, s - 2);
  }

  lemma CoversConcat(a: seq<Range>, b: seq<Range>, x: nat)
    ensures Covers(a + b, x) <==> Covers(a, x) || Covers(b, x)
  {
    if Covers(a, x) {
      var k :| 0 <= k < |a| && Within(a[k], x);
      assert (a + b)[k] == a[k];
    }
    if Covers(b, x) {
      var k :| 0 <= k < |b| && Within(b[k], x);
      assert (a + b)[|a| + k] == b[k];
    }
  }

  lemma CoversListed(r: Option<Range>, x: nat)
    ensures Covers(Listed(r), x) <==> r.Some? && Within(r.value, x)
  {
    if r.Some? {
      assert Listed(r)[0] == r.value;
    }
  }

  /** Splitting finds exactly the header lines. */
  lemma {:induction false} LinesAreHeaderLines(section: string, from: nat, s: nat, e: nat)
    requires from <= |section| && LineStart(section, from)
    ensures Line(s, e) in Lines(section, from) <==> from <= s && HeaderLine(section, s, e)
    decreases |section| - from
  {
    LineEndMeans(section, from);
    if from < s && HeaderLine(section, s, e) {
      LaterLine(section, from, s, e);
    }
    if LineEnd(section, from) + 2 <= |section| {
      NextStart(section, from);
      LinesAreHeaderLines(section, LineEnd(section, from) + 2, s, e);
    }
  }

  lemma LineMeans(section: string, line: Line, base: nat, names: seq<string>, b: nat)
    requires line.start <= line.end <= |section|
    ensures Covers(RangeOf(section, line, base, ByName(names)), base + b) <==>
      InValue(section, line.start, line.end, names, b)
  {
    var r := LineRange(section[line.start..line.end], base + line.start, names);
    CoversListed(r, base + b);
    if InValue(section, line.start, line.end, names, b) {
      InValueIsInRange(section, line.start, line.end, base, names, b);
    } else if r.Some? && Within(r.value, base + b) {
      InRangeIsInValue(section, line.start, line.end, base, names, b);
    }
  }

  /** Some line's range covers the byte. */
  predicate CoveredBy(section: string, lines: seq<Line>, base: nat, pick: Picker, x: nat)
    requires Chained(lines, |section|)
  {
    exists k :: 0 <= k < |lines| && Covers(RangeOf(section, lines[k], base, pick), x)
  }

  lemma {:induction false} RangesCover(section: string, lines: seq<Line>, base: nat, pick: Picker, x: nat)
    requires Chained(lines, |section|)
    ensures Covers(Ranges(section, lines, base, pick), x) <==> CoveredBy(section, lines, base, pick, x)
  {
    if lines != [] {
      var n := |lines| - 1;
      RangesCover(section, lines[..n], base, pick, x);
      CoversConcat(Ranges(section, lines[..n], base, pick), RangeOf(section, lines[n], base, pick), x);
      CoveredSnoc(section, lines, base, pick, x);
    }
  }

  lemma CoveredSnoc(section: string, lines: seq<Line>, base: nat, pick: Picker, x: nat)
    requires Chained(lines, |section|) && lines != []
    ensures var n := |lines| - 1;
      CoveredBy(section, lines, base, pick, x)
      <==> CoveredBy(section, lines[..n], base, pick, x) || Covers(RangeOf(section, lines[n], base, pick), x)
  {
    var n := |lines| - 1;
    if CoveredBy(section, lines, base, pick, x) {
      var k :| 0 <= k < |lines| && Covers(RangeOf(section, lines[k], base, pick), x);
      assert k < n ==> lines[..n][k] == lines[k];
    }
    if CoveredBy(section, lines[..n], base, pick, x) {
      var k :| 0 <= k < n && Covers(RangeOf(section, lines[..n][k], base, pick), x);
      assert lines[..n][k] == lines[k];
    }
  }

  /** The ranges of all lines cover exactly the value bytes of the section. */
  lemma RangesMean(section: string, base: nat, names: seq<string>, b: nat)
    ensures Chained(Lines(section, 0), |section|)
    ensures Covers(Ranges(section, Lines(section, 0), base, ByName(names)), base + b) <==> ValueByte(section, names, b)
  {
    var lines, pick := Lines(section, 0), ByName(names);
    LinesAreChained(section, 0);
    RangesCover(section, lines, base, pick, base + b);
    if CoveredBy(section, lines, base, pick, base + b) {
      var k :| 0 <= k < |lines| && Covers(RangeOf(section, lines[k], base, pick), base + b);
      LineMeans(section, lines[k], base, names, b);
      assert lines[k] in lines;
      LinesAreHeaderLines(section, 0, lines[k].start, lines[k].end);
    }
    if ValueByte(section, names, b) {
      var s: nat, e: nat :| HeaderLine(section, s, e) && InValue(section, s, e, names, b);
      LinesAreHeaderLines(section, 0, s, e);
      var k :| 0 <= k < |lines| && lines[k] == Line(s, e);
      LineMeans(section, lines[k], base, names, b);
    }
  }

  /** Sorted, disjoint, non-empty and within lo..hi. */
  predicate Ordered(ranges: seq<Range>, lo: nat, hi: nat) {
    && (forall k :: 0 <= k < |ranges| ==> lo <= ranges[k].start < ranges[k].end <= hi)
    && (forall i, j :: 0 <= i < j < |ranges| ==> ranges[i].end <= ranges[j].start)
  }

  lemma OrderedConcat(a: seq<Range>, b: seq<Range>, lo: nat, mid: nat, next: nat, hi: nat)
    requires Ordered(a, lo, mid) && Ordered(b, next, hi) && lo <= mid <= next <= hi
    ensures Ordered(a + b, lo, hi)
  {
  }

  lemma LineRangeBounds(line: string, offset: nat, names: seq<string>)
    ensures Ordered(Listed(LineRange(line, offset, names)), offset, offset + |line|)
  {
  }

  ghost predicate Bounded(pick: Picker) {
    forall line: string, offset: nat :: Ordered(Listed(pick(line, offset)), offset, offset + |line|)
  }

  lemma ByNameIsBounded(names: seq<string>)
    ensures Bounded(ByName(names))
  {
    forall line: string, offset: nat
      ensures Ordered(Listed(ByName(names)(line, offset)), offset, offset + |line|)
    {
      LineRangeBounds(line, offset, names);
    }
  }

  lemma {:induction false} RangesOrdered(section: string, lines: seq<Line>, base: nat, pick: Picker)
    requires Chained(lines, |section|) && Bounded(pick)
    ensures Ordered(Ranges(section, lines, base, pick), base,
        base + (if lines == [] then 0 else lines[|lines| - 1].end))
  {
    if lines != [] {
      var n := |lines| - 1;
      var front, last := lines[..n], lines[n];
      RangesOrdered(section, front, base, pick);
      var mid := if front == [] then 0 else lines[n - 1].end;
      assert mid <= last.start;
      assert Ordered(RangeOf(section, last, base, pick), base + last.start,
        base + last.start + |section[last.start..last.end]|);
      OrderedConcat(Ranges(section, front, base, pick), RangeOf(section, last, base, pick),
                    base, base + mid, base + last.start, base + last.end);
    }
  }
}
