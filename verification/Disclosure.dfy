/** What a presentation reveals of a sent request: the complement of the redacted ranges. */
module Disclosure {
  import opened Wrappers
  import opened Redaction

  // ---- Sorting by start ----

  function Insert(sorted: seq<Range>, r: Range): seq<Range> {
    if sorted != [] && sorted[|sorted| - 1].start > r.start
    then Insert(sorted[..|sorted| - 1], r) + [sorted[|sorted| - 1]]
    else sorted + [r]
  }

  /** A stable sort by start. */
  function Sort(ranges: seq<Range>): seq<Range> {
    if ranges == [] then [] else Insert(Sort(ranges[..|ranges| - 1]), ranges[|ranges| - 1])
  }

  predicate SortedByStart(ranges: seq<Range>) {
    forall i, j :: 0 <= i < j < |ranges| ==> ranges[i].start <= ranges[j].start
  }

  lemma {:induction false} InsertAdds(sorted: seq<Range>, r: Range)
    ensures multiset(Insert(sorted, r)) == multiset(sorted) + multiset{r}
  {
    if sorted != [] && sorted[|sorted| - 1].start > r.start {
      InsertAdds(sorted[..|sorted| - 1], r);
      assert sorted == sorted[..|sorted| - 1] + [sorted[|sorted| - 1]];
    }
  }

  predicate StartsBy(ranges: seq<Range>, bound: nat) { forall k :: 0 <= k < |ranges| ==> ranges[k].start <= bound }

  lemma {:induction false} InsertStartsBy(sorted: seq<Range>, r: Range, bound: nat)
    requires StartsBy(sorted, bound) && r.start <= bound
    ensures StartsBy(Insert(sorted, r), bound)
  {
    if sorted != [] && sorted[|sorted| - 1].start > r.start {
      InsertStartsBy(sorted[..|sorted| - 1], r, bound);
    }
  }

  lemma {:induction false} InsertKeepsOrder(sorted: seq<Range>, r: Range)
    requires SortedByStart(sorted)
    ensures SortedByStart(Insert(sorted, r))
  {
    if sorted != [] && sorted[|sorted| - 1].start > r.start {
      var front, last := sorted[..|sorted| - 1], sorted[|sorted| - 1];
      InsertKeepsOrder(front, r);
      InsertStartsBy(front, r, last.start);
    }
  }

  /** Sorting permutes the ranges into order of start. */
  lemma {:induction false} SortSorts(ranges: seq<Range>)
    ensures SortedByStart(Sort(ranges)) && multiset(Sort(ranges)) == multiset(ranges)
  {
    if ranges != [] {
      var front, last := ranges[..|ranges| - 1], ranges[|ranges| - 1];
      SortSorts(front);
      InsertAdds(Sort(front), last);
      InsertKeepsOrder(Sort(front), last);
      assert ranges == front + [last];
    }
  }

  lemma SameMembers(a: seq<Range>, b: seq<Range>, x: nat)
    requires multiset(a) == multiset(b)
    ensures Covers(a, x) <==> Covers(b, x)
  {
    if Covers(a, x) {
      var k :| 0 <= k < |a| && Within(a[k], x);
      assert a[k] in multiset(b);
    }
    if Covers(b, x) {
      var k :| 0 <= k < |b| && Within(b[k], x);
      assert b[k] in multiset(a);
    }
  }

  // ---- The complement ----

  function Max(a: nat, b: nat): nat { if a < b then b else a }

  function Gap(from: nat, to: nat): seq<Range> { if from < to then [Range(from, to)] else [] }

  function Complement(sorted: seq<Range>, cursor: nat, total: nat): seq<Range> {
    if sorted == [] then Gap(cursor, total)
    else Gap(cursor, sorted[0].start) + Complement(sorted[1..], Max(sorted[0].end, cursor), total)
  }

  function Subtract(total: nat, redact: seq<Range>): seq<Range> {
    if redact == [] then [Range(0, total)] else Complement(Sort(redact), 0, total)
  }

  lemma ComplementAt(sorted: seq<Range>, k: nat, cursor: nat, total: nat)
    requires k < |sorted|
    ensures Complement(sorted[k..], cursor, total)
         == Gap(cursor, sorted[k].start) + Complement(sorted[k + 1..], Max(sorted[k].end, cursor), total)
  {
    assert sorted[k..][1..] == sorted[k + 1..];
  }

  /** One turn of the loop moves the next gap to the result. */
  lemma TurnKeeps(result: seq<Range>, sorted: seq<Range>, k: nat, cursor: nat, total: nat)
    requires k < |sorted|
    ensures (result + Gap(cursor, sorted[k].start)) + Complement(sorted[k + 1..], Max(sorted[k].end, cursor), total)
         == result + Complement(sorted[k..], cursor, total)
  {
    ComplementAt(sorted, k, cursor, total);
  }

  method SubtractRanges(total: nat, redact: seq<Range>) returns (result: seq<Range>)
    ensures result == Subtract(total, redact)
  {
    if redact == [] {
      return [Range(0, total)];
    }
    var sorted := Sort(redact);
    result := [];
    var cursor: nat := 0;
    for k := 0 to |sorted|
      invariant result + Complement(sorted[k..], cursor, total) == Complement(sorted, 0, total)
    {
      var range := sorted[k];
      TurnKeeps(result, sorted, k, cursor, total);
      ghost var turned := result + Gap(cursor, range.start);
      if cursor < range.start {
        result := result + [Range(cursor, range.start)];
      }
      assert result == turned;
      cursor := Max(range.end, cursor);
    }
    if cursor < total {
      result := result + [Range(cursor, total)];
    }
  }

  predicate Proper(ranges: seq<Range>, total: nat) {
    forall k :: 0 <= k < |ranges| ==> ranges[k].start <= ranges[k].end <= total
  }

  lemma CoversGap(from: nat, to: nat, x: nat)
    ensures Covers(Gap(from, to), x) <==> from <= x < to
  {
    if from < to {
      assert Gap(from, to)[0] == Range(from, to);
    }
  }

  lemma CoversCons(ranges: seq<Range>, x: nat)
    requires ranges != []
    ensures Covers(ranges, x) <==> Within(ranges[0], x) || Covers(ranges[1..], x)
  {
    CoversConcat([ranges[0]], ranges[1..], x);
    assert [ranges[0]] + ranges[1..] == ranges;
    assert Covers([ranges[0]], x) <==> Within([ranges[0]][0], x);
  }

  lemma LaterStarts(ranges: seq<Range>, x: nat)
    requires SortedByStart(ranges) && ranges != [] && x < ranges[0].start
    ensures !Covers(ranges, x)
  {
  }

  lemma {:induction false} ComplementCovers(sorted: seq<Range>, cursor: nat, total: nat, x: nat)
    requires SortedByStart(sorted) && Proper(sorted, total)
    ensures Covers(Complement(sorted, cursor, total), x) <==> cursor <= x < total && !Covers(sorted, x)
  {
    if sorted == [] {
      CoversGap(cursor, total, x);
    } else {
      var r, rest := sorted[0], sorted[1..];
      ComplementCovers(rest, Max(r.end, cursor), total, x);
      CoversGap(cursor, r.start, x);
      CoversConcat(Gap(cursor, r.start), Complement(rest, Max(r.end, cursor), total), x);
      CoversCons(sorted, x);
      if x < r.start {
        LaterStarts(sorted, x);
      }
    }
  }

  lemma {:induction false} ComplementOrdered(sorted: seq<Range>, cursor: nat, total: nat)
    requires SortedByStart(sorted) && Proper(sorted, total) && cursor <= total
    ensures Ordered(Complement(sorted, cursor, total), cursor, total)
  {
    if sorted != [] {
      var r, rest := sorted[0], sorted[1..];
      ComplementOrdered(rest, Max(r.end, cursor), total);
      OrderedConcat(Gap(cursor, r.start), Complement(rest, Max(r.end, cursor), total),
                    cursor, Max(r.start, cursor), Max(r.end, cursor), total);
    }
  }

  /** Subtracting any ranges within the text reveals exactly the bytes outside them, in disjoint, sorted ranges. */
  lemma SubtractIsComplement(total: nat, redact: seq<Range>, x: nat)
    requires Proper(redact, total)
    ensures Covers(Subtract(total, redact), x) <==> x < total && !Covers(redact, x)
    ensures redact != [] ==> Ordered(Subtract(total, redact), 0, total)
  {
    if redact == [] {
      assert Covers([Range(0, total)], x) <==> Within([Range(0, total)][0], x);
    } else {
      var sorted := Sort(redact);
      SortSorts(redact);
      SameMembers(sorted, redact, x);
      assert Proper(sorted, total) by {
        forall k | 0 <= k < |sorted|
          ensures sorted[k].start <= sorted[k].end <= total
        {
          assert sorted[k] in multiset(redact);
        }
      }
      ComplementCovers(sorted, 0, total, x);
      ComplementOrdered(sorted, 0, total);
    }
  }

  // ---- The presentation ----

  /** A byte of the value of a header named for redaction. */
  ghost predicate Hidden(sent: string, names: seq<string>, x: nat)
    requires Sliceable(sent)
  {
    && names != [] && Section(sent).Some?
    && var (start, end) := Section(sent).value;
       start <= x < end && end <= |sent| && ValueByte(sent[start..end], names, x - start)
  }

  function Revealed(sent: string, names: seq<string>): seq<Range>
    requires Sliceable(sent)
  {
    var redact := RedactedRanges(sent, names);
    if redact == [] then [Range(0, |sent|)] else Subtract(|sent|, redact)
  }

  method BuildRevealed(sent: string, names: seq<string>) returns (r: Option<seq<Range>>)
    ensures r.Some? <==> names == [] || Sliceable(sent)
    ensures r.Some? && Sliceable(sent) ==> r.value == Revealed(sent, names)
  {
    var redact := FindHeaderValueRanges(sent, names);
    if redact.None? {
      return None;
    }
    if redact.value == [] {
      return Some([Range(0, |sent|)]);
    }
    var shown := SubtractRanges(|sent|, redact.value);
    return Some(shown);
  }

  lemma SectionOrdered(section: string, base: nat, names: seq<string>)
    ensures Chained(Lines(section, 0), |section|)
    ensures Ordered(Ranges(section, Lines(section, 0), base, ByName(names)), base, base + |section|)
  {
    var lines := Lines(section, 0);
    LinesAreChained(section, 0);
    ByNameIsBounded(names);
    RangesOrdered(section, lines, base, ByName(names));
    var ranges := Ranges(section, lines, base, ByName(names));
    OrderedConcat(ranges, [], base, base + lines[|lines| - 1].end, base + lines[|lines| - 1].end, base + |section|);
    assert ranges + [] == ranges;
  }

  lemma RedactedAreOrdered(sent: string, names: seq<string>)
    requires Sliceable(sent)
    ensures Ordered(RedactedRanges(sent, names), 0, |sent|)
  {
    SliceableIff(sent);
    if names != [] && Section(sent).Some? {
      var (start, end) := Section(sent).value;
      SectionOrdered(sent[start..end], start, names);
    }
  }

  lemma OutsideIsUncovered(ranges: seq<Range>, lo: nat, hi: nat, x: nat)
    requires Ordered(ranges, lo, hi) && !(lo <= x < hi)
    ensures !Covers(ranges, x)
  {
  }

  lemma RedactedAreHidden(sent: string, names: seq<string>, x: nat)
    requires Sliceable(sent)
    ensures Covers(RedactedRanges(sent, names), x) <==> Hidden(sent, names, x)
  {
    if names != [] && Section(sent).Some? {
      SliceableIff(sent);
      var (start, end) := Section(sent).value;
      SectionIsHidden(sent[start..end], start, names, x);
      HiddenInSection(sent, names, x);
    } else {
      assert RedactedRanges(sent, names) == [];
    }
  }

  lemma HiddenInSection(sent: string, names: seq<string>, x: nat)
    requires Sliceable(sent) && names != [] && Section(sent).Some?
    ensures var (start, end) := Section(sent).value;
      && start <= end <= |sent|
      && (Hidden(sent, names, x) <==> start <= x < end && ValueByte(sent[start..end], names, x - start))
  {
    SliceableIff(sent);
  }

  lemma SectionIsHidden(section: string, base: nat, names: seq<string>, x: nat)
    ensures Chained(Lines(section, 0), |section|)
    ensures Covers(Ranges(section, Lines(section, 0), base, ByName(names)), x) <==>
      base <= x < base + |section| && ValueByte(section, names, x - base)
  {
    SectionOrdered(section, base, names);
    if base <= x < base + |section| {
      RangesMean(section, base, names, x - base);
    } else {
      OutsideIsUncovered(Ranges(section, Lines(section, 0), base, ByName(names)), base, base + |section|, x);
    }
  }

  /**
   Selective disclosure is exact. For every request with a header line, the redacted ranges are sorted, disjoint and in
   bounds and cover precisely the value bytes of the named headers; the revealed ranges cover precisely all other bytes.
   */
  lemma DisclosureIsExact(sent: string, names: seq<string>, x: nat)
    requires Sliceable(sent)
    ensures Ordered(RedactedRanges(sent, names), 0, |sent|)
    ensures Covers(RedactedRanges(sent, names), x) <==> Hidden(sent, names, x)
    ensures Covers(Revealed(sent, names), x) <==> x < |sent| && !Hidden(sent, names, x)
    ensures RedactedRanges(sent, names) != [] ==> Ordered(Revealed(sent, names), 0, |sent|)
  {
    RedactedAreOrdered(sent, names);
    RedactedAreHidden(sent, names, x);
    SubtractIsComplement(|sent|, RedactedRanges(sent, names), x);
  }
}
