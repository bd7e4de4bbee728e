/** The bounded replay guard, and the plain history of additions that it stands for. */
module ReplayGuard {
  datatype Entry = Entry(key: string, at: int)

  datatype Limits = Limits(retention: int, maxEntries: int)

  const DEFAULT_LIMITS := Limits(7 * 24 * 60 * 60 * 1000, 100_000)

  predicate HasKey(seen: seq<Entry>, key: string) { exists i :: 0 <= i < |seen| && seen[i].key == key }

  predicate DistinctKeys(seen: seq<Entry>) { forall i, j :: 0 <= i < j < |seen| ==> seen[i].key != seen[j].key }

  // ---- The guard's own operations ----

  /** Drop entries from the front until the first one that is not too old. */
  function DropOld(seen: seq<Entry>, cutoff: int): seq<Entry> {
    if seen == [] || seen[0].at >= cutoff then seen else DropOld(seen[1..], cutoff)
  }

  function Cap(limits: Limits): nat { if limits.maxEntries < 0 then 0 else limits.maxEntries }

  function DropExcess(seen: seq<Entry>, cap: nat): seq<Entry> {
    if |seen| <= cap then seen else seen[|seen| - cap..]
  }

  function Evicted(limits: Limits, seen: seq<Entry>, now: int): seq<Entry> {
    DropExcess(DropOld(seen, now - limits.retention), Cap(limits))
  }

  /** An insertion-ordered map keeps a key's place when its value is set again. */
  function Put(seen: seq<Entry>, key: string, now: int): seq<Entry> {
    if seen == [] then [Entry(key, now)]
    else if seen[0].key == key then [Entry(key, now)] + seen[1..]
    else [seen[0]] + Put(seen[1..], key, now)
  }

  lemma {:induction false} PutAbsent(seen: seq<Entry>, key: string, now: int)
    requires !HasKey(seen, key)
    ensures Put(seen, key, now) == seen + [Entry(key, now)]
  {
    if seen != [] {
      assert seen[0].key != key;
      forall i | 0 <= i < |seen[1..]|
        ensures seen[1..][i].key != key
      {
        assert seen[1..][i] == seen[i + 1];
      }
      PutAbsent(seen[1..], key, now);
    }
  }

  lemma {:induction false} PutKeys(seen: seq<Entry>, key: string, now: int)
    requires DistinctKeys(seen)
    ensures DistinctKeys(Put(seen, key, now))
    ensures forall k :: HasKey(Put(seen, key, now), k) ==> k == key || HasKey(seen, k)
  {
    var put := Put(seen, key, now);
    if seen != [] && seen[0].key != key {
      TailKeys(seen);
      PutKeys(seen[1..], key, now);
      var tail := Put(seen[1..], key, now);
      forall i | 0 <= i < |tail|
        ensures tail[i].key == key || HasKey(seen[1..], tail[i].key)
      {
        assert HasKey(tail, tail[i].key);
      }
      forall k | HasKey(put, k)
        ensures k == key || HasKey(seen, k)
      {
        var i :| 0 <= i < |put| && put[i].key == k;
        assert i > 0 ==> put[i] == tail[i - 1];
      }
    }
  }

  lemma TailKeys(seen: seq<Entry>)
    requires seen != [] && DistinctKeys(seen)
    ensures DistinctKeys(seen[1..]) && !HasKey(seen[1..], seen[0].key)
    ensures forall k :: HasKey(seen[1..], k) ==> HasKey(seen, k)
  {
    forall k | HasKey(seen[1..], k)
      ensures HasKey(seen, k)
    {
      var i :| 0 <= i < |seen[1..]| && seen[1..][i].key == k;
      assert seen[i + 1].key == k;
    }
  }

  lemma DropExcessTail(seen: seq<Entry>, cap: nat)
    requires |seen| > cap
    ensures DropExcess(seen[1..], cap) == DropExcess(seen, cap)
  {
  }

  class Guard {
    const limits: Limits
    var seen: seq<Entry>

    ghost predicate Valid()
      reads this
    {
      DistinctKeys(seen)
    }

    constructor (limits: Limits)
      ensures Valid() && this.limits == limits && seen == []
    {
      this.limits := limits;
      seen := [];
    }

    method Evict(now: int)
      requires Valid()
      modifies this
      ensures Valid() && seen == Evicted(limits, old(seen), now)
    {
      var cutoff := now - limits.retention;
      ghost var all := seen;
      while seen != [] && seen[0].at < cutoff
        invariant DropOld(seen, cutoff) == DropOld(all, cutoff) && Valid()
        decreases |seen|
      {
        TailKeys(seen);
        seen := seen[1..];
      }
      while seen != [] && |seen| > limits.maxEntries
        invariant DropExcess(seen, Cap(limits)) == Evicted(limits, all, now) && Valid()
        decreases |seen|
      {
        TailKeys(seen);
        DropExcessTail(seen, Cap(limits));
        seen := seen[1..];
      }
    }

    method Has(key: string, now: int) returns (known: bool)
      requires Valid()
      modifies this
      ensures Valid() && seen == Evicted(limits, old(seen), now)
      ensures known <==> HasKey(seen, key)
    {
      Evict(now);
      known := HasKey(seen, key);
    }

    method Add(key: string, now: int)
      requires Valid()
      modifies this
      ensures Valid() && seen == Evicted(limits, Put(old(seen), key, now), now)
    {
      PutKeys(seen, key, now);
      seen := Put(seen, key, now);
      Evict(now);
    }

    method Clear()
      modifies this
      ensures Valid() && seen == []
    {
      seen := [];
    }
  }

  // ---- Runs of calls ----

  datatype Call = Has(key: string, now: int) | Add(key: string, now: int) | Clear

  function After(limits: Limits, seen: seq<Entry>, call: Call): seq<Entry> {
    match call
    case Has(_, now) => Evicted(limits, seen, now)
    case Add(key, now) => Evicted(limits, Put(seen, key, now), now)
    case Clear => []
  }

  function Run(limits: Limits, calls: seq<Call>): seq<Entry> {
    if calls == [] then [] else After(limits, Run(limits, calls[..|calls| - 1]), calls[|calls| - 1])
  }

  /** Everything added since the last clear, in order. */
  function Additions(calls: seq<Call>): seq<Entry> {
    if calls == [] then []
    else
      var last := calls[|calls| - 1];
      match last
      case Has(_, _) => Additions(calls[..|calls| - 1])
      case Add(key, now) => Additions(calls[..|calls| - 1]) + [Entry(key, now)]
      case Clear => []
  }

  predicate NoLater(calls: seq<Call>, now: int) {
    forall k :: 0 <= k < |calls| && !calls[k].Clear? ==> calls[k].now <= now
  }

  /** A non-decreasing clock, and only keys the guard does not hold are added. */
  predicate Orderly(limits: Limits, calls: seq<Call>) {
    calls == []
    || (var front, last := calls[..|calls| - 1], calls[|calls| - 1];
        && Orderly(limits, front)
        && (!last.Clear? ==> NoLater(front, last.now))
        && (last.Add? ==> !HasKey(Run(limits, front), last.key)))
  }

  predicate Sorted(h: seq<Entry>) { forall i, j :: 0 <= i < j < |h| ==> h[i].at <= h[j].at }

  /** The guard holds a suffix of the history; what it dropped is outside the last `cap` or too old for `now`. */
  predicate Suffix(limits: Limits, h: seq<Entry>, seen: seq<Entry>, now: int) {
    && |seen| <= |h| && seen == h[|h| - |seen|..]
    && forall i :: 0 <= i < |h| - |seen| ==> i < |h| - Cap(limits) || h[i].at < now - limits.retention
  }

  /** The entries the history remembers at `now`: among the last `cap`, and young enough. */
  predicate Remembers(limits: Limits, h: seq<Entry>, i: int, now: int)
    requires 0 <= i < |h|
  {
    i >= |h| - Cap(limits) && h[i].at >= now - limits.retention
  }

  lemma {:induction false} DropOldOfSorted(h: seq<Entry>, cutoff: int)
    requires Sorted(h)
    ensures var d := DropOld(h, cutoff);
      && |d| <= |h| && d == h[|h| - |d|..]
      && forall i :: 0 <= i < |h| ==> (i >= |h| - |d| <==> h[i].at >= cutoff)
  {
    if h != [] && h[0].at < cutoff {
      DropOldOfSorted(h[1..], cutoff);
      var d := DropOld(h, cutoff);
      assert h[1..][|h| - 1 - |d|..] == h[|h| - |d|..];
      forall i | 0 <= i < |h|
        ensures i >= |h| - |d| <==> h[i].at >= cutoff
      {
        assert i > 0 ==> h[1..][i - 1] == h[i];
      }
    }
  }

  lemma Tails(h: seq<Entry>, n: nat, m: nat)
    requires n + m <= |h|
    ensures h[n..][m..] == h[n + m..]
  {
  }

  lemma SuffixIsSorted(h: seq<Entry>, n: nat)
    requires Sorted(h) && n <= |h|
    ensures Sorted(h[n..])
  {
  }

  /** Dropping the old entries of a suffix: what is left starts at the first young entry of the suffix. */
  lemma DropOldOfSuffix(h: seq<Entry>, n: nat, cutoff: int) returns (m: nat)
    requires Sorted(h) && n <= |h|
    ensures n <= m <= |h| && DropOld(h[n..], cutoff) == h[m..]
    ensures forall i :: n <= i < |h| ==> (i >= m <==> h[i].at >= cutoff)
  {
    SuffixIsSorted(h, n);
    DropOldOfSorted(h[n..], cutoff);
    var d := DropOld(h[n..], cutoff);
    m := |h| - |d|;
    Tails(h, n, m - n);
    forall i | n <= i < |h|
      ensures i >= m <==> h[i].at >= cutoff
    {
      assert h[n..][i - n] == h[i];
    }
  }

  /** Evicting a suffix of a sorted history leaves exactly what the history remembers. */
  lemma EvictedSuffix(limits: Limits, h: seq<Entry>, seen: seq<Entry>, before: int, now: int)
    requires Sorted(h) && Suffix(limits, h, seen, before) && before <= now
    ensures var left := Evicted(limits, seen, now);
      && |left| <= |h| && left == h[|h| - |left|..]
      && forall i :: 0 <= i < |h| ==> (i >= |h| - |left| <==> Remembers(limits, h, i, now))
  {
    var n := |h| - |seen|;
    var m := DropOldOfSuffix(h, n, now - limits.retention);
    var cap := Cap(limits);
    var left := DropExcess(h[m..], cap);
    if |h| - m > cap {
      Tails(h, m, |h| - m - cap);
    }
  }

  lemma EvictedIsSuffix(limits: Limits, h: seq<Entry>, seen: seq<Entry>, before: int, now: int)
    requires Sorted(h) && Suffix(limits, h, seen, before) && before <= now
    ensures Suffix(limits, h, Evicted(limits, seen, now), now)
  {
    EvictedSuffix(limits, h, seen, before, now);
    var left := Evicted(limits, seen, now);
    forall i | 0 <= i < |h| - |left|
      ensures i < |h| - Cap(limits) || h[i].at < now - limits.retention
    {
      assert !Remembers(limits, h, i, now);
    }
  }

  lemma SuffixSnoc(limits: Limits, h: seq<Entry>, seen: seq<Entry>, now: int, e: Entry)
    requires Suffix(limits, h, seen, now)
    ensures Suffix(limits, h + [e], seen + [e], now)
  {
  }

  lemma SortedSnoc(h: seq<Entry>, e: Entry)
    requires Sorted(h) && forall i :: 0 <= i < |h| ==> h[i].at <= e.at
    ensures Sorted(h + [e])
  {
  }

  lemma {:induction false} AdditionsNoLater(calls: seq<Call>, now: int)
    requires NoLater(calls, now)
    ensures forall i :: 0 <= i < |Additions(calls)| ==> Additions(calls)[i].at <= now
  {
    if calls != [] {
      AdditionsNoLater(calls[..|calls| - 1], now);
    }
  }

  /** At any time no call lies after, the guard holds a suffix of the history good for that time. */
  ghost predicate Holds(limits: Limits, calls: seq<Call>) {
    && Sorted(Additions(calls))
    && forall now :: NoLater(calls, now) ==> Suffix(limits, Additions(calls), Run(limits, calls), now)
  }

  lemma SuffixAges(limits: Limits, h: seq<Entry>, seen: seq<Entry>, before: int, now: int)
    requires Suffix(limits, h, seen, before) && before <= now
    ensures Suffix(limits, h, seen, now)
  {
  }

  lemma HasHolds(limits: Limits, front: seq<Call>, key: string, now: int)
    requires Holds(limits, front) && NoLater(front, now)
    ensures Holds(limits, front + [Has(key, now)])
  {
    var calls := front + [Has(key, now)];
    assert calls[..|front|] == front;
    EvictedIsSuffix(limits, Additions(front), Run(limits, front), now, now);
    forall later | NoLater(calls, later)
      ensures Suffix(limits, Additions(calls), Run(limits, calls), later)
    {
      assert calls[|front|].now <= later;
      SuffixAges(limits, Additions(calls), Run(limits, calls), now, later);
    }
  }

  lemma AddHolds(limits: Limits, front: seq<Call>, key: string, now: int)
    requires Holds(limits, front) && NoLater(front, now) && !HasKey(Run(limits, front), key)
    ensures Holds(limits, front + [Add(key, now)])
  {
    var calls := front + [Add(key, now)];
    assert calls[..|front|] == front;
    var h, seen := Additions(front), Run(limits, front);
    var e := Entry(key, now);
    PutAbsent(seen, key, now);
    AdditionsNoLater(front, now);
    assert Additions(calls) == h + [e];
    SortedSnoc(h, e);
    SuffixSnoc(limits, h, seen, now, e);
    EvictedIsSuffix(limits, h + [e], seen + [e], now, now);
    assert Run(limits, calls) == Evicted(limits, seen + [e], now);
    forall later | NoLater(calls, later)
      ensures Suffix(limits, Additions(calls), Run(limits, calls), later)
    {
      assert calls[|front|].now <= later;
      SuffixAges(limits, Additions(calls), Run(limits, calls), now, later);
    }
  }

  lemma {:induction false} OrderlyRunsHold(limits: Limits, calls: seq<Call>)
    requires Orderly(limits, calls)
    ensures Holds(limits, calls)
  {
    if calls != [] {
      var front, last := calls[..|calls| - 1], calls[|calls| - 1];
      OrderlyRunsHold(limits, front);
      assert front + [last] == calls;
      match last
      case Has(key, now) => HasHolds(limits, front, key, now);
      case Add(key, now) => AddHolds(limits, front, key, now);
      case Clear =>
    }
  }

  lemma SuffixMembers(h: seq<Entry>, left: seq<Entry>, key: string)
    requires |left| <= |h| && left == h[|h| - |left|..]
    ensures HasKey(left, key) <==> exists i :: |h| - |left| <= i < |h| && h[i].key == key
  {
    var start := |h| - |left|;
    if HasKey(left, key) {
      var i :| 0 <= i < |left| && left[i].key == key;
      assert h[start + i] == left[i];
    }
    if i :| start <= i < |h| && h[i].key == key {
      assert left[i - start] == h[i];
    }
  }

  /**
   The guard refines the plain history: after any orderly run, it knows a key at `now` exactly when the key is among
   the last `maxEntries` additions and was added no earlier than `now` minus the retention.
   */
  lemma GuardRefinesHistory(limits: Limits, calls: seq<Call>, key: string, now: int)
    requires Orderly(limits, calls) && NoLater(calls, now)
    ensures var h := Additions(calls);
      HasKey(After(limits, Run(limits, calls), Has(key, now)), key)
      <==> exists i :: 0 <= i < |h| && h[i].key == key && Remembers(limits, h, i, now)
  {
    OrderlyRunsHold(limits, calls);
    var h, seen := Additions(calls), Run(limits, calls);
    EvictedSuffix(limits, h, seen, now, now);
    var left := Evicted(limits, seen, now);
    SuffixRemembers(limits, h, left, now, key);
  }

  lemma SuffixRemembers(limits: Limits, h: seq<Entry>, left: seq<Entry>, now: int, key: string)
    requires |left| <= |h| && left == h[|h| - |left|..]
    requires forall i :: 0 <= i < |h| ==> (i >= |h| - |left| <==> Remembers(limits, h, i, now))
    ensures HasKey(left, key) <==> exists i :: 0 <= i < |h| && h[i].key == key && Remembers(limits, h, i, now)
  {
    SuffixMembers(h, left, key);
  }

  /** A recent addition the guard no longer knows is older than the retention. */
  lemma ForgottenIsOld(limits: Limits, calls: seq<Call>, key: string, now: int, k: nat)
    requires Orderly(limits, calls) && NoLater(calls, now)
    requires |Additions(calls)| - Cap(limits) <= k < |Additions(calls)| && Additions(calls)[k].key == key
    requires !HasKey(After(limits, Run(limits, calls), Has(key, now)), key)
    ensures Additions(calls)[k].at < now - limits.retention
  {
    GuardRefinesHistory(limits, calls, key, now);
    assert !Remembers(limits, Additions(calls), k, now);
  }

  /** Setting a held key again keeps its place at the front, so an older entry behind it outlives the retention. */
  lemma SettingAgainKeepsStaleEntries(limits: Limits, a: string, b: string, now: int)
    requires limits.retention >= 0 && limits.maxEntries >= 2 && a != b
    ensures var later := now + limits.retention + 1;
      HasKey(Run(limits, [Add(a, now), Add(b, now), Add(a, later), Has(b, later)]), b)
  {
    var later := now + limits.retention + 1;
    var calls := [Add(a, now), Add(b, now), Add(a, later), Has(b, later)];
    assert calls[..3] == [Add(a, now), Add(b, now), Add(a, later)];
    assert calls[..3][..2] == [Add(a, now), Add(b, now)];
    assert calls[..3][..2][..1] == [Add(a, now)];
    assert calls[..3][..2][..1][..0] == [];
    var one := Put([], a, now);
    assert Run(limits, [Add(a, now)]) == [Entry(a, now)];
    assert Put([Entry(a, now)], b, now) == [Entry(a, now), Entry(b, now)];
    assert Run(limits, [Add(a, now), Add(b, now)]) == [Entry(a, now), Entry(b, now)];
    assert Put([Entry(a, now), Entry(b, now)], a, later) == [Entry(a, later), Entry(b, now)];
    assert Run(limits, calls[..3]) == [Entry(a, later), Entry(b, now)];
    assert Run(limits, calls) == [Entry(a, later), Entry(b, now)];
    assert Run(limits, calls)[1].key == b;
  }
}
