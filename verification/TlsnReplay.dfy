/** Validation of TLSNotary presentations: the replay check, the freshness check, and what they promise together. */
module TlsnReplay {
  import opened Wrappers
  import opened ReplayGuard

  /** What the verifier binary reports about a presentation; the time is in unix seconds. */
  datatype Report = Unavailable | Invalid | Valid(time: Option<int>)

  /** One validation: three readings of the clock, and whether the remaining checks succeed. */
  datatype Validation = Validation(
    presentation: string, report: Report, maxAgeSeconds: int, others: bool, asked: int, judged: int, marked: int)

  predicate Fresh(time: Option<int>, maxAgeSeconds: int, now: int) {
    time.Some? && 0 <= now - time.value * 1000 < maxAgeSeconds * 1000
  }

  /** The part before the verifier runs. */
  function Begin(limits: Limits, seen: seq<Entry>, v: Validation): (seq<Entry>, bool) {
    var left := After(limits, seen, Has(v.presentation, v.asked));
    (left, !HasKey(left, v.presentation))
  }

  /** The part after it: a valid presentation is marked as used, whatever the other checks say. */
  function Finish(limits: Limits, seen: seq<Entry>, v: Validation): (seq<Entry>, bool) {
    if !v.report.Valid? then (seen, false)
    else (After(limits, seen, Add(v.presentation, v.marked)),
          v.others && Fresh(v.report.time, v.maxAgeSeconds, v.judged))
  }

  function Validate(limits: Limits, seen: seq<Entry>, v: Validation): (seq<Entry>, bool) {
    var (left, proceeds) := Begin(limits, seen, v);
    if proceeds then Finish(limits, left, v) else (left, false)
  }

  method ValidateTlsn(guard: Guard, v: Validation) returns (passed: bool)
    requires guard.Valid()
    modifies guard
    ensures guard.Valid()
    ensures (guard.seen, passed) == Validate(guard.limits, old(guard.seen), v)
  {
    var replayed := guard.Has(v.presentation, v.asked);
    if replayed {
      return false;
    }
    if v.report.Unavailable? || v.report.Invalid? {
      return false;
    }
    var isFresh := false;
    if v.report.time.Some? {
      var ageMs := v.judged - v.report.time.value * 1000;
      isFresh := ageMs >= 0 && ageMs < v.maxAgeSeconds * 1000;
    }
    guard.Add(v.presentation, v.marked);
    return v.others && isFresh;
  }

  // ---- Runs of whole validations ----

  function SeenAfter(limits: Limits, vs: seq<Validation>): seq<Entry> {
    if vs == [] then [] else Validate(limits, SeenAfter(limits, vs[..|vs| - 1]), vs[|vs| - 1]).0
  }

  predicate Passes(limits: Limits, vs: seq<Validation>, i: nat)
    requires i < |vs|
  {
    Validate(limits, SeenAfter(limits, vs[..i]), vs[i]).1
  }

  /** Does this validation reach the guard's `add`? */
  predicate Marks(limits: Limits, vs: seq<Validation>, i: nat)
    requires i < |vs|
  {
    Begin(limits, SeenAfter(limits, vs[..i]), vs[i]).1 && vs[i].report.Valid?
  }

  /** The clock never runs back, within a validation or between them. */
  predicate Clocked(vs: seq<Validation>) {
    && (forall i :: 0 <= i < |vs| ==> vs[i].asked <= vs[i].judged <= vs[i].marked)
    && (forall i, j :: 0 <= i < j < |vs| ==> vs[i].marked <= vs[j].asked)
  }

  predicate SamePresentation(v: Validation, w: Validation) {
    v.presentation == w.presentation && v.report.Valid? && w.report.Valid?
  }

  /** A presentation is signed: the verifier reads the same time from it whenever it accepts it. */
  predicate SameTimes(vs: seq<Validation>) {
    forall i, j :: 0 <= i < |vs| && 0 <= j < |vs| && SamePresentation(vs[i], vs[j]) ==> vs[i].report == vs[j].report
  }

  predicate MaxAgeWithin(vs: seq<Validation>, bound: int) {
    forall i :: 0 <= i < |vs| ==> vs[i].maxAgeSeconds * 1000 <= bound
  }

  // ---- The guard calls behind a run ----

  function CallsOf(limits: Limits, vs: seq<Validation>): seq<Call> {
    if vs == [] then []
    else
      var front := vs[..|vs| - 1];
      CallsOf(limits, front) + CallsFor(limits, SeenAfter(limits, front), vs[|vs| - 1])
  }

  lemma RunSnoc(limits: Limits, calls: seq<Call>, call: Call)
    ensures Run(limits, calls + [call]) == After(limits, Run(limits, calls), call)
    ensures Additions(calls + [call])
         == if call.Add? then Additions(calls) + [Entry(call.key,
           call.now)] else if call.Clear? then [] else Additions(calls)
  {
    assert (calls + [call])[..|calls|] == calls;
  }

  lemma OrderlySnoc(limits: Limits, calls: seq<Call>, call: Call)
    requires Orderly(limits, calls) && (!call.Clear? ==> NoLater(calls, call.now))
    requires call.Add? ==> !HasKey(Run(limits, calls), call.key)
    ensures Orderly(limits, calls + [call])
  {
    assert (calls + [call])[..|calls|] == calls;
  }

  /** The guard calls of one validation that finds the guard holding `seen`. */
  function CallsFor(limits: Limits, seen: seq<Entry>, v: Validation): seq<Call> {
    [Has(v.presentation, v.asked)]
    + (if Begin(limits, seen, v).1 && v.report.Valid? then [Add(v.presentation, v.marked)] else [])
  }

  lemma ValidationIsOrderly(limits: Limits, calls: seq<Call>, seen: seq<Entry>, v: Validation)
    requires Orderly(limits, calls) && Run(limits, calls) == seen && NoLater(calls, v.asked) && v.asked <= v.marked
    ensures var after := calls + CallsFor(limits, seen, v);
      Orderly(limits, after) && Run(limits, after) == Validate(limits, seen, v).0 && NoLater(after, v.marked)
  {
    var asked := calls + [Has(v.presentation, v.asked)];
    RunSnoc(limits, calls, Has(v.presentation, v.asked));
    OrderlySnoc(limits, calls, Has(v.presentation, v.asked));
    assert NoLater(asked, v.marked);
    if Begin(limits, seen, v).1 && v.report.Valid? {
      RunSnoc(limits, asked, Add(v.presentation, v.marked));
      OrderlySnoc(limits, asked, Add(v.presentation, v.marked));
      assert calls + CallsFor(limits, seen, v) == asked + [Add(v.presentation, v.marked)];
    } else {
      assert calls + CallsFor(limits, seen, v) == asked;
    }
  }

  /** The calls of a run are orderly, end no later than its last clock reading, and leave the guard as the run does. */
  lemma {:induction false} CallsAreOrderly(limits: Limits, vs: seq<Validation>)
    requires Clocked(vs)
    ensures Orderly(limits, CallsOf(limits, vs))
    ensures Run(limits, CallsOf(limits, vs)) == SeenAfter(limits, vs)
    ensures vs != [] ==> NoLater(CallsOf(limits, vs), vs[|vs| - 1].marked)
  {
    if vs != [] {
      var front, v := vs[..|vs| - 1], vs[|vs| - 1];
      CallsAreOrderly(limits, front);
      NoLaterThan(CallsOf(limits, front), front, v);
      ValidationIsOrderly(limits, CallsOf(limits, front), SeenAfter(limits, front), v);
    }
  }

  lemma NoLaterThan(calls: seq<Call>, front: seq<Validation>, v: Validation)
    requires front != [] ==> NoLater(calls, front[|front| - 1].marked) && front[|front| - 1].marked <= v.asked
    requires front == [] ==> calls == []
    ensures NoLater(calls, v.asked)
  {
  }

  // ---- Where an addition sits in the history ----

  function HistoryOf(limits: Limits, vs: seq<Validation>): seq<Entry> { Additions(CallsOf(limits, vs)) }

  lemma HistorySnoc(limits: Limits, vs: seq<Validation>, n: nat)
    requires n < |vs|
    ensures HistoryOf(limits, vs[..n + 1])
         == HistoryOf(limits, vs[..n])
            + (if Marks(limits, vs, n) then [Entry(vs[n].presentation, vs[n].marked)] else [])
  {
    var v := vs[n];
    var calls := CallsOf(limits, vs[..n]);
    var asked := calls + [Has(v.presentation, v.asked)];
    assert vs[..n + 1][..n] == vs[..n];
    assert vs[..n + 1][n] == v;
    RunSnoc(limits, calls, Has(v.presentation, v.asked));
    if Marks(limits, vs, n) {
      assert CallsOf(limits, vs[..n + 1]) == asked + [Add(v.presentation, v.marked)];
      RunSnoc(limits, asked, Add(v.presentation, v.marked));
    } else {
      assert CallsOf(limits, vs[..n + 1]) == asked;
    }
  }

  /** How many additions the validations from `i` up to `j` make. */
  function AddedBetween(limits: Limits, vs: seq<Validation>, i: nat, j: nat): int
    requires i <= j <= |vs|
  {
    |HistoryOf(limits, vs[..j])| - |HistoryOf(limits, vs[..i])|
  }

  lemma HistoryExtends(limits: Limits, vs: seq<Validation>, n: nat)
    requires n < |vs|
    ensures HistoryOf(limits, vs[..n]) <= HistoryOf(limits, vs[..n + 1])
  {
    HistorySnoc(limits, vs, n);
  }

  lemma {:induction false} ChainGrows(histories: seq<seq<Entry>>, i: nat, j: nat)
    requires i <= j < |histories|
    requires forall n: nat :: n + 1 < |histories| ==> histories[n] <= histories[n + 1]
    ensures histories[i] <= histories[j]
    decreases j
  {
    if i < j {
      ChainGrows(histories, i, j - 1);
      assert histories[j - 1] <= histories[j - 1 + 1];
    }
  }

  lemma HistoryGrows(limits: Limits, vs: seq<Validation>, i: nat, j: nat)
    requires i <= j <= |vs|
    ensures HistoryOf(limits, vs[..i]) <= HistoryOf(limits, vs[..j])
  {
    var histories := seq(|vs| + 1, n requires 0 <= n <= |vs| => HistoryOf(limits, vs[..n]));
    forall n: nat | n + 1 < |histories|
      ensures histories[n] <= histories[n + 1]
    {
      HistoryExtends(limits, vs, n);
    }
    ChainGrows(histories, i, j);
  }

  /** The addition of validation i is still in the history at j, behind the later additions. */
  lemma MarkIsRecorded(limits: Limits, vs: seq<Validation>, i: nat, j: nat)
    requires i < j <= |vs| && Marks(limits, vs, i)
    ensures var h, k := HistoryOf(limits, vs[..j]), |HistoryOf(limits, vs[..i + 1])| - 1;
      0 <= k < |h| && h[k] == Entry(vs[i].presentation, vs[i].marked)
  {
    HistorySnoc(limits, vs, i);
    HistoryGrows(limits, vs, i + 1, j);
  }

  lemma PassMeans(limits: Limits, vs: seq<Validation>, i: nat)
    requires i < |vs| && Passes(limits, vs, i)
    ensures Marks(limits, vs, i) && Fresh(vs[i].report.time, vs[i].maxAgeSeconds, vs[i].judged)
    ensures !HasKey(After(limits, SeenAfter(limits, vs[..i]), Has(vs[i].presentation, vs[i].asked)), vs[i].presentation)
  {
  }

  /** When the guard has let go of a recent addition, that addition is older than the retention. */
  lemma MarkIsOld(limits: Limits, vs: seq<Validation>, i: nat, j: nat, p: string)
    requires Clocked(vs) && i < j < |vs| && Marks(limits, vs, i) && vs[i].presentation == p
    requires AddedBetween(limits, vs, i + 1, j) < limits.maxEntries
    requires !HasKey(After(limits, SeenAfter(limits, vs[..j]), Has(p, vs[j].asked)), p)
    ensures vs[i].marked < vs[j].asked - limits.retention
  {
    MarkIsRecorded(limits, vs, i, j);
    ForgottenAfter(limits, vs[..j], vs[j].asked, |HistoryOf(limits, vs[..i + 1])| - 1, p);
  }

  lemma ForgottenAfter(limits: Limits, vs: seq<Validation>, now: int, k: nat, p: string)
    requires Clocked(vs) && vs != [] && vs[|vs| - 1].marked <= now
    requires |HistoryOf(limits, vs)| - Cap(limits) <= k < |HistoryOf(limits, vs)| && HistoryOf(limits, vs)[k].key == p
    requires !HasKey(After(limits, SeenAfter(limits, vs), Has(p, now)), p)
    ensures HistoryOf(limits, vs)[k].at < now - limits.retention
  {
    CallsAreOrderly(limits, vs);
    ForgottenIsOld(limits, CallsOf(limits, vs), p, now, k);
  }

  /** The longest age, in milliseconds, that the retention still covers. */
  function Covered(limits: Limits): int { if limits.retention + 1 < 0 then 0 else limits.retention + 1 }

  /**
   Replay and freshness together. In a sequential run with a clock that never runs back, ages bounded by what the
   retention covers, and fewer additions in between than the cap, one presentation does not pass twice: by the time the
   guard has forgotten it, it is no longer fresh.
   */
  lemma PassesAtMostOnce(limits: Limits, vs: seq<Validation>, i: nat, j: nat)
    requires Clocked(vs) && SameTimes(vs) && MaxAgeWithin(vs, Covered(limits))
    requires i < j < |vs| && vs[i].presentation == vs[j].presentation
    requires AddedBetween(limits, vs, i + 1, j) < limits.maxEntries
    ensures !(Passes(limits, vs, i) && Passes(limits, vs, j))
  {
    if Passes(limits, vs, i) && Passes(limits, vs, j) {
      PassMeans(limits, vs, i);
      PassMeans(limits, vs, j);
      MarkIsOld(limits, vs, i, j, vs[i].presentation);
      assert false;
    }
  }

  // ---- The bound is exact ----

  ghost predicate OnceFor(limits: Limits, bound: int) {
    forall vs: seq<Validation>, i: nat, j: nat ::
      Clocked(vs) && SameTimes(vs) && MaxAgeWithin(vs, bound)
      && i < j < |vs| && vs[i].presentation == vs[j].presentation
      && AddedBetween(limits, vs, i + 1, j) < limits.maxEntries
      ==> !(Passes(limits, vs, i) && Passes(limits, vs, j))
  }

  function Sample(presentation: string, maxAgeSeconds: int, now: int): Validation {
    Validation(presentation, Valid(Some(0)), maxAgeSeconds, true, now, now, now)
  }

  lemma EvictsOneOld(limits: Limits, e: Entry, now: int)
    requires e.at < now - limits.retention
    ensures Evicted(limits, [e], now) == []
  {
    var cutoff := now - limits.retention;
    assert [e][1..] == [];
    assert DropOld([e], cutoff) == DropOld([], cutoff) == [];
  }

  /** Past the covered age, a presentation validated at time 0 passes again once the guard has let go of it. */
  lemma TwoPassesPastTheBound(limits: Limits, maxAgeSeconds: int, p: string)
    requires limits.maxEntries >= 1 && maxAgeSeconds * 1000 > Covered(limits)
    ensures var vs := [Sample(p, maxAgeSeconds, 0), Sample(p, maxAgeSeconds, Covered(limits))];
      Passes(limits, vs, 0) && Passes(limits, vs, 1)
  {
    var c := Covered(limits);
    var vs := [Sample(p, maxAgeSeconds, 0), Sample(p, maxAgeSeconds, c)];
    assert vs[..0] == [] && vs[..1] == [vs[0]] && [vs[0]][..0] == [];
    assert Begin(limits, [], vs[0]) == ([], true);
    assert Put([], p, 0) == [Entry(p, 0)];
    var first := Evicted(limits, [Entry(p, 0)], 0);
    assert Validate(limits, [], vs[0]) == (first, true);
    assert SeenAfter(limits, vs[..1]) == first;
    OneOrNone(limits, Entry(p, 0), 0);
    EvictsOneOld(limits, Entry(p, 0), c);
    assert Begin(limits, first, vs[1]) == ([], true);
  }

  lemma OneOrNone(limits: Limits, e: Entry, now: int)
    ensures Evicted(limits, [e], now) == [e] || Evicted(limits, [e], now) == []
  {
    if e.at < now - limits.retention {
      EvictsOneOld(limits, e, now);
    }
  }

  /** One presentation passes at most once for every such run exactly when the ages stay within the covered bound. */
  lemma PassesOnceIff(limits: Limits, maxAgeSeconds: int)
    requires limits.maxEntries >= 1
    ensures OnceFor(limits, maxAgeSeconds * 1000) <==> maxAgeSeconds * 1000 <= Covered(limits)
  {
    if maxAgeSeconds * 1000 <= Covered(limits) {
      forall vs: seq<Validation>, i: nat, j: nat |
        Clocked(vs) && SameTimes(vs) && MaxAgeWithin(vs, maxAgeSeconds * 1000) && i < j < |vs|
        && vs[i].presentation == vs[j].presentation && AddedBetween(limits, vs, i + 1, j) < limits.maxEntries
        ensures !(Passes(limits, vs, i) && Passes(limits, vs, j))
      {
        PassesAtMostOnce(limits, vs, i, j);
      }
    } else {
      var vs := [Sample("", maxAgeSeconds, 0), Sample("", maxAgeSeconds, Covered(limits))];
      TwoPassesPastTheBound(limits, maxAgeSeconds, "");
      assert AddedBetween(limits, vs, 0 + 1, 1) == 0;
      assert Clocked(vs) && SameTimes(vs) && MaxAgeWithin(vs, maxAgeSeconds * 1000);
      assert vs[0].presentation == vs[1].presentation;
    }
  }

  /** Two validations of one presentation that overlap both pass: each asks the guard before the other marks it. */
  lemma OverlappingValidationsBothPass(limits: Limits, seen: seq<Entry>, a: Validation, b: Validation)
    requires a.presentation == b.presentation && a.report.Valid? && b.report.Valid? && a.others && b.others
    requires Fresh(a.report.time, a.maxAgeSeconds, a.judged) && Fresh(b.report.time, b.maxAgeSeconds, b.judged)
    requires Begin(limits, seen, a).1 && DistinctKeys(seen)
    ensures var s1 := Begin(limits, seen, a).0;
      var s2 := Begin(limits, s1, b);
      s2.1 && Finish(limits, s2.0, a).1 && Finish(limits, Finish(limits, s2.0, a).0, b).1
  {
    var s1 := Begin(limits, seen, a).0;
    EvictedKeys(limits, s1, b.asked, b.presentation);
  }

  lemma EvictedKeys(limits: Limits, seen: seq<Entry>, now: int, key: string)
    requires !HasKey(seen, key)
    ensures !HasKey(Evicted(limits, seen, now), key)
  {
    DropOldKeys(seen, now - limits.retention, key);
  }

  lemma {:induction false} DropOldKeys(seen: seq<Entry>, cutoff: int, key: string)
    requires !HasKey(seen, key)
    ensures !HasKey(DropOld(seen, cutoff), key)
  {
    if seen != [] && seen[0].at < cutoff {
      assert forall i :: 0 <= i < |seen[1..]| ==> seen[1..][i] == seen[i + 1];
      DropOldKeys(seen[1..], cutoff, key);
    }
  }
}
