/**
 Interleaved validations of TLSNotary presentations: each asks the guard, and marks the presentation after an await.
 */
module TlsnOverlap {
  import opened Wrappers
  import opened ReplayGuard
  import opened TlsnReplay

  datatype Step = Ask(v: nat) | Mark(v: nat)

  /** What the guard holds, which validations it let through, and how many marks it took. */
  datatype State = State(seen: seq<Entry>, admitted: set<nat>, marks: nat)

  function Next(limits: Limits, vs: seq<Validation>, s: State, step: Step): State
    requires step.v < |vs|
  {
    match step
    case Ask(v) =>
      var (left, proceeds) := Begin(limits, s.seen, vs[v]);
      State(left, if proceeds then s.admitted + {v} else s.admitted, s.marks)
    case Mark(v) =>
      if v in s.admitted && vs[v].report.Valid?
      then State(Finish(limits, s.seen, vs[v]).0, s.admitted, s.marks + 1)
      else s
  }

  predicate Known(vs: seq<Validation>, steps: seq<Step>) { forall i :: 0 <= i < |steps| ==> steps[i].v < |vs| }

  function Exec(limits: Limits, vs: seq<Validation>, steps: seq<Step>): State
    requires Known(vs, steps)
  {
    if steps == [] then State([], {}, 0)
    else Next(limits, vs, Exec(limits, vs, steps[..|steps| - 1]), steps[|steps| - 1])
  }

  function Time(vs: seq<Validation>, step: Step): int
    requires step.v < |vs|
  {
    if step.Ask? then vs[step.v].asked else vs[step.v].marked
  }

  predicate InOrder(vs: seq<Validation>, steps: seq<Step>, i: nat, j: nat)
    requires Known(vs, steps)
  {
    i < j < |steps| ==> steps[i] != steps[j] && Time(vs, steps[i]) <= Time(vs, steps[j])
  }

  predicate AsksFirst(steps: seq<Step>, i: nat) { i < |steps| && steps[i].Mark? ==> Ask(steps[i].v) in steps[..i] }

  predicate TimesInOrder(vs: seq<Validation>, v: nat) { v < |vs| ==> vs[v].asked <= vs[v].judged <= vs[v].marked }

  /** Every validation asks once and marks at most once, after asking; the clock never runs back. */
  ghost predicate Lawful(vs: seq<Validation>, steps: seq<Step>) {
    && Known(vs, steps)
    && (forall i: nat, j: nat :: InOrder(vs, steps, i, j))
    && (forall i: nat :: AsksFirst(steps, i))
    && (forall v: nat :: TimesInOrder(vs, v))
  }

  /** The validation would pass if the guard lets it through. */
  predicate Sound(v: Validation) { v.report.Valid? && v.others && Fresh(v.report.time, v.maxAgeSeconds, v.judged) }

  predicate Passed(limits: Limits, vs: seq<Validation>, steps: seq<Step>, v: nat)
    requires Known(vs, steps)
  {
    v < |vs| && Sound(vs[v]) && v in Exec(limits, vs, steps).admitted && Mark(v) in steps
  }

  // ---- A recent mark is held ----

  /** The key is held, last set no earlier than m. */
  predicate Held(seen: seq<Entry>, key: string, m: int) {
    seen != [] && ((seen[0].key == key && seen[0].at >= m) || Held(seen[1..], key, m))
  }

  lemma {:induction false} HeldHasKey(seen: seq<Entry>, key: string, m: int)
    requires Held(seen, key, m)
    ensures HasKey(seen, key)
  {
    if seen[0].key != key {
      HeldHasKey(seen[1..], key, m);
      var i :| 0 <= i < |seen[1..]| && seen[1..][i].key == key;
      assert seen[i + 1].key == key;
    }
  }

  lemma {:induction false} DropOldKeepsHeld(seen: seq<Entry>, cutoff: int, key: string, m: int)
    requires Held(seen, key, m) && cutoff <= m
    ensures Held(DropOld(seen, cutoff), key, m) && |DropOld(seen, cutoff)| <= |seen|
  {
    if seen[0].at < cutoff {
      DropOldKeepsHeld(seen[1..], cutoff, key, m);
    }
  }

  lemma EvictKeepsHeld(limits: Limits, seen: seq<Entry>, now: int, key: string, m: int)
    requires Held(seen, key, m) && now - limits.retention <= m && |seen| <= Cap(limits)
    ensures Held(Evicted(limits, seen, now), key, m)
  {
    DropOldKeepsHeld(seen, now - limits.retention, key, m);
  }

  lemma {:induction false} PutHolds(seen: seq<Entry>, key: string, now: int)
    ensures Held(Put(seen, key, now), key, now) && |Put(seen, key, now)| <= |seen| + 1
  {
    if seen != [] && seen[0].key != key {
      PutHolds(seen[1..], key, now);
      assert Put(seen, key, now)[1..] == Put(seen[1..], key, now);
    }
  }

  lemma {:induction false} PutKeepsHeld(seen: seq<Entry>, key: string, now: int, other: string, m: int)
    requires Held(seen, other, m) && m <= now
    ensures Held(Put(seen, key, now), other, m)
  {
    if seen[0].key == key {
      assert Put(seen, key, now)[1..] == seen[1..];
    } else if !(seen[0].key == other && seen[0].at >= m) {
      PutKeepsHeld(seen[1..], key, now, other, m);
      assert Put(seen, key, now)[1..] == Put(seen[1..], key, now);
    }
  }

  lemma {:induction false} DropOldShrinks(seen: seq<Entry>, cutoff: int)
    ensures |DropOld(seen, cutoff)| <= |seen|
  {
    if seen != [] && seen[0].at < cutoff {
      DropOldShrinks(seen[1..], cutoff);
    }
  }

  /** The guard holds at most one entry for every mark it took. */
  lemma NextSize(limits: Limits, vs: seq<Validation>, s: State, step: Step)
    requires step.v < |vs| && |s.seen| <= s.marks
    ensures |Next(limits, vs, s, step).seen| <= Next(limits, vs, s, step).marks
    ensures s.marks <= Next(limits, vs, s, step).marks
  {
    var v := vs[step.v];
    if step.Ask? {
      DropOldShrinks(s.seen, v.asked - limits.retention);
    } else {
      PutHolds(s.seen, v.presentation, v.marked);
      DropOldShrinks(Put(s.seen, v.presentation, v.marked), v.marked - limits.retention);
    }
  }

  lemma {:induction false} SizeOk(limits: Limits, vs: seq<Validation>, steps: seq<Step>)
    requires Known(vs, steps)
    ensures |Exec(limits, vs, steps).seen| <= Exec(limits, vs, steps).marks
  {
    if steps != [] {
      SizeOk(limits, vs, steps[..|steps| - 1]);
      NextSize(limits, vs, Exec(limits, vs, steps[..|steps| - 1]), steps[|steps| - 1]);
    }
  }

  lemma ExecSnoc(limits: Limits, vs: seq<Validation>, steps: seq<Step>, k: nat)
    requires Known(vs, steps) && k < |steps|
    ensures Exec(limits, vs, steps[..k + 1]) == Next(limits, vs, Exec(limits, vs, steps[..k]), steps[k])
  {
    assert steps[..k + 1][..k] == steps[..k];
  }

  lemma {:induction false} MarksGrow(limits: Limits, vs: seq<Validation>, steps: seq<Step>, k: nat)
    requires Known(vs, steps) && k <= |steps|
    ensures Exec(limits, vs, steps[..k]).marks <= Exec(limits, vs, steps).marks
    decreases |steps| - k
  {
    if k == |steps| {
      assert steps[..k] == steps;
    } else {
      MarksGrow(limits, vs, steps, k + 1);
      ExecSnoc(limits, vs, steps, k);
      SizeOk(limits, vs, steps[..k]);
      NextSize(limits, vs, Exec(limits, vs, steps[..k]), steps[k]);
    }
  }

  lemma NextKeepsHeld(limits: Limits, vs: seq<Validation>, s: State, step: Step, key: string, m: int)
    requires step.v < |vs| && |s.seen| <= s.marks && Next(limits, vs, s, step).marks <= limits.maxEntries
    requires Held(s.seen, key, m) && m <= Time(vs, step) <= m + limits.retention
    ensures Held(Next(limits, vs, s, step).seen, key, m)
  {
    var v := vs[step.v];
    if step.Ask? {
      EvictKeepsHeld(limits, s.seen, v.asked, key, m);
    } else if step.v in s.admitted && v.report.Valid? {
      PutHolds(s.seen, v.presentation, v.marked);
      PutKeepsHeld(s.seen, v.presentation, v.marked, key, m);
      EvictKeepsHeld(limits, Put(s.seen, v.presentation, v.marked), v.marked, key, m);
    }
  }

  /** The mark at step i took effect. */
  predicate Marked(limits: Limits, vs: seq<Validation>, steps: seq<Step>, i: nat)
    requires Known(vs, steps) && i < |steps|
  {
    steps[i].Mark? && vs[steps[i].v].report.Valid? && steps[i].v in Exec(limits, vs, steps[..i]).admitted
  }

  lemma {:induction false} StaysTrue(flags: seq<bool>, i: nat, k: nat)
    requires i <= k < |flags| && flags[i]
    requires forall n: nat :: i <= n < k && flags[n] ==> flags[n + 1]
    ensures flags[k]
    decreases k
  {
    if i < k {
      StaysTrue(flags, i, k - 1);
      assert flags[k - 1] ==> flags[k - 1 + 1];
    }
  }

  /** States that follow one another by the run's steps, with room for every mark. */
  predicate Follows(limits: Limits, vs: seq<Validation>, steps: seq<Step>, states: seq<State>, n: nat)
    requires Known(vs, steps) && |states| == |steps| + 1
  {
    n < |steps| ==>
      && states[n + 1] == Next(limits, vs, states[n], steps[n])
      && |states[n].seen| <= states[n].marks && states[n + 1].marks <= limits.maxEntries
  }

  function StateAt(limits: Limits, vs: seq<Validation>, steps: seq<Step>, n: nat): State
    requires Known(vs, steps) && n <= |steps|
  {
    Exec(limits, vs, steps[..n])
  }

  function States(limits: Limits, vs: seq<Validation>, steps: seq<Step>): seq<State>
    requires Known(vs, steps)
  {
    seq(|steps| + 1, n requires 0 <= n <= |steps| => StateAt(limits, vs, steps, n))
  }

  lemma RunFollows(limits: Limits, vs: seq<Validation>, steps: seq<Step>, n: nat)
    requires Known(vs, steps) && Exec(limits, vs, steps).marks <= limits.maxEntries
    ensures Follows(limits, vs, steps, States(limits, vs, steps), n)
  {
    if n < |steps| {
      ExecSnoc(limits, vs, steps, n);
      SizeOk(limits, vs, steps[..n]);
      MarksGrow(limits, vs, steps, n + 1);
    }
  }

  /** Within the cap and the retention, what is held after step i stays held. */
  lemma {:induction false} HeldThrough(
    limits: Limits, vs: seq<Validation>, steps: seq<Step>, states: seq<State>, i: nat, k: nat, key: string)
    requires Lawful(vs, steps) && |states| == |steps| + 1 && i < k <= |steps|
    requires forall n: nat :: Follows(limits, vs, steps, states, n)
    requires Held(states[i + 1].seen, key, Time(vs, steps[i]))
    requires Time(vs, steps[k - 1]) <= Time(vs, steps[i]) + limits.retention
    ensures Held(states[k].seen, key, Time(vs, steps[i]))
    decreases k
  {
    if k > i + 1 {
      assert InOrder(vs, steps, k - 2, k - 1);
      assert InOrder(vs, steps, i, k - 1);
      HeldThrough(limits, vs, steps, states, i, k - 1, key);
      assert Follows(limits, vs, steps, states, k - 1);
      NextKeepsHeld(limits, vs, states[k - 1], steps[k - 1], key, Time(vs, steps[i]));
    }
  }

  /** A marked presentation stays held. */
  lemma Retained(limits: Limits, vs: seq<Validation>, steps: seq<Step>, i: nat, k: nat)
    requires Lawful(vs, steps) && i < k <= |steps| && Marked(limits, vs, steps, i)
    requires Exec(limits, vs, steps).marks <= limits.maxEntries && limits.retention >= 0
    requires Time(vs, steps[k - 1]) <= vs[steps[i].v].marked + limits.retention
    ensures Held(StateAt(limits, vs, steps, k).seen, vs[steps[i].v].presentation, vs[steps[i].v].marked)
  {
    var states := States(limits, vs, steps);
    forall n: nat
      ensures Follows(limits, vs, steps, states, n)
    {
      RunFollows(limits, vs, steps, n);
    }
    assert Follows(limits, vs, steps, states, i);
    JustMarked(limits, vs, states[i], steps[i]);
    HeldThrough(limits, vs, steps, states, i, k, vs[steps[i].v].presentation);
  }

  lemma JustMarked(limits: Limits, vs: seq<Validation>, s: State, step: Step)
    requires step.v < |vs| && step.Mark? && step.v in s.admitted && vs[step.v].report.Valid? && limits.retention >= 0
    requires |s.seen| <= s.marks && s.marks + 1 <= limits.maxEntries
    ensures Held(Next(limits, vs, s, step).seen, vs[step.v].presentation, vs[step.v].marked)
  {
    var v := vs[step.v];
    PutHolds(s.seen, v.presentation, v.marked);
    EvictKeepsHeld(limits, Put(s.seen, v.presentation, v.marked), v.marked, v.presentation, v.marked);
  }

  // ---- Who is let through ----

  /** Whether a validation is let through is settled when it asks. */
  lemma AdmittedIsSettled(limits: Limits, vs: seq<Validation>, steps: seq<Step>, b: nat, k: nat)
    requires Lawful(vs, steps) && b < k <= |steps| && steps[b].Ask?
    ensures steps[b].v in Exec(limits, vs, steps[..k]).admitted <==>
      steps[b].v in Exec(limits, vs, steps[..b + 1]).admitted
  {
    var v := steps[b].v;
    var settled := v in Exec(limits, vs, steps[..b + 1]).admitted;
    var same := seq(|steps| + 1,
      n requires 0 <= n <= |steps| => (v in Exec(limits, vs, steps[..n]).admitted) == settled);
    forall n: nat | b < n < k && same[n]
      ensures same[n + 1]
    {
      assert InOrder(vs, steps, b, n);
      OthersAdmitNot(limits, vs, steps, n, v);
    }
    StaysTrue(same, b + 1, k);
  }

  lemma AskAdmits(limits: Limits, vs: seq<Validation>, steps: seq<Step>, b: nat)
    requires Lawful(vs, steps) && b < |steps| && steps[b].Ask?
    ensures steps[b].v in Exec(limits, vs, steps[..b + 1]).admitted <==>
      Begin(limits, Exec(limits, vs, steps[..b]).seen, vs[steps[b].v]).1
  {
    ExecSnoc(limits, vs, steps, b);
    NotYetAdmitted(limits, vs, steps, b, b);
  }

  /** Only asking lets a validation through. */
  lemma OthersAdmitNot(limits: Limits, vs: seq<Validation>, steps: seq<Step>, k: nat, v: nat)
    requires Known(vs, steps) && k < |steps| && steps[k] != Ask(v)
    ensures v in Exec(limits, vs, steps[..k + 1]).admitted <==> v in Exec(limits, vs, steps[..k]).admitted
  {
    ExecSnoc(limits, vs, steps, k);
  }

  lemma {:induction false} NotYetAdmitted(limits: Limits, vs: seq<Validation>, steps: seq<Step>, b: nat, k: nat)
    requires Lawful(vs, steps) && k <= b < |steps| && steps[b].Ask?
    ensures steps[b].v !in Exec(limits, vs, steps[..k]).admitted
    decreases k
  {
    if k > 0 {
      NotYetAdmitted(limits, vs, steps, b, k - 1);
      ExecSnoc(limits, vs, steps, k - 1);
      assert InOrder(vs, steps, k - 1, b);
    }
  }

  lemma AdmittedWhenAsked(limits: Limits, vs: seq<Validation>, steps: seq<Step>, b: nat, k: nat)
    requires Lawful(vs, steps) && b < k <= |steps| && steps[b].Ask?
    ensures steps[b].v in Exec(limits, vs, steps[..k]).admitted <==>
      Begin(limits, Exec(limits, vs, steps[..b]).seen, vs[steps[b].v]).1
  {
    AskAdmits(limits, vs, steps, b);
    AdmittedIsSettled(limits, vs, steps, b, k);
  }

  lemma PassedWasAdmitted(limits: Limits, vs: seq<Validation>, steps: seq<Step>, b: nat)
    requires Lawful(vs, steps) && b < |steps| && steps[b].Ask?
    ensures steps[b].v in Exec(limits, vs, steps).admitted <==>
      Begin(limits, Exec(limits, vs, steps[..b]).seen, vs[steps[b].v]).1
  {
    AdmittedWhenAsked(limits, vs, steps, b, |steps|);
    assert steps[..|steps|] == steps;
  }

  lemma {:induction false} PutKeepsAbsent(seen: seq<Entry>, key: string, now: int, other: string)
    requires key != other && !HasKey(seen, other)
    ensures !HasKey(Put(seen, key, now), other)
  {
    if seen != [] && seen[0].key != key {
      assert forall i :: 0 <= i < |seen[1..]| ==> seen[1..][i] == seen[i + 1];
      PutKeepsAbsent(seen[1..], key, now, other);
    }
  }

  /** What was never marked is not held. */
  lemma {:induction false} UnmarkedIsAbsent(limits: Limits, vs: seq<Validation>, steps: seq<Step>, k: nat, p: string)
    requires Lawful(vs, steps) && k <= |steps|
    requires forall i: nat :: i < k && Marked(limits, vs, steps, i) ==> vs[steps[i].v].presentation != p
    ensures !HasKey(Exec(limits, vs, steps[..k]).seen, p)
    decreases k
  {
    if k > 0 {
      UnmarkedIsAbsent(limits, vs, steps, k - 1, p);
      ExecSnoc(limits, vs, steps, k - 1);
      var s, v := Exec(limits, vs, steps[..k - 1]), vs[steps[k - 1].v];
      if steps[k - 1].Ask? {
        EvictedKeys(limits, s.seen, v.asked, p);
      } else if Marked(limits, vs, steps, k - 1) {
        PutKeepsAbsent(s.seen, v.presentation, v.marked, p);
        EvictedKeys(limits, Put(s.seen, v.presentation, v.marked), v.marked, p);
      }
    }
  }

  // ---- Main results ----

  /** Ages within what the retention covers, room for every mark, and one time per presentation. */
  ghost predicate Bounded(limits: Limits, vs: seq<Validation>, steps: seq<Step>)
    requires Known(vs, steps)
  {
    && Exec(limits, vs, steps).marks <= limits.maxEntries
    && MaxAgeWithin(vs, Covered(limits)) && SameTimes(vs)
  }

  lemma FreshIsRecent(limits: Limits, x: Validation, y: Validation)
    requires Sound(x) && Sound(y) && x.report == y.report
    requires x.judged <= x.marked && y.asked <= y.judged && y.maxAgeSeconds * 1000 <= Covered(limits)
    ensures limits.retention >= 0 && y.asked <= x.marked + limits.retention
  {
  }

  /** After a passing validation marked the presentation, no later one that asks passes. */
  lemma MarkedBeforeAskFails(limits: Limits, vs: seq<Validation>, steps: seq<Step>, m: nat, b: nat)
    requires Lawful(vs, steps) && Bounded(limits, vs, steps) && m < b < |steps|
    requires steps[m].Mark? && steps[b].Ask? && vs[steps[m].v].presentation == vs[steps[b].v].presentation
    ensures !(Passed(limits, vs, steps, steps[m].v) && Passed(limits, vs, steps, steps[b].v))
  {
    var x, y := steps[m].v, steps[b].v;
    if Passed(limits, vs, steps, x) && Passed(limits, vs, steps, y) {
      assert AsksFirst(steps, m) && TimesInOrder(vs, x) && TimesInOrder(vs, y);
      var a :| 0 <= a < m && steps[..m][a] == Ask(x);
      PassedWasAdmitted(limits, vs, steps, a);
      AdmittedWhenAsked(limits, vs, steps, a, m);
      assert SamePresentation(vs[x], vs[y]);
      FreshIsRecent(limits, vs[x], vs[y]);
      HeldWhenAsked(limits, vs, steps, m, b);
      PassedWasAdmitted(limits, vs, steps, b);
      assert false;
    }
  }

  lemma HeldWhenAsked(limits: Limits, vs: seq<Validation>, steps: seq<Step>, m: nat, b: nat)
    requires Lawful(vs, steps) && Bounded(limits, vs, steps) && m < b < |steps| && Marked(limits, vs, steps, m)
    requires steps[b].Ask? && vs[steps[b].v].presentation == vs[steps[m].v].presentation
    requires vs[steps[b].v].asked <= vs[steps[m].v].marked + limits.retention && limits.retention >= 0
    ensures !Begin(limits, Exec(limits, vs, steps[..b]).seen, vs[steps[b].v]).1
  {
    var s, x, y := Exec(limits, vs, steps[..b]), vs[steps[m].v], vs[steps[b].v];
    assert InOrder(vs, steps, b - 1, b);
    Retained(limits, vs, steps, m, b);
    SizeOk(limits, vs, steps[..b]);
    MarksGrow(limits, vs, steps, b);
    EvictKeepsHeld(limits, s.seen, y.asked, x.presentation, x.marked);
    HeldHasKey(Evicted(limits, s.seen, y.asked), x.presentation, x.marked);
  }

  /** Nobody else marks the presentation before step k. */
  ghost predicate NoThird(limits: Limits, vs: seq<Validation>, steps: seq<Step>, k: nat, x: nat, y: nat)
    requires Known(vs, steps) && k <= |steps| && x < |vs|
  {
    forall i: nat :: i < k && Marked(limits, vs, steps, i) && vs[steps[i].v].presentation == vs[x].presentation ==>
      steps[i].v == x || steps[i].v == y
  }

  /**
   Interleaved validations x and y of one presentation, which ask at a and b and mark at m and n, each passing every
   check but the replay check, with no third mark of it before they ask: both pass if and only if each asks before the
   other marks.
   */
  lemma BothPassIffOverlap(
    limits: Limits, vs: seq<Validation>, steps: seq<Step>, x: nat, y: nat, a: nat, m: nat, b: nat, n: nat)
    requires Lawful(vs, steps) && Bounded(limits, vs, steps) && x < |vs| && y < |vs| && x != y
    requires a < |steps| && m < |steps| && b < |steps| && n < |steps|
    requires steps[a] == Ask(x) && steps[m] == Mark(x) && steps[b] == Ask(y) && steps[n] == Mark(y)
    requires vs[x].presentation == vs[y].presentation && Sound(vs[x]) && Sound(vs[y])
    requires NoThird(limits, vs, steps, a, x, y) && NoThird(limits, vs, steps, b, x, y)
    ensures Passed(limits, vs, steps, x) && Passed(limits, vs, steps, y) <==> b < m && a < n
  {
    if m < b {
      MarkedBeforeAskFails(limits, vs, steps, m, b);
    } else if n < a {
      MarkedBeforeAskFails(limits, vs, steps, n, a);
    } else {
      AsksInTime(limits, vs, steps, a, m, n, x, y);
      AsksInTime(limits, vs, steps, b, n, m, y, x);
    }
  }

  /** A validation that asks before either of the two marks is let through. */
  lemma AsksInTime(limits: Limits, vs: seq<Validation>, steps: seq<Step>, a: nat, m: nat, n: nat, x: nat, y: nat)
    requires Lawful(vs, steps) && x < |vs| && y < |vs| && a < |steps| && m < |steps| && n < |steps| && a <= n
    requires steps[a] == Ask(x) && steps[m] == Mark(x) && steps[n] == Mark(y) && NoThird(limits, vs, steps, a, x, y)
    ensures x in Exec(limits, vs, steps).admitted
  {
    forall i: nat | i < a && Marked(limits, vs, steps, i)
      ensures vs[steps[i].v].presentation != vs[x].presentation
    {
      assert InOrder(vs, steps, i, n);
      if steps[i] == Mark(x) {
        AskPrecedesMark(vs, steps, a, i);
      }
    }
    UnmarkedIsAbsent(limits, vs, steps, a, vs[x].presentation);
    EvictedKeys(limits, Exec(limits, vs, steps[..a]).seen, vs[x].asked, vs[x].presentation);
    PassedWasAdmitted(limits, vs, steps, a);
  }

  lemma AskPrecedesMark(vs: seq<Validation>, steps: seq<Step>, a: nat, m: nat)
    requires Lawful(vs, steps) && a < |steps| && m < |steps| && steps[a].Ask? && steps[m] == Mark(steps[a].v)
    ensures a < m
  {
    assert AsksFirst(steps, m);
    var i :| 0 <= i < m && steps[..m][i] == Ask(steps[a].v);
    assert InOrder(vs, steps, i, a) && InOrder(vs, steps, a, i);
  }
}
