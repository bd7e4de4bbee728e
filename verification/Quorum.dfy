/** Which oracles judge a submission, and when their answers make it pass. */
module Quorum {
  import opened Wrappers
  import opened Sets

  /** Some ids, in order, that are registered. */
  function Registered(ids: seq<string>, known: set<string>): seq<string> {
    if ids == [] then []
    else Registered(ids[..|ids| - 1], known) + (if ids[|ids| - 1] in known then [ids[|ids| - 1]] else [])
  }

  function Take(ids: seq<string>, count: int): seq<string> {
    if count <= 0 then [] else if |ids| <= count then ids else ids[..count]
  }

  /** An absent or empty list of acceptable oracles leaves the choice to the registry. */
  predicate IsList(ids: Option<seq<string>>) {
    ids.Some? && ids.value != []
  }

  /** The oracle registry: ids in the order they were first registered. */
  class Registry {
    var order: seq<string>

    ghost predicate Valid()
      reads this
    {
      forall i, j :: 0 <= i < j < |order| ==> order[i] != order[j]
    }

    constructor ()
      ensures Valid() && order == []
    {
      order := [];
    }

    /** Registering again replaces the oracle but keeps its place. */
    method Register(id: string)
      requires Valid()
      modifies this
      ensures Valid()
      ensures order == if id in old(order) then old(order) else old(order) + [id]
    {
      if id !in order {
        order := order + [id];
      }
    }

    /** An oracle is returned exactly when it is registered and designated, and then it is the only such oracle. */
    method Resolve(requested: Option<string>, acceptable: Option<seq<string>>) returns (r: Option<string>)
      ensures forall id :: r == Some(id) <==> id in order && Designated(requested, acceptable, id)
      ensures r == ResolveOne(order, requested, acceptable)
    {
      if requested.Some? && requested.value != "" {
        if IsList(acceptable) && requested.value !in acceptable.value {
          return None;
        }
        return if requested.value in order then requested else None;
      }
      if acceptable.Some? && |acceptable.value| == 1 {
        assert acceptable.value == [acceptable.value[0]];
        return if acceptable.value[0] in order then Some(acceptable.value[0]) else None;
      }
      return None;
    }

    /** Resolve up to `count` oracles from the acceptable list, or from the whole registry without one. */
    method ResolveMultiple(acceptable: Option<seq<string>>, count: int) returns (result: seq<string>)
      requires Valid()
      ensures result == ResolveMany(order, acceptable, count)
    {
      result := [];
      var known := set id | id in order;
      var ids := if IsList(acceptable) then acceptable.value else order;
      for k := 0 to |ids|
        invariant result == Take(Registered(ids[..k], known), count)
      {
        assert ids[..k + 1][..k] == ids[..k];
        if |result| >= count {
          TakeIsFull(ids, k, known, count);
          break;
        }
        if ids[k] in known {
          result := result + [ids[k]];
        }
      }
      assert ids[..|ids|] == ids;
      if !IsList(acceptable) {
        AllRegistered(order, known);
      }
    }
  }

  /**
   A request designates itself, if the list of acceptable oracles allows it; without one, a list of a single oracle
   does.
   */
  predicate Designated(requested: Option<string>, acceptable: Option<seq<string>>, id: string) {
    if requested.Some? && requested.value != ""
    then id == requested.value && (IsList(acceptable) ==> id in acceptable.value)
    else acceptable == Some([id])
  }

  function ResolveOne(order: seq<string>, requested: Option<string>, acceptable: Option<seq<string>>): Option<string> {
    if requested.Some? && requested.value != "" then
      if IsList(acceptable) && requested.value !in acceptable.value then None
      else if requested.value in order then requested else None
    else if acceptable.Some? && |acceptable.value| == 1 && acceptable.value[0] in order then Some(acceptable.value[0])
    else None
  }

  function ResolveMany(order: seq<string>, acceptable: Option<seq<string>>, count: int): seq<string> {
    if IsList(acceptable) then Take(Registered(acceptable.value, set id | id in order), count) else Take(order, count)
  }

  lemma {:induction false} RegisteredPrefix(ids: seq<string>, k: nat, known: set<string>)
    requires k <= |ids|
    ensures Registered(ids[..k], known) <= Registered(ids, known)
  {
    if k < |ids| {
      var front := ids[..|ids| - 1];
      RegisteredPrefix(front, k, known);
      assert front[..k] == ids[..k];
    } else {
      assert ids[..k] == ids;
    }
  }

  lemma TakeIsFull(ids: seq<string>, k: nat, known: set<string>, count: int)
    requires k <= |ids| && |Take(Registered(ids[..k], known), count)| >= count
    ensures Take(Registered(ids[..k], known), count) == Take(Registered(ids, known), count)
  {
    RegisteredPrefix(ids, k, known);
  }

  lemma {:induction false} AllRegistered(ids: seq<string>, known: set<string>)
    requires forall id :: id in ids ==> id in known
    ensures Registered(ids, known) == ids
  {
    if ids != [] {
      AllRegistered(ids[..|ids| - 1], known);
    }
  }

  // ---- The verdict ----

  /** Who is asked: nobody, one oracle, or a panel that needs a number of approvals. */
  datatype Panel = Nobody | One(id: string) | Many(ids: seq<string>, minApprovals: int)

  /** Choose the panel. A requested oracle counts only when the query lists acceptable ones. */
  function Choose(
    order: seq<string>, acceptable: Option<seq<string>>, quorum: Option<int>, requested: Option<string>): Panel
  {
    if quorum.None? then
      var effective := if IsList(acceptable) then requested else None;
      var one := ResolveOne(order, effective, acceptable);
      if one.Some? then One(one.value) else Nobody
    else
      var ids := ResolveMany(order, acceptable, quorum.value + 2);
      if |ids| < quorum.value then Nobody else Many(ids, quorum.value)
  }

  function PanelIds(p: Panel): seq<string> {
    match p
    case Nobody => []
    case One(id) => [id]
    case Many(ids, _) => ids
  }

  function Approvals(answers: seq<bool>): nat {
    if answers == [] then 0
    else Approvals(answers[..|answers| - 1]) + (if answers[|answers| - 1] then 1 else 0)
  }

  /** The verdict on one answer per panel member, in order. */
  predicate Passes(p: Panel, answers: seq<bool>)
    requires |answers| == |PanelIds(p)|
  {
    match p
    case Nobody => false
    case One(_) => answers[0]
    case Many(_, min) => Approvals(answers) >= min
  }

  /** Counting the approvals as the service does. */
  method CountApprovals(answers: seq<bool>) returns (passCount: nat)
    ensures passCount == Approvals(answers)
  {
    passCount := 0;
    for k := 0 to |answers|
      invariant passCount == Approvals(answers[..k])
    {
      assert answers[..k + 1][..k] == answers[..k];
      if answers[k] {
        passCount := passCount + 1;
      }
    }
    assert answers[..|answers|] == answers;
  }

  /** The distinct oracles that approved. */
  function Approvers(ids: seq<string>, answers: seq<bool>): set<string>
    requires |answers| == |ids|
  {
    set i | 0 <= i < |ids| && answers[i] :: ids[i]
  }

  predicate NoDuplicates(ids: seq<string>) {
    forall i, j :: 0 <= i < j < |ids| ==> ids[i] != ids[j]
  }

  /** Distinct panel members: as many approvers as approvals. */
  lemma {:induction false} ApproversCount(ids: seq<string>, answers: seq<bool>)
    requires |answers| == |ids| && NoDuplicates(ids)
    ensures |Approvers(ids, answers)| == Approvals(answers)
  {
    if ids != [] {
      var n := |ids| - 1;
      ApproversCount(ids[..n], answers[..n]);
      ApproversSnoc(ids, answers);
      assert ids[n] !in Approvers(ids[..n], answers[..n]);
    }
  }

  lemma ApproversSnoc(ids: seq<string>, answers: seq<bool>)
    requires |answers| == |ids| > 0
    ensures var n := |ids| - 1;
      Approvers(ids, answers) == Approvers(ids[..n], answers[..n]) + (if answers[n] then {ids[n]} else {})
  {
    var n := |ids| - 1;
    forall x | x in Approvers(ids, answers)
      ensures x in Approvers(ids[..n], answers[..n]) + (if answers[n] then {ids[n]} else {})
    {
      var i :| 0 <= i < |ids| && answers[i] && ids[i] == x;
      assert i < n ==> ids[..n][i] == x && answers[..n][i];
    }
    forall x | x in Approvers(ids[..n], answers[..n])
      ensures x in Approvers(ids, answers)
    {
      var i :| 0 <= i < n && answers[..n][i] && ids[..n][i] == x;
      assert ids[i] == x && answers[i];
    }
  }

  lemma {:induction false} RegisteredMembers(ids: seq<string>, known: set<string>)
    ensures forall x :: x in Registered(ids, known) <==> x in ids && x in known
    ensures NoDuplicates(ids) ==> NoDuplicates(Registered(ids, known))
  {
    if ids != [] {
      var front, last := ids[..|ids| - 1], ids[|ids| - 1];
      RegisteredMembers(front, known);
      assert ids == front + [last];
      assert NoDuplicates(ids) ==> last !in front;
    }
  }

  /** What a panel is made of: registered oracles, all acceptable when the query lists some. */
  lemma ManyMembers(order: seq<string>, acceptable: Option<seq<string>>, count: int)
    ensures var ids := ResolveMany(order, acceptable, count);
      && |ids| <= (if count <= 0 then 0 else count)
      && (forall x :: x in ids ==> x in order && (IsList(acceptable) ==> x in acceptable.value))
      && (NoDuplicates(if IsList(acceptable) then acceptable.value else order) ==> NoDuplicates(ids))
  {
    if IsList(acceptable) {
      var known := set id | id in order;
      RegisteredMembers(acceptable.value, known);
    }
  }

  /**
   A quorum query over a duplicate-free oracle list passes exactly when at least min_approvals distinct, registered
   and acceptable oracles of its panel approved.
   */
  lemma QuorumPassIff(
    order: seq<string>, acceptable: Option<seq<string>>, min: int, requested: Option<string>, answers: seq<bool>)
    requires NoDuplicates(if IsList(acceptable) then acceptable.value else order)
    requires |answers| == |PanelIds(Choose(order, acceptable, Some(min), requested))|
    ensures var p := Choose(order, acceptable, Some(min), requested);
      && (Passes(p, answers) <==> p.Many? && |Approvers(p.ids, answers)| >= min)
      && (p.Many? ==>
            forall x :: x in Approvers(p.ids, answers) ==> x in order && (IsList(acceptable) ==> x in acceptable.value))
  {
    var p := Choose(order, acceptable, Some(min), requested);
    ManyMembers(order, acceptable, min + 2);
    if p.Many? {
      ApproversCount(p.ids, answers);
    }
  }

  // ---- Duplicate ids ----

  /** Answers given by oracle rather than by position. */
  function AnswersOf(ids: seq<string>, approving: set<string>): seq<bool> {
    seq(|ids|, i requires 0 <= i < |ids| => ids[i] in approving)
  }

  /** However the oracles answer, a pass means min distinct approvers. */
  ghost predicate Sound(ids: seq<string>, min: int) {
    forall approving: set<string> :: Passes(Many(ids, min), AnswersOf(ids, approving)) ==>
      |Approvers(ids, AnswersOf(ids, approving))| >= min
  }

  /** How many panel positions an approving set of oracles answers for. */
  function Votes(ids: seq<string>, approving: set<string>): nat {
    if ids == [] then 0
    else Votes(ids[..|ids| - 1], approving) + (if ids[|ids| - 1] in approving then 1 else 0)
  }

  lemma {:induction false} VotesAreApprovals(ids: seq<string>, approving: set<string>)
    ensures Approvals(AnswersOf(ids, approving)) == Votes(ids, approving)
  {
    if ids != [] {
      var n := |ids| - 1;
      VotesAreApprovals(ids[..n], approving);
      assert AnswersOf(ids, approving)[..n] == AnswersOf(ids[..n], approving);
    }
  }

  /** One more oracle, voting at an unapproved position, adds a vote. */
  lemma {:induction false} VotesGrow(ids: seq<string>, approving: set<string>, x: string)
    requires x !in approving
    ensures Votes(ids, approving + {x}) >= Votes(ids, approving) + (if x in ids then 1 else 0)
  {
    if ids != [] {
      VotesGrow(ids[..|ids| - 1], approving, x);
    }
  }

  lemma {:induction false} TwoVotes(ids: seq<string>, i: nat, j: nat)
    requires i < j < |ids| && ids[i] == ids[j]
    ensures Votes(ids, {ids[i]}) >= 2
  {
    var front := ids[..|ids| - 1];
    if j < |front| {
      TwoVotes(front, i, j);
    } else {
      VotesGrow(front, {}, ids[i]);
      assert front[i] in front;
      assert {} + {ids[i]} == {ids[i]};
    }
  }

  lemma {:induction false} AllVote(ids: seq<string>, approving: set<string>)
    requires forall x :: x in ids ==> x in approving
    ensures Votes(ids, approving) == |ids|
  {
    if ids != [] {
      AllVote(ids[..|ids| - 1], approving);
    }
  }

  /** With a duplicate, some n - 1 oracles or fewer hold n votes. */
  lemma {:induction false} FewHoldMany(ids: seq<string>, i: nat, j: nat, n: nat) returns (approving: set<string>)
    requires i < j < |ids| && ids[i] == ids[j] && 2 <= n <= |ids|
    ensures Votes(ids, approving) >= n && |approving| < n
    decreases n
  {
    if n == 2 {
      TwoVotes(ids, i, j);
      approving := {ids[i]};
    } else {
      approving := FewHoldMany(ids, i, j, n - 1);
      if Votes(ids, approving) < n {
        if forall x :: x in ids ==> x in approving {
          AllVote(ids, approving);
          assert false;
        }
        var x :| x in ids && x !in approving;
        VotesGrow(ids, approving, x);
        approving := approving + {x};
      }
    }
  }

  /** Two positions of one oracle let a panel pass with fewer than min oracles. */
  lemma DuplicateDefeatsQuorum(ids: seq<string>, min: int, i: nat, j: nat)
    requires i < j < |ids| && ids[i] == ids[j] && 2 <= min <= |ids|
    ensures !Sound(ids, min)
  {
    var approving := FewHoldMany(ids, i, j, min);
    var answers := AnswersOf(ids, approving);
    VotesAreApprovals(ids, approving);
    assert Passes(Many(ids, min), answers);
    SubsetIsSmaller(Approvers(ids, answers), approving);
  }

  /**
   The exact condition for any resolved panel: a pass always means min distinct approvers exactly when the panel
   has no duplicate, or needs at most one approval, or is too small to pass at all.
   */
  lemma QuorumSoundIff(ids: seq<string>, min: int)
    ensures Sound(ids, min) <==> NoDuplicates(ids) || min <= 1 || |ids| < min
  {
    if !NoDuplicates(ids) && 2 <= min <= |ids| {
      var i, j :| 0 <= i < j < |ids| && ids[i] == ids[j];
      DuplicateDefeatsQuorum(ids, min, i, j);
    } else {
      forall approving: set<string> | Passes(Many(ids, min), AnswersOf(ids, approving))
        ensures |Approvers(ids, AnswersOf(ids, approving))| >= min
      {
        PassMeansApprovers(ids, min, AnswersOf(ids, approving));
      }
    }
  }

  lemma PassMeansApprovers(ids: seq<string>, min: int, answers: seq<bool>)
    requires |answers| == |ids| && Approvals(answers) >= min && (NoDuplicates(ids) || min <= 1 || |ids| < min)
    ensures |Approvers(ids, answers)| >= min
  {
    if NoDuplicates(ids) {
      ApproversCount(ids, answers);
    } else if min == 1 {
      ApprovedSomewhere(answers);
      var i :| 0 <= i < |answers| && answers[i];
      assert ids[i] in Approvers(ids, answers);
    } else if min > 1 {
      ApprovalsBound(answers);
    }
  }

  lemma {:induction false} ApprovedSomewhere(answers: seq<bool>)
    requires Approvals(answers) > 0
    ensures exists i :: 0 <= i < |answers| && answers[i]
  {
    var n := |answers| - 1;
    if !answers[n] {
      ApprovedSomewhere(answers[..n]);
      var i :| 0 <= i < n && answers[..n][i];
      assert answers[i];
    }
  }

  lemma {:induction false} ApprovalsBound(answers: seq<bool>)
    ensures Approvals(answers) <= |answers|
  {
    if answers != [] {
      ApprovalsBound(answers[..|answers| - 1]);
    }
  }
}
