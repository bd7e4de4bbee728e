/** The Customer's side: collecting offers inside the window and choosing one. */
module Offers {
  import opened Wrappers

  /** A JSON number as the offer payload carries it. */
  datatype Number = Finite(value: real) | NotFinite

  /** A kind 7000 event seen in the offer window; many are not readable offers. */
  datatype Feedback = Unreadable | Readable(provider: string, amount: Number, eventId: string)

  datatype Offer = Offer(provider: string, amountSats: int, eventId: string)

  predicate IsValidAmount(n: Number) {
    n.Finite? && n.value.Floor as real == n.value && n.value > 0.0
  }

  /** Whether an event becomes a collected offer, for a budget and an optionally demanded Provider. */
  predicate Qualifies(e: Feedback, maxAmount: nat, wanted: Option<string>) {
    && e.Readable?
    && IsValidAmount(e.amount)
    && e.amount.value <= maxAmount as real
    && (wanted.None? || e.provider == wanted.value)
  }

  function AsOffer(e: Feedback): Offer
    requires e.Readable? && e.amount.Finite?
  {
    Offer(e.provider, e.amount.value.Floor, e.eventId)
  }

  /** The qualifying events in arrival order. */
  function Qualifying(events: seq<Feedback>, maxAmount: nat, wanted: Option<string>): seq<Offer> {
    if events == [] then []
    else
      var e := events[|events| - 1];
      Qualifying(events[..|events| - 1], maxAmount, wanted)
      + (if Qualifies(e, maxAmount, wanted) then [AsOffer(e)] else [])
  }

  function ReadableCount(events: seq<Feedback>): nat {
    |set i | 0 <= i < |events| && events[i].Readable?|
  }

  /** The subscription handler over the events of one window. */
  method CollectOffers(events: seq<Feedback>, maxAmount: nat, wanted: Option<string>)
    returns (offers: seq<Offer>, totalReceived: nat)
    ensures offers == Qualifying(events, maxAmount, wanted)
    ensures totalReceived == ReadableCount(events)
  {
    offers, totalReceived := [], 0;
    for k := 0 to |events|
      invariant offers == Qualifying(events[..k], maxAmount, wanted)
      invariant totalReceived == |set i | 0 <= i < k && events[i].Readable?|
    {
      assert events[..k + 1][..k] == events[..k];
      var e := events[k];
      ghost var before := set i | 0 <= i < k && events[i].Readable?;
      ghost var after := set i | 0 <= i < k + 1 && events[i].Readable?;
      assert after == if e.Readable? then before + {k} else before;
      if e.Readable? {
        totalReceived := totalReceived + 1;
        if Qualifies(e, maxAmount, wanted) {
          offers := offers + [AsOffer(e)];
        }
      }
    }
    assert events[..|events|] == events;
  }

  /** The default selector: a left-to-right minimum that keeps the earlier of two equal offers. */
  function Cheapest(offers: seq<Offer>): Offer
    requires offers != []
  {
    if |offers| == 1 then offers[0]
    else
      var min := Cheapest(offers[..|offers| - 1]);
      var q := offers[|offers| - 1];
      if q.amountSats < min.amountSats then q else min
  }

  function SelectCheapestOffer(offers: seq<Offer>): Option<Offer> {
    if offers == [] then None else Some(Cheapest(offers))
  }

  /** The selector returns the least amount, and of those the offer that arrived first. */
  lemma {:induction false} CheapestIsLeastAndEarliest(offers: seq<Offer>) returns (k: nat)
    requires offers != []
    ensures k < |offers| && offers[k] == Cheapest(offers)
    ensures forall j :: 0 <= j < |offers| ==> offers[k].amountSats <= offers[j].amountSats
    ensures forall j :: 0 <= j < k ==> offers[k].amountSats < offers[j].amountSats
  {
    if |offers| == 1 {
      k := 0;
    } else {
      var front := offers[..|offers| - 1];
      k := CheapestIsLeastAndEarliest(front);
      assert forall j :: 0 <= j < |front| ==> front[j] == offers[j];
      if offers[|offers| - 1].amountSats < front[k].amountSats {
        k := |offers| - 1;
      }
    }
  }

  /** Every collected offer is a positive whole amount within the budget. */
  lemma {:induction false} QualifyingWithinBudget(events: seq<Feedback>, maxAmount: nat, wanted: Option<string>)
    ensures forall o :: o in Qualifying(events, maxAmount, wanted) ==>
      && 0 < o.amountSats <= maxAmount
      && exists i :: 0 <= i < |events| && Qualifies(events[i], maxAmount, wanted) && o == AsOffer(events[i])
  {
    if events != [] {
      var n := |events| - 1;
      QualifyingWithinBudget(events[..n], maxAmount, wanted);
      assert forall i :: 0 <= i < n ==> events[..n][i] == events[i];
    }
  }

  /** No qualifying event is dropped. */
  lemma {:induction false} QualifyingKeepsAll(events: seq<Feedback>, maxAmount: nat, wanted: Option<string>, i: nat)
    requires i < |events| && Qualifies(events[i], maxAmount, wanted)
    ensures AsOffer(events[i]) in Qualifying(events, maxAmount, wanted)
  {
    var n := |events| - 1;
    if i < n {
      QualifyingKeepsAll(events[..n], maxAmount, wanted, i);
    }
  }

  lemma CheapestSnoc(offers: seq<Offer>, o: Offer)
    ensures Cheapest(offers + [o]) ==
      if offers != [] && Cheapest(offers).amountSats <= o.amountSats then Cheapest(offers) else o
  {
    assert (offers + [o])[..|offers|] == offers;
  }

  /** The event qualifies, no qualifying event asks less, and every earlier one asks more. */
  predicate IsFirstLeast(events: seq<Feedback>, i: nat, maxAmount: nat, wanted: Option<string>) {
    && i < |events| && Qualifies(events[i], maxAmount, wanted)
    && forall j :: 0 <= j < |events| && Qualifies(events[j], maxAmount, wanted) ==>
         && AsOffer(events[i]).amountSats <= AsOffer(events[j]).amountSats
         && (j < i ==> AsOffer(events[i]).amountSats < AsOffer(events[j]).amountSats)
  }

  lemma FirstLeastSnoc(front: seq<Feedback>, last: Feedback, i: nat, maxAmount: nat, wanted: Option<string>)
    requires IsFirstLeast(front, i, maxAmount, wanted)
    ensures
      if Qualifies(last, maxAmount, wanted) && AsOffer(last).amountSats < AsOffer(front[i]).amountSats
      then IsFirstLeast(front + [last], |front|, maxAmount, wanted)
      else IsFirstLeast(front + [last], i, maxAmount, wanted)
  {
  }

  lemma OnlyOneIsFirst(front: seq<Feedback>, last: Feedback, maxAmount: nat, wanted: Option<string>)
    requires Qualifying(front, maxAmount, wanted) == [] && Qualifies(last, maxAmount, wanted)
    ensures IsFirstLeast(front + [last], |front|, maxAmount, wanted)
  {
    NothingQualifies(front, maxAmount, wanted);
  }

  /** Among the events of a window: the choice is the first of those with the least valid amount. */
  lemma {:induction false} CheapestIsFirstEvent(events: seq<Feedback>, maxAmount: nat, wanted: Option<string>)
    returns (i: nat)
    requires Qualifying(events, maxAmount, wanted) != []
    ensures IsFirstLeast(events, i, maxAmount, wanted)
    ensures AsOffer(events[i]) == Cheapest(Qualifying(events, maxAmount, wanted))
  {
    var n := |events| - 1;
    var front, last := events[..n], events[n];
    var before := Qualifying(front, maxAmount, wanted);
    assert events == front + [last];
    if Qualifies(last, maxAmount, wanted) {
      CheapestSnoc(before, AsOffer(last));
    } else {
      assert before + [] == before;
    }
    if before == [] {
      i := n;
      OnlyOneIsFirst(front, last, maxAmount, wanted);
    } else {
      i := CheapestIsFirstEvent(front, maxAmount, wanted);
      FirstLeastSnoc(front, last, i, maxAmount, wanted);
      if Qualifies(last, maxAmount, wanted) && AsOffer(last).amountSats < AsOffer(front[i]).amountSats {
        i := n;
      }
    }
  }

  lemma NothingQualifies(events: seq<Feedback>, maxAmount: nat, wanted: Option<string>)
    requires Qualifying(events, maxAmount, wanted) == []
    ensures forall j :: 0 <= j < |events| ==> !Qualifies(events[j], maxAmount, wanted)
  {
    forall j | 0 <= j < |events|
      ensures !Qualifies(events[j], maxAmount, wanted)
    {
      if Qualifies(events[j], maxAmount, wanted) {
        QualifyingKeepsAll(events, maxAmount, wanted, j);
      }
    }
  }

  datatype RequestError = NoOffers | InvalidAmount | AboveBudget | BoundAmountMismatch

  /** The checks between selection and publishing it; `boundAmount` is what the lock nets after its own fee. */
  function ConfirmSelection(selected: Option<Offer>, maxAmount: nat, boundAmount: int): Result<Offer, RequestError> {
    if selected.None? then Err(NoOffers)
    else if selected.value.amountSats <= 0 then Err(InvalidAmount)
    else if selected.value.amountSats > maxAmount then Err(AboveBudget)
    else if boundAmount != selected.value.amountSats then Err(BoundAmountMismatch)
    else Ok(selected.value)
  }

  /**
   A selection published with the default selector carries the least valid amount offered in the window, from the
   earliest offer of that amount, within the budget, and a lock that nets exactly that amount.
   */
  lemma PublishedSelectionIsLeastOffer(events: seq<Feedback>, maxAmount: nat, wanted: Option<string>, boundAmount: int)
    requires ConfirmSelection(SelectCheapestOffer(Qualifying(events, maxAmount, wanted)), maxAmount, boundAmount).Ok?
    ensures var offers := Qualifying(events, maxAmount, wanted);
      var o := ConfirmSelection(SelectCheapestOffer(offers), maxAmount, boundAmount).value;
      && boundAmount == o.amountSats && 0 < o.amountSats <= maxAmount
      && exists i: nat :: IsFirstLeast(events, i, maxAmount, wanted) && o == AsOffer(events[i])
  {
    var i := CheapestIsFirstEvent(events, maxAmount, wanted);
    QualifyingWithinBudget(events, maxAmount, wanted);
  }

  /** A Customer with a non-empty window of qualifying offers never reports that it received none. */
  lemma DefaultSelectorNeverMisses(events: seq<Feedback>, maxAmount: nat, wanted: Option<string>)
    ensures SelectCheapestOffer(Qualifying(events, maxAmount, wanted)).None? <==>
      forall i :: 0 <= i < |events| ==> !Qualifies(events[i], maxAmount, wanted)
  {
    forall i | 0 <= i < |events| && Qualifies(events[i], maxAmount, wanted)
      ensures Qualifying(events, maxAmount, wanted) != []
    {
      QualifyingKeepsAll(events, maxAmount, wanted, i);
    }
    QualifyingWithinBudget(events, maxAmount, wanted);
    if Qualifying(events, maxAmount, wanted) != [] {
      assert Qualifying(events, maxAmount, wanted)[0] in Qualifying(events, maxAmount, wanted);
    }
  }
}
