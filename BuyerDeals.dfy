/** The buyer's transactions page: which deals accept feedback, the feedback
    dialog (rating from the star widget, free-text comment) and the counters
    above the list. */
module BuyerDeals {
  import opened Common
  import SellerDeals
  import StarRating

  /** The "Provide Feedback" button is shown for closed deals only. */
  predicate CanProvideFeedback(stage: string) {
    stage == SellerDeals.ClosedWon || stage == SellerDeals.ClosedLost
  }

  /** Feedback is offered exactly where the seller can no longer move the
      deal; outside the five stages neither side offers anything. */
  lemma FeedbackComplementsStageUpdate(stage: string)
    ensures SellerDeals.IsStage(stage) ==> (CanProvideFeedback(stage) <==> !SellerDeals.CanUpdateStage(stage))
    ensures !SellerDeals.IsStage(stage) ==> !CanProvideFeedback(stage) && !SellerDeals.CanUpdateStage(stage)
    ensures CanProvideFeedback(stage) <==> SellerDeals.IsClosed(stage)
  {
  }

  // ---------------------------------------------------------------------------
  // Counters

  /** "Won Deals": the deals whose `Stage` is exactly "Closed Won". */
  function WonDeals(deals: seq<SellerDeals.Deal>): (n: nat)
    ensures n <= |deals|
    ensures n == SellerDeals.ComputeStats(Some(deals)).won
  {
    |SellerDeals.WithStage(deals, SellerDeals.ClosedWon)|
  }

  /** "Active Deals" reads the lower-case field `stage`. */
  function ActiveDeals(deals: seq<SellerDeals.Deal>): (n: nat)
    ensures n <= |deals|
  {
    if deals == [] then 0
    else
      ActiveDeals(deals[1..])
        + (if deals[0].lowerStage == Some(SellerDeals.SellerContacted)
              || deals[0].lowerStage == Some(SellerDeals.NegotiatingTerms) then 1 else 0)
  }

  /** Deals as fetched from the CRM carry no lower-case `stage`, so the card
      shows 0 however many open deals there are. */
  lemma {:induction false} ActiveDealsOfFetched(deals: seq<SellerDeals.Deal>)
    requires forall k :: 0 <= k < |deals| ==> deals[k].lowerStage.None?
    ensures ActiveDeals(deals) == 0
  {
    if deals != [] {
      assert forall k :: 0 <= k < |deals| - 1 ==> deals[1..][k] == deals[k + 1];
      ActiveDealsOfFetched(deals[1..]);
    }
  }

  /** A single open deal fetched from the CRM is not counted as active. */
  lemma ActiveDealsMissesOpenDeal(d: SellerDeals.Deal)
    requires d.stageField == SellerDeals.SellerContacted && d.lowerStage.None?
    ensures ActiveDeals([d]) == 0
    ensures SellerDeals.ComputeStats(Some([d])).contacted == 1
  {
    assert [d][1..] == [];
  }

  // ---------------------------------------------------------------------------
  // The feedback dialog

  /** The body posted to `/postFeedback`. */
  datatype FeedbackRequest = FeedbackRequest(dealId: string, vendorId: string, rating: int, comments: string)

  class FeedbackDialog {
    /** The id of the deal whose dialog is open. */
    var feedbackModal: Option<string>
    var feedback: string
    var rating: int

    /** The rating can only come from the star widget or the reset. */
    predicate Valid()
      reads this
    {
      0 <= rating <= StarRating.DefaultMaxRating
    }

    constructor ()
      ensures Valid()
      ensures feedbackModal == None && feedback == "" && rating == 0
    {
      feedbackModal := None;
      feedback := "";
      rating := 0;
    }

    /** The dialog exists only on deals that accept feedback. */
    method OpenChange(deal: SellerDeals.Deal, open: bool)
      requires Valid()
      modifies this
      ensures Valid()
      ensures feedbackModal ==
        if !CanProvideFeedback(deal.stageField) then old(feedbackModal)
        else if open then Some(deal.id) else None
      ensures feedback == old(feedback) && rating == old(rating)
    {
      if CanProvideFeedback(deal.stageField) {
        feedbackModal := if open then Some(deal.id) else None;
      }
    }

    method EditComment(text: string)
      requires Valid()
      modifies this
      ensures Valid()
      ensures feedback == text
      ensures feedbackModal == old(feedbackModal) && rating == old(rating)
    {
      feedback := text;
    }

    /** A click on star `index` of the interactive widget. */
    method ClickStar(index: nat)
      requires Valid() && index < StarRating.DefaultMaxRating
      modifies this
      ensures Valid()
      ensures rating == index + 1
      ensures feedbackModal == old(feedbackModal) && feedback == old(feedback)
    {
      var v := StarRating.ClickValue(true, index, StarRating.DefaultMaxRating);
      rating := v.value;
    }

    /** Submit: a blank comment or a zero rating is refused without a request
        and without touching the dialog. Otherwise the feedback is posted and,
        whatever the `outcome`, the dialog is closed and cleared. */
    method Submit(dealId: string, vendorId: string, outcome: Outcome) returns (request: Option<FeedbackRequest>)
      requires Valid()
      modifies this
      ensures Valid()
      ensures IsBlank(old(feedback)) || old(rating) == 0 ==>
        request == None
        && feedbackModal == old(feedbackModal) && feedback == old(feedback) && rating == old(rating)
      ensures !(IsBlank(old(feedback)) || old(rating) == 0) ==>
        request == Some(FeedbackRequest(dealId, vendorId, old(rating), old(feedback)))
        && feedbackModal == None && feedback == "" && rating == 0
      ensures request.Some? ==> 1 <= request.value.rating <= 5 && !IsBlank(request.value.comments)
    {
      if IsBlank(feedback) || rating == 0 {
        return None;
      }
      request := Some(FeedbackRequest(dealId, vendorId, rating, feedback));
      feedbackModal := None;
      feedback := "";
      rating := 0;
    }
  }
}
