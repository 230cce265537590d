/** The buyer's seller search page: filter state, where each search is sent,
    how a response replaces the list, and the deal and toasts a "Contact
    Seller" click produces. */
module SellerSearch {
  import opened Common
  import Backend

  /** The request a search issues. */
  datatype Request =
    | SearchSellers(value: string)
    | SearchSellerRating(value: string)
    | SearchSellerCertification(value: string)
    | GetVendors

  /** The routing of `handleSearch`: a non-empty word, rating or
      certification goes to its own endpoint; anything else (an empty value
      or another filter name) reloads every vendor. */
  function Route(filterName: string, value: string): (r: Request)
    ensures r.SearchSellers? <==> value != "" && filterName == "word"
    ensures r.SearchSellerRating? <==> value != "" && filterName == "rating"
    ensures r.SearchSellerCertification? <==> value != "" && filterName == "certification"
    ensures r == GetVendors <==> value == "" || (filterName != "word" && filterName != "rating" && filterName != "certification")
    ensures !r.GetVendors? ==> r.value == value
  {
    if value != "" && filterName == "word" then SearchSellers(value)
    else if filterName == "rating" && value != "" then SearchSellerRating(value)
    else if filterName == "certification" && value != "" then SearchSellerCertification(value)
    else GetVendors
  }

  const Sent := "Contact Request Sent"
  const Failed := "Contact Request Failed"

  /** The titles of the toasts a contact request shows, in order: the answer's
      toast, if the request did not throw, and then a second "sent" toast in
      every case. */
  function ContactToasts(outcome: Outcome): (titles: seq<string>)
    ensures 1 <= |titles| <= 2 && titles[|titles| - 1] == Sent
    ensures |titles| == 1 <==> outcome.Exception?
    ensures Failed in titles <==> outcome.FailureCode?
  {
    match outcome
    case Success => [Sent, Sent]
    case FailureCode => [Failed, Sent]
    case Exception => [Sent]
  }

  /** The buyer is told the request was sent even when it failed or threw. */
  lemma SentEvenOnFailure(outcome: Outcome)
    ensures Sent in ContactToasts(outcome)
    ensures !outcome.Success? ==> ContactToasts(outcome) != ContactToasts(Success)
  {
    assert ContactToasts(outcome)[|ContactToasts(outcome)| - 1] == Sent;
  }

  class SellerSearchPage {
    var searchQuery: string
    var selectedCategory: string
    var certificationFilter: string
    var ratingFilter: string
    var sellers: seq<Backend.VendorWithCerts>
    var loading: bool

    /** The page has no category filter: its state is never set. */
    predicate Valid()
      reads this
    {
      selectedCategory == ""
    }

    /** The page mounts with empty filters and issues `GetVendors`. */
    constructor ()
      ensures Valid()
      ensures searchQuery == "" && certificationFilter == "" && ratingFilter == ""
      ensures sellers == [] && loading
    {
      searchQuery := "";
      selectedCategory := "";
      certificationFilter := "";
      ratingFilter := "";
      sellers := [];
      loading := true;
    }

    /** "Clear Filters" is shown while the certification or rating filter is
        set (the category part of the condition never holds). */
    predicate ClearShown()
      reads this
    {
      selectedCategory != "" || certificationFilter != "" || ratingFilter != ""
    }

    lemma ClearShownIff()
      requires Valid()
      ensures ClearShown() <==> certificationFilter != "" || ratingFilter != ""
    {
    }

    method TypeQuery(text: string)
      requires Valid()
      modifies this
      ensures Valid()
      ensures searchQuery == text
      ensures certificationFilter == old(certificationFilter) && ratingFilter == old(ratingFilter)
        && sellers == old(sellers) && loading == old(loading)
    {
      searchQuery := text;
    }

    /** `handleSearch`: the value is stored in the word, certification or
        rating state, then the request is issued. */
    method HandleSearch(filterName: string, value: string) returns (request: Request)
      requires Valid()
      modifies this
      ensures Valid()
      ensures request == Route(filterName, value)
      ensures searchQuery == if filterName == "word" then value else old(searchQuery)
      ensures certificationFilter == if filterName == "certification" then value else old(certificationFilter)
      ensures ratingFilter == if filterName == "rating" then value else old(ratingFilter)
      ensures sellers == old(sellers) && loading
    {
      if filterName == "word" {
        searchQuery := value;
      } else if filterName == "certification" {
        certificationFilter := value;
      } else if filterName == "rating" {
        ratingFilter := value;
      }
      if value != "" && filterName == "word" {
        request := SearchSellers(value);
      } else if filterName == "rating" && value != "" {
        request := SearchSellerRating(value);
      } else if filterName == "certification" && value != "" {
        request := SearchSellerCertification(value);
      } else {
        request := GetVendors;
      }
      loading := true;
    }

    /** A body replaces the list; a 500 (axios throws) keeps the old one. */
    method ApplyResponse(response: Backend.VendorsResponse)
      requires Valid()
      modifies this
      ensures Valid()
      ensures sellers == if response.VendorsOk? then response.body else old(sellers)
      ensures !loading
      ensures searchQuery == old(searchQuery) && certificationFilter == old(certificationFilter)
        && ratingFilter == old(ratingFilter)
    {
      if response.VendorsOk? {
        sellers := response.body;
      }
      loading := false;
    }

    method ClearFilters() returns (request: Request)
      requires Valid()
      modifies this
      ensures Valid() && !ClearShown()
      ensures certificationFilter == "" && ratingFilter == ""
      ensures searchQuery == old(searchQuery) && sellers == old(sellers)
      ensures request == GetVendors && loading
    {
      selectedCategory := "";
      certificationFilter := "";
      ratingFilter := "";
      request := GetVendors;
      loading := true;
    }
  }

  /** The body a "Contact Seller" click posts: named after the seller and the
      click's timestamp, with today's date as `closingDate` and no product. */
  function ContactBody(buyerAccountId: string, sellerName: string, sellerId: string,
                       now: nat, year: int, month0: int, day: int): (b: Backend.PostDealBody)
    ensures b.name == sellerName + "_" + NatToString(now)
    ensures b.productId == None && b.sellerId == sellerId && b.buyerAccountId == buyerAccountId
    ensures b.closingDate == Some(FormatDate(year, month0, day)) && b.initiatedDate == None
  {
    Backend.PostDealBody(buyerAccountId, sellerName + "_" + NatToString(now), None, sellerId,
                         Some(FormatDate(year, month0, day)), None)
  }

  /** The resulting deal links no product and closes today; for a four-digit
      year that date is a `full-date` of RFC 3339 section 5.6. */
  method ContactSeller(buyerAccountId: string, sellerName: string, sellerId: string,
                       now: nat, year: int, month0: int, day: int)
    returns (deal: Backend.DealData)
    ensures deal.productId == None
    ensures deal.closingDate == Some(FormatDate(year, month0, day))
    ensures 1000 <= year <= 9999 && 0 <= month0 <= 11 && 1 <= day <= 31 ==>
      IsFullDate(deal.closingDate.value, year, month0 + 1, day)
    ensures deal.dealName == sellerName + "_" + NatToString(now)
    ensures deal.vendorId == sellerId && deal.accountId == buyerAccountId
    ensures deal.stage == Backend.SellerContacted && deal.quantity == 0
  {
    var body := ContactBody(buyerAccountId, sellerName, sellerId, now, year, month0, day);
    deal := Backend.PostDealPayload(body);
    if 1000 <= year <= 9999 && 0 <= month0 <= 11 && 1 <= day <= 31 {
      FormatDateIsFullDate(year, month0, day);
    }
  }
}
