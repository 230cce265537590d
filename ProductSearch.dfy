/** The buyer's product search page: filter state, where each search is sent,
    how a response replaces the list, and the deal a "Contact Seller" click
    creates. */
module ProductSearch {
  import opened Common
  import Backend

  /** The request a search issues. */
  datatype Request = Search(filterName: string, value: string) | SearchRating(value: string) | GetProducts

  /** The routing of `handleSearch`: any non-empty value other than a rating
      goes to `/search/{filter}/{value}`, a non-empty rating to
      `/searchRating/{value}`, and an empty value reloads every product. */
  function Route(filterName: string, value: string): (r: Request)
    ensures r == GetProducts <==> value == ""
    ensures r.Search? <==> value != "" && filterName != "rating"
    ensures r.SearchRating? <==> value != "" && filterName == "rating"
    ensures r.Search? ==> r.filterName == filterName && r.value == value
    ensures r.SearchRating? ==> r.value == value
  {
    if value != "" && filterName != "rating" then Search(filterName, value)
    else if filterName == "rating" && value != "" then SearchRating(value)
    else GetProducts
  }

  /** The filters the page offers are word, category and rating. Those that go
      to `/search` are exactly the types that handler accepts; any other
      filter name would be refused there with 400. */
  lemma SearchTypesAccepted(filterName: string, value: string)
    ensures (filterName == "word" || filterName == "category") && value != "" ==>
      Route(filterName, value).Search? && Backend.SearchQueryFor(filterName, value).Some?
    ensures filterName == "rating" ==> !Route(filterName, value).Search?
    ensures Route(filterName, value).Search? ==>
      (Backend.SearchQueryFor(filterName, value).Some? <==> filterName == "word" || filterName == "category")
  {
  }

  /** The title of each toast a contact request shows: one per answer, none
      when the request throws. */
  function ContactToasts(outcome: Outcome): (titles: seq<string>)
    ensures |titles| <= 1
    ensures titles == ["Contact Request Sent"] <==> outcome.Success?
    ensures outcome.Exception? <==> titles == []
  {
    match outcome
    case Success => ["Contact Request Sent"]
    case FailureCode => ["Contact Request Failed"]
    case Exception => []
  }

  class ProductSearchPage {
    var searchQuery: string
    var selectedCategory: string
    var certificationFilter: string
    var ratingFilter: string
    var products: seq<Backend.EnrichedProduct>
    var loading: bool

    /** The page mounts with empty filters and issues `GetProducts`. */
    constructor ()
      ensures searchQuery == "" && selectedCategory == "" && certificationFilter == "" && ratingFilter == ""
      ensures products == [] && loading
    {
      searchQuery := "";
      selectedCategory := "";
      certificationFilter := "";
      ratingFilter := "";
      products := [];
      loading := true;
    }

    /** "Clear Filters" is shown while any filter other than the search text is
        set. */
    predicate ClearShown()
      reads this
    {
      selectedCategory != "" || certificationFilter != "" || ratingFilter != ""
    }

    /** Typing into the search box only stores the text. */
    method TypeQuery(text: string)
      modifies this
      ensures searchQuery == text
      ensures selectedCategory == old(selectedCategory) && certificationFilter == old(certificationFilter)
        && ratingFilter == old(ratingFilter) && products == old(products) && loading == old(loading)
    {
      searchQuery := text;
    }

    /** `handleSearch`: the value is first stored in its filter's state (no
        state for other names), then the request is issued and the page
        shows its loading state. */
    method HandleSearch(filterName: string, value: string) returns (request: Request)
      modifies this
      ensures request == Route(filterName, value)
      ensures searchQuery == if filterName == "word" then value else old(searchQuery)
      ensures selectedCategory == if filterName == "category" then value else old(selectedCategory)
      ensures ratingFilter == if filterName == "rating" then value else old(ratingFilter)
      ensures certificationFilter == old(certificationFilter)
      ensures products == old(products) && loading
    {
      if filterName == "word" {
        searchQuery := value;
      } else if filterName == "category" {
        selectedCategory := value;
      } else if filterName == "rating" {
        ratingFilter := value;
      }
      if value != "" && filterName != "rating" {
        request := Search(filterName, value);
      } else if filterName == "rating" && value != "" {
        request := SearchRating(value);
      } else {
        request := GetProducts;
      }
      loading := true;
    }

    /** A response settles the request: a body replaces the list, an error
        status (axios throws) keeps the old one. */
    method ApplyResponse(response: Backend.ProductsResponse)
      modifies this
      ensures products == if response.ProductsOk? then response.body else old(products)
      ensures !loading
      ensures searchQuery == old(searchQuery) && selectedCategory == old(selectedCategory)
        && certificationFilter == old(certificationFilter) && ratingFilter == old(ratingFilter)
    {
      if response.ProductsOk? {
        products := response.body;
      }
      loading := false;
    }

    /** "Clear Filters" resets category, certification and rating, keeps the
        search text, and reloads every product. */
    method ClearFilters() returns (request: Request)
      modifies this
      ensures !ClearShown()
      ensures selectedCategory == "" && certificationFilter == "" && ratingFilter == ""
      ensures searchQuery == old(searchQuery) && products == old(products)
      ensures request == GetProducts && loading
    {
      selectedCategory := "";
      certificationFilter := "";
      ratingFilter := "";
      request := GetProducts;
      loading := true;
    }
  }

  /** The body a "Contact Seller" click posts: the deal is named after the
      product and the click's timestamp, and today's date is sent as
      `initiatedDate`. */
  function ContactBody(buyerAccountId: string, productName: string, productId: string, sellerId: string,
                       now: nat, year: int, month0: int, day: int): (b: Backend.PostDealBody)
    ensures b.name == productName + "_" + NatToString(now)
    ensures b.productId == Some(productId) && b.sellerId == sellerId && b.buyerAccountId == buyerAccountId
    ensures b.initiatedDate == Some(FormatDate(year, month0, day)) && b.closingDate == None
  {
    Backend.PostDealBody(buyerAccountId, productName + "_" + NatToString(now), Some(productId), sellerId,
                         None, Some(FormatDate(year, month0, day)))
  }

  /** What the backend makes of that body: the product is linked, but the
      handler reads `closingDate`, so the deal gets no closing date at all. */
  method ContactSeller(buyerAccountId: string, productName: string, productId: string, sellerId: string,
                       now: nat, year: int, month0: int, day: int)
    returns (deal: Backend.DealData)
    ensures deal.closingDate == None
    ensures deal.dealName == productName + "_" + NatToString(now)
    ensures deal.vendorId == sellerId && deal.accountId == buyerAccountId
    ensures deal.stage == Backend.SellerContacted && deal.quantity == 0
    ensures deal.productId == if productId != "" then Some(productId) else None
  {
    var body := ContactBody(buyerAccountId, productName, productId, sellerId, now, year, month0, day);
    deal := Backend.PostDealPayload(body);
  }
}
