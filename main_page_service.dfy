/**
 * `MainPageService` of MainPageService.swift: the item search and the image
 * download go straight to the client; the three choice lists are served
 * from local storage when it holds any, and otherwise fetched, stored sorted
 * by id, and handed on in the server's order.
 *
 * The storage is modelled as one list per kind that a later fetch reads
 * back as stored; `requests` records the endpoints the client was asked
 * for, and each list fetch's completion is a method of its own.
 */
module MainPageService {
  import opened Wrappers
  import opened Lists
  import opened Http
  import opened AppState
  import opened Statuses
  import opened Locations
  import opened Categories
  import opened Items
  import opened FilterModel
  import opened Endpoints
  import opened ApiClient

  /** `fetchItems(currentPage:filter:completion:)` */
  function FetchItemsRun(w: Wire, page: int, f: SearchFilter): (Outcome<Body>, Wire) {
    FetchRun(w, Describe(ItemEndpoint(FetchItem(page, f))), NoParams)
  }

  /** `fetchImage(itemId:completion:)`: the downloaded bytes, or the client's error, unchanged. */
  function FetchImageRun(w: Wire, itemId: int): (Outcome<seq<bv8>>, Wire) {
    DownloadRun(w, Describe(ItemEndpoint(FetchImage(itemId))))
  }

  /** What storage holds after a fetch's completion: the response sorted by id, or what it held before. */
  function Refill<T(!new)>(stored: seq<T>, r: Result<seq<T>, APIError>, key: T -> int): seq<T> {
    if r.Success? then SortBy(r.value, key) else stored
  }

  /** With a live token the search is one GET, without a body, for the page and filter asked, with the bearer header. */
  lemma FetchItemsRequest(w: Wire, page: int, f: SearchFilter)
    requires ReadToken(w.state).0.Some?
    ensures var r := FetchItemsRun(w, page, f);
            var req := r.1.sent[|w.sent|];
            && |r.1.sent| > |w.sent|
            && req.url == UrlString(ItemEndpoint(FetchItem(page, f))) && req.httpMethod == Get
            && req.body == NoBody
            && Bearer(ReadToken(w.state).0.value) in req.headers
  {
    var e := Describe(ItemEndpoint(FetchItem(page, f)));
    var token := ReadToken(w.state).0;
    FetchWithTokenSendsRequest(w, e, NoParams);
    BodyOnlyBeyondGet(e, NoParams, token);
    CatalogueHasNoAuthorization(ItemEndpoint(FetchItem(page, f)));
    BearerIffRequiredAndPresent(e, token);
  }

  /** The image download sends one GET and passes the received bytes, or the failure, through unchanged. */
  lemma FetchImagePassesThrough(w: Wire, itemId: int)
    requires w.replies != []
    ensures var r := FetchImageRun(w, itemId);
            && |r.1.sent| == |w.sent| + 1 && r.1.sent[|w.sent|].httpMethod == Get
            && r.1.sent[|w.sent|].url == UrlString(ItemEndpoint(FetchImage(itemId)))
            && (w.replies[0].Answer? ==> r.0 == Done(Success(w.replies[0].body.data)))
            && (w.replies[0].Fail? ==> r.0 == Done(Failure(Network(w.replies[0].error))))
            && (w.replies[0].NoData? ==> r.0 == Done(Failure(Download(NoDataMessage))))
  {
    DownloadReplies(w, Describe(ItemEndpoint(FetchImage(itemId))));
  }

  /**
   * A successful fetch stores the response sorted by id, the same elements;
   * a failed one leaves storage untouched. The next fetch is served from
   * storage exactly when the response was not empty.
   */
  lemma RefillStoresSorted<T(!new)>(stored: seq<T>, r: Result<seq<T>, APIError>, key: T -> int)
    ensures r.Failure? ==> Refill(stored, r, key) == stored
    ensures r.Success? ==> SortedBy(Refill(stored, r, key), key) && multiset(Refill(stored, r, key)) == multiset(r.value)
    ensures r.Success? ==> (Refill(stored, r, key) != [] <==> r.value != [])
  {
    if r.Success? {
      var s := SortBy(r.value, key);
      assert |multiset(s)| == |s| && |multiset(r.value)| == |r.value|;
    }
  }

  class MainPageService {
    var statuses: seq<Status>
    var locations: seq<Location>
    var categories: seq<Category>
    var requests: seq<Target>

    /** `init(client:storage:)` over a storage that already holds these lists. */
    constructor (s: seq<Status>, l: seq<Location>, c: seq<Category>)
      ensures statuses == s && locations == l && categories == c && requests == []
    {
      statuses, locations, categories, requests := s, l, c, [];
    }

    /** `fetchStatuses` before the client call: stored statuses are served, otherwise the client is asked. */
    method FetchStatuses() returns (cached: Option<seq<Status>>)
      modifies this
      ensures cached == if old(statuses) != [] then Some(old(statuses)) else None
      ensures requests == old(requests) + (if cached.None? then [Describe(StatusEndpoint)] else [])
      ensures statuses == old(statuses) && locations == old(locations) && categories == old(categories)
    {
      if statuses != [] {
        return Some(statuses);
      }
      requests := requests + [Describe(StatusEndpoint)];
      cached := None;
    }

    /** The completion of `fetchStatuses`: the reply is stored sorted on success and handed on as received. */
    method StatusesFetched(r: Result<seq<Status>, APIError>) returns (delivered: Result<seq<Status>, APIError>)
      modifies this
      ensures delivered == r
      ensures statuses == Refill(old(statuses), r, (x: Status) => x.id)
      ensures locations == old(locations) && categories == old(categories) && requests == old(requests)
    {
      if r.Success? {
        statuses := SortBy(r.value, (x: Status) => x.id);
      }
      delivered := r;
    }

    /** `fetchLocations` before the client call. */
    method FetchLocations() returns (cached: Option<seq<Location>>)
      modifies this
      ensures cached == if old(locations) != [] then Some(old(locations)) else None
      ensures requests == old(requests) + (if cached.None? then [Describe(LocationEndpoint)] else [])
      ensures statuses == old(statuses) && locations == old(locations) && categories == old(categories)
    {
      if locations != [] {
        return Some(locations);
      }
      requests := requests + [Describe(LocationEndpoint)];
      cached := None;
    }

    /** The completion of `fetchLocations`. */
    method LocationsFetched(r: Result<seq<Location>, APIError>) returns (delivered: Result<seq<Location>, APIError>)
      modifies this
      ensures delivered == r
      ensures locations == Refill(old(locations), r, (x: Location) => x.id)
      ensures statuses == old(statuses) && categories == old(categories) && requests == old(requests)
    {
      if r.Success? {
        locations := SortBy(r.value, (x: Location) => x.id);
      }
      delivered := r;
    }

    /** `fetchCategories` before the client call. */
    method FetchCategories() returns (cached: Option<seq<Category>>)
      modifies this
      ensures cached == if old(categories) != [] then Some(old(categories)) else None
      ensures requests == old(requests) + (if cached.None? then [Describe(CategoryEndpoint)] else [])
      ensures statuses == old(statuses) && locations == old(locations) && categories == old(categories)
    {
      if categories != [] {
        return Some(categories);
      }
      requests := requests + [Describe(CategoryEndpoint)];
      cached := None;
    }

    /** The completion of `fetchCategories`. */
    method CategoriesFetched(r: Result<seq<Category>, APIError>) returns (delivered: Result<seq<Category>, APIError>)
      modifies this
      ensures delivered == r
      ensures categories == Refill(old(categories), r, (c: Category) => c.id)
      ensures statuses == old(statuses) && locations == old(locations) && requests == old(requests)
    {
      if r.Success? {
        categories := SortBy(r.value, (c: Category) => c.id);
      }
      delivered := r;
    }
  }
}
