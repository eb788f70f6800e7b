/**
 * `CreateItemPresenter` of CreateItemPresenter.swift: saves an item,
 * uploads its image only once the save has returned an id, and loads the
 * three choice lists, each with a "not chosen" entry of id -1 added and
 * sorted by id, showing them only when none of the fetches failed.
 *
 * `fetchError`, a local of `fetchFilters` captured by its completions, is
 * a field here that `FetchFilters` resets; `uploads` and `saves` record what
 * was handed to the service.
 */
module CreateItemScreen {
  import opened Wrappers
  import opened Lists
  import opened Statuses
  import opened Locations
  import opened Categories
  import opened Items
  import opened ApiClient

  const NoStatus := Status(-1, "Статус не выбран")
  const NoLocation := Location(-1, "Место не выбрано")
  const NoCategory := Category(-1, "Категорий не выбрано")

  datatype CreateItemEvent =
    | ShowLoading
    | HideLoading
    | ShowImageUploadSuccess(url: string)
    | ShowCreateItemSuccess
    | ShowError(error: APIError)
    | UpdateFilters(statuses: seq<Status>, locations: seq<Location>, categories: seq<Category>)

  datatype CreateState = CreateState(
    statuses: seq<Status>,
    locations: seq<Location>,
    categories: seq<Category>,
    itemId: Option<int>,
    fetchError: Option<APIError>,
    events: seq<CreateItemEvent>,
    uploads: seq<int>,
    saves: seq<Item>)

  /** `uploadImage(_:)` up to the service call. */
  function UploadStep(s: CreateState): CreateState {
    if s.itemId.None? then s
    else s.(events := s.events + [ShowLoading], uploads := s.uploads + [s.itemId.value])
  }

  /** The completion of `uploadImage(_:)`. */
  function UploadDoneStep(s: CreateState, r: Result<string, APIError>): CreateState {
    s.(events := s.events + [HideLoading, if r.Success? then ShowImageUploadSuccess(r.value) else ShowError(r.error)])
  }

  /** `createItem(_:)` up to the service call. */
  function SaveStep(s: CreateState, item: Item): CreateState {
    s.(events := s.events + [ShowLoading], saves := s.saves + [item])
  }

  /** The completion of `createItem(_:)`. */
  function SaveDoneStep(s: CreateState, r: Result<ItemDTO, APIError>): CreateState {
    if r.Success? then s.(itemId := Some(r.value.id), events := s.events + [HideLoading, ShowCreateItemSuccess])
    else s.(events := s.events + [HideLoading, ShowError(r.error)])
  }

  /** `fetchFilters()` up to the three fetches. */
  function FetchStep(s: CreateState): CreateState {
    s.(fetchError := None, events := s.events + [ShowLoading])
  }

  function StatusesStep(s: CreateState, r: Result<seq<Status>, APIError>): CreateState {
    if r.Success? then s.(statuses := WithSentinel(r.value, NoStatus, (x: Status) => x.id)) else s.(fetchError := Some(r.error))
  }

  function LocationsStep(s: CreateState, r: Result<seq<Location>, APIError>): CreateState {
    if r.Success? then s.(locations := WithSentinel(r.value, NoLocation, (x: Location) => x.id)) else s.(fetchError := Some(r.error))
  }

  function CategoriesStep(s: CreateState, r: Result<seq<Category>, APIError>): CreateState {
    if r.Success? then s.(categories := WithSentinel(r.value, NoCategory, (c: Category) => c.id)) else s.(fetchError := Some(r.error))
  }

  /** The group notification of `fetchFilters()`. */
  function SettledStep(s: CreateState): CreateState {
    s.(events := s.events + [HideLoading, if s.fetchError.Some? then ShowError(s.fetchError.value) else UpdateFilters(s.statuses, s.locations, s.categories)])
  }

  /** No image is uploaded before an item id is recorded; with one, the upload is for that id. */
  lemma UploadNeedsItemId(s: CreateState)
    ensures s.itemId.None? ==> UploadStep(s) == s
    ensures s.itemId.Some? ==> UploadStep(s).uploads == s.uploads + [s.itemId.value] && UploadStep(s).itemId == s.itemId
  {
  }

  /** A successful save records the returned id and reports success; a failed one shows the error and keeps the id. */
  lemma SaveDoneRecordsId(s: CreateState, r: Result<ItemDTO, APIError>)
    ensures r.Success? ==> SaveDoneStep(s, r).itemId == Some(r.value.id) &&
                           SaveDoneStep(s, r).events == s.events + [HideLoading, ShowCreateItemSuccess]
    ensures r.Failure? ==> SaveDoneStep(s, r).itemId == s.itemId &&
                           SaveDoneStep(s, r).events == s.events + [HideLoading, ShowError(r.error)]
    ensures SaveDoneStep(s, r).uploads == s.uploads && SaveDoneStep(s, r).saves == s.saves
  {
  }

  /** After a successful save, the next upload is for the id the server returned. */
  lemma UploadFollowsSave(s: CreateState, d: ItemDTO)
    ensures UploadStep(SaveDoneStep(s, Success(d))).uploads == s.uploads + [d.id]
  {
  }

  /**
   * A successful fetch stores the response plus its "not chosen" entry,
   * sorted by id and one longer; a failure records the error and leaves the
   * list as it was.
   */
  lemma StatusesStored(s: CreateState, r: Result<seq<Status>, APIError>)
    ensures var n := StatusesStep(s, r);
            && n.locations == s.locations && n.categories == s.categories && n.events == s.events
            && (r.Success? ==> && SortedBy(n.statuses, (x: Status) => x.id)
                               && multiset(n.statuses) == multiset(r.value) + multiset{NoStatus}
                               && |n.statuses| == |r.value| + 1 && n.fetchError == s.fetchError)
            && (r.Failure? ==> n.statuses == s.statuses && n.fetchError == Some(r.error))
  {
  }

  lemma LocationsStored(s: CreateState, r: Result<seq<Location>, APIError>)
    ensures var n := LocationsStep(s, r);
            && n.statuses == s.statuses && n.categories == s.categories && n.events == s.events
            && (r.Success? ==> && SortedBy(n.locations, (x: Location) => x.id)
                               && multiset(n.locations) == multiset(r.value) + multiset{NoLocation}
                               && |n.locations| == |r.value| + 1 && n.fetchError == s.fetchError)
            && (r.Failure? ==> n.locations == s.locations && n.fetchError == Some(r.error))
  {
  }

  lemma CategoriesStored(s: CreateState, r: Result<seq<Category>, APIError>)
    ensures var n := CategoriesStep(s, r);
            && n.statuses == s.statuses && n.locations == s.locations && n.events == s.events
            && (r.Success? ==> && SortedBy(n.categories, (c: Category) => c.id)
                               && multiset(n.categories) == multiset(r.value) + multiset{NoCategory}
                               && |n.categories| == |r.value| + 1 && n.fetchError == s.fetchError)
            && (r.Failure? ==> n.categories == s.categories && n.fetchError == Some(r.error))
  {
  }

  /** The three fetches, arriving in that order. */
  function Fetched(s: CreateState, a: Result<seq<Status>, APIError>, b: Result<seq<Location>, APIError>,
                   c: Result<seq<Category>, APIError>): CreateState {
    CategoriesStep(LocationsStep(StatusesStep(FetchStep(s), a), b), c)
  }

  /** After the fetches the error is the last one that failed, and each list is new exactly when its fetch succeeded. */
  lemma {:induction false} FetchedHolds(s: CreateState, a: Result<seq<Status>, APIError>, b: Result<seq<Location>, APIError>,
                                        c: Result<seq<Category>, APIError>)
    ensures var n := Fetched(s, a, b, c);
            && n.events == s.events + [ShowLoading]
            && n.fetchError == (if c.Failure? then Some(c.error) else if b.Failure? then Some(b.error)
                                else if a.Failure? then Some(a.error) else None)
            && n.statuses == (if a.Success? then WithSentinel(a.value, NoStatus, (x: Status) => x.id) else s.statuses)
            && n.locations == (if b.Success? then WithSentinel(b.value, NoLocation, (x: Location) => x.id) else s.locations)
            && n.categories == (if c.Success? then WithSentinel(c.value, NoCategory, (x: Category) => x.id) else s.categories)
  {
    var s1 := StatusesStep(FetchStep(s), a);
    assert s1.events == s.events + [ShowLoading];
    var s2 := LocationsStep(s1, b);
    assert s2.statuses == s1.statuses;
  }

  /** When every fetch succeeded, the view is given the three new lists. */
  lemma AllFetchedShown(s: CreateState, a: seq<Status>, b: seq<Location>, c: seq<Category>)
    ensures SettledStep(Fetched(s, Success(a), Success(b), Success(c))).events ==
              s.events + [ShowLoading] + [HideLoading,
                UpdateFilters(WithSentinel(a, NoStatus, (x: Status) => x.id),
                              WithSentinel(b, NoLocation, (x: Location) => x.id),
                              WithSentinel(c, NoCategory, (x: Category) => x.id))]
  {
    FetchedHolds(s, Success(a), Success(b), Success(c));
  }

  /** When any fetch failed, the view is shown the error of the last one that did, and not the lists. */
  lemma FailedFetchShowsError(s: CreateState, a: Result<seq<Status>, APIError>, b: Result<seq<Location>, APIError>,
                              c: Result<seq<Category>, APIError>)
    requires a.Failure? || b.Failure? || c.Failure?
    ensures SettledStep(Fetched(s, a, b, c)).events ==
              s.events + [ShowLoading] + [HideLoading, ShowError(if c.Failure? then c.error else if b.Failure? then b.error else a.error)]
  {
    FetchedHolds(s, a, b, c);
  }

  /**
   * The completions of the group may arrive in any order. Swapping two of
   * them changes at most which error is kept, never whether one is, and
   * changes nothing when at most one of the two failed.
   */
  lemma StatusesLocationsSwap(s: CreateState, a: Result<seq<Status>, APIError>, b: Result<seq<Location>, APIError>)
    ensures var x, y := LocationsStep(StatusesStep(s, a), b), StatusesStep(LocationsStep(s, b), a);
            && x.(fetchError := y.fetchError) == y
            && (x.fetchError.Some? <==> y.fetchError.Some?)
            && (a.Success? || b.Success? ==> x == y)
  {
  }

  lemma StatusesCategoriesSwap(s: CreateState, a: Result<seq<Status>, APIError>, c: Result<seq<Category>, APIError>)
    ensures var x, y := CategoriesStep(StatusesStep(s, a), c), StatusesStep(CategoriesStep(s, c), a);
            && x.(fetchError := y.fetchError) == y
            && (x.fetchError.Some? <==> y.fetchError.Some?)
            && (a.Success? || c.Success? ==> x == y)
  {
  }

  lemma LocationsCategoriesSwap(s: CreateState, b: Result<seq<Location>, APIError>, c: Result<seq<Category>, APIError>)
    ensures var x, y := CategoriesStep(LocationsStep(s, b), c), LocationsStep(CategoriesStep(s, c), b);
            && x.(fetchError := y.fetchError) == y
            && (x.fetchError.Some? <==> y.fetchError.Some?)
            && (b.Success? || c.Success? ==> x == y)
  {
  }

  class CreateItemPresenter {
    var statuses: seq<Status>
    var locations: seq<Location>
    var categories: seq<Category>
    var itemId: Option<int>
    var fetchError: Option<APIError>
    var events: seq<CreateItemEvent>
    var uploads: seq<int>
    var saves: seq<Item>

    function State(): CreateState
      reads this
    {
      CreateState(statuses, locations, categories, itemId, fetchError, events, uploads, saves)
    }

    /** `init(view:service:router:)` */
    constructor ()
      ensures State() == CreateState([], [], [], None, None, [], [], [])
    {
      statuses, locations, categories := [], [], [];
      itemId, fetchError := None, None;
      events, uploads, saves := [], [], [];
    }

    /** `uploadImage(_:)` */
    method UploadImage()
      modifies this
      ensures State() == UploadStep(old(State()))
    {
      if itemId.None? {
        return;
      }
      events := events + [ShowLoading];
      uploads := uploads + [itemId.value];
    }

    /** The completion of `uploadImage(_:)`. */
    method UploadImageDone(r: Result<string, APIError>)
      modifies this
      ensures State() == UploadDoneStep(old(State()), r)
    {
      events := events + [HideLoading];
      if r.Success? {
        events := events + [ShowImageUploadSuccess(r.value)];
      } else {
        events := events + [ShowError(r.error)];
      }
    }

    /** `createItem(_:)` */
    method CreateItem(item: Item)
      modifies this
      ensures State() == SaveStep(old(State()), item)
    {
      events := events + [ShowLoading];
      saves := saves + [item];
    }

    /** The completion of `createItem(_:)`. */
    method CreateItemDone(r: Result<ItemDTO, APIError>)
      modifies this
      ensures State() == SaveDoneStep(old(State()), r)
    {
      events := events + [HideLoading];
      if r.Success? {
        itemId := Some(r.value.id);
        events := events + [ShowCreateItemSuccess];
      } else {
        events := events + [ShowError(r.error)];
      }
    }

    /** `fetchFilters()` */
    method FetchFilters()
      modifies this
      ensures State() == FetchStep(old(State()))
    {
      events := events + [ShowLoading];
      fetchError := None;
    }

    method StatusesArrived(r: Result<seq<Status>, APIError>)
      modifies this
      ensures State() == StatusesStep(old(State()), r)
    {
      if r.Success? {
        statuses := WithSentinel(r.value, NoStatus, (x: Status) => x.id);
      } else {
        fetchError := Some(r.error);
      }
    }

    method LocationsArrived(r: Result<seq<Location>, APIError>)
      modifies this
      ensures State() == LocationsStep(old(State()), r)
    {
      if r.Success? {
        locations := WithSentinel(r.value, NoLocation, (x: Location) => x.id);
      } else {
        fetchError := Some(r.error);
      }
    }

    method CategoriesArrived(r: Result<seq<Category>, APIError>)
      modifies this
      ensures State() == CategoriesStep(old(State()), r)
    {
      if r.Success? {
        categories := WithSentinel(r.value, NoCategory, (c: Category) => c.id);
      } else {
        fetchError := Some(r.error);
      }
    }

    /** The group notification of `fetchFilters()`. */
    method FiltersSettled()
      modifies this
      ensures State() == SettledStep(old(State()))
    {
      events := events + [HideLoading];
      if fetchError.Some? {
        events := events + [ShowError(fetchError.value)];
      } else {
        events := events + [UpdateFilters(statuses, locations, categories)];
      }
    }
  }
}
