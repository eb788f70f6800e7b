/**
 * `MainPagePresenter` of MainPagePresenter.swift: loads the item list page
 * by page for the current filter, maps the received DTOs through the loaded
 * look-up lists, and reloads from page 0 when the filter changes.
 *
 * Each completion handler of the source is a method of its own, called
 * when the reply arrives; the calls it makes on the view are appended to
 * `events`, and the pages it asks the service for to `requests`.
 */
module MainPage {
  import opened Wrappers
  import opened Statuses
  import opened Locations
  import opened Categories
  import opened Items
  import opened FilterModel
  import opened ApiClient
  import opened ItemLookup
  import opened Paging

  datatype MainPageEvent =
    | ShowLoading
    | HideLoading
    | Configure(items: seq<Item>)
    | ShowError(error: APIError)
    | ClearCollectionView
    /** A force unwrap failed: a DTO named an id the loaded lists do not hold. */
    | Trap

  /** What the presenter holds and what it has done. */
  datatype Screen = Screen(
    pager: Pager,
    filter: SearchFilter,
    loaded: Loaded,
    events: seq<MainPageEvent>,
    requests: seq<(int, SearchFilter)>)

  /** `fetchItems()` up to the request. */
  function FetchItemsStep(m: Screen): Screen {
    if !Idle(m.pager) then m
    else m.(pager := Begin(m.pager), events := m.events + [ShowLoading], requests := m.requests + [(m.pager.page, m.filter)])
  }

  /** The completion of `fetchItems()`. */
  function ItemsArrivedStep(m: Screen, r: Result<seq<ItemDTO>, APIError>): Screen {
    var shown := m.events + [HideLoading];
    if r.Failure? then m.(pager := Finish(m.pager, None), events := shown + [ShowError(r.error)])
    else
      var items := MapItems(r.value, m.loaded);
      var next := Finish(m.pager, Some(|r.value|));
      if items.None? then m.(pager := next.(loading := m.pager.loading), events := shown + [Trap])
      else m.(pager := next, events := shown + [Configure(items.value)])
  }

  /** `reloadItems()` */
  function ReloadStep(m: Screen): Screen {
    FetchItemsStep(m.(pager := Rewind(m.pager), events := m.events + [ClearCollectionView]))
  }

  /** A request goes out exactly when nothing is loading and the end was not reached; it asks for the current page and filter. */
  lemma FetchItemsAsksCurrentPage(m: Screen)
    ensures Idle(m.pager) ==> FetchItemsStep(m).requests == m.requests + [(m.pager.page, m.filter)] &&
                              FetchItemsStep(m).pager.loading
    ensures !Idle(m.pager) ==> FetchItemsStep(m) == m
  {
  }

  /**
   * A reply clears the loading flag (unless the mapping traps); a success
   * moves to the next page and marks the end exactly when it was empty; a
   * failure keeps the page and the end flag and shows the error.
   */
  lemma ItemsArrivedMovesPage(m: Screen, r: Result<seq<ItemDTO>, APIError>)
    ensures var n := ItemsArrivedStep(m, r);
            && n.filter == m.filter && n.loaded == m.loaded && n.requests == m.requests
            && (r.Failure? ==> n.pager == m.pager.(loading := false) && n.events == m.events + [HideLoading, ShowError(r.error)])
            && (r.Success? ==> n.pager.page == m.pager.page + 1 && (n.pager.exhausted <==> r.value == []))
            && (r.Success? && MapItems(r.value, m.loaded).Some? ==>
                  !n.pager.loading && n.events == m.events + [HideLoading, Configure(MapItems(r.value, m.loaded).value)])
  {
  }

  /** As written: once the end was reached, reloading with any filter asks for nothing. */
  lemma ReloadAfterEndAsksNothing(m: Screen, f: SearchFilter)
    requires m.pager.exhausted
    ensures ReloadStep(m.(filter := f)).requests == m.requests
  {
    RewindKeepsEnd(m.pager);
  }

  /** A reload while the list is still open asks for page 0 with the current filter. */
  lemma ReloadAsksFirstPage(m: Screen)
    requires Idle(m.pager)
    ensures ReloadStep(m).requests == m.requests + [(0, m.filter)]
  {
  }

  class MainPagePresenter {
    var currentItemPage: int
    var loading: bool
    var endData: bool
    var currentFilter: SearchFilter
    var statuses: seq<Status>
    var locations: seq<Location>
    var categories: seq<Category>
    var events: seq<MainPageEvent>
    var requests: seq<(int, SearchFilter)>

    function Snap(): Screen
      reads this
    {
      Screen(Pager(currentItemPage, loading, endData), currentFilter, Loaded(statuses, locations, categories), events, requests)
    }

    /** `init(view:service:)`, which starts `fetchFilters()`. */
    constructor ()
      ensures Snap() == Screen(Initial, EmptyFilter, Loaded([], [], []), [ShowLoading], [])
    {
      currentItemPage, loading, endData := 0, false, false;
      currentFilter := EmptyFilter;
      statuses, locations, categories := [], [], [];
      events := [ShowLoading];
      requests := [];
    }

    /** `fetchItems()` */
    method FetchItems()
      modifies this
      ensures Snap() == FetchItemsStep(old(Snap()))
    {
      if endData || loading {
        return;
      }
      events := events + [ShowLoading];
      loading := true;
      requests := requests + [(currentItemPage, currentFilter)];
    }

    /** The completion of `fetchItems()`. */
    method ItemsArrived(r: Result<seq<ItemDTO>, APIError>)
      modifies this
      ensures Snap() == ItemsArrivedStep(old(Snap()), r)
    {
      events := events + [HideLoading];
      if r.Success? {
        endData := |r.value| == 0;
        currentItemPage := currentItemPage + 1;
        var items := MapItems(r.value, Loaded(statuses, locations, categories));
        if items.None? {
          events := events + [Trap];
          return;
        }
        events := events + [Configure(items.value)];
      } else {
        events := events + [ShowError(r.error)];
      }
      loading := false;
    }

    /** `reloadItems()` */
    method ReloadItems()
      modifies this
      ensures Snap() == ReloadStep(old(Snap()))
    {
      currentItemPage := 0;
      events := events + [ClearCollectionView];
      FetchItems();
    }

    /** The status completion of `fetchFilters()`: a failure is ignored. */
    method StatusesArrived(r: Result<seq<Status>, APIError>)
      modifies this
      ensures Snap() == old(Snap()).(loaded := old(Snap()).loaded.(statuses := if r.Success? then r.value else old(statuses)))
    {
      if r.Success? {
        statuses := r.value;
      }
    }

    /** The location completion of `fetchFilters()`. */
    method LocationsArrived(r: Result<seq<Location>, APIError>)
      modifies this
      ensures Snap() == old(Snap()).(loaded := old(Snap()).loaded.(locations := if r.Success? then r.value else old(locations)))
    {
      if r.Success? {
        locations := r.value;
      }
    }

    /** The category completion of `fetchFilters()`. */
    method CategoriesArrived(r: Result<seq<Category>, APIError>)
      modifies this
      ensures Snap() == old(Snap()).(loaded := old(Snap()).loaded.(categories := if r.Success? then r.value else old(categories)))
    {
      if r.Success? {
        categories := r.value;
      }
    }

    /** The group notification of `fetchFilters()`: hide the spinner, then load. */
    method FiltersSettled()
      modifies this
      ensures Snap() == FetchItemsStep(old(Snap()).(events := old(events) + [HideLoading]))
    {
      events := events + [HideLoading];
      FetchItems();
    }
  }
}
