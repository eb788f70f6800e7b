/**
 * `ProfilePresenter` of ProfilePresenter.swift: the signed-in user's own
 * items, loaded page by page. `loadUserItems` first refreshes the look-up
 * lists (`fetchFilters`) and only asks for the page once they have settled;
 * each completion is a method of its own.
 */
module Profile {
  import opened Wrappers
  import opened Statuses
  import opened Locations
  import opened Categories
  import opened Items
  import opened ApiClient
  import opened ItemLookup
  import opened Paging

  datatype ProfileEvent =
    | UpdateItems(items: seq<Item>)
    | ShowError(error: APIError)
    /** A force unwrap failed: a DTO named an id the loaded lists do not hold. */
    | Trap

  /** What the presenter holds, what it showed, and the pages it asked for. */
  datatype ProfileScreen = ProfileScreen(pager: Pager, loaded: Loaded, events: seq<ProfileEvent>, requests: seq<int>)

  /** `loadUserItems()` up to the filter fetch it starts. */
  function LoadStep(m: ProfileScreen): ProfileScreen {
    m.(pager := Begin(m.pager))
  }

  /** `reloadView()` */
  function ReloadViewStep(m: ProfileScreen): ProfileScreen {
    LoadStep(m.(pager := Restart(m.pager)))
  }

  /** The completion of `fetchFilters` inside `loadUserItems()`: the page is asked for. */
  function FiltersSettledStep(m: ProfileScreen): ProfileScreen {
    m.(requests := m.requests + [m.pager.page])
  }

  /** The completion of `fetchUserItems`. */
  function ItemsArrivedStep(m: ProfileScreen, r: Result<seq<ItemDTO>, APIError>): ProfileScreen {
    if r.Failure? then m.(pager := Finish(m.pager, None), events := m.events + [ShowError(r.error)])
    else
      var items := MapItems(r.value, m.loaded);
      var next := Finish(m.pager, Some(|r.value|));
      if items.None? then m.(pager := next.(loading := m.pager.loading), events := m.events + [Trap])
      else m.(pager := next, events := m.events + [UpdateItems(items.value)])
  }

  /** A load starts only when neither finished nor loading, and then marks itself as loading. */
  lemma LoadOnlyWhenIdle(m: ProfileScreen)
    ensures !Idle(m.pager) ==> LoadStep(m) == m
    ensures Idle(m.pager) ==> LoadStep(m) == m.(pager := m.pager.(loading := true))
  {
    BeginStartsOnlyWhenIdle(m.pager);
  }

  /** A reload when nothing is in flight always loads, and the request that follows asks for page 0. */
  lemma ReloadAsksFirstPage(m: ProfileScreen)
    requires !m.pager.loading
    ensures ReloadViewStep(m).pager == Pager(0, true, false)
    ensures FiltersSettledStep(ReloadViewStep(m)).requests == m.requests + [0]
  {
    RestartLoadsFirstPage(m.pager);
  }

  /**
   * A reply clears `currentlyLoading` (unless the mapping traps); a success
   * moves to the next page and sets `finishedLoading` exactly when it was
   * empty; a failure keeps both and shows the error.
   */
  lemma ItemsArrivedMovesPage(m: ProfileScreen, r: Result<seq<ItemDTO>, APIError>)
    ensures var n := ItemsArrivedStep(m, r);
            && n.loaded == m.loaded && n.requests == m.requests
            && (r.Failure? ==> n.pager == m.pager.(loading := false) && n.events == m.events + [ShowError(r.error)])
            && (r.Success? ==> n.pager.page == m.pager.page + 1 && (n.pager.exhausted <==> r.value == []))
            && (r.Success? && MapItems(r.value, m.loaded).Some? ==>
                  !n.pager.loading && n.events == m.events + [UpdateItems(MapItems(r.value, m.loaded).value)])
  {
  }

  /** One whole round from an idle list: one request for the current page, then the next page, idle again unless the page was empty. */
  lemma {:induction false} RoundAdvances(m: ProfileScreen, dtos: seq<ItemDTO>)
    requires Idle(m.pager)
    requires MapItems(dtos, m.loaded).Some?
    ensures var n := ItemsArrivedStep(FiltersSettledStep(LoadStep(m)), Success(dtos));
            && n.requests == m.requests + [m.pager.page]
            && n.pager == Pager(m.pager.page + 1, false, dtos == [])
            && n.events == m.events + [UpdateItems(MapItems(dtos, m.loaded).value)]
  {
    var started := FiltersSettledStep(LoadStep(m));
    assert started.pager == m.pager.(loading := true) && started.loaded == m.loaded;
    ItemsArrivedMovesPage(started, Success(dtos));
  }

  class ProfilePresenter {
    var page: int
    var statuses: seq<Status>
    var locations: seq<Location>
    var categories: seq<Category>
    var finishedLoading: bool
    var currentlyLoading: bool
    var events: seq<ProfileEvent>
    var requests: seq<int>

    function Snap(): ProfileScreen
      reads this
    {
      ProfileScreen(Pager(page, currentlyLoading, finishedLoading), Loaded(statuses, locations, categories), events, requests)
    }

    /** `init(view:service:router:)` */
    constructor ()
      ensures Snap() == ProfileScreen(Initial, Loaded([], [], []), [], [])
    {
      page, finishedLoading, currentlyLoading := 0, false, false;
      statuses, locations, categories := [], [], [];
      events, requests := [], [];
    }

    /** `reloadView()` */
    method ReloadView()
      modifies this
      ensures Snap() == ReloadViewStep(old(Snap()))
    {
      page := 0;
      finishedLoading := false;
      LoadUserItems();
    }

    /** `loadUserItems()`, up to the filter fetch it starts. */
    method LoadUserItems()
      modifies this
      ensures Snap() == LoadStep(old(Snap()))
    {
      if finishedLoading || currentlyLoading {
        return;
      }
      currentlyLoading := true;
    }

    /** The status completion of `fetchFilters`: a failure is ignored. */
    method StatusesArrived(r: Result<seq<Status>, APIError>)
      modifies this
      ensures Snap() == old(Snap()).(loaded := old(Snap()).loaded.(statuses := if r.Success? then r.value else old(statuses)))
    {
      if r.Success? {
        statuses := r.value;
      }
    }

    /** The location completion of `fetchFilters`. */
    method LocationsArrived(r: Result<seq<Location>, APIError>)
      modifies this
      ensures Snap() == old(Snap()).(loaded := old(Snap()).loaded.(locations := if r.Success? then r.value else old(locations)))
    {
      if r.Success? {
        locations := r.value;
      }
    }

    /** The category completion of `fetchFilters`. */
    method CategoriesArrived(r: Result<seq<Category>, APIError>)
      modifies this
      ensures Snap() == old(Snap()).(loaded := old(Snap()).loaded.(categories := if r.Success? then r.value else old(categories)))
    {
      if r.Success? {
        categories := r.value;
      }
    }

    /** The group notification of `fetchFilters`: the current page is asked for. */
    method FiltersSettled()
      modifies this
      ensures Snap() == FiltersSettledStep(old(Snap()))
    {
      requests := requests + [page];
    }

    /** The completion of `fetchUserItems(currentPage:)`. */
    method ItemsArrived(r: Result<seq<ItemDTO>, APIError>)
      modifies this
      ensures Snap() == ItemsArrivedStep(old(Snap()), r)
    {
      if r.Success? {
        page := page + 1;
        finishedLoading := |r.value| == 0;
        var items := MapItems(r.value, Loaded(statuses, locations, categories));
        if items.None? {
          events := events + [Trap];
          return;
        }
        events := events + [UpdateItems(items.value)];
      } else {
        events := events + [ShowError(r.error)];
      }
      currentlyLoading := false;
    }
  }
}
