/**
 * `FilterPresenter` of FilterPresenter.swift: loads the location and
 * category choices for the filter screen, each with a "not chosen" entry of
 * id -1 added and sorted by id, shows them once both have arrived, and hands
 * a chosen filter to the main page presenter.
 */
module FilterScreen {
  import opened Wrappers
  import opened Lists
  import opened Locations
  import opened Categories
  import opened FilterModel
  import opened ApiClient
  import opened Paging
  import MainPage

  /** The "not chosen" entries added to the lists. */
  const NoLocation := Location(-1, "Не выбрано")
  const NoCategory := Category(-1, "Не выбрано")

  datatype FilterEvent =
    | UpdateFilters(locations: seq<Location>, categories: seq<Category>)
    | ShowError(error: APIError)
    | Dismiss

  /** The two lists, absent until they arrive, and what the view was told. */
  datatype FilterState = FilterState(locations: Option<seq<Location>>, categories: Option<seq<Category>>, events: seq<FilterEvent>)

  /** `updateView()`: the view is told only when both lists are present. */
  function UpdateView(s: FilterState): FilterState
  {
    if s.locations.Some? && s.categories.Some? then s.(events := s.events + [UpdateFilters(s.locations.value, s.categories.value)])
    else s
  }

  /** The location completion of `fetchFilters()`: the assignment's `didSet` shows the lists, and so does the explicit call after it. */
  function LocationsArrivedStep(s: FilterState, r: Result<seq<Location>, APIError>): FilterState {
    if r.Failure? then s.(events := s.events + [ShowError(r.error)])
    else UpdateView(UpdateView(s.(locations := Some(WithSentinel(r.value, NoLocation, (x: Location) => x.id)))))
  }

  /** The category completion of `fetchFilters()`. */
  function CategoriesArrivedStep(s: FilterState, r: Result<seq<Category>, APIError>): FilterState {
    if r.Failure? then s.(events := s.events + [ShowError(r.error)])
    else UpdateView(UpdateView(s.(categories := Some(WithSentinel(r.value, NoCategory, (c: Category) => c.id)))))
  }

  /**
   * Stored locations are the response plus the "not chosen" entry, sorted
   * by id and one longer; a failure shows the error and leaves the list as
   * it was; the view hears of it twice exactly when the categories are
   * there too.
   */
  lemma LocationsArrivedStores(s: FilterState, r: Result<seq<Location>, APIError>)
    ensures var n := LocationsArrivedStep(s, r);
            && n.categories == s.categories
            && (r.Failure? ==> n.locations == s.locations && n.events == s.events + [ShowError(r.error)])
            && (r.Success? ==>
                  && n.locations.Some?
                  && SortedBy(n.locations.value, (x: Location) => x.id)
                  && multiset(n.locations.value) == multiset(r.value) + multiset{NoLocation}
                  && |n.locations.value| == |r.value| + 1
                  && n.events == s.events + (if s.categories.Some? then [UpdateFilters(n.locations.value, s.categories.value), UpdateFilters(n.locations.value, s.categories.value)] else []))
  {
  }

  /** The same for categories. */
  lemma CategoriesArrivedStores(s: FilterState, r: Result<seq<Category>, APIError>)
    ensures var n := CategoriesArrivedStep(s, r);
            && n.locations == s.locations
            && (r.Failure? ==> n.categories == s.categories && n.events == s.events + [ShowError(r.error)])
            && (r.Success? ==>
                  && n.categories.Some?
                  && SortedBy(n.categories.value, (c: Category) => c.id)
                  && multiset(n.categories.value) == multiset(r.value) + multiset{NoCategory}
                  && |n.categories.value| == |r.value| + 1
                  && n.events == s.events + (if s.locations.Some? then [UpdateFilters(s.locations.value, n.categories.value), UpdateFilters(s.locations.value, n.categories.value)] else []))
  {
  }

  /** Every time the view was given lists, both had arrived and both held their "not chosen" entry. */
  ghost predicate ShownFromStored(s: FilterState) {
    forall i :: 0 <= i < |s.events| && s.events[i].UpdateFilters? ==>
      && s.locations.Some? && s.categories.Some?
      && NoLocation in s.events[i].locations && NoCategory in s.events[i].categories
  }

  /** The stored lists hold their "not chosen" entry. */
  predicate SentinelsStored(s: FilterState) {
    && (s.locations.Some? ==> NoLocation in s.locations.value)
    && (s.categories.Some? ==> NoCategory in s.categories.value)
  }

  /** The location completion keeps both: the view never hears of a list that has not arrived. */
  lemma {:induction false} LocationsKeepShown(s: FilterState, r: Result<seq<Location>, APIError>)
    requires ShownFromStored(s) && SentinelsStored(s)
    ensures ShownFromStored(LocationsArrivedStep(s, r)) && SentinelsStored(LocationsArrivedStep(s, r))
  {
    LocationsArrivedStores(s, r);
    var n := LocationsArrivedStep(s, r);
    if r.Success? {
      forall i | 0 <= i < |n.events| && n.events[i].UpdateFilters?
        ensures n.locations.Some? && n.categories.Some? && NoLocation in n.events[i].locations && NoCategory in n.events[i].categories
      {
        if i >= |s.events| {
          assert s.categories.Some?;
        }
      }
    } else {
      assert n == s.(events := s.events + [ShowError(r.error)]);
    }
  }

  /** So does the category completion. */
  lemma {:induction false} CategoriesKeepShown(s: FilterState, r: Result<seq<Category>, APIError>)
    requires ShownFromStored(s) && SentinelsStored(s)
    ensures ShownFromStored(CategoriesArrivedStep(s, r)) && SentinelsStored(CategoriesArrivedStep(s, r))
  {
    CategoriesArrivedStores(s, r);
    var n := CategoriesArrivedStep(s, r);
    if r.Success? {
      forall i | 0 <= i < |n.events| && n.events[i].UpdateFilters?
        ensures n.locations.Some? && n.categories.Some? && NoLocation in n.events[i].locations && NoCategory in n.events[i].categories
      {
        if i >= |s.events| {
          assert s.locations.Some?;
        }
      }
    } else {
      assert n == s.(events := s.events + [ShowError(r.error)]);
    }
  }

  class FilterPresenter {
    const main: MainPage.MainPagePresenter
    var locations: Option<seq<Location>>
    var categories: Option<seq<Category>>
    var events: seq<FilterEvent>

    function State(): FilterState
      reads this
    {
      FilterState(locations, categories, events)
    }

    /** `selectedFilter` */
    function SelectedFilter(): SearchFilter
      reads this, main
    {
      main.currentFilter
    }

    /** `init(view:service:mainPagePresenter:)` */
    constructor (mainPage: MainPage.MainPagePresenter)
      ensures main == mainPage && State() == FilterState(None, None, [])
    {
      main := mainPage;
      locations, categories := None, None;
      events := [];
    }

    /** `updateView()` */
    method Show()
      modifies this
      ensures State() == UpdateView(old(State()))
    {
      if locations.Some? && categories.Some? {
        events := events + [UpdateFilters(locations.value, categories.value)];
      }
    }

    /** The location completion of `fetchFilters()`. */
    method LocationsArrived(r: Result<seq<Location>, APIError>)
      modifies this
      ensures State() == LocationsArrivedStep(old(State()), r)
    {
      if r.Success? {
        locations := Some(WithSentinel(r.value, NoLocation, (x: Location) => x.id));
        Show();
        Show();
      } else {
        events := events + [ShowError(r.error)];
      }
    }

    /** The category completion of `fetchFilters()`. */
    method CategoriesArrived(r: Result<seq<Category>, APIError>)
      modifies this
      ensures State() == CategoriesArrivedStep(old(State()), r)
    {
      if r.Success? {
        categories := Some(WithSentinel(r.value, NoCategory, (c: Category) => c.id));
        Show();
        Show();
      } else {
        events := events + [ShowError(r.error)];
      }
    }

    /** `applyFilter(_:)`: the main page takes the filter and reloads; the screen is dismissed. */
    method ApplyFilter(f: SearchFilter)
      modifies this, main
      ensures SelectedFilter() == f
      ensures main.Snap() == MainPage.ReloadStep(old(main.Snap()).(filter := f))
      ensures State() == old(State()).(events := old(events) + [Dismiss])
    {
      main.currentFilter := f;
      main.ReloadItems();
      events := events + [Dismiss];
    }
  }
}
