/**
 * The pagination state both item lists keep (MainPagePresenter.swift's
 * `currentItemPage`/`loading`/`endData`, ProfilePresenter.swift's
 * `page`/`currentlyLoading`/`finishedLoading`): the next page to ask for,
 * whether a request is in flight, and whether the server has run out.
 */
module Paging {
  import opened Wrappers

  datatype Pager = Pager(page: int, loading: bool, exhausted: bool)

  /** A fresh list: page 0, nothing in flight, not at the end. */
  const Initial := Pager(0, false, false)

  /** A request may start. */
  predicate Idle(p: Pager) {
    !p.loading && !p.exhausted
  }

  /** The guard at the start of a load: nothing happens while loading or at the end, otherwise a request is in flight. */
  function Begin(p: Pager): Pager {
    if p.loading || p.exhausted then p else p.(loading := true)
  }

  /**
   * The completion of a load. `received` is the number of items of a
   * successful reply, absent on failure. A success moves to the next page
   * and marks the end when nothing came back; a failure changes neither.
   */
  function Finish(p: Pager, received: Option<nat>): Pager {
    if received.Some? then Pager(p.page + 1, false, received.value == 0)
    else p.(loading := false)
  }

  /** ProfilePresenter.swift's `reloadView` before it loads: back to page 0, end of data forgotten. */
  function Restart(p: Pager): Pager {
    p.(page := 0, exhausted := false)
  }

  /** MainPagePresenter.swift's `reloadItems` before it loads: back to page 0 only. */
  function Rewind(p: Pager): Pager {
    p.(page := 0)
  }

  /** A load starts exactly when idle, and then nothing but the loading flag changes. */
  lemma BeginStartsOnlyWhenIdle(p: Pager)
    ensures Begin(p).loading <==> p.loading || Idle(p)
    ensures Begin(p) != p <==> Idle(p)
    ensures Idle(p) ==> Begin(p) == p.(loading := true)
  {
  }

  /** A completion always clears the loading flag; only a success moves the page, by one. */
  lemma FinishMovesPageOnSuccess(p: Pager, received: Option<nat>)
    ensures !Finish(p, received).loading
    ensures Finish(p, received).page == if received.Some? then p.page + 1 else p.page
    ensures Finish(p, received).exhausted == if received.Some? then received.value == 0 else p.exhausted
  {
  }

  /** Successive loads, each completed with a success of the given size. */
  function Loads(p: Pager, sizes: seq<nat>): Pager
    decreases |sizes|
  {
    if sizes == [] then p else Loads(Finish(Begin(p), Some(sizes[0])), sizes[1..])
  }

  /** Non-empty pages in a row move the page by one each, and the list stays open. */
  lemma {:induction false} LoadsCountPages(p: Pager, sizes: seq<nat>)
    requires Idle(p)
    requires forall i :: 0 <= i < |sizes| ==> sizes[i] > 0
    ensures Loads(p, sizes) == Pager(p.page + |sizes|, false, false)
    decreases |sizes|
  {
    if sizes != [] {
      assert Finish(Begin(p), Some(sizes[0])) == Pager(p.page + 1, false, false);
      LoadsCountPages(Finish(Begin(p), Some(sizes[0])), sizes[1..]);
    }
  }

  /** An empty page ends the list: no later load starts until a restart. */
  lemma EmptyPageEnds(p: Pager)
    requires Idle(p)
    ensures var q := Finish(Begin(p), Some(0));
            q.exhausted && Begin(q) == q && Idle(Restart(q))
  {
  }

  /** As written, rewinding keeps the end-of-data flag: once the end is reached, a reload never starts a load. */
  lemma RewindKeepsEnd(p: Pager)
    requires p.exhausted
    ensures Begin(Rewind(p)) == Rewind(p) && Rewind(p).exhausted && Rewind(p).page == 0
  {
  }

  /** Concretely: a list that reached its end on page 3 is back at page 0 but still ended after a reload, so nothing loads. */
  lemma RewindAfterEndExample()
    ensures var ended := Finish(Begin(Pager(3, false, false)), Some(0));
            Begin(Rewind(ended)) == Pager(0, false, true) && !Idle(Rewind(ended))
  {
  }

  /** A restart from any state not in flight starts a load of page 0. */
  lemma RestartLoadsFirstPage(p: Pager)
    requires !p.loading
    ensures Idle(Restart(p)) && Begin(Restart(p)) == Pager(0, true, false)
  {
  }
}
