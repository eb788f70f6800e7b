/**
 * The logic of `CreateItemViewController` in CreateItemView.swift: the
 * category multi-select with its "none selected" id -1, the validation of
 * the form when the create button is tapped, the item built from it, and
 * how editing an item seeds the selection.
 *
 * Text fields are inputs: `name` and `description` are the fields' text
 * (absent when the field has none) and `price` the price already turned
 * into cents (absent when the text does not parse).
 */
module CreateItemView {
  import opened Wrappers
  import opened Lists
  import opened Statuses
  import opened Locations
  import opened Categories
  import opened Items

  /** The id that stands for "nothing selected" in every picker. */
  const NoneId := -1

  const IncompleteMessage := "Не все поля заполнены"

  /** A tap on the category row with id `id`. */
  function Toggle(selected: seq<int>, id: int): seq<int> {
    if id in selected then RemoveAll(selected, id)
    else if id == NoneId then [id]
    else RemoveAll(selected, NoneId) + [id]
  }

  /** Tapping a selected category unselects it, every occurrence of it, and nothing else. */
  lemma ToggleDeselects(selected: seq<int>, id: int)
    requires id in selected
    ensures id !in Toggle(selected, id)
    ensures forall y :: y in Toggle(selected, id) <==> y in selected && y != id
  {
  }

  /** Tapping the unselected "none" category leaves exactly that one selected. */
  lemma ToggleNoneClears(selected: seq<int>)
    requires NoneId !in selected
    ensures Toggle(selected, NoneId) == [NoneId]
  {
  }

  /** Tapping another unselected category drops "none" and appends the category at the end. */
  lemma ToggleOtherAppends(selected: seq<int>, id: int)
    requires id !in selected && id != NoneId
    ensures var r := Toggle(selected, id);
            NoneId !in r && r[|r| - 1] == id && r[..|r| - 1] == RemoveAll(selected, NoneId)
  {
  }

  /** A selection without repeats stays without repeats. */
  lemma ToggleKeepsDistinct(selected: seq<int>, id: int)
    requires Distinct(selected)
    ensures Distinct(Toggle(selected, id))
  {
    RemoveAllDistinct(selected, id);
    RemoveAllDistinct(selected, NoneId);
    var r := Toggle(selected, id);
    if id !in selected && id != NoneId {
      var kept := RemoveAll(selected, NoneId);
      assert id !in kept;
      assert forall i :: 0 <= i < |kept| ==> r[i] == kept[i];
    }
  }

  /** Tapping the same real category twice gives the selection back, when "none" was not selected. */
  lemma ToggleTwice(selected: seq<int>, id: int)
    requires id !in selected && id != NoneId && NoneId !in selected
    ensures Toggle(Toggle(selected, id), id) == selected
  {
    RemoveAllAbsent(selected, NoneId);
    RemoveAllAppend(selected, [id], id);
    RemoveAllAbsent(selected, id);
    assert RemoveAll([id], id) == [];
  }

  /** What the form holds. */
  datatype Form = Form(
    statuses: seq<Status>,
    locations: seq<Location>,
    categories: seq<Category>,
    selectedLocationId: Option<int>,
    selectedStatusId: Option<int>,
    selectedCategoryIds: seq<int>,
    item: Option<Item>)

  /** The guard of `createButtonTapped`. */
  predicate Complete(f: Form, name: Option<string>, price: Option<int>, description: Option<string>) {
    && name.Some? && price.Some? && description.Some?
    && f.selectedLocationId.Some? && f.selectedLocationId.value != NoneId
    && f.selectedStatusId.Some? && f.selectedStatusId.value != NoneId
    && NoneId !in f.selectedCategoryIds
  }

  /**
   * What a tap on the create button leads to: an error for an incomplete
   * form, a trap when a selected status or location is not in the loaded
   * lists (the force unwrap), or the item handed to the presenter.
   */
  datatype Submission = Incomplete | Trapped | Submitted(item: Item)

  function Submit(f: Form, name: Option<string>, price: Option<int>, description: Option<string>): Submission {
    if !Complete(f, name, price, description) then Incomplete
    else
      var status := FirstWith(f.statuses, (s: Status) => s.id, f.selectedStatusId.value);
      var location := FirstWith(f.locations, (l: Location) => l.id, f.selectedLocationId.value);
      if status.None? || location.None? then Trapped
      else
        Submitted(Item(
          if f.item.Some? then f.item.value.id else 0,
          status.value, name.value, price.value, description.value, location.value,
          KeepKeys(f.categories, (c: Category) => c.id, f.selectedCategoryIds),
          0))
  }

  /** The form is refused exactly when a field is missing or a picker is on "none". */
  lemma SubmitRefusesIncomplete(f: Form, name: Option<string>, price: Option<int>, description: Option<string>)
    ensures Submit(f, name, price, description).Incomplete? <==> !Complete(f, name, price, description)
    ensures Submit(f, name, price, description).Trapped? <==>
              Complete(f, name, price, description) &&
              (!HasKey(f.statuses, (s: Status) => s.id, f.selectedStatusId.value) ||
               !HasKey(f.locations, (l: Location) => l.id, f.selectedLocationId.value))
  {
  }

  /**
   * The submitted item keeps the id of the item being edited (0 when new),
   * has seller 0, the selected status and location, and the loaded
   * categories whose id is selected, in loaded order; none of them is "none".
   */
  lemma SubmittedItem(f: Form, name: Option<string>, price: Option<int>, description: Option<string>)
    requires Submit(f, name, price, description).Submitted?
    ensures var it := Submit(f, name, price, description).item;
            && it.id == (if f.item.Some? then f.item.value.id else 0) && it.sellerId == 0
            && it.name == name.value && it.price == price.value && it.description == description.value
            && it.status in f.statuses && Some(it.status.id) == f.selectedStatusId
            && it.location in f.locations && Some(it.location.id) == f.selectedLocationId
            && it.categories == KeepKeys(f.categories, (c: Category) => c.id, f.selectedCategoryIds)
            && forall c :: c in it.categories ==> c in f.categories && c.id in f.selectedCategoryIds && c.id != NoneId
  {
  }

  /** `updateFilters`: the lists are replaced and, when an item is edited, the pickers move to its choices. */
  function Seed(f: Form, statuses: seq<Status>, locations: seq<Location>, categories: seq<Category>): (r: Form)
    ensures r.statuses == statuses && r.locations == locations && r.categories == categories && r.item == f.item
    ensures f.item.None? ==> r.(statuses := f.statuses, locations := f.locations, categories := f.categories) == f
  {
    var g := f.(statuses := statuses, locations := locations, categories := categories);
    if f.item.Some? then
      g.(selectedLocationId := Some(f.item.value.location.id),
         selectedCategoryIds := Keys(f.item.value.categories, (c: Category) => c.id),
         selectedStatusId := Some(f.item.value.status.id))
    else g
  }

  /** The loaded lists hold the item's status and location under distinct ids, and none of its choices is "none". */
  ghost predicate Resubmittable(i: Item, statuses: seq<Status>, locations: seq<Location>) {
    && DistinctKeys(statuses, (s: Status) => s.id) && i.status in statuses && i.status.id != NoneId
    && DistinctKeys(locations, (l: Location) => l.id) && i.location in locations && i.location.id != NoneId
    && (forall c :: c in i.categories ==> c.id != NoneId)
  }

  /**
   * Editing round trip: once the lists arrive, submitting the item's own
   * text gives back the item with seller 0 and the loaded categories that
   * share an id with its categories.
   */
  lemma SeededFormResubmits(f: Form, i: Item, statuses: seq<Status>, locations: seq<Location>, categories: seq<Category>)
    requires f.item == Some(i)
    requires Resubmittable(i, statuses, locations)
    ensures var ids := Keys(i.categories, (c: Category) => c.id);
            Submit(Seed(f, statuses, locations, categories), Some(i.name), Some(i.price), Some(i.description)) ==
              Submitted(i.(sellerId := 0, categories := KeepKeys(categories, (c: Category) => c.id, ids)))
  {
    var g := Seed(f, statuses, locations, categories);
    var ids := Keys(i.categories, (c: Category) => c.id);
    FirstWithFindsMember(statuses, (s: Status) => s.id, i.status);
    FirstWithFindsMember(locations, (l: Location) => l.id, i.location);
  }

  /** The view controller's state, and what it hands on: items to create and errors shown. */
  class CreateItemForm {
    var statuses: seq<Status>
    var locations: seq<Location>
    var categories: seq<Category>
    var selectedLocationId: Option<int>
    var selectedStatusId: Option<int>
    var selectedCategoryIds: seq<int>
    var item: Option<Item>
    /** Items passed to `presenter.createItem`. */
    var submitted: seq<Item>
    /** Messages of the alerts shown. */
    var errors: seq<string>

    function Snap(): Form
      reads this
    {
      Form(statuses, locations, categories, selectedLocationId, selectedStatusId, selectedCategoryIds, item)
    }

    /** A fresh screen: nothing loaded or selected. */
    constructor ()
      ensures Snap() == Form([], [], [], None, None, [], None) && submitted == [] && errors == []
    {
      statuses, locations, categories := [], [], [];
      selectedLocationId, selectedStatusId, selectedCategoryIds := None, None, [];
      item := None;
      submitted, errors := [], [];
    }

    /** `setupWithGivenItem(item:image:)`: the item being edited. */
    method SetupWithGivenItem(i: Item)
      modifies this
      ensures Snap() == old(Snap()).(item := Some(i)) && submitted == old(submitted) && errors == old(errors)
    {
      item := Some(i);
    }

    /** `pickerView(_:didSelectRow:)` on the location picker. */
    method SelectLocationRow(row: int)
      requires 0 <= row < |locations|
      modifies this
      ensures Snap() == old(Snap()).(selectedLocationId := Some(old(locations)[row].id))
      ensures submitted == old(submitted) && errors == old(errors)
    {
      selectedLocationId := Some(locations[row].id);
    }

    /** `pickerView(_:didSelectRow:)` on the status picker. */
    method SelectStatusRow(row: int)
      requires 0 <= row < |statuses|
      modifies this
      ensures Snap() == old(Snap()).(selectedStatusId := Some(old(statuses)[row].id))
      ensures submitted == old(submitted) && errors == old(errors)
    {
      selectedStatusId := Some(statuses[row].id);
    }

    /** `pickerView(_:didSelectRow:)` on the category picker. */
    method SelectCategoryRow(row: int)
      requires 0 <= row < |categories|
      modifies this
      ensures Snap() == old(Snap()).(selectedCategoryIds := Toggle(old(selectedCategoryIds), old(categories)[row].id))
      ensures submitted == old(submitted) && errors == old(errors)
    {
      var id := categories[row].id;
      if id in selectedCategoryIds {
        selectedCategoryIds := RemoveAll(selectedCategoryIds, id);
      } else if id == NoneId {
        selectedCategoryIds := [];
        selectedCategoryIds := selectedCategoryIds + [id];
      } else {
        selectedCategoryIds := RemoveAll(selectedCategoryIds, NoneId);
        selectedCategoryIds := selectedCategoryIds + [id];
      }
    }

    /** `updateFilters(statuses:locations:categories:)`; the first row of each list is shown, so none may be empty. */
    method UpdateFilters(newStatuses: seq<Status>, newLocations: seq<Location>, newCategories: seq<Category>)
      requires |newStatuses| > 0 && |newLocations| > 0 && |newCategories| > 0
      modifies this
      ensures Snap() == Seed(old(Snap()), newStatuses, newLocations, newCategories)
      ensures submitted == old(submitted) && errors == old(errors)
    {
      statuses := newStatuses;
      locations := newLocations;
      categories := newCategories;
      if item.Some? {
        selectedLocationId := Some(item.value.location.id);
        selectedCategoryIds := Keys(item.value.categories, (c: Category) => c.id);
        selectedStatusId := Some(item.value.status.id);
      }
    }

    /** `createButtonTapped()` */
    method CreateButtonTapped(name: Option<string>, price: Option<int>, description: Option<string>)
      returns (s: Submission)
      modifies this
      ensures s == Submit(old(Snap()), name, price, description) && Snap() == old(Snap())
      ensures submitted == old(submitted) + (if s.Submitted? then [s.item] else [])
      ensures errors == old(errors) + (if s.Incomplete? then [IncompleteMessage] else [])
    {
      if !(name.Some? && price.Some? && description.Some?
           && selectedLocationId.Some? && selectedLocationId.value != NoneId
           && selectedStatusId.Some? && selectedStatusId.value != NoneId
           && FirstWith(selectedCategoryIds, (id: int) => id, NoneId).None?) {
        errors := errors + [IncompleteMessage];
        return Incomplete;
      }
      var status := FirstWith(statuses, (x: Status) => x.id, selectedStatusId.value);
      var location := FirstWith(locations, (x: Location) => x.id, selectedLocationId.value);
      if status.None? || location.None? {
        return Trapped;
      }
      var it := Item(
        if item.Some? then item.value.id else 0,
        status.value, name.value, price.value, description.value, location.value,
        KeepKeys(categories, (c: Category) => c.id, selectedCategoryIds),
        0);
      submitted := submitted + [it];
      s := Submitted(it);
    }
  }
}
