/**
 * How MainPagePresenter.swift and ProfilePresenter.swift turn a received
 * `ItemDTO` into an `Item`: the status, location and categories are looked
 * up by id in the lists loaded earlier, each with a force unwrap. A missing
 * id traps; the model reports it as an absent result.
 */
module ItemLookup {
  import opened Wrappers
  import opened Lists
  import opened Statuses
  import opened Locations
  import opened Categories
  import opened Items
  import CreateItemService

  /** The lists a presenter has loaded. */
  datatype Loaded = Loaded(statuses: seq<Status>, locations: seq<Location>, categories: seq<Category>)

  /** `ids.map { id in categories.first(where: { $0.id == id })! }` */
  function LookupAll(categories: seq<Category>, ids: seq<int>): (r: Option<seq<Category>>)
    ensures r.Some? <==> forall i :: 0 <= i < |ids| ==> HasKey(categories, (c: Category) => c.id, ids[i])
    ensures r.Some? ==> |r.value| == |ids|
    ensures r.Some? ==> forall i :: 0 <= i < |ids| ==> r.value[i] in categories && r.value[i].id == ids[i]
  {
    if ids == [] then Some([])
    else
      var head := FirstWith(categories, (c: Category) => c.id, ids[0]);
      var tail := LookupAll(categories, ids[1..]);
      if head.None? || tail.None? then
        assert head.Some? ==> !forall i :: 0 <= i < |ids[1..]| ==> HasKey(categories, (c: Category) => c.id, ids[1..][i]);
        None
      else
        assert forall i :: 1 <= i < |ids| ==> ids[i] == ids[1..][i - 1];
        Some([head.value] + tail.value)
  }

  /** The `Item` built from one DTO. */
  function FromDTO(dto: ItemDTO, l: Loaded): Option<Item> {
    var status := FirstWith(l.statuses, (s: Status) => s.id, dto.statusId);
    var location := FirstWith(l.locations, (x: Location) => x.id, dto.locationId);
    var categories := LookupAll(l.categories, dto.categoryIds);
    if status.None? || location.None? || categories.None? then None
    else Some(Item(dto.id, status.value, dto.name, dto.price, dto.description, location.value, categories.value, dto.sellerId))
  }

  /** `itemsDto.map { ... }`: every DTO mapped, or a trap when one of them cannot be. */
  function MapItems(dtos: seq<ItemDTO>, l: Loaded): (r: Option<seq<Item>>)
    ensures r.Some? ==> |r.value| == |dtos|
    ensures r.Some? ==> forall i :: 0 <= i < |dtos| ==> FromDTO(dtos[i], l) == Some(r.value[i])
    ensures r.None? ==> exists i :: 0 <= i < |dtos| && FromDTO(dtos[i], l).None?
  {
    if dtos == [] then Some([])
    else
      var head := FromDTO(dtos[0], l);
      var tail := MapItems(dtos[1..], l);
      if head.None? then None
      else if tail.None? then
        var i :| 0 <= i < |dtos[1..]| && FromDTO(dtos[1..][i], l).None?;
        assert FromDTO(dtos[i + 1], l).None?;
        None
      else
        assert forall i :: 1 <= i < |dtos| ==> dtos[i] == dtos[1..][i - 1];
        Some([head.value] + tail.value)
  }

  /** A DTO maps exactly when the lists hold its status, its location and every one of its categories. */
  lemma FromDTOWhen(dto: ItemDTO, l: Loaded)
    ensures FromDTO(dto, l).Some? <==>
              && HasKey(l.statuses, (s: Status) => s.id, dto.statusId)
              && HasKey(l.locations, (x: Location) => x.id, dto.locationId)
              && forall i :: 0 <= i < |dto.categoryIds| ==> HasKey(l.categories, (c: Category) => c.id, dto.categoryIds[i])
  {
  }

  /** The mapped item copies the DTO's own fields and carries loaded values with the DTO's ids, in the DTO's order. */
  lemma FromDTOFields(dto: ItemDTO, l: Loaded)
    requires FromDTO(dto, l).Some?
    ensures var it := FromDTO(dto, l).value;
            && it.id == dto.id && it.name == dto.name && it.price == dto.price
            && it.description == dto.description && it.sellerId == dto.sellerId
            && it.status in l.statuses && it.status.id == dto.statusId
            && it.location in l.locations && it.location.id == dto.locationId
            && Keys(it.categories, (c: Category) => c.id) == dto.categoryIds
  {
  }

  /** When categories have distinct ids, looking up the ids of some of them gives those categories back. */
  lemma {:induction false} LookupKeys(categories: seq<Category>, chosen: seq<Category>)
    requires DistinctKeys(categories, (c: Category) => c.id)
    requires forall c :: c in chosen ==> c in categories
    ensures LookupAll(categories, Keys(chosen, (c: Category) => c.id)) == Some(chosen)
  {
    var ids := Keys(chosen, (c: Category) => c.id);
    if chosen != [] {
      FirstWithFindsMember(categories, (c: Category) => c.id, chosen[0]);
      assert ids[1..] == Keys(chosen[1..], (c: Category) => c.id);
      LookupKeys(categories, chosen[1..]);
      assert chosen == [chosen[0]] + chosen[1..];
    }
  }

  /** Every loaded list has distinct ids, and holds the item's choices. */
  ghost predicate Holds(l: Loaded, item: Item) {
    && DistinctKeys(l.statuses, (s: Status) => s.id) && item.status in l.statuses
    && DistinctKeys(l.locations, (x: Location) => x.id) && item.location in l.locations
    && DistinctKeys(l.categories, (c: Category) => c.id) && forall c :: c in item.categories ==> c in l.categories
  }

  /**
   * The DTO a service sends maps back to the item, with the service's user
   * as seller, whenever the receiving presenter has loaded the item's
   * choices.
   */
  lemma DTORoundTrip(s: CreateItemService.Service, item: Item, l: Loaded)
    requires Holds(l, item)
    ensures FromDTO(CreateItemService.MakeDTO(s, item), l) == Some(item.(sellerId := s.userId))
  {
    var d := CreateItemService.MakeDTO(s, item);
    FirstWithFindsMember(l.statuses, (x: Status) => x.id, item.status);
    FirstWithFindsMember(l.locations, (x: Location) => x.id, item.location);
    assert d.categoryIds == Keys(item.categories, (c: Category) => c.id);
    LookupKeys(l.categories, item.categories);
  }
}
