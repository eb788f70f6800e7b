/**
 * `Item` and its wire form `ItemDTO` from Item.swift. An item carries its
 * status, location and categories as values; the DTO carries only their
 * ids. Items are equal by id alone.
 */
module Items {
  import opened Statuses
  import opened Locations
  import opened Categories
  import Hashing

  datatype Item = Item(
    id: int,
    status: Status,
    name: string,
    price: int,
    description: string,
    location: Location,
    categories: seq<Category>,
    sellerId: int)

  datatype ItemDTO = ItemDTO(
    id: int,
    statusId: int,
    name: string,
    price: int,
    description: string,
    locationId: int,
    categoryIds: seq<int>,
    sellerId: int)

  /** `==` */
  predicate Equal(a: Item, b: Item) {
    a.id == b.id
  }

  /** `hash(into:)` */
  function Hash(h: Hashing.Hasher, i: Item): Hashing.Hasher {
    Hashing.Combine(h, i.id)
  }

  /** Two items are equal exactly when their ids are, whatever their other fields; equal items hash alike. */
  lemma EqualIsIdentity(a: Item, b: Item, h: Hashing.Hasher)
    ensures Equal(a, b) <==> a.(status := b.status, name := b.name, price := b.price,
                                description := b.description, location := b.location,
                                categories := b.categories, sellerId := b.sellerId) == b
    ensures Equal(a, b) ==> Hash(h, a) == Hash(h, b)
  {
  }

  /** The Core Data record `DBItem`: no categories, the description stored as `itemDescription`. */
  datatype DBItem = DBItem(
    id: int,
    status: DBStatus,
    name: string,
    price: int,
    itemDescription: string,
    location: DBLocation,
    seller: int)

  /** `Item.from(_:)`: status and location through their own mappings, categories always empty. */
  function FromDB(db: DBItem): Item
  {
    Item(db.id, Statuses.FromDB(db.status), db.name, db.price, db.itemDescription,
         Locations.FromDB(db.location), [], db.seller)
  }

  /** `createDB(in:)` */
  function CreateDB(i: Item): DBItem
  {
    DBItem(i.id, Statuses.CreateDB(i.status), i.name, i.price, i.description,
           Locations.CreateDB(i.location), i.sellerId)
  }

  /** Storing an item and reading it back loses its categories and nothing else. */
  lemma DBRoundTrip(i: Item)
    ensures FromDB(CreateDB(i)) == i.(categories := [])
  {
    Statuses.DBRoundTrip(i.status);
    Locations.DBRoundTrip(i.location);
  }
}
