/** The `Location` value of Location.swift: an id and a description, equal by id alone. */
module Locations {
  import opened Wrappers
  import opened Http
  import Decimal
  import Hashing

  datatype Location = Location(id: int, description: string)

  /** `asQueryItem()`: no query item for the "none selected" id -1, else `locationId=<id>`. */
  function AsQueryItem(x: Location): (q: Option<QueryItem>)
    ensures q.None? <==> x.id == -1
    ensures q.Some? ==> q.value.name == "locationId" && q.value.value.Some? &&
                        Decimal.ParseInt(q.value.value.value) == Some(x.id)
  {
    if x.id == -1 then None
    else
      Decimal.ParseIntToString(x.id);
      Some(QueryItem("locationId", Some(Decimal.IntToString(x.id))))
  }

  /** `==` */
  predicate Equal(a: Location, b: Location) {
    a.id == b.id
  }

  /** `hash(into:)` */
  function Hash(h: Hashing.Hasher, x: Location): Hashing.Hasher {
    Hashing.Combine(h, x.id)
  }

  /** Two values are equal exactly when they differ at most in their description. */
  lemma EqualIgnoresDescription(a: Location, b: Location)
    ensures Equal(a, b) <==> a.(description := b.description) == b
  {
  }

  /** Equal values hash alike, as `Hashable` requires, and `==` is an equivalence. */
  lemma EqualConsistentWithHash(a: Location, b: Location, c: Location, h: Hashing.Hasher)
    ensures Equal(a, a)
    ensures Equal(a, b) ==> Equal(b, a) && Hash(h, a) == Hash(h, b)
    ensures Equal(a, b) && Equal(b, c) ==> Equal(a, c)
  {
  }

  /** The Core Data record `DBLocation`; its description attribute is optional. */
  datatype DBLocation = DBLocation(id: int, locationDescription: Option<string>)

  /** `Location.from(_:)` */
  function FromDB(db: DBLocation): Location
  {
    Location(db.id, db.locationDescription.GetOr(""))
  }

  /** `createDB(in:)` */
  function CreateDB(x: Location): DBLocation
  {
    DBLocation(x.id, Some(x.description))
  }

  /** Storing a value and reading it back gives the value. */
  lemma DBRoundTrip(x: Location)
    ensures FromDB(CreateDB(x)) == x
  {
  }

  /** Reading a record and storing it back gives the record exactly when its description was set. */
  lemma DBRoundTripBack(db: DBLocation)
    ensures CreateDB(FromDB(db)) == db <==> db.locationDescription.Some?
  {
  }
}
