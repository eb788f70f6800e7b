/** The `Status` value of Status.swift: an id and a description, equal by id alone. */
module Statuses {
  import opened Wrappers
  import opened Http
  import Decimal
  import Hashing

  datatype Status = Status(id: int, description: string)

  /** `asQueryItem()`: no query item for the "none selected" id -1, else `status=<id>`. */
  function AsQueryItem(x: Status): (q: Option<QueryItem>)
    ensures q.None? <==> x.id == -1
    ensures q.Some? ==> q.value.name == "status" && q.value.value.Some? &&
                        Decimal.ParseInt(q.value.value.value) == Some(x.id)
  {
    if x.id == -1 then None
    else
      Decimal.ParseIntToString(x.id);
      Some(QueryItem("status", Some(Decimal.IntToString(x.id))))
  }

  /** `==` */
  predicate Equal(a: Status, b: Status) {
    a.id == b.id
  }

  /** `hash(into:)` */
  function Hash(h: Hashing.Hasher, x: Status): Hashing.Hasher {
    Hashing.Combine(h, x.id)
  }

  /** Two values are equal exactly when they differ at most in their description. */
  lemma EqualIgnoresDescription(a: Status, b: Status)
    ensures Equal(a, b) <==> a.(description := b.description) == b
  {
  }

  /** Equal values hash alike, as `Hashable` requires, and `==` is an equivalence. */
  lemma EqualConsistentWithHash(a: Status, b: Status, c: Status, h: Hashing.Hasher)
    ensures Equal(a, a)
    ensures Equal(a, b) ==> Equal(b, a) && Hash(h, a) == Hash(h, b)
    ensures Equal(a, b) && Equal(b, c) ==> Equal(a, c)
  {
  }

  /** The Core Data record `DBStatus`; its description attribute is optional. */
  datatype DBStatus = DBStatus(id: int, statusDescription: Option<string>)

  /** `Status.from(_:)` */
  function FromDB(db: DBStatus): Status
  {
    Status(db.id, db.statusDescription.GetOr(""))
  }

  /** `createDB(in:)` */
  function CreateDB(x: Status): DBStatus
  {
    DBStatus(x.id, Some(x.description))
  }

  /** Storing a value and reading it back gives the value. */
  lemma DBRoundTrip(x: Status)
    ensures FromDB(CreateDB(x)) == x
  {
  }

  /** Reading a record and storing it back gives the record exactly when its description was set. */
  lemma DBRoundTripBack(db: DBStatus)
    ensures CreateDB(FromDB(db)) == db <==> db.statusDescription.Some?
  {
  }
}
