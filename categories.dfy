/** The `Category` value of Category.swift: an id and a description, equal by id alone. */
module Categories {
  import opened Wrappers
  import opened Http
  import Decimal
  import Hashing

  datatype Category = Category(id: int, description: string)

  /** `asQueryItem()`: no query item for the "none selected" id -1, else `categoryId=<id>`. */
  function AsQueryItem(x: Category): (q: Option<QueryItem>)
    ensures q.None? <==> x.id == -1
    ensures q.Some? ==> q.value.name == "categoryId" && q.value.value.Some? &&
                        Decimal.ParseInt(q.value.value.value) == Some(x.id)
  {
    if x.id == -1 then None
    else
      Decimal.ParseIntToString(x.id);
      Some(QueryItem("categoryId", Some(Decimal.IntToString(x.id))))
  }

  /** `==` */
  predicate Equal(a: Category, b: Category) {
    a.id == b.id
  }

  /** `hash(into:)` */
  function Hash(h: Hashing.Hasher, x: Category): Hashing.Hasher {
    Hashing.Combine(h, x.id)
  }

  /** Two values are equal exactly when they differ at most in their description. */
  lemma EqualIgnoresDescription(a: Category, b: Category)
    ensures Equal(a, b) <==> a.(description := b.description) == b
  {
  }

  /** Equal values hash alike, as `Hashable` requires, and `==` is an equivalence. */
  lemma EqualConsistentWithHash(a: Category, b: Category, c: Category, h: Hashing.Hasher)
    ensures Equal(a, a)
    ensures Equal(a, b) ==> Equal(b, a) && Hash(h, a) == Hash(h, b)
    ensures Equal(a, b) && Equal(b, c) ==> Equal(a, c)
  {
  }

  /** The Core Data record `DBCategory`; its description attribute is optional. */
  datatype DBCategory = DBCategory(id: int, statusDescription: Option<string>)

  /** `Category.from(_:)` */
  function FromDB(db: DBCategory): Category
  {
    Category(db.id, db.statusDescription.GetOr(""))
  }

  /** `createDB(in:)` */
  function CreateDB(x: Category): DBCategory
  {
    DBCategory(x.id, Some(x.description))
  }

  /** Storing a value and reading it back gives the value. */
  lemma DBRoundTrip(x: Category)
    ensures FromDB(CreateDB(x)) == x
  {
  }

  /** Reading a record and storing it back gives the record exactly when its description was set. */
  lemma DBRoundTripBack(db: DBCategory)
    ensures CreateDB(FromDB(db)) == db <==> db.statusDescription.Some?
  {
  }
}
