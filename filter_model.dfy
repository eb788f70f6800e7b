/**
 * `SearchFilter` and its query text from FilterModel.swift. `Query` states
 * the text as the concatenation of four optional components, in the fixed
 * order item name, category, location, seller; `ToQuery` builds it step by
 * step as the source does. The name is not escaped; the id components can
 * be read back unambiguously.
 */
module FilterModel {
  import opened Wrappers
  import Decimal
  import opened Categories
  import opened Locations

  datatype SearchFilter = SearchFilter(
    itemName: Option<string>,
    category: Option<Category>,
    location: Option<Location>,
    seller: Option<int>)

  /** `SearchFilter()`: every field nil. */
  const EmptyFilter := SearchFilter(None, None, None, None)

  /** The category the filter narrows to: none when absent or the "none selected" -1. */
  function CategoryId(f: SearchFilter): Option<int> {
    if f.category.Some? && f.category.value.id != -1 then Some(f.category.value.id) else None
  }

  /** The location the filter narrows to: none when absent or the "none selected" -1. */
  function LocationId(f: SearchFilter): Option<int> {
    if f.location.Some? && f.location.value.id != -1 then Some(f.location.value.id) else None
  }

  function NamePart(f: SearchFilter): string {
    if f.itemName.Some? then "itemName=" + f.itemName.value else ""
  }

  const CategoryKey := "&categoryId="
  const LocationKey := "&locationId="
  const SellerKey := "&sellerId="

  /** `<key><decimal id>`, or nothing. */
  function Field(key: string, id: Option<int>): string {
    if id.Some? then key + Decimal.IntToString(id.value) else ""
  }

  function IdParts(f: SearchFilter): string {
    Field(CategoryKey, CategoryId(f)) + Field(LocationKey, LocationId(f)) + Field(SellerKey, f.seller)
  }

  /** The query text of a filter. */
  function Query(f: SearchFilter): string {
    NamePart(f) + Field(CategoryKey, CategoryId(f)) + Field(LocationKey, LocationId(f)) + Field(SellerKey, f.seller)
  }

  /** The query is the name part followed by the id components. */
  lemma QuerySplits(f: SearchFilter)
    ensures Query(f) == NamePart(f) + IdParts(f)
  {
    Associative(NamePart(f), Field(CategoryKey, CategoryId(f)), Field(LocationKey, LocationId(f)), Field(SellerKey, f.seller));
  }

  lemma Associative(a: string, b: string, c: string, d: string)
    ensures a + b + c + d == a + (b + c + d)
  {
  }

  /** `toQuery()` */
  method ToQuery(f: SearchFilter) returns (result: string)
    ensures result == Query(f)
  {
    result := "";
    if f.itemName.Some? {
      result := result + ("itemName=" + f.itemName.value);
    }
    assert result == NamePart(f);
    if f.category.Some? && f.category.value.id != -1 {
      result := result + (CategoryKey + Decimal.IntToString(f.category.value.id));
    }
    assert result == NamePart(f) + Field(CategoryKey, CategoryId(f));
    if f.location.Some? && f.location.value.id != -1 {
      result := result + (LocationKey + Decimal.IntToString(f.location.value.id));
    }
    assert result == NamePart(f) + Field(CategoryKey, CategoryId(f)) + Field(LocationKey, LocationId(f));
    if f.seller.Some? {
      result := result + (SellerKey + Decimal.IntToString(f.seller.value));
    }
  }

  /** The empty filter has the empty query. */
  lemma EmptyFilterQuery()
    ensures Query(EmptyFilter) == ""
  {
  }

  /** A present name comes first, verbatim. */
  lemma QueryStartsWithName(f: SearchFilter)
    requires f.itemName.Some?
    ensures var p := "itemName=" + f.itemName.value;
            |Query(f)| >= |p| && Query(f)[..|p|] == p
  {
  }

  // Reading the id components back.

  /** The text before the first '&', and the rest. */
  function SplitAtAmp(s: string): (string, string) {
    if s == [] || s[0] == '&' then ("", s)
    else
      var tail := SplitAtAmp(s[1..]);
      ([s[0]] + tail.0, tail.1)
  }

  predicate StartsWith(s: string, p: string) {
    |s| >= |p| && s[..|p|] == p
  }

  /** Reads `<key><int>` off the front of `s` when it is there. */
  function ReadField(s: string, key: string): (Option<int>, string) {
    if StartsWith(s, key) then
      var split := SplitAtAmp(s[|key|..]);
      match Decimal.ParseInt(split.0)
      case Some(v) => (Some(v), split.1)
      case None => (None, s)
    else (None, s)
  }

  /** Reads the category, location and seller components, in that order, and nothing else. */
  function ParseIdParts(s: string): Option<(Option<int>, Option<int>, Option<int>)> {
    var c := ReadField(s, CategoryKey);
    var l := ReadField(c.1, LocationKey);
    var k := ReadField(l.1, SellerKey);
    if k.1 == [] then Some((c.0, l.0, k.0)) else None
  }

  lemma {:induction false} SplitAtAmpBefore(a: string, rest: string)
    requires '&' !in a
    requires rest == [] || rest[0] == '&'
    ensures SplitAtAmp(a + rest) == (a, rest)
  {
    if a != [] {
      var s := a + rest;
      assert s[0] == a[0] && a[0] != '&';
      assert s[1..] == a[1..] + rest;
      SplitAtAmpBefore(a[1..], rest);
      assert SplitAtAmp(s) == ([s[0]] + SplitAtAmp(s[1..]).0, SplitAtAmp(s[1..]).1);
      assert [a[0]] + a[1..] == a;
    } else {
      assert a + rest == rest;
    }
  }

  /** A component followed by text that cannot be its continuation reads back as its id. */
  lemma ReadFieldBack(key: string, id: Option<int>, rest: string)
    requires rest == [] || rest[0] == '&'
    requires id.None? ==> !StartsWith(rest, key)
    ensures ReadField(Field(key, id) + rest, key) == (id, rest)
  {
    if id.Some? {
      var digits := Decimal.IntToString(id.value);
      var s := Field(key, id) + rest;
      assert s == key + (digits + rest);
      assert StartsWith(s, key);
      assert s[|key|..] == digits + rest;
      Decimal.IntToStringHasNoAmpersand(id.value);
      SplitAtAmpBefore(digits, rest);
      Decimal.ParseIntToString(id.value);
    } else {
      assert Field(key, id) + rest == rest;
    }
  }

  /** Text that is empty or starts with one key does not start with a key of a different second letter. */
  lemma KeysDiffer(s: string, present: string, absent: string)
    requires |present| >= 2 && |absent| >= 2 && present[1] != absent[1]
    requires s == [] || StartsWith(s, present)
    ensures !StartsWith(s, absent)
  {
    if s != [] {
      assert s[1] == present[1];
    }
  }

  /** Three components whose keys differ in their second letter read back in order, and nothing is left over. */
  lemma {:induction false} ThreeFieldsRoundTrip(k1: string, k2: string, k3: string, a: Option<int>, b: Option<int>, c: Option<int>)
    requires |k1| >= 2 && |k2| >= 2 && |k3| >= 2
    requires k1[1] != k2[1] && k1[1] != k3[1] && k2[1] != k3[1]
    requires k1[0] == '&' && k2[0] == '&' && k3[0] == '&'
    ensures var s := Field(k1, a) + Field(k2, b) + Field(k3, c);
            var x := ReadField(s, k1);
            var y := ReadField(x.1, k2);
            var z := ReadField(y.1, k3);
            (x.0, y.0, z.0) == (a, b, c) && z.1 == []
  {
    var u, v, w := Field(k1, a), Field(k2, b), Field(k3, c);
    assert u + v + w == u + (v + w);
    LastTwoFields(k1, k2, k3, b, c);
    ReadFieldBack(k1, a, v + w);
  }

  /** The second and third components of `ThreeFieldsRoundTrip` read back, and do not look like the first. */
  lemma LastTwoFields(k1: string, k2: string, k3: string, b: Option<int>, c: Option<int>)
    requires |k1| >= 2 && |k2| >= 2 && |k3| >= 2
    requires k1[1] != k2[1] && k1[1] != k3[1] && k2[1] != k3[1]
    requires k1[0] == '&' && k2[0] == '&' && k3[0] == '&'
    ensures var v, w := Field(k2, b), Field(k3, c);
            ReadField(w, k3) == (c, "") && ReadField(v + w, k2) == (b, w) &&
            (v + w == [] || (v + w)[0] == '&') && !StartsWith(v + w, k1)
  {
    var v, w := Field(k2, b), Field(k3, c);
    FieldShape(k2, b);
    FieldShape(k3, c);
    LeadsWithAmp(v, w);
    LastField(k2, k3, c);
    ReadFieldBack(k2, b, w);
    FirstKeyAbsent(v, w, k2, k3, k1);
  }

  lemma LastField(k2: string, k3: string, c: Option<int>)
    requires |k2| >= 2 && |k3| >= 2 && k2[1] != k3[1]
    ensures ReadField(Field(k3, c), k3) == (c, "") && !StartsWith(Field(k3, c), k2)
  {
    var w := Field(k3, c);
    ReadFieldBack(k3, c, "");
    assert w + "" == w;
    FieldShape(k3, c);
    KeysDiffer(w, k3, k2);
  }

  /** A component is empty or starts with its key. */
  lemma FieldShape(key: string, id: Option<int>)
    ensures Field(key, id) == [] || StartsWith(Field(key, id), key)
  {
    if id.Some? {
      assert Field(key, id)[..|key|] == key;
    }
  }

  lemma LeadsWithAmp(v: string, w: string)
    requires v == [] || v[0] == '&'
    requires w == [] || w[0] == '&'
    ensures v + w == [] || (v + w)[0] == '&'
  {
  }

  /** Text made of a `k2` component and then text empty or led by `k3` does not start with `k1`. */
  lemma FirstKeyAbsent(v: string, w: string, k2: string, k3: string, k1: string)
    requires |k1| >= 2 && |k2| >= 2 && |k3| >= 2 && k1[1] != k2[1] && k1[1] != k3[1]
    requires v == [] || StartsWith(v, k2)
    requires w == [] || StartsWith(w, k3)
    requires v + w == [] || (v + w)[0] == '&'
    ensures !StartsWith(v + w, k1)
  {
    if v == [] {
      assert v + w == w;
      KeysDiffer(w, k3, k1);
    } else {
      assert (v + w)[..|k2|] == v[..|k2|];
      KeysDiffer(v + w, k2, k1);
    }
  }

  /** The id components of a query determine the category, location and seller it narrows to. */
  lemma IdPartsRoundTrip(f: SearchFilter)
    ensures ParseIdParts(IdParts(f)) == Some((CategoryId(f), LocationId(f), f.seller))
  {
    ThreeFieldsRoundTrip(CategoryKey, LocationKey, SellerKey, CategoryId(f), LocationId(f), f.seller);
  }

  /** Two filters with the same name and the same query narrow to the same category, location and seller. */
  lemma QueryDeterminesIds(f: SearchFilter, g: SearchFilter)
    requires f.itemName == g.itemName && Query(f) == Query(g)
    ensures CategoryId(f) == CategoryId(g) && LocationId(f) == LocationId(g) && f.seller == g.seller
  {
    var n := NamePart(f);
    QuerySplits(f);
    QuerySplits(g);
    assert Query(f)[|n|..] == IdParts(f);
    assert Query(g)[|n|..] == IdParts(g);
    IdPartsRoundTrip(f);
    IdPartsRoundTrip(g);
  }

  /** The name is not escaped: a name holding `&sellerId=1` reads like a seller component. */
  lemma NameIsNotEscaped()
    ensures var f := SearchFilter(Some("a&sellerId=1"), None, None, None);
            var g := SearchFilter(Some("a"), None, None, Some(1));
            Query(f) == Query(g) && f.seller != g.seller
  {
    assert Decimal.IntToString(1) == "1";
  }
}
