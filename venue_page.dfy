/**
 * The venue page's `filteredVenues`: the fetched venues kept by capacity, price,
 * category and a case-insensitive search over name and address.
 */
module VenuePage {
  import opened Common
  import opened Strings
  import opened Models

  /** A slider value `[min, max]`, both ends inclusive. */
  datatype Range = Range(lo: int, hi: int)

  /** The page's filter state. */
  datatype Filters = Filters(capacity: Range, priceRange: Range, category: string, searchQuery: string)

  /** The initial filter state of the page. */
  const DefaultFilters := Filters(Range(0, 3000), Range(0, 1000000), "all", "")

  /** `categorizeVenue`, which maps a price to a category name; its definition is not part of this model. */
  type Categorizer = int -> string

  predicate MeetsCapacity(v: VenueView, f: Filters) {
    f.capacity.lo <= v.fields.capacity <= f.capacity.hi
  }

  predicate MeetsPrice(v: VenueView, f: Filters) {
    f.priceRange.lo <= v.fields.price <= f.priceRange.hi
  }

  predicate MeetsCategory(v: VenueView, f: Filters, categorize: Categorizer) {
    f.category == "all" || categorize(v.fields.price) == f.category
  }

  predicate MeetsSearch(v: VenueView, f: Filters) {
    if f.searchQuery != "" then
      Includes(Lower(v.fields.name), Lower(f.searchQuery)) || Includes(Lower(v.fields.address), Lower(f.searchQuery))
    else true
  }

  /** The filter callback: all four conditions. */
  predicate Matches(v: VenueView, f: Filters, categorize: Categorizer): (ok: bool)
    ensures ok ==> f.capacity.lo <= v.fields.capacity <= f.capacity.hi
    ensures ok ==> f.priceRange.lo <= v.fields.price <= f.priceRange.hi
    ensures ok ==> f.category == "all" || categorize(v.fields.price) == f.category
    ensures ok ==> f.searchQuery == "" || Includes(Lower(v.fields.name), Lower(f.searchQuery))
                                       || Includes(Lower(v.fields.address), Lower(f.searchQuery))
    ensures f == DefaultFilters ==> (ok <==> 0 <= v.fields.capacity <= 3000 && 0 <= v.fields.price <= 1000000)
  {
    MeetsCapacity(v, f) && MeetsPrice(v, f) && MeetsCategory(v, f, categorize) && MeetsSearch(v, f)
  }

  /** `a` is `b` with some elements left out, the rest in their order. */
  predicate IsSubsequence<T(==)>(a: seq<T>, b: seq<T>)
    decreases |b|
  {
    if a == [] then true
    else if b == [] then false
    else (a[0] == b[0] && IsSubsequence(a[1..], b[1..])) || IsSubsequence(a, b[1..])
  }

  /** `venues.filter(...)`: the matching venues, in their order. */
  function FilterList(venues: seq<VenueView>, f: Filters, categorize: Categorizer): (kept: seq<VenueView>)
    ensures IsSubsequence(kept, venues)
    ensures forall i :: 0 <= i < |kept| ==> Matches(kept[i], f, categorize)
    ensures forall i :: 0 <= i < |venues| && Matches(venues[i], f, categorize) ==> venues[i] in kept
    ensures forall v :: multiset(kept)[v] == if Matches(v, f, categorize) then multiset(venues)[v] else 0
  {
    if venues == [] then []
    else
      var rest := FilterList(venues[1..], f, categorize);
      assert venues == [venues[0]] + venues[1..];
      if Matches(venues[0], f, categorize) then
        assert ([venues[0]] + rest)[1..] == rest;
        [venues[0]] + rest
      else
        rest
  }

  /** `venues?.filter(...) || []`: no venues fetched yet gives the empty list. */
  function FilteredVenues(venues: Option<seq<VenueView>>, f: Filters, categorize: Categorizer): (kept: seq<VenueView>)
    ensures venues.None? ==> kept == []
  {
    if venues.None? then [] else FilterList(venues.value, f, categorize)
  }

  /** A venue is kept exactly when it meets all four conditions. */
  lemma KeptIffMatches(venues: seq<VenueView>, v: VenueView, f: Filters, categorize: Categorizer)
    requires v in venues
    ensures v in FilterList(venues, f, categorize) <==> Matches(v, f, categorize)
  {
    var kept := FilterList(venues, f, categorize);
    if v in kept {
      var i :| 0 <= i < |kept| && kept[i] == v;
    }
  }

  /** Category "all" ignores `categorizeVenue` altogether. */
  lemma AllCategoriesUnrestricted(v: VenueView, f: Filters, c1: Categorizer, c2: Categorizer)
    requires f.category == "all"
    ensures Matches(v, f, c1) == Matches(v, f, c2) == (MeetsCapacity(v, f) && MeetsPrice(v, f) && MeetsSearch(v, f))
  {
  }

  /**
   * An empty query ignores name and address; any other query must occur, lower-cased, at
   * some position of the lower-cased name or address.
   */
  lemma SearchMeaning(v: VenueView, f: Filters)
    ensures f.searchQuery == "" ==> MeetsSearch(v, f)
    ensures f.searchQuery != "" ==>
      (MeetsSearch(v, f) <==>
         ((exists i :: OccursAt(Lower(v.fields.name), Lower(f.searchQuery), i))
          || (exists i :: OccursAt(Lower(v.fields.address), Lower(f.searchQuery), i))))
  {
    IncludesAt(Lower(v.fields.name), Lower(f.searchQuery));
    IncludesAt(Lower(v.fields.address), Lower(f.searchQuery));
  }

  lemma LowerCharIdempotent(c: char)
    ensures LowerChar(LowerChar(c)) == LowerChar(c)
  {
  }

  /** Lower-casing twice is lower-casing once. */
  lemma LowerIdempotent(s: string)
    ensures Lower(Lower(s)) == Lower(s)
  {
    forall i | 0 <= i < |s|
      ensures Lower(Lower(s))[i] == Lower(s)[i]
    {
      LowerCharIdempotent(s[i]);
    }
  }

  /** The search ignores the case of the query. */
  lemma SearchIgnoresQueryCase(v: VenueView, f: Filters, categorize: Categorizer)
    ensures Matches(v, f, categorize) == Matches(v, f.(searchQuery := Lower(f.searchQuery)), categorize)
  {
    LowerIdempotent(f.searchQuery);
    assert (Lower(f.searchQuery) == "") == (f.searchQuery == "");
  }

  /** With the initial filters a venue is kept exactly when 0 <= capacity <= 3000 and 0 <= price <= 1000000. */
  lemma DefaultFiltersKeep(v: VenueView, categorize: Categorizer)
    ensures Matches(v, DefaultFilters, categorize)
        <==> 0 <= v.fields.capacity <= 3000 && 0 <= v.fields.price <= 1000000
  {
  }
}
