/** The vehicle list: the search box, the four filter facets and the effect that
    narrows the catalogue to the vehicles shown (src/components/shop/CarList.jsx). */
module Listing {
  import opened Wrappers
  import opened Seqs
  import opened Text
  import opened Decimal
  import opened Vehicles

  /** The sentinel a facet holds when it imposes no constraint. */
  const All: string := "all"

  datatype Filters = Filters(category: string, fuelType: string, priceRange: string, status: string)

  /** The names `handleFilterChange` is called with. */
  datatype FilterKey = Category | FuelType | PriceRange | Status

  /** The initial filter state, also the one "Clear All" restores. */
  const NoFilters: Filters := Filters(All, All, All, All)

  function Facet(f: Filters, k: FilterKey): string {
    match k
    case Category => f.category
    case FuelType => f.fuelType
    case PriceRange => f.priceRange
    case Status => f.status
  }

  /** `{ ...prev, [filterType]: value }`: one facet replaced, the others kept. */
  function WithFacet(f: Filters, k: FilterKey, value: string): (r: Filters)
    ensures Facet(r, k) == value
    ensures forall k' :: k' != k ==> Facet(r, k') == Facet(f, k')
  {
    match k
    case Category => f.(category := value)
    case FuelType => f.(fuelType := value)
    case PriceRange => f.(priceRange := value)
    case Status => f.(status := value)
  }

  // ---------------------------------------------------------------- text search

  /** The free-text test: brand, model or colour contains the term ignoring case,
      or the year's numeral contains the term as typed. */
  predicate MatchesText(v: Vehicle, term: string)
    ensures term == [] ==> MatchesText(v, term)
  {
    assert Lower([]) == [] && OccursAt(Lower(v.brand), [], 0);
    || Includes(Lower(v.brand), Lower(term))
    || Includes(Lower(v.model), Lower(term))
    || Includes(NatToString(v.year), term)
    || Includes(Lower(v.color), Lower(term))
  }

  /** The text pass runs only for a non-empty (truthy) search term; skipping it for
      the empty term keeps what the test itself would keep. */
  predicate TextPass(v: Vehicle, term: string)
    ensures TextPass(v, term) <==> MatchesText(v, term)
  {
    term == [] || MatchesText(v, term)
  }

  /** Anything found in a string of digits is itself made of digits, and so is
      unchanged by lower-casing. */
  lemma DigitsNeedleIsLowerCase(digits: string, needle: string)
    requires AllDigits(digits) && Includes(digits, needle)
    ensures Lower(needle) == needle
  {
    var i :| OccursAt(digits, needle, i);
    assert forall k :: 0 <= k < |needle| ==> needle[k] == digits[i + k];
    LowerOfLowerCase(needle);
  }

  /** The search is case-insensitive as a whole: a term and its lower-cased form
      find the same vehicles. For brand, model and colour this is the lower-casing
      of both sides; the year is compared with the raw term, but a term found in a
      numeral has no letters to fold. */
  lemma TextSearchIgnoresCase(v: Vehicle, term: string)
    ensures MatchesText(v, term) <==> MatchesText(v, Lower(term))
  {
    var year := NatToString(v.year);
    LowerIsLowerCase(term);
    if Includes(year, term) {
      DigitsNeedleIsLowerCase(year, term);
    }
    if Includes(year, Lower(term)) {
      DigitsNeedleIsLowerCase(year, Lower(term));
      forall k | 0 <= k < |term|
        ensures !IsUpper(term[k])
      {
        assert Lower(term)[k] == LowerChar(term[k]);
      }
      LowerOfLowerCase(term);
    }
  }

  // ---------------------------------------------------------------- facets

  /** Category, fuel type and status: "all", or the lower-cased field equals the
      filter value as given (the value itself is not lower-cased). */
  predicate FacetPass(field: string, value: string)
    ensures FacetPass(field, value) && value != All ==> |value| == |field| && IsLowerCase(value)
  {
    value == All || Lower(field) == value
  }

  // ---------------------------------------------------------------- price range

  /** A parsed price option: a lower bound and, for "min-max", an upper bound. */
  datatype PriceBounds = PriceBounds(min: nat, max: Option<nat>)

  /** Position of the first '-' in `s`, if any. */
  function DashIndex(s: string): (r: Option<nat>)
    ensures r.Some? ==> r.value < |s| && s[r.value] == '-' && '-' !in s[..r.value]
    ensures r.None? ==> '-' !in s
  {
    if s == [] then None
    else if s[0] == '-' then Some(0)
    else match DashIndex(s[1..])
      case None => None
      case Some(i) => (assert s[..i + 1] == [s[0]] + s[1..][..i]; Some(i + 1))
  }

  /** `priceRange.split("-").map(Number)` on the option formats "min-max" and "min". */
  function ParsePriceRange(s: string): (r: Option<PriceBounds>)
    ensures (r.Some? && r.value.max.None?) <==> s != [] && AllDigits(s)
    ensures r.Some? && r.value.max.Some? ==>
      exists i :: 0 < i < |s| - 1 && s[i] == '-' && AllDigits(s[..i]) && AllDigits(s[i + 1..])
  {
    match DashIndex(s)
    case None =>
      (match ParseNat(s)
       case None => None
       case Some(lo) => Some(PriceBounds(lo, None)))
    case Some(i) =>
      (match (ParseNat(s[..i]), ParseNat(s[i + 1..]))
       case (Some(lo), Some(hi)) => Some(PriceBounds(lo, Some(hi)))
       case _ => None)
  }

  /** The option value that denotes `b`: "min-max" or "min". */
  function FormatPriceRange(b: PriceBounds): string {
    match b.max
    case None => NatToString(b.min)
    case Some(hi) => NatToString(b.min) + "-" + NatToString(hi)
  }

  /** `if (max) min <= price <= max else price >= min`: an absent upper bound, and
      one that is 0 (falsy), leave the range open above. */
  predicate InPriceRange(price: nat, b: PriceBounds)
    ensures InPriceRange(price, b) ==> b.min <= price
    ensures InPriceRange(price, b) && b.max.Some? && b.max.value != 0 ==> price <= b.max.value
    ensures b.min <= price && (b.max.None? || b.max == Some(0)) ==> InPriceRange(price, b)
  {
    match b.max
    case Some(hi) => if hi != 0 then b.min <= price <= hi else b.min <= price
    case None => b.min <= price
  }

  /** The price pass: "all", or the price lies in the parsed range. A string that
      does not parse behaves like a NaN lower bound: nothing passes. */
  predicate PricePass(price: nat, range: string)
    ensures PricePass(price, range) && range != All ==>
      ParsePriceRange(range).Some? && ParsePriceRange(range).value.min <= price
  {
    range == All ||
    match ParsePriceRange(range)
    case None => false
    case Some(b) => InPriceRange(price, b)
  }

  // ---------------------------------------------------------------- the query

  /** A vehicle survives every pass of the filtering effect. */
  predicate Matches(v: Vehicle, term: string, f: Filters) {
    && TextPass(v, term)
    && FacetPass(v.category, f.category)
    && FacetPass(v.fuelType, f.fuelType)
    && FacetPass(v.status, f.status)
    && PricePass(v.price, f.priceRange)
  }

  function Query(term: string, f: Filters): Vehicle -> bool {
    v => Matches(v, term, f)
  }

  /** The specification of the list shown: the catalogue vehicles that satisfy the
      search term and every facet, in catalogue order. */
  function Search(cars: seq<Vehicle>, term: string, f: Filters): (r: seq<Vehicle>)
    ensures IsSubsequence(r, cars)
    ensures forall v :: v in r <==> v in cars && Matches(v, term, f)
  {
    Filter(cars, Query(term, f))
  }

  /** The filtering effect: start from the catalogue and narrow it in up to five
      successive passes, each skipped when its control is empty or "all". */
  method ApplyFilters(cars: seq<Vehicle>, term: string, f: Filters) returns (filtered: seq<Vehicle>)
    ensures filtered == Search(cars, term, f)
  {
    filtered := cars;
    // `sel` is the conjunction of the passes considered so far.
    ghost var sel: Vehicle -> bool := v => true;
    FilterKeepsAll(cars, sel);

    ghost var prev := sel;
    sel := v => prev(v) && TextPass(v, term);
    if term != [] {
      FilterNarrows(cars, prev, (v: Vehicle) => MatchesText(v, term), sel);
      filtered := Filter(filtered, (v: Vehicle) => MatchesText(v, term));
    } else {
      FilterExt(cars, prev, sel);
    }

    prev := sel;
    sel := v => prev(v) && FacetPass(v.category, f.category);
    if f.category != All {
      FilterNarrows(cars, prev, (v: Vehicle) => Lower(v.category) == f.category, sel);
      filtered := Filter(filtered, (v: Vehicle) => Lower(v.category) == f.category);
    } else {
      FilterExt(cars, prev, sel);
    }

    prev := sel;
    sel := v => prev(v) && FacetPass(v.fuelType, f.fuelType);
    if f.fuelType != All {
      FilterNarrows(cars, prev, (v: Vehicle) => Lower(v.fuelType) == f.fuelType, sel);
      filtered := Filter(filtered, (v: Vehicle) => Lower(v.fuelType) == f.fuelType);
    } else {
      FilterExt(cars, prev, sel);
    }

    prev := sel;
    sel := v => prev(v) && FacetPass(v.status, f.status);
    if f.status != All {
      FilterNarrows(cars, prev, (v: Vehicle) => Lower(v.status) == f.status, sel);
      filtered := Filter(filtered, (v: Vehicle) => Lower(v.status) == f.status);
    } else {
      FilterExt(cars, prev, sel);
    }

    prev := sel;
    sel := v => prev(v) && PricePass(v.price, f.priceRange);
    if f.priceRange != All {
      var bounds := ParsePriceRange(f.priceRange);
      var inRange := (v: Vehicle) =>
        match bounds
        case None => false
        case Some(b) => InPriceRange(v.price, b);
      FilterNarrows(cars, prev, inRange, sel);
      filtered := Filter(filtered, inRange);
    } else {
      FilterExt(cars, prev, sel);
    }

    FilterExt(cars, sel, Query(term, f));
  }

  // ---------------------------------------------------------------- properties

  /** With an empty term and every facet at "all" the list is the catalogue itself,
      in catalogue order. */
  lemma NoFiltersKeepsAll(cars: seq<Vehicle>)
    ensures Search(cars, [], NoFilters) == cars
  {
    FilterKeepsAll(cars, Query([], NoFilters));
  }

  function TextPassOf(term: string): Vehicle -> bool {
    v => TextPass(v, term)
  }

  function CategoryPassOf(f: Filters): Vehicle -> bool {
    (v: Vehicle) => FacetPass(v.category, f.category)
  }

  function FuelTypePassOf(f: Filters): Vehicle -> bool {
    (v: Vehicle) => FacetPass(v.fuelType, f.fuelType)
  }

  function StatusPassOf(f: Filters): Vehicle -> bool {
    (v: Vehicle) => FacetPass(v.status, f.status)
  }

  function PricePassOf(f: Filters): Vehicle -> bool {
    (v: Vehicle) => PricePass(v.price, f.priceRange)
  }

  /** The passes are independent: running them in the opposite order (price,
      status, fuel type, category, text) selects the same list. */
  lemma {:induction false} PassOrderIrrelevant(cars: seq<Vehicle>, term: string, f: Filters)
    ensures Filter(Filter(Filter(Filter(Filter(cars,
              PricePassOf(f)), StatusPassOf(f)), FuelTypePassOf(f)), CategoryPassOf(f)), TextPassOf(term))
            == Search(cars, term, f)
  {
    FilterFive(cars, PricePassOf(f), StatusPassOf(f), FuelTypePassOf(f), CategoryPassOf(f),
               TextPassOf(term), Query(term, f));
  }

  /** The facet value is compared as given: a value with an upper-case letter in it
      (other than the sentinel) matches no vehicle at all. */
  lemma UpperCaseFacetMatchesNothing(field: string, value: string, i: nat)
    requires i < |value| && IsUpper(value[i])
    ensures !FacetPass(field, value)
  {
    LowerIsLowerCase(field);
  }

  /** Printing a range as an option value and parsing it gives the range back. */
  lemma PriceRangeRoundTrip(b: PriceBounds)
    ensures ParsePriceRange(FormatPriceRange(b)) == Some(b)
  {
    var lo := NatToString(b.min);
    ParseNatToString(b.min);
    assert '-' !in lo;
    match b.max
    case None =>
    case Some(hi) =>
      var s := lo + "-" + NatToString(hi);
      ParseNatToString(hi);
      assert s[|lo|] == '-';
      assert '-' !in s[..|lo|] by { assert s[..|lo|] == lo; }
      assert DashIndex(s) == Some(|lo|);
      assert s[..|lo|] == lo;
      assert s[|lo| + 1..] == NatToString(hi);
  }

  /** An option value is never the sentinel: it starts with a digit. */
  lemma FormattedRangeIsNotAll(b: PriceBounds)
    ensures FormatPriceRange(b) != All
  {
    assert IsDigit(FormatPriceRange(b)[0]);
  }

  /** "min-max" with a non-zero upper bound keeps exactly the prices between the
      bounds, both included. */
  lemma ClosedPriceRange(lo: nat, hi: nat, price: nat)
    requires hi != 0
    ensures PricePass(price, FormatPriceRange(PriceBounds(lo, Some(hi)))) <==> lo <= price <= hi
  {
    PriceRangeRoundTrip(PriceBounds(lo, Some(hi)));
    FormattedRangeIsNotAll(PriceBounds(lo, Some(hi)));
  }

  /** "min" keeps exactly the prices from `min` up. */
  lemma OpenPriceRange(lo: nat, price: nat)
    ensures PricePass(price, FormatPriceRange(PriceBounds(lo, None))) <==> lo <= price
  {
    PriceRangeRoundTrip(PriceBounds(lo, None));
    FormattedRangeIsNotAll(PriceBounds(lo, None));
  }

  /** "min-0": an upper bound of 0 is falsy, so the range is open above. */
  lemma ZeroUpperBoundIsOpen(lo: nat, price: nat)
    ensures PricePass(price, FormatPriceRange(PriceBounds(lo, Some(0)))) <==> lo <= price
  {
    PriceRangeRoundTrip(PriceBounds(lo, Some(0)));
    FormattedRangeIsNotAll(PriceBounds(lo, Some(0)));
  }

  lemma OptionNumerals()
    ensures NatToString(0) == "0"
    ensures NatToString(60000) == "60000"
    ensures NatToString(80000) == "80000"
    ensures NatToString(100000) == "100000"
  {
    assert NatToString(6) == "6";
    assert NatToString(60) == "60";
    assert NatToString(600) == "600";
    assert NatToString(6000) == "6000";
    assert NatToString(8) == "8";
    assert NatToString(80) == "80";
    assert NatToString(800) == "800";
    assert NatToString(8000) == "8000";
    assert NatToString(1) == "1";
    assert NatToString(10) == "10";
    assert NatToString(100) == "100";
    assert NatToString(1000) == "1000";
    assert NatToString(10000) == "10000";
  }

  /** The "$60,000 - $80,000" option includes both of its bounds and nothing
      just outside them. */
  lemma MidRangeOptionBoundaries()
    ensures PricePass(60000, "60000-80000") && PricePass(80000, "60000-80000")
    ensures !PricePass(59999, "60000-80000") && !PricePass(80001, "60000-80000")
  {
    OptionNumerals();
    var b := PriceBounds(60000, Some(80000));
    assert FormatPriceRange(b) == "60000-80000";
    ClosedPriceRange(60000, 80000, 60000);
    ClosedPriceRange(60000, 80000, 80000);
    ClosedPriceRange(60000, 80000, 59999);
    ClosedPriceRange(60000, 80000, 80001);
  }

  /** Adjacent options share their boundary: a price of exactly 60000 passes both
      "Under $60,000" and "$60,000 - $80,000". */
  lemma AdjacentOptionsShareBoundary()
    ensures PricePass(60000, "0-60000") && PricePass(60000, "60000-80000")
  {
    OptionNumerals();
    assert FormatPriceRange(PriceBounds(0, Some(60000))) == "0-60000";
    assert FormatPriceRange(PriceBounds(60000, Some(80000))) == "60000-80000";
    ClosedPriceRange(0, 60000, 60000);
    ClosedPriceRange(60000, 80000, 60000);
  }

  /** The "$100,000+" option has no upper limit. */
  lemma TopOptionIsOpen(price: nat)
    ensures PricePass(price, "100000") <==> 100000 <= price
  {
    OptionNumerals();
    assert FormatPriceRange(PriceBounds(100000, None)) == "100000";
    OpenPriceRange(100000, price);
  }

  /** The fuel-type facet "electric" keeps an electric car and drops a petrol one. */
  lemma ExampleFuelQuery(ev: Vehicle, petrol: Vehicle)
    requires Lower(ev.fuelType) == "electric" && Lower(petrol.fuelType) == "gasoline"
    ensures Search([ev, petrol], [], NoFilters.(fuelType := "electric")) == [ev]
  {
    FilterPair(ev, petrol, Query([], NoFilters.(fuelType := "electric")));
  }

  /** The "$60,000 - $80,000" option keeps a car priced inside it and drops a
      cheaper one. */
  lemma ExamplePriceQuery(cheap: Vehicle, mid: Vehicle)
    requires cheap.price < 60000 && 60000 <= mid.price <= 80000
    ensures Search([cheap, mid], [], NoFilters.(priceRange := "60000-80000")) == [mid]
  {
    OptionNumerals();
    assert FormatPriceRange(PriceBounds(60000, Some(80000))) == "60000-80000";
    ClosedPriceRange(60000, 80000, cheap.price);
    ClosedPriceRange(60000, 80000, mid.price);
    FilterPair(cheap, mid, Query([], NoFilters.(priceRange := "60000-80000")));
  }

  /** Facets combine by conjunction: "suv" keeps the SUV, "electric" keeps the
      electric sedan, and together they keep neither. */
  lemma ExampleFacetConjunction(sedan: Vehicle, suv: Vehicle)
    requires Lower(sedan.category) == "sedan" && Lower(sedan.fuelType) == "electric"
    requires Lower(suv.category) == "suv" && Lower(suv.fuelType) == "gasoline"
    ensures Search([sedan, suv], [], NoFilters.(category := "suv", fuelType := "electric")) == []
  {
    FilterPair(sedan, suv, Query([], NoFilters.(category := "suv", fuelType := "electric")));
  }

  // ---------------------------------------------------------------- the component state

  /** The list component: search term and facets as the user set them, and the
      list shown, which the filtering effect recomputes after every change. */
  class CarList {
    const catalog: seq<Vehicle>
    var searchTerm: string
    var filters: Filters
    var filteredVehicles: seq<Vehicle>

    /** The list shown is the query's answer for the current controls. */
    ghost predicate Valid()
      reads this
    {
      filteredVehicles == Search(catalog, searchTerm, filters)
    }

    /** Mount: empty term, every facet "all", the whole catalogue shown. */
    constructor (cars: seq<Vehicle>)
      ensures catalog == cars && searchTerm == [] && filters == NoFilters
      ensures filteredVehicles == cars
      ensures Valid()
    {
      catalog := cars;
      searchTerm := [];
      filters := NoFilters;
      filteredVehicles := cars;
      NoFiltersKeepsAll(cars);
    }

    /** The effect run on every change of the search term or the filters. */
    method Refresh()
      modifies this`filteredVehicles
      ensures Valid()
    {
      filteredVehicles := ApplyFilters(catalog, searchTerm, filters);
    }

    /** Typing in (or clearing) the search box. */
    method SetSearchTerm(term: string)
      modifies this`searchTerm, this`filteredVehicles
      ensures searchTerm == term && filters == old(filters)
      ensures Valid()
    {
      searchTerm := term;
      Refresh();
    }

    /** `handleFilterChange`: one facet changes, the rest and the term stay. */
    method HandleFilterChange(key: FilterKey, value: string)
      modifies this`filters, this`filteredVehicles
      ensures filters == WithFacet(old(filters), key, value)
      ensures searchTerm == old(searchTerm)
      ensures Valid()
    {
      filters := WithFacet(filters, key, value);
      Refresh();
    }

    /** `clearFilters`: every facet back to "all", the term emptied, and so the
      whole catalogue shown again. */
    method ClearFilters()
      modifies this`filters, this`searchTerm, this`filteredVehicles
      ensures filters == NoFilters && searchTerm == []
      ensures filteredVehicles == catalog
      ensures Valid()
    {
      filters := NoFilters;
      searchTerm := [];
      Refresh();
      NoFiltersKeepsAll(catalog);
    }
  }
}
