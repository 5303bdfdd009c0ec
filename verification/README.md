# Vehicle browser of the GibsonAutos dealership site, in Dafny

This project models the one part of the site with real behaviour: the vehicle
browser in `src/components/shop/`.

- **The list view (`CarList.jsx`).** A search term and four filter facets (category,
  fuel type, price range, status) are kept as component state. An effect narrows the
  catalogue to the vehicles shown, in up to five passes. Each pass is skipped when its
  control is empty or `"all"`.
- **The detail view (`CarDetail.jsx`).** A load step looks up a vehicle by its route id.
  A miss sets the `"Vehicle not found"` error. A hit shows the vehicle from its first
  image and fills a strip of at most three "related vehicles". An image carousel wraps
  at both ends, and indicator dots jump straight to an image.

The dataset module `src/data/carDatabase` is not part of this model. The catalogue
(`getAllCars()`) is a parameter sequence of `Vehicle` records. The lookup
(`getCarById(carId)`) enters as its result, a record or nothing (`Option<Vehicle>`).

Modules:

- `Wrappers`: `Option`, the stand-in for `null`.
- `Seqs`: `Filter`, the model of `Array.prototype.filter`, with its laws. These are
  order preservation, subsequence, membership, composition and commutation.
- `Text`: ASCII `toLowerCase` and `String.prototype.includes`.
- `Decimal`: `toString` and `Number` on natural numbers, with their round trip.
- `Vehicles`: the vehicle record.
- `Listing`: the passes, the query specification `Search`, the effect `ApplyFilters`
  and the class `CarList` holding `searchTerm`, `filters` and `filteredVehicles`.
- `Detail`: `Related`, the carousel steps and the class `CarDetail` holding `car`,
  `currentImageIndex`, `relatedVehicles`, `isLoading` and `error`.

Two points of the code's behaviour that a reader might not expect:

- The category, fuel-type and status passes lower-case only the vehicle's field and
  compare it with the filter value as given (CarList.jsx:53, 58, 63). So a facet value
  holding an upper-case letter matches nothing (`UpperCaseFacetMatchesNothing`).
- The price pass has no error path (CarList.jsx:67-74). Its bounds come from `Number`,
  and an upper bound that is 0 or `NaN` is falsy, so the range is then open above. The
  model parses the option formats exactly; how it treats other strings is stated under
  "Left out".

## Model

| member | source | states |
|---|---|---|
| Seqs.Filter | src/components/shop/CarList.jsx:41-75 | each pass keeps exactly the elements its predicate accepts, in their original order, as a subsequence of its input |
| Seqs.FilterKeepsAll | src/components/shop/CarList.jsx:37-66 | a pass that rejects nothing returns its input unchanged |
| Seqs.FilterExt | src/components/shop/CarList.jsx:41-75 | predicates that agree on the elements select the same list |
| Seqs.FilterThen | src/components/shop/CarList.jsx:37-75 | two successive passes equal one pass by the conjunction |
| Seqs.FilterNarrows | src/components/shop/CarList.jsx:37-75 | a second pass after a first is one pass by any predicate equal to their conjunction |
| Seqs.FilterFive | src/components/shop/CarList.jsx:37-75 | five successive passes equal one pass by their conjunction |
| Seqs.FilterPair | src/components/shop/CarList.jsx:41-75 | a pass over two vehicles keeps each one exactly when it passes, in order |
| Seqs.FilterCommutes | src/components/shop/CarList.jsx:51-75 | two passes give the same list in either order |
| Seqs.FilterDropsOne | src/components/shop/CarDetail.jsx:48-49 | when exactly one element fails the predicate, the result is one shorter than the input |
| Text.LowerChar | src/components/shop/CarList.jsx:43-46 | ASCII case folding maps 'A'-'Z' to 'a'-'z' (32 code points up) and leaves every other character alone |
| Text.Lower | src/components/shop/CarList.jsx:43-46 | `toLowerCase` folds each character and keeps the length |
| Text.LowerIsLowerCase | src/components/shop/CarList.jsx:43-46 | a lower-cased string has no upper-case letter and lower-casing it again changes nothing |
| Text.LowerOfLowerCase | src/components/shop/CarList.jsx:43-46 | lower-casing a string without upper-case letters is the identity |
| Text.Includes | src/components/shop/CarList.jsx:43-46 | `includes` is true exactly when some offset starts a copy of the needle; the empty needle is found everywhere |
| Text.ShiftOccurrence | src/components/shop/CarList.jsx:43-46 | when the needle is not a prefix, it occurs in the string exactly when it occurs in the string minus its first character |
| Decimal.NatToString | src/components/shop/CarList.jsx:45 | `year.toString()` is a non-empty digit string without a leading zero |
| Decimal.ParseNat | src/components/shop/CarList.jsx:67 | `Number` on a bound accepts exactly the non-empty digit strings |
| Decimal.ParseNatToString | src/components/shop/CarList.jsx:45-67 | reading back a printed number gives the number |
| Listing.MatchesText | src/components/shop/CarList.jsx:42-46 | the free-text test: lower-cased brand, model or colour includes the lower-cased term, or the year's numeral includes the raw term; the empty term matches every vehicle |
| Listing.TextPass | src/components/shop/CarList.jsx:40-47 | the pass guarded by `if (searchTerm)` keeps exactly what the text test keeps, so skipping it for the empty term changes nothing |
| Listing.FacetPass | src/components/shop/CarList.jsx:51-65 | "all", or the lower-cased field equals the value as given; a value other than "all" that passes is lower-case and as long as the field |
| Listing.ParsePriceRange | src/components/shop/CarList.jsx:67 | accepts a "min" option exactly when the string is a non-empty digit string, and a "min-max" option only when a '-' separates two non-empty digit strings |
| Listing.InPriceRange | src/components/shop/CarList.jsx:68-74 | the lower bound is always enforced; the upper bound only when it is present and non-zero (truthy); with no or a zero upper bound every price from the lower bound up passes |
| Listing.PricePass | src/components/shop/CarList.jsx:66-75 | a price passes a range other than "all" only when the range parses and the price reaches its lower bound |
| Listing.WithFacet | src/components/shop/CarList.jsx:80-85 | the named facet gets the new value and the other three keep theirs |
| Listing.TextSearchIgnoresCase | src/components/shop/CarList.jsx:40-47 | a term and its lower-cased form find the same vehicles, the raw-term year match included |
| Listing.DigitsNeedleIsLowerCase | src/components/shop/CarList.jsx:45 | whatever is found in a year numeral is digits, so lower-casing leaves it unchanged |
| Listing.UpperCaseFacetMatchesNothing | src/components/shop/CarList.jsx:51-65 | a facet value with an upper-case letter matches no vehicle, because only the vehicle's field is lower-cased |
| Listing.DashIndex | src/components/shop/CarList.jsx:67 | finds the first '-' of the range string, or reports that there is none |
| Listing.PriceRangeRoundTrip | src/components/shop/CarList.jsx:67 | parsing a printed "min-max" or "min" option gives the bounds back |
| Listing.FormattedRangeIsNotAll | src/components/shop/CarList.jsx:66 | no price option collides with the "all" sentinel |
| Listing.ClosedPriceRange | src/components/shop/CarList.jsx:66-75 | "min-max" with a non-zero max keeps exactly the prices with min <= price <= max |
| Listing.OpenPriceRange | src/components/shop/CarList.jsx:66-75 | "min" keeps exactly the prices >= min |
| Listing.ZeroUpperBoundIsOpen | src/components/shop/CarList.jsx:69-73 | an upper bound of 0 is falsy, so "min-0" keeps every price >= min |
| Listing.OptionNumerals | src/components/shop/CarList.jsx:247-250 | the numerals of the option bounds print as written in the options |
| Listing.MidRangeOptionBoundaries | src/components/shop/CarList.jsx:248 | "60000-80000" keeps 60000 and 80000 and drops 59999 and 80001 |
| Listing.AdjacentOptionsShareBoundary | src/components/shop/CarList.jsx:247-249 | a price of exactly 60000 passes both "0-60000" and "60000-80000" |
| Listing.TopOptionIsOpen | src/components/shop/CarList.jsx:250 | "100000" keeps exactly the prices from 100000 up |
| Listing.Search | src/components/shop/CarList.jsx:36-78 | the list shown is an order-preserving subsequence of the catalogue, and holds exactly the vehicles that pass every active pass |
| Listing.ApplyFilters | src/components/shop/CarList.jsx:36-78 | the five successive, individually guarded passes compute the single-pass conjunction `Search` |
| Listing.NoFiltersKeepsAll | src/components/shop/CarList.jsx:37-66 | with an empty term and every facet "all", the list is the catalogue itself, in order |
| Listing.PassOrderIrrelevant | src/components/shop/CarList.jsx:51-75 | running the passes in reverse order selects the same list |
| Listing.ExampleFuelQuery | src/components/shop/CarList.jsx:56-60 | in a two-car catalogue the "electric" facet keeps the electric car and drops the petrol one |
| Listing.ExamplePriceQuery | src/components/shop/CarList.jsx:66-75 | "60000-80000" keeps a car priced inside the range and drops one under 60000 |
| Listing.ExampleFacetConjunction | src/components/shop/CarList.jsx:51-60 | "suv" and "electric" together keep neither an electric sedan nor a petrol SUV |
| Listing.CarList.constructor | src/components/shop/CarList.jsx:18-25 | mount state: empty term, every facet "all", the whole catalogue shown |
| Listing.CarList.Refresh | src/components/shop/CarList.jsx:36-78 | the effect re-establishes that the list shown is `Search` of the current term and facets |
| Listing.CarList.SetSearchTerm | src/components/shop/CarList.jsx:129 | typing sets the term, keeps the facets and refreshes the list |
| Listing.CarList.HandleFilterChange | src/components/shop/CarList.jsx:80-85 | one facet changes, the term and other facets stay, and the list is refreshed |
| Listing.CarList.ClearFilters | src/components/shop/CarList.jsx:87-95 | every facet goes back to "all", the term is emptied and the whole catalogue is shown |
| Detail.Related | src/components/shop/CarDetail.jsx:46-51 | the strip is the first min(3, others) catalogue vehicles whose id differs from the current one, in catalogue order |
| Detail.PrefixIsSubsequence | src/components/shop/CarDetail.jsx:50 | cutting the filtered list short with `slice` keeps it a subsequence of the catalogue |
| Detail.RelatedOfListedVehicle | src/components/shop/CarDetail.jsx:46-51 | with unique ids and the current vehicle listed, the strip has min(3, N-1) vehicles and never the current one |
| Detail.RelatedOfUnlistedId | src/components/shop/CarDetail.jsx:46-51 | an id absent from the catalogue leaves the strip as the catalogue's first three vehicles |
| Detail.NextIndex | src/components/shop/CarDetail.jsx:65-67 | an in-range index stays in range, and the index wraps to 0 exactly from the last image |
| Detail.PrevIndex | src/components/shop/CarDetail.jsx:73-75 | an in-range index stays in range, and the index wraps to the last image exactly from 0 |
| Detail.StepsAreModular | src/components/shop/CarDetail.jsx:63-77 | on an index in range, next is (i+1) mod n, previous is (i-1+n) mod n, and both stay in range |
| Detail.PrevUndoesNext | src/components/shop/CarDetail.jsx:63-77 | previous after next, and next after previous, restore the index |
| Detail.AdvanceWraps | src/components/shop/CarDetail.jsx:63-69 | up to n presses of next move the index that many places, wrapping past the last image |
| Detail.FullTurn | src/components/shop/CarDetail.jsx:63-69 | n presses of next return to the starting image |
| Detail.CarDetail.constructor | src/components/shop/CarDetail.jsx:24-28 | mount state: no vehicle, index 0, empty strip, loading, no error |
| Detail.CarDetail.Load | src/components/shop/CarDetail.jsx:30-61 | a miss sets "Vehicle not found" and leaves vehicle, strip and index untouched; a hit clears the error, sets the vehicle, resets the index to 0 and refreshes the strip when the catalogue is non-empty; loading ends false |
| Detail.CarDetail.NextImage | src/components/shop/CarDetail.jsx:63-69 | with more than one image the index steps forward with wrap-around, otherwise it stays; an in-range index stays in range |
| Detail.CarDetail.PrevImage | src/components/shop/CarDetail.jsx:71-77 | with more than one image the index steps back with wrap-around, otherwise it stays; an in-range index stays in range |
| Detail.CarDetail.HandleImageIndicatorClick | src/components/shop/CarDetail.jsx:117-119 | the index becomes exactly the clicked indicator's, which keeps it in range because indicators exist only for image indices (lines 242-245) |

## Left out

- Rendering, styling and animation (JSX, Tailwind classes, framer-motion variants): presentation, not behaviour.
- Routing and navigation (`useNavigate`, `navigate(-1)`, the route table): library plumbing.
- Sharing, clipboard, `tel:`/`mailto:` links and image `onError` fallbacks: browser I/O and DOM events.
- The `catch` branch of the load effect ("Error loading vehicle data"): it is triggered only by exceptions thrown inside the dataset module, which is not part of this model.
- `getCarById`: only its result enters the model, so nothing is stated about how a lookup finds a record.
- React scheduling: each effect is one synchronous recompute at the end of the handler that changes its inputs. The intermediate `setIsLoading(true)` / `setError(null)` of the load step are performed but not observable.
- Vehicle fields used only for display (`priceDisplay`, `mileage`, `specs`, `features`, `description`) and the grid/list view mode and filter-panel toggle.
- Listing.ParsePriceRange: only "min" and "min-max" with non-empty digit-string bounds are parsed, and for those it agrees with `split("-").map(Number)`. Every other string (except "all") is treated like a `NaN` lower bound, so the pass drops every vehicle. JavaScript agrees with that only when the text before the first '-' is non-empty, not blank and not a number as `Number` reads it. It differs when that text is empty or blank (`Number` reads 0: "-" and " " keep every vehicle, "-70000" keeps prices up to 70000), when it is a number the model does not parse ("60000.5", "1e5", " 60000"), when the upper bound is not a digit string ("60000-abc" and "100000-" keep every price from the lower bound up, because `NaN` and 0 are falsy), and when there are further dashes ("1-2-3" reads as 1 to 2).
- Listing.CarList.HandleFilterChange: the facet name is one of the four the page passes. An arbitrary property name, which JavaScript would add to the filter object without effect on the list, is not representable.
- Text.Lower: case folding covers ASCII letters only, not the full Unicode `toLowerCase`.
- Vehicles.Vehicle: `year` and `price` are natural numbers. Negative or fractional years and prices, and `images` being absent rather than empty, are not modelled.
