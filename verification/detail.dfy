/** The vehicle detail page: loading a vehicle by id, the "related vehicles" strip
    and the image carousel (src/components/shop/CarDetail.jsx). */
module Detail {
  import opened Wrappers
  import opened Seqs
  import opened Vehicles

  /** The message set when the lookup finds nothing. */
  const NotFound: string := "Vehicle not found"

  /** How many related vehicles the page shows at most. */
  const RelatedLimit: nat := 3

  function Min(a: nat, b: nat): nat {
    if a <= b then a else b
  }

  // ---------------------------------------------------------------- related vehicles

  function OtherThan(id: string): Vehicle -> bool {
    (v: Vehicle) => v.id != id
  }

  /** `allCars.filter(v => v.id !== id).slice(0, 3)`. */
  function Related(allCars: seq<Vehicle>, id: string): (r: seq<Vehicle>)
    ensures |r| == Min(RelatedLimit, |Filter(allCars, OtherThan(id))|)
    ensures r == Filter(allCars, OtherThan(id))[..|r|]
    ensures forall v :: v in r ==> v in allCars && v.id != id
    ensures IsSubsequence(r, allCars)
  {
    var others := Filter(allCars, OtherThan(id));
    PrefixIsSubsequence(others, allCars, Min(RelatedLimit, |others|));
    others[..Min(RelatedLimit, |others|)]
  }

  /** Cutting a subsequence short leaves a subsequence. */
  lemma {:induction false} PrefixIsSubsequence<T>(sub: seq<T>, s: seq<T>, n: nat)
    requires IsSubsequence(sub, s) && n <= |sub|
    ensures IsSubsequence(sub[..n], s)
    decreases |s|
  {
    if n > 0 {
      if sub[0] == s[0] && IsSubsequence(sub[1..], s[1..]) {
        PrefixIsSubsequence(sub[1..], s[1..], n - 1);
        assert sub[..n][1..] == sub[1..][..n - 1];
      } else {
        PrefixIsSubsequence(sub, s[1..], n);
      }
    }
  }

  /** In a catalogue with unique ids that contains the current vehicle, the strip
      holds min(3, N - 1) vehicles and never the current one. */
  lemma RelatedOfListedVehicle(allCars: seq<Vehicle>, k: nat)
    requires UniqueIds(allCars) && k < |allCars|
    ensures |Related(allCars, allCars[k].id)| == Min(RelatedLimit, |allCars| - 1)
    ensures allCars[k] !in Related(allCars, allCars[k].id)
  {
    FilterDropsOne(allCars, OtherThan(allCars[k].id), k);
  }

  /** When the current id is not in the catalogue, the strip is simply its first
      three vehicles. */
  lemma RelatedOfUnlistedId(allCars: seq<Vehicle>, id: string)
    requires forall v :: v in allCars ==> v.id != id
    ensures Related(allCars, id) == allCars[..Min(RelatedLimit, |allCars|)]
  {
    FilterKeepsAll(allCars, OtherThan(id));
  }

  // ---------------------------------------------------------------- carousel

  /** The next index: from the last image back to the first. */
  function NextIndex(i: nat, n: nat): (r: nat)
    ensures i < n ==> r < n
    ensures r == 0 <==> i == n - 1
  {
    if i == n - 1 then 0 else i + 1
  }

  /** The previous index: from the first image to the last. */
  function PrevIndex(i: nat, n: nat): (r: nat)
    requires n > 0
    ensures i < n ==> r < n
    ensures i < n ==> (r == n - 1 <==> i == 0)
  {
    if i == 0 then n - 1 else i - 1
  }

  /** On an index in range both moves are steps modulo the image count and stay
      in range. */
  lemma StepsAreModular(i: nat, n: nat)
    requires i < n
    ensures NextIndex(i, n) == (i + 1) % n && NextIndex(i, n) < n
    ensures PrevIndex(i, n) == (i - 1 + n) % n && PrevIndex(i, n) < n
  {
    if i == n - 1 {
      assert (i + 1) % n == 0;
    }
    if i == 0 {
      assert (i - 1 + n) % n == n - 1;
    } else {
      assert (i - 1 + n) % n == i - 1;
    }
  }

  /** "previous" undoes "next" and the reverse. */
  lemma PrevUndoesNext(i: nat, n: nat)
    requires i < n
    ensures PrevIndex(NextIndex(i, n), n) == i
    ensures NextIndex(PrevIndex(i, n), n) == i
  {
  }

  /** The index after `k` presses of "next". */
  function AdvanceBy(i: nat, n: nat, k: nat): nat {
    if k == 0 then i else NextIndex(AdvanceBy(i, n, k - 1), n)
  }

  /** Up to `n` presses of "next" move the index `k` places round the carousel,
      wrapping past the last image. */
  lemma {:induction false} AdvanceWraps(i: nat, n: nat, k: nat)
    requires i < n && k <= n
    ensures AdvanceBy(i, n, k) == if i + k < n then i + k else i + k - n
  {
    if k > 0 {
      AdvanceWraps(i, n, k - 1);
    }
  }

  /** `n` presses of "next" bring the carousel back to the image it started on. */
  lemma FullTurn(i: nat, n: nat)
    requires i < n
    ensures AdvanceBy(i, n, n) == i
  {
    AdvanceWraps(i, n, n);
  }

  // ---------------------------------------------------------------- the component state

  class CarDetail {
    var car: Option<Vehicle>
    var currentImageIndex: nat
    var relatedVehicles: seq<Vehicle>
    var isLoading: bool
    var error: Option<string>

    /** Number of images of the vehicle shown, 0 when none is. */
    function ImageCount(): nat
      reads this
    {
      if car.Some? then |car.value.images| else 0
    }

    /** The carousel points at an existing image whenever there is one. */
    ghost predicate IndexInRange()
      reads this
    {
      ImageCount() > 0 ==> currentImageIndex < ImageCount()
    }

    /** Mount: no vehicle yet, loading. */
    constructor ()
      ensures car == None && currentImageIndex == 0 && relatedVehicles == []
      ensures isLoading && error == None
      ensures IndexInRange()
    {
      car := None;
      currentImageIndex := 0;
      relatedVehicles := [];
      isLoading := true;
      error := None;
    }

    /** The load effect for one route id. `carData` is what the lookup by that id
        returned and `allCars` the catalogue. A miss sets the error and leaves the
        previous vehicle, strip and index as they were; a hit shows the vehicle
        from its first image, and refreshes the strip unless the catalogue is empty. */
    method Load(carData: Option<Vehicle>, allCars: seq<Vehicle>)
      modifies this
      ensures !isLoading
      ensures carData.Some? || old(IndexInRange()) ==> IndexInRange()
      ensures carData.None? ==>
        && error == Some(NotFound)
        && car == old(car)
        && relatedVehicles == old(relatedVehicles)
        && currentImageIndex == old(currentImageIndex)
      ensures carData.Some? ==>
        && error == None
        && car == carData
        && currentImageIndex == 0
        && relatedVehicles ==
             (if |allCars| > 0 then Related(allCars, carData.value.id) else old(relatedVehicles))
    {
      isLoading := true;
      error := None;
      if carData.None? {
        error := Some(NotFound);
        isLoading := false;
        return;
      }
      var found := carData.value;
      car := Some(found);
      if |allCars| > 0 {
        relatedVehicles := Related(allCars, found.id);
      }
      currentImageIndex := 0;
      isLoading := false;
    }

    /** The "next image" button: moves only when there is more than one image. */
    method NextImage()
      modifies this`currentImageIndex
      ensures currentImageIndex ==
        if ImageCount() > 1 then NextIndex(old(currentImageIndex), ImageCount())
        else old(currentImageIndex)
      ensures old(IndexInRange()) ==> IndexInRange()
    {
      if car.Some? && |car.value.images| > 1 {
        var n := |car.value.images|;
        currentImageIndex := if currentImageIndex == n - 1 then 0 else currentImageIndex + 1;
        if old(IndexInRange()) {
          StepsAreModular(old(currentImageIndex), n);
        }
      }
    }

    /** The "previous image" button: moves only when there is more than one image. */
    method PrevImage()
      modifies this`currentImageIndex
      ensures currentImageIndex ==
        if ImageCount() > 1 then PrevIndex(old(currentImageIndex), ImageCount())
        else old(currentImageIndex)
      ensures old(IndexInRange()) ==> IndexInRange()
    {
      if car.Some? && |car.value.images| > 1 {
        var n := |car.value.images|;
        currentImageIndex := if currentImageIndex == 0 then n - 1 else currentImageIndex - 1;
      }
    }

    /** An image indicator: jumps straight to image `index`. Indicators exist only
        for the indices of the images, so the jump stays in range. */
    method HandleImageIndicatorClick(index: nat)
      modifies this`currentImageIndex
      ensures currentImageIndex == index
      ensures index < ImageCount() ==> IndexInRange()
    {
      currentImageIndex := index;
    }
  }
}
