/** Picking the matching locations of a region and the regions that have
    any, for one of the two pipelines. */
module Scan {
  import opened World
  import opened Tables

  /** Which pipeline is scanning: dungeons or settlements. */
  datatype Category = Dungeons | Settlements

  predicate Matches(c: Category, t: LocationType)
  {
    match c
    case Dungeons => IsDungeonLocationType(t)
    case Settlements => IsCityLocationType(t)
  }

  predicate StrictlyAscending(s: seq<nat>)
  {
    forall i, j :: 0 <= i < j < |s| ==> s[i] < s[j]
  }

  lemma AppendKeepsAscending(s: seq<nat>, k: nat)
    requires StrictlyAscending(s)
    requires forall x :: x in s ==> x < k
    ensures StrictlyAscending(s + [k])
  {
    assert forall i :: 0 <= i < |s| ==> s[i] in s;
  }

  /** The positions of the elements satisfying f, in order. */
  function Positions<T>(xs: seq<T>, f: T -> bool): (r: seq<nat>)
    ensures forall j :: 0 <= j < |r| ==> r[j] < |xs|
  {
    if xs == [] then []
    else
      var k := |xs| - 1;
      Positions(xs[..k], f) + (if f(xs[k]) then [k] else [])
  }

  /** The positions are ascending, and are exactly those of the elements
      satisfying f. */
  lemma {:induction false} PositionsExact<T>(xs: seq<T>, f: T -> bool)
    ensures StrictlyAscending(Positions(xs, f))
    ensures forall i :: 0 <= i < |xs| ==> (i in Positions(xs, f) <==> f(xs[i]))
  {
    if xs != [] {
      var k := |xs| - 1;
      var before := Positions(xs[..k], f);
      PositionsExact(xs[..k], f);
      assert forall i :: 0 <= i < k ==> xs[..k][i] == xs[i];
      AppendSelected(before, k, f(xs[k]));
    }
  }

  /** The indices of the locations whose type matches the category, in order. */
  function MatchingIndices(locs: seq<Location>, c: Category): (r: seq<nat>)
    ensures forall j :: 0 <= j < |r| ==> r[j] < |locs|
  {
    Positions(locs, (l: Location) => Matches(c, l.locationType))
  }

  /** The matching indices are ascending, in range, and are exactly the
      indices of the matching locations. */
  lemma MatchingIndicesExact(locs: seq<Location>, c: Category)
    ensures StrictlyAscending(MatchingIndices(locs, c))
    ensures forall i :: i in MatchingIndices(locs, c) ==> i < |locs|
    ensures forall i :: 0 <= i < |locs| ==> (i in MatchingIndices(locs, c) <==> Matches(c, locs[i].locationType))
  {
    PositionsExact(locs, (l: Location) => Matches(c, l.locationType));
  }

  /** No location index is picked by both pipelines. */
  lemma NoLocationInBothPipelines(locs: seq<Location>, i: nat)
    ensures !(i in MatchingIndices(locs, Dungeons) && i in MatchingIndices(locs, Settlements))
  {
    MatchingIndicesExact(locs, Dungeons);
    MatchingIndicesExact(locs, Settlements);
    if i < |locs| {
      ClassifiersDisjoint(locs[i].locationType);
    }
  }

  lemma MatchingIndicesStep(locs: seq<Location>, c: Category, i: nat)
    requires i < |locs|
    ensures MatchingIndices(locs[..i + 1], c)
      == MatchingIndices(locs[..i], c) + (if Matches(c, locs[i].locationType) then [i] else [])
  {
    assert locs[..i + 1][..i] == locs[..i];
  }

  /** The filter loop shared by both collectors. */
  method CollectIndicesOfType(region: Region, c: Category) returns (found: seq<nat>)
    ensures found == MatchingIndices(region.locations, c)
  {
    found := [];
    for i := 0 to region.LocationCount()
      invariant found == MatchingIndices(region.locations[..i], c)
    {
      MatchingIndicesStep(region.locations, c, i);
      if !Matches(c, region.locations[i].locationType) {
        continue;
      }
      found := found + [i];
    }
    assert region.locations[..region.LocationCount()] == region.locations;
  }

  /** The indices of a region's dungeons, ascending. */
  method CollectDungeonIndicesOfType(region: Region) returns (found: seq<nat>)
    ensures found == MatchingIndices(region.locations, Dungeons)
    ensures StrictlyAscending(found)
    ensures forall i :: i in found ==> i < region.LocationCount()
    ensures forall i :: 0 <= i < region.LocationCount() ==>
              (i in found <==> IsDungeonLocationType(region.locations[i].locationType))
  {
    found := CollectIndicesOfType(region, Dungeons);
    MatchingIndicesExact(region.locations, Dungeons);
  }

  /** The indices of a region's settlements, ascending. */
  method CollectCityIndicesOfType(region: Region) returns (found: seq<nat>)
    ensures found == MatchingIndices(region.locations, Settlements)
    ensures StrictlyAscending(found)
    ensures forall i :: i in found ==> i < region.LocationCount()
    ensures forall i :: 0 <= i < region.LocationCount() ==>
              (i in found <==> IsCityLocationType(region.locations[i].locationType))
  {
    found := CollectIndicesOfType(region, Settlements);
    MatchingIndicesExact(region.locations, Settlements);
  }

  /** A region gets a report when it has locations and some of them match. */
  predicate RegionSelected(region: Region, c: Category)
  {
    region.LocationCount() > 0 && |MatchingIndices(region.locations, c)| > 0
  }

  /** The selected regions among the first n of the catalogue, in order. */
  function SelectedRegions(catalogue: seq<Region>, c: Category, n: nat): (r: seq<nat>)
    requires n <= |catalogue|
    ensures forall j :: 0 <= j < |r| ==> r[j] < n
  {
    Positions(catalogue[..n], (region: Region) => RegionSelected(region, c))
  }

  /** The selected regions are ascending, below n, and exactly those with
      locations and a match. */
  lemma SelectedRegionsExact(catalogue: seq<Region>, c: Category, n: nat)
    requires n <= |catalogue|
    ensures StrictlyAscending(SelectedRegions(catalogue, c, n))
    ensures forall p :: p in SelectedRegions(catalogue, c, n) ==> p < n
    ensures forall p :: 0 <= p < n ==> (p in SelectedRegions(catalogue, c, n) <==> RegionSelected(catalogue[p], c))
  {
    PositionsExact(catalogue[..n], (region: Region) => RegionSelected(region, c));
  }

  /** One step of the scan: region k is appended when selected. */
  lemma AppendSelected(before: seq<nat>, k: nat, here: bool)
    requires StrictlyAscending(before)
    requires forall p :: p in before ==> p < k
    ensures StrictlyAscending(before + if here then [k] else [])
    ensures forall p :: p in (before + if here then [k] else []) <==> p in before || (here && p == k)
  {
    if here {
      AppendKeepsAscending(before, k);
    } else {
      assert before + [] == before;
    }
  }

  /** The location-count test is implied by the match test: a region without
      locations has no matches, and so never gets a report. */
  lemma RegionSelectedIffMatches(region: Region, c: Category)
    ensures RegionSelected(region, c) <==> MatchingIndices(region.locations, c) != []
    ensures region.LocationCount() == 0 ==> !RegionSelected(region, c)
  {
    MatchingIndicesExact(region.locations, c);
    if MatchingIndices(region.locations, c) != [] {
      assert MatchingIndices(region.locations, c)[0] in MatchingIndices(region.locations, c);
    }
  }

  /** One step of the region scan extends the selection by region p when,
      and only when, it is selected. */
  lemma SelectedRegionsStep(catalogue: seq<Region>, c: Category, p: nat)
    requires p < |catalogue|
    ensures SelectedRegions(catalogue, c, p + 1)
      == SelectedRegions(catalogue, c, p) + (if RegionSelected(catalogue[p], c) then [p] else [])
  {
    assert catalogue[..p + 1][..p] == catalogue[..p];
  }

  /** The tests of one region in the scan: skipped when it has no
      locations or no match, else its matching indices, collected by the
      pipeline's own collector. */
  method ScanRegion(region: Region, c: Category) returns (found: Option<seq<nat>>)
    ensures found.Some? <==> RegionSelected(region, c)
    ensures found.Some? ==> found.value == MatchingIndices(region.locations, c)
  {
    if region.LocationCount() <= 0 {
      return None;
    }
    var indices;
    match c {
      case Dungeons => indices := CollectDungeonIndicesOfType(region);
      case Settlements => indices := CollectCityIndicesOfType(region);
    }
    if |indices| == 0 {
      return None;
    }
    return Some(indices);
  }

  /** The dictionary the scan builds: each listed region mapped to its
      matching location indices. */
  function GrabBag(catalogue: seq<Region>, c: Category, regions: seq<nat>): map<nat, seq<nat>>
    requires forall j :: 0 <= j < |regions| ==> regions[j] < |catalogue|
  {
    if regions == [] then map[]
    else
      var k := |regions| - 1;
      GrabBag(catalogue, c, regions[..k])[regions[k] := MatchingIndices(catalogue[regions[k]].locations, c)]
  }

  lemma GrabBagStep(catalogue: seq<Region>, c: Category, regions: seq<nat>, p: nat)
    requires forall j :: 0 <= j < |regions| ==> regions[j] < |catalogue|
    requires p < |catalogue|
    ensures GrabBag(catalogue, c, regions + [p]) == GrabBag(catalogue, c, regions)[p := MatchingIndices(catalogue[p].locations, c)]
  {
    assert (regions + [p])[..|regions|] == regions;
  }

  /** The dictionary's keys are exactly the listed regions, each mapped to
      its matching location indices. */
  lemma {:induction false} GrabBagExact(catalogue: seq<Region>, c: Category, regions: seq<nat>)
    requires forall j :: 0 <= j < |regions| ==> regions[j] < |catalogue|
    ensures forall p :: p in GrabBag(catalogue, c, regions) <==> p in regions
    ensures forall p :: p in GrabBag(catalogue, c, regions) ==>
              p < |catalogue| && GrabBag(catalogue, c, regions)[p] == MatchingIndices(catalogue[p].locations, c)
  {
    if regions != [] {
      var k := |regions| - 1;
      GrabBagExact(catalogue, c, regions[..k]);
      assert regions == regions[..k] + [regions[k]];
    }
  }

  /** Looking up the n-th listed region. */
  lemma GrabBagLookup(catalogue: seq<Region>, c: Category, regions: seq<nat>, n: nat)
    requires forall j :: 0 <= j < |regions| ==> regions[j] < |catalogue|
    requires n < |regions|
    ensures regions[n] in GrabBag(catalogue, c, regions)
    ensures GrabBag(catalogue, c, regions)[regions[n]] == MatchingIndices(catalogue[regions[n]].locations, c)
  {
    GrabBagExact(catalogue, c, regions);
    assert regions[n] in regions;
  }

  /** The scan over regions 0 .. 61: the ordered list of regions to report,
      and the dictionary from each of them to its matching location indices. */
  method ScanRegions(catalogue: seq<Region>, c: Category) returns (valid: seq<nat>, grabBag: map<nat, seq<nat>>)
    requires |catalogue| == RegionCount
    ensures valid == SelectedRegions(catalogue, c, RegionCount)
    ensures grabBag == GrabBag(catalogue, c, valid)
  {
    valid := [];
    grabBag := map[];
    for p := 0 to RegionCount
      invariant valid == SelectedRegions(catalogue, c, p)
      invariant grabBag == GrabBag(catalogue, c, valid)
    {
      SelectedRegionsStep(catalogue, c, p);
      var found := ScanRegion(catalogue[p], c);
      if found.None? {
        continue;
      }
      // Dictionary.Add would throw on a repeated key; p is new.
      assert p !in grabBag by {
        GrabBagExact(catalogue, c, valid);
      }
      GrabBagStep(catalogue, c, valid, p);
      grabBag := grabBag[p := found.value];
      valid := valid + [p];
    }
  }
}
