/** The hub-location context: a fixed list of regions and the selected hub. */
module HubLocation {
  import opened Common

  datatype RegionLocation = RegionLocation(regionName: string, coordinateCenter: LatLng)

  /** The regions the provider starts with (and keeps: their state has no setter). */
  const InitialHubLocations: seq<RegionLocation> :=
    [RegionLocation("Arusha", LatLng(-3.3721577222131813, 36.694529011016684))]

  /** Position `i` holds the first region named `name`. */
  ghost predicate FirstMatchAt(regions: seq<RegionLocation>, name: string, i: int)
  {
    && 0 <= i < |regions|
    && regions[i].regionName == name
    && forall j :: 0 <= j < i ==> regions[j].regionName != name
  }

  /** `regions.find(l => l.regionName === name)`: the first region with that name. */
  function Find(regions: seq<RegionLocation>, name: string): (r: Option<RegionLocation>)
    ensures r.None? <==> forall i :: 0 <= i < |regions| ==> regions[i].regionName != name
    ensures r.Some? ==> exists i :: FirstMatchAt(regions, name, i) && regions[i] == r.value
  {
    if |regions| == 0 then None
    else if regions[0].regionName == name then Some(regions[0])
    else
      var rest := Find(regions[1..], name);
      if rest.Some? then
        ghost var k :| FirstMatchAt(regions[1..], name, k) && regions[1..][k] == rest.value;
        assert FirstMatchAt(regions, name, k + 1);
        rest
      else
        rest
  }

  class HubLocations {
    const regionLocations: seq<RegionLocation>
    var selectedHub: Option<RegionLocation>

    /** The selected hub, when there is one, is one of the regions. */
    ghost predicate Valid()
      reads this
    {
      selectedHub.Some? ==> selectedHub.value in regionLocations
    }

    constructor ()
      ensures Valid()
      ensures regionLocations == InitialHubLocations && selectedHub == None
    {
      regionLocations := InitialHubLocations;
      selectedHub := None;
    }

    /** `selectHub(name)`: selects the first region of that name; an unknown
        name (which only logs a warning) leaves the selection as it was. */
    method SelectHub(name: string)
      requires Valid()
      modifies this
      ensures Valid()
      ensures Find(regionLocations, name).Some? ==> selectedHub == Find(regionLocations, name)
      ensures Find(regionLocations, name).None? ==> selectedHub == old(selectedHub)
    {
      var hub := Find(regionLocations, name);
      if hub.Some? {
        selectedHub := hub;
      }
    }
  }

  /** Selecting "Arusha" in the initial provider selects its only region, and
      any other name selects nothing. */
  lemma InitialFind(name: string)
    ensures Find(InitialHubLocations, "Arusha") == Some(InitialHubLocations[0])
    ensures name != "Arusha" ==> Find(InitialHubLocations, name) == None
  {
  }
}
