/** The static facility catalog and lookups into a catalog. */
module Catalog {
  import opened Wrappers
  import opened Types
  import opened Seqs

  /** The shipped catalog. No entry sets `minPlayers` or `maxPlayers`. */
  const Facilities: seq<Facility> := [
    Facility("1", "Main Football Ground", Outdoor, ["Football"], "football-field", Available, None, None),
    Facility("2", "Basketball Court A", Outdoor, ["Basketball"], "basketball-court", Available, None, None),
    Facility("3", "Tennis Court 1", Outdoor, ["Tennis"], "tennis-court", Maintenance, None, None),
    Facility("4", "Olympic Swimming Pool", Aquatic, ["Swimming"], "swimming-pool", Available, None, None),
    Facility("5", "Indoor Badminton Court", Indoor, ["Badminton"], "badminton-court", Closed, None, None),
    Facility("6", "College Gymnasium", Gym, ["Workout", "Fitness"], "gymnasium", Available, None, None),
    Facility("7", "Volleyball Court", Outdoor, ["Volleyball"], "volleyball-court", Available, None, None),
    Facility("8", "Table Tennis Hall", Indoor, ["Table Tennis"], "table-tennis", Available, None, None)
  ]

  /** `facilities.find(f => f.id === id)`: the first facility with that id, if any. */
  function FindFacility(catalog: seq<Facility>, id: string): (r: Option<Facility>)
    ensures r.Some? ==> r.value in catalog && r.value.id == id
    ensures r.None? <==> forall f :: f in catalog ==> f.id != id
    ensures r.Some? ==> exists k :: 0 <= k < |catalog| && catalog[k] == r.value
                          && forall j :: 0 <= j < k ==> catalog[j].id != id
  {
    Find(catalog, (f: Facility) => f.id == id)
  }

  /** Eight entries with the ids "1" to "8" in order, hence pairwise distinct. */
  lemma CatalogIds()
    ensures |Facilities| == 8
    ensures forall k :: 0 <= k < 8 ==> Facilities[k].id == [('1' as int + k) as char]
    ensures forall i, j :: 0 <= i < j < |Facilities| ==> Facilities[i].id != Facilities[j].id
  {
  }

  /** Every entry lists a sport; only facility "6" lists two. */
  lemma CatalogSports()
    ensures forall f :: f in Facilities ==> |f.sports| >= 1
    ensures forall f :: f in Facilities ==> (|f.sports| == 2 <==> f.id == "6")
    ensures forall f :: f in Facilities ==> |f.sports| <= 2
  {
  }

  /** Facilities 3 and 5 are out of service; every other one is available. */
  lemma CatalogStatuses()
    ensures forall f :: f in Facilities ==>
      (f.status == Maintenance <==> f.id == "3") &&
      (f.status == Closed <==> f.id == "5") &&
      (f.status == Available <==> f.id !in {"3", "5"})
  {
  }

  /** No catalog entry defines a player bound. */
  lemma CatalogHasNoPlayerBounds()
    ensures forall f :: f in Facilities ==> f.minPlayers.None? && f.maxPlayers.None?
  {
  }
}
