/** The Interest Hub page: the sport filter's options and the posts shown under a filter. */
module InterestHub {
  import opened Types
  import opened Seqs
  import opened Catalog

  /** `facilities.flatMap(f => f.sports)`. */
  function AllSports(catalog: seq<Facility>): (r: seq<string>)
    ensures forall s :: s in r <==> exists f :: f in catalog && s in f.sports
  {
    if catalog == [] then [] else catalog[0].sports + AllSports(catalog[1..])
  }

  /** `Array.from(new Set(...))`: every sport some facility offers, once each, in first-seen order. */
  function AvailableSports(catalog: seq<Facility>): (r: seq<string>)
    ensures NoDup(r)
    ensures forall s :: s in r <==> exists f :: f in catalog && s in f.sports
  {
    Distinct(AllSports(catalog))
  }

  /** The shipped sports, in catalog order. */
  const ShippedSportList: seq<string> :=
    ["Football", "Basketball", "Tennis", "Swimming", "Badminton", "Workout", "Fitness", "Volleyball", "Table Tennis"]

  lemma ShippedSportsFlattened()
    ensures AllSports(Facilities) == ShippedSportList
  {
    var fs := Facilities;
    assert AllSports(fs[7..]) == ["Table Tennis"];
    assert AllSports(fs[6..]) == ["Volleyball", "Table Tennis"];
    assert AllSports(fs[5..]) == ["Workout", "Fitness"] + AllSports(fs[6..]);
    assert AllSports(fs[4..]) == ["Badminton"] + AllSports(fs[5..]);
    assert AllSports(fs[3..]) == ["Swimming"] + AllSports(fs[4..]);
    assert AllSports(fs[2..]) == ["Tennis"] + AllSports(fs[3..]);
    assert AllSports(fs[1..]) == ["Basketball"] + AllSports(fs[2..]);
  }

  lemma ShippedSportsDistinct()
    ensures NoDup(ShippedSportList)
  {
    var ss := ShippedSportList;
    forall i, j | 0 <= i < j < |ss| ensures ss[i] != ss[j] {
      assert ss[i][0] != ss[j][0] || |ss[i]| != |ss[j]|;
    }
  }

  /** The shipped catalog offers these nine sports as filter options, in catalog order. */
  lemma ShippedSports()
    ensures AvailableSports(Facilities) == ShippedSportList
  {
    ShippedSportsFlattened();
    ShippedSportsDistinct();
    DistinctOfNoDup(ShippedSportList);
  }

  /** The option that shows every post. */
  const AllFilter := "all"

  /** `filteredPosts`: every post under "all", otherwise the posts of exactly that sport, in feed order. */
  function FilteredPosts(posts: seq<InterestHubPost>, sportFilter: string): (r: seq<InterestHubPost>)
    ensures sportFilter == AllFilter ==> r == posts
    ensures sportFilter != AllFilter ==> forall p :: p in r <==> p in posts && p.sport == sportFilter
    ensures IsSublist(r, posts)
  {
    if sportFilter == AllFilter then (SublistRefl(posts); posts)
    else Filter(posts, (p: InterestHubPost) => p.sport == sportFilter)
  }

  /** The feed order, `createdAt` descending. */
  predicate NewerFirst(a: InterestHubPost, b: InterestHubPost) {
    a.createdAt >= b.createdAt
  }

  /** Filtering keeps the feed's newest-first order. */
  lemma FilterKeepsFeedOrder(posts: seq<InterestHubPost>, sportFilter: string)
    requires Ordered(posts, NewerFirst)
    ensures Ordered(FilteredPosts(posts, sportFilter), NewerFirst)
  {
    SublistKeepsOrder(FilteredPosts(posts, sportFilter), posts, NewerFirst);
  }

  /** A post whose sport no facility offers (such as the "Game" fallback) is shown under "all" and
      under no option of the sport filter. */
  lemma UnlistedSportOnlyUnderAll(catalog: seq<Facility>, posts: seq<InterestHubPost>, p: InterestHubPost, option: string)
    requires p in posts
    requires forall f :: f in catalog ==> p.sport !in f.sports
    requires option in AvailableSports(catalog)
    ensures p in FilteredPosts(posts, AllFilter)
    ensures option != AllFilter ==> p !in FilteredPosts(posts, option)
  {
  }
}
