/** The dashboard's side navigation and its active-link test. */
module DashboardNav {
  import opened Text

  datatype Link = Link(name: string, href: string)

  const Home := "/dashboard"

  /** The navigation entries, in display order. */
  const Links: seq<Link> := [
    Link("Facilities", Home),
    Link("My Bookings", "/dashboard/bookings"),
    Link("Interest Hub", "/dashboard/hub"),
    Link("My Teams", "/dashboard/teams"),
    Link("My Profile", "/dashboard/profile")
  ]

  /** A link is highlighted when the path starts with its target; the home link only on the exact path. */
  predicate IsActive(pathname: string, href: string) {
    StartsWith(pathname, href) && (href != Home || pathname == Home)
  }

  /** The home link is highlighted exactly on "/dashboard", every other link on any path below its target. */
  lemma ActiveMeaning(pathname: string)
    ensures IsActive(pathname, Links[0].href) <==> pathname == Home
    ensures forall k :: 1 <= k < |Links| ==> (IsActive(pathname, Links[k].href) <==> Links[k].href <= pathname)
  {
  }

  /** The targets below the home target, which differ from each other at their twelfth character. */
  lemma SectionHrefsDiffer(i: int, j: int)
    requires 1 <= i < |Links| && 1 <= j < |Links| && i != j
    ensures |Links[i].href| > 11 && |Links[j].href| > 11
    ensures Links[i].href[11] != Links[j].href[11]
  {
  }

  /** On any path at most one link is highlighted. */
  lemma AtMostOneActive(pathname: string, i: int, j: int)
    requires 0 <= i < |Links| && 0 <= j < |Links|
    requires IsActive(pathname, Links[i].href) && IsActive(pathname, Links[j].href)
    ensures i == j
  {
    if i != j && i != 0 && j != 0 {
      SectionHrefsDiffer(i, j);
    }
  }

  /** Outside the dashboard nothing is highlighted. */
  lemma OutsideDashboardNoneActive(pathname: string)
    requires !StartsWith(pathname, Home)
    ensures forall k :: 0 <= k < |Links| ==> !IsActive(pathname, Links[k].href)
  {
    forall k | 0 <= k < |Links| ensures !IsActive(pathname, Links[k].href) {
      assert Home <= Links[k].href;
    }
  }

  /** A team's page highlights My Teams, and since the test does not stop at a path segment, so does
      any path that merely extends a target's text. */
  lemma ActiveExamples()
    ensures IsActive("/dashboard/teams/t1", Links[3].href)
    ensures IsActive("/dashboard/hubbub", Links[2].href)
    ensures !IsActive("/dashboard/hub", Links[0].href)
  {
  }
}
