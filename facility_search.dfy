/** The facility search of the dashboard's landing page: a case-insensitive substring match of
    the query against a facility's name, its type and each of its sports. */
module FacilitySearch {
  import opened Types
  import opened Seqs
  import opened Text
  import opened Catalog

  /** One facility against an already lower-cased query. */
  predicate MatchesQuery(f: Facility, lowerQuery: string) {
    || Contains(ToLower(f.name), lowerQuery)
    || Contains(ToLower(TypeName(f.kind)), lowerQuery)
    || exists k :: 0 <= k < |f.sports| && Contains(ToLower(f.sports[k]), lowerQuery)
  }

  /** The facilities matching a lower-cased query, in catalog order. */
  function Matching(facilities: seq<Facility>, lowerQuery: string): (r: seq<Facility>)
    ensures forall f :: f in r <==> f in facilities && MatchesQuery(f, lowerQuery)
    ensures IsSublist(r, facilities)
  {
    Filter(facilities, (f: Facility) => MatchesQuery(f, lowerQuery))
  }

  /** `filteredFacilities`: the whole catalog for an empty query, otherwise the matching facilities. */
  function FilteredFacilities(facilities: seq<Facility>, searchQuery: string): (r: seq<Facility>)
    ensures searchQuery == "" ==> r == facilities
    ensures searchQuery != "" ==> forall f :: f in r <==> f in facilities && MatchesQuery(f, ToLower(searchQuery))
    ensures IsSublist(r, facilities)
  {
    var lowercasedQuery := ToLower(searchQuery);
    if lowercasedQuery == "" then (SublistRefl(facilities); facilities)
    else Matching(facilities, lowercasedQuery)
  }

  /** The query's letter case does not matter: upper-casing or lower-casing it gives the same results. */
  lemma SearchIgnoresCase(facilities: seq<Facility>, searchQuery: string)
    ensures FilteredFacilities(facilities, ToUpper(searchQuery)) == FilteredFacilities(facilities, searchQuery)
    ensures FilteredFacilities(facilities, ToLower(searchQuery)) == FilteredFacilities(facilities, searchQuery)
  {
    LowerOfUpper(searchQuery);
  }

  /** A facility matching a query also matches every part of it. */
  lemma MatchNarrows(f: Facility, longer: string, shorter: string)
    requires Contains(longer, shorter)
    requires MatchesQuery(f, ToLower(longer))
    ensures MatchesQuery(f, ToLower(shorter))
  {
    ContainsLower(longer, shorter);
    if Contains(ToLower(f.name), ToLower(longer)) {
      ContainsTrans(ToLower(f.name), ToLower(longer), ToLower(shorter));
    } else if Contains(ToLower(TypeName(f.kind)), ToLower(longer)) {
      ContainsTrans(ToLower(TypeName(f.kind)), ToLower(longer), ToLower(shorter));
    } else {
      var k :| 0 <= k < |f.sports| && Contains(ToLower(f.sports[k]), ToLower(longer));
      ContainsTrans(ToLower(f.sports[k]), ToLower(longer), ToLower(shorter));
    }
  }

  /** Typing more only narrows the results: everything a longer query finds, any part of it finds too. */
  lemma SearchNarrows(facilities: seq<Facility>, longer: string, shorter: string)
    requires Contains(longer, shorter)
    ensures forall f :: f in FilteredFacilities(facilities, longer) ==> f in FilteredFacilities(facilities, shorter)
  {
    forall f | f in FilteredFacilities(facilities, longer)
      ensures f in FilteredFacilities(facilities, shorter)
    {
      if longer != "" && shorter != "" {
        MatchNarrows(f, longer, shorter);
      }
    }
  }
}
