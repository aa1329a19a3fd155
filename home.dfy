/** The experience list and its search box (src/pages/Home.tsx). */
module Home {
  import opened Seqs
  import opened Text
  import opened Catalog

  /** The experiences whose name contains the search term, ignoring case, in list order. */
  function SearchResults(experiences: seq<Experience>, searchTerm: string): (shown: seq<Experience>)
    ensures forall e :: e in shown ==> e in experiences && Includes(Lower(e.name), Lower(searchTerm))
    ensures forall e :: e in experiences && Includes(Lower(e.name), Lower(searchTerm)) ==> e in shown
    ensures forall e ::
              multiset(shown)[e] ==
              if Includes(Lower(e.name), Lower(searchTerm)) then multiset(experiences)[e] else 0
    ensures IsSubsequence(shown, experiences)
  {
    Filter(experiences, (e: Experience) => Includes(Lower(e.name), Lower(searchTerm)))
  }

  /** The empty term (the initial state) shows every experience. */
  lemma EmptySearchShowsAll(experiences: seq<Experience>)
    ensures SearchResults(experiences, "") == experiences
  {
    forall e | e in experiences ensures Includes(Lower(e.name), Lower("")) {
      assert OccursAt(Lower(e.name), Lower(""), 0);
    }
    FilterKeepsAll(experiences, (e: Experience) => Includes(Lower(e.name), Lower("")));
  }

  /** Upper-casing the term changes nothing. */
  lemma SearchIgnoresCase(experiences: seq<Experience>, searchTerm: string)
    ensures SearchResults(experiences, Upper(searchTerm)) == SearchResults(experiences, searchTerm)
  {
    LowerOfUpper(searchTerm);
    FilterAgrees(experiences,
      (e: Experience) => Includes(Lower(e.name), Lower(Upper(searchTerm))),
      (e: Experience) => Includes(Lower(e.name), Lower(searchTerm)));
  }

  /** Searching the results again for the same term changes nothing. */
  lemma SearchIsIdempotent(experiences: seq<Experience>, searchTerm: string)
    ensures SearchResults(SearchResults(experiences, searchTerm), searchTerm)
         == SearchResults(experiences, searchTerm)
  {
    var shown := SearchResults(experiences, searchTerm);
    FilterKeepsAll(shown, (e: Experience) => Includes(Lower(e.name), Lower(searchTerm)));
  }
}
