/** The plain listings page: the typed search text, the applied one, and the
    listings whose city contains the applied text. */
module ListingsPage {
  import Strings
  import Seqs
  import ResultsPage

  /** `listings.filter(l => l.city?.toLowerCase().includes(appliedWhere.toLowerCase()))`. */
  function Filtered(listings: seq<ResultsPage.Card>, applied: string): (r: seq<ResultsPage.Card>) {
    Seqs.Filter(listings, (l: ResultsPage.Card) => ResultsPage.FieldHas(l.city, Strings.Lower(applied)))
  }

  /** The page keeps exactly the listings whose lower-cased city contains the
      lower-cased applied text, in their order, adding nothing. */
  lemma FilteredSpec(listings: seq<ResultsPage.Card>, applied: string)
    ensures forall l :: l in Filtered(listings, applied) <==>
      l in listings && l.city.Some? && Strings.Contains(Strings.Lower(l.city.value), Strings.Lower(applied))
    ensures Seqs.Subsequence(Filtered(listings, applied), listings)
  {
    Seqs.FilterIsSubsequence(listings, (l: ResultsPage.Card) => ResultsPage.FieldHas(l.city, Strings.Lower(applied)));
  }

  /** An empty applied text keeps every listing that has a city, and only those. */
  lemma EmptyQueryKeepsCities(listings: seq<ResultsPage.Card>)
    ensures forall l :: l in Filtered(listings, "") <==> l in listings && l.city.Some?
  {
    forall l | l in listings && l.city.Some?
      ensures l in Filtered(listings, "")
    {
      assert Strings.StartsWith(Strings.Lower(l.city.value), Strings.Lower(""));
    }
  }

  class SearchView {
    var where: string
    var appliedWhere: string

    /** Both texts start from the `where` query parameter. */
    constructor (initial: string)
      ensures where == initial && appliedWhere == initial
    {
      where := initial;
      appliedWhere := initial;
    }

    /** Typing changes only the typed text; the shown listings stay. */
    method Type(text: string)
      modifies this
      ensures where == text && appliedWhere == old(appliedWhere)
    {
      where := text;
    }

    /** `handleSearch`: the typed text becomes the applied one. */
    method HandleSearch()
      modifies this
      ensures appliedWhere == old(where) && where == old(where)
    {
      appliedWhere := where;
    }

    /** The listings shown for the applied text. */
    function Shown(listings: seq<ResultsPage.Card>): seq<ResultsPage.Card>
      reads this
    {
      Filtered(listings, appliedWhere)
    }
  }
}
