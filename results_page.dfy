/** The search results page: the listings whose city, state or neighbourhood
    matches the applied search text. A Google Maps style text ("Boston, MA, USA")
    is split at its commas, and a full state name also matches the two-letter
    abbreviation stored on a listing. */
module ResultsPage {
  import opened Wrappers
  import Strings
  import Seqs

  /** The fields of a fetched listing the filter reads; each may be missing. */
  datatype Card = Card(id: int, city: Option<string>, state: Option<string>, neighborhood: Option<string>)

  /** The lookup table over the fifty states: a lower-case name or abbreviation to
      the lower-case abbreviation. */
  const StateAbbreviations: map<string, string> := map[
    "alabama" := "al", "al" := "al",
    "alaska" := "ak", "ak" := "ak",
    "arizona" := "az", "az" := "az",
    "arkansas" := "ar", "ar" := "ar",
    "california" := "ca", "ca" := "ca",
    "colorado" := "co", "co" := "co",
    "connecticut" := "ct", "ct" := "ct",
    "delaware" := "de", "de" := "de",
    "florida" := "fl", "fl" := "fl",
    "georgia" := "ga", "ga" := "ga",
    "hawaii" := "hi", "hi" := "hi",
    "idaho" := "id", "id" := "id",
    "illinois" := "il", "il" := "il",
    "indiana" := "in", "in" := "in",
    "iowa" := "ia", "ia" := "ia",
    "kansas" := "ks", "ks" := "ks",
    "kentucky" := "ky", "ky" := "ky",
    "louisiana" := "la", "la" := "la",
    "maine" := "me", "me" := "me",
    "maryland" := "md", "md" := "md",
    "massachusetts" := "ma", "ma" := "ma",
    "michigan" := "mi", "mi" := "mi",
    "minnesota" := "mn", "mn" := "mn",
    "mississippi" := "ms", "ms" := "ms",
    "missouri" := "mo", "mo" := "mo",
    "montana" := "mt", "mt" := "mt",
    "nebraska" := "ne", "ne" := "ne",
    "nevada" := "nv", "nv" := "nv",
    "new hampshire" := "nh", "nh" := "nh",
    "new jersey" := "nj", "nj" := "nj",
    "new mexico" := "nm", "nm" := "nm",
    "new york" := "ny", "ny" := "ny",
    "north carolina" := "nc", "nc" := "nc",
    "north dakota" := "nd", "nd" := "nd",
    "ohio" := "oh", "oh" := "oh",
    "oklahoma" := "ok", "ok" := "ok",
    "oregon" := "or", "or" := "or",
    "pennsylvania" := "pa", "pa" := "pa",
    "rhode island" := "ri", "ri" := "ri",
    "south carolina" := "sc", "sc" := "sc",
    "south dakota" := "sd", "sd" := "sd",
    "tennessee" := "tn", "tn" := "tn",
    "texas" := "tx", "tx" := "tx",
    "utah" := "ut", "ut" := "ut",
    "vermont" := "vt", "vt" := "vt",
    "virginia" := "va", "va" := "va",
    "washington" := "wa", "wa" := "wa",
    "west virginia" := "wv", "wv" := "wv",
    "wisconsin" := "wi", "wi" := "wi",
    "wyoming" := "wy", "wy" := "wy"
  ]

  /** `field?.toLowerCase().includes(part)`: false when the field is missing. */
  predicate FieldHas(field: Option<string>, part: string) {
    field.Some? && Strings.Contains(Strings.Lower(field.value), part)
  }

  /** The search lower-cased; split at commas into trimmed, lower-cased parts only
      when it holds a comma. */
  function SearchParts(applied: string): (parts: seq<string>)
    ensures |parts| >= 1
  {
    var term := Strings.Lower(applied);
    if ',' in term then CommaParts(term) else [term]
  }

  /** `term.split(',').map(part => part.trim().toLowerCase())`. */
  function CommaParts(term: string): (parts: seq<string>)
    ensures |parts| == |Strings.SplitOn(term, [','])|
    ensures forall k :: 0 <= k < |parts| ==> parts[k] == Strings.Lower(Strings.Trim(Strings.SplitOn(term, [','])[k]))
  {
    var pieces := Strings.SplitOn(term, [',']);
    seq(|pieces|, k requires 0 <= k < |pieces| => Strings.Lower(Strings.Trim(pieces[k])))
  }

  /** The state test: the part itself, or, failing that, the abbreviation the
      table gives for it. */
  predicate StateMatches(l: Card, part: string) {
    FieldHas(l.state, part) ||
    (part in StateAbbreviations && FieldHas(l.state, StateAbbreviations[part]))
  }

  /** One part matches a listing through its city, its state or its neighbourhood. */
  predicate PartMatches(l: Card, part: string) {
    FieldHas(l.city, part) || StateMatches(l, part) || FieldHas(l.neighborhood, part)
  }

  /** `searchParts.some(...)`. */
  predicate AnyPartMatches(l: Card, parts: seq<string>) {
    exists k :: 0 <= k < |parts| && PartMatches(l, parts[k])
  }

  /** `filteredListings`: everything for a blank search, otherwise the listings
      some part matches. */
  function Filtered(listings: seq<Card>, applied: string): (r: seq<Card>)
  {
    if Strings.IsBlank(applied) then listings
    else Seqs.Filter(listings, l => AnyPartMatches(l, SearchParts(applied)))
  }

  /** A blank search shows every listing; otherwise exactly the listings that some
      part matches are shown. Either way the result keeps the order of the input
      and adds nothing. */
  lemma FilteredSpec(listings: seq<Card>, applied: string)
    ensures Strings.IsBlank(applied) ==> Filtered(listings, applied) == listings
    ensures !Strings.IsBlank(applied) ==>
      forall l :: l in Filtered(listings, applied) <==> l in listings && AnyPartMatches(l, SearchParts(applied))
    ensures Seqs.Subsequence(Filtered(listings, applied), listings)
  {
    if Strings.IsBlank(applied) {
      SubsequenceOfItself(listings);
    } else {
      Seqs.FilterIsSubsequence(listings, l => AnyPartMatches(l, SearchParts(applied)));
    }
  }

  lemma {:induction false} SubsequenceOfItself<T>(s: seq<T>)
    ensures Seqs.Subsequence(s, s)
  {
    if s != [] {
      SubsequenceOfItself(s[1..]);
    }
  }

  /** Every part is lower case; with a comma in the search the parts hold no comma,
      carry no surrounding white space and give back the search when rejoined
      (up to case and white space); without one the single part is the whole
      lower-cased search, white space included. */
  lemma SearchPartsShape(applied: string)
    ensures forall k :: 0 <= k < |SearchParts(applied)| ==> Strings.Lower(SearchParts(applied)[k]) == SearchParts(applied)[k]
    ensures ',' in Strings.Lower(applied) ==> forall k :: 0 <= k < |SearchParts(applied)| ==>
      ',' !in SearchParts(applied)[k] && Strings.Trim(SearchParts(applied)[k]) == SearchParts(applied)[k]
    ensures ',' in Strings.Lower(applied) ==> |SearchParts(applied)| == |Strings.SplitOn(Strings.Lower(applied), [','])|
    ensures ',' !in Strings.Lower(applied) ==> SearchParts(applied) == [Strings.Lower(applied)]
  {
    var parts := SearchParts(applied);
    var term := Strings.Lower(applied);
    if ',' in term {
      var pieces := Strings.SplitOn(term, [',']);
      Strings.SplitCharPiecesFree(term, ',');
      forall k | 0 <= k < |parts|
        ensures Strings.Lower(parts[k]) == parts[k]
        ensures ',' !in parts[k] && Strings.Trim(parts[k]) == parts[k]
      {
        var t := Strings.Trim(pieces[k]);
        Strings.LowerIdempotent(t);
        Strings.TrimKeepsChars(pieces[k]);
        assert forall i :: 0 <= i < |parts[k]| ==> parts[k][i] == Strings.LowerChar(t[i]);
        assert ',' !in t;
        LowerOfTrimmed(t);
      }
    } else {
      Strings.LowerIdempotent(applied);
    }
  }

  /** Lower-casing a trimmed text leaves it trimmed and adds no comma. */
  lemma LowerOfTrimmed(t: string)
    requires Strings.Trim(t) == t && ',' !in t
    ensures Strings.Trim(Strings.Lower(t)) == Strings.Lower(t) && ',' !in Strings.Lower(t)
  {
    var u := Strings.Lower(t);
    if t != [] {
      LowerCharKeeps(t[0]);
      LowerCharKeeps(t[|t| - 1]);
    }
    TrimOfUntrimmable(u);
    forall i | 0 <= i < |u| ensures u[i] != ',' {
      LowerCharKeeps(t[i]);
      assert t[i] in t;
    }
  }

  /** Case folding neither makes nor removes white space or commas. */
  lemma LowerCharKeeps(c: char)
    ensures Strings.IsSpace(Strings.LowerChar(c)) <==> Strings.IsSpace(c)
    ensures Strings.LowerChar(c) == ',' <==> c == ','
  {
  }

  /** A text that neither starts nor ends with white space is its own trim. */
  lemma TrimOfUntrimmable(u: string)
    requires u == [] || (!Strings.IsSpace(u[0]) && !Strings.IsSpace(u[|u| - 1]))
    ensures Strings.Trim(u) == u
  {
  }

  /** A full state name in the search matches a listing stored with the table's
      abbreviation for it, even when the name itself appears nowhere. */
  lemma StateNameMatchesAbbreviation(l: Card, part: string)
    requires part in StateAbbreviations && FieldHas(l.state, StateAbbreviations[part])
    ensures PartMatches(l, part)
  {
  }

  /** A search ending in a comma yields an empty part, which every listing with a
      city matches: "Boston," shows every listing that has a city. */
  lemma TrailingCommaMatchesEveryCity(listings: seq<Card>, applied: string, l: Card)
    requires applied != [] && applied[|applied| - 1] == ','
    requires l in listings && l.city.Some?
    ensures l in Filtered(listings, applied)
  {
    FilteredSpec(listings, applied);
    var term := Strings.Lower(applied);
    assert term[|term| - 1] == ',';
    LastCommaPartEmpty(term);
    assert SearchParts(applied) == CommaParts(term);
    CityMatchIsMatch(l, []);
  }

  /** The last part of a text ending in a comma is empty. */
  lemma LastCommaPartEmpty(term: string)
    requires term != [] && term[|term| - 1] == ','
    ensures CommaParts(term)[|CommaParts(term)| - 1] == []
  {
    EmptyLastPiece(term);
    var empty: string := [];
    assert Strings.Trim(empty) == empty;
    assert Strings.Lower(empty) == empty;
  }

  /** A text ending in a comma splits into pieces the last of which is empty. */
  lemma EmptyLastPiece(term: string)
    requires term != [] && term[|term| - 1] == ','
    ensures Strings.SplitOn(term, [','])[|Strings.SplitOn(term, [','])| - 1] == []
  {
    assert term == term[..|term| - 1] + [','] + [];
    Strings.SplitCharLast(term[..|term| - 1], ',', []);
  }

  lemma CityMatchIsMatch(l: Card, part: string)
    requires FieldHas(l.city, part)
    ensures PartMatches(l, part)
  {
  }
}
