/**
 * The advanced search box (src/components/AdvancedSearch.jsx): the list of
 * languages offered in its drop-down, the combined query and language test,
 * and the panel state that the search effect and the clear button set. The
 * debounce and the simulated delay only postpone the effect; here it runs
 * when `RunSearch` is called.
 */
module AdvancedSearch {

  import opened Sequences
  import opened Catalog
  import Text
  import UseTechnologiesApi

  /** Some record has the language `x`, and it is non-empty. */
  predicate HasLanguage(ts: seq<Technology>, x: string) {
    exists i :: 0 <= i < |ts| && Truthy(ts[i].language) && ts[i].language.value == x
  }

  /** `tech => tech.language`: the record has a non-empty language. */
  function NamesLanguage(): Technology -> bool {
    (t: Technology) => Truthy(t.language)
  }

  /** `.map(tech => tech.language)`, each record's language in order. */
  function LanguageValues(rs: seq<Technology>): (vs: seq<string>)
    ensures |vs| == |rs| && forall k :: 0 <= k < |rs| ==> vs[k] == rs[k].language.GetOr("")
  {
    seq(|rs|, k requires 0 <= k < |rs| => rs[k].language.GetOr(""))
  }

  /**
   * `technologies.filter(tech => tech.language).map(tech => tech.language)`:
   * the languages of the records that have one, in the records' order.
   */
  function PresentLanguages(ts: seq<Technology>): (langs: seq<string>)
    ensures exists named :: IsOrderedSelection(named, ts, NamesLanguage()) && langs == LanguageValues(named)
    ensures forall k :: 0 <= k < |langs| ==> HasLanguage(ts, langs[k])
    ensures forall i :: 0 <= i < |ts| && Truthy(ts[i].language) ==> ts[i].language.value in langs
  {
    var named := Filter(ts, NamesLanguage());
    var langs := LanguageValues(named);
    FilterIsOrderedSelection(ts, NamesLanguage());
    forall k | 0 <= k < |langs| ensures HasLanguage(ts, langs[k]) {
      assert named[k] in ts && NamesLanguage()(named[k]);
      var i :| 0 <= i < |ts| && ts[i] == named[k];
    }
    forall i | 0 <= i < |ts| && Truthy(ts[i].language) ensures ts[i].language.value in langs {
      FilterMember(ts, NamesLanguage(), ts[i]);
      var j :| 0 <= j < |named| && named[j] == ts[i];
      assert langs[j] == ts[i].language.value;
    }
    langs
  }

  /**
   * `['all', ...new Set(languages)]`: `all` first, then each present language
   * once, in the order the languages first appear among the records.
   */
  function Languages(ts: seq<Technology>): (options: seq<string>)
    ensures |options| >= 1 && options[0] == "all"
    ensures options[1..] == Distinct(PresentLanguages(ts))
    ensures NoDuplicates(options[1..])
    ensures forall i :: 0 <= i < |ts| && Truthy(ts[i].language) ==> ts[i].language.value in options[1..]
    ensures forall k :: 1 <= k < |options| ==> exists i :: 0 <= i < |ts| && ts[i].language == Some(options[k])
  {
    var present := PresentLanguages(ts);
    var options := ["all"] + Distinct(present);
    assert options[1..] == Distinct(present);
    forall k | 1 <= k < |options| ensures exists i :: 0 <= i < |ts| && ts[i].language == Some(options[k]) {
      assert options[k] == Distinct(present)[k - 1];
      PresentLanguageIsNamed(ts, options[k]);
    }
    options
  }

  /** A language in the list is the language of some record. */
  lemma PresentLanguageIsNamed(ts: seq<Technology>, x: string)
    requires x in PresentLanguages(ts)
    ensures exists i :: 0 <= i < |ts| && ts[i].language == Some(x)
  {
    var present := PresentLanguages(ts);
    var j :| 0 <= j < |present| && present[j] == x;
    assert HasLanguage(ts, present[j]);
  }

  /**
   * The drop-down's languages follow the records: of two options, the
   * earlier one is the language that appears first among the records.
   */
  lemma LanguagesInFirstAppearanceOrder(ts: seq<Technology>)
    ensures forall a, b :: 1 <= a < b < |Languages(ts)| ==>
      Languages(ts)[a] in PresentLanguages(ts) && Languages(ts)[b] in PresentLanguages(ts) &&
      FirstIndex(PresentLanguages(ts), Languages(ts)[a]) < FirstIndex(PresentLanguages(ts), Languages(ts)[b])
  {
    var present, options := PresentLanguages(ts), Languages(ts);
    DistinctFirstAppearanceOrder(present);
    forall a, b | 1 <= a < b < |options|
      ensures options[a] in present && options[b] in present
      ensures FirstIndex(present, options[a]) < FirstIndex(present, options[b])
    {
      assert options[a] == Distinct(present)[a - 1] && options[b] == Distinct(present)[b - 1];
    }
  }

  /** The drop-down lists `all` once only when no record's language is itself `all`. */
  lemma LanguagesDistinct(ts: seq<Technology>)
    requires forall i :: 0 <= i < |ts| ==> ts[i].language != Some("all")
    ensures NoDuplicates(Languages(ts))
  {
    var options := Languages(ts);
    forall i, j | 0 <= i < j < |options| ensures options[i] != options[j] {
      if i == 0 {
        var k :| 0 <= k < |ts| && ts[k].language == Some(options[j]);
      } else {
        assert options[i] == options[1..][i - 1] && options[j] == options[1..][j - 1];
      }
    }
  }

  /** A record passes when it matches the lower-cased query and the chosen language. */
  function MatchesSearch(lowerQuery: string, language: string): (m: Technology -> bool)
    ensures forall t :: m(t) ==> MatchesTextOrLanguage(lowerQuery)(t)
    ensures language != "all" ==> forall t :: m(t) ==> t.language == Some(language)
    ensures language == "all" ==> forall t :: m(t) == MatchesTextOrLanguage(lowerQuery)(t)
  {
    (t: Technology) => MatchesTextOrLanguage(lowerQuery)(t) && (language == "all" || t.language == Some(language))
  }

  /**
   * The effect's result: nothing for a query that is blank, otherwise the
   * records passing the test, in order. The query is lower-cased but not
   * trimmed before matching.
   */
  function SearchResults(ts: seq<Technology>, query: string, language: string): (r: seq<Technology>)
    ensures Text.IsBlank(query) ==> r == []
    ensures !Text.IsBlank(query) ==> IsOrderedSelection(r, ts, MatchesSearch(Text.ToLower(query), language))
  {
    if Text.IsBlank(query) then []
    else
      FilterIsOrderedSelection(ts, MatchesSearch(Text.ToLower(query), language));
      Filter(ts, MatchesSearch(Text.ToLower(query), language))
  }

  /** With the language left at `all`, a non-blank query finds what the API hook's search finds. */
  lemma AllLanguagesIsHookSearch(ts: seq<Technology>, query: string)
    requires !Text.IsBlank(query)
    ensures SearchResults(ts, query, "all") == UseTechnologiesApi.SearchTechnologies(ts, query)
  {
    var q := Text.ToLower(query);
    FilterAgree(ts, MatchesSearch(q, "all"), MatchesTextOrLanguage(q));
  }

  /** Choosing a language only narrows the results: each is also found under `all`, and has that language. */
  lemma LanguageNarrows(ts: seq<Technology>, query: string, language: string)
    ensures forall k :: 0 <= k < |SearchResults(ts, query, language)| ==>
      SearchResults(ts, query, language)[k] in SearchResults(ts, query, "all")
      && (language == "all" || SearchResults(ts, query, language)[k].language == Some(language))
  {
    var r := SearchResults(ts, query, language);
    if !Text.IsBlank(query) {
      var q := Text.ToLower(query);
      forall k | 0 <= k < |r| ensures r[k] in SearchResults(ts, query, "all") {
        assert r[k] in ts && MatchesSearch(q, language)(r[k]);
        FilterMember(ts, MatchesSearch(q, "all"), r[k]);
      }
    }
  }

  /** The panel's state. */
  class SearchPanel {
    var searchQuery: string
    var filterLanguage: string
    var searchResults: seq<Technology>
    var isSearching: bool

    constructor ()
      ensures searchQuery == "" && filterLanguage == "all" && searchResults == [] && !isSearching
    {
      searchQuery := "";
      filterLanguage := "all";
      searchResults := [];
      isSearching := false;
    }

    method SetQuery(query: string)
      modifies this
      ensures searchQuery == query && filterLanguage == old(filterLanguage)
      ensures searchResults == old(searchResults) && isSearching == old(isSearching)
    {
      searchQuery := query;
    }

    method SetLanguage(language: string)
      modifies this
      ensures filterLanguage == language && searchQuery == old(searchQuery)
      ensures searchResults == old(searchResults) && isSearching == old(isSearching)
    {
      filterLanguage := language;
    }

    /**
     * The search effect once its delay has passed: the results are replaced
     * and returned for `onSearch` (`None` when the query is blank and the
     * callback is not called).
     */
    method RunSearch(ts: seq<Technology>) returns (reported: Option<seq<Technology>>)
      modifies this
      ensures searchResults == SearchResults(ts, searchQuery, filterLanguage) && !isSearching
      ensures searchQuery == old(searchQuery) && filterLanguage == old(filterLanguage)
      ensures reported.None? <==> Text.IsBlank(searchQuery)
      ensures reported.Some? ==> reported.value == searchResults
    {
      if Text.IsBlank(searchQuery) {
        searchResults := [];
        isSearching := false;
        reported := None;
      } else {
        isSearching := true;
        searchResults := SearchResults(ts, searchQuery, filterLanguage);
        isSearching := false;
        reported := Some(searchResults);
      }
    }

    /** `handleClearSearch`: empty query, all languages, no results. */
    method HandleClearSearch()
      modifies this
      ensures searchQuery == "" && filterLanguage == "all" && searchResults == []
      ensures isSearching == old(isSearching)
    {
      searchQuery := "";
      filterLanguage := "all";
      searchResults := [];
    }
  }

  /** A query of spaces that `trim` removes, such as no-break spaces or an ideographic space, finds nothing. */
  lemma UnicodeSpacesFindNothing(ts: seq<Technology>, language: string)
    ensures SearchResults(ts, "\U{00A0}\U{3000} ", language) == []
  {
    assert Text.IsBlank("\U{00A0}\U{3000} ");
  }
}
