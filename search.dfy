/**
 * The search bar: venue-name suggestions for the typed input, a keyboard
 * highlight that wraps around the suggestion list, and submission, which
 * either opens the highlighted venue or starts a text search.
 */
module Search {
  import opened Wrappers
  import opened Text
  import opened VenueStore

  /** At most this many suggestions are shown (`slice(0, 20)`). */
  const MaxSuggestions := 20

  /** `v.name.toLowerCase().includes(query)` */
  predicate NameMatches(v: Venue, query: string) {
    Contains(ToLower(v.name), query)
  }

  /** `a` is `b` with some elements left out, the rest kept in order. */
  ghost predicate IsSubsequence(a: seq<Venue>, b: seq<Venue>) {
    if a == [] then true
    else if b == [] then false
    else (a[0] == b[0] && IsSubsequence(a[1..], b[1..])) || IsSubsequence(a, b[1..])
  }

  /** A prefix of a subsequence is a subsequence. */
  lemma {:induction false} PrefixOfSubsequence(a: seq<Venue>, b: seq<Venue>, n: nat)
    requires IsSubsequence(a, b) && n <= |a|
    ensures IsSubsequence(a[..n], b)
    decreases |b|
  {
    if n == 0 || a == [] {
    } else if a[0] == b[0] && IsSubsequence(a[1..], b[1..]) {
      PrefixOfSubsequence(a[1..], b[1..], n - 1);
      assert a[..n][1..] == a[1..][..n - 1];
    } else {
      PrefixOfSubsequence(a, b[1..], n);
    }
  }

  /** `venues.filter(v => NameMatches(v, query))` */
  function Matching(venues: seq<Venue>, query: string): (r: seq<Venue>)
    ensures |r| <= |venues|
  {
    if venues == [] then []
    else if NameMatches(venues[0], query) then [venues[0]] + Matching(venues[1..], query)
    else Matching(venues[1..], query)
  }

  /** Every venue the filter keeps is a venue of the collection whose name matches. */
  lemma {:induction false} MatchingSound(venues: seq<Venue>, query: string)
    ensures forall v :: v in Matching(venues, query) ==> v in venues && NameMatches(v, query)
  {
    if venues != [] {
      MatchingSound(venues[1..], query);
    }
  }

  /** Every venue of the collection whose name matches is kept. */
  lemma {:induction false} MatchingComplete(venues: seq<Venue>, query: string)
    ensures forall v :: v in venues && NameMatches(v, query) ==> v in Matching(venues, query)
  {
    if venues != [] {
      MatchingComplete(venues[1..], query);
      assert forall v :: v in venues ==> v == venues[0] || v in venues[1..];
    }
  }

  /** The filter keeps the venues in the order of the collection. */
  lemma {:induction false} MatchingOrdered(venues: seq<Venue>, query: string)
    ensures IsSubsequence(Matching(venues, query), venues)
  {
    if venues != [] {
      MatchingOrdered(venues[1..], query);
      var rest := Matching(venues[1..], query);
      if NameMatches(venues[0], query) {
        assert ([venues[0]] + rest)[1..] == rest;
      }
    }
  }

  /**
   * The filter keeps every copy of a matching venue and no copy of any other:
   * each venue occurs in the result as often as in the collection if its name
   * matches, and not at all otherwise.
   */
  lemma {:induction false} MatchingCounts(venues: seq<Venue>, query: string, v: Venue)
    ensures multiset(Matching(venues, query))[v] == if NameMatches(v, query) then multiset(venues)[v] else 0
  {
    if venues != [] {
      MatchingCounts(venues[1..], query, v);
      assert venues == [venues[0]] + venues[1..];
      assert multiset(venues) == multiset([venues[0]]) + multiset(venues[1..]);
      if NameMatches(venues[0], query) {
        assert multiset(Matching(venues, query)) == multiset([venues[0]]) + multiset(Matching(venues[1..], query));
      }
    }
  }

  /** The suggestion list for a (trimmed, lower-cased) query: `matches.slice(0, 20)`. */
  function Suggestions(venues: seq<Venue>, query: string): (r: seq<Venue>)
    ensures |r| <= MaxSuggestions
  {
    var matches := Matching(venues, query);
    if |matches| <= MaxSuggestions then matches else matches[..MaxSuggestions]
  }

  /**
   * The suggestions are the first twenty matches: all of them when there are
   * fewer, in the order of the collection, and each one a venue of the
   * collection whose name contains the query.
   */
  lemma SuggestionsAreFirstMatches(venues: seq<Venue>, query: string)
    ensures Suggestions(venues, query) <= Matching(venues, query)
    ensures |Matching(venues, query)| <= MaxSuggestions ==> Suggestions(venues, query) == Matching(venues, query)
    ensures |Matching(venues, query)| > MaxSuggestions ==> |Suggestions(venues, query)| == MaxSuggestions
    ensures IsSubsequence(Suggestions(venues, query), venues)
    ensures forall v :: v in Suggestions(venues, query) ==> v in venues && NameMatches(v, query)
  {
    var matches := Matching(venues, query);
    var r := Suggestions(venues, query);
    MatchingOrdered(venues, query);
    MatchingSound(venues, query);
    PrefixOfSubsequence(matches, venues, |r|);
    assert r == matches[..|r|];
    assert forall v :: v in r ==> v in matches;
  }

  /**
   * The suggestions the search bar holds for its input: none for a blank
   * input, otherwise the suggestions for the trimmed, lower-cased input.
   */
  function SuggestionsFor(venues: seq<Venue>, input: string): (r: seq<Venue>)
    ensures |r| <= MaxSuggestions
  {
    var query := ToLower(Trim(input));
    if query == "" then [] else Suggestions(venues, query)
  }

  /** A blank input has no suggestions; any other input has those of its trimmed, lower-cased text. */
  lemma SuggestionsForInput(venues: seq<Venue>, input: string)
    ensures IsBlank(input) ==> SuggestionsFor(venues, input) == []
    ensures !IsBlank(input) ==> SuggestionsFor(venues, input) == Suggestions(venues, ToLower(Trim(input)))
  {
  }

  /** ArrowDown: one step down, from the last suggestion back to the first. */
  function NextHighlight(prev: int, count: int): (next: int)
    ensures count > 0 && -1 <= prev < count ==> 0 <= next < count
    ensures -1 <= prev < count - 1 ==> next == prev + 1
    ensures prev >= count - 1 ==> next == 0
  {
    if prev < count - 1 then prev + 1 else 0
  }

  /** ArrowUp: one step up, from the first suggestion (or none) to the last. */
  function PrevHighlight(prev: int, count: int): (next: int)
    ensures count > 0 && -1 <= prev < count ==> 0 <= next < count
    ensures 0 < prev ==> next == prev - 1
    ensures prev <= 0 ==> next == count - 1
  {
    if prev > 0 then prev - 1 else count - 1
  }

  /** On a highlighted suggestion, ArrowUp undoes ArrowDown and ArrowDown undoes ArrowUp. */
  lemma HighlightStepsInverse(i: int, count: int)
    requires 0 <= i < count
    ensures PrevHighlight(NextHighlight(i, count), count) == i
    ensures NextHighlight(PrevHighlight(i, count), count) == i
  {
  }

  /** `k` presses of ArrowDown. */
  function PressDown(start: int, count: int, k: nat): int {
    if k == 0 then start else NextHighlight(PressDown(start, count, k - 1), count)
  }

  /** A remainder is determined by any quotient-remainder split. */
  lemma ModOfSplit(a: int, count: int, q: int, r: int)
    requires count > 0 && 0 <= r < count && a == q * count + r
    ensures a % count == r
  {
    var d := q - a / count;
    assert a == (a / count) * count + a % count;
    assert d * count == a % count - r;
  }

  /** One more step past `m` moves the remainder on by one, wrapping to 0 after `count - 1`. */
  lemma ModStep(m: nat, count: int)
    requires count > 0
    ensures (m + 1) % count == if m % count < count - 1 then m % count + 1 else 0
  {
    var q, r := m / count, m % count;
    assert m == q * count + r;
    if r < count - 1 {
      ModOfSplit(m + 1, count, q, r + 1);
    } else {
      ModOfSplit(m + 1, count, q + 1, 0);
    }
  }

  /** From no highlight, k >= 1 presses of ArrowDown land on suggestion (k - 1) mod count. */
  lemma {:induction false} PressDownWraps(count: int, k: nat)
    requires count > 0 && k > 0
    ensures PressDown(-1, count, k) == (k - 1) % count
  {
    if k > 1 {
      PressDownWraps(count, k - 1);
      ModStep(k - 2, count);
    }
  }

  /** A navigation target of the search bar. */
  datatype Route = VenuePage(venueId: string) | SearchResults(query: string)

  /** The keys the search form reacts to. */
  datatype Key = ArrowDown | ArrowUp | Enter | OtherKey

  /** The search bar component and its state. */
  class SearchBar {
    /** The store's current venue collection. */
    var venues: seq<Venue>
    /**
     * The collection the suggestion callback filters. The debounced callback
     * is created once, on the first render, and keeps the `venues` of that
     * render; later store updates do not reach it.
     */
    var searchedVenues: seq<Venue>
    var input: string
    var suggestions: seq<Venue>
    var showDropdown: bool
    var highlightIndex: int
    /** The store's search text and search mode, written by a text search. */
    var searchQuery: string
    var isSearchMode: bool
    /** The target of the last `navigate` call, if any. */
    var navigation: Option<Route>

    /**
     * The suggestions always are those the callback computes for the current
     * input (suggestions are recomputed as soon as the input or the venues
     * change), and the highlight is either -1 or the index of a suggestion.
     */
    ghost predicate Valid()
      reads this
    {
      suggestions == SuggestionsFor(searchedVenues, input) && -1 <= highlightIndex < |suggestions|
    }

    constructor (venues: seq<Venue>, searchQuery: string, isSearchMode: bool)
      ensures Valid()
      ensures this.venues == venues && searchedVenues == venues && input == "" && suggestions == []
      ensures !showDropdown && highlightIndex == -1
      ensures this.searchQuery == searchQuery && this.isSearchMode == isSearchMode && navigation == None
    {
      this.venues := venues;
      searchedVenues := venues;
      input := "";
      suggestions := [];
      showDropdown := false;
      highlightIndex := -1;
      this.searchQuery := searchQuery;
      this.isSearchMode := isSearchMode;
      navigation := None;
      assert ToLower(Trim("")) == "";
    }

    /**
     * The effect that runs when the input or the venues change. The list is
     * cleared and the highlight reset; for a blank input that is all (the
     * dropdown keeps its visibility), otherwise the callback filters its
     * collection, and the dropdown is shown exactly when there are matches.
     */
    method RecomputeSuggestions()
      modifies this
      ensures Valid()
      ensures highlightIndex == -1
      ensures IsBlank(input) ==> suggestions == [] && showDropdown == old(showDropdown)
      ensures !IsBlank(input) ==> showDropdown == (|suggestions| > 0)
      ensures venues == old(venues) && searchedVenues == old(searchedVenues) && input == old(input)
      ensures searchQuery == old(searchQuery) && isSearchMode == old(isSearchMode) && navigation == old(navigation)
    {
      var trimmed := ToLower(Trim(input));
      assert trimmed == "" <==> IsBlank(input) by {
        assert |trimmed| == |Trim(input)|;
      }
      suggestions := [];
      highlightIndex := -1;
      if trimmed != "" {
        var sliced := Suggestions(searchedVenues, trimmed);
        suggestions := sliced;
        showDropdown := |sliced| > 0;
        highlightIndex := -1;
      }
    }

    /** Typing: the input takes the new text and the suggestions are recomputed. */
    method SetInput(value: string)
      modifies this
      ensures Valid()
      ensures input == value && suggestions == SuggestionsFor(searchedVenues, value) && highlightIndex == -1
      ensures IsBlank(value) ==> showDropdown == old(showDropdown)
      ensures !IsBlank(value) ==> showDropdown == (|suggestions| > 0)
      ensures venues == old(venues) && searchedVenues == old(searchedVenues)
      ensures searchQuery == old(searchQuery) && isSearchMode == old(isSearchMode) && navigation == old(navigation)
    {
      input := value;
      RecomputeSuggestions();
    }

    /**
     * The store's venues change. The effect runs again for the same input,
     * but the callback still filters the collection of the first render, so
     * the new collection does not reach the suggestions.
     */
    method SetVenues(vs: seq<Venue>)
      modifies this
      ensures Valid()
      ensures venues == vs && searchedVenues == old(searchedVenues) && input == old(input)
      ensures suggestions == SuggestionsFor(old(searchedVenues), input) && highlightIndex == -1
      ensures IsBlank(input) ==> showDropdown == old(showDropdown)
      ensures !IsBlank(input) ==> showDropdown == (|suggestions| > 0)
      ensures searchQuery == old(searchQuery) && isSearchMode == old(isSearchMode) && navigation == old(navigation)
    {
      venues := vs;
      RecomputeSuggestions();
    }

    /**
     * The evidently intended reaction to a store update: the callback is
     * rebuilt over the new collection, so the suggestions are those of the
     * store's current venues.
     */
    method SetVenuesRebuilt(vs: seq<Venue>)
      modifies this
      ensures Valid()
      ensures venues == vs && searchedVenues == vs && input == old(input)
      ensures suggestions == SuggestionsFor(venues, input) && highlightIndex == -1
      ensures IsBlank(input) ==> showDropdown == old(showDropdown)
      ensures !IsBlank(input) ==> showDropdown == (|suggestions| > 0)
      ensures searchQuery == old(searchQuery) && isSearchMode == old(isSearchMode) && navigation == old(navigation)
    {
      venues := vs;
      searchedVenues := vs;
      RecomputeSuggestions();
    }

    /**
     * handleSelectSuggestion: the input is cleared, the dropdown hidden and
     * the venue's page opened; clearing the input clears the suggestions.
     */
    method SelectSuggestion(venueId: string)
      requires Valid()
      modifies this
      ensures Valid()
      ensures input == "" && !showDropdown && suggestions == [] && highlightIndex == -1
      ensures navigation == Some(VenuePage(venueId))
      ensures venues == old(venues) && searchedVenues == old(searchedVenues)
      ensures searchQuery == old(searchQuery) && isSearchMode == old(isSearchMode)
    {
      input := "";
      showDropdown := false;
      navigation := Some(VenuePage(venueId));
      RecomputeSuggestions();
    }

    /** The text-search branch of handleSearch: the store's query and mode are set and the results page opened. */
    method StartTextSearch(query: string)
      requires Valid()
      modifies this
      ensures Valid()
      ensures searchQuery == query && isSearchMode && navigation == Some(SearchResults(query))
      ensures venues == old(venues) && searchedVenues == old(searchedVenues) && input == old(input)
      ensures suggestions == old(suggestions) && showDropdown == old(showDropdown) && highlightIndex == old(highlightIndex)
    {
      searchQuery := query;
      isSearchMode := true;
      navigation := Some(SearchResults(query));
    }

    /**
     * handleSearch: nothing happens for a blank input. Otherwise a
     * highlighted suggestion is opened, or else the trimmed input (case kept)
     * becomes the search query, search mode is switched on and the results
     * page opened; either way the dropdown ends hidden.
     */
    method Submit()
      requires Valid()
      modifies this
      ensures Valid()
      ensures IsBlank(old(input)) ==>
        && input == old(input) && suggestions == old(suggestions) && showDropdown == old(showDropdown)
        && highlightIndex == old(highlightIndex) && searchQuery == old(searchQuery)
        && isSearchMode == old(isSearchMode) && navigation == old(navigation)
      ensures !IsBlank(old(input)) ==> !showDropdown
      ensures !IsBlank(old(input)) && 0 <= old(highlightIndex) < old(|suggestions|) ==>
        && navigation == Some(VenuePage(old(suggestions[highlightIndex]).id))
        && input == "" && suggestions == [] && highlightIndex == -1
        && searchQuery == old(searchQuery) && isSearchMode == old(isSearchMode)
      ensures !IsBlank(old(input)) && !(0 <= old(highlightIndex) < old(|suggestions|)) ==>
        && searchQuery == Trim(old(input)) && isSearchMode
        && navigation == Some(SearchResults(Trim(old(input))))
        && input == old(input) && suggestions == old(suggestions) && highlightIndex == old(highlightIndex)
      ensures venues == old(venues) && searchedVenues == old(searchedVenues)
    {
      var trimmed := Trim(input);
      if trimmed == "" {
        return;
      }
      if 0 <= highlightIndex < |suggestions| {
        SelectSuggestion(suggestions[highlightIndex].id);
      } else {
        StartTextSearch(trimmed);
      }
      showDropdown := false;
    }

    /**
     * A key pressed in the search input. handleKeyDown ignores every key
     * while the dropdown is hidden or empty; it then does not prevent the
     * default either, so Enter still submits the form and handleSearch runs.
     * With the dropdown open, ArrowDown and ArrowUp move the highlight with
     * wrap-around onto a suggestion, and Enter opens the highlighted
     * suggestion or, with none highlighted, calls handleSearch. Either way
     * Enter does what a submission does.
     */
    method KeyDown(key: Key)
      requires Valid()
      modifies this
      ensures Valid()
      ensures key == OtherKey || (key != Enter && (!old(showDropdown) || old(|suggestions|) == 0)) ==>
        && input == old(input) && suggestions == old(suggestions) && showDropdown == old(showDropdown)
        && highlightIndex == old(highlightIndex) && searchQuery == old(searchQuery)
        && isSearchMode == old(isSearchMode) && navigation == old(navigation)
      ensures old(showDropdown) && old(|suggestions|) > 0 && (key == ArrowDown || key == ArrowUp) ==>
        && highlightIndex == (if key == ArrowDown then NextHighlight(old(highlightIndex), |suggestions|)
                              else PrevHighlight(old(highlightIndex), |suggestions|))
        && 0 <= highlightIndex < |suggestions|
        && input == old(input) && suggestions == old(suggestions) && showDropdown
        && searchQuery == old(searchQuery) && isSearchMode == old(isSearchMode) && navigation == old(navigation)
      ensures key == Enter && IsBlank(old(input)) ==>
        && input == old(input) && suggestions == old(suggestions) && showDropdown == old(showDropdown)
        && highlightIndex == old(highlightIndex) && searchQuery == old(searchQuery)
        && isSearchMode == old(isSearchMode) && navigation == old(navigation)
      ensures key == Enter && !IsBlank(old(input)) && 0 <= old(highlightIndex) < old(|suggestions|) ==>
        && navigation == Some(VenuePage(old(suggestions[highlightIndex]).id))
        && input == "" && suggestions == [] && !showDropdown && highlightIndex == -1
        && searchQuery == old(searchQuery) && isSearchMode == old(isSearchMode)
      ensures key == Enter && !IsBlank(old(input)) && !(0 <= old(highlightIndex) < old(|suggestions|)) ==>
        && searchQuery == Trim(old(input)) && isSearchMode && !showDropdown
        && navigation == Some(SearchResults(Trim(old(input))))
        && input == old(input) && suggestions == old(suggestions) && highlightIndex == old(highlightIndex)
      ensures venues == old(venues) && searchedVenues == old(searchedVenues)
    {
      if !showDropdown || |suggestions| == 0 {
        if key == Enter {
          Submit();
        }
        return;
      }
      assert !IsBlank(input);
      match key
      case ArrowDown =>
        highlightIndex := NextHighlight(highlightIndex, |suggestions|);
      case ArrowUp =>
        highlightIndex := PrevHighlight(highlightIndex, |suggestions|);
      case Enter =>
        if 0 <= highlightIndex < |suggestions| {
          SelectSuggestion(suggestions[highlightIndex].id);
        } else {
          Submit();
        }
      case OtherKey =>
    }

    /** A mouse press outside the search bar hides the dropdown. */
    method ClickOutside()
      modifies this
      ensures !showDropdown
      ensures venues == old(venues) && searchedVenues == old(searchedVenues)
      ensures input == old(input) && suggestions == old(suggestions)
      ensures highlightIndex == old(highlightIndex) && searchQuery == old(searchQuery)
      ensures isSearchMode == old(isSearchMode) && navigation == old(navigation)
    {
      showDropdown := false;
    }
  }

  /** The venue of the stale-collection scenario below. */
  const Cabin := Venue("1", "Cabin")

  /** Cabin's name contains "cab", so the filter keeps it. */
  lemma CabinMatches()
    ensures Matching([Cabin], "cab") == [Cabin]
  {
    assert NameMatches(Cabin, "cab") by {
      assert ToLower("Cabin") == "cabin";
      assert OccursAt("cabin", "cab", 0);
    }
    assert [Cabin][1..] == [];
  }

  /** A non-blank input, for the collection [Cabin], has Cabin as its one suggestion. */
  lemma CabinSuggested()
    ensures SuggestionsFor([Cabin], "cab") == [Cabin]
  {
    CabinMatches();
    TrimOfTrimmed("cab");
    LowerOfLower("cab");
  }

  /**
   * A bar first rendered before the venues load, then the store receives
   * [Cabin], then the visitor types "cab": the bar suggests nothing, although
   * Cabin matches, because its callback still filters the empty collection.
   * With the callback rebuilt, the same steps suggest Cabin.
   */
  method StaleCollectionExample() returns (shown: seq<Venue>, shownRebuilt: seq<Venue>)
    ensures shown == [] && shownRebuilt == [Cabin]
  {
    var bar := new SearchBar([], "", false);
    bar.SetVenues([Cabin]);
    bar.SetInput("cab");
    shown := bar.suggestions;
    var rebuilt := new SearchBar([], "", false);
    rebuilt.SetVenuesRebuilt([Cabin]);
    rebuilt.SetInput("cab");
    shownRebuilt := rebuilt.suggestions;
    CabinSuggested();
  }
}
