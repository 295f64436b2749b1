# Venue booking client: verified model of its client-side logic

This project models the small, deterministic pieces of logic in a
venue-booking single-page application: the parts that can be stated without
its rendering, its HTTP calls or its timers. They are:

- the tri-state amenity toggles of the filter panel (unset → true → false → unset);
- the price and guest sliders, which set bounds in the `filters` record;
- the password strength meter of the login/register modal;
- the search bar. It computes venue-name suggestions and keeps a keyboard
  highlight that wraps around. Submitting either opens the highlighted venue
  or starts a text search;
- the edit-profile page. It normalises the fetched profile, updates one form
  field at a time, builds the update body and stores the manager flag;
- the session keys that login and logout write to `localStorage`, and the
  checks that read the token;
- the shared venue store, and the snapshot of it that is persisted.

One Dafny module per source file (and four shared helpers):

| file | module | models |
|---|---|---|
| `wrappers.dfy` | `Wrappers` | `Option`, `Result` |
| `js_value.dfy` | `JsValue` | JavaScript values in plain records; `!!`, `??`, `\|\|` |
| `text.dfy` | `Text` | `trim`, ASCII `toLowerCase`, `includes` |
| `amenity_filter.dfy` | `AmenityFilter` | `src/assets/components/Filter.jsx` |
| `range_sliders.dfy` | `RangeSliders` | `src/assets/components/RangeSliders.jsx` |
| `password_strength.dfy` | `PasswordStrength` | `src/assets/components/LoginModal.jsx` (scorer and bar) |
| `search.dfy` | `Search` | `src/assets/components/Search.jsx` |
| `edit_profile.dfy` | `EditProfile` | `src/pages/EditProfile.jsx` |
| `browser_storage.dfy` | `BrowserStorage` | `localStorage` as a mutable `map<string, string>` |
| `auth.dfy` | `Auth` | `src/assets/auth.js` |
| `session.dfy` | `Session` | `src/assets/components/functions.js` (`isLoggedIn`, `checkLogin`) |
| `venue_store.dfy` | `VenueStore` | `src/assets/useVenueStore.js` |

Modelling choices:

- A dynamically keyed record such as `filters` is a `map<string, Value>`.
  A key that is absent reads as `undefined`. A JavaScript spread that sets
  a key stores that key, even when the value stored is `undefined`.
- A network response is an input: `Accepted(data)` for an `ok` response,
  `Rejected(body)` for a failed one, with the parsed error body. The
  edit-profile update takes only its `ok` flag.
- The search bar is a class whose fields are the component's state
  (`input`, `suggestions`, `showDropdown`, `highlightIndex`), plus the
  store's `searchQuery` and `isSearchMode` (plain fields, because the store
  file shown does not define them) and the target of the last `navigate`
  call. The 150 ms debounce is modelled as an immediate recomputation.
  The debounced callback is created once, on the first render
  (Search.jsx:29-30). It keeps that render's `venues`, so the bar has two
  collections: `venues`, the store's current one, and `searchedVenues`,
  the one the callback filters. The object invariant is that the
  suggestions always equal those the callback computes for the current
  input, and that the highlight is −1 or a valid index.
- "The dropdown is shown iff there are suggestions" holds right after a
  recomputation for a non-blank input. It is not an object invariant. A
  blank input clears the suggestions but leaves `showDropdown` as it was
  (Search.jsx:45-51). The component renders that state as an invisible
  box. `RecomputeSuggestions`, `SetInput` and `SetVenues` state both cases.
- `login` reads `avatar.url` after it has written three keys. A response
  without an avatar therefore throws a TypeError and leaves token, userId
  and userName written. The model keeps that path (`MissingAvatar`).
- Logout removes exactly token, userId, userName and userImage. Login never
  writes "venueManager"; only the edit-profile page does, and the key
  survives logout (`Auth.LogoutKeepsOtherKeys`).

## Model

| member | source | states |
|---|---|---|
| `AmenityFilter.NextState` | src/assets/components/Filter.jsx:3-7 | true goes to false, false goes to unset, and any other value goes to true. The result is always tri-state and never equals the input |
| `AmenityFilter.NextStateCycle` | src/assets/components/Filter.jsx:3-7 | applying the cycle three times returns every tri-state value to itself |
| `AmenityFilter.NextStateNoPeriodTwo` | src/assets/components/Filter.jsx:3-7 | two steps never return to the start, so the period is exactly 3 |
| `AmenityFilter.Label` | src/assets/components/Filter.jsx:9-13 | ✅ is shown exactly for true, ❌ exactly for false, ⚪ for everything else |
| `AmenityFilter.LabelInjective` | src/assets/components/Filter.jsx:9-13 | equal labels on tri-state values mean equal values |
| `AmenityFilter.Toggle` | src/assets/components/Filter.jsx:16-22 | the toggled key holds the next state of its old value; every other key reads as before; the key set grows by at most that key |
| `AmenityFilter.ToggleThrice` | src/assets/components/Filter.jsx:16-22 | toggling a tri-state key three times gives a record that reads the same at every key |
| `AmenityFilter.Press` | src/assets/components/Filter.jsx:26-35 | the button at a given position of FILTER_OPTIONS toggles that amenity and nothing else |
| `AmenityFilter.PressAll` | src/assets/components/Filter.jsx:1-35 | after any run of button clicks, keys outside wifi/parking/pets/breakfast are unchanged, and each amenity stays tri-state if it was |
| `RangeSliders.HandlePriceChange` | src/assets/components/RangeSliders.jsx:12-18 | minPrice and maxPrice take values[0] and values[1] (undefined past the end of the array); every other key is unchanged |
| `RangeSliders.HandleGuestsChange` | src/assets/components/RangeSliders.jsx:20-25 | minGuests takes values[0]; every other key, the price bounds included, is unchanged |
| `RangeSliders.SliderUpdatesCommute` | src/assets/components/RangeSliders.jsx:12-25 | a price update and a guests update give the same record in either order |
| `RangeSliders.ShownMinPrice` | src/assets/components/RangeSliders.jsx:34-35 | an unset (undefined/null) minPrice is shown as 0; any other value is shown as itself |
| `RangeSliders.ShownMaxPrice` | src/assets/components/RangeSliders.jsx:80-81 | an unset maxPrice is shown as 10000; any other value is shown as itself |
| `RangeSliders.ShownMinGuests` | src/assets/components/RangeSliders.jsx:129 | an unset minGuests is shown as 1; any other value is shown as itself |
| `RangeSliders.ZeroShownAsZero` | src/assets/components/RangeSliders.jsx:34-35 | a bound set to 0 is shown as 0 under `??`, where `\|\|` would have shown the default |
| `RangeSliders.ShownValuesOnSlider` | src/assets/components/RangeSliders.jsx:34-39 | when the slider keys are in range, every displayed value is a number in 0..10000 in steps of 100, or in 1..100 for guests |
| `RangeSliders.HandlersKeepSlidersInRange` | src/assets/components/RangeSliders.jsx:12-25 | fed values their sliders can report, both handlers keep the slider keys in range, and so do the amenity buttons |
| `PasswordStrength.GetPasswordScore` | src/assets/components/LoginModal.jsx:46-53 | the score, added up one test at a time, equals the number of criteria met (length ≥ 6, A-Z, digit, a character outside A-Za-z0-9), so it is at most 4 |
| `PasswordStrength.SatisfiedCount` | src/assets/components/LoginModal.jsx:47-52 | the number of criteria met is the sum of one point per criterion |
| `PasswordStrength.EmptyPasswordScoresZero` | src/assets/components/LoginModal.jsx:47-52 | the empty password meets no criterion |
| `PasswordStrength.ExtensionKeepsCriteria` | src/assets/components/LoginModal.jsx:48-51 | every criterion a password meets is still met after appending characters |
| `PasswordStrength.ExtensionNeverLowersScore` | src/assets/components/LoginModal.jsx:48-51 | appending characters never lowers the score |
| `PasswordStrength.StrengthBar` | src/assets/components/LoginModal.jsx:199-207 | the bar fills 0, 1, 2 or 3 quarters for the scores 0 to 3; any other score fills the whole bar in green; the bar has no colour exactly when it is empty |
| `PasswordStrength.BarTracksCriteria` | src/assets/components/LoginModal.jsx:199-207 | the bar fills one quarter per criterion met, and a longer password never draws a shorter bar |
| `Text.Trim` | src/assets/components/Search.jsx:43 | the trimmed input is empty exactly when the input is blank, and otherwise it starts and ends with a non-whitespace character |
| `Text.TrimSlice` | src/assets/components/Search.jsx:43 | the trimmed input is the slice of the input between a blank prefix and a blank suffix |
| `Search.Matching` | src/assets/components/Search.jsx:31-33 | the filter never yields more venues than the collection holds |
| `Search.MatchingSound` | src/assets/components/Search.jsx:31-33 | every venue the filter keeps is a venue of the collection whose lower-cased name contains the query |
| `Search.MatchingComplete` | src/assets/components/Search.jsx:31-33 | every venue whose lower-cased name contains the query is kept |
| `Search.MatchingOrdered` | src/assets/components/Search.jsx:31-33 | the kept venues appear in collection order (they form a subsequence) |
| `Search.MatchingCounts` | src/assets/components/Search.jsx:31-33 | each venue occurs in the result as often as in the collection when its name matches, and not at all otherwise, so duplicates are kept |
| `Search.Suggestions` | src/assets/components/Search.jsx:34 | there are never more than 20 suggestions |
| `Search.SuggestionsAreFirstMatches` | src/assets/components/Search.jsx:31-34 | the suggestions are a prefix of the matches: all of them when there are at most 20, otherwise exactly 20. They are in collection order, and each is a matching venue of the collection |
| `Search.SuggestionsFor` | src/assets/components/Search.jsx:43-53 | the bar never holds more than 20 suggestions |
| `Search.SuggestionsForInput` | src/assets/components/Search.jsx:43-53 | a blank input has no suggestions; any other input has those of its trimmed, lower-cased text |
| `Search.NextHighlight` | src/assets/components/Search.jsx:100-104 | ArrowDown moves to prev+1 below the last suggestion and wraps to 0 at it. From −1..n−1 the result lies in 0..n−1 |
| `Search.PrevHighlight` | src/assets/components/Search.jsx:105-109 | ArrowUp moves to prev−1 above 0 and wraps to n−1 at or below 0. From −1..n−1 the result lies in 0..n−1 |
| `Search.HighlightStepsInverse` | src/assets/components/Search.jsx:100-109 | on a highlighted suggestion, ArrowUp undoes ArrowDown and ArrowDown undoes ArrowUp |
| `Search.PressDownWraps` | src/assets/components/Search.jsx:100-104 | from no highlight, k ≥ 1 presses of ArrowDown land on suggestion (k−1) mod n |
| `Search.SearchBar.constructor` | src/assets/components/Search.jsx:13-30 | the bar starts with empty input, no suggestions, hidden dropdown and highlight −1. The callback's collection is the store's venues at the first render |
| `Search.SearchBar.RecomputeSuggestions` | src/assets/components/Search.jsx:29-58 | the suggestions become those the callback computes from its first-render collection, and the highlight becomes −1. For a non-blank input the dropdown is shown iff there are suggestions; a blank input leaves the dropdown's visibility unchanged |
| `Search.SearchBar.SetInput` | src/assets/components/Search.jsx:42-58 | typing sets the input and recomputes its suggestions from the first-render collection, with the same dropdown rule |
| `Search.SearchBar.SetVenues` | src/assets/components/Search.jsx:29-58 | a store update replaces `venues` and re-runs the effect, but the suggestions are still computed from the first-render collection |
| `Search.SearchBar.SetVenuesRebuilt` | src/assets/components/Search.jsx:29-58 | with the callback rebuilt on a store update, the suggestions are those of the store's current venues for the same input |
| `Search.CabinSuggested` | src/assets/components/Search.jsx:31-34 | for the collection [Cabin], the input "cab" has Cabin as its one suggestion |
| `Search.StaleCollectionExample` | src/assets/components/Search.jsx:29-58 | a bar rendered with no venues, then given [Cabin] by the store, suggests nothing for "cab"; with the callback rebuilt it suggests Cabin |
| `Search.SearchBar.SelectSuggestion` | src/assets/components/Search.jsx:78-82 | selecting a suggestion clears the input and the suggestions, hides the dropdown and opens the venue's page |
| `Search.SearchBar.StartTextSearch` | src/assets/components/Search.jsx:66-72 | the store's query takes the given text, search mode is on and the results page for that text opens; no other field changes |
| `Search.SearchBar.Submit` | src/assets/components/Search.jsx:60-76 | a blank input changes nothing. With a valid highlight that suggestion is selected. Otherwise the query becomes the trimmed input (case kept), search mode is on and the results page opens. After any non-blank submission the dropdown is hidden |
| `Search.SearchBar.KeyDown` | src/assets/components/Search.jsx:97-135 | while the dropdown is hidden or empty the handler ignores the key without preventing the default, so only Enter acts: it submits the form. With the dropdown open the arrows move the highlight with wrap-around onto a suggestion. In every case Enter has the effect of a submission: a blank input changes nothing, a highlighted suggestion is opened, and otherwise a text search runs with the highlight kept |
| `Search.SearchBar.ClickOutside` | src/assets/components/Search.jsx:85-89 | a press outside the bar hides the dropdown and changes nothing else |
| `EditProfile.Normalise` | src/pages/EditProfile.jsx:40-51 | a missing bio, name or email becomes "". A missing or empty avatar or banner URL becomes its default URL, and a present one is kept. venueManager is `!!` of the fetched value |
| `EditProfile.Change` | src/pages/EditProfile.jsx:71-74 | a text field takes the given string. venueManager takes exactly value === "true". Every other field is unchanged |
| `EditProfile.ShowsManagerNotice` | src/pages/EditProfile.jsx:65-69 | the notice fires only when the change takes the manager flag from true to false |
| `EditProfile.ManagerNoticeOnDemotion` | src/pages/EditProfile.jsx:65-69 | for the two radio values, the notice fires whenever the flag goes from true to false |
| `EditProfile.BuildBody` | src/pages/EditProfile.jsx:88-97 | the body carries the form's bio, avatar URL, banner URL and manager flag |
| `EditProfile.BodyOmitsIdentity` | src/pages/EditProfile.jsx:88-97 | forms that differ only in name and email build the same body, so neither is sent |
| `EditProfile.UpdateRoundTrip` | src/pages/EditProfile.jsx:40-97 | a profile stored from the body (with the form's name and email) normalises back to the form when its image URLs are not empty |
| `EditProfile.BoolString` | src/pages/EditProfile.jsx:104-107 | the stored flag is "true" or "false", and it is "true" exactly for true |
| `EditProfile.BoolStringRoundTrip` | src/pages/EditProfile.jsx:73 | reading the stored string back the way handleChange reads a radio value gives the flag back |
| `EditProfile.Submit` | src/pages/EditProfile.jsx:88-107 | the body built from the form is sent. On success storage key "venueManager" holds the form's flag as "true"/"false" and nothing else changes. On failure storage is untouched |
| `Auth.AfterLogin` | src/assets/auth.js:14-19 | token, userId, userName and userImage hold accessToken, email, name and avatar.url. Without an avatar the first three are written and userImage is left as it was. Every other key is unchanged |
| `Auth.Login` | src/assets/auth.js:5-25 | an ok response writes the session keys in order; a missing avatar throws after the first three. A rejected response leaves storage unchanged and throws its error body |
| `Auth.Register` | src/assets/auth.js:27-43 | succeeds exactly on an ok response, otherwise throws the error body; it has no access to storage |
| `Auth.AfterLogout` | src/assets/auth.js:45-49 | exactly token, userId, userName and userImage are removed; every other entry is kept |
| `Auth.Logout` | src/assets/auth.js:45-51 | the four removals leave the storage described by AfterLogout, and the browser is sent to "/" |
| `Auth.LogoutIdempotent` | src/assets/auth.js:46-49 | logging out twice leaves the same storage as logging out once |
| `Auth.LogoutKeepsOtherKeys` | src/assets/auth.js:46-49 | a key outside the session, such as "venueManager", survives logout with its value |
| `Auth.LoginThenLogout` | src/assets/auth.js:14-19 | logging in and then out leaves the storage that logging out alone leaves |
| `Session.IsLoggedIn` | src/assets/components/functions.js:32-34 | true exactly when a non-empty "token" is stored; it cannot change storage |
| `Session.CheckLogin` | src/assets/components/functions.js:36-41 | redirects to "/" exactly when isLoggedIn would be false; it cannot change storage |
| `Session.LoginEstablishesSession` | src/assets/components/functions.js:32-34 | after a successful login the visitor is logged in exactly when the access token is not empty |
| `Session.LogoutEndsSession` | src/assets/components/functions.js:32-34 | after logout the visitor is not logged in |
| `VenueStore.Store.constructor` | src/assets/useVenueStore.js:7-9 | the store starts with no venues and not loaded |
| `VenueStore.Store.SetVenues` | src/assets/useVenueStore.js:8 | the collection is replaced wholesale; the flag is unchanged |
| `VenueStore.Store.SetIsLoaded` | src/assets/useVenueStore.js:10 | the flag takes the given value; the collection is unchanged |
| `VenueStore.Store.Partialize` | src/assets/useVenueStore.js:14-17 | the persisted snapshot holds exactly the venues and the loaded flag |
| `VenueStore.Store.Hydrate` | src/assets/useVenueStore.js:14-17 | restoring a persisted snapshot reproduces it as the store's partialized state |

## Left out

- Rendering, CSS classes, fade and scale animations, toasts, alerts and console logging: they hold no logic that can be stated. The strength bar's colour is kept only as an abstract colour value.
- Every `fetch` call, its URL, headers and JSON encoding. Each operation gets the response as an input instead.
- The 150 ms debounce and its cancel (Search.jsx:29-30, 49, 56). The model recomputes suggestions at once.
- The registration alert and the delayed redirect after a profile update (EditProfile.jsx:109-112). These are timers and browser effects.
- The edit-profile page's login guard on mount (EditProfile.jsx:8-15), its loading flag, and the failure path of the profile fetch (EditProfile.jsx:52-56). These only log, toast or navigate. Storage and the form are left as they are.
- The JSON serialisation of the persisted store under the storage key "venue-storage". The model stops at the snapshot that `partialize` returns. Hydrate stands for the persistence library's restore step.
- `resetFilters`, and the store's `setSearchQuery`/`setIsSearchMode`: the store file does not define them. Query and mode are plain fields of the search bar.
- Event-listener wiring for keydown and mousedown, and `scrollIntoView`.
- Navigation is recorded only as the target of the last `navigate` call (or of the `window.location` redirect). The router is not modelled.
- Text.ToLower: lower-cases only A-Z, whereas `toLowerCase` also folds other Unicode letters. A search for a non-ASCII name is therefore case-sensitive in the model.
- PasswordStrength.GetPasswordScore: the length test counts Unicode code points, where `password.length` counts UTF-16 units. The two differ for characters outside the Basic Multilingual Plane.
- Auth.AfterLogin: the login data's fields are plain strings. In the source a missing field (for example an avatar without `url`) is stored by `setItem` as the string "undefined", and such a token counts as logged in. The model does not represent that case.
- Profile text fields are modelled as strings or missing. A non-string value from the API is not modelled.
- The map view, the venue pages and routing: they are outside this model.

## Findings

| source | as written | input that shows it | evidently intended | confidence | as-written member | corrected member |
|---|---|---|---|---|---|---|
| src/assets/components/Search.jsx:29-40 | the debounced callback is created once, on the first render, and filters that render's `venues` for good; a later `setVenues` re-runs the effect (Search.jsx:58), but the new collection is never searched | mount the bar with no venues, let the store receive [Cabin], type "cab": no suggestion, although Cabin matches | suggestions come from the store's current venues | not executed | `Search.SearchBar.SetVenues`, `Search.StaleCollectionExample` | `Search.SearchBar.SetVenuesRebuilt`, `Search.CabinSuggested` |
