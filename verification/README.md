# TV Tracker watchlist store and provider normaliser, in Dafny

This project models the core of TV Tracker, a small app that tracks upcoming
TV episodes. The model has three parts:

- **Show records** (`shows.dfy`, module `Shows`): the `TVShow`, `Detail`,
  `Episode` and `Network` value types. Their equality is field-wise, which is
  what Swift's synthesized `Hashable` gives.
- **Provider-record normaliser** (`tmdb.dfy`, module `TMDb`): the decoded
  wire structs of the metadata provider (TMDb). It also holds the pure
  conversions to `TVShow`:
  - integer ids become decimal strings;
  - image paths are prefixed with `https://image.tmdb.org/t/p/w500`;
  - search results carry no detail;
  - detail responses always carry a `Detail`.
- **Watchlist store** (`store.dfy`, module `Store`): the class
  `DataManager`. It has the list field `tvShows` and the derived id set
  `tvShowIDs`. Every assignment goes through `SetTVShows`, the `didSet`
  pipeline:
  - an equal list changes nothing;
  - any other list is sorted and the id set is recomputed.

  The sort comparator puts cancelled shows last. The other shows are ordered
  by next air date, and a missing date counts as `distantFuture`. The module
  also has remove, membership, add from the search screen, and the refresh
  loop that keeps the old record wherever a fetch failed.

`optional.dfy` holds `Option`, which stands for Swift's optionals.

Modelling choices:

- `Date` is an integer: whole seconds since Foundation's reference date.
  `DistantFuture` is `Date.distantFuture`, 63113904000 s, which is
  1 January 4001. It is a constant, not an added top element, so a real date
  at or after it would tie with a missing date or pass it. The ordering
  lemmas say `date < DistantFuture` where this matters.
- URLs are strings.
- The `yyyy-MM-dd` date formatter is a parameter `parse: string -> Option<Date>`.
- A network fetch is an input: `Option<TVShow>` per stored show in a refresh,
  with `None` for a thrown error. The decoded response is an input to the
  conversions.
- `ParseDecimal` and `ImagePath` are not in the source. They are the inverses
  of `String(_: Int)` and `URL(tmdbPath:)`, defined so that the round-trip
  lemmas can state that no information is lost.
- Swift's `sort` is not documented as stable. So `SetTVShows` promises only
  "sorted under the comparator, and a permutation of the assigned list". The
  implementation behind it is an insertion sort (`Insert`, `SortShows`).

Three behaviours of the code that a reader might not expect, which the model
keeps:

- `URL(tmdbPath: "")` is the bare base URL, not `nil`. Only a `nil` path gives
  `nil` (`EmptyPathGivesBaseURL`).
- The store does not enforce unique ids. `Append` adds a duplicate, and
  `AppendDuplicateId` shows that the id set still has one member for it. Only
  the search screen checks `hasAdded` before adding. `AddIfNotAdded` and
  `GuardedAppendKeepsUniqueIds` show that this guarded path keeps ids unique.
- A detail-derived record has no first air date (`FromDetails`). So a
  successful refresh drops an earlier first air date (`RefreshWithDetails`).

## Model

| member | source | states |
|---|---|---|
| Shows.ShowEqualityIsFieldwise | Shared/Models/TVShow.swift:10-18 | two shows are equal iff all six fields are equal, nested values included (the equality the setter's guard uses) |
| Shows.DetailPresenceMatters | Shared/Models/TVShow.swift:18-25 | `detail == nil` differs from a detail with no next episode; the order of `networks` takes part in equality |
| TMDb.DecimalRoundTrip | API/TMDb.swift:66 | the decimal string of a provider id reads back as that id, negative ids included |
| TMDb.DecimalInjective | API/TMDb.swift:66 | distinct provider ids give distinct string ids |
| TMDb.IntToDecimal | API/TMDb.swift:66 | `String(_: Int)` (also used at :132, :138, :145): a non-empty string that starts with `-` exactly for a negative id, followed by the digits of the magnitude |
| TMDb.NatToDecimal | API/TMDb.swift:66 | the digits of a magnitude: non-empty, starting with a digit, with no leading zero except the single "0" |
| TMDb.ImageURL | API/TMDb.swift:151-155 | the URL is nil iff the path is nil; otherwise it is the fixed base followed directly by the path (prefix, length and suffix all stated) |
| TMDb.ImageURLRoundTrip | API/TMDb.swift:151-155 | stripping the base from the built URL gives back the path, nil for nil |
| TMDb.EmptyPathGivesBaseURL | API/TMDb.swift:153 | an empty path gives the bare base URL, not nil |
| TMDb.ParseOptionalDate | API/TMDb.swift:69 | an absent date string gives nil; a present one gives the formatter's result, nil when unparseable |
| TMDb.NetworkFrom | API/TMDb.swift:143-147 | the network's id is the decimal string of the provider id (and reads back as it), the name is copied, and the logo URL is `ImageURL(logo_path)`, so nil for a nil path |
| TMDb.EpisodeFrom | API/TMDb.swift:136-141 | the id is the decimal string of the provider id; name, episode number and season (`season_number`) are copied; the air date is the parse of `air_date`; the thumbnail is `ImageURL(still_path)` |
| TMDb.NetworksFrom | API/TMDb.swift:131 | networks are mapped one to one, in order: entry i is the conversion of provider network i |
| TMDb.FromSearchResult | API/TMDb.swift:63-73 | a search result gets the decimal string of its id, its name, poster and backdrop URLs by the image rule, the parsed first air date, and no detail |
| TMDb.FromDetails | API/TMDb.swift:129-134 | a detail response gets the decimal id, its name and image URLs, and always a detail: seasons and production status copied, next episode nil iff absent and otherwise the converted episode, networks converted in order; the first air date is nil |
| TMDb.Details | API/TMDb.swift:21-26 | a detail fetch that returns gives exactly the converted detail response (with detail and no first air date); a thrown error gives no show |
| TMDb.DetailsResults | Shared/Models/DataManager.swift:70 | the `details(for:)` outcome for each stored show, in order: entry i is the outcome of response i |
| TMDb.SearchResults | API/TMDb.swift:18 | one show per provider result, in provider order: entry i is the conversion of result i, with its id and name and no detail |
| TMDb.SearchIdsDistinct | API/TMDb.swift:18 | search results with different provider ids become shows with different ids |
| TMDb.SearchAndDetailsAgreeOnId | API/TMDb.swift:66 | a search result and a detail response for the same provider id give the same show id |
| Store.AirDateKey | Shared/Models/DataManager.swift:32 | the key is the next episode's air date when detail, next episode and date are all present, and `distantFuture` when any of them is missing |
| Store.InProduction | Shared/Models/DataManager.swift:22-23 | `detail?.inProduction ?? true`: true without detail, otherwise the detail's production flag |
| Store.IsCancelled | Shared/Models/DataManager.swift:22-23 | a show is cancelled iff it has detail and that detail says it is not in production |
| Store.SortsBefore | Shared/Models/DataManager.swift:20-33 | the `sort` closure: a cancelled first show never comes first; a non-cancelled show comes before a cancelled one; otherwise order is by `AirDateKey` |
| Store.SortsBeforeIsStrictWeakOrder | Shared/Models/DataManager.swift:20-33 | the comparator is irreflexive and transitive, and incomparability is transitive |
| Store.CancelledGoLast | Shared/Models/DataManager.swift:22-28 | a cancelled show never sorts before another show; every non-cancelled show sorts before it; two cancelled shows are incomparable |
| Store.AirDateOrder | Shared/Models/DataManager.swift:22-32 | between shows in production (no detail counts as in production), order is by next air date; a real date before `distantFuture` sorts before a missing one |
| Store.SortedCancelledSuffix | Shared/Models/DataManager.swift:20-29 | in a sorted list, everything after a cancelled show is cancelled |
| Store.SortedByAirDate | Shared/Models/DataManager.swift:31-32 | in a sorted list, non-cancelled shows appear by ascending next air date |
| Store.SortedPosition | Shared/Models/DataManager.swift:20-33 | in a sorted list, a show that must come before another stands before it |
| Store.Insert | Shared/Models/DataManager.swift:20 | inserting adds exactly the one show to the list's multiset |
| Store.InsertSorted | Shared/Models/DataManager.swift:20 | inserting into a sorted list keeps it sorted |
| Store.SortShows | Shared/Models/DataManager.swift:20-33 | the result is sorted under the comparator and is a permutation of the input |
| Store.IdsOf | Shared/Models/DataManager.swift:34 | the id set holds an id iff some show in the list has it |
| Store.AppendDuplicateId | Shared/Models/DataManager.swift:34 | appending a show whose id is present leaves the id set as it was |
| Store.PermutationKeepsUniqueIds | Shared/Models/DataManager.swift:20-33 | reordering a list with unique ids keeps them unique |
| Store.GuardedAppendKeepsUniqueIds | Shared/Views/SearchView.swift:64-66 | appending a show that `hasAdded` rejects, then sorting in any way, keeps ids unique |
| Store.RemoveAllWithId | Shared/Models/DataManager.swift:47 | `removeAll(where:)`: no show with the id is left, and when no show has the id the list comes back unchanged |
| Store.RemoveAllCounts | Shared/Models/DataManager.swift:47 | every show with the id is gone, duplicates included, and every other show keeps its multiplicity |
| Store.RemoveAllKeepsOrder | Shared/Models/DataManager.swift:47 | removal keeps the order of what is left: filtering a concatenation is concatenating the filtered parts |
| Store.RemoveAllIds | Shared/Models/DataManager.swift:47 | after removal the id set is the old one without that id |
| Store.ReconcileAt | Shared/Models/DataManager.swift:65-78 | the collected list has the stored length; entry i is the fetched record if fetch i succeeded, else the stored record unchanged |
| Store.ReconcileAllFailed | Shared/Models/DataManager.swift:72-75 | when every fetch fails, the collected list is the stored list |
| Store.ReconcileKeepsIds | Shared/Models/DataManager.swift:65-78 | when each fetched record has the id it was fetched for, the ids are unchanged |
| Store.Reconciled | Shared/Models/DataManager.swift:69-75 | the record kept for one show: the fetched record on success, the stored record on failure |
| Store.Reconcile | Shared/Models/DataManager.swift:66-78 | the list the refresh loop builds, one entry per stored show; it has the stored length |
| Store.RefreshWithDetails | Shared/Models/DataManager.swift:68-76 | each refreshed entry has detail and no first air date; each failed entry is the stored one |
| Store.SameMultisetSameIds | Shared/Models/DataManager.swift:34 | sorting does not change the id set |
| Store.DataManager.constructor | Shared/Models/DataManager.swift:17 | a new store is empty, with an empty id set |
| Store.DataManager.SetTVShows | Shared/Models/DataManager.swift:17-35 | an equal list changes nothing; otherwise the stored list is a sorted permutation of the assigned one and the id set matches it |
| Store.DataManager.HasAdded | Shared/Models/DataManager.swift:50-52 | true iff some stored show has the given show's id |
| Store.DataManager.Append | Shared/Views/SearchView.swift:66 | the stored list gains the show, its id is in the set, and nothing checks uniqueness |
| Store.DataManager.AddIfNotAdded | Shared/Views/SearchView.swift:64-66 | adds only when `hasAdded` is false, keeps unique ids unique, and afterwards `hasAdded` holds |
| Store.DataManager.Remove | Shared/Models/DataManager.swift:46-48 | every show with the id is dropped, the rest kept, the id set loses that id, and `hasAdded` is false; removing an id no stored show has changes nothing (the setter's equality guard) |
| Store.DataManager.CollectNextEpisodeAirDates | Shared/Models/DataManager.swift:65-79 | the loop's result is the per-entry reconciliation of the stored list with the fetch outcomes |
| Store.DataManager.LoadNextEpisodeAirDates | Shared/Models/DataManager.swift:54-61 | the store ends as a sorted permutation of the reconciled list; if the reconciled list equals the stored one (every fetch failed, or returned the stored record), nothing changes |
| Store.SortedChainOfFour | Shared/Models/DataManager.swift:20-33 | four shows that form a chain under the comparator have exactly one sorted arrangement, the chain itself |
| Store.Manifest | Shared/Models/DataManager.swift:87-92 | the preview's Manifest entry is cancelled |
| Store.DriveToSurvive | Shared/Models/DataManager.swift:93-98 | the preview's Formula 1 entry is in production with no next episode, so its key is `distantFuture` |
| Store.TedLasso | Shared/Models/DataManager.swift:99-116 | the preview's Ted Lasso entry is in production; its key is the parsed date of 2021-07-23, or `distantFuture` if that date does not parse |
| Store.HomeBeforeDark | Shared/Models/DataManager.swift:117-134 | the preview's Home Before Dark entry is in production; its key is the parsed date of 2021-06-25, or `distantFuture` if that date does not parse |
| Store.PreviewShows | Shared/Models/DataManager.swift:86-135 | the preview list has four shows with the ids 79696, 87083, 97546 and 98161 |
| Store.PreviewSortsAsDisplayed | Shared/Models/DataManager.swift:86-135 | when both dates parse, every sorted arrangement of the preview list is Home Before Dark, Ted Lasso, Formula 1, Manifest |
| Store.TestManager | Shared/Models/DataManager.swift:137-144 | the preview store holds the preview list, in that order when both dates parse |

## Left out

- HTTP requests, JSON decoding and the API key (`API/HTTP.swift`, the request halves of `TMDb.search` and `TMDb.details`). Decoded responses and fetch outcomes are inputs. A thrown error is `None` for a detail fetch. In `search` the error propagates to the caller, which is not modelled.
- `URL(string:)` validity checking: URLs are strings, so `ImageURL` never fails for a present path.
- `DateFormatter` parsing and Foundation's `Double`-based `Date`: the parser is a parameter and dates are integers.
- Persistence (`Shared/Models/DiskHelper.swift`) and app start-up (`Shared/TVTrackerApp.swift`). The list loaded at start-up is assigned through the same setter, so it is `SetTVShows`.
- Concurrency in `loadNextEpisodeAirDates`: `async`, the hop to the main queue, and refreshes that overlap. A refresh is one sequential loop followed by one assignment.
- Change publication (`@Published`, observers) and the request token field.
- The `print(error)` logging of a failed fetch in the refresh loop: it has no effect on the list.
- Unicode canonical equivalence: Swift compares `String` values (and members of `Set<String>`) by canonical equivalence, while the model compares code points. Decimal ids are ASCII, so this can only affect the equality guard when two names differ in Unicode normalisation.
- The debouncer, image loading and caching, SwiftUI views, relative date formatting, and the floating-point layout and time constants.
