# Aozora library sync and seasonal chart, modelled in Dafny

This project models the logic at the core of the Aozora (AnimeNow) iOS app in Dafny, and proves properties of that model.

**Library sync.** The app decides whether the user's MyAnimeList library is stale:
- It is stale when there is no last sync date.
- It is also stale when a whole calendar day has passed since the last sync.

On the stale path, the app:
- turns the fetched entries into `AnimeProgress` records;
- upserts them into the Realm progress store, keyed by `animeID`.

On both paths, the app then:
- lists the stored ids;
- looks those titles up in Parse's local datastore;
- works out which ids it did not find;
- attaches to each title without progress the first stored record for its id;
- stamps the sync date.

**Cache or network.** The companion query helper `findCachedOrNetwork` serves the objects pinned under a name when there are some and they have not expired. Otherwise it asks the network. A non-empty network answer replaces the pin and marks the name as freshly fetched.

**Seasonal chart and cells.** On the presentation side, the model covers:
- the seasonal chart's per-section sort and search;
- its stored sort and layout preferences;
- its section and item counts;
- its header titles and heights;
- the texts and visibility an anime cell derives from a title: the information line, the countdown, the aired variants and the in-library marker.

SDK calls are replaced as follows:
- Each Parse query and the MyAnimeList request is an input: the task value it completes with (`Task<T>`: a result, possibly nil, or an error).
- The defaults store, the Realm store and Parse's pins are Dafny classes over maps and sequences, which Realm's `add` and Parse's pin and unpin calls update.
- The asynchronous continuation chains run as straight-line code.
- The current time is a parameter.

Files:
- `foundation.dfy`: options, tasks, dates, the defaults store, integer rendering and string search.
- `sequences.dfy`: `filter` and `sort`.
- `anime.dfy`: the records.
- `library_sync.dfy`
- `cached_query.dfy`
- `chart.dfy`
- `anime_cell.dfy`

## Model

| member | source | states |
|---|---|---|
| Foundation.TruncatingDivisionSpec | AnimeNow/LibrarySyncController.swift:25-29 | calendar components truncate toward zero: quotient and remainder carry the sign of the interval, the remainder is smaller than the unit |
| Foundation.AtLeastOneWholeDay | AnimeNow/LibrarySyncController.swift:25-29 | the day component is at least 1 exactly when at least 86400 seconds have elapsed |
| Foundation.UserDefaults.SetObject | AnimeNow/LibrarySyncController.swift:38 | `setObject(_:forKey:)` replaces that key only |
| Foundation.UserDefaults.CompletedAction | AnimeNow/PFQuery+LocalDatastore.swift:41 | records the action's completion time and leaves the stored values alone |
| Foundation.Description | AnimeNow/AnimeCell.swift:121 | an integer's decimal text is non-empty and made of digits and a minus sign |
| Foundation.NatDescriptionRoundTrip | AnimeNow/AnimeCell.swift:121 | a natural number's digits read back as that number |
| Foundation.DescriptionRoundTrip | AnimeNow/AnimeCell.swift:121 | an integer's decimal text reads back as that integer, so episode numbers and eta components are shown losslessly |
| Foundation.IndexFromFindsFirst | AnimeNow/ChartViewController.swift:484-485 | the search from an offset succeeds iff the needle occurs at or after it, and reports the first such occurrence |
| Foundation.RangeOfStringFindsFirst | AnimeNow/ChartViewController.swift:484-485 | `rangeOfString` finds exactly the non-empty needles that occur in the text, at their first occurrence |
| Foundation.JoinHoldsParts | AnimeNow/ChartViewController.swift:485 | every genre occurs unchanged in the genres joined with a separator |
| Foundation.StringLessTrichotomy | AnimeNow/ChartViewController.swift:229 | string `<` is asymmetric, and two strings are equal or ordered one way |
| Foundation.StringLessTransitive | AnimeNow/ChartViewController.swift:229 | string `<` is transitive |
| Sequences.FilterCount | AnimeNow/ChartViewController.swift:488 | `filter` keeps every accepted element as often as it occurs and drops every other |
| Sequences.FilterAppend | AnimeNow/ChartViewController.swift:488 | `filter` keeps order: it distributes over concatenation |
| Sequences.FilterSize | AnimeNow/ChartViewController.swift:488 | `filter` never grows a sequence; it keeps its length iff every element is accepted, and leaves nothing iff none is |
| Sequences.FilterMembership | AnimeNow/ChartViewController.swift:488 | an element survives `filter` iff it was present and accepted |
| Sequences.InsertPermutation | AnimeNow/ChartViewController.swift:222-236 | inserting adds exactly the one element |
| Sequences.SortByPermutation | AnimeNow/ChartViewController.swift:222-236 | `sort` rearranges a section without adding or dropping a title, whatever the comparator |
| Sequences.InsertSorted | AnimeNow/ChartViewController.swift:222-236 | inserting into a sorted sequence under a strict weak ordering keeps it sorted |
| Sequences.SortBySorted | AnimeNow/ChartViewController.swift:222-236 | with a strict weak ordering, the sorted section has no later title less than an earlier one |
| AnimeModel.AnimeStatusFromRaw | AnimeNow/AnimeCell.swift:131 | parsing a status yields a case whose raw value is the parsed text; nothing is parsed iff no status has that raw value |
| LibrarySync.ShouldSyncData | AnimeNow/LibrarySyncController.swift:20-35 | with no stored date it is true; with one, true iff at least a whole day (86400 s) has passed |
| LibrarySync.SyncedDataDefersNextSync | AnimeNow/LibrarySyncController.swift:37-40 | after the date is stamped at `syncedAt`, the library is stale again exactly once a day has passed since then, whatever was stored before |
| LibrarySync.LastFor | AnimeNow/LibrarySyncController.swift:61-63 | the batch record kept for an id is the batch's last record for it; there is none iff the batch has no record for the id |
| LibrarySync.UpsertOneLookup | AnimeNow/LibrarySyncController.swift:61-63 | after an upsert the key holds the new record and every other key is unchanged |
| LibrarySync.UpsertOneKeysUnique | AnimeNow/LibrarySyncController.swift:61-63 | an upsert keeps the primary key unique and adds only the new record |
| LibrarySync.UpsertAllLookup | AnimeNow/LibrarySyncController.swift:61-63 | after `add(_, update: true)` each fetched id holds its last fetched record and every other id what it held before |
| LibrarySync.UpsertAllKeysUnique | AnimeNow/LibrarySyncController.swift:61-63 | a batch upsert never makes two records with the same key |
| LibrarySync.ProgressStore.Add | AnimeNow/LibrarySyncController.swift:61-63 | the write leaves the store equal to the batch upsert of its old contents, with unique keys |
| LibrarySync.BuildProgress | AnimeNow/LibrarySyncController.swift:50-59 | the loop builds one record per fetched entry, in order, with the entry's fields |
| LibrarySync.CollectIds | AnimeNow/LibrarySyncController.swift:94-98 | the loop lists every stored id, in store order |
| LibrarySync.MissingIdsSpec | AnimeNow/LibrarySyncController.swift:112-116 | an id is missing iff it was asked for and no found title carries it; it is listed as often as asked, in `idList` order |
| LibrarySync.AttachFindsRecord | AnimeNow/LibrarySyncController.swift:137-148 | a title without progress gets a record iff the store has one for its id; the record is for that id, and with unique keys it is the only one |
| LibrarySync.LibrarySyncController.SyncedData | AnimeNow/LibrarySyncController.swift:37-40 | the last sync date becomes `now` and no other key changes |
| LibrarySync.LibrarySyncController.FetchAllAnimeProgress | AnimeNow/LibrarySyncController.swift:90-155 | a failed local fetch returns its error and changes nothing. Otherwise it returns the found titles (a non-empty local result, else none) and the missing ids. A title with progress keeps it; one without gets its first stored record. The sync date is stamped and the store is unchanged |
| LibrarySync.LibrarySyncController.FetchAnimeList | AnimeNow/LibrarySyncController.swift:42-71 | the call succeeds iff the local fetch succeeds and, when stale, the MyAnimeList request does too. When stale, a failed request fails the whole call with its error and no change; a successful one is upserted before the join. Otherwise a failed local fetch fails the call with the local error. When not stale, the store is untouched. Every successful call ends with the join and the sync stamp |
| CachedQuery.LocalDatastore.UnpinAllObjectsWithName | AnimeNow/PFQuery+LocalDatastore.swift:42 | the pin becomes empty; other pins are unchanged |
| CachedQuery.LocalDatastore.PinAll | AnimeNow/PFQuery+LocalDatastore.swift:44 | the objects are added to the pin; other pins are unchanged |
| CachedQuery.CacheHit | AnimeNow/PFQuery+LocalDatastore.swift:29-35 | a fresh non-empty pin is returned as it is, with no network query and nothing re-pinned |
| CachedQuery.QueriesNetworkWhen | AnimeNow/PFQuery+LocalDatastore.swift:29-31 | the network is queried iff the pinned read gave an array that is empty or expired |
| CachedQuery.RepinsNetworkAnswer | AnimeNow/PFQuery+LocalDatastore.swift:39-47 | the pin is replaced iff the network was queried and answered a non-empty array; then the pin holds that answer and it is returned |
| CachedQuery.NeverMixes | AnimeNow/PFQuery+LocalDatastore.swift:19-49 | the result is the whole pin, the whole network answer or empty. An empty network answer gives empty even over an expired pin, and a pinned read that is no array gives empty |
| CachedQuery.FindCachedOrNetwork | AnimeNow/PFQuery+LocalDatastore.swift:15-51 | the returned task and the network query follow the decision above. The pin is replaced and the name stamped fresh only when re-pinning; otherwise neither changes |
| Chart.SortTypeFromRaw | AnimeNow/ChartViewController.swift:68 | a parsed sort type has the parsed raw value; nothing is parsed iff no sort type has it |
| Chart.LayoutTypeFromRaw | AnimeNow/ChartViewController.swift:82 | a parsed layout has the parsed raw value; nothing is parsed iff no layout has it |
| Chart.SortTypePreference | AnimeNow/ChartViewController.swift:66-78 | reading returns the sort type last set. With the key absent, not a string or naming no sort type, it returns `.Rating` |
| Chart.LayoutTypePreference | AnimeNow/ChartViewController.swift:80-92 | reading returns the layout last set. With the key absent, not a string or naming no layout, it returns `.Chart` |
| Chart.RankLessNotStrictWeak | AnimeNow/ChartViewController.swift:225 | with ranks 1, 0 and 2, the Rating comparator makes 1 and 0 incomparable, and 0 and 2 incomparable, yet orders 1 before 2: it is not a strict weak ordering |
| Chart.TitleLessIsStrictWeak | AnimeNow/ChartViewController.swift:229 | the Title comparator is a strict weak ordering on any section |
| Chart.SortSectionSpec | AnimeNow/ChartViewController.swift:222-236 | every sort type keeps the section's titles and multiplicities. Popularity, Title and NextAiringEpisode order it ascending by their key; `.None` leaves it unchanged |
| Chart.SearchResultSpec | AnimeNow/ChartViewController.swift:475-491 | the section count is kept and an empty text keeps everything. Otherwise each section keeps exactly the matching titles, as often as they occur, in their order |
| Chart.SearchFindsTitleAndGenres | AnimeNow/ChartViewController.swift:483-486 | searching for a title's full title or for one of its full genre names finds it |
| Chart.HeaderTitlesMatchSections | AnimeNow/ChartViewController.swift:394-402 | sections 0-4 are headed TV, Movie, OVA, ONA, Special, matching the section order built at line 184; any other section has an empty title |
| Chart.ChartViewController.SetDataSource | AnimeNow/ChartViewController.swift:46-50 | assigning `dataSource` also sets `filteredDataSource` to it and changes nothing else |
| Chart.ChartViewController.SetCurrentSortType | AnimeNow/ChartViewController.swift:74-77 | stores the raw value under "Season.SortType"; the getter then returns the value set |
| Chart.ChartViewController.SetCurrentLayoutType | AnimeNow/ChartViewController.swift:88-91 | stores the raw value under "Season.LayoutType"; the getter then returns the value set |
| Chart.ChartViewController.SearchBarTextDidChange | AnimeNow/ChartViewController.swift:475-491 | `filteredDataSource` becomes the search result for the search bar's text; `dataSource` is unchanged |
| Chart.ChartViewController.UpdateSortType | AnimeNow/ChartViewController.swift:215-240 | stores the preference, sorts every section by it (same section count, each a permutation of itself) and re-applies the search |
| Chart.ChartViewController.ShowSeasonalChart | AnimeNow/ChartViewController.swift:182-186 | with a season found, the last one's five sections become the data source, sorted by the stored preference, the filter is re-applied and the preference is written back; with none, the lists and the defaults are unchanged. The selected list, the seasons and the completed actions never change |
| Chart.AllSeasonsCounts | AnimeNow/ChartViewController.swift:336-350 | in the all-seasons list there is one section, and any section asked for holds one item per season, whatever the data source and the search hold |
| Chart.SectionCountsFollowSearch | AnimeNow/ChartViewController.swift:336-350 | while the filtered lists hold the search result (as `searchBar(_:textDidChange:)`, `updateSortType` and a fetched season leave them; a bare assignment of `dataSource` shows the unfiltered lists until the search runs again), all seasons gives one section with one item per season. Otherwise there is one section per data section, and a section shows at most its titles, all of them iff every title passes the search |
| Chart.HeaderHeightFollowsSearch | AnimeNow/ChartViewController.swift:413-421 | while the filtered lists hold the search result, a header has height zero iff all seasons are shown or no title of the section passes the search; otherwise 88 for the first section and 44 for the rest |
| AnimeCellView.EtaForDateSpec | AnimeNow/AnimeCell.swift:180-187 | the components add up to the time left, up to under a minute. Hours stay under a day and minutes under an hour, all with the sign of the time left |
| AnimeCellView.EtaTimeUnits | AnimeNow/AnimeCell.swift:76-100 | the countdown shows days iff there is a day component, hours iff there is a day or hour component, and always ends with the minutes, which read back |
| AnimeCellView.EtaTimeReadsBack | AnimeNow/AnimeCell.swift:76-100 | the days and hours the countdown shows read back in front of their unit letters 'd' and 'h' |
| AnimeCellView.EtaLabelColorsAgree | AnimeNow/AnimeCell.swift:78-109 | the library and plain label styles share one accent colour. It matches the time label's colour unless the episode is under an hour away |
| AnimeCellView.EtaLabelStyles | AnimeNow/AnimeCell.swift:111-115 | the library label is the plain label padded by one space on each side. The plain label ends with the countdown and shows `nextEpisode` after "Ep " |
| AnimeCellView.AiredTextsNamePreviousEpisode | AnimeNow/AnimeCell.swift:64-73 | every aired text, in both label styles and in the time label, shows episode `nextEpisode - 1` |
| AnimeCellView.AiringStatusTextSpec | AnimeNow/AnimeCell.swift:131-137 | with no next episode the time label reads "Aired" iff the status is finished airing, else "Not aired" |
| AnimeCellView.InformationTextSpec | AnimeNow/AnimeCell.swift:162-177 | the line starts with the type and " · ", then the first studio's name or "?". It ends with " · " and the source only when the source is present and non-empty, and then its length is exactly that of the three parts and two separators |
| AnimeCellView.AnimeCell.ShowCountdown | AnimeNow/AnimeCell.swift:75-119 | sets the countdown texts and colours from the eta, and no other text |
| AnimeCellView.AnimeCell.ShowAired | AnimeNow/AnimeCell.swift:64-73 | sets the aired texts and colours, and leaves the label background as it was |
| AnimeCellView.AnimeCell.ShowNextEpisode | AnimeNow/AnimeCell.swift:62-123 | shows the aired texts or the countdown to the next episode, then the episode number under "Episode" with the dim view shown; the title, genres, information line and in-library marker are kept |
| AnimeCellView.AnimeCell.ShowNotAiring | AnimeNow/AnimeCell.swift:125-137 | clears the eta, number and subtitle, hides the poster's dim view and shows the airing status |
| AnimeCellView.AnimeCell.ConfigureWithAnime | AnimeNow/AnimeCell.swift:47-160 | sets the title, the genres joined with ", ", the information line, the next-episode texts per branch, and hides the in-library marker iff the chosen progress is nil. Properties a branch does not set keep their previous values |

## Left out

- `AnimeNow/UserProfileManager.swift`. It is image picking and cropping plus Parse sign-up and save, with no logic of its own to state.
- Parse, Realm, Bolts and Alamofire internals are not modelled: query execution, pinning in the background, `realm.write` transactions and HTTP. The Realm store and the pins are Dafny state, and the fetches are inputs.
- Concurrency is not modelled:
  - the asynchronous continuations run in order;
  - the unpin that `findCachedOrNetwork` does not wait for is done before the pin.
- `loadAnimeList` never completes when there is no MyAnimeList user name. This is a liveness matter; the model takes the request's outcome as given.
- Force casts become assumptions:
  - The force casts on the MyAnimeList response become the typed `FetchedRecord` input. The method also requires a successful response to carry an array.
  - The stored sync date is required to be a date.
  - The studio's name is a typed `Studio` field, so the force cast of `mainStudio["studio_name"]` (AnimeNow/AnimeCell.swift:166) cannot fail in the model.
  - A title is a non-optional string, so the force unwrap of `anime.title` in the search filter (AnimeNow/ChartViewController.swift:484) cannot fail in the model.
- Times are integer seconds since a reference date; sub-second precision is not modelled.
- Calendar arithmetic is fixed-length: days are 86400 seconds and hours 3600. Time zones and daylight-saving transitions are not modelled.
- `NSUserDefaults.shouldPerformAction` is not modelled: its answer is the `expired` input. `completedAction` is recorded as a name-to-time entry; the helper's own key format is not modelled.
- Layout and formatting are not modelled:
  - `updateLayoutType` and the cell layout sizes;
  - fonts and images;
  - the rating line with its `%.2f` and number formatter;
  - the in-library marker's background colour, which depends on `AnimeProgress.myAnimeListList()`; that function is not part of this model.
- Timers, nib registration, modal presentation, the drop-down and in-app-purchase gating, and `fetchAllSeasons`' remote query are left out. So are `prepareForList`, cell selection and the filter screen's callback, which only route to the operations above.
- Sorting uses a stable insertion sort. For Popularity, Title and NextAiringEpisode it gives one of the orders Swift's unstable `sort` may produce, so ties may be ordered differently in the app. For Rating the model fixes the insertion sort's order and only the permutation is meant: Swift's result for a comparator that is not a strict weak ordering is unspecified.
- Chart.SortSectionSpec: for Rating only the permutation is proved. Its comparator is not a strict weak ordering once a rank of 0 occurs, so no order is promised.
- String comparison and search work on Unicode scalars. There is no normalisation, no grapheme clustering and no locale-aware comparison. Swift's `String <` compares non-ASCII strings by Unicode collation rather than by scalar value, so the model's Title order can sort non-ASCII titles differently from the app.
- Raw values are placeholders. The raw strings of `SortType`, `LayoutType` and `AnimeStatus` are defined in a library that is not part of this model. The model uses "Rating", "Popularity", "Title", "Next Airing Episode" and "None" for the sort types, "Chart", "Poster", "List" and "Seasonal Chart" for the layouts, and "currently airing", "finished airing" and "not yet aired" for the statuses. Only their distinctness matters to the proofs.
- Optional outlets are not modelled. Every cell label is taken to be present, so every `label?.text =` assignment happens.
- The network backfill in `fetchAllAnimeProgress` is modelled as written, that is, disabled (at AnimeNow/LibrarySyncController.swift:119 the call is commented out, and both branches return nil). In the app the missing ids are a local of the second continuation (AnimeNow/LibrarySyncController.swift:110-121) and are thrown away; the model exposes them as an extra result of `FetchAllAnimeProgress`. They are never fetched, and nothing is pinned under "InLibrary".
- The progress store keeps insertion order. Realm's result order is not modelled; the join takes the first record in that order.
- `nextEpisodeDate` is a non-optional date. The app force-unwraps it whenever there is a next episode, and the NextAiringEpisode comparator (AnimeNow/ChartViewController.swift:231) unwraps it for every title in the section.
- `AnimeProgress` is a value. Realm's live objects, which would change when the store is written again, are not modelled.
