/**
 * The list logic of the seasonal chart screen: the sections of a season,
 * the sort of every section by the selected key, the search filter, the
 * stored sort and layout preferences, the collection view's counts and
 * the section headers. Views, layout sizes and the remote queries are not
 * part of it; a fetched season arrives as a value.
 */
module Chart {
  import opened Foundation
  import opened Sequences
  import opened AnimeModel

  const SortTypeDefault: string := "Season.SortType"
  const LayoutTypeDefault: string := "Season.LayoutType"
  const FirstHeaderCellHeight: int := 88
  const HeaderCellHeight: int := 44

  /** Which list the screen shows: one season's chart, or all seasons. */
  datatype SelectedList = SeasonalChartList | AllSeasons

  /** A season's chart, its titles grouped by kind. */
  datatype SeasonalChart = SeasonalChart(title: string, tvAnime: seq<Anime>, movieAnime: seq<Anime>,
                                         ovaAnime: seq<Anime>, onaAnime: seq<Anime>, specialAnime: seq<Anime>)

  // ---------------------------------------------------------------------
  // Preferences
  // ---------------------------------------------------------------------

  /** The sort keys; `NoSort` is the enum's `.None`. */
  datatype SortType = Rating | Popularity | Title | NextAiringEpisode | NoSort
  {
    function RawValue(): string
    {
      match this
      case Rating => "Rating"
      case Popularity => "Popularity"
      case Title => "Title"
      case NextAiringEpisode => "Next Airing Episode"
      case NoSort => "None"
    }
  }

  /** `SortType(rawValue:)`. */
  function SortTypeFromRaw(raw: string): (r: Option<SortType>)
    ensures r.Some? ==> r.value.RawValue() == raw
    ensures r.None? ==> forall t: SortType :: t.RawValue() != raw
  {
    if raw == Rating.RawValue() then Some(Rating)
    else if raw == Popularity.RawValue() then Some(Popularity)
    else if raw == Title.RawValue() then Some(Title)
    else if raw == NextAiringEpisode.RawValue() then Some(NextAiringEpisode)
    else if raw == NoSort.RawValue() then Some(NoSort)
    else None
  }

  /** The layouts; `SeasonalChartLayout` is the enum's `.SeasonalChart`. */
  datatype LayoutType = Chart | Poster | List | SeasonalChartLayout
  {
    function RawValue(): string
    {
      match this
      case Chart => "Chart"
      case Poster => "Poster"
      case List => "List"
      case SeasonalChartLayout => "Seasonal Chart"
    }
  }

  /** `LayoutType(rawValue:)`. */
  function LayoutTypeFromRaw(raw: string): (r: Option<LayoutType>)
    ensures r.Some? ==> r.value.RawValue() == raw
    ensures r.None? ==> forall t: LayoutType :: t.RawValue() != raw
  {
    if raw == Chart.RawValue() then Some(Chart)
    else if raw == Poster.RawValue() then Some(Poster)
    else if raw == List.RawValue() then Some(List)
    else if raw == SeasonalChartLayout.RawValue() then Some(SeasonalChartLayout)
    else None
  }

  /** The getter of `currentSortType`: the stored raw value when it is a
      string naming a sort type, `.Rating` otherwise. */
  function SortTypeFromDefaults(values: map<string, DefaultsValue>): SortType
  {
    if SortTypeDefault in values && values[SortTypeDefault].StringValue?
       && SortTypeFromRaw(values[SortTypeDefault].text).Some?
    then SortTypeFromRaw(values[SortTypeDefault].text).value
    else Rating
  }

  /** The getter of `currentLayoutType`, with default `.Chart`. */
  function LayoutTypeFromDefaults(values: map<string, DefaultsValue>): LayoutType
  {
    if LayoutTypeDefault in values && values[LayoutTypeDefault].StringValue?
       && LayoutTypeFromRaw(values[LayoutTypeDefault].text).Some?
    then LayoutTypeFromRaw(values[LayoutTypeDefault].text).value
    else Chart
  }

  /** Reading the sort preference gives back the last one set, and gives
      `.Rating` when nothing usable is stored. */
  lemma SortTypePreference(values: map<string, DefaultsValue>, t: SortType)
    ensures SortTypeFromDefaults(values[SortTypeDefault := StringValue(t.RawValue())]) == t
    ensures SortTypeDefault !in values ==> SortTypeFromDefaults(values) == Rating
    ensures SortTypeDefault in values && !values[SortTypeDefault].StringValue? ==>
      SortTypeFromDefaults(values) == Rating
    ensures SortTypeDefault in values && values[SortTypeDefault].StringValue? ==>
      (SortTypeFromDefaults(values).RawValue() == values[SortTypeDefault].text
       || (SortTypeFromDefaults(values) == Rating
           && forall u: SortType :: u.RawValue() != values[SortTypeDefault].text))
  {
    var r := SortTypeFromRaw(t.RawValue());
    assert r.Some?;
  }

  /** Reading the layout preference gives back the last one set, and gives
      `.Chart` when nothing usable is stored. */
  lemma LayoutTypePreference(values: map<string, DefaultsValue>, t: LayoutType)
    ensures LayoutTypeFromDefaults(values[LayoutTypeDefault := StringValue(t.RawValue())]) == t
    ensures LayoutTypeDefault !in values ==> LayoutTypeFromDefaults(values) == Chart
    ensures LayoutTypeDefault in values && !values[LayoutTypeDefault].StringValue? ==>
      LayoutTypeFromDefaults(values) == Chart
    ensures LayoutTypeDefault in values && values[LayoutTypeDefault].StringValue? ==>
      (LayoutTypeFromDefaults(values).RawValue() == values[LayoutTypeDefault].text
       || (LayoutTypeFromDefaults(values) == Chart
           && forall u: LayoutType :: u.RawValue() != values[LayoutTypeDefault].text))
  {
    var r := LayoutTypeFromRaw(t.RawValue());
    assert r.Some?;
  }

  // ---------------------------------------------------------------------
  // Sections, sorting and searching
  // ---------------------------------------------------------------------

  /** The sections of a season's chart, in the order the headers name them. */
  function ChartSections(season: SeasonalChart): seq<seq<Anime>>
  {
    [season.tvAnime, season.movieAnime, season.ovaAnime, season.onaAnime, season.specialAnime]
  }

  /** The Rating comparator on ranks: a lower rank first, but a rank of 0
      is never less than anything. */
  predicate RankLess(x: int, y: int)
  {
    x < y && x != 0
  }

  predicate RatingLess(a: Anime, b: Anime)
  {
    RankLess(a.rank, b.rank)
  }

  predicate PopularityLess(a: Anime, b: Anime)
  {
    a.popularityRank < b.popularityRank
  }

  predicate TitleLess(a: Anime, b: Anime)
  {
    StringLess(a.title, b.title)
  }

  predicate NextAiringLess(a: Anime, b: Anime)
  {
    a.nextEpisodeDate < b.nextEpisodeDate
  }

  /** The closure `updateSortType` sorts one section with. */
  function SortSection(animeArray: seq<Anime>, sortType: SortType): seq<Anime>
  {
    match sortType
    case Rating => SortBy(animeArray, RatingLess)
    case Popularity => SortBy(animeArray, PopularityLess)
    case Title => SortBy(animeArray, TitleLess)
    case NextAiringEpisode => SortBy(animeArray, NextAiringLess)
    case NoSort => animeArray
  }

  function SortSections(dataSource: seq<seq<Anime>>, sortType: SortType): (r: seq<seq<Anime>>)
  {
    seq(|dataSource|, i requires 0 <= i < |dataSource| => SortSection(dataSource[i], sortType))
  }

  /** The Rating comparator is not a strict weak ordering once a rank of 0
      is present: 1 and 0 are incomparable, 0 and 2 are incomparable, yet
      1 is less than 2. So only a permutation is promised for Rating. */
  lemma RankLessNotStrictWeak()
    ensures !RankLess(1, 0) && !RankLess(0, 1)
    ensures !RankLess(0, 2) && !RankLess(2, 0)
    ensures RankLess(1, 2)
  {
  }

  lemma TitleLessIsStrictWeak(s: seq<Anime>)
    ensures StrictWeakOrderOn(s, TitleLess)
  {
    forall a, b | a in s && b in s && TitleLess(a, b)
      ensures !TitleLess(b, a)
    {
      StringLessTrichotomy(a.title, b.title);
    }
    forall a, b, c | a in s && b in s && c in s && !TitleLess(a, b) && !TitleLess(b, c)
      ensures !TitleLess(a, c)
    {
      StringLessTrichotomy(a.title, b.title);
      StringLessTrichotomy(b.title, c.title);
      StringLessTrichotomy(a.title, c.title);
      if StringLess(b.title, a.title) && StringLess(c.title, b.title) {
        StringLessTransitive(c.title, b.title, a.title);
      }
    }
  }

  /** Sorting a section rearranges it: same titles, same multiplicities.
      Popularity, Title and NextAiringEpisode order it ascending by their
      key; `.None` leaves it as it was. */
  lemma SortSectionSpec(animeArray: seq<Anime>, sortType: SortType)
    ensures multiset(SortSection(animeArray, sortType)) == multiset(animeArray)
    ensures |SortSection(animeArray, sortType)| == |animeArray|
    ensures var r := SortSection(animeArray, sortType);
      sortType == Popularity ==>
        forall i, j :: 0 <= i < j < |r| ==> r[i].popularityRank <= r[j].popularityRank
    ensures var r := SortSection(animeArray, sortType);
      sortType == Title ==>
        forall i, j :: 0 <= i < j < |r| ==> !StringLess(r[j].title, r[i].title)
    ensures var r := SortSection(animeArray, sortType);
      sortType == NextAiringEpisode ==>
        forall i, j :: 0 <= i < j < |r| ==> r[i].nextEpisodeDate <= r[j].nextEpisodeDate
    ensures sortType == NoSort ==> SortSection(animeArray, sortType) == animeArray
  {
    match sortType {
    case Rating =>
      SortByPermutation(animeArray, RatingLess);
    case Popularity =>
      SortByPermutation(animeArray, PopularityLess);
      SortBySorted(animeArray, PopularityLess);
    case Title =>
      SortByPermutation(animeArray, TitleLess);
      TitleLessIsStrictWeak(animeArray);
      SortBySorted(animeArray, TitleLess);
    case NextAiringEpisode =>
      SortByPermutation(animeArray, NextAiringLess);
      SortBySorted(animeArray, NextAiringLess);
    case NoSort =>
    }
    var r := SortSection(animeArray, sortType);
    assert |r| == |multiset(r)| == |multiset(animeArray)| == |animeArray|;
  }

  /** Whether a title passes the search: its title, or its genres joined
      with spaces, contain the search text. */
  predicate MatchesSearch(anime: Anime, searchText: string)
  {
    Contains(anime.title, searchText) || Contains(Join(anime.genres, " "), searchText)
  }

  /** Whether a title is shown for a search text: every title is shown
      while the text is empty. */
  predicate PassesSearch(anime: Anime, searchText: string)
  {
    searchText == "" || MatchesSearch(anime, searchText)
  }

  function FilterSection(animeTypeArray: seq<Anime>, searchText: string): seq<Anime>
  {
    Filter(animeTypeArray, (anime: Anime) => MatchesSearch(anime, searchText))
  }

  /** What the search filter makes of the data source. */
  function SearchResult(dataSource: seq<seq<Anime>>, searchText: string): seq<seq<Anime>>
  {
    if searchText == "" then dataSource
    else seq(|dataSource|, i requires 0 <= i < |dataSource| => FilterSection(dataSource[i], searchText))
  }

  /** The search keeps the sections; an empty text keeps everything; any
      other text keeps, in each section and in their order, exactly the
      titles that match it, as often as they occur. */
  lemma SearchResultSpec(dataSource: seq<seq<Anime>>, searchText: string, k: nat, anime: Anime)
    requires k < |dataSource|
    ensures |SearchResult(dataSource, searchText)| == |dataSource|
    ensures searchText == "" ==> SearchResult(dataSource, searchText) == dataSource
    ensures searchText != "" ==>
      multiset(SearchResult(dataSource, searchText)[k])[anime]
        == if MatchesSearch(anime, searchText) then multiset(dataSource[k])[anime] else 0
    ensures searchText != "" ==>
      forall front, back :: dataSource[k] == front + back ==>
        SearchResult(dataSource, searchText)[k] == FilterSection(front, searchText) + FilterSection(back, searchText)
  {
    if searchText != "" {
      var p := (a: Anime) => MatchesSearch(a, searchText);
      FilterCount(dataSource[k], p, anime);
      forall front, back | dataSource[k] == front + back
        ensures FilterSection(dataSource[k], searchText) == FilterSection(front, searchText) + FilterSection(back, searchText)
      {
        FilterAppend(front, back, p);
      }
    }
  }

  /** Searching for the full title, or for the full name of one of the
      genres, finds the anime. */
  lemma SearchFindsTitleAndGenres(anime: Anime, k: nat)
    ensures |anime.title| > 0 ==> MatchesSearch(anime, anime.title)
    ensures k < |anime.genres| && |anime.genres[k]| > 0 ==> MatchesSearch(anime, anime.genres[k])
  {
    if |anime.title| > 0 {
      assert OccursAt(anime.title, anime.title, 0);
      RangeOfStringFindsFirst(anime.title, anime.title);
    }
    if k < |anime.genres| && |anime.genres[k]| > 0 {
      JoinHoldsParts(anime.genres, " ", k);
      RangeOfStringFindsFirst(Join(anime.genres, " "), anime.genres[k]);
    }
  }

  // ---------------------------------------------------------------------
  // Headers
  // ---------------------------------------------------------------------

  /** The title of a section's header. */
  function HeaderTitle(section: int): string
  {
    match section
    case 0 => "TV"
    case 1 => "Movie"
    case 2 => "OVA"
    case 3 => "ONA"
    case 4 => "Special"
    case _ => ""
  }

  /** The titles of `season` of the kind a header names. */
  function AnimeOfKind(season: SeasonalChart, kind: string): seq<Anime>
  {
    match kind
    case "TV" => season.tvAnime
    case "Movie" => season.movieAnime
    case "OVA" => season.ovaAnime
    case "ONA" => season.onaAnime
    case "Special" => season.specialAnime
    case _ => []
  }

  /** Each of the five sections is headed by the kind of title it holds,
      and no other section has a header title. */
  lemma HeaderTitlesMatchSections(season: SeasonalChart, section: int)
    ensures 0 <= section < |ChartSections(season)| ==>
      HeaderTitle(section) != "" && ChartSections(season)[section] == AnimeOfKind(season, HeaderTitle(section))
    ensures !(0 <= section < |ChartSections(season)|) ==> HeaderTitle(section) == ""
  {
  }

  // ---------------------------------------------------------------------
  // The view controller
  // ---------------------------------------------------------------------

  class ChartViewController {
    const defaults: UserDefaults
    var selectedList: SelectedList
    var dataSource: seq<seq<Anime>>
    var filteredDataSource: seq<seq<Anime>>
    var chartsDataSource: seq<SeasonalChart>
    /** The search bar's current text. */
    var searchBarText: string

    constructor (defaults: UserDefaults)
      ensures this.defaults == defaults
      ensures selectedList == SeasonalChartList && dataSource == [] && filteredDataSource == []
      ensures chartsDataSource == [] && searchBarText == ""
    {
      this.defaults := defaults;
      selectedList := SeasonalChartList;
      dataSource := [];
      filteredDataSource := [];
      chartsDataSource := [];
      searchBarText := "";
    }

    /** Assigning `dataSource`; its observer copies it to `filteredDataSource`. */
    method SetDataSource(value: seq<seq<Anime>>)
      modifies this
      ensures dataSource == value && filteredDataSource == value
      ensures selectedList == old(selectedList) && chartsDataSource == old(chartsDataSource)
      ensures searchBarText == old(searchBarText)
    {
      dataSource := value;
      filteredDataSource := dataSource;
    }

    function CurrentSortType(): SortType
      reads this, defaults
    {
      SortTypeFromDefaults(defaults.values)
    }

    method SetCurrentSortType(value: SortType)
      modifies defaults
      ensures defaults.values == old(defaults.values)[SortTypeDefault := StringValue(value.RawValue())]
      ensures defaults.completedActions == old(defaults.completedActions)
      ensures CurrentSortType() == value
    {
      defaults.SetObject(StringValue(value.RawValue()), SortTypeDefault);
      SortTypePreference(old(defaults.values), value);
    }

    function CurrentLayoutType(): LayoutType
      reads this, defaults
    {
      LayoutTypeFromDefaults(defaults.values)
    }

    method SetCurrentLayoutType(value: LayoutType)
      modifies defaults
      ensures defaults.values == old(defaults.values)[LayoutTypeDefault := StringValue(value.RawValue())]
      ensures defaults.completedActions == old(defaults.completedActions)
      ensures CurrentLayoutType() == value
    {
      defaults.SetObject(StringValue(value.RawValue()), LayoutTypeDefault);
      LayoutTypePreference(old(defaults.values), value);
    }

    /** `searchBar(_:textDidChange:)`; it filters by the bar's own text. */
    method SearchBarTextDidChange()
      modifies this
      ensures filteredDataSource == SearchResult(dataSource, searchBarText)
      ensures dataSource == old(dataSource) && searchBarText == old(searchBarText)
      ensures selectedList == old(selectedList) && chartsDataSource == old(chartsDataSource)
    {
      if searchBarText == "" {
        filteredDataSource := dataSource;
        return;
      }
      var sections, text := dataSource, searchBarText;
      filteredDataSource := seq(|sections|, i requires 0 <= i < |sections| => FilterSection(sections[i], text));
    }

    /** `updateSortType`: stores the preference, sorts every section by it
        and applies the search again. */
    method UpdateSortType(sortType: SortType)
      modifies this, defaults
      ensures defaults.values == old(defaults.values)[SortTypeDefault := StringValue(sortType.RawValue())]
      ensures defaults.completedActions == old(defaults.completedActions)
      ensures dataSource == SortSections(old(dataSource), sortType)
      ensures |dataSource| == |old(dataSource)|
      ensures forall i :: 0 <= i < |dataSource| ==> multiset(dataSource[i]) == multiset(old(dataSource)[i])
      ensures filteredDataSource == SearchResult(dataSource, searchBarText)
      ensures searchBarText == old(searchBarText)
      ensures selectedList == old(selectedList) && chartsDataSource == old(chartsDataSource)
    {
      SetCurrentSortType(sortType);
      var sorted := SortSections(dataSource, CurrentSortType());
      SetDataSource(sorted);
      forall i | 0 <= i < |dataSource|
        ensures multiset(dataSource[i]) == multiset(old(dataSource)[i])
      {
        SortSectionSpec(old(dataSource)[i], sortType);
      }
      SearchBarTextDidChange();
    }

    /** The completion of `fetchSeasonalChart`: when the query found a
        season, its last result becomes the data source, sorted by the
        stored preference. */
    method ShowSeasonalChart(result: seq<SeasonalChart>)
      modifies this, defaults
      ensures |result| == 0 ==> dataSource == old(dataSource) && filteredDataSource == old(filteredDataSource)
      ensures |result| == 0 ==> defaults.values == old(defaults.values)
      ensures |result| > 0 ==>
        dataSource == SortSections(ChartSections(result[|result| - 1]), old(CurrentSortType()))
      ensures |result| > 0 ==> filteredDataSource == SearchResult(dataSource, searchBarText)
      ensures |result| > 0 ==> CurrentSortType() == old(CurrentSortType())
      ensures |result| > 0 ==>
        defaults.values == old(defaults.values)[SortTypeDefault := StringValue(old(CurrentSortType()).RawValue())]
      ensures defaults.completedActions == old(defaults.completedActions)
      ensures searchBarText == old(searchBarText)
      ensures selectedList == old(selectedList) && chartsDataSource == old(chartsDataSource)
    {
      if |result| > 0 {
        var season := result[|result| - 1];
        SetDataSource(ChartSections(season));
        UpdateSortType(CurrentSortType());
      }
    }

    function NumberOfSections(): int
      reads this
    {
      if selectedList == AllSeasons then 1 else |filteredDataSource|
    }

    function NumberOfItemsInSection(section: int): int
      reads this
      requires selectedList != AllSeasons ==> 0 <= section < |filteredDataSource|
    {
      if selectedList == AllSeasons then |chartsDataSource| else |filteredDataSource[section]|
    }

    /** The height of a section's header: none for an empty section or in
        the all-seasons list, taller for the first section. */
    function HeaderHeight(section: int): int
      reads this
      requires 0 <= section < |filteredDataSource|
    {
      if |filteredDataSource[section]| == 0 || selectedList == AllSeasons then 0
      else if section == 0 then FirstHeaderCellHeight
      else HeaderCellHeight
    }
  }

  /** The all-seasons list is one section holding one item per season,
      whatever the data source and the search hold. */
  lemma AllSeasonsCounts(c: ChartViewController, section: int)
    requires c.selectedList == AllSeasons
    ensures c.NumberOfSections() == 1 && c.NumberOfItemsInSection(section) == |c.chartsDataSource|
  {
  }

  /** The counts the collection view asks for, once the search has been
      applied to the data source (as `searchBar(_:textDidChange:)`,
      `updateSortType` and a fetched season leave it): one section per kind
      of title, and a section never holds more titles than the data source,
      all of them exactly when every one of them passes the search. */
  lemma SectionCountsFollowSearch(c: ChartViewController, k: int)
    requires c.filteredDataSource == SearchResult(c.dataSource, c.searchBarText)
    requires 0 <= k < |c.dataSource|
    ensures c.selectedList == AllSeasons ==>
      c.NumberOfSections() == 1 && c.NumberOfItemsInSection(k) == |c.chartsDataSource|
    ensures c.selectedList != AllSeasons ==> c.NumberOfSections() == |c.dataSource|
    ensures c.selectedList != AllSeasons ==> c.NumberOfItemsInSection(k) <= |c.dataSource[k]|
    ensures c.selectedList != AllSeasons ==>
      (c.NumberOfItemsInSection(k) == |c.dataSource[k]|
       <==> forall anime :: anime in c.dataSource[k] ==> PassesSearch(anime, c.searchBarText))
  {
    if c.searchBarText != "" {
      var text := c.searchBarText;
      FilterSize(c.dataSource[k], (anime: Anime) => MatchesSearch(anime, text));
    }
  }

  /** A section's header is hidden exactly in the all-seasons list or when
      none of the section's titles passes the search; otherwise the first
      header is the taller one. */
  lemma HeaderHeightFollowsSearch(c: ChartViewController, k: int)
    requires c.filteredDataSource == SearchResult(c.dataSource, c.searchBarText)
    requires 0 <= k < |c.dataSource|
    ensures c.HeaderHeight(k) == 0
        <==> c.selectedList == AllSeasons
             || forall anime :: anime in c.dataSource[k] ==> !PassesSearch(anime, c.searchBarText)
    ensures c.HeaderHeight(k) != 0 ==>
      c.HeaderHeight(k) == if k == 0 then FirstHeaderCellHeight else HeaderCellHeight
  {
    var text := c.searchBarText;
    if text != "" {
      FilterSize(c.dataSource[k], (anime: Anime) => MatchesSearch(anime, text));
    } else if |c.dataSource[k]| > 0 {
      assert c.dataSource[k][0] in c.dataSource[k];
    }
  }
}
