/**
 * The records the app's logic works on: the catalog `Anime` (a Parse
 * object whose `progress` the library sync sets in place) and the user's
 * per-title `AnimeProgress` (a Realm object keyed by `animeID`).
 */
module AnimeModel {
  import opened Foundation

  /** A user's progress on one title: MyAnimeList id, watched status,
      episodes watched and score. */
  datatype AnimeProgress = AnimeProgress(animeID: int, status: string, episodes: int, score: int)

  /** An entry of an anime's `studio` list. */
  datatype Studio = Studio(studioName: string)

  /** The airing status of a title, stored as its raw string. */
  datatype AnimeStatus = CurrentlyAiring | FinishedAiring | NotYetAired
  {
    function RawValue(): string
    {
      match this
      case CurrentlyAiring => "currently airing"
      case FinishedAiring => "finished airing"
      case NotYetAired => "not yet aired"
    }
  }

  /** `AnimeStatus(rawValue:)`. */
  function AnimeStatusFromRaw(raw: string): (r: Option<AnimeStatus>)
    ensures r.Some? ==> r.value.RawValue() == raw
    ensures r.None? ==> forall status: AnimeStatus :: status.RawValue() != raw
  {
    if raw == CurrentlyAiring.RawValue() then Some(CurrentlyAiring)
    else if raw == FinishedAiring.RawValue() then Some(FinishedAiring)
    else if raw == NotYetAired.RawValue() then Some(NotYetAired)
    else None
  }

  /** A catalog title. Only `progress` is ever assigned after creation. */
  class Anime {
    const myAnimeListID: int
    const title: string
    const genres: seq<string>
    const animeType: string
    const studio: seq<Studio>
    const source: Option<string>
    const status: string
    const rank: int
    const popularityRank: int
    const nextEpisode: Option<int>
    const nextEpisodeDate: Date
    const publicProgress: Option<AnimeProgress>
    var progress: Option<AnimeProgress>

    constructor (myAnimeListID: int, title: string, genres: seq<string>, animeType: string,
                 studio: seq<Studio>, source: Option<string>, status: string, rank: int,
                 popularityRank: int, nextEpisode: Option<int>, nextEpisodeDate: Date,
                 publicProgress: Option<AnimeProgress>)
      ensures this.myAnimeListID == myAnimeListID && this.title == title && this.genres == genres
      ensures this.animeType == animeType && this.studio == studio && this.source == source
      ensures this.status == status && this.rank == rank && this.popularityRank == popularityRank
      ensures this.nextEpisode == nextEpisode && this.nextEpisodeDate == nextEpisodeDate
      ensures this.publicProgress == publicProgress && progress == None
    {
      this.myAnimeListID := myAnimeListID;
      this.title := title;
      this.genres := genres;
      this.animeType := animeType;
      this.studio := studio;
      this.source := source;
      this.status := status;
      this.rank := rank;
      this.popularityRank := popularityRank;
      this.nextEpisode := nextEpisode;
      this.nextEpisodeDate := nextEpisodeDate;
      this.publicProgress := publicProgress;
      progress := None;
    }
  }
}
