/**
 * The library sync: decides from the last sync date whether the user's
 * MyAnimeList library must be fetched again, upserts the fetched progress
 * into the Realm progress store, looks the stored titles up in the local
 * datastore, works out which ids it did not find, attaches to every title
 * its stored progress, and stamps the sync date.
 *
 * The Realm store, the local-datastore query and the MyAnimeList request
 * are not run here: the store is a sequence of records, and the two
 * fetches are the tasks they complete with, passed in.
 */
module LibrarySync {
  import opened Foundation
  import opened Sequences
  import opened AnimeModel

  const LastSyncDateDefaultsKey: string := "LibrarySync.LastSyncDate"

  // ---------------------------------------------------------------------
  // Staleness
  // ---------------------------------------------------------------------

  /** The stored sync date is a date or absent (the source force-casts it). */
  ghost predicate SyncDateWellTyped(values: map<string, DefaultsValue>)
  {
    LastSyncDateDefaultsKey in values ==> values[LastSyncDateDefaultsKey].DateValue?
  }

  function LastSyncDate(values: map<string, DefaultsValue>): Option<Date>
    requires SyncDateWellTyped(values)
  {
    if LastSyncDateDefaultsKey in values then Some(values[LastSyncDateDefaultsKey].date) else None
  }

  /** `shouldSyncData`: never synced, or at least one whole day since. */
  function ShouldSyncData(lastSyncDate: Option<Date>, now: Date): (r: bool)
    ensures lastSyncDate.None? ==> r
    ensures lastSyncDate.Some? ==> (r <==> now - lastSyncDate.value >= SecondsPerDay)
  {
    match lastSyncDate
    case Some(last) =>
      AtLeastOneWholeDay(last, now);
      WholeDaysBetween(last, now) >= 1
    case None => true
  }

  /** Once `syncedData` has stamped `syncedAt`, the library is stale again
      exactly when a whole day has passed since then, whatever was stored
      before. */
  lemma SyncedDataDefersNextSync(values: map<string, DefaultsValue>, syncedAt: Date, later: Date)
    ensures SyncDateWellTyped(values[LastSyncDateDefaultsKey := DateValue(syncedAt)])
    ensures ShouldSyncData(LastSyncDate(values[LastSyncDateDefaultsKey := DateValue(syncedAt)]), later)
        <==> later - syncedAt >= SecondsPerDay
  {
  }

  // ---------------------------------------------------------------------
  // The progress store (Realm's AnimeProgress table, primary key animeID)
  // ---------------------------------------------------------------------

  /** One well-formed entry of the `anime` array of the MyAnimeList response. */
  datatype FetchedRecord = FetchedRecord(id: int, watchedStatus: string, watchedEpisodes: int, score: int)

  /** The record built from a fetched entry. */
  function ProgressOf(data: FetchedRecord): AnimeProgress
  {
    AnimeProgress(data.id, data.watchedStatus, data.watchedEpisodes, data.score)
  }

  /** The primary key is unique within the store. */
  ghost predicate KeysUnique(records: seq<AnimeProgress>)
  {
    forall i, j :: 0 <= i < j < |records| ==> records[i].animeID != records[j].animeID
  }

  /** The first stored record for `id`. */
  function Lookup(records: seq<AnimeProgress>, id: int): Option<AnimeProgress>
  {
    if records == [] then None
    else if records[0].animeID == id then Some(records[0])
    else Lookup(records[1..], id)
  }

  /** The stored ids, in store order. */
  function Ids(records: seq<AnimeProgress>): seq<int>
  {
    seq(|records|, i requires 0 <= i < |records| => records[i].animeID)
  }

  /** Adding one record with `update: true`: it replaces the record with the
      same key in place, or is appended. */
  function UpsertOne(records: seq<AnimeProgress>, p: AnimeProgress): seq<AnimeProgress>
  {
    if records == [] then [p]
    else if records[0].animeID == p.animeID then [p] + records[1..]
    else [records[0]] + UpsertOne(records[1..], p)
  }

  /** `realm.add(batch, update: true)`: the records are added in order. */
  function UpsertAll(records: seq<AnimeProgress>, batch: seq<AnimeProgress>): seq<AnimeProgress>
    decreases |batch|
  {
    if batch == [] then records else UpsertAll(UpsertOne(records, batch[0]), batch[1..])
  }

  /** The last record of `batch` for `id`: the one a batch upsert keeps. */
  function LastFor(batch: seq<AnimeProgress>, id: int): (r: Option<AnimeProgress>)
    ensures r.Some? ==> r.value in batch && r.value.animeID == id
    ensures r.Some? ==> exists i :: 0 <= i < |batch| && batch[i] == r.value
                                    && forall j :: i < j < |batch| ==> batch[j].animeID != id
    ensures r.None? ==> forall p :: p in batch ==> p.animeID != id
  {
    if batch == [] then None
    else
      var rest := LastFor(batch[1..], id);
      if rest.Some? then rest
      else if batch[0].animeID == id then Some(batch[0])
      else None
  }

  lemma {:induction false} UpsertOneLookup(records: seq<AnimeProgress>, p: AnimeProgress, id: int)
    ensures Lookup(UpsertOne(records, p), id) == if id == p.animeID then Some(p) else Lookup(records, id)
  {
    if records != [] && records[0].animeID != p.animeID {
      UpsertOneLookup(records[1..], p, id);
    }
  }

  lemma {:induction false} UpsertOneKeysUnique(records: seq<AnimeProgress>, p: AnimeProgress)
    requires KeysUnique(records)
    ensures KeysUnique(UpsertOne(records, p))
    ensures forall q :: q in UpsertOne(records, p) ==> q == p || q in records
  {
    if records != [] && records[0].animeID != p.animeID {
      UpsertOneKeysUnique(records[1..], p);
      var r := UpsertOne(records, p);
      forall j | 0 < j < |r|
        ensures r[0].animeID != r[j].animeID
      {
        assert r[j] in UpsertOne(records[1..], p);
        if r[j] != p {
          var k :| 0 <= k < |records[1..]| && records[1..][k] == r[j];
          assert records[k + 1] == r[j];
        }
      }
    }
  }

  /** After a batch upsert, every id of the batch holds the batch's last
      record for it, and every other id holds what it held before. */
  lemma {:induction false} UpsertAllLookup(records: seq<AnimeProgress>, batch: seq<AnimeProgress>, id: int)
    ensures Lookup(UpsertAll(records, batch), id)
         == if LastFor(batch, id).Some? then LastFor(batch, id) else Lookup(records, id)
    decreases |batch|
  {
    if batch != [] {
      UpsertAllLookup(UpsertOne(records, batch[0]), batch[1..], id);
      UpsertOneLookup(records, batch[0], id);
    }
  }

  /** A batch upsert never creates two records with the same key. */
  lemma {:induction false} UpsertAllKeysUnique(records: seq<AnimeProgress>, batch: seq<AnimeProgress>)
    requires KeysUnique(records)
    ensures KeysUnique(UpsertAll(records, batch))
    decreases |batch|
  {
    if batch != [] {
      UpsertOneKeysUnique(records, batch[0]);
      UpsertAllKeysUnique(UpsertOne(records, batch[0]), batch[1..]);
    }
  }

  /** Realm's table of `AnimeProgress` records. */
  class ProgressStore {
    var records: seq<AnimeProgress>

    ghost predicate Valid()
      reads this
    {
      KeysUnique(records)
    }

    constructor ()
      ensures Valid() && records == []
    {
      records := [];
    }

    /** `realm.write { realm.add(batch, update: true) }`. */
    method Add(batch: seq<AnimeProgress>)
      requires Valid()
      modifies this
      ensures Valid()
      ensures records == UpsertAll(old(records), batch)
    {
      UpsertAllKeysUnique(records, batch);
      records := UpsertAll(records, batch);
    }
  }

  /** The loop of `fetchAnimeList` that turns each fetched entry into an
      `AnimeProgress`. */
  method BuildProgress(result: seq<FetchedRecord>) returns (newAnimeProgress: seq<AnimeProgress>)
    ensures |newAnimeProgress| == |result|
    ensures forall i :: 0 <= i < |result| ==>
      && newAnimeProgress[i].animeID == result[i].id
      && newAnimeProgress[i].status == result[i].watchedStatus
      && newAnimeProgress[i].episodes == result[i].watchedEpisodes
      && newAnimeProgress[i].score == result[i].score
  {
    newAnimeProgress := [];
    for i := 0 to |result|
      invariant |newAnimeProgress| == i
      invariant forall k :: 0 <= k < i ==> newAnimeProgress[k] == ProgressOf(result[k])
    {
      var animeProgress := AnimeProgress(result[i].id, result[i].watchedStatus,
                                         result[i].watchedEpisodes, result[i].score);
      newAnimeProgress := newAnimeProgress + [animeProgress];
    }
  }

  /** The loop of `fetchAllAnimeProgress` that lists the stored ids. */
  method CollectIds(animeLibrary: seq<AnimeProgress>) returns (idList: seq<int>)
    ensures |idList| == |animeLibrary|
    ensures forall i :: 0 <= i < |animeLibrary| ==> idList[i] == animeLibrary[i].animeID
  {
    idList := [];
    for i := 0 to |animeLibrary|
      invariant |idList| == i
      invariant forall k :: 0 <= k < i ==> idList[k] == animeLibrary[k].animeID
    {
      idList := idList + [animeLibrary[i].animeID];
    }
  }

  // ---------------------------------------------------------------------
  // Missing ids and the progress join
  // ---------------------------------------------------------------------

  /** The titles in `animeList` whose MyAnimeList id is `id`. */
  function WithId(animeList: seq<Anime>, id: int): seq<Anime>
  {
    Filter(animeList, (anime: Anime) => anime.myAnimeListID == id)
  }

  /** `missingIdList`: the ids that no title of `animeList` carries. */
  function MissingIds(idList: seq<int>, animeList: seq<Anime>): seq<int>
  {
    Filter(idList, (myAnimeListID: int) => |WithId(animeList, myAnimeListID)| == 0)
  }

  /** An id is missing exactly when it was asked for and no found title
      carries it; it is listed as often as it was asked for, and the list
      keeps the order of `idList` (it splits along any split of `idList`). */
  lemma MissingIdsSpec(idList: seq<int>, animeList: seq<Anime>, id: int)
    ensures id in MissingIds(idList, animeList)
        <==> id in idList && forall anime :: anime in animeList ==> anime.myAnimeListID != id
    ensures multiset(MissingIds(idList, animeList))[id]
         == if forall anime :: anime in animeList ==> anime.myAnimeListID != id
            then multiset(idList)[id] else 0
    ensures forall front, back :: idList == front + back ==>
      MissingIds(idList, animeList) == MissingIds(front, animeList) + MissingIds(back, animeList)
  {
    var p := (myAnimeListID: int) => |WithId(animeList, myAnimeListID)| == 0;
    var matches := (anime: Anime) => anime.myAnimeListID == id;
    FilterCount(idList, p, id);
    FilterMembership(idList, p, id);
    if |WithId(animeList, id)| == 0 {
      forall anime | anime in animeList
        ensures anime.myAnimeListID != id
      {
        FilterMembership(animeList, matches, anime);
      }
    } else {
      var anime := WithId(animeList, id)[0];
      FilterMembership(animeList, matches, anime);
    }
    forall front, back | idList == front + back
      ensures MissingIds(idList, animeList) == MissingIds(front, animeList) + MissingIds(back, animeList)
    {
      FilterAppend(front, back, p);
    }
  }

  /** The progress a title ends up with: the one it already had, else the
      first stored record for its id. */
  function Attach(current: Option<AnimeProgress>, records: seq<AnimeProgress>, id: int): Option<AnimeProgress>
  {
    if current.Some? then current else Lookup(records, id)
  }

  /** A title without progress gets a record exactly when the store holds
      one for its id, and then it is that title's record; with unique keys
      it is the only one. */
  lemma {:induction false} AttachFindsRecord(records: seq<AnimeProgress>, id: int)
    ensures Attach(None, records, id).Some? <==> exists p :: p in records && p.animeID == id
    ensures Attach(None, records, id).Some? ==>
      Attach(None, records, id).value in records && Attach(None, records, id).value.animeID == id
    ensures KeysUnique(records) && Attach(None, records, id).Some? ==>
      forall p :: p in records && p.animeID == id ==> p == Attach(None, records, id).value
  {
    if records != [] {
      AttachFindsRecord(records[1..], id);
      assert records == [records[0]] + records[1..];
      if records[0].animeID != id && KeysUnique(records) {
        assert KeysUnique(records[1..]) by {
          forall i, j | 0 <= i < j < |records[1..]|
            ensures records[1..][i].animeID != records[1..][j].animeID
          {
            assert records[1..][i] == records[i + 1] && records[1..][j] == records[j + 1];
          }
        }
      } else if records[0].animeID == id && KeysUnique(records) {
        forall p | p in records && p.animeID == id
          ensures p == records[0]
        {
          var k :| 0 <= k < |records| && records[k] == p;
          assert k == 0;
        }
      }
    }
  }

  /** The titles the first continuation keeps: the local-datastore result
      when it is a non-empty array, otherwise none. */
  function FoundAnime(localFetch: Task<seq<Anime>>): seq<Anime>
  {
    if localFetch.Done? && localFetch.result.Some? && |localFetch.result.value| > 0
    then localFetch.result.value
    else []
  }

  // ---------------------------------------------------------------------
  // The controller
  // ---------------------------------------------------------------------

  /** `LibrarySyncController`: its class functions work on the shared
      defaults store and the Realm progress store. */
  class LibrarySyncController {
    const defaults: UserDefaults
    const realm: ProgressStore

    ghost predicate Valid()
      reads this, defaults, realm
    {
      realm.Valid() && SyncDateWellTyped(defaults.values)
    }

    constructor (defaults: UserDefaults, realm: ProgressStore)
      requires realm.Valid() && SyncDateWellTyped(defaults.values)
      ensures this.defaults == defaults && this.realm == realm && Valid()
    {
      this.defaults := defaults;
      this.realm := realm;
    }

    /** `shouldSyncData`, asked at time `now`. */
    function ShouldSync(now: Date): bool
      reads this, defaults
      requires SyncDateWellTyped(defaults.values)
    {
      ShouldSyncData(LastSyncDate(defaults.values), now)
    }

    /** `syncedData`: stamps `now` as the last sync date. */
    method SyncedData(now: Date)
      modifies defaults
      ensures defaults.values == old(defaults.values)[LastSyncDateDefaultsKey := DateValue(now)]
      ensures defaults.completedActions == old(defaults.completedActions)
      ensures SyncDateWellTyped(defaults.values) && LastSyncDate(defaults.values) == Some(now)
    {
      defaults.SetObject(DateValue(now), LastSyncDateDefaultsKey);
    }

    /** `fetchAllAnimeProgress`: looks the stored ids up in the local
        datastore (whose answer is `localFetch`), attaches progress to the
        titles found and stamps the sync date at `finishedAt`. The network
        backfill of the missing ids is disabled in the app, so
        `missingIdList` is computed and never fetched. */
    method FetchAllAnimeProgress(finishedAt: Date, localFetch: Task<seq<Anime>>)
      returns (r: Task<seq<Anime>>, missingIdList: seq<int>)
      requires Valid()
      modifies defaults, set anime | anime in FoundAnime(localFetch)
      ensures Valid()
      ensures realm.records == old(realm.records)
      ensures defaults.completedActions == old(defaults.completedActions)
      ensures localFetch.Faulted? ==>
        && r == Faulted(localFetch.error)
        && missingIdList == []
        && defaults.values == old(defaults.values)
      ensures !localFetch.Faulted? ==>
        && r == Done(Some(FoundAnime(localFetch)))
        && missingIdList == MissingIds(Ids(realm.records), FoundAnime(localFetch))
        && defaults.values == old(defaults.values)[LastSyncDateDefaultsKey := DateValue(finishedAt)]
      ensures forall anime :: anime in FoundAnime(localFetch) ==>
        anime.progress == Attach(old(anime.progress), realm.records, anime.myAnimeListID)
    {
      var animeLibrary := realm.records;
      var idList := CollectIds(animeLibrary);
      assert idList == Ids(animeLibrary);
      var animeList: seq<Anime> := [];

      if localFetch.Faulted? {
        return Faulted(localFetch.error), [];
      }
      if localFetch.result.Some? && |localFetch.result.value| > 0 {
        animeList := localFetch.result.value;
      }

      missingIdList := MissingIds(idList, animeList);

      // Match every title with its progress.
      var i := 0;
      while i < |animeList|
        invariant 0 <= i <= |animeList|
        invariant animeList == FoundAnime(localFetch)
        invariant forall anime :: anime in animeList[..i] ==>
          anime.progress == Attach(old(anime.progress), animeLibrary, anime.myAnimeListID)
        invariant forall anime :: anime in animeList && anime !in animeList[..i] ==>
          anime.progress == old(anime.progress)
        modifies set anime | anime in animeList
      {
        var anime := animeList[i];
        if anime.progress.None? {
          var j := 0;
          while j < |animeLibrary|
            invariant 0 <= j <= |animeLibrary|
            invariant anime.progress.None?
            invariant Lookup(animeLibrary, anime.myAnimeListID) == Lookup(animeLibrary[j..], anime.myAnimeListID)
            modifies anime
          {
            if animeLibrary[j].animeID == anime.myAnimeListID {
              anime.progress := Some(animeLibrary[j]);
              break;
            }
            assert animeLibrary[j..][1..] == animeLibrary[j + 1..];
            j := j + 1;
          }
        }
        assert animeList[..i + 1] == animeList[..i] + [anime];
        i := i + 1;
      }
      assert animeList[..i] == animeList;

      SyncedData(finishedAt);
      r := Done(Some(animeList));
    }

    /** `fetchAnimeList`: when the library is stale at `now`, upserts the
        MyAnimeList response `animeListResponse` into the progress store
        first; then, on either branch, runs `fetchAllAnimeProgress`. */
    method FetchAnimeList(now: Date, finishedAt: Date, animeListResponse: Task<seq<FetchedRecord>>,
                          localFetch: Task<seq<Anime>>)
      returns (r: Task<seq<Anime>>, missingIdList: seq<int>)
      requires Valid()
      requires animeListResponse.Done? ==> animeListResponse.result.Some?
      modifies defaults, realm, set anime | anime in FoundAnime(localFetch)
      ensures Valid()
      ensures defaults.completedActions == old(defaults.completedActions)
      ensures old(ShouldSync(now)) && animeListResponse.Faulted? ==>
        && r == Faulted(animeListResponse.error)
        && realm.records == old(realm.records)
        && defaults.values == old(defaults.values)
      ensures old(ShouldSync(now)) && animeListResponse.Done? ==>
        realm.records == UpsertAll(old(realm.records), seq(|animeListResponse.result.value|,
          i requires 0 <= i < |animeListResponse.result.value| => ProgressOf(animeListResponse.result.value[i])))
      ensures !old(ShouldSync(now)) ==> realm.records == old(realm.records)
      ensures r.Done? ==>
        && r == Done(Some(FoundAnime(localFetch)))
        && missingIdList == MissingIds(Ids(realm.records), FoundAnime(localFetch))
        && defaults.values == old(defaults.values)[LastSyncDateDefaultsKey := DateValue(finishedAt)]
        && forall anime :: anime in FoundAnime(localFetch) ==>
             anime.progress == Attach(old(anime.progress), realm.records, anime.myAnimeListID)
      ensures r.Done? <==> !localFetch.Faulted? && !(old(ShouldSync(now)) && animeListResponse.Faulted?)
      ensures !(old(ShouldSync(now)) && animeListResponse.Faulted?) && localFetch.Faulted? ==>
        r == Faulted(localFetch.error)
      ensures r.Faulted? ==> defaults.values == old(defaults.values)
      ensures r.Faulted? ==> forall anime :: anime in FoundAnime(localFetch) ==> anime.progress == old(anime.progress)
    {
      if ShouldSync(now) {
        if animeListResponse.Faulted? {
          return Faulted(animeListResponse.error), [];
        }
        var result := animeListResponse.result.value;
        var newAnimeProgress := BuildProgress(result);
        assert newAnimeProgress == seq(|result|, i requires 0 <= i < |result| => ProgressOf(result[i]));
        realm.Add(newAnimeProgress);
        r, missingIdList := FetchAllAnimeProgress(finishedAt, localFetch);
      } else {
        r, missingIdList := FetchAllAnimeProgress(finishedAt, localFetch);
      }
    }
  }
}
