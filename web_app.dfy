/** The list utilities and TheAudioDB lookups of music_flask_app.py: the
    in-place sorts of the query rows, `filter_artists`,
    `remove_duplicate_artists`, the cache-through TheAudioDB requests, the
    parsing of their bodies, and the music-video choice in `play_music`. */
module WebApp {
  import opened Json
  import opened Strings
  import opened Sequences
  import opened RequestKeys
  import opened HttpCache

  /** A Python list that functions receive and change in place. */
  class PyList<T> {
    var items: seq<T>

    constructor (items: seq<T>)
      ensures this.items == items
    {
      this.items := items;
    }

    /** `list.sort(key=key)`. */
    method Sort(key: T -> real)
      modifies this
      ensures items == SortBy(old(items), key)
    {
      items := SortBy(items, key);
    }

    /** `list.reverse()`. */
    method Reverse()
      modifies this
      ensures items == Sequences.Reverse(old(items))
    {
      items := Sequences.Reverse(items);
    }

    /** `del list[j]`. */
    method Delete(j: nat)
      requires j < |items|
      modifies this
      ensures items == old(items)[..j] + old(items)[j + 1..]
    {
      items := items[..j] + items[j + 1..];
    }
  }

  /** A row of the `get_tracks_by_genre` query: track name, artist name,
      genre, image URL, album name, popularity, tempo, danceability. */
  datatype TrackRow = TrackRow(
    trackName: string,
    artistName: string,
    genre: string,
    imageUrl: string,
    albumName: string,
    popularity: int,
    tempo: real,
    danceability: real)

  /** `x[-1]`. */
  function DanceabilityKey(x: TrackRow): real { x.danceability }

  /** `x[-2]`. */
  function TempoKey(x: TrackRow): real { x.tempo }

  /** `x[-3]`. */
  function PopularityKey(x: TrackRow): real { x.popularity as real }

  // ---------------------------------------------------------------------
  // Sorts. Each works on the caller's list; the descending ones end with
  // `list.reverse()` and so return None.

  /** `sort_by_danceability(tracks)`: most danceable first, ties in the
      reverse of their order in the query result. */
  method SortByDanceability(tracks: PyList<TrackRow>)
    modifies tracks
    ensures tracks.items == Sequences.Reverse(SortBy(old(tracks.items), DanceabilityKey))
    ensures multiset(tracks.items) == multiset(old(tracks.items))
    ensures SortedDescBy(tracks.items, DanceabilityKey)
    ensures forall k :: WithKey(tracks.items, DanceabilityKey, k)
                     == Sequences.Reverse(WithKey(old(tracks.items), DanceabilityKey, k))
  {
    tracks.Sort(DanceabilityKey);
    tracks.Reverse();
    SortThenReverseSpec(old(tracks.items), DanceabilityKey);
  }

  /** `sort_by_slowest(tracks)`: slowest first, stable; returns the same
      list object. */
  method SortBySlowest(tracks: PyList<TrackRow>) returns (result: PyList<TrackRow>)
    modifies tracks
    ensures result == tracks
    ensures tracks.items == SortBy(old(tracks.items), TempoKey)
    ensures multiset(tracks.items) == multiset(old(tracks.items))
    ensures SortedBy(tracks.items, TempoKey)
    ensures forall k :: WithKey(tracks.items, TempoKey, k) == WithKey(old(tracks.items), TempoKey, k)
  {
    tracks.Sort(TempoKey);
    SortBySpec(old(tracks.items), TempoKey);
    result := tracks;
  }

  /** `sort_by_popularity(tracks)`: most popular first, ties in the reverse
      of their order in the query result. */
  method SortByPopularity(tracks: PyList<TrackRow>)
    modifies tracks
    ensures tracks.items == Sequences.Reverse(SortBy(old(tracks.items), PopularityKey))
    ensures multiset(tracks.items) == multiset(old(tracks.items))
    ensures SortedDescBy(tracks.items, PopularityKey)
    ensures forall k :: WithKey(tracks.items, PopularityKey, k)
                     == Sequences.Reverse(WithKey(old(tracks.items), PopularityKey, k))
  {
    tracks.Sort(PopularityKey);
    tracks.Reverse();
    SortThenReverseSpec(old(tracks.items), PopularityKey);
  }

  /** `sort_by_obscurity(tracks)`: least popular first, stable; returns the
      same list object. */
  method SortByObscurity(tracks: PyList<TrackRow>) returns (result: PyList<TrackRow>)
    modifies tracks
    ensures result == tracks
    ensures tracks.items == SortBy(old(tracks.items), PopularityKey)
    ensures multiset(tracks.items) == multiset(old(tracks.items))
    ensures SortedBy(tracks.items, PopularityKey)
    ensures forall k :: WithKey(tracks.items, PopularityKey, k) == WithKey(old(tracks.items), PopularityKey, k)
  {
    tracks.Sort(PopularityKey);
    SortBySpec(old(tracks.items), PopularityKey);
    result := tracks;
  }

  // ---------------------------------------------------------------------
  // Artist lists.

  /** `filter_artists(track_list)`: the artist of every track, in order. */
  method FilterArtists(trackList: seq<TrackRow>) returns (artists: seq<string>)
    ensures |artists| == |trackList|
    ensures forall i :: 0 <= i < |trackList| ==> artists[i] == trackList[i].artistName
  {
    artists := [];
    for i := 0 to |trackList|
      invariant |artists| == i
      invariant forall k :: 0 <= k < i ==> artists[k] == trackList[k].artistName
    {
      artists := artists + [trackList[i].artistName];
    }
  }

  /** No value in `s[..i]` occurs again in `s[i..]`. */
  ghost predicate Separated<T>(s: seq<T>, i: nat)
  {
    forall p, q :: 0 <= p < i <= q < |s| ==> s[p] != s[q]
  }

  /** The value at `i` does not occur again in `s[i + 1..j]`. */
  ghost predicate NoCopyBefore<T>(s: seq<T>, i: nat, j: nat)
    requires i < |s|
  {
    forall q :: i < q < j && q < |s| ==> s[q] != s[i]
  }

  /** Deleting a later copy of `s[i]` at `j` keeps the scan's invariants. */
  lemma DeleteCopyStep<T>(s: seq<T>, i: nat, j: nat)
    requires i < j < |s| && s[i] == s[j]
    requires Separated(s, i) && NoCopyBefore(s, i, j)
    ensures var s' := s[..j] + s[j + 1..];
      && s'[..i + 1] == s[..i + 1]
      && Dedup(s') == Dedup(s)
      && Separated(s', i) && NoCopyBefore(s', i, j)
  {
    DedupDeleteLater(s, i, j);
    var s' := s[..j] + s[j + 1..];
    assert forall q :: 0 <= q < |s'| ==> s'[q] == if q < j then s[q] else s[q + 1];
  }

  /** Once no later copy of `s[i]` is left, `s[..i + 1]` is duplicate-free
      and separated from the rest. */
  lemma ScanAdvance<T>(s: seq<T>, i: nat)
    requires i < |s| && NoDup(s[..i]) && Separated(s, i) && NoCopyBefore(s, i, |s|)
    ensures NoDup(s[..i + 1]) && Separated(s, i + 1)
  {
    assert s[..i + 1] == s[..i] + [s[i]];
  }

  /** `remove_duplicate_artists(artists_list)`: for each position `i`, every
      later copy of the value there is deleted; the list left behind keeps
      the first occurrence of each value, in the original order. Returns
      None. */
  method RemoveDuplicateArtists(artistsList: PyList<string>)
    modifies artistsList
    ensures artistsList.items == Dedup(old(artistsList.items))
    ensures NoDup(artistsList.items)
    ensures forall a :: a in artistsList.items <==> a in old(artistsList.items)
  {
    ghost var original := artistsList.items;
    var i := 0;
    while i < |artistsList.items|
      invariant 0 <= i <= |artistsList.items|
      invariant Dedup(artistsList.items) == Dedup(original)
      invariant NoDup(artistsList.items[..i]) && Separated(artistsList.items, i)
      decreases |artistsList.items| - i
    {
      var j := i + 1;
      ghost var prefix, length := artistsList.items[..i + 1], |artistsList.items|;
      while j < |artistsList.items|
        invariant i + 1 <= j <= |artistsList.items| <= length
        invariant artistsList.items[..i + 1] == prefix
        invariant Dedup(artistsList.items) == Dedup(original)
        invariant Separated(artistsList.items, i) && NoCopyBefore(artistsList.items, i, j)
        decreases |artistsList.items| - j
      {
        if artistsList.items[i] == artistsList.items[j] {
          DeleteCopyStep(artistsList.items, i, j);
          artistsList.Delete(j);
        } else {
          j := j + 1;
        }
      }
      assert artistsList.items[..i] == prefix[..i];
      ScanAdvance(artistsList.items, i);
      i := i + 1;
    }
    assert artistsList.items[..i] == artistsList.items;
    DedupNoDup(artistsList.items);
    DedupSpec(original);
  }

  // ---------------------------------------------------------------------
  // TheAudioDB requests (no bearer token).

  /** `{"s": artist}`. */
  function ArtistSearchParams(artist: string): Params
  {
    [("s", PStr(artist))]
  }

  function ArtistSearchKey(artist: string): string
  {
    UniqueKey(TadbArtistSearch, ArtistSearchParams(artist))
  }

  function ArtistSearchRequest(artist: string): HttpRequest
  {
    HttpRequest(TadbArtistSearch, ArtistSearchParams(artist), false)
  }

  /** `{"i": artist_id}`. */
  function VideoParams(artistId: string): Params
  {
    [("i", PStr(artistId))]
  }

  function VideoKey(artistId: string): string
  {
    UniqueKey(TadbMusicVideos, VideoParams(artistId))
  }

  function VideoRequest(artistId: string): HttpRequest
  {
    HttpRequest(TadbMusicVideos, VideoParams(artistId), false)
  }

  /** `make_artist_request(artist)`. */
  method MakeArtistRequest(cache: CacheFile, http: HttpClient, artist: string) returns (results: Json)
    modifies cache, http
    ensures cache.state.Parsed?
    ensures Fetched(old(cache.Load()), cache.Load(), old(http.log), http.log, http.respond,
                    ArtistSearchKey(artist), ArtistSearchRequest(artist), results)
  {
    var baseurl := TadbArtistSearch;
    var params := [("s", PStr(artist))];
    var uniqueKey := ConstructUniqueKey(baseurl, params);
    results := RequestWithCache(cache, http, uniqueKey, HttpRequest(baseurl, params, false));
  }

  /** `make_music_video_request(artist_id)`. */
  method MakeMusicVideoRequest(cache: CacheFile, http: HttpClient, artistId: string) returns (results: Json)
    modifies cache, http
    ensures cache.state.Parsed?
    ensures Fetched(old(cache.Load()), cache.Load(), old(http.log), http.log, http.respond,
                    VideoKey(artistId), VideoRequest(artistId), results)
  {
    var baseurl := TadbMusicVideos;
    var params := [("i", PStr(artistId))];
    var uniqueKey := ConstructUniqueKey(baseurl, params);
    results := RequestWithCache(cache, http, uniqueKey, HttpRequest(baseurl, params, false));
  }

  /** The artist searches and the video requests never share a key. */
  lemma ArtistKeyNotVideoKey(artist: string, artistId: string)
    ensures ArtistSearchKey(artist) != VideoKey(artistId)
  {
    TadbKeysDisjoint(ArtistSearchParams(artist), VideoParams(artistId), "");
  }

  // ---------------------------------------------------------------------
  // Parsing TheAudioDB bodies.

  /** A body `get_artist_tadb_id` can read: `artists` is null, or a list
      whose first entry has an `idArtist`. */
  ghost predicate IsArtistSearchBody(results: Json)
  {
    && Has(results, "artists")
    && (Get(results, "artists") != JNull ==>
          HasIndex(Get(results, "artists"), 0) && Has(At(Get(results, "artists"), 0), "idArtist"))
  }

  /** The ids `get_artist_tadb_id` returns for a body: the first artist's
      id, or nothing when `artists` is null. */
  function ArtistIdsOf(results: Json): (ids: seq<Json>)
    requires IsArtistSearchBody(results)
    ensures |ids| <= 1
    ensures |ids| == 0 <==> Get(results, "artists") == JNull
  {
    if Get(results, "artists") != JNull then [Get(At(Get(results, "artists"), 0), "idArtist")] else []
  }

  /** `get_artist_tadb_id(artist)`. */
  method GetArtistTadbId(cache: CacheFile, http: HttpClient, artist: string) returns (artistIdList: seq<Json>)
    requires ArtistSearchKey(artist) in cache.Load() ==> IsArtistSearchBody(cache.Load()[ArtistSearchKey(artist)])
    requires IsArtistSearchBody(http.respond(ArtistSearchRequest(artist)))
    modifies cache, http
    ensures cache.state.Parsed?
    ensures Extends(old(cache.Load()), cache.Load())
    ensures ArtistSearchKey(artist) in cache.Load() && IsArtistSearchBody(cache.Load()[ArtistSearchKey(artist)])
    ensures cache.Load() == old(cache.Load())[ArtistSearchKey(artist) := cache.Load()[ArtistSearchKey(artist)]]
    ensures FilledFrom(old(cache.Load()), cache.Load(), http.respond,
                       map[ArtistSearchKey(artist) := ArtistSearchRequest(artist)])
    ensures artistIdList == ArtistIdsOf(cache.Load()[ArtistSearchKey(artist)])
    ensures |artistIdList| <= 1
    ensures ArtistSearchKey(artist) in old(cache.Load()) ==> http.log == old(http.log)
    ensures ArtistSearchKey(artist) !in old(cache.Load()) ==>
      && cache.Load()[ArtistSearchKey(artist)] == http.respond(ArtistSearchRequest(artist))
      && http.log == old(http.log) + [ArtistSearchRequest(artist)]
    ensures OneGetPerNewKey(old(cache.Load()), cache.Load(), old(http.log), http.log)
  {
    artistIdList := [];
    ghost var m0, log0 := cache.Load(), http.log;
    var results := MakeArtistRequest(cache, http, artist);
    FetchedFills(m0, cache.Load(), log0, http.log, http.respond,
                 ArtistSearchKey(artist), ArtistSearchRequest(artist), results);
    FetchedCount(m0, cache.Load(), log0, http.log, http.respond,
                 ArtistSearchKey(artist), ArtistSearchRequest(artist), results);
    if Get(results, "artists") != JNull {
      var artistId := Get(At(Get(results, "artists"), 0), "idArtist");
      artistIdList := artistIdList + [artistId];
    }
  }

  /** A `MusicVideo` object. */
  datatype MusicVideo = MusicVideo(mvidUrl: Json, trackName: Json, tadbArtistId: string)

  /** A body `get_music_videos` can read: `mvids` is null, or a list whose
      entries all have `strTrack` and `strMusicVid`. */
  ghost predicate IsVideoBody(results: Json)
  {
    && Has(results, "mvids")
    && (Get(results, "mvids") != JNull ==>
          && Get(results, "mvids").JArr?
          && forall v :: v in Get(results, "mvids").elems ==> Has(v, "strTrack") && Has(v, "strMusicVid"))
  }

  /** The videos `get_music_videos` builds from a body: one per entry, in
      order, each tagged with the requested artist id; none when `mvids`
      is null. */
  ghost function VideosOf(results: Json, artistId: string): seq<MusicVideo>
    requires IsVideoBody(results)
  {
    if Get(results, "mvids") == JNull then []
    else
      var mvids := Get(results, "mvids").elems;
      seq(|mvids|, i requires 0 <= i < |mvids| =>
        MusicVideo(Get(mvids[i], "strMusicVid"), Get(mvids[i], "strTrack"), artistId))
  }

  /** `get_music_videos(artist_id)`. */
  method GetMusicVideos(cache: CacheFile, http: HttpClient, artistId: string) returns (mvidObjectsList: seq<MusicVideo>)
    requires VideoKey(artistId) in cache.Load() ==> IsVideoBody(cache.Load()[VideoKey(artistId)])
    requires IsVideoBody(http.respond(VideoRequest(artistId)))
    modifies cache, http
    ensures cache.state.Parsed?
    ensures Extends(old(cache.Load()), cache.Load())
    ensures VideoKey(artistId) in cache.Load() && IsVideoBody(cache.Load()[VideoKey(artistId)])
    ensures cache.Load() == old(cache.Load())[VideoKey(artistId) := cache.Load()[VideoKey(artistId)]]
    ensures FilledFrom(old(cache.Load()), cache.Load(), http.respond, map[VideoKey(artistId) := VideoRequest(artistId)])
    ensures mvidObjectsList == VideosOf(cache.Load()[VideoKey(artistId)], artistId)
    ensures forall v :: v in mvidObjectsList ==> v.tadbArtistId == artistId
    ensures Get(cache.Load()[VideoKey(artistId)], "mvids") == JNull ==> mvidObjectsList == []
    ensures VideoKey(artistId) in old(cache.Load()) ==> http.log == old(http.log)
    ensures VideoKey(artistId) !in old(cache.Load()) ==>
      && cache.Load()[VideoKey(artistId)] == http.respond(VideoRequest(artistId))
      && http.log == old(http.log) + [VideoRequest(artistId)]
    ensures OneGetPerNewKey(old(cache.Load()), cache.Load(), old(http.log), http.log)
  {
    mvidObjectsList := [];
    ghost var m0, log0 := cache.Load(), http.log;
    var results := MakeMusicVideoRequest(cache, http, artistId);
    if Get(results, "mvids") != JNull {
      var mvids := Get(results, "mvids").elems;
      for i := 0 to |mvids|
        invariant |mvidObjectsList| == i
        invariant forall k :: 0 <= k < i ==>
          mvidObjectsList[k] == MusicVideo(Get(mvids[k], "strMusicVid"), Get(mvids[k], "strTrack"), artistId)
      {
        assert mvids[i] in mvids;
        var trackName := Get(mvids[i], "strTrack");
        var mvidUrl := Get(mvids[i], "strMusicVid");
        var mvidObject := MusicVideo(mvidUrl := mvidUrl, trackName := trackName, tadbArtistId := artistId);
        mvidObjectsList := mvidObjectsList + [mvidObject];
      }
    }
    FetchedFills(m0, cache.Load(), log0, http.log, http.respond, VideoKey(artistId), VideoRequest(artistId), results);
    FetchedCount(m0, cache.Load(), log0, http.log, http.respond, VideoKey(artistId), VideoRequest(artistId), results);
  }

  // ---------------------------------------------------------------------
  // `play_music`.

  /** `music_video.track_name in track`. */
  predicate TitleIn(v: MusicVideo, track: string)
    requires v.trackName.JStr?
  {
    IsSubstring(v.trackName.s, track)
  }

  ghost predicate HasTitles(videos: seq<MusicVideo>)
  {
    forall v :: v in videos ==> v.trackName.JStr?
  }

  /** Index `k` holds the first video whose title occurs in `track`. */
  ghost predicate FirstMatchAt(videos: seq<MusicVideo>, track: string, k: int)
    requires HasTitles(videos)
  {
    && 0 <= k < |videos|
    && TitleIn(videos[k], track)
    && forall j :: 0 <= j < k ==> !TitleIn(videos[j], track)
  }

  /** The video URL `play_music` settles on: that of the first video whose
      title occurs in the track name, or 'None'. */
  ghost function FirstMatchUrl(videos: seq<MusicVideo>, track: string): (url: Json)
    requires HasTitles(videos)
    ensures (forall k :: 0 <= k < |videos| ==> !TitleIn(videos[k], track)) ==> url == JStr("None")
    ensures (exists k :: 0 <= k < |videos| && TitleIn(videos[k], track)) ==>
      exists k :: FirstMatchAt(videos, track, k) && url == videos[k].mvidUrl
    decreases |videos|
  {
    if videos == [] then JStr("None")
    else if TitleIn(videos[0], track) then
      assert FirstMatchAt(videos, track, 0);
      videos[0].mvidUrl
    else
      assert HasTitles(videos[1..]);
      var url := FirstMatchUrl(videos[1..], track);
      assert (exists k :: 0 <= k < |videos| && TitleIn(videos[k], track)) ==>
        exists k :: 0 <= k < |videos[1..]| && TitleIn(videos[1..][k], track);
      assert forall k :: FirstMatchAt(videos[1..], track, k) ==> FirstMatchAt(videos, track, k + 1);
      url
  }

  /** Bodies `play_music` can use: artist ids that are strings (they become
      a request parameter) and video titles that are strings (they are
      searched for in the track name). */
  ghost predicate IsPlayableArtistBody(results: Json)
  {
    IsArtistSearchBody(results) && forall id :: id in ArtistIdsOf(results) ==> id.JStr?
  }

  ghost predicate IsPlayableVideoBody(results: Json)
  {
    IsVideoBody(results) && forall artistId :: HasTitles(VideosOf(results, artistId))
  }

  /** Every cached TheAudioDB body is one `play_music` can use. */
  ghost predicate PlayableCache(m: map<string, Json>)
  {
    && (forall a :: ArtistSearchKey(a) in m ==> IsPlayableArtistBody(m[ArtistSearchKey(a)]))
    && (forall id :: VideoKey(id) in m ==> IsPlayableVideoBody(m[VideoKey(id)]))
  }

  /** TheAudioDB answers with bodies `play_music` can use. */
  ghost predicate PlayableServer(respond: HttpRequest -> Json)
  {
    && (forall a :: IsPlayableArtistBody(respond(ArtistSearchRequest(a))))
    && (forall id :: IsPlayableVideoBody(respond(VideoRequest(id))))
  }

  /** The YouTube URL `play_music` shows for `track` by `artist`, given
      the cache after both lookups. */
  ghost function YoutubeUrlFor(m: map<string, Json>, track: string, artist: string): Json
    requires PlayableCache(m) && ArtistSearchKey(artist) in m
    requires forall id :: id in ArtistIdsOf(m[ArtistSearchKey(artist)]) ==> VideoKey(id.s) in m
  {
    var ids := ArtistIdsOf(m[ArtistSearchKey(artist)]);
    if |ids| == 0 then JStr("None")
    else
      assert ids[0] in ids;
      FirstMatchUrl(VideosOf(m[VideoKey(ids[0].s)], ids[0].s), track)
  }

  /** Storing an artist search body `play_music` can use keeps the cache usable. */
  lemma StoreArtistKeepsPlayable(m: map<string, Json>, artist: string, body: Json)
    requires PlayableCache(m) && IsPlayableArtistBody(body)
    ensures PlayableCache(m[ArtistSearchKey(artist) := body])
  {
    var m' := m[ArtistSearchKey(artist) := body];
    forall id | VideoKey(id) in m' ensures IsPlayableVideoBody(m'[VideoKey(id)]) {
      ArtistKeyNotVideoKey(artist, id);
    }
  }

  /** Storing a video body `play_music` can use keeps the cache usable. */
  lemma StoreVideoKeepsPlayable(m: map<string, Json>, artistId: string, body: Json)
    requires PlayableCache(m) && IsPlayableVideoBody(body)
    ensures PlayableCache(m[VideoKey(artistId) := body])
  {
    var m' := m[VideoKey(artistId) := body];
    forall a | ArtistSearchKey(a) in m' ensures IsPlayableArtistBody(m'[ArtistSearchKey(a)]) {
      ArtistKeyNotVideoKey(a, artistId);
    }
  }

  /** The loop of `play_music` over the artist's videos: stop at the first
      whose title occurs in the track name. */
  method FirstMatchingVideo(musicVideos: seq<MusicVideo>, track: string) returns (youtubeUrl: Json)
    requires HasTitles(musicVideos)
    ensures youtubeUrl == FirstMatchUrl(musicVideos, track)
  {
    youtubeUrl := JStr("None");
    var k := 0;
    while k < |musicVideos|
      invariant 0 <= k <= |musicVideos|
      invariant youtubeUrl == JStr("None")
      invariant FirstMatchUrl(musicVideos[k..], track) == FirstMatchUrl(musicVideos, track)
    {
      assert musicVideos[k] in musicVideos;
      if IsSubstring(musicVideos[k].trackName.s, track) {
        youtubeUrl := musicVideos[k].mvidUrl;
        break;
      }
      assert musicVideos[k..][1..] == musicVideos[k + 1..];
      k := k + 1;
    }
  }

  /** The requests `play_music` may send, by cache key: the artist search,
      and the video request for the artist's first id when there is one. */
  ghost function PlayRequests(artist: string, ids: seq<Json>): map<string, HttpRequest>
  {
    map[ArtistSearchKey(artist) := ArtistSearchRequest(artist)]
      + (if |ids| > 0 && ids[0].JStr? then map[VideoKey(ids[0].s) := VideoRequest(ids[0].s)] else map[])
  }

  /** The artist search and then the video request for the artist's first
      id fill in exactly those two keys. */
  lemma PlayFills(m0: map<string, Json>, m1: map<string, Json>, m2: map<string, Json>,
                  respond: HttpRequest -> Json, artist: string, ids: seq<Json>)
    requires |ids| > 0 && ids[0].JStr?
    requires FilledFrom(m0, m1, respond, map[ArtistSearchKey(artist) := ArtistSearchRequest(artist)])
    requires FilledFrom(m1, m2, respond, map[VideoKey(ids[0].s) := VideoRequest(ids[0].s)])
    ensures FilledFrom(m0, m2, respond, PlayRequests(artist, ids))
  {
    ArtistKeyNotVideoKey(artist, ids[0].s);
    FilledFromCompose(m0, m1, m2, respond, map[ArtistSearchKey(artist) := ArtistSearchRequest(artist)],
                      map[VideoKey(ids[0].s) := VideoRequest(ids[0].s)]);
  }

  /** After the artist search and the video request for the artist's
      first id: the cache holds both keys and no other new one, each new
      key was fetched with one GET, and the URL `play_music` shows is the
      one picked from that id's videos. */
  lemma PlayAfterVideos(m0: map<string, Json>, m1: map<string, Json>, m2: map<string, Json>,
                        log0: seq<HttpRequest>, log1: seq<HttpRequest>, log2: seq<HttpRequest>,
                        respond: HttpRequest -> Json, track: string, artist: string, ids: seq<Json>)
    requires PlayableCache(m1) && PlayableCache(m2)
    requires ArtistSearchKey(artist) in m1 && ids == ArtistIdsOf(m1[ArtistSearchKey(artist)])
    requires |ids| > 0 && ids[0].JStr?
    requires VideoKey(ids[0].s) in m2 && m2 == m1[VideoKey(ids[0].s) := m2[VideoKey(ids[0].s)]]
    requires FilledFrom(m0, m1, respond, map[ArtistSearchKey(artist) := ArtistSearchRequest(artist)])
    requires FilledFrom(m1, m2, respond, map[VideoKey(ids[0].s) := VideoRequest(ids[0].s)])
    requires OneGetPerNewKey(m0, m1, log0, log1) && OneGetPerNewKey(m1, m2, log1, log2)
    requires |log1| <= |log0| + 1 && |log2| <= |log1| + 1
    ensures Extends(m0, m2) && ArtistSearchKey(artist) in m2
    ensures forall id :: id in ArtistIdsOf(m2[ArtistSearchKey(artist)]) ==> VideoKey(id.s) in m2
    ensures YoutubeUrlFor(m2, track, artist) == FirstMatchUrl(VideosOf(m2[VideoKey(ids[0].s)], ids[0].s), track)
    ensures FilledFrom(m0, m2, respond, PlayRequests(artist, ArtistIdsOf(m2[ArtistSearchKey(artist)])))
    ensures OneGetPerNewKey(m0, m2, log0, log2) && |log2| <= |log0| + 2
  {
    ArtistKeyNotVideoKey(artist, ids[0].s);
    assert m2[ArtistSearchKey(artist)] == m1[ArtistSearchKey(artist)];
    PlayFills(m0, m1, m2, respond, artist, ids);
    OneGetPerNewKeyCompose(m0, m1, m2, log0, log1, log2);
  }

  /** The part of `play_music` that picks the video: the selection is
      split on '+' into track and artist; the artist's TheAudioDB id is
      looked up; if there is one, its videos are fetched and the first
      whose title occurs in the track name supplies the URL, else the URL
      stays 'None'. */
  method PlayMusic(cache: CacheFile, http: HttpClient, selection: string)
    returns (track: string, artist: string, youtubeUrl: Json)
    requires |Split(selection, '+')| >= 2
    requires PlayableCache(cache.Load()) && PlayableServer(http.respond)
    modifies cache, http
    ensures track == Split(selection, '+')[0] && artist == Split(selection, '+')[1]
    ensures PlayableCache(cache.Load()) && Extends(old(cache.Load()), cache.Load())
    ensures ArtistSearchKey(artist) in cache.Load()
    ensures forall id :: id in ArtistIdsOf(cache.Load()[ArtistSearchKey(artist)]) ==> VideoKey(id.s) in cache.Load()
    ensures youtubeUrl == YoutubeUrlFor(cache.Load(), track, artist)
    ensures FilledFrom(old(cache.Load()), cache.Load(), http.respond,
                       PlayRequests(artist, ArtistIdsOf(cache.Load()[ArtistSearchKey(artist)])))
    ensures |http.log| <= |old(http.log)| + 2
    ensures OneGetPerNewKey(old(cache.Load()), cache.Load(), old(http.log), http.log)
  {
    var trackArtistList := Split(selection, '+');
    track := trackArtistList[0];
    artist := trackArtistList[1];
    youtubeUrl := JStr("None");
    ghost var m0, log0 := cache.Load(), http.log;
    var artistResults := GetArtistTadbId(cache, http, artist);
    ghost var m1, log1 := cache.Load(), http.log;
    StoreArtistKeepsPlayable(m0, artist, m1[ArtistSearchKey(artist)]);
    if |artistResults| > 0 {
      assert artistResults[0] in ArtistIdsOf(m1[ArtistSearchKey(artist)]);
      var artistId := artistResults[0].s;
      var musicVideos := GetMusicVideos(cache, http, artistId);
      ghost var m2 := cache.Load();
      StoreVideoKeepsPlayable(m1, artistId, m2[VideoKey(artistId)]);
      youtubeUrl := FirstMatchingVideo(musicVideos, track);
      PlayAfterVideos(m0, m1, m2, log0, log1, http.log, http.respond, track, artist, artistResults);
    } else {
      assert PlayRequests(artist, artistResults) == map[ArtistSearchKey(artist) := ArtistSearchRequest(artist)];
    }
  }
}
