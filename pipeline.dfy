/** The Spotify side of final_project_main.py: the request wrappers, the
    four genre searches, and the top-level script that concatenates the
    genre track lists, looks up the artist of every track, and produces the
    rows for the `artists` and `tracks` tables. */
module Pipeline {
  import opened Json
  import opened Sequences
  import opened Strings
  import opened RequestKeys
  import opened HttpCache
  import opened Records

  // ---------------------------------------------------------------------
  // Request wrappers.

  /** `make_spotify_request_with_cache(baseurl, params)`: the key is
      `construct_unique_key(baseurl, params)` and the GET carries the
      bearer-token headers. */
  method MakeSpotifyRequestWithCache(cache: CacheFile, http: HttpClient, baseurl: string, params: Params)
    returns (body: Json)
    modifies cache, http
    ensures cache.state.Parsed?
    ensures Fetched(old(cache.Load()), cache.Load(), old(http.log), http.log, http.respond,
                    UniqueKey(baseurl, params), HttpRequest(baseurl, params, true), body)
  {
    var uniqueKey := ConstructUniqueKey(baseurl, params);
    body := RequestWithCache(cache, http, uniqueKey, HttpRequest(baseurl, params, true));
  }

  /** A GET of a single resource: the URL with no parameters and the
      bearer-token headers. */
  function LookupRequest(searchUrl: string): HttpRequest
  {
    HttpRequest(searchUrl, [], true)
  }

  /** `make_spotify_artists_request_with_cache(search_url)` and
      `make_spotify_audio_features_request_with_cache(search_url)`, which
      are the same function: the URL itself is the key. */
  method MakeSpotifyLookupWithCache(cache: CacheFile, http: HttpClient, searchUrl: string)
    returns (body: Json)
    modifies cache, http
    ensures cache.state.Parsed?
    ensures Fetched(old(cache.Load()), cache.Load(), old(http.log), http.log, http.respond,
                    searchUrl, LookupRequest(searchUrl), body)
  {
    var uniqueKey := searchUrl;
    body := RequestWithCache(cache, http, uniqueKey, LookupRequest(searchUrl));
  }

  /** `get_spotify_artists(spotify_artist_id)`. */
  method GetSpotifyArtists(cache: CacheFile, http: HttpClient, spotifyArtistId: string)
    returns (results: Json)
    modifies cache, http
    ensures cache.state.Parsed?
    ensures Fetched(old(cache.Load()), cache.Load(), old(http.log), http.log, http.respond,
                    ArtistUrl(spotifyArtistId), LookupRequest(ArtistUrl(spotifyArtistId)), results)
  {
    var baseurl := SpotifyArtists;
    var searchUrl := baseurl + "/" + spotifyArtistId;
    results := MakeSpotifyLookupWithCache(cache, http, searchUrl);
  }

  /** `get_track_audio_features(track_object)`: the track id must be a
      string, since it is concatenated to the base URL. */
  method GetTrackAudioFeatures(cache: CacheFile, http: HttpClient, trackObject: Track)
    returns (results: Json)
    requires trackObject.spotifyTrackId.JStr?
    modifies cache, http
    ensures cache.state.Parsed?
    ensures Fetched(old(cache.Load()), cache.Load(), old(http.log), http.log, http.respond,
                    AudioFeaturesUrl(trackObject.spotifyTrackId.s),
                    LookupRequest(AudioFeaturesUrl(trackObject.spotifyTrackId.s)), results)
  {
    var trackId := trackObject.spotifyTrackId.s;
    var baseurl := SpotifyAudioFeatures;
    var searchUrl := baseurl + "/" + trackId;
    results := MakeSpotifyLookupWithCache(cache, http, searchUrl);
  }

  // ---------------------------------------------------------------------
  // Genre searches.

  /** The four genres, in the order the script searches them. */
  const FetchOrder: seq<string> := ["folk", "emo", "indie", "punk"]

  /** `{"q": "genre:<genre>", "type": "track", "limit": 50}`. */
  function SearchParams(genre: string): Params
  {
    [("q", PStr("genre:" + genre)), ("type", PStr("track")), ("limit", PInt(50))]
  }

  /** The cache key of a genre search, written out: `limit_50` sorts
      before `q_genre:...`, which sorts before `type_track`, whatever the
      genre (see `SearchKeyIsUniqueKey`). */
  function SearchKey(genre: string): string
  {
    SpotifySearch + Connector + Join(Connector, ["limit_50", "q_genre:" + genre, "type_track"])
  }

  function SearchRequest(genre: string): HttpRequest
  {
    HttpRequest(SpotifySearch, SearchParams(genre), true)
  }

  lemma RenderSearchParams(genre: string)
    ensures RenderAll(SearchParams(genre)) == ["q_genre:" + genre, "type_track", "limit_50"]
  {
    var r := RenderAll(SearchParams(genre));
    assert IntToString(50) == "50" by {
      assert NatToString(50) == NatToString(5) + [DigitChar(0)];
    }
    assert r[0] == "q_genre:" + genre;
    assert r[1] == "type_track";
    assert r[2] == "limit_50";
  }

  /** Strings whose first characters differ compare as those characters do. */
  lemma LessEqByFirst(x: string, y: string)
    requires |x| > 0 && |y| > 0 && x[0] < y[0]
    ensures LessEq(x, y) && !LessEq(y, x)
  {
  }

  /** Sorting three strings that arrive in the order middle, last, first. */
  lemma SortThree(a: string, b: string, c: string)
    requires LessEq(b, c) && !LessEq(b, a) && !LessEq(c, a)
    ensures SortStrings([b, c, a]) == [a, b, c]
  {
    assert SortStrings([a]) == [a] by {
      assert [a][1..] == [];
    }
    assert SortStrings([c, a]) == [a, c] by {
      assert [c, a][1..] == [a];
      assert Insert(c, [a]) == [a] + Insert(c, []);
    }
    assert SortStrings([b, c, a]) == Insert(b, [a, c]) by {
      assert [b, c, a][1..] == [c, a];
    }
    assert Insert(b, [a, c]) == [a] + Insert(b, [c]) by {
      assert [a, c][1..] == [c];
    }
  }

  lemma JoinThree(a: string, b: string, c: string)
    ensures Join(Connector, [a, b, c]) == a + "_" + b + "_" + c
  {
    assert [a, b, c][1..] == [b, c];
    assert [b, c][1..] == [c];
    assert Join(Connector, [c]) == c;
    assert Join(Connector, [b, c]) == b + "_" + c;
  }

  /** `construct_unique_key` on a genre search's parameters gives
      `SearchKey(genre)`: `limit_50` sorts before `q_genre:...`, which sorts
      before `type_track`, whatever the genre. */
  lemma SearchKeyIsUniqueKey(genre: string)
    ensures UniqueKey(SpotifySearch, SearchParams(genre)) == SearchKey(genre)
  {
    var q, t, l := "q_genre:" + genre, "type_track", "limit_50";
    RenderSearchParams(genre);
    SearchSortOrder(q, t, l);
  }

  lemma SearchSortOrder(q: string, t: string, l: string)
    requires |q| > 0 && q[0] == 'q' && t == "type_track" && l == "limit_50"
    ensures SortStrings([q, t, l]) == [l, q, t]
  {
    LessEqByFirst(q, t);
    LessEqByFirst(l, q);
    LessEqByFirst(l, t);
    SortThree(l, q, t);
  }

  /** Different genres are cached under different keys. */
  lemma SearchKeyInjective(g1: string, g2: string)
    ensures SearchKey(g1) == SearchKey(g2) ==> g1 == g2
  {
    var n := |SpotifySearch + "_" + "limit_50" + "_" + "q_genre:"|;
    var k1, k2 := SearchKey(g1), SearchKey(g2);
    JoinThree("limit_50", "q_genre:" + g1, "type_track");
    JoinThree("limit_50", "q_genre:" + g2, "type_track");
    if k1 == k2 {
      assert k1[n..|k1| - 11] == g1;
      assert k2[n..|k2| - 11] == g2;
    }
  }

  /** A genre search never shares a key with an artist lookup. */
  lemma SearchKeyNotArtistUrl(genre: string)
    ensures forall id :: SearchKey(genre) != ArtistUrl(id)
  {
    forall id ensures SearchKey(genre) != ArtistUrl(id) {
      SearchKeyIsUniqueKey(genre);
      SpotifyKeysDisjoint(SearchParams(genre), id, id);
    }
  }

  /** `get_folk_tracks()`, `get_emo_tracks()`, `get_indie_tracks()` and
      `get_punk_tracks()`, which differ only in the genre. */
  method GetGenreTracks(cache: CacheFile, http: HttpClient, genre: string) returns (results: Json)
    modifies cache, http
    ensures cache.state.Parsed?
    ensures Fetched(old(cache.Load()), cache.Load(), old(http.log), http.log, http.respond,
                    SearchKey(genre), SearchRequest(genre), results)
  {
    var baseurl := SpotifySearch;
    var params := [("q", PStr("genre:" + genre)), ("type", PStr("track")), ("limit", PInt(50))];
    results := MakeSpotifyRequestWithCache(cache, http, baseurl, params);
    SearchKeyIsUniqueKey(genre);
  }

  // ---------------------------------------------------------------------
  // What the script needs from the cache and the servers.

  /** A search body the script can consume: every subscript of
      `create_track_objects` succeeds and each first artist's id is a
      string (it is concatenated into the artist URL). */
  ghost predicate IsUsableSearch(results: Json)
  {
    IsSearchResponse(results) && forall t :: t in TracksOf(results) ==> t.spotifyArtistId.JStr?
  }

  /** Every cached genre search and artist body is one the script can
      consume; other entries (from the web application, say) are not
      constrained. */
  ghost predicate WellFormedCache(m: map<string, Json>)
  {
    && (forall g :: g in FetchOrder && SearchKey(g) in m ==> IsUsableSearch(m[SearchKey(g)]))
    && (forall id :: ArtistUrl(id) in m ==> IsArtistResponse(m[ArtistUrl(id)]))
  }

  /** The servers answer the genre searches and the artist lookups with
      bodies the script can consume. */
  ghost predicate WellFormedServer(respond: HttpRequest -> Json)
  {
    && (forall g :: g in FetchOrder ==> IsUsableSearch(respond(SearchRequest(g))))
    && (forall id :: IsArtistResponse(respond(LookupRequest(ArtistUrl(id)))))
  }

  lemma FetchSearchKeepsWellFormed(m0: map<string, Json>, m1: map<string, Json>,
                                   log0: seq<HttpRequest>, log1: seq<HttpRequest>,
                                   respond: HttpRequest -> Json, genre: string, body: Json)
    requires genre in FetchOrder
    requires WellFormedCache(m0) && WellFormedServer(respond)
    requires Fetched(m0, m1, log0, log1, respond, SearchKey(genre), SearchRequest(genre), body)
    ensures WellFormedCache(m1) && Extends(m0, m1)
    ensures SearchKey(genre) in m1 && m1[SearchKey(genre)] == body && IsUsableSearch(body)
  {
    SearchKeyNotArtistUrl(genre);
  }

  lemma FetchArtistKeepsWellFormed(m0: map<string, Json>, m1: map<string, Json>,
                                   log0: seq<HttpRequest>, log1: seq<HttpRequest>,
                                   respond: HttpRequest -> Json, id: string, body: Json)
    requires WellFormedCache(m0) && WellFormedServer(respond)
    requires Fetched(m0, m1, log0, log1, respond, ArtistUrl(id), LookupRequest(ArtistUrl(id)), body)
    ensures WellFormedCache(m1) && Extends(m0, m1)
    ensures ArtistUrl(id) in m1 && m1[ArtistUrl(id)] == body && IsArtistResponse(body)
  {
    forall g | g in FetchOrder ensures SearchKey(g) != ArtistUrl(id) {
      SearchKeyNotArtistUrl(g);
    }
  }

  // ---------------------------------------------------------------------
  // The script's results as functions of the cache.

  /** The search for `genre` is cached with a usable body. */
  ghost predicate SearchCached(m: map<string, Json>, genre: string)
  {
    SearchKey(genre) in m && IsUsableSearch(m[SearchKey(genre)])
  }

  /** All four genre searches are cached with usable bodies. */
  ghost predicate SearchesCached(m: map<string, Json>)
  {
    SearchCached(m, "folk") && SearchCached(m, "emo") && SearchCached(m, "indie") && SearchCached(m, "punk")
  }

  ghost function GenreTracks(m: map<string, Json>, genre: string): seq<Track>
    requires SearchCached(m, genre)
  {
    TracksOf(m[SearchKey(genre)])
  }

  /** `full_track_list`: folk, then indie, then punk, then emo, which is
      not the order the searches are issued in. */
  ghost function FullTracks(m: map<string, Json>): seq<Track>
    requires SearchesCached(m)
  {
    GenreTracks(m, "folk") + GenreTracks(m, "indie") + GenreTracks(m, "punk") + GenreTracks(m, "emo")
  }

  ghost predicate HasArtistIds(tracks: seq<Track>)
  {
    forall t :: t in tracks ==> t.spotifyArtistId.JStr?
  }

  lemma FullTracksHaveArtistIds(m: map<string, Json>)
    requires SearchesCached(m)
    ensures HasArtistIds(FullTracks(m))
  {
    assert HasArtistIds(GenreTracks(m, "folk")) && HasArtistIds(GenreTracks(m, "indie"));
    assert HasArtistIds(GenreTracks(m, "punk")) && HasArtistIds(GenreTracks(m, "emo"));
  }

  /** The artist id of every track, in track order. */
  ghost function ArtistIds(tracks: seq<Track>): (ids: seq<string>)
    requires HasArtistIds(tracks)
    ensures |ids| == |tracks|
  {
    seq(|tracks|, i requires 0 <= i < |tracks| => assert tracks[i] in tracks; tracks[i].spotifyArtistId.s)
  }

  ghost function FullArtistIds(m: map<string, Json>): seq<string>
    requires SearchesCached(m)
  {
    FullTracksHaveArtistIds(m);
    ArtistIds(FullTracks(m))
  }

  /** The cache answers the whole script: the four searches and the
      artist of every track. */
  ghost predicate Covers(m: map<string, Json>)
  {
    SearchesCached(m) && forall id :: id in FullArtistIds(m) ==> ArtistUrl(id) in m
  }

  /** `artist_list`: the cached artist body for each track, in track order. */
  ghost function ArtistBodies(m: map<string, Json>): (bodies: seq<Json>)
    requires WellFormedCache(m) && Covers(m)
    ensures forall i :: 0 <= i < |bodies| ==> IsArtistResponse(bodies[i])
  {
    var ids := FullArtistIds(m);
    seq(|ids|, i requires 0 <= i < |ids| => assert ids[i] in ids; m[ArtistUrl(ids[i])])
  }

  /** Searches made against a larger cache find the same tracks. */
  lemma FullTracksStable(m1: map<string, Json>, m2: map<string, Json>)
    requires SearchesCached(m1) && Extends(m1, m2)
    ensures SearchesCached(m2) && FullTracks(m2) == FullTracks(m1)
  {
    assert m2[SearchKey("folk")] == m1[SearchKey("folk")] && m2[SearchKey("emo")] == m1[SearchKey("emo")];
    assert m2[SearchKey("indie")] == m1[SearchKey("indie")] && m2[SearchKey("punk")] == m1[SearchKey("punk")];
  }

  /** The four search requests, in the order they are issued. */
  ghost const SearchRequests: seq<HttpRequest> :=
    [SearchRequest("folk"), SearchRequest("emo"), SearchRequest("indie"), SearchRequest("punk")]

  /** One artist lookup per id, in order. */
  ghost function LookupRequests(ids: seq<string>): (reqs: seq<HttpRequest>)
    ensures |reqs| == |ids|
  {
    seq(|ids|, i requires 0 <= i < |ids| => LookupRequest(ArtistUrl(ids[i])))
  }

  /** The cache keys of the artist lookups for `ids`. */
  ghost function ArtistKeys(ids: seq<string>): set<string>
  {
    set id | id in ids :: ArtistUrl(id)
  }

  /** The lookup request behind each of `keys`. */
  ghost function LookupMap(keys: set<string>): map<string, HttpRequest>
  {
    map k | k in keys :: LookupRequest(k)
  }

  /** The four searches, by cache key. */
  ghost const SearchRequestMap: map<string, HttpRequest> :=
    map[SearchKey("folk") := SearchRequest("folk"), SearchKey("emo") := SearchRequest("emo"),
        SearchKey("indie") := SearchRequest("indie"), SearchKey("punk") := SearchRequest("punk")]

  /** No search key is the key of an artist lookup. */
  lemma SearchMapDisjoint(ids: seq<string>)
    ensures forall k :: k in SearchRequestMap ==> k !in ArtistKeys(ids)
  {
    SearchKeyNotArtistUrl("folk");
    SearchKeyNotArtistUrl("emo");
    SearchKeyNotArtistUrl("indie");
    SearchKeyNotArtistUrl("punk");
  }

  lemma SearchKeysDistinct()
    ensures SearchKey("folk") != SearchKey("emo") && SearchKey("folk") != SearchKey("indie")
    ensures SearchKey("folk") != SearchKey("punk") && SearchKey("emo") != SearchKey("indie")
    ensures SearchKey("emo") != SearchKey("punk") && SearchKey("indie") != SearchKey("punk")
  {
    SearchKeyInjective("folk", "emo");
    SearchKeyInjective("folk", "indie");
    SearchKeyInjective("folk", "punk");
    SearchKeyInjective("emo", "indie");
    SearchKeyInjective("emo", "punk");
    SearchKeyInjective("indie", "punk");
    assert "folk"[0] != "emo"[0] && "folk"[0] != "indie"[0] && "folk"[0] != "punk"[0];
    assert "emo"[0] != "indie"[0] && "emo"[0] != "punk"[0] && "indie"[0] != "punk"[0];
  }

  // ---------------------------------------------------------------------
  // The script.

  /** Four consecutive fetches, folk, emo, indie and punk, from a
      well-formed cache: afterwards all four searches are cached; nothing
      was fetched if they already were; and from an empty cache all four
      were fetched, in that order, leaving no artist entry. */
  lemma FourSearches(m0: map<string, Json>, m1: map<string, Json>, m2: map<string, Json>,
                     m3: map<string, Json>, m4: map<string, Json>,
                     log0: seq<HttpRequest>, log1: seq<HttpRequest>, log2: seq<HttpRequest>,
                     log3: seq<HttpRequest>, log4: seq<HttpRequest>,
                     respond: HttpRequest -> Json, b1: Json, b2: Json, b3: Json, b4: Json)
    requires WellFormedCache(m0) && WellFormedServer(respond)
    requires Fetched(m0, m1, log0, log1, respond, SearchKey("folk"), SearchRequest("folk"), b1)
    requires Fetched(m1, m2, log1, log2, respond, SearchKey("emo"), SearchRequest("emo"), b2)
    requires Fetched(m2, m3, log2, log3, respond, SearchKey("indie"), SearchRequest("indie"), b3)
    requires Fetched(m3, m4, log3, log4, respond, SearchKey("punk"), SearchRequest("punk"), b4)
    ensures WellFormedCache(m4) && SearchesCached(m4) && Extends(m0, m4)
    ensures m4[SearchKey("folk")] == b1 && m4[SearchKey("emo")] == b2
    ensures m4[SearchKey("indie")] == b3 && m4[SearchKey("punk")] == b4
    ensures |log4| <= |log0| + 4
    ensures SearchesCached(m0) ==> m4 == m0 && log4 == log0
    ensures m0 == map[] ==> log4 == log0 + SearchRequests && forall id :: ArtistUrl(id) !in m4
  {
    FetchSearchKeepsWellFormed(m0, m1, log0, log1, respond, "folk", b1);
    FetchSearchKeepsWellFormed(m1, m2, log1, log2, respond, "emo", b2);
    FetchSearchKeepsWellFormed(m2, m3, log2, log3, respond, "indie", b3);
    FetchSearchKeepsWellFormed(m3, m4, log3, log4, respond, "punk", b4);
    ExtendsTransitive(m0, m1, m2);
    ExtendsTransitive(m0, m2, m3);
    ExtendsTransitive(m0, m3, m4);
    ExtendsTransitive(m1, m2, m3);
    ExtendsTransitive(m1, m3, m4);
    ExtendsTransitive(m2, m3, m4);
    if m0 == map[] {
      FreshSearches(m0, m1, m2, m3, m4, log0, log1, log2, log3, log4, respond, b1, b2, b3, b4);
    }
  }

  lemma FreshSearches(m0: map<string, Json>, m1: map<string, Json>, m2: map<string, Json>,
                      m3: map<string, Json>, m4: map<string, Json>,
                      log0: seq<HttpRequest>, log1: seq<HttpRequest>, log2: seq<HttpRequest>,
                      log3: seq<HttpRequest>, log4: seq<HttpRequest>,
                      respond: HttpRequest -> Json, b1: Json, b2: Json, b3: Json, b4: Json)
    requires m0 == map[]
    requires Fetched(m0, m1, log0, log1, respond, SearchKey("folk"), SearchRequest("folk"), b1)
    requires Fetched(m1, m2, log1, log2, respond, SearchKey("emo"), SearchRequest("emo"), b2)
    requires Fetched(m2, m3, log2, log3, respond, SearchKey("indie"), SearchRequest("indie"), b3)
    requires Fetched(m3, m4, log3, log4, respond, SearchKey("punk"), SearchRequest("punk"), b4)
    ensures log4 == log0 + SearchRequests
    ensures forall id :: ArtistUrl(id) !in m4
  {
    SearchKeysDistinct();
    assert m1.Keys == {SearchKey("folk")};
    assert m2.Keys == {SearchKey("folk"), SearchKey("emo")};
    assert m3.Keys == {SearchKey("folk"), SearchKey("emo"), SearchKey("indie")};
    assert m4.Keys == {SearchKey("folk"), SearchKey("emo"), SearchKey("indie"), SearchKey("punk")};
    SearchKeyNotArtistUrl("folk");
    SearchKeyNotArtistUrl("emo");
    SearchKeyNotArtistUrl("indie");
    SearchKeyNotArtistUrl("punk");
  }

  /** The four fetches fill in exactly the four search keys: a search
      already cached keeps its body, a missing one now holds the server's
      answer to that search, and no other key appears. */
  lemma SearchesFill(m0: map<string, Json>, m1: map<string, Json>, m2: map<string, Json>,
                     m3: map<string, Json>, m4: map<string, Json>,
                     log0: seq<HttpRequest>, log1: seq<HttpRequest>, log2: seq<HttpRequest>,
                     log3: seq<HttpRequest>, log4: seq<HttpRequest>,
                     respond: HttpRequest -> Json, b1: Json, b2: Json, b3: Json, b4: Json)
    requires Fetched(m0, m1, log0, log1, respond, SearchKey("folk"), SearchRequest("folk"), b1)
    requires Fetched(m1, m2, log1, log2, respond, SearchKey("emo"), SearchRequest("emo"), b2)
    requires Fetched(m2, m3, log2, log3, respond, SearchKey("indie"), SearchRequest("indie"), b3)
    requires Fetched(m3, m4, log3, log4, respond, SearchKey("punk"), SearchRequest("punk"), b4)
    ensures FilledFrom(m0, m4, respond, SearchRequestMap)
    ensures OneGetPerNewKey(m0, m4, log0, log4)
  {
    FetchedCount(m0, m1, log0, log1, respond, SearchKey("folk"), SearchRequest("folk"), b1);
    FetchedStep(m0, m1, m2, log0, log1, log2, respond, SearchKey("emo"), SearchRequest("emo"), b2);
    FetchedStep(m0, m2, m3, log0, log2, log3, respond, SearchKey("indie"), SearchRequest("indie"), b3);
    FetchedStep(m0, m3, m4, log0, log3, log4, respond, SearchKey("punk"), SearchRequest("punk"), b4);
    SearchKeysDistinct();
    var folk, emo, indie, punk := SearchKey("folk"), SearchKey("emo"), SearchKey("indie"), SearchKey("punk");
    TwoFetchesFill(m0, m1, m2, log0, log1, log2, respond, folk, emo,
                   SearchRequest("folk"), SearchRequest("emo"), b1, b2);
    TwoFetchesFill(m2, m3, m4, log2, log3, log4, respond, indie, punk,
                   SearchRequest("indie"), SearchRequest("punk"), b3, b4);
    FilledPairs(m0, m2, m4, respond, folk, emo, indie, punk,
                SearchRequest("folk"), SearchRequest("emo"), SearchRequest("indie"), SearchRequest("punk"));
  }

  /** The four searches and `create_track_objects` on each. On an empty
      cache all four miss, in the order folk, emo, indie, punk. */
  method SearchAllGenres(cache: CacheFile, http: HttpClient)
    returns (folk: seq<Track>, emo: seq<Track>, indie: seq<Track>, punk: seq<Track>)
    requires WellFormedCache(cache.Load()) && WellFormedServer(http.respond)
    modifies cache, http
    ensures cache.state.Parsed? && WellFormedCache(cache.Load()) && SearchesCached(cache.Load())
    ensures Extends(old(cache.Load()), cache.Load())
    ensures FilledFrom(old(cache.Load()), cache.Load(), http.respond, SearchRequestMap)
    ensures OneGetPerNewKey(old(cache.Load()), cache.Load(), old(http.log), http.log)
    ensures folk == GenreTracks(cache.Load(), "folk") && emo == GenreTracks(cache.Load(), "emo")
    ensures indie == GenreTracks(cache.Load(), "indie") && punk == GenreTracks(cache.Load(), "punk")
    ensures |http.log| <= |old(http.log)| + 4
    ensures SearchesCached(old(cache.Load())) ==> cache.state == old(cache.state) && http.log == old(http.log)
    ensures old(cache.Load()) == map[] ==>
      && http.log == old(http.log) + SearchRequests
      && forall id :: ArtistUrl(id) !in cache.Load()
  {
    ghost var m0, log0 := cache.Load(), http.log;
    var folkResults := GetGenreTracks(cache, http, "folk");
    FetchSearchKeepsWellFormed(m0, cache.Load(), log0, http.log, http.respond, "folk", folkResults);
    folk := CreateTrackObjects(folkResults);
    ghost var m1, log1 := cache.Load(), http.log;

    var emoResults := GetGenreTracks(cache, http, "emo");
    FetchSearchKeepsWellFormed(m1, cache.Load(), log1, http.log, http.respond, "emo", emoResults);
    emo := CreateTrackObjects(emoResults);
    ghost var m2, log2 := cache.Load(), http.log;

    var indieResults := GetGenreTracks(cache, http, "indie");
    FetchSearchKeepsWellFormed(m2, cache.Load(), log2, http.log, http.respond, "indie", indieResults);
    indie := CreateTrackObjects(indieResults);
    ghost var m3, log3 := cache.Load(), http.log;

    var punkResults := GetGenreTracks(cache, http, "punk");
    FetchSearchKeepsWellFormed(m3, cache.Load(), log3, http.log, http.respond, "punk", punkResults);
    punk := CreateTrackObjects(punkResults);

    FourSearches(m0, m1, m2, m3, cache.Load(), log0, log1, log2, log3, http.log, http.respond,
                 folkResults, emoResults, indieResults, punkResults);
    SearchesFill(m0, m1, m2, m3, cache.Load(), log0, log1, log2, log3, http.log, http.respond,
                 folkResults, emoResults, indieResults, punkResults);
  }

  /** One more artist lookup from a run that started on an empty cache:
      the lookup is a miss exactly when the id has not been seen before,
      so the lookups issued so far are those of the distinct ids, in
      first-seen order. */
  lemma FreshArtistStep(ids: seq<string>, i: nat, m: map<string, Json>, m': map<string, Json>,
                        logS: seq<HttpRequest>, log: seq<HttpRequest>, log': seq<HttpRequest>,
                        respond: HttpRequest -> Json, body: Json)
    requires i < |ids|
    requires log == logS + LookupRequests(Dedup(ids[..i]))
    requires forall id :: ArtistUrl(id) in m <==> id in ids[..i]
    requires Fetched(m, m', log, log', respond, ArtistUrl(ids[i]), LookupRequest(ArtistUrl(ids[i])), body)
    ensures log' == logS + LookupRequests(Dedup(ids[..i + 1]))
    ensures forall id :: ArtistUrl(id) in m' <==> id in ids[..i + 1]
  {
    var p := ids[..i + 1];
    assert p[..i] == ids[..i] && p[i] == ids[i];
    forall id ensures ArtistUrl(id) in m' <==> id in p {
      LookupUrlsInjective(id, ids[i]);
    }
    if ids[i] !in ids[..i] {
      var d := Dedup(ids[..i]);
      assert LookupRequests(d + [ids[i]]) == LookupRequests(d) + [LookupRequest(ArtistUrl(ids[i]))];
    }
  }

  /** The artist keys of one more id are those before plus its own. */
  lemma ArtistKeysSnoc(ids: seq<string>, i: nat)
    requires i < |ids|
    ensures ArtistKeys(ids[..i + 1]) == ArtistKeys(ids[..i]) + {ArtistUrl(ids[i])}
  {
    assert ids[..i + 1] == ids[..i] + [ids[i]];
  }

  /** The lookup requests of one more key are those before plus its own. */
  lemma LookupMapAdd(keys: set<string>, key: string)
    ensures LookupMap(keys) + map[key := LookupRequest(key)] == LookupMap(keys + {key})
  { }

  /** The lookup for track i fills in its key on top of the earlier ones. */
  lemma ArtistFillStep(ids: seq<string>, i: nat, m0: map<string, Json>, m: map<string, Json>,
                       m': map<string, Json>, log: seq<HttpRequest>, log': seq<HttpRequest>,
                       respond: HttpRequest -> Json, body: Json)
    requires i < |ids|
    requires FilledFrom(m0, m, respond, LookupMap(ArtistKeys(ids[..i])))
    requires Fetched(m, m', log, log', respond, ArtistUrl(ids[i]), LookupRequest(ArtistUrl(ids[i])), body)
    ensures FilledFrom(m0, m', respond, LookupMap(ArtistKeys(ids[..i + 1])))
  {
    var key := ArtistUrl(ids[i]);
    FetchedFills(m, m', log, log', respond, key, LookupRequest(key), body);
    FilledFromCompose(m0, m, m', respond, LookupMap(ArtistKeys(ids[..i])), map[key := LookupRequest(key)]);
    ArtistKeysSnoc(ids, i);
    LookupMapAdd(ArtistKeys(ids[..i]), key);
  }

  /** Body k of the artist loop is the cached body for track k's artist,
      for every track before i. */
  ghost predicate ArtistsListed(ids: seq<string>, i: nat, m: map<string, Json>, artistList: seq<Json>)
  {
    && i <= |ids| && |artistList| == i
    && forall k :: 0 <= k < i ==> ArtistUrl(ids[k]) in m && m[ArtistUrl(ids[k])] == artistList[k]
  }

  /** Appending the body just looked up for track i keeps the list in step
      with the cache. */
  lemma ArtistListStep(ids: seq<string>, i: nat, m: map<string, Json>, m': map<string, Json>,
                       log: seq<HttpRequest>, log': seq<HttpRequest>, respond: HttpRequest -> Json,
                       artistList: seq<Json>, body: Json)
    requires i < |ids| && ArtistsListed(ids, i, m, artistList)
    requires Fetched(m, m', log, log', respond, ArtistUrl(ids[i]), LookupRequest(ArtistUrl(ids[i])), body)
    ensures ArtistsListed(ids, i + 1, m', artistList + [body])
  { }

  /** If the cache held every artist to begin with, the loop has changed
      nothing so far. */
  ghost predicate ArtistsUntouched(ids: seq<string>, m0: map<string, Json>, log0: seq<HttpRequest>,
                                   m: map<string, Json>, log: seq<HttpRequest>)
  {
    (forall id :: id in ids ==> ArtistUrl(id) in m0) ==> m == m0 && log == log0
  }

  /** A lookup of an artist the cache already held changes nothing. */
  lemma ArtistUntouchedStep(ids: seq<string>, i: nat, m0: map<string, Json>, log0: seq<HttpRequest>,
                            m: map<string, Json>, m': map<string, Json>, log: seq<HttpRequest>,
                            log': seq<HttpRequest>, respond: HttpRequest -> Json, body: Json)
    requires i < |ids| && ArtistsUntouched(ids, m0, log0, m, log)
    requires Fetched(m, m', log, log', respond, ArtistUrl(ids[i]), LookupRequest(ArtistUrl(ids[i])), body)
    ensures ArtistsUntouched(ids, m0, log0, m', log')
  {
    if forall id :: id in ids ==> ArtistUrl(id) in m0 {
      assert ids[i] in ids;
    }
  }

  /** From a cache with no artist entry, the loop has issued one GET per
      distinct artist so far, in first-seen order, and cached exactly
      those artists. */
  ghost predicate ArtistsFresh(ids: seq<string>, i: nat, m0: map<string, Json>, log0: seq<HttpRequest>,
                               m: map<string, Json>, log: seq<HttpRequest>)
    requires i <= |ids|
  {
    (forall id :: ArtistUrl(id) !in m0) ==>
      && log == log0 + LookupRequests(Dedup(ids[..i]))
      && forall id :: ArtistUrl(id) in m <==> id in ids[..i]
  }

  /** One lookup keeps `ArtistsFresh`. */
  lemma ArtistFreshStep(ids: seq<string>, i: nat, m0: map<string, Json>, log0: seq<HttpRequest>,
                        m: map<string, Json>, m': map<string, Json>, log: seq<HttpRequest>,
                        log': seq<HttpRequest>, respond: HttpRequest -> Json, body: Json)
    requires i < |ids| && ArtistsFresh(ids, i, m0, log0, m, log)
    requires Fetched(m, m', log, log', respond, ArtistUrl(ids[i]), LookupRequest(ArtistUrl(ids[i])), body)
    ensures ArtistsFresh(ids, i + 1, m0, log0, m', log')
  {
    if forall id :: ArtistUrl(id) !in m0 {
      FreshArtistStep(ids, i, m, m', log0, log, log', respond, body);
    }
  }

  /** The loop over `full_track_list` that calls `get_spotify_artists`
      for each track's artist id and appends the body to `artist_list`:
      one lookup per track, in track order, with no de-duplication of its
      own. */
  method GetArtistsOfTracks(cache: CacheFile, http: HttpClient, fullTrackList: seq<Track>)
    returns (artistList: seq<Json>)
    requires HasArtistIds(fullTrackList)
    requires cache.state.Parsed? && WellFormedCache(cache.Load()) && WellFormedServer(http.respond)
    modifies cache, http
    ensures cache.state.Parsed? && WellFormedCache(cache.Load())
    ensures FilledFrom(old(cache.Load()), cache.Load(), http.respond, LookupMap(ArtistKeys(ArtistIds(fullTrackList))))
    ensures OneGetPerNewKey(old(cache.Load()), cache.Load(), old(http.log), http.log)
    ensures |artistList| == |fullTrackList|
    ensures forall k :: 0 <= k < |artistList| ==>
      && ArtistUrl(ArtistIds(fullTrackList)[k]) in cache.Load()
      && cache.Load()[ArtistUrl(ArtistIds(fullTrackList)[k])] == artistList[k]
    ensures |http.log| <= |old(http.log)| + |fullTrackList|
    ensures (forall id :: id in ArtistIds(fullTrackList) ==> ArtistUrl(id) in old(cache.Load())) ==>
      cache.state == old(cache.state) && http.log == old(http.log)
    ensures (forall id :: ArtistUrl(id) !in old(cache.Load())) ==>
      http.log == old(http.log) + LookupRequests(Dedup(ArtistIds(fullTrackList)))
  {
    ghost var m0, log0 := cache.Load(), http.log;
    ghost var ids := ArtistIds(fullTrackList);
    artistList := [];
    assert ArtistKeys(ids[..0]) == {};
    assert m0.Keys - m0.Keys == {};
    for i := 0 to |fullTrackList|
      invariant cache.state.Parsed? && WellFormedCache(cache.Load())
      invariant FilledFrom(m0, cache.Load(), http.respond, LookupMap(ArtistKeys(ids[..i])))
      invariant ArtistsListed(ids, i, cache.Load(), artistList)
      invariant |http.log| <= |log0| + i
      invariant OneGetPerNewKey(m0, cache.Load(), log0, http.log)
      invariant ArtistsUntouched(ids, m0, log0, cache.Load(), http.log)
      invariant ArtistsFresh(ids, i, m0, log0, cache.Load(), http.log)
    {
      assert fullTrackList[i] in fullTrackList;
      var spotifyArtistId := fullTrackList[i].spotifyArtistId;
      ghost var m, log := cache.Load(), http.log;
      var results := GetSpotifyArtists(cache, http, spotifyArtistId.s);
      FetchArtistKeepsWellFormed(m, cache.Load(), log, http.log, http.respond, ids[i], results);
      ArtistFillStep(ids, i, m0, m, cache.Load(), log, http.log, http.respond, results);
      ArtistListStep(ids, i, m, cache.Load(), log, http.log, http.respond, artistList, results);
      ArtistUntouchedStep(ids, i, m0, log0, m, cache.Load(), log, http.log, http.respond, results);
      ArtistFreshStep(ids, i, m0, log0, m, cache.Load(), log, http.log, http.respond, results);
      FetchedStep(m0, m, cache.Load(), log0, log, http.log, http.respond,
                  ArtistUrl(ids[i]), LookupRequest(ArtistUrl(ids[i])), results);
      artistList := artistList + [results];
    }
    assert ids[..|ids|] == ids;
  }

  /** The searches, then the artist lookups, fill in the four search keys
      and the lookup keys of the artists. */
  lemma PipelineFills(m0: map<string, Json>, mS: map<string, Json>, m1: map<string, Json>,
                      respond: HttpRequest -> Json, ids: seq<string>)
    requires FilledFrom(m0, mS, respond, SearchRequestMap)
    requires FilledFrom(mS, m1, respond, LookupMap(ArtistKeys(ids)))
    ensures FilledFrom(m0, m1, respond, SearchRequestMap + LookupMap(ArtistKeys(ids)))
  {
    SearchMapDisjoint(ids);
    FilledFromCompose(m0, mS, m1, respond, SearchRequestMap, LookupMap(ArtistKeys(ids)));
  }

  /** The cache after the searches (`mS`) and then the artist lookups
      (`m1`): it answers the whole script with the same tracks, its artist
      bodies are the ones the loop collected, and it is the starting cache
      with the searches and the lookups filled in. */
  lemma PipelineCache(m0: map<string, Json>, mS: map<string, Json>, m1: map<string, Json>,
                      respond: HttpRequest -> Json, artistList: seq<Json>)
    requires SearchesCached(mS) && WellFormedCache(m1)
    requires FilledFrom(m0, mS, respond, SearchRequestMap)
    requires FilledFrom(mS, m1, respond, LookupMap(ArtistKeys(FullArtistIds(mS))))
    requires |artistList| == |FullArtistIds(mS)|
    requires forall k :: 0 <= k < |artistList| ==>
      ArtistUrl(FullArtistIds(mS)[k]) in m1 && m1[ArtistUrl(FullArtistIds(mS)[k])] == artistList[k]
    ensures Extends(m0, m1) && Covers(m1)
    ensures FullTracks(m1) == FullTracks(mS) && FullArtistIds(m1) == FullArtistIds(mS)
    ensures artistList == ArtistBodies(m1)
    ensures FilledFrom(m0, m1, respond, SearchRequestMap + LookupMap(ArtistKeys(FullArtistIds(m1))))
  {
    ExtendsTransitive(m0, mS, m1);
    FullTracksStable(mS, m1);
    PipelineFills(m0, mS, m1, respond, FullArtistIds(mS));
  }

  /** The top-level script of final_project_main.py up to the INSERTs: the
      four searches, `full_track_list` (folk, indie, punk, emo), one artist
      lookup per track in track order, the artist objects and both row
      lists. Every row is determined by the cache the run leaves behind;
      a run against a cache that already covers it issues no request and
      leaves the file alone; a run against an empty cache issues the four
      searches and then one lookup per distinct artist, in first-seen
      order, since a repeated artist is then a cache hit. */
  method RunPipeline(cache: CacheFile, http: HttpClient) returns (artistRows: seq<seq<Json>>, trackRows: seq<seq<Json>>)
    requires WellFormedCache(cache.Load()) && WellFormedServer(http.respond)
    modifies cache, http
    ensures WellFormedCache(cache.Load()) && Covers(cache.Load())
    ensures Extends(old(cache.Load()), cache.Load())
    ensures FilledFrom(old(cache.Load()), cache.Load(), http.respond,
                       SearchRequestMap + LookupMap(ArtistKeys(FullArtistIds(cache.Load()))))
    ensures OneGetPerNewKey(old(cache.Load()), cache.Load(), old(http.log), http.log)
    ensures trackRows == TrackRows(FullTracks(cache.Load()))
    ensures artistRows == ArtistRows(ArtistsOf(ArtistBodies(cache.Load())))
    ensures |artistRows| == |trackRows|
    ensures |http.log| <= |old(http.log)| + 4 + |trackRows|
    ensures Covers(old(cache.Load())) ==> cache.state == old(cache.state) && http.log == old(http.log)
    ensures old(cache.Load()) == map[] ==>
      http.log == old(http.log) + SearchRequests + LookupRequests(Dedup(FullArtistIds(cache.Load())))
  {
    ghost var m0, log0 := cache.Load(), http.log;
    var folk, emo, indie, punk := SearchAllGenres(cache, http);
    var fullTrackList := folk + indie + punk + emo;
    ghost var mS, logS := cache.Load(), http.log;
    assert fullTrackList == FullTracks(mS);
    FullTracksHaveArtistIds(mS);
    assert Covers(m0) ==> mS == m0;

    var artistList := GetArtistsOfTracks(cache, http, fullTrackList);
    PipelineCache(m0, mS, cache.Load(), http.respond, artistList);
    OneGetPerNewKeyCompose(m0, mS, cache.Load(), log0, logS, http.log);

    var listArtistObjects := CreateArtistObjects(artistList);
    artistRows := TurnArtistObjectsToLists(listArtistObjects);
    trackRows := TurnTrackObjectsToLists(fullTrackList);
  }

  /** Running the script again against the cache the first run left
      behind: over both runs the request log only grows at its end, by one
      GET per cache key added, and the keys added are exactly those one run
      fills in; so the second run adds no key and issues no request, and it
      produces exactly the rows of the first. */
  method RunPipelineTwice(cache: CacheFile, http: HttpClient)
    returns (firstArtistRows: seq<seq<Json>>, firstTrackRows: seq<seq<Json>>,
             secondArtistRows: seq<seq<Json>>, secondTrackRows: seq<seq<Json>>)
    requires WellFormedCache(cache.Load()) && WellFormedServer(http.respond)
    modifies cache, http
    ensures WellFormedCache(cache.Load()) && Covers(cache.Load())
    ensures secondArtistRows == firstArtistRows && secondTrackRows == firstTrackRows
    ensures OneGetPerNewKey(old(cache.Load()), cache.Load(), old(http.log), http.log)
    ensures FilledFrom(old(cache.Load()), cache.Load(), http.respond,
                       SearchRequestMap + LookupMap(ArtistKeys(FullArtistIds(cache.Load()))))
    ensures Covers(old(cache.Load())) ==> cache.state == old(cache.state) && http.log == old(http.log)
    ensures |http.log| <= |old(http.log)| + 4 + |firstTrackRows|
    ensures old(cache.Load()) == map[] ==>
      http.log == old(http.log) + SearchRequests + LookupRequests(Dedup(FullArtistIds(cache.Load())))
  {
    ghost var m0, log0 := cache.Load(), http.log;
    firstArtistRows, firstTrackRows := RunPipeline(cache, http);
    ghost var m1, log1 := cache.Load(), http.log;
    secondArtistRows, secondTrackRows := RunPipeline(cache, http);
    OneGetPerNewKeyCompose(m0, m1, cache.Load(), log0, log1, http.log);
  }
}
