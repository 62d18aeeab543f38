/** The domain records of final_project_main.py (`Track`, `Artist`), the
    mappers that build them from Spotify response bodies
    (`create_track_objects`, `create_artist_objects`) and the serialisers
    that flatten them into the rows bound to the INSERT statements
    (`turn_track_objects_to_lists`, `turn_artist_objects_to_lists`).
    Attribute values are whatever the JSON held: Python stores them
    without checking their type. */
module Records {
  import opened Json

  /** A `Track` object. `genre` is never passed by `create_track_objects`,
      so it keeps the constructor's default "Unknown". */
  datatype Track = Track(
    genre: Json,
    trackName: Json,
    spotifyTrackId: Json,
    trackPopularity: Json,
    artistName: Json,
    albumName: Json,
    spotifyUrl: Json,
    preview: Json,
    spotifyArtistId: Json)

  /** An `Artist` object: `genre` holds the raw `genres` list. */
  datatype Artist = Artist(
    genre: Json,
    artistName: Json,
    spotifyArtistId: Json,
    tadbArtistId: Json)

  // ---------------------------------------------------------------------
  // Response shapes: every subscript the mappers perform succeeds.

  /** A search-result item has every field `create_track_objects` reads,
      including a first listed artist with a name and an id. */
  ghost predicate IsTrackItem(item: Json)
  {
    && Has(item, "name")
    && HasPath(item, "album", "name")
    && Has(item, "popularity")
    && Has(item, "preview_url")
    && HasPath(item, "external_urls", "spotify")
    && Has(item, "artists")
    && HasIndex(Get(item, "artists"), 0)
    && Has(At(Get(item, "artists"), 0), "name")
    && Has(At(Get(item, "artists"), 0), "id")
    && Has(item, "id")
  }

  /** `spotify_track_results['tracks']['items']` is a list of such items. */
  ghost predicate IsSearchResponse(results: Json)
  {
    && HasPath(results, "tracks", "items")
    && Get(Get(results, "tracks"), "items").JArr?
    && forall item :: item in Get(Get(results, "tracks"), "items").elems ==> IsTrackItem(item)
  }

  function Items(results: Json): (items: seq<Json>)
    requires IsSearchResponse(results)
    ensures forall i :: 0 <= i < |items| ==> IsTrackItem(items[i])
  {
    Get(Get(results, "tracks"), "items").elems
  }

  /** An artist body has the three fields `create_artist_objects` reads. */
  ghost predicate IsArtistResponse(results: Json)
  {
    Has(results, "id") && Has(results, "name") && Has(results, "genres")
  }

  // ---------------------------------------------------------------------
  // Mappers.

  /** The `Track` built from one search-result item: name, album name,
      popularity, the raw `preview_url` (a JSON null stays null; the
      constructor's "Not available" default is not applied because the
      argument is always passed), the Spotify URL, the name and id of the
      FIRST listed artist, and the item's id. */
  function TrackOf(item: Json): Track
    requires IsTrackItem(item)
  {
    var firstArtist := At(Get(item, "artists"), 0);
    Track(
      genre := JStr("Unknown"),
      trackName := Get(item, "name"),
      spotifyTrackId := Get(item, "id"),
      trackPopularity := Get(item, "popularity"),
      artistName := Get(firstArtist, "name"),
      albumName := Get(Get(item, "album"), "name"),
      spotifyUrl := Get(Get(item, "external_urls"), "spotify"),
      preview := Get(item, "preview_url"),
      spotifyArtistId := Get(firstArtist, "id"))
  }

  /** The tracks of a search response, one per item, in item order. */
  ghost function TracksOf(results: Json): seq<Track>
    requires IsSearchResponse(results)
  {
    seq(|Items(results)|, i requires 0 <= i < |Items(results)| => TrackOf(Items(results)[i]))
  }

  /** `create_track_objects(spotify_track_results)`. */
  method CreateTrackObjects(spotifyTrackResults: Json) returns (tracks: seq<Track>)
    requires IsSearchResponse(spotifyTrackResults)
    ensures |tracks| == |Items(spotifyTrackResults)|
    ensures forall i :: 0 <= i < |tracks| ==> tracks[i] == TrackOf(Items(spotifyTrackResults)[i])
    ensures tracks == TracksOf(spotifyTrackResults)
  {
    tracks := [];
    var resultsList := Get(Get(spotifyTrackResults, "tracks"), "items").elems;
    var i := 0;
    while i < |resultsList|
      invariant 0 <= i <= |resultsList|
      invariant |tracks| == i
      invariant forall k :: 0 <= k < |resultsList| ==> IsTrackItem(resultsList[k])
      invariant forall k :: 0 <= k < i ==> tracks[k] == TrackOf(resultsList[k])
    {
      var item := resultsList[i];
      var firstArtist := At(Get(item, "artists"), 0);
      var trackObject := Track(
        genre := JStr("Unknown"),
        trackName := Get(item, "name"),
        spotifyTrackId := Get(item, "id"),
        trackPopularity := Get(item, "popularity"),
        artistName := Get(firstArtist, "name"),
        albumName := Get(Get(item, "album"), "name"),
        spotifyUrl := Get(Get(item, "external_urls"), "spotify"),
        preview := Get(item, "preview_url"),
        spotifyArtistId := Get(firstArtist, "id"));
      tracks := tracks + [trackObject];
      i := i + 1;
    }
  }

  /** The `Artist` built from one artist body: its raw `genres` list as the
      genre, its name and id, and "Unknown" as the TheAudioDB id. */
  function ArtistOf(results: Json): Artist
    requires IsArtistResponse(results)
  {
    Artist(
      genre := Get(results, "genres"),
      artistName := Get(results, "name"),
      spotifyArtistId := Get(results, "id"),
      tadbArtistId := JStr("Unknown"))
  }

  /** The artists of a list of artist bodies, one per body, in order. */
  ghost function ArtistsOf(results: seq<Json>): seq<Artist>
    requires forall i :: 0 <= i < |results| ==> IsArtistResponse(results[i])
  {
    seq(|results|, i requires 0 <= i < |results| => ArtistOf(results[i]))
  }

  /** `create_artist_objects(spotify_artist_results)`. */
  method CreateArtistObjects(spotifyArtistResults: seq<Json>) returns (artists: seq<Artist>)
    requires forall i :: 0 <= i < |spotifyArtistResults| ==> IsArtistResponse(spotifyArtistResults[i])
    ensures |artists| == |spotifyArtistResults|
    ensures forall i :: 0 <= i < |artists| ==> artists[i] == ArtistOf(spotifyArtistResults[i])
    ensures artists == ArtistsOf(spotifyArtistResults)
  {
    artists := [];
    var i := 0;
    while i < |spotifyArtistResults|
      invariant 0 <= i <= |spotifyArtistResults|
      invariant |artists| == i
      invariant forall k :: 0 <= k < i ==> artists[k] == ArtistOf(spotifyArtistResults[k])
    {
      var result := spotifyArtistResults[i];
      var artistObject := Artist(
        genre := Get(result, "genres"),
        artistName := Get(result, "name"),
        spotifyArtistId := Get(result, "id"),
        tadbArtistId := JStr("Unknown"));
      artists := artists + [artistObject];
      i := i + 1;
    }
  }

  // ---------------------------------------------------------------------
  // Rows for the INSERT statements.

  /** The columns the tracks INSERT fills, in table order after the
      auto-increment `Id` (bound to NULL). */
  const TrackColumns: seq<string> := ["TrackName", "AristName", "AlbumName", "SpotifyPreview",
    "SpotifyURL", "Genre", "SpotifyArtistId", "SpotifyTrackId"]

  /** The columns the artists INSERT fills, in table order after `Id`. */
  const ArtistColumns: seq<string> := ["AristName", "Genre", "SpotifyArtistId", "TadbArtistId"]

  /** The value a row binds to the named column of a table. */
  function Cell(row: seq<Json>, columns: seq<string>, name: string): Json
    requires |row| == |columns|
  {
    if |row| == 0 then JNull
    else if columns[0] == name then row[0]
    else Cell(row[1..], columns[1..], name)
  }

  const Placeholder := JStr("?")

  /** One row of `turn_track_objects_to_lists`. */
  function TrackRowOf(t: Track): seq<Json>
  {
    [t.trackName, t.artistName, t.albumName, t.preview, t.spotifyUrl, Placeholder,
     t.spotifyArtistId, t.spotifyTrackId]
  }

  /** One row of `turn_artist_objects_to_lists`. */
  function ArtistRowOf(a: Artist): seq<Json>
  {
    [a.artistName, Placeholder, a.spotifyArtistId, Placeholder]
  }

  /** The cell of a column whose name appears at index `k` and nowhere
      before it is the row's `k`-th value. */
  lemma {:induction false} CellAt(row: seq<Json>, columns: seq<string>, k: nat)
    requires |row| == |columns| && k < |columns|
    requires columns[k] !in columns[..k]
    ensures Cell(row, columns, columns[k]) == row[k]
  {
    if k > 0 {
      assert columns[0] in columns[..k];
      assert columns[1..][k - 1] == columns[k];
      assert columns[1..][..k - 1] == columns[1..k];
      CellAt(row[1..], columns[1..], k - 1);
    }
  }

  /** A track row has one value per column of the tracks table and puts
      each attribute in the column of the same name; the `Genre` column
      gets the "?" placeholder. */
  lemma TrackRowFillsTable(t: Track)
    ensures |TrackRowOf(t)| == |TrackColumns| == 8
    ensures Cell(TrackRowOf(t), TrackColumns, "TrackName") == t.trackName
    ensures Cell(TrackRowOf(t), TrackColumns, "AristName") == t.artistName
    ensures Cell(TrackRowOf(t), TrackColumns, "AlbumName") == t.albumName
    ensures Cell(TrackRowOf(t), TrackColumns, "SpotifyPreview") == t.preview
    ensures Cell(TrackRowOf(t), TrackColumns, "SpotifyURL") == t.spotifyUrl
    ensures Cell(TrackRowOf(t), TrackColumns, "Genre") == Placeholder
    ensures Cell(TrackRowOf(t), TrackColumns, "SpotifyArtistId") == t.spotifyArtistId
    ensures Cell(TrackRowOf(t), TrackColumns, "SpotifyTrackId") == t.spotifyTrackId
  {
    var row, cols := TrackRowOf(t), TrackColumns;
    CellAt(row, cols, 0);
    CellAt(row, cols, 1);
    CellAt(row, cols, 2);
    CellAt(row, cols, 3);
    CellAt(row, cols, 4);
    CellAt(row, cols, 5);
    CellAt(row, cols, 6);
    CellAt(row, cols, 7);
  }

  /** An artist row has one value per column of the artists table: name and
      Spotify id in their columns, "?" for both `Genre` and `TadbArtistId`. */
  lemma ArtistRowFillsTable(a: Artist)
    ensures |ArtistRowOf(a)| == |ArtistColumns| == 4
    ensures Cell(ArtistRowOf(a), ArtistColumns, "AristName") == a.artistName
    ensures Cell(ArtistRowOf(a), ArtistColumns, "Genre") == Placeholder
    ensures Cell(ArtistRowOf(a), ArtistColumns, "SpotifyArtistId") == a.spotifyArtistId
    ensures Cell(ArtistRowOf(a), ArtistColumns, "TadbArtistId") == Placeholder
  {
    var row, cols := ArtistRowOf(a), ArtistColumns;
    CellAt(row, cols, 0);
    CellAt(row, cols, 1);
    CellAt(row, cols, 2);
    CellAt(row, cols, 3);
  }

  /** What a track row keeps: two tracks give the same row exactly when
      they agree on the seven stored attributes; genre and popularity are
      not stored. */
  lemma TrackRowKeeps(t1: Track, t2: Track)
    ensures TrackRowOf(t1) == TrackRowOf(t2) <==>
      && t1.trackName == t2.trackName && t1.artistName == t2.artistName
      && t1.albumName == t2.albumName && t1.preview == t2.preview
      && t1.spotifyUrl == t2.spotifyUrl && t1.spotifyArtistId == t2.spotifyArtistId
      && t1.spotifyTrackId == t2.spotifyTrackId
  {
    if TrackRowOf(t1) == TrackRowOf(t2) {
      assert TrackRowOf(t1)[0] == TrackRowOf(t2)[0] && TrackRowOf(t1)[1] == TrackRowOf(t2)[1];
      assert TrackRowOf(t1)[2] == TrackRowOf(t2)[2] && TrackRowOf(t1)[3] == TrackRowOf(t2)[3];
      assert TrackRowOf(t1)[4] == TrackRowOf(t2)[4] && TrackRowOf(t1)[6] == TrackRowOf(t2)[6];
      assert TrackRowOf(t1)[7] == TrackRowOf(t2)[7];
    }
  }

  /** What an artist row keeps: name and Spotify id only; the genre list
      and the TheAudioDB id are replaced by placeholders. */
  lemma ArtistRowKeeps(a1: Artist, a2: Artist)
    ensures ArtistRowOf(a1) == ArtistRowOf(a2) <==>
      a1.artistName == a2.artistName && a1.spotifyArtistId == a2.spotifyArtistId
  {
    if ArtistRowOf(a1) == ArtistRowOf(a2) {
      assert ArtistRowOf(a1)[0] == ArtistRowOf(a2)[0] && ArtistRowOf(a1)[2] == ArtistRowOf(a2)[2];
    }
  }

  ghost function TrackRows(tracks: seq<Track>): seq<seq<Json>>
  {
    seq(|tracks|, i requires 0 <= i < |tracks| => TrackRowOf(tracks[i]))
  }

  ghost function ArtistRows(artists: seq<Artist>): seq<seq<Json>>
  {
    seq(|artists|, i requires 0 <= i < |artists| => ArtistRowOf(artists[i]))
  }

  /** `turn_track_objects_to_lists(list_track_objects)`: one 8-value row per
      track, in track order. */
  method TurnTrackObjectsToLists(listTrackObjects: seq<Track>) returns (rows: seq<seq<Json>>)
    ensures |rows| == |listTrackObjects|
    ensures forall i :: 0 <= i < |rows| ==> |rows[i]| == |TrackColumns| && rows[i] == TrackRowOf(listTrackObjects[i])
    ensures rows == TrackRows(listTrackObjects)
  {
    rows := [];
    var i := 0;
    while i < |listTrackObjects|
      invariant 0 <= i <= |listTrackObjects|
      invariant |rows| == i
      invariant forall k :: 0 <= k < i ==> rows[k] == TrackRowOf(listTrackObjects[k])
    {
      var track := listTrackObjects[i];
      var singleTrackList: seq<Json> := [];
      singleTrackList := singleTrackList + [track.trackName];
      singleTrackList := singleTrackList + [track.artistName];
      singleTrackList := singleTrackList + [track.albumName];
      singleTrackList := singleTrackList + [track.preview];
      singleTrackList := singleTrackList + [track.spotifyUrl];
      singleTrackList := singleTrackList + [Placeholder];
      singleTrackList := singleTrackList + [track.spotifyArtistId];
      singleTrackList := singleTrackList + [track.spotifyTrackId];
      rows := rows + [singleTrackList];
      i := i + 1;
    }
  }

  /** `turn_artist_objects_to_lists(list_artist_objects)`: one 4-value row
      per artist, in artist order. */
  method TurnArtistObjectsToLists(listArtistObjects: seq<Artist>) returns (rows: seq<seq<Json>>)
    ensures |rows| == |listArtistObjects|
    ensures forall i :: 0 <= i < |rows| ==> |rows[i]| == |ArtistColumns| && rows[i] == ArtistRowOf(listArtistObjects[i])
    ensures rows == ArtistRows(listArtistObjects)
  {
    rows := [];
    var i := 0;
    while i < |listArtistObjects|
      invariant 0 <= i <= |listArtistObjects|
      invariant |rows| == i
      invariant forall k :: 0 <= k < i ==> rows[k] == ArtistRowOf(listArtistObjects[k])
    {
      var artist := listArtistObjects[i];
      var singleArtistList: seq<Json> := [];
      singleArtistList := singleArtistList + [artist.artistName];
      singleArtistList := singleArtistList + [Placeholder];
      singleArtistList := singleArtistList + [artist.spotifyArtistId];
      singleArtistList := singleArtistList + [Placeholder];
      rows := rows + [singleArtistList];
      i := i + 1;
    }
  }
}
