# Music data pipeline and web helpers — a Dafny model

The repository collects tracks and artists from the Spotify Web API and
TheAudioDB, caches every response in one JSON file, shapes them into rows
for an SQLite database, and serves them through a Flask site that sorts
and filters tracks and picks a music video for a selection. This project
models the parts of that code that compute something:

- **Request keys** (`RequestKeys`): `construct_unique_key` renders each
  parameter as `key_value`, sorts the rendered strings, joins them with
  `_` and prefixes `baseurl_`. It also holds the fixed endpoint URLs and
  the `baseurl/id` lookup URLs.
- **Cache-through fetch** (`HttpCache`): the cache file `music_cache.json`
  (`open_cache`, `save_cache`) and the lookup-or-fetch step shared by
  every `make_*_request*` function. The network is an `HttpClient`
  object. Its `respond` function stands for what the servers answer, and
  its `log` records every GET issued.
- **Records** (`Records`): the `Track` and `Artist` objects built from
  Spotify responses, and the rows handed to the `INSERT` statements of
  the `tracks` and `artists` tables.
- **The collection script** (`Pipeline`): the Spotify request functions,
  the four genre searches, the concatenation folk + indie + punk + emo,
  one artist lookup per track, and the rows produced.
- **The web helpers** (`WebApp`, for music_flask_app.py):
  - the four in-place sorts;
  - `filter_artists` and `remove_duplicate_artists`;
  - the TheAudioDB requests and their parsing;
  - the choice of music video in `play_music`.
- **The tempo filter** (`TempoFilter`, for musicflaskapp.py):
  `filter_by_tempo`.

`Strings`, `Sequences` and `Json` hold the value-level building blocks:
- string order, sorting, `join`, `split` and substring search;
- stable sort, reversal, filtering and de-duplication of sequences;
- a JSON value type.

Python lists that a function changes in place are `PyList` objects.
Builtins such as `list.sort` and `list.reverse` are specified by
functions: a stable insertion sort and a reversal. A Python `KeyError` or
`IndexError` on a response body is a precondition. It is stated through
predicates such as `IsTrackItem` and `IsArtistSearchBody`, which describe
the bodies the code can read.

Both scripts use the same cache file, so one `CacheFile` serves the
Spotify and the TheAudioDB requests. `construct_unique_key`, `open_cache`
and `save_cache` appear in final_project_main.py and again in
music_flask_app.py with the same text. Each is modelled once, and the
table cites the copy in final_project_main.py.

## Model

| member | source | states |
|---|---|---|
| RequestKeys.ConstructUniqueKey | final_project_main.py:150-172 | the loop builds exactly `baseurl + "_" + "_".join(sorted(rendered))` (`UniqueKey`); music_flask_app.py:262-284 is the same function |
| RequestKeys.RenderAllPermutation | final_project_main.py:168-170 | parameter lists that are permutations of each other render to the same multiset of strings |
| RequestKeys.KeyIgnoresParamOrder | final_project_main.py:166-171 | the key does not depend on the order of the parameters, because the rendered strings are sorted before joining |
| RequestKeys.DictKeyIgnoresInsertionOrder | final_project_main.py:166-171 | two dictionaries with the same entries, inserted in different orders, give the same key |
| RequestKeys.EmptyParamsKey | final_project_main.py:171 | no parameters give `baseurl + "_"` |
| RequestKeys.SingleParamKey | music_flask_app.py:301-302 | a one-parameter key is `baseurl_name_value`, and different values give different keys |
| RequestKeys.KeysCanCollide | final_project_main.py:166-171 | the key is not injective: `{"a": "b_c"}` and `{"a_b": "c"}` give the same key |
| RequestKeys.SpotifyKeysDisjoint | final_project_main.py:206 | search keys, artist URLs and audio-feature URLs never coincide, so the three request kinds cannot read each other's cache entries |
| RequestKeys.TadbKeysDisjoint | music_flask_app.py:301-326 | TheAudioDB artist-search and music-video keys differ from each other and from every Spotify key in the shared cache file |
| RequestKeys.LookupUrlsInjective | final_project_main.py:258 | `baseurl/id` determines `id`, for artists and for audio features |
| HttpCache.CacheFile.OpenCache | final_project_main.py:111-131 | the stored mapping when the file exists and parses as a JSON object, the empty mapping when it is missing or does not parse; opening never raises |
| HttpCache.CacheFile.SaveCache | final_project_main.py:133-148 | the file afterwards holds exactly the given mapping |
| HttpCache.RequestWithCache | final_project_main.py:187-201 | hit: returns the stored response, issues no GET, leaves the file unchanged. Miss: issues exactly one GET, returns its response, and the file becomes the old mapping plus exactly `key -> response` |
| HttpCache.RepeatedRequestHits | final_project_main.py:193-201 | a second identical request is a hit with the same response. In total: no GET and no change to the file when the key was cached; otherwise exactly one GET, from the first call, whose answer is stored under the key and returned by both calls |
| HttpCache.FetchedFills | final_project_main.py:193-201 | a fetch fills in only its own key: a cached key keeps its response, a missing one then holds the server's answer to that request, and no other key appears |
| HttpCache.FetchedCount | final_project_main.py:193-201 | a fetch issues a GET exactly when it adds its key: the old log is kept and grows by one request per cache key added |
| HttpCache.StoredCount | music_flask_app.py:301-334 | a single-key store that issued its request only when the key was missing issued one GET per cache key added |
| HttpCache.OneGetPerNewKeyCompose | final_project_main.py:379-404 | one GET per new key over two consecutive stretches is one GET per new key over both |
| HttpCache.OneGetPerNewKeyMeans | final_project_main.py:193-201 | under one GET per new key, the new log is the old log followed by exactly as many requests as there are new cache keys |
| Pipeline.MakeSpotifyRequestWithCache | final_project_main.py:174-201 | the cache-through fetch with key `UniqueKey(baseurl, params)` and an authorized GET of `baseurl` with `params` |
| Pipeline.MakeSpotifyLookupWithCache | final_project_main.py:203-229 | the cache-through fetch whose key is the URL itself and whose GET has no parameters |
| Pipeline.GetSpotifyArtists | final_project_main.py:255-260 | looks up `https://api.spotify.com/v1/artists/<id>`, cached under that URL |
| Pipeline.GetTrackAudioFeatures | final_project_main.py:315-320 | looks up `https://api.spotify.com/v1/audio-features/<track id>`, cached under that URL |
| Pipeline.GetGenreTracks | final_project_main.py:231-253 | each genre search is the cache-through fetch of `SearchKey(genre)` with `q=genre:<genre>`, `type=track`, `limit=50` |
| Pipeline.SearchKeyIsUniqueKey | final_project_main.py:232-234 | the search key is `.../v1/search_limit_50_q_genre:<genre>_type_track` (the sorted order of the three rendered parameters) |
| Pipeline.SearchKeyInjective | final_project_main.py:232-234 | different genres give different search keys |
| Pipeline.SearchKeyNotArtistUrl | final_project_main.py:232-258 | no search key equals an artist URL |
| Pipeline.FetchSearchKeepsWellFormed | final_project_main.py:187-201 | a genre search keeps every cached body readable by the mappers, and the body returned is a readable search response |
| Pipeline.FetchArtistKeepsWellFormed | final_project_main.py:217-229 | an artist lookup keeps every cached body readable, and the body returned is a readable artist response |
| Pipeline.FullTracksStable | final_project_main.py:379-393 | once the four searches are cached, adding entries does not change the concatenated track list |
| Pipeline.FourSearches | final_project_main.py:379-391 | after the four searches, all four bodies are cached and at most four GETs were issued. From a full cache, nothing changes. From an empty cache, exactly the four searches were issued, in order folk, emo, indie, punk |
| Pipeline.SearchesFill | final_project_main.py:379-391 | after the four searches, the cache has exactly the old keys plus the four search keys; a search that was cached keeps its body, and one that was missing holds the server's answer to that search |
| Pipeline.SearchAllGenres | final_project_main.py:379-391 | returns `create_track_objects` of each cached search body. The new cache is the old one with exactly the four search keys filled in from the server, with the GET bounds of `FourSearches`; the old request log is kept and grows by one GET per key added |
| Pipeline.FreshArtistStep | final_project_main.py:400-404 | from an empty cache, after the lookups for the first i tracks, exactly one GET has been issued for each distinct artist id among them, in first-seen order |
| Pipeline.GetArtistsOfTracks | final_project_main.py:400-404 | one artist body per track, in track order, each the cached body for that track's artist id. The new cache is the old one with exactly the tracks' artist URLs added, each missing one holding the server's answer to its lookup. At most one GET per track; none when every id is cached; from an empty cache, one per distinct id. The old request log is kept and grows by exactly one GET per key added |
| Pipeline.PipelineCache | final_project_main.py:379-404 | after the searches and the artist lookups, the cache answers the whole script with the same tracks, its artist bodies are the ones collected, and it is the starting cache with exactly the search keys and the artist URLs filled in from the server |
| Pipeline.RunPipeline | final_project_main.py:379-420 | the track rows are the rows of folk + indie + punk + emo. The artist rows are those of the artist looked up for each track, one per track, so both lists have the same length. The final cache is the starting one plus exactly the four search keys and the artist URLs of the tracks, each new entry holding the server's answer to its request. The old request log is kept and grows by exactly one GET per key added. A run against a complete cache issues no GET and leaves the file unchanged |
| Pipeline.RunPipelineTwice | final_project_main.py:379-420 | running the script twice gives the same rows. Over both runs the request log only grows at its end, by exactly one GET per cache key added, and the keys added are exactly those one run fills in (the four searches and the tracks' artist URLs). So the second run adds no key and issues no GET |
| Records.Items | final_project_main.py:264 | every element of `tracks.items` is a track item the mapper can read |
| Records.CreateTrackObjects | final_project_main.py:262-276 | one `Track` per search item, in order. Name, album, popularity, preview (a null preview kept as null), URL and id come from the item; artist name and id come from `artists[0]`; genre stays "Unknown" |
| Records.CreateArtistObjects | final_project_main.py:278-286 | one `Artist` per response, in order, with `genre` the raw `genres` value and `TADB_artist_id` "Unknown" |
| Records.CellAt | final_project_main.py:330-356 | a row's cell for a column is the value at that column's position |
| Records.TrackRowFillsTable | final_project_main.py:300-313 | a track row has the 8 columns of `tracks`: name, artist, album, preview, URL, "?" for genre, artist id, track id |
| Records.ArtistRowFillsTable | final_project_main.py:288-298 | an artist row is `[name, "?", id, "?"]` against the 4 columns of `artists` |
| Records.TrackRowKeeps | final_project_main.py:300-313 | two tracks give the same row exactly when the seven stored fields agree |
| Records.ArtistRowKeeps | final_project_main.py:288-298 | two artists give the same row exactly when their name and id agree |
| Records.TurnTrackObjectsToLists | final_project_main.py:300-313 | one row per track, in order, each the track's row |
| Records.TurnArtistObjectsToLists | final_project_main.py:288-298 | one row per artist, in order, each the artist's row |
| WebApp.PyList.Sort | music_flask_app.py:109 | `list.sort(key=...)`: the list becomes the stable ascending sort of its contents |
| WebApp.PyList.Reverse | music_flask_app.py:110 | `list.reverse()`: the list becomes its reverse |
| WebApp.PyList.Delete | music_flask_app.py:218 | `del list[j]`: element j is removed, the rest keep their order |
| WebApp.SortByDanceability | music_flask_app.py:95-110 | the list becomes a permutation of itself, sorted by danceability from high to low, with equal keys in reverse input order |
| WebApp.SortBySlowest | music_flask_app.py:112-127 | the list becomes a permutation of itself sorted by tempo from low to high, equal keys keeping their input order, and it is returned |
| WebApp.SortByPopularity | music_flask_app.py:129-144 | the list becomes a permutation of itself, sorted by popularity from high to low, with equal keys in reverse input order |
| WebApp.SortByObscurity | music_flask_app.py:146-161 | the list becomes a permutation of itself sorted by popularity from low to high, equal keys keeping their input order, and it is returned |
| WebApp.FilterArtists | music_flask_app.py:180-197 | same length as the input; element i is the artist field of track i |
| WebApp.DeleteCopyStep | music_flask_app.py:217-218 | deleting a later copy of an element does not change the de-duplicated list |
| WebApp.ScanAdvance | music_flask_app.py:213-221 | when the inner scan for position i ends, the prefix through i has no duplicates and none of its values occurs later |
| WebApp.RemoveDuplicateArtists | music_flask_app.py:199-221 | the list becomes its de-duplication: the first occurrence of each value, in order, with no two elements equal and no value lost |
| WebApp.MakeArtistRequest | music_flask_app.py:286-310 | the cache-through fetch of `search.php?s=<artist>`, without the Spotify token |
| WebApp.MakeMusicVideoRequest | music_flask_app.py:312-335 | the cache-through fetch of `mvid.php?i=<artist id>`, without the Spotify token |
| WebApp.ArtistKeyNotVideoKey | music_flask_app.py:301-326 | an artist-search key never equals a music-video key |
| WebApp.ArtistIdsOf | music_flask_app.py:351-358 | at most one id, and none exactly when `artists` is null |
| WebApp.GetArtistTadbId | music_flask_app.py:337-358 | returns `[artists[0]["idArtist"]]` of the cached body, or `[]` when `artists` is null. Only the artist-search entry of the cache may change: a missing entry is filled with the server's answer to that search, with one GET; a cached one issues none |
| WebApp.GetMusicVideos | music_flask_app.py:360-384 | one `MusicVideo` per `mvids` entry, in order, each carrying the given artist id; `[]` when `mvids` is null. Only the music-video entry of the cache may change: a missing entry is filled with the server's answer to that request, with one GET; a cached one issues none |
| WebApp.FirstMatchUrl | music_flask_app.py:421-426 | the URL of the first video whose title occurs in the track name, or 'None' when no title does |
| WebApp.FirstMatchingVideo | music_flask_app.py:419-426 | the loop with `break` yields exactly `FirstMatchUrl` |
| WebApp.StoreArtistKeepsPlayable | music_flask_app.py:304-310 | caching a usable artist-search body keeps every cached TheAudioDB body usable |
| WebApp.StoreVideoKeepsPlayable | music_flask_app.py:327-335 | caching a usable music-video body keeps every cached TheAudioDB body usable |
| WebApp.PlayMusic | music_flask_app.py:413-427 | track and artist are parts 0 and 1 of `selection.split("+")`. The URL is 'None' when the artist has no TheAudioDB id, else the first match among that artist's videos. The cache gains at most the artist-search key and the video key of the artist's id, each missing one holding the server's answer; the old request log is kept and grows by one GET per key added, so at most two GETs |
| WebApp.PlayFills | music_flask_app.py:421-423 | the artist search and then the video request for the artist's first id fill in exactly those two keys |
| WebApp.PlayAfterVideos | music_flask_app.py:420-427 | after both lookups, the cache holds the artist-search key and a video key for every id it lists, the URL shown is the first match among the first id's videos, and the two lookups together issue one GET per key added |
| TempoFilter.FilterByTempo | musicflaskapp.py:41-56 | the loops return exactly `TempoFiltered`: the rows with tempo >= 150 for 'fast', the rows with tempo <= 100 for 'slow', and the input for anything else |
| TempoFilter.TempoFilteredSpec | musicflaskapp.py:41-56 | the result is a subsequence of the input, no longer than it. 'fast' keeps every row with tempo >= 150 as often as it occurs and no other row; 'slow' likewise with tempo <= 100; any other choice returns the input unchanged |
| TempoFilter.MiddleTempoOnlyUnfiltered | musicflaskapp.py:45-56 | a row with tempo strictly between 100 and 150 is in the result only when neither 'fast' nor 'slow' was chosen |
| Strings.SortStringsPermutationInvariant | final_project_main.py:170 | `sort()` of strings gives the same list for any two orderings of the same strings |
| Strings.SortStringsSorted | final_project_main.py:170 | the sorted strings are in lexicographic order |
| Strings.JoinSplit | music_flask_app.py:415 | joining the pieces of `split("+")` with "+" gives back the selection |
| Strings.SplitCount | music_flask_app.py:415-417 | `split("+")` gives one piece more than there are '+' characters, so parts 0 and 1 exist exactly when the selection has a '+' |
| Sequences.SortBySpec | music_flask_app.py:126 | the stable sort is a permutation, ascending by key, and keeps the input order among equal keys |
| Sequences.SortThenReverseSpec | music_flask_app.py:109-110 | sorting and then reversing gives a permutation, descending by key, with equal keys in reverse input order |
| Sequences.ReverseSpec | music_flask_app.py:110 | the reversal has the same elements, element i from position n-1-i |
| Sequences.DedupSpec | music_flask_app.py:199-221 | the de-duplicated list has no two equal elements, the same values as the input, and is a subsequence of it |
| Sequences.DedupDeleteLater | music_flask_app.py:217-218 | removing an element that already occurs earlier leaves the de-duplication unchanged |
| Sequences.KeepSubsequence | musicflaskapp.py:45-54 | a filter's result is a subsequence of its input, no longer than it |
| Sequences.KeepCount | musicflaskapp.py:45-54 | an element is in a filter's result as often as in the input when it passes the test, and not at all otherwise |

## Left out

- Obtaining the Spotify access token (`requests.post` with the client secrets) and the headers built from it are not modelled. A request carries only a flag saying whether the token goes with it.
- What the servers answer is not modelled. `HttpClient.respond` is an arbitrary fixed function of the request. Timeouts, HTTP errors and bodies that change between calls are outside the model.
- JSON text is not modelled. The cache file is absent, unparsable or a parsed mapping, and `json.dumps` always succeeds.
- The SQLite work is not modelled: creating and dropping tables, the `INSERT` loops and commits, and the queries `get_tracks_by_genre` and `get_spotify_player_url`. The model stops at the rows handed to the `INSERT` statements. The rows the web helpers receive are taken as given.
- The Flask application is not modelled: routes, `render_template`, the `%` wrapping of the genre, the `tracks[0:11]` slice, and the choice of sort in `handle_the_form`.
- WebApp.PlayMusic: a selection without a `+` makes `track_artist_list[1]` (music_flask_app.py:417) raise `IndexError`. The model requires at least two parts and does not model that error.
- HttpCache.CacheFile.OpenCache: a cache file holding valid JSON that is not an object (`[]`, `null`, `5`) is returned by `open_cache` as is, and the following `CACHE_DICT.keys()` (final_project_main.py:193, 207, 221; music_flask_app.py:304, 329) raises `AttributeError`. The model's file states are missing, unparsable or a parsed mapping, so that failure is not modelled.
- WebApp.PlayMusic: the Spotify player URL is read from SQLite before TheAudioDB is asked, and an empty query result raises `IndexError`. That lookup is not modelled.
- `sort_random` shuffles with the `random` module and is not modelled.
- `define_tempo` assigns a local variable and has no effect, so it is not modelled.
- The `print` calls and the `info()` display strings are not modelled.
- RequestKeys.RenderValue: only string and integer parameter values are rendered, which are the only kinds the code passes. Python's `str()` of other values is not modelled.
- WebApp.PlayMusic: requires every cached or fetched TheAudioDB `idArtist` to be a string, because it becomes a request parameter. It also requires every `strTrack` to be a string, because it is searched for in the track name. Other JSON values would make Python render or compare them differently.
- Pipeline.GetTrackAudioFeatures: requires the track id to be a string, because it is concatenated onto the URL.
- Records.CreateTrackObjects, Records.CreateArtistObjects, WebApp.GetArtistTadbId, WebApp.GetMusicVideos: a body without the fields they read would raise `KeyError` or `IndexError` in Python. Here such bodies are excluded by precondition rather than modelled as errors.
- Pipeline.RunPipeline: requires the server to answer every request the script makes with a body it can read, and the cache to hold only such bodies.
- WebApp.PyList.Sort: `list.sort` is specified by its result (a stable sort), not by Python's Timsort algorithm.
- TempoFilter.FilterByTempo: for an unrecognised choice Python returns the caller's list object itself. The model returns an equal value, so aliasing of that list is not captured.
- Tempo, danceability and acousticness are reals. The code only compares them, and NaN is not modelled.
- The web queries read `tracks.ArtistName`, `artists.ImageUrl` and other columns that the `CREATE TABLE` statements shown do not define. The model takes the query rows as given and does not check them against the schema.
- There is no genre classification and no de-duplication of tracks or artists in the collection script, and the model adds none.
