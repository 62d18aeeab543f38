/** Cache keys for outbound requests (`construct_unique_key`, which both
    final_project_main.py and music_flask_app.py define identically) and the
    URLs of the single-resource lookups, which serve as their own keys. */
module RequestKeys {
  import opened Strings
  import opened Sequences

  /** A query-parameter value: the program passes strings and integers. */
  datatype ParamValue = PStr(s: string) | PInt(i: int)

  /** A Python `dict` of query parameters, in insertion order. */
  type Params = seq<(string, ParamValue)>

  /** No parameter name occurs twice, as in any Python `dict`. */
  ghost predicate IsDict(params: Params)
  {
    forall i, j :: 0 <= i < j < |params| ==> params[i].0 != params[j].0
  }

  const Connector := "_"

  /** `f"{value}"`. */
  function RenderValue(v: ParamValue): string
  {
    match v
    case PStr(s) => s
    case PInt(n) => IntToString(n)
  }

  /** `f"{key}_{params[key]}"`. */
  function RenderParam(kv: (string, ParamValue)): string
  {
    kv.0 + Connector + RenderValue(kv.1)
  }

  /** The rendered parameters in the order the dictionary yields them. */
  function RenderAll(params: Params): (r: seq<string>)
    ensures |r| == |params|
    ensures forall i :: 0 <= i < |params| ==> r[i] == RenderParam(params[i])
  {
    seq(|params|, i requires 0 <= i < |params| => RenderParam(params[i]))
  }

  /** The key `construct_unique_key` builds: the base URL, the connector,
      and the rendered parameters sorted and joined by the connector. */
  function UniqueKey(baseurl: string, params: Params): string
  {
    baseurl + Connector + Join(Connector, SortStrings(RenderAll(params)))
  }

  /** `construct_unique_key(baseurl, params)`: render each parameter in the
      dictionary's order, sort the strings, join them. */
  method ConstructUniqueKey(baseurl: string, params: Params) returns (key: string)
    ensures key == UniqueKey(baseurl, params)
  {
    var paramStrings: seq<string> := [];
    var i := 0;
    while i < |params|
      invariant 0 <= i <= |params|
      invariant paramStrings == RenderAll(params[..i])
    {
      paramStrings := paramStrings + [RenderParam(params[i])];
      i := i + 1;
    }
    assert params[..i] == params;
    paramStrings := SortStrings(paramStrings);
    key := baseurl + Connector + Join(Connector, paramStrings);
  }

  lemma RenderAllConcat(a: Params, b: Params)
    ensures RenderAll(a + b) == RenderAll(a) + RenderAll(b)
  {
  }

  /** Rearranging the parameters rearranges their renderings the same way. */
  lemma {:induction false} RenderAllPermutation(p1: Params, p2: Params)
    requires multiset(p1) == multiset(p2)
    ensures multiset(RenderAll(p1)) == multiset(RenderAll(p2))
    decreases |p1|
  {
    if |p1| == 0 {
      assert |p2| == |multiset(p2)| == 0;
    } else {
      var x := p1[0];
      assert x in multiset(p2);
      var k :| 0 <= k < |p2| && p2[k] == x;
      var rest1 := p1[1..];
      var rest2 := p2[..k] + p2[k + 1..];
      assert p1 == [x] + rest1;
      assert p2 == p2[..k] + [x] + p2[k + 1..];
      assert multiset(rest1) == multiset(p1) - multiset{x};
      assert multiset(rest2) == multiset(p2) - multiset{x};
      RenderAllPermutation(rest1, rest2);
      RenderAllConcat([x], rest1);
      RenderAllConcat(p2[..k] + [x], p2[k + 1..]);
      RenderAllConcat(p2[..k], [x]);
      RenderAllConcat(p2[..k], p2[k + 1..]);
    }
  }

  /** The key does not depend on the order the parameters were supplied in:
      the rendered strings are sorted before they are joined. */
  lemma KeyIgnoresParamOrder(baseurl: string, p1: Params, p2: Params)
    requires multiset(p1) == multiset(p2)
    ensures UniqueKey(baseurl, p1) == UniqueKey(baseurl, p2)
  {
    RenderAllPermutation(p1, p2);
    SortStringsPermutationInvariant(RenderAll(p1), RenderAll(p2));
  }

  /** Two dictionaries with the same name/value pairs, built in any order,
      give the same key. */
  lemma DictKeyIgnoresInsertionOrder(baseurl: string, d1: Params, d2: Params)
    requires IsDict(d1) && IsDict(d2)
    requires forall kv :: kv in d1 <==> kv in d2
    ensures UniqueKey(baseurl, d1) == UniqueKey(baseurl, d2)
  {
    SameValuesNoDupPermutation(d1, d2);
    KeyIgnoresParamOrder(baseurl, d1, d2);
  }

  /** With no parameters the key is the base URL and the connector. */
  lemma EmptyParamsKey(baseurl: string)
    ensures UniqueKey(baseurl, []) == baseurl + "_"
  {
  }

  /** A request with one parameter of a fixed name: the key is
      `baseurl_name_value`, so different values give different keys. This is
      the shape of both TheAudioDB requests. */
  lemma SingleParamKey(baseurl: string, name: string, v1: string, v2: string)
    ensures UniqueKey(baseurl, [(name, PStr(v1))]) == baseurl + "_" + name + "_" + v1
    ensures UniqueKey(baseurl, [(name, PStr(v1))]) == UniqueKey(baseurl, [(name, PStr(v2))]) ==> v1 == v2
  {
    assert RenderAll([(name, PStr(v1))]) == [name + "_" + v1];
    assert RenderAll([(name, PStr(v2))]) == [name + "_" + v2];
    var k1 := baseurl + "_" + name + "_" + v1;
    var k2 := baseurl + "_" + name + "_" + v2;
    var n := |baseurl| + |name| + 2;
    assert k1[n..] == v1 && k2[n..] == v2;
  }

  /** Keys are not injective: no escaping is done, so a value containing the
      connector can make two different dictionaries share a key. */
  lemma KeysCanCollide(baseurl: string)
    ensures [("a", PStr("b_c"))] != [("a_b", PStr("c"))]
    ensures UniqueKey(baseurl, [("a", PStr("b_c"))]) == UniqueKey(baseurl, [("a_b", PStr("c"))])
  {
    SingleParamKey(baseurl, "a", "b_c", "b_c");
    SingleParamKey(baseurl, "a_b", "c", "c");
    assert [("a", PStr("b_c"))][0] != [("a_b", PStr("c"))][0];
  }

  // ---------------------------------------------------------------------
  // Endpoints and the single-resource URLs that are their own cache keys.

  const SpotifySearch := "https://api.spotify.com/v1/search"
  const SpotifyArtists := "https://api.spotify.com/v1/artists"
  const SpotifyAudioFeatures := "https://api.spotify.com/v1/audio-features"
  const TadbArtistSearch := "https://www.theaudiodb.com/api/v1/json/1/search.php"
  const TadbMusicVideos := "https://theaudiodb.com/api/v1/json/1/mvid.php"

  /** `baseurl + "/" + spotify_artist_id` in `get_spotify_artists`. */
  function ArtistUrl(artistId: string): string
  {
    SpotifyArtists + "/" + artistId
  }

  /** `baseurl + "/" + track_id` in `get_track_audio_features`. */
  function AudioFeaturesUrl(trackId: string): string
  {
    SpotifyAudioFeatures + "/" + trackId
  }

  /** A key begins with its base URL. */
  lemma KeyCharAt(baseurl: string, params: Params, k: nat)
    requires k < |baseurl|
    ensures k < |UniqueKey(baseurl, params)| && UniqueKey(baseurl, params)[k] == baseurl[k]
  {
  }

  lemma BaseUrlChars()
    ensures SpotifySearch[8] == 'a' && SpotifySearch[27] == 's'
    ensures SpotifyArtists[8] == 'a' && SpotifyArtists[27] == 'a' && SpotifyArtists[28] == 'r'
    ensures SpotifyAudioFeatures[8] == 'a' && SpotifyAudioFeatures[27] == 'a' && SpotifyAudioFeatures[28] == 'u'
    ensures TadbArtistSearch[8] == 'w' && TadbMusicVideos[8] == 't'
  {
  }

  /** The three Spotify request kinds land on distinct keys: the base URLs
      differ at index 27 or 28. */
  lemma SpotifyKeysDisjoint(p: Params, id1: string, id2: string)
    ensures UniqueKey(SpotifySearch, p) != ArtistUrl(id1)
    ensures UniqueKey(SpotifySearch, p) != AudioFeaturesUrl(id1)
    ensures ArtistUrl(id1) != AudioFeaturesUrl(id2)
  {
    BaseUrlChars();
    KeyCharAt(SpotifySearch, p, 27);
    assert ArtistUrl(id1)[27] == SpotifyArtists[27] && ArtistUrl(id1)[28] == SpotifyArtists[28];
    assert AudioFeaturesUrl(id1)[27] == SpotifyAudioFeatures[27];
    assert AudioFeaturesUrl(id2)[28] == SpotifyAudioFeatures[28];
  }

  /** The TheAudioDB keys never meet each other or any Spotify key: the
      hosts differ at index 8. Both programs share one cache file, so this
      keeps one kind of request from being answered with another's
      response. */
  lemma TadbKeysDisjoint(p: Params, q: Params, id: string)
    ensures UniqueKey(TadbArtistSearch, p) != UniqueKey(TadbMusicVideos, q)
    ensures UniqueKey(TadbArtistSearch, p) != UniqueKey(SpotifySearch, q)
    ensures UniqueKey(TadbMusicVideos, p) != UniqueKey(SpotifySearch, q)
    ensures UniqueKey(TadbArtistSearch, p) != ArtistUrl(id)
    ensures UniqueKey(TadbArtistSearch, p) != AudioFeaturesUrl(id)
    ensures UniqueKey(TadbMusicVideos, p) != ArtistUrl(id)
    ensures UniqueKey(TadbMusicVideos, p) != AudioFeaturesUrl(id)
  {
    BaseUrlChars();
    KeyCharAt(TadbArtistSearch, p, 8);
    KeyCharAt(TadbMusicVideos, p, 8);
    KeyCharAt(TadbMusicVideos, q, 8);
    KeyCharAt(SpotifySearch, q, 8);
    assert ArtistUrl(id)[8] == SpotifyArtists[8];
    assert AudioFeaturesUrl(id)[8] == SpotifyAudioFeatures[8];
  }

  /** Different artist ids give different URLs, hence different cache
      entries; likewise for audio features. */
  lemma LookupUrlsInjective(a: string, b: string)
    ensures ArtistUrl(a) == ArtistUrl(b) ==> a == b
    ensures AudioFeaturesUrl(a) == AudioFeaturesUrl(b) ==> a == b
  {
    assert ArtistUrl(a)[|SpotifyArtists| + 1..] == a && ArtistUrl(b)[|SpotifyArtists| + 1..] == b;
    assert AudioFeaturesUrl(a)[|SpotifyAudioFeatures| + 1..] == a;
    assert AudioFeaturesUrl(b)[|SpotifyAudioFeatures| + 1..] == b;
  }
}
