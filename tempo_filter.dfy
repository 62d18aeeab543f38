/** The tempo filter of musicflaskapp.py: rows of the genre query are kept
    or dropped by their tempo column, the second-to-last field. */
module TempoFilter {
  import opened Sequences

  /** A row of `get_tracks_by_genre`: TrackName, ArtistName, Genre,
      ImageUrl, Popularity, Tempo, Acousticness. */
  datatype TempoRow = TempoRow(
    trackName: string,
    artistName: string,
    genre: string,
    imageUrl: string,
    popularity: int,
    tempo: real,
    acousticness: real)

  /** Tempos at or above this are 'fast'. */
  const FastTempo: real := 150.0

  /** Tempos at or below this are 'slow'. */
  const SlowTempo: real := 100.0

  predicate IsFast(track: TempoRow)
  {
    track.tempo >= FastTempo
  }

  predicate IsSlow(track: TempoRow)
  {
    track.tempo <= SlowTempo
  }

  /** What `filter_by_tempo` returns: the fast rows for 'fast', the slow
      rows for 'slow', in their original order, and the rows untouched for
      any other choice. */
  function TempoFiltered(tracks: seq<TempoRow>, inputTempo: string): seq<TempoRow>
  {
    if inputTempo == "fast" then Keep(tracks, IsFast)
    else if inputTempo == "slow" then Keep(tracks, IsSlow)
    else tracks
  }

  /** `filter_by_tempo(tracks, input_tempo)`. */
  method FilterByTempo(tracks: seq<TempoRow>, inputTempo: string) returns (filtered: seq<TempoRow>)
    ensures filtered == TempoFiltered(tracks, inputTempo)
  {
    var fastFilteredTracks := [];
    var slowFilteredTracks := [];
    var allTracks := tracks;
    if inputTempo == "fast" {
      for i := 0 to |tracks|
        invariant fastFilteredTracks == Keep(tracks[..i], IsFast)
      {
        assert tracks[..i + 1][..i] == tracks[..i];
        if tracks[i].tempo >= 150.0 {
          fastFilteredTracks := fastFilteredTracks + [tracks[i]];
        }
      }
      assert tracks[..|tracks|] == tracks;
      return fastFilteredTracks;
    } else if inputTempo == "slow" {
      for i := 0 to |tracks|
        invariant slowFilteredTracks == Keep(tracks[..i], IsSlow)
      {
        assert tracks[..i + 1][..i] == tracks[..i];
        if tracks[i].tempo <= 100.0 {
          slowFilteredTracks := slowFilteredTracks + [tracks[i]];
        }
      }
      assert tracks[..|tracks|] == tracks;
      return slowFilteredTracks;
    } else {
      return allTracks;
    }
  }

  /** The result is a subsequence of the input: the rows keep their order
      and the list never grows. A row is in the 'fast' result exactly when
      it is in the input with tempo at least 150, as many times as there;
      likewise for 'slow' and tempo at most 100. */
  lemma TempoFilteredSpec(tracks: seq<TempoRow>, inputTempo: string)
    ensures IsSubsequence(TempoFiltered(tracks, inputTempo), tracks)
    ensures |TempoFiltered(tracks, inputTempo)| <= |tracks|
    ensures inputTempo == "fast" ==> forall t ::
      multiset(TempoFiltered(tracks, inputTempo))[t] == if t.tempo >= 150.0 then multiset(tracks)[t] else 0
    ensures inputTempo == "slow" ==> forall t ::
      multiset(TempoFiltered(tracks, inputTempo))[t] == if t.tempo <= 100.0 then multiset(tracks)[t] else 0
    ensures inputTempo != "fast" && inputTempo != "slow" ==> TempoFiltered(tracks, inputTempo) == tracks
  {
    if inputTempo == "fast" {
      KeepSubsequence(tracks, IsFast);
      forall t ensures multiset(Keep(tracks, IsFast))[t] == if IsFast(t) then multiset(tracks)[t] else 0 {
        KeepCount(tracks, IsFast, t);
      }
    } else if inputTempo == "slow" {
      KeepSubsequence(tracks, IsSlow);
      forall t ensures multiset(Keep(tracks, IsSlow))[t] == if IsSlow(t) then multiset(tracks)[t] else 0 {
        KeepCount(tracks, IsSlow, t);
      }
    } else {
      SubsequenceReflexive(tracks);
    }
  }

  /** A row with tempo strictly between 100 and 150 survives only when
      no tempo filter was chosen. */
  lemma MiddleTempoOnlyUnfiltered(tracks: seq<TempoRow>, inputTempo: string, t: TempoRow)
    requires t in TempoFiltered(tracks, inputTempo)
    requires 100.0 < t.tempo < 150.0
    ensures inputTempo != "fast" && inputTempo != "slow"
    ensures t in tracks
  {
    if inputTempo == "fast" {
      KeepCount(tracks, IsFast, t);
    } else if inputTempo == "slow" {
      KeepCount(tracks, IsSlow, t);
    }
  }
}
