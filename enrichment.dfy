/** Track enrichment (spotifind/state.py:156-180): the artists of a track
    list are looked up through the genre cache, then each track gets the
    genres of its artists. */
module Enrichment {
  import opened Records
  import opened Sequences
  import opened GenreCache

  /** `flat_genre_list_for_artist_uris(artist_uris, lookup)`. Its definition
      is not part of this model, so it is a parameter: nothing is assumed
      about de-duplication or order of the genres it returns. */
  type GenreFlattener = (seq<Uri>, GenreLookup) -> seq<Genre>

  /** `flatten_list_of_lists([t.artist_uris for t in track_list])`. */
  function ArtistUrisOf(tracks: seq<Track>): seq<Uri>
  {
    Flatten(seq(|tracks|, i requires 0 <= i < |tracks| => tracks[i].artistUris))
  }

  /** Every artist of every track is among the URIs sent to the cache. */
  lemma ArtistOfTrackIsRequested(tracks: seq<Track>, i: nat, u: Uri)
    requires i < |tracks| && u in tracks[i].artistUris
    ensures u in ArtistUrisOf(tracks)
  {
    var parts := seq(|tracks|, k requires 0 <= k < |tracks| => tracks[k].artistUris);
    assert u in parts[i];
    InFlatten(parts, u);
  }

  /** `[track.with_artist_genres(flat(track.artist_uris, lookup)) for track in tracks]`. */
  function Enrich(tracks: seq<Track>, lookup: GenreLookup, flat: GenreFlattener): seq<Track>
  {
    if tracks == [] then []
    else [tracks[0].WithArtistGenres(flat(tracks[0].artistUris, lookup))] + Enrich(tracks[1..], lookup, flat)
  }

  /** Enrichment keeps the length and the order of the list and changes
      nothing of a track but its genres. */
  lemma {:induction false} EnrichKeepsTracks(tracks: seq<Track>, lookup: GenreLookup, flat: GenreFlattener)
    ensures |Enrich(tracks, lookup, flat)| == |tracks|
    ensures forall i :: 0 <= i < |tracks| ==>
      var t := Enrich(tracks, lookup, flat)[i];
      t.uri == tracks[i].uri && t.name == tracks[i].name && t.artistUris == tracks[i].artistUris
      && t.genres == flat(tracks[i].artistUris, lookup)
  {
    if tracks != [] {
      var r := Enrich(tracks, lookup, flat);
      EnrichKeepsTracks(tracks[1..], lookup, flat);
      forall i | 1 <= i < |tracks|
        ensures r[i] == Enrich(tracks[1..], lookup, flat)[i - 1] && tracks[1..][i - 1] == tracks[i]
      {
      }
    }
  }

  /** Enriching twice against the same cache gives the same list as enriching once. */
  lemma EnrichIdempotent(tracks: seq<Track>, lookup: GenreLookup, flat: GenreFlattener)
    ensures Enrich(Enrich(tracks, lookup, flat), lookup, flat) == Enrich(tracks, lookup, flat)
  {
    var once := Enrich(tracks, lookup, flat);
    EnrichKeepsTracks(tracks, lookup, flat);
    EnrichKeepsTracks(once, lookup, flat);
  }

  /** When the lookup answers every artist it is asked about, the updated
      cache holds an entry for every artist of every enriched track. */
  lemma EnrichedArtistsAreCached(tracks: seq<Track>, existing: GenreLookup,
                                 batches: seq<seq<Uri>>, lookup: ArtistLookup, i: nat, u: Uri)
    requires IsBatching(batches, Pending(ArtistUrisOf(tracks), existing))
    requires Answers(batches, lookup)
    requires i < |tracks| && u in tracks[i].artistUris
    ensures u in Merge(Fetched(batches, lookup), existing)
  {
    SecondCallFetchesNothing(ArtistUrisOf(tracks), existing, batches, lookup);
    ArtistOfTrackIsRequested(tracks, i, u);
  }
}
