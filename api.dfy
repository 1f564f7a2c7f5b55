/** The Spotify client as the core sees it: each call is an input function
    of its arguments, and a paginated call answers with a chain of pages.
    Nothing is assumed about what the service returns. */
module Api {
  import opened Records
  import opened Text
  import opened GenreCache
  import opened Recommendation

  datatype SearchKind = TrackSearch | ArtistSearch

  /** `search(q=..., type=..., limit=..., offset=...)`; `None` stands for `offset=None`. */
  datatype SearchRequest = SearchRequest(query: string, kind: SearchKind, limit: int, offset: Option<nat>)

  /** The answers of the client calls the core makes. */
  datatype Spotify = Spotify(
    recentlyPlayed: int -> seq<Track>,            // current_user_recently_played(limit)['items']
    savedTracks: (int, nat) -> seq<Track>,        // current_user_saved_tracks(limit, offset)['items']
    currentUserPlaylists: Response<Playlist>,     // current_user_playlists() and its `next` pages
    playlistItems: Uri -> Response<PlaylistItem>, // playlist_items(uri) and its `next` pages
    artists: ArtistLookup,                        // artists(uris)['artists']
    recommendations: Params -> seq<Track>,        // recommendations(**params)['tracks']
    searchTracks: SearchRequest -> Response<Track>,
    searchArtists: SearchRequest -> Response<Artist>)

  /** The limit of the recently-played and liked-songs requests. */
  const RecentLimit := 50

  /** URIs of local files contain this marker. */
  const LocalMarker := "spotify:local"

  /** A playlist entry that yields a library track: it has a track, and the
      track is not a local file. */
  predicate Playable(item: PlaylistItem)
  {
    item.track.Some? && !Contains(item.track.value.uri, LocalMarker)
  }

  /** The tracks of the playable entries, in playlist order
      (spotifind/state.py:235-240). */
  function PlayableTracks(items: seq<PlaylistItem>): seq<Track>
  {
    if items == [] then []
    else (if Playable(items[0]) then [items[0].track.value] else []) + PlayableTracks(items[1..])
  }

  /** A track is kept exactly when some playable entry holds it: entries
      without a track and local files are dropped, nothing else is. */
  lemma {:induction false} PlayableTracksSpec(items: seq<PlaylistItem>, t: Track)
    ensures |PlayableTracks(items)| <= |items|
    ensures t in PlayableTracks(items) <==>
      exists i :: 0 <= i < |items| && Playable(items[i]) && items[i].track.value == t
  {
    if items != [] {
      PlayableTracksSpec(items[1..], t);
      if t in PlayableTracks(items[1..]) {
        var i :| 0 <= i < |items[1..]| && Playable(items[1..][i]) && items[1..][i].track.value == t;
        assert items[i + 1] == items[1..][i];
      }
      if exists i :: 0 <= i < |items| && Playable(items[i]) && items[i].track.value == t {
        var i :| 0 <= i < |items| && Playable(items[i]) && items[i].track.value == t;
        if i > 0 {
          assert items[1..][i - 1] == items[i];
        }
      }
    }
  }

  /** No kept track is a local file. */
  lemma {:induction false} NoLocalTracks(items: seq<PlaylistItem>)
    ensures forall t :: t in PlayableTracks(items) ==> !Contains(t.uri, LocalMarker)
  {
    forall t | t in PlayableTracks(items) ensures !Contains(t.uri, LocalMarker) {
      PlayableTracksSpec(items, t);
    }
  }

  /** Filtering works piecewise, so the kept tracks keep their order. */
  lemma {:induction false} PlayableTracksAppend(a: seq<PlaylistItem>, b: seq<PlaylistItem>)
    ensures PlayableTracks(a + b) == PlayableTracks(a) + PlayableTracks(b)
  {
    if a == [] {
      assert a + b == b;
    } else {
      assert (a + b)[0] == a[0] && (a + b)[1..] == a[1..] + b;
      PlayableTracksAppend(a[1..], b);
    }
  }
}
