/** The session state of the library view (spotifind/state.py:29-414):
    the stored track lists, playlists, seed set, genre cache and
    recommendation settings, and the event handlers that update them.
    The Spotify client is the input `sp`; the genre flattener of the track
    enrichment is the input `flat`. */
module AppState {
  import opened Records
  import opened OrderedDict
  import opened GenreCache
  import opened Enrichment
  import opened PlaylistNames
  import opened Paging
  import opened Seeds
  import opened Recommendation
  import opened Api

  /** The fixed keys of `lib_tracks`. */
  const RecentKey := "____recent"
  const LikedKey := "____liked"
  const SearchKey := "____search"
  const UnselectedKey := ""

  const InitialLibrary: Dict<string, seq<Track>> :=
    [(RecentKey, []), (LikedKey, []), (SearchKey, []), (UnselectedKey, [])]

  /** `lib_tracks` always holds the four fixed keys. */
  predicate ValidLibrary(lib: Dict<string, seq<Track>>)
  {
    RecentKey in Keys(lib) && LikedKey in Keys(lib)
    && SearchKey in Keys(lib) && UnselectedKey in Keys(lib)
  }

  lemma FixedKeysDistinct()
    ensures RecentKey != LikedKey && RecentKey != SearchKey && RecentKey != UnselectedKey
    ensures LikedKey != SearchKey && LikedKey != UnselectedKey && SearchKey != UnselectedKey
  {
    assert RecentKey[4] == 'r' && LikedKey[4] == 'l' && SearchKey[4] == 's';
  }

  lemma InitialLibraryValid()
    ensures ValidLibrary(InitialLibrary)
  {
    FixedKeysDistinct();
    var ks := Keys(InitialLibrary);
    assert ks == [RecentKey, LikedKey, SearchKey, UnselectedKey];
  }

  /** Assigning a list under a key keeps the library valid and every other list. */
  lemma PutKeepsLibrary(lib: Dict<string, seq<Track>>, k: string, v: seq<Track>)
    requires ValidLibrary(lib)
    ensures ValidLibrary(Put(lib, k, v))
    ensures forall k' :: k' in Keys(lib) ==> k' in Keys(Put(lib, k, v))
  {
    var ks := Keys(lib);
    if !HasKey(lib, k) {
      assert forall k' :: k' in ks ==> k' in ks + [k];
    }
  }

  /** The playlists after `fetch_genres_selected_pl`: those named `name`
      are flagged as carrying genres, every other field and playlist is kept. */
  function MarkGenres(pls: seq<Playlist>, name: string): (r: seq<Playlist>)
    ensures |r| == |pls|
    ensures forall i :: 0 <= i < |pls| ==>
      r[i].uri == pls[i].uri && r[i].name == pls[i].name
      && r[i].hasGenres == (pls[i].hasGenres || pls[i].name == name)
  {
    seq(|pls|, i requires 0 <= i < |pls| =>
      if pls[i].name != name then pls[i] else pls[i].WithGenreFlagTrue())
  }

  /** `[pl for pl in playlists if pl.playlist_name == name][0]`, or nothing
      (an IndexError) when no playlist has that name. */
  function FirstNamed(pls: seq<Playlist>, name: string): (r: Option<Playlist>)
    ensures r.Some? ==> r.value in pls && r.value.name == name
  {
    if pls == [] then None
    else if pls[0].name == name then Some(pls[0])
    else FirstNamed(pls[1..], name)
  }

  /** The lookup fails exactly when no playlist has the name, and otherwise
      finds the first playlist that has it. */
  lemma {:induction false} FirstNamedSpec(pls: seq<Playlist>, name: string)
    ensures FirstNamed(pls, name).None? <==> forall i :: 0 <= i < |pls| ==> pls[i].name != name
    ensures FirstNamed(pls, name).Some? ==>
      exists i :: (0 <= i < |pls| && pls[i] == FirstNamed(pls, name).value
        && forall j :: 0 <= j < i ==> pls[j].name != name)
  {
    if pls != [] && pls[0].name != name {
      FirstNamedSpec(pls[1..], name);
      assert forall i :: 1 <= i < |pls| ==> pls[i] == pls[1..][i - 1];
      if FirstNamed(pls, name).Some? {
        var i :| 0 <= i < |pls[1..]| && pls[1..][i] == FirstNamed(pls, name).value
          && forall j :: 0 <= j < i ==> pls[1..][j].name != name;
        assert pls[i + 1] == FirstNamed(pls, name).value;
      }
    }
  }

  class State {
    /** `_sp`: the answers of the Spotify client for this session. */
    const sp: Spotify
    /** `flat_genre_list_for_artist_uris`. */
    const flat: GenreFlattener

    var libTracks: Dict<string, seq<Track>>
    var reccTracks: seq<Track>
    var playlists: seq<Playlist>
    var rpTracksHaveGenre: bool
    var likedTracksHaveGenre: bool
    var seedTrackUrisWithSource: seq<TrackSeed>
    var seedGenres: seq<Genre>
    var seedArtists: seq<ArtistSeed>
    var selectedPlaylist: Playlist
    var genreLookup: GenreLookup
    var targets: Targets
    var numRecommendations: int

    predicate Valid()
      reads this`libTracks
    {
      ValidLibrary(libTracks)
    }

    /** The state of a new session; `numRecommendations` is the default
        count of recommendations. */
    constructor(sp: Spotify, flat: GenreFlattener, numRecommendations: int)
      ensures Valid()
      ensures this.sp == sp && this.flat == flat && this.numRecommendations == numRecommendations
      ensures libTracks == InitialLibrary && reccTracks == [] && playlists == []
      ensures !rpTracksHaveGenre && !likedTracksHaveGenre
      ensures seedTrackUrisWithSource == [] && seedGenres == [] && seedArtists == []
      ensures selectedPlaylist == EmptyPlaylist && genreLookup == map[] && targets == InitialTargets
    {
      this.sp := sp;
      this.flat := flat;
      libTracks := InitialLibrary;
      reccTracks := [];
      playlists := [];
      rpTracksHaveGenre := false;
      likedTracksHaveGenre := false;
      seedTrackUrisWithSource := [];
      seedGenres := [];
      seedArtists := [];
      selectedPlaylist := EmptyPlaylist;
      genreLookup := map[];
      targets := InitialTargets;
      this.numRecommendations := numRecommendations;
      InitialLibraryValid();
    }

    // ---------------------------------------------------------------
    // Library from the API

    /** `fetch_rp_tracks`: the recently played list is replaced by the 50
        latest plays, which carry no genres yet. */
    method FetchRpTracks()
      requires Valid()
      modifies this`libTracks, this`rpTracksHaveGenre
      ensures Valid()
      ensures libTracks == Put(old(libTracks), RecentKey, sp.recentlyPlayed(RecentLimit))
      ensures !rpTracksHaveGenre
    {
      PutKeepsLibrary(libTracks, RecentKey, sp.recentlyPlayed(RecentLimit));
      libTracks := Put(libTracks, RecentKey, sp.recentlyPlayed(RecentLimit));
      rpTracksHaveGenre := false;
    }

    /** `fetch_liked_tracks_batch`: the next page of liked songs, asked for
        at the offset of the songs already held, is appended after them. */
    method FetchLikedTracksBatch()
      requires Valid()
      modifies this`libTracks, this`likedTracksHaveGenre
      ensures Valid()
      ensures var held := Get(old(libTracks), LikedKey);
        libTracks == Put(old(libTracks), LikedKey, held + sp.savedTracks(LikedPageSize, |held|))
      ensures Keys(libTracks) == Keys(old(libTracks))
      ensures !likedTracksHaveGenre
    {
      var held := Get(libTracks, LikedKey);
      var page := sp.savedTracks(LikedPageSize, |held|);
      PutKeepsLibrary(libTracks, LikedKey, held + page);
      libTracks := Put(libTracks, LikedKey, held + page);
      likedTracksHaveGenre := false;
    }

    /** `_fetch_genres_for_track_list`: the cache is updated with the
        artists of the tracks, then the tracks are annotated from it.
        `batches` are the URI lists sent to the artist lookup. */
    method FetchGenresForTrackList(tracks: seq<Track>) returns (enriched: seq<Track>, batches: seq<seq<Uri>>)
      modifies this`genreLookup
      ensures IsBatching(batches, Pending(ArtistUrisOf(tracks), old(genreLookup)))
      ensures genreLookup == Merge(Fetched(batches, sp.artists), old(genreLookup))
      ensures enriched == Enrich(tracks, genreLookup, flat)
    {
      genreLookup, batches := UpdateGenreDict(ArtistUrisOf(tracks), genreLookup, sp.artists);
      enriched := Enrich(tracks, genreLookup, flat);
    }

    /** `_add_genres_to_lib_track_list`: enriches a stored list in place;
        a name `lib_tracks` does not hold raises KeyError before anything changes. */
    method AddGenresToLibTrackList(listName: string) returns (outcome: Outcome, batches: seq<seq<Uri>>)
      requires Valid()
      modifies this`libTracks, this`genreLookup
      ensures Valid()
      ensures !HasKey(old(libTracks), listName) ==>
        outcome == Raised(KeyError(listName)) && batches == []
        && libTracks == old(libTracks) && genreLookup == old(genreLookup)
      ensures HasKey(old(libTracks), listName) ==>
        var tracks := Get(old(libTracks), listName);
        outcome == Done
        && IsBatching(batches, Pending(ArtistUrisOf(tracks), old(genreLookup)))
        && genreLookup == Merge(Fetched(batches, sp.artists), old(genreLookup))
        && libTracks == Put(old(libTracks), listName, Enrich(tracks, genreLookup, flat))
        && Keys(libTracks) == Keys(old(libTracks))
    {
      if !HasKey(libTracks, listName) {
        return Raised(KeyError(listName)), [];
      }
      var enriched;
      enriched, batches := FetchGenresForTrackList(Get(libTracks, listName));
      PutKeepsLibrary(libTracks, listName, enriched);
      libTracks := Put(libTracks, listName, enriched);
      outcome := Done;
    }

    /** `fetch_genres_rp`. */
    method FetchGenresRp() returns (batches: seq<seq<Uri>>)
      requires Valid()
      modifies this`libTracks, this`genreLookup, this`rpTracksHaveGenre
      ensures Valid()
      ensures var tracks := Get(old(libTracks), RecentKey);
        IsBatching(batches, Pending(ArtistUrisOf(tracks), old(genreLookup)))
        && genreLookup == Merge(Fetched(batches, sp.artists), old(genreLookup))
        && libTracks == Put(old(libTracks), RecentKey, Enrich(tracks, genreLookup, flat))
      ensures rpTracksHaveGenre
    {
      var outcome;
      outcome, batches := AddGenresToLibTrackList(RecentKey);
      rpTracksHaveGenre := true;
    }

    /** `fetch_genres_liked`. */
    method FetchGenresLiked() returns (batches: seq<seq<Uri>>)
      requires Valid()
      modifies this`libTracks, this`genreLookup, this`likedTracksHaveGenre
      ensures Valid()
      ensures var tracks := Get(old(libTracks), LikedKey);
        IsBatching(batches, Pending(ArtistUrisOf(tracks), old(genreLookup)))
        && genreLookup == Merge(Fetched(batches, sp.artists), old(genreLookup))
        && libTracks == Put(old(libTracks), LikedKey, Enrich(tracks, genreLookup, flat))
      ensures likedTracksHaveGenre
    {
      var outcome;
      outcome, batches := AddGenresToLibTrackList(LikedKey);
      likedTracksHaveGenre := true;
    }

    /** `fetch_genres_selected_pl`: enriches the selected playlist's tracks
        and flags it, and every playlist of the same name, as carrying
        genres; a KeyError leaves the flags as they were. */
    method FetchGenresSelectedPl() returns (outcome: Outcome, batches: seq<seq<Uri>>)
      requires Valid()
      modifies this`libTracks, this`genreLookup, this`selectedPlaylist, this`playlists
      ensures Valid()
      ensures var name := old(selectedPlaylist.name);
        outcome.Raised? <==> !HasKey(old(libTracks), name)
      ensures outcome.Raised? ==>
        outcome.error == KeyError(old(selectedPlaylist.name))
        && libTracks == old(libTracks) && genreLookup == old(genreLookup)
        && selectedPlaylist == old(selectedPlaylist) && playlists == old(playlists)
      ensures outcome.Done? ==>
        var name := old(selectedPlaylist.name);
        var tracks := Get(old(libTracks), name);
        IsBatching(batches, Pending(ArtistUrisOf(tracks), old(genreLookup)))
        && genreLookup == Merge(Fetched(batches, sp.artists), old(genreLookup))
        && libTracks == Put(old(libTracks), name, Enrich(tracks, genreLookup, flat))
        && selectedPlaylist == old(selectedPlaylist).WithGenreFlagTrue()
        && playlists == MarkGenres(old(playlists), name)
    {
      outcome, batches := AddGenresToLibTrackList(selectedPlaylist.name);
      if outcome.Raised? {
        return;
      }
      selectedPlaylist := selectedPlaylist.WithGenreFlagTrue();
      playlists := MarkGenres(playlists, selectedPlaylist.name);
    }

    /** `fetch_playlists`: every page of the user's playlists, in order,
        with repeated names numbered. */
    method FetchPlaylists()
      modifies this`playlists
      ensures playlists == Disambiguated(AllItems(sp.currentUserPlaylists))
    {
      var items := CollectAll(sp.currentUserPlaylists);
      var a := new Playlist[|items|](i requires 0 <= i < |items| => items[i]);
      assert a[..] == items;
      DisambiguateNames(a);
      playlists := a[..];
    }

    /** `fetch_tracks_for_playlist`: every page of the playlist's entries,
        keeping the playable ones, stored under the playlist's name. */
    method FetchTracksForPlaylist(p: Playlist)
      requires Valid()
      modifies this`libTracks
      ensures Valid()
      ensures libTracks == Put(old(libTracks), p.name, PlayableTracks(AllItems(sp.playlistItems(p.uri))))
    {
      var items := CollectAll(sp.playlistItems(p.uri));
      PutKeepsLibrary(libTracks, p.name, PlayableTracks(items));
      libTracks := Put(libTracks, p.name, PlayableTracks(items));
    }

    /** `on_load_library_fetch`: recent plays, the first page of liked songs,
        the playlists, then the first playlist is selected and its tracks
        fetched; with no playlist at all the selection raises IndexError. */
    method OnLoadLibraryFetch() returns (outcome: Outcome)
      requires Valid()
      modifies this`libTracks, this`rpTracksHaveGenre, this`likedTracksHaveGenre,
               this`playlists, this`selectedPlaylist
      ensures Valid()
      ensures !rpTracksHaveGenre && !likedTracksHaveGenre
      ensures playlists == Disambiguated(AllItems(sp.currentUserPlaylists))
      ensures var afterRecent := Put(old(libTracks), RecentKey, sp.recentlyPlayed(RecentLimit));
        var held := Get(old(libTracks), LikedKey);
        var afterLiked := Put(afterRecent, LikedKey, held + sp.savedTracks(LikedPageSize, |held|));
        (outcome.Raised? <==> playlists == [])
        && (outcome.Raised? ==>
              outcome.error == IndexError
              && selectedPlaylist == old(selectedPlaylist) && libTracks == afterLiked)
        && (outcome.Done? ==>
              selectedPlaylist == playlists[0]
              && libTracks == Put(afterLiked, playlists[0].name,
                                  PlayableTracks(AllItems(sp.playlistItems(playlists[0].uri)))))
    {
      LoadRecentAndLiked();
      ghost var afterLiked := libTracks;
      FetchPlaylists();
      assert libTracks == afterLiked && !rpTracksHaveGenre && !likedTracksHaveGenre;
      if playlists == [] {
        return Raised(IndexError);
      }
      var first := playlists[0];
      selectedPlaylist := first;
      FetchTracksForPlaylist(first);
      assert libTracks == Put(afterLiked, first.name, PlayableTracks(AllItems(sp.playlistItems(first.uri))));
      assert !rpTracksHaveGenre && !likedTracksHaveGenre;
      outcome := Done;
    }

    /** The first two steps of `on_load_library_fetch`: recently played,
        then one page of liked songs. */
    method LoadRecentAndLiked()
      requires Valid()
      modifies this`libTracks, this`rpTracksHaveGenre, this`likedTracksHaveGenre
      ensures Valid()
      ensures !rpTracksHaveGenre && !likedTracksHaveGenre
      ensures var afterRecent := Put(old(libTracks), RecentKey, sp.recentlyPlayed(RecentLimit));
        var held := Get(old(libTracks), LikedKey);
        libTracks == Put(afterRecent, LikedKey, held + sp.savedTracks(LikedPageSize, |held|))
    {
      ghost var held := Get(libTracks, LikedKey);
      FetchRpTracks();
      ghost var afterRecent := libTracks;
      FixedKeysDistinct();
      PutKeepsOthers(old(libTracks), RecentKey, sp.recentlyPlayed(RecentLimit), LikedKey);
      FetchLikedTracksBatch();
      assert libTracks == Put(afterRecent, LikedKey, held + sp.savedTracks(LikedPageSize, |held|));
    }

    // ---------------------------------------------------------------
    // Recommendations

    /** `seed_track_uris`. */
    function SeedTrackUris(): seq<Uri>
      reads this
    {
      UrisOf(seedTrackUrisWithSource)
    }

    /** `seed_artist_uris`. */
    function SeedArtistUris(): seq<Uri>
      reads this
    {
      UrisOf(seedArtists)
    }

    /** The keyword arguments of the recommendation request. */
    function RecommendationParams(): (p: Params)
      reads this
      ensures "seed_artists" in p && "seed_tracks" in p && "limit" in p
      ensures p["seed_artists"] == UriList(SeedArtistUris()) && p["seed_tracks"] == UriList(SeedTrackUris())
      ensures p["limit"] == Limit(numRecommendations)
      ensures forall f: Feature :: ParamName(f) in p && p[ParamName(f)] == TargetValue(TargetParam(targets.Get(f)))
    {
      GenerationParamsValues(SeedArtistUris(), SeedTrackUris(), numRecommendations, targets);
      GenerationParams(SeedArtistUris(), SeedTrackUris(), numRecommendations, targets)
    }

    /** `fetch_recommendations`: the recommended tracks for the current
        seeds and targets, annotated with genres through the cache. */
    method FetchRecommendations() returns (batches: seq<seq<Uri>>)
      modifies this`reccTracks, this`genreLookup
      ensures var raw := sp.recommendations(old(RecommendationParams()));
        IsBatching(batches, Pending(ArtistUrisOf(raw), old(genreLookup)))
        && genreLookup == Merge(Fetched(batches, sp.artists), old(genreLookup))
        && reccTracks == Enrich(raw, genreLookup, flat)
    {
      var raw := sp.recommendations(RecommendationParams());
      reccTracks, batches := FetchGenresForTrackList(raw);
    }

    // ---------------------------------------------------------------
    // Playlists

    /** `select_playlist`: selects the first playlist with that name and
        fetches its tracks unless a list of that name is already stored;
        an unknown name raises IndexError and changes nothing. */
    method SelectPlaylist(name: string) returns (outcome: Outcome)
      requires Valid()
      modifies this`selectedPlaylist, this`libTracks
      ensures Valid()
      ensures playlists == old(playlists)
      ensures FirstNamed(playlists, name).None? ==>
        outcome == Raised(IndexError)
        && selectedPlaylist == old(selectedPlaylist) && libTracks == old(libTracks)
      ensures FirstNamed(playlists, name).Some? ==>
        var p := FirstNamed(playlists, name).value;
        outcome == Done && selectedPlaylist == p
        && libTracks == if HasKey(old(libTracks), name) then old(libTracks)
                        else Put(old(libTracks), name, PlayableTracks(AllItems(sp.playlistItems(p.uri))))
    {
      var found := FirstNamed(playlists, name);
      if found.None? {
        return Raised(IndexError);
      }
      var p := found.value;
      assert p.name == name;
      selectedPlaylist := p;
      if !HasKey(libTracks, name) {
        ghost var before := libTracks;
        FetchTracksForPlaylist(p);
        assert libTracks == Put(before, name, PlayableTracks(AllItems(sp.playlistItems(p.uri))));
      }
      outcome := Done;
    }

    // ---------------------------------------------------------------
    // Seeding

    /** `add_track_uri_to_seeds` as written: its guard never fires, so the
        pair is always appended (see `AddTrackAsWritten`; the add button is
        disabled while the URI is a seed, and `GuardedAddAgrees` shows that
        under that condition this equals the intended `AddTrackIfAbsent`). */
    method AddTrackUriToSeeds(uri: Uri, source: string)
      modifies this`seedTrackUrisWithSource
      ensures seedTrackUrisWithSource == AddTrackAsWritten(old(seedTrackUrisWithSource), uri, source)
    {
      seedTrackUrisWithSource := AddTrackAsWritten(seedTrackUrisWithSource, uri, source);
    }

    method RemoveTrackUriFromSeeds(uri: Uri)
      modifies this`seedTrackUrisWithSource
      ensures seedTrackUrisWithSource == RemoveTrackUri(old(seedTrackUrisWithSource), uri)
    {
      seedTrackUrisWithSource := RemoveTrackUri(seedTrackUrisWithSource, uri);
    }

    method AddGenreToSeeds(genre: Genre)
      modifies this`seedGenres
      ensures seedGenres == AddIfAbsent(old(seedGenres), genre)
    {
      seedGenres := AddIfAbsent(seedGenres, genre);
    }

    method RemoveGenreFromSeeds(genre: Genre)
      modifies this`seedGenres
      ensures seedGenres == RemoveAll(old(seedGenres), genre)
    {
      seedGenres := RemoveAll(seedGenres, genre);
    }

    method AddArtistToSeeds(artist: ArtistSeed)
      modifies this`seedArtists
      ensures seedArtists == AddIfAbsent(old(seedArtists), artist)
    {
      seedArtists := AddIfAbsent(seedArtists, artist);
    }

    method RemoveArtistFromSeeds(artist: ArtistSeed)
      modifies this`seedArtists
      ensures seedArtists == RemoveAll(old(seedArtists), artist)
    {
      seedArtists := RemoveAll(seedArtists, artist);
    }

    /** `seed_tracks`: for each seed URI, the first track with that URI in
        the stored lists taken in key order; `None` stands for the
        IndexError raised when a seed URI is in no stored list. */
    function SeedTrackList(): (r: Option<seq<Track>>)
      reads this
      ensures r.Some? <==> forall i :: 0 <= i < |seedTrackUrisWithSource| ==>
        exists t :: t in AllValues(libTracks) && t.uri == seedTrackUrisWithSource[i].0
      ensures r.Some? ==> |r.value| == |seedTrackUrisWithSource|
      ensures r.Some? ==> forall i :: 0 <= i < |r.value| ==>
        r.value[i].uri == seedTrackUrisWithSource[i].0 && r.value[i] in AllValues(libTracks)
        && FirstWithUri(AllValues(libTracks), seedTrackUrisWithSource[i].0) == Some(r.value[i])
    {
      SeedTracks(libTracks, SeedTrackUris())
    }

    /** `total_seeds`; `None` when `seed_tracks` raises. */
    function SeedCount(): (r: Option<nat>)
      reads this
      ensures r.Some? <==> SeedTrackList().Some?
      ensures r.Some? ==> r.value == |seedArtists| + |seedTrackUrisWithSource|
    {
      match SeedTrackList()
      case None => None
      case Some(ts) => Some(TotalSeeds(|seedArtists|, |ts|))
    }

    /** The Generate button is disabled (`too_many_seeds or too_few_seeds`);
        `None` when `seed_tracks` raises. */
    function GenerateIsDisabled(): (r: Option<bool>)
      reads this
      ensures r.Some? <==> SeedTrackList().Some?
      ensures r.Some? ==> (!r.value <==> 1 <= |seedArtists| + |seedTrackUrisWithSource| <= MaxSeeds)
    {
      match SeedCount()
      case None => None
      case Some(n) => Some(GenerateDisabled(n))
    }

    // ---------------------------------------------------------------
    // Recommendation parameters

    /** `enable_disable_recc_target_<feature>`. */
    method SetTargetEnabled(f: Feature, enabled: bool)
      modifies this`targets
      ensures targets == old(targets).With(f, Target(old(targets).Get(f).value, enabled))
    {
      targets := targets.With(f, Target(targets.Get(f).value, enabled));
    }

    /** `set_recc_target_<feature>_value`, on the integer slider value. */
    method SetTargetValue(f: Feature, value: int)
      modifies this`targets
      ensures targets == old(targets).With(f, Target(value, old(targets).Get(f).enabled))
    {
      targets := targets.With(f, Target(value, targets.Get(f).enabled));
    }

    // ---------------------------------------------------------------
    // Derived views

    /** `selected_playlist_tracks`; `None` stands for the KeyError raised
        when no list is stored under the selected name. */
    function SelectedPlaylistTracks(): (r: Option<seq<Track>>)
      reads this
      ensures r.Some? <==> HasKey(libTracks, selectedPlaylist.name)
      ensures r.Some? ==> r.value == Get(libTracks, selectedPlaylist.name)
    {
      if HasKey(libTracks, selectedPlaylist.name) then Some(Get(libTracks, selectedPlaylist.name)) else None
    }
  }

  /** A seed picked from any stored list is found by `seed_tracks`, so
      choosing seeds from the library view never makes it raise. */
  lemma SeedFromLibraryIsFound(lib: Dict<string, seq<Track>>, key: string, t: Track)
    requires HasKey(lib, key) && t in Get(lib, key)
    ensures SeedTracks(lib, [t.uri]).Some?
  {
    GetInAllValues(lib, key, t);
    var i :| 0 <= i < |AllValues(lib)| && AllValues(lib)[i] == t;
  }
}
