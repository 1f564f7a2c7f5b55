# Spotifind session state in Dafny

This project models the session state of Spotifind, the library and recommendation view of a Spotify playlist assistant (`spotifind/state.py`). The session state holds:

- the stored track lists (`lib_tracks`): recently played, liked songs, search results and each loaded playlist;
- the user's playlists;
- the seed set of tracks, artists and genres;
- the artist-genre cache;
- the five recommendation target sliders;
- the search panel's inputs and results.

The event handlers that change this state are modelled as methods of two classes:

- `AppState.State` is the library view;
- `Search.SearchState` is the search panel, which shares the `State` it belongs to.

The rules underneath the handlers are pure functions with lemmas about them:

- `GenreCache` batches artist lookups and merges the cache;
- `Enrichment` annotates tracks with genres;
- `PlaylistNames` numbers repeated playlist names;
- `Paging` follows paginated responses and appends or replaces results;
- `Seeds` adds and removes seeds and counts them;
- `Recommendation` builds the request parameters;
- `SearchQuery` assembles the search query.

Supporting modules:

- `Records` holds the value records.
- `Text` covers Python's `str.strip()`, substring tests and decimal formatting.
- `Sequences` holds generic sequence facts.
- `OrderedDict` models a Python dict that keeps insertion order. `seed_tracks` takes the first match over all stored lists, so the order of `lib_tracks` matters.
- `Api` models the Spotify client.

Every answer of the Spotify client is an input:

- A plain call is a function of its arguments. All of them are fields of the `Api.Spotify` datatype.
- A paginated call is a chain of pages, `Response(items, next)`, that ends where `next` is `None`.
- The lookup `artists(uris)` is a function from a batch of URIs to the artists answered.

Python's `list(set(...))` has no defined order. `GenreCache.ListOfSet` chooses one with `:|`, so nothing proved depends on it. Handlers that can raise return an `Outcome`, `Done` or `Raised(KeyError | IndexError)`, together with the state they leave behind. Read-only views that can raise return an `Option`.

Behaviour of the code worth knowing, all of it modelled as written:

- **Disabled targets are sent as `None`.** A disabled recommendation target is not left out of the request; its key is sent with the value `None` (`Recommendation.GenerationParamsValues`).
- **No seed-count check before the request.** `fetch_recommendations` sends whatever seeds there are. Only the Generate button, disabled by `too_many_seeds | too_few_seeds`, keeps the count between 1 and 5 (`Seeds.GenerateEnabledIff`).
- **Names are unique only with a precondition.** The renamed playlist names are pairwise different when no fetched name already looks like "X (k)" (`PlaylistNames.DisplayNamesUnique`). Otherwise two playlists can end with the same name (`PlaylistNames.RenamedNameCanCollide`).
- **`seed_tracks` can raise.** It raises IndexError when a seed URI is in no stored list (`AppState.State.SeedTrackList`).
- **Track seeds can repeat.** `add_track_uri_to_seeds` always appends, because its guard never fires (see Findings). Only the disabled add button keeps a URI from being added twice.

## Model

| member | source | states |
|---|---|---|
| AppState.State.constructor | spotifind/state.py:42-95 | A new session holds the four fixed lists (recent, liked, search, unselected), all empty. Everything else starts empty, no genre flag is set, the selected playlist is blank and every target slider is at 0 and disabled. |
| AppState.InitialLibraryValid | spotifind/state.py:42-47 | The initial `lib_tracks` holds the four fixed keys. |
| AppState.FixedKeysDistinct | spotifind/state.py:42-47 | The four fixed keys of `lib_tracks` differ pairwise. |
| AppState.PutKeepsLibrary | spotifind/state.py:102 | Assigning a list under any key keeps the four fixed keys and every key already present. |
| OrderedDict.Put | spotifind/state.py:102 | `d[k] = v` makes `d[k]` read `v`. An existing key keeps its position in the key order; a new key is appended at the end. |
| OrderedDict.PutKeepsOthers | spotifind/state.py:102 | `d[k] = v` leaves the value of every other key unchanged. |
| OrderedDict.PutKeepsKeysDistinct | spotifind/state.py:102 | A dict built by assignments never holds a key twice. |
| OrderedDict.Get | spotifind/state.py:385-387 | Definition of `d[k]` for a key the dict holds; `Put` and `PutKeepsOthers` state what it reads. Every handler tests `HasKey` first and ends in `Raised(KeyError)` or `None` where the code would raise KeyError. |
| OrderedDict.AllValues | spotifind/state.py:359-363 | Definition of `[item for sublist in lib_tracks.values() for item in sublist]`: the stored lists concatenated in key order. `GetInAllValues` states what it holds. |
| OrderedDict.GetInAllValues | spotifind/state.py:359-363 | Every track of every stored list is part of the flattened library. |
| AppState.State.FetchRpTracks | spotifind/state.py:98-107 | The recent list is replaced by the answer for the 50 latest plays, and the recent genre flag is cleared. |
| AppState.State.FetchLikedTracksBatch | spotifind/state.py:109-118 | The next page of liked songs is requested at offset = number of liked songs held and is appended after them. The key order is unchanged and the liked genre flag is cleared. |
| Paging.CollectAll | spotifind/state.py:208-212 | The `while next` loop collects exactly the items of every page of the chain, in order. |
| Paging.AllItems | spotifind/state.py:208-212 | Definition of the collected items: the items of the first page followed by those of every `next` page, in order. `CollectAll` and `AllItemsArePages` state what it is. |
| Paging.AllItemsArePages | spotifind/state.py:229-233 | The collected items are the concatenation of the pages, one page per request. |
| Paging.CollectedIffOnSomePage | spotifind/state.py:229-233 | An item is collected iff some page of the chain holds it. |
| AppState.State.FetchPlaylists | spotifind/state.py:205-224 | `playlists` becomes the playlists of every page, in order, with repeated names numbered. |
| PlaylistNames.Disambiguated | spotifind/state.py:216-224 | Definition of the renamed playlists: playlist i gets `DisplayName`, its name when it is the first with that name and "name (k)" for the k-th. `DisambiguatedKeepsPlaylists` states its properties, and `DisambiguateNames` is proved equal to it. |
| PlaylistNames.DisplayName | spotifind/state.py:219-224 | Definition of the name playlist i ends with, from its occurrence number among the names so far. `FirstKeptRepeatsNumbered` states it. |
| PlaylistNames.Numbered | spotifind/state.py:222 | Definition of `f"{name} ({k})"`; `NumberedInjective` states that it determines both parts. |
| Text.NatToString | spotifind/state.py:222 | The decimal digits of a count: non-empty, all digits, one digit iff the count is below 10. |
| PlaylistNames.DisambiguateNames | spotifind/state.py:216-224 | The in-place counting loop leaves the array equal to `Disambiguated` of its old contents. |
| PlaylistNames.DisambiguatedKeepsPlaylists | spotifind/state.py:216-224 | Renaming keeps the number and order of playlists and every field but the name. The first playlist with a name keeps it; a later one is named "name (k)", where k >= 2 is its occurrence number. |
| PlaylistNames.CountsStep | spotifind/state.py:219-224 | One loop step keeps the per-name counts equal to the occurrences seen so far, and renames exactly when the name was seen before. |
| PlaylistNames.FirstKeptRepeatsNumbered | spotifind/state.py:220-224 | The first playlist with a name keeps it; every later one gets its occurrence number, which is at least 2. |
| PlaylistNames.OccurrenceGrows | spotifind/state.py:221 | A later repeat of a name gets a higher number than an earlier one. |
| PlaylistNames.NumberedInjective | spotifind/state.py:222 | "X (k)" determines both X and k. |
| Text.NatToStringInjective | spotifind/state.py:222 | Different counts are written differently. |
| PlaylistNames.DisplayNamesUnique | spotifind/state.py:216-224 | When no fetched name already looks like "X (k)" with k >= 2, the names after renaming are pairwise different. |
| PlaylistNames.RenamedNameCanCollide | spotifind/state.py:216-224 | Without that precondition, the names "a", "a", "a (2)" end as "a", "a (2)", "a (2)". |
| PlaylistNames.ChillExample | spotifind/state.py:216-224 | The names "Chill", "Chill", "Workout" become "Chill", "Chill (2)", "Workout". |
| Api.PlayableTracksSpec | spotifind/state.py:235-240 | A track is kept iff some entry holds it, that entry has a track and its URI does not contain "spotify:local". At most as many tracks are kept as there were entries. |
| Api.PlayableTracks | spotifind/state.py:235-240 | Definition of the kept tracks: the tracks of the entries that have a track whose URI does not contain "spotify:local", in order. `PlayableTracksSpec`, `NoLocalTracks` and `PlayableTracksAppend` state its properties. |
| Api.Playable | spotifind/state.py:238-239 | Definition of the comprehension's filter: the entry has a track and its URI does not contain "spotify:local". `PlayableTracksSpec` states that exactly the tracks of such entries are kept. |
| Text.Contains | spotifind/state.py:239 | Definition of `sub in s` on strings, used for the local-file test. |
| Api.NoLocalTracks | spotifind/state.py:238-239 | No kept track is a local file. |
| Api.PlayableTracksAppend | spotifind/state.py:235-240 | Filtering works page by page, so the kept tracks stay in playlist order. |
| AppState.State.FetchTracksForPlaylist | spotifind/state.py:226-240 | The playable tracks of every page of the playlist are stored under the playlist's name, and every other list is kept. |
| AppState.State.LoadRecentAndLiked | spotifind/state.py:243-244 | The recent list is replaced, then one page of liked songs is appended. Both genre flags end cleared. |
| AppState.State.OnLoadLibraryFetch | spotifind/state.py:242-247 | The library is loaded in source order: recent plays, one page of liked songs, then the playlists. With no playlist the call raises IndexError after these, and the selection is left as it was. Otherwise the first playlist is selected and its tracks are stored under its name. |
| GenreCache.Pending | spotifind/state.py:127-132 | A URI is pending iff it is among the requested URIs and not in the cache. |
| GenreCache.ListOfSet | spotifind/state.py:127-132 | `list(set)` lists every element of the set once. |
| GenreCache.FetchInChunks | spotifind/state.py:134-138 | The loop sends the chunks `s[i:i+50]` in order and appends the answers in request order. |
| GenreCache.Chunks | spotifind/state.py:134-136 | Definition of `[s[i:i + 50] for i in range(0, len(s), 50)]`. `ChunksFlatten` and `ChunksShape` state its properties. |
| GenreCache.Fetched | spotifind/state.py:134-138 | Definition of the answers of the lookups, appended in request order. |
| GenreCache.ChunksFlatten | spotifind/state.py:134-136 | Chunking neither loses, repeats nor reorders a URI. |
| GenreCache.ChunksShape | spotifind/state.py:134-136 | There are ceil(n / 50) chunks, each of 1 to 50 URIs. |
| GenreCache.ChunkingIsBatching | spotifind/state.py:126-138 | Chunking a repetition-free listing of the pending URIs is a batching of them, with ceil(pending / 50) lookups of 1 to 50 URIs each. |
| GenreCache.BatchCount | spotifind/state.py:126-138 | Any batching of the pending URIs makes exactly ceil(pending / 50) lookups, each of 1 to 50 URIs. |
| GenreCache.RequestedOnce | spotifind/state.py:126-138 | A URI is requested in some batch iff it is pending; it is then requested exactly once, since the listing has no repetition. |
| GenreCache.NothingPendingNoBatches | spotifind/state.py:126-138 | When every requested artist is already cached, no lookup is made. |
| GenreCache.MergeKeepsCache | spotifind/state.py:140-151 | After the merge, every cached entry is present with its cached genres. The keys are the cached ones plus the answered URIs. |
| GenreCache.MergeTakesLastAnswer | spotifind/state.py:140-151 | An answered artist that was not cached gets the genres of its last answer. |
| GenreCache.DictOfArtistsLast | spotifind/state.py:140-149 | The dict comprehension holds a URI iff some answer has it, with the genres of the last answer for it. |
| GenreCache.DictOfArtists | spotifind/state.py:140-149 | Definition of the dict comprehension over the answers, where a later answer for a URI replaces an earlier one. `DictOfArtistsLast` states it. |
| GenreCache.Merge | spotifind/state.py:150-151 | Definition of `genre_lookup.update(existing_genre_lookup)`. `MergeKeepsCache` and `MergeTakesLastAnswer` state its properties. |
| GenreCache.SecondCallFetchesNothing | spotifind/state.py:120-153 | When the lookup answers every URI it is sent, the updated cache covers every requested artist, so the same request again has nothing pending. |
| GenreCache.UpdateGenreDict | spotifind/state.py:120-153 | Only pending URIs are looked up: each exactly once, in ceil(pending / 50) batches of 1 to 50. The result is the answers merged under the existing entries. |
| Enrichment.ArtistOfTrackIsRequested | spotifind/state.py:159-164 | Every artist of every track is among the URIs passed to the cache update. |
| Enrichment.ArtistUrisOf | spotifind/state.py:159-164 | Definition of the flattened artist URIs of a track list, in order. |
| Enrichment.EnrichKeepsTracks | spotifind/state.py:171-180 | Enrichment keeps the length and order of the list. Track i of the result is track i of the input with only its genres replaced, by the flattener's answer for its artists. |
| Enrichment.Enrich | spotifind/state.py:171-180 | Definition of the comprehension that gives each track the flattener's genres for its artists. `EnrichKeepsTracks` and `EnrichIdempotent` state its properties. |
| Records.Track.WithArtistGenres | spotifind/state.py:171-180 | `track.with_artist_genres(g)` gives the same track (URI, name, artists) with genres `g`. |
| Enrichment.EnrichIdempotent | spotifind/state.py:171-180 | Enriching twice against the same cache gives what enriching once gives. |
| Enrichment.EnrichedArtistsAreCached | spotifind/state.py:156-180 | When the lookup answers every URI, the cache used for annotating holds every artist of every track. |
| AppState.State.FetchGenresForTrackList | spotifind/state.py:156-180 | The cache is updated by a batching of the tracks' pending artists, and the tracks are enriched from the updated cache. |
| AppState.State.AddGenresToLibTrackList | spotifind/state.py:183-186 | A stored list is enriched in place, and the key order is unchanged. An unknown name raises KeyError before any lookup or change. |
| AppState.State.FetchGenresRp | spotifind/state.py:188-190 | The recent list is enriched and the recent genre flag is set. |
| AppState.State.FetchGenresLiked | spotifind/state.py:192-194 | The liked list is enriched and the liked genre flag is set. |
| AppState.State.FetchGenresSelectedPl | spotifind/state.py:196-203 | The selected playlist's list is enriched. The selection and every playlist with its name are flagged, and nothing else changes. A missing list raises KeyError and changes nothing. |
| AppState.MarkGenres | spotifind/state.py:199-203 | Exactly the playlists with the given name become flagged; every field but the flag and every other playlist is kept. |
| Records.Playlist.WithGenreFlagTrue | spotifind/state.py:198-200 | `with_genre_flag_true()` gives the same playlist (URI, name) with its genre flag set. |
| Recommendation.ParamNamesDistinct | spotifind/state.py:260-269 | The five target keys differ pairwise, and none is a seed key or the limit. |
| Recommendation.ParamName | spotifind/state.py:260-269 | The keyword a feature's target is sent under, `target_<feature>`. |
| Recommendation.KeysDistinct | spotifind/state.py:256-269 | The eight keyword names differ pairwise. |
| Recommendation.TargetParam | spotifind/state.py:260-269 | A target is sent as its value iff its slider is enabled, and as `None` otherwise. |
| Recommendation.GenerationParamsKeys | spotifind/state.py:256-271 | The request always carries exactly the three seed/limit keys and the five target keys. |
| Recommendation.GenerationParamsValues | spotifind/state.py:256-271 | The seeds and the limit pass unchanged. Under each feature's key stands its slider value iff the slider is enabled, and `None` otherwise. |
| Recommendation.GenerationParams | spotifind/state.py:256-271 | Definition of `generation_params_dict`. `GenerationParamsKeys` and `GenerationParamsValues` state its keys and values. |
| Recommendation.DisabledValueIgnored | spotifind/state.py:260-269 | Moving a disabled slider does not change the request. |
| Recommendation.DanceabilityOnlyExample | spotifind/state.py:256-271 | With only danceability enabled at 70, danceability is sent as 70 and the other targets as `None`. |
| Recommendation.Targets.With | spotifind/state.py:59-95 | Changing one slider leaves the other four unchanged. |
| AppState.State.SetTargetEnabled | spotifind/state.py:62-90 | The switch of one feature is set, and its value and the other sliders are kept. |
| AppState.State.SetTargetValue | spotifind/state.py:64-93 | The value of one feature is set (as the integer UI value), and its switch and the other sliders are kept. |
| AppState.State.RecommendationParams | spotifind/state.py:256-271 | The request carries the seed artist URIs, the seed track URIs, `num_recommendations` and each target as its value when enabled, `None` otherwise. |
| AppState.State.FetchRecommendations | spotifind/state.py:251-287 | The recommended tracks for the current parameters are enriched through the cache, as `_fetch_genres_for_track_list` does. |
| AppState.FirstNamedSpec | spotifind/state.py:313-318 | The lookup fails iff no playlist has the name; otherwise it finds the first one that has it. |
| AppState.FirstNamed | spotifind/state.py:313-318 | `[pl for pl in playlists if pl.playlist_name == name][0]`: a playlist found has the name and is one of the playlists. `FirstNamedSpec` states that it is the first such one, and when the lookup fails. |
| AppState.State.SelectPlaylist | spotifind/state.py:312-321 | The first playlist with the name is selected. Its tracks are fetched only when no list of that name is stored. An unknown name raises IndexError and changes nothing. |
| Seeds.AddIfAbsent | spotifind/state.py:336-348 | The item is present afterwards. It is appended at the end when it was absent, and nothing changes otherwise. The old seeds stay as a prefix, and a repetition-free list stays repetition-free. |
| Seeds.RemoveAllSpec | spotifind/state.py:340-355 | Removing drops every copy of the item and keeps the count of every other item. Removing an absent item changes nothing. |
| Seeds.RemoveAll | spotifind/state.py:340-355 | Definition of the filter `[y for y in s if y != x]`. `RemoveAllSpec` and `RemoveAllDistributes` state its properties. |
| Seeds.RemoveAllDistributes | spotifind/state.py:340-355 | Removal works piecewise, so the remaining items keep their relative order. |
| Seeds.Filter | spotifind/state.py:328-355 | Definition of `[y for y in s if keep(y)]`, the comprehension of every remove handler. `FilterSpec` and `FilterDistributes` state its properties. |
| Seeds.FilterSpec | spotifind/state.py:328-355 | Every item kept passes the test, every item that passes keeps its count, and a list whose items all pass is unchanged. |
| Seeds.FilterDistributes | spotifind/state.py:328-355 | Filtering works piecewise, so the kept items keep their relative order. |
| Seeds.Differs | spotifind/state.py:340-355 | Definition of the test `y != x` of the genre and artist remove handlers. |
| Seeds.RemoveTrackUri | spotifind/state.py:328-334 | Definition of the filter `[(u, s) for u, s in seeds if u != uri]`; its properties are stated by the two lemmas below. |
| Seeds.UriDiffers | spotifind/state.py:328-334 | Definition of the test `u != uri` on a seed's URI, whatever its source. |
| Seeds.RemoveTrackUriSpec | spotifind/state.py:328-334 | Every seed with the URI is dropped, whatever its source. Every other seed keeps its count, and an absent URI changes nothing. |
| Seeds.RemoveTrackUriDistributes | spotifind/state.py:328-334 | Removal works piecewise, so the remaining track seeds keep their relative order. |
| Seeds.AddTrackAsWritten | spotifind/state.py:324-326 | The add as written always appends `(uri, source)`. |
| Seeds.AddTrackTwiceDuplicates | spotifind/state.py:325 | As written, adding the same track twice leaves its URI in the seeds twice. |
| Seeds.AddTrackIfAbsent | spotifind/state.py:324-326 | With the intended guard, the URI is a seed afterwards. A URI already present changes nothing, and seed URIs stay repetition-free. |
| Seeds.GuardedAddAgrees | algify/algify.py:65-70 | While the add button is enabled (the URI is not a seed yet), the add as written does what the intended guard does. |
| AppState.State.AddTrackUriToSeeds | spotifind/state.py:324-326 | As written, the `(uri, source)` pair is always appended, even when the URI is already a seed. |
| AppState.State.RemoveTrackUriFromSeeds | spotifind/state.py:328-334 | Every seed with the URI is removed. |
| AppState.State.AddGenreToSeeds | spotifind/state.py:336-338 | The genre is appended unless already present. |
| AppState.State.RemoveGenreFromSeeds | spotifind/state.py:340-344 | Every copy of the genre is removed. |
| AppState.State.AddArtistToSeeds | spotifind/state.py:346-348 | The (URI, name) pair is appended unless already present. |
| AppState.State.RemoveArtistFromSeeds | spotifind/state.py:351-355 | Every copy of the pair is removed. |
| Seeds.UrisOf | spotifind/state.py:369-375 | The seed URIs are the first components of the pairs, in order. |
| AppState.State.SeedTrackUris | spotifind/state.py:369-371 | Definition of `seed_track_uris`, the URIs of the track seeds in order (see `UrisOf`). |
| AppState.State.SeedArtistUris | spotifind/state.py:373-375 | Definition of `seed_artist_uris`, the URIs of the artist seeds in order (see `UrisOf`). |
| Seeds.FirstWithUri | spotifind/state.py:365 | A track is found iff some track has the URI. The one found has the URI and is the first such track: no earlier track has it. |
| Seeds.SeedTracks | spotifind/state.py:357-367 | The lookup succeeds iff every seed URI is in some stored list. It then gives, in seed order, for each seed URI the first track with that URI in the concatenation of the stored lists. |
| AppState.SeedFromLibraryIsFound | spotifind/state.py:357-367 | A seed picked from any stored list is found by `seed_tracks`. |
| AppState.State.SeedTrackList | spotifind/state.py:357-367 | `seed_tracks` succeeds iff every seed URI is held by some stored track. It then gives, in seed order, for each seed URI the first track with that URI, taking the stored lists in key order. |
| AppState.State.SeedCount | spotifind/state.py:393-395 | `total_seeds` is the number of seed artists plus the number of seed tracks, whenever `seed_tracks` does not raise. |
| AppState.State.GenerateIsDisabled | algify/algify.py:378-383 | The Generate button is enabled iff there are 1 to 5 seeds. |
| Seeds.GenerateEnabledIff | spotifind/state.py:393-402 | `too_many_seeds or too_few_seeds` is false iff the total is between 1 and 5, so 0 and 6 seeds are rejected. |
| Seeds.TotalSeeds | spotifind/state.py:393-395 | Definition of `total_seeds`, the number of seed artists plus the number of seed tracks. |
| Seeds.TooManySeeds | spotifind/state.py:396-398 | Definition of `too_many_seeds`, a total above 5. |
| Seeds.TooFewSeeds | spotifind/state.py:400-402 | Definition of `too_few_seeds`, a total of 0. |
| Seeds.GenerateDisabled | algify/algify.py:378-383 | Definition of the Generate button's disabled condition, `too_many_seeds or too_few_seeds`. |
| AppState.State.SelectedPlaylistTracks | spotifind/state.py:385-387 | The selected playlist's tracks are the list stored under its name; reading it raises KeyError when none is stored. |
| Text.StripEmptyIff | spotifind/state.py:584-589 | A stripped string is empty iff the input is all whitespace. |
| Text.StripAround | spotifind/state.py:584-589 | `strip` removes exactly the whitespace around a core that starts and ends with a non-space character. |
| SearchQuery.ArtistClause | spotifind/state.py:571-573 | The artist clause is present iff its switch is on and its text is non-empty. It starts with a blank and "a", and ends with a quote. |
| SearchQuery.Active | spotifind/state.py:571-582 | Definition of `<x>_search_enabled and len(search_<x>) > 0`. Each clause's contract states that the clause is present iff it holds, and `QueryEmptyIff` that the query is empty iff it holds for none. |
| SearchQuery.TrackClause | spotifind/state.py:574-576 | The track clause is present iff its switch is on and its text is non-empty. It starts with "t" (no blank) and ends with a quote. |
| SearchQuery.GenreClause | spotifind/state.py:577-579 | The genre clause is present iff its switch is on and its text is non-empty. It starts with a blank and "g", and ends with a quote. |
| SearchQuery.YearClause | spotifind/state.py:580-582 | The year clause is present iff its switch is on and its text is non-empty, and it is then ` year:<text>` without quotes. |
| SearchQuery.JoinedClauses | spotifind/state.py:584-589 | The clauses are concatenated in the order artist, track, genre, year. |
| SearchQuery.QuotedClausesShape | spotifind/state.py:571-579 | The first three clauses, when any is present, start with a keyword after at most one blank, and end with a quote. |
| SearchQuery.CombinedQueryShape | spotifind/state.py:570-589 | The query is the active clauses in fixed order. Only the leading blank is dropped and, when the year clause comes last, the trailing whitespace of the year text; no other character is touched. |
| SearchQuery.QueryEmptyIff | spotifind/state.py:570-593 | The query is empty, and search disabled, iff no clause is active. |
| SearchQuery.CombinedQuery | spotifind/state.py:570-589 | Definition of `combined_search_query`: the four clauses concatenated in order, then stripped. `CombinedQueryShape` and `QueryEmptyIff` state what it gives. |
| SearchQuery.SearchDisabled | spotifind/state.py:591-593 | Definition of `search_disabled`, an empty query. `QueryEmptyIff` states when it holds. |
| Text.Strip | spotifind/state.py:589 | Definition of `str.strip()`, `lstrip` then `rstrip`. `StripEmptyIff` and `StripAround` state what it removes. |
| SearchQuery.ArtistTrackAdjacent | spotifind/state.py:571-576 | An artist and a track alone give `artist:"A"track:"N"`, with no separator. |
| SearchQuery.YearOnlyExample | spotifind/state.py:580-589 | A year alone typed as "2020  " gives `year:2020`. |
| Search.ArtistPairs | spotifind/state.py:555-559 | Each artist answer becomes its (URI, name) pair, in order. |
| Search.SearchState.constructor | spotifind/state.py:443-493 | A new panel has empty inputs with every switch on, no artist results, nothing fetched, and the default result kind and page size. |
| Search.SearchState.IsSearchDisabled | spotifind/state.py:591-593 | Search is disabled iff no clause is active. |
| Search.SearchState.Query | spotifind/state.py:569-589 | The panel's query is `CombinedQuery` of its four inputs. |
| Search.SearchState.SearchResultTracks | spotifind/state.py:595-597 | `search_result_tracks` is the list stored under "____search". |
| Paging.SearchOffset | spotifind/state.py:532 | A fresh search sends no offset; "load more" sends the number of results held. |
| Paging.NextResultsReplacesOrAppends | spotifind/state.py:537-542 | A fresh search replaces the stored results with the page; "load more" appends the page after them. |
| Paging.NextResults | spotifind/state.py:537-542 | Definition of `stored * (not initial) + page`; `NextResultsReplacesOrAppends` states what it gives. |
| Paging.Repeat | spotifind/state.py:537-542 | `xs * n` has n times the length of `xs`, starts with `xs` when n > 0, and holds only items of `xs`. |
| Search.SearchState.SearchTracks | spotifind/state.py:527-544 | One page of tracks is requested at the offset rule, stored under "____search" by the replace/append rule, and `more_results_exist` records whether a next page exists. |
| Search.SearchState.SearchArtists | spotifind/state.py:545-561 | One page of artists is requested at the offset of the artist results held, and stored as (URI, name) pairs by the replace/append rule. |
| Search.SearchState.FetchSearchResults | spotifind/state.py:520-562 | An empty query changes nothing. Otherwise "Tracks" mode updates only the stored track results, and any other mode only the artist results. |
| Search.SearchState.Searched | spotifind/state.py:520-562 | The state change of one search, stated before and after: an empty query changes nothing. Otherwise one page of the current mode is requested at the offset rule, stored by the replace/append rule, and the other mode's results are kept. |
| Search.SearchState.FetchMoreSearchResults | spotifind/state.py:565-566 | "Load more" is a search that appends. |
| Search.SearchState.SetSearchResultsType | spotifind/state.py:459-471 | Choosing "Artists" switches the name and year clauses off, and any other kind switches them on. Then a fresh search runs. |
| Search.SearchState.SetSearchGenre | spotifind/state.py:473-475 | Only the genre text changes, then a fresh search runs. |
| Search.SearchState.SetSearchYear | spotifind/state.py:477-479 | Only the year text changes, then a fresh search runs. |
| Search.SearchState.SetSearchName | spotifind/state.py:481-483 | Only the track-name text changes, then a fresh search runs. |
| Search.SearchState.SetSearchArtist | spotifind/state.py:485-487 | Only the artist text changes, then a fresh search runs. |
| Search.SearchState.StageGenreForSearch | spotifind/state.py:495-498 | The genre clause is switched on with the given text, then a fresh search runs. |
| Search.SearchState.ToggleGenreSearch | spotifind/state.py:500-502 | Only the genre switch changes, then a fresh search runs. |
| Search.SearchState.ToggleNameSearch | spotifind/state.py:504-507 | The name switch changes only in "Tracks" mode. A fresh search runs either way. |
| Search.SearchState.ToggleYearSearch | spotifind/state.py:509-512 | The year switch changes only in "Tracks" mode. A fresh search runs either way. |
| Search.SearchState.ToggleArtistSearch | spotifind/state.py:514-516 | Only the artist switch changes, then a fresh search runs. |

## Left out

- **Unshown helpers.** `flatten_list_of_lists` and `flat_genre_list_for_artist_uris` come from a utilities module that is not part of this model. The first is modelled as concatenation. The second is the parameter `flat`, so nothing is assumed about de-duplication or the order of the genres it returns.
- **Record constructors.** The `Track` and `Playlist` constructors come from a data module that is not part of this model. Tracks and playlists are records of the fields the core reads, and the API answers are already such records.
- **Constants module.** `NUM_RECCOMENDATIONS_DEFAULT`, `SEARCH_RESULTS_TYPE_DEFAULT` and `NUM_SEARCH_RESULTS_DEFAULT` come from a constants module that is not part of this model. They are constructor parameters.
- **Client calls.** Every Spotify call is an input of the `Api.Spotify` datatype: its answers are given, not computed.
- **Client failures.** The modelled client always answers, and every artist answer is a record with a URI and genres. In the code any call can raise (a network or HTTP error), and `artists(chunk)` can answer `None` for an unknown URI, which makes `a['uri']` raise TypeError (`spotifind/state.py:137-141`). The handler then stops at that point and the assignments it already made stay. For example, `on_load_library_fetch` keeps the new recent and liked lists when `fetch_playlists` fails. In `_update_genre_dict_from_artist_uris` the batches fetched so far are discarded and `_genre_lookup` keeps its old value, because the assignment at lines 165-169 never runs. None of these failure paths is modelled.
- **Authentication.** OAuth setup, scopes and client construction (`spotifind/state.py:9-40`) are credential plumbing.
- **Playback.** `play_track_uris`, `play_all_recommended_tracks`, `queue_track_uri` and `active_devices` (`spotifind/state.py:290-308, 412-414`) are guards around remote calls.
- **The playlist dialog.** `PlaylistDialogState` (`spotifind/state.py:416-441`) is a dialog toggle and a remote playlist creation.
- **Trivial views.** `rp_tracks`, `liked_tracks`, `playlist_names`, `recommendations_generated` and `recc_track_uris` (`spotifind/state.py:377-391, 404-410`) each read one field. `SelectedPlaylistTracks` and `SearchResultTracks` stand for the pattern.
- **Reactivity and debugging output.** Reflex reactivity (`@rx.var` recomputation, event dispatch) and the `print` / `ic` output are not modelled.
- AppState.State.SetTargetValue: stores the integer slider value, not the float `value / 100`, because floating point is not modelled. The request therefore carries the UI value (0 to 100) rather than its normalised form.
- AppState.State.Valid: requires only the four fixed keys, to keep the handlers' proofs small. That the keys of `lib_tracks` never repeat is proved separately for every assignment (`OrderedDict.PutKeepsKeysDistinct`).
- **Object sharing.** `FetchPlaylists` renames in place on an array of playlist values, which is fresh for each fetch. The playlist objects the code mutates are not shared elsewhere in the code, so no aliasing is modelled.
- **Search inputs as one record.** The four search inputs and their switches are one field, `inputs`, of type `SearchInputs`. Each is a `Field(value, enabled)`.

## Findings

| source | as written | input that shows it | evidently intended | confidence | as-written member | corrected member |
|---|---|---|---|---|---|---|
| spotifind/state.py:325 | `uri not in self.seed_track_uris_with_source` compares a URI string with `(uri, source)` tuples, so it is always true and the seed is always appended | `add_track_uri_to_seeds("u", "liked")` called twice leaves `[("u", "liked"), ("u", "liked")]` | append only when the URI is not yet a seed URI (`uri not in self.seed_track_uris`), keeping seed URIs repetition-free | not executed | Seeds.AddTrackAsWritten, Seeds.AddTrackTwiceDuplicates | Seeds.AddTrackIfAbsent, Seeds.GuardedAddAgrees |

The handler `AppState.State.AddTrackUriToSeeds` keeps the code as written. The add button is disabled while the URI is a seed (algify/algify.py:70), and `Seeds.GuardedAddAgrees` shows that under that condition the code as written does what the corrected guard does.
