/** The search panel (spotifind/state.py:443-597): four query inputs with
    their switches, the kind of result searched for, and the stored
    results. Track results live in the library under "____search"; artist
    results are (URI, name) pairs. Every change re-runs the search. */
module Search {
  import opened Records
  import opened OrderedDict
  import opened Paging
  import opened SearchQuery
  import opened Seeds
  import opened Api
  import opened AppState

  /** The result kinds the type selector offers. */
  const TracksType := "Tracks"
  const ArtistsType := "Artists"

  /** `[(i['uri'], i['name']) for i in items]`. */
  function ArtistPairs(artists: seq<Artist>): (r: seq<ArtistSeed>)
    ensures |r| == |artists|
    ensures forall i :: 0 <= i < |artists| ==> r[i].0 == artists[i].uri && r[i].1 == artists[i].name
  {
    seq(|artists|, i requires 0 <= i < |artists| => (artists[i].uri, artists[i].name))
  }

  /** The query inputs: `search_artist` with `artist_search_enabled`,
      `search_name` with `name_search_enabled`, `search_genre` with
      `genre_search_enabled` and `search_year` with `year_search_enabled`. */
  datatype SearchInputs = SearchInputs(artist: Field, name: Field, genre: Field, year: Field)

  /** Empty inputs, every switch on. */
  const InitialInputs := SearchInputs(Field("", true), Field("", true), Field("", true), Field("", true))

  class SearchState {
    /** The library state the search panel shares. */
    const app: State

    var inputs: SearchInputs
    var searchResultsType: string
    var artistResults: seq<ArtistSeed>
    var numResults: int
    var moreResultsExist: bool
    var resultsFetched: bool

    /** A new panel: empty inputs, every switch on; the initial result kind
        and page size are the application's defaults. */
    constructor(app: State, resultsType: string, numResults: int)
      ensures this.app == app && searchResultsType == resultsType && this.numResults == numResults
      ensures inputs == InitialInputs
      ensures artistResults == [] && !moreResultsExist && !resultsFetched
    {
      this.app := app;
      inputs := InitialInputs;
      searchResultsType := resultsType;
      artistResults := [];
      this.numResults := numResults;
      moreResultsExist := false;
      resultsFetched := false;
    }

    /** `combined_search_query`. */
    function Query(): string
      reads this`inputs
    {
      CombinedQuery(inputs.artist, inputs.name, inputs.genre, inputs.year)
    }

    /** `search_disabled`: no clause is active. */
    predicate IsSearchDisabled()
      reads this`inputs
      ensures IsSearchDisabled() <==>
        !Active(inputs.artist) && !Active(inputs.name) && !Active(inputs.genre) && !Active(inputs.year)
    {
      QueryEmptyIff(inputs.artist, inputs.name, inputs.genre, inputs.year);
      |Query()| == 0
    }

    /** `search_result_tracks`. */
    function SearchResultTracks(): seq<Track>
      reads app`libTracks
      requires app.Valid()
    {
      Get(app.libTracks, SearchKey)
    }

    /** What one run of `fetch_search_results` did: nothing for an empty
        query; otherwise one page of tracks (in "Tracks" mode) or of artists
        (in any other mode), which replaces the stored results for a fresh
        query and is appended to them for "load more", with the offset of
        the results already held. */
    twostate predicate Searched(initial: bool)
      requires old(app.Valid())
      reads this`inputs, this`searchResultsType, this`numResults, this`artistResults,
            this`moreResultsExist, this`resultsFetched, app`libTracks
    {
      var q := Query();
      if |q| == 0 then
        app.libTracks == old(app.libTracks) && artistResults == old(artistResults)
        && moreResultsExist == old(moreResultsExist) && resultsFetched == old(resultsFetched)
      else if searchResultsType == TracksType then
        var held := Get(old(app.libTracks), SearchKey);
        var page := app.sp.searchTracks(SearchRequest(q, TrackSearch, numResults, SearchOffset(initial, |held|)));
        app.libTracks == Put(old(app.libTracks), SearchKey, NextResults(held, page.items, initial))
        && moreResultsExist == page.next.Some? && resultsFetched
        && artistResults == old(artistResults)
      else
        var held := old(artistResults);
        var page := app.sp.searchArtists(SearchRequest(q, ArtistSearch, numResults, SearchOffset(initial, |held|)));
        artistResults == NextResults(held, ArtistPairs(page.items), initial)
        && moreResultsExist == page.next.Some? && resultsFetched
        && app.libTracks == old(app.libTracks)
    }

    /** `fetch_search_results`. */
    method FetchSearchResults(initial: bool)
      requires app.Valid()
      modifies app`libTracks, this`artistResults, this`moreResultsExist, this`resultsFetched
      ensures app.Valid()
      ensures Searched(initial)
    {
      var q := Query();
      if |q| > 0 {
        if searchResultsType == TracksType {
          SearchTracks(q, initial);
        } else {
          SearchArtists(q, initial);
        }
      }
    }

    /** One page of track results for the query `q`, stored in the library. */
    method SearchTracks(q: string, initial: bool)
      requires app.Valid()
      modifies app`libTracks, this`moreResultsExist, this`resultsFetched
      ensures app.Valid()
      ensures var held := Get(old(app.libTracks), SearchKey);
        var page := app.sp.searchTracks(SearchRequest(q, TrackSearch, numResults, SearchOffset(initial, |held|)));
        app.libTracks == Put(old(app.libTracks), SearchKey, NextResults(held, page.items, initial))
        && moreResultsExist == page.next.Some? && resultsFetched
    {
      var lib := app.libTracks;
      var held := Get(lib, SearchKey);
      var page := app.sp.searchTracks(SearchRequest(q, TrackSearch, numResults, SearchOffset(initial, |held|)));
      var stored := NextResults(held, page.items, initial);
      PutKeepsLibrary(lib, SearchKey, stored);
      moreResultsExist := page.next.Some?;
      app.libTracks := Put(lib, SearchKey, stored);
      resultsFetched := true;
    }

    /** One page of artist results for the query `q`. */
    method SearchArtists(q: string, initial: bool)
      modifies this`artistResults, this`moreResultsExist, this`resultsFetched
      ensures var page := app.sp.searchArtists(SearchRequest(q, ArtistSearch, numResults, SearchOffset(initial, |old(artistResults)|)));
        artistResults == NextResults(old(artistResults), ArtistPairs(page.items), initial)
        && moreResultsExist == page.next.Some? && resultsFetched
    {
      var page := app.sp.searchArtists(SearchRequest(q, ArtistSearch, numResults, SearchOffset(initial, |artistResults|)));
      moreResultsExist := page.next.Some?;
      artistResults := NextResults(artistResults, ArtistPairs(page.items), initial);
      resultsFetched := true;
    }

    /** `fetch_more_search_results`. */
    method FetchMoreSearchResults()
      requires app.Valid()
      modifies app`libTracks, this`artistResults, this`moreResultsExist, this`resultsFetched
      ensures app.Valid()
      ensures Searched(false)
    {
      FetchSearchResults(false);
    }

    /** `set_search_results_type`: "Artists" switches the name and year
        clauses off, any other kind switches them on; then searches. */
    method SetSearchResultsType(t: string)
      requires app.Valid()
      modifies this`searchResultsType, this`inputs,
               app`libTracks, this`artistResults, this`moreResultsExist, this`resultsFetched
      ensures app.Valid()
      ensures searchResultsType == t
      ensures inputs == old(inputs).(name := old(inputs).name.(enabled := t != ArtistsType),
                                     year := old(inputs).year.(enabled := t != ArtistsType))
      ensures Searched(true)
    {
      searchResultsType := t;
      if searchResultsType == ArtistsType {
        inputs := inputs.(name := inputs.name.(enabled := false), year := inputs.year.(enabled := false));
      } else {
        inputs := inputs.(name := inputs.name.(enabled := true), year := inputs.year.(enabled := true));
      }
      FetchSearchResults(true);
    }

    method SetSearchGenre(genre: string)
      requires app.Valid()
      modifies this`inputs, app`libTracks, this`artistResults, this`moreResultsExist, this`resultsFetched
      ensures app.Valid()
      ensures inputs == old(inputs).(genre := old(inputs).genre.(value := genre))
      ensures Searched(true)
    {
      inputs := inputs.(genre := inputs.genre.(value := genre));
      FetchSearchResults(true);
    }

    method SetSearchYear(year: string)
      requires app.Valid()
      modifies this`inputs, app`libTracks, this`artistResults, this`moreResultsExist, this`resultsFetched
      ensures app.Valid()
      ensures inputs == old(inputs).(year := old(inputs).year.(value := year))
      ensures Searched(true)
    {
      inputs := inputs.(year := inputs.year.(value := year));
      FetchSearchResults(true);
    }

    method SetSearchName(name: string)
      requires app.Valid()
      modifies this`inputs, app`libTracks, this`artistResults, this`moreResultsExist, this`resultsFetched
      ensures app.Valid()
      ensures inputs == old(inputs).(name := old(inputs).name.(value := name))
      ensures Searched(true)
    {
      inputs := inputs.(name := inputs.name.(value := name));
      FetchSearchResults(true);
    }

    method SetSearchArtist(artist: string)
      requires app.Valid()
      modifies this`inputs, app`libTracks, this`artistResults, this`moreResultsExist, this`resultsFetched
      ensures app.Valid()
      ensures inputs == old(inputs).(artist := old(inputs).artist.(value := artist))
      ensures Searched(true)
    {
      inputs := inputs.(artist := inputs.artist.(value := artist));
      FetchSearchResults(true);
    }

    /** `stage_genre_for_search`: searches for a genre picked elsewhere. */
    method StageGenreForSearch(genre: string)
      requires app.Valid()
      modifies this`inputs, app`libTracks, this`artistResults, this`moreResultsExist, this`resultsFetched
      ensures app.Valid()
      ensures inputs == old(inputs).(genre := Field(genre, true))
      ensures Searched(true)
    {
      inputs := inputs.(genre := inputs.genre.(enabled := true));
      inputs := inputs.(genre := inputs.genre.(value := genre));
      FetchSearchResults(true);
    }

    method ToggleGenreSearch(enabled: bool)
      requires app.Valid()
      modifies this`inputs, app`libTracks, this`artistResults, this`moreResultsExist, this`resultsFetched
      ensures app.Valid()
      ensures inputs == old(inputs).(genre := old(inputs).genre.(enabled := enabled))
      ensures Searched(true)
    {
      inputs := inputs.(genre := inputs.genre.(enabled := enabled));
      FetchSearchResults(true);
    }

    /** `toggle_name_search`: takes effect only in "Tracks" mode; searches either way. */
    method ToggleNameSearch(enabled: bool)
      requires app.Valid()
      modifies this`inputs, app`libTracks, this`artistResults, this`moreResultsExist, this`resultsFetched
      ensures app.Valid()
      ensures inputs == if searchResultsType == TracksType
                        then old(inputs).(name := old(inputs).name.(enabled := enabled))
                        else old(inputs)
      ensures Searched(true)
    {
      if searchResultsType == TracksType {
        inputs := inputs.(name := inputs.name.(enabled := enabled));
      }
      FetchSearchResults(true);
    }

    /** `toggle_year_search`: takes effect only in "Tracks" mode; searches either way. */
    method ToggleYearSearch(enabled: bool)
      requires app.Valid()
      modifies this`inputs, app`libTracks, this`artistResults, this`moreResultsExist, this`resultsFetched
      ensures app.Valid()
      ensures inputs == if searchResultsType == TracksType
                        then old(inputs).(year := old(inputs).year.(enabled := enabled))
                        else old(inputs)
      ensures Searched(true)
    {
      if searchResultsType == TracksType {
        inputs := inputs.(year := inputs.year.(enabled := enabled));
      }
      FetchSearchResults(true);
    }

    method ToggleArtistSearch(enabled: bool)
      requires app.Valid()
      modifies this`inputs, app`libTracks, this`artistResults, this`moreResultsExist, this`resultsFetched
      ensures app.Valid()
      ensures inputs == old(inputs).(artist := old(inputs).artist.(enabled := enabled))
      ensures Searched(true)
    {
      inputs := inputs.(artist := inputs.artist.(enabled := enabled));
      FetchSearchResults(true);
    }
  }
}
