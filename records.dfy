/** Value records of the library view: tracks, playlists, artists, paginated
    responses and the outcome of an event handler that may raise. */
module Records {

  datatype Option<+T> = None | Some(value: T)

  type Uri = string
  type Genre = string

  /** A track as built from an API item. Only the fields the core reads are
      kept: the track's identity, its artists and its genre annotation. */
  datatype Track = Track(uri: Uri, name: string, artistUris: seq<Uri>, genres: seq<Genre>)
  {
    /** The same track with its genre annotation replaced. */
    function WithArtistGenres(g: seq<Genre>): (t: Track)
      ensures t.uri == uri && t.name == name && t.artistUris == artistUris && t.genres == g
    {
      this.(genres := g)
    }
  }

  datatype Playlist = Playlist(uri: Uri, name: string, hasGenres: bool)
  {
    function WithGenreFlagTrue(): (p: Playlist)
      ensures p.uri == uri && p.name == name && p.hasGenres
    {
      this.(hasGenres := true)
    }
  }

  /** The playlist selected before anything is fetched. */
  const EmptyPlaylist := Playlist("", "", false)

  /** An artist as returned by an artist lookup or an artist search. */
  datatype Artist = Artist(uri: Uri, name: string, genres: seq<Genre>)

  /** An entry of a playlist: the track is missing for removed or unavailable items. */
  datatype PlaylistItem = PlaylistItem(track: Option<Track>)

  /** One page of a paginated API response; `next` is the following page, if any. */
  datatype Response<T> = Response(items: seq<T>, next: Option<Response<T>>)

  /** The exception an event handler stops with. */
  datatype PyError = KeyError(key: string) | IndexError

  /** How an event handler ended: normally, or by raising. */
  datatype Outcome = Done | Raised(error: PyError)
}
