/** The seed set (spotifind/state.py:324-402): seed tracks with the list
    they were picked from, seed artists, seed genres, and the counts that
    enable or disable generating recommendations. */
module Seeds {
  import opened Records
  import opened Sequences
  import opened OrderedDict

  /** A seed track: its URI and the list it was picked from. */
  type TrackSeed = (Uri, string)

  /** A seed artist: its URI and its name. */
  type ArtistSeed = (Uri, string)

  /** The recommendation request takes at most this many seeds. */
  const MaxSeeds := 5

  /** `if x not in s: s = [*s, x]` (add_genre_to_seeds, add_artist_to_seeds). */
  function AddIfAbsent<T(==)>(s: seq<T>, x: T): (r: seq<T>)
    ensures x in r
    ensures |r| == if x in s then |s| else |s| + 1
    ensures r[..|s|] == s
    ensures Distinct(s) ==> Distinct(r)
  {
    if x in s then s else s + [x]
  }

  /** `[y for y in s if keep(y)]`: the list comprehension behind every
      remove_*_from_seeds handler. */
  function Filter<T>(s: seq<T>, keep: T -> bool): (r: seq<T>)
  {
    if s == [] then []
    else (if keep(s[0]) then [s[0]] else []) + Filter(s[1..], keep)
  }

  /** The filter keeps exactly the items that pass, each as often as
      before, and changes nothing when every item passes. */
  lemma {:induction false} FilterSpec<T>(s: seq<T>, keep: T -> bool)
    ensures forall y :: y in Filter(s, keep) ==> keep(y)
    ensures forall y :: keep(y) ==> multiset(Filter(s, keep))[y] == multiset(s)[y]
    ensures (forall y :: y in s ==> keep(y)) ==> Filter(s, keep) == s
  {
    if s != [] {
      FilterSpec(s[1..], keep);
      assert s == [s[0]] + s[1..];
    }
  }

  /** Filtering works piecewise, so what stays keeps its relative order. */
  lemma {:induction false} FilterDistributes<T>(a: seq<T>, b: seq<T>, keep: T -> bool)
    ensures Filter(a + b, keep) == Filter(a, keep) + Filter(b, keep)
  {
    if a != [] {
      assert (a + b)[0] == a[0] && (a + b)[1..] == a[1..] + b;
      FilterDistributes(a[1..], b, keep);
    } else {
      assert a + b == b;
    }
  }

  /** The test of remove_genre_from_seeds and remove_artist_from_seeds: `y != x`. */
  function Differs<T(==)>(x: T): T -> bool
  {
    y => y != x
  }

  /** `[y for y in s if y != x]` (remove_genre_from_seeds, remove_artist_from_seeds). */
  function RemoveAll<T(==)>(s: seq<T>, x: T): (r: seq<T>)
  {
    Filter(s, Differs(x))
  }

  /** Removing drops every copy of the item, keeps how often each other
      item occurs, and changes nothing when the item is absent. */
  lemma {:induction false} RemoveAllSpec<T>(s: seq<T>, x: T)
    ensures x !in RemoveAll(s, x)
    ensures forall y :: y != x ==> multiset(RemoveAll(s, x))[y] == multiset(s)[y]
    ensures x !in s ==> RemoveAll(s, x) == s
  {
    FilterSpec(s, Differs(x));
  }

  /** Removing works piecewise, so what stays keeps its relative order. */
  lemma {:induction false} RemoveAllDistributes<T>(a: seq<T>, b: seq<T>, x: T)
    ensures RemoveAll(a + b, x) == RemoveAll(a, x) + RemoveAll(b, x)
  {
    FilterDistributes(a, b, Differs(x));
  }

  /** `seed_track_uris` / `seed_artist_uris`: the URIs of a list of pairs. */
  function UrisOf(pairs: seq<(Uri, string)>): (us: seq<Uri>)
    ensures |us| == |pairs| && forall i :: 0 <= i < |pairs| ==> us[i] == pairs[i].0
  {
    seq(|pairs|, i requires 0 <= i < |pairs| => pairs[i].0)
  }

  /** The test of remove_track_uri_from_seeds: the seed's URI is not `uri`,
      whatever its source. */
  function UriDiffers(uri: Uri): TrackSeed -> bool
  {
    (p: TrackSeed) => p.0 != uri
  }

  /** `[(u, s) for u, s in seeds if u != uri]` (remove_track_uri_from_seeds). */
  function RemoveTrackUri(seeds: seq<TrackSeed>, uri: Uri): (r: seq<TrackSeed>)
  {
    Filter(seeds, UriDiffers(uri))
  }

  /** Removing a track URI drops every seed with that URI whatever its
      source, and keeps every other seed. */
  lemma {:induction false} RemoveTrackUriSpec(seeds: seq<TrackSeed>, uri: Uri)
    ensures uri !in UrisOf(RemoveTrackUri(seeds, uri))
    ensures forall p: TrackSeed :: p.0 != uri ==> multiset(RemoveTrackUri(seeds, uri))[p] == multiset(seeds)[p]
    ensures uri !in UrisOf(seeds) ==> RemoveTrackUri(seeds, uri) == seeds
  {
    FilterSpec(seeds, UriDiffers(uri));
    var r := RemoveTrackUri(seeds, uri);
    forall i | 0 <= i < |r| ensures UrisOf(r)[i] != uri {
      assert r[i] in r;
    }
    if uri !in UrisOf(seeds) {
      forall p | p in seeds ensures UriDiffers(uri)(p) {
        var i :| 0 <= i < |seeds| && seeds[i] == p;
        assert UrisOf(seeds)[i] == p.0;
      }
    }
  }

  /** Removing works piecewise, so the remaining track seeds keep their
      relative order. */
  lemma {:induction false} RemoveTrackUriDistributes(a: seq<TrackSeed>, b: seq<TrackSeed>, uri: Uri)
    ensures RemoveTrackUri(a + b, uri) == RemoveTrackUri(a, uri) + RemoveTrackUri(b, uri)
  {
    FilterDistributes(a, b, UriDiffers(uri));
  }

  /** `add_track_uri_to_seeds` as written: its guard `uri not in
      seed_track_uris_with_source` compares a string with (uri, source)
      tuples, which never match, so the seed is always appended. */
  function AddTrackAsWritten(seeds: seq<TrackSeed>, uri: Uri, source: string): (r: seq<TrackSeed>)
    ensures |r| == |seeds| + 1 && r[..|seeds|] == seeds && r[|seeds|] == (uri, source)
  {
    seeds + [(uri, source)]
  }

  /** The evidently intended guard: append only when the URI is not a seed yet. */
  function AddTrackIfAbsent(seeds: seq<TrackSeed>, uri: Uri, source: string): (r: seq<TrackSeed>)
    ensures uri in UrisOf(r)
    ensures Distinct(UrisOf(seeds)) ==> Distinct(UrisOf(r))
    ensures uri in UrisOf(seeds) ==> r == seeds
  {
    if uri in UrisOf(seeds) then seeds
    else
      var r := seeds + [(uri, source)];
      assert UrisOf(r) == UrisOf(seeds) + [uri];
      r
  }

  /** As written, adding the same track twice leaves a duplicate seed URI. */
  lemma AddTrackTwiceDuplicates(uri: Uri, source: string)
    ensures var twice := AddTrackAsWritten(AddTrackAsWritten([], uri, source), uri, source);
      twice == [(uri, source), (uri, source)] && !Distinct(UrisOf(twice))
  {
    var twice := AddTrackAsWritten(AddTrackAsWritten([], uri, source), uri, source);
    assert UrisOf(twice)[0] == UrisOf(twice)[1];
  }

  /** The add button is disabled while the URI is already a seed
      (algify/algify.py:70); under that guard the code as written does what
      the intended guard does. */
  lemma GuardedAddAgrees(seeds: seq<TrackSeed>, uri: Uri, source: string)
    requires uri !in UrisOf(seeds)
    ensures AddTrackAsWritten(seeds, uri, source) == AddTrackIfAbsent(seeds, uri, source)
  {
  }

  /** `total_seeds`. */
  function TotalSeeds(numArtists: nat, numTracks: nat): nat
  {
    numArtists + numTracks
  }

  /** `too_many_seeds`. */
  predicate TooManySeeds(total: nat)
  {
    total > MaxSeeds
  }

  /** `too_few_seeds`. */
  predicate TooFewSeeds(total: nat)
  {
    total == 0
  }

  /** The Generate button is disabled when either flag holds (algify/algify.py:382). */
  predicate GenerateDisabled(total: nat)
  {
    TooManySeeds(total) || TooFewSeeds(total)
  }

  /** Generating is possible with 1 to 5 seeds and with no other count. */
  lemma GenerateEnabledIff(numArtists: nat, numTracks: nat)
    ensures !GenerateDisabled(TotalSeeds(numArtists, numTracks))
      <==> 1 <= numArtists + numTracks <= MaxSeeds
  {
  }

  /** `[t for t in tracks if t.uri == u][0]`, or nothing when no track matches. */
  function FirstWithUri(tracks: seq<Track>, u: Uri): (r: Option<Track>)
    ensures r.Some? <==> exists i :: 0 <= i < |tracks| && tracks[i].uri == u
    ensures r.Some? ==> r.value in tracks && r.value.uri == u
    ensures r.Some? ==> exists i :: 0 <= i < |tracks| && tracks[i] == r.value
                                 && forall j :: 0 <= j < i ==> tracks[j].uri != u
  {
    if tracks == [] then None
    else if tracks[0].uri == u then Some(tracks[0])
    else
      var r := FirstWithUri(tracks[1..], u);
      assert forall i :: 1 <= i < |tracks| ==> tracks[i] == tracks[1..][i - 1];
      if r.Some? then
        var i :| 0 <= i < |tracks[1..]| && tracks[1..][i] == r.value
                 && forall j :: 0 <= j < i ==> tracks[1..][j].uri != u;
        assert tracks[i + 1] == r.value;
        r
      else r
  }

  /** `seed_tracks`: the library track of each seed URI, in seed order;
      `None` stands for the IndexError raised when a seed URI is in no
      stored list. */
  function SeedTracks(library: Dict<string, seq<Track>>, uris: seq<Uri>): (r: Option<seq<Track>>)
    ensures r.Some? <==> forall u :: u in uris ==> FirstWithUri(AllValues(library), u).Some?
    ensures r.Some? ==> |r.value| == |uris|
    ensures r.Some? ==>
      forall i :: 0 <= i < |uris| ==> r.value[i].uri == uris[i] && r.value[i] in AllValues(library)
    ensures r.Some? ==>
      forall i :: 0 <= i < |uris| ==> FirstWithUri(AllValues(library), uris[i]) == Some(r.value[i])
  {
    if uris == [] then Some([])
    else
      var first := FirstWithUri(AllValues(library), uris[0]);
      var rest := SeedTracks(library, uris[1..]);
      assert forall u :: u in uris <==> u == uris[0] || u in uris[1..];
      if first.None? || rest.None? then None
      else Some([first.value] + rest.value)
  }
}
